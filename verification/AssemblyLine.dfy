/**
 The Assembly Line queue (apps/windows/GuiState.cs): entries changed in place, and the check that Load
 and Save make.  The queue's laws are proved of entry values; every method is proved to do to its
 objects what the function of the same purpose does to the values.
 */
module AssemblyLine {
  import opened Wrappers
  import opened Text
  import opened Splitting
  import opened Jobs

  datatype Status = Pending | Running | Completed | Failed | Cancelled | Interrupted | Unrecognized

  /** The texts the program itself writes as an entry's result, and any other. */
  datatype Result = Waiting | RetryApproved | ClosedEarly | Starting | Other(text: string)

  datatype Publication = LocalOnly | OtherPublication(name: string)

  datatype Stage = Queued | StartingStage | OtherStage(name: string)

  datatype EntryValue = EntryValue(
    id: Utf16, title: Utf16, repository: Utf16, frozen: Utf16, status: Status, stage: Stage, attempt: int,
    result: Result, runId: Utf16, publicationStatus: Publication, publicationUrl: Utf16, publicationSha: Utf16,
    createdAt: int, updatedAt: int)

  const MAXIMUM_PENDING := 100

  /** JSON, identifiers and full paths; None for an exception. */
  datatype Store = Store(
    jobs: Platform, serialize: Job -> Option<Utf16>, deserialize: Utf16 -> Option<Job>,
    fullPath: Utf16 -> Option<Utf16>, isId: Utf16 -> bool)

  /** What the theorems need of them: a job read back has the repository it was written with, blank text
      is no job, a full path is not blank and is its own full path. */
  ghost predicate Reasonable(k: Store) {
    && (forall j :: k.serialize(j).Some? && k.deserialize(k.serialize(j).value).Some? ==>
          k.deserialize(k.serialize(j).value).value.repository == j.repository)
    && (forall t :: IsBlank(t) ==> k.deserialize(t).None?)
    && (forall p :: k.fullPath(p).Some? ==> !IsBlank(k.fullPath(p).value) && k.fullPath(k.fullPath(p).value) == k.fullPath(p))
  }

  // ---------- What Load and Save accept ----------

  predicate IsActive(e: EntryValue) {
    e.status == Pending || e.status == Running
  }

  function ActiveCount(es: seq<EntryValue>): nat {
    if es == [] then 0 else ActiveCount(es[..|es| - 1]) + if IsActive(es[|es| - 1]) then 1 else 0
  }

  function RunningCount(es: seq<EntryValue>): nat {
    if es == [] then 0 else RunningCount(es[..|es| - 1]) + if es[|es| - 1].status == Running then 1 else 0
  }

  predicate IsEntry(k: Store, e: EntryValue) {
    && k.isId(e.id) && !IsBlank(e.title) && !IsBlank(e.repository) && !IsBlank(e.frozen) && e.status != Unrecognized
    && var job := k.deserialize(e.frozen);
       && job.Some? && FormErrorOf(k.jobs, job, false).None?
       && var a, b := k.fullPath(job.value.repository), k.fullPath(e.repository);
          a.Some? && b.Some? && SameFold(k.jobs.fold, a.value, b.value)
  }

  predicate UniqueIds(es: seq<EntryValue>) {
    forall i, j :: 0 <= i < j < |es| ==> es[i].id != es[j].id
  }

  /** Everything but the limit on pending entries. */
  predicate IsSound(k: Store, es: seq<EntryValue>) {
    UniqueIds(es) && (forall i :: 0 <= i < |es| ==> IsEntry(k, es[i])) && RunningCount(es) <= 1
  }

  predicate IsLoadable(k: Store, es: seq<EntryValue>) {
    IsSound(k, es) && ActiveCount(es) <= MAXIMUM_PENDING
  }

  // ---------- The operations on values ----------

  function Trim(s: Utf16): (r: Utf16)
    ensures r == [] || (!IsWhite(r[0]) && !IsWhite(r[|r| - 1]))
    ensures IsBlank(s) ==> r == []
    decreases |s|
  {
    if s == [] then []
    else if IsWhite(s[0]) then Trim(s[1..])
    else if IsWhite(s[|s| - 1]) then Trim(s[..|s| - 1])
    else s
  }

  function FirstLine(s: Utf16): Utf16 {
    if s == [] || s[0] == CARRIAGE_RETURN || s[0] == LINE_FEED then [] else [s[0]] + FirstLine(s[1..])
  }

  function Title(specification: Utf16): (r: Utf16)
    ensures !IsBlank(r) && |r| <= 80
  {
    var text := Trim(specification);
    var line := if CARRIAGE_RETURN in text || LINE_FEED in text then Trim(FirstLine(text)) else text;
    var cut := if |line| > 80 then line[..77] + Ascii("...") else line;
    if cut == [] then
      var untitled := Ascii("Untitled feature");
      assert untitled[0] == 'U' as int as CodeUnit;
      untitled
    else
      assert cut[0] == line[0];
      cut
  }

  datatype AddError = LineFull | NotSerialized | NotReadBack | Rejected(error: JobError) | NoFullPath

  datatype Added = Accepted(entry: EntryValue) | Refused(error: AddError)

  /** The entry Add would append, or why it refuses. */
  function NewEntry(k: Store, es: seq<EntryValue>, job: Job, id: Utf16, now: int): Added {
    if ActiveCount(es) >= MAXIMUM_PENDING then Refused(LineFull)
    else
      var frozen := k.serialize(job);
      if frozen.None? then Refused(NotSerialized)
      else
        var back := k.deserialize(frozen.value);
        if back.None? then Refused(NotReadBack)
        else
          var error := FormErrorOf(k.jobs, back, true);
          var repository := k.fullPath(job.repository);
          if error.Some? then Refused(Rejected(error.value))
          else if repository.None? then Refused(NoFullPath)
          else Accepted(EntryValue(id, Title(job.specification), repository.value, frozen.value, Pending, Queued, 0,
                                   Waiting, [], LocalOnly, [], [], now, now))
  }

  predicate CanRetry(e: EntryValue) {
    e.status in {Failed, Cancelled, Interrupted}
  }

  function Retried(e: EntryValue, now: int): EntryValue {
    if CanRetry(e) then e.(status := Pending, stage := Queued, attempt := 0, result := RetryApproved, runId := [], updatedAt := now)
    else e
  }

  function Closed(e: EntryValue, now: int): EntryValue {
    if e.status == Running then e.(status := Interrupted, result := ClosedEarly, updatedAt := now) else e
  }

  /** `clock(i)` is the time read when entry i is closed. */
  function Recovered(es: seq<EntryValue>, clock: nat -> int): (r: seq<EntryValue>)
    ensures |r| == |es| && forall i :: 0 <= i < |es| ==> r[i] == Closed(es[i], clock(i))
  {
    if es == [] then [] else Recovered(es[..|es| - 1], clock) + [Closed(es[|es| - 1], clock(|es| - 1))]
  }

  function Removed(es: seq<EntryValue>, i: nat): seq<EntryValue>
    requires i < |es|
  {
    if es[i].status == Running then es else es[..i] + es[i + 1..]
  }

  /** The first pending entry, or the length. */
  function FirstPendingIndex(es: seq<EntryValue>): (i: nat)
    ensures i <= |es| && (i < |es| ==> es[i].status == Pending)
    ensures forall j :: 0 <= j < i ==> es[j].status != Pending
  {
    if es == [] then 0 else if es[0].status == Pending then 0 else 1 + FirstPendingIndex(es[1..])
  }

  /** The first pending entry starts running. */
  function Started(es: seq<EntryValue>, now: int): seq<EntryValue> {
    var i := FirstPendingIndex(es);
    if i == |es| then es
    else es[i := es[i].(status := Running, stage := StartingStage, result := Starting, updatedAt := now)]
  }

  datatype Outcome = Outcome(status: Status, stage: Stage, attempt: int, result: Result, runId: Utf16)

  function Finished(e: EntryValue, o: Outcome, now: int): EntryValue {
    if e.status == Running && o.status in {Completed, Failed, Cancelled} then
      e.(status := o.status, stage := o.stage, attempt := o.attempt, result := o.result, runId := o.runId, updatedAt := now)
    else e
  }

  /** What the queue's owner can do, and (Start, Finish) what the loop that runs the line does. */
  datatype Operation =
    | Add(job: Job, id: Utf16, now: int)
    | Retry(index: nat, now: int)
    | Remove(index: nat)
    | Recover(clock: nat -> int)
    | Start(now: int)
    | Finish(index: nat, outcome: Outcome, now: int)

  /** A refused operation changes nothing. */
  function Apply(k: Store, es: seq<EntryValue>, op: Operation): seq<EntryValue> {
    match op
    case Add(job, id, now) =>
      var added := NewEntry(k, es, job, id, now);
      if added.Accepted? then es + [added.entry] else es
    case Retry(i, now) => if i < |es| then es[i := Retried(es[i], now)] else es
    case Remove(i) => if i < |es| then Removed(es, i) else es
    case Recover(clock) => Recovered(es, clock)
    case Start(now) => Started(es, now)
    case Finish(i, o, now) => if i < |es| then es[i := Finished(es[i], o, now)] else es
  }

  function ApplyAll(k: Store, es: seq<EntryValue>, ops: seq<Operation>): seq<EntryValue>
    decreases |ops|
  {
    if ops == [] then es else ApplyAll(k, Apply(k, es, ops[0]), ops[1..])
  }

  // ---------- Counting ----------

  lemma {:induction false} CountsConcat(a: seq<EntryValue>, b: seq<EntryValue>)
    ensures ActiveCount(a + b) == ActiveCount(a) + ActiveCount(b)
    ensures RunningCount(a + b) == RunningCount(a) + RunningCount(b)
  {
    if b == [] {
      assert a + b == a;
    } else {
      assert (a + b)[..|a + b| - 1] == a + b[..|b| - 1];
      CountsConcat(a, b[..|b| - 1]);
    }
  }

  lemma CountOne(e: EntryValue)
    ensures ActiveCount([e]) == if IsActive(e) then 1 else 0
    ensures RunningCount([e]) == if e.status == Running then 1 else 0
  {
    assert [e][..0] == [];
  }

  lemma CountsAround(es: seq<EntryValue>, i: nat)
    requires i < |es|
    ensures ActiveCount(es) == ActiveCount(es[..i]) + (if IsActive(es[i]) then 1 else 0) + ActiveCount(es[i + 1..])
    ensures RunningCount(es) == RunningCount(es[..i]) + (if es[i].status == Running then 1 else 0) + RunningCount(es[i + 1..])
  {
    assert es == es[..i] + [es[i]] + es[i + 1..];
    CountsConcat(es[..i] + [es[i]], es[i + 1..]);
    CountsConcat(es[..i], [es[i]]);
    CountOne(es[i]);
  }

  lemma CountsReplaced(es: seq<EntryValue>, i: nat, e: EntryValue)
    requires i < |es|
    ensures ActiveCount(es[i := e]) == ActiveCount(es) - (if IsActive(es[i]) then 1 else 0) + (if IsActive(e) then 1 else 0)
    ensures RunningCount(es[i := e])
         == RunningCount(es) - (if es[i].status == Running then 1 else 0) + (if e.status == Running then 1 else 0)
  {
    var t := es[i := e];
    assert t[..i] == es[..i] && t[i + 1..] == es[i + 1..];
    CountsAround(es, i);
    CountsAround(t, i);
  }

  lemma CountsRemoved(es: seq<EntryValue>, i: nat)
    requires i < |es|
    ensures ActiveCount(es[..i] + es[i + 1..]) == ActiveCount(es) - if IsActive(es[i]) then 1 else 0
    ensures RunningCount(es[..i] + es[i + 1..]) <= RunningCount(es)
  {
    CountsAround(es, i);
    CountsConcat(es[..i], es[i + 1..]);
  }

  lemma {:induction false} CountsRecovered(es: seq<EntryValue>, clock: nat -> int)
    ensures RunningCount(Recovered(es, clock)) == 0
    ensures ActiveCount(Recovered(es, clock)) == ActiveCount(es) - RunningCount(es)
  {
    if es != [] {
      CountsRecovered(es[..|es| - 1], clock);
      var r := Recovered(es, clock);
      assert r[..|r| - 1] == Recovered(es[..|es| - 1], clock);
    }
  }

  function HalfRecovered(es: seq<EntryValue>, i: nat, clock: nat -> int): (r: seq<EntryValue>)
    requires i <= |es|
    ensures |r| == |es|
  {
    Recovered(es[..i], clock) + es[i..]
  }

  lemma RecoveredNext(es: seq<EntryValue>, i: nat, clock: nat -> int)
    requires i < |es|
    ensures HalfRecovered(es, i, clock)[i] == es[i]
    ensures HalfRecovered(es, i + 1, clock) == HalfRecovered(es, i, clock)[i := Closed(es[i], clock(i))]
    ensures RunningCount(es[..i + 1]) == RunningCount(es[..i]) + if es[i].status == Running then 1 else 0
  {
    assert es[..i + 1][..i] == es[..i];
  }

  lemma RecoveredEnds(es: seq<EntryValue>, clock: nat -> int)
    ensures HalfRecovered(es, |es|, clock) == Recovered(es, clock) && es[..|es|] == es
  {
    assert es[..|es|] == es && es[|es|..] == [];
  }

  // ---------- One operation ----------

  /** A new identifier is one, and new; the loop starts a feature only when none is running. */
  predicate IsLegal(k: Store, es: seq<EntryValue>, op: Operation) {
    match op
    case Add(_, id, _) => k.isId(id) && forall i :: 0 <= i < |es| ==> es[i].id != id
    case Start(_) => RunningCount(es) == 0
    case _ => true
  }

  /** The one way to exceed the limit: Retry does not count. */
  predicate Overfills(es: seq<EntryValue>, op: Operation) {
    op.Retry? && op.index < |es| && CanRetry(es[op.index]) && ActiveCount(es) == MAXIMUM_PENDING
  }

  /** What identifies an entry, and the job it holds, never change. */
  predicate SameFeature(a: EntryValue, b: EntryValue) {
    a.id == b.id && a.title == b.title && a.repository == b.repository && a.frozen == b.frozen && a.createdAt == b.createdAt
  }

  lemma SoundReplaced(k: Store, es: seq<EntryValue>, i: nat, e: EntryValue)
    requires IsSound(k, es) && i < |es|
    requires SameFeature(e, es[i]) && e.status != Unrecognized && (e.status == Running ==> RunningCount(es) == 0)
    ensures IsSound(k, es[i := e])
  {
    CountsReplaced(es, i, e);
    assert IsEntry(k, es[i]);
    assert forall j :: 0 <= j < |es| && j != i ==> es[i := e][j] == es[j];
  }

  lemma RemovedAt(es: seq<EntryValue>, i: nat)
    requires i < |es|
    ensures var r := es[..i] + es[i + 1..];
            |r| == |es| - 1 && forall j :: 0 <= j < |r| ==> r[j] == es[if j < i then j else j + 1]
  {
  }

  lemma SoundRemoved(k: Store, es: seq<EntryValue>, i: nat)
    requires IsSound(k, es) && i < |es|
    ensures IsSound(k, es[..i] + es[i + 1..])
  {
    CountsRemoved(es, i);
    var r := es[..i] + es[i + 1..];
    RemovedAt(es, i);
    forall j | 0 <= j < |r|
      ensures IsEntry(k, r[j])
    {
      assert IsEntry(k, es[if j < i then j else j + 1]);
    }
  }

  lemma SoundRecovered(k: Store, es: seq<EntryValue>, clock: nat -> int)
    requires IsSound(k, es)
    ensures IsSound(k, Recovered(es, clock))
  {
    CountsRecovered(es, clock);
    var r := Recovered(es, clock);
    forall i | 0 <= i < |es|
      ensures IsEntry(k, r[i]) && r[i].id == es[i].id
    {
      assert IsEntry(k, es[i]) && r[i] == Closed(es[i], clock(i));
    }
  }

  /** What Add creates, Load accepts. */
  lemma NewEntryIsEntry(k: Store, es: seq<EntryValue>, job: Job, id: Utf16, now: int)
    requires Reasonable(k) && k.isId(id) && NewEntry(k, es, job, id, now).Accepted?
    ensures IsEntry(k, NewEntry(k, es, job, id, now).entry)
  {
    var e := NewEntry(k, es, job, id, now).entry;
    var back := k.deserialize(e.frozen);
    assert k.serialize(job) == Some(e.frozen);
    assert back.value.repository == job.repository;
    assert !IsBlank(e.frozen);
    CheckedExactly(k.jobs, back);
    assert k.fullPath(job.repository) == Some(e.repository);
  }

  lemma UniqueAdded(es: seq<EntryValue>, e: EntryValue)
    requires UniqueIds(es) && forall i :: 0 <= i < |es| ==> es[i].id != e.id
    ensures UniqueIds(es + [e])
  {
  }

  lemma EntriesAdded(k: Store, es: seq<EntryValue>, e: EntryValue)
    requires IsEntry(k, e) && forall i :: 0 <= i < |es| ==> IsEntry(k, es[i])
    ensures forall i :: 0 <= i < |es + [e]| ==> IsEntry(k, (es + [e])[i])
  {
  }

  lemma SoundAdded(k: Store, es: seq<EntryValue>, e: EntryValue)
    requires IsSound(k, es) && IsEntry(k, e) && e.status == Pending
    requires forall i :: 0 <= i < |es| ==> es[i].id != e.id
    ensures IsSound(k, es + [e]) && ActiveCount(es + [e]) == ActiveCount(es) + 1
  {
    UniqueAdded(es, e);
    EntriesAdded(k, es, e);
    CountsConcat(es, [e]);
    CountOne(e);
  }

  lemma AddKeepsSound(k: Store, es: seq<EntryValue>, job: Job, id: Utf16, now: int)
    requires Reasonable(k) && IsSound(k, es) && IsLegal(k, es, Add(job, id, now))
    ensures IsSound(k, Apply(k, es, Add(job, id, now)))
  {
    var added := NewEntry(k, es, job, id, now);
    if added.Accepted? {
      NewEntryIsEntry(k, es, job, id, now);
      SoundAdded(k, es, added.entry);
    }
  }

  lemma StartKeepsSound(k: Store, es: seq<EntryValue>, now: int)
    requires IsSound(k, es) && RunningCount(es) == 0
    ensures IsSound(k, Started(es, now))
  {
    var i := FirstPendingIndex(es);
    if i < |es| {
      SoundReplaced(k, es, i, Started(es, now)[i]);
    }
  }

  lemma RetryKeepsSound(k: Store, es: seq<EntryValue>, i: nat, now: int)
    requires IsSound(k, es) && i < |es|
    ensures IsSound(k, es[i := Retried(es[i], now)])
  {
    if CanRetry(es[i]) {
      SoundReplaced(k, es, i, Retried(es[i], now));
    } else {
      assert es[i := es[i]] == es;
    }
  }

  lemma FinishKeepsSound(k: Store, es: seq<EntryValue>, i: nat, o: Outcome, now: int)
    requires IsSound(k, es) && i < |es|
    ensures IsSound(k, es[i := Finished(es[i], o, now)])
  {
    if Finished(es[i], o, now) != es[i] {
      SoundReplaced(k, es, i, Finished(es[i], o, now));
    } else {
      assert es[i := es[i]] == es;
    }
  }

  /** Every operation keeps everything Load asks for but the limit. */
  lemma OperationKeepsSound(k: Store, es: seq<EntryValue>, op: Operation)
    requires Reasonable(k) && IsSound(k, es) && IsLegal(k, es, op)
    ensures IsSound(k, Apply(k, es, op))
  {
    match op
    case Add(job, id, now) => AddKeepsSound(k, es, job, id, now);
    case Retry(i, now) =>
      if i < |es| {
        RetryKeepsSound(k, es, i, now);
      }
    case Remove(i) =>
      if i < |es| {
        SoundRemoved(k, es, i);
      }
    case Recover(clock) => SoundRecovered(k, es, clock);
    case Start(now) => StartKeepsSound(k, es, now);
    case Finish(i, o, now) =>
      if i < |es| {
        FinishKeepsSound(k, es, i, o, now);
      }
  }

  lemma AddKeepsLimit(k: Store, es: seq<EntryValue>, job: Job, id: Utf16, now: int)
    requires ActiveCount(es) <= MAXIMUM_PENDING
    ensures ActiveCount(Apply(k, es, Add(job, id, now))) <= MAXIMUM_PENDING
  {
    var added := NewEntry(k, es, job, id, now);
    if added.Accepted? {
      CountsConcat(es, [added.entry]);
      CountOne(added.entry);
    }
  }

  /** And the limit too, with exactly one exception. */
  lemma OperationKeepsLimit(k: Store, es: seq<EntryValue>, op: Operation)
    requires ActiveCount(es) <= MAXIMUM_PENDING
    ensures ActiveCount(Apply(k, es, op)) <= MAXIMUM_PENDING <==> !Overfills(es, op)
  {
    match op
    case Add(job, id, now) => AddKeepsLimit(k, es, job, id, now);
    case Retry(i, now) =>
      if i < |es| {
        CountsReplaced(es, i, Retried(es[i], now));
      }
    case Remove(i) =>
      if i < |es| {
        CountsRemoved(es, i);
      }
    case Recover(clock) => CountsRecovered(es, clock);
    case Start(now) =>
      var i := FirstPendingIndex(es);
      if i < |es| {
        CountsReplaced(es, i, Started(es, now)[i]);
      }
    case Finish(i, o, now) =>
      if i < |es| {
        CountsReplaced(es, i, Finished(es[i], o, now));
      }
  }

  /** What Load accepts stays so under every operation but a retry when the line is full, which Save
      then refuses. */
  lemma LoadableExactly(k: Store, es: seq<EntryValue>, op: Operation)
    requires Reasonable(k) && IsLoadable(k, es) && IsLegal(k, es, op)
    ensures IsLoadable(k, Apply(k, es, op)) <==> !Overfills(es, op)
  {
    OperationKeepsSound(k, es, op);
    OperationKeepsLimit(k, es, op);
  }

  // ---------- Whole runs ----------

  predicate IsLegalRun(k: Store, es: seq<EntryValue>, ops: seq<Operation>)
    decreases |ops|
  {
    ops == [] || (IsLegal(k, es, ops[0]) && IsLegalRun(k, Apply(k, es, ops[0]), ops[1..]))
  }

  predicate EverOverfills(k: Store, es: seq<EntryValue>, ops: seq<Operation>)
    decreases |ops|
  {
    ops != [] && (Overfills(es, ops[0]) || EverOverfills(k, Apply(k, es, ops[0]), ops[1..]))
  }

  lemma {:induction false} RunsKeepLoadable(k: Store, es: seq<EntryValue>, ops: seq<Operation>)
    requires Reasonable(k) && IsSound(k, es) && IsLegalRun(k, es, ops)
    ensures IsSound(k, ApplyAll(k, es, ops))
    ensures IsLoadable(k, es) && !EverOverfills(k, es, ops) ==> IsLoadable(k, ApplyAll(k, es, ops))
    decreases |ops|
  {
    if ops != [] {
      OperationKeepsSound(k, es, ops[0]);
      if IsLoadable(k, es) {
        LoadableExactly(k, es, ops[0]);
      }
      RunsKeepLoadable(k, Apply(k, es, ops[0]), ops[1..]);
    }
  }

  lemma RecoveryIsIdempotent(es: seq<EntryValue>, clock: nat -> int, later: nat -> int)
    ensures Recovered(Recovered(es, clock), later) == Recovered(es, clock)
    ensures RunningCount(Recovered(es, clock)) == 0
  {
    CountsRecovered(es, clock);
    var r := Recovered(es, clock);
    assert forall i :: 0 <= i < |es| ==> Closed(r[i], later(i)) == r[i];
  }

  // ---------- First come, first served ----------

  /** `arrivals` lists every identifier ever added, in that order. */
  function Position(arrivals: seq<Utf16>, id: Utf16): (p: nat)
    ensures p <= |arrivals| && (p < |arrivals| <==> id in arrivals)
    ensures p < |arrivals| ==> arrivals[p] == id
  {
    if arrivals == [] then 0 else if arrivals[0] == id then 0 else 1 + Position(arrivals[1..], id)
  }

  predicate InOrder(arrivals: seq<Utf16>, es: seq<EntryValue>) {
    && (forall i :: 0 <= i < |es| ==> es[i].id in arrivals)
    && (forall i, j :: 0 <= i < j < |es| ==> Position(arrivals, es[i].id) < Position(arrivals, es[j].id))
  }

  function Arrive(k: Store, es: seq<EntryValue>, arrivals: seq<Utf16>, op: Operation): seq<Utf16> {
    if op.Add? && NewEntry(k, es, op.job, op.id, op.now).Accepted? then arrivals + [op.id] else arrivals
  }

  function ArriveAll(k: Store, es: seq<EntryValue>, arrivals: seq<Utf16>, ops: seq<Operation>): seq<Utf16>
    decreases |ops|
  {
    if ops == [] then arrivals
    else ArriveAll(k, Apply(k, es, ops[0]), Arrive(k, es, arrivals, ops[0]), ops[1..])
  }

  /** No identifier is ever used again, not even a removed one. */
  predicate NeverReused(k: Store, es: seq<EntryValue>, arrivals: seq<Utf16>, ops: seq<Operation>)
    decreases |ops|
  {
    ops == [] || (&& (ops[0].Add? ==> ops[0].id !in arrivals)
                  && NeverReused(k, Apply(k, es, ops[0]), Arrive(k, es, arrivals, ops[0]), ops[1..]))
  }

  lemma {:induction false} PositionAppended(arrivals: seq<Utf16>, x: Utf16, id: Utf16)
    requires x !in arrivals
    ensures Position(arrivals + [x], id) == if id in arrivals then Position(arrivals, id)
                                            else if id == x then |arrivals| else |arrivals| + 1
  {
    if arrivals != [] {
      assert (arrivals + [x])[1..] == arrivals[1..] + [x];
      PositionAppended(arrivals[1..], x, id);
    }
  }

  lemma SameIdsKeepOrder(arrivals: seq<Utf16>, es: seq<EntryValue>, r: seq<EntryValue>)
    requires InOrder(arrivals, es) && |r| == |es| && forall i :: 0 <= i < |es| ==> r[i].id == es[i].id
    ensures InOrder(arrivals, r)
  {
  }

  lemma AppendKeepsOrder(arrivals: seq<Utf16>, es: seq<EntryValue>, e: EntryValue)
    requires InOrder(arrivals, es) && e.id !in arrivals
    ensures InOrder(arrivals + [e.id], es + [e])
  {
    forall id ensures id in arrivals ==> Position(arrivals + [e.id], id) == Position(arrivals, id) {
      PositionAppended(arrivals, e.id, id);
    }
    PositionAppended(arrivals, e.id, e.id);
  }

  lemma RemovalKeepsOrder(arrivals: seq<Utf16>, es: seq<EntryValue>, i: nat)
    requires InOrder(arrivals, es) && i < |es|
    ensures InOrder(arrivals, Removed(es, i))
  {
    RemovedAt(es, i);
  }

  lemma ArrivalKeepsOrder(k: Store, es: seq<EntryValue>, arrivals: seq<Utf16>, job: Job, id: Utf16, now: int)
    requires InOrder(arrivals, es) && id !in arrivals
    ensures InOrder(Arrive(k, es, arrivals, Add(job, id, now)), Apply(k, es, Add(job, id, now)))
  {
    var added := NewEntry(k, es, job, id, now);
    if added.Accepted? {
      AppendKeepsOrder(arrivals, es, added.entry);
    }
  }

  lemma OperationKeepsOrder(k: Store, es: seq<EntryValue>, arrivals: seq<Utf16>, op: Operation)
    requires InOrder(arrivals, es) && (op.Add? ==> op.id !in arrivals)
    ensures InOrder(Arrive(k, es, arrivals, op), Apply(k, es, op))
  {
    match op
    case Add(job, id, now) => ArrivalKeepsOrder(k, es, arrivals, job, id, now);
    case Remove(i) =>
      if i < |es| {
        RemovalKeepsOrder(arrivals, es, i);
      }
    case _ => SameIdsKeepOrder(arrivals, es, Apply(k, es, op));
  }

  lemma {:induction false} RunsKeepOrder(k: Store, es: seq<EntryValue>, arrivals: seq<Utf16>, ops: seq<Operation>)
    requires InOrder(arrivals, es) && NeverReused(k, es, arrivals, ops)
    ensures InOrder(ArriveAll(k, es, arrivals, ops), ApplyAll(k, es, ops))
    ensures arrivals <= ArriveAll(k, es, arrivals, ops)
    decreases |ops|
  {
    if ops != [] {
      OperationKeepsOrder(k, es, arrivals, ops[0]);
      RunsKeepOrder(k, Apply(k, es, ops[0]), Arrive(k, es, arrivals, ops[0]), ops[1..]);
    }
  }

  lemma FirstPendingArrivedFirst(arrivals: seq<Utf16>, es: seq<EntryValue>, j: nat)
    requires InOrder(arrivals, es) && j < |es| && es[j].status == Pending
    ensures var first := FirstPendingIndex(es);
            first <= j && es[first].status == Pending && Position(arrivals, es[first].id) <= Position(arrivals, es[j].id)
  {
  }

  /** After any run, the pending entry that will start next is the one that came first. */
  lemma FirstComeFirstServed(k: Store, es: seq<EntryValue>, arrivals: seq<Utf16>, ops: seq<Operation>, j: nat)
    requires InOrder(arrivals, es) && NeverReused(k, es, arrivals, ops)
    ensures var all, last := ArriveAll(k, es, arrivals, ops), ApplyAll(k, es, ops);
            var first := FirstPendingIndex(last);
            j < |last| && last[j].status == Pending ==>
              first <= j && last[first].status == Pending && Position(all, last[first].id) <= Position(all, last[j].id)
  {
    RunsKeepOrder(k, es, arrivals, ops);
    var last := ApplyAll(k, es, ops);
    if j < |last| && last[j].status == Pending {
      FirstPendingArrivedFirst(ArriveAll(k, es, arrivals, ops), last, j);
    }
  }

  // ---------- A full line ----------

  const ROOT: Utf16 := [0x42]
  const FILE: Utf16 := [0x41]
  const SAMPLE := Job(ROOT, FILE, Some([FILE]), Some(Validation(ROOT, None, 60)), FILE, FILE,
                      [], [], [], [], [], [], [], 1)

  function SampleStore(): Store {
    Store(Platform(p => p == ROOT, _ => true, _ => true, _ => true, c => c),
          job => if job == SAMPLE then Some(FILE) else None,
          text => if IsBlank(text) then None else Some(SAMPLE),
          path => if IsBlank(path) then None else Some(path),
          _ => true)
  }

  function SampleEntry(n: nat, status: Status): EntryValue {
    EntryValue(Repeat(0x41, n), FILE, ROOT, FILE, status, Queued, 0, Waiting, [], LocalOnly, [], [], 0, 0)
  }

  function PendingLine(n: nat): (es: seq<EntryValue>)
    ensures |es| == n && forall i :: 0 <= i < n ==> es[i] == SampleEntry(i, Pending)
  {
    if n == 0 then [] else PendingLine(n - 1) + [SampleEntry(n - 1, Pending)]
  }

  lemma {:induction false} PendingLineCounts(n: nat)
    ensures ActiveCount(PendingLine(n)) == n && RunningCount(PendingLine(n)) == 0
  {
    if n > 0 {
      PendingLineCounts(n - 1);
      assert PendingLine(n)[..n - 1] == PendingLine(n - 1);
    }
  }

  lemma SampleFile(h: Platform)
    requires h == SampleStore().jobs
    ensures FilesError(h, [FILE], 0).None?
  {
    SplitInverts([], FILE, SLASH);
    assert Terminated([], SLASH) + FILE == FILE && [] + [FILE] == [FILE];
    assert FILE[0] == 0x41 && Split(FILE, SLASH) == [FILE] && |Ascii(".git")| == 4;
    assert IsStep(FILE) && FileError(h, FILE, []).None?;
    FilesAccepted(h, [FILE], 0);
  }

  lemma SampleJob(h: Platform)
    requires h == SampleStore().jobs
    ensures FormErrorOf(h, Some(SAMPLE), false).None?
  {
    SampleFile(h);
    assert ROOT[0] == 0x42 && FILE[0] == 0x41;
    assert HeadError(h, SAMPLE, false).None?;
    assert SettingsError(h, SAMPLE, false).None?;
  }

  lemma SampleIsAccepted(n: nat, status: Status)
    requires status != Unrecognized
    ensures IsEntry(SampleStore(), SampleEntry(n, status))
  {
    SampleJob(SampleStore().jobs);
    assert ROOT[0] == 0x42 && FILE[0] == 0x41;
  }

  lemma FullLineIsLoadable(es: seq<EntryValue>)
    requires es == PendingLine(100) + [SampleEntry(100, Failed)]
    ensures IsLoadable(SampleStore(), es) && ActiveCount(es) == 100
  {
    forall i | 0 <= i < |es|
      ensures IsEntry(SampleStore(), es[i]) && |es[i].id| == i
    {
      SampleIsAccepted(i, es[i].status);
    }
    PendingLineCounts(100);
    CountsConcat(PendingLine(100), [SampleEntry(100, Failed)]);
    CountOne(SampleEntry(100, Failed));
  }

  /** A line of a hundred pending entries and a failed one is loadable; retrying the failed one makes a
      line that Save refuses. */
  lemma RetryMayOverfill()
    ensures var k, es := SampleStore(), PendingLine(100) + [SampleEntry(100, Failed)];
            Reasonable(k) && IsLoadable(k, es) && !IsLoadable(k, Apply(k, es, Retry(100, 0)))
  {
    var k, es := SampleStore(), PendingLine(100) + [SampleEntry(100, Failed)];
    FullLineIsLoadable(es);
    LoadableExactly(k, es, Retry(100, 0));
  }

  /** A line just loaded is in order of its own identifiers. */
  lemma LoadedInOrder(es: seq<EntryValue>)
    requires UniqueIds(es)
    ensures InOrder(seq(|es|, i requires 0 <= i < |es| => es[i].id), es)
  {
    var ids := seq(|es|, i requires 0 <= i < |es| => es[i].id);
    forall i | 0 <= i < |es|
      ensures es[i].id in ids && Position(ids, es[i].id) == i
    {
      assert ids[i] == es[i].id;
    }
  }
}
