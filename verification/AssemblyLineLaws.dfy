/**
 What the Assembly Line does to each feature, status by status, and when it takes a new one
 (apps/windows/GuiState.cs; the loop that runs the line, apps/windows/MainForm.cs).
 */
module AssemblyLineLaws {
  import opened Wrappers
  import opened Text
  import opened Splitting
  import opened Jobs
  import opened AssemblyLine

  // ---------- The four ways an entry changes ----------

  /** Everything but these fields stays. */
  ghost predicate Reopened(a: EntryValue, b: EntryValue) {
    && (a.status == Failed || a.status == Cancelled || a.status == Interrupted)
    && b.status == Pending && b.stage == Queued && b.attempt == 0 && b.result == RetryApproved && b.runId == []
    && b == a.(status := b.status, stage := b.stage, attempt := b.attempt, result := b.result, runId := b.runId,
               updatedAt := b.updatedAt)
  }

  ghost predicate Begun(a: EntryValue, b: EntryValue) {
    && a.status == Pending && b.status == Running && b.stage == StartingStage && b.result == Starting
    && b == a.(status := b.status, stage := b.stage, result := b.result, updatedAt := b.updatedAt)
  }

  ghost predicate Ended(a: EntryValue, b: EntryValue) {
    && a.status == Running && (b.status == Completed || b.status == Failed || b.status == Cancelled)
    && b == a.(status := b.status, stage := b.stage, attempt := b.attempt, result := b.result, runId := b.runId,
               updatedAt := b.updatedAt)
  }

  ghost predicate CutOff(a: EntryValue, b: EntryValue) {
    && a.status == Running && b.status == Interrupted && b.result == ClosedEarly
    && b == a.(status := b.status, result := b.result, updatedAt := b.updatedAt)
  }

  /** Retry reopens a failed, cancelled or interrupted entry, and changes nothing else. */
  lemma RetryReopens(k: Store, es: seq<EntryValue>, i: nat, now: int, j: nat)
    requires j < |es|
    ensures var after := Apply(k, es, Retry(i, now));
      && |after| == |es|
      && if i == j && es[j].status != Pending && es[j].status != Running && es[j].status != Completed && es[j].status != Unrecognized
         then Reopened(es[j], after[j]) && after[j].updatedAt == now
         else after[j] == es[j]
  {
  }

  /** Recovery cuts off every running entry, and changes nothing else. */
  lemma RecoveryCutsOff(k: Store, es: seq<EntryValue>, clock: nat -> int, j: nat)
    requires j < |es|
    ensures var after := Apply(k, es, Recover(clock));
      && |after| == |es|
      && if es[j].status == Running then CutOff(es[j], after[j]) && after[j].updatedAt == clock(j) else after[j] == es[j]
  {
  }

  /** Starting begins the first pending entry, if any, and changes nothing else. */
  lemma StartBegins(k: Store, es: seq<EntryValue>, now: int, j: nat)
    requires j < |es|
    ensures var after := Apply(k, es, Start(now));
      && |after| == |es|
      && if es[j].status == Pending && forall i :: 0 <= i < j ==> es[i].status != Pending
         then Begun(es[j], after[j]) && after[j].updatedAt == now
         else after[j] == es[j]
  {
  }

  /** Finishing ends the running entry it names, and changes nothing else. */
  lemma FinishEnds(k: Store, es: seq<EntryValue>, i: nat, o: Outcome, now: int, j: nat)
    requires j < |es|
    ensures var after := Apply(k, es, Finish(i, o, now));
      && |after| == |es|
      && if i == j && es[j].status == Running && (o.status == Completed || o.status == Failed || o.status == Cancelled)
         then Ended(es[j], after[j]) && after[j].updatedAt == now
              && o == Outcome(after[j].status, after[j].stage, after[j].attempt, after[j].result, after[j].runId)
         else after[j] == es[j]
  {
  }

  /** Removal takes out exactly the entry it names, unless it runs. */
  lemma RemovalTakesOut(k: Store, es: seq<EntryValue>, i: nat)
    ensures var after := Apply(k, es, Remove(i));
      if i < |es| && es[i].status != Running then after == es[..i] + es[i + 1..] else after == es
  {
  }

  // ---------- One entry through a run ----------

  function Find(es: seq<EntryValue>, id: Utf16): (e: Option<EntryValue>)
    ensures e.Some? ==> e.value.id == id
  {
    if es == [] then None else if es[0].id == id then Some(es[0]) else Find(es[1..], id)
  }

  lemma {:induction false} FindAt(es: seq<EntryValue>, i: nat)
    requires UniqueIds(es) && i < |es|
    ensures Find(es, es[i].id) == Some(es[i])
  {
    if i > 0 {
      assert es[1..][i - 1] == es[i];
      FindAt(es[1..], i - 1);
    }
  }

  lemma {:induction false} FindAbsent(es: seq<EntryValue>, id: Utf16)
    ensures Find(es, id).None? <==> forall i :: 0 <= i < |es| ==> es[i].id != id
  {
    if es != [] {
      FindAbsent(es[1..], id);
      assert forall i :: 1 <= i < |es| ==> es[i] == es[1..][i - 1];
    }
  }

  /** The same feature one operation later: a running entry leaves Running by finishing or by recovery alone, a
      run id changes by a retry or at the end of its run alone, and a completed entry does not change. */
  ghost predicate Follows(op: Operation, a: EntryValue, b: EntryValue) {
    || b == a
    || (op.Retry? && Reopened(a, b))
    || (op.Recover? && CutOff(a, b))
    || (op.Start? && Begun(a, b))
    || (op.Finish? && Ended(a, b))
  }

  lemma EntryFollows(k: Store, es: seq<EntryValue>, op: Operation, j: nat)
    requires j < |es| && !op.Remove? && !op.Add?
    ensures |Apply(k, es, op)| == |es| && Follows(op, es[j], Apply(k, es, op)[j])
  {
    match op
    case Retry(i, now) => RetryReopens(k, es, i, now, j);
    case Recover(clock) => RecoveryCutsOff(k, es, clock, j);
    case Start(now) => StartBegins(k, es, now, j);
    case Finish(i, o, now) => FinishEnds(k, es, i, o, now, j);
  }

  lemma OrderedIsUnique(arrivals: seq<Utf16>, es: seq<EntryValue>)
    requires InOrder(arrivals, es)
    ensures UniqueIds(es)
  {
  }

  /** One operation, by identifier: the feature is gone only by its own removal, and follows otherwise. */
  lemma FeatureFollows(k: Store, es: seq<EntryValue>, arrivals: seq<Utf16>, op: Operation, j: nat)
    requires InOrder(arrivals, es) && j < |es| && (op.Add? ==> op.id !in arrivals)
    ensures var later := Find(Apply(k, es, op), es[j].id);
      if later.None? then op == Remove(j) && es[j].status != Running else Follows(op, es[j], later.value)
  {
    OperationKeepsOrder(k, es, arrivals, op);
    var after := Apply(k, es, op);
    OrderedIsUnique(Arrive(k, es, arrivals, op), after);
    if op.Remove? {
      RemovedFeature(k, es, arrivals, op.index, j);
    } else if op.Add? {
      assert after[j] == es[j];
      FindAt(after, j);
    } else {
      EntryFollows(k, es, op, j);
      FindAt(after, j);
    }
  }

  lemma RemovedFeature(k: Store, es: seq<EntryValue>, arrivals: seq<Utf16>, i: nat, j: nat)
    requires InOrder(arrivals, es) && j < |es| && UniqueIds(Apply(k, es, Remove(i)))
    ensures var later := Find(Apply(k, es, Remove(i)), es[j].id);
      later == if i == j && es[j].status != Running then None else Some(es[j])
  {
    var after := Apply(k, es, Remove(i));
    OrderedIsUnique(arrivals, es);
    if i < |es| && es[i].status != Running {
      RemovedAt(es, i);
      if i == j {
        FindAbsent(after, es[j].id);
      } else {
        FindAt(after, if j < i then j else j - 1);
      }
    } else {
      FindAt(es, j);
    }
  }

  lemma AbsentStays(k: Store, es: seq<EntryValue>, arrivals: seq<Utf16>, op: Operation, id: Utf16)
    requires InOrder(arrivals, es) && id in arrivals && Find(es, id).None? && (op.Add? ==> op.id !in arrivals)
    ensures Find(Apply(k, es, op), id).None?
  {
    FindAbsent(es, id);
    FindAbsent(Apply(k, es, op), id);
    if op.Remove? {
      if op.index < |es| {
        RemovedAt(es, op.index);
      }
    } else if !op.Add? {
      forall j | 0 <= j < |es|
        ensures Apply(k, es, op)[j].id != id && |Apply(k, es, op)| == |es|
      {
        EntryFollows(k, es, op, j);
      }
      assert |Apply(k, es, op)| == |es|;
    }
  }

  /** Over any run: a completed feature keeps its whole entry, run id and all, until it is removed. */
  lemma {:induction false} CompletedIsFinal(k: Store, es: seq<EntryValue>, arrivals: seq<Utf16>, ops: seq<Operation>, e: EntryValue)
    requires InOrder(arrivals, es) && NeverReused(k, es, arrivals, ops) && e.id in arrivals
    requires Find(es, e.id).None? || (Find(es, e.id) == Some(e) && e.status == Completed)
    ensures Find(ApplyAll(k, es, ops), e.id).None? || Find(ApplyAll(k, es, ops), e.id) == Some(e)
    decreases |ops|
  {
    if ops != [] {
      var after := Apply(k, es, ops[0]);
      OperationKeepsOrder(k, es, arrivals, ops[0]);
      if Find(es, e.id).None? {
        AbsentStays(k, es, arrivals, ops[0], e.id);
      } else {
        FindAbsent(es, e.id);
        var j :| 0 <= j < |es| && es[j].id == e.id;
        OrderedIsUnique(arrivals, es);
        FindAt(es, j);
        FeatureFollows(k, es, arrivals, ops[0], j);
      }
      CompletedIsFinal(k, after, Arrive(k, es, arrivals, ops[0]), ops[1..], e);
    }
  }

  // ---------- Taking a new feature ----------

  predicate IsOpen(e: EntryValue) {
    e.status == Pending || e.status == Running
  }

  function OpenAt(es: seq<EntryValue>): set<nat> {
    set i: nat | i < |es| && IsOpen(es[i])
  }

  lemma {:induction false} ActiveCountExactly(es: seq<EntryValue>)
    ensures ActiveCount(es) == |OpenAt(es)|
  {
    if es != [] {
      var n := |es| - 1;
      ActiveCountExactly(es[..n]);
      assert OpenAt(es) == OpenAt(es[..n]) + if IsOpen(es[n]) then {n} else {};
    }
  }

  /** A job is taken exactly when fewer than a hundred features are open, it survives being written and read
      back, what is read back is valid with its paths checked, and its repository has a full path.  The new
      entry holds the written job and nothing has happened to it yet. */
  lemma AddedExactly(k: Store, es: seq<EntryValue>, job: Job, id: Utf16, now: int)
    ensures var added, frozen := NewEntry(k, es, job, id, now), k.serialize(job);
      && (added.Accepted? <==>
            && |OpenAt(es)| < 100 && frozen.Some? && k.deserialize(frozen.value).Some?
            && FormErrorOf(k.jobs, k.deserialize(frozen.value), true).None? && k.fullPath(job.repository).Some?)
      && (added.Accepted? ==> added.entry == EntryValue(
            id, Title(job.specification), k.fullPath(job.repository).value, frozen.value, Pending, Queued, 0, Waiting, [],
            LocalOnly, [], [], now, now))
  {
    ActiveCountExactly(es);
  }

  // ---------- Titles ----------

  predicate OneLine(s: Utf16) {
    CARRIAGE_RETURN !in s && LINE_FEED !in s
  }

  predicate Bare(s: Utf16) {
    s != [] && !IsWhite(s[0]) && !IsWhite(s[|s| - 1])
  }

  lemma {:induction false} TrimBefore(before: Utf16, s: Utf16)
    requires IsBlank(before)
    ensures Trim(before + s) == Trim(s)
    decreases |before|
  {
    if before == [] {
      assert before + s == s;
    } else {
      assert (before + s)[1..] == before[1..] + s;
      TrimBefore(before[1..], s);
    }
  }

  lemma {:induction false} TrimAfter(s: Utf16, after: Utf16)
    requires s != [] && !IsWhite(s[0]) && IsBlank(after)
    ensures Trim(s + after) == Trim(s)
    decreases |after|
  {
    if after == [] {
      assert s + after == s;
    } else {
      var n := |after| - 1;
      assert (s + after)[..|s + after| - 1] == s + after[..n];
      TrimAfter(s, after[..n]);
    }
  }

  /** Whatever trims off the end, the text begins with the bare line. */
  lemma {:induction false} TrimKeepsStart(line: Utf16, rest: Utf16)
    requires Bare(line)
    ensures line <= Trim(line + rest) <= line + rest
    ensures IsBlank((line + rest)[|Trim(line + rest)|..])
    decreases |rest|
  {
    var s := line + rest;
    if rest == [] {
      assert s == line;
    } else if IsWhite(rest[|rest| - 1]) {
      var n := |rest| - 1;
      assert s[..|s| - 1] == line + rest[..n];
      TrimKeepsStart(line, rest[..n]);
      var t := Trim(s);
      assert t == Trim(line + rest[..n]);
      assert s[|t|..] == (line + rest[..n])[|t|..] + [rest[n]];
    } else {
      assert s[|s| - 1] == rest[|rest| - 1];
    }
  }

  lemma {:induction false} FirstLineOf(line: Utf16, rest: Utf16)
    requires OneLine(line) && (rest == [] || rest[0] == CARRIAGE_RETURN || rest[0] == LINE_FEED)
    ensures FirstLine(line + rest) == line
  {
    if line == [] {
      assert line + rest == rest;
    } else {
      assert (line + rest)[1..] == line[1..] + rest;
      FirstLineOf(line[1..], rest);
    }
  }

  /** The line the title is made of. */
  lemma TitleLine(before: Utf16, line: Utf16, gap: Utf16, more: Utf16) returns (text: Utf16)
    requires IsBlank(before) && Bare(line) && OneLine(line) && IsBlank(gap) && OneLine(gap)
    requires more == [] || more[0] == CARRIAGE_RETURN || more[0] == LINE_FEED
    ensures text == Trim(before + line + gap + more)
    ensures (if CARRIAGE_RETURN in text || LINE_FEED in text then Trim(FirstLine(text)) else text) == line
  {
    text := Trim(line + (gap + more));
    assert before + line + gap + more == before + (line + (gap + more));
    TrimBefore(before, line + (gap + more));
    TrimKeepsStart(line, gap + more);
    if |text| > |line + gap| {
      TextHasMore(line, gap, more, text);
    } else {
      TextIsLine(line, gap, more, text);
    }
  }

  lemma TextHasMore(line: Utf16, gap: Utf16, more: Utf16, text: Utf16)
    requires Bare(line) && OneLine(line) && IsBlank(gap) && OneLine(gap)
    requires more == [] || more[0] == CARRIAGE_RETURN || more[0] == LINE_FEED
    requires |text| > |line + gap| && text <= line + (gap + more)
    ensures (CARRIAGE_RETURN in text || LINE_FEED in text) && Trim(FirstLine(text)) == line
  {
    Regrouped(line, gap, more);
    var tail := TailOf(line + gap, more, text);
    FirstLineTrimmed(line, gap, tail);
  }

  lemma Regrouped(a: Utf16, b: Utf16, c: Utf16)
    ensures a + (b + c) == a + b + c
  {
  }

  lemma FirstLineTrimmed(line: Utf16, gap: Utf16, tail: Utf16)
    requires Bare(line) && OneLine(line) && IsBlank(gap) && OneLine(gap)
    requires tail != [] && (tail[0] == CARRIAGE_RETURN || tail[0] == LINE_FEED)
    ensures Trim(FirstLine(line + gap + tail)) == line
    ensures CARRIAGE_RETURN in line + gap + tail || LINE_FEED in line + gap + tail
  {
    FirstLineOf(line + gap, tail);
    TrimAfter(line, gap);
    assert (line + gap + tail)[|line + gap|] == tail[0];
  }

  lemma TailOf(head: Utf16, more: Utf16, text: Utf16) returns (tail: Utf16)
    requires |text| > |head| && text <= head + more
    ensures text == head + tail && tail != [] && more != [] && tail[0] == more[0]
  {
    tail := text[|head|..];
    assert text[|head|] == (head + more)[|head|];
  }

  lemma TextIsLine(line: Utf16, gap: Utf16, more: Utf16, text: Utf16)
    requires Bare(line) && OneLine(line) && IsBlank(gap)
    requires text == Trim(line + (gap + more)) && line <= text && |text| <= |line + gap| && text <= line + (gap + more)
    ensures text == line
  {
    assert forall i :: |line| <= i < |text| ==> text[i] == gap[i - |line|];
    assert !IsWhite(text[|text| - 1]);
  }

  /** The title is the first line that is not blank, trimmed, and cut to 77 units and an ellipsis beyond 80. */
  lemma TitleExactly(before: Utf16, line: Utf16, gap: Utf16, more: Utf16)
    requires IsBlank(before) && Bare(line) && OneLine(line) && IsBlank(gap) && OneLine(gap)
    requires more == [] || more[0] == CARRIAGE_RETURN || more[0] == LINE_FEED
    ensures Title(before + line + gap + more) == if |line| <= 80 then line else line[..77] + Ascii("...")
  {
    var text := TitleLine(before, line, gap, more);
  }

  /** Every specification that is not blank has such parts. */
  lemma TitleParts(s: Utf16) returns (before: Utf16, line: Utf16, gap: Utf16, more: Utf16)
    requires !IsBlank(s)
    ensures s == before + line + gap + more
    ensures IsBlank(before) && Bare(line) && OneLine(line) && IsBlank(gap) && OneLine(gap)
    ensures more == [] || more[0] == CARRIAGE_RETURN || more[0] == LINE_FEED
  {
    var i := 0;
    while i < |s| && IsWhite(s[i])
      invariant i <= |s| && forall n :: 0 <= n < i ==> IsWhite(s[n])
    {
      i := i + 1;
    }
    var j := i;
    while j < |s| && s[j] != CARRIAGE_RETURN && s[j] != LINE_FEED
      invariant i <= j <= |s|
      invariant forall n :: i <= n < j ==> s[n] != CARRIAGE_RETURN && s[n] != LINE_FEED
    {
      j := j + 1;
    }
    var k := j;
    while IsWhite(s[k - 1])
      decreases k
      invariant i < k <= j && forall n :: k <= n < j ==> IsWhite(s[n])
    {
      k := k - 1;
    }
    before, line, gap, more := s[..i], s[i..k], s[k..j], s[j..];
    FourParts(s, i, k, j);
  }

  lemma FourParts(s: Utf16, i: nat, k: nat, j: nat)
    requires i <= k <= j <= |s|
    ensures s == s[..i] + s[i..k] + s[k..j] + s[j..]
  {
  }

  lemma BlankTitle(s: Utf16)
    requires IsBlank(s)
    ensures Title(s) == Ascii("Untitled feature")
  {
  }
}
