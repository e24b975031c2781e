/**
 The Assembly Line as the program holds it: entry objects whose fields change in place, in a list that
 is reassigned.  Every method does to the objects what the function of the same purpose in AssemblyLine
 does to their values.
 */
module AssemblyLineDocument {
  import opened Wrappers
  import opened Text
  import opened Jobs
  import opened AssemblyLine

  class Entry {
    var id: Utf16
    var title: Utf16
    var repository: Utf16
    var frozen: Utf16
    var status: Status
    var stage: Stage
    var attempt: int
    var result: Result
    var runId: Utf16
    var publicationStatus: Publication
    var publicationUrl: Utf16
    var publicationSha: Utf16
    var createdAt: int
    var updatedAt: int

    constructor (v: EntryValue)
      ensures Value() == v
    {
      id, title, repository, frozen := v.id, v.title, v.repository, v.frozen;
      status, stage, attempt, result, runId := v.status, v.stage, v.attempt, v.result, v.runId;
      publicationStatus, publicationUrl, publicationSha := v.publicationStatus, v.publicationUrl, v.publicationSha;
      createdAt, updatedAt := v.createdAt, v.updatedAt;
    }

    function Value(): EntryValue
      reads this
    {
      EntryValue(id, title, repository, frozen, status, stage, attempt, result, runId,
                 publicationStatus, publicationUrl, publicationSha, createdAt, updatedAt)
    }

    method Retry(now: int) returns (ok: bool)
      modifies this
      ensures Value() == Retried(old(Value()), now)
      ensures ok == CanRetry(old(Value()))
      ensures ok <==> old(status) == Failed || old(status) == Cancelled || old(status) == Interrupted
      ensures !ok ==> Value() == old(Value())
      ensures ok ==> Value() == old(Value()).(status := Pending, stage := Queued, attempt := 0, result := RetryApproved,
                                              runId := [], updatedAt := now)
    {
      if status !in {Failed, Cancelled, Interrupted} {
        return false;
      }
      status, stage, attempt, result, runId := Pending, Queued, 0, RetryApproved, [];
      updatedAt := now;
      return true;
    }

    method Close(now: int) returns (closed: bool)
      modifies this
      ensures Value() == Closed(old(Value()), now)
      ensures closed == (old(status) == Running)
    {
      closed := status == Running;
      if closed {
        status, result, updatedAt := Interrupted, ClosedEarly, now;
      }
    }
  }

  datatype LoadError =
    | WrongSchema | BadId | Incomplete | UnknownStatus | BadJob(error: JobError) | OtherRepository | TooManyPending
    | TooManyRunning

  class Document {
    var schemaVersion: int
    var entries: seq<Entry>

    constructor ()
      ensures Distinct() && Values() == [] && schemaVersion == 1
    {
      schemaVersion, entries := 1, [];
    }

    /** No entry is listed twice. */
    ghost predicate Distinct()
      reads this
    {
      forall i, j :: 0 <= i < j < |entries| ==> entries[i] != entries[j]
    }

    function Values(): (vs: seq<EntryValue>)
      reads this, entries
      ensures |vs| == |entries| && forall i :: 0 <= i < |vs| ==> vs[i] == entries[i].Value()
    {
      seq(|entries|, i requires 0 <= i < |entries| reads this, entries => entries[i].Value())
    }

    /** An entry changed through its own reference, as the loop that runs the line does, is changed in the
        one place it is listed. */
    twostate lemma OneChanged(i: nat, v: EntryValue)
      requires old(Distinct()) && i < |old(entries)| && entries == old(entries)
      requires entries[i].Value() == v
      requires forall j :: 0 <= j < |entries| && j != i ==> unchanged(entries[j])
      ensures Distinct() && Values() == old(Values())[i := v]
    {
      forall j | 0 <= j < |entries|
        ensures Values()[j] == old(Values())[i := v][j]
      {
        if j != i {
          assert unchanged(entries[j]);
        }
      }
    }

    /** Entry.Retry of a listed entry is the queue's retry at its place. */
    method Retry(i: nat, now: int, ghost k: Store) returns (ok: bool)
      requires Distinct() && i < |entries|
      modifies entries[i]
      ensures Distinct() && Values() == Apply(k, old(Values()), Operation.Retry(i, now))
      ensures ok <==> CanRetry(old(entries[i].Value()))
    {
      ok := entries[i].Retry(now);
    }

    method Add(k: Store, job: Job, id: Utf16, now: int) returns (added: Added, created: Option<Entry>)
      requires Distinct()
      modifies this`entries
      ensures Distinct()
      ensures added == NewEntry(k, old(Values()), job, id, now)
      ensures Values() == Apply(k, old(Values()), Operation.Add(job, id, now))
      ensures added.Accepted? <==> created.Some?
      ensures created.Some? ==> entries == old(entries) + [created.value] && created.value.Value() == added.entry
    {
      added, created := NewEntry(k, Values(), job, id, now), None;
      if added.Accepted? {
        ghost var before := Values();
        var entry := new Entry(added.entry);
        created := Some(entry);
        assert Values() == before;
        entries := entries + [entry];
      }
    }

    /** Only the first entry that is the one given goes; one that runs, or is not listed, stays. */
    method Remove(entry: Entry) returns (ok: bool)
      requires Distinct()
      modifies this`entries
      ensures Distinct()
      ensures ok <==> entry.status != Running && entry in old(entries)
      ensures !ok ==> entries == old(entries)
      ensures forall i :: 0 <= i < |old(entries)| && old(entries[i]) == entry ==> Values() == Removed(old(Values()), i)
    {
      if entry.status == Running {
        return false;
      }
      for i := 0 to |entries|
        invariant entry !in entries[..i]
      {
        if entries[i] == entry {
          entries := entries[..i] + entries[i + 1..];
          return true;
        }
      }
      return false;
    }

    method CloseAt(i: nat, now: int) returns (closed: bool)
      requires Distinct() && i < |entries|
      modifies entries[i]
      ensures Distinct()
      ensures Values() == old(Values())[i := Closed(old(entries[i].Value()), now)]
      ensures closed == (old(entries[i].status) == Running)
    {
      closed := entries[i].Close(now);
    }

    /** One pass of the loop below, `was` being the values before it. */
    method RecoverAt(ghost was: seq<EntryValue>, i: nat, clock: nat -> int, recovered0: nat) returns (recovered: nat)
      requires Distinct() && i < |entries| == |was|
      requires Values() == HalfRecovered(was, i, clock) && recovered0 == RunningCount(was[..i])
      modifies entries[i]
      ensures Distinct() && Values() == HalfRecovered(was, i + 1, clock)
      ensures recovered == RunningCount(was[..i + 1])
    {
      RecoveredNext(was, i, clock);
      var closed := CloseAt(i, clock(i));
      recovered := recovered0 + if closed then 1 else 0;
    }

    /** `clock(i)` is the time read at entry i. */
    method RecoverInterrupted(clock: nat -> int) returns (recovered: nat)
      requires Distinct()
      modifies entries
      ensures Distinct()
      ensures Values() == Recovered(old(Values()), clock)
      ensures recovered == RunningCount(old(Values()))
    {
      recovered := 0;
      ghost var was := Values();
      for i := 0 to |entries|
        invariant Distinct()
        invariant Values() == HalfRecovered(was, i, clock)
        invariant recovered == RunningCount(was[..i])
      {
        recovered := RecoverAt(was, i, clock, recovered);
      }
      RecoveredEnds(was, clock);
    }

    method FirstPending() returns (first: Option<Entry>)
      ensures var i := FirstPendingIndex(Values());
              first == if i < |entries| then Some(entries[i]) else None
    {
      for i := 0 to |entries|
        invariant forall j :: 0 <= j < i ==> entries[j].status != Pending
      {
        if entries[i].status == Pending {
          return Some(entries[i]);
        }
      }
      return None;
    }

    /** Load and Save accept exactly the loadable entries under schema 1. */
    method Validate(k: Store) returns (error: Option<LoadError>)
      ensures error.None? <==> schemaVersion == 1 && IsLoadable(k, Values())
    {
      if schemaVersion != 1 {
        return Some(WrongSchema);
      }
      error := CheckEntries(k, Values());
    }
  }

  function IdsOf(es: seq<EntryValue>): set<Utf16> {
    set i | 0 <= i < |es| :: es[i].id
  }

  lemma OneMore(es: seq<EntryValue>, i: nat)
    requires i < |es| && UniqueIds(es[..i])
    ensures UniqueIds(es[..i + 1]) <==> es[i].id !in IdsOf(es[..i])
    ensures UniqueIds(es) ==> UniqueIds(es[..i + 1])
    ensures IdsOf(es[..i + 1]) == IdsOf(es[..i]) + {es[i].id}
    ensures ActiveCount(es[..i + 1]) == ActiveCount(es[..i]) + if IsActive(es[i]) then 1 else 0
    ensures RunningCount(es[..i + 1]) == RunningCount(es[..i]) + if es[i].status == Running then 1 else 0
  {
    assert es[..i + 1][..i] == es[..i];
    var was, now := es[..i], es[..i + 1];
    assert now == was + [es[i]];
    forall id ensures id in IdsOf(now) <==> id in IdsOf(was) || id == es[i].id {
      if id in IdsOf(was) {
        var j :| 0 <= j < |was| && was[j].id == id;
        assert now[j].id == id;
      }
      assert now[i].id == es[i].id;
    }
  }

  /** The entries before `i` pass every check that looks at one entry and those before it. */
  ghost predicate CheckedTo(k: Store, es: seq<EntryValue>, i: nat)
    requires i <= |es|
  {
    UniqueIds(es[..i]) && forall j :: 0 <= j < i ==> IsEntry(k, es[j])
  }

  lemma CheckedNext(k: Store, es: seq<EntryValue>, i: nat)
    requires i < |es| && CheckedTo(k, es, i)
    ensures CheckedTo(k, es, i + 1) <==> IsEntry(k, es[i]) && es[i].id !in IdsOf(es[..i])
    ensures IsSound(k, es) ==> CheckedTo(k, es, i + 1)
  {
    OneMore(es, i);
  }

  lemma CheckedAll(k: Store, es: seq<EntryValue>)
    requires CheckedTo(k, es, |es|)
    ensures IsLoadable(k, es) <==> ActiveCount(es) <= MAXIMUM_PENDING && RunningCount(es) <= 1
  {
    assert es[..|es|] == es;
  }

  method CheckEntries(k: Store, es: seq<EntryValue>) returns (error: Option<LoadError>)
    ensures error.None? <==> IsLoadable(k, es)
  {
    var ids, pending, running := {}, 0, 0;
    for i := 0 to |es|
      invariant CheckedTo(k, es, i) && ids == IdsOf(es[..i])
      invariant pending == ActiveCount(es[..i]) && running == RunningCount(es[..i])
    {
      OneMore(es, i);
      CheckedNext(k, es, i);
      if !k.isId(es[i].id) || es[i].id in ids {
        return Some(BadId);
      }
      error := CheckEntry(k, es[i]);
      if error.Some? {
        return;
      }
      ids := ids + {es[i].id};
      pending := pending + if IsActive(es[i]) then 1 else 0;
      running := running + if es[i].status == Running then 1 else 0;
    }
    assert es[..|es|] == es;
    CheckedAll(k, es);
    error := if pending > MAXIMUM_PENDING then Some(TooManyPending)
             else if running > 1 then Some(TooManyRunning) else None;
  }

  predicate HasTexts(e: EntryValue) {
    !IsBlank(e.title) && !IsBlank(e.repository) && !IsBlank(e.frozen)
  }

  predicate SameFullPath(k: Store, a: Utf16, b: Utf16) {
    k.fullPath(a).Some? && k.fullPath(b).Some? && SameFold(k.jobs.fold, k.fullPath(a).value, k.fullPath(b).value)
  }

  method CheckEntry(k: Store, e: EntryValue) returns (error: Option<LoadError>)
    requires k.isId(e.id)
    ensures error.None? <==> IsEntry(k, e)
    ensures error == Some(Incomplete) <==> IsBlank(e.title) || IsBlank(e.repository) || IsBlank(e.frozen)
    ensures error == Some(UnknownStatus) <==> HasTexts(e) && e.status == Unrecognized
    ensures error.Some? && error.value.BadJob? <==>
      HasTexts(e) && e.status != Unrecognized && FormErrorOf(k.jobs, k.deserialize(e.frozen), false).Some?
    ensures error == Some(OtherRepository) ==>
      var job := k.deserialize(e.frozen);
      job.Some? && !SameFullPath(k, job.value.repository, e.repository)
    ensures error.None? ==> SameFullPath(k, k.deserialize(e.frozen).value.repository, e.repository)
  {
    if IsBlank(e.title) || IsBlank(e.repository) || IsBlank(e.frozen) {
      return Some(Incomplete);
    }
    if e.status == Unrecognized {
      return Some(UnknownStatus);
    }
    var job := k.deserialize(e.frozen);
    var invalid := ValidateForForm(k.jobs, job, false);
    if invalid.Some? {
      return Some(BadJob(invalid.value));
    }
    var a, b := k.fullPath(job.value.repository), k.fullPath(e.repository);
    error := if a.None? || b.None? || !SameFold(k.jobs.fold, a.value, b.value) then Some(OtherRepository) else None;
  }
}
