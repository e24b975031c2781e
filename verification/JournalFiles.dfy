/**
 The files the migration keeps, on the disk that atomic_write writes to: what Migration says a replaced,
 flushed, removed or power-cut file becomes is what the directory and its flushes make of it.
 */
module JournalFiles {
  import opened Wrappers
  import A = AtomicFile
  import opened Migration

  const JOURNAL: A.Name := "J"
  const OWNERSHIP: A.Name := "O"

  /** Every file either name has pointed at is flushed. */
  ghost predicate BothSolid(d: A.Disk) {
    |d.history| > 0 && A.Solid(d, JOURNAL) && A.Solid(d, OWNERSHIP)
  }

  predicate IsOther(n: A.Name) {
    n != JOURNAL && n != OWNERSHIP
  }

  /** `parse` reads a journal's bytes; the ownership record counts by being there. */
  function JournalOf(parse: A.Bytes -> Flags, content: Option<A.Bytes>): Journal {
    if content.Some? then Some(parse(content.value)) else None
  }

  ghost function JournalSlot(d: A.Disk, parse: A.Bytes -> Flags): Slot<Journal>
    requires |d.history| > 0
  {
    Slot(JournalOf(parse, A.Read(d, JOURNAL)),
         iset i | 0 <= i < |d.history| :: JournalOf(parse, A.ReadIn(d.history[i], d.data, JOURNAL)))
  }

  ghost function OwnedSlot(d: A.Disk): Slot<bool>
    requires |d.history| > 0
  {
    Slot(A.Read(d, OWNERSHIP).Some?, iset i | 0 <= i < |d.history| :: A.ReadIn(d.history[i], d.data, OWNERSHIP).Some?)
  }

  /** The migration's disk, seen through the directory. */
  ghost function View(d: A.Disk, parse: A.Bytes -> Flags): Disk
    requires |d.history| > 0
  {
    Disk(JournalSlot(d, parse), OwnedSlot(d))
  }

  /** One more directory state adds what it holds to what may survive. */
  lemma OneMoreState(d: A.Disk, after: A.Disk, parse: A.Bytes -> Flags)
    requires |d.history| > 0 && after.data == d.data
    requires |after.history| == |d.history| + 1 && after.history[..|d.history|] == d.history
    ensures JournalSlot(after, parse) == Replaced(JournalSlot(d, parse), JournalOf(parse, A.Read(after, JOURNAL)))
    ensures OwnedSlot(after) == Replaced(OwnedSlot(d), A.Read(after, OWNERSHIP).Some?)
  {
    assert forall i :: 0 <= i < |d.history| ==> d.history[i] == after.history[i];
    var j, o := JournalSlot(d, parse), OwnedSlot(d);
    var j2, o2 := JournalSlot(after, parse), OwnedSlot(after);
    forall x | x in j.survivors ensures x in j2.survivors {
      var i :| 0 <= i < |d.history| && JournalOf(parse, A.ReadIn(d.history[i], d.data, JOURNAL)) == x;
      assert JournalOf(parse, A.ReadIn(after.history[i], after.data, JOURNAL)) == x;
    }
    forall x | x in o.survivors ensures x in o2.survivors {
      var i :| 0 <= i < |d.history| && A.ReadIn(d.history[i], d.data, OWNERSHIP).Some? == x;
      assert A.ReadIn(after.history[i], after.data, OWNERSHIP).Some? == x;
    }
  }

  /** What is read now may survive, so seeing it again adds nothing. */
  lemma SeenMaySurvive(d: A.Disk, parse: A.Bytes -> Flags)
    requires |d.history| > 0
    ensures View(d, parse).journal.seen in View(d, parse).journal.survivors
    ensures View(d, parse).owned.seen in View(d, parse).owned.survivors
  {
    var i := |d.history| - 1;
    assert JournalOf(parse, A.ReadIn(d.history[i], d.data, JOURNAL)) == View(d, parse).journal.seen;
  }

  /** The rename of a temporary file over the journal. */
  lemma RenameReplacesJournal(d: A.Disk, temporary: A.Name, content: A.Bytes, parse: A.Bytes -> Flags)
    requires IsOther(temporary) && A.Ready(d, temporary, content)
    ensures View(A.Renamed(d, temporary, JOURNAL), parse) == DiskAfter(View(d, parse), ReplaceJournal(parse(content)))
  {
    OneMoreState(d, A.Renamed(d, temporary, JOURNAL), parse);
    SeenMaySurvive(d, parse);
    assert A.Read(A.Renamed(d, temporary, JOURNAL), OWNERSHIP) == A.Read(d, OWNERSHIP);
    assert A.Read(A.Renamed(d, temporary, JOURNAL), JOURNAL) == Some(content);
  }

  lemma RenameReplacesOwnership(d: A.Disk, temporary: A.Name, content: A.Bytes, parse: A.Bytes -> Flags)
    requires IsOther(temporary) && A.Ready(d, temporary, content)
    ensures View(A.Renamed(d, temporary, OWNERSHIP), parse) == DiskAfter(View(d, parse), ReplaceOwnership)
  {
    OneMoreState(d, A.Renamed(d, temporary, OWNERSHIP), parse);
    SeenMaySurvive(d, parse);
    assert A.Read(A.Renamed(d, temporary, OWNERSHIP), JOURNAL) == A.Read(d, JOURNAL);
    assert A.Read(A.Renamed(d, temporary, OWNERSHIP), OWNERSHIP) == Some(content);
  }

  lemma UnlinkRemovesJournal(d: A.Disk, parse: A.Bytes -> Flags)
    requires |d.history| > 0
    ensures View(A.Removed(d, JOURNAL), parse) == DiskAfter(View(d, parse), Unlink)
  {
    OneMoreState(d, A.Removed(d, JOURNAL), parse);
    SeenMaySurvive(d, parse);
    assert A.Read(A.Removed(d, JOURNAL), OWNERSHIP) == A.Read(d, OWNERSHIP);
  }

  /** One directory flush settles both files. */
  lemma FlushSettles(d: A.Disk, parse: A.Bytes -> Flags)
    requires |d.history| > 0
    ensures View(A.DirectoryFlushed(d), parse) == DiskAfter(View(d, parse), Flush)
  {
    var after := A.DirectoryFlushed(d);
    SeenMaySurvive(after, parse);
    assert after.history[0] == A.Current(d);
  }

  /** Whatever has happened to other names. */
  ghost predicate Elsewhere(d: A.Disk, mid: A.Disk) {
    A.Untouched(d, mid, JOURNAL) && A.Untouched(d, mid, OWNERSHIP)
  }

  /** Staging a temporary file, cut short or not, and writing other files changes neither. */
  lemma StagingIsInvisible(d: A.Disk, mid: A.Disk, parse: A.Bytes -> Flags)
    requires BothSolid(d) && Elsewhere(d, mid)
    ensures BothSolid(mid) && View(mid, parse) == View(d, parse)
  {
    A.UntouchedIsSafe(d, mid, JOURNAL, None);
    A.UntouchedIsSafe(d, mid, OWNERSHIP, None);
    forall i | 0 <= i < |mid.history|
      ensures A.ReadIn(mid.history[i], mid.data, JOURNAL) == A.ReadIn(d.history[A.Origin(d, i)], d.data, JOURNAL)
      ensures A.ReadIn(mid.history[i], mid.data, OWNERSHIP) == A.ReadIn(d.history[A.Origin(d, i)], d.data, OWNERSHIP)
    {
    }
    assert forall i :: 0 <= i < |d.history| ==> A.Origin(d, i) == i;
  }

  lemma RenameKeepsBothSolid(mid: A.Disk, temporary: A.Name, target: A.Name, content: A.Bytes)
    requires BothSolid(mid) && A.Ready(mid, temporary, content) && temporary != target
    ensures BothSolid(A.Renamed(mid, temporary, target))
  {
    A.RenameKeepsSolid(mid, temporary, target, content, JOURNAL);
    A.RenameKeepsSolid(mid, temporary, target, content, OWNERSHIP);
  }

  /** After a power loss each file is one that might survive, and no other can come back later. */
  lemma PowerLossPicksSurvivors(d: A.Disk, after: A.Disk, parse: A.Bytes -> Flags)
    requires BothSolid(d) && A.PowerLoss(d, after)
    ensures BothSolid(after)
    ensures var e := PowerLoss(View(after, parse).journal.seen, View(after, parse).owned.seen);
            DiskAllows(View(d, parse), e) && View(after, parse) == DiskAfter(View(d, parse), e)
  {
    A.PowerLossKeepsOneSurvivor(d, after, JOURNAL);
    A.PowerLossKeepsOneSurvivor(d, after, OWNERSHIP);
    var i :| 0 <= i < |d.history| && A.ReadIn(d.history[i], d.data, JOURNAL) == A.Read(after, JOURNAL);
    var k :| 0 <= k < |d.history| && A.ReadIn(d.history[k], d.data, OWNERSHIP) == A.Read(after, OWNERSHIP);
    assert JournalOf(parse, A.ReadIn(d.history[i], d.data, JOURNAL)) == View(after, parse).journal.seen;
    assert A.ReadIn(d.history[k], d.data, OWNERSHIP).Some? == View(after, parse).owned.seen;
    SeenMaySurvive(after, parse);
  }

  // ---------- Whole calls ----------

  /** save_migration by atomic_write: five states of the directory, in which the migration sees nothing
      three times, then its journal replaced, then both files settled. */
  lemma WholeSave(d: A.Disk, steps: seq<A.Disk>, temporary: A.Name, content: A.Bytes, parse: A.Bytes -> Flags)
    requires BothSolid(d) && A.Write(d, steps, temporary, JOURNAL, content) && IsOther(temporary)
    ensures BothSolid(steps[0]) && BothSolid(steps[1]) && BothSolid(steps[2]) && BothSolid(steps[3]) && BothSolid(steps[4])
    ensures View(steps[0], parse) == View(steps[1], parse) == View(steps[2], parse) == View(d, parse)
    ensures View(steps[3], parse) == DiskAfter(View(d, parse), ReplaceJournal(parse(content)))
    ensures View(steps[4], parse) == DiskAfter(View(steps[3], parse), Flush)
  {
    StagingIsInvisible(d, steps[0], parse);
    StagingIsInvisible(d, steps[1], parse);
    StagingIsInvisible(d, steps[2], parse);
    RenameReplacesJournal(steps[2], temporary, content, parse);
    RenameKeepsBothSolid(steps[2], temporary, JOURNAL, content);
    FlushSettles(steps[3], parse);
  }

  /** record_connection_ownership, likewise. */
  lemma WholeRecord(d: A.Disk, steps: seq<A.Disk>, temporary: A.Name, content: A.Bytes, parse: A.Bytes -> Flags)
    requires BothSolid(d) && A.Write(d, steps, temporary, OWNERSHIP, content) && IsOther(temporary)
    ensures BothSolid(steps[0]) && BothSolid(steps[1]) && BothSolid(steps[2]) && BothSolid(steps[3]) && BothSolid(steps[4])
    ensures View(steps[0], parse) == View(steps[1], parse) == View(steps[2], parse) == View(d, parse)
    ensures View(steps[3], parse) == DiskAfter(View(d, parse), ReplaceOwnership)
    ensures View(steps[4], parse) == DiskAfter(View(steps[3], parse), Flush)
  {
    StagingIsInvisible(d, steps[0], parse);
    StagingIsInvisible(d, steps[1], parse);
    StagingIsInvisible(d, steps[2], parse);
    RenameReplacesOwnership(steps[2], temporary, content, parse);
    RenameKeepsBothSolid(steps[2], temporary, OWNERSHIP, content);
    FlushSettles(steps[3], parse);
  }

  lemma StagedElsewhere(d: A.Disk, mid: A.Disk, temporary: A.Name)
    requires A.Staged(d, mid, temporary) && IsOther(temporary)
    ensures Elsewhere(d, mid)
  {
    assert A.Untouched(d, mid, JOURNAL) && A.Untouched(d, mid, OWNERSHIP);
  }

  lemma RenamedElsewhere(d: A.Disk, mid: A.Disk, temporary: A.Name, n: A.Name)
    requires Elsewhere(d, mid) && IsOther(temporary) && IsOther(n) && temporary in A.Current(mid)
    ensures Elsewhere(d, A.Renamed(mid, temporary, n))
  {
  }

  /** atomic_write of any other file: nothing to see in four of its states, and the last is OtherWrite. */
  lemma WholeOtherWrite(d: A.Disk, steps: seq<A.Disk>, temporary: A.Name, n: A.Name, content: A.Bytes, parse: A.Bytes -> Flags)
    requires BothSolid(d) && A.Write(d, steps, temporary, n, content) && IsOther(temporary) && IsOther(n)
    ensures Elsewhere(d, steps[0]) && Elsewhere(d, steps[1]) && Elsewhere(d, steps[2]) && Elsewhere(d, steps[3])
    ensures BothSolid(steps[3]) && View(steps[3], parse) == View(d, parse)
    ensures OnDisk(steps[3], OtherWrite, steps[4], temporary, content, parse)
    ensures BothSolid(steps[4]) && View(steps[4], parse) == DiskAfter(View(d, parse), OtherWrite)
  {
    StagedElsewhere(d, steps[0], temporary);
    StagedElsewhere(d, steps[1], temporary);
    StagedElsewhere(d, steps[2], temporary);
    RenamedElsewhere(d, steps[2], temporary, n);
    StagingIsInvisible(d, steps[3], parse);
    FlushSettles(steps[3], parse);
  }

  /** Saving the journal on a real file system. */
  method SaveJournal(fs: A.FileSystem, temporary: A.Name, inode: A.Inode, content: A.Bytes, ghost parse: A.Bytes -> Flags)
      returns (written: bool)
    requires fs.Valid() && BothSolid(fs.disk) && IsOther(temporary) && inode !in fs.disk.data
    modifies fs
    ensures fs.Valid() && BothSolid(fs.disk) && written == (temporary !in A.Current(old(fs.disk)))
    ensures View(fs.disk, parse)
         == if written then DiskAfter(DiskAfter(View(old(fs.disk), parse), ReplaceJournal(parse(content))), Flush)
            else View(old(fs.disk), parse)
  {
    ghost var before, length := fs.disk, |fs.past|;
    written := fs.AtomicWrite(JOURNAL, temporary, inode, content);
    if written {
      WholeSave(before, fs.past[length..], temporary, content, parse);
    }
  }

  /** Removing it. */
  method RemoveJournal(fs: A.FileSystem, ghost parse: A.Bytes -> Flags)
    requires fs.Valid() && BothSolid(fs.disk)
    modifies fs
    ensures fs.Valid() && BothSolid(fs.disk)
    ensures View(fs.disk, parse) == DiskAfter(View(old(fs.disk), parse), Migration.Unlink)
  {
    UnlinkRemovesJournal(fs.disk, parse);
    fs.Unlink(JOURNAL);
  }

  // ---------- Whole histories ----------

  /** What a call of the launcher, or a power loss, does to the directory. */
  ghost predicate OnDisk(d: A.Disk, e: Event, after: A.Disk, temporary: A.Name, content: A.Bytes, parse: A.Bytes -> Flags) {
    match e
    case ReplaceJournal(flags) =>
      IsOther(temporary) && A.Ready(d, temporary, content) && parse(content) == flags && after == A.Renamed(d, temporary, JOURNAL)
    case ReplaceOwnership =>
      IsOther(temporary) && A.Ready(d, temporary, content) && after == A.Renamed(d, temporary, OWNERSHIP)
    case Unlink => |d.history| > 0 && after == A.Removed(d, JOURNAL)
    case Flush => |d.history| > 0 && after == A.DirectoryFlushed(d)
    case OtherWrite => |d.history| > 0 && after == A.DirectoryFlushed(d)
    case PowerLoss(journal, owned) =>
      A.PowerLoss(d, after) && journal == View(after, parse).journal.seen && owned == View(after, parse).owned.seen
    case _ => after == d
  }

  /** The migration's disk follows the directory. */
  lemma OnDiskRefines(d: A.Disk, e: Event, after: A.Disk, temporary: A.Name, content: A.Bytes, parse: A.Bytes -> Flags)
    requires BothSolid(d) && OnDisk(d, e, after, temporary, content, parse)
    ensures BothSolid(after) && DiskAllows(View(d, parse), e) && View(after, parse) == DiskAfter(View(d, parse), e)
  {
    match e
    case ReplaceJournal(_) =>
      RenameReplacesJournal(d, temporary, content, parse);
      RenameKeepsBothSolid(d, temporary, JOURNAL, content);
    case ReplaceOwnership =>
      RenameReplacesOwnership(d, temporary, content, parse);
      RenameKeepsBothSolid(d, temporary, OWNERSHIP, content);
    case Unlink =>
      UnlinkRemovesJournal(d, parse);
      A.RemovalKeepsSolid(d, JOURNAL, JOURNAL);
      A.RemovalKeepsSolid(d, JOURNAL, OWNERSHIP);
    case Flush => FlushSettles(d, parse);
    case OtherWrite => FlushSettles(d, parse);
    case PowerLoss(_, _) => PowerLossPicksSurvivors(d, after, parse);
    case _ =>
  }

  /** One entry of a history: the directory just before the call, the call, the run and the directory
      after it.  `temporary` and `content` are the file renamed, if one is. */
  datatype Moment = Moment(before: A.Disk, event: Event, run: Run, disk: A.Disk, temporary: A.Name, content: A.Bytes)

  function Events(history: seq<Moment>): (events: seq<Event>)
    ensures |events| == |history|
  {
    if history == [] then [] else [history[0].event] + Events(history[1..])
  }

  /** A history of the launcher's runs over a real directory.  Other files may be written at any time, by
      anyone: up to the rename that changes only what stands before a call, and the flush that ends the
      write is the call OtherWrite.  A crash may leave a write anywhere. */
  ghost predicate Happens(run: Run, d: A.Disk, history: seq<Moment>, parse: A.Bytes -> Flags)
    requires BothSolid(d)
    decreases |history|
  {
    history == []
    || (var m := history[0];
        && Elsewhere(d, m.before) && BothSolid(m.disk)
        && OnDisk(m.before, m.event, m.disk, m.temporary, m.content, parse)
        && RunNext(run, View(d, parse).journal.seen, View(d, parse).owned.seen, m.event) == Some(m.run)
        && Happens(m.run, m.disk, history[1..], parse))
  }

  function Final(d: A.Disk, history: seq<Moment>): A.Disk {
    if history == [] then d else history[|history| - 1].disk
  }

  /** Every history over a real directory is one of the migration, which sees that directory. */
  lemma {:induction false} HistoriesRefine(s: State, d: A.Disk, history: seq<Moment>, parse: A.Bytes -> Flags)
    requires BothSolid(d) && s.disk == View(d, parse) && Happens(s.run, d, history, parse)
    ensures BothSolid(Final(d, history)) && Continue(s, Events(history)).Some?
    ensures Continue(s, Events(history)).value.disk == View(Final(d, history), parse)
    decreases |history|
  {
    if history != [] {
      var m := history[0];
      StagingIsInvisible(d, m.before, parse);
      OnDiskRefines(m.before, m.event, m.disk, m.temporary, m.content, parse);
      var next := Step(s, m.event).value;
      assert Events(history)[1..] == Events(history[1..]);
      HistoriesRefine(next, m.disk, history[1..], parse);
      assert Final(m.disk, history[1..]) == Final(d, history);
    }
  }
}
