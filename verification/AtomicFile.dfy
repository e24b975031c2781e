/**
 Writing a file so that a crash never tears it (scripts/developer-connection.py, atomic_write): write
 and flush a temporary file, rename it over the target, flush the directory.

 A disk is one directory.  `history` lists every state of the directory since it was last flushed, the
 current one last: after a power loss each name may come back as it was in any of them.  The bytes of
 a file survive only once the file has been flushed; otherwise anything may be read.
 */
module AtomicFile {
  import opened Wrappers
  import opened Text

  type Bytes = seq<Byte>
  type Name = string
  type Inode = nat

  datatype Disk = Disk(history: seq<map<Name, Inode>>, data: map<Inode, Bytes>, flushed: set<Inode>)

  ghost predicate WellFormed(d: Disk) {
    && |d.history| > 0
    && forall i, n :: 0 <= i < |d.history| && n in d.history[i] ==> d.history[i][n] in d.data
  }

  function Current(d: Disk): map<Name, Inode>
    requires |d.history| > 0
  {
    d.history[|d.history| - 1]
  }

  /** What the name holds in one state of the directory. */
  function ReadIn(directory: map<Name, Inode>, data: map<Inode, Bytes>, n: Name): Option<Bytes> {
    if n in directory && directory[n] in data then Some(data[directory[n]]) else None
  }

  function Read(d: Disk, n: Name): Option<Bytes>
    requires |d.history| > 0
  {
    ReadIn(Current(d), d.data, n)
  }

  /** The name may hold this after a power loss, provided its files are flushed. */
  ghost predicate MaySurvive(d: Disk, n: Name, content: Option<Bytes>) {
    exists i :: 0 <= i < |d.history| && ReadIn(d.history[i], d.data, n) == content
  }

  /** Every file the name has pointed at since the directory was flushed is itself flushed. */
  ghost predicate Solid(d: Disk, n: Name) {
    forall i :: 0 <= i < |d.history| && n in d.history[i] ==> d.history[i][n] in d.flushed && d.history[i][n] in d.data
  }

  /** Each name independently comes back as in some state since the last directory flush. */
  ghost predicate PowerLoss(d: Disk, after: Disk) {
    && |after.history| == 1 && after.flushed == after.data.Keys
    && (forall n :: ComesFrom(d, Current(after), n))
    && (forall x :: x in d.flushed && x in d.data ==> x in after.data && after.data[x] == d.data[x])
  }

  ghost predicate ComesFrom(d: Disk, directory: map<Name, Inode>, n: Name) {
    exists i :: 0 <= i < |d.history| && SameEntry(directory, d.history[i], n)
  }

  ghost predicate SameEntry(a: map<Name, Inode>, b: map<Name, Inode>, n: Name) {
    if n in b then n in a && a[n] == b[n] else n !in a
  }

  lemma PowerLossKeepsOneSurvivor(d: Disk, after: Disk, n: Name)
    requires PowerLoss(d, after) && Solid(d, n)
    ensures MaySurvive(d, n, Read(after, n)) && Solid(after, n)
  {
    assert ComesFrom(d, Current(after), n);
    var i :| 0 <= i < |d.history| && SameEntry(Current(after), d.history[i], n);
    assert ReadIn(d.history[i], d.data, n) == Read(after, n);
  }

  /** `mid` is safe for a reader of the target: now, and after a power loss, it sees something the
      target could hold before the write, or the whole new content. */
  ghost predicate MidWrite(before: Disk, mid: Disk, target: Name, content: Option<Bytes>) {
    && |before.history| > 0 && |mid.history| > 0 && Solid(mid, target)
    && (Read(mid, target) == Read(before, target) || Read(mid, target) == content)
    && forall c :: MaySurvive(mid, target, c) ==> MaySurvive(before, target, c) || c == content
  }

  /** Nothing that names the target, and no file it has pointed at, has changed. */
  ghost predicate Untouched(before: Disk, mid: Disk, target: Name) {
    && |before.history| <= |mid.history| && |before.history| > 0
    && (forall i :: 0 <= i < |before.history| ==> mid.history[i] == before.history[i])
    && (forall i :: |before.history| <= i < |mid.history| ==> SameEntry(mid.history[i], Current(before), target))
    && (forall x :: x in before.data ==> x in mid.data && mid.data[x] == before.data[x])
    && (forall x :: x in before.flushed && x in before.data ==> x in mid.flushed)
  }

  /** Which state of the old directory an entry of the target comes from. */
  function Origin(before: Disk, i: nat): nat
    requires |before.history| > 0
  {
    if i < |before.history| then i else |before.history| - 1
  }

  lemma UntouchedIsSafe(before: Disk, mid: Disk, target: Name, content: Option<Bytes>)
    requires Solid(before, target) && Untouched(before, mid, target)
    ensures MidWrite(before, mid, target, content)
  {
    forall i | 0 <= i < |mid.history|
      ensures ReadIn(mid.history[i], mid.data, target) == ReadIn(before.history[Origin(before, i)], before.data, target)
    {
    }
    forall c | MaySurvive(mid, target, c) ensures MaySurvive(before, target, c) {
      var i :| 0 <= i < |mid.history| && ReadIn(mid.history[i], mid.data, target) == c;
      assert ReadIn(before.history[Origin(before, i)], before.data, target) == c;
    }
  }

  /** One more directory state, in which the target holds the new content. */
  lemma ReplacedIsSafe(before: Disk, mid: Disk, after: Disk, target: Name, content: Option<Bytes>)
    requires MidWrite(before, mid, target, content)
    requires |after.history| == |mid.history| + 1 && after.history[..|mid.history|] == mid.history
    requires after.data == mid.data && after.flushed == mid.flushed
    requires Solid(after, target) && Read(after, target) == content
    ensures MidWrite(before, after, target, content)
  {
    forall c | MaySurvive(after, target, c) ensures MaySurvive(before, target, c) || c == content {
      var i :| 0 <= i < |after.history| && ReadIn(after.history[i], after.data, target) == c;
      if i < |mid.history| {
        assert mid.history[i] == after.history[i];
        assert MaySurvive(mid, target, c);
      }
    }
  }

  /** The system calls on the directory. */
  function Renamed(d: Disk, source: Name, target: Name): Disk
    requires |d.history| > 0 && source in Current(d)
  {
    d.(history := d.history + [Without(Current(d), source)[target := Current(d)[source]]])
  }

  function Removed(d: Disk, target: Name): Disk
    requires |d.history| > 0
  {
    d.(history := d.history + [Without(Current(d), target)])
  }

  function DirectoryFlushed(d: Disk): Disk
    requires |d.history| > 0
  {
    d.(history := [Current(d)])
  }

  function Without(directory: map<Name, Inode>, n: Name): map<Name, Inode> {
    map m | m in directory && m != n :: directory[m]
  }

  // ---------- The whole of one write ----------

  /** Only the temporary name, and no file in use, has changed. */
  ghost predicate Staged(before: Disk, mid: Disk, temporary: Name) {
    forall n :: n != temporary ==> Untouched(before, mid, n)
  }

  /** A flushed file with this content waits under the temporary name. */
  ghost predicate Ready(mid: Disk, temporary: Name, content: Bytes) {
    && |mid.history| > 0 && temporary in Current(mid)
    && Current(mid)[temporary] in mid.flushed && Read(mid, temporary) == Some(content)
  }

  /** Create, write, flush, rename over the target, flush the directory. */
  ghost predicate Write(before: Disk, steps: seq<Disk>, temporary: Name, target: Name, content: Bytes) {
    && |steps| == 5 && temporary != target
    && Staged(before, steps[0], temporary) && Staged(before, steps[1], temporary) && Staged(before, steps[2], temporary)
    && Ready(steps[2], temporary, content)
    && steps[3] == Renamed(steps[2], temporary, target)
    && steps[4] == DirectoryFlushed(steps[3])
  }

  ghost predicate OnlySurvivor(d: Disk, n: Name, content: Option<Bytes>) {
    && Solid(d, n) && |d.history| > 0 && Read(d, n) == content
    && forall c :: MaySurvive(d, n, c) ==> c == content
  }

  lemma Flushed(d: Disk, n: Name, content: Option<Bytes>)
    requires |d.history| == 1 && Solid(d, n) && Read(d, n) == content
    ensures OnlySurvivor(d, n, content)
  {
  }

  lemma RenameKeepsSolid(mid: Disk, temporary: Name, target: Name, content: Bytes, n: Name)
    requires Ready(mid, temporary, content) && temporary != target && Solid(mid, n)
    ensures Solid(Renamed(mid, temporary, target), n)
    ensures Read(Renamed(mid, temporary, target), target) == Some(content)
    ensures n != target && n != temporary ==> Read(Renamed(mid, temporary, target), n) == Read(mid, n)
  {
  }

  lemma RemovalKeepsSolid(d: Disk, target: Name, n: Name)
    requires |d.history| > 0 && Solid(d, n)
    ensures Solid(Removed(d, target), n)
  {
  }

  /** At every step of a write the target is safe, and at the end the new content is what survives. */
  lemma WriteIsSafe(before: Disk, steps: seq<Disk>, temporary: Name, target: Name, content: Bytes)
    requires Write(before, steps, temporary, target, content) && Solid(before, target)
    ensures forall k :: 0 <= k < 5 ==> MidWrite(before, steps[k], target, Some(content))
    ensures OnlySurvivor(steps[4], target, Some(content))
  {
    UntouchedIsSafe(before, steps[0], target, Some(content));
    UntouchedIsSafe(before, steps[1], target, Some(content));
    UntouchedIsSafe(before, steps[2], target, Some(content));
    RenameKeepsSolid(steps[2], temporary, target, content, target);
    ReplacedIsSafe(before, steps[2], steps[3], target, Some(content));
    Flushed(steps[4], target, Some(content));
  }

  /** Any other name keeps its content and stays solid throughout. */
  lemma WriteSparesOthers(before: Disk, steps: seq<Disk>, temporary: Name, target: Name, content: Bytes, n: Name)
    requires Write(before, steps, temporary, target, content) && Solid(before, n) && n != temporary
    ensures forall k :: 0 <= k < 5 ==> |steps[k].history| > 0 && Solid(steps[k], n)
    ensures |before.history| > 0 && (n != target ==> forall k :: 0 <= k < 5 ==> Read(steps[k], n) == Read(before, n))
  {
    assert Untouched(before, steps[0], n);
    UntouchedIsSafe(before, steps[0], n, Read(before, n));
    UntouchedIsSafe(before, steps[1], n, Read(before, n));
    UntouchedIsSafe(before, steps[2], n, Read(before, n));
    RenameKeepsSolid(steps[2], temporary, target, content, n);
  }

  /** One file system with the disk it has and, for the proofs, every disk it has had. */
  class FileSystem {
    var disk: Disk
    ghost var past: seq<Disk>

    ghost predicate Valid()
      reads this
    {
      WellFormed(disk) && |past| > 0 && past[|past| - 1] == disk
    }

    method Apply(next: Disk)
      requires Valid() && WellFormed(next)
      modifies this
      ensures Valid() && disk == next && past == old(past) + [next]
    {
      disk := next;
      past := past + [next];
    }

    /** Exclusive open, write and flush of the temporary file: no other name is touched. */
    method Stage(temporary: Name, inode: Inode, content: Bytes)
      requires Valid() && inode !in disk.data && temporary !in Current(disk)
      modifies this
      ensures Valid() && |past| == |old(past)| + 3 && old(past) <= past
      ensures forall k :: |old(past)| <= k < |past| ==> Staged(old(disk), past[k], temporary)
      ensures Ready(disk, temporary, content)
    {
      Apply(disk.(history := disk.history + [Current(disk)[temporary := inode]], data := disk.data[inode := []],
                  flushed := disk.flushed - {inode}));
      Apply(disk.(data := disk.data[inode := content]));
      Apply(disk.(flushed := disk.flushed + {inode}));
    }

    /** At every moment of the call the target holds, and after a power loss would hold, the whole old
        content or the whole new one; on return the new content is what survives.  `temporary` and
        `inode` stand for the unique name and the fresh file; an existing name fails the exclusive open
        and changes nothing. */
    method AtomicWrite(target: Name, temporary: Name, inode: Inode, content: Bytes) returns (written: bool)
      requires Valid() && target != temporary && inode !in disk.data
      requires Solid(disk, target)
      modifies this
      ensures Valid() && old(past) <= past && written == (temporary !in Current(old(disk)))
      ensures if written then Write(old(disk), past[|old(past)|..], temporary, target, content) else past == old(past)
      ensures forall k :: |old(past)| <= k < |past| ==> MidWrite(old(disk), past[k], target, Some(content))
      ensures written ==> OnlySurvivor(disk, target, Some(content))
      ensures forall n :: n != temporary && Solid(old(disk), n) ==> Solid(disk, n) && (n != target ==> Read(disk, n) == Read(old(disk), n))
    {
      if temporary in Current(disk) {
        return false;
      }
      ghost var before := disk;
      Stage(temporary, inode, content);
      Apply(Renamed(disk, temporary, target));
      Apply(DirectoryFlushed(disk));
      ghost var steps := past[|old(past)|..];
      WriteIsSafe(before, steps, temporary, target, content);
      forall n | n != temporary && Solid(before, n)
        ensures Solid(disk, n) && (n != target ==> Read(disk, n) == Read(before, n))
      {
        WriteSparesOthers(before, steps, temporary, target, content, n);
      }
      return true;
    }

    /** Removing a name: gone now, and it may come back only as something it could already be. */
    method Unlink(target: Name)
      requires Valid() && Solid(disk, target)
      modifies this
      ensures Valid() && past == old(past) + [disk] && disk == Removed(old(disk), target)
      ensures MidWrite(old(disk), disk, target, None) && Read(disk, target) == None
      ensures forall n :: Solid(old(disk), n) ==> Solid(disk, n) && (n != target ==> Read(disk, n) == Read(old(disk), n))
    {
      ghost var before := disk;
      UntouchedIsSafe(before, before, target, None);
      Apply(Removed(disk, target));
      forall n | Solid(before, n)
        ensures Solid(disk, n)
      {
        RemovalKeepsSolid(before, target, n);
      }
      ReplacedIsSafe(before, before, disk, target, None);
    }
  }
}
