/**
 The crash-resumable migration of a legacy SSH connection (scripts/developer-build.py): a journal of
 three flags, an ownership record, and the calls between them, with a crash or a power loss possible
 between any two steps and any number of runs.

 A slot is one file as AtomicFile shows it: what is read now, and everything a power loss may leave.
 Replacing a file adds the new content to what may survive, flushing the directory drops the rest.
 */
module Migration {
  import opened Wrappers

  /** The journal.  `session` stands for the host, socket and forwards it is bound to. */
  datatype Flags = Flags(session: nat, shutdown: bool, local: bool, remote: bool)

  type Journal = Option<Flags>

  datatype Slot<!T> = Slot(seen: T, survivors: iset<T>)

  datatype Disk = Disk(journal: Slot<Journal>, owned: Slot<bool>)

  datatype Forward = LocalForward | RemoteForward

  /** What the status reply of the running connection says. */
  datatype Observation = Unavailable | Busy | NoRevision | Ready

  /** Calls and their answers.  OtherWrite is the directory flush that ends a write of any other file in
      the directory, by this or another process.  PowerLoss says what came back. */
  datatype Event =
    | Start(session: nat)
    | ServiceLoaded(loaded: bool)
    | Observe(status: Observation)
    | Load
    | OldSocket(live: bool)
    | TokenSaved(saved: bool)
    | ShutdownAck(acknowledged: bool)
    | OldRunnerAbsent(answer: Option<bool>)
    | Cancel(forward: Forward, released: bool)
    | Absent(forward: Forward, absent: bool)
    | ReplaceJournal(flags: Flags)
    | ReplaceOwnership
    | Flush
    | Unlink
    | Install
    | OtherWrite
    | Exit
    | Crash
    | PowerLoss(journal: Journal, owned: bool)

  ghost function Replaced<T>(s: Slot<T>, content: T): Slot<T> {
    Slot(content, s.survivors + iset{content})
  }

  ghost function Settled<T>(content: T): Slot<T> {
    Slot(content, iset{content})
  }

  /** What each event does to the disk. */
  ghost function DiskAfter(d: Disk, e: Event): Disk {
    match e
    case ReplaceJournal(flags) => d.(journal := Replaced(d.journal, Some(flags)))
    case Unlink => d.(journal := Replaced(d.journal, None))
    case ReplaceOwnership => d.(owned := Replaced(d.owned, true))
    case Flush => Disk(Settled(d.journal.seen), Settled(d.owned.seen))
    case OtherWrite => Disk(Settled(d.journal.seen), Settled(d.owned.seen))
    case PowerLoss(journal, owned) => Disk(Settled(journal), Settled(owned))
    case _ => d
  }

  ghost predicate DiskAllows(d: Disk, e: Event) {
    e.PowerLoss? ==> e.journal in d.journal.survivors && e.owned in d.owned.survivors
  }

  // ---------- One run ----------

  /** Saving the journal is a rename and a directory flush; `goal` is where the run goes on. */
  datatype Goal = ToConfirm | ToLocal | ToRemote | ToVerify | ToExit

  datatype Pc = Idle | AskService | AskStatus | LoadJournal | AskSocket | AskToken
    | SaveJournal(goal: Goal) | FlushJournal(goal: Goal)
    | Confirm | AskRunner | Recheck | AskShutdown
    | CancelForward(f: Forward) | CheckReleased(f: Forward)
    | VerifyLocal | VerifyRemote | RecordOwnership | FlushOwnership | RemoveJournal
    | Provision | Installing | RecordInstalled | FlushInstalled

  /** `memory` is the journal as the run holds it; `observed` the first status reply. */
  datatype Run = Run(pc: Pc, session: nat, loaded: bool, observed: Observation, memory: Flags)

  const NO_RUN := Run(Idle, 0, false, Unavailable, Flags(0, false, false, false))

  function After(goal: Goal, r: Run): Run {
    match goal
    case ToConfirm => EnterConfirm(r)
    case ToLocal => EnterLocal(r)
    case ToRemote => EnterRemote(r)
    case ToVerify => r.(pc := VerifyLocal)
    case ToExit => NO_RUN
  }

  /** A flag already set skips its step. */
  function EnterConfirm(r: Run): Run {
    if r.memory.shutdown then EnterLocal(r) else r.(pc := Confirm)
  }

  function EnterLocal(r: Run): Run {
    if r.memory.local then EnterRemote(r) else r.(pc := CancelForward(LocalForward))
  }

  function EnterRemote(r: Run): Run {
    if r.memory.remote then r.(pc := VerifyLocal) else r.(pc := CancelForward(RemoteForward))
  }

  function Detached(r: Run, f: Forward): Run {
    if f == LocalForward then r.(memory := r.memory.(local := true), pc := SaveJournal(ToRemote))
    else r.(memory := r.memory.(remote := true), pc := SaveJournal(ToVerify))
  }

  function ShutDown(r: Run): Run {
    r.(memory := r.memory.(shutdown := true), pc := SaveJournal(ToLocal))
  }

  function Begin(r: Run): Run {
    r.(memory := Flags(r.session, false, false, false), pc := SaveJournal(ToConfirm))
  }

  /** One call of a run on the disk as seen; None when the run does not make this call here.  Leaving
      through SystemExit, a missing setting or --stop is Exit.  Other files may be written at any time. */
  function RunNext(r: Run, journal: Journal, owned: bool, e: Event): Option<Run> {
    if e.Crash? || e.PowerLoss? then Some(NO_RUN)
    else if e.OtherWrite? then Some(r)
    else
      match r.pc
      case Idle => if e.Start? then Some(NO_RUN.(pc := AskService, session := e.session)) else None
      case AskService => if e.ServiceLoaded? then Some(r.(loaded := e.loaded, pc := AskStatus)) else Leave(e)
      case AskStatus => if e.Observe? then Some(r.(observed := e.status, pc := LoadJournal)) else None
      case LoadJournal =>
        if !e.Load? then Leave(e)
        else if journal.Some? then
          Some(if journal.value.session == r.session then EnterConfirm(r.(memory := journal.value)) else NO_RUN)
        else Some(r.(pc := if r.loaded || owned then Provision else AskSocket))
      case AskSocket =>
        if !e.OldSocket? then None
        else Some(if !e.live then r.(pc := Provision)
                  else if r.observed == Unavailable then r.(pc := AskToken)
                  else if r.observed == Ready then Begin(r) else NO_RUN)
      case AskToken => if e.TokenSaved? then Some(if e.saved then NO_RUN else r.(pc := Provision)) else None
      case SaveJournal(goal) => if e == ReplaceJournal(r.memory) then Some(r.(pc := FlushJournal(goal))) else None
      case FlushJournal(goal) => if e.Flush? then Some(After(goal, r)) else None
      case Confirm =>
        if e.Observe? then Some(r.(pc := if e.status == Unavailable then AskRunner else Recheck)) else Leave(e)
      case AskRunner =>
        if e.OldRunnerAbsent? then Some(if e.answer == Some(true) then ShutDown(r) else NO_RUN) else None
      case Recheck =>
        if e.Observe? then Some(if e.status in {Unavailable, Busy} then NO_RUN else r.(pc := AskShutdown)) else None
      case AskShutdown => if e.ShutdownAck? then Some(if e.acknowledged then ShutDown(r) else NO_RUN) else None
      case CancelForward(f) =>
        if e.Cancel? && e.forward == f then Some(if e.released then Detached(r, f) else r.(pc := CheckReleased(f))) else None
      case CheckReleased(f) =>
        if e.Absent? && e.forward == f then Some(if e.absent then Detached(r, f) else r.(pc := SaveJournal(ToExit))) else None
      case VerifyLocal =>
        if e.Absent? && e.forward == LocalForward then Some(if e.absent then r.(pc := VerifyRemote) else NO_RUN) else None
      case VerifyRemote =>
        if e.Absent? && e.forward == RemoteForward then Some(if e.absent then r.(pc := RecordOwnership) else NO_RUN) else None
      case RecordOwnership => if e.ReplaceOwnership? then Some(r.(pc := FlushOwnership)) else None
      case FlushOwnership => if e.Flush? then Some(r.(pc := RemoveJournal)) else None
      case RemoveJournal => if e.Unlink? then Some(r.(pc := Provision)) else None
      case Provision => if e.Flush? then Some(r.(pc := Installing)) else Leave(e)
      case Installing => if e.Install? then Some(r.(pc := RecordInstalled)) else Leave(e)
      case RecordInstalled => if e.ReplaceOwnership? then Some(r.(pc := FlushInstalled)) else None
      case FlushInstalled => if e.Flush? then Some(NO_RUN) else None
  }

  function Leave(e: Event): Option<Run> {
    if e.Exit? then Some(NO_RUN) else None
  }

  // ---------- All runs, one after another, on one disk ----------

  /** What an observer of the calls remembers.  `confirmed`: since the journal now on disk was begun, the
      shutdown was acknowledged or the old runner seen absent.  `localGone`, `remoteGone`: that forward
      was just observed absent.  `sound`: the journal this run loaded could not be lost or undone. */
  datatype Noted = Noted(confirmed: bool, localGone: bool, remoteGone: bool, sound: bool)

  datatype State = State(run: Run, disk: Disk, noted: Noted)

  ghost const FRESH := State(NO_RUN, Disk(Settled(None), Settled(false)), Noted(false, false, false, true))

  predicate ShutDownIn(j: Journal) {
    j.Some? && j.value.shutdown
  }

  predicate IsComplete(f: Flags) {
    f.shutdown && f.local && f.remote
  }

  ghost predicate AllShutDown(d: Disk) {
    forall j :: j in d.journal.survivors ==> ShutDownIn(j)
  }

  /** A loaded journal that says "shut down" says so durably, and a complete one is flushed. */
  ghost predicate Sound(d: Disk) {
    d.journal.seen.Some? && d.journal.seen.value.shutdown ==>
      if IsComplete(d.journal.seen.value) then d.journal == Settled(d.journal.seen) else AllShutDown(d)
  }

  ghost function NotedAfter(d: Disk, w: Noted, e: Event): Noted {
    if e.OtherWrite? then w
    else Noted(
      if e.ReplaceJournal? && !e.flags.shutdown then false
      else w.confirmed || (e.ShutdownAck? && e.acknowledged) || e == OldRunnerAbsent(Some(true)),
      e == Absent(LocalForward, true) || (w.localGone && e == Absent(RemoteForward, true)),
      e == Absent(RemoteForward, true),
      if e.Load? then Sound(d) else w.sound)
  }

  ghost function Step(s: State, e: Event): Option<State> {
    var r := RunNext(s.run, s.disk.journal.seen, s.disk.owned.seen, e);
    if r.Some? && DiskAllows(s.disk, e)
    then Some(State(r.value, DiskAfter(s.disk, e), NotedAfter(s.disk, s.noted, e))) else None
  }

  ghost function Continue(s: State, events: seq<Event>): Option<State>
    decreases |events|
  {
    if events == [] then Some(s)
    else
      var next := Step(s, events[0]);
      if next.None? then None else Continue(next.value, events[1..])
  }

  /** Some sequence of runs, crashes and power losses leads here. */
  ghost predicate Reachable(s: State) {
    exists events :: Continue(FRESH, events) == Some(s)
  }

  // ---------- The laws ----------

  /** Shutdown, then local, then remote: four of the eight combinations. */
  predicate Ordered(f: Flags) {
    (f.remote ==> f.local) && (f.local ==> f.shutdown)
  }

  /** How far a journal has come; without one, nothing has begun or everything is done. */
  function Progress(j: Journal, finished: bool): nat {
    match j
    case None => if finished then 5 else 0
    case Some(f) => if f.remote then 4 else if f.local then 3 else if f.shutdown then 2 else 1
  }

  ghost predicate Finished(d: Disk) {
    d.owned.survivors == iset{true}
  }

  /** Whatever a power loss leaves, the journal has come at least this far, in order. */
  ghost predicate DurablyAt(d: Disk, n: nat) {
    forall j :: j in d.journal.survivors ==>
      (j.Some? ==> Ordered(j.value)) && Progress(j, Finished(d)) >= n
  }

  /** What holds of every event of every run, whatever crashes came before. */
  ghost predicate Admits(d: Disk, w: Noted, e: Event) {
    match e
    case Cancel(_, _) => ShutDownIn(d.journal.seen) && w.confirmed
    case ReplaceJournal(f) =>
      && Ordered(f) && (f.shutdown ==> w.confirmed)
      && (d.journal.seen.None? ==> !f.shutdown && d == Disk(Settled(None), Settled(false)))
    case ReplaceOwnership =>
      if d.journal.seen.None? then d.journal == Settled(None)
      else IsComplete(d.journal.seen.value) && w.confirmed && w.localGone && w.remoteGone
    case Unlink => d.owned == Settled(true) && d.journal == Settled(d.journal.seen) && d.journal.seen.Some? && IsComplete(d.journal.seen.value)
    case Install => d.journal == Settled(None)
    case _ => true
  }

  /** The same with durability: no forward is cancelled before the shutdown is durably confirmed, and
      ownership is recorded by a migration only when the complete journal is durable. */
  ghost predicate AdmitsDurably(d: Disk, e: Event) {
    && (e.Cancel? ==> AllShutDown(d))
    && (e.ReplaceOwnership? && d.journal.seen.Some? ==> d.journal == Settled(d.journal.seen))
  }

  // ---------- The invariant ----------

  predicate Below(j: Journal, f: Flags) {
    j.Some? ==> Ordered(j.value) && j.value.session == f.session && Progress(j, false) <= Progress(Some(f), false)
  }

  ghost predicate OwnedInvariant(s: Slot<bool>) {
    s.seen in s.survivors && (!s.seen ==> s.survivors == iset{false})
  }

  ghost predicate JournalInvariant(d: Disk, w: Noted) {
    && d.journal.seen in d.journal.survivors
    && (forall j :: j in d.journal.survivors && ShutDownIn(j) ==> w.confirmed)
    && match d.journal.seen
       case None =>
         d.journal == Settled(None)
         || (d.owned == Settled(true) && forall j :: j in d.journal.survivors ==> j.None? || IsComplete(j.value))
       case Some(f) =>
         Ordered(f) && (forall j :: j in d.journal.survivors ==> Below(j, f))
  }

  /** The run's copy is the journal on disk and stands at (shutdown, local, remote). */
  ghost predicate Holds(s: State, shutdown: bool, local: bool, remote: bool) {
    && s.disk.journal.seen == Some(s.run.memory)
    && s.run.memory == Flags(s.run.session, shutdown, local, remote)
  }

  /** The same one save ahead of the disk. */
  ghost predicate Ahead(s: State, onDisk: Flags, memory: Flags) {
    s.disk.journal.seen == Some(onDisk) && s.run.memory == memory
  }

  ghost predicate Saving(s: State, goal: Goal) {
    var id := s.run.session;
    match goal
    case ToConfirm =>
      s.disk.journal == Settled(None) && s.disk.owned == Settled(false) && s.run.memory == Flags(id, false, false, false)
    case ToLocal => Ahead(s, Flags(id, false, false, false), Flags(id, true, false, false)) && s.noted.confirmed
    case ToRemote => Ahead(s, Flags(id, true, false, false), Flags(id, true, true, false)) && CancelSound(s)
    case ToVerify => Ahead(s, Flags(id, true, true, false), Flags(id, true, true, true)) && CancelSound(s)
    case ToExit => s.disk.journal.seen == Some(s.run.memory)
  }

  ghost predicate Saved(s: State, goal: Goal) {
    match goal
    case ToConfirm => Holds(s, false, false, false)
    case ToLocal => Holds(s, true, false, false)
    case ToRemote => Holds(s, true, true, false)
    case ToVerify => Holds(s, true, true, true)
    case ToExit => s.disk.journal.seen == Some(s.run.memory)
  }

  ghost predicate CancelSound(s: State) {
    s.noted.sound ==> AllShutDown(s.disk)
  }

  ghost predicate CompleteSound(s: State) {
    Holds(s, true, true, true) && (s.noted.sound ==> s.disk.journal == Settled(s.disk.journal.seen))
  }

  ghost predicate AtForward(s: State, f: Forward) {
    Holds(s, true, f == RemoteForward, false) && CancelSound(s)
  }

  ghost predicate RunInvariant(s: State) {
    match s.run.pc
    case AskSocket => s.disk.journal.seen.None? && !s.disk.owned.seen
    case AskToken => s.disk.journal.seen.None? && !s.disk.owned.seen
    case SaveJournal(goal) => Saving(s, goal)
    case FlushJournal(goal) => Saved(s, goal)
    case Confirm => Holds(s, false, false, false)
    case AskRunner => Holds(s, false, false, false)
    case Recheck => Holds(s, false, false, false)
    case AskShutdown => Holds(s, false, false, false)
    case CancelForward(f) => AtForward(s, f)
    case CheckReleased(f) => AtForward(s, f)
    case VerifyLocal => CompleteSound(s)
    case VerifyRemote => CompleteSound(s) && s.noted.localGone
    case RecordOwnership => CompleteSound(s) && s.noted.localGone && s.noted.remoteGone
    case FlushOwnership => Holds(s, true, true, true) && s.disk.owned.seen
    case RemoveJournal => Holds(s, true, true, true) && s.disk == Disk(Settled(s.disk.journal.seen), Settled(true))
    case Provision => s.disk.journal.seen.None?
    case Installing => s.disk.journal == Settled(None)
    case RecordInstalled => s.disk.journal == Settled(None)
    case FlushInstalled => s.disk.journal == Settled(None)
    case _ => true
  }

  ghost predicate Invariant(s: State) {
    OwnedInvariant(s.disk.owned) && JournalInvariant(s.disk, s.noted) && RunInvariant(s)
  }

  lemma DiskKept(s: State, e: Event, next: State)
    requires Invariant(s) && Step(s, e) == Some(next)
    ensures Admits(s.disk, s.noted, e)
    ensures OwnedInvariant(next.disk.owned) && JournalInvariant(next.disk, next.noted)
  {
    match e
    case ReplaceJournal(_) =>
    case ReplaceOwnership =>
    case Flush =>
    case OtherWrite =>
    case Unlink =>
    case PowerLoss(_, _) =>
    case Load =>
    case _ =>
  }

  predicate SavesOrFlushes(pc: Pc) {
    pc.SaveJournal? || pc.FlushJournal?
  }

  predicate Detaches(pc: Pc) {
    pc.CancelForward? || pc.CheckReleased? || pc.Confirm? || pc.AskRunner? || pc.Recheck? || pc.AskShutdown?
  }

  lemma SavesKept(s: State, e: Event, next: State)
    requires Invariant(s) && Step(s, e) == Some(next) && !e.OtherWrite? && SavesOrFlushes(s.run.pc)
    ensures RunInvariant(next)
  {
    if s.run.pc.FlushJournal? {
      match s.run.pc.goal
      case ToConfirm =>
      case ToLocal =>
      case ToRemote =>
      case ToVerify =>
      case ToExit =>
    }
  }

  lemma DetachesKept(s: State, e: Event, next: State)
    requires Invariant(s) && Step(s, e) == Some(next) && !e.OtherWrite? && Detaches(s.run.pc)
    ensures RunInvariant(next)
  {
  }

  predicate Starts(pc: Pc) {
    pc in {Idle, AskService, AskStatus, LoadJournal, AskSocket, AskToken}
  }

  lemma StartsKept(s: State, e: Event, next: State)
    requires Invariant(s) && Step(s, e) == Some(next) && !e.OtherWrite? && Starts(s.run.pc)
    ensures RunInvariant(next)
  {
    match s.run.pc
    case LoadJournal =>
    case AskSocket =>
    case _ =>
  }

  predicate Verifies(pc: Pc) {
    pc in {VerifyLocal, VerifyRemote, RecordOwnership, FlushOwnership, RemoveJournal}
  }

  lemma VerifiesKept(s: State, e: Event, next: State)
    requires Invariant(s) && Step(s, e) == Some(next) && !e.OtherWrite? && Verifies(s.run.pc)
    ensures RunInvariant(next)
  {
    match s.run.pc
    case VerifyLocal =>
    case VerifyRemote =>
    case RecordOwnership =>
    case FlushOwnership =>
    case RemoveJournal =>
    case _ =>
  }

  predicate Installs(pc: Pc) {
    pc in {Provision, Installing, RecordInstalled, FlushInstalled}
  }

  lemma InstallsKept(s: State, e: Event, next: State)
    requires Invariant(s) && Step(s, e) == Some(next) && !e.OtherWrite? && Installs(s.run.pc)
    ensures RunInvariant(next)
  {
    match s.run.pc
    case Provision =>
    case Installing =>
    case RecordInstalled =>
    case FlushInstalled =>
    case _ =>
  }

  lemma OtherWriteKept(s: State, next: State)
    requires Invariant(s) && Step(s, OtherWrite) == Some(next)
    ensures RunInvariant(next)
  {
    assert next.run == s.run && next.noted == s.noted;
  }

  lemma RunKept(s: State, e: Event, next: State)
    requires Invariant(s) && Step(s, e) == Some(next)
    ensures RunInvariant(next)
  {
    if e.OtherWrite? {
      OtherWriteKept(s, next);
    } else if SavesOrFlushes(s.run.pc) {
      SavesKept(s, e, next);
    } else if Detaches(s.run.pc) {
      DetachesKept(s, e, next);
    } else if Starts(s.run.pc) {
      StartsKept(s, e, next);
    } else if Verifies(s.run.pc) {
      VerifiesKept(s, e, next);
    } else {
      InstallsKept(s, e, next);
    }
  }

  lemma DurableWhenSound(s: State, e: Event)
    requires Invariant(s) && Step(s, e).Some? && s.noted.sound
    ensures AdmitsDurably(s.disk, e)
  {
  }

  lemma {:induction false} Kept(s: State, events: seq<Event>, t: State)
    requires Invariant(s) && Continue(s, events) == Some(t)
    ensures Invariant(t)
    decreases |events|
  {
    if events != [] {
      var next := Step(s, events[0]).value;
      DiskKept(s, events[0], next);
      RunKept(s, events[0], next);
      Kept(next, events[1..], t);
    }
  }

  // ---------- Main results ----------

  /** Law 1: after any runs, crashes and power losses, every event is admitted. */
  lemma EveryEventIsAdmitted(s: State, e: Event)
    requires Reachable(s) && Step(s, e).Some?
    ensures Admits(s.disk, s.noted, e)
    ensures s.noted.sound ==> AdmitsDurably(s.disk, e)
  {
    var events :| Continue(FRESH, events) == Some(s);
    Kept(FRESH, events, s);
    DiskKept(s, e, Step(s, e).value);
    if s.noted.sound {
      DurableWhenSound(s, e);
    }
  }

  lemma ProgressStep(s: State, e: Event, n: nat)
    requires Invariant(s) && Step(s, e).Some? && DurablyAt(s.disk, n)
    ensures DurablyAt(Step(s, e).value.disk, n)
  {
    var next := Step(s, e).value;
    DiskKept(s, e, next);
    assert Finished(s.disk) ==> Finished(next.disk);
    assert Progress(s.disk.journal.seen, Finished(s.disk)) >= n;
  }

  /** Law 2: the durable journal only moves forward, through four of the eight combinations of flags,
      whatever happens next and however often it is cut short. */
  lemma {:induction false} ProgressIsNeverLost(s: State, events: seq<Event>, t: State, n: nat)
    requires Invariant(s) && DurablyAt(s.disk, n) && Continue(s, events) == Some(t)
    ensures DurablyAt(t.disk, n)
    decreases |events|
  {
    if events != [] {
      var next := Step(s, events[0]).value;
      ProgressStep(s, events[0], n);
      DiskKept(s, events[0], next);
      RunKept(s, events[0], next);
      ProgressIsNeverLost(next, events[1..], t, n);
    }
  }

  lemma OnlyFourCombinations(s: State, f: Flags)
    requires Reachable(s) && Some(f) in s.disk.journal.survivors
    ensures Ordered(f)
  {
    var events :| Continue(FRESH, events) == Some(s);
    assert DurablyAt(FRESH.disk, 0);
    ProgressIsNeverLost(FRESH, events, s, 0);
  }

  /** Law 3: ownership, once durable, stays, and no later run begins a migration. */
  lemma {:induction false} NoSecondMigration(s: State, events: seq<Event>, t: State)
    requires Invariant(s) && Finished(s.disk) && Continue(s, events) == Some(t)
    ensures Finished(t.disk)
    ensures t.disk.journal.seen.None? ==> forall f :: Step(t, ReplaceJournal(f)).None?
    decreases |events|
  {
    if events == [] {
      assert true in s.disk.owned.survivors;
      forall f | Step(t, ReplaceJournal(f)).Some? && t.disk.journal.seen.None? ensures false {
        DiskKept(t, ReplaceJournal(f), Step(t, ReplaceJournal(f)).value);
      }
    } else {
      var next := Step(s, events[0]).value;
      DiskKept(s, events[0], next);
      RunKept(s, events[0], next);
      NoSecondMigration(next, events[1..], t);
    }
  }

  // ---------- When durability can be relied on ----------

  ghost predicate Follows(s: State, events: seq<Event>, t: State) {
    Load !in events && Continue(s, [Load] + events) == Some(t)
  }

  /** Until the next journal is loaded, every event is durably admitted. */
  ghost predicate StaysDurable(s: State) {
    forall events, t, e :: Follows(s, events, t) && Step(t, e).Some? ==> AdmitsDurably(t.disk, e)
  }

  lemma {:induction false} SoundStays(s: State, events: seq<Event>, t: State)
    requires s.noted.sound && Load !in events && Continue(s, events) == Some(t)
    ensures t.noted.sound
    decreases |events|
  {
    if events != [] {
      assert events[0] in events;
      assert forall e :: e in events[1..] ==> e in events;
      SoundStays(Step(s, events[0]).value, events[1..], t);
    }
  }

  lemma AfterLoad(s: State, events: seq<Event>, t: State)
    requires Step(s, Load).Some? && Continue(Step(s, Load).value, events) == Some(t)
    ensures Continue(s, [Load] + events) == Some(t)
  {
    assert ([Load] + events)[1..] == events;
  }

  lemma ToRecording(t: State) returns (v: State)
    requires t.run.pc == VerifyLocal
    ensures Continue(t, [Absent(LocalForward, true), Absent(RemoteForward, true)]) == Some(v)
    ensures v.disk == t.disk && Step(v, ReplaceOwnership).Some?
  {
    var events := [Absent(LocalForward, true), Absent(RemoteForward, true)];
    var u := Step(t, events[0]).value;
    v := Step(u, events[1]).value;
    assert events[1..] == [Absent(RemoteForward, true)] && events[1..][1..] == [];
  }

  lemma UnsoundCompleteGoesWrong(s: State, f: Flags)
    requires Invariant(s) && s.run.pc == LoadJournal && s.disk.journal.seen == Some(f)
    requires f.session == s.run.session && IsComplete(f) && s.disk.journal != Settled(Some(f))
    ensures !StaysDurable(s)
  {
    var t := Step(s, Load).value;
    var v := ToRecording(t);
    AfterLoad(s, [Absent(LocalForward, true), Absent(RemoteForward, true)], v);
    assert Follows(s, [Absent(LocalForward, true), Absent(RemoteForward, true)], v);
  }

  lemma UnsoundPartialGoesWrong(s: State, f: Flags)
    requires Invariant(s) && s.run.pc == LoadJournal && s.disk.journal.seen == Some(f)
    requires f.session == s.run.session && f.shutdown && !IsComplete(f) && !AllShutDown(s.disk)
    ensures !StaysDurable(s)
  {
    var t := Step(s, Load).value;
    AfterLoad(s, [], t);
    assert Follows(s, [], t);
    assert Step(t, Cancel(if f.local then RemoteForward else LocalForward, true)).Some?;
  }

  /** A resumed run keeps every step durable if and only if what it loaded is sound. */
  lemma SoundExactly(s: State)
    requires Invariant(s) && s.run.pc == LoadJournal && s.disk.journal.seen.Some?
    requires s.disk.journal.seen.value.session == s.run.session
    ensures Sound(s.disk) <==> StaysDurable(s)
  {
    if Sound(s.disk) {
      var loaded := Step(s, Load).value;
      forall events, t, e | Follows(s, events, t) && Step(t, e).Some? ensures AdmitsDurably(t.disk, e) {
        assert ([Load] + events)[1..] == events;
        Kept(s, [Load] + events, t);
        SoundStays(loaded, events, t);
        DurableWhenSound(t, e);
      }
    } else {
      var f := s.disk.journal.seen.value;
      if IsComplete(f) {
        UnsoundCompleteGoesWrong(s, f);
      } else {
        UnsoundPartialGoesWrong(s, f);
      }
    }
  }

  // ---------- When that is, by the calls alone ----------

  /** `dirty`: a rename that first set `shutdown`, or first completed the journal, has had no flush or
      power loss since.  `journal` is what the calls have left to be read. */
  datatype History = History(journal: Journal, dirty: bool)

  const NO_CALLS := History(None, false)

  predicate CompleteIn(j: Journal) {
    j.Some? && IsComplete(j.value)
  }

  function Recorded(h: History, e: Event): History {
    match e
    case ReplaceJournal(f) =>
      History(Some(f), h.dirty || (f.shutdown && !ShutDownIn(h.journal)) || (IsComplete(f) && !CompleteIn(h.journal)))
    case Unlink => h.(journal := None)
    case Flush => h.(dirty := false)
    case OtherWrite => h.(dirty := false)
    case PowerLoss(journal, _) => History(journal, false)
    case _ => h
  }

  function RecordedAll(h: History, events: seq<Event>): History
    decreases |events|
  {
    if events == [] then h else RecordedAll(Recorded(h, events[0]), events[1..])
  }

  ghost predicate Tells(h: History, d: Disk) {
    h.journal == d.journal.seen && (h.dirty <==> !Sound(d))
  }

  lemma RecordedStep(s: State, e: Event, next: State, h: History)
    requires Invariant(s) && Step(s, e) == Some(next) && Tells(h, s.disk)
    ensures Tells(Recorded(h, e), next.disk)
  {
    DiskKept(s, e, next);
    match e
    case ReplaceJournal(_) =>
    case Unlink =>
    case Flush =>
    case OtherWrite =>
    case PowerLoss(_, _) =>
    case _ => assert next.disk.journal == s.disk.journal;
  }

  lemma {:induction false} RecordedTells(s: State, events: seq<Event>, t: State, h: History)
    requires Invariant(s) && Continue(s, events) == Some(t) && Tells(h, s.disk)
    ensures Tells(RecordedAll(h, events), t.disk)
    decreases |events|
  {
    if events != [] {
      var next := Step(s, events[0]).value;
      RecordedStep(s, events[0], next, h);
      DiskKept(s, events[0], next);
      RunKept(s, events[0], next);
      RecordedTells(next, events[1..], t, Recorded(h, events[0]));
    }
  }

  /** Law 4: after any calls, a run that resumes a journal keeps every step durable if and only if the
      rename that first set `shutdown` or completed that journal has been followed by a directory flush,
      or the journal was read after a power loss. */
  lemma DurableExactly(past: seq<Event>, s: State)
    requires Continue(FRESH, past) == Some(s) && s.run.pc == LoadJournal && s.disk.journal.seen.Some?
    requires s.disk.journal.seen.value.session == s.run.session
    ensures StaysDurable(s) <==> !RecordedAll(NO_CALLS, past).dirty
  {
    Kept(FRESH, past, s);
    RecordedTells(FRESH, past, s, NO_CALLS);
    SoundExactly(s);
  }

  lemma {:induction false} ContinueAppend(s: State, events: seq<Event>, t: State, e: Event)
    requires Continue(s, events) == Some(t)
    ensures Continue(s, events + [e]) == Step(t, e)
    decreases |events|
  {
    var all := events + [e];
    if events == [] {
      assert all[1..] == [];
    } else {
      assert all[1..] == events[1..] + [e];
      ContinueAppend(Step(s, events[0]).value, events[1..], t, e);
    }
  }

  lemma Go(s: State, e: Event) returns (next: State)
    requires Reachable(s) && Step(s, e).Some?
    ensures Reachable(next) && Step(s, e) == Some(next)
  {
    var events :| Continue(FRESH, events) == Some(s);
    next := Step(s, e).value;
    ContinueAppend(FRESH, events, s, e);
    assert Continue(FRESH, events + [e]) == Some(next);
  }

  /** A step by what it does to the run and to the disk. */
  lemma Reach(s: State, e: Event, r: Run) returns (next: State)
    requires Reachable(s) && RunNext(s.run, s.disk.journal.seen, s.disk.owned.seen, e) == Some(r) && DiskAllows(s.disk, e)
    ensures Reachable(next) && next.run == r && next.disk == DiskAfter(s.disk, e)
  {
    next := Go(s, e);
  }

  const NEW := Flags(0, false, false, false)
  const SHUT := Flags(0, true, false, false)

  lemma ReachLoading() returns (s: State)
    ensures Reachable(s) && s.run == Run(LoadJournal, 0, false, Ready, NO_RUN.memory) && s.disk == FRESH.disk
  {
    assert Continue(FRESH, []) == Some(FRESH);
    s := Reach(FRESH, Start(0), NO_RUN.(pc := AskService));
    s := Reach(s, ServiceLoaded(false), s.run.(pc := AskStatus));
    s := Reach(s, Observe(Ready), Run(LoadJournal, 0, false, Ready, NO_RUN.memory));
  }

  lemma ReachSaving() returns (s: State)
    ensures Reachable(s) && s.run == Run(SaveJournal(ToConfirm), 0, false, Ready, NEW) && s.disk == FRESH.disk
  {
    s := ReachLoading();
    s := Reach(s, Load, s.run.(pc := AskSocket));
    s := Reach(s, OldSocket(true), Run(SaveJournal(ToConfirm), 0, false, Ready, NEW));
  }

  lemma ReachBegun() returns (s: State)
    ensures Reachable(s) && s.run == Run(Confirm, 0, false, Ready, NEW)
    ensures s.disk == Disk(Settled(Some(NEW)), Settled(false))
  {
    s := ReachSaving();
    s := Reach(s, ReplaceJournal(NEW), s.run.(pc := FlushJournal(ToConfirm)));
    s := Reach(s, Flush, s.run.(pc := Confirm));
  }

  lemma ReachConfirmed() returns (s: State)
    ensures Reachable(s) && s.run == Run(SaveJournal(ToLocal), 0, false, Ready, SHUT)
    ensures s.disk == Disk(Settled(Some(NEW)), Settled(false))
  {
    s := ReachBegun();
    s := Reach(s, Observe(Unavailable), s.run.(pc := AskRunner));
    s := Reach(s, OldRunnerAbsent(Some(true)), Run(SaveJournal(ToLocal), 0, false, Ready, SHUT));
  }

  lemma ReachKilled() returns (s: State)
    ensures Reachable(s) && s.run == NO_RUN && s.disk == Disk(Replaced(Settled(Some(NEW)), Some(SHUT)), Settled(false))
  {
    s := ReachConfirmed();
    s := Reach(s, ReplaceJournal(SHUT), s.run.(pc := FlushJournal(ToLocal)));
    s := Reach(s, Crash, NO_RUN);
  }

  lemma ReachResumed() returns (s: State)
    ensures Reachable(s) && s.run == Run(CancelForward(LocalForward), 0, false, Unavailable, SHUT)
    ensures s.disk == Disk(Replaced(Settled(Some(NEW)), Some(SHUT)), Settled(false))
  {
    s := ReachKilled();
    s := Reach(s, Start(0), NO_RUN.(pc := AskService));
    s := Reach(s, ServiceLoaded(false), s.run.(pc := AskStatus));
    s := Reach(s, Observe(Unavailable), s.run.(pc := LoadJournal));
    s := Reach(s, Load, Run(CancelForward(LocalForward), 0, false, Unavailable, SHUT));
  }

  /** The condition is needed: a process killed between the rename and the directory flush leaves a
      journal that says "shut down" but may yet be undone.  The next run cancels a forward on it, and
      after a power loss the journal says that nothing was shut down. */
  lemma UnsoundIsReachable() returns (s: State, cancelled: State, undone: State)
    ensures Reachable(s) && Step(s, Cancel(LocalForward, true)) == Some(cancelled)
    ensures !AdmitsDurably(s.disk, Cancel(LocalForward, true))
    ensures Step(cancelled, PowerLoss(Some(NEW), false)) == Some(undone) && undone.disk.journal == Settled(Some(NEW))
  {
    s := ReachResumed();
    assert Some(NEW) in s.disk.journal.survivors;
    cancelled := Go(s, Cancel(LocalForward, true));
    undone := UndoneBy(cancelled, Some(NEW));
  }

  lemma UndoneBy(s: State, j: Journal) returns (undone: State)
    requires j in s.disk.journal.survivors && false in s.disk.owned.survivors
    ensures Step(s, PowerLoss(j, false)) == Some(undone) && undone.disk.journal == Settled(j)
  {
    undone := Step(s, PowerLoss(j, false)).value;
  }

  // ---------- Recovery ----------

  ghost predicate Arrived(s: State) {
    s.run.pc == Installing && s.disk == Disk(Settled(None), Settled(true))
  }

  /** How many calls a run has left, at most, when all goes well. */
  function Remaining(pc: Pc): nat {
    match pc
    case Idle => 26
    case AskService => 25
    case AskStatus => 24
    case LoadJournal => 23
    case AskSocket => 22
    case SaveJournal(goal) => 2 + AfterSaving(goal)
    case FlushJournal(goal) => 1 + AfterSaving(goal)
    case Confirm => 19
    case Recheck => 18
    case AskRunner => 17
    case AskShutdown => 17
    case CancelForward(f) => if f == LocalForward then 14 else 10
    case CheckReleased(f) => if f == LocalForward then 13 else 9
    case VerifyLocal => 6
    case VerifyRemote => 5
    case RecordOwnership => 4
    case FlushOwnership => 3
    case RemoveJournal => 2
    case Provision => 1
    case _ => 0
  }

  function AfterSaving(goal: Goal): nat {
    match goal case ToConfirm => 19 case ToLocal => 14 case ToRemote => 10 case ToVerify => 6 case ToExit => 0
  }

  /** A run that is bound to migrate, to finish a migration, or to settle a finished one, if the
      environment helps. */
  ghost predicate OnTheWay(s: State) {
    Invariant(s) && Heading(s)
  }

  ghost predicate Heading(s: State) {
    match s.run.pc
    case AskService => Bound(s)
    case AskStatus => Bound(s) && (Nothing(s.disk) ==> !s.run.loaded)
    case LoadJournal => Bound(s) && (Nothing(s.disk) ==> !s.run.loaded && s.run.observed == Ready)
    case AskSocket => s.run.observed == Ready
    case AskToken => false
    case SaveJournal(goal) => goal != ToExit
    case FlushJournal(goal) => goal != ToExit
    case Provision => s.disk.owned.seen
    case Installing => s.disk.owned == Settled(true)
    case RecordInstalled => false
    case FlushInstalled => false
    case _ => true
  }

  /** Neither file is there. */
  ghost predicate Nothing(d: Disk) {
    d.journal.seen.None? && !d.owned.seen
  }

  ghost predicate Bound(s: State) {
    s.disk.journal.seen.Some? ==> s.disk.journal.seen.value.session == s.run.session
  }

  /** The answers of a cooperative environment: the legacy connection is still there if nothing has
      begun, a shutdown is acknowledged or the old runner is absent, forwards go away. */
  ghost predicate Helpful(s: State, e: Event) {
    match e
    case Start(session) => s.disk.journal.seen.Some? ==> session == s.disk.journal.seen.value.session
    case ServiceLoaded(loaded) => Nothing(s.disk) ==> !loaded
    case Observe(status) =>
      if s.run.pc == Recheck then status != Unavailable && status != Busy
      else s.run.pc == AskStatus && Nothing(s.disk) ==> status == Ready
    case OldSocket(live) => live
    case ShutdownAck(acknowledged) => acknowledged
    case OldRunnerAbsent(answer) => answer == Some(true)
    case Absent(_, absent) => absent
    case OtherWrite => false
    case Exit => false
    case Crash => false
    case PowerLoss(_, _) => false
    case _ => true
  }

  lemma HelpfulStart(s: State, e: Event, next: State)
    requires OnTheWay(s) && Starts(s.run.pc) && Helpful(s, e) && Step(s, e) == Some(next)
    ensures Heading(next) && Remaining(next.run.pc) < Remaining(s.run.pc)
  {
    match s.run.pc
    case LoadJournal =>
    case _ =>
  }

  lemma HelpfulSave(s: State, e: Event, next: State)
    requires OnTheWay(s) && SavesOrFlushes(s.run.pc) && Helpful(s, e) && Step(s, e) == Some(next)
    ensures Heading(next) && Remaining(next.run.pc) < Remaining(s.run.pc)
  {
    match s.run.pc.goal
    case ToConfirm =>
    case ToLocal =>
    case ToRemote =>
    case ToVerify =>
    case ToExit =>
  }

  lemma HelpfulDetach(s: State, e: Event, next: State)
    requires OnTheWay(s) && Detaches(s.run.pc) && Helpful(s, e) && Step(s, e) == Some(next)
    ensures Heading(next) && Remaining(next.run.pc) < Remaining(s.run.pc)
  {
  }

  lemma HelpfulVerify(s: State, e: Event, next: State)
    requires OnTheWay(s) && Helpful(s, e) && Step(s, e) == Some(next) && s.run.pc in {VerifyLocal, VerifyRemote}
    ensures Heading(next) && Remaining(next.run.pc) < Remaining(s.run.pc)
  {
    match s.run.pc
    case VerifyLocal =>
    case VerifyRemote =>
    case _ =>
  }

  lemma HelpfulComplete(s: State, e: Event, next: State)
    requires OnTheWay(s) && Helpful(s, e) && Step(s, e) == Some(next)
    requires s.run.pc in {RecordOwnership, FlushOwnership, RemoveJournal}
    ensures Heading(next) && Remaining(next.run.pc) < Remaining(s.run.pc)
  {
    match s.run.pc
    case RecordOwnership =>
    case FlushOwnership =>
    case RemoveJournal =>
    case _ =>
  }

  lemma HelpfulInstall(s: State, e: Event, next: State)
    requires OnTheWay(s) && !Arrived(s) && Helpful(s, e) && Step(s, e) == Some(next) && Installs(s.run.pc)
    ensures Heading(next) && Remaining(next.run.pc) < Remaining(s.run.pc)
  {
    assert s.run.pc == Provision;
  }

  lemma HelpfulStep(s: State, e: Event, next: State)
    requires OnTheWay(s) && !Arrived(s) && Helpful(s, e) && Step(s, e) == Some(next)
    ensures OnTheWay(next) && Remaining(next.run.pc) < Remaining(s.run.pc)
  {
    DiskKept(s, e, next);
    RunKept(s, e, next);
    if SavesOrFlushes(s.run.pc) {
      HelpfulSave(s, e, next);
    } else if Detaches(s.run.pc) {
      HelpfulDetach(s, e, next);
    } else if Starts(s.run.pc) {
      HelpfulStart(s, e, next);
    } else if s.run.pc in {VerifyLocal, VerifyRemote} {
      HelpfulVerify(s, e, next);
    } else if Verifies(s.run.pc) {
      HelpfulComplete(s, e, next);
    } else {
      HelpfulInstall(s, e, next);
    }
  }

  /** A helpful answer always exists. */
  ghost function Help(s: State): Event {
    match s.run.pc
    case Idle => Start(if s.disk.journal.seen.Some? then s.disk.journal.seen.value.session else 0)
    case AskService => ServiceLoaded(false)
    case AskStatus => Observe(Ready)
    case LoadJournal => Load
    case AskSocket => OldSocket(true)
    case SaveJournal(_) => ReplaceJournal(s.run.memory)
    case FlushJournal(_) => Flush
    case Confirm => Observe(Ready)
    case Recheck => Observe(Ready)
    case AskRunner => OldRunnerAbsent(Some(true))
    case AskShutdown => ShutdownAck(true)
    case CancelForward(f) => Cancel(f, true)
    case CheckReleased(f) => Absent(f, true)
    case VerifyLocal => Absent(LocalForward, true)
    case VerifyRemote => Absent(RemoteForward, true)
    case RecordOwnership => ReplaceOwnership
    case RemoveJournal => Unlink
    case _ => Flush
  }

  lemma HelpExists(s: State)
    requires OnTheWay(s) && !Arrived(s)
    ensures Helpful(s, Help(s)) && Step(s, Help(s)).Some?
  {
  }

  lemma OtherWriteOnTheWay(s: State, next: State)
    requires OnTheWay(s) && Step(s, OtherWrite) == Some(next)
    ensures OnTheWay(next) && next.run == s.run
  {
    DiskKept(s, OtherWrite, next);
    RunKept(s, OtherWrite, next);
  }

  /** Every event up to arrival is a helpful one, or another file's write. */
  ghost predicate HelpfulRun(s: State, events: seq<Event>)
    decreases |events|
  {
    Arrived(s) || events == []
    || (&& (Helpful(s, events[0]) || events[0].OtherWrite?)
        && Step(s, events[0]).Some? && HelpfulRun(Step(s, events[0]).value, events[1..]))
  }

  /** The run's own calls among them. */
  function OwnCalls(events: seq<Event>): (n: nat)
    ensures n <= |events|
  {
    if events == [] then 0 else OwnCalls(events[1..]) + if events[0].OtherWrite? then 0 else 1
  }

  ghost predicate Arrives(s: State, events: seq<Event>)
    decreases |events|
  {
    Arrived(s) || (events != [] && Step(s, events[0]).Some? && Arrives(Step(s, events[0]).value, events[1..]))
  }

  lemma {:induction false} HelpfulRunArrives(s: State, events: seq<Event>)
    requires OnTheWay(s) && HelpfulRun(s, events) && OwnCalls(events) >= Remaining(s.run.pc)
    ensures Arrives(s, events)
    decreases |events|
  {
    if !Arrived(s) {
      RunsOn(s);
      var next := Step(s, events[0]).value;
      if events[0].OtherWrite? {
        OtherWriteOnTheWay(s, next);
      } else {
        HelpfulStep(s, events[0], next);
      }
      HelpfulRunArrives(next, events[1..]);
    }
  }

  /** A run that has not arrived has calls left. */
  lemma RunsOn(s: State)
    requires OnTheWay(s) && !Arrived(s)
    ensures Remaining(s.run.pc) > 0
  {
  }

  /** And there is a helpful run of any length. */
  lemma {:induction false} HelpfulRunExists(s: State, n: nat) returns (events: seq<Event>)
    requires OnTheWay(s)
    ensures HelpfulRun(s, events) && OwnCalls(events) == n
    decreases n
  {
    events := [];
    if n > 0 {
      var e := if Arrived(s) then Load else Help(s);
      var rest: seq<Event>;
      if Arrived(s) {
        rest := HelpfulRunExists(s, n - 1);
      } else {
        HelpExists(s);
        HelpfulStep(s, e, Step(s, e).value);
        rest := HelpfulRunExists(Step(s, e).value, n - 1);
      }
      events := [e] + rest;
      assert events[1..] == rest;
    }
  }

  /** Law 5: whatever crashes led here, the next run in a cooperative environment, resumed, from the
      start or with nothing left to migrate, ends with ownership durable, no journal, and nothing else
      possible for a power loss to bring back, whatever other files are written meanwhile. */
  lemma OneRunRecovers(s: State, events: seq<Event>)
    requires Reachable(s) && s.run == NO_RUN
    requires HelpfulRun(s, events) && OwnCalls(events) >= 26
    ensures Arrives(s, events)
  {
    var past :| Continue(FRESH, past) == Some(s);
    Kept(FRESH, past, s);
    HelpfulRunArrives(s, events);
  }

  /** And such a run always exists. */
  lemma RecoveryExists(s: State) returns (events: seq<Event>)
    requires Reachable(s) && s.run == NO_RUN
    ensures HelpfulRun(s, events) && OwnCalls(events) == 26 && Arrives(s, events)
  {
    var past :| Continue(FRESH, past) == Some(s);
    Kept(FRESH, past, s);
    events := HelpfulRunExists(s, 26);
    OneRunRecovers(s, events);
  }
}
