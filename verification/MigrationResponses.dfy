/**
 Which call of the migration follows which, by the calls and their answers alone.  `Migration.RunNext` says
 where a run stands; here a reader of the calls remembers the latest two and what has been read, begun or
 confirmed, and every next call of every history is the one that this demands.
 */
module MigrationResponses {
  import opened Wrappers
  import opened Migration

  /** `running`: a run is under way.  `held`: it holds a journal, and `flags` is that journal as its calls leave
      it.  Writes of other files are not remembered. */
  datatype Recall = Recall(
    running: bool, before: Event, latest: Event, session: nat, loaded: bool, observed: Observation, held: bool, flags: Flags)

  const NOTHING := Recall(false, Exit, Exit, 0, false, Unavailable, false, NO_RUN.memory)

  predicate IsIdle(status: Observation) {
    status == NoRevision || status == Ready
  }

  /** The answers after which a run ends: it makes no further call. */
  predicate EndsRun(m: Recall, journal: Journal, e: Event) {
    match e
    case Exit => true
    case Crash => true
    case PowerLoss(_, _) => true
    case Load => journal.Some? && journal.value.session != m.session
    case OldSocket(live) => live && (m.observed == Busy || m.observed == NoRevision)
    case TokenSaved(saved) => saved
    case Observe(status) => m.held && m.latest.Observe? && !IsIdle(status)
    case ShutdownAck(acknowledged) => !acknowledged
    case OldRunnerAbsent(answer) => answer != Some(true)
    case Absent(f, absent) => !absent && m.latest != Cancel(f, false)
    case Flush => (m.latest.ReplaceJournal? && m.before.Absent? && !m.before.absent)
                  || (m.latest == ReplaceOwnership && m.before == Install)
    case _ => false
  }

  function Marked(flags: Flags, f: Forward): Flags {
    if f == LocalForward then flags.(local := true) else flags.(remote := true)
  }

  /** The journal as the run must hold it after this call. */
  function FlagsAfter(m: Recall, journal: Journal, e: Event): Flags {
    match e
    case Load => if journal.Some? then journal.value else m.flags
    case OldSocket(_) => Flags(m.session, false, false, false)
    case ShutdownAck(_) => m.flags.(shutdown := true)
    case OldRunnerAbsent(_) => m.flags.(shutdown := true)
    case Cancel(f, released) => if released then Marked(m.flags, f) else m.flags
    case Absent(f, absent) => if absent && m.latest == Cancel(f, false) then Marked(m.flags, f) else m.flags
    case _ => m.flags
  }

  function Recalled(m: Recall, journal: Journal, e: Event): Recall {
    if e.OtherWrite? then m
    else if e.Start? then Recall(true, m.latest, e, e.session, false, Unavailable, false, NO_RUN.memory)
    else if EndsRun(m, journal, e) then NOTHING
    else
      Recall(true, m.latest, e, m.session,
             if e.ServiceLoaded? then e.loaded else m.loaded,
             if e.Observe? && m.latest.ServiceLoaded? then e.status else m.observed,
             m.held || (e.Load? && journal.Some?) || (e == OldSocket(true) && m.observed == Ready),
             FlagsAfter(m, journal, e))
  }

  /** With the journal saved as it is held, the first thing not yet done. */
  predicate Continues(flags: Flags, e: Event) {
    if !flags.shutdown then e.Observe? || e.Exit?
    else if !flags.local then e.Cancel? && e.forward == LocalForward
    else if !flags.remote then e.Cancel? && e.forward == RemoteForward
    else e.Absent? && e.forward == LocalForward
  }

  /** Nothing to migrate, or nothing more: the configuration is written and flushed. */
  predicate Configures(e: Event) {
    e.Flush? || e.Exit?
  }

  predicate Saves(m: Recall, e: Event) {
    e == ReplaceJournal(m.flags)
  }

  /** The call that must follow, unless the process ends; other files may be written at any time. */
  predicate Responds(m: Recall, journal: Journal, owned: bool, e: Event) {
    if e.OtherWrite? || e.Crash? || e.PowerLoss? then true
    else if !m.running then e.Start?
    else
      match m.latest
      case Start(_) => e.ServiceLoaded? || e.Exit?
      case ServiceLoaded(_) => e.Observe?
      case Observe(status) =>
        if !m.held then e.Load? || e.Exit?
        else if m.before.Observe? then e.ShutdownAck? && IsIdle(status)
        else if status == Unavailable then e.OldRunnerAbsent?
        else e.Observe?
      case Load =>
        if m.held then Continues(m.flags, e)
        else if m.loaded || owned then Configures(e)
        else e.OldSocket?
      case OldSocket(live) =>
        if !live then Configures(e) else if m.observed == Unavailable then e.TokenSaved? else Saves(m, e)
      case TokenSaved(saved) => !saved && Configures(e)
      case ShutdownAck(acknowledged) => acknowledged && Saves(m, e)
      case OldRunnerAbsent(answer) => answer == Some(true) && Saves(m, e)
      case Cancel(f, released) => if released then Saves(m, e) else e.Absent? && e.forward == f
      case Absent(f, absent) =>
        if m.before == Cancel(f, false) then Saves(m, e)
        else if f == LocalForward then e.Absent? && e.forward == RemoteForward
        else e.ReplaceOwnership?
      case ReplaceJournal(_) => e.Flush?
      case ReplaceOwnership => e.Flush?
      case Flush =>
        if m.before.ReplaceJournal? then Continues(m.flags, e)
        else if m.before == ReplaceOwnership then e.Unlink?
        else e.Install? || e.Exit?
      case Unlink => Configures(e)
      case Install => e.ReplaceOwnership?
      case _ => false
  }

  // ---------- Where a run stands, by what is remembered ----------

  predicate Fetched(m: Recall) {
    m.held && (m.latest == Load || (m.latest == Flush && m.before.ReplaceJournal?))
  }

  /** What made the run save, for each way it then goes on. */
  predicate SavesFor(m: Recall, goal: Goal, latest: Event) {
    match goal
    case ToConfirm => latest == OldSocket(true)
    case ToLocal => latest == ShutdownAck(true) || latest == OldRunnerAbsent(Some(true))
    case ToRemote => latest == Cancel(LocalForward, true) || latest == Absent(LocalForward, true)
    case ToVerify => latest == Cancel(RemoteForward, true) || latest == Absent(RemoteForward, true)
    case ToExit => latest == Absent(LocalForward, false) || latest == Absent(RemoteForward, false)
  }

  predicate ConfigureNext(latest: Event) {
    latest == Load || latest == OldSocket(false) || latest == TokenSaved(false) || latest == Unlink
  }

  predicate HeldFlags(r: Run, m: Recall, shutdown: bool, local: bool, remote: bool) {
    m.held && m.flags == r.memory && r.memory.shutdown == shutdown && r.memory.local == local && r.memory.remote == remote
  }

  predicate GoalFlags(f: Flags, goal: Goal) {
    match goal
    case ToConfirm => !f.shutdown && !f.local && !f.remote
    case ToLocal => f.shutdown && !f.local && !f.remote
    case ToRemote => f.shutdown && f.local && !f.remote
    case ToVerify => f.shutdown && f.local && f.remote
    case ToExit => true
  }

  predicate Described(r: Run, m: Recall) {
    match r.pc
    case Idle => true
    case AskService => m.latest.Start? && !m.held
    case AskStatus => m.latest.ServiceLoaded? && m.loaded == r.loaded && !m.held
    case LoadJournal => m.latest.Observe? && !m.held && m.loaded == r.loaded && m.observed == r.observed
    case AskSocket => m.latest == Load && !m.held && !m.loaded && m.observed == r.observed
    case AskToken => m.latest == OldSocket(true) && !m.held && m.observed == Unavailable
    case SaveJournal(goal) =>
      && m.held && m.flags == r.memory && SavesFor(m, goal, m.latest) && GoalFlags(m.flags, goal)
      && (m.latest.Absent? ==> m.before == Cancel(m.latest.forward, false))
      && (m.latest.OldSocket? ==> m.observed == Ready)
    case FlushJournal(goal) =>
      m.held && m.flags == r.memory && m.latest.ReplaceJournal? && SavesFor(m, goal, m.before) && GoalFlags(m.flags, goal)
    case Confirm => HeldFlags(r, m, false, false, false) && Fetched(m)
    case AskRunner => HeldFlags(r, m, false, false, false) && m.latest == Observe(Unavailable) && !m.before.Observe?
    case Recheck => HeldFlags(r, m, false, false, false) && m.latest.Observe? && m.latest.status != Unavailable && !m.before.Observe?
    case AskShutdown => HeldFlags(r, m, false, false, false) && m.latest.Observe? && IsIdle(m.latest.status) && m.before.Observe?
    case CancelForward(f) => HeldFlags(r, m, true, f == RemoteForward, false) && Fetched(m)
    case CheckReleased(f) => HeldFlags(r, m, true, f == RemoteForward, false) && m.latest == Cancel(f, false)
    case VerifyLocal => HeldFlags(r, m, true, true, true) && Fetched(m)
    case VerifyRemote => HeldFlags(r, m, true, true, true) && m.latest == Absent(LocalForward, true) && !m.before.Cancel?
    case RecordOwnership => m.held && m.latest == Absent(RemoteForward, true) && m.before == Absent(LocalForward, true)
    case FlushOwnership => m.latest == ReplaceOwnership && m.before == Absent(RemoteForward, true)
    case RemoveJournal => m.latest == Flush && m.before == ReplaceOwnership
    case Provision => ConfigureNext(m.latest) && (m.latest == Load ==> !m.held)
    case Installing => m.latest == Flush && ConfigureNext(m.before)
    case RecordInstalled => m.latest == Install
    case FlushInstalled => m.latest == ReplaceOwnership && m.before == Install
  }

  /** The journal a run reads has its flags in order. */
  predicate InOrder(journal: Journal) {
    journal.Some? ==> Ordered(journal.value)
  }

  predicate Describes(r: Run, m: Recall, owned: bool) {
    && Described(r, m) && (m.running <==> r.pc != Idle) && (m.running ==> m.session == r.session)
    && (r.pc == AskSocket ==> !owned)
    && (r.pc == Provision && m.latest == Load ==> m.loaded || owned)
  }

  /** One call that is the run's own. */
  ghost predicate Taken(r: Run, m: Recall, journal: Journal, owned: bool, e: Event, next: Run) {
    && Describes(r, m, owned) && InOrder(journal) && !e.OtherWrite? && !e.Crash? && !e.PowerLoss?
    && RunNext(r, journal, owned, e) == Some(next)
  }

  ghost predicate Answered(m: Recall, journal: Journal, owned: bool, e: Event, next: Run) {
    Responds(m, journal, owned, e) && Describes(next, Recalled(m, journal, e), owned)
  }

  lemma OpeningResponds(r: Run, m: Recall, journal: Journal, owned: bool, e: Event, next: Run)
    requires Taken(r, m, journal, owned, e, next)
    requires r.pc == Idle || r.pc == AskService || r.pc == AskStatus
    ensures Answered(m, journal, owned, e, next)
  {
  }

  lemma LoadingResponds(r: Run, m: Recall, journal: Journal, owned: bool, e: Event, next: Run)
    requires Taken(r, m, journal, owned, e, next)
    requires r.pc == LoadJournal
    ensures Answered(m, journal, owned, e, next)
  {
  }

  lemma DecidingResponds(r: Run, m: Recall, journal: Journal, owned: bool, e: Event, next: Run)
    requires Taken(r, m, journal, owned, e, next)
    requires r.pc == AskSocket || r.pc == AskToken
    ensures Answered(m, journal, owned, e, next)
  {
  }

  lemma SavingResponds(r: Run, m: Recall, journal: Journal, owned: bool, e: Event, next: Run)
    requires Taken(r, m, journal, owned, e, next)
    requires r.pc.SaveJournal?
    ensures Answered(m, journal, owned, e, next)
  {
  }

  lemma FlushingResponds(r: Run, m: Recall, journal: Journal, owned: bool, e: Event, next: Run)
    requires Taken(r, m, journal, owned, e, next)
    requires r.pc.FlushJournal?
    ensures Answered(m, journal, owned, e, next)
  {
    match r.pc.goal
    case ToConfirm =>
    case ToLocal =>
    case ToRemote =>
    case ToVerify =>
    case ToExit =>
  }

  lemma ConfirmingResponds(r: Run, m: Recall, journal: Journal, owned: bool, e: Event, next: Run)
    requires Taken(r, m, journal, owned, e, next)
    requires r.pc == Confirm || r.pc == AskRunner
    ensures Answered(m, journal, owned, e, next)
  {
  }

  lemma AskingResponds(r: Run, m: Recall, journal: Journal, owned: bool, e: Event, next: Run)
    requires Taken(r, m, journal, owned, e, next)
    requires r.pc == Recheck || r.pc == AskShutdown
    ensures Answered(m, journal, owned, e, next)
  {
  }

  lemma CancellingResponds(r: Run, m: Recall, journal: Journal, owned: bool, e: Event, next: Run)
    requires Taken(r, m, journal, owned, e, next)
    requires r.pc.CancelForward?
    ensures Answered(m, journal, owned, e, next)
  {
  }

  lemma CheckingResponds(r: Run, m: Recall, journal: Journal, owned: bool, e: Event, next: Run)
    requires Taken(r, m, journal, owned, e, next)
    requires r.pc.CheckReleased?
    ensures Answered(m, journal, owned, e, next)
  {
  }

  lemma VerifyingResponds(r: Run, m: Recall, journal: Journal, owned: bool, e: Event, next: Run)
    requires Taken(r, m, journal, owned, e, next)
    requires r.pc == VerifyLocal || r.pc == VerifyRemote
    ensures Answered(m, journal, owned, e, next)
  {
  }

  lemma CompletingResponds(r: Run, m: Recall, journal: Journal, owned: bool, e: Event, next: Run)
    requires Taken(r, m, journal, owned, e, next)
    requires r.pc == RecordOwnership || r.pc == RemoveJournal
    ensures Answered(m, journal, owned, e, next)
  {
  }

  lemma ConfiguringResponds(r: Run, m: Recall, journal: Journal, owned: bool, e: Event, next: Run)
    requires Taken(r, m, journal, owned, e, next)
    requires r.pc == Provision || r.pc == Installing || r.pc == RecordInstalled || r.pc == FlushInstalled
    ensures Answered(m, journal, owned, e, next)
  {
  }

  lemma OwningResponds(r: Run, m: Recall, journal: Journal, owned: bool, e: Event, next: Run)
    requires Taken(r, m, journal, owned, e, next)
    requires r.pc == FlushOwnership
    ensures Answered(m, journal, owned, e, next)
  {
  }

  lemma EarlyRunResponds(r: Run, m: Recall, journal: Journal, owned: bool, e: Event, next: Run)
    requires Taken(r, m, journal, owned, e, next)
    requires Starts(r.pc) || SavesOrFlushes(r.pc)
    ensures Answered(m, journal, owned, e, next)
  {
    if r.pc.SaveJournal? {
      SavingResponds(r, m, journal, owned, e, next);
    } else if r.pc.FlushJournal? {
      FlushingResponds(r, m, journal, owned, e, next);
    } else if r.pc == LoadJournal {
      LoadingResponds(r, m, journal, owned, e, next);
    } else if r.pc == AskSocket || r.pc == AskToken {
      DecidingResponds(r, m, journal, owned, e, next);
    } else {
      OpeningResponds(r, m, journal, owned, e, next);
    }
  }

  lemma LateRunResponds(r: Run, m: Recall, journal: Journal, owned: bool, e: Event, next: Run)
    requires Taken(r, m, journal, owned, e, next)
    requires Migration.Detaches(r.pc) || Verifies(r.pc) || Installs(r.pc)
    ensures Answered(m, journal, owned, e, next)
  {
    if r.pc == Confirm || r.pc == AskRunner {
      ConfirmingResponds(r, m, journal, owned, e, next);
    } else if r.pc == Recheck || r.pc == AskShutdown {
      AskingResponds(r, m, journal, owned, e, next);
    } else if r.pc.CancelForward? {
      CancellingResponds(r, m, journal, owned, e, next);
    } else if r.pc.CheckReleased? {
      CheckingResponds(r, m, journal, owned, e, next);
    } else if r.pc == VerifyLocal || r.pc == VerifyRemote {
      VerifyingResponds(r, m, journal, owned, e, next);
    } else if r.pc == RecordOwnership || r.pc == RemoveJournal {
      CompletingResponds(r, m, journal, owned, e, next);
    } else if r.pc == FlushOwnership {
      OwningResponds(r, m, journal, owned, e, next);
    } else {
      ConfiguringResponds(r, m, journal, owned, e, next);
    }
  }

  // ---------- Whole histories ----------

  /** What the calls have left to be read, and what is remembered of them. */
  datatype Reader = Reader(history: History, recall: Recall)

  function Read(reader: Reader, e: Event): Reader {
    Reader(Recorded(reader.history, e), Recalled(reader.recall, reader.history.journal, e))
  }

  function ReadAll(reader: Reader, events: seq<Event>): Reader
    decreases |events|
  {
    if events == [] then reader else ReadAll(Read(reader, events[0]), events[1..])
  }

  const NEW_READER := Reader(NO_CALLS, NOTHING)

  ghost predicate Follows(s: State, reader: Reader) {
    Invariant(s) && reader.history.journal == s.disk.journal.seen && Describes(s.run, reader.recall, s.disk.owned.seen)
  }

  lemma JournalsInOrder(s: State)
    requires Invariant(s)
    ensures InOrder(s.disk.journal.seen)
  {
  }

  predicate IsOwnCall(e: Event) {
    !e.OtherWrite? && !e.Crash? && !e.PowerLoss?
  }

  lemma OwnCallResponds(r: Run, m: Recall, journal: Journal, owned: bool, e: Event, next: Run)
    requires Describes(r, m, owned) && InOrder(journal) && IsOwnCall(e) && RunNext(r, journal, owned, e) == Some(next)
    ensures Answered(m, journal, owned, e, next)
  {
    if Starts(r.pc) || SavesOrFlushes(r.pc) {
      EarlyRunResponds(r, m, journal, owned, e, next);
    } else {
      LateRunResponds(r, m, journal, owned, e, next);
    }
  }

  lemma StepResponds(s: State, reader: Reader, e: Event, next: State)
    requires Follows(s, reader) && Step(s, e) == Some(next)
    ensures Responds(reader.recall, s.disk.journal.seen, s.disk.owned.seen, e)
    ensures Follows(next, Read(reader, e))
  {
    DiskKept(s, e, next);
    RunKept(s, e, next);
    JournalsInOrder(s);
    SeenRecorded(s, reader.history, e, next);
    if IsOwnCall(e) {
      OwnCallResponds(s.run, reader.recall, s.disk.journal.seen, s.disk.owned.seen, e, next.run);
      OwnedOnlyByRecording(s, e, next);
    }
  }

  lemma SeenRecorded(s: State, h: History, e: Event, next: State)
    requires Step(s, e) == Some(next) && h.journal == s.disk.journal.seen
    ensures Recorded(h, e).journal == next.disk.journal.seen
  {
  }

  lemma OwnedOnlyByRecording(s: State, e: Event, next: State)
    requires Step(s, e) == Some(next) && !e.PowerLoss?
    ensures next.disk.owned.seen == if e.ReplaceOwnership? then true else s.disk.owned.seen
    ensures e.ReplaceOwnership? ==> next.run.pc == FlushOwnership || next.run.pc == FlushInstalled
  {
  }

  lemma {:induction false} HistoryFollows(s: State, reader: Reader, events: seq<Event>, t: State)
    requires Follows(s, reader) && Continue(s, events) == Some(t)
    ensures Follows(t, ReadAll(reader, events))
    decreases |events|
  {
    if events != [] {
      var next := Step(s, events[0]).value;
      StepResponds(s, reader, events[0], next);
      HistoryFollows(next, Read(reader, events[0]), events[1..], t);
    }
  }

  /** Main result: after any runs, crashes, power losses and writes of other files, the next call of a run is the
      one its calls and their answers demand. */
  lemma EveryCallResponds(past: seq<Event>, s: State, e: Event)
    requires Continue(FRESH, past) == Some(s) && Step(s, e).Some?
    ensures var reader := ReadAll(NEW_READER, past);
      && reader.history.journal == s.disk.journal.seen
      && Responds(reader.recall, reader.history.journal, s.disk.owned.seen, e)
  {
    HistoryFollows(FRESH, NEW_READER, past, s);
    StepResponds(s, ReadAll(NEW_READER, past), e, Step(s, e).value);
  }

  /** So a runner is asked to shut down only when the latest two status replies are available and the last shows it
      idle, and a launcher that holds a token for a connection it cannot reach makes no further call. */
  lemma ShutdownNeedsIdle(past: seq<Event>, s: State, acknowledged: bool)
    requires Continue(FRESH, past) == Some(s) && Step(s, ShutdownAck(acknowledged)).Some?
    ensures var m := ReadAll(NEW_READER, past).recall;
      m.running && m.latest.Observe? && m.before.Observe? && m.latest.status != Unavailable && m.latest.status != Busy
  {
    EveryCallResponds(past, s, ShutdownAck(acknowledged));
  }

  /** A run that must stop, stops: after these answers the next call is another run's. */
  lemma EndedMeansOver(past: seq<Event>, s: State, last: Event, t: State, e: Event)
    requires Continue(FRESH, past) == Some(s) && Step(s, last) == Some(t) && Step(t, e).Some?
    requires last == TokenSaved(true) || last == ShutdownAck(false) || last == OldRunnerAbsent(None) || last == OldRunnerAbsent(Some(false))
    ensures e.Start? || e.OtherWrite? || e.Crash? || e.PowerLoss?
  {
    ContinueAppend(FRESH, past, s, last);
    HistoryFollows(FRESH, NEW_READER, past, s);
    StepResponds(s, ReadAll(NEW_READER, past), last, t);
    StepResponds(t, Read(ReadAll(NEW_READER, past), last), e, Step(t, e).value);
  }

  // ---------- Any answer ----------

  /** Another answer to the same call. */
  predicate SameCall(e: Event, f: Event) {
    match e
    case ServiceLoaded(_) => f.ServiceLoaded?
    case Observe(_) => f.Observe?
    case OldSocket(_) => f.OldSocket?
    case TokenSaved(_) => f.TokenSaved?
    case OldRunnerAbsent(_) => f.OldRunnerAbsent?
    case ShutdownAck(_) => f.ShutdownAck?
    case Cancel(forward, _) => f.Cancel? && f.forward == forward
    case Absent(forward, _) => f.Absent? && f.forward == forward
    case _ => f == e
  }

  /** Whatever answer the environment gives to a call, the run goes on with it or ends. */
  lemma AnyAnswerIsTaken(s: State, e: Event, f: Event)
    requires Step(s, e).Some? && IsOwnCall(e) && SameCall(e, f)
    ensures Step(s, f).Some?
  {
    match s.run.pc
    case SaveJournal(_) =>
    case FlushJournal(_) =>
    case CancelForward(_) =>
    case CheckReleased(_) =>
    case _ =>
  }
}
