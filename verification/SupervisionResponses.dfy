/**
 Which call of the supervisor follows which, by the calls and their answers alone.  A reader remembers the
 latest two calls, how far the supervisor has come, and what it has counted and timed; the machine's call sites
 and variables are not looked at.  Every next call of every run is the one that this demands.
 */
module SupervisionResponses {
  import opened Wrappers
  import opened Supervision
  import opened SupervisionProgress
  import SupervisionSafety

  /** How far the calls have come: before the singleton lock, at the top of the outer loop, connecting, looking at
      the link a last time, starting a runner, waiting for its status, connected, handling an exception, stopping,
      and over. */
  datatype Place = Outside | AtTop | Linking | Checking | Booting | Awaiting | InSession | Handling | Halting | Over

  /** `authenticated`: the last status; `started`: a runner was started and not stopped; `owned`: it was alive when
      the connection was announced, or was started since; `adopting`: the last thing found missing was a runner of
      nobody's. */
  datatype Known = Known(authenticated: bool, started: bool, owned: bool, adopting: bool)

  /** `missed`: rounds without a status; `attempts`: exceptions since the last connection. */
  datatype Counts = Counts(missed: nat, attempts: nat)

  /** `last`: the session's latest stamp; `deadline`: of the latest wait. */
  datatype Times = Times(last: nat, deadline: nat)

  datatype Setup = Setup(configured: bool, reused: bool)

  datatype Recall = Recall(
    place: Place, before: Event, latest: Event, held: bool, known: Known, counts: Counts, times: Times, setup: Setup)

  const NOTHING := Recall(Outside, Crash, Crash, false, Known(false, false, false, false), Counts(0, 0), Times(0, 0),
                          Setup(false, false))

  function Wait(attempts: nat): nat {
    match attempts
    case 0 => 1
    case 1 => 1
    case 2 => 2
    case 3 => 4
    case 4 => 8
    case 5 => 16
    case _ => 30
  }

  function PlaceAfter(m: Recall, e: Event): Place {
    match e
    case Singleton(granted) => if granted then AtTop else Over
    case Crash => Over
    case Raise(_) => Handling
    case Acquire(granted) => if m.place == AtTop && granted then Linking else m.place
    case StopRead(stop) =>
      if !stop then m.place
      else if m.place == AtTop || (m.place == Awaiting && (m.known.authenticated || m.latest == StopRead(true))) then Halting
      else if m.place == InSession || m.place == Handling then AtTop
      else if m.place == Linking then Checking
      else m.place
    case Clock(t) =>
      if m.place == Linking && !m.latest.SpawnMaster? && t >= m.times.deadline then Checking
      else if m.place == Handling && !m.latest.Publish? && t >= m.times.deadline then AtTop
      else m.place
    case PollMaster(_, exited) => if m.place == Linking && exited then Checking else m.place
    case SocketCheck(live) =>
      if !live then m.place
      else if m.place == Checking || (m.place == Linking && m.latest == Prepared) then Booting
      else if m.place == Linking then Checking
      else m.place
    case Release => if m.place == Booting then Awaiting else m.place
    case Publish(phase) =>
      if phase == Stopped then Over else if phase == Connected && m.place == Awaiting then InSession else m.place
    case _ => m.place
  }

  /** A wait begins when a process has been started or a failure reported, a stamp is taken when the window has been
      given back or the connection announced. */
  function TimesAfter(m: Recall, e: Event): Times {
    match e
    case Clock(t) =>
      (match m.latest
       case SpawnMaster(_) => m.times.(deadline := t + 12)
       case SpawnRunner(_) => m.times.(deadline := t + 15)
       case Release => m.times.(last := t)
       case Publish(phase) =>
         if m.place == Handling then m.times.(deadline := t + Wait(m.counts.attempts))
         else if phase == Connected then m.times.(last := t) else m.times
       case _ => m.times)
    case _ => m.times
  }

  /** The connection is about to be announced: whether the runner is ours is decided by looking at it. */
  predicate Decides(m: Recall) {
    m.place == Awaiting && m.known.authenticated
  }

  function KnownAfter(m: Recall, e: Event): Known {
    match e
    case Status(good) => m.known.(authenticated := good)
    case SpawnRunner(_) => m.known.(started := true)
    case StopRunner(_) => m.known.(started := false)
    case PollRunner(_, exited) => m.known.(adopting := false, owned := if Decides(m) then !exited else m.known.owned)
    case StopRead(stop) => if Decides(m) && !stop && !m.known.started then m.known.(owned := false) else m.known
    case Release => if m.place == InSession then m.known.(owned := true) else m.known
    case Probe(_) => m.known.(adopting := true)
    case _ => m.known
  }

  function CountsAfter(m: Recall, e: Event): Counts {
    match e
    case PollRunner(_, _) => if Decides(m) then m.counts.(attempts := 0) else m.counts
    case StopRead(stop) => if Decides(m) && !stop && !m.known.started then m.counts.(attempts := 0) else m.counts
    case StopMaster(_) => if m.place == Handling then m.counts.(attempts := m.counts.attempts + 1) else m.counts
    case Release => if m.place == Booting then m.counts.(missed := 0) else m.counts
    case Publish(phase) => if phase == Connected && m.place == Awaiting then m.counts.(missed := 0) else m.counts
    case SocketCheck(live) => if live && m.place == Awaiting then m.counts.(missed := m.counts.missed + 1) else m.counts
    case Status(good) =>
      if m.place != InSession then m.counts
      else if good then m.counts.(missed := 0)
      else if m.latest == Refresh(true) then m.counts.(missed := m.counts.missed + 1)
      else m.counts
    case Refresh(renewed) => if m.place == InSession && !renewed then m.counts.(missed := m.counts.missed + 1) else m.counts
    case _ => m.counts
  }

  function SetupAfter(m: Recall, e: Event): Setup {
    match e
    case Validated => m.setup.(configured := true)
    case SocketCheck(live) => if m.latest == Prepared then m.setup.(reused := live) else m.setup
    case _ => m.setup
  }

  function HeldAfter(m: Recall, e: Event): bool {
    match e
    case Acquire(granted) => granted
    case Release => false
    case Crash => false
    case _ => m.held
  }

  function Recalled(m: Recall, e: Event): Recall {
    Recall(PlaceAfter(m, e), m.latest, e, HeldAfter(m, e), KnownAfter(m, e), CountsAfter(m, e), TimesAfter(m, e),
           SetupAfter(m, e))
  }

  // ---------- What must follow ----------

  /** The eighth round without a status, and every later one, needs attention. */
  function Report(m: Recall): Event {
    Publish(if m.counts.missed >= 8 then NeedsAttention else Reconnecting)
  }

  /** The end of a round without a status: an unowned runner that has missed three is looked for. */
  predicate EndsRound(m: Recall, e: Event) {
    if !m.known.owned && m.counts.missed >= 3 then e.Probe? else e == Report(m)
  }

  predicate AfterStopRead(m: Recall, stop: bool, e: Event) {
    match m.place
    case AtTop => if stop then e.StopRead? else e.Acquire?
    case Linking => e.SocketCheck?
    case Checking =>
      if !stop then e.SocketCheck?
      else if m.before.PollMaster? && !m.before.exited then e.StopRead?
      else e == Raise(ConnectionLost)
    case Booting => if stop then e.Release? else e.Refresh?
    case Awaiting =>
      if stop then e.StopRead?
      else if !m.known.authenticated then e.SocketCheck?
      else if m.known.started then e.PollRunner? else e == Publish(Connected)
    case InSession => e == Sleep(HealthInterval)
    case Handling => e == Sleep(BackoffInterval)
    case Halting => e.StopRunner?
    case _ => false
  }

  predicate AfterAcquire(m: Recall, granted: bool, e: Event) {
    match m.place
    case AtTop => e == Publish(Reconnecting)
    case Linking => e == Publish(if m.counts.attempts == 0 then Connecting else Reconnecting)
    case Awaiting => if granted then e.SpawnRunner? else e.StopRead?
    case InSession => if granted then e.SpawnRunner? else e == if m.known.adopting then Report(m) else Publish(Reconnecting)
    case _ => false
  }

  predicate AfterPublish(m: Recall, e: Event) {
    match m.place
    case AtTop => e == Sleep(MaintenanceInterval)
    case Linking => e.Validated?
    case Awaiting => e == Sleep(HealthInterval)
    case InSession =>
      if m.before == StopRead(false) || (m.before.PollRunner? && m.latest == Publish(Connected)) then e.Clock? else e.StopRead?
    case Handling => e.Clock?
    case _ => false
  }

  predicate AfterSocketCheck(m: Recall, live: bool, e: Event) {
    match m.place
    case Linking => if m.before == Prepared then e.SpawnMaster? else e == Sleep(PollInterval)
    case Checking => if live then e.StopRead? else e == Raise(ConnectionLost)
    case Booting => e.Settings?
    case Awaiting => e == if live then Report(m) else Raise(ConnectionLost)
    case InSession => if live then e.Settings? else e == Raise(ConnectionLost)
    case Halting => e == if live then ControlExit else Publish(Stopped)
    case _ => false
  }

  predicate AfterPollRunner(m: Recall, exited: bool, e: Event) {
    match m.place
    case Booting => e == Sleep(PollInterval)
    case Awaiting => if m.known.authenticated then e == Publish(Connected) else if exited then e.Probe? else e.StopRead?
    case InSession => if exited then e.Clock? else e.Refresh?
    case _ => false
  }

  /** A replacement may be started five seconds after the session's latest stamp. */
  predicate AfterClock(m: Recall, t: nat, e: Event) {
    var due := t - m.times.last >= 5;
    match m.place
    case Linking => if m.before.SpawnMaster? then e.Clock? else e.PollMaster?
    case Booting => if m.before.SpawnRunner? then e.Clock? else if t < m.times.deadline then e.StopRead? else e.Release?
    case Awaiting => if m.before.Probe? && due then e.Acquire? else e.StopRead?
    case InSession =>
      if m.before == Publish(Connected) then e.StopRead?
      else if m.before != Release && due then e.Acquire?
      else if m.known.adopting then e == Report(m) else e.Refresh?
    case Handling => if m.before.Publish? then e.Clock? else e.StopRead?
    case _ => e.StopRead?
  }

  predicate AfterStatus(m: Recall, good: bool, e: Event) {
    match m.place
    case Booting => if good then e.Release? else if m.known.started then e.PollRunner? else e.Probe?
    case Awaiting => if good then e.StopRead? else if m.known.started then e.PollRunner? else e.Probe?
    case InSession =>
      if good then e == Publish(Connected)
      else if m.before != Settings then EndsRound(m, e)
      else if m.known.owned then e.PollRunner? else e.Refresh?
    case _ => false
  }

  /** A runner is started when it is certainly absent, and not otherwise. */
  predicate AfterProbe(m: Recall, absent: Option<bool>, e: Event) {
    match m.place
    case Booting => if absent == Some(true) then e.SpawnRunner? else e.Release?
    case Awaiting => if absent == Some(true) then e.Clock? else e.StopRead?
    case InSession => if absent == Some(true) then e.Clock? else e == Report(m)
    case _ => false
  }

  predicate Demands(m: Recall, e: Event) {
    match m.latest
    case Singleton(granted) => granted && e.StopRead?
    case StopRead(stop) => AfterStopRead(m, stop, e)
    case Acquire(granted) => AfterAcquire(m, granted, e)
    case Release => if m.place == Handling then e.StopRunner? else e.Clock?
    case Publish(_) => AfterPublish(m, e)
    case Validated => e.Prepared?
    case Prepared => e.SocketCheck?
    case SocketCheck(live) => AfterSocketCheck(m, live, e)
    case SpawnMaster(_) => e.Clock?
    case PollMaster(_, _) => e.StopRead?
    case SpawnRunner(_) => if m.place == Booting then e.Clock? else e.Release?
    case PollRunner(_, exited) => AfterPollRunner(m, exited, e)
    case Clock(t) => AfterClock(m, t, e)
    case Settings => if m.place == Booting then e.Refresh? else e.Status?
    case Refresh(renewed) => if m.place == InSession && !renewed then EndsRound(m, e) else e.Status?
    case Status(good) => AfterStatus(m, good, e)
    case Probe(absent) => AfterProbe(m, absent, e)
    case Sleep(interval) =>
      if interval == MaintenanceInterval then e.StopRead?
      else if interval != HealthInterval then e.Clock?
      else if m.place == Awaiting then e.Refresh? else e.SocketCheck?
    case Raise(_) => if m.held then e.Release? else e.StopRunner?
    case StopRunner(_) => e.StopMaster?
    case StopMaster(_) =>
      if m.place == Handling then e == Publish(if m.counts.attempts >= 8 then NeedsAttention else Reconnecting)
      else if m.setup.configured && m.setup.reused then e.SocketCheck? else e == Publish(Stopped)
    case ControlExit => e == Publish(Stopped)
    case Crash => false
  }

  /** Where an exception is handled. */
  predicate InTry(place: Place) {
    place == Linking || place == Checking || place == Booting || place == Awaiting || place == InSession
  }

  /** The call that must follow, unless the process is killed or a call inside the try block fails. */
  predicate Responds(m: Recall, e: Event) {
    if e.Crash? then m.place != Over
    else if e == Raise(CallFailed) then InTry(m.place)
    else if m.place == Outside then e.Singleton?
    else Demands(m, e)
  }

  // ---------- Where the machine stands, by what is remembered ----------

  ghost predicate Linked(s: Supervisor, m: Recall) {
    && m.held == s.window && m.counts.attempts == s.attempt && m.times.last == s.last && m.times.deadline == s.deadline
    && m.setup.configured == s.configured && m.setup.reused == s.reused
    && (s.pc.Halt? || s.pc.Done? || m.known.started == s.runner.Child?)
  }

  ghost predicate TopDescribed(s: Supervisor, m: Recall, t: TopPc) {
    match t
    case TopStop => m.place == AtTop && (s.stop || !m.known.started)
      && (m.latest == Singleton(true) || m.latest == Sleep(MaintenanceInterval) || m.latest == StopRead(true) || m.latest.Clock?)
    case TopAcquire => m.place == AtTop && !m.known.started && m.latest == StopRead(false)
    case TopBusy => m.place == AtTop && !m.known.started && m.latest == Acquire(false)
    case TopPause => m.place == AtTop && !m.known.started && m.latest.Publish?
    case TopAnnounce => m.place == Linking && !m.known.started && m.latest == Acquire(true)
  }

  ghost predicate LinkDescribed(m: Recall, l: LinkPc) {
    && !m.known.started
    && m.place == (if l == FinalStop || l == FinalSocket then Checking else Linking)
    && match l
       case Validate => m.latest.Publish?
       case Prepare => m.latest == Validated
       case Reuse => m.latest == Prepared
       case StartMaster => m.latest == SocketCheck(false) && m.before == Prepared
       case StampMaster => m.latest.SpawnMaster?
       case MasterClock => (m.latest.Clock? && m.before.SpawnMaster?) || m.latest == Sleep(PollInterval)
       case MasterPoll => m.latest.Clock? && !m.before.SpawnMaster?
       case MasterStop => m.latest.PollMaster? && !m.latest.exited
       case MasterSocket => m.latest == StopRead(false)
       case MasterPause => m.latest == SocketCheck(false) && m.before == StopRead(false)
       case FinalStop =>
         m.latest.Clock? || (m.latest.PollMaster? && m.latest.exited) || m.latest == SocketCheck(true)
         || (m.latest == StopRead(true) && m.before.PollMaster? && !m.before.exited)
       case FinalSocket => m.latest == StopRead(false)
  }

  ghost predicate BootDescribed(s: Supervisor, m: Recall, b: BootPc) {
    && m.place == (if b == StampSession then Awaiting else Booting)
    && match b
       case LoadSettings => !m.known.started && m.latest == SocketCheck(true)
       case FirstRefresh => !m.known.started && m.latest == Settings
       case FirstStatus => !m.known.started && m.latest.Refresh?
       case FirstProbe => !m.known.started && m.latest == Status(false) && m.known.authenticated == s.authenticated
       case StartRunner => m.latest == Probe(Some(true)) && m.known.authenticated == s.authenticated
       case StampRunner => m.known.started && m.latest.SpawnRunner? && m.known.authenticated == s.authenticated
       case RunnerClock =>
         m.known.started && m.known.authenticated == s.authenticated
         && ((m.latest.Clock? && m.before.SpawnRunner?) || m.latest == Sleep(PollInterval))
       case RunnerStop =>
         m.known.started && m.known.authenticated == s.authenticated
         && m.latest.Clock? && !m.before.SpawnRunner? && m.latest.reading < m.times.deadline
       case RunnerRefresh => m.known.started && m.latest == StopRead(false)
       case RunnerStatus => m.known.started && m.latest.Refresh?
       case RunnerPoll => m.known.started && m.latest == Status(false) && m.known.authenticated == s.authenticated
       case RunnerPause => m.known.started && m.latest.PollRunner? && m.known.authenticated == s.authenticated
       case CloseWindow => m.known.authenticated == s.authenticated && MayClose(m)
       case StampSession => m.known.authenticated == s.authenticated && m.latest == Release && m.counts.missed == 0
  }

  /** The ways into the calls that several others lead to. */
  predicate MayClose(m: Recall) {
    match m.latest
    case Status(good) => good
    case Probe(absent) => absent != Some(true)
    case Clock(t) => !m.before.SpawnRunner? && t >= m.times.deadline
    case StopRead(stop) => stop
    case _ => false
  }

  predicate MayStop(m: Recall) {
    match m.latest
    case Clock(t) => m.before == Release || t - m.times.last < 5
    case PollRunner(_, exited) => !exited
    case Probe(absent) => absent != Some(true)
    case Acquire(granted) => !granted
    case _ => false
  }

  predicate MayLeave(s: Supervisor, m: Recall) {
    match m.latest
    case Clock(_) => m.known.authenticated && m.before == Release
    case Status(good) => good && m.known.authenticated
    case StopRead(stop) => stop && s.stop
    case _ => false
  }

  predicate MayRest(m: Recall) {
    match m.latest
    case Clock(_) => m.before == Publish(Connected)
    case Publish(_) => !m.before.StopRead? && !m.before.PollRunner?
    case _ => false
  }

  predicate Stamped(m: Recall, t: nat) {
    m.before != Publish(Connected) && (m.before == Release || t - m.times.last < 5)
  }

  predicate MayRefresh(m: Recall) {
    match m.latest
    case Status(good) => !good && m.before == Settings && !m.known.owned
    case PollRunner(_, exited) => !exited
    case Clock(t) => !m.known.adopting && Stamped(m, t)
    case _ => false
  }

  predicate MayReport(m: Recall) {
    match m.latest
    case Refresh(renewed) => !renewed && (m.known.owned || m.counts.missed < 3)
    case Status(good) => !good && m.before != Settings && (m.known.owned || m.counts.missed < 3)
    case Probe(absent) => absent != Some(true)
    case Clock(t) => m.known.adopting && Stamped(m, t)
    case Acquire(granted) => !granted && m.known.adopting
    case _ => false
  }

  predicate IsLost(m: Recall) {
    match m.latest
    case SocketCheck(live) => !live && (m.place == Checking || m.place == Awaiting || m.place == InSession)
    case StopRead(stop) => stop && m.place == Checking && !(m.before.PollMaster? && !m.before.exited)
    case _ => false
  }

  predicate MayEnd(m: Recall) {
    match m.latest
    case StopMaster(_) => !(m.setup.configured && m.setup.reused)
    case SocketCheck(live) => !live
    case ControlExit => true
    case _ => false
  }

  ghost predicate AuthDescribed(s: Supervisor, m: Recall, a: AuthPc) {
    && m.place == (if a == StampHealth then InSession else Awaiting)
    && m.known.authenticated == s.authenticated
    && match a
       case AuthStop => !m.known.authenticated && m.counts.missed == s.failures && MayStop(m)
       case AuthSocket => !m.known.authenticated && m.counts.missed == s.failures && m.latest == StopRead(false)
       case AuthReport => !m.known.authenticated && m.counts.missed == s.failures && m.latest == SocketCheck(true)
       case AuthPause => !m.known.authenticated && m.counts.missed == s.failures && m.latest.Publish?
       case AuthRefresh => !m.known.authenticated && m.counts.missed == s.failures && m.latest == Sleep(HealthInterval)
       case AuthStatus => !m.known.authenticated && m.counts.missed == s.failures && m.latest.Refresh?
       case AuthPoll =>
         !m.known.authenticated && m.counts.missed == s.failures && m.latest == Status(false) && m.known.started
       case AuthProbe =>
         !m.known.authenticated && m.counts.missed == s.failures
         && ((m.latest == Status(false) && !m.known.started) || (m.latest.PollRunner? && m.latest.exited))
       case LeaveStop => MayLeave(s, m)
       case OwnPoll => m.known.authenticated && m.known.started && m.latest == StopRead(false)
       case Announce =>
         m.known.authenticated && m.known.owned == s.owned
         && ((m.latest == StopRead(false) && !m.known.started) || m.latest.PollRunner?)
       case StampHealth =>
         m.known.owned == s.owned && m.counts.missed == 0 && m.latest == Publish(Connected)
         && (m.before == StopRead(false) || m.before.PollRunner?)
  }

  ghost predicate HealthDescribed(s: Supervisor, m: Recall, h: HealthPc) {
    && m.place == InSession && m.known.owned == s.owned && m.counts.missed == s.failures
    && match h
       case HealthStop => MayRest(m)
       case HealthPause => m.latest == StopRead(false)
       case HealthSocket => m.latest == Sleep(HealthInterval)
       case HealthSettings => m.latest == SocketCheck(true)
       case HealthStatus => m.latest == Settings
       case HealthGood => m.latest == Status(true)
       case HealthPoll => m.known.owned && m.latest == Status(false) && m.before == Settings
       case HealthBusy => m.latest == Acquire(false) && !m.known.adopting
       case HealthRefresh => MayRefresh(m)
       case SecondStatus => m.latest == Refresh(true)
       case HealthProbe =>
         !m.known.owned && m.counts.missed >= 3
         && (m.latest == Refresh(false) || (m.latest == Status(false) && m.before != Settings))
       case HealthReport => MayReport(m)
  }

  ghost predicate RespawnDescribed(s: Supervisor, m: Recall, site: Site, r: RespawnPc) {
    && m.place == (if site == Waiting then Awaiting else InSession) && m.counts.missed == s.failures
    && (site == Waiting ==> !m.known.authenticated && !s.authenticated)
    && m.known.adopting == (site != Owned)
    && (r != RespawnStamp && site != Waiting ==> m.known.owned == s.owned)
    && (site == Owned ==> s.owned && m.known.owned)
    && match r
       case RespawnClock => if site == Owned then m.latest.PollRunner? && m.latest.exited else m.latest == Probe(Some(true))
       case RespawnAcquire =>
         m.latest.Clock? && m.latest.reading - m.times.last >= 5
         && if site == Owned then m.before.PollRunner? else m.before.Probe?
       case RespawnSpawn => m.latest == Acquire(true)
       case RespawnRelease => m.latest.SpawnRunner?
       case RespawnStamp => m.latest == Release && (site != Waiting ==> m.known.owned)
  }

  ghost predicate FailDescribed(m: Recall, f: FailPc) {
    && m.place == Handling
    && match f
       case Unwind => m.latest.Raise? && m.held
       case KillRunner => (m.latest.Raise? && !m.held) || m.latest == Release
       case KillMaster => m.latest.StopRunner? && !m.known.started
       case FailReport => m.latest.StopMaster? && !m.known.started
       case BackoffStamp => m.latest.Publish? && !m.known.started
       case BackoffClock =>
         !m.known.started && ((m.latest.Clock? && m.before.Publish?) || m.latest == Sleep(BackoffInterval))
       case BackoffStop => !m.known.started && m.latest.Clock? && !m.before.Publish?
       case BackoffPause => !m.known.started && m.latest == StopRead(false)
  }

  ghost predicate HaltDescribed(m: Recall, x: HaltPc) {
    && m.place == Halting
    && match x
       case HaltRunner => m.latest == StopRead(true)
       case HaltMaster => m.latest.StopRunner?
       case HaltSocket => m.latest.StopMaster? && m.setup.configured && m.setup.reused
       case HaltControl => m.latest == SocketCheck(true)
       case HaltReport => MayEnd(m)
  }

  ghost predicate Describes(s: Supervisor, m: Recall) {
    match s.pc
    case Enter => s == INITIAL && m == NOTHING
    case Done => m.place == Over
    case Top(t) => Linked(s, m) && TopDescribed(s, m, t)
    case Link(l) => Linked(s, m) && LinkDescribed(m, l)
    case Boot(b) => Linked(s, m) && BootDescribed(s, m, b)
    case Auth(a) => Linked(s, m) && AuthDescribed(s, m, a)
    case Health(h) => Linked(s, m) && HealthDescribed(s, m, h)
    case Respawn(site, r) => Linked(s, m) && RespawnDescribed(s, m, site, r)
    case Lost => Linked(s, m) && IsLost(m)
    case Fail(f) => Linked(s, m) && FailDescribed(m, f)
    case Halt(x) => Linked(s, m) && HaltDescribed(m, x)
  }

  // ---------- The top of the outer loop ----------

  ghost predicate FromTop(s: Supervisor, m: Recall) {
    && Linked(s, m)
    && match s.pc
       case Top(t) => TopDescribed(s, m, t)
       case Link(l) => LinkDescribed(m, l)
       case Halt(x) => HaltDescribed(m, x)
       case _ => false
  }

  lemma TopDemanded(s: Supervisor, m: Recall, e: Event, next: Supervisor)
    requires Linked(s, m) && s.pc.Top? && TopDescribed(s, m, s.pc.t) && NextTop(s, e) == Some(next)
    ensures Demands(m, e)
  {
  }

  lemma TopOpensRemembered(s: Supervisor, m: Recall, e: Event, next: Supervisor)
    requires Linked(s, m) && s.pc.Top? && TopDescribed(s, m, s.pc.t) && NextTop(s, e) == Some(next)
    requires TopOpens(s.pc.t)
    ensures FromTop(next, Recalled(m, e))
  {
  }

  lemma TopRestsRemembered(s: Supervisor, m: Recall, e: Event, next: Supervisor)
    requires Linked(s, m) && s.pc.Top? && TopDescribed(s, m, s.pc.t) && NextTop(s, e) == Some(next)
    requires s.pc.t == TopBusy || s.pc.t == TopPause
    ensures FromTop(next, Recalled(m, e))
  {
  }

  lemma TopAnnouncesRemembered(s: Supervisor, m: Recall, e: Event, next: Supervisor)
    requires Linked(s, m) && s.pc.Top? && TopDescribed(s, m, s.pc.t) && NextTop(s, e) == Some(next)
    requires s.pc.t == TopAnnounce
    ensures FromTop(next, Recalled(m, e))
  {
  }

  lemma TopRemembered(s: Supervisor, m: Recall, e: Event, next: Supervisor)
    requires Linked(s, m) && s.pc.Top? && TopDescribed(s, m, s.pc.t) && NextTop(s, e) == Some(next)
    ensures FromTop(next, Recalled(m, e))
  {
    if TopOpens(s.pc.t) {
      TopOpensRemembered(s, m, e, next);
    } else if s.pc.t == TopBusy || s.pc.t == TopPause {
      TopRestsRemembered(s, m, e, next);
    } else {
      TopAnnouncesRemembered(s, m, e, next);
    }
  }

  // ---------- The link ----------

  ghost predicate FromLink(s: Supervisor, m: Recall) {
    && Linked(s, m)
    && match s.pc
       case Link(l) => LinkDescribed(m, l)
       case Boot(b) => BootDescribed(s, m, b)
       case Lost => IsLost(m)
       case _ => false
  }

  lemma LinkDemanded(s: Supervisor, m: Recall, e: Event, next: Supervisor)
    requires Linked(s, m) && s.pc.Link? && LinkDescribed(m, s.pc.l) && NextLink(s, e) == Some(next)
    ensures Demands(m, e)
  {
  }

  lemma LinkOpensRemembered(s: Supervisor, m: Recall, e: Event, next: Supervisor)
    requires Linked(s, m) && s.pc.Link? && LinkDescribed(m, s.pc.l) && NextLink(s, e) == Some(next)
    requires LinkOpens(s.pc.l)
    ensures FromLink(next, Recalled(m, e))
  {
  }

  lemma LinkWaitsRemembered(s: Supervisor, m: Recall, e: Event, next: Supervisor)
    requires Linked(s, m) && s.pc.Link? && LinkDescribed(m, s.pc.l) && NextLink(s, e) == Some(next)
    requires LinkWaits(s.pc.l)
    ensures FromLink(next, Recalled(m, e))
  {
  }

  lemma LinkLooksRemembered(s: Supervisor, m: Recall, e: Event, next: Supervisor)
    requires Linked(s, m) && s.pc.Link? && LinkDescribed(m, s.pc.l) && NextLink(s, e) == Some(next)
    requires s.pc.l == MasterSocket
    ensures FromLink(next, Recalled(m, e))
  {
  }

  lemma LinkEndsRemembered(s: Supervisor, m: Recall, e: Event, next: Supervisor)
    requires Linked(s, m) && s.pc.Link? && LinkDescribed(m, s.pc.l) && NextLink(s, e) == Some(next)
    requires s.pc.l == FinalStop || s.pc.l == FinalSocket
    ensures FromLink(next, Recalled(m, e))
  {
  }

  lemma LinkRemembered(s: Supervisor, m: Recall, e: Event, next: Supervisor)
    requires Linked(s, m) && s.pc.Link? && LinkDescribed(m, s.pc.l) && NextLink(s, e) == Some(next)
    ensures FromLink(next, Recalled(m, e))
  {
    if LinkOpens(s.pc.l) {
      LinkOpensRemembered(s, m, e, next);
    } else if LinkWaits(s.pc.l) {
      LinkWaitsRemembered(s, m, e, next);
    } else if s.pc.l == MasterSocket {
      LinkLooksRemembered(s, m, e, next);
    } else {
      LinkEndsRemembered(s, m, e, next);
    }
  }

  // ---------- Opening the session ----------

  ghost predicate FromBoot(s: Supervisor, m: Recall) {
    && Linked(s, m)
    && match s.pc
       case Boot(b) => BootDescribed(s, m, b)
       case Auth(a) => AuthDescribed(s, m, a)
       case _ => false
  }

  lemma BootOpensDemanded(s: Supervisor, m: Recall, e: Event, next: Supervisor)
    requires Linked(s, m) && s.pc.Boot? && BootDescribed(s, m, s.pc.b) && NextBoot(s, e) == Some(next)
    requires BootOpens(s.pc.b)
    ensures Demands(m, e)
  {
  }

  lemma BootTimesDemanded(s: Supervisor, m: Recall, e: Event, next: Supervisor)
    requires Linked(s, m) && s.pc.Boot? && BootDescribed(s, m, s.pc.b) && NextBoot(s, e) == Some(next)
    requires BootTimes(s.pc.b)
    ensures Demands(m, e)
  {
  }

  lemma BootWaitsDemanded(s: Supervisor, m: Recall, e: Event, next: Supervisor)
    requires Linked(s, m) && s.pc.Boot? && BootDescribed(s, m, s.pc.b) && NextBoot(s, e) == Some(next)
    requires BootWaits(s.pc.b)
    ensures Demands(m, e)
  {
  }

  lemma BootClosesDemanded(s: Supervisor, m: Recall, e: Event, next: Supervisor)
    requires Linked(s, m) && s.pc.Boot? && BootDescribed(s, m, s.pc.b) && NextBoot(s, e) == Some(next)
    requires BootCloses(s.pc.b)
    ensures Demands(m, e)
  {
  }

  lemma BootDemanded(s: Supervisor, m: Recall, e: Event, next: Supervisor)
    requires Linked(s, m) && s.pc.Boot? && BootDescribed(s, m, s.pc.b) && NextBoot(s, e) == Some(next)
    ensures Demands(m, e)
  {
    if BootOpens(s.pc.b) {
      BootOpensDemanded(s, m, e, next);
    } else if BootTimes(s.pc.b) {
      BootTimesDemanded(s, m, e, next);
    } else if BootWaits(s.pc.b) {
      BootWaitsDemanded(s, m, e, next);
    } else {
      BootClosesDemanded(s, m, e, next);
    }
  }

  lemma BootLoadsRemembered(s: Supervisor, m: Recall, e: Event, next: Supervisor)
    requires Linked(s, m) && s.pc.Boot? && BootDescribed(s, m, s.pc.b) && NextBoot(s, e) == Some(next)
    requires s.pc.b == LoadSettings || s.pc.b == FirstRefresh
    ensures FromBoot(next, Recalled(m, e))
  {
  }

  lemma BootTriesRemembered(s: Supervisor, m: Recall, e: Event, next: Supervisor)
    requires Linked(s, m) && s.pc.Boot? && BootDescribed(s, m, s.pc.b) && NextBoot(s, e) == Some(next)
    requires s.pc.b == FirstStatus || s.pc.b == FirstProbe || s.pc.b == StartRunner
    ensures FromBoot(next, Recalled(m, e))
  {
  }

  lemma BootStartsRemembered(s: Supervisor, m: Recall, e: Event, next: Supervisor)
    requires Linked(s, m) && s.pc.Boot? && BootDescribed(s, m, s.pc.b) && NextBoot(s, e) == Some(next)
    requires s.pc.b == StampRunner
    ensures FromBoot(next, Recalled(m, e))
  {
  }

  lemma BootTimesRemembered(s: Supervisor, m: Recall, e: Event, next: Supervisor)
    requires Linked(s, m) && s.pc.Boot? && BootDescribed(s, m, s.pc.b) && NextBoot(s, e) == Some(next)
    requires s.pc.b == RunnerClock
    ensures FromBoot(next, Recalled(m, e))
  {
  }

  lemma BootWaitsRemembered(s: Supervisor, m: Recall, e: Event, next: Supervisor)
    requires Linked(s, m) && s.pc.Boot? && BootDescribed(s, m, s.pc.b) && NextBoot(s, e) == Some(next)
    requires BootWaits(s.pc.b)
    ensures FromBoot(next, Recalled(m, e))
  {
  }

  lemma BootAsksRemembered(s: Supervisor, m: Recall, e: Event, next: Supervisor)
    requires Linked(s, m) && s.pc.Boot? && BootDescribed(s, m, s.pc.b) && NextBoot(s, e) == Some(next)
    requires s.pc.b == RunnerStatus || s.pc.b == RunnerPoll
    ensures FromBoot(next, Recalled(m, e))
  {
  }

  lemma BootPausesRemembered(s: Supervisor, m: Recall, e: Event, next: Supervisor)
    requires Linked(s, m) && s.pc.Boot? && BootDescribed(s, m, s.pc.b) && NextBoot(s, e) == Some(next)
    requires s.pc.b == RunnerPause || s.pc.b == CloseWindow
    ensures FromBoot(next, Recalled(m, e))
  {
  }

  lemma BootStampsRemembered(s: Supervisor, m: Recall, e: Event, next: Supervisor)
    requires Linked(s, m) && s.pc.Boot? && BootDescribed(s, m, s.pc.b) && NextBoot(s, e) == Some(next)
    requires s.pc.b == StampSession
    ensures FromBoot(next, Recalled(m, e))
  {
  }

  lemma BootRemembered(s: Supervisor, m: Recall, e: Event, next: Supervisor)
    requires Linked(s, m) && s.pc.Boot? && BootDescribed(s, m, s.pc.b) && NextBoot(s, e) == Some(next)
    ensures FromBoot(next, Recalled(m, e))
  {
    if s.pc.b == LoadSettings || s.pc.b == FirstRefresh {
      BootLoadsRemembered(s, m, e, next);
    } else if BootOpens(s.pc.b) {
      BootTriesRemembered(s, m, e, next);
    } else if s.pc.b == StampRunner {
      BootStartsRemembered(s, m, e, next);
    } else if s.pc.b == RunnerClock {
      BootTimesRemembered(s, m, e, next);
    } else if BootWaits(s.pc.b) {
      BootWaitsRemembered(s, m, e, next);
    } else if s.pc.b == RunnerStatus || s.pc.b == RunnerPoll {
      BootAsksRemembered(s, m, e, next);
    } else if s.pc.b == RunnerPause || s.pc.b == CloseWindow {
      BootPausesRemembered(s, m, e, next);
    } else {
      BootStampsRemembered(s, m, e, next);
    }
  }

  // ---------- Waiting for a status, and the announcement ----------

  ghost predicate FromAuth(s: Supervisor, m: Recall) {
    && Linked(s, m)
    && match s.pc
       case Auth(a) => AuthDescribed(s, m, a)
       case Lost => IsLost(m)
       case Respawn(site, r) => RespawnDescribed(s, m, site, r)
       case Halt(x) => HaltDescribed(m, x)
       case Health(h) => HealthDescribed(s, m, h)
       case _ => false
  }

  lemma AuthOpensDemanded(s: Supervisor, m: Recall, e: Event, next: Supervisor)
    requires Linked(s, m) && s.pc.Auth? && AuthDescribed(s, m, s.pc.a) && NextAuth(s, e) == Some(next)
    requires AuthOpens(s.pc.a)
    ensures Demands(m, e)
  {
  }

  lemma AuthReportsDemanded(s: Supervisor, m: Recall, e: Event, next: Supervisor)
    requires Linked(s, m) && s.pc.Auth? && AuthDescribed(s, m, s.pc.a) && NextAuth(s, e) == Some(next)
    requires AuthReports(s.pc.a)
    ensures Demands(m, e)
  {
  }

  lemma AuthRepairsDemanded(s: Supervisor, m: Recall, e: Event, next: Supervisor)
    requires Linked(s, m) && s.pc.Auth? && AuthDescribed(s, m, s.pc.a) && NextAuth(s, e) == Some(next)
    requires AuthRepairs(s.pc.a)
    ensures Demands(m, e)
  {
  }

  lemma AuthLeavesDemanded(s: Supervisor, m: Recall, e: Event, next: Supervisor)
    requires Linked(s, m) && s.pc.Auth? && AuthDescribed(s, m, s.pc.a) && NextAuth(s, e) == Some(next)
    requires AuthLeaves(s.pc.a)
    ensures Demands(m, e)
  {
  }

  lemma AuthEndsDemanded(s: Supervisor, m: Recall, e: Event, next: Supervisor)
    requires Linked(s, m) && s.pc.Auth? && AuthDescribed(s, m, s.pc.a) && NextAuth(s, e) == Some(next)
    requires AuthEnds(s.pc.a)
    ensures Demands(m, e)
  {
  }

  lemma AuthDemanded(s: Supervisor, m: Recall, e: Event, next: Supervisor)
    requires Linked(s, m) && s.pc.Auth? && AuthDescribed(s, m, s.pc.a) && NextAuth(s, e) == Some(next)
    ensures Demands(m, e)
  {
    if AuthOpens(s.pc.a) {
      AuthOpensDemanded(s, m, e, next);
    } else if AuthReports(s.pc.a) {
      AuthReportsDemanded(s, m, e, next);
    } else if AuthRepairs(s.pc.a) {
      AuthRepairsDemanded(s, m, e, next);
    } else if AuthLeaves(s.pc.a) {
      AuthLeavesDemanded(s, m, e, next);
    } else {
      AuthEndsDemanded(s, m, e, next);
    }
  }

  lemma AuthListensRemembered(s: Supervisor, m: Recall, e: Event, next: Supervisor)
    requires Linked(s, m) && s.pc.Auth? && AuthDescribed(s, m, s.pc.a) && NextAuth(s, e) == Some(next)
    requires s.pc.a == AuthStop
    ensures FromAuth(next, Recalled(m, e))
  {
  }

  lemma AuthChecksRemembered(s: Supervisor, m: Recall, e: Event, next: Supervisor)
    requires Linked(s, m) && s.pc.Auth? && AuthDescribed(s, m, s.pc.a) && NextAuth(s, e) == Some(next)
    requires s.pc.a == AuthSocket
    ensures FromAuth(next, Recalled(m, e))
  {
    if next.pc == Lost {
    } else {
    }
  }

  lemma AuthReportsRemembered(s: Supervisor, m: Recall, e: Event, next: Supervisor)
    requires Linked(s, m) && s.pc.Auth? && AuthDescribed(s, m, s.pc.a) && NextAuth(s, e) == Some(next)
    requires AuthReports(s.pc.a)
    ensures FromAuth(next, Recalled(m, e))
  {
  }

  lemma AuthRepairsRemembered(s: Supervisor, m: Recall, e: Event, next: Supervisor)
    requires Linked(s, m) && s.pc.Auth? && AuthDescribed(s, m, s.pc.a) && NextAuth(s, e) == Some(next)
    requires AuthRepairs(s.pc.a)
    ensures FromAuth(next, Recalled(m, e))
  {
  }

  lemma AuthLeavesRemembered(s: Supervisor, m: Recall, e: Event, next: Supervisor)
    requires Linked(s, m) && s.pc.Auth? && AuthDescribed(s, m, s.pc.a) && NextAuth(s, e) == Some(next)
    requires s.pc.a == LeaveStop
    ensures FromAuth(next, Recalled(m, e))
  {
  }

  lemma AuthDecidesRemembered(s: Supervisor, m: Recall, e: Event, next: Supervisor)
    requires Linked(s, m) && s.pc.Auth? && AuthDescribed(s, m, s.pc.a) && NextAuth(s, e) == Some(next)
    requires s.pc.a == OwnPoll
    ensures FromAuth(next, Recalled(m, e))
  {
  }

  lemma AuthEndsRemembered(s: Supervisor, m: Recall, e: Event, next: Supervisor)
    requires Linked(s, m) && s.pc.Auth? && AuthDescribed(s, m, s.pc.a) && NextAuth(s, e) == Some(next)
    requires AuthEnds(s.pc.a)
    ensures FromAuth(next, Recalled(m, e))
  {
  }

  lemma AuthRemembered(s: Supervisor, m: Recall, e: Event, next: Supervisor)
    requires Linked(s, m) && s.pc.Auth? && AuthDescribed(s, m, s.pc.a) && NextAuth(s, e) == Some(next)
    ensures FromAuth(next, Recalled(m, e))
  {
    if s.pc.a == AuthStop {
      AuthListensRemembered(s, m, e, next);
    } else if s.pc.a == AuthSocket {
      AuthChecksRemembered(s, m, e, next);
    } else if AuthReports(s.pc.a) {
      AuthReportsRemembered(s, m, e, next);
    } else if AuthRepairs(s.pc.a) {
      AuthRepairsRemembered(s, m, e, next);
    } else if s.pc.a == LeaveStop {
      AuthLeavesRemembered(s, m, e, next);
    } else if s.pc.a == OwnPoll {
      AuthDecidesRemembered(s, m, e, next);
    } else {
      AuthEndsRemembered(s, m, e, next);
    }
  }

  // ---------- The health loop ----------

  ghost predicate FromHealth(s: Supervisor, m: Recall) {
    && Linked(s, m)
    && match s.pc
       case Health(h) => HealthDescribed(s, m, h)
       case Lost => IsLost(m)
       case Respawn(site, r) => RespawnDescribed(s, m, site, r)
       case Top(t) => TopDescribed(s, m, t)
       case _ => false
  }

  lemma HealthOpensDemanded(s: Supervisor, m: Recall, e: Event, next: Supervisor)
    requires Linked(s, m) && s.pc.Health? && HealthDescribed(s, m, s.pc.h) && NextHealth(s, e) == Some(next)
    requires HealthOpens(s.pc.h)
    ensures Demands(m, e)
  {
  }

  lemma HealthAsksDemanded(s: Supervisor, m: Recall, e: Event, next: Supervisor)
    requires Linked(s, m) && s.pc.Health? && HealthDescribed(s, m, s.pc.h) && NextHealth(s, e) == Some(next)
    requires HealthAsks(s.pc.h)
    ensures Demands(m, e)
  {
  }

  lemma HealthPollsDemanded(s: Supervisor, m: Recall, e: Event, next: Supervisor)
    requires Linked(s, m) && s.pc.Health? && HealthDescribed(s, m, s.pc.h) && NextHealth(s, e) == Some(next)
    requires HealthPolls(s.pc.h)
    ensures Demands(m, e)
  {
  }

  lemma HealthRepairsDemanded(s: Supervisor, m: Recall, e: Event, next: Supervisor)
    requires Linked(s, m) && s.pc.Health? && HealthDescribed(s, m, s.pc.h) && NextHealth(s, e) == Some(next)
    requires HealthRepairs(s.pc.h)
    ensures Demands(m, e)
  {
  }

  lemma HealthReportsDemanded(s: Supervisor, m: Recall, e: Event, next: Supervisor)
    requires Linked(s, m) && s.pc.Health? && HealthDescribed(s, m, s.pc.h) && NextHealth(s, e) == Some(next)
    requires HealthReports(s.pc.h)
    ensures Demands(m, e)
  {
  }

  lemma HealthDemanded(s: Supervisor, m: Recall, e: Event, next: Supervisor)
    requires Linked(s, m) && s.pc.Health? && HealthDescribed(s, m, s.pc.h) && NextHealth(s, e) == Some(next)
    ensures Demands(m, e)
  {
    if HealthOpens(s.pc.h) {
      HealthOpensDemanded(s, m, e, next);
    } else if HealthAsks(s.pc.h) {
      HealthAsksDemanded(s, m, e, next);
    } else if HealthPolls(s.pc.h) {
      HealthPollsDemanded(s, m, e, next);
    } else if HealthRepairs(s.pc.h) {
      HealthRepairsDemanded(s, m, e, next);
    } else {
      HealthReportsDemanded(s, m, e, next);
    }
  }

  lemma HealthOpensRemembered(s: Supervisor, m: Recall, e: Event, next: Supervisor)
    requires Linked(s, m) && s.pc.Health? && HealthDescribed(s, m, s.pc.h) && NextHealth(s, e) == Some(next)
    requires HealthOpens(s.pc.h)
    ensures FromHealth(next, Recalled(m, e))
  {
  }

  lemma HealthLoadsRemembered(s: Supervisor, m: Recall, e: Event, next: Supervisor)
    requires Linked(s, m) && s.pc.Health? && HealthDescribed(s, m, s.pc.h) && NextHealth(s, e) == Some(next)
    requires s.pc.h == HealthSettings
    ensures FromHealth(next, Recalled(m, e))
  {
  }

  lemma HealthAsksRemembered(s: Supervisor, m: Recall, e: Event, next: Supervisor)
    requires Linked(s, m) && s.pc.Health? && HealthDescribed(s, m, s.pc.h) && NextHealth(s, e) == Some(next)
    requires s.pc.h == HealthStatus
    ensures FromHealth(next, Recalled(m, e))
  {
    if next.pc == Health(HealthPoll) {
    } else {
    }
  }

  lemma HealthAnnouncesRemembered(s: Supervisor, m: Recall, e: Event, next: Supervisor)
    requires Linked(s, m) && s.pc.Health? && HealthDescribed(s, m, s.pc.h) && NextHealth(s, e) == Some(next)
    requires s.pc.h == HealthGood || s.pc.h == HealthBusy
    ensures FromHealth(next, Recalled(m, e))
  {
  }

  lemma HealthPollsRemembered(s: Supervisor, m: Recall, e: Event, next: Supervisor)
    requires Linked(s, m) && s.pc.Health? && HealthDescribed(s, m, s.pc.h) && NextHealth(s, e) == Some(next)
    requires s.pc.h == HealthPoll
    ensures FromHealth(next, Recalled(m, e))
  {
  }

  lemma HealthRepairsRemembered(s: Supervisor, m: Recall, e: Event, next: Supervisor)
    requires Linked(s, m) && s.pc.Health? && HealthDescribed(s, m, s.pc.h) && NextHealth(s, e) == Some(next)
    requires s.pc.h == HealthRefresh
    ensures FromHealth(next, Recalled(m, e))
  {
    if next.pc == Health(SecondStatus) {
    } else {
    }
  }

  lemma HealthAsksAgainRemembered(s: Supervisor, m: Recall, e: Event, next: Supervisor)
    requires Linked(s, m) && s.pc.Health? && HealthDescribed(s, m, s.pc.h) && NextHealth(s, e) == Some(next)
    requires s.pc.h == SecondStatus
    ensures FromHealth(next, Recalled(m, e))
  {
    if next.pc == Health(HealthGood) {
    } else {
    }
  }

  lemma HealthReportsRemembered(s: Supervisor, m: Recall, e: Event, next: Supervisor)
    requires Linked(s, m) && s.pc.Health? && HealthDescribed(s, m, s.pc.h) && NextHealth(s, e) == Some(next)
    requires HealthReports(s.pc.h)
    ensures FromHealth(next, Recalled(m, e))
  {
  }

  lemma HealthRemembered(s: Supervisor, m: Recall, e: Event, next: Supervisor)
    requires Linked(s, m) && s.pc.Health? && HealthDescribed(s, m, s.pc.h) && NextHealth(s, e) == Some(next)
    ensures FromHealth(next, Recalled(m, e))
  {
    if HealthOpens(s.pc.h) {
      HealthOpensRemembered(s, m, e, next);
    } else if s.pc.h == HealthSettings {
      HealthLoadsRemembered(s, m, e, next);
    } else if s.pc.h == HealthStatus {
      HealthAsksRemembered(s, m, e, next);
    } else if s.pc.h == HealthGood || s.pc.h == HealthBusy {
      HealthAnnouncesRemembered(s, m, e, next);
    } else if s.pc.h == HealthPoll {
      HealthPollsRemembered(s, m, e, next);
    } else if s.pc.h == HealthRefresh {
      HealthRepairsRemembered(s, m, e, next);
    } else if s.pc.h == SecondStatus {
      HealthAsksAgainRemembered(s, m, e, next);
    } else {
      HealthReportsRemembered(s, m, e, next);
    }
  }

  // ---------- Replacing the runner ----------

  ghost predicate FromRespawn(s: Supervisor, m: Recall) {
    && Linked(s, m)
    && match s.pc
       case Respawn(site, r) => RespawnDescribed(s, m, site, r)
       case Auth(a) => AuthDescribed(s, m, a)
       case Health(h) => HealthDescribed(s, m, h)
       case _ => false
  }

  lemma RespawnDemanded(s: Supervisor, m: Recall, e: Event, next: Supervisor)
    requires Linked(s, m) && s.pc.Respawn? && RespawnDescribed(s, m, s.pc.site, s.pc.r) && NextRespawn(s, e) == Some(next)
    ensures Demands(m, e)
  {
  }

  lemma RespawnOpensRemembered(s: Supervisor, m: Recall, e: Event, next: Supervisor)
    requires Linked(s, m) && s.pc.Respawn? && RespawnDescribed(s, m, s.pc.site, s.pc.r) && NextRespawn(s, e) == Some(next)
    requires RespawnOpens(s.pc.r)
    ensures FromRespawn(next, Recalled(m, e))
  {
  }

  lemma RespawnSpawnsRemembered(s: Supervisor, m: Recall, e: Event, next: Supervisor)
    requires Linked(s, m) && s.pc.Respawn? && RespawnDescribed(s, m, s.pc.site, s.pc.r) && NextRespawn(s, e) == Some(next)
    requires s.pc.r == RespawnSpawn || s.pc.r == RespawnRelease
    ensures FromRespawn(next, Recalled(m, e))
  {
  }

  lemma RespawnStampsRemembered(s: Supervisor, m: Recall, e: Event, next: Supervisor)
    requires Linked(s, m) && s.pc.Respawn? && RespawnDescribed(s, m, s.pc.site, s.pc.r) && NextRespawn(s, e) == Some(next)
    requires s.pc.r == RespawnStamp
    ensures FromRespawn(next, Recalled(m, e))
  {
  }

  lemma RespawnRemembered(s: Supervisor, m: Recall, e: Event, next: Supervisor)
    requires Linked(s, m) && s.pc.Respawn? && RespawnDescribed(s, m, s.pc.site, s.pc.r) && NextRespawn(s, e) == Some(next)
    ensures FromRespawn(next, Recalled(m, e))
  {
    if RespawnOpens(s.pc.r) {
      RespawnOpensRemembered(s, m, e, next);
    } else if s.pc.r == RespawnSpawn || s.pc.r == RespawnRelease {
      RespawnSpawnsRemembered(s, m, e, next);
    } else {
      RespawnStampsRemembered(s, m, e, next);
    }
  }

  // ---------- An exception ----------

  ghost predicate FromFail(s: Supervisor, m: Recall) {
    && Linked(s, m)
    && match s.pc
       case Fail(f) => FailDescribed(m, f)
       case Top(t) => TopDescribed(s, m, t)
       case _ => false
  }

  lemma FailDemanded(s: Supervisor, m: Recall, e: Event, next: Supervisor)
    requires Linked(s, m) && s.pc.Fail? && FailDescribed(m, s.pc.f) && NextFail(s, e) == Some(next)
    ensures Demands(m, e)
  {
  }

  lemma FailUnwindsRemembered(s: Supervisor, m: Recall, e: Event, next: Supervisor)
    requires Linked(s, m) && s.pc.Fail? && FailDescribed(m, s.pc.f) && NextFail(s, e) == Some(next)
    requires FailUnwinds(s.pc.f)
    ensures FromFail(next, Recalled(m, e))
  {
  }

  lemma FailStampsRemembered(s: Supervisor, m: Recall, e: Event, next: Supervisor)
    requires Linked(s, m) && s.pc.Fail? && FailDescribed(m, s.pc.f) && NextFail(s, e) == Some(next)
    requires s.pc.f == BackoffStamp
    ensures FromFail(next, Recalled(m, e))
  {
  }

  lemma FailTimesRemembered(s: Supervisor, m: Recall, e: Event, next: Supervisor)
    requires Linked(s, m) && s.pc.Fail? && FailDescribed(m, s.pc.f) && NextFail(s, e) == Some(next)
    requires s.pc.f == BackoffClock
    ensures FromFail(next, Recalled(m, e))
  {
  }

  lemma FailWaitsRemembered(s: Supervisor, m: Recall, e: Event, next: Supervisor)
    requires Linked(s, m) && s.pc.Fail? && FailDescribed(m, s.pc.f) && NextFail(s, e) == Some(next)
    requires FailWaits(s.pc.f)
    ensures FromFail(next, Recalled(m, e))
  {
  }

  lemma FailRemembered(s: Supervisor, m: Recall, e: Event, next: Supervisor)
    requires Linked(s, m) && s.pc.Fail? && FailDescribed(m, s.pc.f) && NextFail(s, e) == Some(next)
    ensures FromFail(next, Recalled(m, e))
  {
    if FailUnwinds(s.pc.f) {
      FailUnwindsRemembered(s, m, e, next);
    } else if s.pc.f == BackoffStamp {
      FailStampsRemembered(s, m, e, next);
    } else if s.pc.f == BackoffClock {
      FailTimesRemembered(s, m, e, next);
    } else {
      FailWaitsRemembered(s, m, e, next);
    }
  }

  // ---------- Stopping ----------

  ghost predicate FromHalt(s: Supervisor, m: Recall) {
    && Linked(s, m)
    && match s.pc
       case Halt(x) => HaltDescribed(m, x)
       case Done => m.place == Over
       case _ => false
  }

  lemma HaltDemanded(s: Supervisor, m: Recall, e: Event, next: Supervisor)
    requires Linked(s, m) && s.pc.Halt? && HaltDescribed(m, s.pc.x) && NextHalt(s, e) == Some(next)
    ensures Demands(m, e)
  {
  }

  lemma HaltEndsRemembered(s: Supervisor, m: Recall, e: Event, next: Supervisor)
    requires Linked(s, m) && s.pc.Halt? && HaltDescribed(m, s.pc.x) && NextHalt(s, e) == Some(next)
    requires s.pc.x == HaltRunner || s.pc.x == HaltMaster
    ensures FromHalt(next, Recalled(m, e))
  {
  }

  lemma HaltReportsRemembered(s: Supervisor, m: Recall, e: Event, next: Supervisor)
    requires Linked(s, m) && s.pc.Halt? && HaltDescribed(m, s.pc.x) && NextHalt(s, e) == Some(next)
    requires s.pc.x == HaltSocket || s.pc.x == HaltControl || s.pc.x == HaltReport
    ensures FromHalt(next, Recalled(m, e))
  {
  }

  lemma HaltRemembered(s: Supervisor, m: Recall, e: Event, next: Supervisor)
    requires Linked(s, m) && s.pc.Halt? && HaltDescribed(m, s.pc.x) && NextHalt(s, e) == Some(next)
    ensures FromHalt(next, Recalled(m, e))
  {
    if s.pc.x == HaltRunner || s.pc.x == HaltMaster {
      HaltEndsRemembered(s, m, e, next);
    } else {
      HaltReportsRemembered(s, m, e, next);
    }
  }

  // ---------- Any call ----------

  lemma TopAnswered(s: Supervisor, m: Recall, e: Event, next: Supervisor)
    requires Linked(s, m) && s.pc.Top? && TopDescribed(s, m, s.pc.t) && NextTop(s, e) == Some(next)
    ensures m.place != Outside && m.place != Over && Demands(m, e)
    ensures Describes(next, Recalled(m, e))
  {
    TopDemanded(s, m, e, next);
    TopRemembered(s, m, e, next);
  }

  lemma LinkAnswered(s: Supervisor, m: Recall, e: Event, next: Supervisor)
    requires Linked(s, m) && s.pc.Link? && LinkDescribed(m, s.pc.l) && NextLink(s, e) == Some(next)
    ensures m.place != Outside && m.place != Over && Demands(m, e)
    ensures Describes(next, Recalled(m, e))
  {
    LinkDemanded(s, m, e, next);
    LinkRemembered(s, m, e, next);
  }

  lemma BootAnswered(s: Supervisor, m: Recall, e: Event, next: Supervisor)
    requires Linked(s, m) && s.pc.Boot? && BootDescribed(s, m, s.pc.b) && NextBoot(s, e) == Some(next)
    ensures m.place != Outside && m.place != Over && Demands(m, e)
    ensures Describes(next, Recalled(m, e))
  {
    BootDemanded(s, m, e, next);
    BootRemembered(s, m, e, next);
  }

  lemma AuthAnswered(s: Supervisor, m: Recall, e: Event, next: Supervisor)
    requires Linked(s, m) && s.pc.Auth? && AuthDescribed(s, m, s.pc.a) && NextAuth(s, e) == Some(next)
    ensures m.place != Outside && m.place != Over && Demands(m, e)
    ensures Describes(next, Recalled(m, e))
  {
    AuthDemanded(s, m, e, next);
    AuthRemembered(s, m, e, next);
  }

  lemma HealthAnswered(s: Supervisor, m: Recall, e: Event, next: Supervisor)
    requires Linked(s, m) && s.pc.Health? && HealthDescribed(s, m, s.pc.h) && NextHealth(s, e) == Some(next)
    ensures m.place != Outside && m.place != Over && Demands(m, e)
    ensures Describes(next, Recalled(m, e))
  {
    HealthDemanded(s, m, e, next);
    HealthRemembered(s, m, e, next);
  }

  lemma RespawnAnswered(s: Supervisor, m: Recall, e: Event, next: Supervisor)
    requires Linked(s, m) && s.pc.Respawn? && RespawnDescribed(s, m, s.pc.site, s.pc.r) && NextRespawn(s, e) == Some(next)
    ensures m.place != Outside && m.place != Over && Demands(m, e)
    ensures Describes(next, Recalled(m, e))
  {
    RespawnDemanded(s, m, e, next);
    RespawnRemembered(s, m, e, next);
  }

  lemma FailAnswered(s: Supervisor, m: Recall, e: Event, next: Supervisor)
    requires Linked(s, m) && s.pc.Fail? && FailDescribed(m, s.pc.f) && NextFail(s, e) == Some(next)
    ensures m.place != Outside && m.place != Over && Demands(m, e)
    ensures Describes(next, Recalled(m, e))
  {
    FailDemanded(s, m, e, next);
    FailRemembered(s, m, e, next);
  }

  lemma HaltAnswered(s: Supervisor, m: Recall, e: Event, next: Supervisor)
    requires Linked(s, m) && s.pc.Halt? && HaltDescribed(m, s.pc.x) && NextHalt(s, e) == Some(next)
    ensures m.place != Outside && m.place != Over && Demands(m, e)
    ensures Describes(next, Recalled(m, e))
  {
    HaltDemanded(s, m, e, next);
    HaltRemembered(s, m, e, next);
  }

  lemma LossAnswered(s: Supervisor, m: Recall, next: Supervisor)
    requires Describes(s, m) && Next(s, Raise(ConnectionLost)) == Some(next)
    ensures Responds(m, Raise(ConnectionLost))
    ensures Describes(next, Recalled(m, Raise(ConnectionLost)))
  {
  }

  lemma FailureAnswered(s: Supervisor, m: Recall, next: Supervisor)
    requires Describes(s, m) && Next(s, Raise(CallFailed)) == Some(next)
    ensures Responds(m, Raise(CallFailed))
    ensures Describes(next, Recalled(m, Raise(CallFailed)))
  {
  }

  lemma EarlyAnswered(s: Supervisor, m: Recall, e: Event, next: Supervisor)
    requires Describes(s, m) && !e.Raise? && !e.Crash? && Next(s, e) == Some(next)
    requires s.pc.Top? || s.pc.Link? || s.pc.Boot? || s.pc.Auth?
    ensures Responds(m, e)
    ensures Describes(next, Recalled(m, e))
  {
    match s.pc
    case Top(_) => TopAnswered(s, m, e, next);
    case Link(_) => LinkAnswered(s, m, e, next);
    case Boot(_) => BootAnswered(s, m, e, next);
    case Auth(_) => AuthAnswered(s, m, e, next);
    case _ =>
  }

  lemma LateAnswered(s: Supervisor, m: Recall, e: Event, next: Supervisor)
    requires Describes(s, m) && !e.Raise? && !e.Crash? && Next(s, e) == Some(next)
    requires s.pc.Health? || s.pc.Respawn? || s.pc.Fail? || s.pc.Halt?
    ensures Responds(m, e)
    ensures Describes(next, Recalled(m, e))
  {
    match s.pc
    case Health(_) => HealthAnswered(s, m, e, next);
    case Respawn(_, _) => RespawnAnswered(s, m, e, next);
    case Fail(_) => FailAnswered(s, m, e, next);
    case Halt(_) => HaltAnswered(s, m, e, next);
    case _ =>
  }

  lemma EnterAnswered(s: Supervisor, m: Recall, e: Event, next: Supervisor)
    requires Describes(s, m) && s.pc.Enter? && !e.Raise? && !e.Crash? && Next(s, e) == Some(next)
    ensures Responds(m, e)
    ensures Describes(next, Recalled(m, e))
  {
  }

  lemma CrashAnswered(s: Supervisor, m: Recall, next: Supervisor)
    requires Describes(s, m) && Next(s, Crash) == Some(next)
    ensures Responds(m, Crash)
    ensures Describes(next, Recalled(m, Crash))
  {
  }

  lemma StepResponds(s: Supervisor, m: Recall, e: Event, next: Supervisor)
    requires Describes(s, m) && Next(s, e) == Some(next)
    ensures Responds(m, e)
    ensures Describes(next, Recalled(m, e))
  {
    if e.Raise? {
      match e.cause
      case ConnectionLost => LossAnswered(s, m, next);
      case CallFailed => FailureAnswered(s, m, next);
    } else if e.Crash? {
      CrashAnswered(s, m, next);
    } else if s.pc.Enter? {
      EnterAnswered(s, m, e, next);
    } else if s.pc.Top? || s.pc.Link? || s.pc.Boot? || s.pc.Auth? {
      EarlyAnswered(s, m, e, next);
    } else {
      LateAnswered(s, m, e, next);
    }
  }

  // ---------- Whole runs ----------

  /** What a reader of the calls remembers. */
  function Remembered(trace: seq<Event>): Recall {
    if trace == [] then NOTHING else Recalled(Remembered(Front(trace)), Latest(trace))
  }

  lemma {:induction false} RunIsRemembered(trace: seq<Event>)
    requires Run(trace).Some?
    ensures Describes(Run(trace).value, Remembered(trace))
  {
    if trace != [] {
      RunIsRemembered(Front(trace));
      StepResponds(Run(Front(trace)).value, Remembered(Front(trace)), Latest(trace), Run(trace).value);
    }
  }

  /** Main result: every call of every run is the one that the calls before it demand. */
  lemma EveryCallResponds(trace: seq<Event>, i: nat)
    requires Run(trace).Some? && i < |trace|
    ensures Responds(Remembered(trace[..i]), trace[i])
  {
    SupervisionSafety.Prefixes(trace, i);
    RunIsRemembered(trace[..i]);
    StepResponds(Run(trace[..i]).value, Remembered(trace[..i]), trace[i], Run(trace[..i + 1]).value);
  }

  lemma Follows(trace: seq<Event>, i: nat, m: Recall)
    requires Run(trace).Some? && i + 1 < |trace| && m == Remembered(trace[..i])
    ensures Remembered(trace[..i + 1]) == Recalled(m, trace[i])
    ensures Responds(Recalled(m, trace[i]), trace[i + 1])
  {
    EveryCallResponds(trace, i + 1);
    assert Front(trace[..i + 1]) == trace[..i];
  }

  // ---------- A runner that is needed is started ----------

  /** Neither a kill nor an exception. */
  predicate GoesOn(e: Event) {
    !e.Crash? && !e.Raise?
  }

  /** What ends a round in which the window is refused: for the supervisor's own runner the connection is published
      as broken at once, for one of nobody's the round is counted, and before the connection nothing is said. */
  predicate AnswersRefusal(m: Recall, own: bool, e: Event) {
    if m.place == Awaiting then e.StopRead?
    else if own then e == Publish(Reconnecting)
    else e == Publish(if m.counts.missed >= 8 then NeedsAttention else Reconnecting)
  }

  /** A runner is found missing: the supervisor's own has exited, or nobody's is there. */
  predicate FindsMissing(m: Recall, e: Event) {
    (e.PollRunner? && e.exited && m.place == InSession) || e == Probe(Some(true))
  }

  lemma LossIsTimed(m: Recall, lost: Event, e: Event)
    requires (m.place == Awaiting || m.place == InSession) && FindsMissing(m, lost)
    requires Responds(Recalled(m, lost), e) && GoesOn(e)
    ensures e.Clock?
    ensures Recalled(m, lost) == m.(before := m.latest, latest := lost, known := m.known.(adopting := lost.Probe?))
  {
  }

  lemma TimingAsks(m: Recall, t: nat, e: Event)
    requires (m.place == Awaiting || m.place == InSession) && FindsMissing(m, m.latest)
    requires Responds(Recalled(m, Clock(t)), e) && GoesOn(e)
    ensures t - m.times.last >= 5 ==> e.Acquire?
    ensures Recalled(m, Clock(t)) == m.(before := m.latest, latest := Clock(t))
  {
  }

  lemma AskingStarts(m: Recall, granted: bool, e: Event)
    requires m.place == Awaiting || m.place == InSession
    requires Responds(Recalled(m, Acquire(granted)), e) && GoesOn(e)
    ensures if granted then e.SpawnRunner? else AnswersRefusal(m, !m.known.adopting, e)
  {
  }

  /** What is remembered once a runner was found missing, and once the clock was read then. */
  function Found(m: Recall, lost: Event): Recall {
    m.(before := m.latest, latest := lost, known := m.known.(adopting := lost.Probe?))
  }

  function Timed(m: Recall, lost: Event, clock: Event): Recall {
    m.(before := lost, latest := clock, known := m.known.(adopting := lost.Probe?))
  }

  lemma MissingIsTimed(trace: seq<Event>, i: nat, m: Recall)
    requires Run(trace).Some? && i + 1 < |trace| && m == Remembered(trace[..i])
    requires (m.place == Awaiting || m.place == InSession) && FindsMissing(m, trace[i]) && GoesOn(trace[i + 1])
    ensures trace[i + 1].Clock?
    ensures Remembered(trace[..i + 1]) == Found(m, trace[i])
  {
    Follows(trace, i, m);
    LossIsTimed(m, trace[i], trace[i + 1]);
  }

  lemma MissingIsAskedFor(trace: seq<Event>, i: nat, m: Recall)
    requires Run(trace).Some? && i + 2 < |trace| && Remembered(trace[..i + 1]) == Found(m, trace[i])
    requires (m.place == Awaiting || m.place == InSession) && FindsMissing(m, trace[i])
    requires trace[i + 1].Clock? && GoesOn(trace[i + 2])
    ensures trace[i + 1].reading - m.times.last >= 5 ==> trace[i + 2].Acquire?
    ensures Remembered(trace[..i + 2]) == Timed(m, trace[i], trace[i + 1])
  {
    Follows(trace, i + 1, Found(m, trace[i]));
    TimingAsks(Found(m, trace[i]), trace[i + 1].reading, trace[i + 2]);
  }

  lemma GrantedIsStarted(trace: seq<Event>, i: nat, m: Recall)
    requires Run(trace).Some? && i + 1 < |trace| && m == Remembered(trace[..i])
    requires (m.place == Awaiting || m.place == InSession) && trace[i].Acquire? && GoesOn(trace[i + 1])
    ensures if trace[i].granted then trace[i + 1].SpawnRunner? else AnswersRefusal(m, !m.known.adopting, trace[i + 1])
  {
    Follows(trace, i, m);
    AskingStarts(m, trace[i].granted, trace[i + 1]);
  }

  lemma MissingIsMet(trace: seq<Event>, i: nat, m: Recall)
    requires Run(trace).Some? && i + 2 < |trace| && m == Remembered(trace[..i])
    requires (m.place == Awaiting || m.place == InSession) && FindsMissing(m, trace[i])
    requires GoesOn(trace[i + 1]) && GoesOn(trace[i + 2])
    ensures trace[i + 1].Clock?
    ensures trace[i + 1].reading - m.times.last >= 5 ==> trace[i + 2].Acquire?
    ensures Remembered(trace[..i + 2]) == Timed(m, trace[i], trace[i + 1])
  {
    MissingIsTimed(trace, i, m);
    MissingIsAskedFor(trace, i, m);
  }

  lemma RefusalIsMet(trace: seq<Event>, i: nat, m: Recall)
    requires Run(trace).Some? && i + 3 < |trace| && Remembered(trace[..i + 2]) == Timed(m, trace[i], trace[i + 1])
    requires (m.place == Awaiting || m.place == InSession) && FindsMissing(m, trace[i])
    requires trace[i + 2].Acquire? && GoesOn(trace[i + 3])
    ensures if trace[i + 2].granted then trace[i + 3].SpawnRunner? else AnswersRefusal(m, trace[i].PollRunner?, trace[i + 3])
  {
    GrantedIsStarted(trace, i + 2, Timed(m, trace[i], trace[i + 1]));
  }

  /** A replacement: the clock is read; five seconds after the latest stamp the window is asked for; and when it is
      granted a runner is started. */
  lemma StartsInTurn(trace: seq<Event>, i: nat, m: Recall)
    requires Run(trace).Some? && i + 3 < |trace| && m == Remembered(trace[..i])
    requires (m.place == Awaiting || m.place == InSession) && FindsMissing(m, trace[i])
    requires GoesOn(trace[i + 1]) && GoesOn(trace[i + 2]) && GoesOn(trace[i + 3])
    ensures trace[i + 1].Clock?
    ensures trace[i + 1].reading - m.times.last >= 5 ==> trace[i + 2].Acquire?
    ensures trace[i + 2] == Acquire(true) ==> trace[i + 3].SpawnRunner?
    ensures trace[i + 2] == Acquire(false) ==> AnswersRefusal(m, trace[i].PollRunner?, trace[i + 3])
  {
    MissingIsMet(trace, i, m);
    if trace[i + 2].Acquire? {
      RefusalIsMet(trace, i, m);
    }
  }

  lemma ProbeStarts(m: Recall, absent: Option<bool>, e: Event)
    requires m.place == Booting && Responds(Recalled(m, Probe(absent)), e) && GoesOn(e)
    ensures e.SpawnRunner? <==> absent == Some(true)
  {
  }

  /** While a session is opened the window is already held. */
  lemma StartsAtOnce(trace: seq<Event>, i: nat, m: Recall)
    requires Run(trace).Some? && i + 1 < |trace| && m == Remembered(trace[..i]) && m.place == Booting
    requires trace[i].Probe? && GoesOn(trace[i + 1])
    ensures trace[i + 1].SpawnRunner? <==> trace[i] == Probe(Some(true))
  {
    Follows(trace, i, m);
    ProbeStarts(m, trace[i].absent, trace[i + 1]);
  }

  // ---------- What may happen instead ----------

  /** The calls inside the try block that may raise an exception its handler catches. */
  predicate MayFail(place: Place, e: Event) {
    && InTry(place)
    && match e
       case Validated => true
       case Prepared => true
       case SocketCheck(_) => true
       case SpawnMaster(_) => true
       case SpawnRunner(_) => true
       case Settings => true
       case Refresh(_) => true
       case Probe(_) => true
       case Acquire(_) => true
       case Publish(_) => place != Linking
       case _ => false
  }

  lemma TopFails(s: Supervisor, m: Recall, e: Event)
    requires Linked(s, m) && s.pc.Top? && TopDescribed(s, m, s.pc.t) && NextTop(s, e).Some?
    ensures CanFail(s.pc) <==> MayFail(m.place, e)
  {
  }

  lemma LinkFails(s: Supervisor, m: Recall, e: Event)
    requires Linked(s, m) && s.pc.Link? && LinkDescribed(m, s.pc.l) && NextLink(s, e).Some?
    ensures CanFail(s.pc) <==> MayFail(m.place, e)
  {
  }

  lemma BootFails(s: Supervisor, m: Recall, e: Event)
    requires Linked(s, m) && s.pc.Boot? && BootDescribed(s, m, s.pc.b) && NextBoot(s, e).Some?
    ensures CanFail(s.pc) <==> MayFail(m.place, e)
  {
  }

  lemma AuthFails(s: Supervisor, m: Recall, e: Event)
    requires Linked(s, m) && s.pc.Auth? && AuthDescribed(s, m, s.pc.a) && NextAuth(s, e).Some?
    ensures CanFail(s.pc) <==> MayFail(m.place, e)
  {
  }

  lemma HealthFails(s: Supervisor, m: Recall, e: Event)
    requires Linked(s, m) && s.pc.Health? && HealthDescribed(s, m, s.pc.h) && NextHealth(s, e).Some?
    ensures CanFail(s.pc) <==> MayFail(m.place, e)
  {
  }

  lemma RespawnFails(s: Supervisor, m: Recall, e: Event)
    requires Linked(s, m) && s.pc.Respawn? && RespawnDescribed(s, m, s.pc.site, s.pc.r) && NextRespawn(s, e).Some?
    ensures CanFail(s.pc) <==> MayFail(m.place, e)
  {
  }

  lemma FailFails(s: Supervisor, m: Recall, e: Event)
    requires Linked(s, m) && s.pc.Fail? && FailDescribed(m, s.pc.f) && NextFail(s, e).Some?
    ensures CanFail(s.pc) <==> MayFail(m.place, e)
  {
  }

  lemma HaltFails(s: Supervisor, m: Recall, e: Event)
    requires Linked(s, m) && s.pc.Halt? && HaltDescribed(m, s.pc.x) && NextHalt(s, e).Some?
    ensures CanFail(s.pc) <==> MayFail(m.place, e)
  {
  }

  lemma CallFails(s: Supervisor, m: Recall, e: Event)
    requires Describes(s, m) && Next(s, e).Some? && GoesOn(e)
    ensures Next(s, Raise(CallFailed)).Some? <==> MayFail(m.place, e)
  {
    match s.pc
    case Enter =>
    case Top(_) => TopFails(s, m, e);
    case Link(_) => LinkFails(s, m, e);
    case Boot(_) => BootFails(s, m, e);
    case Auth(_) => AuthFails(s, m, e);
    case Health(_) => HealthFails(s, m, e);
    case Respawn(_, _) => RespawnFails(s, m, e);
    case Fail(_) => FailFails(s, m, e);
    case Halt(_) => HaltFails(s, m, e);
    case _ =>
  }

  /** Wherever a call is made, it may fail for the handler exactly if it is one of those inside the try block. */
  lemma FailsExactly(trace: seq<Event>, e: Event)
    requires Run(trace).Some? && Next(Run(trace).value, e).Some? && GoesOn(e)
    ensures Next(Run(trace).value, Raise(CallFailed)).Some? <==> MayFail(Remembered(trace).place, e)
  {
    RunIsRemembered(trace);
    CallFails(Run(trace).value, Remembered(trace), e);
  }

  /** Another answer to the same call. */
  predicate SameCall(e: Event, f: Event) {
    match e
    case Singleton(_) => f.Singleton?
    case StopRead(_) => f.StopRead?
    case Acquire(_) => f.Acquire?
    case SocketCheck(_) => f.SocketCheck?
    case PollMaster(id, _) => f.PollMaster? && f.id == id
    case PollRunner(id, _) => f.PollRunner? && f.id == id
    case Clock(_) => f.Clock?
    case Refresh(_) => f.Refresh?
    case Status(_) => f.Status?
    case Probe(_) => f.Probe?
    case _ => f == e
  }

  /** The three laws of the environment: a stop request stays, the clock does not run back, the exited stay exited. */
  predicate KeepsLaws(s: Supervisor, f: Event) {
    match f
    case StopRead(stop) => s.stop ==> stop
    case Clock(t) => t >= s.now
    case PollMaster(_, exited) => s.master.Child? && s.master.exited ==> exited
    case PollRunner(_, exited) => s.runner.Child? && s.runner.exited ==> exited
    case _ => true
  }

  lemma TopTakesAny(s: Supervisor, e: Event, f: Event)
    requires s.pc.Top? && NextTop(s, e).Some? && SameCall(e, f) && KeepsLaws(s, f)
    ensures NextTop(s, f).Some?
  {
  }

  lemma LinkTakesAny(s: Supervisor, e: Event, f: Event)
    requires s.pc.Link? && NextLink(s, e).Some? && SameCall(e, f) && KeepsLaws(s, f)
    ensures NextLink(s, f).Some?
  {
  }

  lemma BootTakesAny(s: Supervisor, e: Event, f: Event)
    requires s.pc.Boot? && NextBoot(s, e).Some? && SameCall(e, f) && KeepsLaws(s, f)
    ensures NextBoot(s, f).Some?
  {
  }

  lemma AuthTakesAny(s: Supervisor, e: Event, f: Event)
    requires s.pc.Auth? && NextAuth(s, e).Some? && SameCall(e, f) && KeepsLaws(s, f)
    ensures NextAuth(s, f).Some?
  {
  }

  lemma HealthTakesAny(s: Supervisor, e: Event, f: Event)
    requires s.pc.Health? && NextHealth(s, e).Some? && SameCall(e, f) && KeepsLaws(s, f)
    ensures NextHealth(s, f).Some?
  {
  }

  lemma RespawnTakesAny(s: Supervisor, e: Event, f: Event)
    requires s.pc.Respawn? && NextRespawn(s, e).Some? && SameCall(e, f) && KeepsLaws(s, f)
    ensures NextRespawn(s, f).Some?
  {
  }

  lemma FailTakesAny(s: Supervisor, e: Event, f: Event)
    requires s.pc.Fail? && NextFail(s, e).Some? && SameCall(e, f) && KeepsLaws(s, f)
    ensures NextFail(s, f).Some?
  {
  }

  lemma HaltTakesAny(s: Supervisor, e: Event, f: Event)
    requires s.pc.Halt? && NextHalt(s, e).Some? && SameCall(e, f) && KeepsLaws(s, f)
    ensures NextHalt(s, f).Some?
  {
  }

  /** Whatever answer the environment gives to a call, the supervisor goes on with it. */
  lemma AnyAnswerIsTaken(s: Supervisor, e: Event, f: Event)
    requires Next(s, e).Some? && GoesOn(e) && SameCall(e, f) && KeepsLaws(s, f)
    ensures Next(s, f).Some?
  {
    match s.pc
    case Top(_) => TopTakesAny(s, e, f);
    case Link(_) => LinkTakesAny(s, e, f);
    case Boot(_) => BootTakesAny(s, e, f);
    case Auth(_) => AuthTakesAny(s, e, f);
    case Health(_) => HealthTakesAny(s, e, f);
    case Respawn(_, _) => RespawnTakesAny(s, e, f);
    case Fail(_) => FailTakesAny(s, e, f);
    case Halt(_) => HaltTakesAny(s, e, f);
    case _ =>
  }
}
