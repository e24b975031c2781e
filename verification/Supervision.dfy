/**
 The connection supervisor as a machine over its calls (scripts/developer-connection.py, supervise).
 An event is one call together with the answer the environment gave: lock attempts, probes, HTTP
 status, clock readings, polls of the child processes, exceptions.  Any answer is possible; the only
 laws are that the clock does not run back, a stop request stays set and an exited child stays exited.
 */
module Supervision {
  import opened Wrappers

  datatype Phase = Connecting | Connected | Reconnecting | NeedsAttention | Stopped

  datatype Interval = MaintenanceInterval | PollInterval | HealthInterval | BackoffInterval

  /** ConnectionLost is the RuntimeError the supervisor raises itself. */
  datatype Cause = ConnectionLost | CallFailed

  datatype Event =
    | Singleton(granted: bool)
    | StopRead(stop: bool)
    | Acquire(granted: bool)
    | Release
    | Publish(phase: Phase)
    | Validated
    | Prepared
    | SocketCheck(live: bool)
    | SpawnMaster(id: nat)
    | PollMaster(id: nat, exited: bool)
    | SpawnRunner(id: nat)
    | PollRunner(id: nat, exited: bool)
    | Clock(reading: nat)
    | Settings
    | Refresh(renewed: bool)
    | Status(authenticated: bool)
    | Probe(absent: Option<bool>)
    | Sleep(interval: Interval)
    | Raise(cause: Cause)
    | StopRunner(child: Option<nat>)
    | StopMaster(child: Option<nat>)
    | ControlExit
    | Crash

  /** A Popen reference; `exited` once a poll has said so. */
  datatype Child = NoChild | Child(id: nat, exited: bool)

  datatype TopPc = TopStop | TopAcquire | TopBusy | TopPause | TopAnnounce
  datatype LinkPc = Validate | Prepare | Reuse | StartMaster | StampMaster | MasterClock | MasterPoll
    | MasterStop | MasterSocket | MasterPause | FinalStop | FinalSocket
  datatype BootPc = LoadSettings | FirstRefresh | FirstStatus | FirstProbe | StartRunner | StampRunner
    | RunnerClock | RunnerStop | RunnerRefresh | RunnerStatus | RunnerPoll | RunnerPause | CloseWindow | StampSession
  datatype AuthPc = AuthStop | AuthSocket | AuthReport | AuthPause | AuthRefresh | AuthStatus | AuthPoll
    | AuthProbe | LeaveStop | OwnPoll | Announce | StampHealth
  datatype HealthPc = HealthStop | HealthPause | HealthSocket | HealthSettings | HealthStatus | HealthGood
    | HealthPoll | HealthBusy | HealthRefresh | SecondStatus | HealthProbe | HealthReport
  /** The three places that start a replacement runner: before authentication, after the owned
      runner exited, and adopting after an unowned runner disappeared. */
  datatype Site = Waiting | Owned | Adopted
  datatype RespawnPc = RespawnClock | RespawnAcquire | RespawnSpawn | RespawnRelease | RespawnStamp
  datatype FailPc = Unwind | KillRunner | KillMaster | FailReport | BackoffStamp | BackoffClock | BackoffStop | BackoffPause
  datatype HaltPc = HaltRunner | HaltMaster | HaltSocket | HaltControl | HaltReport

  datatype Pc = Enter | Top(t: TopPc) | Link(l: LinkPc) | Boot(b: BootPc) | Auth(a: AuthPc) | Health(h: HealthPc)
    | Respawn(site: Site, r: RespawnPc) | Lost | Fail(f: FailPc) | Halt(x: HaltPc) | Done

  const BACKOFF: seq<nat> := [1, 2, 4, 8, 16, 30]
  const RUNNER_RETRY_SECONDS := 5
  const ATTENTION := 8

  function BackoffIndex(attempt: nat): (i: nat)
    ensures i < |BACKOFF|
  {
    if attempt == 0 then 0 else if attempt - 1 < |BACKOFF| - 1 then attempt - 1 else |BACKOFF| - 1
  }

  datatype Supervisor = Supervisor(
    pc: Pc, attempt: nat, failures: nat, window: bool, master: Child, runner: Child, owned: bool,
    reused: bool, configured: bool, authenticated: bool, last: nat, deadline: nat, now: nat, stop: bool, spawned: nat)

  const INITIAL := Supervisor(Enter, 0, 0, false, NoChild, NoChild, false, false, false, false, 0, 0, 0, false, 0)

  function Go(s: Supervisor, pc: Pc): Option<Supervisor> {
    Some(s.(pc := pc))
  }

  /** Reading the clock or the stop flag; None when the answer would break its law. */
  predicate ReadsClock(s: Supervisor, e: Event) {
    e.Clock? && e.reading >= s.now
  }

  predicate ReadsStop(s: Supervisor, e: Event) {
    e.StopRead? && (s.stop ==> e.stop)
  }

  function AfterRead(s: Supervisor, e: Event): Supervisor {
    if e.Clock? then s.(now := e.reading) else if e.StopRead? then s.(stop := e.stop) else s
  }

  predicate PollsRunner(s: Supervisor, e: Event) {
    e.PollRunner? && s.runner.Child? && e.id == s.runner.id && (s.runner.exited ==> e.exited)
  }

  predicate PollsMaster(s: Supervisor, e: Event) {
    e.PollMaster? && s.master.Child? && e.id == s.master.id && (s.master.exited ==> e.exited)
  }

  function Reference(c: Child): Option<nat> {
    if c.Child? then Some(c.id) else None
  }

  /** `terminate` leaves the process exited, whatever it was. */
  function Ended(c: Child): Child {
    if c.Child? then c.(exited := true) else c
  }

  function NextTop(s: Supervisor, e: Event): Option<Supervisor>
    requires s.pc.Top?
  {
    var r := AfterRead(s, e);
    match s.pc.t
    case TopStop => if ReadsStop(s, e) then Go(r, if e.stop then Halt(HaltRunner) else Top(TopAcquire)) else None
    case TopAcquire =>
      if e.Acquire? then Go(s.(window := e.granted), if e.granted then Top(TopAnnounce) else Top(TopBusy)) else None
    case TopBusy => if e == Publish(Reconnecting) then Go(s, Top(TopPause)) else None
    case TopPause => if e == Sleep(MaintenanceInterval) then Go(s, Top(TopStop)) else None
    case TopAnnounce =>
      if e == Publish(if s.attempt == 0 then Connecting else Reconnecting) then Go(s, Link(Validate)) else None
  }

  function NextLink(s: Supervisor, e: Event): Option<Supervisor>
    requires s.pc.Link?
  {
    var r := AfterRead(s, e);
    match s.pc.l
    case Validate => if e.Validated? then Go(s.(configured := true), Link(Prepare)) else None
    case Prepare => if e.Prepared? then Go(s, Link(Reuse)) else None
    case Reuse =>
      if e.SocketCheck? then Go(s.(reused := e.live), if e.live then Boot(LoadSettings) else Link(StartMaster)) else None
    case StartMaster =>
      if e == SpawnMaster(s.spawned)
      then Go(s.(master := Child(s.spawned, false), spawned := s.spawned + 1), Link(StampMaster)) else None
    case StampMaster => if ReadsClock(s, e) then Go(r.(deadline := e.reading + 12), Link(MasterClock)) else None
    case MasterClock =>
      if ReadsClock(s, e) then Go(r, if e.reading < s.deadline then Link(MasterPoll) else Link(FinalStop)) else None
    case MasterPoll =>
      if PollsMaster(s, e)
      then Go(s.(master := Child(e.id, e.exited)), if e.exited then Link(FinalStop) else Link(MasterStop)) else None
    case MasterStop => if ReadsStop(s, e) then Go(r, if e.stop then Link(FinalStop) else Link(MasterSocket)) else None
    case MasterSocket => if e.SocketCheck? then Go(s, if e.live then Link(FinalStop) else Link(MasterPause)) else None
    case MasterPause => if e == Sleep(PollInterval) then Go(s, Link(MasterClock)) else None
    case FinalStop => if ReadsStop(s, e) then Go(r, if e.stop then Lost else Link(FinalSocket)) else None
    case FinalSocket => if e.SocketCheck? then Go(s, if e.live then Boot(LoadSettings) else Lost) else None
  }

  function NextBoot(s: Supervisor, e: Event): Option<Supervisor>
    requires s.pc.Boot?
  {
    var r := AfterRead(s, e);
    match s.pc.b
    case LoadSettings => if e.Settings? then Go(s, Boot(FirstRefresh)) else None
    case FirstRefresh => if e.Refresh? then Go(s, Boot(FirstStatus)) else None
    case FirstStatus =>
      if e.Status? then Go(s.(authenticated := e.authenticated), if e.authenticated then Boot(CloseWindow) else Boot(FirstProbe)) else None
    case FirstProbe =>
      if e.Probe? then Go(s, if e.absent == Some(true) then Boot(StartRunner) else Boot(CloseWindow)) else None
    case StartRunner =>
      if e == SpawnRunner(s.spawned)
      then Go(s.(runner := Child(s.spawned, false), spawned := s.spawned + 1), Boot(StampRunner)) else None
    case StampRunner => if ReadsClock(s, e) then Go(r.(deadline := e.reading + 15), Boot(RunnerClock)) else None
    case RunnerClock =>
      if ReadsClock(s, e) then Go(r, if e.reading < s.deadline then Boot(RunnerStop) else Boot(CloseWindow)) else None
    case RunnerStop => if ReadsStop(s, e) then Go(r, if e.stop then Boot(CloseWindow) else Boot(RunnerRefresh)) else None
    case RunnerRefresh => if e.Refresh? then Go(s, Boot(RunnerStatus)) else None
    case RunnerStatus =>
      if e.Status? then Go(s.(authenticated := e.authenticated), if e.authenticated then Boot(CloseWindow) else Boot(RunnerPoll)) else None
    case RunnerPoll => if PollsRunner(s, e) then Go(s.(runner := Child(e.id, e.exited)), Boot(RunnerPause)) else None
    case RunnerPause => if e == Sleep(PollInterval) then Go(s, Boot(RunnerClock)) else None
    case CloseWindow => if e.Release? then Go(s.(window := false), Boot(StampSession)) else None
    case StampSession =>
      if ReadsClock(s, e)
      then Go(r.(failures := 0, last := e.reading), if s.authenticated then Auth(LeaveStop) else Auth(AuthStop)) else None
  }

  function NextAuth(s: Supervisor, e: Event): Option<Supervisor>
    requires s.pc.Auth?
  {
    var r := AfterRead(s, e);
    match s.pc.a
    case AuthStop => if ReadsStop(s, e) then Go(r, if e.stop then Auth(LeaveStop) else Auth(AuthSocket)) else None
    case AuthSocket =>
      if e.SocketCheck? then if e.live then Go(s.(failures := s.failures + 1), Auth(AuthReport)) else Go(s, Lost) else None
    case AuthReport =>
      if e == Publish(if s.failures >= ATTENTION then NeedsAttention else Reconnecting) then Go(s, Auth(AuthPause)) else None
    case AuthPause => if e == Sleep(HealthInterval) then Go(s, Auth(AuthRefresh)) else None
    case AuthRefresh => if e.Refresh? then Go(s, Auth(AuthStatus)) else None
    case AuthStatus =>
      if e.Status?
      then Go(s.(authenticated := e.authenticated),
              if e.authenticated then Auth(LeaveStop) else if s.runner.NoChild? then Auth(AuthProbe) else Auth(AuthPoll))
      else None
    case AuthPoll =>
      if PollsRunner(s, e)
      then Go(s.(runner := Child(e.id, e.exited)), if e.exited then Auth(AuthProbe) else Auth(AuthStop)) else None
    case AuthProbe =>
      if e.Probe? then Go(s, if e.absent == Some(true) then Respawn(Waiting, RespawnClock) else Auth(AuthStop)) else None
    case LeaveStop =>
      if ReadsStop(s, e)
      then if e.stop then Go(r, Halt(HaltRunner))
           else if s.runner.NoChild? then Go(r.(owned := false, attempt := 0), Auth(Announce))
           else Go(r, Auth(OwnPoll))
      else None
    case OwnPoll =>
      if PollsRunner(s, e)
      then Go(s.(runner := Child(e.id, e.exited), owned := !e.exited, attempt := 0), Auth(Announce)) else None
    case Announce => if e == Publish(Connected) then Go(s, Auth(StampHealth)) else None
    case StampHealth =>
      if ReadsClock(s, e) then Go(r.(failures := 0, last := e.reading), Health(HealthStop)) else None
  }

  /** The tail of a health round: one more failure, and perhaps a probe for an unowned runner. */
  function CountFailure(s: Supervisor): Option<Supervisor> {
    var f := s.(failures := s.failures + 1);
    Go(f, if !s.owned && f.failures >= 3 then Health(HealthProbe) else Health(HealthReport))
  }

  function NextHealth(s: Supervisor, e: Event): Option<Supervisor>
    requires s.pc.Health?
  {
    var r := AfterRead(s, e);
    match s.pc.h
    case HealthStop => if ReadsStop(s, e) then Go(r, if e.stop then Top(TopStop) else Health(HealthPause)) else None
    case HealthPause => if e == Sleep(HealthInterval) then Go(s, Health(HealthSocket)) else None
    case HealthSocket => if e.SocketCheck? then Go(s, if e.live then Health(HealthSettings) else Lost) else None
    case HealthSettings => if e.Settings? then Go(s, Health(HealthStatus)) else None
    case HealthStatus =>
      if e.Status?
      then if e.authenticated then Go(s.(failures := 0), Health(HealthGood))
           else Go(s, if s.owned then Health(HealthPoll) else Health(HealthRefresh))
      else None
    case HealthGood => if e == Publish(Connected) then Go(s, Health(HealthStop)) else None
    case HealthPoll =>
      if PollsRunner(s, e)
      then Go(s.(runner := Child(e.id, e.exited)), if e.exited then Respawn(Owned, RespawnClock) else Health(HealthRefresh))
      else None
    case HealthBusy => if e == Publish(Reconnecting) then Go(s, Health(HealthStop)) else None
    case HealthRefresh =>
      if e.Refresh? then if e.renewed then Go(s, Health(SecondStatus)) else CountFailure(s) else None
    case SecondStatus =>
      if e.Status? then if e.authenticated then Go(s.(failures := 0), Health(HealthGood)) else CountFailure(s) else None
    case HealthProbe =>
      if e.Probe? then Go(s, if e.absent == Some(true) then Respawn(Adopted, RespawnClock) else Health(HealthReport)) else None
    case HealthReport =>
      if e == Publish(if s.failures >= ATTENTION then NeedsAttention else Reconnecting) then Go(s, Health(HealthStop)) else None
  }

  /** Where a respawn site continues: too early, refused by maintenance, or done. */
  function Resume(site: Site): Pc {
    match site case Waiting => Auth(AuthStop) case Owned => Health(HealthRefresh) case Adopted => Health(HealthReport)
  }

  function Refused(site: Site): Pc {
    if site == Owned then Health(HealthBusy) else Resume(site)
  }

  function NextRespawn(s: Supervisor, e: Event): Option<Supervisor>
    requires s.pc.Respawn?
  {
    var r := AfterRead(s, e);
    var site := s.pc.site;
    match s.pc.r
    case RespawnClock =>
      if ReadsClock(s, e)
      then Go(r, if e.reading - s.last >= RUNNER_RETRY_SECONDS then Respawn(site, RespawnAcquire) else Resume(site)) else None
    case RespawnAcquire =>
      if e.Acquire? then Go(s.(window := e.granted), if e.granted then Respawn(site, RespawnSpawn) else Refused(site)) else None
    case RespawnSpawn =>
      if e == SpawnRunner(s.spawned)
      then Go(s.(runner := Child(s.spawned, false), spawned := s.spawned + 1), Respawn(site, RespawnRelease)) else None
    case RespawnRelease => if e.Release? then Go(s.(window := false), Respawn(site, RespawnStamp)) else None
    case RespawnStamp =>
      if ReadsClock(s, e) then Go(r.(last := e.reading, owned := s.owned || site == Adopted), Resume(site)) else None
  }

  function NextFail(s: Supervisor, e: Event): Option<Supervisor>
    requires s.pc.Fail?
  {
    var r := AfterRead(s, e);
    match s.pc.f
    case Unwind => if e.Release? && s.window then Go(s.(window := false), Fail(KillRunner)) else None
    case KillRunner =>
      if e == StopRunner(Reference(s.runner)) then Go(s.(runner := NoChild), Fail(KillMaster)) else None
    case KillMaster =>
      if e == StopMaster(Reference(s.master))
      then Go(s.(master := NoChild, attempt := s.attempt + 1), Fail(FailReport)) else None
    case FailReport =>
      if e == Publish(if s.attempt >= ATTENTION then NeedsAttention else Reconnecting) then Go(s, Fail(BackoffStamp)) else None
    case BackoffStamp =>
      if ReadsClock(s, e)
      then Go(r.(deadline := e.reading + BACKOFF[BackoffIndex(s.attempt)]), Fail(BackoffClock)) else None
    case BackoffClock =>
      if ReadsClock(s, e) then Go(r, if e.reading < s.deadline then Fail(BackoffStop) else Top(TopStop)) else None
    case BackoffStop => if ReadsStop(s, e) then Go(r, if e.stop then Top(TopStop) else Fail(BackoffPause)) else None
    case BackoffPause => if e == Sleep(BackoffInterval) then Go(s, Fail(BackoffClock)) else None
  }

  function NextHalt(s: Supervisor, e: Event): Option<Supervisor>
    requires s.pc.Halt?
  {
    match s.pc.x
    case HaltRunner =>
      if e == StopRunner(Reference(s.runner)) then Go(s.(runner := Ended(s.runner)), Halt(HaltMaster)) else None
    case HaltMaster =>
      if e == StopMaster(Reference(s.master))
      then Go(s.(master := Ended(s.master)), if s.configured && s.reused then Halt(HaltSocket) else Halt(HaltReport)) else None
    case HaltSocket => if e.SocketCheck? then Go(s, if e.live then Halt(HaltControl) else Halt(HaltReport)) else None
    case HaltControl => if e.ControlExit? then Go(s, Halt(HaltReport)) else None
    case HaltReport => if e == Publish(Stopped) then Go(s, Done) else None
  }

  /** The calls inside the try block that can raise an exception its handler catches. */
  predicate CanFail(pc: Pc) {
    match pc
    case Link(l) => l in {Validate, Prepare, Reuse, StartMaster, MasterSocket, FinalSocket}
    case Boot(b) => b in {LoadSettings, FirstRefresh, FirstProbe, StartRunner, RunnerRefresh}
    case Auth(a) => a in {AuthSocket, AuthReport, AuthRefresh, AuthProbe, Announce}
    case Health(h) => h in {HealthSocket, HealthSettings, HealthGood, HealthBusy, HealthRefresh, HealthProbe, HealthReport}
    case Respawn(_, r) => r in {RespawnAcquire, RespawnSpawn}
    case _ => false
  }

  /** One event; None when this is not a call the supervisor makes here or not an answer it can get.
      An exception nothing catches, or a kill, ends the process at any point. */
  function Next(s: Supervisor, e: Event): Option<Supervisor> {
    if s.pc.Done? then None
    else if e.Crash? then Go(s.(window := false), Done)
    else if e.Raise? then
      if if e.cause == ConnectionLost then s.pc.Lost? else CanFail(s.pc)
      then Go(s, if s.window then Fail(Unwind) else Fail(KillRunner)) else None
    else
      match s.pc
      case Enter => if e.Singleton? then Go(s, if e.granted then Top(TopStop) else Done) else None
      case Top(_) => NextTop(s, e)
      case Link(_) => NextLink(s, e)
      case Boot(_) => NextBoot(s, e)
      case Auth(_) => NextAuth(s, e)
      case Health(_) => NextHealth(s, e)
      case Respawn(_, _) => NextRespawn(s, e)
      case Lost => None
      case Fail(_) => NextFail(s, e)
      case Halt(_) => NextHalt(s, e)
  }

  function Front(trace: seq<Event>): seq<Event>
    requires trace != []
  {
    trace[..|trace| - 1]
  }

  function Latest(trace: seq<Event>): Event
    requires trace != []
  {
    trace[|trace| - 1]
  }

  /** The state after a whole trace, if the trace is one the supervisor can produce. */
  function Run(trace: seq<Event>): Option<Supervisor> {
    if trace == [] then Some(INITIAL)
    else
      var before := Run(Front(trace));
      if before.None? then None else Next(before.value, Latest(trace))
  }
}
