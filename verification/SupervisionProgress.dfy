/**
 The supervisor makes progress.  Whatever state a run is in, while the answers are cooperative its own calls
 publish a connection within a fixed number of them, or "stopped" if a stop was asked for.
 */
module SupervisionProgress {
  import opened Wrappers
  import opened Supervision

  predicate AwaitsMaster(l: LinkPc) {
    match l
    case StampMaster => true
    case MasterClock => true
    case MasterPoll => true
    case MasterStop => true
    case MasterSocket => true
    case MasterPause => true
    case _ => false
  }

  predicate AwaitsRunner(b: BootPc) {
    match b
    case StampRunner => true
    case RunnerClock => true
    case RunnerStop => true
    case RunnerRefresh => true
    case RunnerStatus => true
    case RunnerPoll => true
    case RunnerPause => true
    case _ => false
  }

  predicate AuthReferenced(s: Supervisor, a: AuthPc) {
    match a
    case AuthPoll => s.runner.Child?
    case OwnPoll => s.runner.Child?
    case Announce => OwnsOne(s)
    case StampHealth => OwnsOne(s)
    case _ => true
  }

  predicate RespawnReferenced(s: Supervisor, site: Site, r: RespawnPc) {
    match r
    case RespawnRelease => s.runner.Child?
    case RespawnStamp => s.runner.Child?
    case _ => site == Waiting || OwnsOne(s)
  }

  /** What is polled or given back is there, and only a stop leads to the end. */
  predicate Referenced(s: Supervisor) {
    match s.pc
    case Link(l) => AwaitsMaster(l) ==> s.master.Child?
    case Boot(b) => AwaitsRunner(b) ==> s.runner.Child?
    case Auth(a) => AuthReferenced(s, a)
    case Health(h) => OwnsOne(s) && (h == HealthPoll ==> s.owned)
    case Respawn(site, r) => RespawnReferenced(s, site, r)
    case Fail(f) => f == Unwind ==> s.window
    case Halt(_) => s.stop
    case _ => true
  }

  predicate OwnsOne(s: Supervisor) {
    s.owned ==> s.runner.Child?
  }

  // The call sites a few at a time.

  predicate TopOpens(t: TopPc) {
    t == TopStop || t == TopAcquire
  }

  predicate TopWaits(t: TopPc) {
    t == TopBusy || t == TopPause || t == TopAnnounce
  }

  predicate LinkOpens(l: LinkPc) {
    l == Validate || l == Prepare || l == Reuse || l == StartMaster || l == StampMaster || l == MasterPause
  }

  predicate LinkWaits(l: LinkPc) {
    l == MasterClock || l == MasterPoll || l == MasterStop
  }

  predicate LinkChecks(l: LinkPc) {
    l == MasterSocket || l == FinalStop || l == FinalSocket
  }

  predicate BootOpens(b: BootPc) {
    b == LoadSettings || b == FirstRefresh || b == FirstStatus || b == FirstProbe || b == StartRunner
  }

  predicate BootTimes(b: BootPc) {
    b == StampRunner || b == RunnerClock
  }

  predicate BootWaits(b: BootPc) {
    b == RunnerStop || b == RunnerRefresh
  }

  predicate BootCloses(b: BootPc) {
    b == RunnerStatus || b == RunnerPoll || b == RunnerPause || b == CloseWindow || b == StampSession
  }

  predicate AuthOpens(a: AuthPc) {
    a == AuthStop || a == AuthSocket
  }

  predicate AuthReports(a: AuthPc) {
    a == AuthReport || a == AuthPause
  }

  predicate AuthRepairs(a: AuthPc) {
    a == AuthRefresh || a == AuthStatus || a == AuthPoll || a == AuthProbe
  }

  predicate AuthLeaves(a: AuthPc) {
    a == LeaveStop || a == OwnPoll
  }

  predicate AuthEnds(a: AuthPc) {
    a == Announce || a == StampHealth
  }

  predicate HealthOpens(h: HealthPc) {
    h == HealthStop || h == HealthPause || h == HealthSocket
  }

  predicate HealthAsks(h: HealthPc) {
    h == HealthSettings || h == HealthStatus
  }

  predicate HealthPolls(h: HealthPc) {
    h == HealthGood || h == HealthPoll || h == HealthBusy
  }

  predicate HealthRepairs(h: HealthPc) {
    h == HealthRefresh || h == SecondStatus
  }

  predicate HealthReports(h: HealthPc) {
    h == HealthProbe || h == HealthReport
  }

  predicate RespawnOpens(r: RespawnPc) {
    r == RespawnClock || r == RespawnAcquire
  }

  predicate RespawnEnds(r: RespawnPc) {
    r == RespawnSpawn || r == RespawnRelease || r == RespawnStamp
  }

  predicate FailUnwinds(f: FailPc) {
    f == Unwind || f == KillRunner || f == KillMaster || f == FailReport
  }

  predicate FailTimes(f: FailPc) {
    f == BackoffStamp || f == BackoffClock
  }

  predicate FailWaits(f: FailPc) {
    f == BackoffStop || f == BackoffPause
  }

  // ---------- Cooperative answers ----------

  predicate AwaitsDeadline(pc: Pc) {
    pc == Link(MasterClock) || pc == Boot(RunnerClock) || pc == Fail(BackoffClock)
  }

  /** The window is granted, the link is live, the status is authenticated, a wait is over when its clock is
      read, and nothing raises an exception or kills the process.  Stops, polls, probes and refreshes may
      answer anything. */
  predicate Cooperative(s: Supervisor, e: Event) {
    match e
    case Acquire(granted) => granted
    case SocketCheck(live) => live
    case Status(authenticated) => authenticated
    case Clock(reading) => AwaitsDeadline(s.pc) ==> reading >= s.deadline
    case Raise(cause) => cause == ConnectionLost
    case Crash => false
    case _ => true
  }

  /** How many calls are left, at most, when all answers are cooperative. */
  function Remaining(s: Supervisor): nat {
    match s.pc
    case Top(t) => RemainingTop(s.stop, t)
    case Link(l) => RemainingLink(l)
    case Boot(b) => RemainingBoot(b)
    case Auth(a) => RemainingAuth(a)
    case Health(h) => RemainingHealth(h)
    case Respawn(site, r) => RemainingRespawn(r) + if site == Owned then 7 else 0
    case Lost => RemainingTop(s.stop, TopStop) + 8
    case Fail(f) => RemainingTop(s.stop, TopStop) + RemainingFail(f)
    case Halt(x) => RemainingHalt(x)
    case _ => 0
  }

  const BOUND := 36

  function RemainingTop(stop: bool, t: TopPc): nat {
    match t
    case TopStop => if stop then 6 else 28
    case TopAcquire => 27
    case TopBusy => 30
    case TopPause => 29
    case TopAnnounce => 26
  }

  function RemainingLink(l: LinkPc): nat {
    match l
    case Validate => 25 case Prepare => 24 case Reuse => 23 case StartMaster => 22 case StampMaster => 21
    case MasterClock => 20 case MasterPoll => 22 case MasterStop => 21 case MasterSocket => 20
    case MasterPause => 21 case FinalStop => 19 case FinalSocket => 18
  }

  function RemainingBoot(b: BootPc): nat {
    match b
    case LoadSettings => 17 case FirstRefresh => 16 case FirstStatus => 15 case FirstProbe => 18
    case StartRunner => 17 case StampRunner => 16 case RunnerClock => 15 case RunnerStop => 17
    case RunnerRefresh => 16 case RunnerStatus => 15 case RunnerPoll => 17 case RunnerPause => 16
    case CloseWindow => 14 case StampSession => 13
  }

  function RemainingAuth(a: AuthPc): nat {
    match a
    case AuthStop => 12 case AuthSocket => 11 case AuthReport => 10 case AuthPause => 9 case AuthRefresh => 8
    case AuthStatus => 7 case AuthPoll => 19 case AuthProbe => 18 case LeaveStop => 6 case OwnPoll => 2
    case Announce => 1 case StampHealth => 8
  }

  function RemainingHealth(h: HealthPc): nat {
    match h
    case HealthStop => 7 case HealthPause => 5 case HealthSocket => 4 case HealthSettings => 3 case HealthStatus => 2
    case HealthGood => 1 case HealthPoll => 25 case HealthBusy => 8 case HealthRefresh => 19 case SecondStatus => 2
    case HealthProbe => 18 case HealthReport => 8
  }

  function RemainingRespawn(r: RespawnPc): nat {
    match r
    case RespawnClock => 17 case RespawnAcquire => 16 case RespawnSpawn => 15 case RespawnRelease => 14
    case RespawnStamp => 13
  }

  function RemainingFail(f: FailPc): nat {
    match f
    case Unwind => 7 case KillRunner => 6 case KillMaster => 5 case FailReport => 4 case BackoffStamp => 3
    case BackoffClock => 1 case BackoffStop => 3 case BackoffPause => 2
  }

  function RemainingHalt(x: HaltPc): nat {
    match x
    case HaltRunner => 5 case HaltMaster => 4 case HaltSocket => 3 case HaltControl => 2 case HaltReport => 1
  }

  predicate Arrives(stop: bool, e: Event) {
    e == Publish(Connected) || (stop && e == Publish(Stopped))
  }

  /** Either this call arrives, or fewer are left after it; and only a stop read is a stop. */
  ghost predicate Leads(s: Supervisor, e: Event, next: Supervisor) {
    && (Arrives(next.stop, e) || (!next.pc.Done? && !next.pc.Enter? && Remaining(next) < Remaining(s)))
    && (next.stop ==> s.stop || e == StopRead(true))
  }

  lemma TopOpensSteps(s: Supervisor, e: Event, next: Supervisor)
    requires Referenced(s) && s.pc.Top? && NextTop(s, e) == Some(next)
    requires TopOpens(s.pc.t)
    ensures Referenced(next) && (Cooperative(s, e) ==> Leads(s, e, next))
  {
  }

  lemma TopWaitsSteps(s: Supervisor, e: Event, next: Supervisor)
    requires Referenced(s) && s.pc.Top? && NextTop(s, e) == Some(next)
    requires TopWaits(s.pc.t)
    ensures Referenced(next) && (Cooperative(s, e) ==> Leads(s, e, next))
  {
  }

  lemma TopSteps(s: Supervisor, e: Event, next: Supervisor)
    requires Referenced(s) && s.pc.Top? && NextTop(s, e) == Some(next)
    ensures Referenced(next) && (Cooperative(s, e) ==> Leads(s, e, next))
  {
    if TopOpens(s.pc.t) {
      TopOpensSteps(s, e, next);
    } else {
      TopWaitsSteps(s, e, next);
    }
  }

  lemma LinkOpensSteps(s: Supervisor, e: Event, next: Supervisor)
    requires Referenced(s) && s.pc.Link? && NextLink(s, e) == Some(next)
    requires LinkOpens(s.pc.l)
    ensures Referenced(next) && (Cooperative(s, e) ==> Leads(s, e, next))
  {
  }

  lemma LinkWaitsSteps(s: Supervisor, e: Event, next: Supervisor)
    requires Referenced(s) && s.pc.Link? && NextLink(s, e) == Some(next)
    requires LinkWaits(s.pc.l)
    ensures Referenced(next) && (Cooperative(s, e) ==> Leads(s, e, next))
  {
  }

  lemma LinkChecksStays(s: Supervisor, e: Event, next: Supervisor)
    requires Referenced(s) && s.pc.Link? && NextLink(s, e) == Some(next)
    requires LinkChecks(s.pc.l)
    ensures Referenced(next)
  {
  }

  lemma LinkChecksLeads(s: Supervisor, e: Event, next: Supervisor)
    requires s.pc.Link? && NextLink(s, e) == Some(next) && Cooperative(s, e)
    requires LinkChecks(s.pc.l)
    ensures Leads(s, e, next)
  {
  }

  lemma LinkChecksSteps(s: Supervisor, e: Event, next: Supervisor)
    requires Referenced(s) && s.pc.Link? && NextLink(s, e) == Some(next)
    requires LinkChecks(s.pc.l)
    ensures Referenced(next) && (Cooperative(s, e) ==> Leads(s, e, next))
  {
    LinkChecksStays(s, e, next);
    if Cooperative(s, e) {
      LinkChecksLeads(s, e, next);
    }
  }

  lemma LinkSteps(s: Supervisor, e: Event, next: Supervisor)
    requires Referenced(s) && s.pc.Link? && NextLink(s, e) == Some(next)
    ensures Referenced(next) && (Cooperative(s, e) ==> Leads(s, e, next))
  {
    if LinkOpens(s.pc.l) {
      LinkOpensSteps(s, e, next);
    } else if LinkWaits(s.pc.l) {
      LinkWaitsSteps(s, e, next);
    } else {
      LinkChecksSteps(s, e, next);
    }
  }

  lemma BootOpensSteps(s: Supervisor, e: Event, next: Supervisor)
    requires Referenced(s) && s.pc.Boot? && NextBoot(s, e) == Some(next)
    requires BootOpens(s.pc.b)
    ensures Referenced(next) && (Cooperative(s, e) ==> Leads(s, e, next))
  {
  }

  lemma BootTimesSteps(s: Supervisor, e: Event, next: Supervisor)
    requires Referenced(s) && s.pc.Boot? && NextBoot(s, e) == Some(next)
    requires BootTimes(s.pc.b)
    ensures Referenced(next) && (Cooperative(s, e) ==> Leads(s, e, next))
  {
  }

  lemma BootWaitsSteps(s: Supervisor, e: Event, next: Supervisor)
    requires Referenced(s) && s.pc.Boot? && NextBoot(s, e) == Some(next)
    requires BootWaits(s.pc.b)
    ensures Referenced(next) && (Cooperative(s, e) ==> Leads(s, e, next))
  {
  }

  lemma BootClosesSteps(s: Supervisor, e: Event, next: Supervisor)
    requires Referenced(s) && s.pc.Boot? && NextBoot(s, e) == Some(next)
    requires BootCloses(s.pc.b)
    ensures Referenced(next) && (Cooperative(s, e) ==> Leads(s, e, next))
  {
  }

  lemma BootSteps(s: Supervisor, e: Event, next: Supervisor)
    requires Referenced(s) && s.pc.Boot? && NextBoot(s, e) == Some(next)
    ensures Referenced(next) && (Cooperative(s, e) ==> Leads(s, e, next))
  {
    if BootOpens(s.pc.b) {
      BootOpensSteps(s, e, next);
    } else if BootTimes(s.pc.b) {
      BootTimesSteps(s, e, next);
    } else if BootWaits(s.pc.b) {
      BootWaitsSteps(s, e, next);
    } else {
      BootClosesSteps(s, e, next);
    }
  }

  lemma AuthOpensStays(s: Supervisor, e: Event, next: Supervisor)
    requires Referenced(s) && s.pc.Auth? && NextAuth(s, e) == Some(next)
    requires AuthOpens(s.pc.a)
    ensures Referenced(next)
  {
    assert next.pc == Lost || (next.pc.Auth? && next.pc.a in {AuthSocket, AuthReport, LeaveStop});
  }

  lemma AuthOpensLeads(s: Supervisor, e: Event, next: Supervisor)
    requires s.pc.Auth? && NextAuth(s, e) == Some(next) && Cooperative(s, e)
    requires AuthOpens(s.pc.a)
    ensures Leads(s, e, next)
  {
  }

  lemma AuthOpensSteps(s: Supervisor, e: Event, next: Supervisor)
    requires Referenced(s) && s.pc.Auth? && NextAuth(s, e) == Some(next)
    requires AuthOpens(s.pc.a)
    ensures Referenced(next) && (Cooperative(s, e) ==> Leads(s, e, next))
  {
    AuthOpensStays(s, e, next);
    if Cooperative(s, e) {
      AuthOpensLeads(s, e, next);
    }
  }

  lemma AuthReportsSteps(s: Supervisor, e: Event, next: Supervisor)
    requires Referenced(s) && s.pc.Auth? && NextAuth(s, e) == Some(next)
    requires AuthReports(s.pc.a)
    ensures Referenced(next) && (Cooperative(s, e) ==> Leads(s, e, next))
  {
  }

  lemma AuthRepairsSteps(s: Supervisor, e: Event, next: Supervisor)
    requires Referenced(s) && s.pc.Auth? && NextAuth(s, e) == Some(next)
    requires AuthRepairs(s.pc.a)
    ensures Referenced(next) && (Cooperative(s, e) ==> Leads(s, e, next))
  {
  }

  lemma AuthLeavesSteps(s: Supervisor, e: Event, next: Supervisor)
    requires Referenced(s) && s.pc.Auth? && NextAuth(s, e) == Some(next)
    requires AuthLeaves(s.pc.a)
    ensures Referenced(next) && (Cooperative(s, e) ==> Leads(s, e, next))
  {
  }

  lemma AuthEndsSteps(s: Supervisor, e: Event, next: Supervisor)
    requires Referenced(s) && s.pc.Auth? && NextAuth(s, e) == Some(next)
    requires AuthEnds(s.pc.a)
    ensures Referenced(next) && (Cooperative(s, e) ==> Leads(s, e, next))
  {
  }

  lemma AuthSteps(s: Supervisor, e: Event, next: Supervisor)
    requires Referenced(s) && s.pc.Auth? && NextAuth(s, e) == Some(next)
    ensures Referenced(next) && (Cooperative(s, e) ==> Leads(s, e, next))
  {
    if AuthOpens(s.pc.a) {
      AuthOpensSteps(s, e, next);
    } else if AuthReports(s.pc.a) {
      AuthReportsSteps(s, e, next);
    } else if AuthRepairs(s.pc.a) {
      AuthRepairsSteps(s, e, next);
    } else if AuthLeaves(s.pc.a) {
      AuthLeavesSteps(s, e, next);
    } else {
      AuthEndsSteps(s, e, next);
    }
  }

  lemma HealthOpensSteps(s: Supervisor, e: Event, next: Supervisor)
    requires Referenced(s) && s.pc.Health? && NextHealth(s, e) == Some(next)
    requires HealthOpens(s.pc.h)
    ensures Referenced(next) && (Cooperative(s, e) ==> Leads(s, e, next))
  {
  }

  lemma HealthAsksStays(s: Supervisor, e: Event, next: Supervisor)
    requires Referenced(s) && s.pc.Health? && NextHealth(s, e) == Some(next)
    requires HealthAsks(s.pc.h)
    ensures Referenced(next)
  {
    assert next.owned == s.owned && next.runner == s.runner;
  }

  lemma HealthAsksLeads(s: Supervisor, e: Event, next: Supervisor)
    requires s.pc.Health? && NextHealth(s, e) == Some(next) && Cooperative(s, e)
    requires HealthAsks(s.pc.h)
    ensures Leads(s, e, next)
  {
  }

  lemma HealthAsksSteps(s: Supervisor, e: Event, next: Supervisor)
    requires Referenced(s) && s.pc.Health? && NextHealth(s, e) == Some(next)
    requires HealthAsks(s.pc.h)
    ensures Referenced(next) && (Cooperative(s, e) ==> Leads(s, e, next))
  {
    HealthAsksStays(s, e, next);
    if Cooperative(s, e) {
      HealthAsksLeads(s, e, next);
    }
  }

  lemma HealthPollsSteps(s: Supervisor, e: Event, next: Supervisor)
    requires Referenced(s) && s.pc.Health? && NextHealth(s, e) == Some(next)
    requires HealthPolls(s.pc.h)
    ensures Referenced(next) && (Cooperative(s, e) ==> Leads(s, e, next))
  {
  }

  lemma HealthRepairsSteps(s: Supervisor, e: Event, next: Supervisor)
    requires Referenced(s) && s.pc.Health? && NextHealth(s, e) == Some(next)
    requires HealthRepairs(s.pc.h)
    ensures Referenced(next) && (Cooperative(s, e) ==> Leads(s, e, next))
  {
    assert next.owned == s.owned && next.runner == s.runner;
  }

  lemma HealthReportsSteps(s: Supervisor, e: Event, next: Supervisor)
    requires Referenced(s) && s.pc.Health? && NextHealth(s, e) == Some(next)
    requires HealthReports(s.pc.h)
    ensures Referenced(next) && (Cooperative(s, e) ==> Leads(s, e, next))
  {
  }

  lemma HealthSteps(s: Supervisor, e: Event, next: Supervisor)
    requires Referenced(s) && s.pc.Health? && NextHealth(s, e) == Some(next)
    ensures Referenced(next) && (Cooperative(s, e) ==> Leads(s, e, next))
  {
    if HealthOpens(s.pc.h) {
      HealthOpensSteps(s, e, next);
    } else if HealthAsks(s.pc.h) {
      HealthAsksSteps(s, e, next);
    } else if HealthPolls(s.pc.h) {
      HealthPollsSteps(s, e, next);
    } else if HealthRepairs(s.pc.h) {
      HealthRepairsSteps(s, e, next);
    } else {
      HealthReportsSteps(s, e, next);
    }
  }

  lemma RespawnOpensSteps(s: Supervisor, e: Event, next: Supervisor)
    requires Referenced(s) && s.pc.Respawn? && NextRespawn(s, e) == Some(next)
    requires RespawnOpens(s.pc.r)
    ensures Referenced(next) && (Cooperative(s, e) ==> Leads(s, e, next))
  {
  }

  lemma RespawnEndsSteps(s: Supervisor, e: Event, next: Supervisor)
    requires Referenced(s) && s.pc.Respawn? && NextRespawn(s, e) == Some(next)
    requires RespawnEnds(s.pc.r)
    ensures Referenced(next) && (Cooperative(s, e) ==> Leads(s, e, next))
  {
  }

  lemma RespawnSteps(s: Supervisor, e: Event, next: Supervisor)
    requires Referenced(s) && s.pc.Respawn? && NextRespawn(s, e) == Some(next)
    ensures Referenced(next) && (Cooperative(s, e) ==> Leads(s, e, next))
  {
    if RespawnOpens(s.pc.r) {
      RespawnOpensSteps(s, e, next);
    } else {
      RespawnEndsSteps(s, e, next);
    }
  }

  lemma FailUnwindsSteps(s: Supervisor, e: Event, next: Supervisor)
    requires Referenced(s) && s.pc.Fail? && NextFail(s, e) == Some(next)
    requires FailUnwinds(s.pc.f)
    ensures Referenced(next) && (Cooperative(s, e) ==> Leads(s, e, next))
  {
  }

  lemma FailTimesSteps(s: Supervisor, e: Event, next: Supervisor)
    requires Referenced(s) && s.pc.Fail? && NextFail(s, e) == Some(next)
    requires FailTimes(s.pc.f)
    ensures Referenced(next) && (Cooperative(s, e) ==> Leads(s, e, next))
  {
  }

  lemma FailWaitsSteps(s: Supervisor, e: Event, next: Supervisor)
    requires Referenced(s) && s.pc.Fail? && NextFail(s, e) == Some(next)
    requires FailWaits(s.pc.f)
    ensures Referenced(next) && (Cooperative(s, e) ==> Leads(s, e, next))
  {
  }

  lemma FailSteps(s: Supervisor, e: Event, next: Supervisor)
    requires Referenced(s) && s.pc.Fail? && NextFail(s, e) == Some(next)
    ensures Referenced(next) && (Cooperative(s, e) ==> Leads(s, e, next))
  {
    if FailUnwinds(s.pc.f) {
      FailUnwindsSteps(s, e, next);
    } else if FailTimes(s.pc.f) {
      FailTimesSteps(s, e, next);
    } else {
      FailWaitsSteps(s, e, next);
    }
  }

  lemma HaltSteps(s: Supervisor, e: Event, next: Supervisor)
    requires Referenced(s) && s.pc.Halt? && NextHalt(s, e) == Some(next)
    ensures Referenced(next) && (Cooperative(s, e) ==> Leads(s, e, next))
  {
  }

  lemma EarlySteps(s: Supervisor, e: Event, next: Supervisor)
    requires Referenced(s) && Next(s, e) == Some(next) && !e.Crash? && !e.Raise?
    requires s.pc.Top? || s.pc.Link? || s.pc.Boot? || s.pc.Auth?
    ensures Referenced(next) && (Cooperative(s, e) ==> Leads(s, e, next))
  {
    match s.pc
    case Top(_) => TopSteps(s, e, next);
    case Link(_) => LinkSteps(s, e, next);
    case Boot(_) => BootSteps(s, e, next);
    case Auth(_) => AuthSteps(s, e, next);
    case _ =>
  }

  lemma LateSteps(s: Supervisor, e: Event, next: Supervisor)
    requires Referenced(s) && Next(s, e) == Some(next) && !e.Crash? && !e.Raise?
    requires s.pc.Health? || s.pc.Respawn? || s.pc.Fail? || s.pc.Halt?
    ensures Referenced(next) && (Cooperative(s, e) ==> Leads(s, e, next))
  {
    match s.pc
    case Health(_) => HealthSteps(s, e, next);
    case Respawn(_, _) => RespawnSteps(s, e, next);
    case Fail(_) => FailSteps(s, e, next);
    case Halt(_) => HaltSteps(s, e, next);
    case _ =>
  }

  /** Any call keeps what is polled there, and a cooperative answer leads on. */
  lemma CallsLead(s: Supervisor, e: Event, next: Supervisor)
    requires Referenced(s) && Next(s, e) == Some(next)
    ensures Referenced(next)
    ensures Cooperative(s, e) && !s.pc.Enter? ==> Leads(s, e, next)
  {
    if !e.Crash? && !e.Raise? {
      if s.pc.Top? || s.pc.Link? || s.pc.Boot? || s.pc.Auth? {
        EarlySteps(s, e, next);
      } else if !s.pc.Enter? {
        LateSteps(s, e, next);
      }
    }
  }

  lemma {:induction false} RunIsReferenced(trace: seq<Event>)
    requires Run(trace).Some?
    ensures Referenced(Run(trace).value)
  {
    if trace != [] {
      RunIsReferenced(Front(trace));
      CallsLead(Run(Front(trace)).value, Latest(trace), Run(trace).value);
    }
  }

  ghost predicate Serving(s: Supervisor) {
    Referenced(s) && !s.pc.Done? && !s.pc.Enter?
  }

  lemma RemainingBounded(s: Supervisor)
    requires Serving(s)
    ensures 1 <= Remaining(s) <= BOUND
  {
    match s.pc
    case Top(_) =>
    case Link(_) =>
    case Boot(_) =>
    case Auth(_) =>
    case Health(_) =>
    case Respawn(_, _) =>
    case Fail(_) =>
    case _ =>
  }

  /** Every call up to arrival is possible and its answer cooperative. */
  ghost predicate CooperativeRun(s: Supervisor, events: seq<Event>)
    decreases |events|
  {
    events == []
    || (&& Next(s, events[0]).Some? && Cooperative(s, events[0])
        && var next := Next(s, events[0]).value;
           Arrives(next.stop, events[0]) || CooperativeRun(next, events[1..]))
  }

  /** Call `i` publishes a connection, or "stopped" after a stop. */
  ghost predicate ArrivesAt(s: Supervisor, events: seq<Event>, i: nat) {
    i < |events| && (events[i] == Publish(Connected) || (events[i] == Publish(Stopped) && (s.stop || StopRead(true) in events[..i])))
  }

  lemma ArrivesLater(s: Supervisor, next: Supervisor, events: seq<Event>, i: nat)
    requires events != [] && ArrivesAt(next, events[1..], i) && (next.stop ==> s.stop || events[0] == StopRead(true))
    ensures ArrivesAt(s, events, i + 1)
  {
    assert events[..i + 1] == [events[0]] + events[1..][..i];
  }

  /** However the other answers fall, a run of cooperative ones arrives in the calls that remain. */
  lemma {:induction false} CooperativeRunArrives(s: Supervisor, events: seq<Event>) returns (i: nat)
    requires Serving(s) && CooperativeRun(s, events) && |events| >= Remaining(s)
    ensures i < Remaining(s) && ArrivesAt(s, events, i)
    decreases |events|
  {
    RemainingBounded(s);
    var e := events[0];
    var next := Next(s, e).value;
    CallsLead(s, e, next);
    if Arrives(next.stop, e) {
      i := 0;
    } else {
      var later := CooperativeRunArrives(next, events[1..]);
      ArrivesLater(s, next, events, later);
      i := later + 1;
    }
  }

  /** Main result: after any run of a serving supervisor, the next calls publish a connection, or "stopped" if
      a stop was or is asked for, within a fixed number of cooperative answers. */
  lemma CooperationArrives(trace: seq<Event>, events: seq<Event>) returns (i: nat)
    requires Run(trace).Some? && !Run(trace).value.pc.Done? && !Run(trace).value.pc.Enter?
    requires CooperativeRun(Run(trace).value, events) && |events| >= BOUND
    ensures i < BOUND && ArrivesAt(Run(trace).value, events, i)
  {
    RunIsReferenced(trace);
    RemainingBounded(Run(trace).value);
    i := CooperativeRunArrives(Run(trace).value, events);
  }

  // ---------- There is always a cooperative answer ----------

  function Later(a: nat, b: nat): nat {
    if a < b then b else a
  }

  function Help(s: Supervisor): Event {
    match s.pc
    case Top(t) => HelpTop(s, t)
    case Link(l) => HelpLink(s, l)
    case Boot(b) => HelpBoot(s, b)
    case Auth(a) => HelpAuth(s, a)
    case Health(h) => HelpHealth(s, h)
    case Respawn(_, r) => HelpRespawn(s, r)
    case Lost => Raise(ConnectionLost)
    case Fail(f) => HelpFail(s, f)
    case Halt(x) => HelpHalt(s, x)
    case _ => Singleton(true)
  }

  function HelpTop(s: Supervisor, t: TopPc): Event {
    match t
    case TopStop => StopRead(s.stop)
    case TopAcquire => Acquire(true)
    case TopBusy => Publish(Reconnecting)
    case TopPause => Sleep(MaintenanceInterval)
    case TopAnnounce => Publish(if s.attempt == 0 then Connecting else Reconnecting)
  }

  function HelpLink(s: Supervisor, l: LinkPc): Event {
    match l
    case Validate => Validated
    case Prepare => Prepared
    case StartMaster => SpawnMaster(s.spawned)
    case StampMaster => Clock(s.now)
    case MasterClock => Clock(Later(s.now, s.deadline))
    case MasterPoll => PollMaster(if s.master.Child? then s.master.id else 0, true)
    case MasterStop => StopRead(s.stop)
    case MasterPause => Sleep(PollInterval)
    case FinalStop => StopRead(s.stop)
    case _ => SocketCheck(true)
  }

  function HelpBoot(s: Supervisor, b: BootPc): Event {
    match b
    case LoadSettings => Settings
    case FirstRefresh => Refresh(true)
    case FirstStatus => Status(true)
    case FirstProbe => Probe(None)
    case StartRunner => SpawnRunner(s.spawned)
    case RunnerClock => Clock(Later(s.now, s.deadline))
    case RunnerStop => StopRead(s.stop)
    case RunnerRefresh => Refresh(true)
    case RunnerStatus => Status(true)
    case RunnerPoll => PollRunner(if s.runner.Child? then s.runner.id else 0, true)
    case RunnerPause => Sleep(PollInterval)
    case CloseWindow => Release
    case _ => Clock(s.now)
  }

  function HelpAuth(s: Supervisor, a: AuthPc): Event {
    match a
    case AuthStop => StopRead(s.stop)
    case AuthSocket => SocketCheck(true)
    case AuthReport => Publish(if s.failures >= ATTENTION then NeedsAttention else Reconnecting)
    case AuthPause => Sleep(HealthInterval)
    case AuthRefresh => Refresh(true)
    case AuthStatus => Status(true)
    case AuthProbe => Probe(None)
    case LeaveStop => StopRead(s.stop)
    case Announce => Publish(Connected)
    case StampHealth => Clock(s.now)
    case _ => PollRunner(if s.runner.Child? then s.runner.id else 0, true)
  }

  function HelpHealth(s: Supervisor, h: HealthPc): Event {
    match h
    case HealthStop => StopRead(s.stop)
    case HealthPause => Sleep(HealthInterval)
    case HealthSocket => SocketCheck(true)
    case HealthSettings => Settings
    case HealthGood => Publish(Connected)
    case HealthPoll => PollRunner(if s.runner.Child? then s.runner.id else 0, true)
    case HealthBusy => Publish(Reconnecting)
    case HealthRefresh => Refresh(true)
    case HealthProbe => Probe(None)
    case HealthReport => Publish(if s.failures >= ATTENTION then NeedsAttention else Reconnecting)
    case _ => Status(true)
  }

  function HelpRespawn(s: Supervisor, r: RespawnPc): Event {
    match r
    case RespawnAcquire => Acquire(true)
    case RespawnSpawn => SpawnRunner(s.spawned)
    case RespawnRelease => Release
    case _ => Clock(s.now)
  }

  function HelpFail(s: Supervisor, f: FailPc): Event {
    match f
    case Unwind => Release
    case KillRunner => StopRunner(Reference(s.runner))
    case KillMaster => StopMaster(Reference(s.master))
    case FailReport => Publish(if s.attempt >= ATTENTION then NeedsAttention else Reconnecting)
    case BackoffStamp => Clock(s.now)
    case BackoffClock => Clock(Later(s.now, s.deadline))
    case BackoffStop => StopRead(s.stop)
    case BackoffPause => Sleep(BackoffInterval)
  }

  function HelpHalt(s: Supervisor, x: HaltPc): Event {
    match x
    case HaltRunner => StopRunner(Reference(s.runner))
    case HaltMaster => StopMaster(Reference(s.master))
    case HaltSocket => SocketCheck(true)
    case HaltControl => ControlExit
    case HaltReport => Publish(Stopped)
  }

  ghost predicate Helps(s: Supervisor, e: Event, next: Option<Supervisor>) {
    next.Some? && next.value.stop == s.stop && Cooperative(s, e) && IsOwnCall(e) && !e.Raise?
  }

  /** A call the kernel's locks cannot refuse once maintenance is over, and no kill. */
  predicate IsOwnCall(e: Event) {
    !e.Crash? && !e.Singleton? && e != Acquire(false)
  }

  lemma TopHelps(s: Supervisor)
    requires Referenced(s) && s.pc.Top?
    ensures Helps(s, Help(s), NextTop(s, Help(s)))
  {
  }

  lemma LinkOpensHelps(s: Supervisor)
    requires Referenced(s) && s.pc.Link?
    requires LinkOpens(s.pc.l)
    ensures Helps(s, Help(s), NextLink(s, Help(s)))
  {
  }

  lemma LinkWaitsHelps(s: Supervisor)
    requires Referenced(s) && s.pc.Link?
    requires LinkWaits(s.pc.l)
    ensures Helps(s, Help(s), NextLink(s, Help(s)))
  {
  }

  lemma LinkChecksHelps(s: Supervisor)
    requires Referenced(s) && s.pc.Link?
    requires LinkChecks(s.pc.l)
    ensures Helps(s, Help(s), NextLink(s, Help(s)))
  {
  }

  lemma LinkHelps(s: Supervisor)
    requires Referenced(s) && s.pc.Link?
    ensures Helps(s, Help(s), NextLink(s, Help(s)))
  {
    if LinkOpens(s.pc.l) {
      LinkOpensHelps(s);
    } else if LinkWaits(s.pc.l) {
      LinkWaitsHelps(s);
    } else {
      LinkChecksHelps(s);
    }
  }

  lemma BootOpensHelps(s: Supervisor)
    requires Referenced(s) && s.pc.Boot?
    requires BootOpens(s.pc.b)
    ensures Helps(s, Help(s), NextBoot(s, Help(s)))
  {
  }

  lemma BootTimesHelps(s: Supervisor)
    requires Referenced(s) && s.pc.Boot?
    requires BootTimes(s.pc.b) || BootWaits(s.pc.b)
    ensures Helps(s, Help(s), NextBoot(s, Help(s)))
  {
  }

  lemma BootClosesHelps(s: Supervisor)
    requires Referenced(s) && s.pc.Boot?
    requires BootCloses(s.pc.b)
    ensures Helps(s, Help(s), NextBoot(s, Help(s)))
  {
  }

  lemma BootHelps(s: Supervisor)
    requires Referenced(s) && s.pc.Boot?
    ensures Helps(s, Help(s), NextBoot(s, Help(s)))
  {
    if BootOpens(s.pc.b) {
      BootOpensHelps(s);
    } else if BootTimes(s.pc.b) || BootWaits(s.pc.b) {
      BootTimesHelps(s);
    } else {
      BootClosesHelps(s);
    }
  }

  lemma AuthOpensHelps(s: Supervisor)
    requires Referenced(s) && s.pc.Auth?
    requires AuthOpens(s.pc.a) || AuthReports(s.pc.a) || AuthRepairs(s.pc.a)
    ensures Helps(s, Help(s), NextAuth(s, Help(s)))
  {
  }

  lemma AuthLeavesHelps(s: Supervisor)
    requires Referenced(s) && s.pc.Auth?
    requires AuthLeaves(s.pc.a) || AuthEnds(s.pc.a)
    ensures Helps(s, Help(s), NextAuth(s, Help(s)))
  {
  }

  lemma AuthHelps(s: Supervisor)
    requires Referenced(s) && s.pc.Auth?
    ensures Helps(s, Help(s), NextAuth(s, Help(s)))
  {
    if AuthOpens(s.pc.a) || AuthReports(s.pc.a) || AuthRepairs(s.pc.a) {
      AuthOpensHelps(s);
    } else {
      AuthLeavesHelps(s);
    }
  }

  lemma HealthOpensHelps(s: Supervisor)
    requires Referenced(s) && s.pc.Health?
    requires HealthOpens(s.pc.h) || HealthAsks(s.pc.h)
    ensures Helps(s, Help(s), NextHealth(s, Help(s)))
  {
  }

  lemma HealthPollsHelps(s: Supervisor)
    requires Referenced(s) && s.pc.Health?
    requires HealthPolls(s.pc.h) || HealthRepairs(s.pc.h) || HealthReports(s.pc.h)
    ensures Helps(s, Help(s), NextHealth(s, Help(s)))
  {
  }

  lemma HealthHelps(s: Supervisor)
    requires Referenced(s) && s.pc.Health?
    ensures Helps(s, Help(s), NextHealth(s, Help(s)))
  {
    if HealthOpens(s.pc.h) || HealthAsks(s.pc.h) {
      HealthOpensHelps(s);
    } else {
      HealthPollsHelps(s);
    }
  }

  lemma RespawnHelps(s: Supervisor)
    requires Referenced(s) && s.pc.Respawn?
    ensures Helps(s, Help(s), NextRespawn(s, Help(s)))
  {
  }

  lemma FailUnwindsHelps(s: Supervisor)
    requires Referenced(s) && s.pc.Fail?
    requires FailUnwinds(s.pc.f)
    ensures Helps(s, Help(s), NextFail(s, Help(s)))
  {
  }

  lemma FailTimesHelps(s: Supervisor)
    requires Referenced(s) && s.pc.Fail?
    requires FailTimes(s.pc.f) || FailWaits(s.pc.f)
    ensures Helps(s, Help(s), NextFail(s, Help(s)))
  {
  }

  lemma FailHelps(s: Supervisor)
    requires Referenced(s) && s.pc.Fail?
    ensures Helps(s, Help(s), NextFail(s, Help(s)))
  {
    if FailUnwinds(s.pc.f) {
      FailUnwindsHelps(s);
    } else {
      FailTimesHelps(s);
    }
  }

  lemma HaltHelps(s: Supervisor)
    requires Referenced(s) && s.pc.Halt?
    ensures Helps(s, Help(s), NextHalt(s, Help(s)))
  {
  }

  lemma EarlyHelps(s: Supervisor)
    requires Referenced(s) && (s.pc.Top? || s.pc.Link? || s.pc.Boot? || s.pc.Auth?)
    ensures Helps(s, Help(s), Next(s, Help(s)))
  {
    match s.pc
    case Top(_) => TopHelps(s);
    case Link(_) => LinkHelps(s);
    case Boot(_) => BootHelps(s);
    case Auth(_) => AuthHelps(s);
    case _ =>
  }

  lemma LateHelps(s: Supervisor)
    requires Referenced(s) && (s.pc.Health? || s.pc.Respawn? || s.pc.Fail? || s.pc.Halt?)
    ensures Helps(s, Help(s), Next(s, Help(s)))
  {
    match s.pc
    case Health(_) => HealthHelps(s);
    case Respawn(_, _) => RespawnHelps(s);
    case Fail(_) => FailHelps(s);
    case Halt(_) => HaltHelps(s);
    case _ =>
  }

  /** From wherever a run has come a cooperative answer is possible, and no stop is asked for by it. */
  lemma HelpExists(s: Supervisor)
    requires Serving(s)
    ensures Next(s, Help(s)).Some? && Next(s, Help(s)).value.stop == s.stop && Cooperative(s, Help(s)) && IsOwnCall(Help(s))
  {
    if s.pc.Top? || s.pc.Link? || s.pc.Boot? || s.pc.Auth? {
      EarlyHelps(s);
    } else if !s.pc.Lost? {
      LateHelps(s);
    }
  }

  lemma HelpGoesOn(trace: seq<Event>, s: Supervisor) returns (e: Event, next: Supervisor)
    requires Run(trace) == Some(s) && !s.pc.Done? && !s.pc.Enter?
    ensures Run(trace + [e]) == Some(next) && IsOwnCall(e) && next.stop == s.stop
    ensures Arrives(s.stop, e) || (!next.pc.Done? && !next.pc.Enter? && Remaining(next) < Remaining(s))
  {
    RunIsReferenced(trace);
    HelpExists(s);
    e, next := Help(s), Next(s, Help(s)).value;
    CallsLead(s, e, next);
    assert Front(trace + [e]) == trace;
  }

  lemma Prepended(trace: seq<Event>, e: Event, rest: seq<Event>)
    requires rest != [] && IsOwnCall(e) && forall x :: x in rest ==> IsOwnCall(x)
    ensures trace + ([e] + rest) == trace + [e] + rest
    ensures [e] + rest != [] && Latest([e] + rest) == Latest(rest) && forall x :: x in [e] + rest ==> IsOwnCall(x)
  {
  }

  /** From wherever a run has come some calls of its own publish a connection, or "stopped" if it was
      asked to stop. */
  lemma {:induction false} RunArrives(trace: seq<Event>, s: Supervisor) returns (more: seq<Event>)
    requires Run(trace) == Some(s) && !s.pc.Done? && !s.pc.Enter?
    ensures Run(trace + more).Some? && more != [] && forall e :: e in more ==> IsOwnCall(e)
    ensures Arrives(s.stop, Latest(more))
    decreases Remaining(s)
  {
    var e, next := HelpGoesOn(trace, s);
    more := [e];
    if !Arrives(s.stop, e) {
      var rest := RunArrives(trace + [e], next);
      Prepended(trace, e, rest);
      more := [e] + rest;
    }
  }
}
