/**
 What every run of the supervisor keeps.  The observer folds over the trace of calls alone, without
 looking at the machine; `Admits` says which next call each law allows.  Every call of every trace the
 machine can produce is admitted.
 */
module SupervisionSafety {
  import opened Wrappers
  import opened Supervision

  /** `singleton` and `held`: the process owns the singleton lock and holds the shared maintenance lock
      (a process that ends owns nothing).  `dead`: the last socket check failed. */
  datatype Flags = Flags(singleton: bool, held: bool, stop: bool, dead: bool)

  /** The children started and not yet seen to exit or terminated. */
  datatype Children = Children(masters: set<nat>, runners: set<nat>)

  /** `since` is the first clock reading after the latest runner start of this session, `pending` that
      there has been none yet; `failures` counts exceptions since the last authenticated status and
      `start` is the first clock reading after the first of them. */
  datatype Timing = Timing(clock: nat, pending: bool, since: Option<nat>, failures: nat, start: Option<nat>)

  /** `licensed`: what just happened permits starting a runner.  `unwinding`: an exception is being
      handled.  `current`: the last status was authenticated and nothing has been awaited since.
      `stale`: unauthenticated statuses since the last authenticated one or exception. */
  datatype Marks = Marks(licensed: bool, unwinding: bool, current: bool, stale: nat)

  datatype Observer = Observer(flags: Flags, children: Children, timing: Timing, marks: Marks)

  const NOTHING_SEEN :=
    Observer(Flags(false, false, false, false), Children({}, {}), Timing(0, false, None, 0, None),
             Marks(false, false, false, 0))

  function TotalBackoff(k: nat): nat {
    if k == 0 then 0 else TotalBackoff(k - 1) + BACKOFF[BackoffIndex(k)]
  }

  predicate Spawns(e: Event) {
    e.SpawnMaster? || e.SpawnRunner?
  }

  predicate AdmitsSpawn(o: Observer, e: Event) {
    && o.flags.held && o.flags.singleton
    && (e.SpawnMaster? ==> o.children.masters == {})
    && (e.SpawnRunner? ==> o.children.runners == {} && o.marks.licensed && !o.timing.pending
                           && (o.timing.since.Some? ==> o.timing.clock - o.timing.since.value >= RUNNER_RETRY_SECONDS))
  }

  predicate AdmitsPublish(o: Observer, phase: Phase) {
    && o.flags.singleton
    && (phase == Connected ==> o.marks.current)
    && (phase == NeedsAttention ==> o.marks.stale >= ATTENTION || o.timing.failures >= ATTENTION)
    && (phase == Stopped ==> o.children.masters == {} && o.children.runners == {} && !o.flags.held && o.flags.stop)
  }

  predicate Admits(o: Observer, e: Event) {
    match e
    case SpawnMaster(_) => AdmitsSpawn(o, e)
    case SpawnRunner(_) => AdmitsSpawn(o, e)
    case Publish(phase) => AdmitsPublish(o, phase)
    case Acquire(_) =>
      !o.flags.held && (o.timing.failures > 0 ==> o.timing.start.Some? && o.timing.clock - o.timing.start.value >= TotalBackoff(o.timing.failures))
    case Release => o.flags.held
    case Singleton(_) => !o.flags.singleton
    case Sleep(interval) => interval == PollInterval || !o.flags.held
    case StopRunner(_) => o.marks.unwinding || o.flags.stop
    case StopMaster(_) => o.marks.unwinding || o.flags.stop
    case Raise(cause) => cause == ConnectionLost ==> o.flags.dead || o.flags.stop
    case _ => true
  }

  function FlagsAfter(f: Flags, e: Event): Flags {
    match e
    case Singleton(granted) => f.(singleton := granted)
    case StopRead(stop) => f.(stop := f.stop || stop)
    case Acquire(granted) => f.(held := granted)
    case Release => f.(held := false)
    case Crash => f.(singleton := false, held := false)
    case Publish(phase) => if phase == Stopped then f.(singleton := false) else f
    case SocketCheck(live) => f.(dead := !live)
    case _ => f
  }

  function ChildrenAfter(c: Children, e: Event): Children {
    match e
    case SpawnMaster(id) => c.(masters := c.masters + {id})
    case PollMaster(id, exited) => if exited then c.(masters := c.masters - {id}) else c
    case StopMaster(child) => if child.Some? then c.(masters := c.masters - {child.value}) else c
    case SpawnRunner(id) => c.(runners := c.runners + {id})
    case PollRunner(id, exited) => if exited then c.(runners := c.runners - {id}) else c
    case StopRunner(child) => if child.Some? then c.(runners := c.runners - {child.value}) else c
    case _ => c
  }

  function TimingAfter(t: Timing, e: Event): Timing {
    match e
    case SpawnRunner(_) => t.(pending := true, since := None)
    case Clock(now) =>
      Timing(now, false, if t.pending then Some(now) else t.since, t.failures,
             if t.failures > 0 && t.start.None? then Some(now) else t.start)
    case Status(ok) => if ok then t.(failures := 0, start := None) else t
    case Raise(_) => t.(failures := t.failures + 1, pending := false, since := None)
    case _ => t
  }

  function MarksAfter(m: Marks, e: Event): Marks {
    Marks(e == Probe(Some(true)) || (e.PollRunner? && e.exited) || (m.licensed && (e.Clock? || e == Acquire(true))),
          e.Raise? || (m.unwinding && (e.Release? || e.StopRunner? || e.StopMaster?)),
          if e.Status? then e.authenticated else m.current && !e.Sleep? && !e.Raise? && !e.Refresh?,
          if e.Status? then if e.authenticated then 0 else m.stale + 1 else if e.Raise? then 0 else m.stale)
  }

  function After(o: Observer, e: Event): Observer {
    Observer(FlagsAfter(o.flags, e), ChildrenAfter(o.children, e), TimingAfter(o.timing, e), MarksAfter(o.marks, e))
  }

  function Observed(trace: seq<Event>): Observer {
    if trace == [] then NOTHING_SEEN else After(Observed(Front(trace)), Latest(trace))
  }

  // ---------- The invariant that ties the machine to what has been seen ----------

  function Live(c: Child): set<nat> {
    if c.Child? && !c.exited then {c.id} else {}
  }

  predicate BothNone(s: Supervisor) {
    s.master.NoChild? && s.runner.NoChild?
  }

  predicate Fresh(o: Observer) {
    !o.timing.pending && o.timing.since.None?
  }

  predicate Settled(o: Observer, last: nat) {
    !o.timing.pending && (o.timing.since.Some? ==> o.timing.since.value <= last) && last <= o.timing.clock
  }

  predicate Waited(o: Observer, k: nat) {
    o.timing.failures == k && if k == 0 then o.timing.start.None? else o.timing.start.Some? && o.timing.clock - o.timing.start.value >= TotalBackoff(k)
  }

  predicate Common(s: Supervisor, o: Observer) {
    && o.flags.held == s.window && o.timing.clock == s.now && o.flags.stop == s.stop
    && o.children.masters == Live(s.master) && o.children.runners == Live(s.runner)
    && o.flags.singleton
  }

  predicate AtTop(s: Supervisor, o: Observer, t: TopPc) {
    && (s.window <==> t == TopAnnounce)
    && ((t == TopStop && s.stop) || (BothNone(s) && Fresh(o) && Waited(o, s.attempt)))
  }

  predicate AtLink(s: Supervisor, o: Observer, l: LinkPc) {
    && s.window && s.runner.NoChild? && Fresh(o) && Waited(o, s.attempt)
    && match l
       case Validate => s.master.NoChild?
       case Prepare => s.master.NoChild?
       case Reuse => s.master.NoChild?
       case StartMaster => s.master.NoChild?
       case _ => true
  }

  /** Authenticated just now, or still trying. */
  predicate Trying(s: Supervisor, o: Observer) {
    if s.authenticated then Waited(o, 0) && o.marks.current else Waited(o, s.attempt) && o.marks.stale >= 1
  }

  predicate Untried(s: Supervisor, o: Observer) {
    s.window && s.runner.NoChild? && Fresh(o) && Waited(o, s.attempt)
  }

  predicate AtBoot(s: Supervisor, o: Observer, b: BootPc) {
    match b
    case LoadSettings => Untried(s, o)
    case FirstRefresh => Untried(s, o)
    case FirstStatus => Untried(s, o)
    case FirstProbe => Untried(s, o) && o.marks.stale >= 1 && !s.authenticated
    case StartRunner => Untried(s, o) && o.marks.stale >= 1 && !s.authenticated && o.marks.licensed
    case StampRunner => s.window && Trying(s, o) && !s.authenticated && o.timing.pending
    case CloseWindow => s.window && Trying(s, o) && Settled(o, o.timing.clock)
    case StampSession => !s.window && Trying(s, o) && Settled(o, o.timing.clock)
    case _ => s.window && Trying(s, o) && !s.authenticated && Settled(o, o.timing.clock)
  }

  predicate Unauthenticated(s: Supervisor, o: Observer) {
    !s.authenticated && Waited(o, s.attempt)
  }

  predicate Authenticated(s: Supervisor, o: Observer) {
    s.authenticated && Waited(o, 0) && o.marks.current
  }

  predicate AtAuth(s: Supervisor, o: Observer, a: AuthPc) {
    && !s.window && Settled(o, s.last)
    && match a
       case AuthStop => Unauthenticated(s, o) && s.failures < o.marks.stale
       case AuthSocket => Unauthenticated(s, o) && s.failures < o.marks.stale
       case AuthPoll => Unauthenticated(s, o) && s.failures < o.marks.stale
       case AuthProbe => Unauthenticated(s, o) && s.failures < o.marks.stale && Live(s.runner) == {}
       case LeaveStop => s.stop || Authenticated(s, o)
       case OwnPoll => Authenticated(s, o)
       case Announce => s.attempt == 0 && Waited(o, 0) && o.marks.current && (!s.owned ==> Live(s.runner) == {})
       case StampHealth => s.attempt == 0 && Waited(o, 0) && (!s.owned ==> Live(s.runner) == {})
       case _ => Unauthenticated(s, o) && s.failures <= o.marks.stale
  }

  predicate AtHealth(s: Supervisor, o: Observer, h: HealthPc) {
    && !s.window && Settled(o, s.last) && s.attempt == 0 && Waited(o, 0) && (!s.owned ==> Live(s.runner) == {})
    && match h
       case HealthPoll => s.owned && s.failures < o.marks.stale
       case HealthRefresh => s.failures < o.marks.stale
       case SecondStatus => s.failures < o.marks.stale
       case HealthGood => s.failures == 0 && o.marks.current
       case HealthProbe => !s.owned && s.failures <= o.marks.stale
       case _ => s.failures <= o.marks.stale
  }

  predicate AtSite(s: Supervisor, o: Observer, site: Site) {
    match site
    case Waiting => Unauthenticated(s, o) && s.failures < o.marks.stale
    case Owned => s.attempt == 0 && Waited(o, 0) && s.owned && s.failures < o.marks.stale
    case Adopted => s.attempt == 0 && Waited(o, 0) && s.failures <= o.marks.stale
  }

  predicate MayRespawn(s: Supervisor, o: Observer) {
    Live(s.runner) == {} && o.marks.licensed && Settled(o, s.last)
  }

  predicate AtRespawn(s: Supervisor, o: Observer, site: Site, r: RespawnPc) {
    && AtSite(s, o, site) && s.last <= o.timing.clock
    && match r
       case RespawnClock => !s.window && MayRespawn(s, o)
       case RespawnAcquire => !s.window && MayRespawn(s, o) && o.timing.clock - s.last >= RUNNER_RETRY_SECONDS
       case RespawnSpawn => s.window && MayRespawn(s, o) && o.timing.clock - s.last >= RUNNER_RETRY_SECONDS
       case RespawnRelease => s.window && o.timing.pending
       case RespawnStamp => !s.window && o.timing.pending
  }

  /** `attempt` failures have been waited out, and `failures` counts this one too. */
  predicate Failing(o: Observer, attempt: nat) {
    && o.timing.failures == attempt + 1
    && if attempt == 0 then o.timing.start.None? else o.timing.start.Some? && o.timing.clock - o.timing.start.value >= TotalBackoff(attempt)
  }

  predicate BackingOff(s: Supervisor, o: Observer) {
    s.attempt >= 1 && o.timing.failures == s.attempt && o.timing.start.Some? && s.deadline - o.timing.start.value >= TotalBackoff(s.attempt)
  }

  predicate AtFail(s: Supervisor, o: Observer, f: FailPc) {
    && (s.window <==> f == Unwind) && Fresh(o)
    && match f
       case Unwind => Failing(o, s.attempt) && o.marks.unwinding
       case KillRunner => Failing(o, s.attempt) && o.marks.unwinding
       case KillMaster => Failing(o, s.attempt) && o.marks.unwinding && s.runner.NoChild?
       case FailReport => BothNone(s) && s.attempt >= 1 && Failing(o, s.attempt - 1)
       case BackoffStamp => BothNone(s) && s.attempt >= 1 && Failing(o, s.attempt - 1)
       case _ => BothNone(s) && BackingOff(s, o)
  }

  predicate AtHalt(s: Supervisor, o: Observer, x: HaltPc) {
    && s.stop && !s.window
    && (x != HaltRunner ==> Live(s.runner) == {})
    && (x != HaltRunner && x != HaltMaster ==> Live(s.master) == {})
  }

  predicate Invariant(s: Supervisor, o: Observer) {
    match s.pc
    case Enter => s == INITIAL && o == NOTHING_SEEN
    case Done => o.children.masters == Live(s.master) && o.children.runners == Live(s.runner) && o.flags.held == s.window == o.flags.singleton == false
    case Top(t) => Common(s, o) && AtTop(s, o, t)
    case Link(l) => Common(s, o) && AtLink(s, o, l)
    case Boot(b) => Common(s, o) && AtBoot(s, o, b)
    case Auth(a) => Common(s, o) && AtAuth(s, o, a)
    case Health(h) => Common(s, o) && AtHealth(s, o, h)
    case Respawn(site, r) => Common(s, o) && AtRespawn(s, o, site, r)
    case Lost => Common(s, o) && (o.flags.dead || o.flags.stop) && Waited(o, s.attempt)
    case Fail(f) => Common(s, o) && AtFail(s, o, f)
    case Halt(x) => Common(s, o) && AtHalt(s, o, x)
  }

  // ---------- One step, a few call sites at a time ----------

  lemma TopOpens(s: Supervisor, o: Observer, e: Event, next: Supervisor)
    requires s.pc.Top? && s.pc.t in {TopStop, TopAcquire, TopBusy} && Invariant(s, o)
    requires NextTop(s, e) == Some(next)
    ensures Admits(o, e)
    ensures Invariant(next, After(o, e))
  {
    match s.pc.t
    case TopStop =>
    case TopAcquire =>
    case TopBusy =>
    case _ =>
  }

  lemma TopAnnounces(s: Supervisor, o: Observer, e: Event, next: Supervisor)
    requires s.pc.Top? && s.pc.t in {TopPause, TopAnnounce} && Invariant(s, o)
    requires NextTop(s, e) == Some(next)
    ensures Admits(o, e)
    ensures Invariant(next, After(o, e))
  {
    match s.pc.t
    case TopPause =>
    case TopAnnounce =>
    case _ =>
  }

  lemma LinkOpens(s: Supervisor, o: Observer, e: Event, next: Supervisor)
    requires s.pc.Link? && s.pc.l in {Validate, Prepare, Reuse, StartMaster} && Invariant(s, o)
    requires NextLink(s, e) == Some(next)
    ensures Admits(o, e)
    ensures Invariant(next, After(o, e))
  {
    match s.pc.l
    case Validate =>
    case Prepare =>
    case Reuse =>
    case StartMaster =>
    case _ =>
  }

  lemma LinkWaits(s: Supervisor, o: Observer, e: Event, next: Supervisor)
    requires s.pc.Link? && s.pc.l in {StampMaster, MasterClock, MasterPoll, MasterStop} && Invariant(s, o)
    requires NextLink(s, e) == Some(next)
    ensures Admits(o, e)
    ensures Invariant(next, After(o, e))
  {
    match s.pc.l
    case StampMaster =>
    case MasterClock =>
    case MasterPoll =>
    case MasterStop =>
    case _ =>
  }

  lemma LinkSettles(s: Supervisor, o: Observer, e: Event, next: Supervisor)
    requires s.pc.Link? && s.pc.l in {MasterSocket, MasterPause, FinalStop, FinalSocket} && Invariant(s, o)
    requires NextLink(s, e) == Some(next)
    ensures Admits(o, e)
    ensures Invariant(next, After(o, e))
  {
    match s.pc.l
    case MasterSocket =>
    case MasterPause =>
    case FinalStop =>
    case FinalSocket =>
    case _ =>
  }

  lemma BootLoads(s: Supervisor, o: Observer, e: Event, next: Supervisor)
    requires s.pc.Boot? && s.pc.b in {LoadSettings, FirstRefresh} && Invariant(s, o)
    requires NextBoot(s, e) == Some(next)
    ensures Admits(o, e)
    ensures Invariant(next, After(o, e))
  {
    match s.pc.b
    case LoadSettings =>
    case FirstRefresh =>
    case _ =>
  }

  lemma BootAsksFirst(s: Supervisor, o: Observer, e: Event, next: Supervisor)
    requires s.pc.Boot? && s.pc.b == FirstStatus && Invariant(s, o)
    requires NextBoot(s, e) == Some(next)
    ensures Admits(o, e)
    ensures Invariant(next, After(o, e))
  {
  }

  lemma BootStarts(s: Supervisor, o: Observer, e: Event, next: Supervisor)
    requires s.pc.Boot? && s.pc.b in {FirstProbe, StartRunner} && Invariant(s, o)
    requires NextBoot(s, e) == Some(next)
    ensures Admits(o, e)
    ensures Invariant(next, After(o, e))
  {
    match s.pc.b
    case FirstProbe =>
    case StartRunner =>
    case _ =>
  }

  lemma BootTimes(s: Supervisor, o: Observer, e: Event, next: Supervisor)
    requires s.pc.Boot? && s.pc.b in {StampRunner, RunnerClock} && Invariant(s, o)
    requires NextBoot(s, e) == Some(next)
    ensures Admits(o, e)
    ensures Invariant(next, After(o, e))
  {
    match s.pc.b
    case StampRunner =>
    case RunnerClock =>
    case _ =>
  }

  lemma BootWaits(s: Supervisor, o: Observer, e: Event, next: Supervisor)
    requires s.pc.Boot? && s.pc.b in {RunnerStop, RunnerRefresh} && Invariant(s, o)
    requires NextBoot(s, e) == Some(next)
    ensures Admits(o, e)
    ensures Invariant(next, After(o, e))
  {
    match s.pc.b
    case RunnerStop =>
    case RunnerRefresh =>
    case _ =>
  }

  lemma BootAsks(s: Supervisor, o: Observer, e: Event, next: Supervisor)
    requires s.pc.Boot? && s.pc.b == RunnerStatus && Invariant(s, o)
    requires NextBoot(s, e) == Some(next)
    ensures Admits(o, e)
    ensures Invariant(next, After(o, e))
  {
  }

  lemma BootLooks(s: Supervisor, o: Observer, e: Event, next: Supervisor)
    requires s.pc.Boot? && s.pc.b in {RunnerPoll, RunnerPause} && Invariant(s, o)
    requires NextBoot(s, e) == Some(next)
    ensures Admits(o, e)
    ensures Invariant(next, After(o, e))
  {
    match s.pc.b
    case RunnerPoll =>
    case RunnerPause =>
    case _ =>
  }

  lemma BootCloses(s: Supervisor, o: Observer, e: Event, next: Supervisor)
    requires s.pc.Boot? && s.pc.b == CloseWindow && Invariant(s, o)
    requires NextBoot(s, e) == Some(next)
    ensures Admits(o, e)
    ensures Invariant(next, After(o, e))
  {
  }

  lemma BootStamps(s: Supervisor, o: Observer, e: Event, next: Supervisor)
    requires s.pc.Boot? && s.pc.b == StampSession && Invariant(s, o)
    requires NextBoot(s, e) == Some(next)
    ensures Admits(o, e)
    ensures Invariant(next, After(o, e))
  {
  }

  lemma AuthListens(s: Supervisor, o: Observer, e: Event, next: Supervisor)
    requires s.pc.Auth? && s.pc.a == AuthStop && Invariant(s, o)
    requires NextAuth(s, e) == Some(next)
    ensures Admits(o, e)
    ensures Invariant(next, After(o, e))
  {
  }

  lemma AuthFindsLive(s: Supervisor, o: Observer, next: Supervisor)
    requires s.pc == Auth(AuthSocket) && Invariant(s, o)
    requires next == s.(pc := Auth(AuthReport), failures := s.failures + 1)
    ensures Invariant(next, After(o, SocketCheck(true)))
  {
    var later := After(o, SocketCheck(true));
    assert later.children == o.children && later.timing == o.timing;
  }

  lemma AuthFindsDead(s: Supervisor, o: Observer, next: Supervisor)
    requires s.pc == Auth(AuthSocket) && Invariant(s, o)
    requires next == s.(pc := Lost)
    ensures Invariant(next, After(o, SocketCheck(false)))
  {
    var later := After(o, SocketCheck(false));
    assert later.children == o.children && later.timing == o.timing;
  }

  lemma AuthChecks(s: Supervisor, o: Observer, e: Event, next: Supervisor)
    requires s.pc.Auth? && s.pc.a == AuthSocket && Invariant(s, o)
    requires NextAuth(s, e) == Some(next)
    ensures Admits(o, e)
    ensures Invariant(next, After(o, e))
  {
    if e.live {
      AuthFindsLive(s, o, next);
    } else {
      AuthFindsDead(s, o, next);
    }
  }

  lemma AuthWaits(s: Supervisor, o: Observer, e: Event, next: Supervisor)
    requires s.pc.Auth? && s.pc.a in {AuthReport, AuthPause, AuthRefresh} && Invariant(s, o)
    requires NextAuth(s, e) == Some(next)
    ensures Admits(o, e)
    ensures Invariant(next, After(o, e))
  {
    match s.pc.a
    case AuthReport =>
    case AuthPause =>
    case AuthRefresh =>
    case _ =>
  }

  lemma AuthAnswers(s: Supervisor, o: Observer, e: Event, next: Supervisor)
    requires s.pc == Auth(AuthStatus) && Invariant(s, o) && e == Status(true) && next == s.(pc := Auth(LeaveStop), authenticated := true)
    ensures Invariant(next, After(o, e))
  {
    var later := After(o, e);
    assert later.flags == o.flags && later.children == o.children;
  }

  lemma AuthSilent(s: Supervisor, o: Observer, e: Event, next: Supervisor)
    requires s.pc == Auth(AuthStatus) && Invariant(s, o) && e == Status(false)
    requires next == s.(pc := if s.runner.NoChild? then Auth(AuthProbe) else Auth(AuthPoll), authenticated := false)
    ensures Invariant(next, After(o, e))
  {
    var later := After(o, e);
    assert later.flags == o.flags && later.children == o.children && later.timing == o.timing;
  }

  lemma AuthTries(s: Supervisor, o: Observer, e: Event, next: Supervisor)
    requires s.pc.Auth? && s.pc.a == AuthStatus && Invariant(s, o)
    requires NextAuth(s, e) == Some(next)
    ensures Admits(o, e)
    ensures Invariant(next, After(o, e))
  {
    match s.pc.a
    case AuthStatus =>
      if e.authenticated {
        AuthAnswers(s, o, e, next);
      } else {
        AuthSilent(s, o, e, next);
      }
    case _ =>
  }

  lemma AuthPolls(s: Supervisor, o: Observer, e: Event, next: Supervisor)
    requires s.pc.Auth? && s.pc.a == AuthPoll && Invariant(s, o)
    requires NextAuth(s, e) == Some(next)
    ensures Admits(o, e)
    ensures Invariant(next, After(o, e))
  {
  }

  lemma AuthProbes(s: Supervisor, o: Observer, e: Event, next: Supervisor)
    requires s.pc.Auth? && s.pc.a == AuthProbe && Invariant(s, o)
    requires NextAuth(s, e) == Some(next)
    ensures Admits(o, e)
    ensures Invariant(next, After(o, e))
  {
  }

  lemma AuthStops(s: Supervisor, o: Observer, e: Event, next: Supervisor)
    requires s.pc == Auth(LeaveStop) && Invariant(s, o) && e == StopRead(true) && next == s.(pc := Halt(HaltRunner), stop := true)
    ensures Invariant(next, After(o, e))
  {
    var later := After(o, e);
    assert later.children == o.children && later.timing == o.timing;
  }

  lemma AuthGoesOn(s: Supervisor, o: Observer, e: Event, next: Supervisor)
    requires s.pc == Auth(LeaveStop) && Invariant(s, o) && e == StopRead(false) && !s.stop
    requires next == if s.runner.NoChild? then s.(owned := false, attempt := 0, pc := Auth(Announce)) else s.(pc := Auth(OwnPoll))
    ensures Invariant(next, After(o, e))
  {
    var later := After(o, e);
    assert later.flags == o.flags && later.children == o.children && later.timing == o.timing;
  }

  lemma AuthLeaves(s: Supervisor, o: Observer, e: Event, next: Supervisor)
    requires s.pc.Auth? && s.pc.a == LeaveStop && Invariant(s, o)
    requires NextAuth(s, e) == Some(next)
    ensures Admits(o, e)
    ensures Invariant(next, After(o, e))
  {
    match s.pc.a
    case LeaveStop =>
      if e.stop {
        AuthStops(s, o, e, next);
      } else {
        AuthGoesOn(s, o, e, next);
      }
    case _ =>
  }

  lemma AuthDecides(s: Supervisor, o: Observer, e: Event, next: Supervisor)
    requires s.pc.Auth? && s.pc.a == OwnPoll && Invariant(s, o)
    requires NextAuth(s, e) == Some(next)
    ensures Admits(o, e)
    ensures Invariant(next, After(o, e))
  {
  }

  lemma AuthAnnounces(s: Supervisor, o: Observer, e: Event, next: Supervisor)
    requires s.pc.Auth? && s.pc.a in {Announce, StampHealth} && Invariant(s, o)
    requires NextAuth(s, e) == Some(next)
    ensures Admits(o, e)
    ensures Invariant(next, After(o, e))
  {
    match s.pc.a
    case Announce =>
    case StampHealth =>
    case _ =>
  }

  lemma HealthWaits(s: Supervisor, o: Observer, e: Event, next: Supervisor)
    requires s.pc.Health? && s.pc.h in {HealthStop, HealthPause, HealthSocket, HealthSettings} && Invariant(s, o)
    requires NextHealth(s, e) == Some(next)
    ensures Admits(o, e)
    ensures Invariant(next, After(o, e))
  {
    match s.pc.h
    case HealthStop =>
    case HealthPause =>
    case HealthSocket =>
    case HealthSettings =>
    case _ =>
  }

  lemma HealthAnswers(s: Supervisor, o: Observer, e: Event, next: Supervisor)
    requires s.pc == Health(HealthStatus) && Invariant(s, o) && e == Status(true) && next == s.(pc := Health(HealthGood), failures := 0)
    ensures Invariant(next, After(o, e))
  {
    var later := After(o, e);
    assert later.flags == o.flags && later.children == o.children;
  }

  lemma HealthSilent(s: Supervisor, o: Observer, e: Event, next: Supervisor)
    requires s.pc == Health(HealthStatus) && Invariant(s, o) && e == Status(false)
    requires next == s.(pc := if s.owned then Health(HealthPoll) else Health(HealthRefresh))
    ensures Invariant(next, After(o, e))
  {
    var later := After(o, e);
    assert later.flags == o.flags && later.children == o.children && later.timing == o.timing;
  }

  lemma HealthAsks(s: Supervisor, o: Observer, e: Event, next: Supervisor)
    requires s.pc.Health? && s.pc.h == HealthStatus && Invariant(s, o)
    requires NextHealth(s, e) == Some(next)
    ensures Admits(o, e)
    ensures Invariant(next, After(o, e))
  {
    match s.pc.h
    case HealthStatus =>
      if e.authenticated {
        HealthAnswers(s, o, e, next);
      } else {
        HealthSilent(s, o, e, next);
      }
    case _ =>
  }

  lemma HealthLooks(s: Supervisor, o: Observer, e: Event, next: Supervisor)
    requires s.pc.Health? && s.pc.h in {HealthGood, HealthPoll, HealthBusy} && Invariant(s, o)
    requires NextHealth(s, e) == Some(next)
    ensures Admits(o, e)
    ensures Invariant(next, After(o, e))
  {
    match s.pc.h
    case HealthGood =>
    case HealthPoll =>
    case HealthBusy =>
    case _ =>
  }

  /** A failed round of the health loop: counted, then probed or reported. */
  lemma CountedFailure(s: Supervisor, o: Observer, e: Event, next: Supervisor)
    requires s.pc.Health? && Common(s, o) && AtHealth(s, o, s.pc.h) && s.failures < o.marks.stale
    requires (e.Refresh? || e == Status(false)) && CountFailure(s) == Some(next)
    ensures Invariant(next, After(o, e))
  {
    assert FlagsAfter(o.flags, e) == o.flags && ChildrenAfter(o.children, e) == o.children;
    assert TimingAfter(o.timing, e) == o.timing;
    assert next == s.(failures := s.failures + 1, pc := next.pc);
  }

  lemma HealthRepairs(s: Supervisor, o: Observer, e: Event, next: Supervisor)
    requires s.pc.Health? && s.pc.h == HealthRefresh && Invariant(s, o)
    requires NextHealth(s, e) == Some(next)
    ensures Admits(o, e)
    ensures Invariant(next, After(o, e))
  {
    if e.renewed {
      assert next == s.(pc := Health(SecondStatus));
    } else {
      CountedFailure(s, o, e, next);
    }
  }

  lemma HealthAsksAgain(s: Supervisor, o: Observer, e: Event, next: Supervisor)
    requires s.pc.Health? && s.pc.h == SecondStatus && Invariant(s, o)
    requires NextHealth(s, e) == Some(next)
    ensures Admits(o, e)
    ensures Invariant(next, After(o, e))
  {
    if e.authenticated {
      assert next == s.(pc := Health(HealthGood), failures := 0);
    } else {
      CountedFailure(s, o, e, next);
    }
  }

  lemma HealthReports(s: Supervisor, o: Observer, e: Event, next: Supervisor)
    requires s.pc.Health? && s.pc.h in {HealthProbe, HealthReport} && Invariant(s, o)
    requires NextHealth(s, e) == Some(next)
    ensures Admits(o, e)
    ensures Invariant(next, After(o, e))
  {
    match s.pc.h
    case HealthProbe =>
    case HealthReport =>
    case _ =>
  }

  lemma RespawnTimes(s: Supervisor, o: Observer, e: Event, next: Supervisor)
    requires s.pc.Respawn? && s.pc.r == RespawnClock && Invariant(s, o)
    requires NextRespawn(s, e) == Some(next)
    ensures Admits(o, e)
    ensures Invariant(next, After(o, e))
  {
  }

  lemma RespawnOpens(s: Supervisor, o: Observer, e: Event, next: Supervisor)
    requires s.pc.Respawn? && s.pc.r == RespawnAcquire && Invariant(s, o)
    requires NextRespawn(s, e) == Some(next)
    ensures Admits(o, e)
    ensures Invariant(next, After(o, e))
  {
  }

  lemma RespawnSpawns(s: Supervisor, o: Observer, e: Event, next: Supervisor)
    requires s.pc.Respawn? && s.pc.r in {RespawnSpawn, RespawnRelease} && Invariant(s, o)
    requires NextRespawn(s, e) == Some(next)
    ensures Admits(o, e)
    ensures Invariant(next, After(o, e))
  {
    match s.pc.r
    case RespawnSpawn =>
    case RespawnRelease =>
    case _ =>
  }

  lemma RespawnResumes(s: Supervisor, o: Observer, e: Event, next: Supervisor)
    requires s.pc.Respawn? && s.pc.r == RespawnStamp && Invariant(s, o)
    requires NextRespawn(s, e) == Some(next)
    ensures Admits(o, e)
    ensures Invariant(next, After(o, e))
  {
  }

  lemma FailUnwinds(s: Supervisor, o: Observer, e: Event, next: Supervisor)
    requires s.pc.Fail? && s.pc.f in {Unwind, KillRunner} && Invariant(s, o)
    requires NextFail(s, e) == Some(next)
    ensures Admits(o, e)
    ensures Invariant(next, After(o, e))
  {
    match s.pc.f
    case Unwind =>
    case KillRunner =>
    case _ =>
  }

  lemma FailStops(s: Supervisor, o: Observer, e: Event, next: Supervisor)
    requires s.pc.Fail? && s.pc.f == KillMaster && Invariant(s, o)
    requires NextFail(s, e) == Some(next)
    ensures Admits(o, e)
    ensures Invariant(next, After(o, e))
  {
  }

  lemma FailReports(s: Supervisor, o: Observer, e: Event, next: Supervisor)
    requires s.pc.Fail? && s.pc.f == FailReport && Invariant(s, o)
    requires NextFail(s, e) == Some(next)
    ensures Admits(o, e)
    ensures Invariant(next, After(o, e))
  {
  }

  lemma FailStamps(s: Supervisor, o: Observer, e: Event, next: Supervisor)
    requires s.pc.Fail? && s.pc.f == BackoffStamp && Invariant(s, o)
    requires NextFail(s, e) == Some(next)
    ensures Admits(o, e)
    ensures Invariant(next, After(o, e))
  {
  }

  lemma FailTimes(s: Supervisor, o: Observer, e: Event, next: Supervisor)
    requires s.pc.Fail? && s.pc.f == BackoffClock && Invariant(s, o)
    requires NextFail(s, e) == Some(next)
    ensures Admits(o, e)
    ensures Invariant(next, After(o, e))
  {
  }

  lemma FailBacksOff(s: Supervisor, o: Observer, e: Event, next: Supervisor)
    requires s.pc.Fail? && s.pc.f in {BackoffStop, BackoffPause} && Invariant(s, o)
    requires NextFail(s, e) == Some(next)
    ensures Admits(o, e)
    ensures Invariant(next, After(o, e))
  {
    match s.pc.f
    case BackoffStop =>
    case BackoffPause =>
    case _ =>
  }

  lemma HaltEnds(s: Supervisor, o: Observer, e: Event, next: Supervisor)
    requires s.pc.Halt? && s.pc.x in {HaltRunner, HaltMaster} && Invariant(s, o)
    requires NextHalt(s, e) == Some(next)
    ensures Admits(o, e)
    ensures Invariant(next, After(o, e))
  {
    match s.pc.x
    case HaltRunner =>
    case HaltMaster =>
    case _ =>
  }

  lemma HaltReports(s: Supervisor, o: Observer, e: Event, next: Supervisor)
    requires s.pc.Halt? && s.pc.x in {HaltSocket, HaltControl, HaltReport} && Invariant(s, o)
    requires NextHalt(s, e) == Some(next)
    ensures Admits(o, e)
    ensures Invariant(next, After(o, e))
  {
    match s.pc.x
    case HaltSocket =>
    case HaltControl =>
    case HaltReport =>
    case _ =>
  }

  lemma TopStep(s: Supervisor, o: Observer, e: Event, next: Supervisor)
    requires s.pc.Top? && Invariant(s, o) && NextTop(s, e) == Some(next)
    ensures Admits(o, e) && Invariant(next, After(o, e))
  {
    if s.pc.t in {TopStop, TopAcquire, TopBusy} {
      TopOpens(s, o, e, next);
    } else {
      TopAnnounces(s, o, e, next);
    }
  }

  lemma LinkStep(s: Supervisor, o: Observer, e: Event, next: Supervisor)
    requires s.pc.Link? && Invariant(s, o) && NextLink(s, e) == Some(next)
    ensures Admits(o, e) && Invariant(next, After(o, e))
  {
    if s.pc.l in {Validate, Prepare, Reuse, StartMaster} {
      LinkOpens(s, o, e, next);
    } else if s.pc.l in {StampMaster, MasterClock, MasterPoll, MasterStop} {
      LinkWaits(s, o, e, next);
    } else {
      LinkSettles(s, o, e, next);
    }
  }

  lemma BootStep(s: Supervisor, o: Observer, e: Event, next: Supervisor)
    requires s.pc.Boot? && Invariant(s, o) && NextBoot(s, e) == Some(next)
    ensures Admits(o, e) && Invariant(next, After(o, e))
  {
    if s.pc.b in {LoadSettings, FirstRefresh} {
      BootLoads(s, o, e, next);
    } else if s.pc.b == FirstStatus {
      BootAsksFirst(s, o, e, next);
    } else if s.pc.b in {FirstProbe, StartRunner} {
      BootStarts(s, o, e, next);
    } else if s.pc.b in {StampRunner, RunnerClock} {
      BootTimes(s, o, e, next);
    } else if s.pc.b in {RunnerStop, RunnerRefresh} {
      BootWaits(s, o, e, next);
    } else if s.pc.b == RunnerStatus {
      BootAsks(s, o, e, next);
    } else if s.pc.b in {RunnerPoll, RunnerPause} {
      BootLooks(s, o, e, next);
    } else if s.pc.b == CloseWindow {
      BootCloses(s, o, e, next);
    } else {
      BootStamps(s, o, e, next);
    }
  }

  lemma AuthStep(s: Supervisor, o: Observer, e: Event, next: Supervisor)
    requires s.pc.Auth? && Invariant(s, o) && NextAuth(s, e) == Some(next)
    ensures Admits(o, e) && Invariant(next, After(o, e))
  {
    if s.pc.a == AuthStop {
      AuthListens(s, o, e, next);
    } else if s.pc.a == AuthSocket {
      AuthChecks(s, o, e, next);
    } else if s.pc.a in {AuthReport, AuthPause, AuthRefresh} {
      AuthWaits(s, o, e, next);
    } else if s.pc.a == AuthStatus {
      AuthTries(s, o, e, next);
    } else if s.pc.a == AuthPoll {
      AuthPolls(s, o, e, next);
    } else if s.pc.a == AuthProbe {
      AuthProbes(s, o, e, next);
    } else if s.pc.a == LeaveStop {
      AuthLeaves(s, o, e, next);
    } else if s.pc.a == OwnPoll {
      AuthDecides(s, o, e, next);
    } else {
      AuthAnnounces(s, o, e, next);
    }
  }

  lemma HealthStep(s: Supervisor, o: Observer, e: Event, next: Supervisor)
    requires s.pc.Health? && Invariant(s, o) && NextHealth(s, e) == Some(next)
    ensures Admits(o, e) && Invariant(next, After(o, e))
  {
    if s.pc.h in {HealthStop, HealthPause, HealthSocket, HealthSettings} {
      HealthWaits(s, o, e, next);
    } else if s.pc.h == HealthStatus {
      HealthAsks(s, o, e, next);
    } else if s.pc.h in {HealthGood, HealthPoll, HealthBusy} {
      HealthLooks(s, o, e, next);
    } else if s.pc.h == HealthRefresh {
      HealthRepairs(s, o, e, next);
    } else if s.pc.h == SecondStatus {
      HealthAsksAgain(s, o, e, next);
    } else {
      HealthReports(s, o, e, next);
    }
  }

  lemma RespawnStep(s: Supervisor, o: Observer, e: Event, next: Supervisor)
    requires s.pc.Respawn? && Invariant(s, o) && NextRespawn(s, e) == Some(next)
    ensures Admits(o, e) && Invariant(next, After(o, e))
  {
    if s.pc.r == RespawnClock {
      RespawnTimes(s, o, e, next);
    } else if s.pc.r == RespawnAcquire {
      RespawnOpens(s, o, e, next);
    } else if s.pc.r in {RespawnSpawn, RespawnRelease} {
      RespawnSpawns(s, o, e, next);
    } else {
      RespawnResumes(s, o, e, next);
    }
  }

  lemma FailStep(s: Supervisor, o: Observer, e: Event, next: Supervisor)
    requires s.pc.Fail? && Invariant(s, o) && NextFail(s, e) == Some(next)
    ensures Admits(o, e) && Invariant(next, After(o, e))
  {
    if s.pc.f in {Unwind, KillRunner} {
      FailUnwinds(s, o, e, next);
    } else if s.pc.f == KillMaster {
      FailStops(s, o, e, next);
    } else if s.pc.f == FailReport {
      FailReports(s, o, e, next);
    } else if s.pc.f == BackoffStamp {
      FailStamps(s, o, e, next);
    } else if s.pc.f == BackoffClock {
      FailTimes(s, o, e, next);
    } else {
      FailBacksOff(s, o, e, next);
    }
  }

  lemma HaltStep(s: Supervisor, o: Observer, e: Event, next: Supervisor)
    requires s.pc.Halt? && Invariant(s, o) && NextHalt(s, e) == Some(next)
    ensures Admits(o, e) && Invariant(next, After(o, e))
  {
    if s.pc.x in {HaltRunner, HaltMaster} {
      HaltEnds(s, o, e, next);
    } else {
      HaltReports(s, o, e, next);
    }
  }

  // ---------- Whole runs ----------

  lemma WaitedWhereItCanFail(s: Supervisor, o: Observer)
    requires Invariant(s, o) && (CanFail(s.pc) || s.pc.Lost?)
    ensures Common(s, o) && Waited(o, s.attempt) && (s.pc.Lost? ==> o.flags.dead || o.flags.stop)
  {
    match s.pc
    case Link(_) =>
    case Boot(_) =>
    case Auth(_) =>
    case Health(_) =>
    case Respawn(_, _) =>
    case _ =>
  }

  lemma RaiseStep(s: Supervisor, o: Observer, e: Event, next: Supervisor)
    requires Invariant(s, o) && e.Raise? && Next(s, e) == Some(next)
    ensures Admits(o, e) && Invariant(next, After(o, e))
  {
    WaitedWhereItCanFail(s, o);
  }

  lemma CrashStep(s: Supervisor, o: Observer, next: Supervisor)
    requires Invariant(s, o) && next == s.(pc := Done, window := false)
    ensures Invariant(next, After(o, Crash))
  {
    var later := After(o, Crash);
    assert later.children == o.children;
  }

  lemma EnterStep(s: Supervisor, o: Observer, e: Event, next: Supervisor)
    requires Invariant(s, o) && Next(s, e) == Some(next) && s.pc.Enter? && !e.Crash?
    ensures Admits(o, e) && Invariant(next, After(o, e))
  {
  }

  /** The stretches before the connection is announced. */
  lemma EarlyStep(s: Supervisor, o: Observer, e: Event, next: Supervisor)
    requires Invariant(s, o) && Next(s, e) == Some(next) && !e.Raise? && !e.Crash?
    requires s.pc.Top? || s.pc.Link? || s.pc.Boot? || s.pc.Auth?
    ensures Admits(o, e) && Invariant(next, After(o, e))
  {
    match s.pc
    case Top(_) => TopStep(s, o, e, next);
    case Link(_) => LinkStep(s, o, e, next);
    case Boot(_) => BootStep(s, o, e, next);
    case Auth(_) => AuthStep(s, o, e, next);
    case _ =>
  }

  lemma LateStep(s: Supervisor, o: Observer, e: Event, next: Supervisor)
    requires Invariant(s, o) && Next(s, e) == Some(next) && !e.Raise? && !e.Crash?
    requires s.pc.Health? || s.pc.Respawn? || s.pc.Fail? || s.pc.Halt?
    ensures Admits(o, e) && Invariant(next, After(o, e))
  {
    match s.pc
    case Health(_) => HealthStep(s, o, e, next);
    case Respawn(_, _) => RespawnStep(s, o, e, next);
    case Fail(_) => FailStep(s, o, e, next);
    case Halt(_) => HaltStep(s, o, e, next);
    case _ =>
  }

  lemma Step(s: Supervisor, o: Observer, e: Event, next: Supervisor)
    requires Invariant(s, o) && Next(s, e) == Some(next)
    ensures Admits(o, e) && Invariant(next, After(o, e))
  {
    if e.Raise? {
      RaiseStep(s, o, e, next);
    } else if e.Crash? {
      CrashStep(s, o, next);
    } else if s.pc.Enter? {
      EnterStep(s, o, e, next);
    } else if s.pc.Top? || s.pc.Link? || s.pc.Boot? || s.pc.Auth? {
      EarlyStep(s, o, e, next);
    } else {
      LateStep(s, o, e, next);
    }
  }

  lemma {:induction false} Reach(trace: seq<Event>)
    requires Run(trace).Some?
    ensures Invariant(Run(trace).value, Observed(trace))
  {
    if trace != [] {
      Reach(Front(trace));
      Step(Run(Front(trace)).value, Observed(Front(trace)), Latest(trace), Run(trace).value);
    }
  }

  /** Every step of a run is a step of the machine from the state its prefix reached. */
  lemma {:induction false} Prefixes(trace: seq<Event>, i: nat)
    requires Run(trace).Some? && i < |trace|
    ensures Run(trace[..i]).Some?
    ensures Run(trace[..i + 1]) == Next(Run(trace[..i]).value, trace[i]) && Run(trace[..i + 1]).Some?
  {
    if i + 1 == |trace| {
      assert trace[..i + 1] == trace && Front(trace) == trace[..i];
    } else {
      assert Front(trace)[..i] == trace[..i] && Front(trace)[..i + 1] == trace[..i + 1];
      Prefixes(Front(trace), i);
    }
  }

  /** Main result: every call of every run is one the observer admits. */
  lemma EveryCallIsAdmitted(trace: seq<Event>, i: nat)
    requires Run(trace).Some? && i < |trace|
    ensures Admits(Observed(trace[..i]), trace[i])
  {
    Prefixes(trace, i);
    Reach(trace[..i]);
    Step(Run(trace[..i]).value, Observed(trace[..i]), trace[i], Run(trace[..i + 1]).value);
  }

  /** At any point of any run at most one master and one runner can be alive, and both references are
      None whenever the body of the outer loop starts. */
  lemma AtMostOneChild(trace: seq<Event>)
    requires Run(trace).Some?
    ensures |Observed(trace).children.masters| <= 1 && |Observed(trace).children.runners| <= 1
    ensures Run(trace).value.pc == Top(TopAcquire) ==> BothNone(Run(trace).value) && Observed(trace).children == Children({}, {})
  {
    Reach(trace);
  }

  // ---------- The health loop ----------

  predicate InHealthLoop(pc: Pc) {
    pc.Health? || (pc.Respawn? && pc.site != Waiting)
  }

  /** The only answers that end the health loop: a stop, a dead socket, an exception, or the end of
      the process.  No HTTP status, probe, poll, refresh or lock answer is among them. */
  predicate EndsHealthLoop(e: Event) {
    e == StopRead(true) || e == SocketCheck(false) || e.Raise? || e.Crash?
  }

  lemma RoundOpens(s: Supervisor, e: Event, next: Supervisor)
    requires s.pc.Health? && s.pc.h in {HealthStop, HealthPause, HealthSocket, HealthSettings}
    requires NextHealth(s, e) == Some(next) && !EndsHealthLoop(e)
    ensures InHealthLoop(next.pc) && !e.StopRunner? && !e.StopMaster?
  {
    match s.pc.h
    case HealthStop =>
    case HealthPause =>
    case HealthSocket =>
    case HealthSettings =>
    case _ =>
  }

  lemma RoundAsks(s: Supervisor, e: Event, next: Supervisor)
    requires s.pc.Health? && s.pc.h in {HealthStatus, HealthGood, HealthPoll, HealthBusy}
    requires NextHealth(s, e) == Some(next) && !EndsHealthLoop(e)
    ensures InHealthLoop(next.pc) && !e.StopRunner? && !e.StopMaster?
  {
    match s.pc.h
    case HealthStatus =>
    case HealthGood =>
    case HealthPoll =>
    case HealthBusy =>
    case _ =>
  }

  lemma RoundRepairs(s: Supervisor, e: Event, next: Supervisor)
    requires s.pc.Health? && s.pc.h in {HealthRefresh, SecondStatus, HealthProbe, HealthReport}
    requires NextHealth(s, e) == Some(next) && !EndsHealthLoop(e)
    ensures InHealthLoop(next.pc) && !e.StopRunner? && !e.StopMaster?
  {
    match s.pc.h
    case HealthRefresh =>
    case SecondStatus =>
    case HealthProbe =>
    case HealthReport =>
    case _ =>
  }

  lemma HealthLoopStep(s: Supervisor, e: Event, next: Supervisor)
    requires InHealthLoop(s.pc) && Next(s, e) == Some(next)
    ensures InHealthLoop(next.pc) || EndsHealthLoop(e)
    ensures !e.StopRunner? && !e.StopMaster?
  {
    if !EndsHealthLoop(e) && s.pc.Health? {
      if s.pc.h in {HealthStop, HealthPause, HealthSocket, HealthSettings} {
        RoundOpens(s, e, next);
      } else if s.pc.h in {HealthStatus, HealthGood, HealthPoll, HealthBusy} {
        RoundAsks(s, e, next);
      } else {
        RoundRepairs(s, e, next);
      }
    }
  }

  ghost predicate LoopKept(trace: seq<Event>, k: nat) {
    forall i :: k <= i < |trace| ==> !EndsHealthLoop(trace[i])
  }

  ghost predicate NothingStopped(trace: seq<Event>, k: nat) {
    forall i :: k <= i < |trace| ==> !trace[i].StopRunner? && !trace[i].StopMaster?
  }

  lemma LastCall(trace: seq<Event>, k: nat)
    requires k < |trace| && LoopKept(trace, k)
    ensures Front(trace)[..k] == trace[..k]
    ensures LoopKept(Front(trace), k) && !EndsHealthLoop(Latest(trace))
    ensures NothingStopped(Front(trace), k) && !Latest(trace).StopRunner? && !Latest(trace).StopMaster? ==> NothingStopped(trace, k)
  {
    assert forall i :: k <= i < |trace| - 1 ==> trace[i] == Front(trace)[i];
  }

  /** However long the statuses fail, without one of those answers the loop goes on and terminates
      no child. */
  lemma {:induction false} HealthLoopGoesOn(trace: seq<Event>, k: nat)
    requires Run(trace).Some? && k <= |trace|
    requires Run(trace[..k]).Some? && InHealthLoop(Run(trace[..k]).value.pc)
    requires LoopKept(trace, k)
    ensures InHealthLoop(Run(trace).value.pc)
    ensures NothingStopped(trace, k)
  {
    if k == |trace| {
      assert trace[..k] == trace;
    } else {
      LastCall(trace, k);
      HealthLoopGoesOn(Front(trace), k);
      HealthLoopStep(Run(Front(trace)).value, Latest(trace), Run(trace).value);
    }
  }

  // ---------- Backoff ----------

  function Power2(k: nat): nat {
    if k == 0 then 1 else 2 * Power2(k - 1)
  }

  /** The waits double up to 2^5 - 1 seconds in all, then grow by 30 a failure. */
  lemma {:induction false} BackoffTotals(k: nat)
    ensures k <= 5 ==> TotalBackoff(k) == Power2(k) - 1
    ensures k >= 5 ==> TotalBackoff(k) == 31 + 30 * (k - 5)
  {
    if k > 0 {
      BackoffTotals(k - 1);
      assert 1 <= k <= 5 ==> BACKOFF[k - 1] == Power2(k - 1);
    }
  }
}
