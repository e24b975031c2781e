/**
 Any number of supervisors and launchers sharing the two lock files
 (scripts/developer-connection.py, acquire_connection_window and the singleton lock;
 scripts/developer-build.py, maintenance_lock and the order of main).  A world holds the trace of each
 supervisor and the stage of each launcher; locks follow flock, and the kernel gives back the locks of
 a process that ends.
 */
module MaintenanceLock {
  import opened Wrappers
  import opened Supervision
  import opened SupervisionSafety
  import opened SupervisionProgress

  /** A launcher asks for the exclusive lock until it gets it or gives up, does its maintenance,
      releases, and only then waits for the supervisor to connect. */
  datatype Stage = Asking | Maintaining | AwaitingConnection | Finished

  datatype World = World(
    traces: map<nat, seq<Event>>, stages: map<nat, Stage>,
    singleton: Option<nat>, shared: set<nat>, exclusive: Option<nat>)

  const NOBODY := World(map[], map[], None, {}, None)

  datatype Action =
    | StartSupervisor(p: nat)
    | Call(p: nat, e: Event)
    | StartLauncher(q: nat)
    | Ask(q: nat, granted: bool)
    | GiveUp(q: nat)
    | Leave(q: nat, completed: bool)
    | SeeConnection(q: nat)

  predicate Ends(e: Event) {
    e.Crash? || e == Publish(Stopped)
  }

  /** The answers flock gives to this call. */
  predicate LockAnswers(w: World, e: Event) {
    && (e.Singleton? ==> (e.granted <==> w.singleton.None?))
    && (e.Acquire? ==> (e.granted <==> w.exclusive.None?))
  }

  function CallNext(w: World, p: nat, e: Event): Option<World> {
    if p in w.traces && Run(w.traces[p] + [e]).Some? && LockAnswers(w, e) then
      Some(w.(traces := w.traces[p := w.traces[p] + [e]],
              singleton := if e == Singleton(true) then Some(p)
                           else if Ends(e) && w.singleton == Some(p) then None else w.singleton,
              shared := if e == Acquire(true) then w.shared + {p}
                        else if e.Release? || Ends(e) then w.shared - {p} else w.shared))
    else None
  }

  function WorldNext(w: World, a: Action): Option<World> {
    match a
    case StartSupervisor(p) => if p !in w.traces then Some(w.(traces := w.traces[p := []])) else None
    case Call(p, e) => CallNext(w, p, e)
    case StartLauncher(q) => if q !in w.stages then Some(w.(stages := w.stages[q := Asking])) else None
    case Ask(q, granted) =>
      if q in w.stages && w.stages[q] == Asking && (granted <==> w.shared == {} && w.exclusive.None?)
      then Some(if granted then w.(stages := w.stages[q := Maintaining], exclusive := Some(q)) else w) else None
    case GiveUp(q) =>
      if q in w.stages && w.stages[q] == Asking then Some(w.(stages := w.stages[q := Finished])) else None
    case Leave(q, completed) =>
      if q in w.stages && w.stages[q] == Maintaining
      then Some(w.(stages := w.stages[q := if completed then AwaitingConnection else Finished], exclusive := None)) else None
    case SeeConnection(q) =>
      if q in w.stages && w.stages[q] == AwaitingConnection then Some(w.(stages := w.stages[q := Finished])) else None
  }

  function WorldRun(actions: seq<Action>): Option<World> {
    if actions == [] then Some(NOBODY)
    else
      var before := WorldRun(actions[..|actions| - 1]);
      if before.None? then None else WorldNext(before.value, actions[|actions| - 1])
  }

  // ---------- What every reachable world keeps ----------

  ghost predicate LocksMatch(w: World) {
    && (forall p :: p in w.traces ==> Run(w.traces[p]).Some?)
    && (forall p :: p in w.shared <==> p in w.traces && Observed(w.traces[p]).flags.held)
    && (forall p :: p in w.traces && Observed(w.traces[p]).flags.singleton <==> w.singleton == Some(p))
    && (forall q :: q in w.stages && w.stages[q] == Maintaining <==> w.exclusive == Some(q))
    && (w.exclusive.Some? ==> w.shared == {})
  }

  /** One call, by what the observer sees. */
  lemma CallFlags(trace: seq<Event>, e: Event)
    requires Run(trace).Some? && Run(trace + [e]).Some?
    ensures Admits(Observed(trace), e) && Observed(trace + [e]).flags == FlagsAfter(Observed(trace).flags, e)
  {
    var whole := trace + [e];
    assert Front(whole) == trace && whole[..|trace|] == trace;
    EveryCallIsAdmitted(whole, |trace|);
  }

  /** Who holds what changes only for the caller, and as the observer of its calls says. */
  lemma CallMovesLocks(w: World, p: nat, e: Event, next: World)
    requires LocksMatch(w) && CallNext(w, p, e) == Some(next)
    ensures next.traces == w.traces[p := w.traces[p] + [e]] && Run(next.traces[p]).Some?
    ensures next.stages == w.stages && next.exclusive == w.exclusive
    ensures p in next.shared <==> Observed(next.traces[p]).flags.held
    ensures next.singleton == Some(p) <==> Observed(next.traces[p]).flags.singleton
    ensures forall q :: q != p ==> (q in next.shared <==> q in w.shared) && (next.singleton == Some(q) <==> w.singleton == Some(q))
    ensures w.exclusive.Some? ==> next.shared == {}
  {
    CallFlags(w.traces[p], e);
    FlagsFollow(Observed(w.traces[p]).flags, e);
  }

  lemma CallKeepsLocks(w: World, p: nat, e: Event, next: World)
    requires LocksMatch(w) && CallNext(w, p, e) == Some(next)
    ensures LocksMatch(next)
  {
    CallMovesLocks(w, p, e, next);
  }

  lemma FlagsFollow(flags: Flags, e: Event)
    ensures FlagsAfter(flags, e).held == if e.Acquire? then e.granted else flags.held && !e.Release? && !e.Crash?
    ensures FlagsAfter(flags, e).singleton == if e.Singleton? then e.granted else flags.singleton && !Ends(e)
  {
  }

  lemma LauncherKeepsLocks(w: World, a: Action, next: World)
    requires LocksMatch(w) && !a.Call? && WorldNext(w, a) == Some(next)
    ensures LocksMatch(next)
  {
  }

  lemma WorldKeepsLocks(w: World, a: Action, next: World)
    requires LocksMatch(w) && WorldNext(w, a) == Some(next)
    ensures LocksMatch(next)
  {
    if a.Call? {
      CallKeepsLocks(w, a.p, a.e, next);
    } else {
      LauncherKeepsLocks(w, a, next);
    }
  }

  lemma {:induction false} ReachableWorlds(actions: seq<Action>)
    requires WorldRun(actions).Some?
    ensures LocksMatch(WorldRun(actions).value)
  {
    if actions != [] {
      var front := actions[..|actions| - 1];
      ReachableWorlds(front);
      WorldKeepsLocks(WorldRun(front).value, actions[|actions| - 1], WorldRun(actions).value);
    }
  }

  lemma SpawnAlone(w: World, p: nat, e: Event, next: World)
    requires LocksMatch(w) && CallNext(w, p, e) == Some(next) && Spawns(e)
    ensures w.exclusive.None? && p in w.shared && w.singleton == Some(p)
    ensures forall q :: q in w.stages ==> w.stages[q] != Maintaining
  {
    CallFlags(w.traces[p], e);
  }

  /** Main result: however supervisors and launchers interleave, a child starts only while no launcher
      is maintaining, by the one supervisor that owns the singleton lock, under its shared window. */
  lemma NoSpawnDuringMaintenance(actions: seq<Action>, p: nat, e: Event)
    requires WorldRun(actions).Some? && CallNext(WorldRun(actions).value, p, e).Some? && Spawns(e)
    ensures var w := WorldRun(actions).value;
      w.exclusive.None? && p in w.shared && w.singleton == Some(p) && forall q :: q in w.stages ==> w.stages[q] != Maintaining
  {
    var w := WorldRun(actions).value;
    ReachableWorlds(actions);
    SpawnAlone(w, p, e, CallNext(w, p, e).value);
  }

  /** While a launcher maintains, it is alone: no other launcher and no window. */
  lemma MaintenanceIsExclusive(actions: seq<Action>, q: nat, r: nat)
    requires WorldRun(actions).Some?
    requires var w := WorldRun(actions).value;
      q in w.stages && w.stages[q] == Maintaining && r in w.stages && w.stages[r] == Maintaining
    ensures q == r && WorldRun(actions).value.shared == {}
  {
    ReachableWorlds(actions);
  }

  /** No one waits while holding: a supervisor that asks for the window, or sleeps through maintenance,
      health or backoff, holds none, and a launcher that asks or awaits the connection holds no lock. */
  lemma NobodyWaitsHolding(actions: seq<Action>, p: nat, e: Event, q: nat)
    requires WorldRun(actions).Some?
    ensures var w := WorldRun(actions).value;
      && (CallNext(w, p, e).Some? && (e.Acquire? || (e.Sleep? && e.interval != PollInterval)) ==> p !in w.shared)
      && (q in w.stages && w.stages[q] != Maintaining ==> w.exclusive != Some(q))
  {
    var w := WorldRun(actions).value;
    ReachableWorlds(actions);
    if CallNext(w, p, e).Some? {
      CallFlags(w.traces[p], e);
    }
  }

  /** The two places that ask for the window. */
  predicate AsksForWindow(pc: Pc) {
    pc == Top(TopAcquire) || (pc.Respawn? && pc.r == RespawnAcquire)
  }

  lemma AskIsPossible(trace: seq<Event>, granted: bool)
    requires Run(trace).Some? && AsksForWindow(Run(trace).value.pc)
    ensures Run(trace + [Acquire(granted)]).Some?
  {
    assert Front(trace + [Acquire(granted)]) == trace;
  }

  /** So the launcher's wait cannot deadlock: once no launcher maintains, a supervisor that asks for the
      window gets it, whatever launchers await the connection; and a launcher that asks is granted the
      lock whenever no supervisor is inside its window. */
  lemma WaitingCannotDeadlock(actions: seq<Action>, p: nat, q: nat)
    requires WorldRun(actions).Some? && !SomeoneMaintains(WorldRun(actions).value)
    requires var w := WorldRun(actions).value;
      p in w.traces && Run(w.traces[p]).Some? && AsksForWindow(Run(w.traces[p]).value.pc)
    ensures CallNext(WorldRun(actions).value, p, Acquire(true)).Some?
    ensures CallNext(WorldRun(actions).value, p, Acquire(false)).None?
    ensures var w := WorldRun(actions).value;
      q in w.stages && w.stages[q] == Asking && w.shared == {} ==> WorldNext(w, Ask(q, true)).Some?
  {
    ReachableWorlds(actions);
    AskIsPossible(WorldRun(actions).value.traces[p], true);
  }

  ghost predicate SomeoneServes(w: World) {
    exists p :: p in w.traces && Observed(w.traces[p]).flags.singleton
  }

  ghost predicate SomeoneHolds(w: World) {
    exists p :: p in w.traces && Observed(w.traces[p]).flags.held
  }

  /** What is granted, by what everyone has done: the singleton lock unless a supervisor has it, the window unless
      a launcher maintains, and the launcher's lock unless a window is open or another launcher maintains. */
  lemma GrantsExactly(actions: seq<Action>, w: World, p: nat, q: nat, granted: bool)
    requires WorldRun(actions) == Some(w)
    ensures CallNext(w, p, Singleton(granted)).Some? ==> (granted <==> !SomeoneServes(w))
    ensures CallNext(w, p, Acquire(granted)).Some? ==> (granted <==> !SomeoneMaintains(w))
    ensures q in w.stages && w.stages[q] == Asking ==>
      (WorldNext(w, Ask(q, granted)).Some? <==> (granted <==> !SomeoneHolds(w) && !SomeoneMaintains(w)))
  {
    ReachableWorlds(actions);
  }

  ghost predicate SomeoneMaintains(w: World) {
    exists q :: q in w.stages && w.stages[q] == Maintaining
  }

  // ---------- One launcher ----------

  predicate IsLauncher(a: Action, q: nat) {
    match a
    case StartLauncher(r) => r == q
    case Ask(r, _) => r == q
    case GiveUp(r) => r == q
    case Leave(r, _) => r == q
    case SeeConnection(r) => r == q
    case _ => false
  }

  /** What a launcher did last. */
  function LatestOf(actions: seq<Action>, q: nat): Option<Action> {
    if actions == [] then None
    else if IsLauncher(actions[|actions| - 1], q) then Some(actions[|actions| - 1])
    else LatestOf(actions[..|actions| - 1], q)
  }

  /** It asks until it is granted the lock or gives up, releases the lock once, and awaits a connection only when it
      completed its maintenance. */
  predicate MayFollow(latest: Option<Action>, a: Action) {
    match latest
    case None => a.StartLauncher?
    case Some(StartLauncher(_)) => a.Ask? || a.GiveUp?
    case Some(Ask(_, granted)) => if granted then a.Leave? else a.Ask? || a.GiveUp?
    case Some(Leave(_, completed)) => completed && a.SeeConnection?
    case Some(_) => false
  }

  predicate HasStage(w: World, q: nat, latest: Option<Action>) {
    match latest
    case None => q !in w.stages
    case Some(StartLauncher(_)) => q in w.stages && w.stages[q] == Asking
    case Some(Ask(_, granted)) => q in w.stages && w.stages[q] == if granted then Maintaining else Asking
    case Some(Leave(_, completed)) => q in w.stages && w.stages[q] == if completed then AwaitingConnection else Finished
    case Some(_) => q in w.stages && w.stages[q] == Finished
  }

  lemma LauncherSteps(w: World, q: nat, latest: Option<Action>, a: Action, next: World)
    requires HasStage(w, q, latest) && WorldNext(w, a) == Some(next)
    ensures if IsLauncher(a, q) then MayFollow(latest, a) && HasStage(next, q, Some(a)) else HasStage(next, q, latest)
  {
  }

  lemma {:induction false} StageTells(actions: seq<Action>, q: nat)
    requires WorldRun(actions).Some?
    ensures HasStage(WorldRun(actions).value, q, LatestOf(actions, q))
  {
    if actions != [] {
      var front := actions[..|actions| - 1];
      StageTells(front, q);
      LauncherSteps(WorldRun(front).value, q, LatestOf(front, q), actions[|actions| - 1], WorldRun(actions).value);
    }
  }

  /** What a launcher does next, by what it did last. */
  lemma LauncherFollows(actions: seq<Action>, q: nat, a: Action)
    requires WorldRun(actions).Some? && WorldNext(WorldRun(actions).value, a).Some? && IsLauncher(a, q)
    ensures MayFollow(LatestOf(actions, q), a)
  {
    StageTells(actions, q);
    var w := WorldRun(actions).value;
    LauncherSteps(w, q, LatestOf(actions, q), a, WorldNext(w, a).value);
  }

  // ---------- The connection a launcher awaits comes about ----------

  lemma Extended(actions: seq<Action>, a: Action)
    requires WorldRun(actions).Some?
    ensures WorldRun(actions + [a]) == WorldNext(WorldRun(actions).value, a)
  {
    assert (actions + [a])[..|actions|] == actions;
  }

  function Calls(p: nat, events: seq<Event>): (actions: seq<Action>)
    ensures |actions| == |events| && forall i :: 0 <= i < |events| ==> actions[i] == Call(p, events[i])
  {
    if events == [] then [] else Calls(p, Front(events)) + [Call(p, Latest(events))]
  }

  lemma {:induction false} RunPrefix(trace: seq<Event>, more: seq<Event>)
    requires more != [] && Run(trace + more).Some?
    ensures Run(trace + Front(more)).Some? && Front(trace + more) == trace + Front(more)
  {
    assert Front(trace + more) == trace + Front(more);
  }

  /** While no launcher maintains, the locks refuse none of a supervisor's own calls. */
  lemma {:induction false} WorldFollows(actions: seq<Action>, w: World, p: nat, more: seq<Event>) returns (later: World)
    requires WorldRun(actions) == Some(w) && w.exclusive.None? && p in w.traces && w.singleton == Some(p)
    requires Run(w.traces[p] + more).Some? && forall e :: e in more ==> IsOwnCall(e)
    ensures WorldRun(actions + Calls(p, more)) == Some(later)
    ensures later.traces == w.traces[p := w.traces[p] + more] && later.stages == w.stages && later.exclusive.None?
    ensures later.singleton.None? || later.singleton == Some(p)
    ensures more != [] && Latest(more) == Publish(Stopped) ==> later.singleton.None?
    decreases |more|
  {
    if more == [] {
      later := w;
      assert actions + Calls(p, more) == actions && w.traces[p] + more == w.traces[p];
    } else {
      RunPrefix(w.traces[p], more);
      OneMore(actions, p, w.traces[p], more);
      var before := WorldFollows(actions, w, p, Front(more));
      Extended(actions + Calls(p, Front(more)), Call(p, Latest(more)));
      later := CallNext(before, p, Latest(more)).value;
    }
  }

  lemma OneMore(actions: seq<Action>, p: nat, trace: seq<Event>, more: seq<Event>)
    requires more != []
    ensures actions + Calls(p, more) == actions + Calls(p, Front(more)) + [Call(p, Latest(more))]
    ensures trace + Front(more) + [Latest(more)] == trace + more
    ensures Latest(more) in more && forall e :: e in Front(more) ==> e in more
  {
  }

  lemma OwnerServes(w: World, p: nat)
    requires LocksMatch(w) && w.singleton == Some(p)
    ensures p in w.traces && Run(w.traces[p]).Some?
    ensures !Run(w.traces[p]).value.pc.Done? && !Run(w.traces[p]).value.pc.Enter?
  {
    Reach(w.traces[p]);
  }

  /** The supervisor that owns the singleton lock publishes a connection by calls of its own, or
      "stopped", giving up the lock, if it was asked to stop. */
  lemma OwnerArrives(actions: seq<Action>, w: World, p: nat) returns (more: seq<Event>, later: World)
    requires WorldRun(actions) == Some(w) && w.exclusive.None? && w.singleton == Some(p)
    ensures p in w.traces && Run(w.traces[p]).Some?
    ensures more != [] && (forall e :: e in more ==> IsOwnCall(e)) && Arrives(Run(w.traces[p]).value.stop, Latest(more))
    ensures WorldRun(actions + Calls(p, more)) == Some(later) && later.stages == w.stages && later.exclusive.None?
    ensures later.traces.Keys == w.traces.Keys && (Latest(more) == Publish(Stopped) ==> later.singleton.None?)
  {
    ReachableWorlds(actions);
    OwnerServes(w, p);
    more := RunArrives(w.traces[p], Run(w.traces[p]).value);
    later := WorldFollows(actions, w, p, more);
  }

  function Opening(p: nat): seq<Action> {
    [StartSupervisor(p), Call(p, Singleton(true))]
  }

  lemma FirstCall()
    ensures Run([]) == Some(INITIAL) && [] + [Singleton(true)] == [Singleton(true)]
    ensures Run([Singleton(true)]) == Some(INITIAL.(pc := Top(TopStop)))
  {
    assert Front([Singleton(true)]) == [];
  }

  lemma FirstCallInWorld(w: World, p: nat)
    requires w.exclusive.None? && w.singleton.None? && p in w.traces && w.traces[p] == []
    ensures CallNext(w, p, Singleton(true)) == Some(w.(traces := w.traces[p := [Singleton(true)]], singleton := Some(p)))
  {
    FirstCall();
    assert w.traces[p] + [Singleton(true)] == [Singleton(true)];
  }

  /** A new supervisor takes a free singleton lock. */
  lemma NewOwner(actions: seq<Action>, w: World, p: nat) returns (later: World)
    requires WorldRun(actions) == Some(w) && w.exclusive.None? && w.singleton.None? && p !in w.traces
    ensures WorldRun(actions + Opening(p)) == Some(later)
    ensures later == w.(traces := w.traces[p := [Singleton(true)]], singleton := Some(p))
  {
    var started := w.(traces := w.traces[p := []]);
    Extended(actions, StartSupervisor(p));
    FirstCallInWorld(started, p);
    later := w.(traces := w.traces[p := [Singleton(true)]], singleton := Some(p));
    assert started.traces[p := [Singleton(true)]] == later.traces;
    Extended(actions + [StartSupervisor(p)], Call(p, Singleton(true)));
    OpeningIsTwo(actions, p);
  }

  lemma OpeningIsTwo(actions: seq<Action>, p: nat)
    ensures actions + [StartSupervisor(p)] + [Call(p, Singleton(true))] == actions + Opening(p)
  {
  }

  /** Supervisors' own calls, and at most one that is started afresh: no kill, and no launcher acts. */
  ghost predicate Undisturbed(more: seq<Action>, p: nat) {
    forall a :: a in more ==> a == StartSupervisor(p) || (a.Call? && (IsOwnCall(a.e) || a == Call(p, Singleton(true))))
  }

  lemma CallsAreUndisturbed(o: nat, events: seq<Event>, p: nat)
    requires events != [] && forall e :: e in events ==> IsOwnCall(e)
    ensures Undisturbed(Calls(o, events), p) && Calls(o, events) != []
    ensures Calls(o, events)[|events| - 1] == Call(o, Latest(events))
  {
  }

  lemma OneAfterAnother(actions: seq<Action>, first: seq<Action>, second: seq<Action>, p: nat)
    requires Undisturbed(first, p) && Undisturbed(second, p) && second != []
    ensures actions + first + second == actions + (first + second) && Undisturbed(first + second, p)
    ensures first + second != [] && (first + second)[|first + second| - 1] == second[|second| - 1]
  {
  }

  lemma Opened(actions: seq<Action>, p: nat, calls: seq<Action>) returns (more: seq<Action>)
    requires Undisturbed(calls, p) && calls != []
    ensures actions + Opening(p) + calls == actions + more
    ensures Undisturbed(more, p) && more != [] && more[|more| - 1] == calls[|calls| - 1]
  {
    OneAfterAnother(actions, Opening(p), calls, p);
    more := Opening(p) + calls;
  }

  lemma FreshArrives(actions: seq<Action>, w: World, p: nat) returns (more: seq<Action>, later: World)
    requires WorldRun(actions) == Some(w) && w.exclusive.None? && w.singleton.None? && p !in w.traces
    ensures WorldRun(actions + more) == Some(later) && later.stages == w.stages
    ensures Undisturbed(more, p) && more != [] && more[|more| - 1] == Call(p, Publish(Connected))
  {
    var serving := NewOwner(actions, w, p);
    FirstCall();
    var events;
    events, later := OwnerArrives(actions + Opening(p), serving, p);
    CallsAreUndisturbed(p, events, p);
    more := Opened(actions, p, Calls(p, events));
  }

  lemma StoppedThenFresh(actions: seq<Action>, o: nat, events: seq<Event>, w: World, p: nat) returns (more: seq<Action>, later: World)
    requires WorldRun(actions + Calls(o, events)) == Some(w) && w.exclusive.None? && w.singleton.None? && p !in w.traces
    requires events != [] && forall e :: e in events ==> IsOwnCall(e)
    ensures WorldRun(actions + more) == Some(later) && later.stages == w.stages
    ensures Undisturbed(more, p) && more != [] && more[|more| - 1] == Call(p, Publish(Connected))
  {
    var rest;
    rest, later := FreshArrives(actions + Calls(o, events), w, p);
    CallsAreUndisturbed(o, events, p);
    OneAfterAnother(actions, Calls(o, events), rest, p);
    more := Calls(o, events) + rest;
  }

  /** Main result: from any world in which no launcher maintains, however many await the connection, some
      calls of the supervisors publish it; `p` is a process id not yet used, for the supervisor that is
      started when none serves or the one that does was asked to stop. */
  lemma ConnectionComesAbout(actions: seq<Action>, w: World, p: nat) returns (more: seq<Action>, later: World)
    requires WorldRun(actions) == Some(w) && !SomeoneMaintains(w) && p !in w.traces
    ensures WorldRun(actions + more) == Some(later) && later.stages == w.stages
    ensures Undisturbed(more, p) && more != []
    ensures more[|more| - 1].Call? && more[|more| - 1].e == Publish(Connected)
  {
    ReachableWorlds(actions);
    if w.singleton.None? {
      more, later := FreshArrives(actions, w, p);
    } else {
      var events;
      events, later := OwnerArrives(actions, w, w.singleton.value);
      CallsAreUndisturbed(w.singleton.value, events, p);
      more := Calls(w.singleton.value, events);
      if Latest(events) == Publish(Stopped) {
        more, later := StoppedThenFresh(actions, w.singleton.value, events, later, p);
      }
    }
  }
}
