/**
 The supervisor as the script is written (scripts/developer-connection.py, supervise): nested loops
 over its variables, with an early return, breaks and one exception handler.  The environment answers
 each call as it likes; the calls made so far are kept as a ghost trace.  The program branches and loops
 on its own variables and the answers alone, and is proved to make only calls that the machine of
 Supervision makes, with the machine's values in its variables: all that is proved of the machine's
 traces holds of what the loops do.

 A process can be killed at any time.  `fuel` bounds the rounds until it is, so the runs of all fuels
 together are runs of any length.
 */
module SupervisorProgram {
  import opened Wrappers
  import opened Supervision
  import opened SupervisionSafety

  /** How a stretch of the program ends: by going on, by leaving the loop it is the body of, by breaking
      out of the outer loop, by an exception or by a kill. */
  datatype Exit = GoesOn | Leaves | Breaks | Raises | Killed

  /** Call `i` takes the machine from one state to the next. */
  ghost predicate Linked(trace: seq<Event>, states: seq<Supervisor>, i: nat)
    requires i < |trace| && |states| == |trace| + 1
  {
    Next(states[i], trace[i]) == Some(states[i + 1])
  }

  /** The calls made so far, the machine before and after each of them, and where it is now. */
  datatype Log = Log(calls: seq<Event>, states: seq<Supervisor>, now: Supervisor)

  ghost predicate Traced(log: Log) {
    && |log.states| == |log.calls| + 1 && log.states[0] == INITIAL && log.states[|log.calls|] == log.now
    && forall i :: 0 <= i < |log.calls| ==> Linked(log.calls, log.states, i)
  }

  ghost predicate EndsInCrash(log: Log) {
    log.calls != [] && Latest(log.calls) == Crash
  }

  lemma {:induction false} LinkedIsRun(trace: seq<Event>, states: seq<Supervisor>)
    requires |states| == |trace| + 1 && states[0] == INITIAL
    requires forall i :: 0 <= i < |trace| ==> Linked(trace, states, i)
    ensures Run(trace) == Some(states[|trace|])
  {
    if trace != [] {
      var n := |trace| - 1;
      forall i | 0 <= i < n
        ensures Linked(Front(trace), states[..|trace|], i)
      {
        assert Linked(trace, states, i);
      }
      LinkedIsRun(Front(trace), states[..|trace|]);
      assert Linked(trace, states, n);
    }
  }

  class Invocation {
    // The variables of supervise; `configured` and `authenticated` say that config and status are not
    // None, `window` that connection_window is not.
    var attempt: nat
    var failures: nat
    var window: bool
    var master: Child
    var runner: Child
    var owned: bool
    var reused: bool
    var configured: bool
    var authenticated: bool
    var last: nat
    var deadline: nat
    // The environment: the clock, the flag the signal handler sets, the processes started so far.
    var time: nat
    var stopped: bool
    var processes: nat
    ghost var log: Log

    constructor ()
      ensures Here(Enter)
    {
      attempt, failures, window, master, runner := 0, 0, false, NoChild, NoChild;
      owned, reused, configured, authenticated, last, deadline := false, false, false, false, 0, 0;
      time, stopped, processes := 0, false, 0;
      log := Log([], [INITIAL], INITIAL);
    }

    /** The machine's state at this call with the values of the variables. */
    ghost function Values(pc: Pc): Supervisor
      reads this
    {
      Supervisor(pc, attempt, failures, window, master, runner, owned, reused, configured, authenticated, last, deadline,
                 time, stopped, processes)
    }

    /** The machine is there. */
    ghost predicate Here(pc: Pc)
      reads this
    {
      Traced(log) && log.now == Values(pc)
    }

    ghost predicate Ends(exit: Exit, goesOn: Pc, leaves: Pc)
      reads this
    {
      match exit
      case GoesOn => Here(goesOn)
      case Leaves => Here(leaves)
      case Breaks => Here(Halt(HaltRunner))
      case Raises => Here(if window then Fail(Unwind) else Fail(KillRunner))
      case Killed => Here(Done) && EndsInCrash(log)
    }

    /** An owned runner is one that was started. */
    predicate OwnsOne()
      reads `owned, `runner
    {
      owned ==> runner.Child?
    }

    // ---------- Answers ----------

    method Answer() returns (yes: bool) {
      yes := *;
    }

    method Probed() returns (absent: Option<bool>) {
      absent := *;
    }

    method Monotonic() returns (now: nat)
      modifies `time
      ensures now == time >= old(time)
    {
      var passed: int := *;
      time := time + if passed < 0 then 0 else passed;
      now := time;
    }

    /** Reading STOP, which a signal may have set meanwhile. */
    method ReadStop() returns (stop: bool)
      modifies `stopped
      ensures stop == stopped && (old(stopped) ==> stopped)
    {
      var signalled := Answer();
      stopped := stopped || signalled;
      stop := stopped;
    }

    method PollMaster() returns (exited: bool)
      requires master.Child?
      modifies `master
      ensures master == Child(old(master.id), exited) && (old(master.exited) ==> exited)
    {
      exited := Answer();
      exited := exited || master.exited;
      master := Child(master.id, exited);
    }

    method PollRunner() returns (exited: bool)
      requires runner.Child?
      modifies `runner
      ensures runner == Child(old(runner.id), exited) && (old(runner.exited) ==> exited)
    {
      exited := Answer();
      exited := exited || runner.exited;
      runner := Child(runner.id, exited);
    }

    method Popen() returns (child: Child)
      modifies `processes
      ensures child == Child(old(processes), false) && processes == old(processes) + 1
    {
      child := Child(processes, false);
      processes := processes + 1;
    }

    // ---------- Calls ----------

    // The variables change first; the call is then recorded, with the place where the machine must be next.

    /** One call: it must be one the machine makes here. */
    ghost method Calls(e: Event)
      requires Traced(log) && Next(log.now, e).Some?
      modifies `log
      ensures Traced(log) && Next(old(log.now), e) == Some(log.now) && log.calls == old(log.calls) + [e]
    {
      ghost var was := log;
      ghost var next := Next(log.now, e).value;
      log := Log(was.calls + [e], was.states + [next], next);
      forall i | 0 <= i < |log.calls|
        ensures Linked(log.calls, log.states, i)
      {
        if i < |was.calls| {
          assert Linked(was.calls, was.states, i);
        }
      }
    }

    ghost method OnTop(e: Event, pc: Pc)
      requires Traced(log) && log.now.pc.Top? && !e.Crash? && !e.Raise? && NextTop(log.now, e) == Some(Values(pc))
      modifies `log
      ensures Here(pc)
    {
      Calls(e);
    }

    ghost method OnLink(e: Event, pc: Pc)
      requires Traced(log) && log.now.pc.Link? && !e.Crash? && !e.Raise? && NextLink(log.now, e) == Some(Values(pc))
      modifies `log
      ensures Here(pc)
    {
      Calls(e);
    }

    ghost method OnBoot(e: Event, pc: Pc)
      requires Traced(log) && log.now.pc.Boot? && !e.Crash? && !e.Raise? && NextBoot(log.now, e) == Some(Values(pc))
      modifies `log
      ensures Here(pc)
    {
      Calls(e);
    }

    ghost method OnAuth(e: Event, pc: Pc)
      requires Traced(log) && log.now.pc.Auth? && !e.Crash? && !e.Raise? && NextAuth(log.now, e) == Some(Values(pc))
      modifies `log
      ensures Here(pc)
    {
      Calls(e);
    }

    ghost method OnHealth(e: Event, pc: Pc)
      requires Traced(log) && log.now.pc.Health? && !e.Crash? && !e.Raise? && NextHealth(log.now, e) == Some(Values(pc))
      modifies `log
      ensures Here(pc)
    {
      Calls(e);
    }

    ghost method OnRespawn(e: Event, pc: Pc)
      requires Traced(log) && log.now.pc.Respawn? && !e.Crash? && !e.Raise? && NextRespawn(log.now, e) == Some(Values(pc))
      modifies `log
      ensures Here(pc)
    {
      Calls(e);
    }

    ghost method OnFail(e: Event, pc: Pc)
      requires Traced(log) && log.now.pc.Fail? && !e.Crash? && !e.Raise? && NextFail(log.now, e) == Some(Values(pc))
      modifies `log
      ensures Here(pc)
    {
      Calls(e);
    }

    ghost method OnHalt(e: Event, pc: Pc)
      requires Traced(log) && log.now.pc.Halt? && !e.Crash? && !e.Raise? && NextHalt(log.now, e) == Some(Values(pc))
      modifies `log
      ensures Here(pc) && log.calls == old(log.calls) + [e]
    {
      Calls(e);
    }

    /** A call that can raise an exception, and perhaps does. */
    method Attempt(ghost pc: Pc) returns (exit: Exit)
      requires Here(pc) && CanFail(pc)
      modifies `log
      ensures Ends(exit, pc, Done) && (exit.GoesOn? || exit.Raises?)
    {
      exit := GoesOn;
      var raises := Answer();
      if raises {
        Calls(Raise(CallFailed));
        exit := Raises;
      }
    }

    /** raise RuntimeError */
    method LinkLost() returns (exit: Exit)
      requires Here(Lost)
      modifies `log
      ensures exit.Raises? && Ends(exit, Done, Done)
    {
      Calls(Raise(ConnectionLost));
      exit := Raises;
    }

    method Kill() returns (exit: Exit)
      requires exists pc :: Here(pc) && !pc.Done?
      modifies `log, `window
      ensures exit.Killed? && Ends(exit, Done, Done)
    {
      Calls(Crash);
      window := false;
      exit := Killed;
    }

    // ---------- Connecting ----------

    method OpenLink() returns (exit: Exit)
      requires Here(Link(Validate))
      modifies `log, `configured
      ensures Ends(exit, Link(Reuse), Done) && (exit.GoesOn? || exit.Raises?)
    {
      exit := Attempt(Link(Validate));
      if exit.Raises? {
        return;
      }
      configured := true;
      OnLink(Validated, Link(Prepare));
      exit := ClearStaleSocket();
    }

    method ClearStaleSocket() returns (exit: Exit)
      requires Here(Link(Prepare))
      modifies `log
      ensures Ends(exit, Link(Reuse), Done) && (exit.GoesOn? || exit.Raises?)
    {
      exit := Attempt(Link(Prepare));
      if exit.Raises? {
        return;
      }
      OnLink(Prepared, Link(Reuse));
    }

    /** A live control socket is reused; otherwise a master is started. */
    method FindMaster() returns (exit: Exit)
      requires Here(Link(Reuse))
      modifies `log, `reused
      ensures Ends(exit, Link(StartMaster), Boot(LoadSettings)) && (exit.GoesOn? || exit.Leaves? || exit.Raises?)
      ensures exit.Leaves? ==> reused
    {
      exit := Attempt(Link(Reuse));
      if exit.Raises? {
        return;
      }
      reused := Answer();
      OnLink(SocketCheck(reused), if reused then Boot(LoadSettings) else Link(StartMaster));
      if reused {
        exit := Leaves;
      }
    }

    method BeginMaster() returns (exit: Exit)
      requires Here(Link(StartMaster))
      modifies `log, `master, `processes, `time, `deadline
      ensures Ends(exit, Link(MasterClock), Done) && (exit.GoesOn? || exit.Raises?)
      ensures exit.GoesOn? ==> master.Child? && deadline == time + 12
    {
      exit := Attempt(Link(StartMaster));
      if exit.Raises? {
        return;
      }
      master := Popen();
      OnLink(SpawnMaster(master.id), Link(StampMaster));
      SetMasterDeadline();
    }

    method SetMasterDeadline()
      requires Here(Link(StampMaster))
      modifies `log, `time, `deadline
      ensures Here(Link(MasterClock)) && deadline == time + 12
    {
      var now := Monotonic();
      deadline := now + 12;
      OnLink(Clock(now), Link(MasterClock));
    }

    method AwaitMaster(fuel0: nat) returns (exit: Exit, fuel: nat)
      requires Here(Link(MasterClock)) && master.Child?
      modifies `log, `time, `master, `stopped, `window
      ensures Ends(exit, Link(MasterClock), Link(FinalStop)) && (exit.Leaves? || exit.Raises? || exit.Killed?)
      ensures fuel <= fuel0
    {
      exit, fuel := GoesOn, fuel0;
      while exit.GoesOn?
        invariant Ends(exit, Link(MasterClock), Link(FinalStop)) && !exit.Breaks? && fuel <= fuel0
        invariant exit.GoesOn? ==> master.Child?
        decreases fuel, exit.GoesOn?
      {
        if fuel == 0 {
          exit := Kill();
          return;
        }
        fuel := fuel - 1;
        exit := MasterWaits();
      }
    }

    /** The condition of the loop, a break on a live socket, and a pause. */
    method MasterWaits() returns (exit: Exit)
      requires Here(Link(MasterClock)) && master.Child?
      modifies `log, `time, `master, `stopped
      ensures Ends(exit, Link(MasterClock), Link(FinalStop)) && (exit.GoesOn? || exit.Leaves? || exit.Raises?)
      ensures exit.GoesOn? ==> master.Child?
    {
      var now := Monotonic();
      OnLink(Clock(now), if now < deadline then Link(MasterPoll) else Link(FinalStop));
      if now >= deadline {
        return Leaves;
      }
      var exited := PollMaster();
      OnLink(Event.PollMaster(master.id, exited), if exited then Link(FinalStop) else Link(MasterStop));
      if exited {
        return Leaves;
      }
      exit := MasterSocketWaits();
    }

    method MasterSocketWaits() returns (exit: Exit)
      requires Here(Link(MasterStop)) && master.Child?
      modifies `log, `stopped
      ensures Ends(exit, Link(MasterClock), Link(FinalStop)) && (exit.GoesOn? || exit.Leaves? || exit.Raises?)
      ensures exit.GoesOn? ==> master.Child?
    {
      var stop := ReadStop();
      OnLink(StopRead(stop), if stop then Link(FinalStop) else Link(MasterSocket));
      if stop {
        return Leaves;
      }
      exit := LooksForSocket();
    }

    method LooksForSocket() returns (exit: Exit)
      requires Here(Link(MasterSocket))
      modifies `log
      ensures Ends(exit, Link(MasterClock), Link(FinalStop)) && (exit.GoesOn? || exit.Leaves? || exit.Raises?)
    {
      exit := Attempt(Link(MasterSocket));
      if exit.Raises? {
        return;
      }
      var live := Answer();
      OnLink(SocketCheck(live), if live then Link(FinalStop) else Link(MasterPause));
      if live {
        return Leaves;
      }
      OnLink(Sleep(PollInterval), Link(MasterClock));
    }

    method CheckLink() returns (exit: Exit)
      requires Here(Link(FinalStop))
      modifies `log, `stopped
      ensures Ends(exit, Boot(LoadSettings), Done) && (exit.GoesOn? || exit.Raises?)
    {
      var stop := ReadStop();
      OnLink(StopRead(stop), if stop then Lost else Link(FinalSocket));
      if stop {
        exit := LinkLost();
        return;
      }
      exit := CheckSocket();
    }

    method CheckSocket() returns (exit: Exit)
      requires Here(Link(FinalSocket))
      modifies `log
      ensures Ends(exit, Boot(LoadSettings), Done) && (exit.GoesOn? || exit.Raises?)
    {
      exit := Attempt(Link(FinalSocket));
      if exit.Raises? {
        return;
      }
      var live := Answer();
      OnLink(SocketCheck(live), if live then Boot(LoadSettings) else Lost);
      if !live {
        exit := LinkLost();
      }
    }

    method Connect(fuel0: nat) returns (exit: Exit, fuel: nat)
      requires Here(Link(Validate))
      modifies `log, `configured, `reused, `master, `processes, `time, `deadline, `stopped, `window
      ensures Ends(exit, Boot(LoadSettings), Done) && (exit.GoesOn? || exit.Raises? || exit.Killed?) && fuel <= fuel0
    {
      fuel := fuel0;
      exit := OpenLink();
      if exit.GoesOn? {
        exit := FindMaster();
        if exit.Leaves? {
          return GoesOn, fuel;
        }
      }
      if exit.GoesOn? {
        exit := BeginMaster();
      }
      if exit.GoesOn? {
        exit, fuel := AwaitMaster(fuel);
      }
      if exit.Leaves? {
        exit := CheckLink();
      }
    }

    // ---------- Starting a runner ----------

    method LoadRuntime() returns (exit: Exit)
      requires Here(Boot(LoadSettings))
      modifies `log
      ensures Ends(exit, Boot(FirstStatus), Done) && (exit.GoesOn? || exit.Raises?)
    {
      exit := Attempt(Boot(LoadSettings));
      if exit.Raises? {
        return;
      }
      OnBoot(Settings, Boot(FirstRefresh));
      exit := Attempt(Boot(FirstRefresh));
      if exit.Raises? {
        return;
      }
      var renewed := Answer();
      OnBoot(Refresh(renewed), Boot(FirstStatus));
    }

    /** Goes on to start a runner only without a status and with the runner certainly absent. */
    method FirstLook() returns (exit: Exit)
      requires Here(Boot(FirstStatus))
      modifies `log, `authenticated
      ensures Ends(exit, Boot(StartRunner), Boot(CloseWindow)) && (exit.GoesOn? || exit.Leaves? || exit.Raises?)
    {
      authenticated := Answer();
      OnBoot(Status(authenticated), if authenticated then Boot(CloseWindow) else Boot(FirstProbe));
      if authenticated {
        return Leaves;
      }
      exit := Attempt(Boot(FirstProbe));
      if exit.Raises? {
        return;
      }
      var absent := Probed();
      OnBoot(Probe(absent), if absent == Some(true) then Boot(StartRunner) else Boot(CloseWindow));
      if absent != Some(true) {
        exit := Leaves;
      }
    }

    method BeginRunner() returns (exit: Exit)
      requires Here(Boot(StartRunner))
      modifies `log, `runner, `processes, `time, `deadline
      ensures Ends(exit, Boot(RunnerClock), Done) && (exit.GoesOn? || exit.Raises?)
      ensures exit.GoesOn? ==> runner.Child? && deadline == time + 15
      ensures processes <= old(processes) + 1
    {
      exit := Attempt(Boot(StartRunner));
      if exit.Raises? {
        return;
      }
      runner := Popen();
      OnBoot(SpawnRunner(runner.id), Boot(StampRunner));
      SetRunnerDeadline();
    }

    method SetRunnerDeadline()
      requires Here(Boot(StampRunner))
      modifies `log, `time, `deadline
      ensures Here(Boot(RunnerClock)) && deadline == time + 15
    {
      var now := Monotonic();
      deadline := now + 15;
      OnBoot(Clock(now), Boot(RunnerClock));
    }

    method AwaitRunner(fuel0: nat) returns (exit: Exit, fuel: nat)
      requires Here(Boot(RunnerClock)) && runner.Child?
      modifies `log, `time, `stopped, `authenticated, `runner, `window
      ensures Ends(exit, Boot(RunnerClock), Boot(CloseWindow)) && (exit.Leaves? || exit.Raises? || exit.Killed?)
      ensures fuel <= fuel0
    {
      exit, fuel := GoesOn, fuel0;
      while exit.GoesOn?
        invariant Ends(exit, Boot(RunnerClock), Boot(CloseWindow)) && !exit.Breaks? && fuel <= fuel0
        invariant exit.GoesOn? ==> runner.Child?
        decreases fuel, exit.GoesOn?
      {
        if fuel == 0 {
          exit := Kill();
          return;
        }
        fuel := fuel - 1;
        exit := RunnerWaits();
        if exit.GoesOn? {
          exit := AsksRunner();
        }
        if exit.GoesOn? {
          PausesForRunner();
        }
      }
    }

    /** The condition of the loop. */
    method RunnerWaits() returns (exit: Exit)
      requires Here(Boot(RunnerClock))
      modifies `log, `time, `stopped
      ensures Ends(exit, Boot(RunnerRefresh), Boot(CloseWindow)) && (exit.GoesOn? || exit.Leaves?)
    {
      var now := Monotonic();
      OnBoot(Clock(now), if now < deadline then Boot(RunnerStop) else Boot(CloseWindow));
      if now >= deadline {
        return Leaves;
      }
      var stop := ReadStop();
      OnBoot(StopRead(stop), if stop then Boot(CloseWindow) else Boot(RunnerRefresh));
      exit := if stop then Leaves else GoesOn;
    }

    method AsksRunner() returns (exit: Exit)
      requires Here(Boot(RunnerRefresh))
      modifies `log, `authenticated
      ensures Ends(exit, Boot(RunnerPoll), Boot(CloseWindow)) && (exit.GoesOn? || exit.Leaves? || exit.Raises?)
    {
      exit := Attempt(Boot(RunnerRefresh));
      if exit.Raises? {
        return;
      }
      var renewed := Answer();
      OnBoot(Refresh(renewed), Boot(RunnerStatus));
      authenticated := Answer();
      OnBoot(Status(authenticated), if authenticated then Boot(CloseWindow) else Boot(RunnerPoll));
      if authenticated {
        exit := Leaves;
      }
    }

    method PausesForRunner()
      requires Here(Boot(RunnerPoll)) && runner.Child?
      modifies `log, `runner
      ensures Here(Boot(RunnerClock)) && runner.Child?
    {
      var exited := PollRunner();
      OnBoot(Event.PollRunner(runner.id, exited), Boot(RunnerPause));
      OnBoot(Sleep(PollInterval), Boot(RunnerClock));
    }

    /** The window is given back before the session begins. */
    method CloseTheWindow() returns (exit: Exit)
      requires Here(Boot(CloseWindow))
      modifies `log, `window, `time, `failures, `last
      ensures Ends(exit, Auth(AuthStop), Auth(LeaveStop)) && exit == if authenticated then Leaves else GoesOn
      ensures !window && failures == 0 && last == time && processes == old(processes)
    {
      window := false;
      OnBoot(Release, Boot(StampSession));
      exit := BeginSession();
    }

    method BeginSession() returns (exit: Exit)
      requires Here(Boot(StampSession))
      modifies `log, `time, `failures, `last
      ensures Ends(exit, Auth(AuthStop), Auth(LeaveStop)) && exit == if authenticated then Leaves else GoesOn
      ensures failures == 0 && last == time
    {
      failures := 0;
      var now := Monotonic();
      last := now;
      OnBoot(Clock(now), if authenticated then Auth(LeaveStop) else Auth(AuthStop));
      exit := if authenticated then Leaves else GoesOn;
    }

    /** At most one runner is started, and the window is given back. */
    method OpenSession(fuel0: nat) returns (exit: Exit, fuel: nat)
      requires Here(Boot(LoadSettings))
      modifies `log, `authenticated, `runner, `processes, `time, `deadline, `stopped, `window, `failures, `last
      ensures Ends(exit, Auth(AuthStop), Auth(LeaveStop)) && !exit.Breaks? && fuel <= fuel0
      ensures (exit.GoesOn? || exit.Leaves?) ==> !window && (authenticated <==> exit.Leaves?)
      ensures processes <= old(processes) + 1
    {
      fuel := fuel0;
      exit := LoadRuntime();
      if exit.GoesOn? {
        exit := FirstLook();
      }
      if exit.GoesOn? {
        exit := BeginRunner();
      }
      if exit.GoesOn? {
        exit, fuel := AwaitRunner(fuel);
      }
      if exit.Leaves? {
        exit := CloseTheWindow();
      }
    }

    // ---------- respawn_runner_if_allowed ----------

    /** A replacement is started unless it is too soon or maintenance refuses; a refusal leaves the runner
        as it is and holds no window. */
    method Replace(site: Site) returns (exit: Exit)
      requires Here(Respawn(site, RespawnClock)) && (site == Waiting || OwnsOne())
      modifies `log, `time, `window, `runner, `processes, `last, `owned
      ensures Ends(exit, Resume(site), Refused(site)) && (exit.GoesOn? || exit.Leaves? || exit.Raises?)
      ensures exit.Raises? || site == Waiting || OwnsOne()
      ensures exit.Leaves? ==> runner == old(runner) && !window && processes == old(processes)
      ensures exit.GoesOn? ==> (runner == old(runner) && processes == old(processes)) || Replaced(old(processes))
    {
      var now := Monotonic();
      OnRespawn(Clock(now), if now - last < RUNNER_RETRY_SECONDS then Resume(site) else Respawn(site, RespawnAcquire));
      if now - last < RUNNER_RETRY_SECONDS {
        return GoesOn;
      }
      exit := Attempt(Respawn(site, RespawnAcquire));
      if exit.Raises? {
        return;
      }
      window := Answer();
      OnRespawn(Acquire(window), if window then Respawn(site, RespawnSpawn) else Refused(site));
      if !window {
        return Leaves;
      }
      exit := StartReplacement(site);
    }

    /** One new runner has been started and the window given back. */
    predicate Replaced(id: nat)
      reads `runner, `window, `processes, `last, `time
    {
      runner == Child(id, false) && processes == id + 1 && !window && last == time
    }

    method StartReplacement(site: Site) returns (exit: Exit)
      requires Here(Respawn(site, RespawnSpawn))
      modifies `log, `time, `window, `runner, `processes, `last, `owned
      ensures Ends(exit, Resume(site), Done) && (exit.GoesOn? || exit.Raises?)
      ensures exit.GoesOn? ==> Replaced(old(processes))
    {
      exit := Attempt(Respawn(site, RespawnSpawn));
      if exit.Raises? {
        return;
      }
      runner := Popen();
      OnRespawn(SpawnRunner(runner.id), Respawn(site, RespawnRelease));
      EndReplacement(site);
    }

    method EndReplacement(site: Site)
      requires Here(Respawn(site, RespawnRelease))
      modifies `log, `window, `time, `last, `owned
      ensures Here(Resume(site)) && !window && last == time
    {
      window := false;
      OnRespawn(Release, Respawn(site, RespawnStamp));
      NoteReplacement(site);
    }

    method NoteReplacement(site: Site)
      requires Here(Respawn(site, RespawnStamp))
      modifies `log, `time, `last, `owned
      ensures Here(Resume(site)) && last == time
    {
      var now := Monotonic();
      last := now;
      owned := owned || site == Adopted;
      OnRespawn(Clock(now), Resume(site));
    }

    // ---------- Waiting for an authenticated runner ----------

    method AuthOpens() returns (exit: Exit)
      requires Here(Auth(AuthStop))
      modifies `log, `stopped, `failures
      ensures Ends(exit, Auth(AuthReport), Auth(LeaveStop)) && (exit.GoesOn? || exit.Leaves? || exit.Raises?)
    {
      var stop := ReadStop();
      OnAuth(StopRead(stop), if stop then Auth(LeaveStop) else Auth(AuthSocket));
      if stop {
        return Leaves;
      }
      exit := AuthLooks();
    }

    method AuthLooks() returns (exit: Exit)
      requires Here(Auth(AuthSocket))
      modifies `log, `failures
      ensures Ends(exit, Auth(AuthReport), Done) && (exit.GoesOn? || exit.Raises?)
      ensures exit.GoesOn? ==> failures == old(failures) + 1
    {
      exit := Attempt(Auth(AuthSocket));
      if exit.Raises? {
        return;
      }
      var live := Answer();
      failures := failures + if live then 1 else 0;
      OnAuth(SocketCheck(live), if live then Auth(AuthReport) else Lost);
      if !live {
        exit := LinkLost();
      }
    }

    method AuthReports() returns (exit: Exit)
      requires Here(Auth(AuthReport))
      modifies `log
      ensures Ends(exit, Auth(AuthRefresh), Done) && (exit.GoesOn? || exit.Raises?)
    {
      exit := Attempt(Auth(AuthReport));
      if exit.Raises? {
        return;
      }
      OnAuth(Publish(if failures >= ATTENTION then NeedsAttention else Reconnecting), Auth(AuthPause));
      OnAuth(Sleep(HealthInterval), Auth(AuthRefresh));
    }

    method AuthAsks() returns (exit: Exit)
      requires Here(Auth(AuthRefresh))
      modifies `log, `authenticated
      ensures Ends(exit, Auth(if runner.NoChild? then AuthProbe else AuthPoll), Auth(LeaveStop))
      ensures exit.GoesOn? || exit.Leaves? || exit.Raises?
      ensures exit.Leaves? ==> authenticated
    {
      exit := Attempt(Auth(AuthRefresh));
      if exit.Raises? {
        return;
      }
      var renewed := Answer();
      OnAuth(Refresh(renewed), Auth(AuthStatus));
      authenticated := Answer();
      OnAuth(Status(authenticated), Auth(if authenticated then LeaveStop else if runner.NoChild? then AuthProbe else AuthPoll));
      if authenticated {
        exit := Leaves;
      }
    }

    /** A runner is started when there is none, or ours has exited, and none is running on the host. */
    method AuthRepairs() returns (exit: Exit)
      requires Here(Auth(if runner.NoChild? then AuthProbe else AuthPoll))
      modifies `log, `time, `window, `runner, `processes, `last, `owned
      ensures Ends(exit, Auth(AuthStop), Done) && (exit.GoesOn? || exit.Raises?)
    {
      if runner.Child? {
        var exited := PollRunner();
        OnAuth(Event.PollRunner(runner.id, exited), Auth(if exited then AuthProbe else AuthStop));
        if !exited {
          return GoesOn;
        }
      }
      exit := AuthProbes();
    }

    method AuthProbes() returns (exit: Exit)
      requires Here(Auth(AuthProbe))
      modifies `log, `time, `window, `runner, `processes, `last, `owned
      ensures Ends(exit, Auth(AuthStop), Done) && (exit.GoesOn? || exit.Raises?)
    {
      exit := Attempt(Auth(AuthProbe));
      if exit.Raises? {
        return;
      }
      var absent := Probed();
      OnAuth(Probe(absent), if absent == Some(true) then Respawn(Waiting, RespawnClock) else Auth(AuthStop));
      if absent == Some(true) {
        exit := Replace(Waiting);
        if exit.Leaves? {
          exit := GoesOn;
        }
      }
    }

    method AwaitStatus(fuel0: nat) returns (exit: Exit, fuel: nat)
      requires Here(Auth(AuthStop))
      modifies `log, `stopped, `failures, `authenticated, `time, `window, `runner, `processes, `last, `owned
      ensures Ends(exit, Auth(AuthStop), Auth(LeaveStop)) && (exit.Leaves? || exit.Raises? || exit.Killed?)
      ensures fuel <= fuel0
    {
      exit, fuel := GoesOn, fuel0;
      while exit.GoesOn?
        invariant Ends(exit, Auth(AuthStop), Auth(LeaveStop)) && !exit.Breaks? && fuel <= fuel0
        decreases fuel, exit.GoesOn?
      {
        if fuel == 0 {
          exit := Kill();
          return;
        }
        fuel := fuel - 1;
        exit := AuthOpens();
        if exit.GoesOn? {
          exit := AuthReports();
        }
        if exit.GoesOn? {
          exit := AuthAsks();
        }
        if exit.GoesOn? {
          exit := AuthRepairs();
        }
      }
    }

    method AnnounceConnected() returns (exit: Exit)
      requires Here(Auth(LeaveStop))
      modifies `log, `stopped, `runner, `owned, `attempt, `time, `failures, `last
      ensures Ends(exit, Health(HealthStop), Done) && (exit.GoesOn? || exit.Breaks? || exit.Raises?)
      ensures exit.GoesOn? ==> OwnsOne() && attempt == 0 && failures == 0 && last == time
    {
      var stop := ReadStop();
      if stop {
        OnAuth(StopRead(stop), Halt(HaltRunner));
        return Breaks;
      }
      if runner.NoChild? {
        owned, attempt := false, 0;
        OnAuth(StopRead(stop), Auth(Announce));
      } else {
        OnAuth(StopRead(stop), Auth(OwnPoll));
        DecideOwnership();
      }
      exit := EnterHealth();
    }

    /** The runner is owned when one was started and is still running. */
    method DecideOwnership()
      requires Here(Auth(OwnPoll)) && runner.Child?
      modifies `log, `runner, `owned, `attempt
      ensures Here(Auth(Announce)) && OwnsOne() && attempt == 0
    {
      var exited := PollRunner();
      owned := !exited;
      attempt := 0;
      OnAuth(Event.PollRunner(runner.id, exited), Auth(Announce));
    }

    method EnterHealth() returns (exit: Exit)
      requires Here(Auth(Announce))
      modifies `log, `time, `failures, `last
      ensures Ends(exit, Health(HealthStop), Done) && (exit.GoesOn? || exit.Raises?)
      ensures exit.GoesOn? ==> failures == 0 && last == time
    {
      exit := Attempt(Auth(Announce));
      if exit.Raises? {
        return;
      }
      OnAuth(Publish(Connected), Auth(StampHealth));
      BeginHealth();
    }

    method BeginHealth()
      requires Here(Auth(StampHealth))
      modifies `log, `time, `failures, `last
      ensures Here(Health(HealthStop)) && failures == 0 && last == time
    {
      failures := 0;
      var now := Monotonic();
      last := now;
      OnAuth(Clock(now), Health(HealthStop));
    }

    // ---------- Connected ----------

    method HealthOpens() returns (exit: Exit)
      requires Here(Health(HealthStop))
      modifies `log, `stopped
      ensures Ends(exit, Health(HealthSettings), Top(TopStop)) && (exit.GoesOn? || exit.Leaves? || exit.Raises?)
      ensures exit.Leaves? ==> stopped
    {
      var stop := ReadStop();
      OnHealth(StopRead(stop), if stop then Top(TopStop) else Health(HealthPause));
      if stop {
        return Leaves;
      }
      OnHealth(Sleep(HealthInterval), Health(HealthSocket));
      exit := HealthLooks();
    }

    method HealthLooks() returns (exit: Exit)
      requires Here(Health(HealthSocket))
      modifies `log
      ensures Ends(exit, Health(HealthSettings), Done) && (exit.GoesOn? || exit.Raises?)
    {
      exit := Attempt(Health(HealthSocket));
      if exit.Raises? {
        return;
      }
      var live := Answer();
      OnHealth(SocketCheck(live), if live then Health(HealthSettings) else Lost);
      if !live {
        exit := LinkLost();
      }
    }

    /** The round is over when the runner answers. */
    method HealthAsks() returns (exit: Exit)
      requires Here(Health(HealthSettings))
      modifies `log, `failures
      ensures Ends(exit, Health(if owned then HealthPoll else HealthRefresh), Health(HealthStop))
      ensures exit.GoesOn? || exit.Leaves? || exit.Raises?
      ensures if exit.Leaves? then failures == 0 else exit.GoesOn? ==> failures == old(failures)
    {
      exit := Attempt(Health(HealthSettings));
      if exit.Raises? {
        return;
      }
      OnHealth(Settings, Health(HealthStatus));
      var good := Answer();
      failures := if good then 0 else failures;
      OnHealth(Status(good), Health(if good then HealthGood else if owned then HealthPoll else HealthRefresh));
      if good {
        exit := PublishGood();
      }
    }

    method PublishGood() returns (exit: Exit)
      requires Here(Health(HealthGood))
      modifies `log
      ensures Ends(exit, Done, Health(HealthStop)) && (exit.Leaves? || exit.Raises?)
    {
      exit := Attempt(Health(HealthGood));
      if exit.Raises? {
        return;
      }
      OnHealth(Publish(Connected), Health(HealthStop));
      exit := Leaves;
    }

    /** An owned runner that has exited is replaced. */
    method HealthPolls() returns (exit: Exit)
      requires Here(Health(if owned then HealthPoll else HealthRefresh)) && OwnsOne()
      modifies `log, `time, `window, `runner, `processes, `last, `owned
      ensures Ends(exit, Health(HealthRefresh), Health(HealthStop)) && (exit.GoesOn? || exit.Leaves? || exit.Raises?)
      ensures exit.Raises? || OwnsOne()
    {
      if !owned {
        return GoesOn;
      }
      var exited := PollRunner();
      OnHealth(Event.PollRunner(runner.id, exited), if exited then Respawn(Owned, RespawnClock) else Health(HealthRefresh));
      if !exited {
        return GoesOn;
      }
      exit := Replace(Owned);
      if exit.Leaves? {
        exit := ReportRefusal();
      }
    }

    method ReportRefusal() returns (exit: Exit)
      requires Here(Health(HealthBusy))
      modifies `log
      ensures Ends(exit, Done, Health(HealthStop)) && (exit.Leaves? || exit.Raises?)
    {
      exit := Attempt(Health(HealthBusy));
      if exit.Raises? {
        return;
      }
      OnHealth(Publish(Reconnecting), Health(HealthStop));
      exit := Leaves;
    }

    /** A refreshed runtime may still answer; if not, one more failure is counted. */
    method HealthRefreshes() returns (exit: Exit)
      requires Here(Health(HealthRefresh))
      modifies `log, `failures
      ensures Ends(exit, Health(if !owned && failures >= 3 then HealthProbe else HealthReport), Health(HealthStop))
      ensures exit.GoesOn? || exit.Leaves? || exit.Raises?
      ensures if exit.Leaves? then failures == 0 else exit.GoesOn? ==> failures == old(failures) + 1
    {
      exit := Attempt(Health(HealthRefresh));
      if exit.Raises? {
        return;
      }
      var renewed := Answer();
      if renewed {
        OnHealth(Refresh(renewed), Health(SecondStatus));
        exit := HealthAsksAgain();
      } else {
        failures := failures + 1;
        OnHealth(Refresh(renewed), Health(if !owned && failures >= 3 then HealthProbe else HealthReport));
      }
    }

    method HealthAsksAgain() returns (exit: Exit)
      requires Here(Health(SecondStatus))
      modifies `log, `failures
      ensures Ends(exit, Health(if !owned && failures >= 3 then HealthProbe else HealthReport), Health(HealthStop))
      ensures exit.GoesOn? || exit.Leaves? || exit.Raises?
      ensures if exit.Leaves? then failures == 0 else exit.GoesOn? ==> failures == old(failures) + 1
    {
      var good := Answer();
      if good {
        failures := 0;
        OnHealth(Status(good), Health(HealthGood));
        exit := PublishGood();
      } else {
        failures := failures + 1;
        OnHealth(Status(good), Health(if !owned && failures >= 3 then HealthProbe else HealthReport));
        exit := GoesOn;
      }
    }

    /** An unowned runner that has disappeared is replaced, and the new one adopted. */
    method HealthAdopts() returns (exit: Exit)
      requires Here(Health(if !owned && failures >= 3 then HealthProbe else HealthReport)) && OwnsOne()
      modifies `log, `time, `window, `runner, `processes, `last, `owned
      ensures Ends(exit, Health(HealthReport), Done) && (exit.GoesOn? || exit.Raises?)
      ensures exit.Raises? || OwnsOne()
    {
      if owned || failures < 3 {
        return GoesOn;
      }
      exit := Attempt(Health(HealthProbe));
      if exit.Raises? {
        return;
      }
      var absent := Probed();
      OnHealth(Probe(absent), if absent == Some(true) then Respawn(Adopted, RespawnClock) else Health(HealthReport));
      if absent == Some(true) {
        exit := Replace(Adopted);
        if exit.Leaves? {
          exit := GoesOn;
        }
      }
    }

    method HealthReports() returns (exit: Exit)
      requires Here(Health(HealthReport))
      modifies `log
      ensures Ends(exit, Health(HealthStop), Done) && (exit.GoesOn? || exit.Raises?)
    {
      exit := Attempt(Health(HealthReport));
      if exit.Raises? {
        return;
      }
      OnHealth(Publish(if failures >= ATTENTION then NeedsAttention else Reconnecting), Health(HealthStop));
    }

    method HealthRound() returns (exit: Exit)
      requires Here(Health(HealthSettings)) && OwnsOne()
      modifies `log, `failures, `time, `window, `runner, `processes, `last, `owned
      ensures Ends(exit, Health(HealthStop), Health(HealthStop)) && (exit.GoesOn? || exit.Leaves? || exit.Raises?)
      ensures exit.Raises? || OwnsOne()
    {
      exit := HealthAsks();
      if exit.GoesOn? {
        exit := HealthPolls();
      }
      if exit.GoesOn? {
        exit := HealthRefreshes();
      }
      if exit.GoesOn? {
        exit := HealthAdopts();
      }
      if exit.GoesOn? {
        exit := HealthReports();
      }
    }

    method StayConnected(fuel0: nat) returns (exit: Exit, fuel: nat)
      requires Here(Health(HealthStop)) && OwnsOne()
      modifies `log, `stopped, `failures, `time, `window, `runner, `processes, `last, `owned
      ensures Ends(exit, Health(HealthStop), Top(TopStop)) && (exit.Leaves? || exit.Raises? || exit.Killed?)
      ensures fuel <= fuel0 && (exit.Leaves? ==> stopped)
    {
      exit, fuel := GoesOn, fuel0;
      while exit.GoesOn?
        invariant Ends(exit, Health(HealthStop), Top(TopStop)) && !exit.Breaks? && fuel <= fuel0
        invariant exit.GoesOn? ==> OwnsOne()
        invariant exit.Leaves? ==> stopped
        decreases fuel, exit.GoesOn?
      {
        if fuel == 0 {
          exit := Kill();
          return;
        }
        fuel := fuel - 1;
        exit := HealthOpens();
        if exit.GoesOn? {
          exit := HealthRound();
          if exit.Leaves? {
            exit := GoesOn;
          }
        }
      }
    }

    // ---------- The handler, the outer loop and the end ----------

    method Handle()
      requires Here(if window then Fail(Unwind) else Fail(KillRunner))
      modifies `log, `window, `runner, `master, `attempt
      ensures Here(Fail(FailReport))
      ensures !window && runner.NoChild? && master.NoChild? && attempt == old(attempt) + 1
    {
      if window {
        window := false;
        OnFail(Release, Fail(KillRunner));
      }
      Terminates();
    }

    method Terminates()
      requires Here(Fail(KillRunner))
      modifies `log, `runner, `master, `attempt
      ensures Here(Fail(FailReport)) && runner.NoChild? && master.NoChild? && attempt == old(attempt) + 1
    {
      ghost var killed := Reference(runner);
      runner := NoChild;
      OnFail(StopRunner(killed), Fail(KillMaster));
      TerminatesMaster();
    }

    method TerminatesMaster()
      requires Here(Fail(KillMaster))
      modifies `log, `master, `attempt
      ensures Here(Fail(FailReport)) && master.NoChild? && attempt == old(attempt) + 1
    {
      ghost var killed := Reference(master);
      master := NoChild;
      attempt := attempt + 1;
      OnFail(StopMaster(killed), Fail(FailReport));
    }

    method BackOff(fuel0: nat) returns (exit: Exit, fuel: nat)
      requires Here(Fail(FailReport))
      modifies `log, `time, `stopped, `deadline, `window
      ensures Ends(exit, Done, Top(TopStop)) && (exit.Leaves? || exit.Killed?) && fuel <= fuel0
    {
      OnFail(Publish(if attempt >= ATTENTION then NeedsAttention else Reconnecting), Fail(BackoffStamp));
      SetBackoffDeadline();
      exit, fuel := GoesOn, fuel0;
      while exit.GoesOn?
        invariant Ends(exit, Fail(BackoffClock), Top(TopStop)) && (exit.GoesOn? || exit.Leaves?) && fuel <= fuel0
        decreases fuel, exit.GoesOn?
      {
        if fuel == 0 {
          exit := Kill();
          return;
        }
        fuel := fuel - 1;
        exit := BackoffWaits();
      }
    }

    method SetBackoffDeadline()
      requires Here(Fail(BackoffStamp))
      modifies `log, `time, `deadline
      ensures Here(Fail(BackoffClock)) && deadline == time + BACKOFF[BackoffIndex(attempt)]
    {
      var now := Monotonic();
      deadline := now + BACKOFF[BackoffIndex(attempt)];
      OnFail(Clock(now), Fail(BackoffClock));
    }

    /** Left at the deadline or on a stop. */
    method BackoffWaits() returns (exit: Exit)
      requires Here(Fail(BackoffClock))
      modifies `log, `time, `stopped
      ensures Ends(exit, Fail(BackoffClock), Top(TopStop)) && (exit.GoesOn? || exit.Leaves?)
      ensures exit.Leaves? <==> time >= deadline || stopped
    {
      var now := Monotonic();
      OnFail(Clock(now), if now < deadline then Fail(BackoffStop) else Top(TopStop));
      if now >= deadline {
        return Leaves;
      }
      exit := BackoffPauses();
    }

    method BackoffPauses() returns (exit: Exit)
      requires Here(Fail(BackoffStop))
      modifies `log, `stopped
      ensures Ends(exit, Fail(BackoffClock), Top(TopStop)) && exit == if stopped then Leaves else GoesOn
    {
      var stop := ReadStop();
      OnFail(StopRead(stop), if stop then Top(TopStop) else Fail(BackoffPause));
      if stop {
        return Leaves;
      }
      OnFail(Sleep(BackoffInterval), Fail(BackoffClock));
      exit := GoesOn;
    }

    /** The try block; leaving the connected loop by a stop leaves it normally. */
    method Session(fuel0: nat) returns (exit: Exit, fuel: nat)
      requires Here(Link(Validate))
      modifies this
      ensures Ends(exit, Done, Top(TopStop)) && !exit.GoesOn? && fuel <= fuel0
    {
      exit, fuel := Connect(fuel0);
      if exit.GoesOn? {
        exit, fuel := OpenSession(fuel);
        if exit.GoesOn? {
          exit, fuel := AwaitStatus(fuel);
        }
        if exit.Leaves? {
          exit := AnnounceConnected();
          if exit.GoesOn? {
            exit, fuel := StayConnected(fuel);
          }
        }
      }
    }

    method OpenWindow() returns (exit: Exit)
      requires Here(Top(TopStop))
      modifies `log, `stopped, `window
      ensures Ends(exit, Link(Validate), Top(TopStop)) && (exit.GoesOn? || exit.Leaves? || exit.Breaks?)
      ensures exit.GoesOn? ==> window
      ensures exit.Leaves? ==> !window
    {
      var stop := ReadStop();
      OnTop(StopRead(stop), if stop then Halt(HaltRunner) else Top(TopAcquire));
      if stop {
        return Breaks;
      }
      window := Answer();
      OnTop(Acquire(window), if window then Top(TopAnnounce) else Top(TopBusy));
      if window {
        OnTop(Publish(if attempt == 0 then Connecting else Reconnecting), Link(Validate));
        exit := GoesOn;
      } else {
        WaitOutMaintenance();
        exit := Leaves;
      }
    }

    method WaitOutMaintenance()
      requires Here(Top(TopBusy))
      modifies `log
      ensures Here(Top(TopStop))
    {
      OnTop(Publish(Reconnecting), Top(TopPause));
      OnTop(Sleep(MaintenanceInterval), Top(TopStop));
    }

    method Stop()
      requires Here(Halt(HaltRunner))
      modifies `log, `runner, `master
      ensures Here(Done) && log.calls != [] && Latest(log.calls) == Publish(Stopped)
      ensures runner == Ended(old(runner)) && master == Ended(old(master))
    {
      runner := Ended(runner);
      OnHalt(StopRunner(Reference(runner)), Halt(HaltMaster));
      StopTheMaster();
      Finish();
    }

    method Finish()
      requires Here(Halt(if configured && reused then HaltSocket else HaltReport))
      modifies `log
      ensures Here(Done) && log.calls != [] && Latest(log.calls) == Publish(Stopped)
    {
      if configured && reused {
        ExitMaster();
      }
      OnHalt(Publish(Stopped), Done);
    }

    method StopTheMaster()
      requires Here(Halt(HaltMaster))
      modifies `log, `master
      ensures Here(Halt(if configured && reused then HaltSocket else HaltReport)) && master == Ended(old(master))
    {
      master := Ended(master);
      OnHalt(StopMaster(Reference(master)), Halt(if configured && reused then HaltSocket else HaltReport));
    }

    /** A reused master that is still there is asked to exit. */
    method ExitMaster()
      requires Here(Halt(HaltSocket))
      modifies `log
      ensures Here(Halt(HaltReport))
    {
      var live := Answer();
      OnHalt(SocketCheck(live), if live then Halt(HaltControl) else Halt(HaltReport));
      if live {
        OnHalt(ControlExit, Halt(HaltReport));
      }
    }

    /** One round of the outer loop. */
    method Round(fuel0: nat) returns (exit: Exit, fuel: nat)
      requires Here(Top(TopStop))
      modifies this
      ensures Ends(exit, Top(TopStop), Done) && (exit.GoesOn? || exit.Breaks? || exit.Killed?) && fuel <= fuel0
    {
      fuel := fuel0;
      exit := OpenWindow();
      if exit.GoesOn? {
        exit, fuel := Session(fuel);
        if exit.Raises? {
          Handle();
          exit, fuel := BackOff(fuel);
        }
      }
      if exit.Leaves? {
        exit := GoesOn;
      }
    }

    /** Every law of the machine's runs holds of the calls made so far. */
    lemma CallsAreAdmitted()
      requires Traced(log)
      ensures Run(log.calls) == Some(log.now)
      ensures forall i :: 0 <= i < |log.calls| ==> Admits(Observed(log.calls[..i]), log.calls[i])
    {
      LinkedIsRun(log.calls, log.states);
      forall i | 0 <= i < |log.calls|
        ensures Admits(Observed(log.calls[..i]), log.calls[i])
      {
        EveryCallIsAdmitted(log.calls, i);
      }
    }

    /** The outer loop and what follows it. */
    method Serve(fuel0: nat) returns (code: Option<nat>)
      requires Here(Top(TopStop))
      modifies this
      ensures Here(Done) && log.calls != []
      ensures if code == None then Latest(log.calls) == Crash else code == Some(0) && Latest(log.calls) == Publish(Stopped)
    {
      var fuel, exit := fuel0, GoesOn;
      while exit.GoesOn?
        invariant Ends(exit, Top(TopStop), Done) && (exit.GoesOn? || exit.Breaks? || exit.Killed?)
        decreases fuel, exit.GoesOn?
      {
        if fuel == 0 {
          exit := Kill();
        } else {
          exit, fuel := Round(fuel - 1);
        }
      }
      code := None;
      if exit.Breaks? {
        Stop();
        code := Some(0);
      }
    }

    /** The whole invocation: its exit code, or None when it was killed. */
    method Supervise(fuel: nat) returns (code: Option<nat>)
      requires Here(Enter)
      modifies this
      ensures Here(Done) && Run(log.calls) == Some(log.now) && log.calls != []
      ensures code == None <==> Latest(log.calls) == Crash
      ensures code == Some(0) <==> Latest(log.calls) == Publish(Stopped)
      ensures code == Some(2) <==> Latest(log.calls) == Singleton(false)
      ensures forall i :: 0 <= i < |log.calls| ==> Admits(Observed(log.calls[..i]), log.calls[i])
    {
      var granted := Answer();
      Calls(Singleton(granted));
      code := Some(2);
      if granted {
        code := Serve(fuel);
      }
      CallsAreAdmitted();
    }
  }
}
