/**
 The migration as the launcher is written (scripts/developer-build.py, main, confirm_migration_shutdown
 and cancel_known_old_forwards): two files, one mutable journal, and a loop over the forwards.  Every
 call is a step of the machine in Migration, so its laws hold of what the program does; a crash cuts the
 program after any call.
 */
module MigrationProgram {
  import opened Wrappers
  import opened Migration

  /** SystemExit and the exceptions main turns into it stop the program. */
  datatype Exit = GoesOn | Stops

  ghost predicate Linked(events: seq<Event>, states: seq<State>, i: nat)
    requires i < |events| && |states| == |events| + 1
  {
    Step(states[i], events[i]) == Some(states[i + 1])
  }

  lemma {:induction false} LinkedContinues(events: seq<Event>, states: seq<State>)
    requires |states| == |events| + 1
    requires forall i :: 0 <= i < |events| ==> Linked(events, states, i)
    ensures Continue(states[0], events) == Some(states[|events|])
    decreases |events|
  {
    if events != [] {
      assert Linked(events, states, 0);
      forall i | 0 <= i < |events| - 1
        ensures Linked(events[1..], states[1..], i)
      {
        assert Linked(events, states, i + 1);
      }
      LinkedContinues(events[1..], states[1..]);
    }
  }

  function Flag(flags: Flags, f: Forward): bool {
    if f == LocalForward then flags.local else flags.remote
  }

  class Launcher {
    // The files as they are read now.
    var journalFile: Journal
    var ownershipFile: bool
    // The journal as the program holds it.
    var migration: Flags
    ghost const origin: State
    ghost var events: seq<Event>
    ghost var states: seq<State>

    ghost predicate Traced(s: State)
      reads this
    {
      && |states| == |events| + 1 && states[0] == origin && states[|events|] == s
      && forall i :: 0 <= i < |events| ==> Linked(events, states, i)
    }

    /** The calls so far lead from the origin to `s`, and the files and the journal in memory are its. */
    ghost predicate At(s: State)
      reads this
    {
      Behind(s) && migration == s.run.memory
    }

    /** The same just before the program sets a flag in memory. */
    ghost predicate Behind(s: State)
      reads this
    {
      Traced(s) && journalFile == s.disk.journal.seen && ownershipFile == s.disk.owned.seen
    }

    /** A launcher that finds these files. */
    constructor (journal: Journal, owned: bool, ghost s: State)
      requires s.run == NO_RUN && journal == s.disk.journal.seen && owned == s.disk.owned.seen
      ensures At(s) && origin == s
    {
      journalFile, ownershipFile, migration := journal, owned, NO_RUN.memory;
      origin, events, states := s, [], [s];
    }

    method Answer() returns (yes: bool) {
      yes := *;
    }

    method StatusReply() returns (status: Observation) {
      status := *;
    }

    method AbsenceReply() returns (absent: Option<bool>) {
      absent := *;
    }

    // ---------- Calls ----------

    ghost method Calls(s: State, e: Event, r: Run) returns (t: State)
      requires Traced(s) && !e.PowerLoss? && RunNext(s.run, s.disk.journal.seen, s.disk.owned.seen, e) == Some(r)
      modifies `events, `states
      ensures Traced(t) && t.run == r && t.disk == DiskAfter(s.disk, e) && events == old(events) + [e]
    {
      t := State(r, DiskAfter(s.disk, e), NotedAfter(s.disk, s.noted, e));
      ghost var es, ss := events, states;
      events, states := events + [e], states + [t];
      forall i | 0 <= i < |events|
        ensures Linked(events, states, i)
      {
        if i < |es| {
          assert Linked(es, ss, i);
        }
      }
    }

    predicate Reads(e: Event) {
      !e.ReplaceJournal? && !e.Unlink? && !e.ReplaceOwnership? && !e.Flush? && !e.OtherWrite? && !e.PowerLoss?
    }

    /** A call that writes nothing, and leaves the journal in memory alone. */
    ghost method Asks(s: State, e: Event, r: Run) returns (t: State)
      requires At(s) && Reads(e) && RunNext(s.run, s.disk.journal.seen, s.disk.owned.seen, e) == Some(r)
      requires r.memory == s.run.memory
      modifies `events, `states
      ensures At(t) && t.run == r && t.disk == s.disk
    {
      t := Calls(s, e, r);
    }

    /** The program ends: what is on disk stays. */
    method Leaves(ghost s: State, ghost e: Event) returns (ghost t: State)
      requires Behind(s) && Reads(e) && RunNext(s.run, s.disk.journal.seen, s.disk.owned.seen, e) == Some(NO_RUN)
      modifies `events, `states
      ensures Behind(t) && t.run == NO_RUN && t.disk == s.disk
    {
      t := Calls(s, e, NO_RUN);
    }

    /** save_migration: a rename, then the directory. */
    method Save(ghost s: State, ghost goal: Goal) returns (ghost t: State)
      requires At(s) && s.run.pc == SaveJournal(goal)
      modifies `events, `states, `journalFile
      ensures Behind(t) && t.run == Migration.After(goal, s.run) && old(events) <= events
      ensures t.disk == Disk(Settled(Some(s.run.memory)), Settled(s.disk.owned.seen))
    {
      t := Calls(s, ReplaceJournal(migration), s.run.(pc := FlushJournal(goal)));
      journalFile := Some(migration);
      t := Calls(t, Flush, Migration.After(goal, s.run));
    }

    // ---------- confirm_migration_shutdown ----------

    /** Status is read again before the shutdown is asked for. */
    method RequestShutdown(ghost s: State) returns (exit: Exit, ghost t: State)
      requires At(s) && s.run.pc == Recheck
      modifies `events, `states
      ensures Behind(t) && t.run == if exit == Stops then NO_RUN else ShutDown(s.run)
      ensures t.disk == s.disk
    {
      var status := StatusReply();
      if status == Unavailable || status == Busy {
        t := Leaves(s, Observe(status));
        return Stops, t;
      }
      t := Asks(s, Observe(status), s.run.(pc := AskShutdown));
      var acknowledged := Answer();
      if !acknowledged {
        t := Leaves(t, ShutdownAck(false));
        return Stops, t;
      }
      t := Calls(t, ShutdownAck(true), ShutDown(t.run));
      exit := GoesOn;
    }

    method ConfirmAbsence(ghost s: State) returns (exit: Exit, ghost t: State)
      requires At(s) && s.run.pc == AskRunner
      modifies `events, `states
      ensures Behind(t) && t.run == if exit == Stops then NO_RUN else ShutDown(s.run)
      ensures t.disk == s.disk
    {
      var absent := AbsenceReply();
      if absent != Some(true) {
        t := Leaves(s, OldRunnerAbsent(absent));
        return Stops, t;
      }
      t := Calls(s, OldRunnerAbsent(absent), ShutDown(s.run));
      exit := GoesOn;
    }

    method RequestOrAbsence(ghost s: State) returns (exit: Exit, ghost t: State)
      requires At(s) && s.run.pc == Confirm
      modifies `events, `states
      ensures Behind(t) && t.run == if exit == Stops then NO_RUN else ShutDown(s.run)
      ensures t.disk == s.disk
    {
      var current := StatusReply();
      t := Asks(s, Observe(current), s.run.(pc := if current == Unavailable then AskRunner else Recheck));
      if current == Unavailable {
        exit, t := ConfirmAbsence(t);
      } else {
        exit, t := RequestShutdown(t);
      }
    }

    method ConfirmShutdown(ghost s: State) returns (exit: Exit, ghost t: State)
      requires At(s) && s.run == EnterConfirm(s.run)
      modifies this
      ensures Behind(t) && t.run == if exit == Stops then NO_RUN else EnterLocal(t.run)
      ensures exit == GoesOn ==> At(t) && migration == s.run.memory.(shutdown := true)
      ensures if exit == Stops || s.run.memory.shutdown then t.disk == s.disk
              else t.disk == Disk(Settled(Some(migration)), Settled(s.disk.owned.seen))
    {
      exit, t := GoesOn, s;
      if migration.shutdown {
        return;
      }
      exit, t := RequestOrAbsence(t);
      if exit == GoesOn {
        migration := migration.(shutdown := true);
        t := Save(t, ToLocal);
      }
    }

    // ---------- cancel_known_old_forwards ----------

    /** Cancelled, or at least gone; otherwise the journal is saved as it was. */
    method ReleaseForward(ghost s: State, f: Forward) returns (exit: Exit, ghost t: State)
      requires At(s) && s.run.pc == Pc.CancelForward(f)
      modifies `events, `states, `journalFile
      ensures Behind(t) && t.run == if exit == Stops then NO_RUN else Detached(s.run, f)
      ensures t.disk == if exit == Stops then Disk(Settled(Some(migration)), Settled(s.disk.owned.seen)) else s.disk
    {
      exit, t := GoesOn, s;
      var released := Answer();
      if released {
        t := Calls(t, Cancel(f, true), Detached(t.run, f));
        return;
      }
      t := Asks(t, Cancel(f, false), t.run.(pc := CheckReleased(f)));
      var absent := Answer();
      if absent {
        t := Calls(t, Absent(f, true), Detached(t.run, f));
        return;
      }
      t := Calls(t, Absent(f, false), t.run.(pc := SaveJournal(ToExit)));
      t := Save(t, ToExit);
      exit := Stops;
    }

    /** One pass of the loop over the forwards. */
    method DetachForward(ghost s: State, f: Forward) returns (exit: Exit, ghost t: State)
      requires At(s) && s.run == if f == LocalForward then EnterLocal(s.run) else EnterRemote(s.run)
      modifies this
      ensures Behind(t)
      ensures exit == GoesOn ==>
        && At(t) && migration == (if f == LocalForward then s.run.memory.(local := true) else s.run.memory.(remote := true))
        && t.run == if f == LocalForward then EnterRemote(t.run) else t.run.(pc := VerifyLocal)
      ensures exit == Stops ==> t.run == NO_RUN && t.disk == Disk(Settled(Some(s.run.memory)), Settled(s.disk.owned.seen))
      ensures exit == GoesOn && !Flag(s.run.memory, f) ==> t.disk == Disk(Settled(Some(migration)), Settled(s.disk.owned.seen))
      ensures exit == GoesOn && Flag(s.run.memory, f) ==> t.disk == s.disk
    {
      exit, t := GoesOn, s;
      if Flag(migration, f) {
        return;
      }
      exit, t := ReleaseForward(t, f);
      if exit == Stops {
        return;
      }
      if f == LocalForward {
        migration := migration.(local := true);
        t := Save(t, ToRemote);
      } else {
        migration := migration.(remote := true);
        t := Save(t, ToVerify);
      }
    }

    method CancelKnownOldForwards(ghost s: State) returns (exit: Exit, ghost t: State)
      requires At(s) && s.run == EnterLocal(s.run)
      modifies this
      ensures Behind(t)
      ensures exit == GoesOn ==> At(t) && t.run.pc == Pc.RecordOwnership && migration == s.run.memory.(local := true, remote := true)
      ensures exit == Stops ==> t.run == NO_RUN && (s.disk.journal.seen.Some? ==> journalFile.Some?)
      ensures exit == GoesOn && Settled(Some(s.run.memory)) == s.disk.journal ==> t.disk.journal == Settled(Some(migration))
    {
      exit, t := GoesOn, s;
      var forwards := [LocalForward, RemoteForward];
      for i := 0 to |forwards|
        invariant At(t) && exit == GoesOn && (s.disk.journal.seen.Some? ==> journalFile.Some?)
        invariant t.run == if i == 0 then EnterLocal(t.run) else if i == 1 then EnterRemote(t.run) else t.run.(pc := VerifyLocal)
        invariant migration == s.run.memory.(local := i > 0 || s.run.memory.local, remote := i > 1 || s.run.memory.remote)
        invariant Settled(Some(s.run.memory)) == s.disk.journal ==> t.disk.journal == Settled(Some(migration))
      {
        exit, t := DetachForward(t, forwards[i]);
        if exit == Stops {
          return;
        }
      }
      exit, t := VerifyForwards(t);
    }

    method VerifyForwards(ghost s: State) returns (exit: Exit, ghost t: State)
      requires At(s) && s.run.pc == VerifyLocal
      modifies `events, `states
      ensures Behind(t) && t.run == (if exit == Stops then NO_RUN else s.run.(pc := Pc.RecordOwnership)) && t.disk == s.disk
    {
      var local := Answer();
      if !local {
        t := Leaves(s, Absent(LocalForward, false));
        return Stops, t;
      }
      t := Asks(s, Absent(LocalForward, true), s.run.(pc := VerifyRemote));
      var remote := Answer();
      if !remote {
        t := Leaves(t, Absent(RemoteForward, false));
        return Stops, t;
      }
      t := Asks(t, Absent(RemoteForward, true), t.run.(pc := Pc.RecordOwnership));
      exit := GoesOn;
    }

    // ---------- main ----------

    /** Up to reading the journal; unresolved GitHub work and bad settings stop it. */
    method LookAround(ghost s: State, session: nat) returns (exit: Exit, loaded: bool, observed: Observation, ghost t: State)
      requires Behind(s) && s.run == NO_RUN
      modifies `events, `states
      ensures Behind(t) && t.disk == s.disk
      ensures t.run == if exit == Stops then NO_RUN else Run(LoadJournal, session, loaded, observed, NO_RUN.memory)
    {
      exit, loaded := GoesOn, false;
      t := Calls(s, Start(session), NO_RUN.(pc := AskService, session := session));
      var refused := Answer();
      if refused {
        t := Leaves(t, Event.Exit);
        return Stops, loaded, Unavailable, t;
      }
      loaded := Answer();
      t := Calls(t, ServiceLoaded(loaded), t.run.(loaded := loaded, pc := AskStatus));
      observed := StatusReply();
      t := Calls(t, Observe(observed), t.run.(observed := observed, pc := LoadJournal));
      refused := Answer();
      if refused {
        t := Leaves(t, Event.Exit);
        exit := Stops;
      }
    }

    /** legacy_migration_candidate and what main makes of it: whether a migration begins. */
    method Decide(ghost s: State, observed: Observation) returns (exit: Exit, migrates: bool, ghost t: State)
      requires Behind(s) && s.run.pc == AskSocket && s.run.observed == observed
      modifies `events, `states
      ensures Behind(t) && t.disk == s.disk
      ensures t.run == if exit == Stops then NO_RUN else if migrates then Begin(s.run) else s.run.(pc := Provision)
      ensures migrates ==> observed == Ready && events == old(events) + [OldSocket(true)]
    {
      exit, migrates := GoesOn, false;
      var live := Answer();
      if !live {
        t := Calls(s, OldSocket(false), s.run.(pc := Provision));
      } else if observed == Unavailable {
        t := Calls(s, OldSocket(true), s.run.(pc := AskToken));
        var saved := Answer();
        exit := if saved then Stops else GoesOn;
        t := Calls(t, TokenSaved(saved), if saved then NO_RUN else t.run.(pc := Provision));
      } else if observed == Ready {
        t := Calls(s, OldSocket(true), Begin(s.run));
        migrates := true;
      } else {
        t := Leaves(s, OldSocket(true));
        exit := Stops;
      }
    }

    /** A journal found, or begun now if a legacy connection is there to migrate. */
    method FindOrBegin(ghost s: State, session: nat, loaded: bool, observed: Observation)
        returns (exit: Exit, migrates: bool, ghost t: State)
      requires Behind(s) && s.run == Run(LoadJournal, session, loaded, observed, NO_RUN.memory)
      modifies this
      ensures Behind(t) && (exit == Stops ==> t.run == NO_RUN)
      ensures exit == GoesOn ==> if migrates then At(t) && t.run == EnterConfirm(t.run) else t.run.pc == Provision
      ensures exit == GoesOn ==> (migrates <==> journalFile.Some?)
      ensures s.disk.journal.seen.Some? ==> t.disk == s.disk && (exit == Stops <==> journalFile.value.session != session)
      ensures exit == GoesOn && migrates && s.disk.journal.seen.None? ==>
        !loaded && !s.disk.owned.seen && observed == Ready && OldSocket(true) in events
    {
      if journalFile.Some? {
        if journalFile.value.session != session {
          t := Leaves(s, Load);
          return Stops, false, t;
        }
        migration := journalFile.value;
        t := Calls(s, Load, EnterConfirm(s.run.(memory := migration)));
        return GoesOn, true, t;
      }
      if loaded || ownershipFile {
        t := Calls(s, Load, s.run.(pc := Provision));
        return GoesOn, false, t;
      }
      t := Calls(s, Load, s.run.(pc := AskSocket));
      exit, migrates, t := Decide(t, observed);
      if exit == GoesOn && migrates {
        ghost var asked := |events| - 1;
        migration := Flags(session, false, false, false);
        t := Save(t, ToConfirm);
        assert events[asked] == OldSocket(true);
      }
    }

    /** Ownership is recorded and flushed before the journal goes. */
    method Complete(ghost s: State) returns (ghost t: State)
      requires At(s) && s.run.pc == Pc.RecordOwnership
      modifies `events, `states, `ownershipFile, `journalFile
      ensures Behind(t) && t.run.pc == Provision && journalFile == None && ownershipFile
      ensures t.disk == Disk(Replaced(Settled(s.disk.journal.seen), None), Settled(true))
    {
      t := Calls(s, ReplaceOwnership, s.run.(pc := FlushOwnership));
      ownershipFile := true;
      t := Calls(t, Flush, t.run.(pc := RemoveJournal));
      t := Calls(t, Event.Unlink, t.run.(pc := Provision));
      journalFile := None;
    }

    /** The migration, if there is one.  When it stops, a journal that was there is still there. */
    method Migrate(ghost s: State, session: nat) returns (exit: Exit, ghost t: State)
      requires Behind(s) && s.run == NO_RUN
      modifies this
      ensures Behind(t) && if exit == Stops then t.run == NO_RUN else t.run.pc == Provision
      ensures exit == GoesOn ==> journalFile == None && (old(journalFile).Some? ==> ownershipFile)
      ensures exit == Stops ==> (old(journalFile).Some? ==> journalFile.Some?)
    {
      var loaded, observed;
      exit, loaded, observed, t := LookAround(s, session);
      if exit == Stops {
        return;
      }
      var migrates;
      exit, migrates, t := FindOrBegin(t, session, loaded, observed);
      if exit == Stops || !migrates {
        return;
      }
      exit, t := ConfirmShutdown(t);
      if exit == GoesOn {
        exit, t := CancelKnownOldForwards(t);
        if exit == GoesOn {
          t := Complete(t);
        }
      }
    }

    /** The rest of main as far as it touches the directory; it may stop anywhere. */
    method Install(ghost s: State) returns (exit: Exit, ghost t: State)
      requires Behind(s) && s.run.pc == Provision
      modifies `events, `states, `ownershipFile
      ensures Behind(t) && t.run == NO_RUN && (exit == GoesOn ==> ownershipFile)
    {
      var stops := Answer();
      if stops {
        t := Leaves(s, Event.Exit);
        return Stops, t;
      }
      // connection.json
      t := Calls(s, Flush, s.run.(pc := Installing));
      exit, t := WriteOthers(t);
      if exit == GoesOn {
        t := Calls(t, Event.Install, t.run.(pc := RecordInstalled));
        t := RecordOwnership(t);
      }
    }

    /** runtime.json, and the supervisor's own source. */
    method WriteOthers(ghost s: State) returns (exit: Exit, ghost t: State)
      requires Behind(s) && s.run.pc == Installing
      modifies `events, `states
      ensures Behind(t) && t.run == if exit == Stops then NO_RUN else s.run
    {
      t := Calls(s, OtherWrite, s.run);
      var stops := Answer();
      if stops {
        t := Leaves(t, Event.Exit);
        return Stops, t;
      }
      t := Calls(t, OtherWrite, t.run);
      exit := GoesOn;
    }

    method RecordOwnership(ghost s: State) returns (ghost t: State)
      requires Behind(s) && s.run.pc == RecordInstalled
      modifies `events, `states, `ownershipFile
      ensures Behind(t) && t.run == NO_RUN && ownershipFile
    {
      t := Calls(s, ReplaceOwnership, s.run.(pc := FlushInstalled));
      ownershipFile := true;
      t := Calls(t, Flush, NO_RUN);
    }

    /** The whole program.  From any disk that earlier runs, crashes and power losses have left, every
        call it makes is one the laws admit. */
    method Launch(ghost s: State, session: nat) returns (exit: Exit, ghost t: State)
      requires Behind(s) && s.run == NO_RUN && Reachable(origin)
      modifies this
      ensures Behind(t) && t.run == NO_RUN && Continue(origin, events) == Some(t)
      ensures exit == GoesOn ==> journalFile == None && ownershipFile
      ensures forall i :: 0 <= i < |events| ==> Admits(states[i].disk, states[i].noted, events[i])
    {
      exit, t := Migrate(s, session);
      if exit == GoesOn {
        exit, t := Install(t);
      }
      CallsAreAdmitted(t);
    }

    lemma CallsAreAdmitted(t: State)
      requires Traced(t) && Reachable(origin)
      ensures Continue(origin, events) == Some(t)
      ensures forall i :: 0 <= i < |events| ==> Admits(states[i].disk, states[i].noted, events[i])
    {
      LinkedContinues(events, states);
      AllReachable(events, states);
      forall i | 0 <= i < |events|
        ensures Admits(states[i].disk, states[i].noted, events[i])
      {
        assert Linked(events, states, i);
        EveryEventIsAdmitted(states[i], events[i]);
      }
    }
  }

  lemma {:induction false} AllReachable(events: seq<Event>, states: seq<State>)
    requires |states| == |events| + 1 && Reachable(states[0])
    requires forall i :: 0 <= i < |events| ==> Linked(events, states, i)
    ensures forall i :: 0 <= i < |states| ==> Reachable(states[i])
    decreases |events|
  {
    if events != [] {
      assert Linked(events, states, 0);
      var next := Go(states[0], events[0]);
      forall i | 0 <= i < |events| - 1
        ensures Linked(events[1..], states[1..], i)
      {
        assert Linked(events, states, i + 1);
      }
      AllReachable(events[1..], states[1..]);
      assert forall i :: 1 <= i < |states| ==> states[i] == states[1..][i - 1];
    }
  }
}
