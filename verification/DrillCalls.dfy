/**
 * One whole call of Run or Cleanup: the transition system driven to its end, with the
 * outside answering each interaction and moving in between as it likes.
 */
module DrillCalls {
  import opened Prelude
  import opened Drill
  import opened DrillMarkers
  import opened DrillApprovals

  /**
   * What the outside does at one interaction: its own moves first, then how the
   * operation, the save, the approval or the preflight turns out.
   */
  datatype Turn = Turn(moves: seq<Action>, choice: Choice, save: Fault, grant: bool, prepared: Option<Prepared>)

  /** Any behaviour of the outside during a call; it may react to what it sees. */
  type Environment = (nat, Sys) -> Turn

  /** Actions nobody in the call takes. */
  predicate Outside(a: Action) {
    a.Tick? || a.ForeignCommit? || a.Progress? || a.FinishDelete? || a.OutsideSet? || a.OutsideRemove?
  }

  /** The moves made, one after another; a move that cannot happen is skipped. */
  function Elapse(sys: Sys, moves: seq<Action>): (after: Sys)
    ensures after.e == sys.e && after.w.persisted == sys.w.persisted
    decreases |moves|
  {
    if moves == [] then sys
    else if Outside(moves[0]) && Step(sys, moves[0]).Some? then Elapse(Step(sys, moves[0]).value, moves[1..])
    else Elapse(sys, moves[1..])
  }

  /** What the call does next. */
  function NextAction(sys: Sys, t: Turn): Action {
    match sys.e
    case Preparing =>
      if t.prepared.Some?
         && forall i :: 0 <= i < |sys.w.log| ==> !TouchesDrill(sys.w.log[i].tx, t.prepared.value.drillId)
      then Prepare(t.prepared.value) else GiveUp
    case RestoreGate(_) => if t.grant then Approve else GiveUp
    case CleanupGate(_) => if t.grant then Approve else GiveUp
    case Preflight(s) => if t.grant && CleanupPrepared(sys.w, s) then PreflightDone else GiveUp
    case Loop(_, _, _) => Operate(t.choice)
    case ReadingTime(_) => Operate(t.choice)
    case _ => Save(t.save)
  }

  /** How far a call still is from its end, at most. */
  function Remaining(e: Engine): nat {
    match e
    case Idle => 0
    case Failing(_) => 1
    case Stamping(_) => 2
    case Saving(s, _, _) => 4 * (12 - Rank(s.phase)) + 3
    case Loop(s, _, _) => 4 * (12 - Rank(s.phase)) + 2
    case ReadingTime(_) => 48
    case Entering(_) => 60
    case RestoreGate(_) => 60
    case CleanupGate(_) => 61
    case Preflight(_) => 62
    case Creating(_) => 61
    case Preparing => 62
  }

  /** In every engine position the call can go on, and each step brings it nearer to its end. */
  lemma StepLowers(sys: Sys, t: Turn)
    requires !sys.e.Idle?
    ensures Step(sys, NextAction(sys, t)).Some?
    ensures Remaining(Step(sys, NextAction(sys, t)).value.e) < Remaining(sys.e)
  {
    hide RunOperation, CleanupOperation, CleanupPrepared, ReadTime, ValidPrepared;
  }

  /** The call's next step. */
  function Moved(sys: Sys, t: Turn): (next: Sys)
    requires !sys.e.Idle?
    ensures Step(sys, NextAction(sys, t)) == Some(next) && Remaining(next.e) < Remaining(sys.e)
  {
    StepLowers(sys, t);
    Step(sys, NextAction(sys, t)).value
  }

  /** One interaction: the outside moves, then the call's next step. */
  function Turned(sys: Sys, t: Turn): (next: Sys)
    requires !sys.e.Idle?
    ensures Remaining(next.e) < Remaining(sys.e)
  {
    Moved(Elapse(sys, t.moves), t)
  }

  /** The position from which the call returns without an error. */
  predicate Returns(e: Engine, t: Turn) {
    || (e.Loop? && e.call == RunCall && e.s.phase == CleanupPending)
    || (e.Stamping? && SaveSucceeds(e.s, t.save))
  }

  datatype End = End(w: World, ok: bool)

  /** The rest of a call. */
  ghost function Drive(sys: Sys, env: Environment, n: nat): End
    requires !sys.e.Idle?
    decreases Remaining(sys.e)
  {
    var t := env(n, sys);
    var next := Turned(sys, t);
    if next.e.Idle? then End(next.w, Returns(sys.e, t)) else Drive(next, env, n + 1)
  }

  ghost function RunEnd(w: World, env: Environment): End {
    var started := Step(Sys(w, Idle), BeginRun).value;
    if started.e.Idle? then End(started.w, true) else Drive(started, env, 0)
  }

  /** Without a state file there is nothing to load, and the call fails at once. */
  ghost function CleanupEnd(w: World, env: Environment): End {
    if w.persisted.None? then End(w, false)
    else
      var started := Step(Sys(w, Idle), BeginCleanup).value;
      if started.e.Idle? then End(started.w, true) else Drive(started, env, 0)
  }

  /** A phase's operation, with the read of the clock after the first marker, and the turn at which it is saved. */
  ghost function Attempt(sys: Sys, env: Environment, n: nat): (Outcome, nat)
    requires sys.e.Loop?
  {
    var s, t := sys.e.s, env(n, sys);
    var here := Elapse(sys, t.moves).w;
    var o := if sys.e.call == RunCall then RunOperation(here, s, t.choice) else CleanupOperation(here, s, t.choice);
    if sys.e.call == RunCall && s.phase == Initialized && o.Done? then
      var reading := Sys(o.w, ReadingTime(s));
      var u := env(n + 1, reading);
      (ReadTime(Elapse(reading, u.moves).w, s, u.choice), n + 2)
    else (o, n + 1)
  }

  /** The phase's operation is done and the save of the next phase succeeds. */
  ghost predicate Lands(sys: Sys, env: Environment, n: nat)
    requires sys.e.Loop?
  {
    var (o, m) := Attempt(sys, env, n);
    && o.Done?
    && var s' := o.s.(phase := Following(sys.e.s.phase));
       SaveSucceeds(s', env(m, Sys(o.w, Saving(s', sys.e.call, sys.e.approved))).save)
  }

  lemma DriveStep(sys: Sys, env: Environment, n: nat)
    requires !sys.e.Idle?
    ensures var next := Turned(sys, env(n, sys));
            Drive(sys, env, n) ==
            if next.e.Idle? then End(next.w, Returns(sys.e, env(n, sys))) else Drive(next, env, n + 1)
  {
  }

  /** A loop iteration is its phase's attempt, then the save or the failure. */
  lemma AttemptStep(sys: Sys, env: Environment, n: nat)
    requires sys.e.Loop? && if sys.e.call == RunCall then Rank(sys.e.s.phase) <= 6 else CleanupStarted(sys.e.s.phase)
    requires sys.e.call == RunCall && NeedsRestoreApproval(sys.e.s.phase) ==> sys.e.approved
    ensures var (o, m) := Attempt(sys, env, n);
            var e := sys.e;
            Drive(sys, env, n) == Drive(Advance(o, e.s, Following(e.s.phase), e.call, e.approved), env, m)
  {
    hide Drive, Elapse, RunOperation, CleanupOperation, ReadTime;
    DriveStep(sys, env, n);
    var here := Elapse(sys, env(n, sys).moves).w;
    if sys.e.call == RunCall && sys.e.s.phase == Initialized {
      var o := RunOperation(here, sys.e.s, env(n, sys).choice);
      if o.Done? {
        DriveStep(Sys(o.w, ReadingTime(sys.e.s)), env, n + 1);
      }
    }
  }

  // ------------------------------------------------------------------------
  // Calls are runs of the transition system

  lemma {:induction false} ExecCons(sys: Sys, a: Action, acts: seq<Action>)
    requires Step(sys, a).Some?
    ensures Exec(sys, [a] + acts) == Exec(Step(sys, a).value, acts)
  {
    hide Step;
    if acts == [] {
      assert [a] + acts == [a] && [a][..0] == [];
    } else {
      var all, n := [a] + acts, |acts| - 1;
      assert all[..n + 1] == [a] + acts[..n];
      ExecCons(sys, a, acts[..n]);
    }
  }

  lemma {:induction false} ElapseIsExec(sys: Sys, moves: seq<Action>, rest: seq<Action>) returns (acts: seq<Action>)
    ensures Exec(sys, acts) == Exec(Elapse(sys, moves), rest)
    decreases |moves|
  {
    hide Step, Exec;
    if moves == [] {
      acts := rest;
    } else if Outside(moves[0]) && Step(sys, moves[0]).Some? {
      var tail := ElapseIsExec(Step(sys, moves[0]).value, moves[1..], rest);
      ExecCons(sys, moves[0], tail);
      acts := [moves[0]] + tail;
    } else {
      acts := ElapseIsExec(sys, moves[1..], rest);
    }
  }

  /** However the outside behaves, the rest of a call is a run of the transition system that ends idle. */
  lemma {:induction false} DriveIsExec(sys: Sys, env: Environment, n: nat) returns (acts: seq<Action>)
    requires !sys.e.Idle?
    ensures Exec(sys, acts) == Some(Sys(Drive(sys, env, n).w, Idle))
    decreases Remaining(sys.e)
  {
    hide Step, NextAction, Exec, Elapse;
    var t := env(n, sys);
    var here, next := Elapse(sys, t.moves), Turned(sys, t);
    StepLowers(here, t);
    var rest: seq<Action> := [];
    if next.e.Idle? {
      NoActions(next);
    } else {
      rest := DriveIsExec(next, env, n + 1);
    }
    ExecCons(here, NextAction(here, t), rest);
    acts := ElapseIsExec(sys, t.moves, [NextAction(here, t)] + rest);
  }

  lemma NoActions(sys: Sys)
    ensures Exec(sys, []) == Some(sys)
  {
  }

  /** Every Run is a run of the transition system. */
  lemma RunIsExec(w: World, env: Environment) returns (acts: seq<Action>)
    ensures Exec(Sys(w, Idle), acts) == Some(Sys(RunEnd(w, env).w, Idle))
  {
    hide Step, Exec, Drive;
    var started := Begun(w, BeginRun);
    var rest: seq<Action> := [];
    if started.e.Idle? {
      NoActions(started);
    } else {
      rest := DriveIsExec(started, env, 0);
    }
    ExecCons(Sys(w, Idle), BeginRun, rest);
    acts := [BeginRun] + rest;
  }

  /** Every Cleanup is a run of the transition system. */
  lemma CleanupIsExec(w: World, env: Environment) returns (acts: seq<Action>)
    ensures Exec(Sys(w, Idle), acts) == Some(Sys(CleanupEnd(w, env).w, Idle))
  {
    hide Step, Exec, Drive;
    if w.persisted.None? {
      NoActions(Sys(w, Idle));
      return [];
    }
    var started := Begun(w, BeginCleanup);
    var rest: seq<Action> := [];
    if started.e.Idle? {
      NoActions(started);
    } else {
      rest := DriveIsExec(started, env, 0);
    }
    ExecCons(Sys(w, Idle), BeginCleanup, rest);
    acts := [BeginCleanup] + rest;
  }

  lemma Begun(w: World, a: Action) returns (started: Sys)
    requires a == BeginRun || (a == BeginCleanup && w.persisted.Some?)
    ensures Step(Sys(w, Idle), a) == Some(started)
  {
    started := Step(Sys(w, Idle), a).value;
  }

  /** A call keeps what every run keeps about markers and approvals. */
  lemma CallsKeep(w: World, env: Environment)
    requires MarkerInv(Sys(w, Idle)) && GateInv(Sys(w, Idle))
    ensures MarkerInv(Sys(RunEnd(w, env).w, Idle)) && GateInv(Sys(RunEnd(w, env).w, Idle))
    ensures MarkerInv(Sys(CleanupEnd(w, env).w, Idle)) && GateInv(Sys(CleanupEnd(w, env).w, Idle))
  {
    hide MarkerInv, GateInv, Exec, RunEnd, CleanupEnd;
    var run := RunIsExec(w, env);
    GateExecKeeps(Sys(w, Idle), run);
    var cleanup := CleanupIsExec(w, env);
    GateExecKeeps(Sys(w, Idle), cleanup);
  }
}
