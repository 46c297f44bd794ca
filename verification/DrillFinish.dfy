/** Wherever a drill was interrupted, every Cleanup that the outside lets through removes all of it. */
module DrillFinish {
  import opened Prelude
  import opened Markers
  import opened Drill
  import opened DrillMarkers
  import opened DrillApprovals
  import opened DrillTarget
  import opened DrillCalls
  import opened DrillResume
  import opened DrillCleanup

  // ------------------------------------------------------------------------
  // What the outside must do

  /** The configuration is the drill's, and a target in place can be named. */
  predicate Reachable(w: World, s: State) {
    && s.prep.account == w.account && s.prep.region == w.region
    && (s.prep.targetId in w.rds ==> w.rds[s.prep.targetId].arn != "")
  }

  /** The final inventory: the source as prepared, and nothing else tagged for this drill. */
  predicate Spotless(w: World, s: State) {
    && SourceChecked(w, s.prep)
    && forall id :: id in w.rds && id != s.prep.targetId ==>
         !(TaggedDrill(w.rds[id]) && Tag(w.rds[id].tags, "DrillID") == s.prep.drillId)
  }

  /** The answers an operation of Cleanup needs in each phase. */
  predicate ServesCleanup(w: World, s: State, c: Choice) {
    match s.phase
    case TargetDeleteRequested => s.prep.targetId !in w.rds
    case SourceMarkerCleaned => c.checks && ValidWindow(c.window) && Spotless(w, s)
    case _ => true
  }

  /** At this interaction nothing fails, and the outside leaves the target alone but to finish deleting it. */
  ghost predicate HelpsCleanup(sys: Sys, t: Turn) {
    var here := Elapse(sys, t.moves);
    && CalmMoves(sys, t.moves)
    && t.save == NoFault && t.choice.fault == NoFault && t.grant
    && (sys.e.Preflight? || (sys.e.Loop? && sys.e.s.phase == CleanupPending) ==> Reachable(here.w, sys.e.s))
    && (sys.e.Loop? ==> ServesCleanup(here.w, sys.e.s, t.choice))
  }

  ghost predicate CleanupHelped(sys: Sys, env: Environment, n: nat)
    requires !sys.e.Idle?
    decreases Remaining(sys.e)
  {
    var t := env(n, sys);
    HelpsCleanup(sys, t) && (Turned(sys, t).e.Idle? || CleanupHelped(Turned(sys, t), env, n + 1))
  }

  // ------------------------------------------------------------------------
  // On course

  /** A call of Cleanup that can still finish. */
  ghost predicate Finishing(sys: Sys) {
    && DrillInv(sys) && GoneInv(sys)
    && (InMemory(sys.e).Some? ==> ValidState(sys.e.s))
    && match sys.e
       case Preflight(s) => s.phase != Cleaned
       case CleanupGate(s) => s.phase == CleanupPending || !CleanupStarted(s.phase)
       case Entering(s) => s.phase == CleanupPending
       case Loop(s, call, _) => call == CleanupCall && CleanupStarted(s.phase)
       case Saving(s, call, _) => call == CleanupCall && Rank(s.phase) >= 8
       case Stamping(s) => s.phase == Cleaned
       case _ => false
  }

  lemma {:induction false} MovesKeepGone(sys: Sys, moves: seq<Action>)
    requires DrillInv(sys) && GoneInv(sys) && CalmMoves(sys, moves)
    ensures DrillInv(Elapse(sys, moves)) && GoneInv(Elapse(sys, moves))
    decreases |moves|
  {
    hide MarkerInv, GateInv, TargetInv, GoneInv, Calm, Step;
    if moves != [] {
      if Outside(moves[0]) && Step(sys, moves[0]).Some? {
        StepDrillKeeps(sys, moves[0]);
        StepKeepsGone(sys, moves[0]);
        MovesKeepGone(Step(sys, moves[0]).value, moves[1..]);
      } else {
        MovesKeepGone(sys, moves[1..]);
      }
    }
  }

  lemma StepKeepsBoth(sys: Sys, a: Action)
    requires DrillInv(sys) && GoneInv(sys) && Step(sys, a).Some? && Calm(sys, a)
    ensures DrillInv(Step(sys, a).value) && GoneInv(Step(sys, a).value)
  {
    hide MarkerInv, GateInv, TargetInv, GoneInv, Calm, Step;
    StepDrillKeeps(sys, a);
    StepKeepsGone(sys, a);
  }

  /** The drill's own target always passes the checks before its deletion. */
  lemma OursMayGo(w: World, s: State)
    requires ValidState(s) && TargetFacts(w, s) && Reachable(w, s)
    ensures CleanupPrepared(w, s)
  {
    hide SnapshotAt, ImmutableImage, HexDigest, Deleted;
    assert SameIdentity(s.prep);
  }

  /** What validation of a state says about its identity. */
  predicate SameIdentity(p: Prepared) {
    p.sourceId != "" && p.targetId != "" && p.sourceId != p.targetId
  }

  lemma FactsHere(sys: Sys)
    requires DrillInv(sys) && (sys.e.Preflight? || sys.e.Loop?)
    ensures TargetFacts(sys.w, sys.e.s)
  {
    hide LogInv, MarkerFacts, ValidPrepared, GateInv, TargetFacts, CreatedOnce;
  }

  lemma AbsentHere(sys: Sys)
    requires DrillInv(sys) && GoneInv(sys) && sys.e.Loop? && Rank(sys.e.s.phase) >= 9
    ensures sys.e.s.prep.targetId !in sys.w.rds
  {
    hide LogInv, MarkerFacts, ValidPrepared, GateInv, TargetInv, NoRows;
  }

  /** In every phase of Cleanup, the operation succeeds when the outside serves it. */
  lemma CleanupSucceeds(sys: Sys, c: Choice)
    requires DrillInv(sys) && GoneInv(sys) && sys.e.Loop? && CleanupStarted(sys.e.s.phase) && ValidState(sys.e.s)
    requires ServesCleanup(sys.w, sys.e.s, c) && c.fault == NoFault
    requires sys.e.s.phase == CleanupPending ==> Reachable(sys.w, sys.e.s)
    ensures CleanupOperation(sys.w, sys.e.s, c).Done?
    ensures CleanupOperation(sys.w, sys.e.s, c).s == sys.e.s
  {
    hide DrillInv, GoneInv, ValidState, CleanupPrepared, SourceChecked, Reachable;
    match sys.e.s.phase {
      case CleanupPending =>
        FactsHere(sys);
        OursMayGo(sys.w, sys.e.s);
      case SourceMarkerCleaned => AbsentHere(sys);
      case _ =>
    }
  }

  /** One helped interaction of a Cleanup that is not yet at its end. */
  lemma CleanupInteractionStays(sys: Sys, t: Turn)
    requires Finishing(sys) && HelpsCleanup(sys, t) && !sys.e.Stamping?
    ensures Finishing(Turned(sys, t)) && Turned(sys, t).e.s.prep == sys.e.s.prep
  {
    hide DrillInv, GoneInv, ValidPrepared, CleanupPrepared, CleanupOperation, Reachable, ServesCleanup, Elapse;
    MovesKeepGone(sys, t.moves);
    var here := Elapse(sys, t.moves);
    StepKeepsBoth(here, NextAction(here, t));
    match sys.e {
      case Preflight(s) =>
        FactsHere(here);
        OursMayGo(here.w, s);
      case Loop(s, _, _) => CleanupSucceeds(here, t.choice);
      case _ =>
    }
  }

  /** What a finished cleanup leaves of the drill: nothing but its record. */
  ghost predicate LeavesNothing(end: End, p: Prepared) {
    && end.ok && end.w.persisted.Some? && end.w.persisted.value.phase == Cleaned && end.w.persisted.value.prep == p
    && p.targetId !in end.w.rds && RowsOf(Replay(end.w.log), p.drillId) == map[]
  }

  lemma GoneLeavesNothing(sys: Sys)
    requires GoneInv(sys) && sys.w.persisted.Some? && sys.w.persisted.value.phase == Cleaned
    ensures LeavesNothing(End(sys.w, true), sys.w.persisted.value.prep)
  {
    hide Replay;
    var d := sys.w.persisted.value.prep.drillId;
    assert NoRows(sys.w.log, d);
    assert forall k :: k in RowsOf(Replay(sys.w.log), d) ==> HasMarker(Replay(sys.w.log), d, k.1);
  }

  lemma StampFinishes(sys: Sys, env: Environment, n: nat)
    requires Finishing(sys) && sys.e.Stamping? && HelpsCleanup(sys, env(n, sys))
    ensures LeavesNothing(Drive(sys, env, n), sys.e.s.prep)
  {
    hide DrillInv, GoneInv, ValidPrepared, Drive, Elapse, LeavesNothing;
    var t := env(n, sys);
    MovesKeepGone(sys, t.moves);
    var here := Elapse(sys, t.moves);
    StepKeepsBoth(here, NextAction(here, t));
    DriveStep(sys, env, n);
    GoneLeavesNothing(Moved(here, t));
  }

  /** Every helped Cleanup that is on course finishes. */
  lemma {:induction false} HelpedCleanupFinishes(sys: Sys, env: Environment, n: nat)
    requires Finishing(sys) && CleanupHelped(sys, env, n)
    ensures LeavesNothing(Drive(sys, env, n), sys.e.s.prep)
    decreases Remaining(sys.e)
  {
    hide DrillInv, GoneInv, HelpsCleanup, LeavesNothing, Drive, Turned;
    if sys.e.Stamping? {
      StampFinishes(sys, env, n);
    } else {
      CleanupInteractionStays(sys, env(n, sys));
      DriveStep(sys, env, n);
      HelpedCleanupFinishes(Turned(sys, env(n, sys)), env, n + 1);
    }
  }

  // ------------------------------------------------------------------------
  // Theorems about calls

  ghost predicate CleanupIsHelped(w: World, env: Environment) {
    var started := Step(Sys(w, Idle), BeginCleanup);
    started.Some? && (started.value.e.Idle? || CleanupHelped(started.value, env, 0))
  }

  lemma BeginsFinishing(w: World) returns (started: Sys)
    requires Removable(w)
    ensures Step(Sys(w, Idle), BeginCleanup) == Some(started) && started.w == Record(w, CallStarted)
    ensures DrillInv(started) && GoneInv(started)
    ensures if w.persisted.value.phase == Cleaned then started.e == Idle
            else started.e == Preflight(w.persisted.value) && Finishing(started)
  {
    hide GateInv, TargetInv, GoneInv, LogInv, MarkerFacts, ValidPrepared;
    started := Step(Sys(w, Idle), BeginCleanup).value;
    StepKeepsBoth(Sys(w, Idle), BeginCleanup);
  }

  /** A drill on record that a calm history left. */
  ghost predicate Removable(w: World) {
    w.persisted.Some? && DrillInv(Sys(w, Idle)) && GoneInv(Sys(w, Idle))
  }

  /** Every Cleanup that the outside helps leaves nothing of its drill. */
  lemma CleanupFinishes(w: World, env: Environment)
    requires Removable(w) && CleanupIsHelped(w, env)
    ensures LeavesNothing(CleanupEnd(w, env), w.persisted.value.prep)
  {
    hide DrillInv, GoneInv, Finishing, LeavesNothing, Drive, CleanupHelped;
    var started := BeginsFinishing(w);
    if started.e.Idle? {
      GoneLeavesNothing(started);
    } else {
      HelpedCleanupFinishes(started, env, 0);
    }
  }

  lemma NothingGoneYet(init: Sys)
    requires Initial(init)
    ensures MarkerInv(init) && GoneInv(init)
  {
    InitialHolds(init);
  }

  /**
   * From every point a calm history can leave a drill in, in whatever phase, every Cleanup
   * that the outside helps ends cleaned, with the target gone and no marker of the drill left.
   */
  lemma EveryCleanupFinishes(init: Sys, acts: seq<Action>, env: Environment)
    requires Initial(init) && CalmExec(init, acts) && Exec(init, acts).Some?
    requires var sys := Exec(init, acts).value; sys.e.Idle? && sys.w.persisted.Some? && CleanupIsHelped(sys.w, env)
    ensures var w := Exec(init, acts).value.w; LeavesNothing(CleanupEnd(w, env), w.persisted.value.prep)
  {
    hide MarkerInv, GateInv, TargetInv, GoneInv, CleanupIsHelped, CleanupEnd, LeavesNothing, CalmExec, Exec;
    CalmReaches(init, acts);
    NothingGoneYet(init);
    ExecKeepsGone(init, acts);
    var sys := Exec(init, acts).value;
    assert sys == Sys(sys.w, Idle);
    CleanupFinishes(sys.w, env);
  }

  // ------------------------------------------------------------------------
  // Help is possible

  /** Nothing outside stands in the way of a cleanup. */
  predicate Unhindered(sys: Sys) {
    && InMemory(sys.e).Some? && Reachable(sys.w, sys.e.s) && Spotless(sys.w, sys.e.s)
    && sys.e.s.prep.targetId != sys.e.s.prep.sourceId
    && (sys.e.s.phase == TargetDeleteRequested ==> BeingDeleted(sys.w, sys.e.s.prep.targetId))
  }

  predicate BeingDeleted(w: World, id: string) {
    id in w.rds ==> w.rds[id].status == StatusDeleting
  }

  /** The deletion finishes by the time the call looks for the target. */
  function Deletion(sys: Sys): seq<Action> {
    if sys.e.Loop? && sys.e.s.phase == TargetDeleteRequested && sys.e.s.prep.targetId in sys.w.rds
    then [FinishDelete(sys.e.s.prep.targetId)]
    else []
  }

  function Patient(): Environment {
    (n, sys) => Turn(Deletion(sys), Choice(NoFault, 0, Window(0, 1), true, "", "", "", "", 0), NoFault, true, None)
  }

  lemma DeletionCalm(sys: Sys)
    requires Unhindered(sys)
    ensures CalmMoves(sys, Deletion(sys)) && Unhindered(Elapse(sys, Deletion(sys)))
    ensures Deletion(sys) != [] ==> sys.e.s.prep.targetId !in Elapse(sys, Deletion(sys)).w.rds
  {
    if Deletion(sys) != [] {
      var next := Step(sys, Deletion(sys)[0]).value;
      assert Deletion(sys)[1..] == [] && Elapse(next, []) == next && CalmMoves(next, []);
    } else {
      assert Elapse(sys, []) == sys;
    }
  }

  lemma PatientHelps(sys: Sys)
    requires Finishing(sys) && Unhindered(sys)
    ensures HelpsCleanup(sys, Patient()(0, sys)) && Unhindered(Elapse(sys, Deletion(sys)))
  {
    hide DrillInv, GoneInv, ValidPrepared, Reachable, Spotless, Elapse, CalmMoves;
    DeletionCalm(sys);
    NoMoves(sys);
  }

  lemma NoMoves(sys: Sys)
    ensures Elapse(sys, []) == sys
  {
  }

  lemma SameSurroundings(w: World, w': World, s: State, s': State)
    requires w'.rds == w.rds && w'.account == w.account && w'.region == w.region && s'.prep == s.prep
    ensures Reachable(w', s') == Reachable(w, s) && Spotless(w', s') == Spotless(w, s)
  {
  }

  lemma DeletionLeavesOthers(w: World, s: State, c: Choice)
    requires Reachable(w, s) && Spotless(w, s) && s.prep.targetId != s.prep.sourceId && DeleteTarget(w, s, c).Done?
    ensures var w' := DeleteTarget(w, s, c).w; Reachable(w', s) && Spotless(w', s) && BeingDeleted(w', s.prep.targetId)
  {
    hide CleanupPrepared;
  }

  /** The rest of Cleanup's operations leave the instances alone. */
  lemma RestLeavesInstances(w: World, s: State, c: Choice)
    requires s.phase != CleanupPending
    ensures var w' := CleanupOperation(w, s, c).w; w'.rds == w.rds && w'.account == w.account && w'.region == w.region
  {
    hide Replay, SourceChecked, TaggedDrill;
  }

  /** An operation leaves the way free. */
  lemma OperationUnhindered(here: Sys, t: Turn)
    requires Finishing(here) && Unhindered(here) && here.e.Loop? && CleanupOperation(here.w, here.e.s, t.choice).Done?
    requires CleanupOperation(here.w, here.e.s, t.choice).s == here.e.s
    ensures Unhindered(Moved(here, t))
  {
    hide DrillInv, GoneInv, ValidPrepared, Reachable, Spotless, CleanupOperation, DeleteTarget, BeingDeleted;
    var w, s, c := here.w, here.e.s, t.choice;
    var s' := s.(phase := Following(s.phase));
    var o := CleanupOperation(w, s, c);
    if s.phase == CleanupPending {
      assert o == DeleteTarget(w, s, c) by { FirstIsDeletion(w, s, c); }
      DeletionLeavesOthers(w, s, c);
      SameSurroundings(o.w, o.w, s, s');
    } else {
      RestLeavesInstances(w, s, c);
      SameSurroundings(w, o.w, s, s');
    }
  }

  lemma FirstIsDeletion(w: World, s: State, c: Choice)
    requires s.phase == CleanupPending
    ensures CleanupOperation(w, s, c) == DeleteTarget(w, s, c)
  {
  }

  /** So does a gate or a save. */
  lemma GateUnhindered(here: Sys, t: Turn)
    requires Finishing(here) && Unhindered(here) && !here.e.Loop? && InMemory(Moved(here, t).e).Some?
    ensures Unhindered(Moved(here, t))
  {
    hide DrillInv, GoneInv, ValidPrepared, Reachable, Spotless, CleanupPrepared;
    SameSurroundings(here.w, Moved(here, t).w, here.e.s, Moved(here, t).e.s);
  }

  /** So from every unhindered position there is a way for the outside to help to the end. */
  lemma {:induction false} CleanupHelpIsPossible(sys: Sys, n: nat)
    requires Finishing(sys) && Unhindered(sys)
    ensures CleanupHelped(sys, Patient(), n)
    decreases Remaining(sys.e)
  {
    hide DrillInv, GoneInv, Unhindered, HelpsCleanup, Moved;
    PatientHelps(sys);
    var t := Patient()(n, sys);
    if sys.e.Stamping? {
      LastStamp(sys, t);
    } else {
      CleanupInteractionStays(sys, t);
      HereFinishing(sys, t);
      var here := Elapse(sys, t.moves);
      if here.e.Loop? {
        ServedHere(sys, t);
        CleanupSucceeds(here, t.choice);
        OperationUnhindered(here, t);
      } else {
        GateUnhindered(here, t);
      }
      CleanupHelpIsPossible(Turned(sys, t), n + 1);
    }
  }

  lemma ServedHere(sys: Sys, t: Turn)
    requires HelpsCleanup(sys, t) && sys.e.Loop?
    ensures var here := Elapse(sys, t.moves);
            && ServesCleanup(here.w, here.e.s, t.choice) && t.choice.fault == NoFault
            && (here.e.s.phase == CleanupPending ==> Reachable(here.w, here.e.s))
  {
  }

  lemma HereFinishing(sys: Sys, t: Turn)
    requires Finishing(sys) && HelpsCleanup(sys, t)
    ensures Finishing(Elapse(sys, t.moves))
  {
    hide DrillInv, GoneInv, ValidPrepared, Reachable, ServesCleanup, Elapse;
    MovesKeepGone(sys, t.moves);
  }

  lemma LastStamp(sys: Sys, t: Turn)
    requires Finishing(sys) && sys.e.Stamping? && t.save == NoFault
    ensures Turned(sys, t).e.Idle?
  {
    hide DrillInv, GoneInv, ValidPrepared;
  }

  /** A drill whose configuration, source and tags are as prepared can always be cleaned up. */
  lemma HelpedCleanupExists(w: World)
    requires Removable(w)
    requires var s := w.persisted.value;
             && Reachable(w, s) && Spotless(w, s) && s.prep.targetId != s.prep.sourceId
             && (s.phase == TargetDeleteRequested ==> BeingDeleted(w, s.prep.targetId))
    ensures CleanupIsHelped(w, Patient())
  {
    hide DrillInv, GoneInv, Finishing, CleanupHelped, Reachable, Spotless;
    var started := BeginsFinishing(w);
    if !started.e.Idle? {
      SameSurroundings(w, started.w, started.e.s, started.e.s);
      CleanupHelpIsPossible(started, 0);
    }
  }
}
