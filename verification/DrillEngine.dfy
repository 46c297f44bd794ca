/**
 * Run and Cleanup as the engine executes them: loops over the phase, one operation and
 * one save per iteration. Each call ends exactly as the transition system does when the
 * outside behaves the same way, so everything proved about its runs holds for calls.
 */
module DrillEngine {
  import opened Prelude
  import opened Drill
  import opened DrillMarkers
  import opened DrillApprovals
  import opened DrillCalls
  import opened DrillResume
  import opened DrillFinish

  /** The zero value Go hands back with an error. */
  const EMPTY_PREPARED :=
    Prepared("", "", "", "", "", "", "", "", 0, Network("", [], 0), "", "", "", "", "", map[])

  /** Where Cleanup goes on from a saved phase. */
  function AfterCleanup(s: State, approved: bool): Engine {
    if s.phase == Cleaned then Stamping(s) else Loop(s, CleanupCall, approved)
  }

  /** What is on record as validated or cleaned was checked. */
  ghost predicate RealResults(w: World) {
    w.persisted.Some? ==>
      && (w.persisted.value.validated ==> ValidationIsReal(w.history, w.persisted.value))
      && (w.persisted.value.phase == Cleaned ==> CleaningIsReal(w.history, w.persisted.value))
  }

  lemma RecordIsReal(w: World)
    requires GateInv(Sys(w, Idle))
    ensures RealResults(w)
  {
    hide Authorized, Earned, ValidationIsReal, CleaningIsReal;
    if w.persisted.Some? {
      ResultsAreReal(w.history, w.persisted.value);
    }
  }

  /** What is proved of calls, for the two methods below. */
  lemma WhatRunsPromise(w: World, env: Environment)
    ensures MarkerInv(Sys(w, Idle)) && GateInv(Sys(w, Idle)) ==>
              && MarkerInv(Sys(RunEnd(w, env).w, Idle)) && GateInv(Sys(RunEnd(w, env).w, Idle))
              && RealResults(RunEnd(w, env).w)
    ensures Resumable(w) && RunHelped(w, env) ==>
              && RunEnd(w, env).ok && RunEnd(w, env).w.persisted.Some?
              && RunEnd(w, env).w.persisted.value.phase == CleanupPending && RunEnd(w, env).w.persisted.value.validated
  {
    hide MarkerInv, GateInv, Resumable, RunHelped, RunEnd, RealResults;
    if MarkerInv(Sys(w, Idle)) && GateInv(Sys(w, Idle)) {
      CallsKeep(w, env);
      RecordIsReal(RunEnd(w, env).w);
    }
    if Resumable(w) && RunHelped(w, env) {
      RunCompletes(w, env);
    }
  }

  lemma WhatCleanupsPromise(w: World, env: Environment)
    ensures MarkerInv(Sys(w, Idle)) && GateInv(Sys(w, Idle)) ==>
              && MarkerInv(Sys(CleanupEnd(w, env).w, Idle)) && GateInv(Sys(CleanupEnd(w, env).w, Idle))
              && RealResults(CleanupEnd(w, env).w)
    ensures Removable(w) && CleanupIsHelped(w, env) ==>
              CleanupEnd(w, env).ok && exists p :: LeavesNothing(CleanupEnd(w, env), p)
  {
    hide MarkerInv, GateInv, CleanupIsHelped, CleanupEnd, RealResults;
    if MarkerInv(Sys(w, Idle)) && GateInv(Sys(w, Idle)) {
      CallsKeep(w, env);
      RecordIsReal(CleanupEnd(w, env).w);
    }
    if Removable(w) && CleanupIsHelped(w, env) {
      CleanupFinishes(w, env);
    }
  }

  class RestoreDrillEngine {
    var world: World

    constructor (w: World)
      ensures world == w
    {
      world := w;
    }

    method SaveState(s: State, fault: Fault) returns (ok: bool)
      modifies this
      ensures world == Persist(old(world), s, fault)
      ensures ok <==> ValidState(s) && fault == NoFault
      ensures ok ==> world.persisted == Some(s)
      ensures world == old(world).(persisted := world.persisted)
      ensures !ValidState(s) || fault == FailBefore ==> world.persisted == old(world).persisted
      ensures ValidState(s) && fault == FailAfter ==> world.persisted == Some(s)
    {
      if ValidState(s) && fault != FailBefore {
        world := world.(persisted := Some(s));
      }
      ok := ValidState(s) && fault == NoFault;
    }

    /** The outside's turn at an interaction. */
    method Await(e: Engine, env: Environment, n: nat) returns (t: Turn)
      modifies this
      ensures t == env(n, Sys(old(world), e))
      ensures Sys(world, e) == Elapse(Sys(old(world), e), t.moves)
      ensures world.persisted == old(world).persisted
    {
      t := env(n, Sys(world, e));
      world := Elapse(Sys(world, e), t.moves).w;
    }

    /** After an operation: move to the next phase and save it. */
    method Transition(o: Outcome, s: State, next: Phase, call: Call, approved: bool, env: Environment, n: nat)
      returns (ok: bool, s': State, m: nat)
      modifies this
      ensures o.Failed? ==> !ok && s' == s && m == n && world == o.w
      ensures o.Done? ==> s' == o.s.(phase := next) && m == n + 1
      ensures ok <==> o.Done? && SaveSucceeds(s', env(n, Sys(o.w, Saving(s', call, approved))).save)
      ensures ok ==> world.persisted == Some(s')
      ensures Drive(Advance(o, s, next, call, approved), env, n)
           == Drive(Sys(world, if !ok then Failing(s')
                               else if next == Cleaned then Stamping(s')
                               else Loop(s', call, approved)), env, m)
    {
      hide Drive, Elapse, ValidState;
      world, m := o.w, n;
      match o {
        case Failed(_) =>
          s' := s;
          ok := false;
        case Done(_, updated) =>
          s' := updated.(phase := next);
          DriveStep(Sys(world, Saving(s', call, approved)), env, n);
          var t := Await(Saving(s', call, approved), env, n);
          ok := SaveState(s', t.save);
          m := n + 1;
      }
    }

    /** The save of a state whose operation or save failed; its own result is ignored. */
    method RecordFailure(s: State, env: Environment, n: nat)
      modifies this
      ensures Drive(Sys(old(world), Failing(s)), env, n) == End(world, false)
    {
      hide Drive, Elapse, ValidState;
      DriveStep(Sys(world, Failing(s)), env, n);
      var t := Await(Failing(s), env, n);
      var _ := SaveState(s, t.save);
    }

    /**
     * A Run from the persisted state, or from preflight when there is none. It ends as the
     * transition system does, and returns a state exactly when that ends without an error.
     */
    method Run(env: Environment) returns (result: Option<State>)
      modifies this
      ensures End(world, result.Some?) == RunEnd(old(world), env)
      ensures result.Some? ==> world.persisted == result && result.value.phase in {CleanupPending, Cleaned}
      ensures MarkerInv(Sys(old(world), Idle)) && GateInv(Sys(old(world), Idle)) ==>
                MarkerInv(Sys(world, Idle)) && GateInv(Sys(world, Idle))
      ensures MarkerInv(Sys(old(world), Idle)) && GateInv(Sys(old(world), Idle)) && result.Some?
              && result.value.validated ==>
                ValidationIsReal(world.history, result.value)
      ensures result.Some? && old(world).persisted != result ==>
                result.value.phase == CleanupPending && result.value.validated
      ensures Resumable(old(world)) && RunHelped(old(world), env) ==>
                result.Some? && result.value.phase == CleanupPending && result.value.validated
    {
      hide Drive, Elapse, ValidState, MarkerInv, GateInv, RunOperation, Resumable, RunHelped, RunEnd, ValidationIsReal,
           CleaningIsReal;
      WhatRunsPromise(world, env);
      var entered: bool, state: State, approved: bool, n: nat;
      result, entered, state, approved, n := OpenRun(env);
      if !entered {
        return;
      }
      while state.phase != CleanupPending
        invariant RunEnd(old(world), env) == Drive(Sys(world, Loop(state, RunCall, approved)), env, n)
        invariant world.persisted == Some(state) && (NeedsRestoreApproval(state.phase) ==> approved)
        invariant state.phase == CleanupPending ==> state.validated
        decreases 12 - Rank(state.phase)
      {
        var ok: bool;
        ok, state, n := RunOnce(state, approved, env, n);
        if !ok {
          return None;
        }
      }
      DriveStep(Sys(world, Loop(state, RunCall, approved)), env, n);
      var _ := Await(Loop(state, RunCall, approved), env, n);
      result := Some(state);
    }

    /** Load or start the drill and pass its gate, up to the loop; a drill past its Run is returned as it is. */
    method OpenRun(env: Environment)
      returns (result: Option<State>, entered: bool, state: State, approved: bool, n: nat)
      modifies this
      ensures entered ==> world.persisted == Some(state) && (NeedsRestoreApproval(state.phase) ==> approved)
      ensures entered ==> state.phase != CleanupPending
      ensures !entered && result.Some? ==>
                world.persisted == result == old(world).persisted && result.value.phase in {CleanupPending, Cleaned}
      ensures RunEnd(old(world), env)
           == if entered then Drive(Sys(world, Loop(state, RunCall, approved)), env, n) else End(world, result.Some?)
    {
      hide Drive, Elapse, ValidState;
      var absent := world.persisted.None?;
      world := Record(world, CallStarted);
      result, entered, state, approved, n := None, false, InitialState(EMPTY_PREPARED), false, 0;
      if absent {
        var ok: bool;
        ok, state := StartDrill(env);
        if !ok {
          return;
        }
        n := 2;
      } else {
        state := world.persisted.value;
      }
      if state.phase == CleanupPending || state.phase == Cleaned {
        result := Some(state);
        return;
      }
      entered := true;
      if NeedsRestoreApproval(state.phase) {
        approved := PassRestoreGate(state, env, n);
        entered, n := approved, n + 1;
      }
    }

    method PassRestoreGate(s: State, env: Environment, n: nat) returns (granted: bool)
      requires world.persisted == Some(s)
      modifies this
      ensures world.persisted == Some(s)
      ensures granted <==> env(n, Sys(old(world), RestoreGate(s))).grant
      ensures Drive(Sys(old(world), RestoreGate(s)), env, n)
           == if granted then Drive(Sys(world, Loop(s, RunCall, true)), env, n + 1) else End(world, false)
    {
      hide Drive, Elapse;
      DriveStep(Sys(world, RestoreGate(s)), env, n);
      var t := Await(RestoreGate(s), env, n);
      granted := t.grant;
      if granted {
        world := Record(world, RestoreApproved(s.prep.drillId, s.prep.sourceId, s.prep.targetId));
      }
    }

    /** Preflight and the first save of a new drill. */
    method StartDrill(env: Environment) returns (ok: bool, s: State)
      requires world.persisted.None?
      modifies this
      ensures ok ==> world.persisted == Some(s) && s.phase == Initialized
      ensures Drive(Sys(old(world), Preparing), env, 0)
           == if ok then Drive(Sys(world, RestoreGate(s)), env, 2) else End(world, false)
    {
      hide Drive, Elapse, ValidState;
      s := InitialState(EMPTY_PREPARED);
      DriveStep(Sys(world, Preparing), env, 0);
      var t := Await(Preparing, env, 0);
      if t.prepared.None?
         || exists i :: 0 <= i < |world.log| && TouchesDrill(world.log[i].tx, t.prepared.value.drillId) {
        return false, s;
      }
      s := InitialState(t.prepared.value);
      DriveStep(Sys(world, Creating(s)), env, 1);
      t := Await(Creating(s), env, 1);
      ok := SaveState(s, t.save);
    }

    /**
     * One iteration of Run's loop. It succeeds exactly when the phase's operation is done and
     * the next phase is saved, and then the call goes on from there; otherwise it ends.
     */
    method RunOnce(s: State, approved: bool, env: Environment, n: nat) returns (ok: bool, s': State, m: nat)
      requires world.persisted == Some(s) && s.phase != CleanupPending && (NeedsRestoreApproval(s.phase) ==> approved)
      modifies this
      ensures ok <==> Lands(Sys(old(world), Loop(s, RunCall, approved)), env, n)
      ensures ok ==> world.persisted == Some(s') && Rank(s'.phase) == Rank(s.phase) + 1
      ensures ok && s'.phase == CleanupPending ==> s'.validated
      ensures Drive(Sys(old(world), Loop(s, RunCall, approved)), env, n)
           == if ok then Drive(Sys(world, Loop(s', RunCall, approved)), env, m) else End(world, false)
    {
      hide Drive, Elapse, ValidState, WriteMarker, ReadTime, WaitWindow, RequestRestore, WaitAvailable, ValidateTarget;
      ghost var start := Sys(world, Loop(s, RunCall, approved));
      if Rank(s.phase) <= 6 {
        AttemptStep(start, env, n);
      } else {
        DriveStep(start, env, n);
      }
      var t := Await(Loop(s, RunCall, approved), env, n);
      m := n + 1;
      var o: Outcome;
      match s.phase {
        case Initialized =>
          o := WriteMarker(world, s, "A", t.choice);
          if o.Done? {
            world := o.w;
            t := Await(ReadingTime(s), env, m);
            o := ReadTime(world, s, t.choice);
            m := n + 2;
          }
        case MarkerAWritten => o := WaitWindow(world, s, t.choice);
        case WindowReady => o := WriteMarker(world, s, "B", t.choice);
        case MarkerBWritten => o := RequestRestore(world, s, t.choice);
        case RestoreRequested => o := WaitAvailable(world, s, t.choice);
        case TargetAvailable => o := ValidateTarget(world, s, t.choice);
        case Validated => o := Done(world, s.(validated := true));
        case _ =>
          return false, s, m;
      }
      assert (o, m) == Attempt(start, env, n);
      ok, s', m := Transition(o, s, Following(s.phase), RunCall, approved, env, m);
      if !ok {
        RecordFailure(s', env, m);
      }
    }

    /**
     * A Cleanup from the persisted state, in any phase. It ends as the transition system
     * does, and returns a state exactly when that ends without an error.
     */
    method Cleanup(env: Environment) returns (result: Option<State>)
      modifies this
      ensures End(world, result.Some?) == CleanupEnd(old(world), env)
      ensures result.Some? ==> world.persisted == result && result.value.phase == Cleaned
      ensures MarkerInv(Sys(old(world), Idle)) && GateInv(Sys(old(world), Idle)) ==>
                MarkerInv(Sys(world, Idle)) && GateInv(Sys(world, Idle))
      ensures MarkerInv(Sys(old(world), Idle)) && GateInv(Sys(old(world), Idle)) && result.Some? ==>
                CleaningIsReal(world.history, result.value)
      ensures Removable(old(world)) && CleanupIsHelped(old(world), env) ==>
                result.Some? && LeavesNothing(End(world, true), result.value.prep)
    {
      hide Drive, Elapse, ValidState, MarkerInv, GateInv, CleanupPrepared, CleanupOperation, Removable, CleanupIsHelped,
           ValidationIsReal, CleaningIsReal;
      WhatCleanupsPromise(world, env);
      if world.persisted.None? {
        return None;
      }
      var state := world.persisted.value;
      world := Record(world, CallStarted);
      if state.phase == Cleaned {
        return Some(state);
      }
      var entered: bool, approved: bool, n: nat;
      entered, state, approved, n := EnterCleanup(state, env);
      if !entered {
        return None;
      }
      while state.phase != Cleaned
        invariant CleanupEnd(old(world), env)
               == Drive(Sys(world, AfterCleanup(state, approved)), env, n)
        invariant world.persisted == Some(state)
        decreases 12 - Rank(state.phase)
      {
        var ok: bool;
        ok, state, n := CleanupOnce(state, approved, env, n);
        if !ok {
          return None;
        }
      }
      result := Stamp(state, env, n);
    }

    /**
     * Preflight and approval, up to the loop; a drill not yet in cleanup is first saved as
     * cleanup-pending. It enters exactly when what its phase asks for is granted and saved.
     */
    method EnterCleanup(loaded: State, env: Environment) returns (entered: bool, state: State, approved: bool, n: nat)
      requires world.persisted == Some(loaded) && loaded.phase != Cleaned
      modifies this
      ensures entered ==> world.persisted == Some(state) && CleanupStarted(state.phase) && state.prep == loaded.prep
      ensures Drive(Sys(old(world), Preflight(loaded)), env, 0)
           == if entered then Drive(Sys(world, Loop(state, CleanupCall, approved)), env, n) else End(world, false)
    {
      hide Drive, Elapse, ValidState, CleanupPrepared;
      state, approved, n := loaded, false, 1;
      DriveStep(Sys(world, Preflight(state)), env, 0);
      var t := Await(Preflight(state), env, 0);
      if !t.grant || !CleanupPrepared(world, state) {
        return false, state, approved, n;
      }
      if CleanupStarted(state.phase) && state.phase != CleanupPending {
        return true, state, approved, n;
      }
      entered, state, n := PassCleanupGate(state, env);
      approved := true;
    }

    method PassCleanupGate(loaded: State, env: Environment) returns (entered: bool, state: State, n: nat)
      requires world.persisted == Some(loaded)
      requires loaded.phase == CleanupPending || !CleanupStarted(loaded.phase)
      modifies this
      ensures entered ==> world.persisted == Some(state) && state == loaded.(phase := CleanupPending)
      ensures Drive(Sys(old(world), CleanupGate(loaded)), env, 1)
           == if entered then Drive(Sys(world, Loop(state, CleanupCall, true)), env, n) else End(world, false)
    {
      hide Drive, Elapse, ValidState;
      state, n := loaded, 2;
      DriveStep(Sys(world, CleanupGate(loaded)), env, 1);
      var t := Await(CleanupGate(loaded), env, 1);
      if !t.grant {
        return false, state, n;
      }
      world := Record(world, CleanupApproved(loaded.prep.drillId, loaded.prep.sourceId, loaded.prep.targetId));
      entered := true;
      if !CleanupStarted(loaded.phase) {
        state, n := loaded.(phase := CleanupPending), 3;
        DriveStep(Sys(world, Entering(state)), env, 2);
        t := Await(Entering(state), env, 2);
        entered := SaveState(state, t.save);
      }
    }

    /** The second save after verify-clean, which sets CleanedAt; it decides the call's result. */
    method Stamp(s: State, env: Environment, n: nat) returns (result: Option<State>)
      requires world.persisted == Some(s)
      modifies this
      ensures result.Some? ==> result == Some(s) && world.persisted == Some(s)
      ensures result.Some? <==> SaveSucceeds(s, env(n, Sys(old(world), Stamping(s))).save)
      ensures Drive(Sys(old(world), Stamping(s)), env, n) == End(world, result.Some?)
    {
      hide Drive, Elapse, ValidState;
      DriveStep(Sys(world, Stamping(s)), env, n);
      var t := Await(Stamping(s), env, n);
      var ok := SaveState(s, t.save);
      if ok {
        return Some(s);
      }
      RecordFailure(s, env, n + 1);
      result := None;
    }

    /** One iteration of Cleanup's loop, succeeding exactly when its operation is done and the next phase saved. */
    method CleanupOnce(s: State, approved: bool, env: Environment, n: nat) returns (ok: bool, s': State, m: nat)
      requires world.persisted == Some(s) && s.phase != Cleaned
      modifies this
      ensures ok <==> Lands(Sys(old(world), Loop(s, CleanupCall, approved)), env, n)
      ensures ok ==> world.persisted == Some(s') && Rank(s'.phase) == Rank(s.phase) + 1
      ensures Drive(Sys(old(world), Loop(s, CleanupCall, approved)), env, n)
           == if !ok then End(world, false)
              else Drive(Sys(world, AfterCleanup(s', approved)), env, m)
    {
      hide Drive, Elapse, ValidState, DeleteTarget, WaitDeleted, CleanupMarkers, VerifyClean;
      ghost var start := Sys(world, Loop(s, CleanupCall, approved));
      if CleanupStarted(s.phase) {
        AttemptStep(start, env, n);
      } else {
        DriveStep(start, env, n);
      }
      var t := Await(Loop(s, CleanupCall, approved), env, n);
      m := n + 1;
      var o: Outcome;
      match s.phase {
        case CleanupPending => o := DeleteTarget(world, s, t.choice);
        case TargetDeleteRequested => o := WaitDeleted(world, s, t.choice);
        case TargetDeleted => o := CleanupMarkers(world, s, t.choice);
        case SourceMarkerCleaned => o := VerifyClean(world, s, t.choice);
        case _ =>
          return false, s, m;
      }
      assert (o, m) == Attempt(start, env, n);
      ok, s', m := Transition(o, s, Following(s.phase), CleanupCall, approved, env, m);
      if !ok {
        RecordFailure(s', env, m);
      }
    }
  }
}
