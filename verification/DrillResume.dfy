/**
 * Wherever a drill was interrupted, every Run that the outside lets through completes it:
 * whatever the operations return, as long as none fails and nobody damages the drill.
 */
module DrillResume {
  import opened Prelude
  import opened Markers
  import opened Drill
  import opened DrillMarkers
  import opened DrillApprovals
  import opened DrillTarget
  import opened DrillCalls

  // ------------------------------------------------------------------------
  // What the outside must do

  /** No move of the outside touches the drill's target. */
  ghost predicate CalmMoves(sys: Sys, moves: seq<Action>)
    decreases |moves|
  {
    if moves == [] then true
    else if Outside(moves[0]) && Step(sys, moves[0]).Some? then
      Calm(sys, moves[0]) && CalmMoves(Step(sys, moves[0]).value, moves[1..])
    else CalmMoves(sys, moves[1..])
  }

  /** The source is as prepared, a target in place is usable, and the application tables are there. */
  predicate Healthy(w: World, s: State) {
    && SourceChecked(w, s.prep)
    && s.prep.targetId != s.prep.sourceId
    && (s.prep.targetId !in w.rds ==> forall id :: id in w.rds ==> !TaggedDrill(w.rds[id]))
    && (s.prep.targetId in w.rds ==> Usable(s, w.rds[s.prep.targetId]))
    && EXPECTED_TABLES <=
         (if s.restoreTime.Some? then SnapshotAt(w.log, s.restoreTime.value) else Replay(w.log)).tables
  }

  predicate Usable(s: State, inst: Instance) {
    && inst.arn != "" && inst.storage >= s.prep.sourceStorage && inst.resourceId != s.prep.sourceResourceId
    && (inst.status == StatusCreating
        || (inst.status == StatusAvailable && inst.endpoint != "" && inst.endpoint != s.prep.sourceEndpoint))
  }

  /** What preflight needs: the source as prepared, nothing tagged for a drill, the application tables. */
  predicate Prepares(w: World, p: Prepared) {
    && ValidPrepared(p) && p.targetId !in w.rds
    && SourceChecked(w, p) && (forall id :: id in w.rds ==> !TaggedDrill(w.rds[id]))
    && EXPECTED_TABLES <= Replay(w.log).tables
    && forall i :: 0 <= i < |w.log| ==> !TouchesDrill(w.log[i].tx, p.drillId)
  }

  /** The answers an operation of Run needs in each phase. */
  predicate Serves(w: World, s: State, c: Choice) {
    match s.phase
    case MarkerAWritten => ValidWindow(c.window) && InWindow(c.window, s.restoreTime)
    case MarkerBWritten =>
      && InWindow(c.window, s.restoreTime)
      && (s.prep.targetId !in w.rds ==>
            c.arn != "" && c.storage >= s.prep.sourceStorage && c.resourceId != s.prep.sourceResourceId)
    case RestoreRequested => s.prep.targetId in w.rds ==> w.rds[s.prep.targetId].status == StatusAvailable
    case TargetAvailable =>
      c.checks && (s.prep.targetId in w.rds ==> w.rds[s.prep.targetId].status == StatusAvailable)
    case _ => true
  }

  /** At this interaction nothing fails, and the outside leaves the target alone and the drill healthy. */
  ghost predicate Helps(sys: Sys, t: Turn) {
    var here := Elapse(sys, t.moves);
    && CalmMoves(sys, t.moves)
    && t.save == NoFault && t.choice.fault == NoFault && t.grant
    && (sys.e.Preparing? ==> t.prepared.Some? && Prepares(here.w, t.prepared.value))
    && (InMemory(sys.e).Some? && Healthy(sys.w, sys.e.s) ==> Healthy(here.w, sys.e.s))
    && (sys.e.Loop? ==> Serves(here.w, sys.e.s, t.choice))
  }

  /** The outside helps at every interaction of the rest of the call. */
  ghost predicate Helped(sys: Sys, env: Environment, n: nat)
    requires !sys.e.Idle?
    decreases Remaining(sys.e)
  {
    var t := env(n, sys);
    Helps(sys, t) && (Turned(sys, t).e.Idle? || Helped(Turned(sys, t), env, n + 1))
  }

  lemma {:induction false} MovesKeep(sys: Sys, moves: seq<Action>)
    requires DrillInv(sys) && CalmMoves(sys, moves)
    ensures DrillInv(Elapse(sys, moves)) && Elapse(sys, moves).w.history == sys.w.history
    ensures forall d, n :: CommitTime(sys.w.log, d, n).Some? ==> CommitTime(Elapse(sys, moves).w.log, d, n).Some?
    decreases |moves|
  {
    hide DrillInv, CommitTime, Calm, Step;
    if moves != [] {
      if Outside(moves[0]) && Step(sys, moves[0]).Some? {
        StepDrillKeeps(sys, moves[0]);
        OutsideLeaves(sys, moves[0]);
        MovesKeep(Step(sys, moves[0]).value, moves[1..]);
      } else {
        MovesKeep(sys, moves[1..]);
      }
    }
  }

  lemma OutsideLeaves(sys: Sys, a: Action)
    requires Outside(a) && Step(sys, a).Some?
    ensures Step(sys, a).value.w.history == sys.w.history
    ensures forall d, n :: CommitTime(sys.w.log, d, n).Some? ==> CommitTime(Step(sys, a).value.w.log, d, n).Some?
  {
    hide CommitTime, Replay, ApplyTx;
    if a.ForeignCommit? {
      forall d, n ensures CommitTime(sys.w.log, d, n).Some? ==> CommitTime(Step(sys, a).value.w.log, d, n).Some? {
        CommitTimeAppend(sys.w.log, Commit(sys.w.clock + 1, a.tx), d, n);
      }
    }
  }

  // ------------------------------------------------------------------------
  // On course

  /** A call of Run that can still complete the drill. */
  ghost predicate OnCourse(sys: Sys) {
    && DrillInv(sys) && !Deleted(sys.w.history)
    && (InMemory(sys.e).Some? ==> ValidState(sys.e.s) && Healthy(sys.w, sys.e.s))
    && Position(sys)
  }

  /** Where such a call can be. */
  ghost predicate Position(sys: Sys) {
    match sys.e
    case Preparing => true
    case Creating(s) => s.phase == Initialized
    case RestoreGate(_) => true
    case ReadingTime(s) => CommitTime(sys.w.log, s.prep.drillId, "A").Some?
    case Loop(s, call, _) => call == RunCall && Rank(s.phase) <= 7 && (s.phase == CleanupPending ==> s.validated)
    case Saving(s, call, _) => call == RunCall && Rank(s.phase) <= 7 && (s.phase == CleanupPending ==> s.validated)
    case _ => false
  }

  lemma MovesStayOnCourse(sys: Sys, t: Turn)
    requires OnCourse(sys) && Helps(sys, t)
    ensures OnCourse(Elapse(sys, t.moves))
  {
    hide DrillInv, Healthy, Deleted, CommitTime, Prepares;
    MovesKeep(sys, t.moves);
  }

  // ------------------------------------------------------------------------
  // Operations that nothing hinders

  /** Marker inserts by this drill always go through. */
  lemma OwnInsertApplies(w: World, s: State, name: string)
    requires LogInv(w) && MarkerFacts(w.clock, w.log, s) && Rank(s.phase) < 9
    requires name == "A" || (name == "B" && s.restoreTime.Some?)
    ensures var tx := InsertMarker(s.prep.drillId, name, s.prep.payload, name == "A");
            && ApplyTx(Replay(w.log), tx).Some?
            && HasMarker(ApplyTx(Replay(w.log), tx).value, s.prep.drillId, name)
  {
    hide Replay;
    RowsFollowLog(w.log, s.prep.drillId, name);
    RowsFollowLog(w.log, s.prep.drillId, "A");
    if HasMarker(Replay(w.log), s.prep.drillId, name) {
      var i :| 0 <= i < |w.log| && Inserts(w.log[i], s.prep.drillId, name);
      assert Replay(w.log).markers.value[(s.prep.drillId, name)] == s.prep.payload;
    }
  }

  /** A state in memory at a loop position is tracked, like the persisted one. */
  lemma StateTracked(sys: Sys)
    requires MarkerInv(sys) && Synced(sys.e)
    ensures LogInv(sys.w) && ValidState(sys.e.s) && MarkerFacts(sys.w.clock, sys.w.log, sys.e.s)
  {
    hide LogInv, ValidPrepared, MarkerFacts;
  }

  lemma MarkerWriteSucceeds(sys: Sys, c: Choice, name: string)
    requires MarkerInv(sys) && sys.e.Loop? && c.fault == NoFault
    requires name == "A" || (name == "B" && sys.e.s.phase == WindowReady)
    requires Rank(sys.e.s.phase) < 9
    ensures WriteMarker(sys.w, sys.e.s, name, c).Done?
    ensures CommitTime(WriteMarker(sys.w, sys.e.s, name, c).w.log, sys.e.s.prep.drillId, name).Some?
  {
    hide LogInv, ValidPrepared, CommitTime, NeverCleaned, MarkerInv, Replay, ApplyTx;
    StateTracked(sys);
    OwnInsertApplies(sys.w, sys.e.s, name);
    var tx := InsertMarker(sys.e.s.prep.drillId, name, sys.e.s.prep.payload, name == "A");
    CommitTimeAppend(sys.w.log, Commit(sys.w.clock + 1 + c.gap, tx), sys.e.s.prep.drillId, name);
  }

  lemma ReadTimeSucceeds(sys: Sys, c: Choice)
    requires MarkerInv(sys) && sys.e.ReadingTime? && c.fault == NoFault
    requires CommitTime(sys.w.log, sys.e.s.prep.drillId, "A").Some?
    ensures ReadTime(sys.w, sys.e.s, c).Done?
  {
    hide ValidPrepared, MarkerInv, Replay, CommitTime;
    StateTracked(sys);
    assert NeverCleaned(sys.w.log, sys.e.s.prep.drillId) by { StillWhole(sys); }
    RowsFollowLog(sys.w.log, sys.e.s.prep.drillId, "A");
  }

  lemma StillWhole(sys: Sys)
    requires MarkerInv(sys) && sys.e.ReadingTime?
    ensures NeverCleaned(sys.w.log, sys.e.s.prep.drillId)
  {
    hide LogInv, ValidPrepared, NeverCleaned, CommitTime;
  }

  /** An instance that is ours and usable passes the identity checks. */
  lemma UsableVerifies(w: World, s: State)
    requires Healthy(w, s) && s.prep.targetId in w.rds && Ours(w.log, s, w.rds[s.prep.targetId])
    ensures TargetVerified(s, w.rds[s.prep.targetId])
  {
    hide SnapshotAt, Replay, SourceChecked;
  }

  lemma TargetOurs(sys: Sys)
    requires DrillInv(sys) && sys.e.Loop? && sys.e.s.prep.targetId in sys.w.rds
    ensures Ours(sys.w.log, sys.e.s, sys.w.rds[sys.e.s.prep.targetId])
  {
    hide MarkerFacts, LogInv, GateInv, SnapshotAt, ValidPrepared;
  }

  lemma TargetPresent(sys: Sys)
    requires DrillInv(sys) && sys.e.Loop? && 4 <= Rank(sys.e.s.phase) <= 6
    ensures sys.e.s.prep.targetId in sys.w.rds
  {
    hide MarkerFacts, LogInv, GateInv, SnapshotAt, ValidPrepared;
  }

  lemma RestoreSucceeds(sys: Sys, c: Choice)
    requires DrillInv(sys) && sys.e.Loop? && sys.e.s.phase == MarkerBWritten
    requires Healthy(sys.w, sys.e.s) && Serves(sys.w, sys.e.s, c) && c.fault == NoFault
    ensures RequestRestore(sys.w, sys.e.s, c).Done?
  {
    hide DrillInv, SnapshotAt, Replay, SourceChecked, Ours, TargetVerified;
    if sys.e.s.prep.targetId in sys.w.rds {
      TargetOurs(sys);
      UsableVerifies(sys.w, sys.e.s);
    }
  }

  lemma WaitSucceeds(sys: Sys, c: Choice)
    requires DrillInv(sys) && sys.e.Loop? && sys.e.s.phase == RestoreRequested
    requires Healthy(sys.w, sys.e.s) && Serves(sys.w, sys.e.s, c) && c.fault == NoFault
    ensures WaitAvailable(sys.w, sys.e.s, c).Done?
  {
    hide DrillInv, SnapshotAt, Replay, SourceChecked, Ours, TargetVerified;
    TargetPresent(sys);
    TargetOurs(sys);
    UsableVerifies(sys.w, sys.e.s);
  }

  /** On the restored target the boundary holds, so validation passes. */
  lemma TargetPasses(sys: Sys, c: Choice)
    requires DrillInv(sys) && sys.e.Loop? && sys.e.s.phase == TargetAvailable
    requires Healthy(sys.w, sys.e.s) && Serves(sys.w, sys.e.s, c) && c.fault == NoFault
    ensures ValidateTarget(sys.w, sys.e.s, c).Done?
  {
    hide DrillInv, SnapshotAt, Replay, SourceChecked, TargetVerified, Validates, LogInv, MarkerFacts;
    TargetPresent(sys);
    TargetOurs(sys);
    UsableVerifies(sys.w, sys.e.s);
    assert sys.e.s.restoreTime.Some? && MarkerInv(sys) by { Timed(sys); }
    StateTracked(sys);
    BoundaryOf(sys.w, sys.e.s);
  }

  lemma Timed(sys: Sys)
    requires DrillInv(sys) && sys.e.Loop? && 1 <= Rank(sys.e.s.phase) <= 6
    ensures sys.e.s.restoreTime.Some? && MarkerInv(sys)
  {
    hide LogInv, ValidPrepared, CommitTime, NeverCleaned, GateInv, TargetInv;
  }

  /** In every phase of Run, the operation succeeds when the outside serves it. */
  lemma OperationSucceeds(sys: Sys, c: Choice)
    requires DrillInv(sys) && sys.e.Loop? && sys.e.call == RunCall && Rank(sys.e.s.phase) <= 6
    requires Healthy(sys.w, sys.e.s) && Serves(sys.w, sys.e.s, c) && c.fault == NoFault
    ensures RunOperation(sys.w, sys.e.s, c).Done?
    ensures sys.e.s.phase == Initialized ==>
              CommitTime(RunOperation(sys.w, sys.e.s, c).w.log, sys.e.s.prep.drillId, "A").Some?
  {
    hide MarkerInv, GateInv, TargetInv, Healthy, CommitTime, WriteMarker, RequestRestore, WaitAvailable, ValidateTarget;
    match sys.e.s.phase {
      case Initialized => MarkerWriteSucceeds(sys, c, "A");
      case WindowReady => MarkerWriteSucceeds(sys, c, "B");
      case MarkerBWritten => RestoreSucceeds(sys, c);
      case RestoreRequested => WaitSucceeds(sys, c);
      case TargetAvailable => TargetPasses(sys, c);
      case _ =>
    }
  }

  // ------------------------------------------------------------------------
  // The drill stays healthy

  /** Health depends on the instances and on the tables as of the restore time, or now. */
  lemma StaysHealthy(w: World, s: State, w': World, s': State)
    requires Healthy(w, s) && s'.prep == s.prep
    requires w'.rds == w.rds && w'.account == w.account && w'.region == w.region
    requires EXPECTED_TABLES <=
             (if s'.restoreTime.Some? then SnapshotAt(w'.log, s'.restoreTime.value) else Replay(w'.log)).tables
    ensures Healthy(w', s')
  {
    hide SnapshotAt, Replay, TaggedDrill;
  }

  lemma MarkerWriteHealthy(sys: Sys, c: Choice, name: string)
    requires MarkerInv(sys) && sys.e.Loop? && Healthy(sys.w, sys.e.s)
    ensures var o := WriteMarker(sys.w, sys.e.s, name, c); Healthy(o.w, sys.e.s) && (o.Done? ==> o.s == sys.e.s)
  {
    hide MarkerInv, ValidPrepared, CommitTime, NeverCleaned, SnapshotAt, Replay;
    var w, s := sys.w, sys.e.s;
    StateTracked(sys);
    var w' := WriteMarker(w, s, name, c).w;
    if w' != w {
      var commit := w'.log[|w.log|];
      assert w'.log == w.log + [commit];
      CommittedAppend(w.log, commit);
      if s.restoreTime.Some? {
        SnapshotFrozen(w.log, [commit], s.restoreTime.value);
      }
      StaysHealthy(w, s, w', s);
    }
  }

  lemma ReadTimeHealthy(sys: Sys, c: Choice)
    requires MarkerInv(sys) && sys.e.ReadingTime? && Healthy(sys.w, sys.e.s) && ReadTime(sys.w, sys.e.s, c).Done?
    ensures var o := ReadTime(sys.w, sys.e.s, c); Healthy(o.w, o.s)
  {
    hide MarkerInv, ValidPrepared, CommitTime, NeverCleaned, Replay;
    StateTracked(sys);
    var o := ReadTime(sys.w, sys.e.s, c);
    assert UpTo(sys.w.log, o.s.restoreTime.value) == sys.w.log;
    assert sys.e.s.restoreTime.None? by { Unread(sys); }
    StaysHealthy(sys.w, sys.e.s, o.w, o.s);
  }

  lemma Unread(sys: Sys)
    requires MarkerInv(sys) && sys.e.ReadingTime?
    ensures sys.e.s.restoreTime.None?
  {
    hide LogInv, ValidPrepared, NeverCleaned, CommitTime;
  }

  lemma RestoreHealthy(w: World, s: State, c: Choice)
    requires Healthy(w, s) && s.phase == MarkerBWritten && Serves(w, s, c) && RequestRestore(w, s, c).Done?
    ensures var o := RequestRestore(w, s, c);
            Healthy(o.w, o.s) && o.s.prep == s.prep && o.s.restoreTime == s.restoreTime
  {
    hide SnapshotAt, Replay, TaggedDrill, TargetVerified;
    var o := RequestRestore(w, s, c);
    if s.prep.targetId in w.rds {
      StaysHealthy(w, s, o.w, o.s);
    } else {
      assert SourceChecked(o.w, s.prep);
      assert Usable(s, o.w.rds[s.prep.targetId]);
    }
  }

  /** Every operation of Run that succeeds leaves the drill healthy. */
  lemma OperationHealthy(sys: Sys, c: Choice)
    requires DrillInv(sys) && sys.e.Loop? && sys.e.call == RunCall && Rank(sys.e.s.phase) <= 6
    requires Healthy(sys.w, sys.e.s) && Serves(sys.w, sys.e.s, c) && RunOperation(sys.w, sys.e.s, c).Done?
    ensures var o := RunOperation(sys.w, sys.e.s, c); Healthy(o.w, o.s.(phase := Following(sys.e.s.phase)))
  {
    hide MarkerInv, GateInv, TargetInv, Healthy, Serves, WriteMarker, RequestRestore;
    var w, s := sys.w, sys.e.s;
    var o := RunOperation(w, s, c);
    match s.phase {
      case Initialized => MarkerWriteHealthy(sys, c, "A");
      case WindowReady => MarkerWriteHealthy(sys, c, "B");
      case MarkerBWritten => RestoreHealthy(w, s, c);
      case MarkerAWritten => SameHealth(w, s, o.s);
      case RestoreRequested => SameHealth(w, s, o.s);
      case TargetAvailable => SameWorldHealth(w, o.w, s);
      case Validated => SameHealth(w, s, o.s);
      case _ =>
    }
    SameHealth(o.w, o.s, o.s.(phase := Following(s.phase)));
  }

  lemma SameHealth(w: World, s: State, s': State)
    requires s'.prep == s.prep && s'.restoreTime == s.restoreTime
    ensures Healthy(w, s) == Healthy(w, s')
  {
    hide SnapshotAt, Replay, TaggedDrill, SourceChecked;
  }

  // ------------------------------------------------------------------------
  // Every helped call goes on

  lemma NothingDeleted(h: seq<Event>, ev: Event)
    requires !Deleted(h) && !ev.TargetDeletion?
    ensures !Deleted(h + [ev])
  {
  }

  /** Operations of Run delete nothing and keep the drill's identity. */
  lemma OperationSpares(w: World, s: State, c: Choice)
    requires !Deleted(w.history)
    ensures var o := RunOperation(w, s, c);
            !Deleted(o.w.history) && (o.Done? ==> o.s.prep == s.prep && o.s.schema == s.schema && o.s.phase == s.phase)
  {
    hide Replay, ApplyTx, SourceChecked, TargetVerified, TargetValidates, Deleted;
    var o := RunOperation(w, s, c);
    if o.w.history != w.history {
      NothingDeleted(w.history, o.w.history[|w.history|]);
    }
  }

  /** Saves and gates: the drill is the same one, one interaction further. */
  lemma SaveOrGateStays(here: Sys, t: Turn)
    requires OnCourse(here) && (here.e.Creating? || here.e.RestoreGate? || here.e.Saving?)
    requires t.save == NoFault && t.grant
    ensures var next := Moved(here, t);
            OnCourse(next) && InMemory(next.e) == InMemory(here.e)
  {
    hide DrillInv, ValidPrepared, CommitTime, Deleted, Healthy;
    var next := Moved(here, t);
    StepDrillKeeps(here, NextAction(here, t));
    if here.e.RestoreGate? {
      NothingDeleted(here.w.history, next.w.history[|here.w.history|]);
      assert Rank(here.e.s.phase) <= 3 by { AtGate(here); }
    }
    assert Healthy(next.w, here.e.s) by {
      assert next.w.rds == here.w.rds && next.w.log == here.w.log;
      assert next.w.account == here.w.account && next.w.region == here.w.region;
      SameWorldHealth(here.w, next.w, here.e.s);
    }
  }

  lemma AtGate(sys: Sys)
    requires DrillInv(sys) && sys.e.RestoreGate?
    ensures Rank(sys.e.s.phase) <= 3
  {
    hide LogInv, MarkerFacts, ValidPrepared, GateInv, TargetInv;
  }

  lemma SameWorldHealth(w: World, w': World, s: State)
    requires w'.rds == w.rds && w'.log == w.log && w'.account == w.account && w'.region == w.region
    ensures Healthy(w', s) == Healthy(w, s)
  {
    hide SnapshotAt, Replay, TaggedDrill, Usable;
  }

  /** Preflight yields a new drill. */
  lemma PreflightStays(here: Sys, t: Turn)
    requires OnCourse(here) && here.e.Preparing? && t.prepared.Some? && Prepares(here.w, t.prepared.value)
    ensures var next := Moved(here, t);
            OnCourse(next) && InMemory(next.e) == Some(InitialState(t.prepared.value))
  {
    hide DrillInv, CommitTime, Deleted, SnapshotAt, Replay, SourceChecked;
    StepDrillKeeps(here, NextAction(here, t));
  }

  /** The first marker is written, and the clock is to be read. */
  lemma FirstWriteStays(here: Sys, t: Turn)
    requires OnCourse(here) && here.e.Loop? && here.e.s.phase == Initialized && t.choice.fault == NoFault
    ensures var next := Moved(here, t);
            OnCourse(next) && InMemory(next.e) == Some(here.e.s)
  {
    hide MarkerInv, GateInv, TargetInv, ValidPrepared, Healthy, CommitTime, Deleted, WriteMarker;
    var c := t.choice;
    StepDrillKeeps(here, Operate(c));
    MarkerWriteSucceeds(here, c, "A");
    MarkerWriteHealthy(here, c, "A");
    OperationSpares(here.w, here.e.s, c);
  }

  /** Any later operation succeeds and leaves the next phase to save. */
  lemma OperationStays(here: Sys, t: Turn)
    requires OnCourse(here) && here.e.Loop? && 1 <= Rank(here.e.s.phase) <= 6
    requires t.choice.fault == NoFault && Serves(here.w, here.e.s, t.choice)
    ensures var next := Moved(here, t);
            OnCourse(next) && InMemory(next.e).Some? && next.e.s.prep == here.e.s.prep
  {
    hide DrillInv, ValidPrepared, Healthy, Serves, CommitTime, Deleted;
    var s, c := here.e.s, t.choice;
    StepDrillKeeps(here, Operate(c));
    OperationSucceeds(here, c);
    OperationHealthy(here, c);
    OperationSpares(here.w, s, c);
    ValidatedAtEnd(here.w, s, c);
    hide RunOperation;
  }

  lemma ValidatedAtEnd(w: World, s: State, c: Choice)
    ensures s.phase == Validated ==> RunOperation(w, s, c).Done? && RunOperation(w, s, c).s.validated
  {
  }

  /** The clock is read after the marker's commit. */
  lemma ReadingStays(here: Sys, t: Turn)
    requires OnCourse(here) && here.e.ReadingTime? && t.choice.fault == NoFault
    ensures var next := Moved(here, t);
            OnCourse(next) && InMemory(next.e).Some? && next.e.s.prep == here.e.s.prep
  {
    hide MarkerInv, GateInv, TargetInv, ValidPrepared, Healthy, CommitTime, Deleted, Replay;
    StepDrillKeeps(here, Operate(t.choice));
    ReadTimeSucceeds(here, t.choice);
    ReadTimeHealthy(here, t.choice);
    var o := ReadTime(here.w, here.e.s, t.choice);
    SameHealth(o.w, o.s, o.s.(phase := MarkerAWritten));
  }

  /** One helped interaction of a call that is not yet at its end. */
  lemma InteractionStays(sys: Sys, t: Turn)
    requires OnCourse(sys) && Helps(sys, t) && !AtEnd(sys.e)
    ensures OnCourse(Turned(sys, t)) && !Turned(sys, t).e.Idle?
    ensures InMemory(sys.e).Some? ==> Turned(sys, t).e.s.prep == sys.e.s.prep
    ensures sys.e.Preparing? ==> InMemory(Turned(sys, t).e) == Some(InitialState(t.prepared.value))
  {
    hide DrillInv, ValidPrepared, Healthy, Serves, CommitTime, Deleted, Prepares, Step, Elapse;
    MovesStayOnCourse(sys, t);
    var here := Elapse(sys, t.moves);
    match sys.e {
      case Preparing => PreflightStays(here, t);
      case Loop(s, _, _) => if s.phase == Initialized { FirstWriteStays(here, t); } else { OperationStays(here, t); }
      case ReadingTime(_) => ReadingStays(here, t);
      case _ => SaveOrGateStays(here, t);
    }
  }

  predicate AtEnd(e: Engine) {
    e.Loop? && e.call == RunCall && e.s.phase == CleanupPending
  }

  /** What a completed call leaves: the validated drill, and the same thing as every other completed drill. */
  ghost predicate LeavesCompleted(end: End, p: Prepared) {
    && end.ok && Completed(end.w) && end.w.persisted.value.prep == p
    && p.targetId in end.w.rds && LeftoverOf(end.w, p) == ExpectedLeftover(p)
  }

  lemma LastInteraction(sys: Sys, env: Environment, n: nat)
    requires OnCourse(sys) && AtEnd(sys.e) && Helps(sys, env(n, sys))
    ensures LeavesCompleted(Drive(sys, env, n), sys.e.s.prep)
  {
    hide MarkerInv, GateInv, TargetInv, ValidPrepared, Healthy, Serves, CommitTime, Deleted, Drive, Elapse,
         LeftoverOf, ExpectedLeftover;
    var t := env(n, sys);
    MovesStayOnCourse(sys, t);
    var here := Elapse(sys, t.moves);
    DriveStep(sys, env, n);
    StepDrillKeeps(here, Operate(t.choice));
    assert here.w.persisted == Some(sys.e.s) by { InSync(here); }
    CompletedLeaves(Sys(here.w, Idle));
  }

  lemma InSync(sys: Sys)
    requires DrillInv(sys) && sys.e.Loop?
    ensures sys.w.persisted == Some(sys.e.s)
  {
    hide LogInv, MarkerFacts, ValidPrepared, GateInv, TargetInv;
  }

  /** Every helped call that is on course completes its drill. */
  lemma {:induction false} HelpedCallCompletes(sys: Sys, env: Environment, n: nat)
    requires OnCourse(sys) && Helped(sys, env, n)
    ensures InMemory(sys.e).Some? ==> LeavesCompleted(Drive(sys, env, n), sys.e.s.prep)
    ensures sys.e.Preparing? && env(n, sys).prepared.Some? ==>
              LeavesCompleted(Drive(sys, env, n), env(n, sys).prepared.value)
    decreases Remaining(sys.e)
  {
    hide OnCourse, Helps, LeavesCompleted, Drive, Turned;
    if AtEnd(sys.e) {
      LastInteraction(sys, env, n);
    } else {
      InteractionStays(sys, env(n, sys));
      DriveStep(sys, env, n);
      HelpedCallCompletes(Turned(sys, env(n, sys)), env, n + 1);
    }
  }

  // ------------------------------------------------------------------------
  // Theorems about calls

  /** The outside helps throughout a Run that has work to do. */
  ghost predicate RunHelped(w: World, env: Environment) {
    var started := Step(Sys(w, Idle), BeginRun);
    started.Some? && !started.value.e.Idle? && Helped(started.value, env, 0)
  }

  /** A Run begins on course from wherever a calm history left the drill before cleanup. */
  lemma BeginsOnCourse(sys: Sys) returns (started: Sys)
    requires DrillInv(sys) && sys.e.Idle?
    requires sys.w.persisted.Some? ==> Rank(sys.w.persisted.value.phase) <= 6 && Healthy(sys.w, sys.w.persisted.value)
    ensures Step(sys, BeginRun) == Some(started) && OnCourse(started)
    ensures if sys.w.persisted.Some? then InMemory(started.e) == sys.w.persisted else started.e.Preparing?
  {
    hide LogInv, MarkerFacts, ValidPrepared, Authorized, Healthy, SnapshotAt, CreatedOnce;
    started := Step(sys, BeginRun).value;
    StepDrillKeeps(sys, BeginRun);
    if sys.w.persisted.Some? {
      SameWorldHealth(sys.w, started.w, sys.w.persisted.value);
    } else {
      assert !Deleted(sys.w.history);
    }
    NothingDeleted(sys.w.history, CallStarted);
  }

  /** Nothing of the drill is deleted yet, and the outside is as a Run expects it. */
  ghost predicate Resumable(w: World) {
    && DrillInv(Sys(w, Idle))
    && (w.persisted.Some? ==> Rank(w.persisted.value.phase) <= 6 && Healthy(w, w.persisted.value))
  }

  /** The drill a Run is about: the persisted one, or the one its preflight prepares. */
  function DrillOf(w: World, env: Environment): Option<Prepared> {
    match w.persisted
    case Some(s) => Some(s.prep)
    case None => env(0, Sys(Record(w, CallStarted), Preparing)).prepared
  }

  /** Every Run that the outside helps completes its drill. */
  lemma RunCompletes(w: World, env: Environment)
    requires Resumable(w) && RunHelped(w, env)
    ensures DrillOf(w, env).Some? && LeavesCompleted(RunEnd(w, env), DrillOf(w, env).value)
  {
    hide DrillInv, Healthy, OnCourse, LeavesCompleted, Drive, Prepares;
    var started := BeginsOnCourse(Sys(w, Idle));
    HelpedCallCompletes(started, env, 0);
  }

  /**
   * From every point a calm history can leave a drill in before cleanup, every Run that
   * the outside helps validates the target and stops at cleanup-pending, leaving what
   * every completed drill leaves. Crashes, faults and failed saves before it do not matter.
   */
  lemma ResumedRunCompletes(init: Sys, acts: seq<Action>, env: Environment)
    requires Initial(init) && CalmExec(init, acts) && Exec(init, acts).Some?
    requires var sys := Exec(init, acts).value;
             && sys.e.Idle? && sys.w.persisted.Some? && Rank(sys.w.persisted.value.phase) <= 6
             && Healthy(sys.w, sys.w.persisted.value) && RunHelped(sys.w, env)
    ensures var w := Exec(init, acts).value.w; LeavesCompleted(RunEnd(w, env), w.persisted.value.prep)
  {
    hide DrillInv, Healthy, RunHelped, RunEnd, LeavesCompleted, CalmExec, Exec;
    CalmReaches(init, acts);
    var sys := Exec(init, acts).value;
    assert sys == Sys(sys.w, Idle);
    RunCompletes(sys.w, env);
  }

  /** After any calm history that never got past preflight, every helped Run completes a new drill. */
  lemma UninterruptedRunCompletes(init: Sys, acts: seq<Action>, env: Environment)
    requires Initial(init) && CalmExec(init, acts) && Exec(init, acts).Some?
    requires var sys := Exec(init, acts).value; sys.e.Idle? && sys.w.persisted.None? && RunHelped(sys.w, env)
    ensures var w := Exec(init, acts).value.w;
            var preflight := env(0, Sys(Record(w, CallStarted), Preparing)).prepared;
            preflight.Some? && LeavesCompleted(RunEnd(w, env), preflight.value)
  {
    hide DrillInv, Healthy, RunHelped, RunEnd, LeavesCompleted, CalmExec, Exec;
    CalmReaches(init, acts);
    var sys := Exec(init, acts).value;
    assert sys == Sys(sys.w, Idle);
    RunCompletes(sys.w, env);
  }

  lemma CalmSnoc(sys: Sys, acts: seq<Action>, a: Action)
    requires CalmExec(sys, acts) && Exec(sys, acts).Some? && Calm(Exec(sys, acts).value, a)
    ensures CalmExec(sys, acts + [a]) && Exec(sys, acts + [a]) == Step(Exec(sys, acts).value, a)
  {
    hide Step, Calm;
    assert (acts + [a])[..|acts|] == acts;
  }

  /** A first Run that dies right after its first save. */
  lemma DiesAfterSave(init: Sys, p: Prepared) returns (acts: seq<Action>, sys: Sys)
    requires Initial(init) && Prepares(init.w, p)
    ensures acts == [BeginRun, Prepare(p), Save(NoFault), Crash]
    ensures CalmExec(init, acts) && Exec(init, acts) == Some(sys) && sys.e.Idle?
    ensures sys.w == Record(init.w, CallStarted).(persisted := Some(InitialState(p)))
  {
    hide ValidPrepared, Replay, SourceChecked, CalmExec, Exec;
    var w := Record(init.w, CallStarted);
    var s1, s2 := Sys(w, Preparing), Sys(w, Creating(InitialState(p)));
    var saved := w.(persisted := Some(InitialState(p)));
    sys := Sys(saved, Idle);
    NothingDone(init);
    CalmSnoc(init, [], BeginRun);
    CalmSnoc(init, [] + [BeginRun], Prepare(p));
    CalmSnoc(init, [] + [BeginRun] + [Prepare(p)], Save(NoFault));
    CalmSnoc(init, [] + [BeginRun] + [Prepare(p)] + [Save(NoFault)], Crash);
    acts := [BeginRun, Prepare(p), Save(NoFault), Crash];
    assert [] + [BeginRun] + [Prepare(p)] + [Save(NoFault)] + [Crash] == acts;
  }

  lemma NothingDone(sys: Sys)
    ensures CalmExec(sys, []) && Exec(sys, []) == Some(sys)
  {
  }

  /** A first Run that dies right after its first save leaves a drill that every helped Run completes. */
  lemma FreshDrill(init: Sys, p: Prepared, env: Environment)
    requires Initial(init) && Prepares(init.w, p)
    ensures var acts := [BeginRun, Prepare(p), Save(NoFault), Crash];
            && CalmExec(init, acts) && Exec(init, acts).Some?
            && var sys := Exec(init, acts).value;
               && sys.e.Idle? && sys.w.persisted == Some(InitialState(p)) && Healthy(sys.w, InitialState(p))
               && (RunHelped(sys.w, env) ==> LeavesCompleted(RunEnd(sys.w, env), p))
  {
    hide Exec, CalmExec, Healthy, RunHelped, LeavesCompleted, ValidPrepared;
    var acts, sys := DiesAfterSave(init, p);
    PreparedIsHealthy(init.w, sys.w, p);
    if RunHelped(sys.w, env) {
      ResumedRunCompletes(init, acts, env);
    }
  }

  lemma PreparedIsHealthy(w: World, w': World, p: Prepared)
    requires Prepares(w, p) && w'.rds == w.rds && w'.log == w.log && w'.account == w.account && w'.region == w.region
    ensures Healthy(w', InitialState(p))
  {
    hide Replay, TaggedDrill;
  }

  // ------------------------------------------------------------------------
  // Help is possible

  /** Answers that serve the drill in the position it is in. */
  function GoodChoice(sys: Sys): Choice {
    match InMemory(sys.e)
    case None => Choice(NoFault, 0, Window(0, 1), true, "", "", "", "", 0)
    case Some(s) =>
      var t := if s.restoreTime.Some? then s.restoreTime.value else 0;
      Choice(NoFault, 0, Window(t, t + 1), true,
             "arn:target", s.prep.sourceResourceId + "-target", s.prep.sourceEndpoint + "-target", "",
             s.prep.sourceStorage)
  }

  /** Provisioning finishes by the time the call looks at the target. */
  function Provisioning(sys: Sys): seq<Action> {
    if sys.e.Loop? && sys.e.s.prep.targetId in sys.w.rds && sys.w.rds[sys.e.s.prep.targetId].status == StatusCreating
    then [Progress(sys.e.s.prep.targetId, sys.e.s.prep.sourceEndpoint + "-target")]
    else []
  }

  function Obliging(p: Prepared): Environment {
    (n, sys) => Turn(Provisioning(sys), GoodChoice(sys), NoFault, true, Some(p))
  }

  lemma ObligingHelps(sys: Sys, p: Prepared)
    requires OnCourse(sys) && (sys.e.Preparing? ==> Prepares(sys.w, p))
    ensures Helps(sys, Obliging(p)(0, sys))
  {
    hide DrillInv, ValidPrepared, Deleted, CommitTime, SourceChecked, Replay, SnapshotAt, Prepares, TaggedDrill,
         Healthy, Step;
    if sys.e.Loop? && 1 <= Rank(sys.e.s.phase) <= 6 {
      Timed(sys);
    }
    if Provisioning(sys) != [] {
      ProvisioningCalm(sys);
    } else {
      assert Elapse(sys, []) == sys;
      if sys.e.Loop? && sys.e.s.prep.targetId in sys.w.rds {
        Provisioned(sys.w, sys.e.s);
      }
    }
  }

  lemma Provisioned(w: World, s: State)
    requires Healthy(w, s) && s.prep.targetId in w.rds && w.rds[s.prep.targetId].status != StatusCreating
    ensures w.rds[s.prep.targetId].status == StatusAvailable
  {
    hide SourceChecked, Replay, SnapshotAt, TaggedDrill;
  }

  /** Provisioning is calm, keeps the drill healthy and makes the target available. */
  lemma ProvisioningCalm(sys: Sys)
    requires sys.e.Loop? && Healthy(sys.w, sys.e.s) && Provisioning(sys) != []
    ensures CalmMoves(sys, Provisioning(sys))
    ensures var w := Elapse(sys, Provisioning(sys)).w;
            && Healthy(w, sys.e.s) && sys.e.s.prep.targetId in w.rds
            && w.rds[sys.e.s.prep.targetId].status == StatusAvailable
  {
    hide SourceChecked, Replay, SnapshotAt, TaggedDrill;
    var a, s := Provisioning(sys)[0], sys.e.s;
    var next := Step(sys, a).value;
    assert Provisioning(sys)[1..] == [] && Elapse(next, []) == next && CalmMoves(next, []);
    OthersStay(sys, a);
    assert |a.newEndpoint| > |s.prep.sourceEndpoint|;
    assert Usable(s, next.w.rds[s.prep.targetId]);
  }

  lemma OthersStay(sys: Sys, a: Action)
    requires a.Progress? && Step(sys, a).Some? && InMemory(sys.e).Some? && SourceChecked(sys.w, sys.e.s.prep)
    requires a.id != sys.e.s.prep.sourceId
    ensures SourceChecked(Step(sys, a).value.w, sys.e.s.prep)
  {
  }

  /** So from every position on course there is a way for the outside to help to the end. */
  lemma {:induction false} HelpIsPossible(sys: Sys, p: Prepared, n: nat)
    requires OnCourse(sys) && (sys.e.Preparing? ==> Prepares(sys.w, p))
    ensures Helped(sys, Obliging(p), n)
    decreases Remaining(sys.e)
  {
    hide OnCourse, Helps, Turned, Prepares;
    ObligingHelps(sys, p);
    var t := Obliging(p)(n, sys);
    if !AtEnd(sys.e) {
      InteractionStays(sys, t);
      HelpIsPossible(Turned(sys, t), p, n + 1);
    } else {
      LastMove(sys, t);
    }
  }

  lemma LastMove(sys: Sys, t: Turn)
    requires AtEnd(sys.e)
    ensures Turned(sys, t).e.Idle?
  {
    hide RunOperation;
  }

  /** A resumable drill, or a new one whose preflight would pass, can always be helped. */
  lemma HelpedRunExists(w: World, p: Prepared)
    requires Resumable(w) && (w.persisted.None? ==> Prepares(w, p))
    ensures RunHelped(w, Obliging(p))
  {
    hide DrillInv, Healthy, OnCourse, Helped, ValidPrepared, Replay;
    var started := BeginsOnCourse(Sys(w, Idle));
    HelpIsPossible(started, p, 0);
  }
}
