/** What a drill leaves behind once its cleanup went through. */
module DrillCleanup {
  import opened Markers
  import opened Drill
  import opened DrillMarkers
  import opened DrillTarget

  ghost predicate NoRows(log: seq<Commit>, drill: string) {
    forall n :: !HasMarker(Replay(log), drill, n)
  }

  /** What state s, persisted or in memory, may rely on about what is gone. */
  ghost predicate GoneFacts(w: World, s: State) {
    && (Rank(s.phase) >= 9 ==> s.prep.targetId !in w.rds)
    && (Rank(s.phase) >= 10 ==> NoRows(w.log, s.prep.drillId))
  }

  ghost predicate GoneInv(sys: Sys) {
    && (sys.w.persisted.Some? ==> GoneFacts(sys.w, sys.w.persisted.value))
    && (Ahead(sys.e) ==> GoneFacts(sys.w, sys.e.s))
  }

  lemma OthersKeepNoRows(log: seq<Commit>, c: Commit, drill: string)
    requires NoRows(log, drill) && !TouchesDrill(c.tx, drill)
    ensures NoRows(log + [c], drill)
  {
    hide Replay;
    ReplayAppend(log, c);
    forall n ensures !HasMarker(Replay(log + [c]), drill, n) {
      assert !HasMarker(Replay(log), drill, n);
    }
  }

  lemma CleanupLeavesNoRows(log: seq<Commit>, time: Time, drill: string)
    ensures NoRows(log + [Commit(time, CleanupDrill(drill))], drill)
  {
    hide Replay;
    ReplayAppend(log, Commit(time, CleanupDrill(drill)));
  }

  lemma ForeignKeepsGone(sys: Sys, tx: Tx)
    requires GoneInv(sys) && Step(sys, ForeignCommit(tx)).Some?
    ensures GoneInv(Step(sys, ForeignCommit(tx)).value)
  {
    hide NoRows, Replay, ApplyTx;
    var w := sys.w;
    var c := Commit(w.clock + 1, tx);
    if w.persisted.Some? && Rank(w.persisted.value.phase) >= 10 {
      OthersKeepNoRows(w.log, c, w.persisted.value.prep.drillId);
    }
    if Ahead(sys.e) && Rank(sys.e.s.phase) >= 10 {
      OthersKeepNoRows(w.log, c, sys.e.s.prep.drillId);
    }
  }

  /** In Run nothing is gone yet, and nothing need be. */
  lemma RunKeepsGone(sys: Sys, c: Choice)
    requires MarkerInv(sys) && GoneInv(sys) && sys.e.Loop? && sys.e.call == RunCall
    ensures GoneInv(RunIteration(sys.w, sys.e.s, sys.e.approved, c))
  {
    hide LogInv, MarkerFacts, ValidPrepared, NoRows, RunOperation;
    OperationsPersistNothing(sys.w, sys.e.s, c);
  }

  lemma CleanupKeepsGone(sys: Sys, c: Choice)
    requires MarkerInv(sys) && GoneInv(sys) && sys.e.Loop? && sys.e.call == CleanupCall
    ensures GoneInv(CleanupIteration(sys.w, sys.e.s, sys.e.approved, c))
  {
    hide LogInv, MarkerFacts, ValidPrepared, NoRows, Replay, ApplyTx, SourceChecked, CleanupPrepared, DeleteTarget;
    var w, s := sys.w, sys.e.s;
    OperationsPersistNothing(w, s, c);
    match s.phase {
      case TargetDeleted => CleanupLeavesNoRows(w.log, w.clock + 1 + c.gap, s.prep.drillId);
      case _ =>
    }
  }

  lemma StepKeepsGone(sys: Sys, a: Action)
    requires MarkerInv(sys) && GoneInv(sys) && Step(sys, a).Some? && Calm(sys, a)
    ensures GoneInv(Step(sys, a).value)
  {
    hide LogInv, MarkerFacts, ValidPrepared, NoRows, Replay, ApplyTx, RunIteration, CleanupIteration, CleanupPrepared,
         SaveStep;
    match a {
      case ForeignCommit(tx) => ForeignKeepsGone(sys, tx);
      case Operate(c) =>
        if sys.e.Loop? {
          if sys.e.call == RunCall { RunKeepsGone(sys, c); } else { CleanupKeepsGone(sys, c); }
        }
      case Save(fault) => SaveKeepsGone(sys, fault);
      case _ =>
    }
  }

  lemma SaveKeepsGone(sys: Sys, fault: Fault)
    requires MarkerInv(sys) && GoneInv(sys) && SaveStep(sys.w, sys.e, fault).Some?
    ensures GoneInv(SaveStep(sys.w, sys.e, fault).value)
  {
    hide LogInv, MarkerFacts, ValidPrepared, NoRows;
  }

  lemma {:induction false} ExecKeepsGone(sys: Sys, acts: seq<Action>)
    requires MarkerInv(sys) && GoneInv(sys) && CalmExec(sys, acts) && Exec(sys, acts).Some?
    ensures GoneInv(Exec(sys, acts).value)
  {
    hide MarkerInv, GoneInv, Step, Calm;
    if acts != [] {
      var head, last := acts[..|acts| - 1], acts[|acts| - 1];
      ExecKeepsGone(sys, head);
      ExecKeeps(sys, head);
      StepKeepsGone(Exec(sys, head).value, last);
    }
  }

  /**
   * When nobody else touches the target: from target-deleted on, however the cleanup was
   * interrupted, the target is gone for good, and from source-marker-cleaned on the
   * source holds no marker of this drill.
   */
  lemma CleanupLeavesNothing(init: Sys, acts: seq<Action>)
    requires Initial(init) && CalmExec(init, acts) && Exec(init, acts).Some?
    requires Exec(init, acts).value.w.persisted.Some?
    ensures var w := Exec(init, acts).value.w;
            var p := w.persisted.value;
            && (Rank(p.phase) >= Rank(TargetDeleted) ==> p.prep.targetId !in w.rds)
            && (Rank(p.phase) >= Rank(SourceMarkerCleaned) ==> RowsOf(Replay(w.log), p.prep.drillId) == map[])
  {
    InitialHolds(init);
    ExecKeepsGone(init, acts);
    var w := Exec(init, acts).value.w;
    var d := w.persisted.value.prep.drillId;
    if Rank(w.persisted.value.phase) >= 10 {
      assert NoRows(w.log, d);
      assert forall k :: k in RowsOf(Replay(w.log), d) ==> HasMarker(Replay(w.log), d, k.1);
    }
  }
}
