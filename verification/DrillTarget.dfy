/**
 * The restored instance over every history in which nobody else touches the drill's
 * target: at most one is ever created, and what it holds is the source as of the
 * persisted restore time.
 */
module DrillTarget {
  import opened Prelude
  import opened Markers
  import opened Drill
  import opened DrillMarkers
  import opened DrillApprovals

  /** Nobody outside the drill creates, alters or removes its target. */
  predicate Calm(sys: Sys, a: Action) {
    && (a.OutsideSet? || a.OutsideRemove? ==> !OwnTarget(sys, a.id))
    && (a.Prepare? ==> a.p.targetId !in sys.w.rds)
  }

  ghost predicate CalmExec(sys: Sys, acts: seq<Action>) {
    acts == [] ||
    (var head := acts[..|acts| - 1];
     CalmExec(sys, head) && Exec(sys, head).Some? && Calm(Exec(sys, head).value, acts[|acts| - 1]))
  }

  /** The instance the drill asked for, holding the source as of the restore time. */
  predicate Ours(log: seq<Commit>, s: State, inst: Instance) {
    && s.restoreTime.Some? && inst.data == SnapshotAt(log, s.restoreTime.value)
    && inst.instanceClass == s.prep.targetClass && inst.network == s.prep.network && inst.tags == s.prep.tags
    && !inst.publiclyAccessible && inst.encrypted && !inst.multiAz && inst.retention == 0
    && (s.targetArn != "" ==> inst.arn == s.targetArn)
    && (s.targetResourceId != "" ==> inst.resourceId == s.targetResourceId)
  }

  ghost predicate Deleted(h: seq<Event>) {
    exists i :: 0 <= i < |h| && h[i].TargetDeletion?
  }

  ghost predicate TargetFacts(w: World, s: State) {
    var id, rank := s.prep.targetId, Rank(s.phase);
    var created := TargetCreated(id) in w.history;
    && (id in w.rds ==> created && Ours(w.log, s, w.rds[id]))
    && (rank <= 2 ==> !created)
    && (4 <= rank <= 6 || s.validated ==> created)
    && (rank <= 6 ==> !Deleted(w.history))
    && (created && !Deleted(w.history) ==> id in w.rds && w.rds[id].status != StatusDeleting)
    && ValidationsSawSnapshot(w, s)
  }

  /** Every validation read the source as of the restore time. */
  ghost predicate ValidationsSawSnapshot(w: World, s: State) {
    forall ev :: ev in w.history && ev.ValidationPassed? ==>
      s.restoreTime.Some? && ev.found == SnapshotAt(w.log, s.restoreTime.value)
  }

  ghost predicate CreatedOnce(h: seq<Event>) {
    forall i, j :: 0 <= i < j < |h| ==> !(h[i].TargetCreated? && h[j].TargetCreated?)
  }

  ghost predicate TargetInv(sys: Sys) {
    var w, e := sys.w, sys.e;
    && CreatedOnce(w.history)
    && (w.persisted.Some? ==> TargetFacts(w, w.persisted.value))
    && (Ahead(e) ==> TargetFacts(w, e.s))
    && (e.Creating? ==> e.s.prep.targetId !in w.rds)
  }

  /** The three invariants together. */
  ghost predicate DrillInv(sys: Sys) {
    MarkerInv(sys) && GateInv(sys) && TargetInv(sys)
  }

  /** Nothing that bears on the target changed. */
  predicate SameTargetWorld(w: World, w': World, id: string) {
    && w'.history == w.history
    && (id in w'.rds <==> id in w.rds)
    && (id in w.rds ==> w'.rds[id] == w.rds[id])
    && w'.log == w.log
  }

  lemma FactsSame(w: World, w': World, s: State)
    requires TargetFacts(w, s) && SameTargetWorld(w, w', s.prep.targetId)
    ensures TargetFacts(w', s)
  {
    hide SnapshotAt;
  }

  /** An event that neither creates nor deletes, and commits after the restore time, change nothing. */
  lemma FactsGrow(w: World, w': World, s: State, evs: seq<Event>, more: seq<Commit>)
    requires TargetFacts(w, s)
    requires w'.history == w.history + evs && w'.log == w.log + more && w'.rds == w.rds
    requires forall i :: 0 <= i < |evs| ==> !evs[i].TargetCreated? && !evs[i].TargetDeletion?
    requires forall i :: 0 <= i < |evs| && evs[i].ValidationPassed? ==>
               s.restoreTime.Some? && evs[i].found == SnapshotAt(w.log, s.restoreTime.value)
    requires s.restoreTime.Some? ==> forall i :: 0 <= i < |more| ==> more[i].time > s.restoreTime.value
    ensures TargetFacts(w', s)
  {
    hide SnapshotAt;
    if s.restoreTime.Some? {
      SnapshotFrozen(w.log, more, s.restoreTime.value);
    }
    assert TargetCreated(s.prep.targetId) in w'.history <==> TargetCreated(s.prep.targetId) in w.history;
    if Deleted(w'.history) {
      var i :| 0 <= i < |w'.history| && w'.history[i].TargetDeletion?;
      assert w.history[i] == w'.history[i];
    }
    if Deleted(w.history) {
      var i :| 0 <= i < |w.history| && w.history[i].TargetDeletion?;
      assert w'.history[i] == w.history[i];
    }
  }

  lemma CreatedOnceGrows(h: seq<Event>, ev: Event)
    requires CreatedOnce(h) && !ev.TargetCreated?
    ensures CreatedOnce(h + [ev])
  {
  }

  /** A state that moved on keeps the facts if it agrees with the instance about its identity. */
  lemma FactsAdvance(w: World, s: State, s': State)
    requires TargetFacts(w, s) && Follows(s, s')
    requires 4 <= Rank(s'.phase) <= 6 || s'.validated ==> TargetCreated(s.prep.targetId) in w.history
    requires s.prep.targetId in w.rds ==>
               && (s'.targetArn != "" ==> w.rds[s.prep.targetId].arn == s'.targetArn)
               && (s'.targetResourceId != "" ==> w.rds[s.prep.targetId].resourceId == s'.targetResourceId)
    ensures TargetFacts(w, s')
  {
    hide SnapshotAt;
  }

  // ------------------------------------------------------------------------
  // Steps that leave the instances alone

  /** An event that neither creates nor deletes nor validates. */
  predicate OnlyObserves(ev: Event) {
    !ev.TargetCreated? && !ev.TargetDeletion? && !ev.ValidationPassed?
  }

  lemma GrowthKeeps(sys: Sys, sys': Sys, evs: seq<Event>, more: seq<Commit>)
    requires MarkerInv(sys) && TargetInv(sys)
    requires sys'.w == sys.w.(history := sys.w.history + evs, log := sys.w.log + more, clock := sys'.w.clock)
    requires |evs| <= 1 && forall i :: 0 <= i < |evs| ==> OnlyObserves(evs[i])
    requires forall i :: 0 <= i < |more| ==> more[i].time > sys.w.clock
    requires Ahead(sys'.e) ==> sys.w.persisted == Some(sys'.e.s) || (Ahead(sys.e) && sys'.e.s == sys.e.s)
    requires sys'.e.Creating? ==> sys'.e == sys.e
    ensures TargetInv(sys')
  {
    hide LogInv, ValidPrepared, CommitTime, TargetFacts;
    if sys.w.persisted.Some? {
      FactsGrow(sys.w, sys'.w, sys.w.persisted.value, evs, more);
    }
    if Ahead(sys.e) {
      FactsGrow(sys.w, sys'.w, sys.e.s, evs, more);
    }
    if evs != [] {
      assert evs == [evs[0]];
      CreatedOnceGrows(sys.w.history, evs[0]);
    } else {
      assert sys.w.history + evs == sys.w.history;
    }
  }

  lemma SaveTargetKeeps(sys: Sys, fault: Fault)
    requires MarkerInv(sys) && GateInv(sys) && TargetInv(sys) && SaveStep(sys.w, sys.e, fault).Some?
    ensures TargetInv(SaveStep(sys.w, sys.e, fault).value)
  {
    hide LogInv, ValidPrepared, MarkerFacts, Authorized, CreatedOnce, TargetFacts, OnlyCalls, Earned, PointOk;
    var sys' := SaveStep(sys.w, sys.e, fault).value;
    if sys.e.Creating? {
      NewTargetFacts(sys.w, sys.e.s);
    }
    forall s | TargetFacts(sys.w, s) ensures TargetFacts(sys'.w, s) {
      FactsSame(sys.w, sys'.w, s);
    }
  }

  lemma NewTargetFacts(w: World, s: State)
    requires OnlyCalls(w.history) && s == InitialState(s.prep) && s.prep.targetId !in w.rds
    ensures TargetFacts(w, s)
  {
    hide SnapshotAt;
  }

  /** Saving, after an operation that changed neither the instances nor the database. */
  lemma SavedStateKeeps(sys: Sys, s': State, call: Call, approved: bool)
    requires MarkerInv(sys) && TargetInv(sys) && Synced(sys.e) && Follows(sys.e.s, s')
    requires 4 <= Rank(s'.phase) <= 6 || s'.validated ==> TargetCreated(s'.prep.targetId) in sys.w.history
    requires s'.prep.targetId in sys.w.rds ==>
               && (s'.targetArn != "" ==> sys.w.rds[s'.prep.targetId].arn == s'.targetArn)
               && (s'.targetResourceId != "" ==> sys.w.rds[s'.prep.targetId].resourceId == s'.targetResourceId)
    ensures TargetInv(Sys(sys.w, Saving(s', call, approved)))
  {
    hide LogInv, ValidPrepared, MarkerFacts, TargetFacts;
    FactsAdvance(sys.w, sys.e.s, s');
  }

  // ------------------------------------------------------------------------
  // Creation and deletion

  lemma CreationKeeps(sys: Sys, inst: Instance)
    requires DrillInv(sys) && sys.e.Loop? && sys.e.s.phase == MarkerBWritten
    requires sys.e.s.prep.targetId !in sys.w.rds
    requires Ours(sys.w.log, sys.e.s, inst) && inst.status != StatusDeleting
    ensures var s := sys.e.s;
            var w' := Record(sys.w.(rds := sys.w.rds[s.prep.targetId := inst]), TargetCreated(s.prep.targetId));
            TargetFacts(w', s) && CreatedOnce(w'.history)
  {
    hide LogInv, ValidPrepared, MarkerFacts, SnapshotAt;
    var s, h := sys.e.s, sys.w.history;
    var h' := h + [TargetCreated(s.prep.targetId)];
    assert h'[|h|] == TargetCreated(s.prep.targetId);
    forall i | 0 <= i < |h| && h[i].TargetCreated? ensures h[i] == TargetCreated(s.prep.targetId) {
      assert Allowed(h[..i], h[i], s.prep);
    }
  }

  lemma RequestKeeps(sys: Sys, c: Choice)
    requires DrillInv(sys) && sys.e.Loop? && sys.e.call == RunCall && sys.e.s.phase == MarkerBWritten
    ensures TargetInv(RunIteration(sys.w, sys.e.s, sys.e.approved, c))
  {
    hide LogInv, ValidPrepared, CommitTime, NeverCleaned, Authorized, GateInv, SnapshotAt, SourceChecked, TargetFacts,
         CreatedOnce;
    var w, s := sys.w, sys.e.s;
    var o := RequestRestore(w, s, c);
    if o.w != w {
      var inst := NewTarget(w, s, c);
      CreationKeeps(sys, inst);
      if o.Done? {
        FactsAdvance(o.w, s, o.s.(phase := RestoreRequested));
      }
    } else if o.Done? {
      TargetKnown(w, s);
      SavedStateKeeps(sys, o.s.(phase := RestoreRequested), RunCall, sys.e.approved);
    }
  }

  /** A validation reads the target, which holds the source as of the restore time. */
  lemma ValidationKeeps(sys: Sys, c: Choice)
    requires DrillInv(sys) && sys.e.Loop? && sys.e.call == RunCall && sys.e.s.phase == TargetAvailable
    ensures TargetInv(RunIteration(sys.w, sys.e.s, sys.e.approved, c))
  {
    hide LogInv, ValidPrepared, MarkerFacts, GateInv, SnapshotAt, CreatedOnce, ValidateTarget, HoldsBoundary, Deleted;
    var w, s := sys.w, sys.e.s;
    if ValidateTarget(w, s, c).Done? {
      ValidationFinds(w, s, c);
      var w' := ValidateTarget(w, s, c).w;
      var ev := ValidationPassed(s.prep.targetId, w.rds[s.prep.targetId].data, s.checksum.value);
      assert w.log + [] == w.log;
      FactsGrow(w, w', s, [ev], []);
      CreatedOnceGrows(w.history, ev);
      FactsAdvance(w', s, s.(phase := Validated));
    } else {
      assert ValidateTarget(w, s, c) == Failed(w) by { FailedValidation(w, s, c); }
    }
  }

  lemma FailedValidation(w: World, s: State, c: Choice)
    requires !ValidateTarget(w, s, c).Done?
    ensures ValidateTarget(w, s, c) == Failed(w)
  {
  }

  lemma TargetKnown(w: World, s: State)
    requires TargetFacts(w, s) && s.prep.targetId in w.rds
    ensures TargetCreated(s.prep.targetId) in w.history
  {
    hide SnapshotAt;
  }

  lemma DeletionKeeps(sys: Sys, c: Choice)
    requires DrillInv(sys) && sys.e.Loop? && sys.e.call == CleanupCall && sys.e.s.phase == CleanupPending
    ensures TargetInv(CleanupIteration(sys.w, sys.e.s, sys.e.approved, c))
  {
    hide LogInv, ValidPrepared, MarkerFacts, Authorized, GateInv, SnapshotAt, CleanupPrepared, CreatedOnce;
    var w, s := sys.w, sys.e.s;
    var o := DeleteTarget(w, s, c);
    if o.w != w {
      var ev := TargetDeletion(s.prep.targetId, w.rds[s.prep.targetId].tags);
      CreatedOnceGrows(w.history, ev);
      assert o.w.history[|w.history|].TargetDeletion?;
      assert Deleted(o.w.history);
      assert TargetFacts(o.w, s);
    }
    if o.Done? {
      FactsAdvance(o.w, s, o.s.(phase := TargetDeleteRequested));
    }
  }

  /** Provisioning, deletion finishing, and other people's instances. */
  lemma InstanceStepKeeps(sys: Sys, a: Action)
    requires DrillInv(sys) && Step(sys, a).Some? && Calm(sys, a)
    requires a.Progress? || a.FinishDelete? || a.OutsideSet? || a.OutsideRemove?
    ensures TargetInv(Step(sys, a).value)
  {
    hide LogInv, ValidPrepared, MarkerFacts, Authorized, GateInv, SnapshotAt, CreatedOnce;
    var w' := Step(sys, a).value.w;
    if sys.w.persisted.Some? {
      assert TargetFacts(w', sys.w.persisted.value);
    }
    if Ahead(sys.e) {
      assert TargetFacts(w', sys.e.s);
    }
  }

  // ------------------------------------------------------------------------
  // Every calm step keeps the invariant

  lemma RunTargetKeeps(sys: Sys, c: Choice)
    requires DrillInv(sys) && sys.e.Loop? && sys.e.call == RunCall
    ensures TargetInv(RunIteration(sys.w, sys.e.s, sys.e.approved, c))
  {
    hide LogInv, ValidPrepared, CommitTime, NeverCleaned, Authorized, GateInv, SnapshotAt, SourceChecked, CreatedOnce,
         Replay, ApplyTx, Validates, Deleted;
    var w, s, approved := sys.w, sys.e.s, sys.e.approved;
    var sys' := RunIteration(w, s, approved, c);
    match s.phase {
      case Initialized => MarkerWriteKeeps(sys, "A", c, sys'.e);
      case MarkerAWritten =>
        if sys'.e.Saving? { SavedStateKeeps(sys, sys'.e.s, RunCall, approved); }
      case WindowReady =>
        if sys'.e.Saving? {
          MarkerWriteKeeps(sys, "B", c, Loop(s, RunCall, approved));
          FactsAdvance(sys'.w, s, sys'.e.s);
        } else {
          MarkerWriteKeeps(sys, "B", c, sys'.e);
        }
      case MarkerBWritten => RequestKeeps(sys, c);
      case RestoreRequested =>
        if sys'.e.Saving? { SavedStateKeeps(sys, sys'.e.s, RunCall, approved); }
      case TargetAvailable => ValidationKeeps(sys, c);
      case Validated => SavedStateKeeps(sys, sys'.e.s, RunCall, approved);
      case _ =>
    }
  }

  lemma MarkerWriteKeeps(sys: Sys, name: string, c: Choice, e': Engine)
    requires MarkerInv(sys) && TargetInv(sys) && sys.e.Loop?
    requires e' == Failing(sys.e.s) || e' == ReadingTime(sys.e.s) || e' == sys.e
    ensures TargetInv(Sys(WriteMarker(sys.w, sys.e.s, name, c).w, e'))
  {
    hide LogInv, ValidPrepared, MarkerFacts, TargetFacts, CreatedOnce, Replay, ApplyTx;
    var w, w' := sys.w, WriteMarker(sys.w, sys.e.s, name, c).w;
    if w' == w {
      assert w.history + [] == w.history && w.log + [] == w.log;
      GrowthKeeps(sys, Sys(w', e'), [], []);
    } else {
      GrowthKeeps(sys, Sys(w', e'), [w'.history[|w.history|]], [w'.log[|w.log|]]);
    }
  }

  lemma CleanupTargetKeeps(sys: Sys, c: Choice)
    requires DrillInv(sys) && sys.e.Loop? && sys.e.call == CleanupCall
    ensures TargetInv(CleanupIteration(sys.w, sys.e.s, sys.e.approved, c))
  {
    hide LogInv, ValidPrepared, MarkerFacts, CleanupPrepared, Authorized, GateInv, SourceChecked, CreatedOnce, Replay,
         TargetFacts;
    var w, s := sys.w, sys.e.s;
    match s.phase {
      case CleanupPending => DeletionKeeps(sys, c);
      case TargetDeleteRequested => ObservationKeeps(sys, WaitDeleted(w, s, c), [TargetAbsent(s.prep.targetId)], []);
      case TargetDeleted =>
        var commit := Commit(w.clock + 1 + c.gap, CleanupDrill(s.prep.drillId));
        ObservationKeeps(sys, CleanupMarkers(w, s, c), [MarkersCleaned(s.prep.drillId)], [commit]);
      case SourceMarkerCleaned => ObservationKeeps(sys, VerifyClean(w, s, c), [InventoryVerified(w.rds, c.window)], []);
      case _ =>
    }
  }

  /** An operation that at most observes or commits, and leaves the instances alone. */
  lemma ObservationKeeps(sys: Sys, o: Outcome, evs: seq<Event>, more: seq<Commit>)
    requires DrillInv(sys) && sys.e.Loop? && sys.e.call == CleanupCall && Rank(sys.e.s.phase) >= 8
    requires o.w == sys.w || o.w == sys.w.(history := sys.w.history + evs, log := sys.w.log + more, clock := o.w.clock)
    requires o.Done? ==> o.s == sys.e.s
    requires |evs| <= 1 && forall i :: 0 <= i < |evs| ==> OnlyObserves(evs[i])
    requires forall i :: 0 <= i < |more| ==> more[i].time > sys.w.clock
    ensures TargetInv(Advance(o, sys.e.s, Following(sys.e.s.phase), CleanupCall, sys.e.approved))
  {
    hide LogInv, ValidPrepared, MarkerFacts, GateInv, CreatedOnce;
    var s := sys.e.s;
    if o.w == sys.w {
      assert sys.w.history + [] == sys.w.history && sys.w.log + [] == sys.w.log;
      GrowthKeeps(sys, Sys(o.w, Failing(s)), [], []);
    } else {
      GrowthKeeps(sys, Sys(o.w, Failing(s)), evs, more);
    }
    if o.Done? {
      MovedOn(o.w, s, s.(phase := Following(s.phase)));
    }
  }

  /** A cleanup phase that moves on relies on nothing new. */
  lemma MovedOn(w: World, s: State, s': State)
    requires TargetFacts(w, s) && s' == s.(phase := s'.phase) && 7 <= Rank(s.phase) <= Rank(s'.phase)
    ensures TargetFacts(w, s')
  {
    hide SnapshotAt, Deleted;
  }

  lemma OperateTargetKeeps(sys: Sys, c: Choice)
    requires DrillInv(sys) && Step(sys, Operate(c)).Some?
    ensures TargetInv(Step(sys, Operate(c)).value)
  {
    hide LogInv, ValidPrepared, CommitTime, NeverCleaned, Authorized, GateInv, SnapshotAt, CreatedOnce, Replay, Deleted;
    if sys.e.Loop? {
      if sys.e.call == RunCall { RunTargetKeeps(sys, c); } else { CleanupTargetKeeps(sys, c); }
    } else {
      var o := ReadTime(sys.w, sys.e.s, c);
      FactsSame(sys.w, o.w, sys.e.s);
      if o.Done? {
        FactsAdvance(o.w, sys.e.s, o.s.(phase := MarkerAWritten));
      }
    }
  }

  lemma TargetStepKeeps(sys: Sys, a: Action)
    requires DrillInv(sys) && Step(sys, a).Some? && Calm(sys, a)
    ensures TargetInv(Step(sys, a).value)
  {
    hide LogInv, ValidPrepared, MarkerFacts, Authorized, GateInv, CreatedOnce, TargetFacts, Replay, ApplyTx;
    var w, sys' := sys.w, Step(sys, a).value;
    match a {
      case Operate(c) => OperateTargetKeeps(sys, c);
      case Save(fault) => SaveTargetKeeps(sys, fault);
      case Progress(_, _) => InstanceStepKeeps(sys, a);
      case FinishDelete(_) => InstanceStepKeeps(sys, a);
      case OutsideSet(_, _) => InstanceStepKeeps(sys, a);
      case OutsideRemove(_) => InstanceStepKeeps(sys, a);
      case Approve => ApproveTargetKeeps(sys);
      case Prepare(_) =>
      case _ => GrowthKeeps(sys, sys', sys'.w.history[|w.history|..], sys'.w.log[|w.log|..]);
    }
  }

  lemma ApproveTargetKeeps(sys: Sys)
    requires DrillInv(sys) && Step(sys, Approve).Some?
    ensures TargetInv(Step(sys, Approve).value)
  {
    hide LogInv, ValidPrepared, MarkerFacts, Authorized, GateInv, CreatedOnce, Deleted, SnapshotAt;
    var w, sys' := sys.w, Step(sys, Approve).value;
    assert sys'.w.log == w.log + [];
    GrowthKeeps(sys, Sys(sys'.w, Failing(sys.e.s)), [sys'.w.history[|w.history|]], []);
    if sys'.e.Entering? {
      FactsAdvance(sys'.w, sys.e.s, sys'.e.s);
    }
  }

  lemma StepDrillKeeps(sys: Sys, a: Action)
    requires DrillInv(sys) && Step(sys, a).Some? && Calm(sys, a)
    ensures DrillInv(Step(sys, a).value)
  {
    hide MarkerInv, GateInv, TargetInv, Step, Calm;
    StepKeeps(sys, a);
    GateStepKeeps(sys, a);
    TargetStepKeeps(sys, a);
  }

  lemma {:induction false} CalmKeeps(sys: Sys, acts: seq<Action>)
    requires DrillInv(sys) && CalmExec(sys, acts) && Exec(sys, acts).Some?
    ensures DrillInv(Exec(sys, acts).value)
  {
    hide DrillInv, Step, Calm;
    if acts != [] {
      var head, last := acts[..|acts| - 1], acts[|acts| - 1];
      CalmKeeps(sys, head);
      StepDrillKeeps(Exec(sys, head).value, last);
    }
  }

  // ------------------------------------------------------------------------
  // Theorems over every calm run

  lemma CalmReaches(init: Sys, acts: seq<Action>)
    requires Initial(init) && CalmExec(init, acts) && Exec(init, acts).Some?
    ensures DrillInv(Exec(init, acts).value)
  {
    InitialHolds(init);
    CalmKeeps(init, acts);
  }

  /**
   * All calls together create at most one target, even when a restore takes effect but
   * reports failure; while it exists it is the instance asked for, it agrees with the
   * persisted identity, and it holds the source as of the persisted restore time.
   */
  lemma SingleTarget(init: Sys, acts: seq<Action>)
    requires Initial(init) && CalmExec(init, acts) && Exec(init, acts).Some?
    ensures var w := Exec(init, acts).value.w;
            && CreatedOnce(w.history)
            && (w.persisted.Some? ==>
                  var p := w.persisted.value;
                  && (p.prep.targetId in w.rds ==> Ours(w.log, p, w.rds[p.prep.targetId]))
                  && (4 <= Rank(p.phase) <= 6 ==> p.prep.targetId in w.rds)
                  && (Rank(p.phase) <= 2 ==> p.prep.targetId !in w.rds))
  {
    CalmReaches(init, acts);
  }

  /**
   * When nobody else touches the target, a drill on record as validated restored a
   * database inside marker A, outside marker B and with all application tables: the
   * source as of the persisted restore time is such a database.
   */
  lemma ValidatedMeansRestorable(init: Sys, acts: seq<Action>)
    requires Initial(init) && CalmExec(init, acts) && Exec(init, acts).Some?
    requires var p := Exec(init, acts).value.w.persisted; p.Some? && (p.value.phase == Validated || p.value.validated)
    ensures var w := Exec(init, acts).value.w;
            var p := w.persisted.value;
            && p.restoreTime.Some? && p.checksum.Some?
            && HoldsBoundary(SnapshotAt(w.log, p.restoreTime.value), p.prep.drillId, p.checksum.value)
  {
    hide MarkerInv, Authorized, Earned, SnapshotAt, HoldsBoundary, CalmExec, Exec, CreatedOnce;
    CalmReaches(init, acts);
    var w := Exec(init, acts).value.w;
    ResultsAreReal(w.history, w.persisted.value);
    assert TargetFacts(w, w.persisted.value);
  }

  /** What a drill leaves behind, up to times and the names RDS hands out. */
  datatype Leftover = Leftover(
    markers: Table, instanceClass: string, network: Network, tags: map<string, string>,
    publiclyAccessible: bool, encrypted: bool, multiAz: bool, retention: int, restored: Table)

  function RowsOf(db: Db, drill: string): Table {
    if db.markers.None? then map[] else map k | k in db.markers.value && k.0 == drill :: db.markers.value[k]
  }

  function LeftoverOf(w: World, p: Prepared): Leftover
    requires p.targetId in w.rds
  {
    var inst := w.rds[p.targetId];
    Leftover(RowsOf(Replay(w.log), p.drillId), inst.instanceClass, inst.network, inst.tags,
             inst.publiclyAccessible, inst.encrypted, inst.multiAz, inst.retention, RowsOf(inst.data, p.drillId))
  }

  function ExpectedLeftover(p: Prepared): Leftover {
    Leftover(map[(p.drillId, "A") := p.payload, (p.drillId, "B") := p.payload],
             p.targetClass, p.network, p.tags, false, true, false, 0, map[(p.drillId, "A") := p.payload])
  }

  /** The drill validated its target, and nothing was deleted since. */
  ghost predicate Completed(w: World) {
    && w.persisted.Some? && w.persisted.value.validated && w.persisted.value.phase == CleanupPending
    && !Deleted(w.history)
  }

  /** What a completed drill leaves depends on its preflight alone. */
  lemma CompletedLeaves(sys: Sys)
    requires DrillInv(sys) && Completed(sys.w)
    ensures var p := sys.w.persisted.value.prep;
            p.targetId in sys.w.rds && LeftoverOf(sys.w, p) == ExpectedLeftover(p)
  {
    hide LogInv, ValidPrepared, CommitTime, NeverCleaned, Authorized, Validates, CreatedOnce, PointOk, Deleted;
    var w := sys.w;
    var s, d := w.persisted.value, w.persisted.value.prep.drillId;
    BoundaryOf(w, s);
    RowsOfPhase(w, s);
    var rows, data := Replay(w.log), w.rds[s.prep.targetId].data;
    assert data == SnapshotAt(w.log, s.restoreTime.value);
    assert RowsOf(data, d) == map[(d, "A") := s.prep.payload] by {
      hide SnapshotAt, Replay;
      forall k | k in RowsOf(data, d) ensures k == (d, "A") {
        assert HasMarker(data, d, k.1);
      }
      assert HasMarker(data, d, "A");
    }
    assert RowsOf(rows, d) == map[(d, "A") := s.prep.payload, (d, "B") := s.prep.payload] by {
      hide SnapshotAt, Replay;
      forall k | k in RowsOf(rows, d) ensures k == (d, "A") || k == (d, "B") {
        assert HasMarker(rows, d, k.1);
      }
      assert HasMarker(rows, d, "A") && HasMarker(rows, d, "B");
    }
  }

  /**
   * However often it was interrupted and resumed, a drill that validated and was not
   * approved for cleanup leaves the same thing behind: markers A and B in the source, and
   * one target holding A only.
   */
  lemma InterruptionsLeaveNoTrace(init: Sys, acts: seq<Action>)
    requires Initial(init) && CalmExec(init, acts) && Exec(init, acts).Some?
    requires var w := Exec(init, acts).value.w;
             && w.persisted.Some? && w.persisted.value.validated && w.persisted.value.phase == CleanupPending
             && CleanupGrant(w.persisted.value.prep) !in w.history
    ensures var w := Exec(init, acts).value.w;
            var p := w.persisted.value.prep;
            p.targetId in w.rds && LeftoverOf(w, p) == ExpectedLeftover(p)
  {
    hide TargetInv, LeftoverOf, ExpectedLeftover, MarkerInv, Exec, CalmExec;
    CalmReaches(init, acts);
    NotDeleted(Exec(init, acts).value.w);
    CompletedLeaves(Exec(init, acts).value);
  }

  lemma NotDeleted(w: World)
    requires w.persisted.Some? && Authorized(w.history, w.persisted.value.prep)
    requires CleanupGrant(w.persisted.value.prep) !in w.history
    ensures !Deleted(w.history)
  {
    var h, p := w.history, w.persisted.value.prep;
    forall i | 0 <= i < |h| ensures !h[i].TargetDeletion? {
      assert Allowed(h[..i], h[i], p);
      assert forall j :: 0 <= j < i ==> h[..i][j] == h[j];
    }
  }
}
