/**
 * What each operation of the drill demands before it counts as done, and what it then
 * does, written out field by field; and what the persisted record says over every run.
 */
module DrillChecks {
  import opened Prelude
  import opened Markers
  import opened Drill
  import opened DrillMarkers
  import opened DrillApprovals

  // ------------------------------------------------------------------------
  // What the operations of Run demand

  /** A half-open window, not empty, around the restore time. */
  predicate Covers(v: Window, s: State) {
    v.earliest < v.latest && s.restoreTime.Some? && v.earliest <= s.restoreTime.value
    && s.restoreTime.value < v.latest
  }

  /** The configured account and Region are the drill's, and its source is as preflight saw it. */
  predicate SourceInPlace(w: World, p: Prepared) {
    w.account == p.account && w.region == p.region && p.sourceId in w.rds && SourceUnchanged(w.rds[p.sourceId], p)
  }

  /** The instance the persisted target identity and the preflight describe, isolated as a drill's target must be. */
  predicate Requested(s: State, inst: Instance) {
    && s.prep.targetId != s.prep.sourceId && inst.arn != ""
    && (s.targetArn == "" || inst.arn == s.targetArn)
    && (s.targetResourceId == "" || inst.resourceId == s.targetResourceId)
    && !inst.publiclyAccessible && inst.encrypted && !inst.multiAz && inst.retention == 0
    && inst.instanceClass == s.prep.targetClass && s.prep.sourceStorage <= inst.storage
    && inst.network.subnetGroup == s.prep.network.subnetGroup && inst.network.port == s.prep.network.port
    && inst.network.securityGroups == s.prep.network.securityGroups
    && forall k :: k in s.prep.tags ==> s.prep.tags[k] == if k in inst.tags then inst.tags[k] else ""
  }

  /** A marker can be written when its table may be made or is there, and holds no other payload for it. */
  predicate Writable(db: Db, d: string, name: string, payload: string) {
    && (name == "A" || db.markers.Some?)
    && (db.markers.Some? && (d, name) in db.markers.value ==> db.markers.value[(d, name)] == payload)
  }

  /** The markers: which commit they make, and when they can be made. */
  lemma MarkersWritten(w: World, s: State, c: Choice)
    requires s.phase == Initialized || s.phase == WindowReady
    ensures var o, d := RunOperation(w, s, c), s.prep.drillId;
            var name := if s.phase == Initialized then "A" else "B";
            && (o.Done? <==> c.fault == NoFault && Writable(Replay(w.log), d, name, s.prep.payload))
            && (o.w != w <==> c.fault != FailBefore && Writable(Replay(w.log), d, name, s.prep.payload))
            && (o.w != w ==>
                  && |o.w.log| == |w.log| + 1 && o.w.log[..|w.log|] == w.log && o.w.clock > w.clock
                  && o.w.log[|w.log|]
                     == Commit(o.w.clock, InsertMarker(d, name, s.prep.payload, s.phase == Initialized))
                  && o.w.rds == w.rds)
            && (o.Done? ==> o.s == s)
  {
  }

  /** The restore time is the source's own clock, read after marker A was committed, with the stored A's checksum. */
  lemma ClockRead(w: World, s: State, c: Choice)
    ensures var o, db, d := ReadTime(w, s, c), Replay(w.log), s.prep.drillId;
            && (o.Done? <==> c.fault == NoFault && db.markers.Some? && (d, "A") in db.markers.value)
            && (o.Done? ==>
                  && o.w == w.(clock := o.w.clock) && o.w.clock > w.clock
                  && o.s == s.(restoreTime := Some(o.w.clock), checksum := o.s.checksum)
                  && o.s.checksum == Some(Sha256(d + "\0" + "A" + "\0" + db.markers.value[(d, "A")])))
            && (o.Failed? ==> o.w == w)
  {
  }

  /** The wait ends exactly when the restorable window covers the restore time, and keeps that window. */
  lemma WindowAwaited(w: World, s: State, c: Choice)
    requires s.phase == MarkerAWritten
    ensures var o := RunOperation(w, s, c);
            && (o.Done? <==> c.fault == NoFault && Covers(c.window, s))
            && o.w == w && (o.Done? ==> o.s == s.(window := Some(c.window)))
  {
  }

  /**
   * A target is requested only from the checked source, inside the current window, and
   * only while no instance is tagged for any drill; one already there is taken over
   * exactly when it is the one asked for.
   */
  lemma TargetRequested(w: World, s: State, c: Choice)
    requires s.phase == MarkerBWritten
    ensures var o, id := RunOperation(w, s, c), s.prep.targetId;
            var due := SourceInPlace(w, s.prep) && s.restoreTime.Some?
                       && c.window.earliest <= s.restoreTime.value < c.window.latest;
            var alone := forall other :: other in w.rds ==>
                           "Purpose" !in w.rds[other].tags || w.rds[other].tags["Purpose"] != "restore-drill";
            && (o.Done? <==> due && c.fault == NoFault && if id in w.rds then Requested(s, w.rds[id]) else alone)
            && (o.w != w <==> due && c.fault != FailBefore && id !in w.rds && alone)
            && (o.w != w ==>
                  && id in o.w.rds && o.w.rds == w.rds[id := o.w.rds[id]] && o.w.log == w.log
                  && o.w.history == w.history + [TargetCreated(id)]
                  && o.w.rds[id].data == SnapshotAt(w.log, s.restoreTime.value)
                  && o.w.rds[id].tags == s.prep.tags && o.w.rds[id].network == s.prep.network
                  && o.w.rds[id].instanceClass == s.prep.targetClass && o.w.rds[id].encrypted
                  && !o.w.rds[id].publiclyAccessible && !o.w.rds[id].multiAz && o.w.rds[id].retention == 0)
            && (o.Done? ==> Adopted(s, o.s, o.w.rds[id]))
  {
    hide SnapshotAt, SourceChecked;
    SourceMatches(w, s.prep);
    if s.prep.targetId in w.rds {
      TargetMatches(s, w.rds[s.prep.targetId]);
    }
    var h := RunOperation(w, s, c).w.history;
    assert h != w.history ==> h[|w.history|..] == [TargetCreated(s.prep.targetId)];
  }

  /** The state that takes over an instance's identity and changes nothing else. */
  predicate Adopted(s: State, s': State, inst: Instance) {
    && s'.targetArn == inst.arn && s'.targetResourceId == inst.resourceId
    && s'.targetEndpoint == inst.endpoint && s'.targetSecretArn == inst.secretArn
    && s' == s.(targetArn := inst.arn, targetResourceId := inst.resourceId, targetEndpoint := inst.endpoint,
                targetSecretArn := inst.secretArn)
  }

  lemma SourceMatches(w: World, p: Prepared)
    ensures SourceChecked(w, p) <==> SourceInPlace(w, p)
  {
  }

  lemma TargetMatches(s: State, inst: Instance)
    ensures TargetVerified(s, inst) <==> Requested(s, inst)
  {
  }

  /** The wait for the target ends exactly when it is available and is the one asked for. */
  lemma TargetAwaited(w: World, s: State, c: Choice)
    requires s.phase == RestoreRequested
    ensures var o, id := RunOperation(w, s, c), s.prep.targetId;
            && (o.Done? <==>
                  c.fault == NoFault && id in w.rds && w.rds[id].status == StatusAvailable && Requested(s, w.rds[id]))
            && o.w == w && (o.Done? ==> Adopted(s, o.s, w.rds[id]))
  {
    if s.prep.targetId in w.rds {
      TargetMatches(s, w.rds[s.prep.targetId]);
    }
  }

  /**
   * Validation passes exactly when the Secret is unchanged, the target is the one asked
   * for, is not the source under another name, and holds marker A with the persisted
   * checksum, no marker B, and the application's four tables.
   */
  lemma TargetChecked(w: World, s: State, c: Choice)
    requires s.phase == TargetAvailable
    ensures var o, id := RunOperation(w, s, c), s.prep.targetId;
            && (o.Done? <==>
                  && c.fault == NoFault && c.checks && id in w.rds && Requested(s, w.rds[id])
                  && w.rds[id].endpoint != "" && w.rds[id].endpoint != s.prep.sourceEndpoint
                  && w.rds[id].resourceId != s.prep.sourceResourceId
                  && s.checksum.Some? && HoldsBoundary(w.rds[id].data, s.prep.drillId, s.checksum.value))
            && o.w == w.(history := o.w.history)
            && (o.Done? ==>
                  && o.s == s
                  && o.w.history == w.history + [ValidationPassed(id, w.rds[id].data, s.checksum.value)])
  {
    hide MarkerChecksum, TargetVerified, Requested;
    if s.prep.targetId in w.rds {
      TargetMatches(s, w.rds[s.prep.targetId]);
    }
  }

  // ------------------------------------------------------------------------
  // What the operations of Cleanup demand

  /** The instance is the persisted target and carries the drill's ownership tags. */
  predicate Owned(s: State, inst: Instance) {
    && s.prep.targetId != s.prep.sourceId && inst.arn != ""
    && (s.targetArn == "" || inst.arn == s.targetArn)
    && (s.targetResourceId == "" || inst.resourceId == s.targetResourceId)
    && "Purpose" in inst.tags && inst.tags["Purpose"] == "restore-drill"
    && s.prep.drillId == (if "DrillID" in inst.tags then inst.tags["DrillID"] else "")
    && forall k :: k in {"Project", "Environment", "ManagedBy", "Purpose", "DrillID"} && k in s.prep.tags ==>
         s.prep.tags[k] == "" || (k in inst.tags && inst.tags[k] == s.prep.tags[k])
  }

  lemma OwnershipMatches(s: State, inst: Instance)
    ensures CleanupVerified(s, inst) <==> Owned(s, inst)
  {
    var asked: set<string> := {"Project", "Environment", "ManagedBy", "Purpose", "DrillID"};
    forall k | k in asked ensures exists i :: 0 <= i < |CLEANUP_TAGS| && CLEANUP_TAGS[i] == k {
      assert CLEANUP_TAGS[0] == "Project" && CLEANUP_TAGS[1] == "Environment" && CLEANUP_TAGS[2] == "ManagedBy";
      assert CLEANUP_TAGS[3] == "Purpose" && CLEANUP_TAGS[4] == "DrillID";
    }
    forall i | 0 <= i < |CLEANUP_TAGS| ensures CLEANUP_TAGS[i] in asked {
    }
  }

  /** The configuration is the drill's, source and target are two, and the target, if there, is the drill's own. */
  predicate CleanupDue(w: World, s: State) {
    && w.account == s.prep.account && w.region == s.prep.region
    && s.prep.sourceId != "" && s.prep.targetId != "" && s.prep.sourceId != s.prep.targetId
    && (s.prep.targetId in w.rds ==> Owned(s, w.rds[s.prep.targetId]))
  }

  /**
   * Deletion is asked for once, of the drill's own tagged target and nothing else; a
   * target already gone or going is left to the wait.
   */
  lemma TargetRemoved(w: World, s: State, c: Choice)
    requires s.phase == CleanupPending
    ensures var o, id := CleanupOperation(w, s, c), s.prep.targetId;
            && (o.Done? <==> CleanupDue(w, s) && c.fault == NoFault)
            && (o.w != w <==>
                  CleanupDue(w, s) && c.fault != FailBefore && id in w.rds && w.rds[id].status != StatusDeleting)
            && (o.w != w ==>
                  && o.w.rds == w.rds[id := w.rds[id].(status := StatusDeleting)] && o.w.log == w.log
                  && o.w.history == w.history + [TargetDeletion(id, w.rds[id].tags)])
  {
    if s.prep.targetId in w.rds {
      OwnershipMatches(s, w.rds[s.prep.targetId]);
    }
    hide CleanupVerified, Owned;
    var o := CleanupOperation(w, s, c);
    assert o.w != w ==> |o.w.history| == |w.history| + 1;
  }

  /** The wait for deletion ends exactly when the target is gone. */
  lemma AbsenceAwaited(w: World, s: State, c: Choice)
    requires s.phase == TargetDeleteRequested
    ensures var o := CleanupOperation(w, s, c);
            && (o.Done? <==> c.fault == NoFault && s.prep.targetId !in w.rds)
            && o.w.rds == w.rds && o.w.log == w.log
  {
  }

  /** Marker cleanup commits the removal of this drill's rows, and of no other's. */
  lemma MarkersRemoved(w: World, s: State, c: Choice)
    requires s.phase == TargetDeleted
    ensures var o, d := CleanupOperation(w, s, c), s.prep.drillId;
            && (o.Done? <==> c.fault == NoFault) && (o.w == w <==> c.fault == FailBefore) && o.w.rds == w.rds
            && (o.w != w ==>
                  && o.w.log == w.log + [Commit(o.w.clock, CleanupDrill(d))] && o.w.clock > w.clock
                  && (forall n :: !HasMarker(Replay(o.w.log), d, n))
                  && forall other, n :: other != d ==>
                       (HasMarker(Replay(o.w.log), other, n) <==> HasMarker(Replay(w.log), other, n)))
  {
    hide Replay, ApplyTx;
    if c.fault != FailBefore {
      RowsRemoved(w.log, CleanupOperation(w, s, c).w.clock, s.prep.drillId);
    }
  }

  lemma RowsRemoved(log: seq<Commit>, time: Time, d: string)
    ensures forall n :: !HasMarker(Replay(log + [Commit(time, CleanupDrill(d))]), d, n)
    ensures forall other, n :: other != d ==>
              (HasMarker(Replay(log + [Commit(time, CleanupDrill(d))]), other, n) <==> HasMarker(Replay(log), other, n))
  {
    var log' := log + [Commit(time, CleanupDrill(d))];
    assert log'[..|log|] == log;
    var before, after := Replay(log), Replay(log');
    assert ApplyTx(before, CleanupDrill(d)) == Some(after);
    hide Replay;
    forall other, n | other != d ensures HasMarker(after, other, n) <==> HasMarker(before, other, n) {
      if HasMarker(before, other, n) {
        assert (other, n) in map k | k in before.markers.value && k.0 != d :: before.markers.value[k];
      }
    }
  }

  /**
   * The last check passes exactly when nothing of the drill is left: no target, no instance
   * tagged for it, the source as preflight saw it with a restorable window, and the Secret,
   * snapshot and Job inventories in order.
   */
  lemma CleanVerified(w: World, s: State, c: Choice)
    requires s.phase == SourceMarkerCleaned
    ensures var o := CleanupOperation(w, s, c);
            && (o.Done? <==>
                  && c.fault == NoFault && c.checks && w.account == s.prep.account && w.region == s.prep.region
                  && NothingRemains(w.rds, s.prep) && c.window.earliest < c.window.latest)
            && o.w == w.(history := o.w.history)
            && (o.Done? ==> o.w.history == w.history + [InventoryVerified(w.rds, c.window)])
  {
    hide SourceChecked, SourceUnchanged;
    SourceMatches(w, s.prep);
  }

  // ------------------------------------------------------------------------
  // What the record says, over every run

  /**
   * Run asks for approval exactly before the restore was requested, Cleanup exactly before
   * deletion was; and Cleanup gets that far exactly when the configuration is the drill's
   * and an existing target is its own.
   */
  lemma ApprovalsAsked(w: World, s: State)
    requires w.persisted == Some(s)
    ensures Step(Sys(w, Idle), BeginRun).value.e ==
            if s.phase in {Initialized, MarkerAWritten, WindowReady, MarkerBWritten} then RestoreGate(s)
            else if s.phase in {CleanupPending, Cleaned} then Idle
            else Loop(s, RunCall, false)
    ensures var next := Step(Sys(w, Preflight(s)), PreflightDone);
            && (next.Some? <==> CleanupDue(w, s))
            && (next.Some? ==>
                  next.value.e ==
                  if s.phase in {TargetDeleteRequested, TargetDeleted, SourceMarkerCleaned}
                  then Loop(s, CleanupCall, false) else CleanupGate(s))
  {
    hide CleanupVerified, Owned;
    if s.prep.targetId in w.rds {
      OwnershipMatches(s, w.rds[s.prep.targetId]);
    }
  }

  /**
   * At every point the engine may die and outsiders may act: the clock moves, instances
   * come, change and go, and others commit whatever does not touch this drill's rows.
   */
  lemma AnythingMayHappen(sys: Sys, gap: nat, id: string, inst: Instance, t: string)
    ensures Step(sys, Crash) == Some(Sys(sys.w, Idle))
    ensures Step(sys, Tick(gap)).Some? && Step(sys, Tick(gap)).value.w.clock == sys.w.clock + gap
    ensures var w' := Step(sys, OutsideSet(id, inst)); w'.Some? && w'.value.w.rds == sys.w.rds[id := inst]
    ensures var w' := Step(sys, OutsideRemove(id)); w'.Some? && w'.value.w.rds == sys.w.rds - {id}
    ensures var s' := Step(sys, ForeignCommit(DropTable(t)));
            s'.Some? && Replay(s'.value.w.log).tables == Replay(sys.w.log).tables - {t}
  {
    hide Replay;
    var log, c := sys.w.log, Commit(sys.w.clock + 1, DropTable(t));
    ReplayAppend(log, c);
  }

  /** The drill goes through its phases one by one, or breaks off into cleanup. */
  predicate InOrder(p: Phase, q: Phase) {
    p == q ||
    match q
    case Initialized => false
    case MarkerAWritten => p == Initialized
    case WindowReady => p == MarkerAWritten
    case MarkerBWritten => p == WindowReady
    case RestoreRequested => p == MarkerBWritten
    case TargetAvailable => p == RestoreRequested
    case Validated => p == TargetAvailable
    case CleanupPending =>
      p in {Initialized, MarkerAWritten, WindowReady, MarkerBWritten, RestoreRequested, TargetAvailable, Validated}
    case TargetDeleteRequested => p == CleanupPending
    case TargetDeleted => p == TargetDeleteRequested
    case SourceMarkerCleaned => p == TargetDeleted
    case Cleaned => p == SourceMarkerCleaned
  }

  /** A restore is only ever based on a window that covered the restore time. */
  predicate WindowKept(s: State) {
    s.phase in {WindowReady, MarkerBWritten, RestoreRequested, TargetAvailable, Validated} || s.validated ==>
      s.window.Some? && Covers(s.window.value, s)
  }

  ghost predicate CourseInv(sys: Sys) {
    && (sys.w.persisted.Some? ==> WindowKept(sys.w.persisted.value))
    && (Ahead(sys.e) ==>
          WindowKept(sys.e.s) && sys.w.persisted.Some? && InOrder(sys.w.persisted.value.phase, sys.e.s.phase))
  }

  lemma RunOnCourse(sys: Sys, c: Choice)
    requires MarkerInv(sys) && CourseInv(sys) && sys.e.Loop? && sys.e.call == RunCall
    ensures CourseInv(RunIteration(sys.w, sys.e.s, sys.e.approved, c))
  {
    hide LogInv, MarkerFacts, ValidPrepared, Replay, ApplyTx, SourceChecked, TargetVerified, TargetValidates;
    OperationsPersistNothing(sys.w, sys.e.s, c);
  }

  lemma CleanupOnCourse(sys: Sys, c: Choice)
    requires MarkerInv(sys) && CourseInv(sys) && sys.e.Loop? && sys.e.call == CleanupCall
    ensures CourseInv(CleanupIteration(sys.w, sys.e.s, sys.e.approved, c))
  {
    hide LogInv, MarkerFacts, ValidPrepared, CleanupOperation;
    OperationsPersistNothing(sys.w, sys.e.s, c);
  }

  lemma StepOnCourse(sys: Sys, a: Action)
    requires MarkerInv(sys) && CourseInv(sys) && Step(sys, a).Some?
    ensures CourseInv(Step(sys, a).value)
    ensures sys.w.persisted.Some? ==>
              var p' := Step(sys, a).value.w.persisted;
              p'.Some? && InOrder(sys.w.persisted.value.phase, p'.value.phase)
    ensures sys.w.persisted.None? ==>
              var p' := Step(sys, a).value.w.persisted;
              p'.Some? ==> p'.value == InitialState(p'.value.prep)
  {
    hide LogInv, MarkerFacts, ValidPrepared, Replay, ApplyTx, RunIteration, CleanupIteration, CleanupPrepared;
    if a.Operate? {
      IterationsPersistNothing(sys, a.choice);
      if sys.e.ReadingTime? {
        NotYetValidated(sys);
      } else if sys.e.call == RunCall {
        RunOnCourse(sys, a.choice);
      } else {
        CleanupOnCourse(sys, a.choice);
      }
    }
  }

  lemma IterationsPersistNothing(sys: Sys, c: Choice)
    requires Step(sys, Operate(c)).Some?
    ensures Step(sys, Operate(c)).value.w.persisted == sys.w.persisted
  {
    hide RunOperation, CleanupOperation;
    OperationsPersistNothing(sys.w, sys.e.s, c);
  }

  lemma {:induction false} ExecOnCourse(sys: Sys, acts: seq<Action>)
    requires MarkerInv(sys) && CourseInv(sys) && Exec(sys, acts).Some?
    ensures MarkerInv(Exec(sys, acts).value) && CourseInv(Exec(sys, acts).value)
  {
    hide MarkerInv, CourseInv, Step;
    if acts != [] {
      var head := acts[..|acts| - 1];
      ExecOnCourse(sys, head);
      StepKeeps(Exec(sys, head).value, acts[|acts| - 1]);
      StepOnCourse(Exec(sys, head).value, acts[|acts| - 1]);
    }
  }

  /**
   * Over every history, what is on record identifies one drill: a source and another
   * target, tags that own the target, an immutable migration image, and, once the wait for
   * the window is over, a window that covered the restore time.
   */
  lemma RecordIdentifiesDrill(init: Sys, acts: seq<Action>)
    requires Initial(init) && Exec(init, acts).Some? && Exec(init, acts).value.w.persisted.Some?
    ensures var s := Exec(init, acts).value.w.persisted.value;
            && s.schema == 1 && s.prep.sourceId != s.prep.targetId && s.prep.drillId != ""
            && "Purpose" in s.prep.tags && s.prep.tags["Purpose"] == "restore-drill"
            && "DrillID" in s.prep.tags && s.prep.tags["DrillID"] == s.prep.drillId
            && s.prep.account != "" && s.prep.region != "" && s.prep.sourceId != "" && s.prep.targetId != ""
            && s.prep.sourceArn != "" && s.prep.sourceResourceId != "" && s.prep.sourceEndpoint != ""
            && s.prep.sourceClass != "" && s.prep.targetClass != ""
            && s.prep.network.subnetGroup != "" && s.prep.network.securityGroups != []
            && s.prep.network.port >= 1 && s.prep.sourceStorage >= 1
            && Pinned(s.prep.migrationImage) && LowerHex(s.prep.secretHash)
            && WindowKept(s)
  {
    hide Exec, LogInv, MarkerFacts, Pinned, LowerHex, ImmutableImage, HexDigest;
    InitialHolds(init);
    ExecOnCourse(init, acts);
    var s := Exec(init, acts).value.w.persisted.value;
    ImageIsPinned(s.prep.migrationImage);
    HexIsLower(s.prep.secretHash);
  }

  /** 64 characters, each a decimal digit or a letter from a to f. */
  predicate LowerHex(s: string) {
    |s| == 64 && forall c :: c in s ==> c in "0123456789abcdef"
  }

  /** A name without '@', then "@sha256:" and a digest. */
  ghost predicate Pinned(image: string) {
    exists name: string, digest: string ::
      image == name + "@sha256:" + digest && name != "" && '@' !in name && LowerHex(digest)
  }

  lemma HexIsLower(s: string)
    ensures HexDigest(s) <==> LowerHex(s)
  {
    var hex := "0123456789abcdef";
    assert hex[0] == '0' && hex[1] == '1' && hex[2] == '2' && hex[3] == '3' && hex[4] == '4' && hex[5] == '5';
    assert hex[6] == '6' && hex[7] == '7' && hex[8] == '8' && hex[9] == '9' && hex[10] == 'a' && hex[11] == 'b';
    assert hex[12] == 'c' && hex[13] == 'd' && hex[14] == 'e' && hex[15] == 'f';
    assert forall c: char :: c in hex <==> '0' <= c <= '9' || 'a' <= c <= 'f';
    assert forall i :: 0 <= i < |s| ==> s[i] in s;
    if LowerHex(s) {
      assert forall i :: 0 <= i < |s| ==> s[i] in hex;
    }
  }

  lemma DigestSize(s: string)
    requires LowerHex(s)
    ensures |s| == 64
  {
  }

  lemma ImageIsPinned(image: string)
    ensures ImmutableImage(image) <==> Pinned(image)
  {
    hide HexDigest, LowerHex;
    if ImmutableImage(image) {
      var n := |image| - 72;
      HexIsLower(image[n + 8..]);
      assert image == image[..n] + "@sha256:" + image[n + 8..];
    }
    if Pinned(image) {
      var name, digest :| image == name + "@sha256:" + digest && name != "" && '@' !in name && LowerHex(digest);
      HexIsLower(digest);
      DigestSize(digest);
      assert image[..|image| - 72] == name && image[|image| - 64..] == digest;
      assert image[|image| - 72..|image| - 64] == "@sha256:";
    }
  }
}
