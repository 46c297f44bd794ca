/**
 * The two approval gates and the order of effects, over every history of calls:
 * what must already have happened when the drill writes, restores, deletes or cleans.
 */
module DrillApprovals {
  import opened Prelude
  import opened Markers
  import opened Drill
  import opened DrillMarkers

  /** No call was started after event j. */
  ghost predicate SameCall(h: seq<Event>, j: nat) {
    forall k :: j < k < |h| ==> !h[k].CallStarted?
  }

  ghost predicate InThisCall(h: seq<Event>, ev: Event) {
    exists j :: 0 <= j < |h| && h[j] == ev && SameCall(h, j)
  }

  function RestoreGrant(p: Prepared): Event { RestoreApproved(p.drillId, p.sourceId, p.targetId) }
  function CleanupGrant(p: Prepared): Event { CleanupApproved(p.drillId, p.sourceId, p.targetId) }

  /** A restored database inside marker A and outside marker B, with the application's tables. */
  predicate HoldsBoundary(db: Db, drill: string, expected: Digest) {
    && db.markers.Some?
    && (drill, "A") in db.markers.value && MarkerChecksum(drill, "A", db.markers.value[(drill, "A")]) == expected
    && (drill, "B") !in db.markers.value
    && "barista.barista_orders" in db.tables && "kitchen.kitchen_orders" in db.tables
    && "order.line_items" in db.tables && "order.orders" in db.tables
  }

  /** No target, no instance tagged for the drill, and the source as preflight saw it. */
  predicate NothingRemains(inventory: map<string, Instance>, p: Prepared) {
    && p.targetId !in inventory
    && (forall id :: id in inventory ==>
          Tag(inventory[id].tags, "Purpose") != "restore-drill" || Tag(inventory[id].tags, "DrillID") != p.drillId)
    && p.sourceId in inventory && SourceUnchanged(inventory[p.sourceId], p)
  }

  predicate SourceUnchanged(source: Instance, p: Prepared) {
    && source.status == StatusAvailable && !source.publiclyAccessible && source.encrypted && source.retention >= 1
    && source.arn == p.sourceArn && source.resourceId == p.sourceResourceId && source.endpoint == p.sourceEndpoint
    && source.network.subnetGroup == p.network.subnetGroup && source.network.port == p.network.port
    && source.network.securityGroups == p.network.securityGroups
  }

  /** The history shows a passed validation of the target against the state's checksum. */
  ghost predicate WasValidated(h: seq<Event>, s: State) {
    exists ev :: ev in h && ev.ValidationPassed? && s.checksum == Some(ev.expected)
  }

  ghost predicate WasInventoried(h: seq<Event>) {
    exists ev :: ev in h && ev.InventoryVerified?
  }

  /** What the history must contain for the next event to be ev, in a drill prepared as p. */
  ghost predicate Allowed(h: seq<Event>, ev: Event, p: Prepared) {
    match ev
    case CallStarted => true
    case RestoreApproved(_, _, _) => ev == RestoreGrant(p)
    case CleanupApproved(_, _, _) => ev == CleanupGrant(p)
    case MarkerWritten(d, _) => d == p.drillId && InThisCall(h, RestoreGrant(p))
    case TargetCreated(id) => id == p.targetId && InThisCall(h, RestoreGrant(p))
    case TargetDeletion(id, tags) =>
      && id == p.targetId && id != p.sourceId
      && Tag(tags, "Purpose") == "restore-drill" && Tag(tags, "DrillID") == p.drillId
      && InThisCall(h, CleanupGrant(p))
    case TargetAbsent(id) => id == p.targetId && CleanupGrant(p) in h
    case MarkersCleaned(d) => d == p.drillId && TargetAbsent(p.targetId) in h
    case ValidationPassed(id, found, expected) => id == p.targetId && HoldsBoundary(found, p.drillId, expected)
    case InventoryVerified(inventory, window) => NothingRemains(inventory, p) && window.earliest < window.latest
  }

  ghost predicate Authorized(h: seq<Event>, p: Prepared) {
    forall i :: 0 <= i < |h| ==> Allowed(h[..i], h[i], p)
  }

  lemma AuthorizedAppend(h: seq<Event>, ev: Event, p: Prepared)
    requires Authorized(h, p) && Allowed(h, ev, p)
    ensures Authorized(h + [ev], p)
  {
    var h' := h + [ev];
    forall i | 0 <= i < |h'| ensures Allowed(h'[..i], h'[i], p) {
      assert h'[..i] == if i < |h| then h[..i] else h;
    }
  }

  lemma GrantCarries(h: seq<Event>, ev: Event, g: Event)
    requires InThisCall(h, g) && !ev.CallStarted?
    ensures InThisCall(h + [ev], g)
  {
    var j :| 0 <= j < |h| && h[j] == g && SameCall(h, j);
    assert (h + [ev])[j] == g && SameCall(h + [ev], j);
  }

  lemma GrantNow(h: seq<Event>, g: Event)
    ensures InThisCall(h + [g], g)
  {
    assert (h + [g])[|h|] == g && SameCall(h + [g], |h|);
  }

  /** Before the drill has an identity, nothing but calls has happened. */
  ghost predicate OnlyCalls(h: seq<Event>) {
    forall i :: 0 <= i < |h| ==> h[i].CallStarted?
  }

  predicate Granted(e: Engine) {
    e.ReadingTime? || e.Entering? || ((e.Loop? || e.Saving?) && e.approved)
  }

  function GrantOf(e: Engine): Event
    requires Granted(e)
  {
    if e.Entering? || (!e.ReadingTime? && e.call == CleanupCall) then CleanupGrant(e.s.prep) else RestoreGrant(e.s.prep)
  }

  /** A state past cleanup-pending was approved for cleanup; past the wait, its target was seen absent. */
  ghost predicate Earned(h: seq<Event>, s: State) {
    && (Rank(s.phase) >= 8 ==> CleanupGrant(s.prep) in h)
    && (Rank(s.phase) >= 9 ==> TargetAbsent(s.prep.targetId) in h)
    && (s.phase == Validated || s.validated ==> WasValidated(h, s))
    && (s.phase == Cleaned ==> WasInventoried(h))
  }

  ghost predicate GateInv(sys: Sys) {
    var w, e, h := sys.w, sys.e, sys.w.history;
    && (w.persisted.None? ==> OnlyCalls(h))
    && (w.persisted.Some? ==> Authorized(h, w.persisted.value.prep) && Earned(h, w.persisted.value))
    && (Ahead(e) ==> Earned(h, e.s))
    && (Granted(e) ==> InThisCall(h, GrantOf(e)))
    && ((e.Loop? || e.Saving?) && e.call == RunCall && NeedsRestoreApproval(e.s.phase) ==> e.approved)
    && (e.Loop? && e.call == CleanupCall && e.s.phase == CleanupPending ==> e.approved)
  }

  lemma OnlyCallsAuthorized(h: seq<Event>, p: Prepared)
    requires OnlyCalls(h)
    ensures Authorized(h, p)
  {
  }

  lemma BeginKeeps(sys: Sys, a: Action)
    requires MarkerInv(sys) && GateInv(sys) && Step(sys, a).Some?
    requires a.BeginRun? || a.BeginCleanup?
    ensures GateInv(Step(sys, a).value)
  {
    hide LogInv, MarkerFacts, ValidPrepared, Authorized;
    if sys.w.persisted.Some? {
      AuthorizedAppend(sys.w.history, CallStarted, sys.w.persisted.value.prep);
    }
  }

  lemma ApproveKeeps(sys: Sys)
    requires MarkerInv(sys) && GateInv(sys) && Step(sys, Approve).Some?
    ensures GateInv(Step(sys, Approve).value)
  {
    hide LogInv, MarkerFacts, ValidPrepared, Authorized;
    var p := sys.e.s.prep;
    var g := if sys.e.RestoreGate? then RestoreGrant(p) else CleanupGrant(p);
    AuthorizedAppend(sys.w.history, g, p);
    GrantNow(sys.w.history, g);
  }

  lemma SaveGateKeeps(sys: Sys, fault: Fault)
    requires MarkerInv(sys) && GateInv(sys) && SaveStep(sys.w, sys.e, fault).Some?
    ensures GateInv(SaveStep(sys.w, sys.e, fault).value)
  {
    hide LogInv, MarkerFacts, ValidPrepared, Authorized;
    if sys.e.Creating? {
      OnlyCallsAuthorized(sys.w.history, sys.e.s.prep);
    }
  }

  /** The history after an operation: unchanged, or one more allowed event. */
  ghost predicate Appends(h: seq<Event>, h': seq<Event>, p: Prepared) {
    h' == h || (|h'| == |h| + 1 && h' == h + [h'[|h|]] && !h'[|h|].CallStarted? && Allowed(h, h'[|h|], p))
  }

  lemma AppendsKeeps(h: seq<Event>, h': seq<Event>, p: Prepared)
    requires Appends(h, h', p) && Authorized(h, p)
    ensures Authorized(h', p)
    ensures forall g :: InThisCall(h, g) ==> InThisCall(h', g)
    ensures forall g :: g in h ==> g in h'
  {
    if h' != h {
      AuthorizedAppend(h, h'[|h|], p);
      forall g | InThisCall(h, g) ensures InThisCall(h', g) {
        GrantCarries(h, h'[|h|], g);
      }
    }
  }

  /** From a loop position, any outcome that appends properly keeps the gates. */
  lemma OutcomeKeeps(sys: Sys, o: Outcome, next: Phase)
    requires GateInv(sys) && sys.e.Loop? && sys.w.persisted == Some(sys.e.s)
    requires o.w.persisted == sys.w.persisted
    requires Appends(sys.w.history, o.w.history, sys.e.s.prep)
    requires o.Done? ==> o.s.prep == sys.e.s.prep && Earned(o.w.history, o.s.(phase := next))
    requires sys.e.call == RunCall && NeedsRestoreApproval(next) ==> sys.e.approved
    ensures GateInv(Advance(o, sys.e.s, next, sys.e.call, sys.e.approved))
  {
    hide Authorized, Allowed, InThisCall, Appends;
    AppendsKeeps(sys.w.history, o.w.history, sys.e.s.prep);
  }

  /** A validation that passes has found the boundary on the target. */
  lemma ValidationFinds(w: World, s: State, c: Choice)
    requires ValidateTarget(w, s, c).Done?
    ensures s.prep.targetId in w.rds && s.checksum.Some?
    ensures var found := w.rds[s.prep.targetId].data;
            && HoldsBoundary(found, s.prep.drillId, s.checksum.value)
            && ValidateTarget(w, s, c)
               == Done(Record(w, ValidationPassed(s.prep.targetId, found, s.checksum.value)), s)
  {
    hide TargetVerified, MarkerChecksum;
  }

  /** A cleanup verification that passes has found nothing left. */
  lemma VerificationFinds(w: World, s: State, c: Choice)
    requires VerifyClean(w, s, c).Done?
    ensures NothingRemains(w.rds, s.prep) && c.window.earliest < c.window.latest
    ensures VerifyClean(w, s, c) == Done(Record(w, InventoryVerified(w.rds, c.window)), s)
  {
  }

  /** An approved operation of Run adds at most one event, and that one is allowed. */
  lemma RunAppends(w: World, s: State, c: Choice)
    requires NeedsRestoreApproval(s.phase) ==> InThisCall(w.history, RestoreGrant(s.prep))
    ensures var o := RunOperation(w, s, c);
            Appends(w.history, o.w.history, s.prep) && (o.Done? ==> o.s.prep == s.prep)
  {
    hide InThisCall, Replay, ApplyTx, SnapshotAt, TargetValidates, TargetVerified, SourceChecked, HoldsBoundary;
    if s.phase == TargetAvailable && ValidateTarget(w, s, c).Done? {
      ValidationFinds(w, s, c);
    }
  }

  /** What an operation of Run must have earned, it has. */
  lemma RunEarns(w: World, s: State, c: Choice)
    requires Earned(w.history, s) && !s.validated && Rank(s.phase) <= 6 && RunOperation(w, s, c).Done?
    ensures var o := RunOperation(w, s, c); Earned(o.w.history, o.s.(phase := Following(s.phase)))
  {
    hide Replay, ApplyTx, SnapshotAt, TargetValidates, TargetVerified, SourceChecked;
    if s.phase == TargetAvailable {
      ValidationFinds(w, s, c);
      var o := RunOperation(w, s, c);
      assert o.w.history[|w.history|] in o.w.history;
    }
  }

  lemma NotYetValidated(sys: Sys)
    requires MarkerInv(sys) && Synced(sys.e) && Rank(sys.e.s.phase) <= 6
    ensures !sys.e.s.validated
  {
    hide LogInv, ValidPrepared, CommitTime, NeverCleaned;
  }

  lemma RunGateKeeps(sys: Sys, c: Choice)
    requires MarkerInv(sys) && GateInv(sys) && sys.e.Loop? && sys.e.call == RunCall
    ensures GateInv(RunIteration(sys.w, sys.e.s, sys.e.approved, c))
  {
    hide LogInv, MarkerFacts, ValidPrepared, Authorized, InThisCall, Appends, RunOperation, WasValidated,
         WasInventoried;
    var w, s := sys.w, sys.e.s;
    if Rank(s.phase) <= 6 {
      RunAppends(w, s, c);
      OperationsPersistNothing(w, s, c);
      AppendsKeeps(w.history, RunOperation(w, s, c).w.history, s.prep);
      if RunOperation(w, s, c).Done? {
        NotYetValidated(sys);
        RunEarns(w, s, c);
      }
      OutcomeKeeps(sys, RunOperation(w, s, c), Following(s.phase));
    }
  }

  /** An operation of Cleanup adds at most one event, and that one is allowed. */
  lemma CleanupAppends(w: World, s: State, c: Choice)
    requires s.phase == CleanupPending ==> InThisCall(w.history, CleanupGrant(s.prep))
    requires Earned(w.history, s)
    ensures Appends(w.history, CleanupOperation(w, s, c).w.history, s.prep)
  {
    hide InThisCall, Replay, ApplyTx, WasValidated, WasInventoried, NothingRemains, SourceChecked, TaggedDrill;
    if s.phase == SourceMarkerCleaned && VerifyClean(w, s, c).Done? {
      VerificationFinds(w, s, c);
    }
  }

  /** What an operation of Cleanup must have earned, it has. */
  lemma CleanupEarns(w: World, s: State, c: Choice)
    requires Earned(w.history, s) && CleanupStarted(s.phase) && CleanupOperation(w, s, c).Done?
    requires s.phase == CleanupPending ==> CleanupGrant(s.prep) in w.history
    requires Appends(w.history, CleanupOperation(w, s, c).w.history, s.prep)
    ensures var o := CleanupOperation(w, s, c); o.s == s && Earned(o.w.history, s.(phase := Following(s.phase)))
  {
    hide Replay, ApplyTx, Allowed, CleanupPrepared;
    OperationsPersistNothing(w, s, c);
    EarnedGrows(w.history, CleanupOperation(w, s, c).w.history, s);
    match s.phase {
      case TargetDeleteRequested =>
        assert CleanupOperation(w, s, c).w.history[|w.history|] == TargetAbsent(s.prep.targetId);
      case SourceMarkerCleaned =>
        VerificationFinds(w, s, c);
        var h := CleanupOperation(w, s, c).w.history;
        assert h[|w.history|] in h && h[|w.history|].InventoryVerified?;
      case _ =>
    }
  }

  lemma EarnedGrows(h: seq<Event>, h': seq<Event>, s: State)
    requires Earned(h, s) && forall ev :: ev in h ==> ev in h'
    ensures Earned(h', s)
  {
  }

  lemma CleanupGateKeeps(sys: Sys, c: Choice)
    requires MarkerInv(sys) && GateInv(sys) && sys.e.Loop? && sys.e.call == CleanupCall
    ensures GateInv(CleanupIteration(sys.w, sys.e.s, sys.e.approved, c))
  {
    hide LogInv, MarkerFacts, ValidPrepared, Authorized, Earned, Appends, CleanupOperation;
    var w, s := sys.w, sys.e.s;
    if CleanupStarted(s.phase) {
      CleanupAppends(w, s, c);
      OperationsPersistNothing(w, s, c);
      AppendsKeeps(w.history, CleanupOperation(w, s, c).w.history, s.prep);
      if CleanupOperation(w, s, c).Done? {
        CleanupEarns(w, s, c);
      }
      OutcomeKeeps(sys, CleanupOperation(w, s, c), Following(s.phase));
    }
  }

  lemma GateStepKeeps(sys: Sys, a: Action)
    requires MarkerInv(sys) && GateInv(sys) && Step(sys, a).Some?
    ensures GateInv(Step(sys, a).value)
  {
    hide LogInv, MarkerFacts, ValidPrepared, Authorized, Replay, ApplyTx;
    match a {
      case BeginRun => BeginKeeps(sys, a);
      case BeginCleanup => BeginKeeps(sys, a);
      case Approve => ApproveKeeps(sys);
      case Save(fault) => SaveGateKeeps(sys, fault);
      case Operate(c) =>
        if sys.e.Loop? {
          if sys.e.call == RunCall { RunGateKeeps(sys, c); } else { CleanupGateKeeps(sys, c); }
        } else {
          NotYetValidated(sys);
        }
      case _ =>
    }
  }

  lemma {:induction false} GateExecKeeps(sys: Sys, acts: seq<Action>)
    requires MarkerInv(sys) && GateInv(sys) && Exec(sys, acts).Some?
    ensures MarkerInv(Exec(sys, acts).value) && GateInv(Exec(sys, acts).value)
  {
    if acts != [] {
      var head := acts[..|acts| - 1];
      GateExecKeeps(sys, head);
      StepKeeps(Exec(sys, head).value, acts[|acts| - 1]);
      GateStepKeeps(Exec(sys, head).value, acts[|acts| - 1]);
    }
  }

  /**
   * For every history of Run and Cleanup with crashes, faults and arbitrary outside
   * changes to the instances: every marker write and restore follows a restore approval
   * of this drill in the same call; every deletion follows a cleanup approval in the
   * same call, hits exactly the approved target, never the source, and an instance
   * tagged for this drill; markers are cleaned only after the target was seen absent;
   * and a persisted phase past cleanup-pending was approved.
   */
  lemma EveryEffectAuthorized(init: Sys, acts: seq<Action>)
    requires Initial(init) && Exec(init, acts).Some?
    ensures var w := Exec(init, acts).value.w;
            if w.persisted.None? then OnlyCalls(w.history)
            else
              var p := w.persisted.value;
              && Authorized(w.history, p.prep)
              && (Rank(p.phase) > Rank(CleanupPending) ==> CleanupGrant(p.prep) in w.history)
              && (Rank(p.phase) >= Rank(TargetDeleted) ==> TargetAbsent(p.prep.targetId) in w.history)
  {
    hide MarkerInv, Authorized, Exec;
    InitialHolds(init);
    NothingEarnedYet(init);
    GateExecKeeps(init, acts);
  }

  lemma NothingEarnedYet(init: Sys)
    requires Initial(init)
    ensures GateInv(init)
  {
  }

  /** A validated drill's target was seen inside marker A, outside marker B and with the application's tables. */
  ghost predicate ValidationIsReal(h: seq<Event>, s: State) {
    exists ev :: ev in h && ev.ValidationPassed? && ev.id == s.prep.targetId && s.checksum == Some(ev.expected)
                 && HoldsBoundary(ev.found, s.prep.drillId, ev.expected)
  }

  /** A cleaned drill's last inventory had no target, nothing tagged for the drill, and the source as prepared. */
  ghost predicate CleaningIsReal(h: seq<Event>, s: State) {
    exists ev :: ev in h && ev.InventoryVerified? && NothingRemains(ev.inventory, s.prep)
                 && ev.window.earliest < ev.window.latest
  }

  lemma ResultsAreReal(h: seq<Event>, s: State)
    requires Authorized(h, s.prep) && Earned(h, s)
    ensures s.phase == Validated || s.validated ==> ValidationIsReal(h, s)
    ensures s.phase == Cleaned ==> CleaningIsReal(h, s)
  {
    hide HoldsBoundary, NothingRemains;
    if s.phase == Validated || s.validated {
      var ev :| ev in h && ev.ValidationPassed? && s.checksum == Some(ev.expected);
      EventAllowed(h, s.prep, ev);
    }
    if s.phase == Cleaned {
      var ev :| ev in h && ev.InventoryVerified?;
      EventAllowed(h, s.prep, ev);
    }
  }

  lemma EventAllowed(h: seq<Event>, p: Prepared, ev: Event)
    requires Authorized(h, p) && ev in h
    ensures exists past: seq<Event> :: Allowed(past, ev, p)
  {
    var i :| 0 <= i < |h| && h[i] == ev;
    assert Allowed(h[..i], ev, p);
  }

  /**
   * Over every history, whatever outsiders do to the instances: a drill on record as
   * validated had its restored database checked, and one on record as cleaned had the
   * inventory checked, each with everything the check is for.
   */
  lemma RecordedResultsAreReal(init: Sys, acts: seq<Action>)
    requires Initial(init) && Exec(init, acts).Some? && Exec(init, acts).value.w.persisted.Some?
    ensures var w := Exec(init, acts).value.w;
            var p := w.persisted.value;
            && (p.phase == Validated || p.validated ==> ValidationIsReal(w.history, p))
            && (p.phase == Cleaned ==> CleaningIsReal(w.history, p))
  {
    hide MarkerInv, Authorized, Earned, Exec;
    InitialHolds(init);
    NothingEarnedYet(init);
    GateExecKeeps(init, acts);
    ResultsAreReal(Exec(init, acts).value.w.history, Exec(init, acts).value.w.persisted.value);
  }
}
