/**
 * What every step of the drill keeps about its markers: the restore time lies
 * between the commits of marker A and marker B, and phases only rise.
 */
module DrillMarkers {
  import opened Prelude
  import opened Markers
  import opened Drill

  ghost predicate LogInv(w: World) {
    && Committed(w.log) && TimesIncrease(w.log)
    && forall i :: 0 <= i < |w.log| ==> w.log[i].time <= w.clock
  }

  /** What state s, persisted or in memory, may rely on about the source database. */
  ghost predicate MarkerFacts(clock: Time, log: seq<Commit>, s: State) {
    var d, rank := s.prep.drillId, Rank(s.phase);
    var a, b := CommitTime(log, d, "A"), CommitTime(log, d, "B");
    && (forall i :: 0 <= i < |log| && log[i].tx.InsertMarker? && log[i].tx.drill == d ==>
          log[i].tx.payload == s.prep.payload && log[i].tx.name in {"A", "B"})
    && (s.restoreTime.Some? ==>
          a.Some? && a.value <= s.restoreTime.value <= clock
          && s.checksum == Some(MarkerChecksum(d, "A", s.prep.payload))
          && (forall i :: 0 <= i < |log| && Cleans(log[i], d) ==> log[i].time > s.restoreTime.value))
    && (b.Some? ==> s.restoreTime.Some? && s.restoreTime.value < b.value)
    && (rank == 0 ==> s.restoreTime.None?)
    && (1 <= rank <= 6 ==> s.restoreTime.Some?)
    && (rank < 2 ==> b.None?)
    && (3 <= rank <= 6 || s.validated ==> b.Some?)
    && (s.validated ==> rank >= 7)
    && (rank < 9 ==> NeverCleaned(log, d))
    && (rank <= 3 ==> s.targetArn == "" && s.targetResourceId == "")
  }

  /** s is p, or p moved on by work already done. */
  predicate Follows(p: State, s: State) {
    && s.prep == p.prep
    && Rank(p.phase) <= Rank(s.phase)
    && (p.restoreTime.Some? ==> s.restoreTime == p.restoreTime)
    && (p.targetArn != "" ==> s.targetArn == p.targetArn)
    && (p.targetResourceId != "" ==> s.targetResourceId == p.targetResourceId)
    && (p.validated ==> s.validated)
  }

  /** The points where the copy in memory is exactly the persisted state. */
  predicate Synced(e: Engine) {
    e.RestoreGate? || e.Preflight? || e.CleanupGate? || e.Loop? || e.ReadingTime?
  }

  predicate Ahead(e: Engine) {
    e.Entering? || e.Saving? || e.Stamping? || e.Failing?
  }

  ghost predicate Untouched(log: seq<Commit>, drill: string) {
    forall i :: 0 <= i < |log| ==> !TouchesDrill(log[i].tx, drill)
  }

  ghost predicate Tracked(w: World, s: State) {
    ValidState(s) && MarkerFacts(w.clock, w.log, s)
  }

  predicate PointOk(e: Engine) {
    && (e.RestoreGate? ==> NeedsRestoreApproval(e.s.phase))
    && (e.ReadingTime? ==> e.s.phase == Initialized)
    && (e.Loop? && e.call == CleanupCall ==> CleanupStarted(e.s.phase))
    && (e.Preflight? || e.CleanupGate? ==> e.s.phase != Cleaned)
    && (e.CleanupGate? ==> CleanupStarted(e.s.phase) ==> e.s.phase == CleanupPending)
    && (e.Entering? ==> e.s.phase == CleanupPending)
    && (e.Saving? ==> if e.call == RunCall then 1 <= Rank(e.s.phase) <= 7 else Rank(e.s.phase) >= 8)
    && (e.Stamping? ==> e.s.phase == Cleaned)
  }

  ghost predicate MarkerInv(sys: Sys) {
    var w, e := sys.w, sys.e;
    && LogInv(w)
    && PointOk(e)
    && (w.persisted.Some? ==> Tracked(w, w.persisted.value))
    && (e.Preparing? || e.Creating? ==> w.persisted.None?)
    && (e.Creating? ==> e.s == InitialState(e.s.prep) && Untouched(w.log, e.s.prep.drillId))
    && (Synced(e) ==> w.persisted == Some(e.s))
    && (Ahead(e) ==> w.persisted.Some? && Follows(w.persisted.value, e.s) && Tracked(w, e.s))
  }

  // ------------------------------------------------------------------------
  // Commits

  lemma LogInvCommits(w: World, tx: Tx, gap: nat)
    requires LogInv(w) && ApplyTx(Replay(w.log), tx).Some?
    ensures LogInv(Commits(w, tx, gap))
  {
    hide Replay, ApplyTx;
    CommittedAppend(w.log, Commit(w.clock + 1 + gap, tx));
  }

  /** A commit that is not one of the drill's own leaves every fact as it was. */
  lemma FactsForeign(w: World, tx: Tx, gap: nat, s: State)
    requires MarkerFacts(w.clock, w.log, s) && !TouchesDrill(tx, s.prep.drillId)
    ensures var w' := Commits(w, tx, gap); MarkerFacts(w'.clock, w'.log, s)
  {
    var c := Commit(w.clock + 1 + gap, tx);
    CommitTimeAppend(w.log, c, s.prep.drillId, "A");
    CommitTimeAppend(w.log, c, s.prep.drillId, "B");
  }

  lemma FactsOwnMarker(w: World, s: State, name: string, gap: nat)
    requires LogInv(w) && MarkerFacts(w.clock, w.log, s)
    requires name == "A" || (name == "B" && s.phase == WindowReady)
    ensures var tx := InsertMarker(s.prep.drillId, name, s.prep.payload, name == "A");
            var w' := Commits(w, tx, gap);
            MarkerFacts(w'.clock, w'.log, s) && CommitTime(w'.log, s.prep.drillId, name).Some?
  {
    hide LogInv, CommitTime, ApplyTx, Replay;
    var c := Commit(w.clock + 1 + gap, InsertMarker(s.prep.drillId, name, s.prep.payload, name == "A"));
    CommitTimeAppend(w.log, c, s.prep.drillId, "A");
    CommitTimeAppend(w.log, c, s.prep.drillId, "B");
  }

  lemma FactsOwnCleanup(w: World, s: State, gap: nat)
    requires MarkerFacts(w.clock, w.log, s) && Rank(s.phase) >= 9
    ensures var w' := Commits(w, CleanupDrill(s.prep.drillId), gap); MarkerFacts(w'.clock, w'.log, s)
  {
    var c := Commit(w.clock + 1 + gap, CleanupDrill(s.prep.drillId));
    CommitTimeAppend(w.log, c, s.prep.drillId, "A");
    CommitTimeAppend(w.log, c, s.prep.drillId, "B");
  }

  /** The time read after marker A is at or after A's first commit. */
  lemma FactsReadTime(w: World, s: State, c: Choice)
    requires LogInv(w) && Tracked(w, s) && s.phase == Initialized
    requires ReadTime(w, s, c).Done?
    ensures var o := ReadTime(w, s, c);
            Tracked(o.w, o.s.(phase := MarkerAWritten)) && MarkerFacts(o.w.clock, o.w.log, s)
  {
    var d := s.prep.drillId;
    RowsFollowLog(w.log, d, "A");
    CommitTimeBounded(w.log, d, "A");
    var i :| 0 <= i < |w.log| && Inserts(w.log[i], d, "A");
    assert Replay(w.log).markers.value[(d, "A")] == s.prep.payload;
  }

  lemma FreshFacts(w: World, p: Prepared)
    requires Untouched(w.log, p.drillId)
    ensures MarkerFacts(w.clock, w.log, InitialState(p))
  {
  }

  // ------------------------------------------------------------------------
  // Every step keeps the invariant

  /** An operation that leaves the database alone and only fills in target or window fields. */
  predicate Quiet(w: World, s: State, o: Outcome) {
    && o.w.persisted == w.persisted && o.w.log == w.log && o.w.clock == w.clock
    && (o.Done? ==>
          && o.s == s.(targetArn := o.s.targetArn, targetResourceId := o.s.targetResourceId,
                       targetEndpoint := o.s.targetEndpoint, targetSecretArn := o.s.targetSecretArn,
                       window := o.s.window)
          && (s.targetArn != "" ==> o.s.targetArn == s.targetArn)
          && (s.targetResourceId != "" ==> o.s.targetResourceId == s.targetResourceId)
          && (Rank(s.phase) < 3 ==> o.s.targetArn == s.targetArn && o.s.targetResourceId == s.targetResourceId))
  }

  lemma QuietRunOperations(w: World, s: State, c: Choice)
    ensures Quiet(w, s, WaitWindow(w, s, c))
    ensures s.phase == MarkerBWritten && s.targetArn == "" && s.targetResourceId == "" ==>
              Quiet(w, s, RequestRestore(w, s, c))
    ensures s.phase == RestoreRequested ==> Quiet(w, s, WaitAvailable(w, s, c))
    ensures Quiet(w, s, ValidateTarget(w, s, c))
  {
  }

  lemma QuietCleanupOperations(w: World, s: State, c: Choice)
    ensures Quiet(w, s, DeleteTarget(w, s, c))
    ensures Quiet(w, s, WaitDeleted(w, s, c))
    ensures Quiet(w, s, VerifyClean(w, s, c))
  {
  }

  /** What the outcome of the operation s is due for must leave behind. */
  ghost predicate Sound(s: State, o: Outcome, next: Phase) {
    && o.w.persisted == Some(s)
    && LogInv(o.w)
    && Tracked(o.w, s)
    && (o.Done? ==> var s' := o.s.(phase := next); Follows(s, s') && Tracked(o.w, s'))
  }

  lemma QuietIsSound(w: World, s: State, o: Outcome, next: Phase)
    requires w.persisted == Some(s) && LogInv(w) && Tracked(w, s) && Quiet(w, s, o)
    requires Rank(next) == Rank(s.phase) + 1
    requires Rank(s.phase) !in {0, 2}
    ensures Sound(s, o, next)
  {
    hide Committed, TimesIncrease, CommitTime, NeverCleaned, ValidPrepared;
  }

  lemma MarkerBIsSound(w: World, s: State, c: Choice)
    requires w.persisted == Some(s) && LogInv(w) && Tracked(w, s) && s.phase == WindowReady
    ensures Sound(s, WriteMarker(w, s, "B", c), MarkerBWritten)
  {
    hide Committed, TimesIncrease, CommitTime, NeverCleaned, ValidPrepared, Replay, ApplyTx;
    if WriteMarker(w, s, "B", c).w != w {
      LogInvCommits(w, InsertMarker(s.prep.drillId, "B", s.prep.payload, false), c.gap);
      FactsOwnMarker(w, s, "B", c.gap);
    }
  }

  lemma MarkerAIsSound(w: World, s: State, c: Choice)
    requires w.persisted == Some(s) && LogInv(w) && Tracked(w, s) && s.phase == Initialized
    ensures Sound(s, Failed(WriteMarker(w, s, "A", c).w), MarkerAWritten)
  {
    hide Committed, TimesIncrease, CommitTime, NeverCleaned, ValidPrepared, Replay, ApplyTx;
    if WriteMarker(w, s, "A", c).w != w {
      LogInvCommits(w, InsertMarker(s.prep.drillId, "A", s.prep.payload, true), c.gap);
      FactsOwnMarker(w, s, "A", c.gap);
    }
  }

  lemma CleanupApplies(db: Db, drill: string)
    ensures ApplyTx(db, CleanupDrill(drill)).Some?
  {
  }

  lemma CleanupIsSound(w: World, s: State, c: Choice)
    requires w.persisted == Some(s) && LogInv(w) && Tracked(w, s) && s.phase == TargetDeleted
    ensures Sound(s, CleanupMarkers(w, s, c), SourceMarkerCleaned)
  {
    hide Committed, TimesIncrease, CommitTime, NeverCleaned, ValidPrepared, Replay, ApplyTx;
    CleanupApplies(Replay(w.log), s.prep.drillId);
    if c.fault != FailBefore {
      LogInvCommits(w, CleanupDrill(s.prep.drillId), c.gap);
      FactsOwnCleanup(w, s, c.gap);
    }
  }

  lemma SoundAdvance(s: State, o: Outcome, next: Phase, call: Call, approved: bool)
    requires Sound(s, o, next)
    requires if call == RunCall then 1 <= Rank(next) <= 7 else Rank(next) >= 8
    ensures MarkerInv(Advance(o, s, next, call, approved))
  {
    hide LogInv, MarkerFacts, ValidPrepared;
  }

  lemma LoopFacts(sys: Sys)
    requires MarkerInv(sys) && sys.e.Loop?
    ensures sys.w.persisted == Some(sys.e.s) && LogInv(sys.w) && Tracked(sys.w, sys.e.s)
    ensures sys.e.s.phase == MarkerBWritten ==> sys.e.s.targetArn == "" && sys.e.s.targetResourceId == ""
    ensures sys.e.call == CleanupCall ==> CleanupStarted(sys.e.s.phase)
  {
    hide LogInv, ValidPrepared, CommitTime, NeverCleaned;
  }

  /** The iterations that are not an operation followed by a save. */
  lemma DirectIterationKeeps(sys: Sys, c: Choice)
    requires MarkerInv(sys) && sys.e.Loop? && sys.e.call == RunCall
    requires Rank(sys.e.s.phase) == 0 || Rank(sys.e.s.phase) >= 6
    ensures MarkerInv(RunIteration(sys.w, sys.e.s, sys.e.approved, c))
  {
    hide LogInv, ValidPrepared, CommitTime, NeverCleaned, WriteMarker;
    var w, s := sys.w, sys.e.s;
    LoopFacts(sys);
    if s.phase == Initialized {
      MarkerAIsSound(w, s, c);
    }
  }

  lemma RunIterationKeeps(sys: Sys, c: Choice)
    requires MarkerInv(sys) && sys.e.Loop? && sys.e.call == RunCall
    ensures MarkerInv(RunIteration(sys.w, sys.e.s, sys.e.approved, c))
  {
    hide MarkerInv, Sound, Advance, Tracked, LogInv, Quiet, WaitWindow, RequestRestore, WaitAvailable, ValidateTarget,
         WriteMarker;
    var w, s, approved := sys.w, sys.e.s, sys.e.approved;
    LoopFacts(sys);
    QuietRunOperations(w, s, c);
    match s.phase {
      case MarkerAWritten =>
        QuietIsSound(w, s, WaitWindow(w, s, c), WindowReady);
        SoundAdvance(s, WaitWindow(w, s, c), WindowReady, RunCall, approved);
      case WindowReady =>
        MarkerBIsSound(w, s, c);
        SoundAdvance(s, WriteMarker(w, s, "B", c), MarkerBWritten, RunCall, approved);
      case MarkerBWritten =>
        QuietIsSound(w, s, RequestRestore(w, s, c), RestoreRequested);
        SoundAdvance(s, RequestRestore(w, s, c), RestoreRequested, RunCall, approved);
      case RestoreRequested =>
        QuietIsSound(w, s, WaitAvailable(w, s, c), TargetAvailable);
        SoundAdvance(s, WaitAvailable(w, s, c), TargetAvailable, RunCall, approved);
      case TargetAvailable =>
        QuietIsSound(w, s, ValidateTarget(w, s, c), Validated);
        SoundAdvance(s, ValidateTarget(w, s, c), Validated, RunCall, approved);
      case _ => DirectIterationKeeps(sys, c);
    }
  }

  lemma CleanupIterationKeeps(sys: Sys, c: Choice)
    requires MarkerInv(sys) && sys.e.Loop? && sys.e.call == CleanupCall
    ensures MarkerInv(CleanupIteration(sys.w, sys.e.s, sys.e.approved, c))
  {
    hide MarkerInv, Sound, Advance, Tracked, LogInv, Quiet, DeleteTarget, WaitDeleted, VerifyClean, CleanupMarkers;
    var w, s, approved := sys.w, sys.e.s, sys.e.approved;
    LoopFacts(sys);
    QuietCleanupOperations(w, s, c);
    match s.phase {
      case CleanupPending =>
        QuietIsSound(w, s, DeleteTarget(w, s, c), TargetDeleteRequested);
        SoundAdvance(s, DeleteTarget(w, s, c), TargetDeleteRequested, CleanupCall, approved);
      case TargetDeleteRequested =>
        QuietIsSound(w, s, WaitDeleted(w, s, c), TargetDeleted);
        SoundAdvance(s, WaitDeleted(w, s, c), TargetDeleted, CleanupCall, approved);
      case TargetDeleted =>
        CleanupIsSound(w, s, c);
        SoundAdvance(s, CleanupMarkers(w, s, c), SourceMarkerCleaned, CleanupCall, approved);
      case SourceMarkerCleaned =>
        QuietIsSound(w, s, VerifyClean(w, s, c), Cleaned);
        SoundAdvance(s, VerifyClean(w, s, c), Cleaned, CleanupCall, approved);
      case _ =>
    }
  }

  lemma SaveKeeps(sys: Sys, fault: Fault)
    requires MarkerInv(sys) && SaveStep(sys.w, sys.e, fault).Some?
    ensures MarkerInv(SaveStep(sys.w, sys.e, fault).value)
  {
    hide Committed, TimesIncrease, MarkerFacts, ValidPrepared;
    if sys.e.Creating? {
      FreshFacts(sys.w, sys.e.s.prep);
    }
  }

  lemma ForeignKeeps(sys: Sys, tx: Tx)
    requires MarkerInv(sys) && Step(sys, ForeignCommit(tx)).Some?
    ensures MarkerInv(Step(sys, ForeignCommit(tx)).value)
  {
    hide Committed, TimesIncrease, Replay, ApplyTx, NeverCleaned, CommitTime, Validates, ValidPrepared;
    LogInvCommits(sys.w, tx, 0);
    if sys.w.persisted.Some? {
      FactsForeign(sys.w, tx, 0, sys.w.persisted.value);
    }
    if Ahead(sys.e) {
      FactsForeign(sys.w, tx, 0, sys.e.s);
    }
  }

  lemma StepKeeps(sys: Sys, a: Action)
    requires MarkerInv(sys) && Step(sys, a).Some?
    ensures MarkerInv(Step(sys, a).value)
  {
    hide Committed, TimesIncrease, MarkerFacts, Replay, ApplyTx, ValidPrepared, RunIteration, CleanupIteration,
         CleanupPrepared;
    match a {
      case Operate(c) =>
        if sys.e.ReadingTime? {
          ReadingKeeps(sys, c);
        } else if sys.e.call == RunCall {
          RunIterationKeeps(sys, c);
        } else {
          CleanupIterationKeeps(sys, c);
        }
      case Save(fault) => SaveKeeps(sys, fault);
      case ForeignCommit(tx) => ForeignKeeps(sys, tx);
      case Prepare(p) => FreshFacts(sys.w, p);
      case Tick(gap) => TickKeeps(sys, gap);
      case Approve => ApproveKeepsMarkers(sys);
      case _ =>
    }
  }

  lemma ReadingKeeps(sys: Sys, c: Choice)
    requires MarkerInv(sys) && sys.e.ReadingTime?
    ensures MarkerInv(Advance(ReadTime(sys.w, sys.e.s, c), sys.e.s, MarkerAWritten, RunCall, true))
  {
    hide Committed, TimesIncrease, Replay, ApplyTx, NeverCleaned, CommitTime, ValidPrepared;
    if ReadTime(sys.w, sys.e.s, c).Done? {
      FactsReadTime(sys.w, sys.e.s, c);
    }
  }

  lemma TickKeeps(sys: Sys, gap: nat)
    requires MarkerInv(sys)
    ensures MarkerInv(Sys(sys.w.(clock := sys.w.clock + gap), sys.e))
  {
    hide Committed, TimesIncrease, NeverCleaned, CommitTime, ValidPrepared;
  }

  lemma ApproveKeepsMarkers(sys: Sys)
    requires MarkerInv(sys) && Step(sys, Approve).Some?
    ensures MarkerInv(Step(sys, Approve).value)
  {
    hide Committed, TimesIncrease, NeverCleaned, CommitTime, ValidPrepared;
  }

  lemma {:induction false} ExecKeeps(sys: Sys, acts: seq<Action>)
    requires MarkerInv(sys) && Exec(sys, acts).Some?
    ensures MarkerInv(Exec(sys, acts).value)
  {
    if acts != [] {
      ExecKeeps(sys, acts[..|acts| - 1]);
      StepKeeps(Exec(sys, acts[..|acts| - 1]).value, acts[|acts| - 1]);
    }
  }

  // ------------------------------------------------------------------------
  // Theorems over every run

  lemma InitialHolds(init: Sys)
    requires Initial(init)
    ensures MarkerInv(init)
  {
  }

  /** No operation touches the state file or picks the phase to save. */
  lemma OperationsPersistNothing(w: World, s: State, c: Choice)
    ensures RunOperation(w, s, c).w.persisted == w.persisted
    ensures CleanupOperation(w, s, c).w.persisted == w.persisted
    ensures RunOperation(w, s, c).Done? ==> RunOperation(w, s, c).s.phase == s.phase
    ensures CleanupOperation(w, s, c).Done? ==> CleanupOperation(w, s, c).s == s
    ensures ReadTime(w, s, c).w.persisted == w.persisted
  {
    hide Replay, ApplyTx, SourceChecked, TargetVerified, TargetValidates, CleanupPrepared;
  }

  lemma StepFollows(sys: Sys, a: Action)
    requires MarkerInv(sys) && Step(sys, a).Some? && sys.w.persisted.Some?
    ensures var p' := Step(sys, a).value.w.persisted;
            p'.Some? && Follows(sys.w.persisted.value, p'.value)
  {
    hide LogInv, MarkerFacts, ValidPrepared, ApplyTx, Replay, RunOperation, CleanupOperation, ReadTime, CleanupPrepared;
    if a.Operate? {
      OperationsPersistNothing(sys.w, sys.e.s, a.choice);
    }
  }

  /**
   * Persisted phases never go backwards; the drill's identity, a persisted restore
   * time and a persisted target ARN and resource ID never change.
   */
  lemma {:induction false} PersistedOnlyAdvances(sys: Sys, acts: seq<Action>)
    requires MarkerInv(sys) && sys.w.persisted.Some? && Exec(sys, acts).Some?
    ensures var p' := Exec(sys, acts).value.w.persisted;
            p'.Some? && Follows(sys.w.persisted.value, p'.value)
  {
    if acts != [] {
      var head := acts[..|acts| - 1];
      PersistedOnlyAdvances(sys, head);
      ExecKeeps(sys, head);
      StepFollows(Exec(sys, head).value, acts[|acts| - 1]);
    }
  }

  /** What the drill sees of its own markers as of its restore time. */
  lemma RowsAtRestoreTime(w: World, s: State, n: string)
    requires LogInv(w) && MarkerFacts(w.clock, w.log, s) && s.restoreTime.Some?
    ensures var snap, d := SnapshotAt(w.log, s.restoreTime.value), s.prep.drillId;
            && (HasMarker(snap, d, n) <==> n == "A")
            && (HasMarker(snap, d, n) ==> snap.markers.value[(d, n)] == s.prep.payload)
  {
    hide Replay;
    var t, d := s.restoreTime.value, s.prep.drillId;
    UpToIsPrefix(w.log, t);
    var seen := UpTo(w.log, t);
    assert seen == w.log[..|seen|];
    CommittedPrefix(w.log, |seen|);
    assert NeverCleaned(seen, d);
    CommitTimeWithin(w.log, d, n, t);
    RowsFollowLog(seen, d, n);
    if HasMarker(SnapshotAt(w.log, t), d, n) {
      var i :| 0 <= i < |seen| && Inserts(seen[i], d, n);
      assert seen[i] == w.log[i];
    }
  }

  /** The state's restore time separates the two markers on the source as of that time. */
  lemma BoundaryOf(w: World, s: State)
    requires LogInv(w) && MarkerFacts(w.clock, w.log, s) && s.restoreTime.Some?
    ensures var t, d := s.restoreTime.value, s.prep.drillId;
            var a, b := CommitTime(w.log, d, "A"), CommitTime(w.log, d, "B");
            var snap := SnapshotAt(w.log, t);
            && a.Some? && a.value <= t && (b.Some? ==> t < b.value)
            && s.checksum.Some?
            && (Validates(snap, d, s.checksum.value) <==> EXPECTED_TABLES <= snap.tables)
            && HasMarker(snap, d, "A") && snap.markers.value[(d, "A")] == s.prep.payload
            && (forall n :: HasMarker(snap, d, n) ==> n == "A")
  {
    hide SnapshotAt, CommitTime, NeverCleaned, LogInv;
    var snap, d := SnapshotAt(w.log, s.restoreTime.value), s.prep.drillId;
    forall n | HasMarker(snap, d, n) ensures n == "A" {
      RowsAtRestoreTime(w, s, n);
    }
    RowsAtRestoreTime(w, s, "A");
    RowsAtRestoreTime(w, s, "B");
  }

  /**
   * For every sequence of calls, crashes, faults and foreign activity: as soon as a
   * restore time is persisted it lies at or after marker A's commit and before marker
   * B's, marker B is committed only with a restore time persisted, and validation of
   * the source as of that time can fail only for a missing application table.
   */
  lemma RestoreBoundary(init: Sys, acts: seq<Action>)
    requires Initial(init) && Exec(init, acts).Some?
    requires Exec(init, acts).value.w.persisted.Some?
    ensures var w := Exec(init, acts).value.w;
            var p, d := w.persisted.value, w.persisted.value.prep.drillId;
            var a, b := CommitTime(w.log, d, "A"), CommitTime(w.log, d, "B");
            && (b.Some? ==> p.restoreTime.Some?)
            && (p.restoreTime.Some? ==>
                  var t := p.restoreTime.value;
                  && a.Some? && a.value <= t && (b.Some? ==> t < b.value)
                  && p.checksum.Some?
                  && (Validates(SnapshotAt(w.log, t), d, p.checksum.value) <==>
                      EXPECTED_TABLES <= SnapshotAt(w.log, t).tables))
  {
    InitialHolds(init);
    ExecKeeps(init, acts);
    var w := Exec(init, acts).value.w;
    if w.persisted.value.restoreTime.Some? {
      BoundaryOf(w, w.persisted.value);
    }
  }

  /** What the source holds of a drill whose persisted phase is known. */
  lemma RowsOfPhase(w: World, p: State)
    requires LogInv(w) && MarkerFacts(w.clock, w.log, p)
    ensures var rank, rows := Rank(p.phase), Replay(w.log);
            && (1 <= rank <= 6 || (p.validated && rank <= 8) ==> HasMarker(rows, p.prep.drillId, "A"))
            && (3 <= rank <= 6 || (p.validated && rank <= 8) ==> HasMarker(rows, p.prep.drillId, "B"))
            && (rank < 2 ==> !HasMarker(rows, p.prep.drillId, "B"))
            && (forall n :: HasMarker(rows, p.prep.drillId, n) && rank < 9 ==>
                  n in {"A", "B"} && rows.markers.value[(p.prep.drillId, n)] == p.prep.payload)
  {
    hide Replay;
    if Rank(p.phase) < 9 {
      RowsFollowLog(w.log, p.prep.drillId, "A");
      RowsFollowLog(w.log, p.prep.drillId, "B");
      forall n | HasMarker(Replay(w.log), p.prep.drillId, n)
        ensures n in {"A", "B"} && Replay(w.log).markers.value[(p.prep.drillId, n)] == p.prep.payload
      {
        RowsFollowLog(w.log, p.prep.drillId, n);
      }
    }
  }

  /** A persisted phase is never ahead of the marker writes it stands for. */
  lemma PhasesFollowMarkers(init: Sys, acts: seq<Action>)
    requires Initial(init) && Exec(init, acts).Some?
    requires Exec(init, acts).value.w.persisted.Some?
    ensures var w := Exec(init, acts).value.w;
            var p, rank, rows := w.persisted.value, Rank(w.persisted.value.phase), Replay(w.log);
            && (1 <= rank <= 6 || (p.validated && rank <= 8) ==> HasMarker(rows, p.prep.drillId, "A"))
            && (3 <= rank <= 6 || (p.validated && rank <= 8) ==> HasMarker(rows, p.prep.drillId, "B"))
            && (rank < 2 ==> !HasMarker(rows, p.prep.drillId, "B"))
            && (forall n :: HasMarker(rows, p.prep.drillId, n) && rank < 9 ==>
                  n in {"A", "B"} && rows.markers.value[(p.prep.drillId, n)] == p.prep.payload)
  {
    InitialHolds(init);
    ExecKeeps(init, acts);
    RowsOfPhase(Exec(init, acts).value.w, Exec(init, acts).value.w.persisted.value);
  }
}
