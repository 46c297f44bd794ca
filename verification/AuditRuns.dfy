/** Facts about the audit over whole runs of scans. */
module AuditRuns {
  import opened Prelude
  import opened Ordering
  import opened Findings
  import opened Transitions
  import opened AuditStatus

  function RunStatus(start: Status, scans: seq<Scan>): Status {
    if scans == [] then start else Reconcile(RunStatus(start, scans[..|scans| - 1]), scans[|scans| - 1]).0
  }

  /** All events published by the run, in order. */
  function RunEvents(start: Status, scans: seq<Scan>): seq<Transition> {
    if scans == [] then []
    else
      var n := |scans| - 1;
      RunEvents(start, scans[..n]) + Reconcile(RunStatus(start, scans[..n]), scans[n]).1
  }

  /** The evaluator reports each ID once. */
  predicate Identified(scan: Scan) {
    DistinctIds(SanitizeAll(scan.findings))
  }

  /** A ready scan whose patch, if sent, either succeeded or did nothing. */
  predicate Observable(scan: Scan) {
    IsReady(scan) && Identified(scan) && scan.patch != PatchLanded
  }

  // ------------------------------------------------------------------------
  // Equal statuses publish nothing

  lemma {:induction false} OnlyUnchanged(v: seq<Finding>, fs: seq<Finding>)
    requires forall i :: 0 <= i < |fs| && fs[i].id != "" ==>
               fs[i].id in ViewOf(v) && ViewOf(v)[fs[i].id] == LevelOf(fs[i])
    ensures Published(Appearances(ById(v), fs)) == []
  {
    if fs != [] {
      var n := |fs| - 1;
      OnlyUnchanged(v, fs[..n]);
      if fs[n].id != "" {
        var ts, t := Appearances(ById(v), fs[..n]), Transitions.Compare(ById(v), fs[n]);
        assert t.kind == Unchanged;
        assert (ts + [t])[..|ts|] == ts;
      }
    }
  }

  lemma {:induction false} NoDepartures(before: seq<Finding>, after: map<string, Finding>)
    requires forall i :: 0 <= i < |before| && before[i].id != "" ==> before[i].id in after
    ensures Departures(before, after) == []
  {
    if before != [] {
      NoDepartures(before[..|before| - 1], after);
    }
  }

  /** A pass publishes nothing exactly when no finding appeared, disappeared or changed level. */
  lemma SilentExactly(before: seq<Finding>, after: seq<Finding>)
    requires DistinctIds(before) && DistinctIds(after)
    ensures Published(Diff(before, after)) == [] <==> ViewOf(before) == ViewOf(after)
  {
    DiffReplays(before, after);
    PublishedReplays(ViewOf(before), Diff(before, after));
    if ViewOf(before) == ViewOf(after) {
      ByIdMembers(before);
      ByIdMembers(after);
      forall i | 0 <= i < |after| && after[i].id != ""
        ensures after[i].id in ViewOf(before) && ViewOf(before)[after[i].id] == LevelOf(after[i])
      {
        ByIdUnique(after, after[i]);
        assert after[i].id in ViewOf(after);
      }
      forall i | 0 <= i < |before| && before[i].id != "" ensures before[i].id in ById(after) {
        assert before[i].id in ViewOf(before);
      }
      OnlyUnchanged(before, after);
      NoDepartures(before, ById(after));
      assert Diff(before, after) == Appearances(ById(before), after);
    }
  }

  lemma SortedMembers(a: seq<Finding>, b: seq<Finding>)
    requires Sort(FindingLess, a) == Sort(FindingLess, b)
    ensures multiset(a) == multiset(b)
  {
    SortPermutes(FindingLess, a);
    SortPermutes(FindingLess, b);
  }

  lemma SameMembersSameView(a: seq<Finding>, b: seq<Finding>)
    requires multiset(a) == multiset(b) && DistinctIds(a) && DistinctIds(b)
    ensures ViewOf(a) == ViewOf(b)
  {
    ByIdMembers(a);
    ByIdMembers(b);
    forall id | id in ById(a) ensures id in ById(b) && ById(a)[id] == ById(b)[id] {
      assert ById(a)[id] in multiset(b);
      ByIdUnique(b, ById(a)[id]);
    }
    forall id | id in ById(b) ensures id in ById(a) {
      assert ById(b)[id] in multiset(a);
      ByIdUnique(a, ById(b)[id]);
    }
  }

  /** A skipped patch never publishes: semantically equal statuses differ in no transition. */
  lemma EqualStatusIsSilent(a: Status, b: Status)
    requires SemanticEqual(a, b) && DistinctIds(a.findings) && DistinctIds(b.findings)
    ensures Published(Diff(a.findings, b.findings)) == []
    ensures ViewOf(a.findings) == ViewOf(b.findings)
  {
    hide Diff, Published, ViewOf, FindingLess;
    SortedMembers(a.findings, b.findings);
    SameMembersSameView(a.findings, b.findings);
    SilentExactly(a.findings, b.findings);
  }

  // ------------------------------------------------------------------------
  // Replay over runs

  lemma DesiredIdentified(current: Status, scan: Scan)
    requires Identified(scan)
    ensures DistinctIds(BuildStatus(current, scan).findings)
  {
    BoundWithinLimits(scan.findings);
  }

  lemma ScanReplays(current: Status, scan: Scan)
    requires DistinctIds(current.findings) && Observable(scan)
    ensures var (next, ts) := Reconcile(current, scan);
            && DistinctIds(next.findings)
            && Replay(ViewOf(current.findings), ts) == ViewOf(next.findings)
            && AllLegal(ViewOf(current.findings), ts)
  {
    hide BuildStatus, IsReady, SemanticEqual, ViewOf, Diff, Published, AllLegal, DistinctIds;
    var desired := BuildStatus(current, scan);
    var v := ViewOf(current.findings);
    DesiredIdentified(current, scan);
    DiffReplays(current.findings, desired.findings);
    PublishedReplays(v, Diff(current.findings, desired.findings));
    PublishedLegal(v, Diff(current.findings, desired.findings));
    if SemanticEqual(current, desired) {
      EqualStatusIsSilent(current, desired);
    }
    NothingLegal(v);
  }

  /**
   * Over any run of ready scans, replaying the published events over what was known at
   * the start gives exactly the findings persisted at the end, and every event is legal
   * where it stands, so additions and resolutions of an ID alternate.
   */
  lemma {:induction false} EventsReplayRun(start: Status, scans: seq<Scan>)
    requires DistinctIds(start.findings)
    requires forall i :: 0 <= i < |scans| ==> Observable(scans[i])
    ensures DistinctIds(RunStatus(start, scans).findings)
    ensures Replay(ViewOf(start.findings), RunEvents(start, scans)) == ViewOf(RunStatus(start, scans).findings)
    ensures AllLegal(ViewOf(start.findings), RunEvents(start, scans))
  {
    hide Observable, Reconcile, ViewOf, AllLegal, DistinctIds;
    if scans == [] {
      NothingLegal(ViewOf(start.findings));
    } else {
      var n := |scans| - 1;
      EventsReplayRun(start, scans[..n]);
      var mid := RunStatus(start, scans[..n]);
      ScanReplays(mid, scans[n]);
      ReplayConcat(ViewOf(start.findings), RunEvents(start, scans[..n]), Reconcile(mid, scans[n]).1);
      LegalConcat(ViewOf(start.findings), RunEvents(start, scans[..n]), Reconcile(mid, scans[n]).1);
    }
  }

  /**
   * A scan's events account for its change of findings exactly when it was ready and its
   * patch was not a failure that took effect, or nothing was written, or the findings
   * stayed at their levels.
   */
  lemma ScanReplaysExactly(current: Status, scan: Scan)
    requires DistinctIds(current.findings) && Identified(scan)
    ensures var (next, ts) := Reconcile(current, scan);
            Replay(ViewOf(current.findings), ts) == ViewOf(next.findings) <==>
            (IsReady(scan) && scan.patch != PatchLanded) || scan.patch == PatchLost
            || ViewOf(current.findings) == ViewOf(Bound(scan.findings).kept)
  {
    hide Bound, IsReady, SemanticEqual, ViewOf, Diff, Published, AllLegal, DistinctIds;
    var desired := BuildStatus(current, scan);
    DesiredIdentified(current, scan);
    if SemanticEqual(current, desired) {
      EqualStatusIsSilent(current, desired);
    }
    if Observable(scan) {
      ScanReplays(current, scan);
    }
  }

  /** A scan that is not ready can drop persisted findings without an event, so replay needs ready scans. */
  lemma UnreadyScanBreaksReplay(start: Status, scan: Scan)
    requires DistinctIds(start.findings) && ViewOf(start.findings) != map[]
    requires !IsReady(scan) && scan.findings == [] && scan.patch == PatchOk
    ensures Replay(ViewOf(start.findings), RunEvents(start, [scan])) != ViewOf(RunStatus(start, [scan]).findings)
  {
    assert [scan][..0] == [];
    var desired := BuildStatus(start, scan);
    assert desired.findings == [];
    if SemanticEqual(start, desired) {
      EqualStatusIsSilent(start, desired);
    }
    assert RunEvents(start, [scan]) == [] + Reconcile(start, scan).1;
  }

  // ------------------------------------------------------------------------
  // Fixed point

  /** Two passes over the same evidence want the same status, whatever is persisted and whenever they run. */
  lemma SameEvidenceSameStatus(a: Status, b: Status, scan: Scan, t: Seconds)
    ensures SemanticEqual(BuildStatus(a, scan), BuildStatus(b, scan.(now := t)))
  {
    hide Sort, Bound, Summarize;
    var x, y := BuildStatus(a, scan), BuildStatus(b, scan.(now := t));
    assert Undated(x.conditions) == Undated(y.conditions);
  }

  /**
   * Reconciling again over unchanged evidence publishes nothing and wants a status
   * equal to the persisted one but for the heartbeat.
   */
  lemma RescanIsQuiet(current: Status, scan: Scan, t: Seconds)
    requires Identified(scan) && DistinctIds(current.findings) && scan.patch == PatchOk
    ensures var persisted, again := Reconcile(current, scan).0, scan.(now := t);
            && SemanticEqual(persisted, BuildStatus(persisted, again))
            && Reconcile(persisted, again).1 == []
            && (NeedsPatch(current, BuildStatus(current, scan)) ==>
                  BuildStatus(persisted, again) == persisted.(heartbeat := BuildStatus(persisted, again).heartbeat))
  {
    var first, persisted, again := BuildStatus(current, scan), Reconcile(current, scan).0, scan.(now := t);
    SameEvidenceSameStatus(current, persisted, scan, t);
    DesiredIdentified(current, scan);
    DesiredIdentified(persisted, again);
    if NeedsPatch(current, first) {
      StampsKept(current, scan, t);
    }
    hide BuildStatus, FindingLess, Sort, Published, Diff;
    EqualStatusIsSilent(persisted, BuildStatus(persisted, again));
  }

  lemma StampsKept(current: Status, scan: Scan, t: Seconds)
    ensures var first := BuildStatus(current, scan);
            BuildStatus(first, scan.(now := t)).conditions == first.conditions
  {
    hide Bound, Summarize, SnapshotFailure;
    var first := BuildStatus(current, scan);
    assert first.conditions[1..][0] == first.conditions[1];
    assert FindCondition(first.conditions, "Ready") == Some(first.conditions[0]);
    assert FindCondition(first.conditions, "InventoryReady") == Some(first.conditions[1]);
  }

  // ------------------------------------------------------------------------
  // Transition times and heartbeats

  function StatusAt(start: Status, scans: seq<Scan>, i: nat): Status
    requires i <= |scans|
  {
    RunStatus(start, scans[..i])
  }

  /** Scan i changed the persisted value of the condition. */
  predicate Flips(start: Status, scans: seq<Scan>, kind: string, i: nat)
    requires i < |scans|
  {
    var was := FindCondition(StatusAt(start, scans, i).conditions, kind);
    var after := FindCondition(StatusAt(start, scans, i + 1).conditions, kind);
    after.Some? && (was.None? || was.value.status != after.value.status)
  }

  /** The wanted condition keeps the time of a recorded one with its status, and else takes the scan's. */
  lemma WantedStamps(current: Status, scan: Scan, kind: string)
    requires kind == "Ready" || kind == "InventoryReady"
    ensures var was, wanted := FindCondition(current.conditions, kind),
                               FindCondition(BuildStatus(current, scan).conditions, kind);
            && wanted.Some?
            && wanted.value.lastTransition ==
               if was.Some? && was.value.status == wanted.value.status then was.value.lastTransition else scan.now
  {
    hide Bound, Summarize, Failure, IsReady;
    var cs := BuildStatus(current, scan).conditions;
    assert cs[1..][0] == cs[1];
  }

  lemma ReconcileStamps(current: Status, scan: Scan, kind: string)
    requires kind == "Ready" || kind == "InventoryReady"
    ensures var was := FindCondition(current.conditions, kind);
            var after := FindCondition(Reconcile(current, scan).0.conditions, kind);
            && (was.Some? ==> after.Some?)
            && (after.Some? ==>
                  after.value.lastTransition ==
                  if was.Some? && was.value.status == after.value.status then was.value.lastTransition else scan.now)
  {
    hide BuildStatus, IsReady, NeedsPatch, Diff, Published, FindCondition;
    WantedStamps(current, scan, kind);
  }

  /** `time` is when the last flip happened, or the starting transition time if there was none. */
  ghost predicate LastFlip(start: Status, scans: seq<Scan>, kind: string, time: Seconds) {
    || (exists i: nat :: LastFlipAt(start, scans, kind, time, i))
    || ((forall j :: 0 <= j < |scans| ==> !Flips(start, scans, kind, j))
          && FindCondition(start.conditions, kind).Some?
          && FindCondition(start.conditions, kind).value.lastTransition == time)
  }

  lemma FlipsOfPrefix(start: Status, scans: seq<Scan>, kind: string)
    requires scans != []
    ensures forall j :: 0 <= j < |scans| - 1 ==>
              Flips(start, scans[..|scans| - 1], kind, j) == Flips(start, scans, kind, j)
  {
    hide FindCondition, RunStatus;
    var head := scans[..|scans| - 1];
    forall j | 0 <= j < |scans| - 1 ensures Flips(start, head, kind, j) == Flips(start, scans, kind, j) {
      assert head[..j] == scans[..j] && head[..j + 1] == scans[..j + 1];
    }
  }

  /** Scan i is the last one so far that flipped the condition, and it ran at `time`. */
  ghost predicate LastFlipAt(start: Status, scans: seq<Scan>, kind: string, time: Seconds, i: nat) {
    i < |scans| && Flips(start, scans, kind, i) && scans[i].now == time
    && forall j :: i < j < |scans| ==> !Flips(start, scans, kind, j)
  }

  lemma FlippedNow(start: Status, scans: seq<Scan>, kind: string)
    requires scans != [] && Flips(start, scans, kind, |scans| - 1)
    ensures LastFlip(start, scans, kind, scans[|scans| - 1].now)
  {
    hide Flips;
    assert LastFlipAt(start, scans, kind, scans[|scans| - 1].now, |scans| - 1);
  }

  lemma NotFlippedNow(start: Status, scans: seq<Scan>, kind: string, time: Seconds)
    requires scans != [] && !Flips(start, scans, kind, |scans| - 1)
    requires LastFlip(start, scans[..|scans| - 1], kind, time)
    ensures LastFlip(start, scans, kind, time)
  {
    hide Flips;
    var head := scans[..|scans| - 1];
    FlipsOfPrefix(start, scans, kind);
    if i: nat :| LastFlipAt(start, head, kind, time, i) {
      assert LastFlipAt(start, scans, kind, time, i);
    }
  }

  /** A condition's transition time is the time of the last scan that flipped it. */
  lemma {:induction false} TransitionTimeIsLastFlip(start: Status, scans: seq<Scan>, kind: string)
    requires kind == "Ready" || kind == "InventoryReady"
    ensures var c := FindCondition(RunStatus(start, scans).conditions, kind);
            c.Some? ==> LastFlip(start, scans, kind, c.value.lastTransition)
  {
    hide Flips, Reconcile, FindCondition, LastFlip;
    if scans == [] {
      NoScans(start, kind);
    } else {
      var n := |scans| - 1;
      TransitionTimeIsLastFlip(start, scans[..n], kind);
      ReconcileStamps(RunStatus(start, scans[..n]), scans[n], kind);
      FlipAtEnd(start, scans, kind);
      var c := FindCondition(RunStatus(start, scans).conditions, kind);
      if c.Some? {
        if Flips(start, scans, kind, n) {
          FlippedNow(start, scans, kind);
        } else {
          NotFlippedNow(start, scans, kind, c.value.lastTransition);
        }
      }
    }
  }

  lemma NoScans(start: Status, kind: string)
    ensures var c := FindCondition(start.conditions, kind);
            c.Some? ==> LastFlip(start, [], kind, c.value.lastTransition)
  {
  }

  lemma FlipAtEnd(start: Status, scans: seq<Scan>, kind: string)
    requires scans != []
    ensures var was := FindCondition(RunStatus(start, scans[..|scans| - 1]).conditions, kind);
            var after := FindCondition(RunStatus(start, scans).conditions, kind);
            Flips(start, scans, kind, |scans| - 1) <==>
              after.Some? && (was.None? || was.value.status != after.value.status)
  {
    assert scans[..|scans|] == scans;
  }

  /** The resync intervals of the scans that moved the heartbeat. */
  function MovedTime(start: Status, scans: seq<Scan>): Seconds {
    if scans == [] then 0
    else
      var n := |scans| - 1;
      var before := RunStatus(start, scans[..n]);
      MovedTime(start, scans[..n]) +
      if Reconcile(before, scans[n]).0.heartbeat != before.heartbeat then Interval(scans[n]) else 0
  }

  /** The heartbeat is the scan's time exactly when the scan was ready and due and its write took effect. */
  lemma HeartbeatStep(current: Status, scan: Scan)
    ensures Reconcile(current, scan).0.heartbeat ==
            if IsReady(scan) && Due(current, scan) && scan.patch != PatchLost then Some(scan.now)
            else current.heartbeat
  {
    hide Bound, Summarize, SnapshotFailure, SemanticEqual, Diff, Published, UpdateCondition;
  }

  /**
   * Over any run, whatever the clock does, the heartbeat moves on only by at least the
   * resync intervals of the scans that moved it.
   */
  lemma {:induction false} HeartbeatPace(start: Status, scans: seq<Scan>)
    requires start.heartbeat.Some?
    ensures var end := RunStatus(start, scans);
            end.heartbeat.Some? && end.heartbeat.value >= start.heartbeat.value + MovedTime(start, scans)
  {
    hide Reconcile;
    if scans != [] {
      var n := |scans| - 1;
      HeartbeatPace(start, scans[..n]);
      HeartbeatStep(RunStatus(start, scans[..n]), scans[n]);
    }
  }
}
