/** The audit's status: readiness conditions, heartbeat, findings, and one reconcile pass. */
module AuditStatus {
  import opened Prelude
  import opened Ordering
  import opened Findings
  import opened Transitions

  type Seconds = int

  // ------------------------------------------------------------------------
  // Snapshot failures

  datatype ErrorDto = ErrorDto(errorClass: string, message: string)
  datatype Freshness = Fresh | Stale | Unknown
  datatype Discovery = NotRequired | Available | Unavailable | Forbidden | UnknownState | InvalidState
  datatype Metadata = Metadata(freshness: Freshness, sourceError: Option<ErrorDto>)

  /** What the readiness decision looks at. */
  datatype Evidence = Evidence(
    discovery: Discovery, discoveryError: Option<ErrorDto>,
    applications: seq<Metadata>, protections: seq<Metadata>, owners: seq<Metadata>)

  const STALE := ErrorDto("StaleEvidence", "Application evidence is stale")

  function ErrorPriority(errorClass: string): nat {
    if errorClass == "InvalidInventoryScope" then 6
    else if errorClass == "TransientReadFailure" then 5
    else if errorClass == "EvidenceForbidden" then 4
    else if errorClass == "MalformedEvidence" then 3
    else if errorClass == "DependencyUnavailable" then 2
    else if errorClass == "StaleEvidence" then 1
    else 0
  }

  function SourceErrors(ms: seq<Metadata>, staleCounts: bool): seq<ErrorDto> {
    if ms == [] then []
    else
      var m := ms[|ms| - 1];
      SourceErrors(ms[..|ms| - 1], staleCounts)
      + (if m.sourceError.Some? then [m.sourceError.value] else [])
      + (if staleCounts && m.freshness == Stale then [STALE] else [])
  }

  /** Every error in the order the evidence lists them. */
  function Candidates(e: Evidence): seq<ErrorDto> {
    SourceErrors(e.applications, true) + SourceErrors(e.protections, false) + SourceErrors(e.owners, false)
  }

  /** The first error of the highest priority. */
  ghost predicate FirstWorst(chosen: ErrorDto, errors: seq<ErrorDto>) {
    exists i :: 0 <= i < |errors| && errors[i] == chosen
      && (forall j :: 0 <= j < |errors| ==> ErrorPriority(errors[j].errorClass) <= ErrorPriority(chosen.errorClass))
      && (forall j :: 0 <= j < i ==> ErrorPriority(errors[j].errorClass) < ErrorPriority(chosen.errorClass))
  }

  function Worst(errors: seq<ErrorDto>): Option<ErrorDto> {
    if errors == [] then None
    else
      var best, e := Worst(errors[..|errors| - 1]), errors[|errors| - 1];
      if best.None? || ErrorPriority(e.errorClass) > ErrorPriority(best.value.errorClass) then Some(e) else best
  }

  lemma {:induction false} WorstIsFirstWorst(errors: seq<ErrorDto>)
    ensures Worst(errors).None? <==> errors == []
    ensures Worst(errors).Some? ==> FirstWorst(Worst(errors).value, errors)
  {
    hide ErrorPriority;
    if errors != [] {
      var n := |errors| - 1;
      WorstIsFirstWorst(errors[..n]);
      var best := Worst(errors[..n]);
      if best.None? || ErrorPriority(errors[n].errorClass) > ErrorPriority(best.value.errorClass) {
        assert forall j :: 0 <= j < n ==> errors[..n][j] == errors[j];
        assert errors[n] == Worst(errors).value;
      } else {
        var i :| 0 <= i < n && errors[..n][i] == best.value
          && (forall j :: 0 <= j < n ==>
            ErrorPriority(errors[..n][j].errorClass) <= ErrorPriority(best.value.errorClass))
          && (forall j :: 0 <= j < i ==>
            ErrorPriority(errors[..n][j].errorClass) < ErrorPriority(best.value.errorClass));
        assert forall j :: 0 <= j < n ==> errors[..n][j] == errors[j];
        assert errors[i] == best.value;
      }
    }
  }

  /** The (reason, message) that makes the audit not ready; an empty reason means ready. */
  function SnapshotFailure(snapshot: Option<Evidence>): (string, string) {
    if snapshot.None? then ("TransientReadFailure", "inventory collector returned no snapshot")
    else
      var e := snapshot.value;
      match e.discovery
      case Unavailable => ErrorReason(e.discoveryError, "DependencyUnavailable", "Argo Application API is unavailable")
      case Forbidden =>
        ErrorReason(e.discoveryError, "EvidenceForbidden", "Argo Application API discovery is forbidden")
      case UnknownState =>
        ErrorReason(e.discoveryError, "TransientReadFailure", "Argo Application API discovery state is unknown")
      case InvalidState => ("TransientReadFailure", "Argo Application discovery state is empty or invalid")
      case _ =>
        match Worst(Candidates(e))
        case Some(dto) => (dto.errorClass, Truncate(dto.message, 512))
        case None => ("", "")
  }

  function ErrorReason(dto: Option<ErrorDto>, fallback: string, message: string): (string, string) {
    if dto.None? then (fallback, message) else (dto.value.errorClass, Truncate(dto.value.message, 512))
  }

  // ------------------------------------------------------------------------
  // Status

  datatype Condition = Condition(
    kind: string, status: bool, reason: string, message: string, generation: int, lastTransition: Seconds)

  datatype Summary = Summary(total: nat, confirmed: nat, suspected: nat, insufficient: nat)

  datatype Status = Status(
    generation: int, heartbeat: Option<Seconds>, conditions: seq<Condition>,
    summary: Summary, findings: seq<Finding>, truncated: nat)

  datatype PatchOutcome = PatchOk | PatchLost | PatchLanded  // failed before / after taking effect

  /** One reconcile pass's inputs. */
  datatype Scan = Scan(
    now: Seconds, generation: int, resync: Seconds, overrideReason: string, overrideMessage: string,
    snapshot: Option<Evidence>, findings: seq<Finding>, patch: PatchOutcome)

  function Count(fs: seq<Finding>, c: Confidence): nat {
    if fs == [] then 0 else Count(fs[..|fs| - 1], c) + if fs[|fs| - 1].confidence == c then 1 else 0
  }

  function Summarize(fs: seq<Finding>): Summary {
    Summary(|fs|, Count(fs, Confirmed), Count(fs, Suspected), Count(fs, InsufficientEvidence))
  }

  lemma {:induction false} SummaryAddsUp(fs: seq<Finding>)
    ensures var s := Summarize(fs); s.confirmed + s.suspected + s.insufficient == s.total
  {
    if fs != [] {
      SummaryAddsUp(fs[..|fs| - 1]);
    }
  }

  /** The places in the list that hold a confidence. */
  function Places(fs: seq<Finding>, c: Confidence): set<nat> {
    set i: nat | i < |fs| && fs[i].confidence == c
  }

  lemma {:induction false} CountsPlaces(fs: seq<Finding>, c: Confidence)
    ensures Count(fs, c) == |Places(fs, c)|
  {
    if fs != [] {
      var n := |fs| - 1;
      CountsPlaces(fs[..n], c);
      assert Places(fs, c) == Places(fs[..n], c) + if fs[n].confidence == c then {n} else {};
    }
  }

  method SummarizeFindings(fs: seq<Finding>) returns (s: Summary)
    ensures s == Summarize(fs)
    ensures s.confirmed == |Places(fs, Confirmed)| && s.suspected == |Places(fs, Suspected)|
    ensures s.insufficient == |Places(fs, InsufficientEvidence)|
    ensures s.confirmed + s.suspected + s.insufficient == s.total == |fs|
  {
    s := Summary(|fs|, 0, 0, 0);
    for i := 0 to |fs|
      invariant s == Summary(|fs|, Count(fs[..i], Confirmed), Count(fs[..i], Suspected),
                Count(fs[..i], InsufficientEvidence))
    {
      assert fs[..i + 1][..i] == fs[..i];
      match fs[i].confidence {
        case Confirmed => s := s.(confirmed := s.confirmed + 1);
        case Suspected => s := s.(suspected := s.suspected + 1);
        case InsufficientEvidence => s := s.(insufficient := s.insufficient + 1);
      }
    }
    assert fs[..|fs|] == fs;
    SummaryAddsUp(fs);
    CountsPlaces(fs, Confirmed);
    CountsPlaces(fs, Suspected);
    CountsPlaces(fs, InsufficientEvidence);
  }

  /** The first condition of a kind. */
  function FindCondition(cs: seq<Condition>, kind: string): Option<Condition> {
    if cs == [] then None else if cs[0].kind == kind then Some(cs[0]) else FindCondition(cs[1..], kind)
  }

  function UpdateCondition(existing: seq<Condition>, kind: string, status: bool, reason: string, message: string,
                           generation: int, now: Seconds): Condition {
    var was := FindCondition(existing, kind);
    var at := if was.Some? && was.value.status == status then was.value.lastTransition else now;
    Condition(kind, status, reason, message, generation, at)
  }

  function Interval(scan: Scan): (r: Seconds)
    ensures r > 0
  {
    if scan.resync <= 0 then 600 else scan.resync
  }

  function Failure(scan: Scan): (string, string) {
    if scan.overrideReason != "" then (scan.overrideReason, scan.overrideMessage) else SnapshotFailure(scan.snapshot)
  }

  predicate IsReady(scan: Scan) {
    Failure(scan).0 == ""
  }

  function BuildStatus(current: Status, scan: Scan): Status {
    var ready := IsReady(scan);
    var (reason, message) :=
      if ready then ("InventoryCollected", "Inventory collected and normalized successfully") else Failure(scan);
    var text := Truncate(message, 512);
    var bounded := Bound(scan.findings);
    var summary := Summarize(scan.findings);
    Status(
      scan.generation,
      if ready && (current.heartbeat.None? || scan.now - current.heartbeat.value >= Interval(scan))
      then Some(scan.now) else current.heartbeat,
      [UpdateCondition(current.conditions, "Ready", ready, reason, text, scan.generation, scan.now),
       UpdateCondition(current.conditions, "InventoryReady", ready, reason, text, scan.generation, scan.now)],
      if !ready && summary.insufficient == 0 then summary.(insufficient := 1) else summary,
      bounded.kept, bounded.truncated)
  }

  predicate ConditionLess(a: Condition, b: Condition) {
    StringLess(a.kind, b.kind)
  }

  function Undated(cs: seq<Condition>): (r: seq<Condition>)
    ensures |r| == |cs| && forall i :: 0 <= i < |cs| ==> r[i] == cs[i].(lastTransition := 0)
  {
    seq(|cs|, i requires 0 <= i < |cs| => cs[i].(lastTransition := 0))
  }

  /** Equal apart from heartbeat, transition times and order. */
  predicate SemanticEqual(a: Status, b: Status) {
    && a.generation == b.generation && a.summary == b.summary && a.truncated == b.truncated
    && Sort(ConditionLess, Undated(a.conditions)) == Sort(ConditionLess, Undated(b.conditions))
    && Sort(FindingLess, a.findings) == Sort(FindingLess, b.findings)
  }

  predicate NeedsPatch(current: Status, desired: Status) {
    !SemanticEqual(current, desired) || current.heartbeat != desired.heartbeat
  }

  /** One pass: the status left in the API server and the transitions published. */
  function Reconcile(current: Status, scan: Scan): (Status, seq<Transition>) {
    var desired := BuildStatus(current, scan);
    var ts := if IsReady(scan) then Published(Diff(current.findings, desired.findings)) else [];
    if !NeedsPatch(current, desired) then (current, ts)
    else
      match scan.patch
      case PatchOk => (desired, ts)
      case PatchLost => (current, [])
      case PatchLanded => (desired, [])
  }

  lemma FirstWorstUnique(a: ErrorDto, b: ErrorDto, errors: seq<ErrorDto>)
    requires FirstWorst(a, errors) && FirstWorst(b, errors)
    ensures a == b
  {
    hide ErrorPriority;
    var i :| 0 <= i < |errors| && errors[i] == a
      && (forall j :: 0 <= j < |errors| ==> ErrorPriority(errors[j].errorClass) <= ErrorPriority(a.errorClass))
      && (forall j :: 0 <= j < i ==> ErrorPriority(errors[j].errorClass) < ErrorPriority(a.errorClass));
    var k :| 0 <= k < |errors| && errors[k] == b
      && (forall j :: 0 <= j < |errors| ==> ErrorPriority(errors[j].errorClass) <= ErrorPriority(b.errorClass))
      && (forall j :: 0 <= j < k ==> ErrorPriority(errors[j].errorClass) < ErrorPriority(b.errorClass));
    assert !(i < k) && !(k < i);
  }

  /** Collected evidence that could be searched for errors. */
  predicate Searchable(scan: Scan) {
    && scan.overrideReason == "" && scan.snapshot.Some?
    && scan.snapshot.value.discovery in {Available, NotRequired}
  }

  /**
   * A scan is ready exactly when collection raised nothing, discovery is available or not
   * needed, and no evidence carries a classed error ahead of the others, or the discovery
   * failure itself has no class; an error in the evidence gives the reason by its class.
   */
  lemma ReadyExactly(scan: Scan)
    ensures IsReady(scan) <==>
            || (Searchable(scan) && forall e :: FirstWorst(e, Candidates(scan.snapshot.value)) ==> e.errorClass == "")
            || Unclassed(scan)
    ensures Searchable(scan) ==>
              forall e :: FirstWorst(e, Candidates(scan.snapshot.value)) ==>
                Failure(scan) == (e.errorClass, Truncate(e.message, 512))
  {
    hide FirstWorst, Candidates, Worst, ErrorPriority;
    if Searchable(scan) {
      var errors := Candidates(scan.snapshot.value);
      WorstIsFirstWorst(errors);
      forall e | FirstWorst(e, errors) ensures Worst(errors) == Some(e) {
        NonEmptyWorst(e, errors);
        FirstWorstUnique(e, Worst(errors).value, errors);
      }
    }
  }

  /** Discovery failed with an error that names no class. */
  predicate Unclassed(scan: Scan) {
    && scan.overrideReason == "" && scan.snapshot.Some?
    && scan.snapshot.value.discovery in {Unavailable, Forbidden, UnknownState}
    && scan.snapshot.value.discoveryError.Some? && scan.snapshot.value.discoveryError.value.errorClass == ""
  }

  lemma NonEmptyWorst(e: ErrorDto, errors: seq<ErrorDto>)
    requires FirstWorst(e, errors)
    ensures errors != []
  {
  }

  /**
   * The status accounts for every finding: kept plus truncated is the total, each count is
   * that of its confidence, and a status that is not ready reports missing evidence. Both
   * conditions carry the same verdict with its reason, and the heartbeat moves exactly when
   * a ready scan is due.
   */
  lemma StatusAccounts(current: Status, scan: Scan)
    ensures var s := BuildStatus(current, scan);
            var counted := s.summary.confirmed + s.summary.suspected + s.summary.insufficient;
            var missing := |Places(scan.findings, InsufficientEvidence)|;
            && s.generation == scan.generation
            && s.summary.total == |s.findings| + s.truncated == |scan.findings|
            && s.summary.confirmed == |Places(scan.findings, Confirmed)|
            && s.summary.suspected == |Places(scan.findings, Suspected)|
            && s.summary.insufficient == (if !IsReady(scan) && missing == 0 then 1 else missing)
            && counted == (if !IsReady(scan) && missing == 0 then s.summary.total + 1 else s.summary.total)
            && s.heartbeat == (if IsReady(scan) && Due(current, scan) then Some(scan.now) else current.heartbeat)
            && (forall kind :: kind in {"Ready", "InventoryReady"} ==>
                  var c := FindCondition(s.conditions, kind);
                  c.Some? && Announces(c.value, scan) && |c.value.message| <= 512)
  {
    hide IsReady, Failure, Sort, Count, Places;
    SummaryAddsUp(scan.findings);
    CountsPlaces(scan.findings, Confirmed);
    CountsPlaces(scan.findings, Suspected);
    CountsPlaces(scan.findings, InsufficientEvidence);
    SortPermutes(FindingLess, SanitizeAll(scan.findings));
    var cs := BuildStatus(current, scan).conditions;
    assert cs[1..][0] == cs[1];
  }

  /** No heartbeat yet, or the resync interval, ten minutes unless one is set, has passed since the last. */
  predicate Due(current: Status, scan: Scan) {
    current.heartbeat.None?
    || scan.now >= current.heartbeat.value + if scan.resync <= 0 then 600 else scan.resync
  }

  /** The condition says whether the scan was ready and, if not, why. */
  predicate Announces(c: Condition, scan: Scan) {
    && c.generation == scan.generation
    && c.status == IsReady(scan)
    && (c.status ==> c.reason == "InventoryCollected")
    && (c.status ==> c.message == "Inventory collected and normalized successfully")
    && (!c.status ==> c.reason == Failure(scan).0 && c.message <= Failure(scan).1)
    && (!c.status ==> |c.message| == if |Failure(scan).1| < 512 then |Failure(scan).1| else 512)
  }

  /** What a persisted status must share with the wanted one: everything but the order of the lists. */
  predicate Carries(persisted: Status, wanted: Status) {
    && persisted.generation == wanted.generation && persisted.heartbeat == wanted.heartbeat
    && persisted.summary == wanted.summary && persisted.truncated == wanted.truncated
    && multiset(persisted.findings) == multiset(wanted.findings)
    && FindCondition(persisted.conditions, "Ready") == FindCondition(wanted.conditions, "Ready")
    && FindCondition(persisted.conditions, "InventoryReady") == FindCondition(wanted.conditions, "InventoryReady")
  }

  /** A wanted status that need not be written is already in place, transition times included. */
  lemma UnwrittenIsInPlace(current: Status, scan: Scan)
    requires !NeedsPatch(current, BuildStatus(current, scan))
    ensures Carries(current, BuildStatus(current, scan))
  {
    hide Sort, Bound, Summarize, Failure, IsReady, FindingLess, ConditionLess;
    var wanted := BuildStatus(current, scan);
    SortPermutes(FindingLess, current.findings);
    SortPermutes(FindingLess, wanted.findings);
    SortPermutes(ConditionLess, Undated(current.conditions));
    SortPermutes(ConditionLess, Undated(wanted.conditions));
    assert multiset(Undated(current.conditions)) == multiset(Undated(wanted.conditions));
    ConditionsInPlace(current, scan);
  }

  predicate DistinctKinds(cs: seq<Condition>) {
    forall i, j :: 0 <= i < j < |cs| ==> cs[i].kind != cs[j].kind
  }

  lemma UndatedOrder(cs: seq<Condition>)
    requires DistinctKinds(cs)
    ensures StrictTotal(ConditionLess, Undated(cs)) && Distinct(Undated(cs))
  {
    hide StringLess;
    var u := Undated(cs);
    forall x | x in u ensures !ConditionLess(x, x) {
      StringIrreflexive(x.kind);
    }
    forall x, y | x in u && y in u && x != y ensures ConditionLess(x, y) || ConditionLess(y, x) {
      StringTotal(x.kind, y.kind);
    }
    forall x, y, z | x in u && y in u && z in u && ConditionLess(x, y) && ConditionLess(y, z)
      ensures ConditionLess(x, z)
    {
      StringTransitive(x.kind, y.kind, z.kind);
    }
  }

  lemma SameSort<T(!new)>(less: (T, T) -> bool, a: seq<T>, b: seq<T>)
    requires StrictTotal(less, a) && Distinct(a) && StrictTotal(less, b) && Distinct(b)
    ensures Sort(less, a) == Sort(less, b) <==> multiset(a) == multiset(b)
  {
    SortPermutes(less, a);
    SortPermutes(less, b);
    if multiset(a) == multiset(b) {
      SortSorts(less, a);
      SortSorts(less, b);
      TotalOnPart(less, a, Sort(less, a));
      SortedUnique(less, Sort(less, a), Sort(less, b));
    }
  }

  /**
   * For lists with no ID and no kind twice, a status is written exactly when something
   * besides the order of its lists and the times of its conditions differs.
   */
  lemma WrittenExactly(current: Status, wanted: Status)
    requires DistinctIds(current.findings) && DistinctIds(wanted.findings)
    requires DistinctKinds(current.conditions) && DistinctKinds(wanted.conditions)
    ensures NeedsPatch(current, wanted) <==>
            || current.generation != wanted.generation || current.heartbeat != wanted.heartbeat
            || current.summary != wanted.summary || current.truncated != wanted.truncated
            || multiset(current.findings) != multiset(wanted.findings)
            || multiset(Undated(current.conditions)) != multiset(Undated(wanted.conditions))
  {
    hide FindingLess, ConditionLess, Undated, DistinctIds, DistinctKinds, Distinct, StrictTotal, IdsIdentify;
    UndatedOrder(current.conditions);
    UndatedOrder(wanted.conditions);
    SameSort(ConditionLess, Undated(current.conditions), Undated(wanted.conditions));
    DistinctIdsIdentify(current.findings);
    DistinctIdsIdentify(wanted.findings);
    FindingOrder(current.findings);
    FindingOrder(wanted.findings);
    SameSort(FindingLess, current.findings, wanted.findings);
  }

  /** A list of two kinds of condition, known but for its order and its times. */
  lemma TwoKinds(cs: seq<Condition>, a: Condition, b: Condition)
    requires a.kind != b.kind && multiset(Undated(cs)) == multiset(Undated([a, b]))
    ensures var x, y := FindCondition(cs, a.kind), FindCondition(cs, b.kind);
            && x.Some? && x.value == a.(lastTransition := x.value.lastTransition)
            && y.Some? && y.value == b.(lastTransition := y.value.lastTransition)
  {
    var u, v := Undated(cs), Undated([a, b]);
    assert |multiset(u)| == |u| && |multiset(v)| == 2;
    assert v[0] in multiset(u) && v[1] in multiset(u);
    assert u[0] in multiset(v) && u[1] in multiset(v);
    assert cs[1..][0] == cs[1];
  }

  /** A condition whose status was already recorded keeps its time. */
  lemma ConditionsInPlace(current: Status, scan: Scan)
    requires multiset(Undated(current.conditions)) == multiset(Undated(BuildStatus(current, scan).conditions))
    ensures forall kind :: kind in {"Ready", "InventoryReady"} ==>
              FindCondition(current.conditions, kind) == FindCondition(BuildStatus(current, scan).conditions, kind)
  {
    hide Bound, Summarize, Failure, IsReady, Undated;
    var wanted := BuildStatus(current, scan).conditions;
    assert wanted == [wanted[0], wanted[1]] && wanted[1..][0] == wanted[1];
    TwoKinds(current.conditions, wanted[0], wanted[1]);
  }

  /**
   * After a pass that does not fail, whether it wrote or skipped the write, what is
   * persisted is what the scan wants: its generation, heartbeat, counts, findings and both
   * conditions with their reasons.
   */
  lemma PassLeavesWanted(current: Status, scan: Scan)
    requires scan.patch == PatchOk || !NeedsPatch(current, BuildStatus(current, scan))
    ensures var persisted := Reconcile(current, scan).0;
            && Carries(persisted, BuildStatus(current, scan))
            && persisted.generation == scan.generation
            && persisted.summary.total == |persisted.findings| + persisted.truncated == |scan.findings|
            && persisted.heartbeat
               == (if IsReady(scan) && Due(current, scan) then Some(scan.now) else current.heartbeat)
            && (forall kind :: kind in {"Ready", "InventoryReady"} ==>
                  var c := FindCondition(persisted.conditions, kind);
                  c.Some? && Announces(c.value, scan))
  {
    hide BuildStatus, NeedsPatch, IsReady, Failure, Diff, Published, FindCondition, Announces, Due;
    StatusAccounts(current, scan);
    if !NeedsPatch(current, BuildStatus(current, scan)) {
      UnwrittenIsInPlace(current, scan);
    }
    var persisted, wanted := Reconcile(current, scan).0, BuildStatus(current, scan);
    assert Carries(persisted, wanted);
    assert |multiset(persisted.findings)| == |persisted.findings| && |multiset(wanted.findings)| == |wanted.findings|;
  }

  lemma ReadyCondition(current: Status, scan: Scan)
    ensures var c := FindCondition(BuildStatus(current, scan).conditions, "InventoryReady");
            c.Some? && c.value.status == IsReady(scan)
  {
    var cs := BuildStatus(current, scan).conditions;
    assert cs[1..][0] == cs[1];
  }

  /** The API server's copy of one audit, and the events it has produced. */
  class AuditReconciler {
    var status: Status
    var events: seq<Transition>

    constructor (s: Status)
      ensures status == s && events == []
    {
      status, events := s, [];
    }

    /** Status first: events are published only once the status they describe is in place. */
    method ReconcileOnce(scan: Scan) returns (ok: bool)
      modifies this
      ensures status == Reconcile(old(status), scan).0
      ensures events == old(events) + Reconcile(old(status), scan).1
      ensures ok <==> !(NeedsPatch(old(status), BuildStatus(old(status), scan)) && scan.patch != PatchOk)
      ensures ok ==> Carries(status, BuildStatus(old(status), scan))
      ensures ok ==> forall kind :: kind in {"Ready", "InventoryReady"} ==>
                var c := FindCondition(status.conditions, kind);
                c.Some? && Announces(c.value, scan)
      ensures !ok ==> events == old(events) && status in {old(status), BuildStatus(old(status), scan)}
      ensures events != old(events) ==> status.findings == BuildStatus(old(status), scan).findings
                                        || SemanticEqual(old(status), BuildStatus(old(status), scan))
    {
      hide BuildStatus, SemanticEqual, Diff, IsReady, FindCondition, Announces, Carries;
      ReadyCondition(status, scan);
      ghost var was := status;
      var before := status.findings;
      var desired := BuildStatus(status, scan);
      var ready := FindCondition(desired.conditions, "InventoryReady");
      var transitions := ComputeFindingTransitions(before, desired.findings, ready.Some? && ready.value.status);
      if !SemanticEqual(status, desired) || status.heartbeat != desired.heartbeat {
        if scan.patch != PatchLost {
          status := desired;
        }
        if scan.patch != PatchOk {
          return false;
        }
      }
      ghost var published, settled := events, status;
      for i := 0 to |transitions|
        invariant status == settled
        invariant events == published + Published(transitions[..i])
      {
        assert transitions[..i + 1][..i] == transitions[..i];
        if transitions[i].kind != Unchanged {
          events := events + [transitions[i]];
        }
      }
      assert transitions[..|transitions|] == transitions;
      PassLeavesWanted(was, scan);
      ok := true;
    }
  }
}
