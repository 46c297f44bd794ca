/** The Argo prune-risk detector and the evaluator that merges detectors' findings. */
module PruneRisk {
  import opened Prelude
  import opened Ordering
  import opened FindingIdentity
  import opened Findings
  import opened AuditStatus

  const ARGO := "ArgoPruneRisk"
  const STALE_OWNER := "StaleOwnerReference"
  const PRUNE_RISK := "PruneRisk"
  const EVIDENCE_UNAVAILABLE := "ApplicationEvidenceUnavailable"

  datatype Resource = Resource(identity: Reference, requiresPruning: bool)

  datatype Application = Application(
    namespace: string, name: string, meta: Metadata, conditions: seq<string>,
    autoPruneKnown: bool, autoPruneEnabled: bool, resources: seq<Resource>)

  datatype Protection = Protection(
    target: Reference, readable: bool, pruneFalseKnown: bool, pruneFalse: bool)

  datatype Snapshot = Snapshot(targetNamespace: string, applications: seq<Application>, protections: seq<Protection>)

  /** The hash, and the texts that carry no decision. */
  datatype Rules = Rules(hash: string -> string, summary: (Application, Resource) -> string, remediation: string)

  datatype Verdict =
    | NoFinding
    | Report(findingClass: string, confidence: Confidence, severity: Severity, missing: seq<string>)

  predicate InScope(s: Snapshot, id: Reference) {
    && id.version != "" && id.kind != "" && id.namespace != "" && id.name != ""
    && (s.targetNamespace == "" || id.namespace == s.targetNamespace)
  }

  predicate Broken(app: Application) {
    app.meta.sourceError.Some? || app.meta.freshness == Stale
  }

  predicate Blocked(app: Application) {
    exists i :: 0 <= i < |app.conditions|
      && app.conditions[i] in {"ComparisonError", "InvalidSpecError", "UnknownError"}
  }

  predicate Trustworthy(app: Application) {
    app.meta.sourceError.None? && app.meta.freshness == Fresh && !Blocked(app)
  }

  function KindSeverity(kind: string): Severity {
    if kind in {"Deployment", "Secret", "PersistentVolumeClaim"} then High else Warning
  }

  /** The last protection recorded under a key. */
  function LastUnder(ps: seq<Protection>, key: string): Option<Protection> {
    if ps == [] then None
    else if TargetKey(ps[|ps| - 1].target) == key then Some(ps[|ps| - 1])
    else LastUnder(ps[..|ps| - 1], key)
  }

  function Judge(s: Snapshot, app: Application, res: Resource): Verdict {
    var kind := res.identity.kind;
    if !InScope(s, res.identity) then NoFinding
    else if Broken(app) then Report(EVIDENCE_UNAVAILABLE, InsufficientEvidence, Info, ["FreshApplicationEvidence"])
    else if !res.requiresPruning then NoFinding
    else if app.meta.freshness != Fresh || Blocked(app) then
      Report(EVIDENCE_UNAVAILABLE, InsufficientEvidence, Info, ["TrustworthyApplicationStatus"])
    else if kind == "Secret" then Report(PRUNE_RISK, Suspected, High, ["SecretProtectionUnreadable"])
    else
      var prot := LastUnder(s.protections, TargetKey(res.identity));
      if prot.Some? && prot.value.readable && prot.value.pruneFalse then NoFinding
      else if prot.None? || !prot.value.readable || !prot.value.pruneFalseKnown then
        Report(PRUNE_RISK, Suspected, KindSeverity(kind), ["TargetProtectionReadable"])
      else if app.autoPruneKnown && app.autoPruneEnabled then Report(PRUNE_RISK, Confirmed, KindSeverity(kind), [])
      else Report(PRUNE_RISK, Suspected, KindSeverity(kind), ["AutoPruneStatusUnconfirmed"])
  }

  function IdentityOf(app: Application, id: Reference, findingClass: string): Identity {
    Identity(DEFAULT_RULE_VERSION, ARGO, id, findingClass, app.namespace + "/" + app.name)
  }

  function FindingFor(rules: Rules, app: Application, res: Resource, v: Verdict): Finding
    requires v.Report?
  {
    Finding(BuildFindingID(rules.hash, IdentityOf(app, res.identity, v.findingClass)), ARGO, res.identity,
            v.confidence, v.severity, rules.summary(app, res), v.missing, rules.remediation)
  }

  function FromResources(rules: Rules, s: Snapshot, app: Application, rs: seq<Resource>): seq<Finding> {
    if rs == [] then []
    else
      var fs, r := FromResources(rules, s, app, rs[..|rs| - 1]), rs[|rs| - 1];
      match Judge(s, app, r)
      case NoFinding => fs
      case Report(_, _, _, _) => fs + [FindingFor(rules, app, r, Judge(s, app, r))]
  }

  function FromApplications(rules: Rules, s: Snapshot, apps: seq<Application>): seq<Finding> {
    if apps == [] then []
    else FromApplications(rules, s, apps[..|apps| - 1])
         + FromResources(rules, s, apps[|apps| - 1], apps[|apps| - 1].resources)
  }

  // ------------------------------------------------------------------------
  // Sorting by ID, with repeats

  predicate IdLess(a: Finding, b: Finding) {
    StringLess(a.id, b.id)
  }

  predicate SortedById(fs: seq<Finding>) {
    forall i, j :: 0 <= i < j < |fs| ==> !StringLess(fs[j].id, fs[i].id)
  }

  lemma IdsWeaklyOrdered()
    ensures WeakOrder(IdLess)
  {
    hide StringLess;
    forall x, y | IdLess(x, y) ensures !IdLess(y, x) {
      StringAsymmetric(x.id, y.id);
    }
    forall x, y, z | !IdLess(y, x) && !IdLess(z, y) ensures !IdLess(z, x) {
      StringNotLessChain(x.id, y.id, z.id);
    }
  }

  lemma SortById(fs: seq<Finding>)
    ensures SortedById(Sort(IdLess, fs)) && multiset(Sort(IdLess, fs)) == multiset(fs)
  {
    IdsWeaklyOrdered();
    SortPermutes(IdLess, fs);
    SortWeakly(IdLess, fs);
    assert NoneBefore(IdLess, Sort(IdLess, fs));
  }

  // ------------------------------------------------------------------------
  // The loops

  /** Reports every judged resource, sorted by ID; findings that share an ID may come in any order. */
  method EvaluateArgoPruneRisk(rules: Rules, s: Snapshot) returns (findings: seq<Finding>)
    ensures multiset(findings) == multiset(FromApplications(rules, s, s.applications))
    ensures SortedById(findings)
  {
    hide Judge, FindingFor, LastUnder, SortedById, Sort;
    var protections := IndexProtections(s.protections);
    findings := [];
    for a := 0 to |s.applications|
      invariant findings == FromApplications(rules, s, s.applications[..a])
    {
      var app := s.applications[a];
      assert s.applications[..a + 1][..a] == s.applications[..a];
      ghost var before := findings;
      for r := 0 to |app.resources|
        invariant findings == before + FromResources(rules, s, app, app.resources[..r])
      {
        var res := app.resources[r];
        assert app.resources[..r + 1][..r] == app.resources[..r];
        var v := JudgeResource(s, app, res, protections);
        if v.Report? {
          findings := findings + [FindingFor(rules, app, res, v)];
        }
      }
      assert app.resources[..|app.resources|] == app.resources;
    }
    assert s.applications[..|s.applications|] == s.applications;
    SortById(findings);
    findings := Sort(IdLess, findings);
  }

  method IndexProtections(ps: seq<Protection>) returns (m: map<string, Protection>)
    ensures forall key :: LastUnder(ps, key) == if key in m then Some(m[key]) else None
  {
    m := map[];
    for i := 0 to |ps|
      invariant forall key :: LastUnder(ps[..i], key) == if key in m then Some(m[key]) else None
    {
      assert ps[..i + 1][..i] == ps[..i];
      m := m[TargetKey(ps[i].target) := ps[i]];
    }
    assert ps[..|ps|] == ps;
  }

  /** The branches for one resource, reading the protection index. */
  method JudgeResource(s: Snapshot, app: Application, res: Resource, protections: map<string, Protection>)
    returns (v: Verdict)
    requires forall key :: LastUnder(s.protections, key) == if key in protections then Some(protections[key]) else None
    ensures v == Judge(s, app, res)
  {
    if Broken(app) {
      if !InScope(s, res.identity) {
        return NoFinding;
      }
      return Report(EVIDENCE_UNAVAILABLE, InsufficientEvidence, Info, ["FreshApplicationEvidence"]);
    }
    if !res.requiresPruning || !InScope(s, res.identity) {
      return NoFinding;
    }
    if app.meta.freshness != Fresh || Blocked(app) {
      return Report(EVIDENCE_UNAVAILABLE, InsufficientEvidence, Info, ["TrustworthyApplicationStatus"]);
    }
    if res.identity.kind == "Secret" {
      return Report(PRUNE_RISK, Suspected, High, ["SecretProtectionUnreadable"]);
    }
    var key := TargetKey(res.identity);
    var known := key in protections;
    if known && protections[key].readable && protections[key].pruneFalse {
      return NoFinding;
    }
    if !known || !protections[key].readable || !protections[key].pruneFalseKnown {
      return Report(PRUNE_RISK, Suspected, KindSeverity(res.identity.kind), ["TargetProtectionReadable"]);
    }
    if app.autoPruneKnown && app.autoPruneEnabled {
      return Report(PRUNE_RISK, Confirmed, KindSeverity(res.identity.kind), []);
    }
    v := Report(PRUNE_RISK, Suspected, KindSeverity(res.identity.kind), ["AutoPruneStatusUnconfirmed"]);
  }

  /** One finding of `all` per ID, IDs strictly increasing. */
  ghost predicate Represents(out: seq<Finding>, all: seq<Finding>) {
    && (forall i, j :: 0 <= i < j < |out| ==> StringLess(out[i].id, out[j].id))
    && (forall f :: f in out ==> f in all)
    && (forall f :: f in all ==> exists g :: g in out && g.id == f.id)
  }

  /** Runs the enabled detectors, keeps one finding per ID and sorts by ID. */
  method Evaluate(rules: Rules, snapshot: Option<Snapshot>, enabled: seq<string>, stale: seq<Finding>)
    returns (out: seq<Finding>)
    ensures snapshot.None? || enabled == [] ==> out == []
    ensures snapshot.Some? ==>
              Represents(out, (if "ArgoPruneRisk" in enabled
                               then FromApplications(rules, snapshot.value, snapshot.value.applications) else [])
                              + (if "StaleOwnerReference" in enabled then stale else []))
  {
    if snapshot.None? || enabled == [] {
      return [];
    }
    hide FromApplications, Sort, StringLess, DistinctIds, SortedById;
    var all: seq<Finding> := [];
    if ARGO in enabled {
      all := EvaluateArgoPruneRisk(rules, snapshot.value);
    }
    if STALE_OWNER in enabled {
      all := all + stale;
    }
    ghost var s := snapshot.value;
    ghost var argo := if ARGO in enabled then FromApplications(rules, s, s.applications) else [];
    SameMembers(all, argo + if STALE_OWNER in enabled then stale else []);
    out := Deduplicate(all);
    ghost var kept := out;
    SortById(out);
    out := Sort(IdLess, out);
    SortPermutes(IdLess, kept);
    StrictlyIncreasing(kept, out);
    SameMembers(kept, out);
  }

  lemma SameMembers(a: seq<Finding>, b: seq<Finding>)
    requires multiset(a) == multiset(b)
    ensures forall f :: f in a <==> f in b
  {
    forall f ensures f in a <==> f in b {
      assert f in a <==> f in multiset(a);
      assert f in b <==> f in multiset(b);
    }
  }

  /** f is the first of its ID among the first n findings. */
  ghost predicate FirstOfId(all: seq<Finding>, n: nat, f: Finding)
    requires n <= |all|
  {
    exists k :: 0 <= k < n && all[k] == f && forall j :: 0 <= j < k ==> all[j].id != f.id
  }

  lemma FirstIsNew(all: seq<Finding>, n: nat)
    requires n < |all| && forall j :: 0 <= j < n ==> all[j].id != all[n].id
    ensures FirstOfId(all, n + 1, all[n])
  {
  }

  predicate Kept(fs: seq<Finding>, id: string) {
    exists i :: 0 <= i < |fs| && fs[i].id == id
  }

  lemma KeptGrows(fs: seq<Finding>, f: Finding)
    ensures forall id :: Kept(fs, id) || id == f.id ==> Kept(fs + [f], id)
  {
    assert (fs + [f])[|fs|] == f && forall i :: 0 <= i < |fs| ==> (fs + [f])[i] == fs[i];
  }

  /** Keeps the first finding under each ID. */
  method Deduplicate(all: seq<Finding>) returns (deduped: seq<Finding>)
    ensures DistinctIds(deduped)
    ensures forall f :: f in deduped ==> f in all && FirstOfId(all, |all|, f)
    ensures forall f :: f in all ==> exists g :: g in deduped && g.id == f.id
  {
    hide FirstOfId, Kept;
    var seen: set<string> := {};
    deduped := [];
    for i := 0 to |all|
      invariant DistinctIds(deduped)
      invariant forall f :: f in deduped ==> f in all && f.id in seen && FirstOfId(all, i, f)
      invariant forall id :: id in seen ==> Kept(deduped, id)
      invariant forall j :: 0 <= j < i ==> all[j].id in seen
    {
      StillFirst(all, i);
      if all[i].id !in seen {
        FirstIsNew(all, i);
        KeptGrows(deduped, all[i]);
        seen := seen + {all[i].id};
        deduped := deduped + [all[i]];
      }
    }
    forall f | f in all ensures exists g :: g in deduped && g.id == f.id {
      KeptIsIn(deduped, f.id);
    }
  }

  lemma StillFirst(all: seq<Finding>, n: nat)
    requires n < |all|
    ensures forall f :: FirstOfId(all, n, f) ==> FirstOfId(all, n + 1, f)
  {
  }

  lemma KeptIsIn(fs: seq<Finding>, id: string)
    requires Kept(fs, id)
    ensures exists g :: g in fs && g.id == id
  {
    var i :| 0 <= i < |fs| && fs[i].id == id;
    assert fs[i] in fs;
  }

  lemma StrictlyIncreasing(kept: seq<Finding>, out: seq<Finding>)
    requires DistinctIds(kept) && SortedById(out) && multiset(out) == multiset(kept)
    ensures forall i, j :: 0 <= i < j < |out| ==> StringLess(out[i].id, out[j].id)
  {
    PermutedDistinct(kept, out);
    forall i, j | 0 <= i < j < |out| ensures StringLess(out[i].id, out[j].id) {
      StringTotal(out[i].id, out[j].id);
    }
  }
}
