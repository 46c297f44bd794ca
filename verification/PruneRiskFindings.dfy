/** What the evaluator's output says about each Argo resource. */
module PruneRiskFindings {
  import opened Ordering
  import opened FindingIdentity
  import opened Findings
  import AuditRuns
  import opened PruneRisk

  predicate SlashFree(s: string) {
    '/' !in s
  }

  predicate PlainReference(t: Reference) {
    SlashFree(t.apiGroup) && SlashFree(t.version) && SlashFree(t.kind) && SlashFree(t.namespace) && SlashFree(t.name)
  }

  predicate SameResource(a: Reference, b: Reference) {
    a.(uid := "") == b.(uid := "")
  }

  /** Kubernetes names hold no slash, and an audit lists each application once. */
  ghost predicate WellNamed(s: Snapshot) {
    && (forall i :: 0 <= i < |s.applications| ==> SlashFree(s.applications[i].namespace))
    && (forall i, j :: 0 <= i < j < |s.applications| ==>
          s.applications[i].namespace != s.applications[j].namespace
          || s.applications[i].name != s.applications[j].name)
    && (forall i, j :: 0 <= i < |s.applications| && 0 <= j < |s.applications[i].resources| ==>
          PlainReference(s.applications[i].resources[j].identity))
    && (forall i :: 0 <= i < |s.protections| ==> PlainReference(s.protections[i].target))
  }

  lemma FirstSlash(a: string, b: string, c: string, d: string)
    requires SlashFree(a) && SlashFree(c) && a + "/" + b == c + "/" + d
    ensures a == c && b == d
  {
    var x, y := a + "/" + b, c + "/" + d;
    assert x[|a|] == '/' && y[|c|] == '/';
    assert forall k :: 0 <= k < |c| ==> y[k] == c[k];
    assert forall k :: 0 <= k < |a| ==> x[k] == a[k];
    assert x[..|a|] == a && y[..|c|] == c && x[|a| + 1..] == b && y[|c| + 1..] == d;
  }

  /** Joined keys tell resources apart. */
  lemma KeyIdentifies(a: Reference, b: Reference)
    requires PlainReference(a) && PlainReference(b)
    ensures TargetKey(a) == TargetKey(b) <==> SameResource(a, b)
  {
    if TargetKey(a) == TargetKey(b) {
      var a4, b4 := a.namespace + "/" + a.name, b.namespace + "/" + b.name;
      var a3, b3 := a.kind + "/" + a4, b.kind + "/" + b4;
      var a2, b2 := a.version + "/" + a3, b.version + "/" + b3;
      assert TargetKey(a) == a.apiGroup + "/" + a2 && TargetKey(b) == b.apiGroup + "/" + b2;
      FirstSlash(a.apiGroup, a2, b.apiGroup, b2);
      FirstSlash(a.version, a3, b.version, b3);
      FirstSlash(a.kind, a4, b.kind, b4);
      FirstSlash(a.namespace, a.name, b.namespace, b.name);
    }
  }

  /** The protection recorded last for the resource, if any. */
  ghost predicate ProtectedBy(s: Snapshot, id: Reference, p: Protection) {
    exists i :: 0 <= i < |s.protections| && s.protections[i] == p && SameResource(p.target, id)
      && forall j :: i < j < |s.protections| ==> !SameResource(s.protections[j].target, id)
  }

  lemma {:induction false} LastUnderMeans(ps: seq<Protection>, id: Reference)
    requires PlainReference(id) && forall i :: 0 <= i < |ps| ==> PlainReference(ps[i].target)
    ensures LastUnder(ps, TargetKey(id)).None? ==> forall i :: 0 <= i < |ps| ==> !SameResource(ps[i].target, id)
    ensures LastUnder(ps, TargetKey(id)).Some? ==>
              exists i :: 0 <= i < |ps| && ps[i] == LastUnder(ps, TargetKey(id)).value && SameResource(ps[i].target, id)
                && forall j :: i < j < |ps| ==> !SameResource(ps[j].target, id)
  {
    hide TargetKey, PlainReference, SameResource;
    if ps != [] {
      var n := |ps| - 1;
      KeyIdentifies(ps[n].target, id);
      if TargetKey(ps[n].target) == TargetKey(id) {
        assert ps[n] == LastUnder(ps, TargetKey(id)).value;
      } else {
        LastUnderMeans(ps[..n], id);
        assert forall i :: 0 <= i < n ==> ps[..n][i] == ps[i];
        if LastUnder(ps, TargetKey(id)).Some? {
          var i :| 0 <= i < n && ps[..n][i] == LastUnder(ps, TargetKey(id)).value && SameResource(ps[..n][i].target, id)
                && forall j :: i < j < n ==> !SameResource(ps[..n][j].target, id);
          assert ps[i] == LastUnder(ps, TargetKey(id)).value;
        }
      }
    }
  }

  /**
   * A prune candidate in scope escapes a finding exactly when its application is
   * trustworthy, it is no Secret, and its last recorded protection is readable and says
   * Prune=false; it is confirmed exactly when nothing is missing and auto-prune is on.
   */
  lemma VerdictMeans(s: Snapshot, app: Application, res: Resource)
    requires PlainReference(res.identity)
    requires forall i :: 0 <= i < |s.protections| ==> PlainReference(s.protections[i].target)
    requires InScope(s, res.identity) && res.requiresPruning
    ensures Judge(s, app, res).NoFinding? <==>
            Trustworthy(app) && res.identity.kind != "Secret"
            && exists p :: ProtectedBy(s, res.identity, p) && p.readable && p.pruneFalse
    ensures (Judge(s, app, res).Report? && Judge(s, app, res).confidence == Confirmed) <==>
            Trustworthy(app) && res.identity.kind != "Secret" && app.autoPruneKnown && app.autoPruneEnabled
            && exists p :: ProtectedBy(s, res.identity, p) && p.readable && p.pruneFalseKnown && !p.pruneFalse
    ensures (Judge(s, app, res).Report? && Judge(s, app, res).findingClass == EVIDENCE_UNAVAILABLE) <==>
              !Trustworthy(app)
  {
    hide TargetKey, PlainReference, LastUnder;
    LastUnderMeans(s.protections, res.identity);
    var last := LastUnder(s.protections, TargetKey(res.identity));
    if last.Some? {
      assert ProtectedBy(s, res.identity, last.value);
    }
  }

  /** The application was read without an error, recently, and reports no condition that blocks a conclusion. */
  predicate Believable(app: Application) {
    && app.meta.sourceError.None? && app.meta.freshness.Fresh?
    && "ComparisonError" !in app.conditions && "InvalidSpecError" !in app.conditions
    && "UnknownError" !in app.conditions
  }

  /** A full reference in the audited namespace, or in any when the audit names none. */
  predicate Audited(s: Snapshot, id: Reference) {
    && "" !in {id.version, id.kind, id.namespace, id.name}
    && s.targetNamespace in {"", id.namespace}
  }

  ghost predicate LastProtection(s: Snapshot, id: Reference, known: bool, prune: bool) {
    exists p :: ProtectedBy(s, id, p) && p.readable && p.pruneFalse != prune && (known ==> p.pruneFalseKnown)
  }

  /**
   * For every resource, in scope or not, due for pruning or not: when it is reported and
   * what the report says.
   */
  lemma VerdictSays(s: Snapshot, app: Application, res: Resource)
    requires PlainReference(res.identity)
    requires forall i :: 0 <= i < |s.protections| ==> PlainReference(s.protections[i].target)
    ensures var v, kind := Judge(s, app, res), res.identity.kind;
            var unread := app.meta.sourceError.Some? || app.meta.freshness.Stale?;
            var kept := LastProtection(s, res.identity, false, false);
            var exposed := LastProtection(s, res.identity, true, true);
            && (v.Report? <==>
                  && Audited(s, res.identity)
                  && (unread || (res.requiresPruning && !(Believable(app) && kind != "Secret" && kept))))
            && (v.Report? && !Believable(app) ==>
                  v == Report("ApplicationEvidenceUnavailable", InsufficientEvidence, Info,
                              [if unread then "FreshApplicationEvidence" else "TrustworthyApplicationStatus"]))
            && (v.Report? && Believable(app) ==>
                  && v.findingClass == "PruneRisk"
                  && v.severity == (if kind in {"Deployment", "Secret", "PersistentVolumeClaim"} then High else Warning)
                  && (v.confidence == Confirmed <==>
                        kind != "Secret" && exposed && app.autoPruneKnown && app.autoPruneEnabled)
                  && (v.confidence != Confirmed ==> v.confidence == Suspected)
                  && v.missing == (if v.confidence == Confirmed then []
                                   else if kind == "Secret" then ["SecretProtectionUnreadable"]
                                   else if exposed then ["AutoPruneStatusUnconfirmed"]
                                   else ["TargetProtectionReadable"]))
  {
    hide TargetKey, PlainReference, LastUnder;
    LastUnderMeans(s.protections, res.identity);
    var last := LastUnder(s.protections, TargetKey(res.identity));
    if last.Some? {
      assert ProtectedBy(s, res.identity, last.value);
    }
    BelievedExactly(app);
  }

  lemma BelievedExactly(app: Application)
    ensures Believable(app) <==> Trustworthy(app)
  {
    if !Blocked(app) {
      forall c | c in {"ComparisonError", "InvalidSpecError", "UnknownError"} ensures c !in app.conditions {
      }
    }
  }

  // ------------------------------------------------------------------------
  // From verdicts to findings

  function IdOf(rules: Rules, app: Application, id: Reference, findingClass: string): string {
    BuildFindingID(rules.hash, IdentityOf(app, id, findingClass))
  }

  /** f is a finding about this resource of this application. */
  predicate About(rules: Rules, f: Finding, app: Application, id: Reference) {
    f.id == IdOf(rules, app, id, PRUNE_RISK) || f.id == IdOf(rules, app, id, EVIDENCE_UNAVAILABLE)
  }

  /** Every identity the snapshot's resources could be reported under. */
  function ArgoIdentities(s: Snapshot): set<Identity> {
    set i, j, c | 0 <= i < |s.applications| && 0 <= j < |s.applications[i].resources|
      && c in {PRUNE_RISK, EVIDENCE_UNAVAILABLE}
      :: IdentityOf(s.applications[i], s.applications[i].resources[j].identity, c)
  }

  /** The other detector's findings carry IDs of its own identities. */
  ghost predicate FromStaleDetector(rules: Rules, stale: seq<Finding>, ids: set<Identity>) {
    && (forall x :: x in ids ==> x.detector == STALE_OWNER)
    && (forall f :: f in stale ==> exists x :: x in ids && f.id == BuildFindingID(rules.hash, x))
  }

  ghost predicate Produced(rules: Rules, s: Snapshot, apps: seq<Application>, f: Finding, i: nat, j: nat) {
    && i < |apps| && j < |apps[i].resources|
    && Judge(s, apps[i], apps[i].resources[j]).Report?
    && f == FindingFor(rules, apps[i], apps[i].resources[j], Judge(s, apps[i], apps[i].resources[j]))
  }

  lemma {:induction false} ResourcesProduce(rules: Rules, s: Snapshot, app: Application, rs: seq<Resource>, f: Finding)
    ensures f in FromResources(rules, s, app, rs) <==>
            exists j :: 0 <= j < |rs| && Judge(s, app, rs[j]).Report?
              && f == FindingFor(rules, app, rs[j], Judge(s, app, rs[j]))
  {
    hide Judge, FindingFor;
    if rs != [] {
      var n := |rs| - 1;
      ResourcesProduce(rules, s, app, rs[..n], f);
      assert forall j :: 0 <= j < n ==> rs[..n][j] == rs[j];
    }
  }

  lemma {:induction false} ApplicationsProduce(rules: Rules, s: Snapshot, apps: seq<Application>, f: Finding)
    ensures f in FromApplications(rules, s, apps) <==> exists i: nat, j: nat :: Produced(rules, s, apps, f, i, j)
  {
    hide Judge, FindingFor, FromResources;
    if apps != [] {
      var n := |apps| - 1;
      ApplicationsProduce(rules, s, apps[..n], f);
      ResourcesProduce(rules, s, apps[n], apps[n].resources, f);
      forall i: nat, j: nat | i < n
        ensures Produced(rules, s, apps[..n], f, i, j) == Produced(rules, s, apps, f, i, j) {
      }
      if f in FromResources(rules, s, apps[n], apps[n].resources) {
        var j :| 0 <= j < |apps[n].resources| && Judge(s, apps[n], apps[n].resources[j]).Report?
          && f == FindingFor(rules, apps[n], apps[n].resources[j], Judge(s, apps[n], apps[n].resources[j]));
        assert Produced(rules, s, apps, f, n, j);
      }
    }
  }

  /** Two reports with one ID are about the same resource of the same application, with the same verdict class. */
  lemma SameIdSameResource(rules: Rules, s: Snapshot, i: nat, j: nat, c: string, k: nat, l: nat, d: string)
    requires WellNamed(s) && CollisionFree(rules.hash, ArgoIdentities(s))
    requires i < |s.applications| && j < |s.applications[i].resources| && c in {PRUNE_RISK, EVIDENCE_UNAVAILABLE}
    requires k < |s.applications| && l < |s.applications[k].resources| && d in {PRUNE_RISK, EVIDENCE_UNAVAILABLE}
    requires IdOf(rules, s.applications[i], s.applications[i].resources[j].identity, c)
          == IdOf(rules, s.applications[k], s.applications[k].resources[l].identity, d)
    ensures i == k && c == d
    ensures SameResource(s.applications[i].resources[j].identity, s.applications[k].resources[l].identity)
  {
    var a, b := s.applications[i], s.applications[k];
    var x, y := IdentityOf(a, a.resources[j].identity, c), IdentityOf(b, b.resources[l].identity, d);
    assert x in ArgoIdentities(s) && y in ArgoIdentities(s);
    IdIdentifies(rules.hash, x, y);
    FirstSlash(a.namespace, a.name, b.namespace, b.name);
  }

  /**
   * After detection and deduplication, each prune candidate in scope of each application,
   * and each resource in scope of an application that could not be read, has exactly one
   * finding when it is judged a risk or unknown, carrying that verdict, and none when it is
   * judged protected; whatever the other detector adds.
   */
  lemma OneFindingEach(rules: Rules, s: Snapshot, stale: seq<Finding>, staleIds: set<Identity>, out: seq<Finding>,
      i: nat, j: nat)
    requires WellNamed(s) && CollisionFree(rules.hash, ArgoIdentities(s) + staleIds)
             && FromStaleDetector(rules, stale, staleIds)
    requires Represents(out, FromApplications(rules, s, s.applications) + stale)
    requires i < |s.applications| && j < |s.applications[i].resources|
    requires InScope(s, s.applications[i].resources[j].identity)
    requires s.applications[i].resources[j].requiresPruning || Broken(s.applications[i])
    ensures var app, res := s.applications[i], s.applications[i].resources[j];
            var v := Judge(s, app, res);
            && (v.NoFinding? ==> forall f :: f in out ==> !About(rules, f, app, res.identity))
            && (v.Report? ==>
                  exists k :: 0 <= k < |out| && About(rules, out[k], app, res.identity)
                    && (forall l :: 0 <= l < |out| && About(rules, out[l], app, res.identity) ==> l == k)
                    && out[k].id == IdOf(rules, app, res.identity, v.findingClass)
                    && out[k].confidence == v.confidence && out[k].severity == v.severity && out[k].missing == v.missing
                    && out[k].detector == ARGO && SameResource(out[k].target, res.identity)
                    && out[k].remediation == rules.remediation)
  {
    hide Represents, CollisionFree, Judge;
    var app, res := s.applications[i], s.applications[i].resources[j];
    var v := Judge(s, app, res);
    forall f | f in out && About(rules, f, app, res.identity)
      ensures v.Report? && f.id == IdOf(rules, app, res.identity, v.findingClass) && f.confidence == v.confidence
           && f.severity == v.severity && f.missing == v.missing && f.detector == ARGO
           && SameResource(f.target, res.identity) && f.remediation == rules.remediation
    {
      AboutMeansVerdict(rules, s, stale, staleIds, out, i, j, f);
    }
    if v.Report? {
      var own := FindingFor(rules, app, res, v);
      assert Produced(rules, s, s.applications, own, i, j);
      ApplicationsProduce(rules, s, s.applications, own);
      var k := Representative(out, FromApplications(rules, s, s.applications) + stale, own);
      VerdictClass(s, app, res);
      assert About(rules, out[k], app, res.identity);
      forall l | 0 <= l < |out| && About(rules, out[l], app, res.identity) ensures l == k {
        assert out[l] in out && out[k] in out;
        IdsUnique(out, FromApplications(rules, s, s.applications) + stale, l, k);
      }
    }
  }

  lemma VerdictClass(s: Snapshot, app: Application, res: Resource)
    ensures Judge(s, app, res).Report? ==> Judge(s, app, res).findingClass in {PRUNE_RISK, EVIDENCE_UNAVAILABLE}
  {
  }

  lemma Representative(out: seq<Finding>, all: seq<Finding>, own: Finding) returns (k: nat)
    requires Represents(out, all) && own in all
    ensures k < |out| && out[k].id == own.id
  {
    hide Represents;
    KeepsIds(out, all, own);
    var g :| g in out && g.id == own.id;
    k :| 0 <= k < |out| && out[k] == g;
  }

  lemma KeepsIds(out: seq<Finding>, all: seq<Finding>, own: Finding)
    requires Represents(out, all) && own in all
    ensures exists g :: g in out && g.id == own.id
  {
    hide StringLess;
  }

  lemma IdsUnique(out: seq<Finding>, all: seq<Finding>, l: nat, k: nat)
    requires Represents(out, all) && l < |out| && k < |out| && out[l].id == out[k].id
    ensures l == k
  {
    StringIrreflexive(out[l].id);
  }

  lemma CollisionFreePart(hash: string -> string, all: set<Identity>, part: set<Identity>)
    requires CollisionFree(hash, all) && part <= all
    ensures CollisionFree(hash, part)
  {
  }

  lemma AboutMeansVerdict(rules: Rules, s: Snapshot, stale: seq<Finding>, staleIds: set<Identity>, out: seq<Finding>,
                          i: nat, j: nat, f: Finding)
    requires WellNamed(s) && CollisionFree(rules.hash, ArgoIdentities(s) + staleIds)
             && FromStaleDetector(rules, stale, staleIds)
    requires Represents(out, FromApplications(rules, s, s.applications) + stale)
    requires i < |s.applications| && j < |s.applications[i].resources|
    requires InScope(s, s.applications[i].resources[j].identity)
    requires s.applications[i].resources[j].requiresPruning || Broken(s.applications[i])
    requires f in out && About(rules, f, s.applications[i], s.applications[i].resources[j].identity)
    ensures var app, res := s.applications[i], s.applications[i].resources[j];
            var v := Judge(s, app, res);
            v.Report? && f.id == IdOf(rules, app, res.identity, v.findingClass) && f.confidence == v.confidence
            && f.severity == v.severity && f.missing == v.missing && f.detector == ARGO
            && SameResource(f.target, res.identity) && f.remediation == rules.remediation
  {
    hide CollisionFree, Judge, WellNamed, FromApplications;
    var app, res := s.applications[i], s.applications[i].resources[j];
    var c := if f.id == IdOf(rules, app, res.identity, PRUNE_RISK) then PRUNE_RISK else EVIDENCE_UNAVAILABLE;
    CollisionFreePart(rules.hash, ArgoIdentities(s) + staleIds, ArgoIdentities(s));
    NotStale(rules, s, stale, staleIds, i, j, c, f);
    ApplicationsProduce(rules, s, s.applications, f);
    var k: nat, l: nat :| Produced(rules, s, s.applications, f, k, l);
    var other := s.applications[k].resources[l];
    VerdictClass(s, s.applications[k], other);
    SameIdSameResource(rules, s, i, j, c, k, l, Judge(s, s.applications[k], other).findingClass);
    SameVerdict(s, app, res, other);
  }

  /** Two entries for one resource of an application agree whenever both are reported. */
  lemma SameVerdict(s: Snapshot, app: Application, res: Resource, other: Resource)
    requires SameResource(res.identity, other.identity) && InScope(s, res.identity)
    requires (res.requiresPruning || Broken(app)) && Judge(s, app, other).Report?
    ensures Judge(s, app, res) == Judge(s, app, other)
  {
    assert TargetKey(res.identity) == TargetKey(other.identity);
  }

  lemma NotStale(rules: Rules, s: Snapshot, stale: seq<Finding>, staleIds: set<Identity>, i: nat, j: nat, c: string,
      f: Finding)
    requires CollisionFree(rules.hash, ArgoIdentities(s) + staleIds) && FromStaleDetector(rules, stale, staleIds)
    requires i < |s.applications| && j < |s.applications[i].resources| && c in {PRUNE_RISK, EVIDENCE_UNAVAILABLE}
    requires f.id == IdOf(rules, s.applications[i], s.applications[i].resources[j].identity, c)
    ensures f !in stale
  {
    if f in stale {
      var x :| x in staleIds && f.id == BuildFindingID(rules.hash, x);
      var own := IdentityOf(s.applications[i], s.applications[i].resources[j].identity, c);
      assert own in ArgoIdentities(s);
      CollisionFreePart(rules.hash, ArgoIdentities(s) + staleIds, {own, x});
      IdIdentifies(rules.hash, own, x);
      assert false;
    }
  }

  lemma RepresentsOnce(out: seq<Finding>, all: seq<Finding>)
    requires Represents(out, all)
    ensures DistinctIds(out) && forall f :: f in out ==> f in all
  {
    hide StringLess, Represents;
    forall i, j | 0 <= i < j < |out| ensures out[i].id != out[j].id {
      if out[i].id == out[j].id {
        IdsUnique(out, all, i, j);
      }
    }
    RepresentsOnly(out, all);
  }

  lemma RepresentsOnly(out: seq<Finding>, all: seq<Finding>)
    requires Represents(out, all)
    ensures forall f :: f in out ==> f in all
  {
    hide StringLess;
  }

  lemma ShortIdsStayDistinct(fs: seq<Finding>)
    requires DistinctIds(fs) && forall i :: 0 <= i < |fs| ==> |fs[i].id| <= 128
    ensures DistinctIds(SanitizeAll(fs))
  {
    hide BoundMissing;
  }

  /** What the evaluator reports meets what the status and its events rely on: no ID twice, even when bounded. */
  lemma EvaluatedIsIdentified(scan: AuditStatus.Scan, all: seq<Finding>)
    requires Represents(scan.findings, all) && forall f :: f in all ==> |f.id| <= 128
    ensures AuditRuns.Identified(scan)
  {
    hide Represents, DistinctIds, SanitizeAll;
    var fs := scan.findings;
    RepresentsOnce(fs, all);
    assert forall i :: 0 <= i < |fs| ==> fs[i] in fs;
    ShortIdsStayDistinct(fs);
  }

  /** IDs of a 64-digit hash are 71 characters, well within the limit of 128. */
  lemma HashedIdsFit(rules: Rules, s: Snapshot, f: Finding)
    requires (forall x :: |rules.hash(x)| == 64) && f in FromApplications(rules, s, s.applications)
    ensures |f.id| == 71 && f.id[..7] == "sha256:"
  {
    hide Judge;
    ApplicationsProduce(rules, s, s.applications, f);
  }
}
