/** Findings, their priority order, and the bounded list kept in an audit's status. */
module Findings {
  import opened Prelude
  import opened Ordering
  import opened FindingIdentity

  datatype Severity = Info | Warning | High
  datatype Confidence = Confirmed | Suspected | InsufficientEvidence

  datatype Finding = Finding(
    id: string, detector: string, target: Reference, confidence: Confidence, severity: Severity,
    summary: string, missing: seq<string>, remediation: string)

  const MAX_FINDINGS := 100
  const MAX_MISSING := 8

  function SeverityRank(s: Severity): nat {
    match s
    case High => 3
    case Warning => 2
    case Info => 1
  }

  function TargetKey(t: Reference): string {
    t.apiGroup + "/" + t.version + "/" + t.kind + "/" + t.namespace + "/" + t.name
  }

  /** Higher severity first, then detector, target and ID. */
  predicate FindingLess(a: Finding, b: Finding) {
    if a.severity != b.severity then SeverityRank(a.severity) > SeverityRank(b.severity)
    else if a.detector != b.detector then StringLess(a.detector, b.detector)
    else if TargetKey(a.target) != TargetKey(b.target) then StringLess(TargetKey(a.target), TargetKey(b.target))
    else StringLess(a.id, b.id)
  }

  function Truncate(s: string, limit: nat): string {
    if |s| > limit then s[..limit] else s
  }

  /** The first eight distinct non-empty entries, in order of appearance. */
  function CollectMissing(ms: seq<string>, acc: seq<string>): seq<string> {
    if ms == [] || |acc| == MAX_MISSING then acc
    else
      var m := Truncate(ms[0], 128);
      CollectMissing(ms[1..], if m == "" || m in acc then acc else acc + [m])
  }

  function BoundMissing(ms: seq<string>): seq<string> {
    Sort(StringLess, CollectMissing(ms, []))
  }

  function Sanitize(f: Finding): Finding {
    f.(id := Truncate(f.id, 128), summary := Truncate(f.summary, 512),
       remediation := Truncate(f.remediation, 1024), missing := BoundMissing(f.missing))
  }

  function SanitizeAll(fs: seq<Finding>): (r: seq<Finding>)
    ensures |r| == |fs| && forall i :: 0 <= i < |fs| ==> r[i] == Sanitize(fs[i])
  {
    seq(|fs|, i requires 0 <= i < |fs| => Sanitize(fs[i]))
  }

  datatype Bounded = Bounded(kept: seq<Finding>, truncated: nat)

  function Bound(input: seq<Finding>): Bounded {
    var sorted := Sort(FindingLess, SanitizeAll(input));
    if |sorted| <= MAX_FINDINGS then Bounded(sorted, 0)
    else Bounded(sorted[..MAX_FINDINGS], |sorted| - MAX_FINDINGS)
  }

  /** Findings with the same ID are the same finding. */
  ghost predicate IdsIdentify(s: seq<Finding>) {
    forall x, y :: x in s && y in s && x.id == y.id ==> x == y
  }

  predicate DistinctIds(s: seq<Finding>) {
    forall i, j :: 0 <= i < j < |s| ==> s[i].id != s[j].id
  }

  /** The text the API schema requires. */
  predicate Filled(f: Finding) {
    f.id != "" && f.summary != "" && f.remediation != ""
  }

  /** The per-finding maximum limits of the API schema. */
  predicate WithinLimits(f: Finding) {
    && |f.id| <= 128 && |f.summary| <= 512 && |f.remediation| <= 1024
    && |f.missing| <= 8 && Distinct(f.missing)
    && forall i :: 0 <= i < |f.missing| ==> 1 <= |f.missing[i]| <= 128
  }

  // ------------------------------------------------------------------------
  // The order

  lemma LessIrreflexive(a: Finding)
    ensures !FindingLess(a, a)
  {
    StringIrreflexive(a.id);
  }

  lemma LessTotal(a: Finding, b: Finding)
    requires a.id != b.id
    ensures FindingLess(a, b) || FindingLess(b, a)
  {
    hide StringLess, TargetKey;
    StringTotal(a.id, b.id);
    if a.detector != b.detector { StringTotal(a.detector, b.detector); }
    if TargetKey(a.target) != TargetKey(b.target) { StringTotal(TargetKey(a.target), TargetKey(b.target)); }
  }

  /** One string component of a lexicographic comparison. */
  lemma StepTransitive(x: string, y: string, z: string)
    ensures StringLess(x, y) && StringLess(y, z) ==> StringLess(x, z) && x != z
  {
    if StringLess(x, y) && StringLess(y, z) {
      StringTransitive(x, y, z);
      StringAsymmetric(x, y);
    }
  }

  lemma LessTransitive(a: Finding, b: Finding, c: Finding)
    requires FindingLess(a, b) && FindingLess(b, c)
    ensures FindingLess(a, c)
  {
    hide StringLess, TargetKey;
    StepTransitive(a.detector, b.detector, c.detector);
    StepTransitive(TargetKey(a.target), TargetKey(b.target), TargetKey(c.target));
    StepTransitive(a.id, b.id, c.id);
  }

  lemma FindingOrder(s: seq<Finding>)
    requires IdsIdentify(s)
    ensures StrictTotal(FindingLess, s)
  {
    hide FindingLess;
    forall x | x in s ensures !FindingLess(x, x) {
      LessIrreflexive(x);
    }
    forall x, y | x in s && y in s && x != y ensures FindingLess(x, y) || FindingLess(y, x) {
      LessTotal(x, y);
    }
    forall x, y, z | x in s && y in s && z in s && FindingLess(x, y) && FindingLess(y, z) ensures FindingLess(x, z) {
      LessTransitive(x, y, z);
    }
  }

  lemma DistinctIdsIdentify(s: seq<Finding>)
    requires DistinctIds(s)
    ensures IdsIdentify(s) && Distinct(s)
  {
  }

  // ------------------------------------------------------------------------
  // Sanitizing

  lemma {:induction false} CollectInvariant(ms: seq<string>, acc: seq<string>)
    requires |acc| <= MAX_MISSING && Distinct(acc) && forall i :: 0 <= i < |acc| ==> 1 <= |acc[i]| <= 128
    ensures var r := CollectMissing(ms, acc);
            && |r| <= MAX_MISSING && Distinct(r) && forall i :: 0 <= i < |r| ==> 1 <= |r[i]| <= 128
  {
    if ms != [] && |acc| < MAX_MISSING {
      var m := Truncate(ms[0], 128);
      CollectInvariant(ms[1..], if m == "" || m in acc then acc else acc + [m]);
    }
  }

  /** Entries already within bounds are all kept. */
  lemma {:induction false} CollectIdentity(ms: seq<string>, acc: seq<string>)
    requires |acc + ms| <= MAX_MISSING && Distinct(acc + ms)
    requires forall i :: 0 <= i < |ms| ==> 1 <= |ms[i]| <= 128
    ensures CollectMissing(ms, acc) == acc + ms
  {
    if ms != [] {
      assert ms[0] == (acc + ms)[|acc|];
      assert forall i :: 0 <= i < |acc| ==> acc[i] == (acc + ms)[i];
      assert acc + [ms[0]] + ms[1..] == acc + ms;
      CollectIdentity(ms[1..], acc + [ms[0]]);
    } else {
      assert acc + ms == acc;
    }
  }

  lemma MissingBounded(ms: seq<string>)
    ensures var r := BoundMissing(ms);
            && |r| <= MAX_MISSING && Distinct(r) && StrictlySorted(StringLess, r)
            && forall i :: 0 <= i < |r| ==> 1 <= |r[i]| <= 128
  {
    hide CollectMissing, StringLess;
    CollectInvariant(ms, []);
    var c := CollectMissing(ms, []);
    StringOrder(c);
    SortPermutes(StringLess, c);
    SortSorts(StringLess, c);
    var r := BoundMissing(ms);
    forall i | 0 <= i < |r| ensures 1 <= |r[i]| <= 128 {
      assert r[i] in r;
    }
    forall i, j | 0 <= i < j < |r| ensures r[i] != r[j] {
      StringIrreflexive(r[i]);
    }
  }

  lemma MissingStable(ms: seq<string>)
    ensures BoundMissing(BoundMissing(ms)) == BoundMissing(ms)
  {
    MissingBounded(ms);
    var r := BoundMissing(ms);
    assert [] + r == r;
    CollectIdentity(r, []);
    StringOrder(r);
    SortedIsSort(StringLess, r);
  }

  /** s cut to at most `limit` characters, and no shorter than it must be. */
  predicate CutTo(s: string, limit: nat, cut: string) {
    cut <= s && |cut| == if |s| < limit then |s| else limit
  }

  /** The missing evidence kept is that of a first stretch of the list, which ends early only with eight kept. */
  lemma {:induction false} CollectsFirst(ms: seq<string>, acc: seq<string>) returns (n: nat)
    requires |acc| <= MAX_MISSING
    ensures n <= |ms|
    ensures forall m :: m in CollectMissing(ms, acc) <==>
              m in acc || (m != "" && exists i :: 0 <= i < n && m == Truncate(ms[i], 128))
    ensures n == |ms| || |CollectMissing(ms, acc)| == MAX_MISSING
  {
    hide Truncate;
    if ms == [] || |acc| == MAX_MISSING {
      n := 0;
    } else {
      var m := Truncate(ms[0], 128);
      var k := CollectsFirst(ms[1..], if m == "" || m in acc then acc else acc + [m]);
      n := k + 1;
      assert forall i :: 0 <= i < k ==> ms[1..][i] == ms[i + 1];
      assert forall i :: 1 <= i < n ==> ms[i] == ms[1..][i - 1];
    }
  }

  lemma MissingIsFirst(f: Finding) returns (n: nat)
    ensures n <= |f.missing| && (n == |f.missing| || |Sanitize(f).missing| == 8)
    ensures forall m :: m in Sanitize(f).missing <==>
              m != "" && exists i :: 0 <= i < n && CutTo(f.missing[i], 128, m)
  {
    hide CollectMissing, StringLess;
    n := CollectsFirst(f.missing, []);
    SortPermutes(StringLess, CollectMissing(f.missing, []));
    forall m ensures m in Sanitize(f).missing <==>
                     m != "" && exists i :: 0 <= i < n && CutTo(f.missing[i], 128, m)
    {
      forall i | 0 <= i < n ensures CutTo(f.missing[i], 128, m) <==> m == Truncate(f.missing[i], 128) {
      }
    }
  }

  /** Sanitizing only cuts texts to their limits and drops missing evidence beyond its own. */
  lemma SanitizedIsCut(f: Finding)
    ensures var r := Sanitize(f);
            && CutTo(f.id, 128, r.id) && CutTo(f.summary, 512, r.summary) && CutTo(f.remediation, 1024, r.remediation)
            && r == f.(id := r.id, summary := r.summary, remediation := r.remediation, missing := r.missing)
            && (forall i, j :: 0 <= i < j < |r.missing| ==> StringLess(r.missing[i], r.missing[j]))
  {
    hide StringLess, Sort, CollectMissing;
    MissingBounded(f.missing);
  }

  lemma SanitizedWithinLimits(f: Finding)
    ensures WithinLimits(Sanitize(f))
    ensures Sanitize(Sanitize(f)) == Sanitize(f)
    ensures Filled(f) ==> Filled(Sanitize(f))
  {
    hide BoundMissing, StrictlySorted;
    MissingBounded(f.missing);
    MissingStable(f.missing);
  }

  // ------------------------------------------------------------------------
  // The bounded list

  lemma SanitizeAllConcat(x: seq<Finding>, y: seq<Finding>)
    ensures SanitizeAll(x + y) == SanitizeAll(x) + SanitizeAll(y)
  {
  }

  lemma WithoutAt<T>(s: seq<T>, i: nat)
    requires i < |s|
    ensures multiset(s[..i] + s[i + 1..]) == multiset(s) - multiset{s[i]}
    ensures multiset(s) == multiset(s[..i] + s[i + 1..]) + multiset{s[i]}
  {
    assert s == s[..i] + [s[i]] + s[i + 1..];
  }

  lemma SanitizeAllPermutes(a: seq<Finding>, b: seq<Finding>)
    requires multiset(a) == multiset(b)
    ensures multiset(SanitizeAll(a)) == multiset(SanitizeAll(b))
    decreases |a|
  {
    hide SanitizeAll, Sanitize;
    if a == [] {
      assert |multiset(b)| == 0;
      assert b == [];
    } else {
      assert a[0] in multiset(b);
      var i :| 0 <= i < |b| && b[i] == a[0];
      var x, y := b[..i], b[i + 1..];
      TailOf(a);
      WithoutAt(b, i);
      SanitizeAllPermutes(a[1..], x + y);
      SanitizeSplit(a, 0);
      SanitizeSplit(b, i);
      SanitizeAllConcat(x, y);
    }
  }

  lemma SanitizeSplit(s: seq<Finding>, i: nat)
    requires i < |s|
    ensures multiset(SanitizeAll(s)) ==
            multiset(SanitizeAll(s[..i])) + multiset{Sanitize(s[i])} + multiset(SanitizeAll(s[i + 1..]))
    ensures i == 0 ==> multiset(SanitizeAll(s)) == multiset{Sanitize(s[i])} + multiset(SanitizeAll(s[1..]))
  {
    assert SanitizeAll(s) == SanitizeAll(s[..i]) + [Sanitize(s[i])] + SanitizeAll(s[i + 1..]);
  }

  lemma SortedFindings(input: seq<Finding>)
    requires DistinctIds(SanitizeAll(input))
    ensures var all := Sort(FindingLess, SanitizeAll(input));
            && StrictlySorted(FindingLess, all) && |all| == |input| && IdsIdentify(all)
            && multiset(all) == multiset(SanitizeAll(input))
            && (forall f :: f in all <==> f in SanitizeAll(input))
  {
    DistinctIdsIdentify(SanitizeAll(input));
    FindingOrder(SanitizeAll(input));
    SortSorts(FindingLess, SanitizeAll(input));
    SortPermutes(FindingLess, SanitizeAll(input));
  }

  /** The order in which detectors report does not matter, nor which sort is used. */
  lemma BoundIgnoresOrder(a: seq<Finding>, b: seq<Finding>)
    requires multiset(a) == multiset(b) && DistinctIds(SanitizeAll(a))
    ensures Bound(a) == Bound(b)
  {
    hide FindingLess, Sanitize, StrictlySorted, Distinct, SanitizeAll;
    SanitizeAllPermutes(a, b);
    SortedFindings(a);
    PermutedDistinct(SanitizeAll(a), SanitizeAll(b));
    SortedFindings(b);
    var sa, sb := Sort(FindingLess, SanitizeAll(a)), Sort(FindingLess, SanitizeAll(b));
    FindingOrder(sa);
    SortedUnique(FindingLess, sa, sb);
  }

  lemma PermutedDistinct(a: seq<Finding>, b: seq<Finding>)
    requires multiset(a) == multiset(b) && DistinctIds(a)
    ensures DistinctIds(b)
  {
    forall i, j | 0 <= i < j < |b| ensures b[i].id != b[j].id {
      assert b[i] in multiset(a) && b[j] in multiset(a);
      var x :| 0 <= x < |a| && a[x] == b[i];
      var y :| 0 <= y < |a| && a[y] == b[j];
      if x == y {
        var rest := b[..j] + b[j + 1..];
        assert b == b[..j] + [b[j]] + b[j + 1..];
        assert rest[i] == b[i];
        assert multiset(b)[b[i]] >= 2;
        AtMostOnce(a, x);
        assert false;
      }
    }
  }

  lemma AtMostOnce(a: seq<Finding>, x: nat)
    requires DistinctIds(a) && x < |a|
    ensures multiset(a)[a[x]] == 1
  {
    var rest := a[..x] + a[x + 1..];
    WithoutAt(a, x);
    assert a[x] !in rest by {
      forall i | 0 <= i < |rest| ensures rest[i].id != a[x].id {
      }
    }
    assert a[x] !in multiset(rest);
  }

  /** a may stand before b: High before Warning before Info, then by detector, target and ID. */
  predicate MayPrecede(a: Finding, b: Finding) {
    && (b.severity == High ==> a.severity == High)
    && (b.severity == Warning ==> a.severity != Info)
    && (a.severity == b.severity ==> !StringLess(b.detector, a.detector))
    && (a.severity == b.severity && a.detector == b.detector ==>
          !StringLess(TargetKey(b.target), TargetKey(a.target)))
    && (a.severity == b.severity && a.detector == b.detector && TargetKey(a.target) == TargetKey(b.target) ==>
          !StringLess(b.id, a.id))
  }

  lemma NotAfterMayPrecede(a: Finding, b: Finding)
    ensures FindingLess(b, a) <==> !MayPrecede(a, b)
  {
    hide StringLess, TargetKey;
    StringIrreflexive(a.detector);
    StringIrreflexive(TargetKey(a.target));
  }

  lemma FindingsWeaklyOrdered()
    ensures WeakOrder(FindingLess)
  {
    hide StringLess, TargetKey;
    forall x, y | FindingLess(x, y) ensures !FindingLess(y, x) {
      StringAsymmetric(x.detector, y.detector);
      StringAsymmetric(TargetKey(x.target), TargetKey(y.target));
      StringAsymmetric(x.id, y.id);
    }
    forall x, y, z | !FindingLess(y, x) && !FindingLess(z, y) ensures !FindingLess(z, x) {
      NotLessChain(x, y, z);
    }
  }

  lemma NotLessChain(x: Finding, y: Finding, z: Finding)
    requires !FindingLess(y, x) && !FindingLess(z, y)
    ensures !FindingLess(z, x)
  {
    hide StringLess, TargetKey;
    StringNotLessChain(x.detector, y.detector, z.detector);
    StringNotLessChain(TargetKey(x.target), TargetKey(y.target), TargetKey(z.target));
    StringNotLessChain(x.id, y.id, z.id);
    if x.detector != y.detector { StringTotal(x.detector, y.detector); }
    if TargetKey(x.target) != TargetKey(y.target) { StringTotal(TargetKey(x.target), TargetKey(y.target)); }
  }

  /** The list is a severity list, cut after 100; `all` is every finding sanitized. */
  ghost predicate TopOf(kept: seq<Finding>, all: seq<Finding>) {
    && |kept| == (if |all| <= 100 then |all| else 100)
    && multiset(kept) <= multiset(all)
    && (forall i, j :: 0 <= i < j < |kept| ==> MayPrecede(kept[i], kept[j]))
    && (forall i, f :: 0 <= i < |kept| && f in multiset(all) - multiset(kept) ==> MayPrecede(kept[i], f))
  }

  /**
   * Whatever the input, what is kept comes first by severity, written out: a dropped High
   * means only Highs were kept, a dropped Warning means no Info was, and the kept list
   * itself runs from High over Warning to Info.
   */
  lemma SeverestKept(input: seq<Finding>)
    ensures TopOf(Bound(input).kept, SanitizeAll(input))
    ensures |Bound(input).kept| + Bound(input).truncated == |input|
  {
    hide FindingLess, Sanitize, MayPrecede;
    var all := SanitizeAll(input);
    var sorted, kept := Sort(FindingLess, all), Bound(input).kept;
    FindingsWeaklyOrdered();
    SortWeakly(FindingLess, all);
    SortPermutes(FindingLess, all);
    assert kept == sorted[..|kept|];
    assert |kept| == if |all| <= 100 then |all| else 100;
    CutOfSorted(sorted, |kept|);
  }

  lemma CutOfSorted(sorted: seq<Finding>, n: nat)
    requires NoneBefore(FindingLess, sorted) && n <= |sorted|
    ensures forall i, j :: 0 <= i < j < n ==> MayPrecede(sorted[..n][i], sorted[..n][j])
    ensures multiset(sorted[..n]) <= multiset(sorted)
    ensures forall i, f :: 0 <= i < n && f in multiset(sorted) - multiset(sorted[..n]) ==>
              MayPrecede(sorted[..n][i], f)
  {
    hide FindingLess, MayPrecede;
    var kept := sorted[..n];
    assert sorted == kept + sorted[n..];
    forall i, j | 0 <= i < j < |sorted| ensures MayPrecede(sorted[i], sorted[j]) {
      NotAfterMayPrecede(sorted[i], sorted[j]);
    }
    forall i, f | 0 <= i < |kept| && f in multiset(sorted) - multiset(kept) ensures MayPrecede(kept[i], f) {
      assert f in sorted[n..];
      var j :| n <= j < |sorted| && sorted[j] == f;
      assert MayPrecede(sorted[i], sorted[j]);
    }
  }

  /** The kept findings are the highest-priority ones, in order, and the rest are counted. */
  lemma BoundKeepsTop(input: seq<Finding>)
    requires DistinctIds(SanitizeAll(input))
    ensures var r := Bound(input);
            && |r.kept| + r.truncated == |input|
            && |r.kept| == (if |input| <= MAX_FINDINGS then |input| else MAX_FINDINGS)
            && StrictlySorted(FindingLess, r.kept)
            && (forall f :: f in r.kept ==> f in SanitizeAll(input))
            && (forall k, f :: k in r.kept && f in SanitizeAll(input) && f !in r.kept ==> FindingLess(k, f))
  {
    hide FindingLess, Sanitize;
    SortedFindings(input);
    var r, all := Bound(input), Sort(FindingLess, SanitizeAll(input));
    forall k, f | k in r.kept && f in SanitizeAll(input) && f !in r.kept ensures FindingLess(k, f) {
      assert f in all;
      var i :| 0 <= i < |r.kept| && r.kept[i] == k;
      var j :| 0 <= j < |all| && all[j] == f;
      assert j >= |r.kept|;
    }
  }

  /** The kept list satisfies every limit the API schema puts on it; required text is filled if it came filled. */
  lemma BoundWithinLimits(input: seq<Finding>)
    requires DistinctIds(SanitizeAll(input))
    ensures |Bound(input).kept| <= MAX_FINDINGS
    ensures DistinctIds(Bound(input).kept)
    ensures forall f :: f in Bound(input).kept ==> WithinLimits(f)
    ensures (forall f :: f in input ==> Filled(f)) ==> forall f :: f in Bound(input).kept ==> Filled(f)
  {
    hide FindingLess, Sanitize, WithinLimits;
    SortedFindings(input);
    BoundKeepsTop(input);
    var kept := Bound(input).kept;
    forall i, j | 0 <= i < j < |kept| ensures kept[i].id != kept[j].id {
      LessIrreflexive(kept[i]);
      assert kept[i] in Sort(FindingLess, SanitizeAll(input)) && kept[j] in Sort(FindingLess, SanitizeAll(input));
    }
    forall f | f in kept ensures WithinLimits(f) && ((forall g :: g in input ==> Filled(g)) ==> Filled(f)) {
      var i :| 0 <= i < |input| && Sanitize(input[i]) == f;
      SanitizedWithinLimits(input[i]);
      assert input[i] in input;
    }
  }

  /** Bounding a bounded list changes nothing. */
  lemma BoundIdempotent(input: seq<Finding>)
    requires DistinctIds(SanitizeAll(input))
    ensures Bound(Bound(input).kept) == Bounded(Bound(input).kept, 0)
  {
    hide FindingLess;
    BoundKeepsTop(input);
    BoundWithinLimits(input);
    var kept := Bound(input).kept;
    forall i | 0 <= i < |kept| ensures Sanitize(kept[i]) == kept[i] {
      assert kept[i] in kept;
      var j :| 0 <= j < |input| && Sanitize(input[j]) == kept[i];
      SanitizedWithinLimits(input[j]);
    }
    assert SanitizeAll(kept) == kept;
    DistinctIdsIdentify(kept);
    FindingOrder(kept);
    SortedIsSort(FindingLess, kept);
  }
}
