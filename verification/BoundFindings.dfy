/** BoundFindings and SortFindings as loops over a copied slice. */
module BoundFindings {
  import opened Ordering
  import opened Findings

  lemma {:induction false} InsertAt(x: Finding, s: seq<Finding>, k: nat)
    requires k <= |s|
    requires forall j :: 0 <= j < k ==> !FindingLess(x, s[j])
    requires k < |s| ==> FindingLess(x, s[k])
    ensures Insert(FindingLess, x, s) == s[..k] + [x] + s[k..]
  {
    if k > 0 {
      InsertAt(x, s[1..], k - 1);
      assert s[..k] == [s[0]] + s[1..][..k - 1] && s[1..][k - 1..] == s[k..];
    }
  }

  /** Sorts the slice in place. */
  method SortFindings(a: array<Finding>)
    modifies a
    ensures a[..] == Sort(FindingLess, old(a[..]))
  {
    ghost var was := a[..];
    var i := 0;
    while i < a.Length
      invariant 0 <= i <= a.Length
      invariant a[..i] == Sort(FindingLess, was[..i])
      invariant a[i..] == was[i..]
    {
      InsertNext(a, i);
      ghost var next := was[..i + 1];
      assert next[..i] == was[..i] && next[i] == was[i];
      i := i + 1;
    }
    assert a[..a.Length] == a[..] && was[..a.Length] == was;
  }

  method InsertNext(a: array<Finding>, i: nat)
    requires i < a.Length
    modifies a
    ensures a[..i + 1] == Insert(FindingLess, old(a[i]), old(a[..i]))
    ensures a[i + 1..] == old(a[i + 1..])
  {
    hide FindingLess, Insert;
    var x := a[i];
    ghost var before, rest := a[..i], a[i + 1..];
    var k := 0;
    while k < i && !FindingLess(x, a[k])
      invariant 0 <= k <= i
      invariant forall j :: 0 <= j < k ==> !FindingLess(x, a[j])
    {
      k := k + 1;
    }
    InsertAt(x, before, k);
    forall j | k < j <= i {
      a[j] := a[j - 1];
    }
    a[k] := x;
    assert a[..i + 1] == before[..k] + [x] + before[k..];
    assert a[i + 1..] == rest;
  }

  /** The loop over one finding's missing evidence. */
  method BoundMissingEvidence(missing: seq<string>) returns (bounded: seq<string>)
    ensures bounded == CollectMissing(missing, [])
  {
    bounded := [];
    var seen: set<string> := {};
    var k := 0;
    while k < |missing|
      invariant 0 <= k <= |missing| && |bounded| < MAX_MISSING
      invariant forall m :: m in seen <==> m in bounded
      invariant CollectMissing(missing[k..], bounded) == CollectMissing(missing, [])
    {
      var m := Truncate(missing[k], 128);
      assert missing[k..][1..] == missing[k + 1..];
      k := k + 1;
      if m == "" || m in seen {
        continue;
      }
      seen := seen + {m};
      bounded := bounded + [m];
      if |bounded| == MAX_MISSING {
        break;
      }
    }
  }

  /** Sanitizes a copy, sorts it and cuts it at the status budget. */
  method BoundFindings(input: seq<Finding>) returns (kept: seq<Finding>, truncated: nat)
    ensures Bounded(kept, truncated) == Bound(input)
    ensures |kept| + truncated == |input|
    ensures TopOf(kept, SanitizeAll(input))
  {
    hide Sort, CollectMissing, Truncate, FindingLess, StringLess, TopOf;
    SeverestKept(input);
    SortPermutes(FindingLess, SanitizeAll(input));
    if |input| == 0 {
      return [], 0;
    }
    var findings := new Finding[|input|](i requires 0 <= i < |input| => input[i]);
    var i := 0;
    while i < findings.Length
      invariant 0 <= i <= findings.Length
      invariant forall j :: 0 <= j < i ==> findings[j] == Sanitize(input[j])
      invariant forall j :: i <= j < findings.Length ==> findings[j] == input[j]
    {
      var f := findings[i];
      var bounded := BoundMissingEvidence(f.missing);
      findings[i] := f.(id := Truncate(f.id, 128), summary := Truncate(f.summary, 512),
                        remediation := Truncate(f.remediation, 1024), missing := Sort(StringLess, bounded));
      i := i + 1;
    }
    assert findings[..] == SanitizeAll(input);
    SortFindings(findings);
    if findings.Length <= MAX_FINDINGS {
      return findings[..], 0;
    }
    kept, truncated := findings[..MAX_FINDINGS], findings.Length - MAX_FINDINGS;
  }
}
