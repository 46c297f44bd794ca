/** The length-prefixed encoding whose hash identifies a finding. */
module FindingIdentity {
  import opened Prelude

  const DIGITS := "0123456789"

  predicate IsDigit(c: char) {
    '0' <= c <= '9'
  }

  function Digit(d: nat): (c: char)
    requires d < 10
  {
    DIGITS[d]
  }

  function DigitValue(c: char): (d: nat)
    requires IsDigit(c)
    ensures d < 10
  {
    c as int - '0' as int
  }

  /** Go's %d of a length. */
  function Decimal(n: nat): string {
    if n < 10 then [Digit(n)] else Decimal(n / 10) + [Digit(n % 10)]
  }

  function EncodeField(f: string): string {
    Decimal(|f|) + [':'] + f
  }

  /** Fields joined by '|', each prefixed with its length. */
  function Encode(fields: seq<string>): string
    requires fields != []
  {
    if |fields| == 1 then EncodeField(fields[0])
    else EncodeField(fields[0]) + ['|'] + Encode(fields[1..])
  }

  // ------------------------------------------------------------------------
  // Decoding

  /** Reads leading digits onto acc and returns the rest. */
  function ReadDigits(s: string, acc: nat): (nat, string) {
    if s != [] && IsDigit(s[0]) then ReadDigits(s[1..], acc * 10 + DigitValue(s[0])) else (acc, s)
  }

  function DecodeField(s: string): Option<(string, string)> {
    var (n, rest) := ReadDigits(s, 0);
    if rest != [] && rest[0] == ':' && n <= |rest| - 1 then Some((rest[1..n + 1], rest[n + 1..])) else None
  }

  function Decode(s: string, count: nat): Option<seq<string>>
    requires count > 0
    decreases count
  {
    match DecodeField(s)
    case None => None
    case Some((f, rest)) =>
      if count == 1 then (if rest == [] then Some([f]) else None)
      else if rest == [] || rest[0] != '|' then None
      else
        match Decode(rest[1..], count - 1)
        case None => None
        case Some(fs) => Some([f] + fs)
  }

  lemma DigitRoundTrip(d: nat)
    requires d < 10
    ensures IsDigit(Digit(d)) && DigitValue(Digit(d)) == d
  {
    assert DIGITS[0] == '0' && DIGITS[1] == '1' && DIGITS[2] == '2' && DIGITS[3] == '3' && DIGITS[4] == '4';
    assert DIGITS[5] == '5' && DIGITS[6] == '6' && DIGITS[7] == '7' && DIGITS[8] == '8' && DIGITS[9] == '9';
  }

  lemma {:induction false} DecimalReads(n: nat, t: string)
    ensures ReadDigits(Decimal(n) + t, 0) == ReadDigits(t, n)
  {
    DigitRoundTrip(n % 10);
    var last := [Digit(n % 10)];
    assert (last + t)[1..] == t;
    if n >= 10 {
      DecimalReads(n / 10, last + t);
      assert Decimal(n) + t == Decimal(n / 10) + (last + t);
    }
  }

  lemma FieldRoundTrip(f: string, t: string)
    ensures DecodeField(EncodeField(f) + t) == Some((f, t))
  {
    var rest := [':'] + f + t;
    assert EncodeField(f) + t == Decimal(|f|) + rest;
    DecimalReads(|f|, rest);
    assert ReadDigits(rest, |f|) == (|f|, rest);
    assert rest[1..|f| + 1] == f && rest[|f| + 1..] == t;
  }

  /** Decoding undoes encoding for any fields, whatever '|', ':' or digits they hold. */
  lemma {:induction false} RoundTrip(fields: seq<string>)
    requires fields != []
    ensures Decode(Encode(fields), |fields|) == Some(fields)
  {
    hide EncodeField, DecodeField;
    if |fields| == 1 {
      FieldRoundTrip(fields[0], []);
      assert EncodeField(fields[0]) + [] == Encode(fields);
      assert [fields[0]] == fields;
    } else {
      var tail := Encode(fields[1..]);
      FieldRoundTrip(fields[0], ['|'] + tail);
      assert Encode(fields) == EncodeField(fields[0]) + (['|'] + tail);
      assert (['|'] + tail)[1..] == tail;
      RoundTrip(fields[1..]);
      assert DecodeField(Encode(fields)) == Some((fields[0], ['|'] + tail));
      assert Decode(tail, |fields| - 1) == Some(fields[1..]);
      assert [fields[0]] + fields[1..] == fields;
    }
  }

  // ------------------------------------------------------------------------
  // Finding IDs

  datatype Reference = Reference(apiGroup: string, version: string, kind: string, namespace: string, name: string,
      uid: string)

  datatype Identity = Identity(
    ruleVersion: string, detector: string, target: Reference, findingClass: string, sourceContext: string)

  const DEFAULT_RULE_VERSION := "v1"

  /** The nine hashed fields; an empty rule version means the default, and the UID is left out. */
  function IdentityFields(id: Identity): (fields: seq<string>)
    ensures |fields| == 9
  {
    [if id.ruleVersion == "" then DEFAULT_RULE_VERSION else id.ruleVersion, id.detector,
     id.target.apiGroup, id.target.version, id.target.kind, id.target.namespace, id.target.name,
     id.findingClass, id.sourceContext]
  }

  function BuildFindingID(hash: string -> string, id: Identity): string {
    "sha256:" + hash(Encode(IdentityFields(id)))
  }

  /** The hash does not collide on the identities in play. */
  ghost predicate CollisionFree(hash: string -> string, ids: set<Identity>) {
    forall a, b :: a in ids && b in ids && hash(Encode(IdentityFields(a))) == hash(Encode(IdentityFields(b))) ==>
      Encode(IdentityFields(a)) == Encode(IdentityFields(b))
  }

  /** Same rule (after defaulting), detector, target apart from its UID, class and context. */
  predicate SameIdentity(a: Identity, b: Identity) {
    && (if a.ruleVersion == "" then DEFAULT_RULE_VERSION else a.ruleVersion)
       == (if b.ruleVersion == "" then DEFAULT_RULE_VERSION else b.ruleVersion)
    && a.detector == b.detector
    && a.target.(uid := "") == b.target.(uid := "")
    && a.findingClass == b.findingClass && a.sourceContext == b.sourceContext
  }

  /** Two findings share an ID exactly when they share their identity. */
  lemma IdIdentifies(hash: string -> string, a: Identity, b: Identity)
    requires CollisionFree(hash, {a, b})
    ensures BuildFindingID(hash, a) == BuildFindingID(hash, b) <==> SameIdentity(a, b)
  {
    var fa, fb := IdentityFields(a), IdentityFields(b);
    RoundTrip(fa);
    RoundTrip(fb);
    var p := "sha256:";
    assert (p + hash(Encode(fa)))[|p|..] == hash(Encode(fa)) && (p + hash(Encode(fb)))[|p|..] == hash(Encode(fb));
    if BuildFindingID(hash, a) == BuildFindingID(hash, b) {
      assert a in {a, b} && b in {a, b};
      assert fa == fb;
      assert forall i :: 0 <= i < 9 ==> fa[i] == fb[i];
    }
  }
}
