/**
 Version precedence and peer ranges of the profile compatibility check.

 A version is its parse: three numbers and a list of prerelease identifiers. A range is a list of
 alternatives, each a list of comparators. Evaluation stops at the first comparator that refuses and
 at the first alternative that accepts, so a comparator the launcher does not support raises an
 error only when it is reached.
 */
module VersionOrder {

  datatype Ident = Numeric(n: nat) | Text(s: string)

  datatype Version = Version(major: nat, minor: nat, patch: nat, prerelease: seq<Ident>)

  // The comparison as the launcher computes it.

  function CompareNat(a: nat, b: nat): int {
    if a == b then 0 else if a > b then 1 else -1
  }

  /** JavaScript's order on strings: the first differing character decides, else the shorter is smaller. */
  function CompareText(a: string, b: string): int {
    if a == "" && b == "" then 0
    else if a == "" then -1
    else if b == "" then 1
    else if a[0] != b[0] then if a[0] > b[0] then 1 else -1
    else CompareText(a[1..], b[1..])
  }

  function CompareIdent(a: Ident, b: Ident): int {
    match (a, b)
    case (Numeric(m), Numeric(n)) => CompareNat(m, n)
    case (Numeric(_), Text(_)) => -1
    case (Text(_), Numeric(_)) => 1
    case (Text(s), Text(t)) => CompareText(s, t)
  }

  function CompareIdents(a: seq<Ident>, b: seq<Ident>): int {
    if a == [] && b == [] then 0
    else if a == [] then -1
    else if b == [] then 1
    else if a[0] != b[0] then CompareIdent(a[0], b[0])
    else CompareIdents(a[1..], b[1..])
  }

  function ComparePrerelease(a: seq<Ident>, b: seq<Ident>): int {
    if a == [] && b == [] then 0
    else if a == [] then 1
    else if b == [] then -1
    else CompareIdents(a, b)
  }

  function Compare(a: Version, b: Version): int {
    if a.major != b.major then CompareNat(a.major, b.major)
    else if a.minor != b.minor then CompareNat(a.minor, b.minor)
    else if a.patch != b.patch then CompareNat(a.patch, b.patch)
    else ComparePrerelease(a.prerelease, b.prerelease)
  }

  /** The launcher's comparison, with its index loop over the longer prerelease list. */
  method CompareVersions(left: Version, right: Version) returns (r: int)
    ensures r == Compare(left, right)
  {
    if left.major != right.major { return if left.major > right.major then 1 else -1; }
    if left.minor != right.minor { return if left.minor > right.minor then 1 else -1; }
    if left.patch != right.patch { return if left.patch > right.patch then 1 else -1; }
    var a, b := left.prerelease, right.prerelease;
    if a == [] && b == [] { return 0; }
    if a == [] { return 1; }
    if b == [] { return -1; }
    var length := if |a| > |b| then |a| else |b|;
    var i := 0;
    while i < length
      invariant 0 <= i <= |a| && i <= |b| && i <= length
      invariant CompareIdents(a, b) == CompareIdents(a[i..], b[i..])
    {
      if i >= |a| { return -1; }
      if i >= |b| { return 1; }
      if a[i] != b[i] {
        return CompareIdent(a[i], b[i]);
      }
      assert a[i..][1..] == a[i + 1..] && b[i..][1..] == b[i + 1..];
      i := i + 1;
    }
    return 0;
  }

  // Precedence as section 11 of Semantic Versioning 2.0.0 words it.

  ghost predicate TextBelow(a: string, b: string) {
    exists k: nat :: k <= |a| && k < |b| && a[..k] == b[..k] && (k == |a| || a[k] < b[k])
  }

  ghost predicate IdentBelow(a: Ident, b: Ident) {
    match (a, b)
    case (Numeric(m), Numeric(n)) => m < n
    case (Numeric(_), Text(_)) => true
    case (Text(_), Numeric(_)) => false
    case (Text(s), Text(t)) => TextBelow(s, t)
  }

  /** The first differing identifier decides; when all shared ones are equal, the longer list is higher. */
  ghost predicate IdentsBelow(a: seq<Ident>, b: seq<Ident>) {
    exists k: nat :: k <= |a| && k < |b| && a[..k] == b[..k] && (k == |a| || IdentBelow(a[k], b[k]))
  }

  ghost predicate PrereleaseBelow(a: seq<Ident>, b: seq<Ident>) {
    (a != [] && b == []) || (a != [] && b != [] && IdentsBelow(a, b))
  }

  ghost predicate Below(a: Version, b: Version) {
    || a.major < b.major
    || (a.major == b.major && a.minor < b.minor)
    || (a.major == b.major && a.minor == b.minor && a.patch < b.patch)
    || (a.major == b.major && a.minor == b.minor && a.patch == b.patch && PrereleaseBelow(a.prerelease, b.prerelease))
  }

  lemma TextBelowHead(a: string, b: string)
    requires a != "" && b != "" && TextBelow(a, b)
    ensures a[0] < b[0] || (a[0] == b[0] && TextBelow(a[1..], b[1..]))
  {
    var k: nat :| k <= |a| && k < |b| && a[..k] == b[..k] && (k == |a| || a[k] < b[k]);
    if k > 0 {
      assert a[..k][0] == b[..k][0];
      assert a[1..][..k - 1] == a[..k][1..] && b[1..][..k - 1] == b[..k][1..];
      assert k - 1 <= |a[1..]| && k - 1 < |b[1..]|;
    }
  }

  lemma TextBelowCons(a: string, b: string)
    requires a != "" && b != "" && a[0] == b[0] && TextBelow(a[1..], b[1..])
    ensures TextBelow(a, b)
  {
    var c, d := a[1..], b[1..];
    var k: nat :| k <= |c| && k < |d| && c[..k] == d[..k] && (k == |c| || c[k] < d[k]);
    assert a[..k + 1] == [a[0]] + c[..k] && b[..k + 1] == [b[0]] + d[..k];
    assert k + 1 <= |a| && k + 1 < |b| && a[..k + 1] == b[..k + 1];
  }

  lemma TextBelowTail(a: string, b: string)
    requires a != "" && b != ""
    ensures TextBelow(a, b) <==> a[0] < b[0] || (a[0] == b[0] && TextBelow(a[1..], b[1..]))
  {
    if TextBelow(a, b) {
      TextBelowHead(a, b);
    } else if a[0] == b[0] && TextBelow(a[1..], b[1..]) {
      TextBelowCons(a, b);
    } else {
      assert a[..0] == b[..0];
    }
  }

  lemma IdentsBelowHead(a: seq<Ident>, b: seq<Ident>)
    requires a != [] && b != [] && IdentsBelow(a, b)
    ensures (a[0] != b[0] && IdentBelow(a[0], b[0])) || (a[0] == b[0] && IdentsBelow(a[1..], b[1..]))
  {
    IdentIrreflexive(a[0]);
    var k: nat :| k <= |a| && k < |b| && a[..k] == b[..k] && (k == |a| || IdentBelow(a[k], b[k]));
    if k > 0 {
      assert a[..k][0] == b[..k][0];
      assert a[1..][..k - 1] == a[..k][1..] && b[1..][..k - 1] == b[..k][1..];
      assert k - 1 <= |a[1..]| && k - 1 < |b[1..]|;
    }
  }

  lemma IdentsBelowCons(a: seq<Ident>, b: seq<Ident>)
    requires a != [] && b != [] && a[0] == b[0] && IdentsBelow(a[1..], b[1..])
    ensures IdentsBelow(a, b)
  {
    var c, d := a[1..], b[1..];
    var k: nat :| k <= |c| && k < |d| && c[..k] == d[..k] && (k == |c| || IdentBelow(c[k], d[k]));
    assert a[..k + 1] == [a[0]] + c[..k] && b[..k + 1] == [b[0]] + d[..k];
    assert k + 1 <= |a| && k + 1 < |b| && a[..k + 1] == b[..k + 1];
  }

  lemma IdentsBelowTail(a: seq<Ident>, b: seq<Ident>)
    requires a != [] && b != []
    ensures IdentsBelow(a, b) <==> (a[0] != b[0] && IdentBelow(a[0], b[0])) || (a[0] == b[0] && IdentsBelow(a[1..], b[1..]))
  {
    if IdentsBelow(a, b) {
      IdentsBelowHead(a, b);
    } else if a[0] == b[0] && IdentsBelow(a[1..], b[1..]) {
      IdentsBelowCons(a, b);
    } else {
      assert a[..0] == b[..0];
    }
  }

  lemma IdentIrreflexive(a: Ident)
    ensures !IdentBelow(a, a)
  {
  }

  lemma {:induction false} TextMatches(a: string, b: string)
    ensures CompareText(a, b) in {-1, 0, 1}
    ensures CompareText(a, b) == 0 <==> a == b
    ensures CompareText(a, b) < 0 <==> TextBelow(a, b)
    ensures CompareText(a, b) == -CompareText(b, a)
  {
    if a != "" && b != "" {
      TextBelowTail(a, b);
      TextMatches(a[1..], b[1..]);
      assert a == [a[0]] + a[1..] && b == [b[0]] + b[1..];
    } else if a == "" && b != "" {
      assert a[..0] == b[..0];
    }
  }

  lemma IdentMatches(a: Ident, b: Ident)
    ensures CompareIdent(a, b) in {-1, 0, 1}
    ensures CompareIdent(a, b) == 0 <==> a == b
    ensures CompareIdent(a, b) < 0 <==> IdentBelow(a, b)
    ensures CompareIdent(a, b) == -CompareIdent(b, a)
  {
    if a.Text? && b.Text? { TextMatches(a.s, b.s); }
  }

  lemma {:induction false} IdentsMatch(a: seq<Ident>, b: seq<Ident>)
    ensures CompareIdents(a, b) in {-1, 0, 1}
    ensures CompareIdents(a, b) == 0 <==> a == b
    ensures CompareIdents(a, b) < 0 <==> IdentsBelow(a, b)
    ensures CompareIdents(a, b) == -CompareIdents(b, a)
  {
    if a != [] && b != [] {
      IdentsBelowTail(a, b);
      IdentMatches(a[0], b[0]);
      IdentsMatch(a[1..], b[1..]);
      assert a == [a[0]] + a[1..] && b == [b[0]] + b[1..];
    } else if a == [] && b != [] {
      assert a[..0] == b[..0];
    }
  }

  /** The computed comparison is the stated precedence; it is 0 only for equal parses, and antisymmetric. */
  lemma CompareIsPrecedence(a: Version, b: Version)
    ensures Compare(a, b) < 0 <==> Below(a, b)
    ensures Compare(a, b) == 0 <==> a == b
    ensures Compare(a, b) > 0 <==> Below(b, a)
    ensures Compare(a, b) == -Compare(b, a)
  {
    IdentsMatch(a.prerelease, b.prerelease);
    IdentsMatch(b.prerelease, a.prerelease);
  }

  lemma {:induction false} TextTransitive(a: string, b: string, c: string)
    requires CompareText(a, b) <= 0 && CompareText(b, c) <= 0
    ensures CompareText(a, c) <= 0
  {
    TextMatches(a, b);
    TextMatches(b, c);
    if a != "" && b != "" && c != "" && a[0] == b[0] == c[0] {
      TextTransitive(a[1..], b[1..], c[1..]);
    }
  }

  lemma IdentTransitive(a: Ident, b: Ident, c: Ident)
    requires CompareIdent(a, b) <= 0 && CompareIdent(b, c) <= 0
    ensures CompareIdent(a, c) <= 0
  {
    if a.Text? && b.Text? && c.Text? { TextTransitive(a.s, b.s, c.s); }
  }

  lemma {:induction false} IdentsTransitive(a: seq<Ident>, b: seq<Ident>, c: seq<Ident>)
    requires CompareIdents(a, b) <= 0 && CompareIdents(b, c) <= 0
    ensures CompareIdents(a, c) <= 0
  {
    if a != [] && b != [] && c != [] {
      IdentMatches(a[0], b[0]);
      IdentMatches(b[0], c[0]);
      IdentMatches(a[0], c[0]);
      if a[0] == b[0] == c[0] {
        IdentsTransitive(a[1..], b[1..], c[1..]);
      } else {
        IdentTransitive(a[0], b[0], c[0]);
      }
    }
  }

  /** Precedence is transitive over prerelease lists of any length; with CompareIsPrecedence it is a total order. */
  lemma CompareTransitive(a: Version, b: Version, c: Version)
    requires Compare(a, b) <= 0 && Compare(b, c) <= 0
    ensures Compare(a, c) <= 0
  {
    if a.prerelease != [] && b.prerelease != [] && c.prerelease != [] &&
       CompareIdents(a.prerelease, b.prerelease) <= 0 && CompareIdents(b.prerelease, c.prerelease) <= 0 {
      IdentsTransitive(a.prerelease, b.prerelease, c.prerelease);
    }
  }

  // Ranges.

  datatype Op = AtLeast | Above | AtMost | Under | Exactly

  /** `Wild` is `*`, `Unknown` is any other text (it refuses), `Unsupported` is a caret, tilde or partial version. */
  datatype Comparator = Bound(op: Op, version: Version) | Wild | Unknown | Unsupported

  datatype Verdict = Accepts | Refuses | Throws

  function Judge(v: Version, c: Comparator): Verdict {
    match c
    case Wild => Accepts
    case Unknown => Refuses
    case Unsupported => Throws
    case Bound(op, expected) =>
      var r := Compare(v, expected);
      var holds := match op
        case AtLeast => r >= 0
        case Above => r > 0
        case AtMost => r <= 0
        case Under => r < 0
        case Exactly => r == 0;
      if holds then Accepts else Refuses
  }

  /** All comparators, left to right, up to the first that does not accept. */
  function AllOf(v: Version, cs: seq<Comparator>): Verdict {
    if cs == [] then Accepts else if Judge(v, cs[0]) == Accepts then AllOf(v, cs[1..]) else Judge(v, cs[0])
  }

  /** The alternatives, left to right, up to the first that does not refuse. */
  function AnyOf(v: Version, range: seq<seq<Comparator>>): Verdict {
    if range == [] then Refuses else if AllOf(v, range[0]) == Refuses then AnyOf(v, range[1..]) else AllOf(v, range[0])
  }

  lemma {:induction false} AllOfAccepts(v: Version, cs: seq<Comparator>)
    ensures AllOf(v, cs) == Accepts <==> forall i | 0 <= i < |cs| :: Judge(v, cs[i]) == Accepts
  {
    if cs != [] {
      AllOfAccepts(v, cs[1..]);
      assert forall i | 1 <= i < |cs| :: cs[i] == cs[1..][i - 1];
    }
  }

  /** A comparator admits exactly the versions that its operator names in the order of precedence. */
  lemma ComparatorMeans(v: Version, expected: Version)
    ensures Judge(v, Bound(AtLeast, expected)) == Accepts <==> !Below(v, expected)
    ensures Judge(v, Bound(Above, expected)) == Accepts <==> Below(expected, v)
    ensures Judge(v, Bound(AtMost, expected)) == Accepts <==> !Below(expected, v)
    ensures Judge(v, Bound(Under, expected)) == Accepts <==> Below(v, expected)
    ensures Judge(v, Bound(Exactly, expected)) == Accepts <==> v == expected
  {
    CompareIsPrecedence(v, expected);
  }

  /** A range accepts exactly the versions some alternative accepts after all earlier ones refused. */
  lemma {:induction false} RangeAccepts(v: Version, range: seq<seq<Comparator>>)
    ensures AnyOf(v, range) == Accepts <==>
              exists i :: 0 <= i < |range| && AllOf(v, range[i]) == Accepts && forall j | 0 <= j < i :: AllOf(v, range[j]) == Refuses
  {
    if range != [] {
      RangeAccepts(v, range[1..]);
      if i :| 0 <= i < |range[1..]| && AllOf(v, range[1..][i]) == Accepts && forall j | 0 <= j < i :: AllOf(v, range[1..][j]) == Refuses {
        if AllOf(v, range[0]) == Refuses {
          assert forall j | 0 < j < i + 1 :: range[j] == range[1..][j - 1];
          assert AllOf(v, range[i + 1]) == Accepts;
        }
      }
      if i :| 0 <= i < |range| && AllOf(v, range[i]) == Accepts && forall j | 0 <= j < i :: AllOf(v, range[j]) == Refuses {
        if i > 0 {
          assert range[1..][i - 1] == range[i];
          assert forall j | 0 <= j < i - 1 :: range[1..][j] == range[j + 1];
        }
      }
    }
  }

  lemma BoundConvex(low: Version, v: Version, high: Version, c: Comparator)
    requires Compare(low, v) <= 0 && Compare(v, high) <= 0
    requires Judge(low, c) == Accepts && Judge(high, c) == Accepts
    ensures Judge(v, c) == Accepts
  {
    if c.Bound? {
      var e := c.version;
      CompareIsPrecedence(low, v);
      CompareIsPrecedence(v, high);
      CompareIsPrecedence(low, e);
      CompareIsPrecedence(v, e);
      CompareIsPrecedence(high, e);
      if Compare(v, e) <= 0 { CompareTransitive(low, v, e); }
      if Compare(e, v) <= 0 { CompareTransitive(e, v, high); }
      if Compare(e, low) <= 0 { CompareTransitive(e, low, v); }
      if Compare(high, e) <= 0 { CompareTransitive(v, high, e); }
    }
  }

  /** Every alternative accepts an interval: between two accepted versions nothing is refused. */
  lemma AlternativeConvex(low: Version, v: Version, high: Version, cs: seq<Comparator>)
    requires Compare(low, v) <= 0 && Compare(v, high) <= 0
    requires AllOf(low, cs) == Accepts && AllOf(high, cs) == Accepts
    ensures AllOf(v, cs) == Accepts
  {
    AllOfAccepts(low, cs);
    AllOfAccepts(v, cs);
    AllOfAccepts(high, cs);
    forall i | 0 <= i < |cs| ensures Judge(v, cs[i]) == Accepts {
      BoundConvex(low, v, high, cs[i]);
    }
  }

  lemma {:induction false} AllOfConcat(v: Version, a: seq<Comparator>, b: seq<Comparator>)
    ensures AllOf(v, a + b) == Accepts <==> AllOf(v, a) == Accepts && AllOf(v, b) == Accepts
  {
    if a == [] {
      assert a + b == b;
    } else {
      AllOfConcat(v, a[1..], b);
      assert (a + b)[1..] == a[1..] + b;
    }
  }

  /** A further comparator, wherever it stands, only shrinks what an alternative accepts. */
  lemma ComparatorShrinks(v: Version, cs: seq<Comparator>, i: nat, c: Comparator)
    requires i <= |cs|
    ensures AllOf(v, cs[..i] + [c] + cs[i..]) == Accepts <==> AllOf(v, cs) == Accepts && Judge(v, c) == Accepts
  {
    AllOfConcat(v, cs[..i] + [c], cs[i..]);
    AllOfConcat(v, cs[..i], [c]);
    AllOfConcat(v, cs[..i], cs[i..]);
    assert cs[..i] + cs[i..] == cs;
    assert [c][1..] == [];
  }

  lemma {:induction false} AnyOfInsert(v: Version, range: seq<seq<Comparator>>, i: nat, extra: seq<Comparator>)
    requires i <= |range|
    ensures var wider := range[..i] + [extra] + range[i..];
            AnyOf(v, wider) ==
              if AnyOf(v, range[..i]) != Refuses then AnyOf(v, range[..i])
              else if AllOf(v, extra) != Refuses then AllOf(v, extra)
              else AnyOf(v, range)
  {
    var wider := range[..i] + [extra] + range[i..];
    if i == 0 {
      assert wider[1..] == range && wider[0] == extra;
    } else {
      AnyOfInsert(v, range[1..], i - 1, extra);
      assert range[1..][..i - 1] == range[..i][1..] && range[1..][i - 1..] == range[i..];
      assert wider[1..] == range[..i][1..] + [extra] + range[i..];
      assert wider[0] == range[0] == range[..i][0];
    }
  }

  lemma {:induction false} AnyOfPrefix(v: Version, range: seq<seq<Comparator>>, i: nat)
    requires i <= |range| && AnyOf(v, range[..i]) != Refuses
    ensures AnyOf(v, range) == AnyOf(v, range[..i])
  {
    if i > 0 && AllOf(v, range[0]) == Refuses {
      assert range[..i][0] == range[0];
      assert range[1..][..i - 1] == range[..i][1..];
      AnyOfPrefix(v, range[1..], i - 1);
    }
  }

  /** A comparator that `v` meets, said of the comparator and the order of precedence alone. */
  ghost predicate Meets(v: Version, c: Comparator) {
    || c.Wild?
    || (c.Bound? && match c.op
                    case AtLeast => !Below(v, c.version)
                    case Above => Below(c.version, v)
                    case AtMost => !Below(c.version, v)
                    case Under => Below(v, c.version)
                    case Exactly => v == c.version)
  }

  ghost predicate MeetsAll(v: Version, cs: seq<Comparator>) {
    forall i | 0 <= i < |cs| :: Meets(v, cs[i])
  }

  /** Reading from the left, `v` meets every comparator up to an unsupported one. */
  ghost predicate MeetsUnsupported(v: Version, cs: seq<Comparator>) {
    exists i :: 0 <= i < |cs| && cs[i].Unsupported? && forall j | 0 <= j < i :: Meets(v, cs[j])
  }

  lemma JudgeMeets(v: Version, c: Comparator)
    ensures Judge(v, c) == Accepts <==> Meets(v, c)
    ensures Judge(v, c) == Throws <==> c.Unsupported?
  {
    if c.Bound? { ComparatorMeans(v, c.version); }
  }

  lemma MeetsUnsupportedTail(v: Version, cs: seq<Comparator>)
    requires cs != [] && Meets(v, cs[0])
    ensures MeetsUnsupported(v, cs) <==> MeetsUnsupported(v, cs[1..])
  {
    assert forall j | 1 <= j < |cs| :: cs[j] == cs[1..][j - 1];
    if i :| 0 <= i < |cs| && cs[i].Unsupported? && forall j | 0 <= j < i :: Meets(v, cs[j]) {
      assert forall j | 0 <= j < i - 1 :: cs[1..][j] == cs[j + 1];
      assert cs[1..][i - 1].Unsupported?;
    }
    if i :| 0 <= i < |cs[1..]| && cs[1..][i].Unsupported? && forall j | 0 <= j < i :: Meets(v, cs[1..][j]) {
      assert cs[i + 1].Unsupported?;
    }
  }

  /** An alternative accepts what meets all its comparators, and raises an error exactly when an unsupported one is reached. */
  lemma {:induction false} AlternativeMeans(v: Version, cs: seq<Comparator>)
    ensures AllOf(v, cs) == Accepts <==> MeetsAll(v, cs)
    ensures AllOf(v, cs) == Throws <==> MeetsUnsupported(v, cs)
  {
    if cs != [] {
      JudgeMeets(v, cs[0]);
      AlternativeMeans(v, cs[1..]);
      assert forall i | 1 <= i < |cs| :: cs[i] == cs[1..][i - 1];
      if Meets(v, cs[0]) {
        MeetsUnsupportedTail(v, cs);
      }
    }
  }

  lemma PrefixAccepts(v: Version, range: seq<seq<Comparator>>, i: nat)
    requires i <= |range| && AnyOf(v, range) == Accepts
    ensures AnyOf(v, range[..i]) == Accepts <==> exists k :: 0 <= k < i && MeetsAll(v, range[k])
  {
    RangeAccepts(v, range);
    RangeAccepts(v, range[..i]);
    var first :| 0 <= first < |range| && AllOf(v, range[first]) == Accepts && forall j | 0 <= j < first :: AllOf(v, range[j]) == Refuses;
    if k :| 0 <= k < i && MeetsAll(v, range[k]) {
      AlternativeMeans(v, range[k]);
      assert range[..i][first] == range[first];
    }
    if AnyOf(v, range[..i]) == Accepts {
      var k :| 0 <= k < i && AllOf(v, range[..i][k]) == Accepts;
      AlternativeMeans(v, range[k]);
    }
  }

  /**
   A further alternative only widens a range, except in one case: it keeps an accepted version accepted
   if and only if the version meets an earlier alternative, or does not meet an unsupported comparator of the new one.
   */
  lemma AlternativeWidens(v: Version, range: seq<seq<Comparator>>, i: nat, extra: seq<Comparator>)
    requires i <= |range| && AnyOf(v, range) == Accepts
    ensures AnyOf(v, range[..i] + [extra] + range[i..]) == Accepts <==>
              (exists k :: 0 <= k < i && MeetsAll(v, range[k])) || !MeetsUnsupported(v, extra)
  {
    AnyOfInsert(v, range, i, extra);
    if AnyOf(v, range[..i]) != Refuses { AnyOfPrefix(v, range, i); }
    PrefixAccepts(v, range, i);
    AlternativeMeans(v, extra);
  }

  /** An alternative of supported comparators, wherever it stands, only widens. */
  lemma SupportedWidens(v: Version, range: seq<seq<Comparator>>, i: nat, extra: seq<Comparator>)
    requires i <= |range| && AnyOf(v, range) == Accepts
    requires forall j | 0 <= j < |extra| :: !extra[j].Unsupported?
    ensures AnyOf(v, range[..i] + [extra] + range[i..]) == Accepts
  {
    AlternativeWidens(v, range, i, extra);
  }

  /** An unsupported alternative in front hides one that accepts. */
  lemma UnsupportedHides(v: Version)
    ensures AnyOf(v, [[Wild]]) == Accepts && AnyOf(v, [[Unsupported]] + [[Wild]]) == Throws
  {
    assert AllOf(v, [Wild]) == Accepts by { assert [Wild][1..] == []; }
    assert ([[Unsupported]] + [[Wild]])[0] == [Unsupported];
  }
}
