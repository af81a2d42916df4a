/**
 * `Version` from Types/Package.swift: a semantic version whose comparison
 * and equality look only at (major, minor, patch).
 */
module Package {
  import opened Strings

  /**
   * The struct's stored fields. Swift's `Int` components are non-negative
   * for every value the initializer builds, so they are `nat` here.
   */
  datatype Version = Version(
    major: nat,
    minor: nat,
    patch: nat,
    prereleaseIdentifiers: seq<string>,
    buildMetadataIdentifiers: seq<string>)

  /** A version built by the initializer: it never keeps identifier lists. */
  predicate Constructed(v: Version) {
    v.prereleaseIdentifiers == [] && v.buildMetadataIdentifiers == []
  }

  /**
   * `Version.init(_:_:_:prereleaseIdentifiers:buildMetadataIdentifiers:)`:
   * traps unless every component is non-negative, and drops both
   * identifier lists it is given.
   */
  function Init(major: int, minor: int, patch: int,
                prerelease: seq<string>, buildMetadata: seq<string>): (v: Version)
    requires major >= 0 && minor >= 0 && patch >= 0
    ensures Constructed(v)
    ensures v.major == major && v.minor == minor && v.patch == patch
  {
    Version(major, minor, patch, [], [])
  }

  /** `==`: compares the numeric triple only. */
  predicate Equal(a: Version, b: Version) {
    a.major == b.major && a.minor == b.minor && a.patch == b.patch
  }

  /** `<`: decided at the first component that differs. */
  predicate Less(a: Version, b: Version) {
    if a.major != b.major then a.major < b.major
    else if a.minor != b.minor then a.minor < b.minor
    else if a.patch != b.patch then a.patch < b.patch
    else false
  }

  /** Lexicographic order on (major, minor, patch), written independently of `Less`. */
  predicate LexLess(a: Version, b: Version) {
    || a.major < b.major
    || (a.major == b.major && a.minor < b.minor)
    || (a.major == b.major && a.minor == b.minor && a.patch < b.patch)
  }

  lemma LessIsLexicographic(a: Version, b: Version)
    ensures Less(a, b) <==> LexLess(a, b)
  {
  }

  lemma EqualIsEquivalence(a: Version, b: Version, c: Version)
    ensures Equal(a, a)
    ensures Equal(a, b) ==> Equal(b, a)
    ensures Equal(a, b) && Equal(b, c) ==> Equal(a, c)
  {
  }

  /** Equality ignores the identifier lists. */
  lemma EqualIgnoresIdentifiers(a: Version, pre: seq<string>, build: seq<string>)
    ensures Equal(a, a.(prereleaseIdentifiers := pre, buildMetadataIdentifiers := build))
  {
  }

  /** `<` is a strict total order whose incomparable pairs are exactly the `==` pairs. */
  lemma LessIsStrictTotalOrder(a: Version, b: Version, c: Version)
    ensures !Less(a, a)
    ensures Less(a, b) && Less(b, c) ==> Less(a, c)
    ensures Less(a, b) ==> !Less(b, a)
    ensures (Less(a, b) && !Equal(a, b) && !Less(b, a))
         || (!Less(a, b) && Equal(a, b) && !Less(b, a))
         || (!Less(a, b) && !Equal(a, b) && Less(b, a))
  {
  }

  /** `<` respects `==` on either side. */
  lemma LessRespectsEqual(a: Version, a': Version, b: Version, b': Version)
    requires Equal(a, a') && Equal(b, b')
    ensures Less(a, b) <==> Less(a', b')
  {
  }

  /** `toString()`: "major.minor.patch", then "-" pre-release and "+" build metadata when present. */
  function ToString(v: Version): string {
    Decimal(v.major) + "." + Decimal(v.minor) + "." + Decimal(v.patch)
    + (if v.prereleaseIdentifiers != [] then "-" + Join(v.prereleaseIdentifiers, ".") else "")
    + (if v.buildMetadataIdentifiers != [] then "+" + Join(v.buildMetadataIdentifiers, ".") else "")
  }

  /** Three decimal numbers joined by two dots. */
  predicate IsTriple(s: string, x: nat, y: nat, z: nat) {
    s == Decimal(x) + "." + Decimal(y) + "." + Decimal(z)
  }

  /** A constructed version renders as exactly its three numbers and two dots. */
  lemma ToStringOfConstructed(v: Version)
    requires Constructed(v)
    ensures IsTriple(ToString(v), v.major, v.minor, v.patch)
    ensures forall c :: c in ToString(v) ==> IsDigit(c) || c == '.'
  {
  }

  /** A constructed version's rendering is non-empty and ends in a digit of its patch number. */
  lemma ToStringEndsInDigit(v: Version)
    requires Constructed(v)
    ensures |ToString(v)| > 0 && IsDigit(ToString(v)[|ToString(v)| - 1])
  {
    var s := ToString(v);
    var p := Decimal(v.patch);
    assert s == (Decimal(v.major) + "." + Decimal(v.minor) + ".") + p;
    assert s[|s| - 1] == p[|p| - 1] && p[|p| - 1] in p;
  }

  /** The rendering the readme test relies on. */
  lemma ToStringOneZeroZero()
    ensures ToString(Init(1, 0, 0, [], [])) == "1.0.0"
  {
  }

  /** In a digit string followed by a dot, the first dot is the one after the digits. */
  lemma FirstDot(x: string, r: string)
    requires forall c :: c in x ==> IsDigit(c)
    ensures (x + "." + r)[|x|] == '.'
    ensures forall i :: 0 <= i < |x| ==> (x + "." + r)[i] != '.'
  {
    forall i | 0 <= i < |x| ensures (x + "." + r)[i] != '.' {
      assert (x + "." + r)[i] == x[i] && x[i] in x;
    }
  }

  /** A digit string followed by a dot splits in only one way. */
  lemma {:induction false} SplitAtDot(x: string, r: string, y: string, s: string)
    requires forall c :: c in x ==> IsDigit(c)
    requires forall c :: c in y ==> IsDigit(c)
    requires x + "." + r == y + "." + s
    ensures x == y && r == s
  {
    var lhs, rhs := x + "." + r, y + "." + s;
    FirstDot(x, r);
    FirstDot(y, s);
    assert |x| == |y|;
    assert x == lhs[..|x|] && y == rhs[..|y|];
    assert r == lhs[|x| + 1..] && s == rhs[|y| + 1..];
  }

  /** A rendered triple determines its three numbers. */
  lemma {:induction false} TripleInjective(s: string, x: nat, y: nat, z: nat, x': nat, y': nat, z': nat)
    requires IsTriple(s, x, y, z) && IsTriple(s, x', y', z')
    ensures x == x' && y == y' && z == z'
  {
    var t, t' := Decimal(y) + "." + Decimal(z), Decimal(y') + "." + Decimal(z');
    assert s == Decimal(x) + "." + t == Decimal(x') + "." + t';
    SplitAtDot(Decimal(x), t, Decimal(x'), t');
    SplitAtDot(Decimal(y), Decimal(z), Decimal(y'), Decimal(z'));
    DecimalInjective(x, x');
    DecimalInjective(y, y');
    DecimalInjective(z, z');
  }

  /** On constructed versions, `==` holds exactly when the renderings coincide. */
  lemma {:induction false} EqualIffSameString(a: Version, b: Version)
    requires Constructed(a) && Constructed(b)
    ensures Equal(a, b) <==> ToString(a) == ToString(b)
  {
    ToStringOfConstructed(a);
    ToStringOfConstructed(b);
    if ToString(a) == ToString(b) {
      TripleInjective(ToString(a), a.major, a.minor, a.patch, b.major, b.minor, b.patch);
    }
  }
}
