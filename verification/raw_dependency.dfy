/**
 * `RawDependency`: an unresolved dependency of a source unit, compared and hashed on six
 * of its eight fields.  Java strings that may be null are `Option<string>`; Java's 32-bit
 * `int` arithmetic is written out as wrap-around.
 */
module RawDependencies {
  import opened Wrappers

  datatype RawDependency = RawDependency(
    groupID: Option<string>,
    artifactID: Option<string>,
    version: Option<string>,
    scope: Option<string>,
    file: Option<string>,
    classifier: Option<string>,
    typ: Option<string>,
    repoURI: Option<string>)

  /** The argument of `equals`: null, a `RawDependency`, or an object of another class. */
  datatype Object = Null | Dependency(dep: RawDependency) | OtherClass

  /** The five-argument constructor: classifier, type and repository URI stay null. */
  function New(groupID: Option<string>, artifactID: Option<string>, version: Option<string>,
               scope: Option<string>, file: Option<string>): (d: RawDependency)
    ensures d.groupID == groupID && d.artifactID == artifactID && d.version == version
    ensures d.scope == scope && d.file == file
    ensures d.classifier.None? && d.typ.None? && d.repoURI.None?
  {
    RawDependency(groupID, artifactID, version, scope, file, None, None, None)
  }

  // ---------------------------------------------------------------------------
  // equals
  // ---------------------------------------------------------------------------

  /** `StringUtils.equals`: two nulls are equal, null and a string are not, two strings compare by content. */
  function NullSafeEquals(a: Option<string>, b: Option<string>): (r: bool)
    ensures r <==> a == b
  {
    match (a, b)
    case (None, None) => true
    case (Some(x), Some(y)) => x == y
    case _ => false
  }

  /**
   * `equals`: false for null and for another class; otherwise the artifact ID, group ID,
   * scope, version, type and classifier compared in that order.  The identity shortcut
   * gives the same answer as the comparison, so it is not a separate case.
   */
  function Equals(d: RawDependency, o: Object): (r: bool)
    ensures o.Null? || o.OtherClass? ==> !r
    ensures o.Dependency? ==>
              (r <==> && d.groupID == o.dep.groupID && d.artifactID == o.dep.artifactID
                      && d.version == o.dep.version && d.scope == o.dep.scope
                      && d.typ == o.dep.typ && d.classifier == o.dep.classifier)
  {
    match o
    case Null => false
    case OtherClass => false
    case Dependency(that) =>
      if !NullSafeEquals(d.artifactID, that.artifactID) then false
      else if !NullSafeEquals(d.groupID, that.groupID) then false
      else if !NullSafeEquals(d.scope, that.scope) then false
      else if !NullSafeEquals(d.version, that.version) then false
      else if !NullSafeEquals(d.typ, that.typ) then false
      else if !NullSafeEquals(d.classifier, that.classifier) then false
      else true
  }

  lemma EqualsReflexive(d: RawDependency)
    ensures Equals(d, Dependency(d))
  {
  }

  lemma EqualsSymmetric(a: RawDependency, b: RawDependency)
    ensures Equals(a, Dependency(b)) == Equals(b, Dependency(a))
  {
  }

  lemma EqualsTransitive(a: RawDependency, b: RawDependency, c: RawDependency)
    requires Equals(a, Dependency(b)) && Equals(b, Dependency(c))
    ensures Equals(a, Dependency(c))
  {
  }

  /** The artifact file and the repository URI never affect equality. */
  lemma EqualsIgnoresFileAndRepo(a: RawDependency, b: RawDependency, file: Option<string>, repoURI: Option<string>)
    ensures Equals(a, Dependency(b.(file := file, repoURI := repoURI))) == Equals(a, Dependency(b))
    ensures Equals(a.(file := file, repoURI := repoURI), Dependency(b)) == Equals(a, Dependency(b))
  {
  }

  // ---------------------------------------------------------------------------
  // hashCode, with Java's 32-bit int arithmetic
  // ---------------------------------------------------------------------------

  const Modulus: int := 0x1_0000_0000

  /** Two integers that agree modulo 2^32. */
  predicate Congruent(a: int, b: int)
  {
    (a - b) % Modulus == 0
  }

  /** Java's wrap-around of an exact result into a 32-bit `int`. */
  function ToInt32(x: int): (r: int)
    ensures -0x8000_0000 <= r < 0x8000_0000
    ensures Congruent(r, x)
    ensures -0x8000_0000 <= x < 0x8000_0000 ==> r == x
  {
    var r := (x + 0x8000_0000) % Modulus - 0x8000_0000;
    assert x + 0x8000_0000 == Modulus * ((x + 0x8000_0000) / Modulus) + (x + 0x8000_0000) % Modulus;
    r
  }

  /** One step of a base-31 hash, `31 * h + x` in `int` arithmetic. */
  function HashStep(h: int, x: int): int
  {
    ToInt32(31 * h + x)
  }

  /** A multiple of 2^32 is congruent to 0. */
  lemma MultipleCongruent(k: int)
    ensures (Modulus * k) % Modulus == 0
  {
    var y := Modulus * k;
    assert y == Modulus * (y / Modulus) + y % Modulus;
    assert Modulus * (k - y / Modulus) == y % Modulus;
  }

  /** Congruent integers differ by a multiple of 2^32. */
  lemma CongruentMultiple(a: int, b: int) returns (k: int)
    requires Congruent(a, b)
    ensures a - b == Modulus * k
  {
    k := (a - b) / Modulus;
    assert a - b == Modulus * ((a - b) / Modulus) + (a - b) % Modulus;
  }

  /** Congruence survives a hash step. */
  lemma CongruentStep(a: int, b: int, x: int)
    requires Congruent(a, b)
    ensures Congruent(HashStep(a, x), 31 * b + x)
  {
    var k := CongruentMultiple(a, b);
    var h := HashStep(a, x);
    var j := CongruentMultiple(h, 31 * a + x);
    assert h - (31 * b + x) == Modulus * (j + 31 * k);
    MultipleCongruent(j + 31 * k);
  }

  function Pow31(k: nat): (r: int)
    ensures r > 0
  {
    if k == 0 then 1 else 31 * Pow31(k - 1)
  }

  /** The exact base-31 value of `digits`, most significant first: the sum of `digits[i] * 31^(n-1-i)`. */
  function Base31(digits: seq<int>): int
  {
    if digits == [] then 0 else digits[0] * Pow31(|digits| - 1) + Base31(digits[1..])
  }

  /** Appending a digit multiplies by 31 and adds it. */
  lemma {:induction false} Base31Snoc(digits: seq<int>, x: int)
    ensures Base31(digits + [x]) == 31 * Base31(digits) + x
  {
    if digits != [] {
      calc {
        Base31(digits + [x]);
        (digits + [x])[0] * Pow31(|digits|) + Base31((digits + [x])[1..]);
        { assert (digits + [x])[1..] == digits[1..] + [x]; }
        digits[0] * Pow31(|digits|) + Base31(digits[1..] + [x]);
        { Base31Snoc(digits[1..], x); }
        digits[0] * (31 * Pow31(|digits| - 1)) + 31 * Base31(digits[1..]) + x;
        31 * Base31(digits) + x;
      }
    } else {
      assert digits + [x] == [x];
    }
  }

  /** `h = 31 * h + x` over `digits`, from 0, in `int` arithmetic. */
  function Fold(digits: seq<int>): (r: int)
    ensures -0x8000_0000 <= r < 0x8000_0000
  {
    if digits == [] then 0 else HashStep(Fold(digits[..|digits| - 1]), digits[|digits| - 1])
  }

  /** The `int` fold is the exact base-31 value, modulo 2^32. */
  lemma {:induction false} FoldIsBase31(digits: seq<int>)
    ensures Congruent(Fold(digits), Base31(digits))
  {
    if digits == [] {
      MultipleCongruent(0);
    } else {
      var init := digits[..|digits| - 1];
      var last := digits[|digits| - 1];
      FoldIsBase31(init);
      CongruentStep(Fold(init), Base31(init), last);
      assert digits == init + [last];
      Base31Snoc(init, last);
    }
  }

  /** The UTF-16 code units of a string, taken here as the character codes. */
  function Codes(s: string): (r: seq<int>)
    ensures |r| == |s| && forall i :: 0 <= i < |s| ==> r[i] == s[i] as int
  {
    seq(|s|, i requires 0 <= i < |s| => s[i] as int)
  }

  /** `String.hashCode`: `h = 31 * h + c` over the characters. */
  function StringHash(s: string): int
  {
    Fold(Codes(s))
  }

  /** A field's contribution: 0 for null, else the string's hash. */
  function FieldHash(f: Option<string>): (r: int)
    ensures -0x8000_0000 <= r < 0x8000_0000
  {
    if f.Some? then StringHash(f.value) else 0
  }

  /** The six hashed fields in the order `hashCode` folds them. */
  function HashedFields(d: RawDependency): (r: seq<int>)
    ensures |r| == 6
  {
    [FieldHash(d.groupID), FieldHash(d.artifactID), FieldHash(d.version),
     FieldHash(d.scope), FieldHash(d.typ), FieldHash(d.classifier)]
  }

  /** `hashCode`, step by step as written; the result is a Java `int`. */
  function HashCode(d: RawDependency): (r: int)
    ensures -0x8000_0000 <= r < 0x8000_0000
  {
    var result := FieldHash(d.groupID);
    var result := HashStep(result, FieldHash(d.artifactID));
    var result := HashStep(result, FieldHash(d.version));
    var result := HashStep(result, FieldHash(d.scope));
    var result := HashStep(result, FieldHash(d.typ));
    HashStep(result, FieldHash(d.classifier))
  }

  /** Six straight-line hash steps from a first value in `int` range are the fold over the six values. */
  lemma FoldOfSix(f: seq<int>)
    requires |f| == 6 && -0x8000_0000 <= f[0] < 0x8000_0000
    ensures Fold(f) == HashStep(HashStep(HashStep(HashStep(HashStep(f[0], f[1]), f[2]), f[3]), f[4]), f[5])
  {
    assert Fold(f[..1]) == f[0] by { assert f[..1][..0] == []; }
    assert Fold(f[..2]) == HashStep(f[0], f[1]) by { assert f[..2][..1] == f[..1]; }
    assert Fold(f[..3]) == HashStep(Fold(f[..2]), f[2]) by { assert f[..3][..2] == f[..2]; }
    assert Fold(f[..4]) == HashStep(Fold(f[..3]), f[3]) by { assert f[..4][..3] == f[..3]; }
    assert Fold(f[..5]) == HashStep(Fold(f[..4]), f[4]) by { assert f[..5][..4] == f[..4]; }
    assert Fold(f) == HashStep(Fold(f[..5]), f[5]) by { assert f[..5] == f[..|f| - 1]; }
  }

  /** The straight-line `hashCode` is the fold over the six field hashes. */
  lemma HashCodeIsFold(d: RawDependency)
    ensures HashCode(d) == Fold(HashedFields(d))
  {
    FoldOfSix(HashedFields(d));
  }

  /** `hashCode` is the base-31 value of the six field hashes, null counting 0, modulo 2^32. */
  lemma HashCodeIsBase31(d: RawDependency)
    ensures Congruent(HashCode(d), Base31(HashedFields(d)))
  {
    HashCodeIsFold(d);
    FoldIsBase31(HashedFields(d));
  }

  /** Equal dependencies have equal hash codes. */
  lemma HashConsistentWithEquals(a: RawDependency, b: RawDependency)
    requires Equals(a, Dependency(b))
    ensures HashCode(a) == HashCode(b)
  {
  }

  // ---------------------------------------------------------------------------
  // toString
  // ---------------------------------------------------------------------------

  function Quoted(name: string, s: Option<string>): string
  {
    name + "='" + JavaText(s) + "'"
  }

  /** `toString`: the six compared fields, quoted, in `RawDependency{...}`. */
  function ToString(d: RawDependency): (r: string)
    ensures |r| > 0 && r[|r| - 1] == '}'
  {
    "RawDependency{" + Quoted("groupID", d.groupID) + ", " + Quoted("artifactID", d.artifactID)
      + ", " + Quoted("version", d.version) + ", " + Quoted("scope", d.scope)
      + ", " + Quoted("type", d.typ) + ", " + Quoted("classifier", d.classifier) + "}"
  }

  /** Equal dependencies print the same. */
  lemma ToStringConsistentWithEquals(a: RawDependency, b: RawDependency)
    requires Equals(a, Dependency(b))
    ensures ToString(a) == ToString(b)
  {
  }
}
