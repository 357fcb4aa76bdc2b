/** Version comparison is a total preorder, and where it is the precedence of
    section 11 of Semantic Versioning 2.0.0. */
module VersionOrder {
  import opened Common
  import opened Versions

  // ----------------------------------------------------------- total preorder

  predicate AtMost(order: int) {
    order <= 0
  }

  lemma IdsAntisymmetric(x: string, y: string)
    ensures CompareIds(x, y) == -CompareIds(y, x)
  {
    if Less(x, y) && Less(y, x) {
      LessTransitive(x, y, x);
      LessIrreflexive(x);
    }
  }

  lemma IdsTransitive(x: string, y: string, z: string)
    requires AtMost(CompareIds(x, y)) && AtMost(CompareIds(y, z))
    ensures AtMost(CompareIds(x, z))
    ensures CompareIds(x, z) == 0 ==> CompareIds(x, y) == 0 && CompareIds(y, z) == 0
  {
    if Atoi(x).None? && Atoi(y).None? && Atoi(z).None? {
      LessTotal(x, y);
      LessTotal(y, z);
      LessIrreflexive(x);
      if Less(x, y) && Less(y, z) { LessTransitive(x, y, z); }
      if Less(x, z) && Less(z, x) { LessTransitive(x, z, x); }
    }
  }

  lemma {:induction false} ListsAntisymmetric(a: seq<string>, b: seq<string>)
    ensures CompareLists(a, b) == -CompareLists(b, a)
  {
    if a != [] && b != [] {
      IdsAntisymmetric(a[0], b[0]);
      ListsAntisymmetric(a[1..], b[1..]);
    }
  }

  lemma {:induction false} ListsTransitive(a: seq<string>, b: seq<string>, c: seq<string>)
    requires AtMost(CompareLists(a, b)) && AtMost(CompareLists(b, c))
    ensures AtMost(CompareLists(a, c))
    ensures CompareLists(a, c) == 0 ==> CompareLists(a, b) == 0 && CompareLists(b, c) == 0
  {
    if a != [] && b != [] && c != [] {
      IdsTransitive(a[0], b[0], c[0]);
      if CompareIds(a[0], b[0]) == 0 && CompareIds(b[0], c[0]) == 0 {
        IdsAntisymmetric(a[0], b[0]);
        IdsAntisymmetric(b[0], c[0]);
        IdsTransitive(c[0], b[0], a[0]);
        IdsAntisymmetric(a[0], c[0]);
        ListsTransitive(a[1..], b[1..], c[1..]);
      }
    }
  }

  lemma NumbersTransitive(a: Version, b: Version, c: Version)
    requires AtMost(CompareNumbers(a, b)) && AtMost(CompareNumbers(b, c))
    ensures AtMost(CompareNumbers(a, c))
    ensures CompareNumbers(a, c) == 0 <==> CompareNumbers(a, b) == 0 && CompareNumbers(b, c) == 0
  {
  }

  /** Reflexive, sign-antisymmetric and transitive, on all parsed versions. */
  lemma CompareIsTotalPreorder(a: Version, b: Version, c: Version)
    ensures Compare(a, a) == 0
    ensures Compare(a, b) == -Compare(b, a)
    ensures AtMost(Compare(a, b)) && AtMost(Compare(b, c)) ==> AtMost(Compare(a, c))
    ensures Compare(a, b) > 0 && Compare(b, c) > 0 ==> Compare(a, c) > 0
  {
    ListsAntisymmetric(a.prerelease, a.prerelease);
    ListsAntisymmetric(a.prerelease, b.prerelease);
    if AtMost(Compare(a, b)) && AtMost(Compare(b, c)) { CompareTransitive(a, b, c); }
    if Compare(a, b) > 0 && Compare(b, c) > 0 {
      ListsAntisymmetric(b.prerelease, c.prerelease);
      ListsAntisymmetric(a.prerelease, c.prerelease);
      CompareTransitive(c, b, a);
    }
  }

  lemma CompareTransitive(a: Version, b: Version, c: Version)
    requires AtMost(Compare(a, b)) && AtMost(Compare(b, c))
    ensures AtMost(Compare(a, c))
    ensures Compare(a, c) == 0 ==> Compare(a, b) == 0 && Compare(b, c) == 0
  {
    NumbersTransitive(a, b, c);
    if CompareNumbers(a, c) == 0 && AtMost(CompareLists(a.prerelease, b.prerelease))
       && AtMost(CompareLists(b.prerelease, c.prerelease)) {
      ListsTransitive(a.prerelease, b.prerelease, c.prerelease);
    }
  }

  // ------------------------------------------- section 11 of SemVer 2.0.0

  /** Identifiers of only digits are compared numerically and are lower than
      the others, which are compared in ASCII order (sections 11.4.1 to 11.4.3). */
  predicate IdLower(x: string, y: string) {
    if AllDigits(x) && AllDigits(y) then Value(x) < Value(y)
    else if AllDigits(x) then true
    else if AllDigits(y) then false
    else Less(x, y)
  }

  predicate IdSame(x: string, y: string) {
    !IdLower(x, y) && !IdLower(y, x)
  }

  /** The lists agree before `k`, and there the first one ends or is lower (section 11.4.4). */
  ghost predicate LowerAt(p: seq<string>, q: seq<string>, k: int) {
    && 0 <= k <= |p| && k <= |q|
    && (forall i :: 0 <= i < k ==> IdSame(p[i], q[i]))
    && if k == |p| then k < |q| else k < |q| && IdLower(p[k], q[k])
  }

  ghost predicate ListLower(p: seq<string>, q: seq<string>) {
    exists k :: LowerAt(p, q, k)
  }

  /** Precedence: by number, then a pre-release before its release (section
      11.3), then by identifiers. */
  ghost predicate Precedes(a: Version, b: Version) {
    || a.major < b.major
    || (a.major == b.major && a.minor < b.minor)
    || (a.major == b.major && a.minor == b.minor && a.patch < b.patch)
    || (a.major == b.major && a.minor == b.minor && a.patch == b.patch
        && if a.prerelease == [] then false else b.prerelease == [] || ListLower(a.prerelease, b.prerelease))
  }

  /** Go reads the identifier as a number exactly when SemVer does: it is not a
      run of digits beyond an int, nor a sign followed by digits. */
  predicate WellBehaved(x: string) {
    Atoi(x).Some? <==> AllDigits(x)
  }

  predicate AllWellBehaved(ids: seq<string>) {
    forall i :: 0 <= i < |ids| ==> WellBehaved(ids[i])
  }

  lemma DigitsAreUnsigned(x: string)
    requires AllDigits(x)
    ensures Atoi(x) == if Value(x) <= MAX_INT then Some(Value(x)) else None
  {
    assert IsDigit(x[0]);
  }

  lemma IdsAgree(x: string, y: string)
    requires WellBehaved(x) && WellBehaved(y)
    ensures CompareIds(x, y) < 0 <==> IdLower(x, y)
    ensures CompareIds(x, y) > 0 <==> IdLower(y, x)
  {
    if AllDigits(x) { DigitsAreUnsigned(x); }
    if AllDigits(y) { DigitsAreUnsigned(y); }
    if Less(x, y) && Less(y, x) {
      LessTransitive(x, y, x);
      LessIrreflexive(x);
    }
  }

  lemma LowerTail(p: seq<string>, q: seq<string>)
    requires p != [] && q != []
    ensures ListLower(p, q) <==> IdLower(p[0], q[0]) || (IdSame(p[0], q[0]) && ListLower(p[1..], q[1..]))
  {
    if ListLower(p, q) {
      var k :| LowerAt(p, q, k);
      if k > 0 {
        assert IdSame(p[0], q[0]);
        forall i | 0 <= i < k - 1 ensures IdSame(p[1..][i], q[1..][i]) {
          assert IdSame(p[i + 1], q[i + 1]);
        }
        assert LowerAt(p[1..], q[1..], k - 1);
      }
    }
    if IdLower(p[0], q[0]) { assert LowerAt(p, q, 0); }
    if IdSame(p[0], q[0]) && ListLower(p[1..], q[1..]) {
      var k :| LowerAt(p[1..], q[1..], k);
      forall i | 0 <= i < k + 1 ensures IdSame(p[i], q[i]) {
        if i > 0 { assert IdSame(p[1..][i - 1], q[1..][i - 1]); }
      }
      if k < |p| - 1 { assert p[1..][k] == p[k + 1] && q[1..][k] == q[k + 1]; }
      assert LowerAt(p, q, k + 1);
    }
  }

  lemma {:induction false} ListsAgree(p: seq<string>, q: seq<string>)
    requires AllWellBehaved(p) && AllWellBehaved(q)
    ensures CompareLists(p, q) < 0 <==> ListLower(p, q)
  {
    if p == [] && q != [] {
      assert LowerAt(p, q, 0);
    } else if p != [] && q != [] {
      IdsAgree(p[0], q[0]);
      LowerTail(p, q);
      ListsAgree(p[1..], q[1..]);
    }
  }

  lemma CompareAgrees(a: Version, b: Version)
    requires AllWellBehaved(a.prerelease) && AllWellBehaved(b.prerelease)
    ensures Compare(a, b) < 0 <==> Precedes(a, b)
  {
    ListsAgree(a.prerelease, b.prerelease);
  }

  /** Both orders put `a` and `b` the same way round. */
  ghost predicate Agree(a: Version, b: Version) {
    && (Compare(a, b) < 0 <==> Precedes(a, b))
    && (Compare(b, a) < 0 <==> Precedes(b, a))
  }

  // ------------------------------------------------- where they come apart

  /** Every identifier that Go misreads is on the wrong side of "-": it holds
      no plus sign, since build metadata is cut off before. */
  lemma MisreadId(x: string)
    requires !WellBehaved(x) && '+' !in x
    ensures WellBehaved("-") && CompareIds(x, "-") != 0 && !IdSame(x, "-")
    ensures CompareIds(x, "-") < 0 <==> IdLower("-", x)
  {
    assert Atoi("-").None? && !AllDigits("-") by { assert !IsDigit("-"[0]); }
    if AllDigits(x) {
      DigitsAreUnsigned(x);
      assert IsDigit(x[0]);
    } else {
      assert x[0] == '-' && x[1..] != "";
      assert Less("-"[1..], x[1..]);
    }
    if Less("-", x) && Less(x, "-") {
      LessTransitive(x, "-", x);
      LessIrreflexive(x);
    }
  }

  lemma FirstMisread(ids: seq<string>) returns (k: nat)
    requires !AllWellBehaved(ids)
    ensures k < |ids| && !WellBehaved(ids[k]) && AllWellBehaved(ids[..k])
  {
    if !WellBehaved(ids[0]) {
      k := 0;
    } else {
      assert !AllWellBehaved(ids[1..]) by {
        var i :| 0 <= i < |ids| && !WellBehaved(ids[i]);
        assert !WellBehaved(ids[1..][i - 1]);
      }
      k := FirstMisread(ids[1..]);
      assert ids[..k + 1] == [ids[0]] + ids[1..][..k];
      k := k + 1;
    }
  }

  /** A version with a misread identifier is put on the wrong side of another. */
  lemma Disagreement(v: Version) returns (w: Version)
    requires !AllWellBehaved(v.prerelease) && forall i :: 0 <= i < |v.prerelease| ==> '+' !in v.prerelease[i]
    ensures AllWellBehaved(w.prerelease) && !Agree(v, w)
    ensures exists k :: 0 <= k < |v.prerelease| && w == v.(prerelease := v.prerelease[..k] + ["-"])
  {
    var k := FirstMisread(v.prerelease);
    var ids, x := v.prerelease[..k], v.prerelease[k];
    w := v.(prerelease := ids + ["-"]);
    MisreadId(x);
    SamePrefix(v.prerelease, ids, x, "-");
    SamePrefixLower(v.prerelease, ids, x, "-");
    IdsAntisymmetric(x, "-");
  }

  /** What follows the first difference does not matter. */
  lemma {:induction false} SamePrefix(p: seq<string>, ids: seq<string>, x: string, y: string)
    requires |ids| < |p| && p[..|ids|] == ids && p[|ids|] == x && AllWellBehaved(ids) && CompareIds(x, y) != 0
    ensures CompareLists(p, ids + [y]) == CompareIds(x, y) && CompareLists(ids + [y], p) == CompareIds(y, x)
  {
    var q := ids + [y];
    IdsAntisymmetric(x, y);
    if ids != [] {
      assert q[1..] == ids[1..] + [y] && p[1..][..|ids| - 1] == ids[1..];
      assert p[0] == ids[0];
      IdsAntisymmetric(ids[0], ids[0]);
      SamePrefix(p[1..], ids[1..], x, y);
    }
  }

  lemma {:induction false} SamePrefixLower(p: seq<string>, ids: seq<string>, x: string, y: string)
    requires |ids| < |p| && p[..|ids|] == ids && p[|ids|] == x && !IdSame(x, y)
    ensures ListLower(p, ids + [y]) <==> IdLower(x, y)
    ensures ListLower(ids + [y], p) <==> IdLower(y, x)
  {
    var q := ids + [y];
    LowerTail(p, q);
    LowerTail(q, p);
    if ids != [] {
      assert q[1..] == ids[1..] + [y] && p[1..][..|ids| - 1] == ids[1..];
      assert p[0] == ids[0];
      LessIrreflexive(ids[0]);
      SamePrefixLower(p[1..], ids[1..], x, y);
    }
  }
}
