/** Versions as text: what parsing and printing undo, and what parsing ignores. */
module VersionText {
  import opened Common
  import opened Versions
  import opened VersionOrder

  /** The versions that have a text: numbers that fit, identifiers without the
      separators, and a pre-release part that is not just one empty identifier. */
  ghost predicate Printable(v: Version) {
    && v.major <= MAX_INT && v.minor <= MAX_INT && v.patch <= MAX_INT
    && v.prerelease != [""]
    && forall i :: 0 <= i < |v.prerelease| ==> '.' !in v.prerelease[i] && '+' !in v.prerelease[i]
  }

  lemma {:induction false} IndexOfAfter(front: string, c: char, back: string)
    requires c !in front
    ensures IndexOf(front + [c] + back, c) == |front|
  {
    if front != "" {
      assert (front + [c] + back)[1..] == front[1..] + [c] + back;
      IndexOfAfter(front[1..], c, back);
    }
  }

  lemma IndexOfAbsent(s: string, c: char)
    requires c !in s
    ensures IndexOf(s, c) == |s|
  {
  }

  lemma SplitAfter(front: string, c: char, back: string)
    requires c !in front
    ensures Split(front + [c] + back, c) == [front] + Split(back, c)
  {
    var s := front + [c] + back;
    IndexOfAfter(front, c, back);
    assert s[..|front|] == front && s[|front| + 1..] == back;
  }

  lemma {:induction false} SplitJoin(parts: seq<string>, c: char)
    requires parts != [] && forall i :: 0 <= i < |parts| ==> c !in parts[i]
    ensures Split(Join(parts, c), c) == parts
  {
    if |parts| == 1 {
      IndexOfAbsent(parts[0], c);
    } else {
      SplitJoin(parts[1..], c);
      SplitAfter(parts[0], c, Join(parts[1..], c));
    }
  }

  lemma {:induction false} JoinSplit(s: string, c: char)
    ensures Join(Split(s, c), c) == s
    decreases |s|
  {
    var i := IndexOf(s, c);
    if i == |s| {
      assert Split(s, c) == [s];
    } else {
      var front, back := s[..i], s[i + 1..];
      assert s == front + [c] + back;
      JoinSplit(back, c);
      JoinCons(front, Split(back, c), c);
      assert Split(s, c) == [front] + Split(back, c);
    }
  }

  lemma JoinCons(first: string, rest: seq<string>, c: char)
    requires rest != []
    ensures Join([first] + rest, c) == first + [c] + Join(rest, c)
  {
    assert ([first] + rest)[1..] == rest;
  }

  lemma {:induction false} JoinMembers(parts: seq<string>, c: char, x: char)
    requires x != c && forall i :: 0 <= i < |parts| ==> x !in parts[i]
    ensures x !in Join(parts, c)
  {
    if |parts| > 1 { JoinMembers(parts[1..], c, x); }
  }

  lemma {:induction false} SplitMembers(s: string, c: char, x: char)
    requires x !in s
    ensures forall i :: 0 <= i < |Split(s, c)| ==> x !in Split(s, c)[i]
    decreases |s|
  {
    var i := IndexOf(s, c);
    if i < |s| { SplitMembers(s[i + 1..], c, x); }
  }

  lemma DecimalHasNo(n: nat, x: char)
    requires !IsDigit(x)
    ensures x !in Decimal(n)
  {
  }

  function Core(v: Version): seq<string> {
    [Decimal(v.major), Decimal(v.minor), Decimal(v.patch)]
  }

  lemma CoreText(v: Version)
    ensures Split(Join(Core(v), '.'), '.') == Core(v)
    ensures '-' !in Join(Core(v), '.') && '+' !in Join(Core(v), '.')
    ensures Join(Core(v), '.') != "" && Join(Core(v), '.')[0] != 'v'
  {
    DecimalHasNo(v.major, '.'); DecimalHasNo(v.minor, '.'); DecimalHasNo(v.patch, '.');
    DecimalHasNo(v.major, '-'); DecimalHasNo(v.minor, '-'); DecimalHasNo(v.patch, '-');
    DecimalHasNo(v.major, '+'); DecimalHasNo(v.minor, '+'); DecimalHasNo(v.patch, '+');
    SplitJoin(Core(v), '.');
    JoinMembers(Core(v), '.', '-');
    JoinMembers(Core(v), '.', '+');
    assert IsDigit(Decimal(v.major)[0]);
  }

  lemma CoreNumbers(v: Version)
    requires v.major <= MAX_INT && v.minor <= MAX_INT && v.patch <= MAX_INT
    ensures ParseNumbers(Core(v)) == Some([v.major, v.minor, v.patch])
  {
    DigitsAreUnsigned(Decimal(v.major));
    DigitsAreUnsigned(Decimal(v.minor));
    DigitsAreUnsigned(Decimal(v.patch));
    NumbersCons(Decimal(v.patch), [], v.patch, []);
    NumbersCons(Decimal(v.minor), [Decimal(v.patch)] + [], v.minor, [v.patch] + []);
    NumbersCons(Decimal(v.major), [Decimal(v.minor)] + ([Decimal(v.patch)] + []),
                v.major, [v.minor] + ([v.patch] + []));
    assert Core(v) == [Decimal(v.major)] + ([Decimal(v.minor)] + ([Decimal(v.patch)] + []));
    assert [v.major] + ([v.minor] + ([v.patch] + [])) == [v.major, v.minor, v.patch];
  }

  lemma NumbersCons(first: string, rest: seq<string>, n: nat, more: seq<nat>)
    requires Atoi(first) == Some(n) && ParseNumbers(rest) == Some(more)
    ensures ParseNumbers([first] + rest) == Some([n] + more)
  {
    assert ([first] + rest)[1..] == rest;
  }

  lemma JoinEmpty(parts: seq<string>)
    requires parts != [] && parts != [""]
    ensures Join(parts, '.') != ""
  {
  }

  /** Printing, then parsing, gives the version back. */
  lemma ParsePrint(v: Version)
    requires Printable(v)
    ensures Parse(Print(v)) == Ok(v)
  {
    var core, text := Join(Core(v), '.'), Print(v);
    CoreText(v);
    CoreNumbers(v);
    if v.prerelease == [] {
      assert text == core;
      IndexOfAbsent(text, '+');
      IndexOfAbsent(text, '-');
      assert text[..|text|] == text;
    } else {
      var rest := Join(v.prerelease, '.');
      assert text == core + ['-'] + rest;
      JoinMembers(v.prerelease, '.', '+');
      IndexOfAbsent(text, '+');
      IndexOfAfter(core, '-', rest);
      assert text[..|text|] == text && text[..|core|] == core && text[|core| + 1..] == rest;
      SplitJoin(v.prerelease, '.');
      JoinEmpty(v.prerelease);
    }
  }

  lemma {:induction false} NumbersFit(core: seq<string>)
    ensures ParseNumbers(core).Some? ==>
              |ParseNumbers(core).value| == |core|
              && forall i :: 0 <= i < |core| ==> ParseNumbers(core).value[i] <= MAX_INT
  {
    if core != [] { NumbersFit(core[1..]); }
  }

  lemma ParsedIsPrintable(text: string)
    requires Parse(text).Ok?
    ensures Printable(Parse(text).value)
  {
    var value := Before(TrimV(text), '+');
    var dash := IndexOf(value, '-');
    NumbersFit(Split(value[..dash], '.'));
    if dash < |value| {
      var rest := value[dash + 1..];
      assert '+' !in rest;
      SplitMembers(rest, '.', '+');
      JoinSplit(rest, '.');
    }
  }

  /** The round trip holds for exactly the versions that parsing can produce. */
  lemma RoundTripIffPrintable(v: Version)
    ensures Parse(Print(v)) == Ok(v) <==> Printable(v)
  {
    if Printable(v) {
      ParsePrint(v);
    } else if Parse(Print(v)) == Ok(v) {
      ParsedIsPrintable(Print(v));
    }
  }

  /** Parsing is idempotent through text: the canonical text means the same. */
  lemma ParsedTextIsStable(text: string)
    requires Parse(text).Ok?
    ensures Parse(Print(Parse(text).value)) == Parse(text)
  {
    ParsedIsPrintable(text);
    ParsePrint(Parse(text).value);
  }

  lemma BeforeIgnoresRest(s: string, c: char, more: string)
    ensures Before(s + [c] + more, c) == Before(s, c)
  {
    var i, whole := IndexOf(s, c), s + [c] + more;
    if i == |s| {
      IndexOfAfter(s, c, more);
    } else {
      assert whole == s[..i] + [c] + whole[i + 1..];
      IndexOfAfter(s[..i], c, whole[i + 1..]);
    }
    assert whole[..i] == s[..i];
  }

  lemma FirstCharacter(text: string)
    requires Parse(text).Ok?
    ensures TrimV(text) == "" || TrimV(text)[0] != 'v'
  {
    var s := TrimV(text);
    if s != "" && s[0] == 'v' {
      var value := Before(s, '+');
      var head := value[..IndexOf(value, '-')];
      assert head != "" && head[0] == 'v';
      FirstPart(head);
    }
  }

  lemma FirstPart(s: string)
    requires s != "" && s[0] != '.'
    ensures Split(s, '.')[0] != "" && Split(s, '.')[0][0] == s[0]
  {
  }

  /** One leading `v`, and build metadata, do not change what is parsed; a
      second `v` never parses. */
  lemma PrefixAndBuildAreIgnored(text: string, build: string)
    ensures if text == "" || text[0] != 'v' then Parse("v" + text) == Parse(text) else Parse("v" + text).Err?
    ensures Parse(text + "+" + build) == Parse(text)
  {
    assert TrimV("v" + text) == text;
    assert TrimV(text + "+" + build) == TrimV(text) + ['+'] + build;
    BeforeIgnoresRest(TrimV(text), '+', build);
    SameValueSameResult(text + "+" + build, text);
    if text == "" || text[0] != 'v' {
      SameValueSameResult("v" + text, text);
    } else if Parse("v" + text).Ok? {
      FirstCharacter("v" + text);
    }
  }

  lemma SameValueSameResult(a: string, b: string)
    requires Before(TrimV(a), '+') == Before(TrimV(b), '+')
    ensures Parse(a) == Parse(b)
  {
  }

  /** CompareVersions orders a version text as Semantic Versioning does against
      every other well-behaved text, exactly when its own pre-release
      identifiers are well behaved: digit-only ones fit in an int, and none is
      a signed number. */
  lemma AgreesWithSemVerIffWellBehaved(text: string)
    requires Parse(text).Ok?
    ensures (forall other: string :: Parse(other).Ok? && AllWellBehaved(Parse(other).value.prerelease) ==>
               Agree(Parse(text).value, Parse(other).value))
            <==> AllWellBehaved(Parse(text).value.prerelease)
  {
    var v := Parse(text).value;
    if AllWellBehaved(v.prerelease) {
      forall other: string | Parse(other).Ok? && AllWellBehaved(Parse(other).value.prerelease)
        ensures Agree(v, Parse(other).value)
      {
        CompareAgrees(v, Parse(other).value);
        CompareAgrees(Parse(other).value, v);
      }
    } else {
      ParsedIsPrintable(text);
      var w := Disagreement(v);
      var k :| 0 <= k < |v.prerelease| && w == v.(prerelease := v.prerelease[..k] + ["-"]);
      assert w.prerelease[k] == "-";
      ParsePrint(w);
      assert Parse(Print(w)).Ok? && !Agree(v, Parse(Print(w)).value);
    }
  }
}
