/** Exactly which texts parse as versions, and as which. */
module VersionGrammar {
  import opened Common
  import opened Versions
  import opened VersionOrder
  import opened VersionText

  /** Digits that stand for this number, which fits in an int of 64 bits. */
  ghost predicate IsNumber(s: string, n: int) {
    AllDigits(s) && Value(s) == n <= 9_223_372_036_854_775_807
  }

  /** A sign or nothing, and digits; the number they stand for fits in 64 bits. */
  ghost predicate IsSigned(s: string, sign: string, digits: string, n: int) {
    && s == sign + digits && (sign == "" || sign == "+" || sign == "-") && AllDigits(digits)
    && n == (if sign == "-" then 0 - Value(digits) else Value(digits))
    && -9_223_372_036_854_775_808 <= n <= 9_223_372_036_854_775_807
  }

  /** Exactly which identifiers the comparison takes for numbers, and for which. */
  lemma AtoiMeans(s: string, n: int)
    ensures Atoi(s) == Some(n) <==> exists sign, digits :: IsSigned(s, sign, digits, n)
  {
    var signed := s != "" && (s[0] == '-' || s[0] == '+');
    var sign, digits := if signed then [s[0]] else "", if signed then s[1..] else s;
    assert s == sign + digits;
    if Atoi(s) == Some(n) { assert IsSigned(s, sign, digits, n); }
    forall sign, digits | IsSigned(s, sign, digits, n) ensures Atoi(s) == Some(n) {
      SignedIsRead(s, sign, digits, n);
    }
  }

  lemma SignedIsRead(s: string, sign: string, digits: string, n: int)
    requires IsSigned(s, sign, digits, n)
    ensures Atoi(s) == Some(n)
  {
    if sign == "" {
      assert s == digits;
      DigitsAreUnsigned(s);
    } else {
      assert s[0] == sign[0] && s[1..] == digits;
    }
  }

  function Dotted(core: seq<string>): string
    requires |core| == 3
  {
    core[0] + "." + (core[1] + "." + core[2])
  }

  /** The pieces of a text for version `v`: a `v` or nothing, three numbers, a `-` and
      the pre-release identifiers when there are any, and a `+` with anything or nothing. */
  ghost predicate Spells(lead: string, core: seq<string>, tail: string, build: string, v: Version) {
    && (lead == "" || lead == "v")
    && |core| == 3
    && IsNumber(core[0], v.major) && IsNumber(core[1], v.minor) && IsNumber(core[2], v.patch)
    && (v.prerelease == [] ==> tail == "")
    && (v.prerelease != [] ==>
          && tail == "-" + Join(v.prerelease, '.') && tail != "-"
          && forall i :: 0 <= i < |v.prerelease| ==> '.' !in v.prerelease[i] && '+' !in v.prerelease[i])
    && (build == "" || build[0] == '+')
  }

  lemma DottedIsJoin(core: seq<string>)
    requires |core| == 3
    ensures Join(core, '.') == Dotted(core)
  {
    assert core == [core[0]] + ([core[1]] + [core[2]]);
    JoinCons(core[1], [core[2]], '.');
    JoinCons(core[0], [core[1]] + [core[2]], '.');
  }

  lemma NumberHasNo(s: string, n: int, x: char)
    requires IsNumber(s, n) && !IsDigit(x)
    ensures x !in s
  {
  }

  lemma NumberIsRead(s: string, n: nat)
    requires IsNumber(s, n)
    ensures Atoi(s) == Some(n)
  {
    DigitsAreUnsigned(s);
  }

  lemma CoreIsRead(core: seq<string>, a: nat, b: nat, c: nat)
    requires |core| == 3 && IsNumber(core[0], a) && IsNumber(core[1], b) && IsNumber(core[2], c)
    ensures ParseNumbers(core) == Some([a, b, c])
    ensures Split(Dotted(core), '.') == core
    ensures '-' !in Dotted(core) && '+' !in Dotted(core)
    ensures Dotted(core) != "" && Dotted(core)[0] != 'v'
  {
    NumberIsRead(core[0], a);
    NumberIsRead(core[1], b);
    NumberIsRead(core[2], c);
    NumbersCons(core[2], [], c, []);
    NumbersCons(core[1], [core[2]] + [], b, [c] + []);
    NumbersCons(core[0], [core[1]] + ([core[2]] + []), a, [b] + ([c] + []));
    assert core == [core[0]] + ([core[1]] + ([core[2]] + []));
    assert [a] + ([b] + ([c] + [])) == [a, b, c];
    DottedIsJoin(core);
    CoreHasNo(core, a, b, c, '.');
    SplitJoin(core, '.');
    CoreHasNo(core, a, b, c, '-');
    JoinMembers(core, '.', '-');
    CoreHasNo(core, a, b, c, '+');
    JoinMembers(core, '.', '+');
    assert IsDigit(core[0][0]);
  }

  lemma CoreHasNo(core: seq<string>, a: nat, b: nat, c: nat, x: char)
    requires |core| == 3 && IsNumber(core[0], a) && IsNumber(core[1], b) && IsNumber(core[2], c) && !IsDigit(x)
    ensures forall i :: 0 <= i < |core| ==> x !in core[i]
  {
    NumberHasNo(core[0], a, x);
    NumberHasNo(core[1], b, x);
    NumberHasNo(core[2], c, x);
  }

  lemma ParseByParts(value: string, front: string, numbers: seq<nat>)
    requires IndexOf(value, '-') == |front| && value[..|front|] == front
    requires |Split(front, '.')| == 3 && ParseNumbers(Split(front, '.')) == Some(numbers) && |numbers| == 3
    ensures ParseValue(value)
            == if |front| == |value| then Ok(Version(numbers[0], numbers[1], numbers[2], []))
               else if value[|front| + 1..] == "" then Err(InvalidVersion)
               else Ok(Version(numbers[0], numbers[1], numbers[2], Split(value[|front| + 1..], '.')))
  {
  }

  lemma WholeIsValue(text: string)
    requires '+' !in text && (text == "" || text[0] != 'v')
    ensures Before(TrimV(text), '+') == text
  {
    IndexOfAbsent(text, '+');
    assert text[..|text|] == text;
  }

  lemma PlainSpelledParses(core: seq<string>, tail: string, v: Version)
    requires Spells("", core, tail, "", v)
    ensures Parse(Dotted(core) + tail) == Ok(v)
    ensures Dotted(core) != "" && Dotted(core)[0] != 'v'
  {
    var front, text := Dotted(core), Dotted(core) + tail;
    CoreIsRead(core, v.major, v.minor, v.patch);
    TailIsFound(front, tail, v.prerelease);
    assert text[0] == front[0];
    WholeIsValue(text);
    ParseByParts(text, front, [v.major, v.minor, v.patch]);
  }

  lemma TailIsFound(front: string, tail: string, ids: seq<string>)
    requires '-' !in front && '+' !in front
    requires ids == [] ==> tail == ""
    requires ids != [] ==> tail == "-" + Join(ids, '.')
                           && forall i :: 0 <= i < |ids| ==> '.' !in ids[i] && '+' !in ids[i]
    ensures var text := front + tail;
            && IndexOf(text, '-') == |front| && text[..|front|] == front && '+' !in text
            && (ids == [] ==> |text| == |front|)
            && (ids != [] ==> |text| > |front| && text[|front| + 1..] == tail[1..] && Split(tail[1..], '.') == ids)
  {
    if ids == [] {
      assert front + tail == front;
      IndexOfAbsent(front, '-');
    } else {
      var rest := Join(ids, '.');
      assert front + tail == front + ['-'] + rest && tail[1..] == rest;
      IndexOfAfter(front, '-', rest);
      JoinMembers(ids, '.', '+');
      SplitJoin(ids, '.');
    }
  }

  lemma SpelledParses(lead: string, core: seq<string>, tail: string, build: string, v: Version)
    requires Spells(lead, core, tail, build, v)
    ensures Parse(lead + (Dotted(core) + tail) + build) == Ok(v)
  {
    var plain := Dotted(core) + tail;
    PlainSpelledParses(core, tail, v);
    assert plain[0] == Dotted(core)[0];
    PrefixAndBuildAreIgnored(plain, "");
    assert lead == "" ==> lead + plain == plain;
    BuildIsIgnored(lead + plain, build);
  }

  lemma BuildIsIgnored(text: string, build: string)
    requires build == "" || build[0] == '+'
    ensures Parse(text + build) == Parse(text)
  {
    BuildText(text, build);
    if build != "" { PrefixAndBuildAreIgnored(text, build[1..]); }
  }

  lemma BuildText(text: string, build: string)
    requires build == "" || build[0] == '+'
    ensures text + build == if build == "" then text else text + "+" + build[1..]
  {
  }

  lemma {:induction false} NumbersAre(core: seq<string>)
    requires ParseNumbers(core).Some? && forall i :: 0 <= i < |core| ==> '-' !in core[i] && '+' !in core[i]
    ensures |ParseNumbers(core).value| == |core|
    ensures forall i :: 0 <= i < |core| ==> IsNumber(core[i], ParseNumbers(core).value[i])
  {
    if core != [] {
      UnsignedIsNumber(core[0]);
      NumbersAre(core[1..]);
    }
  }

  lemma UnsignedIsNumber(s: string)
    requires Atoi(s).Some? && '-' !in s && '+' !in s
    ensures IsNumber(s, Atoi(s).value)
  {
    assert s != "" ==> s[0] in s;
  }

  lemma PartsHaveNo(s: string, x: char)
    requires x !in s
    ensures forall i :: 0 <= i < |Split(s, '.')| ==> x !in Split(s, '.')[i]
  {
    SplitMembers(s, '.', x);
  }

  /** A text that parses is made of such pieces. */
  lemma ParsedSpells(text: string) returns (lead: string, core: seq<string>, tail: string, build: string)
    requires Parse(text).Ok?
    ensures SpelledBy(text, lead, core, tail, build, Parse(text).value)
  {
    var value := Before(TrimV(text), '+');
    var dash := IndexOf(value, '-');
    lead, build := if text == TrimV(text) then "" else "v", TrimV(text)[|value|..];
    core, tail := Split(value[..dash], '.'), value[dash..];
    CoreSpells(value, dash);
    PiecesMakeText(text, dash);
    if dash < |value| { TailIs(value, dash); }
  }

  lemma PiecesMakeText(text: string, dash: nat)
    requires dash <= |Before(TrimV(text), '+')|
    ensures var value := Before(TrimV(text), '+');
            var lead, build := if text == TrimV(text) then "" else "v", TrimV(text)[|value|..];
            && text == lead + (value[..dash] + value[dash..]) + build
            && (build == "" || build[0] == '+')
  {
    var s := TrimV(text);
    var value := Before(s, '+');
    assert s == value + s[|value|..] && value == value[..dash] + value[dash..];
  }

  lemma CoreSpells(value: string, dash: nat)
    requires dash <= |value| && '+' !in value && '-' !in value[..dash]
    ensures var core := Split(value[..dash], '.');
            |core| == 3 ==>
              && Dotted(core) == value[..dash] && (forall i :: 0 <= i < 3 ==> IsPlainPart(core[i]))
              && (ParseNumbers(core).Some? ==>
                    |ParseNumbers(core).value| == 3
                    && forall i :: 0 <= i < 3 ==> IsNumber(core[i], ParseNumbers(core).value[i]))
  {
    var head := value[..dash];
    var core := Split(head, '.');
    PartsHaveNo(head, '+');
    PartsHaveNo(head, '-');
    JoinSplit(head, '.');
    if |core| == 3 { DottedIsJoin(core); }
    if ParseNumbers(core).Some? { NumbersAre(core); }
  }

  lemma TailIs(value: string, dash: nat)
    requires dash < |value| && value[dash] == '-' && '+' !in value && value[dash + 1..] != ""
    ensures var ids := Split(value[dash + 1..], '.');
            && value[dash..] == "-" + Join(ids, '.') && value[dash..] != "-"
            && forall i :: 0 <= i < |ids| ==> '.' !in ids[i] && '+' !in ids[i]
  {
    var rest := value[dash + 1..];
    JoinSplit(rest, '.');
    assert '+' !in rest;
    PartsHaveNo(rest, '+');
    assert value[dash..] == ['-'] + rest;
  }

  ghost predicate Spelled(text: string, v: Version) {
    exists lead, core, tail, build :: SpelledBy(text, lead, core, tail, build, v)
  }

  ghost predicate SpelledBy(text: string, lead: string, core: seq<string>, tail: string, build: string, v: Version) {
    Spells(lead, core, tail, build, v) && text == lead + (Dotted(core) + tail) + build
  }

  /** A text parses as a version if and only if it is made of the pieces of that version. */
  lemma ParsesIffSpelled(text: string, v: Version)
    ensures Parse(text) == Ok(v) <==> Spelled(text, v)
  {
    if Parse(text) == Ok(v) {
      var lead, core, tail, build := ParsedSpells(text);
      assert SpelledBy(text, lead, core, tail, build, v);
    }
    if Spelled(text, v) {
      var lead, core, tail, build :| SpelledBy(text, lead, core, tail, build, v);
      SpelledParses(lead, core, tail, build, v);
    }
  }

  // -------------------------------------------------------------------- the errors

  ghost predicate IsPlainPart(s: string) {
    '.' !in s && '-' !in s && '+' !in s
  }

  /** Three parts between dots, up to the first `-` or `+`. */
  ghost predicate HasThreeParts(text: string, core: seq<string>, rest: string) {
    && |core| == 3 && (forall i :: 0 <= i < 3 ==> IsPlainPart(core[i]))
    && (rest == "" || rest[0] == '-' || rest[0] == '+')
    && text == Dotted(core) + rest
  }

  lemma HeadOf(core: seq<string>, rest: string)
    requires |core| == 3 && HasThreeParts(Dotted(core) + rest, core, rest)
    ensures var value := Before(Dotted(core) + rest, '+'); Split(value[..IndexOf(value, '-')], '.') == core
  {
    var front, text := Dotted(core), Dotted(core) + rest;
    DottedIsJoin(core);
    SplitJoin(core, '.');
    JoinMembers(core, '.', '-');
    JoinMembers(core, '.', '+');
    if rest != "" && rest[0] == '+' {
      assert text == front + ['+'] + rest[1..];
      IndexOfAfter(front, '+', rest[1..]);
      assert text[..|front|] == front;
      IndexOfAbsent(front, '-');
      assert front[..|front|] == front;
    } else {
      HeadBeforeDash(front, rest);
    }
  }

  lemma HeadBeforeDash(front: string, rest: string)
    requires '-' !in front && '+' !in front && (rest == "" || rest[0] == '-')
    ensures var value := Before(front + rest, '+'); value[..IndexOf(value, '-')] == front
  {
    var text := front + rest;
    var plus := IndexOf(text, '+');
    var value := text[..plus];
    assert forall i :: 0 <= i < |front| ==> text[i] == front[i] && front[i] in front;
    if plus > |front| {
      assert value == front + ['-'] + value[|front| + 1..];
      IndexOfAfter(front, '-', value[|front| + 1..]);
    } else {
      assert value == front;
      IndexOfAbsent(front, '-');
    }
  }

  /** Parsing reports that a text is no semantic version exactly when what is between
      an optional `v` and the first `-` or `+` is not three parts; with three parts
      that do not all spell numbers, or with an empty pre-release part, it is invalid. */
  lemma NotSemanticIff(text: string)
    ensures Parse(text) == Err(NotSemantic)
            <==> !exists core, rest :: HasThreeParts(TrimV(text), core, rest)
  {
    var s := TrimV(text);
    var value := Before(s, '+');
    var dash := IndexOf(value, '-');
    var parts := Split(value[..dash], '.');
    if |parts| == 3 {
      CoreSpells(value, dash);
      ThreePartsOf(s, parts, value, dash);
    }
    if exists core, rest :: HasThreeParts(s, core, rest) {
      var core, rest :| HasThreeParts(s, core, rest);
      HeadOf(core, rest);
    }
  }

  lemma ThreePartsOf(s: string, parts: seq<string>, value: string, dash: nat)
    requires value == Before(s, '+') && dash == IndexOf(value, '-')
    requires |parts| == 3 && Dotted(parts) == value[..dash] && forall i :: 0 <= i < 3 ==> IsPlainPart(parts[i])
    ensures HasThreeParts(s, parts, s[dash..])
  {
    var rest := s[dash..];
    assert s == value[..dash] + rest;
    assert dash < |value| ==> rest[0] == '-';
  }
}
