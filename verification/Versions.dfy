/** Version parsing and comparison as in internal/updater/updater.go. */
module Versions {
  import opened Common

  /** The largest value of Go's int on the 64-bit platforms that can update. */
  const MAX_INT: int := 0x7FFF_FFFF_FFFF_FFFF
  const MIN_INT: int := -0x8000_0000_0000_0000

  datatype Version = Version(major: nat, minor: nat, patch: nat, prerelease: seq<string>)

  datatype VersionError = NotSemantic | InvalidVersion

  // --------------------------------------------------------- string functions

  /** The first position of `c`, or |s|. */
  function IndexOf(s: string, c: char): (i: nat)
    ensures i <= |s|
    ensures i < |s| ==> s[i] == c
    ensures c !in s[..i]
  {
    if s == "" || s[0] == c then 0
    else
      var i := IndexOf(s[1..], c);
      assert s[..i + 1] == [s[0]] + s[1..][..i];
      i + 1
  }

  function Split(s: string, c: char): (r: seq<string>)
    ensures r != []
    ensures forall i :: 0 <= i < |r| ==> c !in r[i]
    decreases |s|
  {
    var i := IndexOf(s, c);
    if i == |s| then assert s[..i] == s; [s] else [s[..i]] + Split(s[i + 1..], c)
  }

  function Join(parts: seq<string>, c: char): string {
    if parts == [] then "" else if |parts| == 1 then parts[0] else parts[0] + [c] + Join(parts[1..], c)
  }

  function TrimV(s: string): string {
    if s != "" && s[0] == 'v' then s[1..] else s
  }

  function Before(s: string, c: char): string {
    s[..IndexOf(s, c)]
  }

  // -------------------------------------------------------------- numbers

  predicate IsDigit(c: char) {
    '0' <= c <= '9'
  }

  /** A numeric identifier: one or more digits and nothing else. */
  predicate AllDigits(s: string) {
    s != "" && forall i :: 0 <= i < |s| ==> IsDigit(s[i])
  }

  function Value(s: string): nat
    requires forall i :: 0 <= i < |s| ==> IsDigit(s[i])
  {
    if s == "" then 0
    else
      assert IsDigit(s[|s| - 1]);
      10 * Value(s[..|s| - 1]) + (s[|s| - 1] as int - '0' as int)
  }

  /** strconv.Atoi: an optional sign, digits, and a result that fits. */
  function Atoi(s: string): (r: Option<int>)
    ensures r.Some? ==> MIN_INT <= r.value <= MAX_INT
  {
    var signed := s != "" && (s[0] == '-' || s[0] == '+');
    var digits := if signed then s[1..] else s;
    if !AllDigits(digits) then None
    else
      var size: int := Value(digits);
      var n := if signed && s[0] == '-' then -size else size;
      if MIN_INT <= n <= MAX_INT then Some(n) else None
  }

  function Decimal(n: nat): (s: string)
    ensures AllDigits(s) && Value(s) == n
  {
    var last := ('0' as int + n % 10) as char;
    if n < 10 then
      assert [last][..0] == "";
      [last]
    else
      var front := Decimal(n / 10);
      assert (front + [last])[..|front|] == front;
      front + [last]
  }

  // ---------------------------------------------------------------- parsing

  function ParseNumbers(core: seq<string>): Option<seq<nat>> {
    if core == [] then Some([])
    else
      var n, rest := Atoi(core[0]), ParseNumbers(core[1..]);
      if n.Some? && n.value >= 0 && rest.Some? then Some([n.value] + rest.value) else None
  }

  /** parseVersion */
  function Parse(text: string): Result<Version, VersionError> {
    ParseValue(Before(TrimV(text), '+'))
  }

  function ParseValue(value: string): Result<Version, VersionError> {
    var dash := IndexOf(value, '-');
    var core := Split(value[..dash], '.');
    if |core| != 3 then Err(NotSemantic)
    else
      var numbers := ParseNumbers(core);
      if numbers.None? || |numbers.value| != 3 then Err(InvalidVersion)
      else if dash == |value| then Ok(Version(numbers.value[0], numbers.value[1], numbers.value[2], []))
      else if value[dash + 1..] == "" then Err(InvalidVersion)
      else Ok(Version(numbers.value[0], numbers.value[1], numbers.value[2], Split(value[dash + 1..], '.')))
  }

  function Print(v: Version): string {
    Join([Decimal(v.major), Decimal(v.minor), Decimal(v.patch)], '.')
    + if v.prerelease == [] then "" else "-" + Join(v.prerelease, '.')
  }

  function Following(numbers: seq<nat>, rest: Option<seq<nat>>): Option<seq<nat>> {
    if rest.Some? then Some(numbers + rest.value) else None
  }

  lemma NumbersStep(core: seq<string>, i: nat, numbers: seq<nat>)
    requires i < |core|
    ensures var n := Atoi(core[i]);
            Following(numbers, ParseNumbers(core[i..]))
            == if n.Some? && n.value >= 0 then Following(numbers + [n.value], ParseNumbers(core[i + 1..])) else None
  {
    assert core[i..][1..] == core[i + 1..];
    var n, rest := Atoi(core[i]), ParseNumbers(core[i + 1..]);
    if n.Some? && n.value >= 0 && rest.Some? {
      assert numbers + ([n.value] + rest.value) == (numbers + [n.value]) + rest.value;
    }
  }

  method ParseVersion(text: string) returns (result: Result<Version, VersionError>)
    ensures result == Parse(text)
  {
    var value := Before(TrimV(text), '+');
    var dash := IndexOf(value, '-');
    var core := Split(value[..dash], '.');
    if |core| != 3 { return Err(NotSemantic); }
    var numbers: seq<nat> := [];
    assert core[0..] == core;
    assert ParseNumbers(core).Some? ==> [] + ParseNumbers(core).value == ParseNumbers(core).value;
    for i := 0 to 3
      invariant |numbers| == i
      invariant ParseNumbers(core) == Following(numbers, ParseNumbers(core[i..]))
    {
      NumbersStep(core, i, numbers);
      var number := Atoi(core[i]);
      if number.None? || number.value < 0 { return Err(InvalidVersion); }
      numbers := numbers + [number.value];
    }
    assert core[3..] == [] && numbers + [] == numbers;
    if dash < |value| {
      if value[dash + 1..] == "" { return Err(InvalidVersion); }
      return Ok(Version(numbers[0], numbers[1], numbers[2], Split(value[dash + 1..], '.')));
    }
    return Ok(Version(numbers[0], numbers[1], numbers[2], []));
  }

  // ------------------------------------------------------------- comparison

  function Sign(less: bool, greater: bool): int {
    if less then -1 else if greater then 1 else 0
  }

  /** One turn of the loop over the prerelease identifiers. */
  function CompareIds(x: string, y: string): int {
    var xi, yi := Atoi(x), Atoi(y);
    if xi.Some? && yi.Some? then Sign(xi.value < yi.value, xi.value > yi.value)
    else if xi.Some? then -1
    else if yi.Some? then 1
    else Sign(Less(x, y), Less(y, x))
  }

  function CompareLists(a: seq<string>, b: seq<string>): int {
    if a == [] && b == [] then 0
    else if a == [] then -1
    else if b == [] then 1
    else if CompareIds(a[0], b[0]) != 0 then CompareIds(a[0], b[0])
    else CompareLists(a[1..], b[1..])
  }

  function CompareNumbers(a: Version, b: Version): int {
    if a.major != b.major then Sign(a.major < b.major, a.major > b.major)
    else if a.minor != b.minor then Sign(a.minor < b.minor, a.minor > b.minor)
    else Sign(a.patch < b.patch, a.patch > b.patch)
  }

  function Compare(a: Version, b: Version): int {
    if CompareNumbers(a, b) != 0 then CompareNumbers(a, b)
    else if a.prerelease == [] && b.prerelease != [] then 1
    else if a.prerelease != [] && b.prerelease == [] then -1
    else CompareLists(a.prerelease, b.prerelease)
  }

  function CompareVersions(left: string, right: string): Result<int, VersionError> {
    match Parse(left)
    case Err(e) => Err(e)
    case Ok(a) => match Parse(right) case Err(e) => Err(e) case Ok(b) => Ok(Compare(a, b))
  }

  method CompareParsed(a: Version, b: Version) returns (order: int)
    ensures order == Compare(a, b)
  {
    var left, right := [a.major, a.minor, a.patch], [b.major, b.minor, b.patch];
    for i := 0 to 3
      invariant i > 0 ==> a.major == b.major
      invariant i > 1 ==> a.minor == b.minor
      invariant i > 2 ==> a.patch == b.patch
    {
      if left[i] < right[i] { return -1; }
      if left[i] > right[i] { return 1; }
    }
    if a.prerelease == [] && b.prerelease != [] { return 1; }
    if a.prerelease != [] && b.prerelease == [] { return -1; }
    var i := 0;
    while i < |a.prerelease| || i < |b.prerelease|
      invariant i <= |a.prerelease| && i <= |b.prerelease|
      invariant CompareLists(a.prerelease, b.prerelease) == CompareLists(a.prerelease[i..], b.prerelease[i..])
      decreases |a.prerelease| + |b.prerelease| - i
    {
      if i >= |a.prerelease| { return -1; }
      if i >= |b.prerelease| { return 1; }
      var x, y := a.prerelease[i], b.prerelease[i];
      var xi, yi := Atoi(x), Atoi(y);
      if xi.Some? && yi.Some? {
        if xi.value < yi.value { return -1; }
        if xi.value > yi.value { return 1; }
      } else {
        if xi.Some? { return -1; }
        if yi.Some? { return 1; }
        if Less(x, y) { return -1; }
        if Less(y, x) { return 1; }
      }
      i := i + 1;
    }
    return 0;
  }
}
