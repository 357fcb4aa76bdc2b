/** Small value types and string operations that every other module uses. */
module Common {

  datatype Option<+T> = None | Some(value: T)

  datatype Result<+T, +E> = Ok(value: T) | Err(error: E)

  /** A wake-store session is addressed by provider name and AWP session id. */
  datatype Key = Key(provider: string, session: string)

  // ---------------------------------------------------------------- trimming

  /** White space as `strings.TrimSpace` sees it: the Unicode White_Space property. */
  predicate IsSpace(c: char) {
    || '\t' <= c <= '\r' || c == ' '
    || c == '\U{85}' || c == '\U{A0}' || c == '\U{1680}'
    || '\U{2000}' <= c <= '\U{200A}'
    || c == '\U{2028}' || c == '\U{2029}' || c == '\U{202F}' || c == '\U{205F}' || c == '\U{3000}'
  }

  /** Removes leading and trailing white space. */
  function Trim(s: string): (t: string)
    ensures t != "" ==> !IsSpace(t[0]) && !IsSpace(t[|t| - 1])
    ensures |t| <= |s|
    decreases |s|
  {
    if s == "" then ""
    else if IsSpace(s[0]) then Trim(s[1..])
    else if IsSpace(s[|s| - 1]) then Trim(s[..|s| - 1])
    else s
  }

  lemma TrimIdempotent(s: string)
    ensures Trim(Trim(s)) == Trim(s)
  {
  }

  predicate Blank(s: string) {
    forall i :: 0 <= i < |s| ==> IsSpace(s[i])
  }

  predicate Wraps(s: string, front: string, middle: string, back: string) {
    s == front + middle + back && Blank(front) && Blank(back)
  }

  lemma WrapsFront(s: string, front: string, middle: string, back: string)
    requires s != "" && IsSpace(s[0]) && Wraps(s[1..], front, middle, back)
    ensures Wraps(s, [s[0]] + front, middle, back)
  {
    assert s == [s[0]] + s[1..];
  }

  lemma WrapsBack(s: string, front: string, middle: string, back: string)
    requires s != "" && IsSpace(s[|s| - 1]) && Wraps(s[..|s| - 1], front, middle, back)
    ensures Wraps(s, front, middle, back + [s[|s| - 1]])
  {
    assert s == s[..|s| - 1] + [s[|s| - 1]];
  }

  /** Trimming takes off outer white space and nothing else; what it leaves neither
      begins nor ends with any. */
  lemma {:induction false} TrimMeans(s: string) returns (front: string, back: string)
    ensures Wraps(s, front, Trim(s), back)
    decreases |s|
  {
    front, back := "", "";
    if s != "" && IsSpace(s[0]) {
      front, back := TrimMeans(s[1..]);
      WrapsFront(s, front, Trim(s), back);
      front := [s[0]] + front;
    } else if s != "" && IsSpace(s[|s| - 1]) {
      front, back := TrimMeans(s[..|s| - 1]);
      WrapsBack(s, front, Trim(s), back);
      back := back + [s[|s| - 1]];
    }
  }

  function TrimKey(k: Key): Key {
    Key(Trim(k.provider), Trim(k.session))
  }

  lemma TrimKeyIdempotent(k: Key)
    ensures TrimKey(TrimKey(k)) == TrimKey(k)
  {
    TrimIdempotent(k.provider);
    TrimIdempotent(k.session);
  }

  // ---------------------------------------------------------------- ordering

  /** Strict byte order of Go strings; on valid UTF-8 it is code-point order. */
  predicate Less(a: string, b: string) {
    b != "" && (a == "" || a[0] < b[0] || (a[0] == b[0] && Less(a[1..], b[1..])))
  }

  /** Up to position `n` the strings agree, and there `a` ends or has the smaller character. */
  predicate LessAt(a: string, b: string, n: int) {
    0 <= n <= |a| && n < |b| && a[..n] == b[..n] && (n == |a| || a[n] < b[n])
  }

  lemma {:induction false} LessMeans(a: string, b: string)
    ensures Less(a, b) <==> exists n :: LessAt(a, b, n)
  {
    LessAtAgrees(a, b);
    if b != "" && (a == "" || a[0] < b[0]) {
      assert LessAt(a, b, 0);
    } else if a != "" && b != "" && a[0] == b[0] {
      LessMeans(a[1..], b[1..]);
      if Less(a, b) {
        var n :| LessAt(a[1..], b[1..], n);
        assert a[..n + 1] == [a[0]] + a[1..][..n] && b[..n + 1] == [b[0]] + b[1..][..n];
        assert LessAt(a, b, n + 1);
      }
      if exists n :: LessAt(a, b, n) {
        var n :| LessAt(a, b, n);
        LessAtTail(a, b, n);
      }
    }
  }

  lemma LessAtAgrees(a: string, b: string)
    ensures forall n :: LessAt(a, b, n) && n > 0 ==> a != "" && b != "" && a[0] == b[0]
  {
    forall n | LessAt(a, b, n) && n > 0 ensures a != "" && b != "" && a[0] == b[0] {
      assert a[0] == a[..n][0] && b[0] == b[..n][0];
    }
  }

  lemma LessAtTail(a: string, b: string, n: int)
    requires a != "" && b != "" && a[0] == b[0] && LessAt(a, b, n)
    ensures LessAt(a[1..], b[1..], n - 1)
  {
    assert a[1..][..n - 1] == a[..n][1..] && b[1..][..n - 1] == b[..n][1..];
  }

  lemma {:induction false} LessIrreflexive(a: string)
    ensures !Less(a, a)
  {
    if a != "" { LessIrreflexive(a[1..]); }
  }

  lemma {:induction false} LessTransitive(a: string, b: string, c: string)
    requires Less(a, b) && Less(b, c)
    ensures Less(a, c)
  {
    if a != "" && a[0] == b[0] == c[0] { LessTransitive(a[1..], b[1..], c[1..]); }
  }

  lemma {:induction false} LessTotal(a: string, b: string)
    ensures Less(a, b) || a == b || Less(b, a)
  {
    if a != "" && b != "" && a[0] == b[0] {
      LessTotal(a[1..], b[1..]);
      assert a == [a[0]] + a[1..] && b == [b[0]] + b[1..];
    }
  }

  // ------------------------------------------------------- sorted string sets

  ghost predicate Ascending(s: seq<string>) {
    forall i, j :: 0 <= i < j < |s| ==> Less(s[i], s[j])
  }

  /** Puts `x` into an ascending sequence, once. */
  function Insert(s: seq<string>, x: string): (r: seq<string>)
    ensures forall y :: y in r <==> y == x || y in s
    ensures Ascending(s) ==> Ascending(r)
  {
    if s == [] then [x]
    else if x == s[0] then s
    else if Less(x, s[0]) then
      assert Ascending(s) ==> Ascending([x] + s) by { InsertAtFront(s, x); }
      [x] + s
    else
      var r := Insert(s[1..], x);
      assert s == [s[0]] + s[1..];
      assert Ascending(s) ==> Ascending([s[0]] + r) by { InsertDeeper(s, x, r); }
      [s[0]] + r
  }

  lemma InsertAtFront(s: seq<string>, x: string)
    requires s != [] && Less(x, s[0])
    ensures Ascending(s) ==> Ascending([x] + s)
  {
    if Ascending(s) {
      forall i, j | 0 <= i < j < |s| + 1 ensures Less(([x] + s)[i], ([x] + s)[j]) {
        if i == 0 && j > 1 { LessTransitive(x, s[0], s[j - 1]); }
      }
    }
  }

  lemma InsertDeeper(s: seq<string>, x: string, r: seq<string>)
    requires s != [] && x != s[0] && !Less(x, s[0])
    requires Ascending(s[1..]) ==> Ascending(r)
    requires forall y :: y in r <==> y == x || y in s[1..]
    ensures Ascending(s) ==> Ascending([s[0]] + r)
  {
    if Ascending(s) {
      LessTotal(x, s[0]);
      forall i, j | 0 <= i < j < |r| + 1 ensures Less(([s[0]] + r)[i], ([s[0]] + r)[j]) {
        if i == 0 { assert r[j - 1] in r; }
      }
    }
  }

  /** `sort.Strings` on a list without repetitions. */
  function SortStrings(values: seq<string>): (r: seq<string>)
    ensures Ascending(r)
    ensures forall y :: y in r <==> y in values
  {
    if values == [] then [] else Insert(SortStrings(values[1..]), values[0])
  }

  /** An ascending sequence is determined by its set of elements. */
  lemma {:induction false} AscendingIsCanonical(a: seq<string>, b: seq<string>)
    requires Ascending(a) && Ascending(b)
    requires forall y :: y in a <==> y in b
    ensures a == b
  {
    assert a != [] ==> a[0] in a && a[0] in b;
    assert b != [] ==> b[0] in b && b[0] in a;
    if a != [] && b != [] {
      assert a[0] in a;
      var i :| 0 <= i < |b| && b[i] == a[0];
      assert b[0] in b;
      var j :| 0 <= j < |a| && a[j] == b[0];
      if i > 0 && j > 0 {
        LessTransitive(a[0], b[0], a[0]);
        LessIrreflexive(a[0]);
      }
      assert a[0] == b[0];
      forall y ensures y in a[1..] <==> y in b[1..] {
        TailMember(a, y);
        TailMember(b, y);
      }
      AscendingIsCanonical(a[1..], b[1..]);
      assert a == [a[0]] + a[1..] && b == [b[0]] + b[1..];
    }
  }

  lemma TailMember(a: seq<string>, y: string)
    requires a != [] && Ascending(a)
    ensures y in a[1..] <==> y in a && y != a[0]
  {
    LessIrreflexive(a[0]);
    assert a == [a[0]] + a[1..];
    if y in a[1..] {
      var i :| 0 <= i < |a[1..]| && a[1..][i] == y;
      assert Less(a[0], a[i + 1]);
    }
  }

  /** `y` is what trimming some member of `values` leaves, and it is not empty. */
  ghost predicate Names(values: seq<string>, y: string) {
    y != "" && exists i :: 0 <= i < |values| && Trim(values[i]) == y
  }

  /** The trimmed, non-empty values, ascending and without repetitions. */
  function UniqueSorted(values: seq<string>): (r: seq<string>)
    ensures Ascending(r)
    ensures forall y :: y in r <==> Names(values, y)
  {
    if values == [] then []
    else
      var rest := UniqueSorted(values[1..]);
      assert forall y :: Names(values, y) <==> Names(values[1..], y) || (y != "" && y == Trim(values[0])) by {
        forall y ensures Names(values, y) <==> Names(values[1..], y) || (y != "" && y == Trim(values[0])) {
          NamesStep(values, y);
        }
      }
      if Trim(values[0]) == "" then rest else Insert(rest, Trim(values[0]))
  }

  lemma NamesStep(values: seq<string>, y: string)
    requires values != []
    ensures Names(values, y) <==> Names(values[1..], y) || (y != "" && y == Trim(values[0]))
  {
    if Names(values[1..], y) {
      var i :| 0 <= i < |values[1..]| && Trim(values[1..][i]) == y;
      assert Trim(values[i + 1]) == y;
    }
    if Names(values, y) {
      var i :| 0 <= i < |values| && Trim(values[i]) == y;
      if i > 0 { assert Trim(values[1..][i - 1]) == y; }
    }
  }

  /** uniqueSorted: collects the new trimmed names in order, then sorts them. */
  method CollectUniqueSorted(values: seq<string>) returns (result: seq<string>)
    ensures result == UniqueSorted(values)
  {
    var seen: set<string> := {};
    result := [];
    for i := 0 to |values|
      invariant forall y :: y in seen <==> y in result
      invariant forall y :: y in seen <==> Names(values[..i], y)
    {
      assert forall y :: Names(values[..i + 1], y) <==> Names(values[..i], y) || (y != "" && y == Trim(values[i])) by {
        forall y ensures Names(values[..i + 1], y) <==> Names(values[..i], y) || (y != "" && y == Trim(values[i])) {
          NamesSnoc(values[..i], values[i], y);
          assert values[..i + 1] == values[..i] + [values[i]];
        }
      }
      var value := Trim(values[i]);
      if value != "" && value !in seen {
        seen := seen + {value};
        result := result + [value];
      }
    }
    assert values[..|values|] == values;
    result := SortStrings(result);
    AscendingIsCanonical(result, UniqueSorted(values));
  }

  lemma NamesSnoc(values: seq<string>, v: string, y: string)
    ensures Names(values + [v], y) <==> Names(values, y) || (y != "" && y == Trim(v))
  {
    var all := values + [v];
    if Names(values, y) {
      var i :| 0 <= i < |values| && Trim(values[i]) == y;
      assert Trim(all[i]) == y;
    }
    if y != "" && y == Trim(v) { assert Trim(all[|values|]) == y; }
  }
}
