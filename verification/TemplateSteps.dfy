/** Tokens with any number of placeholders: exactly when every substitution step,
    in every order, does what the author of the template means. */
module TemplateSteps {
  import opened Common
  import opened Template

  /** The holes of these names are filled, the others stay open. */
  function FillSome(pieces: seq<Piece>, values: map<string, string>, names: set<string>): seq<Piece> {
    if pieces == [] then []
    else
      [match pieces[0]
       case Text(t) => Text(t)
       case Hole(n) => if n in names && n in values then Text(values[n]) else Hole(n)]
      + FillSome(pieces[1..], values, names)
  }

  /** Keys and holes have names; texts may hold anything. */
  ghost predicate Named(pieces: seq<Piece>, values: map<string, string>) {
    && (forall n :: n in values ==> IsName(n))
    && (forall n :: Hole(n) in pieces ==> IsName(n))
  }

  // ------------------------------------------------------- counting placeholders

  /** How often a pattern occurs, as ReplaceAll sees it. */
  function Count(text: string, pattern: string): nat
    requires pattern != ""
    decreases |text|
  {
    if text == "" then 0
    else if IsPrefix(pattern, text) then 1 + Count(text[|pattern|..], pattern)
    else Count(text[1..], pattern)
  }

  /** How many holes of this name the pieces have. */
  function Own(pieces: seq<Piece>, name: string): nat {
    if pieces == [] then 0 else (if pieces[0] == Hole(name) then 1 else 0) + Own(pieces[1..], name)
  }

  /** No brace opens inside a placeholder. */
  lemma BraceFree(name: string)
    requires IsName(name)
    ensures forall i :: 0 < i < |Placeholder(name)| ==> Placeholder(name)[i] != '{'
  {
    forall i | 0 < i < |Placeholder(name)| ensures Placeholder(name)[i] != '{' {
      assert Placeholder(name)[i] == if i == |Placeholder(name)| - 1 then '}' else name[i - 1];
    }
  }

  /** So one that starts in a text does not reach into an open brace after it. */
  lemma EndsBeforeBrace(front: string, back: string, name: string)
    requires front != "" && back != "" && back[0] == '{' && IsName(name)
    requires IsPrefix(Placeholder(name), front + back)
    ensures |Placeholder(name)| <= |front|
  {
    var all := front + back;
    BraceFree(name);
    assert forall i :: 0 <= i < |Placeholder(name)| ==> Placeholder(name)[i] == all[i];
    assert all[|front|] == '{';
  }

  lemma StopsAtBrace(front: string, back: string, name: string)
    requires front != "" && back != "" && back[0] == '{' && IsName(name)
    ensures IsPrefix(Placeholder(name), front + back) <==> IsPrefix(Placeholder(name), front)
  {
    var p, all := Placeholder(name), front + back;
    if IsPrefix(p, all) { EndsBeforeBrace(front, back, name); }
    if |p| <= |front| { assert all[..|p|] == front[..|p|]; }
  }

  /** At an open brace, counting splits. */
  lemma {:induction false} CountSplits(front: string, back: string, name: string)
    requires back != "" && back[0] == '{' && IsName(name)
    ensures Count(front + back, Placeholder(name)) == Count(front, Placeholder(name)) + Count(back, Placeholder(name))
    decreases |front|
  {
    var p, all := Placeholder(name), front + back;
    if front == "" {
      assert all == back;
    } else {
      StopsAtBrace(front, back, name);
      if IsPrefix(p, front) {
        CountSplits(front[|p|..], back, name);
        assert all[|p|..] == front[|p|..] + back;
      } else {
        CountSplits(front[1..], back, name);
        assert all[1..] == front[1..] + back;
      }
    }
  }

  /** And so does replacing. */
  lemma {:induction false} ReplaceSplits(front: string, back: string, name: string, value: string)
    requires back != "" && back[0] == '{' && IsName(name)
    ensures ReplaceAll(front + back, Placeholder(name), value)
            == ReplaceAll(front, Placeholder(name), value) + ReplaceAll(back, Placeholder(name), value)
    decreases |front|
  {
    var p, all := Placeholder(name), front + back;
    if front == "" {
      assert all == back;
    } else {
      StopsAtBrace(front, back, name);
      if IsPrefix(p, front) {
        ReplaceSplits(front[|p|..], back, name, value);
        assert all[|p|..] == front[|p|..] + back;
        var rest := front[|p|..];
        AddAssociates(value, ReplaceAll(rest, p, value), ReplaceAll(back, p, value));
      } else {
        ReplaceSplits(front[1..], back, name, value);
        assert all[1..] == front[1..] + back && all[0] == front[0];
        AddAssociates([front[0]], ReplaceAll(front[1..], p, value), ReplaceAll(back, p, value));
      }
    }
  }

  lemma AddAssociates(a: string, b: string, c: string)
    ensures (a + b) + c == a + (b + c)
  {
  }

  lemma {:induction false} CountSkips(front: string, back: string, name: string)
    requires '{' !in front
    ensures Count(front + back, Placeholder(name)) == Count(back, Placeholder(name))
    decreases |front|
  {
    var all := front + back;
    if front == "" {
      assert all == back;
    } else {
      assert all[0] == front[0] && Placeholder(name)[0] == '{' && all[1..] == front[1..] + back;
      CountSkips(front[1..], back, name);
    }
  }

  /** Putting texts together loses no occurrence. */
  lemma {:induction false} CountTogether(front: string, back: string, name: string)
    requires IsName(name)
    ensures Count(front + back, Placeholder(name)) >= Count(front, Placeholder(name)) + Count(back, Placeholder(name))
    decreases |front|
  {
    var p, all := Placeholder(name), front + back;
    if front == "" {
      assert all == back;
    } else if IsPrefix(p, front) {
      assert all[..|p|] == front[..|p|] && all[|p|..] == front[|p|..] + back;
      CountTogether(front[|p|..], back, name);
    } else if IsPrefix(p, all) {
      CountAcross(front, back, name);
    } else {
      assert all[1..] == front[1..] + back;
      CountTogether(front[1..], back, name);
    }
  }

  /** A prefix that is not one of the front alone is longer than the front. */
  lemma FitsOrCrosses(front: string, back: string, pattern: string)
    requires IsPrefix(pattern, front + back)
    ensures |front| < |pattern| || IsPrefix(pattern, front)
  {
    if |pattern| <= |front| { assert (front + back)[..|pattern|] == front[..|pattern|]; }
  }

  /** An occurrence across the seam: neither side had it. */
  lemma CountAcross(front: string, back: string, name: string)
    requires front != "" && IsName(name)
    requires IsPrefix(Placeholder(name), front + back) && !IsPrefix(Placeholder(name), front)
    ensures Count(front + back, Placeholder(name)) >= Count(front, Placeholder(name)) + Count(back, Placeholder(name))
  {
    var p, all := Placeholder(name), front + back;
    FitsOrCrosses(front, back, p);
    var k := |p| - |front|;
    BraceFree(name);
    assert forall i :: 0 <= i < k ==> back[i] == all[..|p|][|front| + i];
    CountSkips(back[..k], back[k..], name);
    assert back == back[..k] + back[k..] && all[|p|..] == back[k..];
    ShortHasNone(front, p);
  }

  lemma {:induction false} ShortHasNone(text: string, pattern: string)
    requires |text| < |pattern|
    ensures Count(text, pattern) == 0
  {
    if text != "" { ShortHasNone(text[1..], pattern); }
  }

  lemma {:induction false} CountedOccurs(text: string, pattern: string)
    requires pattern != ""
    ensures Occurs(text, pattern) <==> Count(text, pattern) > 0
    decreases |text|
  {
    if text != "" && !IsPrefix(pattern, text) { CountedOccurs(text[1..], pattern); }
  }

  // ------------------------------------------------------------ one clean step

  /** Replacing one placeholder in the text fills its holes and nothing else. */
  predicate Clean(pieces: seq<Piece>, name: string, value: string) {
    ReplaceAll(Render(pieces), Placeholder(name), value) == Render(FillOne(pieces, name, value))
  }

  /** The pieces up to the first hole of this name, and those after it. */
  lemma {:induction false} FirstHole(pieces: seq<Piece>, name: string) returns (before: seq<Piece>, after: seq<Piece>)
    requires Hole(name) in pieces
    ensures pieces == before + ([Hole(name)] + after) && Hole(name) !in before && |after| < |pieces|
    decreases |pieces|
  {
    assert pieces == [pieces[0]] + pieces[1..];
    if pieces[0] == Hole(name) {
      before, after := [], pieces[1..];
    } else {
      before, after := FirstHole(pieces[1..], name);
      before := [pieces[0]] + before;
    }
  }

  lemma {:induction false} RenderJoins(a: seq<Piece>, b: seq<Piece>)
    ensures Render(a + b) == Render(a) + Render(b)
  {
    if a == [] {
      assert a + b == b;
    } else {
      assert (a + b)[1..] == a[1..] + b && (a + b)[0] == a[0];
      RenderJoins(a[1..], b);
    }
  }

  lemma {:induction false} FillOneJoins(a: seq<Piece>, b: seq<Piece>, name: string, value: string)
    ensures FillOne(a + b, name, value) == FillOne(a, name, value) + FillOne(b, name, value)
  {
    if a == [] {
      assert a + b == b;
    } else {
      assert (a + b)[1..] == a[1..] + b && (a + b)[0] == a[0];
      FillOneJoins(a[1..], b, name, value);
    }
  }

  lemma {:induction false} OwnJoins(a: seq<Piece>, b: seq<Piece>, name: string)
    ensures Own(a + b, name) == Own(a, name) + Own(b, name)
  {
    if a == [] {
      assert a + b == b;
    } else {
      assert (a + b)[1..] == a[1..] + b && (a + b)[0] == a[0];
      OwnJoins(a[1..], b, name);
    }
  }

  lemma {:induction false} NoneOwn(pieces: seq<Piece>, name: string)
    requires Hole(name) !in pieces
    ensures Own(pieces, name) == 0
  {
    if pieces != [] {
      assert pieces == [pieces[0]] + pieces[1..] && pieces[0] in pieces;
      NoneOwn(pieces[1..], name);
    }
  }

  /** Around the first hole of `name`: what is rendered, filled, and owned. */
  lemma AroundHole(before: seq<Piece>, after: seq<Piece>, name: string, value: string)
    requires Hole(name) !in before
    ensures var pieces := before + ([Hole(name)] + after);
            && Render(pieces) == Render(before) + (Placeholder(name) + Render(after))
            && Render(FillOne(pieces, name, value)) == Render(before) + (value + Render(FillOne(after, name, value)))
            && Own(pieces, name) == 1 + Own(after, name)
  {
    var hole := [Hole(name)];
    RenderJoins(before, hole + after);
    RenderJoins(hole, after);
    FillOneJoins(before, hole + after, name, value);
    FillOneJoins(hole, after, name, value);
    FillOneAbsent(before, name, value);
    RenderJoins(before, [Text(value)] + FillOne(after, name, value));
    RenderJoins([Text(value)], FillOne(after, name, value));
    OwnJoins(before, hole + after, name);
    OwnJoins(hole, after, name);
    NoneOwn(before, name);
    assert Render(hole) == Placeholder(name) + "" == Placeholder(name);
    assert Render([Text(value)]) == value + "" == value;
    assert FillOne(hole, name, value) == [Text(value)];
  }

  lemma OwnPlaceholder(name: string, back: string, value: string)
    ensures Count(Placeholder(name) + back, Placeholder(name)) == 1 + Count(back, Placeholder(name))
    ensures ReplaceAll(Placeholder(name) + back, Placeholder(name), value)
            == value + ReplaceAll(back, Placeholder(name), value)
  {
    ReplaceHits(back, name, value);
    var s := Placeholder(name) + back;
    assert s[..|Placeholder(name)|] == Placeholder(name) && s[|Placeholder(name)|..] == back;
  }

  /** The text after a replacement is as long as meant, or longer, or shorter, as the
      value is; and it is just as meant when nothing but the holes is replaced. */
  lemma {:induction false} CleanIff(pieces: seq<Piece>, name: string, value: string)
    requires IsName(name)
    ensures Count(Render(pieces), Placeholder(name)) >= Own(pieces, name)
    ensures |value| >= |Placeholder(name)| ==>
              |ReplaceAll(Render(pieces), Placeholder(name), value)| >= |Render(FillOne(pieces, name, value))|
    ensures |value| <= |Placeholder(name)| ==>
              |ReplaceAll(Render(pieces), Placeholder(name), value)| <= |Render(FillOne(pieces, name, value))|
    ensures Clean(pieces, name, value)
            <==> value == Placeholder(name) || Count(Render(pieces), Placeholder(name)) == Own(pieces, name)
    decreases |pieces|
  {
    if Hole(name) in pieces {
      var before, after := FirstHole(pieces, name);
      CleanIff(after, name, value);
      AroundHole(before, after, name, value);
      CountSplits(Render(before), Placeholder(name) + Render(after), name);
      ReplaceSplits(Render(before), Placeholder(name) + Render(after), name, value);
      OwnPlaceholder(name, Render(after), value);
      PlainTextIff(Render(before), name, value);
      BothAsMeant(ReplaceAll(Render(before), Placeholder(name), value), Render(before), value,
                  ReplaceAll(Render(after), Placeholder(name), value), Render(FillOne(after, name, value)));
    } else {
      NoneOwn(pieces, name);
      FillOneAbsent(pieces, name, value);
      PlainTextIff(Render(pieces), name, value);
    }
  }

  lemma PlainTextIff(text: string, name: string, value: string)
    ensures |value| >= |Placeholder(name)| ==> |ReplaceAll(text, Placeholder(name), value)| >= |text|
    ensures |value| <= |Placeholder(name)| ==> |ReplaceAll(text, Placeholder(name), value)| <= |text|
    ensures ReplaceAll(text, Placeholder(name), value) == text
            <==> value == Placeholder(name) || Count(text, Placeholder(name)) == 0
  {
    ReplaceLength(text, Placeholder(name), value);
    ReplaceFixesIff(text, Placeholder(name), value);
    CountedOccurs(text, Placeholder(name));
  }

  /** Two parts that can only err on the same side are right together exactly when
      each of them is. */
  lemma BothAsMeant(a: string, b: string, middle: string, c: string, d: string)
    requires (|a| >= |b| && |c| >= |d|) || (|a| <= |b| && |c| <= |d|)
    ensures a + (middle + c) == b + (middle + d) <==> a == b && c == d
  {
    var x, y := a + (middle + c), b + (middle + d);
    if x == y {
      assert |a| == |b| && |c| == |d|;
      assert a == x[..|a|] && b == y[..|b|];
      assert c == x[|a| + |middle|..] && d == y[|b| + |middle|..];
    }
  }

  // ------------------------------------------------------------ filling more holes

  /** Filling other holes makes no occurrence of a placeholder disappear. */
  lemma {:induction false} FillingKeepsCount(pieces: seq<Piece>, name: string, value: string, other: string)
    requires IsName(name) && IsName(other) && name != other
    ensures Count(Render(FillOne(pieces, name, value)), Placeholder(other)) >= Count(Render(pieces), Placeholder(other))
    decreases |pieces|
  {
    if Hole(name) in pieces {
      var before, after := FirstHole(pieces, name);
      FillingKeepsCount(after, name, value, other);
      AroundHole(before, after, name, value);
      var a, b := Render(before), Render(FillOne(after, name, value));
      CountSplits(a, Placeholder(name) + Render(after), other);
      SkipsHole(name, Render(after), other);
      CountTogether(a, value + b, other);
      CountTogether(value, b, other);
    } else {
      FillOneAbsent(pieces, name, value);
    }
  }

  lemma SkipsHole(name: string, back: string, other: string)
    requires IsName(name) && IsName(other) && name != other
    ensures Count(Placeholder(name) + back, Placeholder(other)) == Count(back, Placeholder(other))
  {
    var s := Placeholder(name) + back;
    OtherPlaceholder(name, back, other);
    assert s[1..] == (name + "}") + back;
    CountSkips(name + "}", back, other);
  }

  lemma {:induction false} FillingKeepsOwn(pieces: seq<Piece>, name: string, value: string, other: string)
    requires name != other
    ensures Own(FillOne(pieces, name, value), other) == Own(pieces, other)
  {
    if pieces != [] {
      FillingKeepsOwn(pieces[1..], name, value, other);
      assert FillOne(pieces, name, value)[1..] == FillOne(pieces[1..], name, value);
    }
  }

  /** A step that is clean after another hole is filled was clean before. */
  lemma CleanEarlier(pieces: seq<Piece>, name: string, value: string, other: string, filler: string)
    requires IsName(name) && IsName(other) && name != other
    requires Clean(FillOne(pieces, name, value), other, filler)
    ensures Clean(pieces, other, filler)
  {
    CleanIff(pieces, other, filler);
    CleanIff(FillOne(pieces, name, value), other, filler);
    FillingKeepsCount(pieces, name, value, other);
    FillingKeepsOwn(pieces, name, value, other);
  }

  lemma {:induction false} FillSomeMore(
      pieces: seq<Piece>, values: map<string, string>, names: set<string>, name: string)
    requires name in values
    ensures FillOne(FillSome(pieces, values, names), name, values[name]) == FillSome(pieces, values, names + {name})
  {
    if pieces != [] {
      FillSomeMore(pieces[1..], values, names, name);
      assert FillSome(pieces, values, names)[1..] == FillSome(pieces[1..], values, names);
    }
  }

  lemma {:induction false} FillNone(pieces: seq<Piece>, values: map<string, string>)
    ensures FillSome(pieces, values, {}) == pieces
  {
    if pieces != [] {
      FillNone(pieces[1..], values);
      assert pieces == [pieces[0]] + pieces[1..];
    }
  }

  lemma {:induction false} FillEvery(pieces: seq<Piece>, values: map<string, string>)
    ensures Render(FillSome(pieces, values, values.Keys)) == Filled(pieces, values)
  {
    if pieces != [] {
      FillEvery(pieces[1..], values);
      var all := FillSome(pieces, values, values.Keys);
      assert all[1..] == FillSome(pieces[1..], values, values.Keys);
    }
  }

  /** A step that is clean when all the others are done is clean at any time. */
  lemma {:induction false} CleanAnyTime(
      pieces: seq<Piece>, values: map<string, string>, name: string, names: set<string>)
    requires Named(pieces, values) && name in values && names <= values.Keys && name !in names
    requires Clean(FillSome(pieces, values, values.Keys - {name}), name, values[name])
    ensures Clean(FillSome(pieces, values, names), name, values[name])
    decreases values.Keys - names
  {
    if names != values.Keys - {name} {
      var more :| more in values.Keys - {name} && more !in names;
      CleanAnyTime(pieces, values, name, names + {more});
      FillSomeMore(pieces, values, names, more);
      CleanEarlier(FillSome(pieces, values, names), more, values[more], name, values[name]);
    }
  }

  // -------------------------------------------------------------------- main result

  /** Some of the keys, each once, in some order. */
  ghost predicate IsStart(order: seq<string>, values: map<string, string>) {
    && (forall i :: 0 <= i < |order| ==> order[i] in values)
    && (forall i, j :: 0 <= i < j < |order| ==> order[i] != order[j])
  }

  /** However far a substitution has come, in whatever order: the holes of the names
      so far are filled, and nothing else is changed. */
  ghost predicate AlwaysAsMeant(pieces: seq<Piece>, values: map<string, string>) {
    forall order :: IsStart(order, values) ==>
      Substituted(Render(pieces), values, order) == Render(FillSome(pieces, values, set n | n in order))
  }

  /** The last replacement, with all other holes filled, gives the whole text. */
  predicate LastIsAsMeant(pieces: seq<Piece>, values: map<string, string>, name: string)
    requires name in values
  {
    ReplaceAll(Render(FillSome(pieces, values, values.Keys - {name})), Placeholder(name), values[name])
    == Filled(pieces, values)
  }

  lemma LastIsClean(pieces: seq<Piece>, values: map<string, string>, name: string)
    requires name in values
    ensures LastIsAsMeant(pieces, values, name)
            <==> Clean(FillSome(pieces, values, values.Keys - {name}), name, values[name])
  {
    FillSomeMore(pieces, values, values.Keys - {name}, name);
    assert values.Keys - {name} + {name} == values.Keys;
    FillEvery(pieces, values);
  }

  lemma StepIsAsMeant(pieces: seq<Piece>, values: map<string, string>, done: set<string>, name: string)
    requires Named(pieces, values) && done <= values.Keys && name in values && name !in done
    requires LastIsAsMeant(pieces, values, name)
    ensures ReplaceAll(Render(FillSome(pieces, values, done)), Placeholder(name), values[name])
            == Render(FillSome(pieces, values, done + {name}))
  {
    LastIsClean(pieces, values, name);
    CleanAnyTime(pieces, values, name, done);
    FillSomeMore(pieces, values, done, name);
  }

  lemma OrderIsDone(order: seq<string>, done: set<string>)
    requires order != []
    ensures done + {order[0]} + (set n | n in order[1..]) == done + set n | n in order
  {
    assert order == [order[0]] + order[1..];
  }

  lemma {:induction false} StepsAreAsMeant(
      pieces: seq<Piece>, values: map<string, string>, done: set<string>, order: seq<string>)
    requires Named(pieces, values) && IsStart(order, values) && done <= values.Keys
    requires forall i :: 0 <= i < |order| ==> order[i] !in done && LastIsAsMeant(pieces, values, order[i])
    ensures Substituted(Render(FillSome(pieces, values, done)), values, order)
            == Render(FillSome(pieces, values, done + set n | n in order))
    decreases |order|
  {
    if order == [] {
      assert done + (set n | n in order) == done;
    } else {
      var name := order[0];
      StepIsAsMeant(pieces, values, done, name);
      StepsAreAsMeant(pieces, values, done + {name}, order[1..]);
      OrderIsDone(order, done);
    }
  }

  /** The exact condition, for any token. Every step of every iteration order leaves
      just what the template means, if and only if each replacement does so as the
      last one, with all other holes filled. */
  lemma EveryStepIsAsMeantIff(pieces: seq<Piece>, values: map<string, string>)
    requires Named(pieces, values)
    ensures AlwaysAsMeant(pieces, values) <==> forall n :: n in values ==> LastIsAsMeant(pieces, values, n)
  {
    if AlwaysAsMeant(pieces, values) {
      forall n | n in values ensures LastIsAsMeant(pieces, values, n) { LastStep(pieces, values, n); }
    } else if forall n :: n in values ==> LastIsAsMeant(pieces, values, n) {
      FillNone(pieces, values);
      forall order | IsStart(order, values)
        ensures Substituted(Render(pieces), values, order) == Render(FillSome(pieces, values, set n | n in order))
      {
        StepsAreAsMeant(pieces, values, {}, order);
        assert {} + (set n | n in order) == set n | n in order;
      }
    }
  }

  lemma LastStep(pieces: seq<Piece>, values: map<string, string>, name: string)
    requires name in values && AlwaysAsMeant(pieces, values)
    ensures LastIsAsMeant(pieces, values, name)
  {
    var rest := Listing(values.Keys - {name});
    assert forall i :: 0 <= i < |rest| ==> rest[i] in rest;
    assert (set n | n in rest) == values.Keys - {name};
    assert (set n | n in rest + [name]) == values.Keys;
    assert IsStart(rest, values) && IsStart(rest + [name], values);
    SubstitutedInTurn(Render(pieces), values, rest, [name]);
    OneMore(Render(FillSome(pieces, values, values.Keys - {name})), values, name);
    FillEvery(pieces, values);
  }

  /** Then every order of all the keys gives the simultaneous substitution. */
  lemma EveryOrderIsAsMeant(pieces: seq<Piece>, values: map<string, string>, order: seq<string>)
    requires Named(pieces, values) && IsOrder(order, values)
    requires forall n :: n in values ==> LastIsAsMeant(pieces, values, n)
    ensures Substituted(Render(pieces), values, order) == Filled(pieces, values)
  {
    assert forall i :: 0 <= i < |order| ==> order[i] in order;
    EveryStepIsAsMeantIff(pieces, values);
    assert (set n | n in order) == values.Keys;
    FillEvery(pieces, values);
  }
}
