/** What the final texts alone say about the steps that led to them. */
module TemplateTexts {
  import opened Common
  import opened Template
  import opened TemplateSteps

  /** Every iteration order of the map ends with the simultaneous substitution. */
  ghost predicate EveryOrderGives(pieces: seq<Piece>, values: map<string, string>) {
    forall order :: IsOrder(order, values) ==> Substituted(Render(pieces), values, order) == Filled(pieces, values)
  }

  lemma NamesOf(a: string, rest: seq<string>, b: string, values: map<string, string>)
    requires a in values && b in values && a != b
    requires forall n :: n in rest <==> n in values.Keys - {a, b}
    requires forall i, j :: 0 <= i < j < |rest| ==> rest[i] != rest[j]
    ensures IsOrder([a] + (rest + [b]), values)
    ensures {a} + (set n | n in rest) == values.Keys - {b}
    ensures IsStart(rest, values) && forall i :: 0 <= i < |rest| ==> rest[i] !in {a}
  {
    assert forall i :: 0 <= i < |rest| ==> rest[i] in rest;
    assert (set n | n in rest) == values.Keys - {a, b};
  }

  /** Replaced first, before it can be spelled by a value, `a` is as meant. */
  lemma FirstIsAsMeant(pieces: seq<Piece>, values: map<string, string>, a: string)
    requires a in values && Clean(pieces, a, values[a])
    ensures ReplaceAll(Render(pieces), Placeholder(a), values[a]) == Render(FillSome(pieces, values, {a}))
  {
    FillNone(pieces, values);
    FillSomeMore(pieces, values, {}, a);
    assert {} + {a} == {a};
  }

  /** With `a` first and the others clean, the last replacement, of `b`, is on its own. */
  lemma LastIsLeft(pieces: seq<Piece>, values: map<string, string>, a: string, rest: seq<string>, b: string)
    requires Named(pieces, values) && a in values && b in values && a != b && Clean(pieces, a, values[a])
    requires IsStart(rest, values) && forall i :: 0 <= i < |rest| ==> rest[i] !in {a}
    requires forall i :: 0 <= i < |rest| ==> LastIsAsMeant(pieces, values, rest[i])
    requires {a} + (set n | n in rest) == values.Keys - {b}
    ensures Substituted(Render(pieces), values, [a] + (rest + [b]))
            == ReplaceAll(Render(FillSome(pieces, values, values.Keys - {b})), Placeholder(b), values[b])
  {
    var token := Render(pieces);
    FirstIsAsMeant(pieces, values, a);
    OneMore(token, values, a);
    SubstitutedInTurn(token, values, [a], rest + [b]);
    StepsAreAsMeant(pieces, values, {a}, rest);
    SubstitutedInTurn(Render(FillSome(pieces, values, {a})), values, rest, [b]);
    OneMore(Render(FillSome(pieces, values, values.Keys - {b})), values, b);
  }

  lemma FinalTextShowsLast(pieces: seq<Piece>, values: map<string, string>, a: string, b: string)
    requires Named(pieces, values) && a in values && b in values && a != b && Clean(pieces, a, values[a])
    requires forall n :: n in values && n != a && n != b ==> LastIsAsMeant(pieces, values, n)
    requires EveryOrderGives(pieces, values)
    ensures LastIsAsMeant(pieces, values, b)
  {
    var rest := Listing(values.Keys - {a, b});
    NamesOf(a, rest, b, values);
    assert forall i :: 0 <= i < |rest| ==> rest[i] in rest;
    LastIsLeft(pieces, values, a, rest, b);
  }

  /** For a token whose own text spells neither placeholder, and in which all other
      replacements are as meant, the final texts decide: every order ends with the
      simultaneous substitution if and only if these two replacements, each done last
      with all other holes filled, do so too. */
  lemma FinalTextsDecideTwo(pieces: seq<Piece>, values: map<string, string>, a: string, b: string)
    requires Named(pieces, values) && a in values && b in values && a != b
    requires Clean(pieces, a, values[a]) && Clean(pieces, b, values[b])
    requires forall n :: n in values && n != a && n != b ==> LastIsAsMeant(pieces, values, n)
    ensures EveryOrderGives(pieces, values)
            <==> LastIsAsMeant(pieces, values, a) && LastIsAsMeant(pieces, values, b)
  {
    if EveryOrderGives(pieces, values) {
      FinalTextShowsLast(pieces, values, a, b);
      FinalTextShowsLast(pieces, values, b, a);
    } else if LastIsAsMeant(pieces, values, a) && LastIsAsMeant(pieces, values, b) {
      forall order | IsOrder(order, values)
        ensures Substituted(Render(pieces), values, order) == Filled(pieces, values)
      {
        EveryOrderIsAsMeant(pieces, values, order);
      }
    }
  }

  // ------------------------------------------------------- two wrongs make a right

  /** A token whose own text spells both placeholders. */
  const SPELLED: seq<Piece> := [Text("{y}{z}")]

  const UNDOING: map<string, string> := map["y" := "{y}{", "z" := "z}"]

  lemma YGrows()
    ensures ReplaceAll("{y}{z}", Placeholder("y"), "{y}{") == "{y}{{z}"
  {
    ReplaceHits("{z}", "y", "{y}{");
    ReplaceSkipsHole("z", "", "y", "{y}{");
    assert Placeholder("y") + "{z}" == "{y}{z}" && Placeholder("z") + "" == "{z}";
  }

  lemma ZShrinks()
    ensures ReplaceAll("{z}", Placeholder("z"), "z}") == "z}"
    ensures ReplaceAll("{{z}", Placeholder("z"), "z}") == "{z}"
  {
    ReplaceHits("", "z", "z}");
    assert Placeholder("z") + "" == "{z}" && "{{z}"[1..] == "{z}";
    assert "{{z}"[..3][1] == '{' && Placeholder("z")[1] == 'z';
  }

  lemma YThenZ()
    ensures ReplaceAll("{y}{{z}", Placeholder("z"), "z}") == "{y}{z}"
  {
    ZShrinks();
    ReplaceSkipsHole("y", "{{z}", "z", "z}");
    assert Placeholder("y") + "{{z}" == "{y}{{z}" && Placeholder("y") + "{z}" == "{y}{z}";
  }

  lemma ZFirst()
    ensures ReplaceAll("{y}{z}", Placeholder("z"), "z}") == "{y}z}"
  {
    ZShrinks();
    ReplaceSkipsHole("y", "{z}", "z", "z}");
    assert Placeholder("y") + "{z}" == "{y}{z}" && Placeholder("y") + "z}" == "{y}z}";
  }

  lemma ZThenY()
    ensures ReplaceAll("{y}z}", Placeholder("y"), "{y}{") == "{y}{z}"
  {
    ReplaceHits("z}", "y", "{y}{");
    ReplaceSkips("z}", "", "y", "{y}{");
    assert Placeholder("y") + "z}" == "{y}z}" && "z}" + "" == "z}";
  }

  lemma IsOneOfTwo(order: seq<string>, i: nat, j: nat, k: nat)
    requires IsOrder(order, UNDOING) && i < |order| && j < |order| && k < |order|
    requires order[i] == "y" && order[j] == "z"
    ensures k == i || k == j
  {
    assert order[k] in order && order[k] in UNDOING;
  }

  lemma OrderOfTwo(order: seq<string>)
    requires IsOrder(order, UNDOING)
    ensures order == ["y"] + ["z"] || order == ["z"] + ["y"]
  {
    assert "y" in order && "z" in order;
    var i: nat :| i < |order| && order[i] == "y";
    var j: nat :| j < |order| && order[j] == "z";
    IsOneOfTwo(order, i, j, 0);
    IsOneOfTwo(order, i, j, 1);
    if |order| > 2 { IsOneOfTwo(order, i, j, 2); }
  }

  lemma TextIsAll(names: set<string>)
    ensures Render(SPELLED) == "{y}{z}" && FillSome(SPELLED, UNDOING, names) == SPELLED
    ensures Filled(SPELLED, UNDOING) == "{y}{z}"
  {
    assert SPELLED[1..] == [] && "{y}{z}" + "" == "{y}{z}";
    assert [Text("{y}{z}")] + [] == SPELLED;
  }

  lemma EitherOrderUndoes(order: seq<string>)
    requires IsOrder(order, UNDOING)
    ensures Substituted("{y}{z}", UNDOING, order) == "{y}{z}"
  {
    OrderOfTwo(order);
    YGrows();
    if order == ["y"] + ["z"] {
      InTurn("y", "z");
      YThenZ();
    } else {
      InTurn("z", "y");
      ZFirst();
      ZThenY();
    }
  }

  /** In general the final texts do not decide. Here every order ends with the
      simultaneous text, although replacing `{y}` spoils it each time: replacing `{z}`
      undoes that. */
  lemma FinalTextsDoNotDecide()
    ensures Named(SPELLED, UNDOING) && EveryOrderGives(SPELLED, UNDOING)
    ensures !LastIsAsMeant(SPELLED, UNDOING, "y")
  {
    TextIsAll(UNDOING.Keys - {"y"});
    YGrows();
    forall order | IsOrder(order, UNDOING)
      ensures Substituted(Render(SPELLED), UNDOING, order) == Filled(SPELLED, UNDOING)
    {
      EitherOrderUndoes(order);
    }
  }

  lemma InTurn(a: string, b: string)
    requires a in UNDOING && b in UNDOING
    ensures Substituted("{y}{z}", UNDOING, [a] + [b])
            == ReplaceAll(ReplaceAll("{y}{z}", Placeholder(a), UNDOING[a]), Placeholder(b), UNDOING[b])
  {
    SubstitutedInTurn("{y}{z}", UNDOING, [a], [b]);
    OneMore("{y}{z}", UNDOING, a);
    OneMore(Substituted("{y}{z}", UNDOING, [a]), UNDOING, b);
  }
}
