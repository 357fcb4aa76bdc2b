/** Placeholder substitution of the command adapter. The order in which the
    placeholders are replaced is the iteration order of a Go map: any order. */
module Template {
  import opened Common

  predicate IsPrefix(p: string, s: string) {
    |p| <= |s| && s[..|p|] == p
  }

  /** strings.ReplaceAll for a non-empty pattern: leftmost, non-overlapping. */
  function ReplaceAll(s: string, pattern: string, value: string): string
    requires pattern != ""
    decreases |s|
  {
    if s == "" then ""
    else if IsPrefix(pattern, s) then value + ReplaceAll(s[|pattern|..], pattern, value)
    else [s[0]] + ReplaceAll(s[1..], pattern, value)
  }

  /** A placeholder is a name in braces; the name itself has no braces. */
  predicate IsName(name: string) {
    '{' !in name && '}' !in name
  }

  function Placeholder(name: string): string {
    "{" + name + "}"
  }

  /** The substitution loop, for one iteration order of the map's keys. */
  function Substituted(token: string, values: map<string, string>, order: seq<string>): string
    requires forall i :: 0 <= i < |order| ==> order[i] in values
    decreases |order|
  {
    if order == [] then token
    else Substituted(ReplaceAll(token, Placeholder(order[0]), values[order[0]]), values, order[1..])
  }

  method Substitute(token: string, values: map<string, string>, order: seq<string>) returns (result: string)
    requires forall i :: 0 <= i < |order| ==> order[i] in values
    ensures result == Substituted(token, values, order)
  {
    result := token;
    for i := 0 to |order|
      invariant Substituted(token, values, order) == Substituted(result, values, order[i..])
    {
      assert order[i..][1..] == order[i + 1..];
      result := ReplaceAll(result, Placeholder(order[i]), values[order[i]]);
    }
  }

  /** The argv of a resume command; the map is ranged over anew for every token. */
  method SubstituteAll(tokens: seq<string>, values: map<string, string>, orders: seq<seq<string>>)
    returns (args: seq<string>)
    requires |orders| == |tokens|
    requires forall i, j :: 0 <= i < |orders| && 0 <= j < |orders[i]| ==> orders[i][j] in values
    ensures |args| == |tokens|
    ensures forall i :: 0 <= i < |tokens| ==> args[i] == Substituted(tokens[i], values, orders[i])
  {
    args := [];
    for index := 0 to |tokens|
      invariant |args| == index
      invariant forall i :: 0 <= i < index ==> args[i] == Substituted(tokens[i], values, orders[i])
    {
      var argument := Substitute(tokens[index], values, orders[index]);
      args := args + [argument];
    }
  }

  // ------------------------------------------------------ simultaneous meaning

  /** A token as the author of a template means it. */
  datatype Piece = Text(text: string) | Hole(name: string)

  function Rendered(piece: Piece): string {
    match piece case Text(t) => t case Hole(n) => Placeholder(n)
  }

  function Render(pieces: seq<Piece>): string {
    if pieces == [] then "" else Rendered(pieces[0]) + Render(pieces[1..])
  }

  /** All holes filled at once, from left to right. */
  function Filled(pieces: seq<Piece>, values: map<string, string>): string {
    if pieces == [] then ""
    else
      (match pieces[0]
       case Text(t) => t
       case Hole(n) => if n in values then values[n] else Placeholder(n))
      + Filled(pieces[1..], values)
  }

  /** Texts open no placeholder, and holes have names. */
  ghost predicate Plain(pieces: seq<Piece>) {
    forall i :: 0 <= i < |pieces| ==>
      match pieces[i] case Text(t) => '{' !in t case Hole(n) => IsName(n)
  }

  /** One hole filled, the others left open. */
  function FillOne(pieces: seq<Piece>, name: string, value: string): seq<Piece> {
    if pieces == [] then []
    else [if pieces[0] == Hole(name) then Text(value) else pieces[0]] + FillOne(pieces[1..], name, value)
  }

  lemma {:induction false} ReplaceSkips(front: string, back: string, name: string, value: string)
    requires '{' !in front
    ensures ReplaceAll(front + back, Placeholder(name), value) == front + ReplaceAll(back, Placeholder(name), value)
  {
    var s := front + back;
    if front == "" {
      assert s == back;
    } else {
      assert s[0] == front[0] && Placeholder(name)[0] == '{';
      assert s[1..] == front[1..] + back;
      ReplaceSkips(front[1..], back, name, value);
      assert front == [front[0]] + front[1..];
    }
  }

  lemma ReplaceHits(back: string, name: string, value: string)
    ensures ReplaceAll(Placeholder(name) + back, Placeholder(name), value)
            == value + ReplaceAll(back, Placeholder(name), value)
  {
    var s := Placeholder(name) + back;
    assert s[..|Placeholder(name)|] == Placeholder(name) && s[|Placeholder(name)|..] == back;
  }

  lemma {:induction false} NamesDiffer(name: string, other: string, back: string)
    requires IsName(name) && IsName(other) && name != other
    ensures !IsPrefix(name + "}", other + "}" + back)
  {
    var p, s := name + "}", other + "}" + back;
    assert s != "" && p[0] == (if name == "" then '}' else name[0]) && s[0] == (if other == "" then '}' else other[0]);
    if name != "" && other != "" && name[0] == other[0] {
      assert name == [name[0]] + name[1..] && other == [other[0]] + other[1..];
      NamesDiffer(name[1..], other[1..], back);
      PrefixTail(p, s);
      assert p[1..] == name[1..] + "}" && s[1..] == other[1..] + "}" + back;
    } else {
      assert |p| <= |s| ==> s[..|p|][0] == s[0];
    }
  }

  lemma PrefixTail(p: string, s: string)
    requires p != "" && s != "" && p[0] == s[0]
    ensures IsPrefix(p, s) <==> IsPrefix(p[1..], s[1..])
  {
    if |p| <= |s| {
      assert s[1..][..|p| - 1] == s[..|p|][1..];
      assert s[..|p|] == [s[0]] + s[..|p|][1..] && p == [p[0]] + p[1..];
    }
  }

  /** A placeholder never matches at the start of a different one. */
  lemma OtherPlaceholder(other: string, back: string, name: string)
    requires IsName(name) && IsName(other) && name != other
    ensures !IsPrefix(Placeholder(name), Placeholder(other) + back)
  {
    var p, s := Placeholder(name), Placeholder(other) + back;
    NamesDiffer(name, other, back);
    PrefixTail(p, s);
    assert p[1..] == name + "}" && s[1..] == other + "}" + back;
  }

  /** One replacement of the text fills one hole of the meaning. */
  lemma {:induction false} ReplaceFillsOne(pieces: seq<Piece>, name: string, value: string)
    requires Plain(pieces) && IsName(name)
    ensures ReplaceAll(Render(pieces), Placeholder(name), value) == Render(FillOne(pieces, name, value))
  {
    if pieces != [] {
      ReplaceFillsOne(pieces[1..], name, value);
      var rest := Render(pieces[1..]);
      match pieces[0]
      case Text(t) => ReplaceSkips(t, rest, name, value);
      case Hole(n) =>
        if n == name { ReplaceHits(rest, name, value); } else { ReplaceSkipsHole(n, rest, name, value); }
    }
  }

  lemma ReplaceSkipsHole(other: string, back: string, name: string, value: string)
    requires IsName(name) && IsName(other) && name != other
    ensures ReplaceAll(Placeholder(other) + back, Placeholder(name), value)
            == Placeholder(other) + ReplaceAll(back, Placeholder(name), value)
  {
    var s := Placeholder(other) + back;
    OtherPlaceholder(other, back, name);
    assert s[1..] == (other + "}") + back;
    ReplaceSkips(other + "}", back, name, value);
    assert Placeholder(other) == ['{'] + (other + "}");
  }

  lemma {:induction false} FillOneKeepsPlain(pieces: seq<Piece>, name: string, value: string)
    requires Plain(pieces) && (Hole(name) in pieces ==> '{' !in value)
    ensures Plain(FillOne(pieces, name, value))
    ensures forall n :: Hole(n) in FillOne(pieces, name, value) <==> n != name && Hole(n) in pieces
  {
    if pieces != [] {
      assert pieces == [pieces[0]] + pieces[1..];
      FillOneKeepsPlain(pieces[1..], name, value);
      var rest := FillOne(pieces[1..], name, value);
      var all := FillOne(pieces, name, value);
      assert all[0] == if pieces[0] == Hole(name) then Text(value) else pieces[0];
      assert forall i :: 1 <= i < |all| ==> all[i] == rest[i - 1];
    }
  }

  lemma {:induction false} FilledLater(pieces: seq<Piece>, name: string, values: map<string, string>)
    requires name in values
    ensures Filled(FillOne(pieces, name, values[name]), values) == Filled(pieces, values)
  {
    if pieces != [] {
      FilledLater(pieces[1..], name, values);
      var rest := FillOne(pieces[1..], name, values[name]);
      var all := FillOne(pieces, name, values[name]);
      assert all[1..] == rest;
    }
  }

  lemma {:induction false} NothingLeft(pieces: seq<Piece>, values: map<string, string>)
    requires forall n :: Hole(n) in pieces ==> n !in values
    ensures Filled(pieces, values) == Render(pieces)
  {
    if pieces != [] {
      assert pieces == [pieces[0]] + pieces[1..];
      NothingLeft(pieces[1..], values);
      assert pieces[0].Hole? ==> Hole(pieces[0].name) in pieces;
    }
  }

  /** Confluence: when no text and no value that is used opens a brace, every
      iteration order of the map gives the simultaneous substitution. Values of
      placeholders that the token does not use, such as the prompt, are free. */
  lemma {:induction false} SubstitutionIsConfluent(pieces: seq<Piece>, values: map<string, string>, order: seq<string>)
    requires Plain(pieces)
    requires forall i :: 0 <= i < |order| ==> order[i] in values && IsName(order[i])
    requires forall n :: Hole(n) in pieces && n in values ==> n in order && '{' !in values[n]
    ensures Substituted(Render(pieces), values, order) == Filled(pieces, values)
    decreases |order|
  {
    if order == [] {
      NothingLeft(pieces, values);
    } else {
      var name := order[0];
      var next := FillOne(pieces, name, values[name]);
      ReplaceFillsOne(pieces, name, values[name]);
      FillOneKeepsPlain(pieces, name, values[name]);
      FilledLater(pieces, name, values);
      assert order == [order[0]] + order[1..];
      SubstitutionIsConfluent(next, values, order[1..]);
    }
  }

  /** The substitutions `Run` offers; the prompt carries the untrusted event. */
  function RunValues(runtimeSession: string, workspace: string, server: string, toolsJson: string, toolsCsv: string,
                     prompt: string)
    : map<string, string>
  {
    map["runtime_session_id" := runtimeSession, "workspace" := workspace, "mcp_server" := server,
        "mcp_tools_json" := toolsJson, "mcp_tools_prefixed_csv" := toolsCsv, "prompt" := prompt]
  }

  /** A token that does not use the prompt comes out the same for every order,
      whatever the event says, when the binding's own values open no brace. */
  lemma EventNeverReachesOtherTokens(pieces: seq<Piece>, order: seq<string>, runtimeSession: string, workspace: string,
                                     server: string, toolsJson: string, toolsCsv: string, prompt: string, other: string)
    requires Plain(pieces) && Hole("prompt") !in pieces
    requires '{' !in runtimeSession && '{' !in workspace && '{' !in server && '{' !in toolsJson && '{' !in toolsCsv
    requires forall n :: n in order <==> n in RunValues(runtimeSession, workspace, server, toolsJson, toolsCsv, prompt)
    ensures var values := RunValues(runtimeSession, workspace, server, toolsJson, toolsCsv, prompt);
            && Substituted(Render(pieces), values, order) == Filled(pieces, values)
            && Filled(pieces, values)
               == Filled(pieces, RunValues(runtimeSession, workspace, server, toolsJson, toolsCsv, other))
  {
    var values := RunValues(runtimeSession, workspace, server, toolsJson, toolsCsv, prompt);
    forall i | 0 <= i < |order| ensures order[i] in values && IsName(order[i]) {
      assert order[i] in order;
      assert order[i] in {"runtime_session_id", "workspace", "mcp_server", "mcp_tools_json",
                          "mcp_tools_prefixed_csv", "prompt"};
    }
    SubstitutionIsConfluent(pieces, values, order);
    FilledWithoutPrompt(pieces, values, RunValues(runtimeSession, workspace, server, toolsJson, toolsCsv, other));
  }

  lemma {:induction false} FilledWithoutPrompt(pieces: seq<Piece>, a: map<string, string>, b: map<string, string>)
    requires a.Keys == b.Keys && forall n :: n in a && n != "prompt" ==> a[n] == b[n]
    requires Hole("prompt") !in pieces
    ensures Filled(pieces, a) == Filled(pieces, b)
  {
    if pieces != [] {
      assert pieces == [pieces[0]] + pieces[1..];
      FilledWithoutPrompt(pieces[1..], a, b);
      assert pieces[0] in pieces;
    }
  }

  // --------------------------------------- when the order can be seen, exactly

  /** The pattern is somewhere in the text. */
  predicate Occurs(text: string, pattern: string) {
    text != "" && (IsPrefix(pattern, text) || Occurs(text[1..], pattern))
  }

  /** A replacement lengthens, shortens, or leaves the length, as its value does. */
  lemma {:induction false} ReplaceLength(text: string, pattern: string, value: string)
    requires pattern != ""
    ensures |value| == |pattern| ==> |ReplaceAll(text, pattern, value)| == |text|
    ensures |value| > |pattern| ==>
              |ReplaceAll(text, pattern, value)| >= |text| + if Occurs(text, pattern) then 1 else 0
    ensures |value| < |pattern| ==>
              |ReplaceAll(text, pattern, value)| <= |text| - if Occurs(text, pattern) then 1 else 0
    decreases |text|
  {
    if text != "" {
      if IsPrefix(pattern, text) {
        ReplaceLength(text[|pattern|..], pattern, value);
      } else {
        ReplaceLength(text[1..], pattern, value);
      }
    }
  }

  /** A replacement leaves a text as it is exactly when the pattern is not in it,
      or is replaced by itself. */
  lemma {:induction false} ReplaceFixesIff(text: string, pattern: string, value: string)
    requires pattern != ""
    ensures ReplaceAll(text, pattern, value) == text <==> !Occurs(text, pattern) || value == pattern
    decreases |text|
  {
    ReplaceLength(text, pattern, value);
    if text != "" && |value| == |pattern| {
      if IsPrefix(pattern, text) {
        var rest := text[|pattern|..];
        ReplaceFixesIff(rest, pattern, value);
        assert text == pattern + rest;
        assert (value + ReplaceAll(rest, pattern, value))[..|pattern|] == value;
        assert value == pattern ==> value + ReplaceAll(rest, pattern, value) == text;
      } else {
        ReplaceFixesIff(text[1..], pattern, value);
        assert text == [text[0]] + text[1..];
        assert ([text[0]] + ReplaceAll(text[1..], pattern, value))[1..] == ReplaceAll(text[1..], pattern, value);
      }
    } else if !Occurs(text, pattern) {
      ReplaceAbsent(text, pattern, value);
    }
  }

  lemma {:induction false} ReplaceAbsent(text: string, pattern: string, value: string)
    requires pattern != "" && !Occurs(text, pattern)
    ensures ReplaceAll(text, pattern, value) == text
    decreases |text|
  {
    if text != "" { ReplaceAbsent(text[1..], pattern, value); }
  }

  /** An iteration order of the map: each key once. */
  ghost predicate IsOrder(order: seq<string>, values: map<string, string>) {
    && (forall n :: n in order <==> n in values)
    && (forall i, j :: 0 <= i < j < |order| ==> order[i] != order[j])
  }

  /** Every listed name's replacement leaves the text as it is. */
  ghost predicate Fixes(text: string, values: map<string, string>, order: seq<string>) {
    forall i :: 0 <= i < |order| ==>
      order[i] in values && ReplaceAll(text, Placeholder(order[i]), values[order[i]]) == text
  }

  lemma {:induction false} FixedStays(text: string, values: map<string, string>, order: seq<string>)
    requires Fixes(text, values, order)
    ensures Substituted(text, values, order) == text
    decreases |order|
  {
    if order != [] {
      assert ReplaceAll(text, Placeholder(order[0]), values[order[0]]) == text;
      FixedStays(text, values, order[1..]);
    }
  }

  lemma {:induction false} SubstitutedInTurn(token: string, values: map<string, string>, a: seq<string>, b: seq<string>)
    requires forall i :: 0 <= i < |a| ==> a[i] in values
    requires forall i :: 0 <= i < |b| ==> b[i] in values
    ensures Substituted(token, values, a + b) == Substituted(Substituted(token, values, a), values, b)
    decreases |a|
  {
    if a == [] {
      assert a + b == b;
    } else {
      assert (a + b)[1..] == a[1..] + b;
      SubstitutedInTurn(ReplaceAll(token, Placeholder(a[0]), values[a[0]]), values, a[1..], b);
    }
  }

  lemma {:induction false} FillOneAbsent(pieces: seq<Piece>, name: string, value: string)
    requires Hole(name) !in pieces
    ensures FillOne(pieces, name, value) == pieces
  {
    if pieces != [] {
      assert pieces == [pieces[0]] + pieces[1..] && pieces[0] in pieces;
      FillOneAbsent(pieces[1..], name, value);
    }
  }

  lemma {:induction false} FillOneHoles(pieces: seq<Piece>, name: string, value: string)
    ensures forall n :: Hole(n) in FillOne(pieces, name, value) ==> n != name && Hole(n) in pieces
  {
    if pieces != [] {
      FillOneHoles(pieces[1..], name, value);
      assert pieces == [pieces[0]] + pieces[1..];
    }
  }

  /** A token whose only placeholder among the keys is `name`. */
  ghost predicate UsesOnly(pieces: seq<Piece>, values: map<string, string>, name: string) {
    && Plain(pieces) && name in values
    && (forall n :: n in values ==> IsName(n))
    && (forall n :: Hole(n) in pieces && n in values ==> n == name)
  }

  /** Up to and including its own name, an order fills the token; after that it
      works on the filled text. */
  lemma FilledThenOthers(pieces: seq<Piece>, values: map<string, string>, name: string, a: seq<string>, b: seq<string>)
    requires UsesOnly(pieces, values, name)
    requires forall i :: 0 <= i < |a| ==> a[i] in values && a[i] != name
    requires forall i :: 0 <= i < |b| ==> b[i] in values
    ensures Substituted(Render(pieces), values, a + ([name] + b)) == Substituted(Filled(pieces, values), values, b)
  {
    var token, filled := Render(pieces), FillOne(pieces, name, values[name]);
    forall i | 0 <= i < |a| ensures ReplaceAll(token, Placeholder(a[i]), values[a[i]]) == token {
      ReplaceFillsOne(pieces, a[i], values[a[i]]);
      FillOneAbsent(pieces, a[i], values[a[i]]);
    }
    SubstitutedInTurn(token, values, a, [name] + b);
    FixedStays(token, values, a);
    assert ([name] + b)[1..] == b;
    ReplaceFillsOne(pieces, name, values[name]);
    FillOneHoles(pieces, name, values[name]);
    NothingLeft(filled, values);
    FilledLater(pieces, name, values);
  }

  /** An order of the keys, without some of them. */
  lemma {:induction false} Listing(keys: set<string>) returns (order: seq<string>)
    ensures forall n :: n in order <==> n in keys
    ensures forall i, j :: 0 <= i < j < |order| ==> order[i] != order[j]
    decreases |keys|
  {
    if keys == {} {
      order := [];
    } else {
      var n :| n in keys;
      var rest := Listing(keys - {n});
      order := [n] + rest;
      assert forall i :: 0 <= i < |rest| ==> rest[i] in rest;
    }
  }

  /** A name in the filled text that does not stand for itself makes the order
      visible: put last it changes the text, and before `name` it does not. */
  lemma PromptMakesOrderVisible(pieces: seq<Piece>, values: map<string, string>, name: string, other: string)
    returns (late: seq<string>, early: seq<string>)
    requires UsesOnly(pieces, values, name) && other in values && other != name
    requires Occurs(Filled(pieces, values), Placeholder(other)) && values[other] != Placeholder(other)
    ensures IsOrder(late, values) && IsOrder(early, values)
    ensures Substituted(Render(pieces), values, early) == Filled(pieces, values)
    ensures Substituted(Render(pieces), values, late) != Filled(pieces, values)
  {
    var rest := Listing(values.Keys - {name, other});
    assert forall i :: 0 <= i < |rest| ==> rest[i] in rest;
    late, early := rest + ([name] + [other]), rest + ([other] + [name]);
    PutLast(rest, name, other, values);
    PutLast(rest, other, name, values);
    assert early == (rest + [other]) + ([name] + []);
    FilledThenOthers(pieces, values, name, rest, [other]);
    FilledThenOthers(pieces, values, name, rest + [other], []);
    OneMore(Filled(pieces, values), values, other);
    ReplaceFixesIff(Filled(pieces, values), Placeholder(other), values[other]);
  }

  lemma PutLast(rest: seq<string>, x: string, y: string, values: map<string, string>)
    requires x in values && y in values && x != y
    requires forall n :: n in rest <==> n in values && n != x && n != y
    requires forall i, j :: 0 <= i < j < |rest| ==> rest[i] != rest[j]
    ensures IsOrder(rest + ([x] + [y]), values)
  {
    var all := rest + ([x] + [y]);
    assert all[|rest|] == x && all[|rest| + 1] == y;
    forall i, j | 0 <= i < j < |all| ensures all[i] != all[j] {
      if i < |rest| { assert rest[i] in rest; }
    }
    forall n ensures n in all <==> n in values {
      assert n in all <==> n in rest || n == x || n == y;
    }
  }

  lemma OneMore(text: string, values: map<string, string>, name: string)
    requires name in values
    ensures Substituted(text, values, [name]) == ReplaceAll(text, Placeholder(name), values[name])
  {
    assert [name][1..] == [];
  }

  lemma OrderSplits(order: seq<string>, values: map<string, string>, name: string)
    returns (a: seq<string>, b: seq<string>)
    requires IsOrder(order, values) && name in values
    ensures order == a + ([name] + b)
    ensures forall i :: 0 <= i < |a| ==> a[i] in values && a[i] != name
    ensures forall i :: 0 <= i < |b| ==> b[i] in values && b[i] != name
  {
    assert name in order;
    var k :| 0 <= k < |order| && order[k] == name;
    a, b := order[..k], order[k + 1..];
    forall i | 0 <= i < |a| ensures a[i] in values && a[i] != name {
      assert a[i] == order[i] && order[i] in order;
    }
    forall i | 0 <= i < |b| ensures b[i] in values && b[i] != name {
      assert b[i] == order[k + 1 + i] && order[k + 1 + i] in order;
    }
    Reassembled(order, k);
  }

  lemma Reassembled(order: seq<string>, k: nat)
    requires k < |order|
    ensures order == order[..k] + ([order[k]] + order[k + 1..])
  {
  }

  /** The exact condition for one placeholder. All iteration orders of the map
      give the simultaneous substitution exactly when every other placeholder
      that the filled text spells stands for itself. */
  lemma OrderIsInvisibleIff(pieces: seq<Piece>, values: map<string, string>, name: string)
    requires UsesOnly(pieces, values, name)
    ensures (forall order :: IsOrder(order, values) ==>
               Substituted(Render(pieces), values, order) == Filled(pieces, values))
            <==> forall n :: n in values && n != name && Occurs(Filled(pieces, values), Placeholder(n)) ==>
                   values[n] == Placeholder(n)
  {
    var text := Filled(pieces, values);
    if n :| n in values && n != name && Occurs(text, Placeholder(n)) && values[n] != Placeholder(n) {
      var late, early := PromptMakesOrderVisible(pieces, values, name, n);
    } else {
      forall order | IsOrder(order, values) ensures Substituted(Render(pieces), values, order) == text {
        var a, b := OrderSplits(order, values, name);
        FilledThenOthers(pieces, values, name, a, b);
        forall i | 0 <= i < |b| ensures ReplaceAll(text, Placeholder(b[i]), values[b[i]]) == text {
          ReplaceFixesIff(text, Placeholder(b[i]), values[b[i]]);
        }
        FixedStays(text, values, b);
      }
    }
  }

  /** The untrusted prompt reaches the command unchanged, in every order, exactly
      when it spells no other placeholder, except one that stands for itself. */
  lemma PromptIsVerbatimIff(runtimeSession: string, workspace: string, server: string, toolsJson: string,
                            toolsCsv: string, prompt: string)
    ensures var values := RunValues(runtimeSession, workspace, server, toolsJson, toolsCsv, prompt);
            (forall order :: IsOrder(order, values) ==> Substituted(Placeholder("prompt"), values, order) == prompt)
            <==> forall n :: n in values && n != "prompt" && Occurs(prompt, Placeholder(n)) ==>
                   values[n] == Placeholder(n)
  {
    var values := RunValues(runtimeSession, workspace, server, toolsJson, toolsCsv, prompt);
    assert values["prompt"] == prompt && forall n :: n in values ==> IsName(n);
    OneHole("prompt", values);
    OrderIsInvisibleIff([Hole("prompt")], values, "prompt");
  }

  lemma OneHole(name: string, values: map<string, string>)
    requires name in values && IsName(name)
    ensures Render([Hole(name)]) == Placeholder(name) && Filled([Hole(name)], values) == values[name]
  {
    assert Render([Hole(name)]) == Placeholder(name) + "" == Placeholder(name);
    assert Filled([Hole(name)], values) == values[name] + "" == values[name];
  }
}
