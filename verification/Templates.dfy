/** E-mail templates: repeated `strings.ReplaceAll` in the arbitrary order of a Go map, and when that
    order does not matter. */
module Templates {
  import opened Text

  /** `strings.ReplaceAll` for a non-empty pattern: leftmost matches, not overlapping. */
  function ReplaceAll(s: string, pattern: string, value: string): string
    requires pattern != ""
  {
    if |s| < |pattern| then s
    else if pattern <= s then value + ReplaceAll(s[|pattern|..], pattern, value)
    else [s[0]] + ReplaceAll(s[1..], pattern, value)
  }

  function Placeholder(key: string): (r: string)
    ensures r != ""
  {
    "{{" + key + "}}"
  }

  /** The values filled in one key after the other. */
  function RenderIn(s: string, data: map<string, string>, order: seq<string>): string
    requires forall k :: k in order ==> k in data
    decreases |order|
  {
    if order == [] then s
    else RenderIn(ReplaceAll(s, Placeholder(order[0]), data[order[0]]), data, order[1..])
  }

  lemma {:induction false} RenderMore(s: string, data: map<string, string>, order: seq<string>, k: string)
    requires k in data && forall x :: x in order ==> x in data
    ensures RenderIn(s, data, order + [k]) == ReplaceAll(RenderIn(s, data, order), Placeholder(k), data[k])
    decreases |order|
  {
    if order == [] {
      assert order + [k] == [k];
      assert [k][1..] == [];
    } else {
      assert (order + [k])[1..] == order[1..] + [k];
      RenderMore(ReplaceAll(s, Placeholder(order[0]), data[order[0]]), data, order[1..], k);
    }
  }

  ghost predicate RendersTo(s: string, data: map<string, string>, r: string) {
    exists order :: Enumerates(order, data.Keys) && r == RenderIn(s, data, order)
  }

  /** `renderTemplateString`. */
  method Render(s: string, data: map<string, string>) returns (r: string)
    ensures RendersTo(s, data, r)
  {
    hide RenderIn;
    r := s;
    ghost var order: seq<string> := [];
    assert r == RenderIn(s, data, order) by { NothingRendered(s, data); }
    var todo := data.Keys;
    while todo != {}
      invariant todo <= data.Keys
      invariant forall k :: k in order <==> k in data && k !in todo
      invariant forall i, j :: 0 <= i < j < |order| ==> order[i] != order[j]
      invariant r == RenderIn(s, data, order)
      decreases todo
    {
      var k :| k in todo;
      todo := todo - {k};
      RenderMore(s, data, order, k);
      r := ReplaceAll(r, Placeholder(k), data[k]);
      order := order + [k];
    }
    assert Enumerates(order, data.Keys);
  }

  lemma NothingRendered(s: string, data: map<string, string>)
    ensures RenderIn(s, data, []) == s
  {
  }

  // ----- templates as pieces -----

  datatype Piece = Literal(text: string) | Hole(key: string)

  predicate BraceFree(s: string) {
    '{' !in s && '}' !in s
  }

  /** Opening braces, if any, stand alone and not at the start, so that no two can meet. */
  predicate Calm(s: string) {
    forall i :: 0 <= i < |s| && s[i] == '{' ==> i > 0 && s[i - 1] != '{'
  }

  /** Calm literals, and placeholders of brace-free keys. */
  ghost predicate WellFormed(pieces: seq<Piece>) {
    forall p :: p in pieces ==> if p.Literal? then Calm(p.text) else BraceFree(p.key)
  }

  ghost predicate BraceFreeKeys(data: map<string, string>) {
    forall k :: k in data ==> BraceFree(k)
  }

  /** Brace-free keys, and calm values. */
  ghost predicate PlainData(data: map<string, string>) {
    BraceFreeKeys(data) && forall k :: k in data ==> Calm(data[k])
  }

  function Show(p: Piece): string {
    if p.Literal? then p.text else Placeholder(p.key)
  }

  /** The template string of some pieces. */
  function Shown(pieces: seq<Piece>): string {
    if pieces == [] then "" else Show(pieces[0]) + Shown(pieces[1..])
  }

  /** Simultaneous substitution: every hole with a value gets it, all at once. */
  function Filled(pieces: seq<Piece>, data: map<string, string>): (r: seq<Piece>)
    ensures |r| == |pieces|
  {
    seq(|pieces|, i requires 0 <= i < |pieces| =>
      if pieces[i].Hole? && pieces[i].key in data then Literal(data[pieces[i].key]) else pieces[i])
  }

  // ----- one replacement -----

  /** A brace at the start is one of two. */
  predicate OpensInPairs(s: string) {
    s != "" && s[0] == '{' ==> |s| > 1 && s[1] == '{'
  }

  lemma {:induction false} ShownOpens(pieces: seq<Piece>)
    requires WellFormed(pieces)
    ensures OpensInPairs(Shown(pieces))
  {
    if pieces != [] {
      assert pieces[0] in pieces;
      ShownOpens(pieces[1..]);
    }
  }

  /** No placeholder begins inside a stretch in which no two opening braces meet. */
  lemma {:induction false} Copied(t: string, rest: string, key: string, value: string)
    requires (forall i :: 0 < i < |t| && t[i] == '{' ==> t[i - 1] != '{') && OpensInPairs(rest) && BraceFree(key)
    ensures ReplaceAll(t + rest, Placeholder(key), value) == t + ReplaceAll(rest, Placeholder(key), value)
  {
    hide ReplaceAll;
    var pattern, s := Placeholder(key), t + rest;
    if t == "" {
      assert s == rest && t + ReplaceAll(rest, pattern, value) == ReplaceAll(rest, pattern, value);
    } else {
      assert s[1..] == t[1..] + rest;
      Copied(t[1..], rest, key, value);
      assert pattern[0] == pattern[1] == '{' && pattern[2] != '{';
      assert |s| > 2 && s[0] == s[1] == '{' ==> s[2] == '{' by { if |t| == 1 { assert s[1..] == rest; } }
      assert !(pattern <= s);
      ShortCopied(s, pattern, value);
      assert [t[0]] + (t[1..] + ReplaceAll(rest, pattern, value)) == t + ReplaceAll(rest, pattern, value);
    }
  }

  /** Brace-free keys are told apart by their placeholders, whatever follows. */
  lemma PlaceholderMatch(key: string, other: string, rest: string)
    requires BraceFree(key) && BraceFree(other) && Placeholder(key) <= Placeholder(other) + rest
    ensures key == other
  {
    var p, s := Placeholder(key), Placeholder(other) + rest;
    assert forall i :: 0 <= i < |p| ==> p[i] == s[i];
    assert forall i :: 0 <= i < |key| ==> p[2 + i] == key[i] && p[2 + i] != '}';
    assert forall i :: 0 <= i < |other| ==> s[2 + i] == other[i] && s[2 + i] != '}';
    assert p[2 + |key|] == '}' && s[2 + |other|] == '}';
    assert |key| == |other|;
    assert key == p[2..2 + |key|] && other == s[2..2 + |key|];
  }

  /** The placeholder of another key is copied. */
  lemma OtherHoleCopied(other: string, rest: string, key: string, value: string)
    requires BraceFree(key) && BraceFree(other) && key != other && OpensInPairs(rest)
    ensures ReplaceAll(Placeholder(other) + rest, Placeholder(key), value)
         == Placeholder(other) + ReplaceAll(rest, Placeholder(key), value)
  {
    hide ReplaceAll;
    var pattern, s, tail := Placeholder(key), Placeholder(other) + rest, other + "}}" + rest;
    if pattern <= s { PlaceholderMatch(key, other, rest); }
    assert s == "{{" + tail && s[1..] == "{" + tail && s[1..][1..] == tail;
    assert !(pattern <= s[1..]) by {
      assert s[1..][1] != '{' && pattern[1] == '{';
    }
    ShortCopied(s, pattern, value);
    ShortCopied(s[1..], pattern, value);
    assert tail == (other + "}}") + rest;
    Copied(other + "}}", rest, key, value);
    var done := ReplaceAll(rest, pattern, value);
    assert "{" + ("{" + ((other + "}}") + done)) == Placeholder(other) + done;
  }

  lemma ShortCopied(s: string, pattern: string, value: string)
    requires pattern != "" && s != "" && !(pattern <= s)
    ensures ReplaceAll(s, pattern, value) == [s[0]] + ReplaceAll(s[1..], pattern, value)
  {
    if |s| < |pattern| { assert [s[0]] + s[1..] == s; }
  }

  lemma OwnHoleReplaced(rest: string, key: string, value: string)
    ensures ReplaceAll(Placeholder(key) + rest, Placeholder(key), value) == value + ReplaceAll(rest, Placeholder(key), value)
  {
    assert (Placeholder(key) + rest)[|Placeholder(key)|..] == rest;
  }

  /** Replacing one placeholder in a well-formed template fills exactly the holes of that key. The value
      may be anything. */
  lemma {:induction false} ReplaceFills(pieces: seq<Piece>, key: string, value: string)
    requires WellFormed(pieces) && BraceFree(key)
    ensures ReplaceAll(Shown(pieces), Placeholder(key), value) == Shown(Filled(pieces, map[key := value]))
  {
    hide ReplaceAll;
    var data := map[key := value];
    if pieces == [] {
      assert Filled(pieces, data) == [];
      EmptyCopied(key, value);
    } else {
      var p, more := pieces[0], pieces[1..];
      assert p in pieces;
      ReplaceFills(more, key, value);
      ShownOpens(more);
      assert Filled(pieces, data)[1..] == Filled(more, data);
      if p.Literal? {
        Copied(p.text, Shown(more), key, value);
      } else if p.key == key {
        OwnHoleReplaced(Shown(more), key, value);
      } else {
        OtherHoleCopied(p.key, Shown(more), key, value);
      }
    }
  }

  lemma EmptyCopied(key: string, value: string)
    ensures ReplaceAll("", Placeholder(key), value) == ""
  {
  }

  // ----- confluence -----

  lemma FilledOnce(pieces: seq<Piece>, key: string, data: map<string, string>)
    requires WellFormed(pieces) && key in data && PlainData(data)
    ensures WellFormed(Filled(pieces, map[key := data[key]]))
    ensures Filled(Filled(pieces, map[key := data[key]]), data - {key}) == Filled(pieces, data)
  {
    var one := Filled(pieces, map[key := data[key]]);
    forall p | p in one ensures if p.Literal? then Calm(p.text) else BraceFree(p.key) {
      var i :| 0 <= i < |one| && one[i] == p;
      assert pieces[i] in pieces;
    }
  }

  lemma {:induction false} RenderFills(pieces: seq<Piece>, data: map<string, string>, order: seq<string>)
    requires WellFormed(pieces) && PlainData(data) && Enumerates(order, data.Keys)
    ensures RenderIn(Shown(pieces), data, order) == Shown(Filled(pieces, data))
    decreases |order|
  {
    if order == [] {
      assert Filled(pieces, data) == pieces;
    } else {
      var k, left := order[0], data - {order[0]};
      assert k in order;
      ReplaceFills(pieces, k, data[k]);
      FilledOnce(pieces, k, data);
      forall x ensures x in order[1..] <==> x in left {
        if x in order[1..] { var i :| 0 <= i < |order[1..]| && order[1..][i] == x; assert order[i + 1] == x; }
      }
      RenderFills(Filled(pieces, map[k := data[k]]), left, order[1..]);
      RenderLess(Shown(Filled(pieces, map[k := data[k]])), data, left, order[1..]);
    }
  }

  lemma {:induction false} RenderLess(s: string, data: map<string, string>, left: map<string, string>, order: seq<string>)
    requires forall k :: k in order ==> k in left && k in data && left[k] == data[k]
    ensures RenderIn(s, data, order) == RenderIn(s, left, order)
    decreases |order|
  {
    if order != [] { RenderLess(ReplaceAll(s, Placeholder(order[0]), data[order[0]]), data, left, order[1..]); }
  }

  /** Confluence: with brace-free keys, and calm values and literals, every iteration order gives the
      simultaneous substitution. */
  lemma Confluent(pieces: seq<Piece>, data: map<string, string>, a: seq<string>, b: seq<string>)
    requires WellFormed(pieces) && PlainData(data) && Enumerates(a, data.Keys) && Enumerates(b, data.Keys)
    ensures RenderIn(Shown(pieces), data, a) == RenderIn(Shown(pieces), data, b) == Shown(Filled(pieces, data))
  {
    RenderFills(pieces, data, a);
    RenderFills(pieces, data, b);
  }

  /** What `Render` returns for such a template, whatever order it happened to take. */
  lemma RenderedOnce(pieces: seq<Piece>, data: map<string, string>, r: string)
    requires WellFormed(pieces) && PlainData(data) && RendersTo(Shown(pieces), data, r)
    ensures r == Shown(Filled(pieces, data))
  {
    var order :| Enumerates(order, data.Keys) && r == RenderIn(Shown(pieces), data, order);
    RenderFills(pieces, data, order);
  }

  lemma {:induction false} PlainStays(s: string, data: map<string, string>, order: seq<string>)
    requires Calm(s) && BraceFreeKeys(data) && forall k :: k in order ==> k in data
    ensures RenderIn(s, data, order) == s
    decreases |order|
  {
    if order != [] {
      Copied(s, "", order[0], data[order[0]]);
      EmptyCopied(order[0], data[order[0]]);
      assert s + "" == s;
      PlainStays(s, data, order[1..]);
    }
  }

  lemma OtherHoleStays(key: string, other: string, value: string)
    requires BraceFree(key) && BraceFree(other) && key != other
    ensures ReplaceAll(Placeholder(other), Placeholder(key), value) == Placeholder(other)
  {
    OtherHoleCopied(other, "", key, value);
    EmptyCopied(key, value);
    assert Placeholder(other) + "" == Placeholder(other);
  }

  lemma {:induction false} HoleStays(key: string, data: map<string, string>, order: seq<string>)
    requires BraceFreeKeys(data) && BraceFree(key) && key !in order && forall k :: k in order ==> k in data
    ensures RenderIn(Placeholder(key), data, order) == Placeholder(key)
    decreases |order|
  {
    if order != [] {
      OtherHoleStays(order[0], key, data[order[0]]);
      HoleStays(key, data, order[1..]);
    }
  }

  lemma OwnHoleGone(key: string, value: string)
    ensures ReplaceAll(Placeholder(key), Placeholder(key), value) == value
  {
    OwnHoleReplaced("", key, value);
    EmptyCopied(key, value);
    assert Placeholder(key) + "" == Placeholder(key) && value + "" == value;
  }

  /** The converse: whenever the value of one key is the placeholder of another, and that other's value
      is calm, two orders of the same data give different results on a one-hole template. */
  lemma PlaceholderValueOrders(data: map<string, string>, k: string, m: string) returns (a: seq<string>, b: seq<string>)
    requires BraceFreeKeys(data) && k in data && m in data && k != m && data[k] == Placeholder(m) && Calm(data[m])
    ensures Enumerates(a, data.Keys) && Enumerates(b, data.Keys)
    ensures RenderIn(Placeholder(k), data, a) == data[m] && RenderIn(Placeholder(k), data, b) == Placeholder(m) != data[m]
  {
    var rest := SomeOrder(data.Keys - {k, m});
    a, b := [k, m] + rest, [m, k] + rest;
    TwoFirst(data.Keys, k, m, rest);
    TwoFirst(data.Keys, m, k, rest);
    OpensWithBrace(m);
    RendersTwo(Placeholder(k), data, k, m, rest);
    RendersTwo(Placeholder(k), data, m, k, rest);
    OwnHoleGone(k, data[k]);
    OwnHoleGone(m, data[m]);
    OtherHoleStays(m, k, data[m]);
    PlainStays(data[m], data, rest);
    HoleStays(m, data, rest);
  }

  lemma OpensWithBrace(key: string)
    ensures !Calm(Placeholder(key))
  {
    assert Placeholder(key)[0] == '{';
  }

  lemma TwoFirst(keys: set<string>, x: string, y: string, rest: seq<string>)
    requires x in keys && y in keys && x != y && Enumerates(rest, keys - {x, y})
    ensures Enumerates([x, y] + rest, keys)
  {
    var order := [x, y] + rest;
    assert forall i :: 2 <= i < |order| ==> order[i] == rest[i - 2] && order[i] in rest;
  }

  lemma RendersTwo(s: string, data: map<string, string>, x: string, y: string, rest: seq<string>)
    requires x in data && y in data && forall k :: k in rest ==> k in data
    ensures RenderIn(s, data, [x, y] + rest) ==
      RenderIn(ReplaceAll(ReplaceAll(s, Placeholder(x), data[x]), Placeholder(y), data[y]), data, rest)
  {
    assert ([x, y] + rest)[1..] == [y] + rest && ([y] + rest)[1..] == rest;
  }
}
