/** `interpolateTemplate`: every `{KEY}` token of the template whose KEY is a
    property of the replacement table is replaced, one occurrence at a time
    and left to right, by a word drawn at random from that property's list;
    tokens whose name is not in the table stay as they are.

    The table is a parameter: `ExcuseData.Replacements` is the one the
    worker passes. The loops are modelled twice, on strings (ResolveKey,
    ResolveAll, what `includes`/`replace` do) and on segments (FillKey,
    FillAll, what happens to each token), and the two are proved to agree. */
module Interpolation {
  import opened Js
  import opened Draws
  import opened Segments
  import opened TokenSearch

  /** The words a placeholder may be replaced by; never empty. */
  type Words = w: seq<Plain> | |w| > 0 witness [[]]

  /** One property of the replacement object: a placeholder name and the
      list its words are drawn from. */
  datatype Entry = Entry(key: Plain, words: Words)

  /** The property names, in the order `Object.entries` visits them. */
  function Keys(table: seq<Entry>): seq<Plain> {
    seq(|table|, i requires 0 <= i < |table| => table[i].key)
  }

  lemma {:induction false} KeysCons(table: seq<Entry>)
    requires table != []
    ensures Keys(table) == [table[0].key] + Keys(table[1..])
  {
  }

  /** The words of the first entry named `name`. */
  function Lookup(table: seq<Entry>, name: Plain): (r: Option<Words>)
    ensures r.Some? <==> name in Keys(table)
  {
    if table == [] then None
    else
      KeysCons(table);
      if table[0].key == name then Some(table[0].words) else Lookup(table[1..], name)
  }

  /** `values[Math.floor(Math.random() * values.length)]`. */
  function Choose(words: Words, d: real): (w: Plain)
    requires 0.0 <= d < 1.0
    ensures w in words
  {
    words[Pick(d, |words|)]
  }

  lemma {:induction false} PlainHasNoBrace(x: Plain)
    ensures Count(x, '{') == 0
  {
    if x != [] {
      PlainHasNoBrace(x[1..]);
    }
  }

  /** A token holds exactly one `{`. */
  lemma {:induction false} TokenBraces(name: Plain)
    ensures Count(Token(name), '{') == 1
  {
    PlainHasNoBrace(name);
    CountAppend("{", name, '{');
    CountAppend("{" + name, "}", '{');
  }

  /** The inner `while` loop for one key, on strings: while `{key}` is in
      the text, replace its first occurrence by a fresh draw. The result is
      the final text and the index of the next unused draw. Each pass
      removes one `{` (a word holds none), which bounds the loop. */
  function ResolveKey(s: string, key: Plain, words: Words, rand: Random, pos: nat): (string, nat)
    requires Valid(rand)
    decreases Count(s, '{')
  {
    if Includes(s, Token(key)) then
      var w := Choose(words, rand(pos));
      ReplaceFirstCount(s, Token(key), w, '{');
      TokenBraces(key);
      PlainHasNoBrace(w);
      ResolveKey(ReplaceFirst(s, Token(key), w), key, words, rand, pos + 1)
    else
      (s, pos)
  }

  /** The outer `for` loop, on strings: every entry of the table, in order. */
  function ResolveAll(s: string, table: seq<Entry>, rand: Random, pos: nat): (string, nat)
    requires Valid(rand)
    decreases |table|
  {
    if table == [] then (s, pos)
    else
      var (s1, next) := ResolveKey(s, table[0].key, table[0].words, rand, pos);
      ResolveAll(s1, table[1..], rand, next)
  }

  /** The same loop on segments: the i-th `Hole(key)` of `t` becomes the
      word chosen by draw `pos + i`. */
  function FillKey(t: Template, key: Plain, words: Words, rand: Random, pos: nat): Template
    requires Valid(rand)
  {
    if t == [] then []
    else if t[0] == Hole(key) then
      [Lit(Choose(words, rand(pos)))] + FillKey(t[1..], key, words, rand, pos + 1)
    else
      [t[0]] + FillKey(t[1..], key, words, rand, pos)
  }

  /** FillKey for every entry in order; also gives the next unused draw. */
  function FillAll(t: Template, table: seq<Entry>, rand: Random, pos: nat): (Template, nat)
    requires Valid(rand)
    decreases |table|
  {
    if table == [] then (t, pos)
    else
      var e := table[0];
      FillAll(FillKey(t, e.key, e.words, rand, pos), table[1..], rand, pos + HoleCount(t, e.key))
  }

  /** How many segments of `t` are placeholders named in `keys`. */
  function KnownCount(t: Template, keys: seq<Plain>): nat {
    if t == [] then 0
    else (if t[0].Hole? && t[0].name in keys then 1 else 0) + KnownCount(t[1..], keys)
  }

  /** The draw the i-th segment receives from FillKey: the one numbered by
      how many `Hole(key)` segments come before it. */
  lemma {:induction false} FillKeyShape(t: Template, key: Plain, words: Words, rand: Random, pos: nat)
    requires Valid(rand)
    ensures |FillKey(t, key, words, rand, pos)| == |t|
    ensures forall i :: 0 <= i < |t| && t[i] == Hole(key) ==>
      FillKey(t, key, words, rand, pos)[i] == Lit(Choose(words, rand(pos + HoleCount(t[..i], key))))
    ensures forall i :: 0 <= i < |t| && t[i] != Hole(key) ==> FillKey(t, key, words, rand, pos)[i] == t[i]
  {
    FillKeyLength(t, key, words, rand, pos);
    forall i | 0 <= i < |t|
      ensures FillKey(t, key, words, rand, pos)[i]
           == if t[i] == Hole(key) then Lit(Choose(words, rand(pos + HoleCount(t[..i], key)))) else t[i]
    {
      FillKeyAt(t, key, words, rand, pos, i);
    }
  }

  lemma {:induction false} FillKeyLength(t: Template, key: Plain, words: Words, rand: Random, pos: nat)
    requires Valid(rand)
    ensures |FillKey(t, key, words, rand, pos)| == |t|
  {
    if t != [] {
      FillKeyLength(t[1..], key, words, rand, if t[0] == Hole(key) then pos + 1 else pos);
    }
  }

  lemma {:induction false} FillKeyAt(t: Template, key: Plain, words: Words, rand: Random, pos: nat, i: nat)
    requires Valid(rand) && i < |t|
    ensures |FillKey(t, key, words, rand, pos)| == |t|
    ensures FillKey(t, key, words, rand, pos)[i]
         == if t[i] == Hole(key) then Lit(Choose(words, rand(pos + HoleCount(t[..i], key)))) else t[i]
  {
    var p' := if t[0] == Hole(key) then pos + 1 else pos;
    var f := FillKey(t, key, words, rand, pos);
    FillKeyLength(t, key, words, rand, pos);
    if i == 0 {
      assert t[..0] == [];
    } else {
      FillKeyAt(t[1..], key, words, rand, p', i - 1);
      HoleCountPrefix(t, key, i);
      assert f[i] == FillKey(t[1..], key, words, rand, p')[i - 1];
    }
  }

  /** Counting the holes of a prefix: the first segment, then the rest. */
  lemma {:induction false} HoleCountPrefix(t: Template, key: Plain, i: nat)
    requires 1 <= i <= |t|
    ensures HoleCount(t[..i], key) == (if t[0] == Hole(key) then 1 else 0) + HoleCount(t[1..][..i - 1], key)
  {
    assert t[..i][1..] == t[1..][..i - 1];
  }

  /** FillKey leaves a template without `Hole(key)` as it is. */
  lemma {:induction false} FillKeyNoHole(t: Template, key: Plain, words: Words, rand: Random, pos: nat)
    requires Valid(rand) && HoleCount(t, key) == 0
    ensures FillKey(t, key, words, rand, pos) == t
  {
    if t != [] {
      FillKeyNoHole(t[1..], key, words, rand, pos);
    }
  }

  /** Filling the first `Hole(key)` with draw `pos` and the rest from draw
      `pos + 1` on is filling them all from draw `pos` on. */
  lemma {:induction false} FillKeyAfterFirst(t: Template, key: Plain, words: Words, rand: Random, pos: nat)
    requires Valid(rand) && HoleCount(t, key) > 0
    ensures FillKey(FillFirst(t, key, Choose(words, rand(pos))), key, words, rand, pos + 1)
         == FillKey(t, key, words, rand, pos)
  {
    var w := Choose(words, rand(pos));
    if t[0] == Hole(key) {
      assert FillFirst(t, key, w) == [Lit(w)] + t[1..];
      assert ([Lit(w)] + t[1..])[1..] == t[1..];
    } else {
      FillKeyAfterFirst(t[1..], key, words, rand, pos);
      var f := FillFirst(t, key, w);
      assert f == [t[0]] + FillFirst(t[1..], key, w);
      assert f[0] == t[0] && f[1..] == FillFirst(t[1..], key, w);
    }
  }

  /** The string loop for one key does on a rendered template what FillKey
      does on its segments, and uses one draw per `{key}` token. */
  lemma {:induction false} ResolveKeyFills(t: Template, key: Plain, words: Words, rand: Random, pos: nat)
    requires Valid(rand)
    ensures ResolveKey(Render(t), key, words, rand, pos)
         == (Render(FillKey(t, key, words, rand, pos)), pos + HoleCount(t, key))
    decreases HoleCount(t, key)
  {
    TokenAtFirstHole(t, key);
    if HoleCount(t, key) == 0 {
      FillKeyNoHole(t, key, words, rand, pos);
    } else {
      var w := Choose(words, rand(pos));
      ReplaceFirstFills(t, key, w);
      var t1 := FillFirst(t, key, w);
      ResolveKeyFills(t1, key, words, rand, pos + 1);
      FillKeyAfterFirst(t, key, words, rand, pos);
      ResolveKeyStep(Render(t), key, words, rand, pos);
    }
  }

  /** One pass of the inner loop when the token is present. */
  lemma {:induction false} ResolveKeyStep(s: string, key: Plain, words: Words, rand: Random, pos: nat)
    requires Valid(rand) && Includes(s, Token(key))
    ensures ResolveKey(s, key, words, rand, pos)
         == ResolveKey(ReplaceFirst(s, Token(key), Choose(words, rand(pos))), key, words, rand, pos + 1)
  {
  }

  /** A filled template and its next draw, with the template as text. */
  function Rendered(f: (Template, nat)): (string, nat) {
    (Render(f.0), f.1)
  }

  /** The string loops over the whole table do on a rendered template what
      FillAll does on its segments. */
  lemma {:induction false} ResolveAllFills(t: Template, table: seq<Entry>, rand: Random, pos: nat)
    requires Valid(rand)
    ensures ResolveAll(Render(t), table, rand, pos) == Rendered(FillAll(t, table, rand, pos))
    decreases |table|
  {
    if table != [] {
      ResolveAllFills(FillKey(t, table[0].key, table[0].words, rand, pos), table[1..], rand, pos + HoleCount(t, table[0].key));
      ResolveAllStep(t, table, rand, pos);
    }
  }

  /** One pass of the outer loop: if the loops over the rest of the table
      do on the text what FillAll does on the segments, then so do the
      loops over the whole table. */
  lemma {:induction false} ResolveAllStep(t: Template, table: seq<Entry>, rand: Random, pos: nat)
    requires Valid(rand) && table != []
    requires ResolveAll(Render(FillKey(t, table[0].key, table[0].words, rand, pos)), table[1..], rand, pos + HoleCount(t, table[0].key))
          == Rendered(FillAll(FillKey(t, table[0].key, table[0].words, rand, pos), table[1..], rand, pos + HoleCount(t, table[0].key)))
    ensures ResolveAll(Render(t), table, rand, pos) == Rendered(FillAll(t, table, rand, pos))
  {
    ResolveKeyFills(t, table[0].key, table[0].words, rand, pos);
    ResolveAllCons(Render(t), table, rand, pos, Render(FillKey(t, table[0].key, table[0].words, rand, pos)), pos + HoleCount(t, table[0].key));
    FillAllCons(t, table, rand, pos);
  }

  /** One pass of the outer loop on strings. */
  lemma {:induction false} ResolveAllCons(s: string, table: seq<Entry>, rand: Random, pos: nat, s1: string, n1: nat)
    requires Valid(rand) && table != [] && ResolveKey(s, table[0].key, table[0].words, rand, pos) == (s1, n1)
    ensures ResolveAll(s, table, rand, pos) == ResolveAll(s1, table[1..], rand, n1)
  {
  }

  /** One pass of the outer loop on segments. */
  lemma {:induction false} FillAllCons(t: Template, table: seq<Entry>, rand: Random, pos: nat)
    requires Valid(rand) && table != []
    ensures FillAll(t, table, rand, pos)
         == FillAll(FillKey(t, table[0].key, table[0].words, rand, pos), table[1..], rand, pos + HoleCount(t, table[0].key))
  {
  }

  /** Interpolation keeps every segment in place: a placeholder named in the
      table becomes a word of the first entry with that name, and every
      other segment (literal text, a placeholder the table does not name)
      is unchanged. */
  lemma {:induction false} FillAllShape(t: Template, table: seq<Entry>, rand: Random, pos: nat)
    requires Valid(rand)
    ensures var r := FillAll(t, table, rand, pos).0;
      |r| == |t| &&
      (forall i :: 0 <= i < |t| && t[i].Hole? && t[i].name in Keys(table) ==>
         r[i].Lit? && r[i].text in Lookup(table, t[i].name).value) &&
      (forall i :: 0 <= i < |t| && !(t[i].Hole? && t[i].name in Keys(table)) ==> r[i] == t[i])
    decreases |table|
  {
    if table != [] {
      var e := table[0];
      var t1 := FillKey(t, e.key, e.words, rand, pos);
      FillKeyShape(t, e.key, e.words, rand, pos);
      FillAllShape(t1, table[1..], rand, pos + HoleCount(t, e.key));
      KeysCons(table);
    }
  }

  /** FillKey for `key` turns exactly the `Hole(key)` segments into text,
      so the known placeholders left after it are the others. */
  lemma {:induction false} KnownCountFillKey(t: Template, key: Plain, words: Words, rand: Random, pos: nat, keys: seq<Plain>)
    requires Valid(rand)
    ensures HoleCount(t, key) + KnownCount(FillKey(t, key, words, rand, pos), keys) == KnownCount(t, [key] + keys)
  {
    if t != [] {
      var p' := if t[0] == Hole(key) then pos + 1 else pos;
      KnownCountFillKey(t[1..], key, words, rand, p', keys);
      var f := FillKey(t, key, words, rand, pos);
      assert f[1..] == FillKey(t[1..], key, words, rand, p');
    }
  }

  /** Interpolation draws one random number per occurrence of a placeholder
      the table names, and no more. */
  lemma {:induction false} FillAllDraws(t: Template, table: seq<Entry>, rand: Random, pos: nat)
    requires Valid(rand)
    ensures FillAll(t, table, rand, pos).1 == pos + KnownCount(t, Keys(table))
    decreases |table|
  {
    if table == [] {
      KnownCountNone(t, Keys(table));
    } else {
      FillAllDraws(FillKey(t, table[0].key, table[0].words, rand, pos), table[1..], rand, pos + HoleCount(t, table[0].key));
      FillAllDrawsStep(t, table, rand, pos);
    }
  }

  /** One pass of the outer loop, given the draws of the passes after it. */
  lemma {:induction false} FillAllDrawsStep(t: Template, table: seq<Entry>, rand: Random, pos: nat)
    requires Valid(rand) && table != []
    requires FillAll(FillKey(t, table[0].key, table[0].words, rand, pos), table[1..], rand, pos + HoleCount(t, table[0].key)).1
          == pos + HoleCount(t, table[0].key) + KnownCount(FillKey(t, table[0].key, table[0].words, rand, pos), Keys(table[1..]))
    ensures FillAll(t, table, rand, pos).1 == pos + KnownCount(t, Keys(table))
  {
    KnownCountFillKey(t, table[0].key, table[0].words, rand, pos, Keys(table[1..]));
    KeysCons(table);
    FillAllCons(t, table, rand, pos);
  }

  lemma {:induction false} KnownCountNone(t: Template, keys: seq<Plain>)
    requires keys == []
    ensures KnownCount(t, keys) == 0
  {
    if t != [] {
      KnownCountNone(t[1..], keys);
    }
  }

  /** A template with no `Hole(name)` segment holds no `{name}` token. */
  lemma {:induction false} NoHoleNoCount(t: Template, name: Plain)
    requires forall i :: 0 <= i < |t| ==> t[i] != Hole(name)
    ensures HoleCount(t, name) == 0
  {
    if t != [] {
      NoHoleNoCount(t[1..], name);
    }
  }

  /** A template with a `Hole(name)` segment holds a `{name}` token. */
  lemma {:induction false} HoleCounts(t: Template, name: Plain, i: nat)
    requires i < |t| && t[i] == Hole(name)
    ensures HoleCount(t, name) > 0
  {
    if i > 0 {
      HoleCounts(t[1..], name, i - 1);
    }
  }

  /** The interpolated text of a template string. */
  function Interpolated(t: Template, table: seq<Entry>, rand: Random, pos: nat): string
    requires Valid(rand)
  {
    ResolveAll(Render(t), table, rand, pos).0
  }

  /** No `{KEY}` token survives interpolation for any KEY of the table. */
  lemma {:induction false} NoKnownTokenLeft(t: Template, table: seq<Entry>, rand: Random, pos: nat, key: Plain)
    requires Valid(rand) && key in Keys(table)
    ensures !Includes(Interpolated(t, table, rand, pos), Token(key))
  {
    ResolveAllFills(t, table, rand, pos);
    FillAllShape(t, table, rand, pos);
    var r := FillAll(t, table, rand, pos).0;
    NoHoleNoCount(r, key);
    TokenAtFirstHole(r, key);
  }

  /** A template that opens with literal text interpolates to a string that
      opens with that same text, and so is not empty. */
  lemma {:induction false} NonEmptyWhenLeadingText(t: Template, table: seq<Entry>, rand: Random, pos: nat)
    requires Valid(rand) && t != [] && t[0].Lit? && t[0].text != []
    ensures t[0].text <= Interpolated(t, table, rand, pos)
    ensures |Interpolated(t, table, rand, pos)| > 0
  {
    ResolveAllFills(t, table, rand, pos);
    FillAllShape(t, table, rand, pos);
    var r := FillAll(t, table, rand, pos).0;
    assert r[0] == t[0];
    RenderCons(r);
  }

  /** A `{NAME}` token whose NAME is not in the table survives
      interpolation. */
  lemma {:induction false} UnknownTokenKept(t: Template, table: seq<Entry>, rand: Random, pos: nat, i: nat)
    requires Valid(rand) && i < |t| && t[i].Hole? && t[i].name !in Keys(table)
    ensures Includes(Interpolated(t, table, rand, pos), Token(t[i].name))
  {
    ResolveAllFills(t, table, rand, pos);
    FillAllShape(t, table, rand, pos);
    var r := FillAll(t, table, rand, pos).0;
    HoleCounts(r, t[i].name, i);
    TokenAtFirstHole(r, t[i].name);
  }

  /** When the table names every placeholder of the template, the
      interpolated text holds no brace at all. */
  lemma {:induction false} BraceFreeWhenAllKnown(t: Template, table: seq<Entry>, rand: Random, pos: nat)
    requires Valid(rand)
    requires forall i :: 0 <= i < |t| && t[i].Hole? ==> t[i].name in Keys(table)
    ensures '{' !in Interpolated(t, table, rand, pos) && '}' !in Interpolated(t, table, rand, pos)
  {
    ResolveAllFills(t, table, rand, pos);
    FillAllShape(t, table, rand, pos);
    LiteralsRenderPlain(FillAll(t, table, rand, pos).0);
  }

  /** `interpolateTemplate(template)`. `undefined` (the pick from an empty
      template list) throws at its first `includes` call; with an empty
      table the loop body never runs and the value comes back unchanged. */
  method InterpolateTemplate(template: Value, table: seq<Entry>, rand: Random, pos: nat)
    returns (out: Outcome, next: nat)
    requires Valid(rand)
    ensures template.Undefined? && table != [] ==> out == Threw && next == pos
    ensures template.Undefined? && table == [] ==> out == Returned(Undefined) && next == pos
    ensures template.Str? ==> var (s, n) := ResolveAll(template.s, table, rand, pos);
      out == Returned(Str(s)) && next == n
  {
    var result := template;
    next := pos;
    for i := 0 to |table|
      invariant result.Undefined? ==> i == 0 && next == pos
      invariant template.Str? ==> result.Str? && ResolveAll(result.s, table[i..], rand, next) == ResolveAll(template.s, table, rand, pos)
      invariant template.Undefined? ==> result == Undefined
    {
      var key, words := table[i].key, table[i].words;
      var placeholder := Token(key);
      if result.Undefined? {
        return Threw, pos;
      }
      var s := result.s;
      ghost var s0, p0 := s, next;
      while Includes(s, placeholder)
        invariant ResolveKey(s, key, words, rand, next) == ResolveKey(s0, key, words, rand, p0)
        decreases Count(s, '{')
      {
        var replacement := Choose(words, rand(next));
        ReplaceFirstCount(s, placeholder, replacement, '{');
        TokenBraces(key);
        PlainHasNoBrace(replacement);
        s := ReplaceFirst(s, placeholder, replacement);
        next := next + 1;
      }
      assert table[i..][1..] == table[i + 1..];
      result := Str(s);
    }
    out := Returned(result);
  }
}
