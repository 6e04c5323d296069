/** Where `indexOf` and `replace` meet a `{name}` token in a rendered
    template, proved from the segment structure: because literal text and
    names hold no braces, the only place a `{name}` token can start is a
    `Hole(name)` segment. */
module TokenSearch {
  import opened Js
  import opened Segments

  /** A token `{name}` cannot start inside the rendering of a segment other
      than `Hole(name)`: literal text holds no `{`, and a different
      placeholder differs from `name` before its closing brace or at it. */
  lemma {:induction false} NoTokenInside(g: Segment, rest: string, name: Plain, j: nat)
    requires g != Hole(name) && j < |Chunk(g)|
    ensures !StartsAt(Chunk(g) + rest, Token(name), j)
  {
    match g
    case Lit(text) =>
      NoTokenInText(text, rest, name, j);
    case Hole(m) =>
      if j > 0 {
        NoTokenInToken(m, rest, name, j);
      } else {
        NoOtherTokenAtStart(m, rest, name);
      }
  }

  lemma {:induction false} NoTokenInText(text: Plain, rest: string, name: Plain, j: nat)
    requires j < |text|
    ensures !StartsAt(text + rest, Token(name), j)
  {
    assert (text + rest)[j] == text[j];
    Mismatch(text + rest, Token(name), j, 0);
  }

  lemma {:induction false} NoTokenInToken(m: Plain, rest: string, name: Plain, j: nat)
    requires 0 < j < |Token(m)|
    ensures !StartsAt(Token(m) + rest, Token(name), j)
  {
    assert (Token(m) + rest)[j] == Token(m)[j];
    Mismatch(Token(m) + rest, Token(name), j, 0);
  }

  /** Two different names: their tokens part at the first difference of the
      names, or where the shorter one's closing brace stands. */
  lemma {:induction false} NoOtherTokenAtStart(m: Plain, rest: string, name: Plain)
    requires m != name
    ensures !StartsAt(Token(m) + rest, Token(name), 0)
  {
    var s := Token(m) + rest;
    if |name| < |m| {
      assert s[|name| + 1] == m[|name|];
      Mismatch(s, Token(name), 0, |name| + 1);
    } else if |m| < |name| {
      assert s[|m| + 1] == '}';
      Mismatch(s, Token(name), 0, |m| + 1);
    } else {
      var y :| 0 <= y < |m| && m[y] != name[y];
      assert s[y + 1] == m[y];
      Mismatch(s, Token(name), 0, y + 1);
    }
  }

  /** A text in which `p` differs from the text at offset `x` does not hold
      `p` there. */
  lemma {:induction false} Mismatch(s: string, p: string, j: nat, x: nat)
    requires x < |p| && j + x < |s| && s[j + x] != p[x]
    ensures !StartsAt(s, p, j)
  {
    if j + |p| <= |s| {
      assert s[j..j + |p|][x] == s[j + x];
    }
  }

  /** Past a leading segment other than `Hole(name)`, the first `{name}`
      token is the first one of the rest, moved by that segment's length. */
  lemma {:induction false} IndexPastSegment(t: Template, name: Plain)
    requires t != [] && t[0] != Hole(name)
    ensures var rest := IndexOf(Render(t[1..]), Token(name));
      IndexOf(Render(t), Token(name)) == if rest.None? then None else Some(|Chunk(t[0])| + rest.value)
  {
    IndexPastChunk(t, name);
    IndexOfRenderCons(t, name);
  }

  lemma {:induction false} IndexPastChunk(t: Template, name: Plain)
    requires t != [] && t[0] != Hole(name)
    ensures var rest := IndexOf(Render(t[1..]), Token(name));
      IndexOf(Chunk(t[0]) + Render(t[1..]), Token(name)) == if rest.None? then None else Some(|Chunk(t[0])| + rest.value)
  {
    NoTokenInChunk(t[0], Render(t[1..]), name);
    IndexOfPastPrefix(Chunk(t[0]), Render(t[1..]), Token(name));
  }

  lemma {:induction false} IndexOfRenderCons(t: Template, name: Plain)
    requires t != []
    ensures IndexOf(Render(t), Token(name)) == IndexOf(Chunk(t[0]) + Render(t[1..]), Token(name))
  {
  }

  lemma {:induction false} NoTokenInChunk(g: Segment, rest: string, name: Plain)
    requires g != Hole(name)
    ensures forall j: nat :: j < |Chunk(g)| ==> !StartsAt(Chunk(g) + rest, Token(name), j)
  {
    forall j: nat | j < |Chunk(g)|
      ensures !StartsAt(Chunk(g) + rest, Token(name), j)
    {
      NoTokenInside(g, rest, name, j);
    }
  }

  /** `indexOf` finds the token `{name}` exactly where the first
      `Hole(name)` segment is rendered. */
  lemma {:induction false} TokenAtFirstHole(t: Template, name: Plain)
    ensures IndexOf(Render(t), Token(name)) == HoleOffset(t, name)
  {
    if t == [] {
      IndexOfIs(Render(t), Token(name), None);
    } else if t[0] == Hole(name) {
      IndexOfIs(Render(t), Token(name), Some(0));
    } else {
      IndexPastSegment(t, name);
      TokenAtFirstHole(t[1..], name);
    }
  }

  /** The rendering of the segments before the first `Hole(name)`. */
  function Before(t: Template, name: Plain): string
    requires HoleCount(t, name) > 0
  {
    if t[0] == Hole(name) then [] else Chunk(t[0]) + Before(t[1..], name)
  }

  /** The rendering of the segments after the first `Hole(name)`. */
  function After(t: Template, name: Plain): string
    requires HoleCount(t, name) > 0
  {
    if t[0] == Hole(name) then Render(t[1..]) else After(t[1..], name)
  }

  /** A template holding `{name}` renders as the text before its first such
      token, the token, and the text after it. */
  lemma {:induction false} RenderSplit(t: Template, name: Plain)
    requires HoleCount(t, name) > 0
    ensures Render(t) == Before(t, name) + Token(name) + After(t, name)
  {
    if t[0] == Hole(name) {
      RenderSplitHere(t, name);
    } else {
      RenderSplit(t[1..], name);
      RenderSplitPast(t, name);
    }
  }

  lemma {:induction false} RenderSplitHere(t: Template, name: Plain)
    requires t != [] && t[0] == Hole(name)
    ensures HoleCount(t, name) > 0 && Render(t) == Before(t, name) + Token(name) + After(t, name)
  {
    RenderCons(t);
  }

  lemma {:induction false} RenderSplitPast(t: Template, name: Plain)
    requires t != [] && t[0] != Hole(name) && HoleCount(t[1..], name) > 0
    requires Render(t[1..]) == Before(t[1..], name) + Token(name) + After(t[1..], name)
    ensures HoleCount(t, name) > 0 && Render(t) == Before(t, name) + Token(name) + After(t, name)
  {
    RenderCons(t);
    Regroup(Chunk(t[0]), Before(t[1..], name), Token(name), After(t[1..], name));
  }

  /** Filling that first token with `v` renders as the same two texts around
      `v`. */
  lemma {:induction false} FillSplit(t: Template, name: Plain, v: Plain)
    requires HoleCount(t, name) > 0
    ensures Render(FillFirst(t, name, v)) == Before(t, name) + v + After(t, name)
  {
    var f := FillFirst(t, name, v);
    RenderCons(f);
    if t[0] == Hole(name) {
      assert f[0] == Lit(v) && f[1..] == t[1..];
    } else {
      assert f[0] == t[0] && f[1..] == FillFirst(t[1..], name, v);
      FillSplit(t[1..], name, v);
      Regroup(Chunk(t[0]), Before(t[1..], name), v, After(t[1..], name));
    }
  }

  /** The first `{name}` token starts where the text before it ends. */
  lemma {:induction false} OffsetIsBefore(t: Template, name: Plain)
    requires HoleCount(t, name) > 0
    ensures HoleOffset(t, name) == Some(|Before(t, name)|)
  {
    if t[0] != Hole(name) {
      OffsetIsBefore(t[1..], name);
    }
  }

  lemma {:induction false} RenderCons(t: Template)
    requires t != []
    ensures Render(t) == Chunk(t[0]) + Render(t[1..])
  {
  }

  lemma Regroup(c: string, b: string, m: string, a: string)
    ensures c + (b + m + a) == (c + b) + m + a
  {
  }

  /** `replace` of the token `{name}` by `v` on a rendered template is the
      rendering of FillFirst. */
  lemma {:induction false} ReplaceFirstFills(t: Template, name: Plain, v: Plain)
    ensures ReplaceFirst(Render(t), Token(name), v) == Render(FillFirst(t, name, v))
  {
    TokenAtFirstHole(t, name);
    if HoleCount(t, name) > 0 {
      RenderSplit(t, name);
      FillSplit(t, name, v);
      OffsetIsBefore(t, name);
      ReplaceMiddle(Before(t, name), Token(name), After(t, name), v, Render(t), Render(FillFirst(t, name, v)));
    } else {
      assert FillFirst(t, name, v) == t;
    }
  }

  /** `replace` on `b + p + a`, where `p` first occurs right after `b`,
      gives `b + r + a`. */
  lemma ReplaceMiddle(b: string, p: string, a: string, r: string, s: string, x: string)
    requires '$' !in r && s == b + p + a && x == b + r + a && IndexOf(s, p) == Some(|b|)
    ensures ReplaceFirst(s, p, r) == x
  {
    assert s[..|b|] == b;
    assert s[|b| + |p|..] == a;
  }

  /** A template made of literal text only renders to text without braces. */
  lemma {:induction false} LiteralsRenderPlain(t: Template)
    requires forall i :: 0 <= i < |t| ==> t[i].Lit?
    ensures '{' !in Render(t) && '}' !in Render(t)
  {
    if t != [] {
      LiteralsRenderPlain(t[1..]);
    }
  }
}
