/** Excuse templates, seen as what they are made of: runs of literal text and
    `{NAME}` placeholder tokens. A template string of the generator is the
    rendering of such a sequence of segments; no literal run, placeholder
    name or replacement word contains a brace or a `$`. */
module Segments {
  import opened Js

  /** A character that is none of `{`, `}` and `$`. */
  type PlainChar = c: char | c != '{' && c != '}' && c != '$'

  /** Text free of braces and of `$`. */
  type Plain = seq<PlainChar>

  /** The pieces written one after the other. */
  function Concat(pieces: seq<Plain>): Plain {
    if pieces == [] then [] else pieces[0] + Concat(pieces[1..])
  }

  datatype Segment = Lit(text: Plain) | Hole(name: Plain)

  type Template = seq<Segment>

  /** The placeholder token `{name}` (the `placeholder` string of the
      interpolation loop). */
  function Token(name: string): string {
    "{" + name + "}"
  }

  function Chunk(g: Segment): string {
    match g
    case Lit(text) => text
    case Hole(name) => Token(name)
  }

  /** The template string a segment sequence stands for. */
  function Render(t: Template): string {
    if t == [] then [] else Chunk(t[0]) + Render(t[1..])
  }

  /** How many `{name}` tokens the template holds. */
  function HoleCount(t: Template, name: Plain): nat {
    if t == [] then 0
    else (if t[0] == Hole(name) then 1 else 0) + HoleCount(t[1..], name)
  }

  /** Where, in the rendered template, the first `{name}` token starts;
      `None` when the template holds no such token. */
  function HoleOffset(t: Template, name: Plain): (r: Option<nat>)
    ensures r.Some? ==> r.value + |Token(name)| <= |Render(t)|
    ensures r.Some? <==> HoleCount(t, name) > 0
  {
    if t == [] then None
    else if t[0] == Hole(name) then Some(0)
    else
      var tail := HoleOffset(t[1..], name);
      if tail.None? then None else Some(|Chunk(t[0])| + tail.value)
  }

  /** The template with its first `{name}` token replaced by the text `v`. */
  function FillFirst(t: Template, name: Plain, v: Plain): (r: Template)
    ensures HoleCount(t, name) == 0 ==> r == t
    ensures HoleCount(t, name) > 0 ==> HoleCount(r, name) == HoleCount(t, name) - 1
  {
    if t == [] then []
    else if t[0] == Hole(name) then [Lit(v)] + t[1..]
    else
      assert ([t[0]] + FillFirst(t[1..], name, v))[1..] == FillFirst(t[1..], name, v);
      [t[0]] + FillFirst(t[1..], name, v)
  }
}
