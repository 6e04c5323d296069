/** The pieces of the JavaScript runtime that the excuse generator relies on:
    the `includes`, `replace` (string pattern) and `toLowerCase` methods of
    strings, the two kinds of value a call can produce here (a string or
    `undefined`), and the fact that a call can throw. */
module Js {

  datatype Option<T> = None | Some(value: T)

  /** What a JavaScript expression evaluates to, as far as this model needs:
      a string, or `undefined` (which also stands for the other non-string
      values a JSON body can carry). */
  datatype Value = Str(s: string) | Undefined

  /** How a call ends: it returns a value, or it throws (a TypeError here). */
  datatype Outcome = Returned(v: Value) | Threw

  /** `p` occurs in `s` at index `i`. */
  predicate StartsAt(s: string, p: string, i: nat) {
    i + |p| <= |s| && s[i..i + |p|] == p
  }

  /** `p` occurs somewhere in `s`. */
  ghost predicate Occurs(s: string, p: string) {
    exists i: nat :: StartsAt(s, p, i)
  }

  /** The first index at or after `from` where `p` occurs in `s`. */
  function IndexOfFrom(s: string, p: string, from: nat): (r: Option<nat>)
    decreases |s| - from
    ensures r.Some? ==> from <= r.value && StartsAt(s, p, r.value)
    ensures forall j: nat :: from <= j && (r.None? || j < r.value) ==> !StartsAt(s, p, j)
  {
    if |s| < from + |p| then None
    else if s[from..from + |p|] == p then Some(from)
    else IndexOfFrom(s, p, from + 1)
  }

  /** `s.indexOf(p)`: where the first occurrence of `p` starts. */
  function IndexOf(s: string, p: string): Option<nat> {
    IndexOfFrom(s, p, 0)
  }

  /** `s.includes(p)`. */
  function Includes(s: string, p: string): (b: bool)
    ensures b <==> Occurs(s, p)
  {
    IndexOf(s, p).Some?
  }

  /** `s.replace(p, r)` with a string pattern: only the first occurrence of
      `p` is rewritten. The replacement holds no `$`, so none of the `$`
      patterns of GetSubstitution applies and `r` is inserted as it is. */
  function ReplaceFirst(s: string, p: string, r: string): string
    requires '$' !in r
  {
    match IndexOf(s, p)
    case None => s
    case Some(i) => s[..i] + r + s[i + |p|..]
  }

  /** `toLowerCase` on one character, for the letters A to Z. */
  function LowerChar(c: char): char {
    if 'A' <= c <= 'Z' then (c as int + 32) as char else c
  }

  /** `s.toLowerCase()`, letter by letter. */
  function ToLowerCase(s: string): string {
    seq(|s|, i requires 0 <= i < |s| => LowerChar(s[i]))
  }

  /** How many times the character `c` occurs in `s`. */
  function Count(s: string, c: char): nat {
    if s == [] then 0 else (if s[0] == c then 1 else 0) + Count(s[1..], c)
  }

  /** IndexOf is pinned down by "occurs there, and nowhere earlier" (or by
      "occurs nowhere"). */
  lemma {:induction false} IndexOfIs(s: string, p: string, r: Option<nat>)
    requires r.Some? ==> StartsAt(s, p, r.value)
    requires forall j: nat :: (r.None? || j < r.value) ==> !StartsAt(s, p, j)
    ensures IndexOf(s, p) == r
  {
  }

  /** An occurrence seen through a prefix: `p` starts at `|c| + q` in
      `c + r` exactly when it starts at `q` in `r`. */
  lemma {:induction false} StartsAtShift(c: string, r: string, p: string, q: nat)
    ensures StartsAt(c + r, p, |c| + q) <==> StartsAt(r, p, q)
  {
    if |c| + q + |p| <= |c + r| {
      assert (c + r)[|c| + q..|c| + q + |p|] == r[q..q + |p|];
    }
  }

  /** If `p` does not start inside the prefix `c`, the first occurrence in
      `c + r` is the first one in `r`, moved by `|c|`. */
  lemma {:induction false} IndexOfPastPrefix(c: string, r: string, p: string)
    requires forall j: nat :: j < |c| ==> !StartsAt(c + r, p, j)
    ensures IndexOf(c + r, p) == if IndexOf(r, p).None? then None else Some(|c| + IndexOf(r, p).value)
  {
    var want := if IndexOf(r, p).None? then None else Some(|c| + IndexOf(r, p).value);
    if IndexOf(r, p).Some? {
      StartsAtShift(c, r, p, IndexOf(r, p).value);
    }
    forall j: nat | want.None? || j < want.value
      ensures !StartsAt(c + r, p, j)
    {
      if j >= |c| {
        StartsAtShift(c, r, p, j - |c|);
      }
    }
    IndexOfIs(c + r, p, want);
  }

  lemma {:induction false} CountAppend(a: string, b: string, c: char)
    ensures Count(a + b, c) == Count(a, c) + Count(b, c)
  {
    if a == [] {
      assert a + b == b;
    } else {
      assert (a + b)[1..] == a[1..] + b;
      CountAppend(a[1..], b, c);
    }
  }

  /** Rewriting the first occurrence of `p` by `r` trades the `c`s of that
      occurrence for the `c`s of `r`; without an occurrence nothing changes. */
  lemma {:induction false} ReplaceFirstCount(s: string, p: string, r: string, c: char)
    requires '$' !in r
    ensures Includes(s, p) ==> Count(ReplaceFirst(s, p, r), c) + Count(p, c) == Count(s, c) + Count(r, c)
    ensures !Includes(s, p) ==> ReplaceFirst(s, p, r) == s
  {
    if Includes(s, p) {
      var i := IndexOf(s, p).value;
      assert s == s[..i] + p + s[i + |p|..];
      CountAppend(s[..i], p, c);
      CountAppend(s[..i] + p, s[i + |p|..], c);
      CountAppend(s[..i], r, c);
      CountAppend(s[..i] + r, s[i + |p|..], c);
    }
  }
}
