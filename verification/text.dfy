/**
 * String operations the two plugins use from JavaScript's standard library:
 * `String.prototype.includes`, `Array.prototype.join(',')`, and the helpers
 * that take markup apart again (used to state what the templates emit).
 */
module Text {
  import opened Wrappers

  /** True when `t` occurs in `s` starting at index `i`. */
  ghost predicate OccursAt(s: string, t: string, i: int)
  {
    0 <= i && i + |t| <= |s| && s[i..i + |t|] == t
  }

  /** `s.includes(t)`: whether `t` occurs anywhere in `s` (the empty string occurs everywhere). */
  function Includes(s: string, t: string): (r: bool)
    ensures r <==> exists i :: OccursAt(s, t, i)
  {
    if t <= s then
      assert OccursAt(s, t, 0);
      true
    else if |s| == 0 then
      false
    else
      IncludesTail(s, t);
      Includes(s[1..], t)
  }

  /** When `t` does not start `s`, it occurs in `s` exactly when it occurs in the tail of `s`. */
  lemma IncludesTail(s: string, t: string)
    requires |s| > 0 && !(t <= s)
    ensures (exists i :: OccursAt(s, t, i)) <==> exists i :: OccursAt(s[1..], t, i)
  {
    if exists i :: OccursAt(s, t, i) {
      var i :| OccursAt(s, t, i);
      assert i != 0 by { assert s[..|t|] == s[0..|t|]; }
      assert s[1..][i - 1..i - 1 + |t|] == s[i..i + |t|];
      assert OccursAt(s[1..], t, i - 1);
    }
    if exists i :: OccursAt(s[1..], t, i) {
      var i :| OccursAt(s[1..], t, i);
      assert s[i + 1..i + 1 + |t|] == s[1..][i..i + |t|];
      assert OccursAt(s, t, i + 1);
    }
  }

  /** `xs.join(sep)` with a one-character separator. */
  function Join(xs: seq<string>, sep: char): (r: string)
  {
    if |xs| == 0 then ""
    else if |xs| == 1 then xs[0]
    else xs[0] + [sep] + Join(xs[1..], sep)
  }

  /** `s.split(sep)` with a one-character separator: the pieces between separators, never empty. */
  function Split(s: string, sep: char): (r: seq<string>)
    ensures |r| >= 1
    ensures forall i :: 0 <= i < |r| ==> sep !in r[i]
  {
    if |s| == 0 then [""]
    else
      var rest := Split(s[1..], sep);
      if s[0] == sep then [""] + rest
      else [[s[0]] + rest[0]] + rest[1..]
  }

  /** A string without a separator splits into itself alone. */
  lemma {:induction false} SplitNoSeparator(s: string, sep: char)
    requires sep !in s
    ensures Split(s, sep) == [s]
  {
    if |s| > 0 {
      assert sep !in s[1..];
      SplitNoSeparator(s[1..], sep);
      assert [s[0]] + s[1..] == s;
    }
  }

  /** Splitting at a separator splits each side independently. */
  lemma {:induction false} SplitAround(a: string, b: string, sep: char)
    ensures Split(a + [sep] + b, sep) == Split(a, sep) + Split(b, sep)
  {
    if |a| == 0 {
      assert a + [sep] + b == [sep] + b;
      SplitCons(sep, b, sep);
    } else {
      var c, tail := a[0], a[1..];
      assert a == [c] + tail;
      SplitAround(tail, b, sep);
      SplitAroundStep(c, tail, b, sep);
    }
  }

  /** The step of `SplitAround`: one more character in front keeps the equation. */
  lemma SplitAroundStep(c: char, tail: string, b: string, sep: char)
    requires Split(tail + [sep] + b, sep) == Split(tail, sep) + Split(b, sep)
    ensures Split([c] + tail + [sep] + b, sep) == Split([c] + tail, sep) + Split(b, sep)
  {
    ConsGroup(c, tail, [sep], b);
    SplitCons(c, tail + [sep] + b, sep);
    SplitCons(c, tail, sep);
    ConsPieces(c, sep, Split(tail, sep), Split(b, sep));
  }

  lemma ConsGroup(c: char, t: string, m: string, b: string)
    ensures [c] + t + m + b == [c] + (t + m + b)
  {
  }

  /** One `SplitCons` step over `xs + ys` only changes the `xs` part. */
  lemma ConsPieces(c: char, sep: char, xs: seq<string>, ys: seq<string>)
    requires |xs| >= 1
    ensures (if c == sep then [""] + (xs + ys) else [[c] + (xs + ys)[0]] + (xs + ys)[1..])
         == (if c == sep then [""] + xs else [[c] + xs[0]] + xs[1..]) + ys
  {
    if c != sep {
      PrependToFirst([c], xs, ys);
    }
  }

  /** One step of `Split`: a separator starts a new piece, any other character joins the first. */
  lemma SplitCons(c: char, s: string, sep: char)
    ensures Split([c] + s, sep)
         == if c == sep then [""] + Split(s, sep) else [[c] + Split(s, sep)[0]] + Split(s, sep)[1..]
  {
    assert ([c] + s)[1..] == s;
  }

  /** Prepending to the first piece of `xs + ys` prepends to the first piece of `xs`. */
  lemma PrependToFirst(p: string, xs: seq<string>, ys: seq<string>)
    requires |xs| >= 1
    ensures [p + (xs + ys)[0]] + (xs + ys)[1..] == [p + xs[0]] + xs[1..] + ys
  {
    assert (xs + ys)[1..] == xs[1..] + ys;
  }

  /** `split` undoes `join` on non-empty lists whose items hold no separator. */
  lemma {:induction false} SplitJoin(xs: seq<string>, sep: char)
    requires |xs| >= 1
    requires forall i :: 0 <= i < |xs| ==> sep !in xs[i]
    ensures Split(Join(xs, sep), sep) == xs
  {
    if |xs| == 1 {
      SplitNoSeparator(xs[0], sep);
    } else {
      SplitJoin(xs[1..], sep);
      SplitNoSeparator(xs[0], sep);
      SplitAround(xs[0], Join(xs[1..], sep), sep);
      assert [xs[0]] + xs[1..] == xs;
    }
  }

  /** The pieces of a three-part concatenation, recovered by slicing. */
  lemma Slices(a: string, b: string, c: string)
    ensures (a + b + c)[..|a|] == a && (a + b + c)[|a|..] == b + c
    ensures (a + b + c)[..|a| + |b|] == a + b && (a + b + c)[|a|..|a| + |b|] == b
    ensures (a + b + c)[|a| + |b|..] == c
  {
  }

  /** The slices of a concatenation of five parts that keep or drop whole parts. */
  lemma PartSlices(a: string, b: string, c: string, d: string, r: string)
    ensures var u, i, j, k, l := a + b + c + d + r, |a|, |a| + |b|, |a| + |b| + |c|, |a| + |b| + |c| + |d|;
            && a <= u && u[i..] == b + (c + d + r) && u[k..] == d + r
            && u[..l] == a + b + c + d && u[..j] == a + b && u[i..j] == b && u[k..l] == d
  {
    var u := a + b + c + d + r;
    Slices(a, b, c + d + r);
    assert u == a + b + (c + d + r);
    Slices(a + b + c, d, r);
  }

  /** A prefix is a shorter prefix, the next character and the slice after it. */
  lemma TakeCons(s: string, a: nat, b: nat)
    requires a < b <= |s|
    ensures s[..b] == s[..a] + [s[a]] + s[a + 1..b]
  {
  }

  /** A prefix is a shorter prefix and the slice after it. */
  lemma TakeJoin(s: string, a: nat, b: nat)
    requires a <= b <= |s|
    ensures s[..b] == s[..a] + s[a..b]
  {
  }

  /** Text after a known head is recovered by stripping it. */
  lemma StripHead(head: string, x: string)
    ensures StripPrefix(head, head + x) == Some(x)
  {
    assert (head + x)[|head|..] == x;
  }

  /** Text between a known head and a known tail is recovered by stripping both. */
  lemma Enclosed(head: string, x: string, tail: string)
    ensures StripPrefix(head, head + x + tail) == Some(x + tail)
    ensures StripSuffix(x + tail, tail) == Some(x)
  {
    assert head + x + tail == head + (x + tail);
    assert (x + tail)[|x|..] == tail;
  }

  /** Concatenation regrouped. */
  lemma Regroup(h: string, a: string, b: string, c: string)
    ensures h + a + b + c == h + (a + b + c) && h + a + b + c + "" == h + (a + b + c)
  {
  }

  /** Concatenation regrouped for reading off a field between two separators. */
  lemma Regroup4(a: string, b: string, c: string, d: string, e: string, f: string)
    ensures a + b + c + d + e + f == a + (b + c + (d + (e + f)))
  {
  }

  /** Concatenation regrouped for reading off a field between two separators. */
  lemma Regroup5(a: string, b: string, c: string, d: string, e: string, f: string)
    ensures a + b + (c + d) + e + f == a + (b + c + (d + (e + f)))
  {
  }

  /** The rest of `s` after the prefix `p`, if `s` starts with `p`. */
  function StripPrefix(p: string, s: string): (r: Option<string>)
    ensures r.Some? <==> p <= s
    ensures r.Some? ==> s == p + r.value
  {
    if p <= s then
      assert s == p + s[|p|..];
      Some(s[|p|..])
    else None
  }

  /** What precedes the suffix `q` in `s`, if `s` ends with `q`. */
  function StripSuffix(s: string, q: string): (r: Option<string>)
    ensures r.Some? <==> |q| <= |s| && s[|s| - |q|..] == q
    ensures r.Some? ==> s == r.value + q
  {
    if |q| <= |s| && s[|s| - |q|..] == q then
      assert s == s[..|s| - |q|] + q;
      Some(s[..|s| - |q|])
    else None
  }

  /** Splits `s` at the first occurrence of `c`: the text before it and the text after it. */
  function SplitFirst(s: string, c: char): (r: Option<(string, string)>)
    ensures r.Some? <==> c in s
    ensures r.Some? ==> c !in r.value.0 && s == r.value.0 + [c] + r.value.1
  {
    if |s| == 0 then None
    else if s[0] == c then
      assert s == [] + [c] + s[1..];
      Some(([], s[1..]))
    else
      match SplitFirst(s[1..], c)
      case None => None
      case Some((a, b)) =>
        assert s == [s[0]] + s[1..];
        Some(([s[0]] + a, b))
  }

  /** The first occurrence of `c` in `a + [c] + b`, when `a` lacks `c`, is the one after `a`. */
  lemma {:induction false} SplitFirstAt(a: string, c: char, b: string)
    requires c !in a
    ensures SplitFirst(a + [c] + b, c) == Some((a, b))
  {
    var s := a + [c] + b;
    if |a| == 0 {
      assert s == [c] + b;
    } else {
      assert s[0] == a[0] && a[0] != c;
      assert s[1..] == a[1..] + [c] + b;
      SplitFirstAt(a[1..], c, b);
      assert [a[0]] + a[1..] == a;
    }
  }
}
