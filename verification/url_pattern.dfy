/**
 * A recogniser for the start-anchored URL regular expressions of the media
 * provider table: a path of literal text, unescaped `.` and uncaptured `[^/]+`
 * runs, followed by at most one capture group `(lead cls+)`.
 *
 * Every greedy run in those patterns is followed either by nothing or by a
 * character outside its class (`[^/]+` is always followed by `/`), so the
 * first greedy choice is the only one that can succeed and the recogniser
 * never needs to backtrack (`NoShorterSkip` for `[^/]+`, `RunLengthOf` for
 * the captures).
 */
module UrlPattern {
  import opened Wrappers

  /** The character classes the patterns use: `\w`, `[\w-]`, `\d`, `[^/]` and `.`. */
  datatype CharClass = Word | WordOrDash | Digit | NotSlash | NotLineTerminator

  /** The characters JavaScript's `.` refuses (without the `s` flag). */
  predicate IsLineTerminator(c: char)
  {
    c == '\n' || c == '\r' || c == '\U{2028}' || c == '\U{2029}'
  }

  predicate InClass(c: char, k: CharClass)
  {
    match k
    case Word => 'a' <= c <= 'z' || 'A' <= c <= 'Z' || '0' <= c <= '9' || c == '_'
    case WordOrDash => 'a' <= c <= 'z' || 'A' <= c <= 'Z' || '0' <= c <= '9' || c == '_' || c == '-'
    case Digit => '0' <= c <= '9'
    case NotSlash => c != '/'
    case NotLineTerminator => !IsLineTerminator(c)
  }

  /** Every character of `r` lies in `k`. */
  ghost predicate IsRun(r: string, k: CharClass)
  {
    forall i :: 0 <= i < |r| ==> InClass(r[i], k)
  }

  /** `rest` cannot extend a run of `k`: it is empty or starts outside `k`. */
  predicate StopsRun(rest: string, k: CharClass)
  {
    |rest| == 0 || !InClass(rest[0], k)
  }

  /** How many characters a greedy `k*` takes from the start of `s`. */
  function RunLength(s: string, k: CharClass): (n: nat)
    ensures n <= |s|
    ensures IsRun(s[..n], k)
    ensures StopsRun(s[n..], k)
  {
    if |s| == 0 || !InClass(s[0], k) then 0
    else
      var n := 1 + RunLength(s[1..], k);
      assert s[..n] == [s[0]] + s[1..][..n - 1];
      assert s[n..] == s[1..][n - 1..];
      n
  }

  /** A prefix of a run is a run. */
  lemma RunPrefix(r: string, j: nat, k: CharClass)
    requires IsRun(r, k) && j <= |r|
    ensures IsRun(r[..j], k)
  {
    assert forall i :: 0 <= i < j ==> r[..j][i] == r[i];
  }

  /** The run a greedy quantifier takes is the whole of a run followed by a stop. */
  lemma {:induction false} RunLengthOf(r: string, rest: string, k: CharClass)
    requires IsRun(r, k) && StopsRun(rest, k)
    ensures RunLength(r + rest, k) == |r|
  {
    if |r| == 0 {
      assert r + rest == rest;
    } else {
      assert (r + rest)[0] == r[0];
      assert (r + rest)[1..] == r[1..] + rest;
      assert IsRun(r[1..], k) by {
        forall i | 0 <= i < |r| - 1 ensures InClass(r[1..][i], k) {
          assert r[1..][i] == r[i + 1];
        }
      }
      RunLengthOf(r[1..], rest, k);
    }
  }

  /** One element of a pattern's path. */
  datatype Step =
    | Lit(text: string)      // escaped literal characters
    | Any                    // an unescaped `.`: one character that is not a line terminator
    | Skip(cls: CharClass)   // an uncaptured greedy run `cls+`, such as `[^/]+`

  /** The capture group `(lead cls+)` that ends a pattern. */
  datatype Capture = Capture(lead: string, cls: CharClass)

  datatype Pattern = Pattern(path: seq<Step>, capture: Option<Capture>)

  /** How many characters one step consumes from the start of `s`. */
  function StepLength(st: Step, s: string): (r: Option<nat>)
    ensures r.Some? ==> r.value <= |s|
  {
    match st
    case Lit(t) => if t <= s then Some(|t|) else None
    case Any => if |s| > 0 && !IsLineTerminator(s[0]) then Some(1) else None
    case Skip(k) =>
      var n := RunLength(s, k);
      if n == 0 then None else Some(n)
  }

  /** How many characters the whole path consumes from the start of `s`. */
  function PathLength(path: seq<Step>, s: string): (r: Option<nat>)
    ensures r.Some? ==> r.value <= |s|
  {
    if |path| == 0 then Some(0)
    else
      match StepLength(path[0], s)
      case None => None
      case Some(n) =>
        match PathLength(path[1..], s[n..])
        case None => None
        case Some(m) => Some(n + m)
  }

  /**
   * A greedy `[^/]+` followed by a literal that starts with `/` needs no
   * backtracking: after any shorter run the next character is not `/`, so
   * the rest of the path fails there.
   */
  lemma NoShorterSkip(s: string, j: nat, t: string, path: seq<Step>)
    requires 0 < j < RunLength(s, NotSlash) && |t| > 0 && t[0] == '/'
    ensures PathLength([Lit(t)] + path, s[j..]).None?
  {
    var n := RunLength(s, NotSlash);
    assert InClass(s[..n][j], NotSlash);
    assert s[j..][0] == s[j] != '/';
    assert ([Lit(t)] + path)[0] == Lit(t);
  }

  /** A path of one literal consumes exactly that literal. */
  lemma LiteralPath(t: string, s: string)
    ensures PathLength([Lit(t)], s) == if t <= s then Some(|t|) else None
  {
    assert [Lit(t)][1..] == [];
  }

  /** A step that consumes `a` followed by a path that consumes `m` characters of `b`. */
  lemma PathPrepend(st: Step, path: seq<Step>, a: string, b: string, m: nat)
    requires StepLength(st, a + b) == Some(|a|)
    requires PathLength(path, b) == Some(m)
    ensures PathLength([st] + path, a + b) == Some(|a| + m)
  {
    assert ([st] + path)[1..] == path;
    assert (a + b)[|a|..] == b;
  }

  /** A path `a . b . c` with unescaped dots consumes `a`, any one character, `b`, any one character and `c`. */
  lemma DottedPath(a: string, b: string, c: string, c1: char, c2: char, tail: string)
    requires !IsLineTerminator(c1) && !IsLineTerminator(c2)
    ensures PathLength([Lit(a), Any, Lit(b), Any, Lit(c)], a + [c1] + b + [c2] + c + tail)
         == Some(|a| + |b| + |c| + 2)
  {
    Dotted(a, b, c, c1, c2, tail);
    var s4 := c + tail;
    var s3 := [c2] + s4;
    var s2 := b + s3;
    var s1 := [c1] + s2;
    LiteralPath(c, s4);
    DotC(c2, c, s4, |c|);
    LitDotC(b, c, s3, |c| + 1);
    DotLitDotC(c1, b, c, s2, |b| + |c| + 1);
    LitDotLitDotC(a, b, c, s1, |b| + |c| + 2);
  }

  lemma Dotted(a: string, b: string, c: string, c1: char, c2: char, tail: string)
    ensures a + [c1] + b + [c2] + c + tail == a + ([c1] + (b + ([c2] + (c + tail))))
  {
  }

  // The steps of `DottedPath`, one path element at a time.

  lemma DotC(ch: char, c: string, s: string, k: nat)
    requires !IsLineTerminator(ch) && PathLength([Lit(c)], s) == Some(k)
    ensures PathLength([Any, Lit(c)], [ch] + s) == Some(1 + k)
  {
    PathPrepend(Any, [Lit(c)], [ch], s, k);
    assert [Any] + [Lit(c)] == [Any, Lit(c)];
  }

  lemma LitDotC(b: string, c: string, s: string, k: nat)
    requires PathLength([Any, Lit(c)], s) == Some(k)
    ensures PathLength([Lit(b), Any, Lit(c)], b + s) == Some(|b| + k)
  {
    PathPrepend(Lit(b), [Any, Lit(c)], b, s, k);
    assert [Lit(b)] + [Any, Lit(c)] == [Lit(b), Any, Lit(c)];
  }

  lemma DotLitDotC(ch: char, b: string, c: string, s: string, k: nat)
    requires !IsLineTerminator(ch) && PathLength([Lit(b), Any, Lit(c)], s) == Some(k)
    ensures PathLength([Any, Lit(b), Any, Lit(c)], [ch] + s) == Some(1 + k)
  {
    PathPrepend(Any, [Lit(b), Any, Lit(c)], [ch], s, k);
    assert [Any] + [Lit(b), Any, Lit(c)] == [Any, Lit(b), Any, Lit(c)];
  }

  lemma LitDotLitDotC(a: string, b: string, c: string, s: string, k: nat)
    requires PathLength([Any, Lit(b), Any, Lit(c)], s) == Some(k)
    ensures PathLength([Lit(a), Any, Lit(b), Any, Lit(c)], a + s) == Some(|a| + k)
  {
    PathPrepend(Lit(a), [Any, Lit(b), Any, Lit(c)], a, s, k);
    assert [Lit(a)] + [Any, Lit(b), Any, Lit(c)] == [Lit(a), Any, Lit(b), Any, Lit(c)];
  }

  /**
   * `url.match(p)`: `None` for `null`, otherwise `[match[0]]`, or
   * `[match[0], match[1]]` when the pattern captures. A captured group is its
   * lead followed by a non-empty, maximal run of the group's class.
   */
  function Exec(p: Pattern, url: string): (r: Option<seq<string>>)
    ensures r.Some? ==> |r.value| == (if p.capture.Some? then 2 else 1)
    ensures r.Some? ==> r.value[0] <= url
    ensures r.Some? && p.capture.Some? ==>
              var whole, g, c := r.value[0], r.value[1], p.capture.value;
              && c.lead <= g && |c.lead| < |g| && IsRun(g[|c.lead|..], c.cls)
              && |g| <= |whole| && whole[|whole| - |g|..] == g
              && StopsRun(url[|whole|..], c.cls)
  {
    match PathLength(p.path, url)
    case None => None
    case Some(n) =>
      match p.capture
      case None => Some([url[..n]])
      case Some(Capture(lead, k)) =>
        var s := url[n..];
        if !(lead <= s) then None
        else
          var m := RunLength(s[|lead|..], k);
          if m == 0 then None
          else
            var whole, g := url[..n + |lead| + m], s[..|lead| + m];
            assert g[|lead|..] == s[|lead|..][..m];
            assert whole[|whole| - |g|..] == g;
            assert url[|whole|..] == s[|lead|..][m..];
            Some([whole, g])
  }

  /**
   * A match starts where the pattern's path ends: without a capture the
   * whole match is what the path consumes, and with one the group starts
   * right after it.
   */
  lemma ExecPathEnd(p: Pattern, url: string)
    requires Exec(p, url).Some?
    ensures p.capture.Some? ==> PathLength(p.path, url) == Some(|Exec(p, url).value[0]| - |Exec(p, url).value[1]|)
    ensures p.capture.None? ==> PathLength(p.path, url) == Some(|Exec(p, url).value[0]|)
  {
  }

  /** A URL of the form literal, lead, run, stop is matched, and the group is lead and run. */
  lemma ExecLiteral(prefix: string, c: Capture, id: string, rest: string)
    requires |id| > 0 && IsRun(id, c.cls) && StopsRun(rest, c.cls)
    ensures Exec(Pattern([Lit(prefix)], Some(c)), prefix + c.lead + id + rest)
         == Some([prefix + c.lead + id, c.lead + id])
  {
    LiteralPath(prefix, prefix + c.lead + id + rest);
    LiteralSlices(prefix, c.lead, id, rest);
    RunLengthOf(id, rest, c.cls);
  }

  /** The slices of `prefix + lead + id + rest` that `Exec` takes. */
  lemma LiteralSlices(prefix: string, lead: string, id: string, rest: string)
    ensures var url, s := prefix + lead + id + rest, lead + id + rest;
            && prefix <= url && url[|prefix|..] == s && lead <= s && s[|lead|..] == id + rest
            && url[..|prefix| + |lead| + |id|] == prefix + lead + id && s[..|lead| + |id|] == lead + id
  {
    var url, s := prefix + lead + id + rest, lead + id + rest;
    assert url == prefix + s;
    assert s == lead + (id + rest);
  }

  /** A URL that does not start with the literal is not matched. */
  lemma ExecLiteralMiss(prefix: string, c: Option<Capture>, url: string)
    requires !(prefix <= url)
    ensures Exec(Pattern([Lit(prefix)], c), url) == None
  {
    LiteralPath(prefix, url);
  }

  /** No pattern before index `i` matches `url`. */
  ghost predicate MissesBefore(ps: seq<Pattern>, url: string, i: int)
    requires i <= |ps|
  {
    forall j :: 0 <= j < i ==> Exec(ps[j], url).None?
  }

  /** Tries the patterns in order and returns the first match. */
  function FirstMatch(ps: seq<Pattern>, url: string): (r: Option<seq<string>>)
    ensures r.Some? ==> exists i :: 0 <= i < |ps| && Exec(ps[i], url) == r && MissesBefore(ps, url, i)
    ensures r.None? ==> MissesBefore(ps, url, |ps|)
  {
    if |ps| == 0 then None
    else if Exec(ps[0], url).Some? then
      assert MissesBefore(ps, url, 0);
      Exec(ps[0], url)
    else
      var r := FirstMatch(ps[1..], url);
      FirstMatchShift(ps, url, r);
      r
  }

  /** When every pattern has the same capture, a first match is that capture's lead and a maximal run. */
  lemma FirstMatchCapture(ps: seq<Pattern>, c: Capture, url: string)
    requires forall i :: 0 <= i < |ps| ==> ps[i].capture == Some(c)
    requires FirstMatch(ps, url).Some?
    ensures var m := FirstMatch(ps, url).value;
            && |m| == 2 && m[0] <= url
            && c.lead <= m[1] && |c.lead| < |m[1]| && IsRun(m[1][|c.lead|..], c.cls)
            && |m[1]| <= |m[0]| && m[0][|m[0]| - |m[1]|..] == m[1]
            && StopsRun(url[|m[0]|..], c.cls)
  {
    var i :| 0 <= i < |ps| && Exec(ps[i], url) == FirstMatch(ps, url) && MissesBefore(ps, url, i);
    assert ps[i].capture == Some(c);
  }

  lemma FirstMatchShift(ps: seq<Pattern>, url: string, r: Option<seq<string>>)
    requires |ps| > 0 && Exec(ps[0], url).None?
    requires r.Some? ==> exists i :: 0 <= i < |ps| - 1 && Exec(ps[1..][i], url) == r && MissesBefore(ps[1..], url, i)
    requires r.None? ==> MissesBefore(ps[1..], url, |ps| - 1)
    ensures r.Some? ==> exists i :: 0 <= i < |ps| && Exec(ps[i], url) == r && MissesBefore(ps, url, i)
    ensures r.None? ==> MissesBefore(ps, url, |ps|)
  {
    forall j | 0 < j < |ps| ensures ps[j] == ps[1..][j - 1] { }
    if r.Some? {
      var i :| 0 <= i < |ps| - 1 && Exec(ps[1..][i], url) == r && MissesBefore(ps[1..], url, i);
      assert Exec(ps[i + 1], url) == r;
      assert MissesBefore(ps, url, i + 1);
    }
  }
}
