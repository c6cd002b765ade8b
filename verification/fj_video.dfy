/**
 * The `fjVideo` provider: its two URL patterns, whose tail
 * `([\w-]+).([\w-]+)` needs a backtracking search, and its `<video>` template.
 *
 * As written, the `.` before the extension and the dots of `cdn.flockjay.com`
 * are unescaped and match any character but a line terminator.
 * `MatchAsWritten` models that; `Match` is the corrected recogniser with
 * escaped dots, and is the one the provider table uses.
 */
module FlockjayVideo {
  import opened Wrappers
  import opened Text
  import opened UrlPattern

  const S3Prefix := "https://fj-file-uploads.s3" + ".us-east-2.amazonaws.com/fjvideo-"
  const CdnPrefix := "https://cdn.flockjay.com/fjvideo-"

  /** The path of each pattern as written: the dots of `cdn.flockjay.com` stand unescaped. */
  const AsWrittenPaths: seq<seq<Step>> :=
    [[Lit(S3Prefix)], [Lit("https://cdn"), Any, Lit("flockjay"), Any, Lit("com/fjvideo-")]]

  /** A prefix the unescaped CDN path accepts: `c1` and `c2` stand where the host has its dots. */
  function CdnLike(c1: char, c2: char): string
  {
    "https://cdn" + [c1] + "flockjay" + [c2] + "com/fjvideo-"
  }

  /** The path of each pattern with every dot escaped. */
  const Paths: seq<seq<Step>> := [[Lit(S3Prefix)], [Lit(CdnPrefix)]]

  /** The character between the id and the extension: any but a line terminator as written, `.` when escaped. */
  predicate IsSeparator(c: char, escaped: bool)
  {
    if escaped then c == '.' else !IsLineTerminator(c)
  }

  /**
   * Group 2 of length `k` can be followed by a separator and a non-empty
   * extension (group 2 must lie within the `[\w-]` run at the start of `t`).
   */
  ghost predicate SplitsAt(t: string, k: int, escaped: bool)
  {
    1 <= k <= RunLength(t, WordOrDash) && k + 1 < |t|
    && IsSeparator(t[k], escaped) && InClass(t[k + 1], WordOrDash)
  }

  /**
   * The backtracking a regular-expression engine does for the greedy group 2:
   * the longest id length, at most `k`, after which the rest of the pattern matches.
   */
  function LastSplit(t: string, k: nat, escaped: bool): Option<nat>
    requires k <= RunLength(t, WordOrDash)
    decreases k
  {
    if k == 0 then None
    else if k + 1 < |t| && IsSeparator(t[k], escaped) && InClass(t[k + 1], WordOrDash) then Some(k)
    else LastSplit(t, k - 1, escaped)
  }

  /**
   * The search returns the longest id length, at most `k`, that leaves a
   * separator and an extension, and nothing when no length up to `k` does.
   */
  lemma {:induction false} LastSplitSound(t: string, k: nat, escaped: bool)
    requires k <= RunLength(t, WordOrDash)
    ensures var r := LastSplit(t, k, escaped);
            && (r.Some? ==> r.value <= k && SplitsAt(t, r.value, escaped))
            && forall j :: (if r.Some? then r.value else 0) < j <= k ==> !SplitsAt(t, j, escaped)
    decreases k
  {
    if k > 0 && !(k + 1 < |t| && IsSeparator(t[k], escaped) && InClass(t[k + 1], WordOrDash)) {
      LastSplitSound(t, k - 1, escaped);
    }
  }

  /** The search stops at the first length it tries that works. */
  lemma LastSplitAt(t: string, k: nat, escaped: bool)
    requires 1 <= k <= RunLength(t, WordOrDash) && k + 1 < |t|
    requires IsSeparator(t[k], escaped) && InClass(t[k + 1], WordOrDash)
    ensures LastSplit(t, k, escaped) == Some(k)
  {
  }

  /** Group 2 has length `k`: the longest id that leaves a separator and an extension. */
  ghost predicate IsLongestSplit(t: string, k: int, escaped: bool)
  {
    SplitsAt(t, k, escaped) && forall j :: k < j ==> !SplitsAt(t, j, escaped)
  }

  /**
   * The match array a regular-expression engine returns for a pattern
   * `^(<path>([\w-]+))<sep>([\w-]+)` once the path has taken `n` characters
   * and group 2 `k` more: group 3 is the maximal extension run after the separator.
   */
  function Groups(url: string, n: nat, k: nat): seq<string>
    requires n + k < |url|
  {
    var e := RunLength(url[n + k + 1..], WordOrDash);
    [url[..n + k + 1 + e], url[..n + k], url[n..n + k], url[n + k + 1..n + k + 1 + e]]
  }

  /**
   * `m` is the match of the pattern: the path takes `n` characters and group 2
   * is the longest id that still leaves a separator and an extension.
   */
  ghost predicate IsMatch(path: seq<Step>, escaped: bool, url: string, m: seq<string>)
  {
    && |m| == 4
    && |m[2]| <= |m[1]| < |url|
    && var n := |m[1]| - |m[2]|;
    && PathLength(path, url) == Some(n)
    && IsLongestSplit(url[n..], |m[2]|, escaped)
    && m == Groups(url, n, |m[2]|)
  }

  /** `url.match(...)` for one fjVideo pattern with the given path: `[match[0], match[1], match[2], match[3]]`. */
  function Exec(path: seq<Step>, escaped: bool, url: string): Option<seq<string>>
  {
    match PathLength(path, url)
    case None => None
    case Some(n) =>
      var t := url[n..];
      match LastSplit(t, RunLength(t, WordOrDash), escaped)
      case None => None
      case Some(k) => LastSplitSound(t, RunLength(t, WordOrDash), escaped); Some(Groups(url, n, k))
  }

  /**
   * `Exec` behaves as a backtracking regular-expression engine does: a result
   * is the match `IsMatch` describes, and there is none only when the path
   * fails or no split of the rest leaves a separator and an extension.
   */
  lemma ExecSound(path: seq<Step>, escaped: bool, url: string)
    ensures Exec(path, escaped, url).Some? ==> IsMatch(path, escaped, url, Exec(path, escaped, url).value)
    ensures Exec(path, escaped, url).None? ==>
              PathLength(path, url).None?
              || forall j :: !SplitsAt(url[PathLength(path, url).value..], j, escaped)
  {
    if PathLength(path, url).Some? {
      var n := PathLength(path, url).value;
      var t := url[n..];
      var r := LastSplit(t, RunLength(t, WordOrDash), escaped);
      LastSplitSound(t, RunLength(t, WordOrDash), escaped);
      if r.Some? {
        ExecFound(path, escaped, url, n, r.value);
      } else {
        NoSplit(t, escaped);
      }
    }
  }

  /** When the search finds no id length, no split exists at all. */
  lemma NoSplit(t: string, escaped: bool)
    requires LastSplit(t, RunLength(t, WordOrDash), escaped).None?
    ensures forall j :: !SplitsAt(t, j, escaped)
  {
    LastSplitSound(t, RunLength(t, WordOrDash), escaped);
  }

  lemma ExecFound(path: seq<Step>, escaped: bool, url: string, n: nat, k: nat)
    requires PathLength(path, url) == Some(n)
    requires SplitsAt(url[n..], k, escaped)
    requires forall j :: k < j <= RunLength(url[n..], WordOrDash) ==> !SplitsAt(url[n..], j, escaped)
    ensures n + k < |url| && IsMatch(path, escaped, url, Groups(url, n, k))
  {
    var m := Groups(url, n, k);
    assert |m[1]| == n + k && |m[2]| == k;
  }

  /** The groups spelled out once the extension length `e` is known. */
  lemma GroupsSlices(url: string, n: nat, k: nat, e: nat)
    requires n + k + 1 <= |url| && RunLength(url[n + k + 1..], WordOrDash) == e
    ensures Groups(url, n, k) == [url[..n + k + 1 + e], url[..n + k], url[n..n + k], url[n + k + 1..n + k + 1 + e]]
  {
  }

  /** What every match of a fjVideo pattern looks like: group 1, a separator, group 3; both groups non-empty runs. */
  lemma MatchGroups(path: seq<Step>, escaped: bool, url: string, m: seq<string>)
    requires IsMatch(path, escaped, url, m)
    ensures m[0] == m[1] + [m[0][|m[1]|]] + m[3] && IsSeparator(m[0][|m[1]|], escaped)
    ensures m[1] == url[..|m[1]| - |m[2]|] + m[2]
    ensures |m[2]| > 0 && IsRun(m[2], WordOrDash)
    ensures |m[3]| > 0 && IsRun(m[3], WordOrDash) && StopsRun(url[|m[0]|..], WordOrDash)
  {
    SplitGroups(escaped, url, |m[1]| - |m[2]|, |m[2]|, m);
  }

  /** `MatchGroups` once the path length `n` and the id length `k` are known. */
  lemma SplitGroups(escaped: bool, url: string, n: nat, k: nat, m: seq<string>)
    requires n + k < |url| && SplitsAt(url[n..], k, escaped) && m == Groups(url, n, k)
    ensures m[0] == m[1] + [m[0][|m[1]|]] + m[3] && IsSeparator(m[0][|m[1]|], escaped)
    ensures m[1] == url[..|m[1]| - |m[2]|] + m[2]
    ensures |m[2]| > 0 && IsRun(m[2], WordOrDash)
    ensures |m[3]| > 0 && IsRun(m[3], WordOrDash) && StopsRun(url[|m[0]|..], WordOrDash)
  {
    var e := RunLength(url[n + k + 1..], WordOrDash);
    assert m == [url[..n + k + 1 + e], url[..n + k], url[n..n + k], url[n + k + 1..n + k + 1 + e]];
    GroupsJoin(url, n, k, e);
    GroupsRuns(url, n, k, escaped);
  }

  /** Group 0 is group 1, the separator and group 3; group 1 is the path and group 2. */
  lemma GroupsJoin(url: string, n: nat, k: nat, e: nat)
    requires n + k + 1 + e <= |url|
    ensures var g0, g1, g2, g3 := url[..n + k + 1 + e], url[..n + k], url[n..n + k], url[n + k + 1..n + k + 1 + e];
            && g0 == g1 + [g0[n + k]] + g3 && g0[n + k] == url[n..][k]
            && g1 == url[..n] + g2
  {
    TakeCons(url, n + k, n + k + 1 + e);
    TakeJoin(url, n, n + k);
  }

  /** Group 2 and group 3 are non-empty `[\w-]` runs, and group 3 is maximal. */
  lemma GroupsRuns(url: string, n: nat, k: nat, escaped: bool)
    requires n + k < |url| && SplitsAt(url[n..], k, escaped)
    ensures var t, u := url[n..], url[n + k + 1..];
            var e := RunLength(u, WordOrDash);
            && k > 0 && IsRun(url[n..n + k], WordOrDash)
            && e > 0 && IsRun(url[n + k + 1..n + k + 1 + e], WordOrDash)
            && StopsRun(url[n + k + 1 + e..], WordOrDash)
  {
    var t, u := url[n..], url[n + k + 1..];
    var e := RunLength(u, WordOrDash);
    assert e > 0 by { assert u[0] == t[k + 1]; }
    assert IsRun(url[n..n + k], WordOrDash) by { IdRun(t, k); assert url[n..n + k] == t[..k]; }
    assert url[n + k + 1..n + k + 1 + e] == u[..e] && url[n + k + 1 + e..] == u[e..];
  }

  /** The first `k` characters after the path lie within the `[\w-]` run. */
  lemma IdRun(t: string, k: nat)
    requires k <= RunLength(t, WordOrDash)
    ensures IsRun(t[..k], WordOrDash)
  {
    var r := RunLength(t, WordOrDash);
    RunPrefix(t[..r], k, WordOrDash);
    assert t[..r][..k] == t[..k];
  }

  /** The first of the two patterns that matches, as the table tries them. */
  function FirstOf(paths: seq<seq<Step>>, escaped: bool, url: string): (r: Option<seq<string>>)
    requires |paths| == 2
  {
    match Exec(paths[0], escaped, url)
    case Some(m) => Some(m)
    case None => Exec(paths[1], escaped, url)
  }

  /** The fjVideo patterns as written at packages/ckeditor5-media-embed/src/mediaembedediting.js:211-212. */
  function MatchAsWritten(url: string): Option<seq<string>>
  {
    FirstOf(AsWrittenPaths, false, url)
  }

  /** The fjVideo patterns with their dots escaped. */
  function Match(url: string): Option<seq<string>>
  {
    FirstOf(Paths, true, url)
  }

  /** With an escaped separator group 2 is always the whole `[\w-]` run: no backtracking happens. */
  lemma EscapedTakesWholeRun(path: seq<Step>, url: string, m: seq<string>)
    requires IsMatch(path, true, url, m)
    ensures |m[2]| == RunLength(url[|m[1]| - |m[2]|..], WordOrDash)
  {
    var t := url[|m[1]| - |m[2]|..];
    var n := RunLength(t, WordOrDash);
    assert t[|m[2]|] == '.';
    assert |m[2]| < n ==> InClass(t[..n][|m[2]|], WordOrDash);
  }

  /**
   * Every URL the corrected patterns accept is one of the two hosts' literal
   * prefix, an id run, a literal `.` and an extension run; group 2 is the
   * whole id run and group 1 the URL up to the dot.
   */
  lemma MatchShape(url: string)
    requires Match(url).Some?
    ensures var m := Match(url).value;
            && (m[1] == S3Prefix + m[2] || m[1] == CdnPrefix + m[2])
            && m[0] == m[1] + "." + m[3] && m[0] <= url
            && |m[2]| > 0 && IsRun(m[2], WordOrDash)
            && |m[3]| > 0 && IsRun(m[3], WordOrDash)
            && StopsRun(url[|m[1]|..], WordOrDash)
  {
    if Exec(Paths[0], true, url).Some? {
      LiteralShape(S3Prefix, url);
    } else {
      LiteralShape(CdnPrefix, url);
    }
  }

  /** `MatchShape` for one escaped pattern whose path is a single literal. */
  lemma LiteralShape(prefix: string, url: string)
    requires Exec([Lit(prefix)], true, url).Some?
    ensures var m := Exec([Lit(prefix)], true, url).value;
            && m[1] == prefix + m[2]
            && m[0] == m[1] + "." + m[3] && m[0] <= url
            && |m[2]| > 0 && IsRun(m[2], WordOrDash)
            && |m[3]| > 0 && IsRun(m[3], WordOrDash)
            && StopsRun(url[|m[1]|..], WordOrDash)
  {
    ExecSound([Lit(prefix)], true, url);
    EscapedShape(prefix, url, Exec([Lit(prefix)], true, url).value);
  }

  /** The shape of a match of an escaped pattern whose path is a single literal. */
  lemma EscapedShape(prefix: string, url: string, m: seq<string>)
    requires IsMatch([Lit(prefix)], true, url, m)
    ensures && m[1] == prefix + m[2]
            && m[0] == m[1] + "." + m[3] && m[0] <= url
            && |m[2]| > 0 && IsRun(m[2], WordOrDash)
            && |m[3]| > 0 && IsRun(m[3], WordOrDash)
            && StopsRun(url[|m[1]|..], WordOrDash)
  {
    LiteralTaken(prefix, url, m);
    MatchGroups([Lit(prefix)], true, url, m);
    MatchStartsUrl([Lit(prefix)], true, url, m);
    EscapedStops([Lit(prefix)], url, m);
  }

  /** A single-literal path takes exactly its literal. */
  lemma LiteralTaken(prefix: string, url: string, m: seq<string>)
    requires IsMatch([Lit(prefix)], true, url, m)
    ensures url[..|m[1]| - |m[2]|] == prefix
  {
    LiteralPath(prefix, url);
  }

  /** The whole match starts the URL. */
  lemma MatchStartsUrl(path: seq<Step>, escaped: bool, url: string, m: seq<string>)
    requires IsMatch(path, escaped, url, m)
    ensures m[0] <= url
  {
  }

  /** With the separator escaped, the URL does not go on with the id class after group 1. */
  lemma EscapedStops(path: seq<Step>, url: string, m: seq<string>)
    requires IsMatch(path, true, url, m)
    ensures StopsRun(url[|m[1]|..], WordOrDash)
  {
    var n := |m[1]| - |m[2]|;
    EscapedTakesWholeRun(path, url, m);
    assert url[|m[1]|..] == url[n..][|m[2]|..];
  }

  /** Conversely, every such URL is accepted, with exactly those groups. */
  lemma MatchOf(prefix: string, id: string, ext: string, rest: string)
    requires prefix == S3Prefix || prefix == CdnPrefix
    requires |id| > 0 && IsRun(id, WordOrDash) && |ext| > 0 && IsRun(ext, WordOrDash)
    requires StopsRun(rest, WordOrDash)
    ensures Match(prefix + id + "." + ext + rest)
         == Some([prefix + id + "." + ext, prefix + id, id, ext])
  {
    var url := prefix + id + "." + ext + rest;
    FiveSlices(prefix, id, ext, rest);
    LiteralPath(prefix, url);
    ExecOf([Lit(prefix)], true, prefix, id, ext, rest);
    if prefix == CdnPrefix {
      CdnPrefixIsCdnLike();
      NotBothHosts('.', '.', url);
      LiteralPath(S3Prefix, url);
      assert Exec(Paths[0], true, url) == None;
    }
  }

  lemma CdnPrefixIsCdnLike()
    ensures CdnPrefix == CdnLike('.', '.')
  {
  }

  /** No URL starts with the S3 prefix and a prefix the unescaped CDN path accepts. */
  lemma NotBothHosts(c1: char, c2: char, url: string)
    requires CdnLike(c1, c2) <= url
    ensures !(S3Prefix <= url)
  {
    assert url[32] == CdnLike(c1, c2)[32] == '-';
    assert S3Prefix[32] == 's';
  }

  /** A look-alike of the CDN prefix is not the CDN prefix. */
  lemma NotCdnPrefix(c1: char, c2: char, url: string)
    requires (c1 != '.' || c2 != '.') && CdnLike(c1, c2) <= url
    ensures !(CdnPrefix <= url)
  {
    CdnPrefixIsCdnLike();
    if c1 != '.' {
      assert url[11] == c1 && CdnPrefix[11] == '.';
    } else {
      assert url[20] == c2 && CdnPrefix[20] == '.';
    }
  }

  /**
   * Both patterns, escaped or not, accept a URL whose path takes `prefix` and
   * which goes on with an id run, a `.` and an extension run.
   */
  lemma ExecOf(path: seq<Step>, escaped: bool, prefix: string, id: string, ext: string, rest: string)
    requires PathLength(path, prefix + id + "." + ext + rest) == Some(|prefix|)
    requires |id| > 0 && IsRun(id, WordOrDash) && |ext| > 0 && IsRun(ext, WordOrDash)
    requires StopsRun(rest, WordOrDash)
    ensures Exec(path, escaped, prefix + id + "." + ext + rest)
         == Some([prefix + id + "." + ext, prefix + id, id, ext])
  {
    var url := prefix + id + "." + ext + rest;
    FiveSlices(prefix, id, ext, rest);
    SplitOf(id, ext, rest, escaped);
    ExecAt(path, escaped, url, |prefix|, |id|);
    GroupsOf(prefix, id, ext, rest);
  }

  /** The groups of `prefix + id + "." + ext + rest` once the path has taken `prefix` and group 2 the id. */
  lemma GroupsOf(prefix: string, id: string, ext: string, rest: string)
    requires |ext| > 0 && IsRun(ext, WordOrDash) && StopsRun(rest, WordOrDash)
    ensures var url := prefix + id + "." + ext + rest;
            && |prefix| + |id| < |url|
            && Groups(url, |prefix|, |id|) == [prefix + id + "." + ext, prefix + id, id, ext]
  {
    FiveSlices(prefix, id, ext, rest);
    RunLengthOf(ext, rest, WordOrDash);
  }

  /** After the path: the id run, then a `.` and the extension run. */
  lemma SplitOf(id: string, ext: string, rest: string, escaped: bool)
    requires |id| > 0 && IsRun(id, WordOrDash) && |ext| > 0 && IsRun(ext, WordOrDash)
    requires StopsRun(rest, WordOrDash)
    ensures var t := id + ("." + ext + rest);
            && SplitsAt(t, |id|, escaped) && RunLength(t, WordOrDash) == |id|
            && t[|id| + 1..] == ext + rest && RunLength(ext + rest, WordOrDash) == |ext|
  {
    DotStopsRun("." + ext + rest);
    RunLengthOf(id, "." + ext + rest, WordOrDash);
    RunLengthOf(ext, rest, WordOrDash);
    DotAfter(id, ext, rest);
  }

  /** A `.` ends an id run. */
  lemma DotStopsRun(u: string)
    requires |u| > 0 && u[0] == '.'
    ensures StopsRun(u, WordOrDash)
  {
  }

  /** What follows the id in `id + ("." + ext + rest)`. */
  lemma DotAfter(id: string, ext: string, rest: string)
    requires |ext| > 0
    ensures var t := id + ("." + ext + rest);
            && |id| + 1 < |t| && t[|id|] == '.' && t[|id| + 1] == ext[0] && t[|id| + 1..] == ext + rest
  {
  }

  /** The slices of `prefix + id + "." + ext + rest` that a match of it takes. */
  lemma FiveSlices(prefix: string, id: string, ext: string, rest: string)
    ensures var url, n, k, e := prefix + id + "." + ext + rest, |prefix|, |id|, |ext|;
            && prefix <= url && url[n..] == id + ("." + ext + rest) && url[n + k + 1..] == ext + rest
            && url[..n + k + 1 + e] == prefix + id + "." + ext && url[..n + k] == prefix + id
            && url[n..n + k] == id && url[n + k + 1..n + k + 1 + e] == ext
  {
    PartSlices(prefix, id, ".", ext, rest);
  }

  /** `Exec` once the path length `n` and the id length `k` are known. */
  lemma ExecAt(path: seq<Step>, escaped: bool, url: string, n: nat, k: nat)
    requires PathLength(path, url) == Some(n)
    requires SplitsAt(url[n..], k, escaped) && k == RunLength(url[n..], WordOrDash)
    ensures n + k < |url| && Exec(path, escaped, url) == Some(Groups(url, n, k))
  {
    LastSplitAt(url[n..], k, escaped);
  }

  /** The unescaped CDN path takes 33 characters of any URL that starts with a `CdnLike` prefix. */
  lemma AsWrittenCdnPath(c1: char, c2: char, tail: string)
    requires !IsLineTerminator(c1) && !IsLineTerminator(c2)
    ensures |CdnLike(c1, c2)| == 33
    ensures PathLength(AsWrittenPaths[1], CdnLike(c1, c2) + tail) == Some(33)
  {
    DottedPath("https://cdn", "flockjay", "com/fjvideo-", c1, c2, tail);
  }

  /**
   * The finding on the host: as written, any character may stand for the
   * dots of `cdn.flockjay.com`, so a look-alike host is accepted; the escaped
   * patterns refuse it.
   */
  lemma HostDot(c1: char, c2: char, id: string, ext: string, rest: string)
    requires !IsLineTerminator(c1) && !IsLineTerminator(c2) && (c1 != '.' || c2 != '.')
    requires |id| > 0 && IsRun(id, WordOrDash) && |ext| > 0 && IsRun(ext, WordOrDash)
    requires StopsRun(rest, WordOrDash)
    ensures var url := CdnLike(c1, c2) + id + "." + ext + rest;
            && MatchAsWritten(url) == Some([CdnLike(c1, c2) + id + "." + ext, CdnLike(c1, c2) + id, id, ext])
            && Match(url) == None
  {
    var prefix := CdnLike(c1, c2);
    var url := prefix + id + "." + ext + rest;
    FiveSlices(prefix, id, ext, rest);
    assert url == prefix + (id + "." + ext + rest);
    AsWrittenCdnPath(c1, c2, id + "." + ext + rest);
    ExecOf(AsWrittenPaths[1], false, prefix, id, ext, rest);
    NotBothHosts(c1, c2, url);
    LiteralPath(S3Prefix, url);
    assert Exec(AsWrittenPaths[0], false, url) == None;
    assert Exec(Paths[0], true, url) == None;
    NotCdnPrefix(c1, c2, url);
    LiteralPath(CdnPrefix, url);
    assert Exec(Paths[1], true, url) == None;
  }

  /** The host finding on one look-alike host, `cdn-flockjay.com`. */
  lemma HostDotCounterexample()
    ensures var host := "https://cdn" + "-" + "flockjay" + "." + "com/fjvideo-";
            && MatchAsWritten(host + "a.mp4") == Some([host + "a.mp4", host + "a", "a", "mp4"])
            && Match(host + "a.mp4") == None
  {
    assert "a" + "." + "mp4" == "a.mp4";
    var host := "https://cdn" + "-" + "flockjay" + "." + "com/fjvideo-";
    assert CdnLike('-', '.') == host;
    Regroup(host, "a", ".", "mp4");
    HostDot('-', '.', "a", "mp4", "");
  }

  /** As written, the search for group 2 backs off two characters when no separator follows the id. */
  lemma BacksOffTwo(t: string)
    requires |t| >= 3 && IsRun(t, WordOrDash)
    ensures RunLength(t, WordOrDash) == |t|
    ensures LastSplit(t, |t|, false) == Some(|t| - 2)
  {
    RunLengthOf(t, "", WordOrDash);
    assert t + "" == t;
    assert InClass(t[|t| - 2], WordOrDash) && InClass(t[|t| - 1], WordOrDash);
    assert LastSplit(t, |t| - 2, false) == Some(|t| - 2);
    assert LastSplit(t, |t| - 1, false) == LastSplit(t, |t| - 2, false);
  }

  /** With the separator escaped, an id that holds no `.` cannot be split. */
  lemma NoSplitWithoutDot(t: string)
    requires IsRun(t, WordOrDash)
    ensures LastSplit(t, RunLength(t, WordOrDash), true) == None
  {
    LastSplitSound(t, RunLength(t, WordOrDash), true);
  }

  /**
   * The finding on the extension: as written, a CDN URL that ends after an
   * id of three or more characters is split inside the id, its last
   * character taken for the extension and the one before it for the dot;
   * the escaped patterns refuse it.
   */
  lemma MissingExtension(id: string)
    requires |id| >= 3 && IsRun(id, WordOrDash)
    ensures MatchAsWritten(CdnPrefix + id)
         == Some([CdnPrefix + id, CdnPrefix + id[..|id| - 2], id[..|id| - 2], id[|id| - 1..]])
    ensures Match(CdnPrefix + id) == None
  {
    CdnMissesS3(CdnPrefix + id);
    AsWrittenSplitsId(id);
    EscapedRefusesId(id);
  }

  /** A CDN URL is never matched by either S3 pattern. */
  lemma CdnMissesS3(url: string)
    requires CdnPrefix <= url
    ensures Exec(AsWrittenPaths[0], false, url) == None && Exec(Paths[0], true, url) == None
  {
    CdnPrefixIsCdnLike();
    NotBothHosts('.', '.', url);
    LiteralPath(S3Prefix, url);
  }

  /** As written, the CDN pattern takes the last character of a bare id for the extension. */
  lemma AsWrittenSplitsId(id: string)
    requires |id| >= 3 && IsRun(id, WordOrDash)
    ensures Exec(AsWrittenPaths[1], false, CdnPrefix + id)
         == Some([CdnPrefix + id, CdnPrefix + id[..|id| - 2], id[..|id| - 2], id[|id| - 1..]])
  {
    CdnPrefixIsCdnLike();
    AsWrittenCdnPath('.', '.', id);
    BareIdExec(AsWrittenPaths[1], CdnPrefix, id);
  }

  /** A path that takes exactly `prefix` leaves a bare id, which the unescaped pattern splits before its last character. */
  lemma BareIdExec(path: seq<Step>, prefix: string, id: string)
    requires |id| >= 3 && IsRun(id, WordOrDash)
    requires PathLength(path, prefix + id) == Some(|prefix|)
    ensures Exec(path, false, prefix + id) == Some(BareIdGroups(prefix, id))
  {
    BareIdSplit(prefix, id, |id| - 2);
    BareIdExtension(prefix, id, |id| - 2);
    BareIdGroupsAt(prefix, id);
    ExecSplit(path, false, prefix + id, |prefix|, |id| - 2, 1, BareIdGroups(prefix, id));
  }

  /** Each group of `BareIdGroups` as the slice of the URL the pattern takes. */
  lemma BareIdGroupsAt(prefix: string, id: string)
    requires |id| >= 3
    ensures var m, url, n, k := BareIdGroups(prefix, id), prefix + id, |prefix|, |id| - 2;
            && |m| == 4 && m[0] == url[..n + k + 1 + 1] && m[1] == url[..n + k] && m[2] == url[n..n + k]
            && m[3] == url[n + k + 1..n + k + 1 + 1]
  {
    BareIdSlices(prefix, id, |id| - 2);
  }

  /** The groups the unescaped pattern returns for a bare id: the last character taken for the extension. */
  function BareIdGroups(prefix: string, id: string): seq<string>
    requires |id| >= 2
  {
    [prefix + id, prefix + id[..|id| - 2], id[..|id| - 2], id[|id| - 1..]]
  }

  /** The unescaped pattern's search splits a bare id before its last character. */
  lemma BareIdSplit(prefix: string, id: string, k: nat)
    requires k + 2 == |id| && |id| >= 3 && IsRun(id, WordOrDash)
    ensures LastSplit((prefix + id)[|prefix|..], RunLength((prefix + id)[|prefix|..], WordOrDash), false) == Some(k)
  {
    assert (prefix + id)[|prefix|..] == id;
    BacksOffTwo(id);
  }

  /** After that split, the extension run is the id's last character. */
  lemma BareIdExtension(prefix: string, id: string, k: nat)
    requires k + 2 == |id| && |id| >= 3 && IsRun(id, WordOrDash)
    ensures RunLength((prefix + id)[|prefix| + k + 1..], WordOrDash) == 1
  {
    assert (prefix + id)[|prefix| + k + 1..] == id[|id| - 1..];
    LastOfRun(id);
  }

  /** The last character of a run is a run of one. */
  lemma LastOfRun(id: string)
    requires |id| >= 1 && IsRun(id, WordOrDash)
    ensures RunLength(id[|id| - 1..], WordOrDash) == 1
  {
    var r := |id|;
    RunLengthOf(id[r - 1..], "", WordOrDash);
    assert id[r - 1..] + "" == id[r - 1..];
  }

  /** `Exec` once the path length, the split and the extension's length are known. */
  lemma ExecSplit(path: seq<Step>, escaped: bool, url: string, n: nat, k: nat, e: nat, m: seq<string>)
    requires PathLength(path, url) == Some(n) && n <= |url|
    requires LastSplit(url[n..], RunLength(url[n..], WordOrDash), escaped) == Some(k)
    requires n + k + 1 <= |url| && RunLength(url[n + k + 1..], WordOrDash) == e
    requires |m| == 4 && m[0] == url[..n + k + 1 + e] && m[1] == url[..n + k] && m[2] == url[n..n + k]
             && m[3] == url[n + k + 1..n + k + 1 + e]
    ensures Exec(path, escaped, url) == Some(m)
  {
    GroupsSlices(url, n, k, e);
    assert m == Groups(url, n, k);
  }

  /** The slices of `prefix + id` that the unescaped pattern takes when it splits inside the id. */
  lemma BareIdSlices(prefix: string, id: string, k: nat)
    requires k + 2 == |id|
    ensures var url, n := prefix + id, |prefix|;
            && url[n..] == id && url[n + k + 1..] == id[k + 1..]
            && url[..n + k + 1 + 1] == prefix + id && url[..n + k] == prefix + id[..k]
            && url[n..n + k] == id[..k] && url[n + k + 1..n + k + 1 + 1] == id[k + 1..]
  {
    var url, n := prefix + id, |prefix|;
    assert url[..n + k + 1 + 1] == url;
  }

  /** With the dots escaped, the CDN pattern refuses a bare id. */
  lemma EscapedRefusesId(id: string)
    requires IsRun(id, WordOrDash)
    ensures Exec(Paths[1], true, CdnPrefix + id) == None
  {
    var url := CdnPrefix + id;
    LiteralPath(CdnPrefix, url);
    assert url[|CdnPrefix|..] == id;
    NoSplitWithoutDot(id);
  }

  /** The extension finding on one id, `abcd`. */
  lemma MissingExtensionCounterexample()
    ensures MatchAsWritten(CdnPrefix + "abcd") == Some([CdnPrefix + "abcd", CdnPrefix + "ab", "ab", "d"])
    ensures Match(CdnPrefix + "abcd") == None
  {
    MissingExtension("abcd");
    assert "abcd"[..2] == "ab" && "abcd"[3..] == "d";
  }
  // The `<video>` template.

  /** The attributes the template writes, each as it appears in the HTML. */
  datatype VideoFields = VideoFields(id: string, poster: Option<string>, sourceType: string, src: string)

  const VideoDiv := "<div style=\"position: relative; " + "background-color: black; " + "text-align: center;\">"
  const VideoOpen := VideoDiv + "<video id="
  const VideoStyle := "style=\"max-width: 100%;\"  "
  const PosterOpen := "poster=\""
  const SourceOpen := "controls " + "controlsList=\"nodownload\" preload=\"metadata\">" + "<source type=\""
  const VideoClose := "></source>" + "</video>" + "</div>"

  /** The `poster` attribute and the space after it, or nothing. */
  function PosterAttribute(poster: Option<string>): string
  {
    match poster
    case None => ""
    case Some(p) => PosterOpen + p + "\" "
  }

  /** The `<source>` element and the closing tags. */
  function SourceHtml(ty: string, src: string): string
  {
    SourceOpen + ty + "\" src=" + src + VideoClose
  }

  /** The template's text around the four fields. */
  function VideoHtml(f: VideoFields): string
  {
    VideoOpen + f.id + " " + VideoStyle + PosterAttribute(f.poster) + SourceHtml(f.sourceType, f.src)
  }

  /** The fields the template fills from a match: a poster only for `mp4`. */
  function FieldsOf(m: seq<string>): VideoFields
    requires |m| >= 4
  {
    VideoFields("fjvideo-" + m[2], if m[3] == "mp4" then Some(m[1] + "-thumbnail.jpg") else None, "video/" + m[3], m[0])
  }

  /** The `html` callback of the fjVideo provider. */
  function Html(m: seq<string>): string
    requires |m| >= 4
  {
    VideoHtml(FieldsOf(m))
  }

  /** Reads the optional poster attribute off the front of `s`. */
  function ParsePoster(s: string): Option<(Option<string>, string)>
  {
    match StripPrefix(PosterOpen, s)
    case None => Some((None, s))
    case Some(r) =>
      match SplitFirst(r, '"')
      case None => None
      case Some((p, r2)) =>
        match StripPrefix(" ", r2)
        case None => None
        case Some(r3) => Some((Some(p), r3))
  }

  /** Reads the `<source>` type and URL off `s`, which must run to the end of the template. */
  function ParseSource(s: string): Option<(string, string)>
  {
    match StripPrefix(SourceOpen, s)
    case None => None
    case Some(r) =>
      match SplitFirst(r, '"')
      case None => None
      case Some((ty, r2)) =>
        match StripPrefix(" src=", r2)
        case None => None
        case Some(r3) =>
          match StripSuffix(r3, VideoClose)
          case None => None
          case Some(src) => Some((ty, src))
  }

  /** Reads the fields back out of the template's HTML. */
  function ParseVideo(html: string): Option<VideoFields>
  {
    match StripPrefix(VideoOpen, html)
    case None => None
    case Some(r1) =>
      match SplitFirst(r1, ' ')
      case None => None
      case Some((id, r2)) =>
        match StripPrefix(VideoStyle, r2)
        case None => None
        case Some(r3) =>
          match ParsePoster(r3)
          case None => None
          case Some((poster, r4)) =>
            match ParseSource(r4)
            case None => None
            case Some((ty, src)) => Some(VideoFields(id, poster, ty, src))
  }

  /** Fields the HTML can carry unambiguously: no space in the id, no quote in the quoted values. */
  predicate Printable(f: VideoFields)
  {
    ' ' !in f.id && (f.poster.Some? ==> '"' !in f.poster.value) && '"' !in f.sourceType
  }

  lemma ParsePosterOf(poster: Option<string>, rest: string)
    requires poster.Some? ==> '"' !in poster.value
    requires poster.None? ==> !(PosterOpen <= rest)
    ensures ParsePoster(PosterAttribute(poster) + rest) == Some((poster, rest))
  {
    match poster
    case None =>
      assert PosterAttribute(poster) + rest == rest;
    case Some(p) =>
      var s := PosterAttribute(poster) + rest;
      assert s == PosterOpen + (p + ['"'] + (" " + rest));
      assert StripPrefix(PosterOpen, s) == Some(p + ['"'] + (" " + rest));
      SplitFirstAt(p, '"', " " + rest);
  }

  lemma ParseSourceOf(ty: string, src: string)
    requires '"' !in ty
    ensures ParseSource(SourceHtml(ty, src)) == Some((ty, src))
  {
    var s := SourceHtml(ty, src);
    assert "\" src=" == ['"'] + " src=";
    Regroup5(SourceOpen, ty, ['"'], " src=", src, VideoClose);
    assert StripPrefix(SourceOpen, s) == Some(ty + ['"'] + (" src=" + (src + VideoClose)));
    SplitFirstAt(ty, '"', " src=" + (src + VideoClose));
    assert StripPrefix(" src=", " src=" + (src + VideoClose)) == Some(src + VideoClose);
  }

  /** The template and `ParseVideo` are inverse: the HTML carries exactly the fields written into it. */
  lemma ParseVideoHtml(f: VideoFields)
    requires Printable(f)
    ensures ParseVideo(VideoHtml(f)) == Some(f)
  {
    var tail := SourceHtml(f.sourceType, f.src);
    var r3 := PosterAttribute(f.poster) + tail;
    assert VideoHtml(f) == VideoOpen + (f.id + " " + (VideoStyle + r3)) by {
      Regroup4(VideoOpen, f.id, " ", VideoStyle, PosterAttribute(f.poster), tail);
    }
    SourceNotPoster(f.sourceType, f.src);
    ParsePosterOf(f.poster, tail);
    ParseSourceOf(f.sourceType, f.src);
    ParseVideoOf(f.id, r3, f.poster, tail, f.sourceType, f.src);
  }

  /** `ParseVideo` once the poster and the source have been read. */
  lemma ParseVideoOf(id: string, r3: string, poster: Option<string>, rest: string, ty: string, src: string)
    requires ' ' !in id
    requires ParsePoster(r3) == Some((poster, rest)) && ParseSource(rest) == Some((ty, src))
    ensures ParseVideo(VideoOpen + (id + " " + (VideoStyle + r3))) == Some(VideoFields(id, poster, ty, src))
  {
    StripHead(VideoOpen, id + " " + (VideoStyle + r3));
    SplitFirstAt(id, ' ', VideoStyle + r3);
    StripHead(VideoStyle, r3);
  }

  /** The `<source>` element does not start like a `poster` attribute. */
  lemma SourceNotPoster(ty: string, src: string)
    ensures !(PosterOpen <= SourceHtml(ty, src))
  {
    assert SourceHtml(ty, src)[0] == 'c' && PosterOpen[0] == 'p';
  }

  /** A `[\w-]` run holds no character outside the class. */
  lemma RunExcludes(s: string, c: char)
    requires IsRun(s, WordOrDash) && !InClass(c, WordOrDash)
    ensures c !in s
  {
  }

  /** The fields of a match of the corrected patterns can be printed and read back. */
  lemma MatchPrintable(m: seq<string>)
    requires |m| >= 4 && (m[1] == S3Prefix + m[2] || m[1] == CdnPrefix + m[2])
    requires IsRun(m[2], WordOrDash) && IsRun(m[3], WordOrDash)
    ensures Printable(FieldsOf(m))
  {
    RunExcludes(m[2], ' ');
    RunExcludes(m[2], '"');
    RunExcludes(m[3], '"');
    PrefixesUnquoted();
    var f := FieldsOf(m);
    assert ' ' !in f.id by { SpaceFree(); }
    assert '"' !in f.sourceType by { QuoteFree(); }
    if f.poster.Some? {
      assert f.poster.value == m[1] + "-thumbnail.jpg";
      QuoteFree();
    }
  }

  /** Neither host prefix holds a double quote. */
  lemma PrefixesUnquoted()
    ensures '"' !in S3Prefix && '"' !in CdnPrefix
  {
  }

  /** The literal that starts the `id` attribute holds no space. */
  lemma SpaceFree()
    ensures ' ' !in "fjvideo-"
  {
  }

  /** The literals around the poster and the type hold no double quote. */
  lemma QuoteFree()
    ensures '"' !in "-thumbnail.jpg" && '"' !in "video/"
  {
  }

  /**
   * The HTML the provider writes for any URL the corrected patterns accept
   * carries the id `fjvideo-<group 2>`, a poster next to group 1 exactly
   * when the extension is `mp4`, the type `video/<extension>` and the
   * matched URL as the source.
   */
  lemma MatchHtml(url: string)
    requires Match(url).Some?
    ensures var m := Match(url).value;
            ParseVideo(Html(m)) == Some(VideoFields("fjvideo-" + m[2],
              if m[3] == "mp4" then Some(m[1] + "-thumbnail.jpg") else None, "video/" + m[3], m[0]))
  {
    var m := Match(url).value;
    MatchShape(url);
    MatchPrintable(m);
    ParseVideoHtml(FieldsOf(m));
  }
}
