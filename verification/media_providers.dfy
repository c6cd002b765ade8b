/**
 * The media provider table of the media embed editing feature: the ordered
 * providers, the URL patterns each one recognises and the `html` template
 * that turns a match into embed markup.
 */
module MediaProviders {
  import opened Wrappers
  import opened Text
  import opened UrlPattern
  import FlockjayVideo

  datatype Provider =
    | Dailymotion | Spotify | YouTube | Vimeo | Instagram | Twitter | GoogleMaps
    | Flickr | Facebook | GoogleSlides | GoogleDocs | Loom | FjVideo | Gong | ExternalMediaEmbed

  /** The providers in the order the configuration lists them. */
  const Table: seq<Provider> :=
    [Dailymotion, Spotify, YouTube, Vimeo, Instagram, Twitter, GoogleMaps,
     Flickr, Facebook, GoogleSlides, GoogleDocs, Loom, FjVideo, Gong, ExternalMediaEmbed]

  function Name(p: Provider): string
  {
    match p
    case Dailymotion => "dailymotion"
    case Spotify => "spotify"
    case YouTube => "youtube"
    case Vimeo => "vimeo"
    case Instagram => "instagram"
    case Twitter => "twitter"
    case GoogleMaps => "googleMaps"
    case Flickr => "flickr"
    case Facebook => "facebook"
    case GoogleSlides => "googleSlides"
    case GoogleDocs => "googleDocs"
    case Loom => "loom"
    case FjVideo => "fjVideo"
    case Gong => "Gong"
    case ExternalMediaEmbed => "externalMediaEmbed"
  }

  /** Every provider appears in the table exactly once, under a name no other provider has. */
  lemma TableNames()
    ensures forall p: Provider :: p in Table
    ensures forall i, j :: 0 <= i < j < |Table| ==> Table[i] != Table[j] && Name(Table[i]) != Name(Table[j])
  {
    forall p: Provider ensures p in Table {
      match p
      case Dailymotion => assert Table[0] == p;
      case Spotify => assert Table[1] == p;
      case YouTube => assert Table[2] == p;
      case Vimeo => assert Table[3] == p;
      case Instagram => assert Table[4] == p;
      case Twitter => assert Table[5] == p;
      case GoogleMaps => assert Table[6] == p;
      case Flickr => assert Table[7] == p;
      case Facebook => assert Table[8] == p;
      case GoogleSlides => assert Table[9] == p;
      case GoogleDocs => assert Table[10] == p;
      case Loom => assert Table[11] == p;
      case FjVideo => assert Table[12] == p;
      case Gong => assert Table[13] == p;
      case ExternalMediaEmbed => assert Table[14] == p;
    }
  }

  // URL patterns. Each alternative `(?:a|b)` of a pattern is written out as
  // two patterns; the alternatives never start the same URL, so the order
  // between them does not matter.

  /** One pattern per prefix: the prefix literally, then `cap`. */
  function LiteralPatterns(prefixes: seq<string>, cap: Option<Capture>): (ps: seq<Pattern>)
    ensures |ps| == |prefixes|
    ensures forall i :: 0 <= i < |ps| ==> ps[i] == Pattern([Lit(prefixes[i])], cap)
  {
    if |prefixes| == 0 then [] else [Pattern([Lit(prefixes[0])], cap)] + LiteralPatterns(prefixes[1..], cap)
  }

  const YouTubePrefixes: seq<string> :=
    ["youtube.com/watch?v=", "m.youtube.com/watch?v=", "youtube.com/v/", "m.youtube.com/v/",
     "youtube.com/embed/", "youtu.be/"]
  const GooglePrefixes: seq<string> := ["google.com/maps", "goo.gl/maps", "maps.google.com", "maps.app.goo.gl"]
  const LoomPrefixes: seq<string> := ["loom.com/share/", "loom.com/embed/"]
  /** Where Gong's iframe loads a call from. */
  const GongEmbed := "https://app.gong.io/" + "embedded-call?call-id="
  const GongHost := "app.gong.io/"
  const GongPrefixes: seq<string> := [GongHost + "call?id=", GongHost + "embedded-call?call-id="]
  const SpotifyKinds: seq<string> := ["artist/", "album/", "track/"]

  /** `/^vimeo\.com\/...(\d+)/` and the others, in order. */
  const VimeoPatterns: seq<Pattern> :=
    var id := Some(Capture("", Digit));
    [ Pattern([Lit("vimeo.com/")], id),
      Pattern([Lit("vimeo.com/"), Skip(NotSlash), Lit("/"), Skip(NotSlash), Lit("/video/")], id),
      Pattern([Lit("vimeo.com/album/"), Skip(NotSlash), Lit("/video/")], id),
      Pattern([Lit("vimeo.com/channels/"), Skip(NotSlash), Lit("/")], id),
      Pattern([Lit("vimeo.com/groups/"), Skip(NotSlash), Lit("/videos/")], id),
      Pattern([Lit("vimeo.com/ondemand/"), Skip(NotSlash), Lit("/")], id),
      Pattern([Lit("player.vimeo.com/video/")], id) ]

  /** Every `[^/]+` of the path is followed by a literal that starts with `/`. */
  predicate SlashFollowsSkips(path: seq<Step>)
  {
    forall j :: 0 <= j < |path| && path[j].Skip? ==> SlashAfter(path, j)
  }

  predicate SlashAfter(path: seq<Step>, j: nat)
  {
    && j < |path| && path[j] == Skip(NotSlash)
    && j + 1 < |path| && path[j + 1].Lit? && |path[j + 1].text| > 0 && path[j + 1].text[0] == '/'
  }

  /** The vimeo patterns meet the premise of `NoShorterSkip` at every `[^/]+`. */
  lemma VimeoSkipsStop()
    ensures forall i :: 0 <= i < |VimeoPatterns| ==> SlashFollowsSkips(VimeoPatterns[i].path)
  {
    assert SlashAfter(VimeoPatterns[1].path, 1) && SlashAfter(VimeoPatterns[1].path, 3);
    assert SlashAfter(VimeoPatterns[2].path, 1) && SlashAfter(VimeoPatterns[3].path, 1);
    assert SlashAfter(VimeoPatterns[4].path, 1) && SlashAfter(VimeoPatterns[5].path, 1);
  }

  /**
   * No vimeo pattern can use a `[^/]+` run shorter than the greedy one: after
   * any shorter run the rest of the pattern's path fails. So the greedy
   * `PathLength` is the only way a backtracking engine could consume the path.
   */
  lemma VimeoGreedy(i: nat, j: nat, s: string, l: nat)
    requires i < |VimeoPatterns| && j < |VimeoPatterns[i].path| && VimeoPatterns[i].path[j].Skip?
    requires 0 < l < RunLength(s, NotSlash)
    ensures PathLength(VimeoPatterns[i].path[j + 1..], s[l..]).None?
  {
    var path := VimeoPatterns[i].path;
    VimeoSkipsStop();
    assert SlashAfter(path, j);
    assert path[j + 1..] == [Lit(path[j + 1].text)] + path[j + 2..];
    NoShorterSkip(s, l, path[j + 1].text, path[j + 2..]);
  }

  /** The spotify patterns: one per kind, the kind inside the capture. */
  const SpotifyPatterns: seq<Pattern> :=
    [ Pattern([Lit("open.spotify.com/")], Some(Capture(SpotifyKinds[0], Word))),
      Pattern([Lit("open.spotify.com/")], Some(Capture(SpotifyKinds[1], Word))),
      Pattern([Lit("open.spotify.com/")], Some(Capture(SpotifyKinds[2], Word))) ]

  /** The providers `Patterns` describes; fjVideo has its own recogniser and externalMediaEmbed none. */
  predicate HasPatterns(p: Provider)
  {
    p != FjVideo && p != ExternalMediaEmbed
  }

  /** The class of the id a provider captures, for the providers that capture one. */
  function IdClass(p: Provider): Option<CharClass>
  {
    match p
    case Dailymotion | Spotify | Instagram | GoogleSlides | GoogleDocs => Some(Word)
    case YouTube | Loom => Some(WordOrDash)
    case Vimeo => Some(Digit)
    case Gong => Some(NotLineTerminator)
    case _ => None
  }

  /** The literal prefixes of the providers whose patterns capture nothing. */
  function UncapturedPrefixes(p: Provider): seq<string>
  {
    match p
    case Twitter => ["twitter.com"]
    case GoogleMaps => GooglePrefixes
    case Flickr => ["flickr.com"]
    case Facebook => ["facebook.com"]
    case _ => []
  }

  /** The literal prefixes of the providers whose patterns are a literal and a bare capture. */
  function CapturedPrefixes(p: Provider): seq<string>
  {
    match p
    case Dailymotion => ["dailymotion.com/video/"]
    case YouTube => YouTubePrefixes
    case Instagram => ["instagram.com/p/"]
    case GoogleSlides => ["docs.google.com/presentation/d/"]
    case GoogleDocs => ["docs.google.com/document/d/"]
    case Loom => LoomPrefixes
    case Gong => GongPrefixes
    case _ => []
  }

  function Patterns(p: Provider): seq<Pattern>
    requires HasPatterns(p)
  {
    match p
    case Spotify => SpotifyPatterns
    case Vimeo => VimeoPatterns
    case Dailymotion | YouTube | Instagram | GoogleSlides | GoogleDocs | Loom | Gong =>
      LiteralPatterns(CapturedPrefixes(p), Some(Capture("", IdClass(p).value)))
    case Twitter | GoogleMaps | Flickr | Facebook => LiteralPatterns(UncapturedPrefixes(p), None)
  }

  /**
   * One attempt of a provider's patterns on the URL text given, the first
   * pattern that matches winning. Most patterns expect the text without
   * protocol and `www.`; fjVideo's expect `https://`.
   */
  function Match(p: Provider, url: string): Option<seq<string>>
    requires p != ExternalMediaEmbed
  {
    if p == FjVideo then FlockjayVideo.Match(url) else FirstMatch(Patterns(p), url)
  }

  /** Every pattern of a provider that captures an id captures it with no lead, except spotify's. */
  lemma PatternCaptures(p: Provider)
    requires HasPatterns(p) && p != Spotify
    ensures forall i :: 0 <= i < |Patterns(p)| ==>
              Patterns(p)[i].capture == if IdClass(p).Some? then Some(Capture("", IdClass(p).value)) else None
  {
  }

  /**
   * A match `m` whose group is a captured id of class `k`: the whole match
   * starts the URL, the id is a non-empty run of `k` that ends the whole
   * match, and the URL does not go on with `k`.
   */
  ghost predicate IdMatch(m: seq<string>, k: CharClass, url: string)
  {
    && |m| == 2 && m[0] <= url
    && |m[1]| > 0 && IsRun(m[1], k)
    && |m[1]| <= |m[0]| && m[0][|m[0]| - |m[1]|..] == m[1]
    && StopsRun(url[|m[0]|..], k)
  }

  /**
   * The group of `m` starts where the path of one of the patterns `ps` ends
   * on `url`: nothing between the path and the group is skipped.
   */
  ghost predicate GroupAfterPath(ps: seq<Pattern>, m: seq<string>, url: string)
  {
    && |m| == 2
    && exists i :: 0 <= i < |ps| && PathLength(ps[i].path, url) == Some(|m[0]| - |m[1]|)
  }

  /** A first match with a group has its group right after the matching pattern's path. */
  lemma GroupStart(ps: seq<Pattern>, url: string)
    requires FirstMatch(ps, url).Some? && |FirstMatch(ps, url).value| == 2
    ensures GroupAfterPath(ps, FirstMatch(ps, url).value, url)
  {
    var i :| 0 <= i < |ps| && Exec(ps[i], url) == FirstMatch(ps, url);
    ExecPathEnd(ps[i], url);
  }

  /**
   * An id captured by `(\w+)`, `([\w-]+)`, `(\d+)` or `(.+)` is non-empty,
   * lies in the class, ends the whole match and is the longest such run.
   */
  lemma CapturedId(p: Provider, url: string)
    requires HasPatterns(p) && p != Spotify && IdClass(p).Some? && Match(p, url).Some?
    ensures IdMatch(Match(p, url).value, IdClass(p).value, url)
    ensures GroupAfterPath(Patterns(p), Match(p, url).value, url)
  {
    CapturedRun(p, url);
    GroupStart(Patterns(p), url);
  }

  /** The class and maximality half of `CapturedId`, provider by provider. */
  lemma CapturedRun(p: Provider, url: string)
    requires HasPatterns(p) && p != Spotify && IdClass(p).Some? && Match(p, url).Some?
    ensures IdMatch(Match(p, url).value, IdClass(p).value, url)
  {
    if p == Vimeo {
      VimeoCaptures();
      IdCapture(VimeoPatterns, Digit, url, Match(p, url));
    } else {
      LiteralIdCapture(CapturedPrefixes(p), IdClass(p).value, url, Match(p, url));
    }
  }

  /** `IdCapture` for one literal prefix per pattern. */
  lemma LiteralIdCapture(prefixes: seq<string>, k: CharClass, url: string, r: Option<seq<string>>)
    requires FirstMatch(LiteralPatterns(prefixes, Some(Capture("", k))), url) == r && r.Some?
    ensures IdMatch(r.value, k, url)
  {
    IdCapture(LiteralPatterns(prefixes, Some(Capture("", k))), k, url, r);
  }

  /** Every vimeo pattern captures `(\d+)` with no lead. */
  lemma VimeoCaptures()
    ensures forall i :: 0 <= i < |VimeoPatterns| ==> VimeoPatterns[i].capture == Some(Capture("", Digit))
  {
  }

  /** `CapturedId` for a list of patterns that all capture `(k+)` with no lead. */
  lemma IdCapture(ps: seq<Pattern>, k: CharClass, url: string, r: Option<seq<string>>)
    requires forall i :: 0 <= i < |ps| ==> ps[i].capture == Some(Capture("", k))
    requires FirstMatch(ps, url) == r && r.Some?
    ensures IdMatch(r.value, k, url)
  {
    FirstMatchCapture(ps, Capture("", k), url);
    assert r.value[1][0..] == r.value[1];
  }

  /** A pattern without a capture yields the whole match only, which is one of the provider's literals. */
  lemma UncapturedMatch(p: Provider, url: string)
    requires HasPatterns(p) && IdClass(p).None? && Match(p, url).Some?
    ensures |Match(p, url).value| == 1 && Match(p, url).value[0] <= url
    ensures Match(p, url).value[0] in UncapturedPrefixes(p)
  {
    UncapturedProvider(p);
    LiteralWhole(UncapturedPrefixes(p), url, Match(p, url));
  }

  /** A provider without a capture has one literal pattern per prefix. */
  lemma UncapturedProvider(p: Provider)
    requires HasPatterns(p) && IdClass(p).None?
    ensures Patterns(p) == LiteralPatterns(UncapturedPrefixes(p), None)
  {
  }

  /** A first match of literal patterns that capture nothing is one of the literals. */
  lemma LiteralWhole(prefixes: seq<string>, url: string, r: Option<seq<string>>)
    requires FirstMatch(LiteralPatterns(prefixes, None), url) == r && r.Some?
    ensures |r.value| == 1 && r.value[0] <= url && r.value[0] in prefixes
  {
    var ps := LiteralPatterns(prefixes, None);
    var i :| 0 <= i < |ps| && Exec(ps[i], url) == r && MissesBefore(ps, url, i);
    LiteralPath(prefixes[i], url);
    assert r.value[0] == prefixes[i];
  }

  /** Spotify's id is its kind followed by a non-empty `\w` run. */
  lemma SpotifyId(url: string)
    requires Match(Spotify, url).Some?
    ensures var m := Match(Spotify, url).value;
            && |m| == 2 && m[0] <= url
            && exists j :: 0 <= j < |SpotifyKinds| && SpotifyKinds[j] <= m[1]
                           && |SpotifyKinds[j]| < |m[1]| && IsRun(m[1][|SpotifyKinds[j]|..], Word)
    ensures GroupAfterPath(Patterns(Spotify), Match(Spotify, url).value, url)
  {
    SpotifyCaptures();
    KindCapture(SpotifyPatterns, SpotifyKinds, url, Match(Spotify, url));
    GroupStart(Patterns(Spotify), url);
  }

  /** Each spotify pattern captures its own kind followed by a `\w` run. */
  lemma SpotifyCaptures()
    ensures |SpotifyPatterns| == |SpotifyKinds|
    ensures forall i :: 0 <= i < |SpotifyPatterns| ==> SpotifyPatterns[i].capture == Some(Capture(SpotifyKinds[i], Word))
  {
  }

  /** `SpotifyId` for a list of patterns whose captures are `(kind \w+)`, one kind each. */
  lemma KindCapture(ps: seq<Pattern>, kinds: seq<string>, url: string, r: Option<seq<string>>)
    requires |ps| == |kinds| && forall i :: 0 <= i < |ps| ==> ps[i].capture == Some(Capture(kinds[i], Word))
    requires FirstMatch(ps, url) == r && r.Some?
    ensures var m := r.value;
            && |m| == 2 && m[0] <= url
            && exists j :: 0 <= j < |kinds| && kinds[j] <= m[1] && |kinds[j]| < |m[1]| && IsRun(m[1][|kinds[j]|..], Word)
  {
    var i :| 0 <= i < |ps| && Exec(ps[i], url) == r && MissesBefore(ps, url, i);
    assert ps[i].capture == Some(Capture(kinds[i], Word));
  }

  // Templates.

  /** The parts of an iframe template that vary between providers. */
  datatype IframeShape = IframeShape(padding: string, base: string, suffix: string, attributes: string)

  const Wide := "padding-bottom: 56.2493%;"
  const FullscreenAttributes := "frameborder=\"0\" " + "webkitallowfullscreen mozallowfullscreen allowfullscreen"
  const AutoplayAttributes := "frameborder=\"0\" " + "allow=\"autoplay; encrypted-media\" allowfullscreen"
  const IframeStyle := "style=\"position: absolute; " + "width: 100%; height: 100%; top: 0; left: 0;\" "
  const IframeDiv := "<div style=\"position: relative; " + "padding-bottom: 100%; height: 0; "

  /** The iframe providers, whose template wraps `match[1]` in an iframe. */
  predicate IsIframe(p: Provider)
  {
    p in {Dailymotion, Spotify, YouTube, Vimeo, GoogleSlides, GoogleDocs, Loom, Gong}
  }

  const DailymotionBase := "https://www.dailymotion.com/embed/video/"
  const SpotifyBase := "https://open.spotify.com/embed/"
  const YouTubeBase := "https://www.youtube.com/embed/"
  const VimeoBase := "https://player.vimeo.com/video/"
  const SlidesBase := "https://docs.google.com/presentation/d/"
  const DocsBase := "https://docs.google.com/document/d/"
  const LoomBase := "https://www.loom.com/embed/"
  const SlidesSuffix := "/embed?loop=false"
  const DocsSuffix := "/pub?embedded=true"
  const Tall := "padding-bottom: 126%;"

  function Frame(p: Provider): IframeShape
    requires IsIframe(p)
  {
    match p
    case Dailymotion =>
      IframeShape("", DailymotionBase, "",
        "frameborder=\"0\" " + "width=\"480\" height=\"270\" allowfullscreen allow=\"autoplay\"")
    case Spotify =>
      IframeShape(Tall, SpotifyBase, "",
        "frameborder=\"0\" " + "allowtransparency=\"true\" allow=\"encrypted-media\"")
    case YouTube => IframeShape(Wide, YouTubeBase, "", AutoplayAttributes)
    case Vimeo => IframeShape(Wide, VimeoBase, "", FullscreenAttributes)
    case GoogleSlides =>
      IframeShape(Wide, SlidesBase, SlidesSuffix, FullscreenAttributes)
    case GoogleDocs =>
      IframeShape(Wide, DocsBase, DocsSuffix, FullscreenAttributes)
    case Loom => IframeShape(Wide, LoomBase, "", AutoplayAttributes)
    case Gong => IframeShape(Wide, GongEmbed, "", "frameborder=\"0\"")
  }

  /** The text of the outer `div` before its closing `>`. */
  function DivOpen(padding: string): string
  {
    IframeDiv + padding + "\""
  }

  /** The iframe's attributes after `src`, and the closing tags. */
  function IframeClose(attributes: string): string
  {
    IframeStyle + attributes + ">" + "</iframe>" + "</div>"
  }

  const IframeOpen := "<iframe src=\""

  /** An iframe provider's template: a `div` holding an iframe on the base, the id and the suffix. */
  function IframeHtml(s: IframeShape, id: string): string
  {
    DivOpen(s.padding) + ">" + IframeOpen + (s.base + id + s.suffix) + "\" " + IframeClose(s.attributes)
  }

  /** The template text up to the id. */
  function IframeHead(s: IframeShape): string
  {
    DivOpen(s.padding) + ">" + IframeOpen + s.base
  }

  /** The template text after the id. */
  function IframeTail(s: IframeShape): string
  {
    s.suffix + "\" " + IframeClose(s.attributes)
  }

  lemma Regroup8(a: string, b: string, c: string, d: string, e: string, f: string, g: string, h: string)
    ensures a + b + c + (d + e + f) + g + h == (a + b + c + d) + (e + (f + g + h))
  {
  }

  /** The template is its head, the id and its tail. */
  lemma IframeParts(s: IframeShape, id: string)
    ensures IframeHtml(s, id) == IframeHead(s) + (id + IframeTail(s))
  {
    Regroup8(DivOpen(s.padding), ">", IframeOpen, s.base, id, s.suffix, "\" ", IframeClose(s.attributes));
  }

  /** The id an iframe template was filled with, read back from its HTML. */
  function ParseIframe(s: IframeShape, html: string): Option<string>
  {
    match StripPrefix(IframeHead(s), html)
    case None => None
    case Some(r) => StripSuffix(r, IframeTail(s))
  }

  /**
   * An iframe template is fixed text around the id: the HTML carries the id
   * and nothing else, and HTML that reads back as an id is that id's HTML.
   */
  lemma IframeRoundTrip(s: IframeShape, id: string, html: string)
    ensures ParseIframe(s, IframeHtml(s, id)) == Some(id)
    ensures ParseIframe(s, html) == Some(id) ==> html == IframeHtml(s, id)
  {
    IframeParts(s, id);
  }

  /** The value of the iframe's `src` attribute: what follows the first `>` and `<iframe src="`, up to the next `"`. */
  function IframeSrc(html: string): Option<string>
  {
    match SplitFirst(html, '>')
    case None => None
    case Some((_, rest)) =>
      match StripPrefix(IframeOpen, rest)
      case None => None
      case Some(r) =>
        match SplitFirst(r, '"')
        case None => None
        case Some((src, _)) => Some(src)
  }

  lemma SrcParts(a: string, c: string, src: string, h: string)
    ensures a + ">" + c + src + "\" " + h == a + ['>'] + (c + (src + ['"'] + (" " + h)))
  {
    assert ">" == ['>'];
    assert "\" " == ['"'] + " ";
  }

  /** The `src` of an iframe template is the provider's base, the id and the suffix. */
  lemma IframeSrcOf(s: IframeShape, id: string)
    requires '>' !in s.padding && '"' !in s.base + id + s.suffix
    ensures IframeSrc(IframeHtml(s, id)) == Some(s.base + id + s.suffix)
  {
    var src := s.base + id + s.suffix;
    var close := IframeClose(s.attributes);
    assert '>' !in IframeDiv;
    assert '>' !in DivOpen(s.padding);
    SrcParts(DivOpen(s.padding), IframeOpen, src, close);
    SplitFirstAt(DivOpen(s.padding), '>', IframeOpen + (src + ['"'] + (" " + close)));
    SplitFirstAt(src, '"', " " + close);
  }

  lemma VideoBasesReadable()
    ensures '"' !in DailymotionBase && '"' !in YouTubeBase && '"' !in VimeoBase
  {
  }

  lemma GoogleBasesReadable()
    ensures '"' !in SlidesBase && '"' !in DocsBase
  {
  }

  lemma OtherBasesReadable()
    ensures '"' !in SpotifyBase && '"' !in LoomBase && '"' !in GongEmbed
  {
  }

  lemma SuffixesReadable()
    ensures '"' !in SlidesSuffix && '"' !in DocsSuffix && '>' !in Wide && '>' !in Tall
  {
  }

  /** Every iframe provider's fixed text lets its `src` be read back. */
  lemma FramesReadable(p: Provider)
    requires IsIframe(p)
    ensures '>' !in Frame(p).padding && '"' !in Frame(p).base && '"' !in Frame(p).suffix
  {
    VideoBasesReadable();
    GoogleBasesReadable();
    OtherBasesReadable();
    SuffixesReadable();
  }

  /** `match[0]`, `match[1]` and so on: how many captures a provider's template reads. */
  function Arity(p: Provider): nat
  {
    if IsIframe(p) then 2 else if p == FjVideo then 4 else if p == ExternalMediaEmbed then 5 else 0
  }

  /** Whether the provider has an `html` template. */
  predicate HasTemplate(p: Provider)
  {
    p !in {Instagram, Twitter, GoogleMaps, Flickr, Facebook}
  }

  /** The provider's `html(match)`, or `None` where there is no template or it returns `undefined`. */
  function Html(p: Provider, m: seq<string>): Option<string>
    requires |m| >= Arity(p)
  {
    if IsIframe(p) then Some(IframeHtml(Frame(p), m[1]))
    else if p == FjVideo then Some(FlockjayVideo.Html(m))
    else if p == ExternalMediaEmbed then ExternalHtml(m[1], m[4])
    else None
  }

  /** The markup the table produces for a URL a provider recognises. */
  function ProviderHtml(p: Provider, url: string): Option<string>
    requires p != ExternalMediaEmbed
  {
    match Match(p, url)
    case None => None
    case Some(m) => if |m| >= Arity(p) then Html(p, m) else None
  }

  /** The five providers without a template, and the template of every other one. */
  lemma TemplateProviders(p: Provider, m: seq<string>)
    requires |m| >= Arity(p)
    ensures Html(p, m).Some? <==> HasTemplate(p) && (p == ExternalMediaEmbed ==> m[4] in ExternalExtensions)
    ensures IsIframe(p) || p == FjVideo || p == ExternalMediaEmbed <==> HasTemplate(p)
  {
    if p == ExternalMediaEmbed {
      ExternalDispatch(m[1], m[4]);
    }
  }

  /**
   * The markup of an iframe provider depends on `match[1]` only, and
   * different ids give different markup.
   */
  lemma IframeDependsOnId(p: Provider, m: seq<string>, m': seq<string>)
    requires IsIframe(p) && |m| >= 2 && |m'| >= 2
    ensures Html(p, m) == Html(p, m') <==> m[1] == m'[1]
    ensures ParseIframe(Frame(p), Html(p, m).value) == Some(m[1])
  {
    IframeRoundTrip(Frame(p), m[1], IframeHtml(Frame(p), m'[1]));
    IframeRoundTrip(Frame(p), m'[1], IframeHtml(Frame(p), m[1]));
  }

  /** The `src` of an iframe provider's markup is its embed base, `match[1]` and its suffix. */
  lemma IframeProviderSrc(p: Provider, m: seq<string>)
    requires IsIframe(p) && |m| >= 2 && '"' !in m[1]
    ensures IframeSrc(Html(p, m).value) == Some(Frame(p).base + m[1] + Frame(p).suffix)
  {
    FramesReadable(p);
    IframeSrcOf(Frame(p), m[1]);
  }

  // The forms of a provider's URL.

  /** Two prefixes that disagree at `k` never start the same URL. */
  lemma DisagreeAt(a: string, b: string, k: nat, url: string)
    requires k < |a| && k < |b| && a[k] != b[k]
    ensures !(a <= url && b <= url)
  {
  }

  /** The pattern a URL starts with is the one the table picks, when no other prefix starts it. */
  lemma OnlyPrefix(prefixes: seq<string>, cap: Option<Capture>, i: nat, url: string)
    requires i < |prefixes|
    requires forall j :: 0 <= j < |prefixes| && j != i ==> !(prefixes[j] <= url)
    ensures FirstMatch(LiteralPatterns(prefixes, cap), url) == Exec(Pattern([Lit(prefixes[i])], cap), url)
  {
    var ps := LiteralPatterns(prefixes, cap);
    forall j | 0 <= j < |ps| && j != i ensures Exec(ps[j], url).None? {
      ExecLiteralMiss(prefixes[j], cap, url);
    }
    var r := FirstMatch(ps, url);
    if r.Some? {
      var k :| 0 <= k < |ps| && Exec(ps[k], url) == r && MissesBefore(ps, url, k);
      assert k == i;
    } else {
      assert Exec(ps[i], url).None?;
    }
  }

  /** A URL that only one literal prefix starts yields the capture run that follows that prefix. */
  lemma OnlyPrefixMatch(prefixes: seq<string>, cls: CharClass, i: nat, id: string, rest: string)
    requires i < |prefixes|
    requires |id| > 0 && IsRun(id, cls) && StopsRun(rest, cls)
    requires forall j :: 0 <= j < |prefixes| && j != i ==> !(prefixes[j] <= prefixes[i] + id + rest)
    ensures FirstMatch(LiteralPatterns(prefixes, Some(Capture("", cls))), prefixes[i] + id + rest)
         == Some([prefixes[i] + id, id])
  {
    var cap := Capture("", cls);
    assert prefixes[i] + id + rest == prefixes[i] + cap.lead + id + rest;
    OnlyPrefix(prefixes, Some(cap), i, prefixes[i] + id + rest);
    ExecLiteral(prefixes[i], cap, id, rest);
  }

  /**
   * A provider whose patterns are literal prefixes each followed by a
   * capture run: a URL that only one of the prefixes starts yields the run
   * that follows that prefix.
   */
  /** A provider with literal prefixes has one pattern per prefix, each a bare capture of its class. */
  lemma LiteralProvider(p: Provider)
    requires HasPatterns(p) && CapturedPrefixes(p) != []
    ensures Patterns(p) == LiteralPatterns(CapturedPrefixes(p), Some(Capture("", IdClass(p).value)))
    ensures p == YouTube ==> CapturedPrefixes(p) == YouTubePrefixes && IdClass(p) == Some(WordOrDash)
    ensures p == Gong ==> CapturedPrefixes(p) == GongPrefixes && IdClass(p) == Some(NotLineTerminator)
  {
  }

  lemma PrefixProviderMatch(p: Provider, prefixes: seq<string>, cls: CharClass, i: nat, id: string, rest: string)
    requires HasPatterns(p) && p != FjVideo && Patterns(p) == LiteralPatterns(prefixes, Some(Capture("", cls)))
    requires i < |prefixes|
    requires |id| > 0 && IsRun(id, cls) && StopsRun(rest, cls)
    requires forall j :: 0 <= j < |prefixes| && j != i ==> !(prefixes[j] <= prefixes[i] + id + rest)
    ensures Match(p, prefixes[i] + id + rest) == Some([prefixes[i] + id, id])
  {
    OnlyPrefixMatch(prefixes, cls, i, id, rest);
  }

  /** No two YouTube prefixes start the same URL. */
  lemma YouTubePrefixesDisjoint(i: nat, url: string)
    requires i < |YouTubePrefixes| && YouTubePrefixes[i] <= url
    ensures forall j :: 0 <= j < |YouTubePrefixes| && j != i ==> !(YouTubePrefixes[j] <= url)
  {
    var P := YouTubePrefixes;
    // `m.` against no `m.`, then `youtu.be/` against `youtube.com/`, then the path.
    forall j | 0 <= j < |P| && j != i ensures !(P[j] <= url) {
      var a, b := P[i], P[j];
      if (i % 2 == 1 && i < 4) != (j % 2 == 1 && j < 4) {
        DisagreeAt(a, b, 0, url);
      } else if i == 5 || j == 5 {
        DisagreeAt(a, b, 5, url);
      } else if i % 2 == 0 {
        DisagreeAt(a, b, 12, url);
      } else {
        DisagreeAt(a, b, 14, url);
      }
    }
  }

  /** A YouTube URL of any of the six forms yields the id that follows the form's prefix. */
  lemma YouTubeMatch(i: nat, id: string, rest: string)
    requires i < |YouTubePrefixes|
    requires |id| > 0 && IsRun(id, WordOrDash) && StopsRun(rest, WordOrDash)
    ensures Match(YouTube, YouTubePrefixes[i] + id + rest) == Some([YouTubePrefixes[i] + id, id])
  {
    YouTubePrefixesDisjoint(i, YouTubePrefixes[i] + id + rest);
    LiteralProvider(YouTube);
    PrefixProviderMatch(YouTube, YouTubePrefixes, WordOrDash, i, id, rest);
  }

  /**
   * Every YouTube URL form carrying the same id gives the same markup: the
   * embed iframe for that id.
   */
  lemma YouTubeForms(i: nat, id: string, rest: string)
    requires i < |YouTubePrefixes|
    requires |id| > 0 && IsRun(id, WordOrDash) && StopsRun(rest, WordOrDash)
    ensures ProviderHtml(YouTube, YouTubePrefixes[i] + id + rest) == Some(IframeHtml(Frame(YouTube), id))
  {
    YouTubeMatch(i, id, rest);
  }

  /** Gong's two prefixes never start the same URL. */
  lemma GongPrefixesDisjoint(i: nat, url: string)
    requires i < |GongPrefixes| && GongPrefixes[i] <= url
    ensures forall j :: 0 <= j < |GongPrefixes| && j != i ==> !(GongPrefixes[j] <= url)
  {
    assert GongPrefixes[0][12] == 'c' && GongPrefixes[1][12] == 'e';
  }

  /** Gong's `call?id=` and `embedded-call?call-id=` forms both yield the rest of the line. */
  lemma GongMatch(i: nat, id: string, rest: string)
    requires i < |GongPrefixes|
    requires |id| > 0 && IsRun(id, NotLineTerminator) && StopsRun(rest, NotLineTerminator)
    ensures Match(Gong, GongPrefixes[i] + id + rest) == Some([GongPrefixes[i] + id, id])
  {
    GongPrefixesDisjoint(i, GongPrefixes[i] + id + rest);
    LiteralProvider(Gong);
    PrefixProviderMatch(Gong, GongPrefixes, NotLineTerminator, i, id, rest);
  }

  /**
   * Gong's two forms give the same markup, whose `src` is the
   * `embedded-call?call-id=` form.
   */
  lemma GongForms(i: nat, id: string, rest: string)
    requires i < |GongPrefixes|
    requires |id| > 0 && IsRun(id, NotLineTerminator) && StopsRun(rest, NotLineTerminator)
    ensures ProviderHtml(Gong, GongPrefixes[i] + id + rest) == Some(IframeHtml(Frame(Gong), id))
  {
    GongMatch(i, id, rest);
  }

  /** The iframe of Gong's markup loads the `embedded-call?call-id=` form of the call. */
  lemma GongSrc(id: string)
    requires '"' !in id
    ensures IframeSrc(IframeHtml(Frame(Gong), id)) == Some(GongEmbed + id)
  {
    var s := Frame(Gong);
    OtherBasesReadable();
    SuffixesReadable();
    assert s.base + id + s.suffix == GongEmbed + id;
    IframeSrcOf(s, id);
  }

  /** The iframe template splits around the first quote of the id. */
  lemma QuoteParts(a: string, c: string, b: string, x: string, y: string, f: string, h: string)
    ensures a + ">" + c + (b + (x + ['"'] + y) + f) + "\" " + h
         == a + ['>'] + (c + ((b + x) + ['"'] + (y + f + "\" " + h)))
  {
    assert ">" == ['>'];
  }

  /** A quote in the id ends the iframe's `src` there: the rest of the id is left outside the attribute. */
  lemma IframeSrcCut(s: IframeShape, x: string, y: string)
    requires '>' !in s.padding && '"' !in s.base + x
    ensures IframeSrc(IframeHtml(s, x + ['"'] + y)) == Some(s.base + x)
  {
    var close := IframeClose(s.attributes);
    QuoteParts(DivOpen(s.padding), IframeOpen, s.base, x, y, s.suffix, close);
    assert '>' !in IframeDiv;
    assert '>' !in DivOpen(s.padding);
    SplitFirstAt(DivOpen(s.padding), '>', IframeOpen + ((s.base + x) + ['"'] + (y + s.suffix + "\" " + close)));
    SplitFirstAt(s.base + x, '"', y + s.suffix + "\" " + close);
  }

  /**
   * Gong's `(.+)` admits a quote, and the template puts the id into
   * `src="…"` as it stands: the quote ends the attribute early and the rest
   * of the id becomes markup of its own.
   */
  lemma GongQuoteCounterexample()
    ensures Match(Gong, GongHost + "call?id=" + "x\"><b") == Some([GongHost + "call?id=" + "x\"><b", "x\"><b"])
    ensures IframeSrc(IframeHtml(Frame(Gong), "x\"><b")) == Some(GongEmbed + "x")
  {
    GongQuoteMatch("x\"><b");
    GongQuoteSrc();
  }

  lemma GongQuoteMatch(id: string)
    requires id == "x\"><b"
    ensures Match(Gong, GongHost + "call?id=" + id) == Some([GongHost + "call?id=" + id, id])
  {
    assert IsRun(id, NotLineTerminator);
    assert GongPrefixes[0] + id + "" == GongHost + "call?id=" + id;
    GongMatch(0, id, "");
  }

  lemma GongQuoteSrc()
    ensures IframeSrc(IframeHtml(Frame(Gong), "x\"><b")) == Some(GongEmbed + "x")
  {
    assert "x\"><b" == "x" + ['"'] + "><b";
    GongSrcCut("x", "><b");
  }

  /** `IframeSrcCut` for Gong. */
  lemma GongSrcCut(x: string, y: string)
    requires '"' !in x
    ensures IframeSrc(IframeHtml(Frame(Gong), x + ['"'] + y)) == Some(GongEmbed + x)
  {
    OtherBasesReadable();
    IframeSrcCut(Frame(Gong), x, y);
  }

  // Attribute escaping, which the Gong template needs and does not do.

  /** How one character is written inside a quoted attribute value. */
  function EscapeChar(c: char): string
  {
    if c == '"' then "&quot;" else if c == '&' then "&amp;" else [c]
  }

  /** The id written for a quoted attribute value: `"` as `&quot;` and `&` as `&amp;`. */
  function EscapeAttribute(id: string): (r: string)
    ensures '"' !in r
  {
    if |id| == 0 then "" else EscapeChar(id[0]) + EscapeAttribute(id[1..])
  }

  /** The value an HTML reader takes from an attribute: `&quot;` as `"` and `&amp;` as `&`. */
  function UnescapeAttribute(v: string): string
    decreases |v|
  {
    if |v| == 0 then ""
    else if v[0] == '&' && "&quot;" <= v then "\"" + UnescapeAttribute(v[6..])
    else if v[0] == '&' && "&amp;" <= v then "&" + UnescapeAttribute(v[5..])
    else [v[0]] + UnescapeAttribute(v[1..])
  }

  /** Reading back one escaped character. */
  lemma UnescapeChar(c: char, t: string)
    ensures UnescapeAttribute(EscapeChar(c) + t) == [c] + UnescapeAttribute(t)
  {
    var v := EscapeChar(c) + t;
    if c == '"' {
      assert "&quot;" <= v && v[6..] == t;
    } else if c == '&' {
      assert v[1] == 'a';
      assert "&amp;" <= v && v[5..] == t;
    } else {
      assert v[0] == c && v[1..] == t;
    }
  }

  /** Text without `&` reads back as itself. */
  lemma {:induction false} UnescapePlain(a: string, b: string)
    requires '&' !in a
    ensures UnescapeAttribute(a + b) == a + UnescapeAttribute(b)
  {
    if |a| > 0 {
      var v := a + b;
      assert v[0] == a[0] && v[1..] == a[1..] + b;
      assert UnescapeAttribute(v) == [a[0]] + UnescapeAttribute(a[1..] + b);
      UnescapePlain(a[1..], b);
      assert [a[0]] + (a[1..] + UnescapeAttribute(b)) == a + UnescapeAttribute(b);
    } else {
      assert a + b == b;
    }
  }

  /** Escaping is undone by reading the attribute back. */
  lemma {:induction false} UnescapeEscape(id: string)
    ensures UnescapeAttribute(EscapeAttribute(id)) == id
  {
    if |id| > 0 {
      UnescapeChar(id[0], EscapeAttribute(id[1..]));
      UnescapeEscape(id[1..]);
      assert [id[0]] + id[1..] == id;
    }
  }

  /** Gong's markup with the id escaped for its attribute. */
  function EscapedGongHtml(id: string): string
  {
    IframeHtml(Frame(Gong), EscapeAttribute(id))
  }

  /**
   * With the id escaped, Gong's iframe loads the call the URL named, for
   * every id `(.+)` can capture: the `src` ends at the template's own quote
   * and reads back as the embed base followed by the id.
   */
  lemma EscapedGongSrc(id: string)
    ensures IframeSrc(EscapedGongHtml(id)) == Some(GongEmbed + EscapeAttribute(id))
    ensures UnescapeAttribute(GongEmbed + EscapeAttribute(id)) == GongEmbed + id
  {
    GongSrc(EscapeAttribute(id));
    EmbedPlain(EscapeAttribute(id));
    UnescapeEscape(id);
  }

  /** Gong's embed base has no `&`, so it reads back as itself. */
  lemma EmbedPlain(v: string)
    ensures UnescapeAttribute(GongEmbed + v) == GongEmbed + UnescapeAttribute(v)
  {
    assert '&' !in GongEmbed;
    UnescapePlain(GongEmbed, v);
  }

  /** A run of a class without the quote has no quote. */
  lemma QuoteFreeRun(s: string, lead: string, k: CharClass)
    requires lead <= s && '"' !in lead && IsRun(s[|lead|..], k) && !InClass('"', k)
    ensures '"' !in s
  {
    forall i | 0 <= i < |s|
      ensures s[i] != '"'
    {
      if i >= |lead| {
        assert s[i] == s[|lead|..][i - |lead|];
      }
    }
  }

  /** Spotify's kinds have no quote. */
  lemma KindsQuoteFree()
    ensures forall j :: 0 <= j < |SpotifyKinds| ==> '"' !in SpotifyKinds[j]
  {
  }

  /** Spotify's ids, a kind and a `\w` run, have no quote. */
  lemma SpotifyQuoteFree(url: string, m: seq<string>)
    requires Match(Spotify, url) == Some(m)
    ensures |m| == 2 && '"' !in m[1]
  {
    SpotifyId(url);
    var j :| 0 <= j < |SpotifyKinds| && SpotifyKinds[j] <= m[1]
             && |SpotifyKinds[j]| < |m[1]| && IsRun(m[1][|SpotifyKinds[j]|..], Word);
    KindsQuoteFree();
    QuoteFreeRun(m[1], SpotifyKinds[j], Word);
  }

  /** A run of `\w`, `[\w-]` or `\d` has no quote. */
  lemma ClassQuoteFree(s: string, k: CharClass)
    requires k == Word || k == WordOrDash || k == Digit
    requires IsRun(s, k)
    ensures '"' !in s
  {
    assert !InClass('"', k);
    assert s[|""|..] == s;
    QuoteFreeRun(s, "", k);
  }

  /** The ids `(\w+)`, `([\w-]+)` and `(\d+)` capture have no quote. */
  lemma CapturedQuoteFree(p: Provider, url: string, m: seq<string>)
    requires HasPatterns(p) && p != Spotify && p != Gong && IdClass(p).Some? && Match(p, url) == Some(m)
    ensures |m| == 2 && '"' !in m[1]
  {
    CapturedId(p, url);
    var k := IdClass(p).value;
    assert IdMatch(m, k, url);
    assert k == Word || k == WordOrDash || k == Digit;
    ClassQuoteFree(m[1], k);
  }

  /** Every iframe provider has patterns that capture an id. */
  lemma IframeCaptures(p: Provider)
    requires IsIframe(p)
    ensures HasPatterns(p) && IdClass(p).Some?
  {
  }

  /** Every iframe provider but Gong captures only quote-free ids. */
  lemma MatchedQuoteFree(p: Provider, url: string, m: seq<string>)
    requires IsIframe(p) && p != Gong && Match(p, url) == Some(m)
    ensures |m| == 2 && '"' !in m[1]
  {
    IframeCaptures(p);
    if p == Spotify {
      SpotifyQuoteFree(url, m);
    } else {
      CapturedQuoteFree(p, url, m);
    }
  }

  /** The markup for a URL is the template filled with its match. */
  lemma ProviderHtmlOf(p: Provider, url: string, m: seq<string>)
    requires p != ExternalMediaEmbed && Match(p, url) == Some(m) && |m| >= Arity(p)
    ensures ProviderHtml(p, url) == Html(p, m)
  {
  }

  /**
   * For every URL an iframe provider other than Gong recognises, the `src`
   * of its markup is its base, the id and its suffix.
   */
  lemma MatchedSrc(p: Provider, url: string, m: seq<string>)
    requires IsIframe(p) && p != Gong && Match(p, url) == Some(m)
    ensures |m| == 2 && ProviderHtml(p, url) == Html(p, m)
    ensures IframeSrc(Html(p, m).value) == Some(Frame(p).base + m[1] + Frame(p).suffix)
  {
    MatchedQuoteFree(p, url, m);
    ProviderHtmlOf(p, url, m);
    IframeProviderSrc(p, m);
  }

  // externalMediaEmbed.

  /** The extensions group 4 of the external media pattern admits. */
  const ExternalExtensions: seq<string> := ["pdf", "mpg", "mpeg"]

  const ExternalVideoOpen := FlockjayVideo.VideoDiv + "<video style=\"max-width: 100%;\""
  const PdfOpen :=
    "<div style=\"position: relative; " + "background-color: black; " + "text-align: center; "
    + "width: 100%; " + "height: \"0px\" padding-bottom: 56.25%;>" + "<iframe src=\""
  const PdfClose :=
    "\" style=\"width: 100%; height: 100%; " + "left: 0; right: 0; \n\t\t\t\t\t\t\t\t\t\t\t"
    + "poisition: absolute\"></iframe>\"" + "</div>"

  /** The external media template for URL `url` (group 1) and extension `ext` (group 4). */
  function ExternalHtml(url: string, ext: string): Option<string>
  {
    if ext == "mpg" || ext == "mpeg" then
      Some(ExternalVideoOpen + FlockjayVideo.SourceHtml("video/" + ext, url))
    else if ext == "pdf" then
      Some(PdfOpen + url + PdfClose)
    else
      None
  }

  /** The kind of external markup read back from its HTML: a video's type and source, or a document's URL. */
  datatype ExternalMarkup = Video(sourceType: string, src: string) | Document(src: string)

  function ParseExternal(html: string): Option<ExternalMarkup>
  {
    match StripPrefix(ExternalVideoOpen, html)
    case Some(r) =>
      (match FlockjayVideo.ParseSource(r)
       case None => None
       case Some((ty, src)) => Some(Video(ty, src)))
    case None =>
      match StripPrefix(PdfOpen, html)
      case None => None
      case Some(r) =>
        match StripSuffix(r, PdfClose)
        case None => None
        case Some(src) => Some(Document(src))
  }

  /**
   * The external template dispatches on the extension: it yields markup for
   * `pdf`, `mpg` and `mpeg`, and nothing for every other extension.
   */
  lemma ExternalDispatch(url: string, ext: string)
    ensures ExternalHtml(url, ext).Some? <==> ext in ExternalExtensions
  {
  }

  /** `mpg` and `mpeg` give a video of type `video/<ext>` whose source is the URL. */
  lemma ExternalVideo(url: string, ext: string)
    requires ext == "mpg" || ext == "mpeg"
    ensures ParseExternal(ExternalHtml(url, ext).value) == Some(Video("video/" + ext, url))
  {
    FlockjayVideo.ParseSourceOf("video/" + ext, url);
  }

  /** The document markup does not start like the video markup. */
  lemma DocumentNotVideo(url: string)
    ensures !(ExternalVideoOpen <= PdfOpen + url + PdfClose)
  {
    var html := PdfOpen + url + PdfClose;
    assert html[76] == PdfOpen[76] == ' ';
    assert ExternalVideoOpen[76] == '"';
  }

  /** `pdf` gives an iframe whose source is the URL. */
  lemma ExternalDocument(url: string)
    ensures ParseExternal(ExternalHtml(url, "pdf").value) == Some(Document(url))
  {
    var html := PdfOpen + url + PdfClose;
    assert ExternalHtml(url, "pdf") == Some(html);
    Enclosed(PdfOpen, url, PdfClose);
    DocumentNotVideo(url);
  }
}
