# Media embeds and media uploads of the Flockjay CKEditor build

This project models, in Dafny, the two pieces of locally written logic in the
Flockjay fork of CKEditor 5:

- **The media provider table** of the media embed editing feature
  (`mediaembedediting.js`). It is an ordered list of named providers. Each
  provider has start-anchored URL patterns and, optionally, an `html(match)`
  template that turns the capture groups into embed markup. The same file
  holds the two view-to-model ("upcast") converters for `<oembed url>` and
  `<div data-oembed-url>`.
- **Upload routing in the "Insert Media" button** (`imageuploadui.js`). The
  button builds the picker's `acceptedType` string from four configured type
  lists. When files are picked, it splits them into four groups (image,
  video, file, extra). It then runs up to four upload commands in a fixed
  order.

The modules:

- `Wrappers` (wrappers.dfy): `Option`.
- `Text` (text.dfy): JavaScript's `includes`, `join(',')` and `split(',')`, plus the prefix, suffix and first-character helpers used to read markup back.
- `UrlPattern` (url_pattern.dfy): a recogniser for the simple pattern shapes of the table. A shape is a literal path, optionally with uncaptured `[^/]+` runs, followed by at most one capture `(lead cls+)`.
- `FlockjayVideo` (fj_video.dfy): the `fjVideo` provider. Its pattern tail `([\w-]+).([\w-]+)` needs a backtracking search, which is modelled exactly. The file also holds its `<video>` template.
- `MediaProviders` (media_providers.dfy): the provider datatype and table, each provider's patterns, the iframe templates, and the `externalMediaEmbed` template.
- `MediaUpcast` (media_upcast.dfy): the semantic and the non-semantic upcast converters.
- `ImageUploadUI` (image_upload_ui.dfy) holds:
  - `acceptedType`, the four filters and the dispatch specification;
  - an `Editor` class whose `Execute` appends to a command log;
  - the button class, whose `Done` method runs the guarded `execute` calls;
  - the component factory registration.

Every template is proved to be fixed text around its captures. For the
iframe templates, parsing the markup back returns exactly the id it was built
from, for every id. For the `<video>` template of fjVideo this holds for
printable fields, those whose quoted attributes hold no quote and whose id
holds no space; the matches of the corrected fjVideo patterns are printable.

## Model

| member | source | states |
|---|---|---|
| MediaProviders.TableNames | packages/ckeditor5-media-embed/src/mediaembedediting.js:43-276 | Every provider occurs in the table, and the table's entries and their names are pairwise distinct. |
| MediaProviders.TemplateProviders | packages/ckeditor5-media-embed/src/mediaembedediting.js:129-153 | A provider's template yields markup iff it has one. instagram, twitter, googleMaps, flickr and facebook have none. `externalMediaEmbed` yields markup only for its three extensions. |
| MediaProviders.PatternCaptures | packages/ckeditor5-media-embed/src/mediaembedediting.js:46 | Every pattern of a capturing provider other than spotify (whose group has a lead; see `MediaProviders.SpotifyId`) captures a bare run of that provider's class. Providers without a capture have no capture group. |
| MediaProviders.CapturedId | packages/ckeditor5-media-embed/src/mediaembedediting.js:85-88 | An id captured by `(\w+)`, `([\w-]+)`, `(\d+)` or `(.+)` is non-empty and lies in its class. It starts where the path of one of the provider's patterns ends, it ends the whole match, and the URL cannot extend it: it is the maximal run after the path. |
| MediaProviders.UncapturedMatch | packages/ckeditor5-media-embed/src/mediaembedediting.js:133-153 | A provider without a capture group yields only the matched prefix, and that prefix is one of the provider's literals. |
| MediaProviders.SpotifyId | packages/ckeditor5-media-embed/src/mediaembedediting.js:63-67 | spotify's group is `artist/`, `album/` or `track/` followed by a non-empty `\w` run, and it starts where the pattern's path ends. |
| MediaProviders.IframeRoundTrip | packages/ckeditor5-media-embed/src/mediaembedediting.js:68-79 | Reading an iframe template back yields exactly the id it was filled with. Any markup that reads back as an id is that id's markup. |
| MediaProviders.IframeSrcOf | packages/ckeditor5-media-embed/src/mediaembedediting.js:90-101 | For padding without `>` and a quote-free base, id and suffix, the iframe's `src` attribute is the provider's embed base, the id and the provider's suffix. |
| MediaProviders.FramesReadable | packages/ckeditor5-media-embed/src/mediaembedediting.js:159-170 | No iframe provider's fixed text puts a quote in its base or suffix, or a `>` in its padding, so the `src` can be read back. |
| MediaProviders.IframeDependsOnId | packages/ckeditor5-media-embed/src/mediaembedediting.js:115-126 | An iframe provider's markup depends on `match[1]` only. Two matches give the same markup iff their ids are equal. |
| MediaProviders.IframeProviderSrc | packages/ckeditor5-media-embed/src/mediaembedediting.js:195-206 | For every iframe provider and every `match[1]` without a quote, the `src` of its markup is its embed base, `match[1]` and its suffix. |
| MediaProviders.MatchedSrc | packages/ckeditor5-media-embed/src/mediaembedediting.js:43-206 | For every URL an iframe provider other than Gong recognises, the captured id has no quote, so the `src` of the markup is the embed base, the id and the suffix. |
| MediaProviders.IframeSrcCut | packages/ckeditor5-media-embed/src/mediaembedediting.js:90-101 | A quote in the id ends the iframe's `src` at that quote; the rest of the id falls outside the attribute. |
| MediaProviders.OnlyPrefix | packages/ckeditor5-media-embed/src/mediaembedediting.js:84-89 | When only one of a provider's literal prefixes starts the URL, the provider's match is that prefix's pattern's match. |
| MediaProviders.YouTubePrefixesDisjoint | packages/ckeditor5-media-embed/src/mediaembedediting.js:85-88 | No URL starts with two of youtube's six prefixes. |
| MediaProviders.YouTubeMatch | packages/ckeditor5-media-embed/src/mediaembedediting.js:84-89 | Each youtube form (`watch?v=` and `/v/`, with and without `m.`, `/embed/`, `youtu.be/`) followed by an id run captures that id. |
| MediaProviders.YouTubeForms | packages/ckeditor5-media-embed/src/mediaembedediting.js:84-101 | Every youtube form carrying the same id produces identical markup: the embed iframe for that id. |
| MediaProviders.GongPrefixesDisjoint | packages/ckeditor5-media-embed/src/mediaembedediting.js:233-234 | No URL starts with both of Gong's prefixes. |
| MediaProviders.GongMatch | packages/ckeditor5-media-embed/src/mediaembedediting.js:232-235 | Both Gong forms capture the rest of the line after their prefix. |
| MediaProviders.GongForms | packages/ckeditor5-media-embed/src/mediaembedediting.js:231-247 | `call?id=X` and `embedded-call?call-id=X` produce the same markup. |
| MediaProviders.GongSrc | packages/ckeditor5-media-embed/src/mediaembedediting.js:241 | For a captured id without a quote, the `src` of Gong's iframe is `https://app.gong.io/embedded-call?call-id=` followed by the id. |
| MediaProviders.GongQuoteCounterexample | packages/ckeditor5-media-embed/src/mediaembedediting.js:231-247 | `app.gong.io/call?id=x"><b` is recognised with the id `x"><b`, and the `src` of the markup built from that id is the embed base followed by `x` alone. |
| MediaProviders.EscapedGongSrc | packages/ckeditor5-media-embed/src/mediaembedediting.js:241 | With the id escaped for the attribute, the `src` of Gong's iframe holds the whole escaped id for every id, and reads back as the embed base followed by the id. |
| MediaProviders.UnescapeEscape | packages/ckeditor5-media-embed/src/mediaembedediting.js:241 | Reading an escaped attribute value back gives the original id. |
| MediaProviders.ExternalDispatch | packages/ckeditor5-media-embed/src/mediaembedediting.js:252-273 | The external template yields markup iff the extension is `pdf`, `mpg` or `mpeg`. Any other extension gives nothing. |
| MediaProviders.ExternalVideo | packages/ckeditor5-media-embed/src/mediaembedediting.js:256-264 | For `mpg` and `mpeg`, the markup reads back as a video of type `video/<ext>` whose source is `match[1]`. |
| MediaProviders.DocumentNotVideo | packages/ckeditor5-media-embed/src/mediaembedediting.js:256-272 | The `pdf` markup never starts like the video markup, so the two kinds of external markup are told apart. |
| MediaProviders.ExternalDocument | packages/ckeditor5-media-embed/src/mediaembedediting.js:265-272 | For `pdf`, the markup reads back as an iframe whose source is `match[1]`. |
| UrlPattern.RunLength | packages/ckeditor5-media-embed/src/mediaembedediting.js:46 | A greedy `cls+`/`cls*` takes a run of the class that the rest of the string cannot extend. |
| UrlPattern.RunLengthOf | packages/ckeditor5-media-embed/src/mediaembedediting.js:107 | The greedy run taken from a run followed by a stop is exactly that run. |
| UrlPattern.NoShorterSkip | packages/ckeditor5-media-embed/src/mediaembedediting.js:108-112 | After any run of `[^/]` shorter than the greedy one, a literal that starts with `/` fails. So the greedy choice is the only one a backtracking engine could use. |
| MediaProviders.VimeoSkipsStop | packages/ckeditor5-media-embed/src/mediaembedediting.js:107-113 | Every `[^/]+` of the vimeo patterns is followed by a literal that starts with `/`, which is what `NoShorterSkip` requires. |
| MediaProviders.VimeoGreedy | packages/ckeditor5-media-embed/src/mediaembedediting.js:107-113 | In every vimeo pattern, a `[^/]+` run shorter than the greedy one makes the rest of the path fail. The greedy consumption is therefore the only one a backtracking engine could use. |
| UrlPattern.StepLength | packages/ckeditor5-media-embed/src/mediaembedediting.js:108 | A literal, an unescaped `.` or a `[^/]+` never consumes more than the input. |
| UrlPattern.PathLength | packages/ckeditor5-media-embed/src/mediaembedediting.js:108-112 | A pattern's path never consumes more than the input. |
| UrlPattern.Exec | packages/ckeditor5-media-embed/src/mediaembedediting.js:46 | `url.match(p)` returns `[match[0]]`, or `[match[0], match[1]]` when the pattern captures. `match[0]` is a prefix of the URL. The group is its lead followed by a non-empty run of its class that the URL cannot extend, and it ends the match. |
| UrlPattern.ExecPathEnd | packages/ckeditor5-media-embed/src/mediaembedediting.js:46 | A match starts where the pattern's path ends. Without a group, `match[0]` is exactly what the path consumes. With one, the group starts right after the path, so it is the maximal run after the path. |
| UrlPattern.ExecLiteral | packages/ckeditor5-media-embed/src/mediaembedediting.js:64-66 | A URL made of a literal, the lead, an id run and a stop matches, with exactly that group. |
| UrlPattern.ExecLiteralMiss | packages/ckeditor5-media-embed/src/mediaembedediting.js:157 | A URL that does not start with a pattern's literal is not matched. |
| UrlPattern.FirstMatch | packages/ckeditor5-media-embed/src/mediaembedediting.js:106-114 | Trying a provider's patterns in order returns the match of the first pattern that matches. It returns none only when no pattern matches. |
| FlockjayVideo.LastSplitSound | packages/ckeditor5-media-embed/src/mediaembedediting.js:211 | The backtracking search for the split of `([\w-]+).([\w-]+)` returns the longest id run that leaves a separator and an extension, and nothing when there is none. |
| FlockjayVideo.ExecSound | packages/ckeditor5-media-embed/src/mediaembedediting.js:211-212 | Each fjVideo pattern returns the four groups a backtracking engine returns. It fails only when the host path fails or no split leaves a separator and an extension. |
| FlockjayVideo.ExecFound | packages/ckeditor5-media-embed/src/mediaembedediting.js:211-212 | The longest accepted split gives a match with the groups `Groups` describes. |
| FlockjayVideo.MatchGroups | packages/ckeditor5-media-embed/src/mediaembedediting.js:211-212 | `match[0]` is `match[1]`, a separator and `match[3]`. `match[1]` is the host prefix followed by `match[2]`. Groups 2 and 3 are non-empty `[\w-]` runs, and group 3 cannot be extended. |
| FlockjayVideo.EscapedTakesWholeRun | packages/ckeditor5-media-embed/src/mediaembedediting.js:212 | With an escaped dot, group 2 is the whole `[\w-]` run after the host. |
| FlockjayVideo.MatchShape | packages/ckeditor5-media-embed/src/mediaembedediting.js:210-213 | Every URL the corrected fjVideo patterns accept is a host prefix, an id run, a literal `.` and an extension run. |
| FlockjayVideo.LiteralShape | packages/ckeditor5-media-embed/src/mediaembedediting.js:211 | The same, for one literal host. |
| FlockjayVideo.MatchOf | packages/ckeditor5-media-embed/src/mediaembedediting.js:210-213 | Conversely, every host prefix followed by an id run, `.`, an extension run and a stop is accepted with exactly those groups. |
| FlockjayVideo.ExecOf | packages/ckeditor5-media-embed/src/mediaembedediting.js:211-212 | A URL made of a consumed path, an id, `.`, an extension and a stop gives the groups of that id and extension, whether or not the dot is escaped. |
| FlockjayVideo.SplitOf | packages/ckeditor5-media-embed/src/mediaembedediting.js:211 | After the host, the search splits an id run, `.` and an extension run at the dot. |
| FlockjayVideo.NotBothHosts | packages/ckeditor5-media-embed/src/mediaembedediting.js:211-212 | No URL starts with both the S3 host and a CDN-like host. |
| FlockjayVideo.NotCdnPrefix | packages/ckeditor5-media-embed/src/mediaembedediting.js:212 | A CDN-like host with a non-dot in place of a host dot is not `cdn.flockjay.com`. |
| FlockjayVideo.AsWrittenCdnPath | packages/ckeditor5-media-embed/src/mediaembedediting.js:212 | The unescaped CDN pattern accepts `cdn<c1>flockjay<c2>com` for any two non-line-terminators. |
| FlockjayVideo.HostDot | packages/ckeditor5-media-embed/src/mediaembedediting.js:212 | As written, a look-alike host such as `cdn-flockjay.com` is accepted. The corrected pattern refuses it. |
| FlockjayVideo.HostDotCounterexample | packages/ckeditor5-media-embed/src/mediaembedediting.js:212 | `https://cdn-flockjay.com/fjvideo-a.mp4` matches as written, with id `a` and extension `mp4`. |
| FlockjayVideo.AsWrittenSplitsId | packages/ckeditor5-media-embed/src/mediaembedediting.js:212 | As written, the CDN pattern splits a bare id of three or more characters before its last character, which it takes for the extension. |
| FlockjayVideo.EscapedRefusesId | packages/ckeditor5-media-embed/src/mediaembedediting.js:212 | With the dots escaped, the CDN pattern refuses a URL that ends after a bare id. |
| FlockjayVideo.BacksOffTwo | packages/ckeditor5-media-embed/src/mediaembedediting.js:212 | As written, a `[\w-]` run with no dot is split two characters from its end. |
| FlockjayVideo.NoSplitWithoutDot | packages/ckeditor5-media-embed/src/mediaembedediting.js:212 | With an escaped dot, a run without a dot has no split. |
| FlockjayVideo.MissingExtension | packages/ckeditor5-media-embed/src/mediaembedediting.js:212 | As written, a CDN URL with no extension is accepted. Its last character becomes the extension and the one before it the separator. The corrected pattern refuses it. |
| FlockjayVideo.MissingExtensionCounterexample | packages/ckeditor5-media-embed/src/mediaembedediting.js:212 | `https://cdn.flockjay.com/fjvideo-abcd` matches as written with id `ab` and extension `d`. |
| FlockjayVideo.ParsePosterOf | packages/ckeditor5-media-embed/src/mediaembedediting.js:217 | The poster attribute reads back as the poster it was given, or as none when it is empty. |
| FlockjayVideo.ParseSourceOf | packages/ckeditor5-media-embed/src/mediaembedediting.js:224 | The `<source>` element reads back as its type and `src`. |
| FlockjayVideo.ParseVideoHtml | packages/ckeditor5-media-embed/src/mediaembedediting.js:220-227 | For printable fields (no space in the id, no quote in the poster or the type), the `<video>` markup reads back as exactly the id, poster, type and source it was built from. |
| FlockjayVideo.MatchPrintable | packages/ckeditor5-media-embed/src/mediaembedediting.js:214-218 | The fields built from an accepted match hold no character that would end their attribute early. |
| FlockjayVideo.MatchHtml | packages/ckeditor5-media-embed/src/mediaembedediting.js:214-228 | For every accepted URL, the markup carries id `fjvideo-<match[2]>`, a `poster="<match[1]>-thumbnail.jpg"` exactly when `match[3]` is `mp4` (no poster otherwise), type `video/<match[3]>`, and `src` `match[0]`. |
| MediaUpcast.SemanticUpcast | packages/ckeditor5-media-embed/src/mediaembedediting.js:355-364 | The semantic converter takes an element iff it is named `oembed` or the configured name and has a non-empty `url`. It creates `media` iff the registry also has that URL, and the `media` carries that URL. |
| MediaUpcast.SemanticNames | packages/ckeditor5-media-embed/src/mediaembedediting.js:355 | With the default element name only `oembed` is taken. No configured name stops `oembed` from being taken. |
| MediaUpcast.NonSemanticUpcast | packages/ckeditor5-media-embed/src/mediaembedediting.js:367-381 | The non-semantic converter takes a `div` with a `data-oembed-url` of any value. It creates `media` with that URL iff the registry has it. |
| MediaUpcast.EmptyUrl | packages/ckeditor5-media-embed/src/mediaembedediting.js:355-379 | An empty `url` is refused by the semantic filter. An empty `data-oembed-url` passes the non-semantic one. |
| MediaUpcast.OnlyRecognisedMedia | packages/ckeditor5-media-embed/src/mediaembedediting.js:360-363 | Neither converter creates `media` for a URL the registry does not have. |
| ImageUploadUI.SplitPieces | packages/ckeditor5-image/src/imageupload/imageuploadui.js:54 | Splitting one joined list at its commas gives the list back. An empty list gives one empty piece. |
| ImageUploadUI.AcceptedTypePieces | packages/ckeditor5-image/src/imageupload/imageuploadui.js:53-60 | Splitting `acceptedType` at its commas gives the image, video, file and extra lists in order. An empty list leaves an empty piece, so the three separators are always there. |
| ImageUploadUI.JoinCommas | packages/ckeditor5-image/src/imageupload/imageuploadui.js:54 | A joined list holds one comma fewer than it has types, or none when it is empty. |
| ImageUploadUI.AcceptedTypeCommas | packages/ckeditor5-image/src/imageupload/imageuploadui.js:53-60 | `acceptedType` holds exactly three separator commas plus the commas inside each list. |
| ImageUploadUI.Select | packages/ckeditor5-image/src/imageupload/imageuploadui.js:73 | A filtered group is no longer than the picked files, and every file in it passes the group's test. |
| ImageUploadUI.SelectCounts | packages/ckeditor5-image/src/imageupload/imageuploadui.js:73-82 | A group holds every picked file that passes, as often as it was picked, and no other file. |
| ImageUploadUI.SelectOrdered | packages/ckeditor5-image/src/imageupload/imageuploadui.js:73-82 | A group is a subsequence of the picked files: their order is kept. |
| ImageUploadUI.SelectMembership | packages/ckeditor5-image/src/imageupload/imageuploadui.js:77-79 | A file is in a group iff it was picked and passes the group's test. |
| ImageUploadUI.VideoMembership | packages/ckeditor5-image/src/imageupload/imageuploadui.js:74-76 | A file is in the video group iff it was picked and its type is a video type or its name contains `.mkv`. |
| ImageUploadUI.SomeIncluded | packages/ckeditor5-image/src/imageupload/imageuploadui.js:81 | `extraFileTypes.some(type => name.includes(type))` holds iff some extra type occurs in the name. |
| ImageUploadUI.ExtraMembership | packages/ckeditor5-image/src/imageupload/imageuploadui.js:80-82 | A file is in the extra group iff it was picked and its name contains an extra type. With no extra types the group is empty. |
| ImageUploadUI.DispatchFires | packages/ckeditor5-image/src/imageupload/imageuploadui.js:84-95 | A command runs with a group iff that group is non-empty. There are at most four runs, and `uploadImage` runs first whenever it runs. |
| ImageUploadUI.Commands | packages/ckeditor5-image/src/imageupload/imageuploadui.js:85-94 | The commands of a run list are its runs' commands, in order. |
| ImageUploadUI.DispatchOrder | packages/ckeditor5-image/src/imageupload/imageuploadui.js:84-95 | The commands run in the fixed order `uploadImage`, `uploadVideo`, `fileUpload`, `fileUpload`, each present iff its group is non-empty. So `fileUpload` can run twice. |
| ImageUploadUI.UnroutedFile | packages/ckeditor5-image/src/imageupload/imageuploadui.js:73-95 | A file that passes no group's test is handed to no command. |
| ImageUploadUI.SharedFile | packages/ckeditor5-image/src/imageupload/imageuploadui.js:73-88 | The groups overlap: a picked file that is both an image and a video is handed to both `uploadImage` and `uploadVideo`. |
| ImageUploadUI.Editor.Execute | packages/ckeditor5-image/src/imageupload/imageuploadui.js:85 | `editor.execute` appends exactly one run, with its command and files, to the editor's log. |
| ImageUploadUI.MediaUploadButton.constructor | packages/ckeditor5-image/src/imageupload/imageuploadui.js:52-62 | The button's `acceptedType` is the joined type lists, and it always allows multiple files. |
| ImageUploadUI.MediaUploadButton.Done | packages/ckeditor5-image/src/imageupload/imageuploadui.js:72-96 | The `done` handler appends exactly the `Dispatch` runs to the editor's log, and nothing else. |
| ImageUploadUI.ComponentFactory.Add | packages/ckeditor5-image/src/imageupload/imageuploadui.js:102 | Adding a component registers its creator under its name and changes no other name. |
| ImageUploadUI.Init | packages/ckeditor5-image/src/imageupload/imageuploadui.js:101-103 | `uploadImage` and its alias `imageUpload` are registered with the same creator. |

## Left out

- The registry (`mediaregistry.js`) is not part of this model, and neither is the way it applies a provider to the user's URL. `MediaProviders.Match` is one attempt: a provider's patterns, in order, on the URL text it is given. Which forms of the URL the registry tries (the text as entered, or the text without protocol and `www.`) and in what order is not modelled. This matters because the patterns expect different forms: most expect no protocol, while fjVideo's expect `https://` and the external media pattern expects `<a`. `hasMedia` is a parameter of the upcast converters.
- `EXTERNAL_MEDIA_REGEX` (line 20) is not recognised. It backtracks over `.+`, bounded repetitions `{1,256}` and a word boundary. The external template takes its groups 1 and 4 as inputs. Group 4 is the alternation `(pdf|mpg|mpeg)`, so every match has one of the three extensions. `ExternalDispatch` shows that each of them yields markup.
- The framework calls are not modelled: `config.define`, `schema.register`, the downcast pipelines, `createMediaFigureElement`, `toMediaWidget`, the button's label, icon and `isEnabled` binding, and what `editor.execute` does beyond being recorded in the log.
- `createImageTypeRegExp`, `createVideoTypeRegExp` and `createFileTypeRegExp` are not part of this model. Their `test` is the abstract `TypeTests`.
- Regular-expression alternatives such as `(?:m\.)?` and `(?:share|embed)` are written out as separate literal patterns. The alternatives never start the same URL, so their order does not matter.
- The semantic filter follows the code's truthiness test on `getAttribute('url')`, so an empty `url` is refused. A description of the filter as "the `url` attribute is present" would admit it.
- The converter priority between the semantic and the non-semantic upcast is left out. It is the framework's, and each converter is modelled on its own.
- JavaScript strings are UTF-16, and a pattern without the `u` flag reads code units, while the model's strings are sequences of characters. The classes and literals of the patterns hold only characters of the Basic Multilingual Plane, and a maximal `(.+)` run covers the same text either way. The unescaped `.` differs: in JavaScript it consumes one code unit, here one character. `FlockjayVideo.AsWrittenCdnPath` and `FlockjayVideo.HostDot` therefore accept `https://cdn😀flockjay.com/fjvideo-a.mp4`, which JavaScript refuses because the emoji is two code units. The same holds for the `.` before the extension in `FlockjayVideo.MatchAsWritten`.
- MediaProviders.IframeProviderSrc: states the `src` only for an id without a quote. For Gong, whose `(.+)` admits a quote, `MediaProviders.GongQuoteCounterexample` shows what happens instead.
- MediaProviders.GongSrc: states the `src` only for an id without a quote, for the same reason. The quote-free property for every id holds only for the escaped template, `MediaProviders.EscapedGongSrc`.
- MediaProviders.Match: for fjVideo it uses the corrected recogniser `FlockjayVideo.Match`, not the patterns as written. URLs that only the written patterns accept are not covered. These are look-alike hosts such as `https://cdn-flockjay.com/…` and `https://cdn>flockjay.com/…`, and ids without a literal `.`, such as `…/fjvideo-abcd`. `FlockjayVideo.MatchAsWritten` recognises them.
- FlockjayVideo.MatchHtml: describes the markup only for URLs the corrected recogniser accepts. For URLs accepted only as written, the `src=` of the `source` tag is unquoted. A space or `>` standing for a host dot then ends the attribute early. This is not described.
- FlockjayVideo.MatchPrintable: holds only for matches of the corrected recogniser. As written, a `"` standing for a host dot enters group 1 and so the `poster` attribute. A space or `>` enters the unquoted `src`.

## Findings

| source | as written | input that shows it | evidently intended | confidence | as-written member | corrected member |
|---|---|---|---|---|---|---|
| packages/ckeditor5-media-embed/src/mediaembedediting.js:212 | the dots of `cdn.flockjay.com` are unescaped, so any character but a line terminator may stand in their place | `https://cdn-flockjay.com/fjvideo-a.mp4` is accepted as an fjVideo URL | only the host `cdn.flockjay.com` is accepted | not executed | FlockjayVideo.HostDot | FlockjayVideo.MatchShape |
| packages/ckeditor5-media-embed/src/mediaembedediting.js:241 | Gong's id, captured by `(.+)`, goes into `src="…"` unescaped, so a quote in it ends the attribute | `app.gong.io/call?id=x"><b` gives an iframe whose `src` ends after `x`, followed by the markup `><b` | the whole id stays inside `src`, escaped for the attribute | not executed | MediaProviders.GongQuoteCounterexample | MediaProviders.EscapedGongSrc |
| packages/ckeditor5-media-embed/src/mediaembedediting.js:211-212 | the `.` before the extension is unescaped, so backtracking lets any character separate the id from the extension | `https://cdn.flockjay.com/fjvideo-abcd` is accepted with id `ab` and extension `d` | a URL without a literal `.` and an extension is refused | not executed | FlockjayVideo.MissingExtensionCounterexample | FlockjayVideo.MatchShape |
