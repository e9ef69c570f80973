# hlspresso manifest pipeline in Dafny

This project models the core of hlspresso, a service that rewrites HLS
playlists (HTTP Live Streaming, RFC 8216) so that players see interstitial ads.
The model covers:

- **Lexer.** It turns playlist text into typed tag records: `lexicalParse`, `splitLine`,
  the per-tag decoders of `parseLine`, `parseIV` and `nextLiteral`.
- **Parsers.** They turn tag lists into main and media playlists, in both the current
  revision (`src/parser/hls/parse.ts`) and the older one (`src/parser/parse.ts`). This
  includes segment grouping, the SCTE-35 splice lookup, and the
  map/key persistence of section 4.3.2.5 of RFC 8216 (`normalizeSegments`).
- **Serializer.** `stringifyMainPlaylist` and `stringifyMediaPlaylist` produce the output lines
  in order.
- **Rewriters.** `rewriteMainUrls`, `rewriteUrls`, `addStaticDateRanges`,
  `ensureProgramDateTime` and `addInterstitialDateRanges`.
- **Sessions.** `pushInterstitial`, `toDateTime` and the interstitial loop of
  `createSession`.
- **Asset-list response.** The accumulation loop of `assetList`.
- **Ad signaling.** `mapAds` and `createAdCreativeSignaling`, which builds the version-2 "slot" envelope.
- **Utilities.** The variant filter (`filterMainPlaylist` and its range parsers)
  and the url utilities (`replaceUrlParams`, `getUrlCommonPrefix`).

## How the source is represented

- **Modules.** There is one module per source file. Shared value types live in `Values`
  (JavaScript numbers, instants, string-keyed records), `Strings`, `Wrappers`
  (`Option`, `Result`), `HlsTypes` (playlist records) and `Svta` (the
  signaling envelope).
- **Numbers.** A JavaScript number is `Num = NaN | Fin(real)`; "truthy" means finite and
  non-zero. A luxon `DateTime` is an `int` of epoch milliseconds.
- **Library routines.** Routines the code calls but that are not part of this model are
  function-valued parameters, or fields of an environment record: `Number.parseFloat`,
  unary `+`, `mapAttributes`'s pair splitting, `hexToByteSequence`, `DateTime.fromISO`/`toISO`,
  `toFixed(3)`, number-to-string conversion, `resolveUrl`, `formatMediaPayload`, `rison.encode`,
  `formatSig`, `btoa`, `getDuration` and `resolveVASTAsset`.
- **Playlists.** Playlists are classes (`HlsTypes.MainPlaylist`, `HlsTypes.MediaPlaylist`) whose
  fields the rewriters and the filter reassign. Each one exposes its value through
  `View()`, and each method is proved to leave `View()` equal to a specification
  function of the old value.
- **Loops.** The loops of the source are `while`/`for` loops in methods. Each method is proved
  against a function, and the promised properties are lemmas about that function.
- **Shared objects.** The identity of an `EXT-X-MAP` or `EXT-X-KEY` object is its `ref`, which is the position of
  its tag in the lexer's output. Segments that share the object after
  normalization share the `ref`. This is how `rewriteUrls` resolving a shared map
  once per segment is captured.
- **Error results.** An error becomes an `Err` result. Error texts are not compared: methods
  ensure `Agrees(r, spec)`, which means the same success or failure and the same value.

## Model

| member | source | states |
|---|---|---|
| Lexer.SplitLine | src/parser/lexical-parse.ts:457-463 | The name never holds a `:`. The parameter is absent exactly when the line has no `:`, and then the name is the trimmed text after the `#`. |
| Lexer.SplitLineAtFirstColon | src/parser/lexical-parse.ts:457-463 | With a `:`, the name is the trimmed text between the `#` and the first `:`, and the parameter is the trimmed rest, later colons included. |
| Lexer.LastIsLastPair | src/parser/lexical-parse.ts:151-180 | An attribute assigned in the `mapAttributes` callback holds the value of the last pair with that key, and is absent when no pair has it. |
| Lexer.ParseIV | src/parser/lexical-parse.ts:449-455 | Succeeds exactly when the hex value decodes to 16 bytes, and returns those bytes. |
| Lexer.NextLiteral | src/parser/lexical-parse.ts:494-507 | Succeeds exactly when the tag after `index` exists and is a `LITERAL`, and returns its text. |
| Lexer.ResolutionOf | src/parser/lexical-parse.ts:157-166 | `RESOLUTION` succeeds exactly when both `x`-separated parts are non-empty, and yields width and height parsed from them. |
| Lexer.DecodeStreamInf | src/parser/lexical-parse.ts:146-194 | Succeeds exactly when every `RESOLUTION` is well formed and the last `BANDWIDTH` is truthy. Each field is the last value of its attribute. |
| Lexer.FlagOf | src/parser/lexical-parse.ts:225-230 | `DEFAULT`/`AUTOSELECT` are present exactly when given, and true exactly when the value is `YES`. |
| Lexer.DecodeMedia | src/parser/lexical-parse.ts:196-256 | Succeeds exactly when every `TYPE` is `AUDIO` or `SUBTITLES`, a type is given, and group-id, name and uri are non-empty. The result holds the last values. |
| Lexer.DecodeMap | src/parser/lexical-parse.ts:258-279 | Succeeds exactly when the last `URI` is non-empty. The map's identity is its tag position. |
| Lexer.ClientAttrs | src/parser/lexical-parse.ts:303-322 | The client record is absent exactly when no key starts with `X-`. |
| Lexer.ClientAttrsAreLastValues | src/parser/lexical-parse.ts:303-322 | Client attribute `name` holds the converted value of the last `X-<name>` pair: a number when unary `+` is not NaN, else the string. |
| Lexer.DecodeDateRange | src/parser/lexical-parse.ts:281-339 | Succeeds exactly when `ID` and `CLASS` are non-empty and `START-DATE` is given. The result has no duration and no planned duration. |
| Lexer.DecodeDefine | src/parser/lexical-parse.ts:341-368 | Never fails. Name, value and import are the last `NAME`, `VALUE` and `IMPORT`. |
| Lexer.DecodeCueOut | src/parser/lexical-parse.ts:370-403 | A parameter that parses as a number is the duration. Otherwise it succeeds exactly when the last `DURATION` is truthy. |
| Lexer.LastIV | src/parser/lexical-parse.ts:424-426 | A decoded `IV` is always 16 bytes. |
| Lexer.DecodeKey | src/parser/lexical-parse.ts:405-442 | Succeeds exactly when every `IV` decodes to 16 bytes and `METHOD` is truthy. The key's identity is its tag position. |
| Lexer.ParamTag | src/parser/lexical-parse.ts:116-442 | The decoded tag of a recognised tag with a parameter is never a literal. A map or key carries the given position as identity. |
| Lexer.LineTag | src/parser/lexical-parse.ts:109-447 | An unrecognised tag name gives no tag. A recognised one gives a non-literal tag whose map/key identity is the given position. |
| Lexer.DecodeParam | src/parser/lexical-parse.ts:126-442 | The dispatch on the tag name agrees with `ParamTag`, failures included. |
| Lexer.ParseLine | src/parser/lexical-parse.ts:109-447 | `parseLine` agrees with `LineTag`: empty, number and date tags, `EXT-X-PLAYLIST-TYPE` only `EVENT`/`VOD`, `EXTINF`, and the decoders. |
| Lexer.LexLines | src/parser/lexical-parse.ts:468-485 | There are never more tags than lines. |
| Lexer.Lex | src/parser/lexical-parse.ts:465-492 | A successful lex has at least one tag: a text without tags is an error. |
| Lexer.LexLinesErrStays | src/parser/lexical-parse.ts:468-485 | A failing line fails the whole text, whatever follows it. |
| Lexer.LexicalParse | src/parser/lexical-parse.ts:465-492 | The loop agrees with `Lex`: tags in line order, the first failing line fails, and zero tags is an error. |
| Lexer.LiteralLines | src/parser/lexical-parse.ts:468-484 | Every literal is a trimmed, non-empty line that does not start with `#`. |
| Lexer.LexLiterals | src/parser/lexical-parse.ts:468-484 | The literal tags are exactly the literal lines of the input, trimmed, in order. |
| Lexer.LexLineDropped | src/parser/lexical-parse.ts:468-484 | Blank lines, `#` lines not starting with `#EXT`, and unknown `#EXT` tags produce no tag. |
| Lexer.RefsArePositions | src/parser/lexical-parse.ts:258-279 | Every map and key tag's identity is its own position in the output, so distinct tags are distinct objects. |
| HlsParse.PickIsLast | src/parser/hls/parse.ts:86-104 | A scalar tag takes its value from the last tag that sets it, and is unset when no tag sets it. |
| HlsParse.HasIsExists | src/parser/hls/parse.ts:88-96 | A flag is true exactly when some tag sets it. |
| HlsParse.Collect | src/parser/hls/parse.ts:105-116 | A push loop collects at most one value per tag. |
| HlsParse.CollectAppend | src/parser/hls/parse.ts:105-116 | Collected values keep tag order: collecting a concatenation concatenates. |
| HlsParse.CollectMembers | src/parser/hls/parse.ts:105-116 | Every collected value comes from some tag. |
| HlsParse.DateRangesSplit | src/parser/hls/parse.ts:105-113 | Date-ranges with `SCTE35` go only to the spliced list and the others only to the playlist. Together they are all the date-ranges. |
| HlsParse.Spans | src/parser/hls/parse.ts:119-131 | The segment spans lie within the tag list. |
| HlsParse.ScanShape | src/parser/hls/parse.ts:119-131 | Each span runs from the first segment tag after the previous span to the next `LITERAL`, inclusive. A trailing open span has no literal after it. |
| HlsParse.SpansAtMostLiterals | src/parser/hls/parse.ts:119-131 | There are at most as many segments as literals. |
| HlsParse.FindByStart | src/parser/hls/parse.ts:186-197 | Finds the first spliced date-range starting at the instant, or reports that none does. |
| HlsParse.ParseSegment | src/parser/hls/parse.ts:150-211 | Within a span the last occurrence of each tag wins. It fails without a uri or a truthy duration. `EXT-X-CUE-OUT` decides the splice; otherwise a spliced range at the segment's date-time does. |
| HlsParse.SegmentsPerSpan | src/parser/hls/parse.ts:119-131 | One segment per span, each the parse of its span. |
| HlsParse.Normalized | src/parser/hls/parse.ts:213-229 | Every segment without a map (key) takes the last map (key) set before it, and keeps its own otherwise. |
| HlsParse.NormalizeSegments | src/parser/hls/parse.ts:213-229 | The in-place loop over the segment array leaves exactly `Normalized` of the old contents. |
| HlsParse.NormalizedKeepsExplicit | src/parser/hls/parse.ts:213-229 | An explicit map or key is kept, and no other field changes. |
| HlsParse.LastMapIsSome | src/parser/hls/parse.ts:213-229 | A map (key) is remembered exactly when some earlier segment set one. |
| HlsParse.NormalizedOnceSet | src/parser/hls/parse.ts:213-229 | Once a map (key) has appeared, every later segment has one. |
| HlsParse.LastOfNormalized | src/parser/hls/parse.ts:213-229 | Normalization does not change which map (key) is the last one set. |
| HlsParse.NormalizedIdempotent | src/parser/hls/parse.ts:213-229 | Normalizing twice is normalizing once. |
| HlsParse.StreamInfPositions | src/parser/hls/parse.ts:34-44 | Lists positions of `EXT-X-STREAM-INF` tags only. |
| HlsParse.VariantsPairStreamInfs | src/parser/hls/parse.ts:34-44 | The j-th variant comes from the j-th `EXT-X-STREAM-INF`, and its uri is the literal right after it. |
| HlsParse.ParseMainTags | src/parser/hls/parse.ts:30-61 | The loop agrees with `MainOf`: the independent flag, variants, medias and defines in tag order, failing when a stream-inf has no literal after it. The loop of src/parser/parse.ts:31-62 is the same code. |
| HlsParse.ParseMainPlaylist | src/parser/hls/parse.ts:22-69 | A lexer failure fails. Otherwise it agrees with `MainOf` of the tags, for this file and for src/parser/parse.ts:23-70 alike. |
| HlsParse.ScanHeader | src/parser/hls/parse.ts:86-117 | Each scalar is the last value of its tag and each flag is whether its tag occurs. Date-ranges and defines are collected in order. |
| HlsParse.GroupSegments | src/parser/hls/parse.ts:119-131 | The grouping loop agrees with parsing each span in order; the first failing span fails. |
| HlsParse.ParseMediaTags | src/parser/hls/parse.ts:86-146 | The loops and normalization agree with `MediaOf`, and fail without a truthy target duration. |
| HlsParse.ParseMediaPlaylist | src/parser/hls/parse.ts:71-148 | A lexer failure fails. Otherwise it agrees with `MediaOf` of the tags. |
| HlsParse.MediaFields | src/parser/hls/parse.ts:86-135 | A parsed playlist has a truthy target duration. `endlist` holds exactly when `EXT-X-ENDLIST` occurs. The date-ranges are the unspliced ones in order. |
| HlsParse.MediaSegments | src/parser/hls/parse.ts:119-133 | There are at most as many segments as literals. Every span parses, and the segments are the span parses in order, after normalization. |
| LegacyParse.ParseSegment | src/parser/parse.ts:143-191 | The last occurrence of each tag wins. It fails without a uri or a truthy duration. `EXT-X-CUE-IN` and `EXT-X-CUE-OUT` set the splice. |
| LegacyParse.SpliceIsLastCue | src/parser/parse.ts:162-167 | The later of `EXT-X-CUE-IN` and `EXT-X-CUE-OUT` in a span decides its splice. |
| LegacyParse.ScanHeader | src/parser/parse.ts:85-110 | Scalars are the last values. All date-ranges and defines are collected in order, with no splice split. |
| LegacyParse.GroupSegments | src/parser/parse.ts:112-124 | The grouping loop agrees with parsing each span, which runs from a segment tag to the next literal, in order. |
| LegacyParse.ParseMediaTags | src/parser/parse.ts:85-128 | The loops and normalization agree with `MediaOf`, and fail without a truthy target duration. |
| LegacyParse.ParseMediaPlaylist | src/parser/parse.ts:72-141 | A lexer failure fails. Otherwise it agrees with `MediaOf` of the tags. |
| LegacyParse.MediaFields | src/parser/parse.ts:104-128 | The target duration is the last one given and is truthy. `endlist` and `independentSegments` hold exactly when their tag occurs. Every date-range reaches the playlist in order. The segments are the normalized parses of the spans, at most one per literal. |
| Stringify.RenderAttrs | src/parser/hls/stringify.ts:21-31 | Each attribute is rendered in order. |
| Stringify.RenderAll | src/parser/hls/stringify.ts:104 | Each line is rendered in order before joining. |
| Stringify.MapLines | src/parser/hls/stringify.ts:11-13 | One line per element. |
| Stringify.MapLinesAt | src/parser/hls/stringify.ts:11-13 | Line `i` is the line of element `i`, so element order is kept. |
| Stringify.PushDefines | src/parser/hls/stringify.ts:20-32 | The define loop appends one `EXT-X-DEFINE` line per define, in order. |
| Stringify.PrintedVariants | src/parser/hls/stringify.ts:69-102 | At most as many variants are printed as there are. |
| Stringify.PushComments | src/parser/hls/stringify.ts:10-14 | One `## ` comment line per comment, in order. |
| Stringify.PushMedias | src/parser/hls/stringify.ts:38-63 | One `EXT-X-MEDIA` line per rendition, in order. |
| Stringify.PushVariants | src/parser/hls/stringify.ts:69-102 | The variant loop appends the lines of the printed variants; `continue` skips the others. |
| Stringify.StringifyMain | src/parser/hls/stringify.ts:5-105 | The text is the main playlist's lines joined by newlines. |
| Stringify.MainHeader | src/parser/hls/stringify.ts:8 | Every main playlist starts with `#EXTM3U` and `#EXT-X-VERSION:8`. |
| Stringify.PrintedVariantsAre | src/parser/hls/stringify.ts:79-99 | A variant is printed exactly when its `AUDIO` and `SUBTITLES` groups (when set) each have a rendition of that type and group. |
| Stringify.VariantLinesPaired | src/parser/hls/stringify.ts:100-101 | The variant section is the printed variants, each an `EXT-X-STREAM-INF` line immediately followed by its uri. |
| Stringify.MainBlankLines | src/parser/hls/stringify.ts:34-36 | Exactly one blank line before non-empty renditions and one before non-empty variants, and no other blank line. |
| Stringify.MediaSectionBlanks | src/parser/hls/stringify.ts:34-36 | The rendition section has a blank line exactly when there are renditions. |
| Stringify.MainHeadNoBlank | src/parser/hls/stringify.ts:8-32 | The head lines hold no blank line. |
| Stringify.VariantLinesNoBlank | src/parser/hls/stringify.ts:69-102 | The variant lines hold no blank line. |
| Stringify.TrailingZeros | src/parser/hls/stringify.ts:200-203 | The count of trailing zeros is at most the length. |
| Stringify.TrailingZerosAre | src/parser/hls/stringify.ts:200-203 | The counted suffix is all zeros and the character before it is not a zero. |
| Stringify.StripZerosRemovesZeros | src/parser/hls/stringify.ts:200-203 | Stripping removes only a suffix of zeros, possibly led by the `.`. With a `.`, every trailing zero goes, so a text ending in `0` gets shorter. A text without a `.`, or not ending in `0`, is left alone. |
| Stringify.Blocks | src/parser/hls/stringify.ts:151-207 | One block of lines per segment. |
| Stringify.CustomAttrs | src/parser/hls/stringify.ts:232-242 | One attribute per custom entry. |
| Stringify.PushSegments | src/parser/hls/stringify.ts:148-207 | The segment loop, carrying the last map and key, appends the blocks of all segments. |
| Stringify.PushSegment | src/parser/hls/stringify.ts:155-206 | One iteration emits the segment's block and moves the last map and key on to the segment's own. |
| Stringify.DateRangeAttrsOf | src/parser/hls/stringify.ts:214-242 | Builds the date-range's attributes: id, start date, class, duration, planned duration and custom entries. |
| Stringify.PushCustomAttrs | src/parser/hls/stringify.ts:233-241 | The custom-entry loop appends one `X-` attribute per entry. |
| Stringify.PushDateRanges | src/parser/hls/stringify.ts:213-245 | One `EXT-X-DATERANGE` line per date-range, in order. |
| Stringify.StringifyMedia | src/parser/hls/stringify.ts:107-248 | The text is the media playlist's lines joined by newlines. |
| Stringify.MediaHeader | src/parser/hls/stringify.ts:110-114 | Every media playlist starts with `#EXTM3U`, `#EXT-X-VERSION:8` and `#EXT-X-TARGETDURATION:<n>`. |
| Stringify.BlockCount | src/parser/hls/stringify.ts:155-206 | The count of a line kind in a segment block is the sum over its parts. |
| Stringify.BlockKeyCount | src/parser/hls/stringify.ts:155-206 | The count of each line kind in one segment block. |
| Stringify.MarkerPartsCount | src/parser/hls/stringify.ts:182-206 | A discontinuity, cue-out, date-time, `EXTINF` and uri line each appear exactly when their condition holds. |
| Stringify.SegmentBlockShape | src/parser/hls/stringify.ts:155-206 | A map line appears exactly when the map is set and differs from the previous one (likewise the key). The block ends with one `#EXTINF:<d>` and then the uri. |
| Stringify.SegmentLinesCounts | src/parser/hls/stringify.ts:151-207 | One `EXTINF` line and one uri line per segment. |
| Stringify.InheritedNotReprinted | src/parser/hls/stringify.ts:148-180 | After normalization, a segment that inherited its map (key) prints no map (key) line. |
| Stringify.MediaCount | src/parser/hls/stringify.ts:107-211 | Line counts add up over the playlist's sections. |
| Stringify.MediaHeadCount | src/parser/hls/stringify.ts:110-132 | The head has no playlist-level optional line. |
| Stringify.SegmentLinesCount | src/parser/hls/stringify.ts:151-207 | The segment section has no playlist-level optional line. |
| Stringify.PlaylistLevelCount | src/parser/hls/stringify.ts:134-211 | A playlist-level line is counted only in its own part. |
| Stringify.OptionalPartsCount | src/parser/hls/stringify.ts:134-146 | Each optional part holds its line exactly when its condition holds. |
| Stringify.MediaOptionalLines | src/parser/hls/stringify.ts:138-146 | `EXT-X-ENDLIST` appears exactly when `endlist` holds. The media and discontinuity sequence lines appear exactly when the number is truthy, so 0 is omitted. |
| Stringify.EndlistAfterSegments | src/parser/hls/stringify.ts:209-213 | `EXT-X-ENDLIST` follows all segment lines, and only date-range lines come after it. |
| Stringify.CustomAttrsAt | src/parser/hls/stringify.ts:235-240 | Each custom entry becomes `X-key="v"` for a string and `X-key=v` for a number, in order. |
| Stringify.NamedAppend | src/parser/hls/stringify.ts:214-242 | An attribute name is present in a concatenation exactly when it is present in a part. |
| Stringify.CustomNotNamed | src/parser/hls/stringify.ts:232-242 | Custom attributes never take a standard attribute's name. |
| Stringify.DateRangeDurations | src/parser/hls/stringify.ts:222-230 | `DURATION` is printed exactly when it is truthy. `PLANNED-DURATION` is printed exactly when it is truthy and differs from `DURATION`. |
| Sessions.FindAt | src/lib/session.ts:94-96 | The position of the first interstitial at the instant, or -1 when none is. |
| Sessions.MergeAppends | src/lib/session.ts:97-99 | With no interstitial at the same instant, the new one is appended and the length grows by one. |
| Sessions.MergeUpdatesFirstMatch | src/lib/session.ts:100-111 | Otherwise the length stays and the first match's assets are extended in order. Its duration is replaced only by a truthy one, and every other entry is untouched. |
| Sessions.MergeKeepsDistinct | src/lib/session.ts:90-112 | Distinct instants stay distinct, and the only new instant is the incoming one. |
| Sessions.Session.constructor | src/lib/session.ts:21-27 | A new session has the given id, start, url and VMAP url, and no interstitials. |
| Sessions.Session.PushInterstitial | src/lib/session.ts:90-112 | The session's list becomes the merge of the old list with the value. |
| Sessions.ToDateTime | src/lib/session.ts:84-88 | A string is the parsed ISO instant. A number of seconds, fractional or not, moves the start by `1000 * seconds` ms, rounded down to the whole millisecond. |
| Sessions.OffsetsKeepOrder | src/lib/session.ts:84-88 | Offset 0 is the start and 12.5 is 12 500 ms later. A later offset never gives an earlier instant, and offsets a millisecond or more apart give different instants. Whole-millisecond offsets keep their order and distinctness both ways. |
| Sessions.AssetsOfMaps | src/lib/session.ts:31-51 | Mapping succeeds exactly when every type is `static` or `vast`. It then keeps order, `static` becomes `STATIC` with its measured duration, and `vast` becomes `VAST`. |
| Sessions.BuiltDistinct | src/lib/session.ts:29-59 | The built list holds each instant once and has at most one entry per request. |
| Sessions.CreateSession | src/lib/session.ts:14-65 | Succeeds exactly when every requested asset maps. The fresh session holds the id, start, url and VMAP url, and the built interstitials (none without requests). |
| Sessions.BuiltStep | src/lib/session.ts:30-58 | One more request is merged when its assets map. |
| Sessions.BuiltFailsFrom | src/lib/session.ts:30-58 | Once a request fails, the whole creation fails. |
| Vast.ImpressionUrls | src/lib/vast.ts:74 | Present exactly when the ad has impression templates, with one url per template. |
| Vast.MapAds | src/lib/vast.ts:52-81 | The loop keeps exactly the ads that `AdOf` keeps, in response order. |
| Vast.AdOfKeeps | src/lib/vast.ts:55-70 | An ad is kept exactly when its first linear creative's first HLS media file has a url. It then gets the ad's id, that url and the creative's duration. |
| Vast.MapAdsOrder | src/lib/vast.ts:53-80 | The j-th ad comes from the j-th kept response ad, and there are at most as many ads as response ads. |
| Vast.SpreadGet | src/lib/vast.ts:71-77 | With unique spread keys, a spread key reads as its spread list and every other key as the base's. |
| Vast.TrackingOfGet | src/lib/vast.ts:71-77 | Creative events override the ad-level `error` and `impression`. |
| Vast.SpreadKeys | src/lib/vast.ts:71-77 | Spreading keeps the base keys first and in place, and keeps keys unique. |
| Vast.TrackingOfKeys | src/lib/vast.ts:71-77 | A kept ad's tracking record has unique keys and starts with `error`, then `impression`. |
| Vast.EventNameRoundTrip | src/lib/vast.ts:93-122 | Every event type reads back from its wire name. |
| Vast.EventOfNameRoundTrip | src/lib/vast.ts:93-122 | A name that reads as an event type is that type's name. |
| Vast.CreateAdCreativeSignaling | src/lib/vast.ts:83-143 | The loop over the tracking record builds exactly the `Signaling` envelope. |
| Vast.EntryEventCases | src/lib/vast.ts:93-122 | Allow-listed keys keep their name, `collapse` becomes `playerCollapse`, `expand` becomes `playerExpand`, and any other key yields nothing. |
| Vast.ForwardedAsNames | src/lib/vast.ts:93-122 | A key is forwarded exactly when it is allow-listed, `collapse` or `expand`. |
| Vast.ForwardedAsInjective | src/lib/vast.ts:93-122 | Distinct keys are forwarded as distinct events. |
| Vast.SignalingEnvelope | src/lib/vast.ts:125-142 | The envelope is version 2, of type slot, with one linear slot: the given start, the ad's duration, and identifier `adId` = the ad's id. |
| Vast.SignalingTracking | src/lib/vast.ts:88-92 | The events follow record order, and are exactly those of entries whose url list is set and non-empty. |
| Vast.SignalingTypesDistinct | src/lib/vast.ts:88-122 | With unique keys, no event type repeats. |
| AdSignaling.CreateAdCreativeSignaling | src/ad-signaling.ts:68-128 | Builds the same envelope: version 2, one slot, and no event with an empty url list. |
| AdSignaling.SignalingUrlsNonEmpty | src/ad-signaling.ts:73-77 | No tracking event carries an empty url list. |
| Filters.ParseRangeAccepts | src/filter.ts:47-55 | Every `digits-digits` text parses to its two numbers. |
| Filters.ParseRangeOnly | src/filter.ts:47-55 | Only a `digits-digits` text parses. |
| Filters.SkipSpaces | src/filter.ts:58 | Finds the end of a run of white space. |
| Filters.DigitsEnd | src/filter.ts:58 | Finds the end of a run of digits. |
| Filters.ParseOperatorForms | src/filter.ts:57-77 | After text free of `<`/`>`: `<=n` gives `[0,n]`, `<n` gives `[0,n-1]`, `>=n` gives `[n,∞]` and `>n` gives `[n+1,∞]`. |
| Filters.OpReads | src/filter.ts:64-75 | Each operator's range, read from its first character and length. |
| Filters.ParseOperatorNeedsOperator | src/filter.ts:58-61 | Without `<` or `>` there is no operator form. |
| Filters.ParseFilterOrder | src/filter.ts:35-45 | The range form is tried first, then the operator form. It is an error exactly when both fail. |
| Filters.KeptExactly | src/filter.ts:7-23 | A size filter keeps, in order, exactly the variants with no (or zero) size or with a size in `[min,max]`. |
| Filters.UnforcedAll | src/filter.ts:26-31 | Each rendition is switched off in order. |
| Filters.UnforcedFields | src/filter.ts:26-31 | Subtitles get `AUTOSELECT` and `DEFAULT` false. Audio renditions and all other fields are unchanged. |
| Filters.FilterOutcomeSubset | src/filter.ts:4-24 | Filtering only removes variants. |
| Filters.FilterOutcomePasses | src/filter.ts:5-24 | After success, every remaining variant passes both size filters that were given. |
| Filters.FilterOutcomeMedias | src/filter.ts:25-32 | Only the forced flags of the renditions change, and only on success with the switch set. |
| Filters.FilterMainPlaylist | src/filter.ts:4-33 | The playlist becomes `FilterOutcome` of the old one. The call fails exactly when a given range does not parse. |
| Urls.Placeholder | src/utils/url.ts:17 | `{key}` is the key in braces. |
| Urls.RandomValue | src/utils/url.ts:9 | The random parameter is a whole number in `[0, 9999]`. |
| Urls.ReplaceUrlParams | src/utils/url.ts:1-21 | The loop substitutes every defined entry of `{...params, random}` in order, with `replaceAll`'s replacement patterns. |
| Urls.RandomAlwaysSet | src/utils/url.ts:6-10 | `random` is always set, overriding the caller's. Every other key is the caller's. |
| Urls.SubstituteStep | src/utils/url.ts:13-19 | A defined entry cuts the url at every occurrence of its placeholder, and no piece holds one. The pieces are joined with the value, with `$$`, `$&`, `` $` `` and `$'` expanded at each occurrence. A value without `$` is inserted as written. |
| Urls.SubstituteMatchKeeps | src/utils/url.ts:17 | A value of `$&` writes each match back, so its placeholder stays in the url. |
| Urls.DollarPairExample | src/utils/url.ts:17 | The value `$$` turns `x={a}` into `x=$`. |
| Strings.ReplaceAllIsSplitJoin | src/utils/url.ts:17 | `replaceAll` with a string pattern is a split followed by a join whose separators are the expanded replacement. A replacement without `$` gives a plain join. |
| Strings.ReplaceAllMatchKeeps | src/utils/url.ts:17 | The replacement `$&` leaves the text unchanged. |
| Urls.SubstituteSkipsUndefined | src/utils/url.ts:14-16 | An undefined entry is skipped. |
| Urls.ReplaceAllAbsent | src/utils/url.ts:17 | Text without the placeholder's first character is left alone. |
| Urls.NoPlaceholderUnchanged | src/utils/url.ts:13-19 | A url without `{` passes through unchanged. |
| Urls.CommonLen | src/utils/url.ts:32-36 | The counting loop stops at the longest common prefix. |
| Urls.CommonLenUnique | src/utils/url.ts:32-36 | That prefix is the only one that cannot be extended. |
| Urls.StepUnfolds | src/utils/url.ts:37-38 | The reducer keeps the prefix up to and including the found `/`, or nothing. |
| Urls.Reduce | src/utils/url.ts:28-39 | The reducer with its counting loop computes the corrected step. |
| Urls.GetUrlCommonPrefix | src/utils/url.ts:23-42 | The reduce over the urls computes `CommonPrefix`. |
| Urls.AsWrittenCounterexample | src/utils/url.ts:37 | The reducer as written returns `/` for `["/a", "b"]`, which is not a prefix of `b`. |
| Urls.SharedDirectoryStep | src/utils/url.ts:37 | The first as-written step gives `/`. |
| Urls.DisjointStepAsWritten | src/utils/url.ts:37 | The as-written step with no common character still gives `/`. |
| Urls.StepAgrees | src/utils/url.ts:37 | The corrected step agrees with the written one whenever the urls share a first character. |
| Urls.StepIsCommonDirectory | src/utils/url.ts:29-38 | A step's result is empty or ends in `/`, and is a prefix of both arguments. |
| Urls.StartsWithTrans | src/utils/url.ts:28-39 | A prefix of a prefix is a prefix. |
| Urls.FoldIsCommonDirectory | src/utils/url.ts:28-39 | After the first step, the folded value is a directory prefix of every url folded so far. |
| Urls.CommonPrefixIsCommonDirectory | src/utils/url.ts:23-42 | The result is empty or ends in `/`, and is a prefix of every url. An empty list or an empty url gives `""`. |
| Urls.SingleUrl | src/utils/url.ts:28-39 | For one url, the result is everything up to and including its last `/`. |
| Urls.AsWrittenPrefixOfFirst | src/utils/url.ts:28-39 | As written, the result is still a directory prefix of the first url. |
| Urls.StepAsWrittenShape | src/utils/url.ts:37-38 | One as-written step keeps a prefix of the accumulator that ends in `/`, or nothing. |
| TransformMain.TypeName | src/lib/transform-main.ts:16 | The lowercased type has no `_`. |
| TransformMain.RewrittenMain | src/lib/transform-main.ts:5-30 | Only uris change: counts, order, every other field, and the other playlist fields stay. |
| TransformMain.RenamedVariants | src/lib/transform-main.ts:7-13 | The i-th variant is renamed `video_<i+1>`. |
| TransformMain.RenamedMedias | src/lib/transform-main.ts:14-29 | Renditions continue the counter after the variants. |
| TransformMain.RewriteMainUrls | src/lib/transform-main.ts:5-30 | The playlist becomes `RewrittenMain` of the old one. |
| TransformMain.RewrittenUris | src/lib/transform-main.ts:9-28 | Each uri is `media/` + the encoded payload of the entry's kind and old uri + `/` + name + `.m3u8`. |
| TransformMain.UnderscoreSplit | src/lib/transform-main.ts:16 | A word without `_`, an underscore and a suffix split back uniquely. |
| TransformMain.FirstUnderscore | src/lib/transform-main.ts:16 | The first `_` of a name is the one after its type word. |
| TransformMain.NamesDistinct | src/lib/transform-main.ts:6-16 | All ordinal names are pairwise distinct. |
| TransformMedia.ResolveShared | src/lib/transform-media.ts:10-12 | Resolving a map object changes no segment count. |
| TransformMedia.RewriteStep | src/lib/transform-media.ts:8-13 | One iteration keeps the segment count. |
| TransformMedia.Rewritten | src/lib/transform-media.ts:8-13 | The first n iterations keep the segment count. |
| TransformMedia.RewriteUrls | src/lib/transform-media.ts:7-14 | The playlist's segments become `Rewritten` after all iterations, and nothing else changes. |
| TransformMedia.StepSegment | src/lib/transform-media.ts:8-13 | One iteration resolves the segment's uri, resolves its map for every segment that shares it, and changes nothing else. |
| TransformMedia.RewrittenUri | src/lib/transform-media.ts:8-13 | After n iterations the segments before n have resolved uris and the rest keep theirs. |
| TransformMedia.RewrittenMapRef | src/lib/transform-media.ts:10-12 | Every segment keeps holding the same map object, or none. |
| TransformMedia.RewrittenMapUri | src/lib/transform-media.ts:10-12 | A shared map has been resolved once per segment holding it. |
| TransformMedia.RewriteKeepsSharing | src/lib/transform-media.ts:7-14 | Segments that share a map object still share one. |
| TransformMedia.StaticRanges | src/lib/transform-media.ts:21-49 | One date-range per event, in order. |
| TransformMedia.StaticRangesStep | src/lib/transform-media.ts:21-49 | One more event appends its date-range. |
| TransformMedia.AddStaticDateRanges | src/lib/transform-media.ts:16-50 | The existing ranges are kept and one range per event is appended, in order. Nothing else changes. |
| TransformMedia.StaticAttributesRead | src/lib/transform-media.ts:27-41 | Keys are distinct, with `RESTRICT=SKIP,JUMP` and `TIMELINE-OCCUPIES=POINT`. `RESUME-OFFSET` is the duration or 0. `CUE` is present exactly at the session start. |
| TransformMedia.StaticKeyLengths | src/lib/transform-media.ts:27-41 | The attribute keys differ pairwise. |
| TransformMedia.StaticIdsDistinct | src/lib/transform-media.ts:45 | Events at different instants get different `hlspresso.<millis>` ids. |
| TransformMedia.EnsureProgramDateTime | src/lib/transform-media.ts:52-63 | On success the playlist is `WithProgramDateTime` of the old one. On failure it is unchanged. |
| TransformMedia.ProgramDateTimeAnchors | src/lib/transform-media.ts:56-62 | It fails exactly on an ended playlist without segments. When ended, only the first segment's date-time becomes the start. Otherwise nothing changes. |
| TransformMedia.ProgramDateTimeIdempotent | src/lib/transform-media.ts:52-63 | Anchoring twice is anchoring once. |
| Interstitials.RangesOf | src/lib/interstitials.ts:20-51 | One date-range per interstitial, in order. |
| Interstitials.RangesStep | src/lib/interstitials.ts:20-51 | One more interstitial appends its date-range. |
| Interstitials.AddInterstitialDateRanges | src/lib/interstitials.ts:15-52 | The existing ranges are kept and one range per interstitial is appended, in order. Nothing else changes. |
| Interstitials.AttributeParts | src/lib/interstitials.ts:27-42 | The attributes are the base four, then resume offset, playout limit and cue, with distinct base keys. |
| Interstitials.AttributesFixed | src/lib/interstitials.ts:21-32 | Keys are distinct, with `RESTRICT`, `CONTENT-MAY-VARY`, `TIMELINE-STYLE` and the signed `ASSET-LIST` url always present. |
| Interstitials.OptionalRead | src/lib/interstitials.ts:33-42 | An optional key reads from its own part only. |
| Interstitials.ResumeOffsetRead | src/lib/interstitials.ts:33-35 | `RESUME-OFFSET=0` is present exactly when the playlist is not live. |
| Interstitials.PlayoutLimitRead | src/lib/interstitials.ts:36-38 | `PLAYOUT-LIMIT` is the duration exactly when the duration is truthy, and then the planned duration equals it. |
| Interstitials.CueRead | src/lib/interstitials.ts:40-42 | `CUE=ONCE,PRE` is present exactly at the session start. |
| Interstitials.RangeIdsDistinct | src/lib/interstitials.ts:46 | With an injective `btoa`, interstitials at different instants get different ids, in a live and a VOD playlist alike. |
| AssetList.DurationSumConcat | src/routes/out/out.handlers.ts:47-69 | The running total over a concatenation continues from the first part. |
| AssetList.DurationSumSnoc | src/routes/out/out.handlers.ts:54 | One more entry adds its duration. |
| AssetList.AnnouncedConcat | src/routes/out/out.handlers.ts:47-69 | Announcement at running totals survives concatenation. |
| AssetList.AdEntries | src/routes/out/out.handlers.ts:59-67 | One entry per resolved ad. |
| AssetList.EmittedStep | src/routes/out/out.handlers.ts:48-69 | One more asset appends its entries. |
| AssetList.AdEntriesStep | src/routes/out/out.handlers.ts:59-67 | One more ad appends its entry. |
| AssetList.SessionAdEntries | src/routes/out/out.handlers.ts:72-83 | One entry per ad of the session's VAST url. |
| AssetList.AnnounceAds | src/routes/out/out.handlers.ts:59-67 | The ad loop appends each ad announced at the running total, and keeps `totalDuration` equal to the sum of the durations emitted. |
| AssetList.AnnounceStep | src/routes/out/out.handlers.ts:60-66 | The next ad is announced at the current total, which then grows by its duration. |
| AssetList.EmitAssets | src/routes/out/out.handlers.ts:47-69 | The asset loop emits exactly `Emitted` of the assets. |
| AssetList.AssetListFor | src/routes/out/out.handlers.ts:39-85 | The response body is `AssetListOf` the session's interstitials, instant and VAST url. |
| AssetList.AppendSessionAds | src/routes/out/out.handlers.ts:72-83 | The session's ads are appended without signaling. |
| AssetList.AdEntriesAnnounced | src/routes/out/out.handlers.ts:57-66 | Each ad's signaling start is `start` plus the durations before it, and its entry carries the ad's url and duration. |
| AssetList.EmittedAnnounced | src/routes/out/out.handlers.ts:47-69 | Each signaled entry starts at the sum of the durations of all entries emitted before it. |
| AssetList.EmittedOrder | src/routes/out/out.handlers.ts:48-69 | Entries follow asset order. A static asset gives one unsignaled entry with its url and duration; a VAST asset gives one per resolved ad. |
| AssetList.AssetListShape | src/routes/out/out.handlers.ts:43-83 | The entries are announced at running totals. Without an interstitial at the instant, only the session's ads come back. It fails exactly when the matching interstitial has no asset list. |

## Findings

| source | as written | input that shows it | evidently intended | confidence | as-written member | corrected member |
|---|---|---|---|---|---|---|
| src/utils/url.ts:37 | When the urls share no first character, `i` is 0 and `prefix.lastIndexOf("/", -1)` searches from position 0. A prefix starting with `/` then yields `/`. | `getUrlCommonPrefix(["/a", "b"])` yields `"/"`, which is not a prefix of `"b"` | No shared directory when nothing is shared: `""`. The result should be a prefix of every url. | not executed | Urls.AsWrittenCounterexample | Urls.CommonPrefixIsCommonDirectory |

The rest of the model (`Urls.Reduce`, `Urls.GetUrlCommonPrefix`) uses the
corrected step. The as-written step is kept as `Urls.StepAsWritten`, and
`Urls.StepAgrees` shows the two differ only when the urls share no first character.

## Left out

- I/O is out of scope: the key/value store (`getSession`, `updateSession`, storing the session in `createSession`), `crypto.randomUUID`, the clock, logging, HTTP routing and Promise concurrency.
- `resolveVASTAsset` and `getDuration` fetch over the network. They are parameters: `resolve` in `AssetList`, `getDuration` in `Sessions`. The VAST and XML client libraries are not part of this model.
- Library formatting is uninterpreted: luxon time zones and ISO text, `toFixed(3)`, number-to-string, `Number.parseFloat` and unary `+`. `Number.parseFloat` never yields an infinity in this model.
- `mapAttributes`, `hexToByteSequence`, `byteSequenceToHex` and `resolveUrl` are not part of this model. The first is modelled by the pairs it hands to its callback; the others are parameters.
- `rison.encode`, `formatSig`, `formatMediaPayload` and `btoa` are parameters. Their round trips belong to the libraries.
- Error messages are not compared. A method and its specification agree on success, failure and value.
- JavaScript object key order: a record is an ordered list of pairs in insertion order, as `Object.entries` and `for ... in` see string keys. Integer-like keys, which JavaScript lists first, are not reordered.
- HlsParse.ParseSegment: the lexer never sets a date-range's `SCTE35`, so in the current revision the spliced list is always empty. The model follows each file's own fields and does not reconcile them.
- Lexer.DecodeDateRange: `DURATION` and `PLANNED-DURATION` are read but not returned, as in the code. The serializer's durations therefore only come from date-ranges built by the rewriters.
- Stringify.PushVariants: a variant with a dangling `AUDIO` or `SUBTITLES` group is dropped whole, both its stream-inf line and its uri. This follows the code, which uses `continue`, rather than a description that drops only the attribute.
- Only the `AUDIO` and `SUBTITLES` media types are modelled. They are the only ones the lexer accepts.
- The VMAP url of a session and `session.vast` of the asset-list route are plain optional strings. `session.events` of `addStaticDateRanges` is an event list passed in.
- Map and key objects: object identity is the `ref` the lexer assigns. Aliasing other than the sharing that normalization creates is not modelled.
- Sessions.ToDateTime: a `DateTime` holds whole milliseconds, so the part of `1000 * seconds` below a millisecond is dropped, rounding down as a JavaScript `Date` does for a positive timestamp. luxon itself keeps the fractional timestamp. An infinite `time`, which `z.number()` accepts, is not modelled.
- Sessions.OffsetsKeepOrder: because of that rounding, offsets less than a millisecond apart may fall on the same instant. Order and distinctness both ways are stated for whole-millisecond offsets only.
- AssetList.AnnounceAds: durations are exact reals. The double rounding of `totalDuration +=` is not modelled; in JavaScript, 0.1 + 0.2 is 0.30000000000000004.
- AssetList.DurationSum: the same exact-real sum. The same holds for the lemmas built on it (`AssetList.DurationSumConcat`, `AssetList.DurationSumSnoc`, `AssetList.EmittedAnnounced`).
- Filters.ParseRange: `parseInt` gives a double, which loses precision above 2^53. The model keeps the exact integer.
