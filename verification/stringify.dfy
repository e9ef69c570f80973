/** The serializer of `src/parser/hls/stringify.ts`: a main or media playlist
    becomes playlist text, one line at a time in a fixed order. Lines are kept
    as structured values (the tag, its attributes) while they are pushed;
    `Render` gives each line's exact text and the result is the rendered lines
    joined with newlines. */
module Stringify {
  import opened Wrappers
  import opened Values
  import opened Strings
  import opened HlsTypes
  import opened HlsParse

  /** The formatting the serializer borrows from JavaScript and luxon:
      `String(number)`, `DateTime.toISO`, the unseen `byteSequenceToHex`, and
      `Number.prototype.toFixed(3)`. */
  datatype Formats = Formats(
    num: Num -> string,
    iso: DateTime -> string,
    hex: seq<bv8> -> string,
    fixed3: Num -> string)

  // ---------------------------------------------------------------------------
  // Lines

  datatype TagKind =
    | KExtM3u | KVersion | KIndependentSegments | KDefine | KMedia | KStreamInf
    | KTargetDuration | KPlaylistType | KMediaSequence | KDiscontinuitySequence
    | KMap | KKey | KDiscontinuity | KCueOut | KProgramDateTime | KExtInf
    | KEndlist | KDateRange

  function TagName(k: TagKind): string {
    match k
    case KExtM3u => "EXTM3U"
    case KVersion => "EXT-X-VERSION"
    case KIndependentSegments => "EXT-X-INDEPENDENT-SEGMENTS"
    case KDefine => "EXT-X-DEFINE"
    case KMedia => "EXT-X-MEDIA"
    case KStreamInf => "EXT-X-STREAM-INF"
    case KTargetDuration => "EXT-X-TARGETDURATION"
    case KPlaylistType => "EXT-X-PLAYLIST-TYPE"
    case KMediaSequence => "EXT-X-MEDIA-SEQUENCE"
    case KDiscontinuitySequence => "EXT-X-DISCONTINUITY-SEQUENCE"
    case KMap => "EXT-X-MAP"
    case KKey => "EXT-X-KEY"
    case KDiscontinuity => "EXT-X-DISCONTINUITY"
    case KCueOut => "EXT-X-CUE-OUT"
    case KProgramDateTime => "EXT-X-PROGRAM-DATE-TIME"
    case KExtInf => "EXTINF"
    case KEndlist => "EXT-X-ENDLIST"
    case KDateRange => "EXT-X-DATERANGE"
  }

  /** One entry of an attribute list: `NAME="value"`, `NAME=value` or a bare
      `NAME`. */
  datatype Attr = Quoted(name: string, value: string) | Plain(name: string, value: string) | Flag(name: string)

  function RenderAttr(a: Attr): string {
    match a
    case Quoted(n, v) => n + "=\"" + v + "\""
    case Plain(n, v) => n + "=" + v
    case Flag(n) => n
  }

  function RenderAttrs(attrs: seq<Attr>): (r: seq<string>)
    ensures |r| == |attrs| && forall i :: 0 <= i < |attrs| ==> r[i] == RenderAttr(attrs[i])
  {
    seq(|attrs|, i requires 0 <= i < |attrs| => RenderAttr(attrs[i]))
  }

  /** One output line. */
  datatype Line =
    | Bare(kind: TagKind)
    | Value(kind: TagKind, value: string)
    | Attrs(kind: TagKind, attrs: seq<Attr>)
    | Comment(text: string)
    | Uri(uri: string)
    | Blank

  function Render(l: Line): string {
    match l
    case Bare(k) => "#" + TagName(k)
    case Value(k, v) => "#" + TagName(k) + ":" + v
    case Attrs(k, attrs) => "#" + TagName(k) + ":" + Join(RenderAttrs(attrs), ",")
    case Comment(t) => "## " + t
    case Uri(u) => u
    case Blank => ""
  }

  function RenderAll(lines: seq<Line>): (r: seq<string>)
    ensures |r| == |lines| && forall i :: 0 <= i < |lines| ==> r[i] == Render(lines[i])
  {
    seq(|lines|, i requires 0 <= i < |lines| => Render(lines[i]))
  }

  /** `lines.join("\n")`. */
  function Text(lines: seq<Line>): string {
    Join(RenderAll(lines), "\n")
  }

  /** What a line is, for counting: its tag, or a uri, comment or blank line. */
  datatype LineKey = TagKey(kind: TagKind) | UriKey | CommentKey | BlankKey

  function KeyOf(l: Line): LineKey {
    match l
    case Bare(k) => TagKey(k)
    case Value(k, _) => TagKey(k)
    case Attrs(k, _) => TagKey(k)
    case Comment(_) => CommentKey
    case Uri(_) => UriKey
    case Blank => BlankKey
  }

  /** The number of lines of a kind. */
  function Count(lines: seq<Line>, key: LineKey): nat {
    if lines == [] then 0
    else Count(lines[..|lines| - 1], key) + (if KeyOf(lines[|lines| - 1]) == key then 1 else 0)
  }

  lemma {:induction false} CountAppend(a: seq<Line>, b: seq<Line>, key: LineKey)
    ensures Count(a + b, key) == Count(a, key) + Count(b, key)
    decreases |b|
  {
    if b == [] {
      assert a + b == a;
    } else {
      var b' := b[..|b| - 1];
      assert (a + b)[..|a + b| - 1] == a + b';
      assert (a + b)[|a + b| - 1] == b[|b| - 1];
      CountAppend(a, b', key);
    }
  }

  /** The lines of a sequence of blocks, in order. */
  function Flatten(bs: seq<seq<Line>>): seq<Line> {
    if bs == [] then [] else Flatten(bs[..|bs| - 1]) + bs[|bs| - 1]
  }

  lemma FlattenStep(bs: seq<seq<Line>>, i: nat)
    requires i < |bs|
    ensures Flatten(bs[..i + 1]) == Flatten(bs[..i]) + bs[i]
  {
    assert bs[..i + 1][..i] == bs[..i];
  }

  /** Blocks that each hold `c` lines of a kind hold `c` times their number
      together. */
  lemma {:induction false} FlattenCount(bs: seq<seq<Line>>, key: LineKey, c: nat)
    requires c <= 1 && forall i :: 0 <= i < |bs| ==> Count(bs[i], key) == c
    ensures Count(Flatten(bs), key) == if c == 0 then 0 else |bs|
  {
    if bs != [] {
      var init := bs[..|bs| - 1];
      FlattenCount(init, key, c);
      CountAppend(Flatten(init), bs[|bs| - 1], key);
    }
  }

  lemma CountShort(part: seq<Line>, key: LineKey)
    requires |part| <= 1
    ensures Count(part, key) == if |part| == 1 && KeyOf(part[0]) == key then 1 else 0
  {
    if |part| == 1 {
      assert part[..0] == [];
    }
  }

  lemma CountPair(a: Line, b: Line, key: LineKey)
    ensures Count([a, b], key) == (if KeyOf(a) == key then 1 else 0) + (if KeyOf(b) == key then 1 else 0)
  {
    assert [a, b][..1] == [a];
    CountShort([a], key);
  }

  /** The lines of a list, one per element, in order. */
  function MapLines<T>(xs: seq<T>, f: T -> Line): (r: seq<Line>)
    ensures |r| == |xs|
  {
    if xs == [] then [] else MapLines(xs[..|xs| - 1], f) + [f(xs[|xs| - 1])]
  }

  lemma {:induction false} MapLinesAt<T>(xs: seq<T>, f: T -> Line)
    ensures forall i :: 0 <= i < |xs| ==> MapLines(xs, f)[i] == f(xs[i])
  {
    if xs != [] {
      MapLinesAt(xs[..|xs| - 1], f);
    }
  }

  lemma MapLinesStep<T>(xs: seq<T>, i: nat, f: T -> Line)
    requires i < |xs|
    ensures MapLines(xs[..i + 1], f) == MapLines(xs[..i], f) + [f(xs[i])]
  {
    assert xs[..i + 1][..i] == xs[..i];
  }

  /** A list mapped to lines of one kind counts one line of that kind per element
      and none of any other kind. */
  lemma {:induction false} CountMapLines<T>(xs: seq<T>, f: T -> Line, key: LineKey, own: LineKey)
    requires forall x :: KeyOf(f(x)) == own
    ensures Count(MapLines(xs, f), key) == if key == own then |xs| else 0
  {
    if xs != [] {
      CountMapLines(xs[..|xs| - 1], f, key, own);
    }
  }

  // ---------------------------------------------------------------------------
  // Lines shared by both playlists

  function DefineAttrs(d: Define): seq<Attr> {
    (if d.name.Some? then [Quoted("NAME", d.name.value)] else [])
    + (if d.value.Some? then [Quoted("VALUE", d.value.value)] else [])
    + (if d.importName.Some? then [Quoted("IMPORT", d.importName.value)] else [])
  }

  function DefineLine(d: Define): Line { Attrs(KDefine, DefineAttrs(d)) }

  /** The loop over the defines. */
  method PushDefines(lines: seq<Line>, defines: seq<Define>) returns (out: seq<Line>)
    ensures out == lines + MapLines(defines, DefineLine)
  {
    out := lines;
    for i := 0 to |defines|
      invariant out == lines + MapLines(defines[..i], DefineLine)
    {
      MapLinesStep(defines, i, DefineLine);
      out := out + [DefineLine(defines[i])];
    }
    assert defines[..|defines|] == defines;
  }

  // ---------------------------------------------------------------------------
  // stringifyMainPlaylist

  function CommentLine(c: string): Line { Comment(c) }

  function MediaTypeName(t: MediaType): string {
    match t
    case Audio => "AUDIO"
    case Subtitles => "SUBTITLES"
  }

  function YesNo(b: bool): string { if b then "YES" else "NO" }

  function MediaAttrs(m: Media): seq<Attr> {
    [Plain("TYPE", MediaTypeName(m.mediaType)), Quoted("GROUP-ID", m.groupId), Quoted("NAME", m.name)]
    + (if NonEmpty(m.language) then [Quoted("LANGUAGE", m.language.value)] else [])
    + (if m.isDefault.Some? then [Plain("DEFAULT", YesNo(m.isDefault.value))] else [])
    + (if m.autoSelect.Some? then [Plain("AUTOSELECT", YesNo(m.autoSelect.value))] else [])
    + (if m.uri != "" then [Quoted("URI", m.uri)] else [])
    + (if NonEmpty(m.channels) then [Quoted("CHANNELS", m.channels.value)] else [])
    + (if NonEmpty(m.characteristics) then [Quoted("CHARACTERISTICS", m.characteristics.value)] else [])
  }

  function MediaLine(m: Media): Line { Attrs(KMedia, MediaAttrs(m)) }

  /** `medias.find(...)` on type and group-id: whether a rendition of the group
      exists. */
  predicate HasGroup(medias: seq<Media>, t: MediaType, group: string) {
    exists i :: 0 <= i < |medias| && medias[i].mediaType == t && medias[i].groupId == group
  }

  /** A variant is printed unless its `AUDIO` or `SUBTITLES` group has no
      rendition. */
  predicate Printed(v: Variant, medias: seq<Media>) {
    (NonEmpty(v.audio) ==> HasGroup(medias, Audio, v.audio.value))
    && (NonEmpty(v.subtitles) ==> HasGroup(medias, Subtitles, v.subtitles.value))
  }

  function VariantAttrs(v: Variant, fmt: Formats): seq<Attr> {
    [Plain("BANDWIDTH", fmt.num(v.bandwidth))]
    + (if NonEmpty(v.codecs) then [Quoted("CODECS", v.codecs.value)] else [])
    + (if v.resolution.Some?
       then [Plain("RESOLUTION", fmt.num(v.resolution.value.width) + "x" + fmt.num(v.resolution.value.height))]
       else [])
    + (if NonEmpty(v.audio) then [Quoted("AUDIO", v.audio.value)] else [])
    + (if NonEmpty(v.subtitles) then [Quoted("SUBTITLES", v.subtitles.value)] else [])
  }

  /** Each printed variant: its `EXT-X-STREAM-INF` line, then its uri. */
  function VariantLines(vs: seq<Variant>, medias: seq<Media>, fmt: Formats): seq<Line> {
    if vs == [] then []
    else
      var v := vs[|vs| - 1];
      VariantLines(vs[..|vs| - 1], medias, fmt)
      + (if Printed(v, medias) then [Attrs(KStreamInf, VariantAttrs(v, fmt)), Uri(v.uri)] else [])
  }

  /** The variants that are printed, in order. */
  function PrintedVariants(vs: seq<Variant>, medias: seq<Media>): (r: seq<Variant>)
    ensures |r| <= |vs|
  {
    if vs == [] then []
    else
      var v := vs[|vs| - 1];
      PrintedVariants(vs[..|vs| - 1], medias) + (if Printed(v, medias) then [v] else [])
  }

  /** The header lines, comments, `EXT-X-INDEPENDENT-SEGMENTS` and defines. */
  function MainHead(p: MainPlaylistValue): seq<Line> {
    [Bare(KExtM3u), Value(KVersion, "8")]
    + (if p.comments.Some? then MapLines(p.comments.value, CommentLine) else [])
    + (if p.independentSegments then [Bare(KIndependentSegments)] else [])
    + MapLines(p.defines, DefineLine)
  }

  /** A blank line when there are renditions, then one line per rendition. */
  function MediaSection(p: MainPlaylistValue): seq<Line> {
    (if |p.medias| > 0 then [Blank] else []) + MapLines(p.medias, MediaLine)
  }

  /** A blank line when there are variants, then the printed variants. */
  function VariantSection(p: MainPlaylistValue, fmt: Formats): seq<Line> {
    (if |p.variants| > 0 then [Blank] else []) + VariantLines(p.variants, p.medias, fmt)
  }

  /** The lines `stringifyMainPlaylist` pushes, in order. */
  function MainLines(p: MainPlaylistValue, fmt: Formats): seq<Line> {
    MainHead(p) + MediaSection(p) + VariantSection(p, fmt)
  }

  method PushComments(lines: seq<Line>, comments: seq<string>) returns (out: seq<Line>)
    ensures out == lines + MapLines(comments, CommentLine)
  {
    out := lines;
    for i := 0 to |comments|
      invariant out == lines + MapLines(comments[..i], CommentLine)
    {
      MapLinesStep(comments, i, CommentLine);
      out := out + [Comment(comments[i])];
    }
    assert comments[..|comments|] == comments;
  }

  method PushMedias(lines: seq<Line>, medias: seq<Media>) returns (out: seq<Line>)
    ensures out == lines + MapLines(medias, MediaLine)
  {
    out := lines;
    for i := 0 to |medias|
      invariant out == lines + MapLines(medias[..i], MediaLine)
    {
      MapLinesStep(medias, i, MediaLine);
      out := out + [MediaLine(medias[i])];
    }
    assert medias[..|medias|] == medias;
  }

  /** The loop over the variants: a variant with a dangling group is skipped
      (`continue`). */
  method PushVariants(lines: seq<Line>, variants: seq<Variant>, medias: seq<Media>, fmt: Formats)
    returns (out: seq<Line>)
    ensures out == lines + VariantLines(variants, medias, fmt)
  {
    out := lines;
    for i := 0 to |variants|
      invariant out == lines + VariantLines(variants[..i], medias, fmt)
    {
      assert variants[..i + 1][..i] == variants[..i];
      var v := variants[i];
      if NonEmpty(v.audio) && !HasGroup(medias, Audio, v.audio.value) {
        continue;
      }
      if NonEmpty(v.subtitles) && !HasGroup(medias, Subtitles, v.subtitles.value) {
        continue;
      }
      out := out + [Attrs(KStreamInf, VariantAttrs(v, fmt)), Uri(v.uri)];
    }
    assert variants[..|variants|] == variants;
  }

  /** `stringifyMainPlaylist`. */
  method StringifyMain(p: MainPlaylistValue, fmt: Formats) returns (text: string)
    ensures text == Text(MainLines(p, fmt))
  {
    var lines := [Bare(KExtM3u), Value(KVersion, "8")];
    if p.comments.Some? {
      lines := PushComments(lines, p.comments.value);
    }
    if p.independentSegments {
      lines := lines + [Bare(KIndependentSegments)];
    }
    lines := PushDefines(lines, p.defines);
    assert lines == MainHead(p);
    if |p.medias| > 0 {
      lines := lines + [Blank];
    }
    lines := PushMedias(lines, p.medias);
    assert lines == MainHead(p) + MediaSection(p);
    if |p.variants| > 0 {
      lines := lines + [Blank];
    }
    lines := PushVariants(lines, p.variants, p.medias, fmt);
    assert lines == MainLines(p, fmt);
    text := Join(RenderAll(lines), "\n");
  }

  /** Every main playlist starts with `#EXTM3U` and `#EXT-X-VERSION:8`. */
  lemma MainHeader(p: MainPlaylistValue, fmt: Formats)
    ensures |MainLines(p, fmt)| >= 2
    ensures MainLines(p, fmt)[0] == Bare(KExtM3u) && MainLines(p, fmt)[1] == Value(KVersion, "8")
  {
  }

  /** A variant is printed exactly when its groups resolve. */
  lemma {:induction false} PrintedVariantsAre(vs: seq<Variant>, medias: seq<Media>)
    ensures forall v :: v in PrintedVariants(vs, medias) <==> v in vs && Printed(v, medias)
  {
    if vs != [] {
      var init := vs[..|vs| - 1];
      PrintedVariantsAre(init, medias);
      assert vs == init + [vs[|vs| - 1]];
    }
  }

  /** The variant section is the printed variants, each as an
      `EXT-X-STREAM-INF` line immediately followed by its uri: a dropped variant
      leaves neither line. */
  lemma {:induction false} VariantLinesPaired(vs: seq<Variant>, medias: seq<Media>, fmt: Formats)
    ensures var lines := VariantLines(vs, medias, fmt);
            var printed := PrintedVariants(vs, medias);
            |lines| == 2 * |printed|
            && forall j :: 0 <= j < |printed| ==>
                 lines[2 * j] == Attrs(KStreamInf, VariantAttrs(printed[j], fmt))
                 && lines[2 * j + 1] == Uri(printed[j].uri)
  {
    if vs != [] {
      VariantLinesPaired(vs[..|vs| - 1], medias, fmt);
    }
  }

  /** A blank line is printed before the renditions and before the variants,
      each only when that list is non-empty; no other line is blank. */
  lemma MainBlankLines(p: MainPlaylistValue, fmt: Formats)
    ensures Count(MainLines(p, fmt), BlankKey)
            == (if |p.medias| > 0 then 1 else 0) + (if |p.variants| > 0 then 1 else 0)
  {
    MainHeadNoBlank(p);
    MediaSectionBlanks(p);
    VariantLinesNoBlank(p.variants, p.medias, fmt);
    CountAppend(if |p.variants| > 0 then [Blank] else [], VariantLines(p.variants, p.medias, fmt), BlankKey);
    assert Count(VariantSection(p, fmt), BlankKey) == if |p.variants| > 0 then 1 else 0;
    CountAppend(MainHead(p), MediaSection(p), BlankKey);
    CountAppend(MainHead(p) + MediaSection(p), VariantSection(p, fmt), BlankKey);
  }

  lemma MediaSectionBlanks(p: MainPlaylistValue)
    ensures Count(MediaSection(p), BlankKey) == if |p.medias| > 0 then 1 else 0
  {
    CountMapLines(p.medias, MediaLine, BlankKey, TagKey(KMedia));
    CountAppend(if |p.medias| > 0 then [Blank] else [], MapLines(p.medias, MediaLine), BlankKey);
  }

  lemma MainHeadNoBlank(p: MainPlaylistValue)
    ensures Count(MainHead(p), BlankKey) == 0
  {
    var a := [Bare(KExtM3u), Value(KVersion, "8")];
    var b := if p.comments.Some? then MapLines(p.comments.value, CommentLine) else [];
    var c := if p.independentSegments then [Bare(KIndependentSegments)] else [];
    var d := MapLines(p.defines, DefineLine);
    if p.comments.Some? {
      CountMapLines(p.comments.value, CommentLine, BlankKey, CommentKey);
    }
    CountMapLines(p.defines, DefineLine, BlankKey, TagKey(KDefine));
    CountPair(Bare(KExtM3u), Value(KVersion, "8"), BlankKey);
    CountAppend(a, b, BlankKey);
    CountShort(c, BlankKey);
    CountAppend(a + b, c, BlankKey);
    CountAppend(a + b + c, d, BlankKey);
    assert MainHead(p) == a + b + c + d;
  }

  lemma {:induction false} VariantLinesNoBlank(vs: seq<Variant>, medias: seq<Media>, fmt: Formats)
    ensures Count(VariantLines(vs, medias, fmt), BlankKey) == 0
  {
    if vs != [] {
      var v := vs[|vs| - 1];
      VariantLinesNoBlank(vs[..|vs| - 1], medias, fmt);
      var pair := if Printed(v, medias) then [Attrs(KStreamInf, VariantAttrs(v, fmt)), Uri(v.uri)] else [];
      CountPair(Attrs(KStreamInf, VariantAttrs(v, fmt)), Uri(v.uri), BlankKey);
      assert Count(pair, BlankKey) == 0;
      CountAppend(VariantLines(vs[..|vs| - 1], medias, fmt), pair, BlankKey);
    }
  }

  // ---------------------------------------------------------------------------
  // stringifyMediaPlaylist

  /** The trailing zeros of `s`. */
  function TrailingZeros(s: string): (n: nat)
    ensures n <= |s|
  {
    if s == [] || s[|s| - 1] != '0' then 0 else TrailingZeros(s[..|s| - 1]) + 1
  }

  /** `duration.replace(/\.?0+$/, "")` when the string has a `.`: the longest
      run of zeros at the end goes, with the `.` before it if there is one. */
  function StripZeros(s: string): string {
    if '.' !in s then s
    else
      var n := TrailingZeros(s);
      if n == 0 then s
      else if n < |s| && s[|s| - n - 1] == '.' then s[..|s| - n - 1]
      else s[..|s| - n]
  }

  lemma {:induction false} TrailingZerosAre(s: string)
    ensures forall i :: |s| - TrailingZeros(s) <= i < |s| ==> s[i] == '0'
    ensures TrailingZeros(s) < |s| ==> s[|s| - TrailingZeros(s) - 1] != '0'
  {
    if s != [] && s[|s| - 1] == '0' {
      TrailingZerosAre(s[..|s| - 1]);
    }
  }

  /** Stripping removes only a suffix made of zeros, possibly led by the `.`,
      and removes the longest such suffix: what is left ends neither in a zero
      nor in a `.` unless the `.` went with the zeros. A string with a `.` loses
      all its trailing zeros, so one ending in zero gets shorter; a string
      without a `.`, or not ending in zero, is left as it is. */
  lemma StripZerosRemovesZeros(s: string)
    ensures var r := StripZeros(s);
            |r| <= |s| && r == s[..|r|]
            && (forall i :: |r| < i < |s| ==> s[i] == '0')
            && (|r| < |s| ==> s[|r|] == '0' || s[|r|] == '.')
            && (|r| < |s| && s[|r|] == '0' && |r| > 0 ==> r[|r| - 1] != '0' && r[|r| - 1] != '.')
            && ('.' !in s || |s| == 0 || s[|s| - 1] != '0' ==> r == s)
            && ('.' in s ==> |r| <= |s| - TrailingZeros(s))
            && ('.' in s && |s| > 0 && s[|s| - 1] == '0' ==> |r| < |s|)
  {
    TrailingZerosAre(s);
  }

  /** The `EXTINF` value: `toFixed(3)` with trailing zeros stripped. */
  function FormatDuration(d: Num, fmt: Formats): string {
    StripZeros(fmt.fixed3(d))
  }

  function KeyAttrs(k: HLSKey, fmt: Formats): seq<Attr> {
    [Plain("METHOD", k.keyMethod)]
    + (if NonEmpty(k.uri) then [Quoted("URI", k.uri.value)] else [])
    + (if k.iv.Some? then [Plain("IV", fmt.hex(k.iv.value))] else [])
    + (if NonEmpty(k.format) then [Quoted("KEYFORMAT", k.format.value)] else [])
    + (if NonEmpty(k.formatVersion) then [Quoted("KEYFORMATVERSIONS", k.formatVersion.value)] else [])
  }

  function MapLine(m: HLSMap): Line { Attrs(KMap, [Quoted("URI", m.uri)]) }

  function KeyLine(k: HLSKey, fmt: Formats): Line { Attrs(KKey, KeyAttrs(k, fmt)) }

  function CueOutAttrs(outDuration: Option<Num>, fmt: Formats): seq<Attr> {
    [Flag("DERIVED")] + (if TruthyOpt(outDuration) then [Plain("DURATION", fmt.num(outDuration.value))] else [])
  }

  /** The map line of a segment, printed only when its map differs from
      `prevMap`. */
  function MapPart(s: Segment, prevMap: Option<HLSMap>): seq<Line> {
    if s.initMap != prevMap && s.initMap.Some? then [MapLine(s.initMap.value)] else []
  }

  /** The key line of a segment, printed only when its key differs from
      `prevKey`. */
  function KeyPart(s: Segment, prevKey: Option<HLSKey>, fmt: Formats): seq<Line> {
    if s.key != prevKey && s.key.Some? then [KeyLine(s.key.value, fmt)] else []
  }

  function DiscontinuityPart(s: Segment): seq<Line> {
    if s.discontinuity == Some(true) then [Bare(KDiscontinuity)] else []
  }

  function CueOutPart(s: Segment, fmt: Formats): seq<Line> {
    if s.spliceInfo.Some? && s.spliceInfo.value.SpliceOut?
    then [Attrs(KCueOut, CueOutAttrs(s.spliceInfo.value.outDuration, fmt))] else []
  }

  function DateTimePart(s: Segment, fmt: Formats): seq<Line> {
    if s.programDateTime.Some? then [Value(KProgramDateTime, fmt.iso(s.programDateTime.value))] else []
  }

  /** The lines of one segment. `prevMap` and `prevKey` are the previous
      segment's map and key (`lastMap`, `lastKey`). */
  function SegmentBlock(s: Segment, prevMap: Option<HLSMap>, prevKey: Option<HLSKey>, fmt: Formats): seq<Line> {
    MapPart(s, prevMap) + KeyPart(s, prevKey, fmt) + DiscontinuityPart(s) + CueOutPart(s, fmt)
    + DateTimePart(s, fmt) + [Value(KExtInf, FormatDuration(s.duration, fmt)), Uri(s.uri)]
  }

  function PrevMap(segs: seq<Segment>, i: nat): Option<HLSMap>
    requires i <= |segs|
  {
    if i == 0 then None else segs[i - 1].initMap
  }

  function PrevKey(segs: seq<Segment>, i: nat): Option<HLSKey>
    requires i <= |segs|
  {
    if i == 0 then None else segs[i - 1].key
  }

  /** The block of each segment. */
  function Blocks(segs: seq<Segment>, fmt: Formats): (r: seq<seq<Line>>)
    ensures |r| == |segs|
  {
    seq(|segs|, i requires 0 <= i < |segs| => SegmentBlock(segs[i], PrevMap(segs, i), PrevKey(segs, i), fmt))
  }

  /** The lines of all segments. */
  function SegmentLines(segs: seq<Segment>, fmt: Formats): seq<Line> {
    Flatten(Blocks(segs, fmt))
  }

  function DateRangeAttr(e: (string, AttrValue), fmt: Formats): Attr {
    if e.1.AStr? then Quoted("X-" + e.0, e.1.s) else Plain("X-" + e.0, fmt.num(e.1.n))
  }

  /** The custom entries as `X-` attributes: strings quoted, numbers not. */
  function CustomAttrs(entries: seq<(string, AttrValue)>, fmt: Formats): (r: seq<Attr>)
    ensures |r| == |entries|
  {
    if entries == [] then []
    else CustomAttrs(entries[..|entries| - 1], fmt) + [DateRangeAttr(entries[|entries| - 1], fmt)]
  }

  /** Whether `PLANNED-DURATION` is printed: when truthy and not `DURATION`. */
  predicate PrintsPlanned(d: DateRange) {
    TruthyOpt(d.plannedDuration) && d.plannedDuration != d.duration
  }

  function DateRangeAttrs(d: DateRange, fmt: Formats): seq<Attr> {
    [Quoted("ID", d.id), Quoted("START-DATE", fmt.iso(d.startDate))]
    + (if d.classId != "" then [Quoted("CLASS", d.classId)] else [])
    + (if TruthyOpt(d.duration) then [Plain("DURATION", fmt.num(d.duration.value))] else [])
    + (if PrintsPlanned(d) then [Plain("PLANNED-DURATION", fmt.num(d.plannedDuration.value))] else [])
    + (if d.custom.Some? then CustomAttrs(d.custom.value, fmt) else [])
  }

  function PlaylistTypeName(t: PlaylistType): string {
    match t
    case Event => "EVENT"
    case Vod => "VOD"
  }

  /** The line of a date-range. */
  function DateRangeLine(fmt: Formats): DateRange -> Line {
    d => Attrs(KDateRange, DateRangeAttrs(d, fmt))
  }

  /** The header lines, playlist type and defines. */
  function MediaHead(p: MediaPlaylistValue, fmt: Formats): seq<Line> {
    [Bare(KExtM3u), Value(KVersion, "8"), Value(KTargetDuration, fmt.num(p.targetDuration))]
    + (if p.playlistType.Some? then [Value(KPlaylistType, PlaylistTypeName(p.playlistType.value))] else [])
    + MapLines(p.defines, DefineLine)
  }

  function IndependentPart(p: MediaPlaylistValue): seq<Line> {
    if p.independentSegments then [Bare(KIndependentSegments)] else []
  }

  /** `EXT-X-MEDIA-SEQUENCE`, only when the number is truthy. */
  function MediaSequencePart(p: MediaPlaylistValue, fmt: Formats): seq<Line> {
    if TruthyOpt(p.mediaSequenceBase) then [Value(KMediaSequence, fmt.num(p.mediaSequenceBase.value))] else []
  }

  /** `EXT-X-DISCONTINUITY-SEQUENCE`, only when the number is truthy. */
  function DiscontinuitySequencePart(p: MediaPlaylistValue, fmt: Formats): seq<Line> {
    if TruthyOpt(p.discontinuitySequenceBase)
    then [Value(KDiscontinuitySequence, fmt.num(p.discontinuitySequenceBase.value))] else []
  }

  function EndlistPart(p: MediaPlaylistValue): seq<Line> {
    if p.endlist then [Bare(KEndlist)] else []
  }

  /** The lines `stringifyMediaPlaylist` pushes, in order. */
  function MediaLines(p: MediaPlaylistValue, fmt: Formats): seq<Line> {
    MediaHead(p, fmt) + IndependentPart(p) + MediaSequencePart(p, fmt) + DiscontinuitySequencePart(p, fmt)
    + SegmentLines(p.segments, fmt) + EndlistPart(p) + MapLines(p.dateRanges, DateRangeLine(fmt))
  }

  lemma BlocksStep(lines: seq<Line>, segs: seq<Segment>, fmt: Formats, i: nat, block: seq<Line>)
    requires i < |segs| && block == SegmentBlock(segs[i], PrevMap(segs, i), PrevKey(segs, i), fmt)
    ensures lines + Flatten(Blocks(segs, fmt)[..i + 1]) == lines + Flatten(Blocks(segs, fmt)[..i]) + block
  {
    var bs := Blocks(segs, fmt);
    assert bs[i] == block;
    FlattenStep(bs, i);
    var f := Flatten(bs[..i]);
    assert lines + (f + block) == lines + f + block;
  }

  /** The loop over the segments, carrying `lastMap` and `lastKey`. */
  method PushSegments(lines: seq<Line>, segs: seq<Segment>, fmt: Formats) returns (out: seq<Line>)
    ensures out == lines + SegmentLines(segs, fmt)
  {
    ghost var bs := Blocks(segs, fmt);
    out := lines;
    var lastMap: Option<HLSMap> := None;
    var lastKey: Option<HLSKey> := None;
    for i := 0 to |segs|
      invariant out == lines + Flatten(bs[..i])
      invariant lastMap == PrevMap(segs, i) && lastKey == PrevKey(segs, i)
    {
      var block;
      block, lastMap, lastKey := PushSegment(segs[i], lastMap, lastKey, fmt);
      BlocksStep(lines, segs, fmt, i, block);
      out := out + block;
    }
    assert bs[..|segs|] == bs;
  }

  /** The body of the segment loop: the lines of segment `s`, given `lastMap`
      and `lastKey`, and their new values. */
  method PushSegment(s: Segment, lastMap: Option<HLSMap>, lastKey: Option<HLSKey>, fmt: Formats)
    returns (block: seq<Line>, newMap: Option<HLSMap>, newKey: Option<HLSKey>)
    ensures block == SegmentBlock(s, lastMap, lastKey, fmt)
    ensures newMap == s.initMap && newKey == s.key
  {
    block := [];
    newMap := lastMap;
    newKey := lastKey;
    if s.initMap != lastMap {
      if s.initMap.Some? {
        block := block + [MapLine(s.initMap.value)];
      }
      newMap := s.initMap;
    }
    assert block == MapPart(s, lastMap);
    if s.key != lastKey {
      if s.key.Some? {
        block := block + [KeyLine(s.key.value, fmt)];
      }
      newKey := s.key;
    }
    assert block == MapPart(s, lastMap) + KeyPart(s, lastKey, fmt);
    if s.discontinuity == Some(true) {
      block := block + [Bare(KDiscontinuity)];
    }
    assert block == MapPart(s, lastMap) + KeyPart(s, lastKey, fmt) + DiscontinuityPart(s);
    if s.spliceInfo.Some? {
      if s.spliceInfo.value.SpliceOut? {
        block := block + [Attrs(KCueOut, CueOutAttrs(s.spliceInfo.value.outDuration, fmt))];
      }
    }
    assert block == MapPart(s, lastMap) + KeyPart(s, lastKey, fmt) + DiscontinuityPart(s) + CueOutPart(s, fmt);
    if s.programDateTime.Some? {
      block := block + [Value(KProgramDateTime, fmt.iso(s.programDateTime.value))];
    }
    block := block + [Value(KExtInf, FormatDuration(s.duration, fmt)), Uri(s.uri)];
  }

  /** The attributes of a date-range; the loop over its custom entries. */
  method DateRangeAttrsOf(d: DateRange, fmt: Formats) returns (attrs: seq<Attr>)
    ensures attrs == DateRangeAttrs(d, fmt)
  {
    attrs := [Quoted("ID", d.id), Quoted("START-DATE", fmt.iso(d.startDate))];
    if d.classId != "" {
      attrs := attrs + [Quoted("CLASS", d.classId)];
    }
    if TruthyOpt(d.duration) {
      attrs := attrs + [Plain("DURATION", fmt.num(d.duration.value))];
    }
    if TruthyOpt(d.plannedDuration) && d.plannedDuration != d.duration {
      attrs := attrs + [Plain("PLANNED-DURATION", fmt.num(d.plannedDuration.value))];
    }
    if d.custom.Some? {
      attrs := PushCustomAttrs(attrs, d.custom.value, fmt);
    }
  }

  /** The loop over a date-range's custom entries. */
  method PushCustomAttrs(attrs: seq<Attr>, entries: seq<(string, AttrValue)>, fmt: Formats)
    returns (out: seq<Attr>)
    ensures out == attrs + CustomAttrs(entries, fmt)
  {
    out := attrs;
    for i := 0 to |entries|
      invariant out == attrs + CustomAttrs(entries[..i], fmt)
    {
      assert entries[..i + 1][..i] == entries[..i];
      var (key, value) := entries[i];
      if value.AStr? {
        out := out + [Quoted("X-" + key, value.s)];
      }
      if value.ANum? {
        out := out + [Plain("X-" + key, fmt.num(value.n))];
      }
    }
    assert entries[..|entries|] == entries;
  }

  method PushDateRanges(lines: seq<Line>, ranges: seq<DateRange>, fmt: Formats) returns (out: seq<Line>)
    ensures out == lines + MapLines(ranges, DateRangeLine(fmt))
  {
    ghost var f := DateRangeLine(fmt);
    out := lines;
    for i := 0 to |ranges|
      invariant out == lines + MapLines(ranges[..i], f)
    {
      MapLinesStep(ranges, i, f);
      var attrs := DateRangeAttrsOf(ranges[i], fmt);
      out := out + [Attrs(KDateRange, attrs)];
    }
    assert ranges[..|ranges|] == ranges;
  }

  /** `stringifyMediaPlaylist`. */
  method StringifyMedia(p: MediaPlaylistValue, fmt: Formats) returns (text: string)
    ensures text == Text(MediaLines(p, fmt))
  {
    var lines := [Bare(KExtM3u), Value(KVersion, "8"), Value(KTargetDuration, fmt.num(p.targetDuration))];
    if p.playlistType.Some? {
      lines := lines + [Value(KPlaylistType, PlaylistTypeName(p.playlistType.value))];
    }
    lines := PushDefines(lines, p.defines);
    assert lines == MediaHead(p, fmt);
    if p.independentSegments {
      lines := lines + [Bare(KIndependentSegments)];
    }
    assert lines == MediaHead(p, fmt) + IndependentPart(p);
    if TruthyOpt(p.mediaSequenceBase) {
      lines := lines + [Value(KMediaSequence, fmt.num(p.mediaSequenceBase.value))];
    }
    assert lines == MediaHead(p, fmt) + IndependentPart(p) + MediaSequencePart(p, fmt);
    if TruthyOpt(p.discontinuitySequenceBase) {
      lines := lines + [Value(KDiscontinuitySequence, fmt.num(p.discontinuitySequenceBase.value))];
    }
    ghost var prelude := lines;
    assert prelude == MediaHead(p, fmt) + IndependentPart(p) + MediaSequencePart(p, fmt)
                      + DiscontinuitySequencePart(p, fmt);
    lines := PushSegments(lines, p.segments, fmt);
    if p.endlist {
      lines := lines + [Bare(KEndlist)];
    }
    assert lines == prelude + SegmentLines(p.segments, fmt) + EndlistPart(p);
    lines := PushDateRanges(lines, p.dateRanges, fmt);
    text := Join(RenderAll(lines), "\n");
  }

  /** Every media playlist starts with `#EXTM3U`, `#EXT-X-VERSION:8` and its
      target duration. */
  lemma MediaHeader(p: MediaPlaylistValue, fmt: Formats)
    ensures |MediaLines(p, fmt)| >= 3
    ensures MediaLines(p, fmt)[0] == Bare(KExtM3u) && MediaLines(p, fmt)[1] == Value(KVersion, "8")
    ensures MediaLines(p, fmt)[2] == Value(KTargetDuration, fmt.num(p.targetDuration))
  {
  }

  lemma BlockCount(s: Segment, prevMap: Option<HLSMap>, prevKey: Option<HLSKey>, fmt: Formats, key: LineKey)
    ensures Count(SegmentBlock(s, prevMap, prevKey, fmt), key)
            == Count(MapPart(s, prevMap), key) + Count(KeyPart(s, prevKey, fmt), key)
               + Count(DiscontinuityPart(s), key) + Count(CueOutPart(s, fmt), key)
               + Count(DateTimePart(s, fmt), key)
               + Count([Value(KExtInf, FormatDuration(s.duration, fmt)), Uri(s.uri)], key)
  {
    var a := MapPart(s, prevMap);
    var b := KeyPart(s, prevKey, fmt);
    var c := DiscontinuityPart(s);
    var d := CueOutPart(s, fmt);
    var e := DateTimePart(s, fmt);
    var f := [Value(KExtInf, FormatDuration(s.duration, fmt)), Uri(s.uri)];
    CountAppend(a, b, key);
    CountAppend(a + b, c, key);
    CountAppend(a + b + c, d, key);
    CountAppend(a + b + c + d, e, key);
    CountAppend(a + b + c + d + e, f, key);
  }

  /** The number of lines of each kind in one segment's block. */
  lemma BlockKeyCount(s: Segment, prevMap: Option<HLSMap>, prevKey: Option<HLSKey>, fmt: Formats, key: LineKey)
    ensures Count(SegmentBlock(s, prevMap, prevKey, fmt), key)
            == (if s.initMap != prevMap && s.initMap.Some? && key == TagKey(KMap) then 1 else 0)
               + (if s.key != prevKey && s.key.Some? && key == TagKey(KKey) then 1 else 0)
               + (if s.discontinuity == Some(true) && key == TagKey(KDiscontinuity) then 1 else 0)
               + (if s.spliceInfo.Some? && s.spliceInfo.value.SpliceOut? && key == TagKey(KCueOut) then 1 else 0)
               + (if s.programDateTime.Some? && key == TagKey(KProgramDateTime) then 1 else 0)
               + (if key == TagKey(KExtInf) then 1 else 0) + (if key == UriKey then 1 else 0)
  {
    BlockCount(s, prevMap, prevKey, fmt, key);
    MarkerPartsCount(s, fmt, key);
    CountShort(MapPart(s, prevMap), key);
    assert Count(MapPart(s, prevMap), key)
           == if s.initMap != prevMap && s.initMap.Some? && key == TagKey(KMap) then 1 else 0;
    CountShort(KeyPart(s, prevKey, fmt), key);
    assert Count(KeyPart(s, prevKey, fmt), key)
           == if s.key != prevKey && s.key.Some? && key == TagKey(KKey) then 1 else 0;
  }

  lemma MarkerPartsCount(s: Segment, fmt: Formats, key: LineKey)
    ensures Count(DiscontinuityPart(s), key)
            == if s.discontinuity == Some(true) && key == TagKey(KDiscontinuity) then 1 else 0
    ensures Count(CueOutPart(s, fmt), key)
            == if s.spliceInfo.Some? && s.spliceInfo.value.SpliceOut? && key == TagKey(KCueOut) then 1 else 0
    ensures Count(DateTimePart(s, fmt), key) == if s.programDateTime.Some? && key == TagKey(KProgramDateTime) then 1 else 0
    ensures Count([Value(KExtInf, FormatDuration(s.duration, fmt)), Uri(s.uri)], key)
            == (if key == TagKey(KExtInf) then 1 else 0) + (if key == UriKey then 1 else 0)
  {
    CountShort(DiscontinuityPart(s), key);
    CountShort(CueOutPart(s, fmt), key);
    CountShort(DateTimePart(s, fmt), key);
    CountPair(Value(KExtInf, FormatDuration(s.duration, fmt)), Uri(s.uri), key);
  }

  /** One segment's lines: a map line exactly when its map is set and differs
      from the previous segment's, a key line likewise, exactly one `EXTINF`
      line and one uri, and the block ends with the `EXTINF` line followed by
      the uri. */
  lemma SegmentBlockShape(s: Segment, prevMap: Option<HLSMap>, prevKey: Option<HLSKey>, fmt: Formats)
    ensures var b := SegmentBlock(s, prevMap, prevKey, fmt);
            Count(b, TagKey(KMap)) == (if s.initMap.Some? && s.initMap != prevMap then 1 else 0)
            && Count(b, TagKey(KKey)) == (if s.key.Some? && s.key != prevKey then 1 else 0)
            && Count(b, TagKey(KExtInf)) == 1 && Count(b, UriKey) == 1
            && |b| >= 2 && b[|b| - 2] == Value(KExtInf, FormatDuration(s.duration, fmt))
            && b[|b| - 1] == Uri(s.uri)
  {
    BlockKeyCount(s, prevMap, prevKey, fmt, TagKey(KMap));
    BlockKeyCount(s, prevMap, prevKey, fmt, TagKey(KKey));
    BlockKeyCount(s, prevMap, prevKey, fmt, TagKey(KExtInf));
    BlockKeyCount(s, prevMap, prevKey, fmt, UriKey);
  }

  /** The segment section has one `EXTINF` line and one uri per segment. */
  lemma SegmentLinesCounts(segs: seq<Segment>, fmt: Formats)
    ensures Count(SegmentLines(segs, fmt), TagKey(KExtInf)) == |segs|
    ensures Count(SegmentLines(segs, fmt), UriKey) == |segs|
  {
    var bs := Blocks(segs, fmt);
    forall i | 0 <= i < |bs|
      ensures Count(bs[i], TagKey(KExtInf)) == 1 && Count(bs[i], UriKey) == 1
    {
      BlockKeyCount(segs[i], PrevMap(segs, i), PrevKey(segs, i), fmt, TagKey(KExtInf));
      BlockKeyCount(segs[i], PrevMap(segs, i), PrevKey(segs, i), fmt, UriKey);
    }
    FlattenCount(bs, TagKey(KExtInf), 1);
    FlattenCount(bs, UriKey, 1);
  }

  /** After normalization a segment that inherited its map or key does not
      print it again: it equals the previous segment's, so only the segments
      that set a new map or key print one. */
  lemma InheritedNotReprinted(segs: seq<Segment>, i: nat, fmt: Formats)
    requires 0 < i < |segs|
    ensures var n := Normalized(segs);
            var b := SegmentBlock(n[i], PrevMap(n, i), PrevKey(n, i), fmt);
            (segs[i].initMap.None? ==> Count(b, TagKey(KMap)) == 0)
            && (segs[i].key.None? ==> Count(b, TagKey(KKey)) == 0)
  {
    var n := Normalized(segs);
    assert segs[..i][..i - 1] == segs[..i - 1];
    assert n[i - 1] == Inherit(segs[i - 1], segs[..i - 1]);
    SegmentBlockShape(n[i], PrevMap(n, i), PrevKey(n, i), fmt);
  }

  lemma MediaCount(p: MediaPlaylistValue, fmt: Formats, key: LineKey)
    ensures Count(MediaLines(p, fmt), key)
            == Count(MediaHead(p, fmt), key) + Count(IndependentPart(p), key)
               + Count(MediaSequencePart(p, fmt), key) + Count(DiscontinuitySequencePart(p, fmt), key)
               + Count(SegmentLines(p.segments, fmt), key) + Count(EndlistPart(p), key)
               + Count(MapLines(p.dateRanges, DateRangeLine(fmt)), key)
  {
    var a := MediaHead(p, fmt);
    var b := IndependentPart(p);
    var c := MediaSequencePart(p, fmt);
    var d := DiscontinuitySequencePart(p, fmt);
    var e := SegmentLines(p.segments, fmt);
    var f := EndlistPart(p);
    var g := MapLines(p.dateRanges, DateRangeLine(fmt));
    CountAppend(a, b, key);
    CountAppend(a + b, c, key);
    CountAppend(a + b + c, d, key);
    CountAppend(a + b + c + d, e, key);
    CountAppend(a + b + c + d + e, f, key);
    CountAppend(a + b + c + d + e + f, g, key);
  }

  /** The kinds of line only the playlist-level optional tags use. */
  predicate PlaylistLevel(key: LineKey) {
    key == TagKey(KEndlist) || key == TagKey(KMediaSequence) || key == TagKey(KDiscontinuitySequence)
  }

  lemma MediaHeadCount(p: MediaPlaylistValue, fmt: Formats, key: LineKey)
    requires PlaylistLevel(key)
    ensures Count(MediaHead(p, fmt), key) == 0
  {
    var a := [Bare(KExtM3u), Value(KVersion, "8")];
    var t := [Value(KTargetDuration, fmt.num(p.targetDuration))];
    var b := if p.playlistType.Some? then [Value(KPlaylistType, PlaylistTypeName(p.playlistType.value))] else [];
    CountPair(Bare(KExtM3u), Value(KVersion, "8"), key);
    CountShort(t, key);
    CountShort(b, key);
    CountMapLines(p.defines, DefineLine, key, TagKey(KDefine));
    CountAppend(a, t, key);
    CountAppend(a + t, b, key);
    CountAppend(a + t + b, MapLines(p.defines, DefineLine), key);
    assert MediaHead(p, fmt) == a + t + b + MapLines(p.defines, DefineLine);
  }

  lemma SegmentLinesCount(segs: seq<Segment>, fmt: Formats, key: LineKey)
    requires PlaylistLevel(key)
    ensures Count(SegmentLines(segs, fmt), key) == 0
  {
    var bs := Blocks(segs, fmt);
    forall i | 0 <= i < |bs|
      ensures Count(bs[i], key) == 0
    {
      BlockKeyCount(segs[i], PrevMap(segs, i), PrevKey(segs, i), fmt, key);
    }
    FlattenCount(bs, key, 0);
  }

  lemma PlaylistLevelCount(p: MediaPlaylistValue, fmt: Formats, key: LineKey)
    requires PlaylistLevel(key)
    ensures Count(MediaLines(p, fmt), key)
            == Count(IndependentPart(p), key) + Count(MediaSequencePart(p, fmt), key)
               + Count(DiscontinuitySequencePart(p, fmt), key) + Count(EndlistPart(p), key)
  {
    MediaCount(p, fmt, key);
    MediaHeadCount(p, fmt, key);
    SegmentLinesCount(p.segments, fmt, key);
    CountMapLines(p.dateRanges, DateRangeLine(fmt), key, TagKey(KDateRange));
  }

  lemma OptionalPartsCount(p: MediaPlaylistValue, fmt: Formats, key: LineKey)
    ensures Count(IndependentPart(p), key) == if p.independentSegments && key == TagKey(KIndependentSegments) then 1 else 0
    ensures Count(MediaSequencePart(p, fmt), key)
            == if TruthyOpt(p.mediaSequenceBase) && key == TagKey(KMediaSequence) then 1 else 0
    ensures Count(DiscontinuitySequencePart(p, fmt), key)
            == if TruthyOpt(p.discontinuitySequenceBase) && key == TagKey(KDiscontinuitySequence) then 1 else 0
    ensures Count(EndlistPart(p), key) == if p.endlist && key == TagKey(KEndlist) then 1 else 0
  {
    CountShort(IndependentPart(p), key);
    CountShort(MediaSequencePart(p, fmt), key);
    CountShort(DiscontinuitySequencePart(p, fmt), key);
    CountShort(EndlistPart(p), key);
  }

  /** `EXT-X-ENDLIST` is printed exactly when the playlist has ended, and the
      sequence numbers exactly when they are truthy: a zero or missing number
      prints nothing. */
  lemma MediaOptionalLines(p: MediaPlaylistValue, fmt: Formats)
    ensures Count(MediaLines(p, fmt), TagKey(KEndlist)) == if p.endlist then 1 else 0
    ensures Count(MediaLines(p, fmt), TagKey(KMediaSequence)) == if TruthyOpt(p.mediaSequenceBase) then 1 else 0
    ensures Count(MediaLines(p, fmt), TagKey(KDiscontinuitySequence))
            == if TruthyOpt(p.discontinuitySequenceBase) then 1 else 0
  {
    PlaylistLevelCount(p, fmt, TagKey(KEndlist));
    OptionalPartsCount(p, fmt, TagKey(KEndlist));
    PlaylistLevelCount(p, fmt, TagKey(KMediaSequence));
    OptionalPartsCount(p, fmt, TagKey(KMediaSequence));
    PlaylistLevelCount(p, fmt, TagKey(KDiscontinuitySequence));
    OptionalPartsCount(p, fmt, TagKey(KDiscontinuitySequence));
  }

  /** When the playlist has ended, `EXT-X-ENDLIST` follows all the segments and
      only date-range lines come after it. */
  lemma EndlistAfterSegments(p: MediaPlaylistValue, fmt: Formats)
    requires p.endlist
    ensures var lines := MediaLines(p, fmt);
            var k := |lines| - |p.dateRanges| - 1;
            0 <= k && lines[k] == Bare(KEndlist)
            && lines[..k] == MediaHead(p, fmt) + IndependentPart(p) + MediaSequencePart(p, fmt)
                             + DiscontinuitySequencePart(p, fmt) + SegmentLines(p.segments, fmt)
            && forall j :: k < j < |lines| ==> KeyOf(lines[j]) == TagKey(KDateRange)
  {
    var x := MediaHead(p, fmt) + IndependentPart(p) + MediaSequencePart(p, fmt)
             + DiscontinuitySequencePart(p, fmt) + SegmentLines(p.segments, fmt);
    var g := MapLines(p.dateRanges, DateRangeLine(fmt));
    MapLinesAt(p.dateRanges, DateRangeLine(fmt));
    var lines := x + [Bare(KEndlist)] + g;
    assert MediaLines(p, fmt) == lines;
    assert lines[..|x|] == x;
    forall j | |x| < j < |lines|
      ensures KeyOf(lines[j]) == TagKey(KDateRange)
    {
      assert lines[j] == g[j - |x| - 1];
    }
  }

  /** Each custom entry of a date-range becomes an `X-` attribute, in order:
      string values quoted, numbers not. */
  lemma {:induction false} CustomAttrsAt(entries: seq<(string, AttrValue)>, fmt: Formats)
    ensures forall i :: 0 <= i < |entries| ==>
              CustomAttrs(entries, fmt)[i]
              == (if entries[i].1.AStr? then Quoted("X-" + entries[i].0, entries[i].1.s)
                  else Plain("X-" + entries[i].0, fmt.num(entries[i].1.n)))
  {
    if entries != [] {
      CustomAttrsAt(entries[..|entries| - 1], fmt);
    }
  }

  /** Whether an attribute list has an attribute called `name`. */
  predicate Named(attrs: seq<Attr>, name: string) {
    exists i :: 0 <= i < |attrs| && attrs[i].name == name
  }

  lemma NamedAppend(a: seq<Attr>, b: seq<Attr>, name: string)
    ensures Named(a + b, name) <==> Named(a, name) || Named(b, name)
  {
    if Named(b, name) {
      var i :| 0 <= i < |b| && b[i].name == name;
      assert (a + b)[|a| + i] == b[i];
    }
    if Named(a, name) {
      var i :| 0 <= i < |a| && a[i].name == name;
      assert (a + b)[i] == a[i];
    }
  }

  /** Custom attributes never take the name of a standard one. */
  lemma CustomNotNamed(d: DateRange, fmt: Formats, name: string)
    requires name != [] && name[0] != 'X'
    ensures !Named(if d.custom.Some? then CustomAttrs(d.custom.value, fmt) else [], name)
  {
    if d.custom.Some? {
      CustomAttrsAt(d.custom.value, fmt);
    }
  }

  /** `PLANNED-DURATION` is printed exactly when it is truthy and differs from
      `DURATION`; `DURATION` exactly when it is truthy. */
  lemma DateRangeDurations(d: DateRange, fmt: Formats)
    ensures Named(DateRangeAttrs(d, fmt), "PLANNED-DURATION") <==> PrintsPlanned(d)
    ensures Named(DateRangeAttrs(d, fmt), "DURATION") <==> TruthyOpt(d.duration)
  {
    var fixed := [Quoted("ID", d.id), Quoted("START-DATE", fmt.iso(d.startDate))];
    var cls := if d.classId != "" then [Quoted("CLASS", d.classId)] else [];
    var dur := if TruthyOpt(d.duration) then [Plain("DURATION", fmt.num(d.duration.value))] else [];
    var planned := if PrintsPlanned(d) then [Plain("PLANNED-DURATION", fmt.num(d.plannedDuration.value))] else [];
    var custom := if d.custom.Some? then CustomAttrs(d.custom.value, fmt) else [];
    assert DateRangeAttrs(d, fmt) == fixed + cls + dur + planned + custom;
    forall name | name == "DURATION" || name == "PLANNED-DURATION"
      ensures Named(DateRangeAttrs(d, fmt), name) <==> Named(dur, name) || Named(planned, name)
    {
      CustomNotNamed(d, fmt, name);
      assert !Named(fixed, name);
      assert !Named(cls, name);
      NamedAppend(fixed, cls, name);
      NamedAppend(fixed + cls, dur, name);
      NamedAppend(fixed + cls + dur, planned, name);
      NamedAppend(fixed + cls + dur + planned, custom, name);
    }
    assert Named(planned, "PLANNED-DURATION") <==> PrintsPlanned(d) by {
      if PrintsPlanned(d) {
        assert planned[0].name == "PLANNED-DURATION";
      }
    }
    assert Named(dur, "DURATION") <==> TruthyOpt(d.duration) by {
      if TruthyOpt(d.duration) {
        assert dur[0].name == "DURATION";
      }
    }
  }
}
