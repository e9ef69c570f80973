/** `rewriteMainUrls` of `src/lib/transform-main.ts`: every variant and every
    rendition of a main playlist is pointed at this service's media route, with
    an encoded payload naming the original uri and an ordinal file name. */
module TransformMain {
  import opened Strings
  import opened HlsTypes

  /** The `type` of a media payload. */
  datatype PayloadType = VideoPayload | AudioPayload | SubtitlesPayload

  /** The media payload that the route decodes again: what kind of playlist
      the original uri holds. */
  datatype MediaPayload = MediaPayload(payloadType: PayloadType, path: string)

  /** `media.type.toLowerCase()`. */
  function TypeName(t: MediaType): (s: string)
    ensures '_' !in s
  {
    match t
    case Audio => "audio"
    case Subtitles => "subtitles"
  }

  function PayloadTypeOf(t: MediaType): PayloadType {
    match t
    case Audio => AudioPayload
    case Subtitles => SubtitlesPayload
  }

  /** The file name of the `index`-th rewritten entry: `video_<index>`. */
  function VariantName(index: nat): string {
    "video_" + NatToString(index)
  }

  /** `<type>_<index>` for a rendition. */
  function MediaName(t: MediaType, index: nat): string {
    TypeName(t) + "_" + NatToString(index)
  }

  /** `media/<encoded payload>/<name>.m3u8`. */
  function PayloadUri(encoded: string, name: string): string {
    "media/" + encoded + "/" + name + ".m3u8"
  }

  function RenamedVariant(v: Variant, index: nat, encode: MediaPayload -> string): Variant {
    v.(uri := PayloadUri(encode(MediaPayload(VideoPayload, v.uri)), VariantName(index)))
  }

  function RenamedMedia(m: Media, index: nat, encode: MediaPayload -> string): Media {
    m.(uri := PayloadUri(encode(MediaPayload(PayloadTypeOf(m.mediaType), m.uri)), MediaName(m.mediaType, index)))
  }

  /** The playlist after the rewrite: variants are numbered from 1, renditions
      continue the same counter. Nothing but the uris changes. */
  function RewrittenMain(v: MainPlaylistValue, encode: MediaPayload -> string): (r: MainPlaylistValue)
    ensures r.independentSegments == v.independentSegments && r.defines == v.defines && r.comments == v.comments
    ensures |r.variants| == |v.variants| && |r.medias| == |v.medias|
    ensures forall i :: 0 <= i < |v.variants| ==> r.variants[i].(uri := v.variants[i].uri) == v.variants[i]
    ensures forall j :: 0 <= j < |v.medias| ==> r.medias[j].(uri := v.medias[j].uri) == v.medias[j]
  {
    v.(variants := RenamedVariants(v.variants, encode),
       medias := RenamedMedias(v.medias, |v.variants|, encode))
  }

  function RenamedVariants(vs: seq<Variant>, encode: MediaPayload -> string): (r: seq<Variant>)
    ensures |r| == |vs| && forall i :: 0 <= i < |vs| ==> r[i] == RenamedVariant(vs[i], i + 1, encode)
  {
    seq(|vs|, i requires 0 <= i < |vs| => RenamedVariant(vs[i], i + 1, encode))
  }

  /** Renditions numbered on from `count`. */
  function RenamedMedias(ms: seq<Media>, count: nat, encode: MediaPayload -> string): (r: seq<Media>)
    ensures |r| == |ms| && forall j :: 0 <= j < |ms| ==> r[j] == RenamedMedia(ms[j], count + j + 1, encode)
  {
    seq(|ms|, j requires 0 <= j < |ms| => RenamedMedia(ms[j], count + j + 1, encode))
  }

  /** `rewriteMainUrls(bindings, playlist)`; `encode` is `formatMediaPayload`. */
  method RewriteMainUrls(playlist: MainPlaylist, encode: MediaPayload -> string)
    modifies playlist
    ensures playlist.View() == RewrittenMain(old(playlist.View()), encode)
  {
    var index := 0;
    var original := playlist.variants;
    var variants := original;
    for i := 0 to |variants|
      invariant index == i && |variants| == |original|
      invariant forall k :: 0 <= k < i ==> variants[k] == RenamedVariant(original[k], k + 1, encode)
      invariant forall k :: i <= k < |variants| ==> variants[k] == original[k]
    {
      index := index + 1;
      variants := variants[i := variants[i].(uri := PayloadUri(encode(MediaPayload(VideoPayload, variants[i].uri)), VariantName(index)))];
    }
    var originalMedias := playlist.medias;
    var medias := originalMedias;
    for j := 0 to |medias|
      invariant index == |original| + j && |medias| == |originalMedias|
      invariant forall k :: 0 <= k < j ==> medias[k] == RenamedMedia(originalMedias[k], |original| + k + 1, encode)
      invariant forall k :: j <= k < |medias| ==> medias[k] == originalMedias[k]
    {
      index := index + 1;
      var media := medias[j];
      var name := TypeName(media.mediaType) + "_" + NatToString(index);
      if media.mediaType == Audio {
        medias := medias[j := media.(uri := PayloadUri(encode(MediaPayload(AudioPayload, media.uri)), name))];
      }
      if media.mediaType == Subtitles {
        medias := medias[j := media.(uri := PayloadUri(encode(MediaPayload(SubtitlesPayload, media.uri)), name))];
      }
      assert medias[j] == RenamedMedia(originalMedias[j], index, encode);
    }
    assert variants == RenamedVariants(original, encode);
    assert medias == RenamedMedias(originalMedias, |original|, encode);
    playlist.variants := variants;
    playlist.medias := medias;
  }

  /** The name given to the `k`-th entry, variants first and then renditions. */
  function NameAt(v: MainPlaylistValue, k: nat): string
    requires k < |v.variants| + |v.medias|
  {
    if k < |v.variants| then VariantName(k + 1) else MediaName(v.medias[k - |v.variants|].mediaType, k + 1)
  }

  /** Every rewritten uri carries the payload of the entry's kind and original
      uri, and ends with that entry's name. */
  lemma RewrittenUris(v: MainPlaylistValue, encode: MediaPayload -> string)
    ensures var r := RewrittenMain(v, encode);
            (forall i :: 0 <= i < |v.variants| ==>
              r.variants[i].uri == PayloadUri(encode(MediaPayload(VideoPayload, v.variants[i].uri)), NameAt(v, i)))
            && (forall j :: 0 <= j < |v.medias| ==>
              r.medias[j].uri == PayloadUri(encode(MediaPayload(PayloadTypeOf(v.medias[j].mediaType), v.medias[j].uri)),
                                            NameAt(v, |v.variants| + j)))
  {
  }

  /** A word without `_`, an underscore and a suffix split back uniquely. */
  lemma UnderscoreSplit(p1: string, d1: string, p2: string, d2: string)
    requires '_' !in p1 && '_' !in p2
    requires p1 + "_" + d1 == p2 + "_" + d2
    ensures p1 == p2 && d1 == d2
  {
    var s := p1 + "_" + d1;
    FirstUnderscore(p1, d1);
    FirstUnderscore(p2, d2);
    assert p1 == s[..|p1|] == p2;
    assert d1 == s[|p1| + 1..] == d2;
  }

  lemma FirstUnderscore(p: string, d: string)
    requires '_' !in p
    ensures IndexOf(p + "_" + d, '_') == |p|
  {
    var s := p + "_" + d;
    var i := IndexOf(s, '_');
    assert s[..|p|] == p;
    assert s[|p|] == '_';
    assert i >= 0 ==> s[i] == '_' && s[..i] == s[..|p| + 1][..i];
  }

  /** The ordinal names are pairwise distinct: the shared counter makes the
      numeric suffix unique. */
  lemma NamesDistinct(v: MainPlaylistValue, k: nat, l: nat)
    requires k < |v.variants| + |v.medias| && l < |v.variants| + |v.medias| && k != l
    ensures NameAt(v, k) != NameAt(v, l)
  {
    if NameAt(v, k) == NameAt(v, l) {
      var pk := if k < |v.variants| then "video" else TypeName(v.medias[k - |v.variants|].mediaType);
      var pl := if l < |v.variants| then "video" else TypeName(v.medias[l - |v.variants|].mediaType);
      assert NameAt(v, k) == pk + "_" + NatToString(k + 1);
      assert NameAt(v, l) == pl + "_" + NatToString(l + 1);
      UnderscoreSplit(pk, NatToString(k + 1), pl, NatToString(l + 1));
      NatToStringInjective(k + 1, l + 1);
    }
  }
}
