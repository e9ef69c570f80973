/** The records of an HLS playlist: the typed tags the lexer produces and the
    structured main and media playlists the parsers build, the serializer
    prints and the rewriters update in place. */
module HlsTypes {
  import opened Wrappers
  import opened Values

  datatype PlaylistType = Event | Vod

  datatype MediaType = Audio | Subtitles

  datatype Resolution = Resolution(width: Num, height: Num)

  /** The attributes of `EXT-X-STREAM-INF`. */
  datatype StreamInf = StreamInf(
    bandwidth: Num,
    codecs: Option<string>,
    resolution: Option<Resolution>,
    audio: Option<string>,
    subtitles: Option<string>)

  /** An alternative rendition (`EXT-X-MEDIA`). */
  datatype Media = Media(
    mediaType: MediaType,
    groupId: string,
    name: string,
    language: Option<string>,
    uri: string,
    channels: Option<string>,
    isDefault: Option<bool>,
    autoSelect: Option<bool>,
    characteristics: Option<string>)

  /** An `EXT-X-MAP` record. `ref` stands for the identity of the JavaScript
      object: two maps are the same object exactly when their refs are equal. */
  datatype HLSMap = HLSMap(ref: nat, uri: string)

  /** An `EXT-X-KEY` record; `ref` is its object identity, as for maps. */
  datatype HLSKey = HLSKey(
    ref: nat,
    keyMethod: string,
    uri: Option<string>,
    iv: Option<seq<bv8>>,
    format: Option<string>,
    formatVersion: Option<string>)

  /** An `EXT-X-DATERANGE` record. `clientAttributes` is what the lexer and the
      rewriters fill in, `custom` is what the serializer prints and `scte35` is
      what the splice-aware parser inspects; each is modelled as the file that
      uses it declares it. */
  datatype DateRange = DateRange(
    id: string,
    classId: string,
    startDate: DateTime,
    duration: Option<Num>,
    plannedDuration: Option<Num>,
    clientAttributes: Option<seq<(string, AttrValue)>>,
    custom: Option<seq<(string, AttrValue)>>,
    scte35: Option<string>)

  /** An `EXT-X-DEFINE` record (`import` is a keyword, hence `importName`). */
  datatype Define = Define(name: Option<string>, value: Option<string>, importName: Option<string>)

  /** One line of a playlist after lexing. */
  datatype Tag =
    | Literal(text: string)
    | ExtM3u
    | Discontinuity
    | Endlist
    | IFramesOnly
    | IndependentSegments
    | CueIn
    | Version(n: Num)
    | TargetDuration(n: Num)
    | MediaSequence(n: Num)
    | DiscontinuitySequence(n: Num)
    | ProgramDateTime(dateTime: DateTime)
    | ExtInf(duration: Num)
    | PlaylistTypeTag(playlistType: PlaylistType)
    | StreamInfTag(streamInf: StreamInf)
    | MediaTag(media: Media)
    | MapTag(hlsMap: HLSMap)
    | DateRangeTag(dateRange: DateRange)
    | CueOut(duration: Num)
    | KeyTag(key: HLSKey)
    | DefineTag(define: Define)

  datatype Variant = Variant(
    uri: string,
    bandwidth: Num,
    codecs: Option<string>,
    resolution: Option<Resolution>,
    audio: Option<string>,
    subtitles: Option<string>)

  /** Splice information of a segment. The splice-aware parser only produces
      `SpliceOut`; the older parser also produces `SpliceIn`. */
  datatype SpliceInfo = SpliceOut(outDuration: Option<Num>) | SpliceIn

  datatype Segment = Segment(
    uri: string,
    duration: Num,
    discontinuity: Option<bool>,
    initMap: Option<HLSMap>,
    key: Option<HLSKey>,
    programDateTime: Option<DateTime>,
    spliceInfo: Option<SpliceInfo>)

  /** The fields of a main playlist, as a value. */
  datatype MainPlaylistValue = MainPlaylistValue(
    independentSegments: bool,
    variants: seq<Variant>,
    medias: seq<Media>,
    defines: seq<Define>,
    comments: Option<seq<string>>)

  /** The fields of a media playlist, as a value. */
  datatype MediaPlaylistValue = MediaPlaylistValue(
    independentSegments: bool,
    targetDuration: Num,
    endlist: bool,
    playlistType: Option<PlaylistType>,
    segments: seq<Segment>,
    mediaSequenceBase: Option<Num>,
    discontinuitySequenceBase: Option<Num>,
    dateRanges: seq<DateRange>,
    defines: seq<Define>)

  /** A main playlist object; the rewriters reassign its fields. */
  class MainPlaylist {
    var independentSegments: bool
    var variants: seq<Variant>
    var medias: seq<Media>
    var defines: seq<Define>
    var comments: Option<seq<string>>

    constructor (v: MainPlaylistValue)
      ensures View() == v
    {
      independentSegments := v.independentSegments;
      variants := v.variants;
      medias := v.medias;
      defines := v.defines;
      comments := v.comments;
    }

    function View(): MainPlaylistValue
      reads this
    {
      MainPlaylistValue(independentSegments, variants, medias, defines, comments)
    }
  }

  /** A media playlist object; the rewriters reassign its fields. */
  class MediaPlaylist {
    var independentSegments: bool
    var targetDuration: Num
    var endlist: bool
    var playlistType: Option<PlaylistType>
    var segments: seq<Segment>
    var mediaSequenceBase: Option<Num>
    var discontinuitySequenceBase: Option<Num>
    var dateRanges: seq<DateRange>
    var defines: seq<Define>

    constructor (v: MediaPlaylistValue)
      ensures View() == v
    {
      independentSegments := v.independentSegments;
      targetDuration := v.targetDuration;
      endlist := v.endlist;
      playlistType := v.playlistType;
      segments := v.segments;
      mediaSequenceBase := v.mediaSequenceBase;
      discontinuitySequenceBase := v.discontinuitySequenceBase;
      dateRanges := v.dateRanges;
      defines := v.defines;
    }

    function View(): MediaPlaylistValue
      reads this
    {
      MediaPlaylistValue(independentSegments, targetDuration, endlist, playlistType, segments,
        mediaSequenceBase, discontinuitySequenceBase, dateRanges, defines)
    }
  }
}
