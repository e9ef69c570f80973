/** The older playlist parser of `src/parser/parse.ts`. Its main-playlist
    parser is the one of `HlsParse`; its media-playlist parser keeps every
    date-range in the playlist, and its segments take their splice information
    from `EXT-X-CUE-IN` as well as `EXT-X-CUE-OUT`, the later of the two
    winning. Span grouping and normalization are those of `HlsParse`. */
module LegacyParse {
  import opened Wrappers
  import opened Values
  import opened HlsTypes
  import opened Lexer
  import opened HlsParse

  /** The splice information a tag sets: `IN` for `EXT-X-CUE-IN`, `OUT` with
      the tag's duration for `EXT-X-CUE-OUT`. */
  function SpliceSel(t: Tag): Option<SpliceInfo> {
    if t.CueIn? then Some(SpliceIn)
    else if t.CueOut? then Some(SpliceOut(Some(t.duration)))
    else None
  }

  /** The segment a span describes: the last occurrence of each tag wins, and
      a span without a uri or without a truthy duration is an error. */
  function SegmentOf(tags: seq<Tag>): Result<Segment> {
    var uri := Pick(tags, LiteralSel);
    var duration := Pick(tags, DurationSel);
    if !NonEmpty(uri) then Err("parseSegment: uri not found")
    else if !TruthyOpt(duration) then Err("parseSegment: duration not found")
    else Ok(Segment(uri.value, duration.value,
                    if Has(tags, IsDiscontinuity) then Some(true) else None,
                    Pick(tags, MapSel), Pick(tags, KeySel), Pick(tags, DateTimeSel),
                    Pick(tags, SpliceSel)))
  }

  /** `parseSegment`: one pass over the span's tags. */
  method ParseSegment(tags: seq<Tag>) returns (r: Result<Segment>)
    ensures Agrees(r, SegmentOf(tags))
  {
    var duration: Option<Num> := None;
    var discontinuity: Option<bool> := None;
    var dateTime: Option<DateTime> := None;
    var spliceInfo: Option<SpliceInfo> := None;
    var uri: Option<string> := None;
    var initMap: Option<HLSMap> := None;
    var key: Option<HLSKey> := None;
    var i := 0;
    while i < |tags|
      invariant 0 <= i <= |tags|
      invariant duration == Pick(tags[..i], DurationSel)
      invariant discontinuity == if Has(tags[..i], IsDiscontinuity) then Some(true) else None
      invariant dateTime == Pick(tags[..i], DateTimeSel)
      invariant spliceInfo == Pick(tags[..i], SpliceSel)
      invariant uri == Pick(tags[..i], LiteralSel)
      invariant initMap == Pick(tags[..i], MapSel)
      invariant key == Pick(tags[..i], KeySel)
    {
      assert tags[..i + 1][..i] == tags[..i];
      var t := tags[i];
      if t.ExtInf? {
        duration := Some(t.duration);
      }
      if t.Discontinuity? {
        discontinuity := Some(true);
      }
      if t.ProgramDateTime? {
        dateTime := Some(t.dateTime);
      }
      if t.CueIn? {
        spliceInfo := Some(SpliceIn);
      }
      if t.CueOut? {
        spliceInfo := Some(SpliceOut(Some(t.duration)));
      }
      if t.MapTag? {
        initMap := Some(t.hlsMap);
      }
      if t.KeyTag? {
        key := Some(t.key);
      }
      if t.Literal? {
        uri := Some(t.text);
      }
      i := i + 1;
    }
    assert tags[..i] == tags;
    if !NonEmpty(uri) {
      return Err("parseSegment: uri not found");
    }
    if !TruthyOpt(duration) {
      return Err("parseSegment: duration not found");
    }
    r := Ok(Segment(uri.value, duration.value, discontinuity, initMap, key, dateTime, spliceInfo));
  }

  /** The later of `EXT-X-CUE-IN` and `EXT-X-CUE-OUT` in a span decides its
      splice information; a span with neither has none. */
  lemma SpliceIsLastCue(tags: seq<Tag>)
    requires SegmentOf(tags).Ok?
    ensures var s := SegmentOf(tags).value;
            (s.spliceInfo.None? <==> forall i :: 0 <= i < |tags| ==> !tags[i].CueIn? && !tags[i].CueOut?)
            && (s.spliceInfo.Some? ==>
                  exists i :: 0 <= i < |tags| && (tags[i].CueIn? || tags[i].CueOut?)
                              && s.spliceInfo == SpliceSel(tags[i])
                              && forall j :: i < j < |tags| ==> !tags[j].CueIn? && !tags[j].CueOut?)
  {
    PickIsLast(tags, SpliceSel);
    assert forall i :: 0 <= i < |tags| ==> (SpliceSel(tags[i]).None? <==> !tags[i].CueIn? && !tags[i].CueOut?);
  }

  /** What `parseMediaPlaylist` makes of a tag list: every date-range is the
      playlist's own. */
  function MediaOf(tags: seq<Tag>): Result<MediaPlaylistValue> {
    var targetDuration := Pick(tags, TargetDurationSel);
    var segments := SegmentsOf(tags, Spans(tags), SegmentOf);
    if segments.Err? then Err(segments.msg)
    else if !TruthyOpt(targetDuration) then Err("no target duration")
    else Ok(MediaPlaylistValue(
      Has(tags, IsIndependentSegments), targetDuration.value, Has(tags, IsEndlist),
      Pick(tags, PlaylistTypeSel), Normalized(segments.value),
      Pick(tags, MediaSequenceSel), Pick(tags, DiscontinuitySequenceSel),
      Collect(tags, RangeSel), Collect(tags, DefineSel)))
  }

  /** The first loop of `parseMediaPlaylist`: the last value of each scalar tag,
      and every date-range and define in order. */
  method ScanHeader(tags: seq<Tag>) returns (h: Header)
    ensures h == Header(Pick(tags, TargetDurationSel), Has(tags, IsEndlist), Pick(tags, PlaylistTypeSel),
                        Has(tags, IsIndependentSegments), Pick(tags, MediaSequenceSel),
                        Pick(tags, DiscontinuitySequenceSel), Collect(tags, RangeSel), [],
                        Collect(tags, DefineSel))
  {
    var targetDuration: Option<Num> := None;
    var endlist := false;
    var playlistType: Option<PlaylistType> := None;
    var independentSegments := false;
    var mediaSequenceBase: Option<Num> := None;
    var discontinuitySequenceBase: Option<Num> := None;
    var dateRanges: seq<DateRange> := [];
    var defines: seq<Define> := [];
    var i := 0;
    while i < |tags|
      invariant 0 <= i <= |tags|
      invariant targetDuration == Pick(tags[..i], TargetDurationSel)
      invariant endlist == Has(tags[..i], IsEndlist)
      invariant playlistType == Pick(tags[..i], PlaylistTypeSel)
      invariant independentSegments == Has(tags[..i], IsIndependentSegments)
      invariant mediaSequenceBase == Pick(tags[..i], MediaSequenceSel)
      invariant discontinuitySequenceBase == Pick(tags[..i], DiscontinuitySequenceSel)
      invariant dateRanges == Collect(tags[..i], RangeSel)
      invariant defines == Collect(tags[..i], DefineSel)
    {
      PickStep(tags, i, TargetDurationSel);
      HasStep(tags, i, IsEndlist);
      PickStep(tags, i, PlaylistTypeSel);
      HasStep(tags, i, IsIndependentSegments);
      PickStep(tags, i, MediaSequenceSel);
      PickStep(tags, i, DiscontinuitySequenceSel);
      CollectStep(tags, i, RangeSel);
      CollectStep(tags, i, DefineSel);
      var t := tags[i];
      if t.TargetDuration? {
        targetDuration := Some(t.n);
      }
      if t.Endlist? {
        endlist := true;
      }
      if t.PlaylistTypeTag? {
        playlistType := Some(t.playlistType);
      }
      if t.IndependentSegments? {
        independentSegments := true;
      }
      if t.MediaSequence? {
        mediaSequenceBase := Some(t.n);
      }
      if t.DiscontinuitySequence? {
        discontinuitySequenceBase := Some(t.n);
      }
      if t.DateRangeTag? {
        dateRanges := dateRanges + [t.dateRange];
      }
      if t.DefineTag? {
        defines := defines + [t.define];
      }
      i := i + 1;
    }
    assert tags[..i] == tags;
    h := Header(targetDuration, endlist, playlistType, independentSegments, mediaSequenceBase,
                discontinuitySequenceBase, dateRanges, [], defines);
  }

  /** The second loop of `parseMediaPlaylist`: open a span at a segment tag,
      close it at the next literal and parse it. */
  method GroupSegments(tags: seq<Tag>) returns (r: Result<seq<Segment>>)
    ensures Agrees(r, SegmentsOf(tags, Spans(tags), SegmentOf))
  {
    var segments: seq<Segment> := [];
    var segmentStart: Option<nat> := None;
    ghost var spans: seq<(nat, nat)> := [];
    GroupedStart(tags, SegmentOf);
    var i := 0;
    while i < |tags|
      invariant Grouped(tags, i, spans, segmentStart, segments, SegmentOf)
    {
      if segmentStart.Some? && tags[i].Literal? {
        var segment := ParseSegment(tags[segmentStart.value..i + 1]);
        if segment.Err? {
          GroupedFails(tags, i, spans, segmentStart.value, segments, SegmentOf);
          return Err(segment.msg);
        }
        GroupedClose(tags, i, spans, segmentStart.value, segments, SegmentOf, segment.value);
        spans := spans + [(segmentStart.value, i)];
        segments := segments + [segment.value];
        segmentStart := None;
      } else {
        GroupedSkip(tags, i, spans, segmentStart, segments, SegmentOf);
        if segmentStart.None? && IsSegmentTag(tags[i]) {
          segmentStart := Some(i);
        }
      }
      i := i + 1;
    }
    GroupedEnd(tags, spans, segmentStart, segments, SegmentOf);
    r := Ok(segments);
  }

  /** The loops of `parseMediaPlaylist` over the tags, then the normalization
      and the target-duration check. */
  method ParseMediaTags(tags: seq<Tag>) returns (r: Result<MediaPlaylistValue>)
    ensures Agrees(r, MediaOf(tags))
  {
    var h := ScanHeader(tags);
    var segments := GroupSegments(tags);
    if segments.Err? {
      return Err(segments.msg);
    }
    var a := new Segment[|segments.value|](i requires 0 <= i < |segments.value| => segments.value[i]);
    assert a[..] == segments.value;
    NormalizeSegments(a);
    if !TruthyOpt(h.targetDuration) {
      return Err("no target duration");
    }
    r := Ok(MediaPlaylistValue(h.independentSegments, h.targetDuration.value, h.endlist, h.playlistType,
                               a[..], h.mediaSequenceBase, h.discontinuitySequenceBase, h.dateRanges,
                               h.defines));
  }

  /** `parseMediaPlaylist`: lex, then parse the tags. */
  method ParseMediaPlaylist(text: string, env: Env) returns (r: Result<MediaPlaylistValue>)
    ensures Lex(text, env).Err? ==> r.Err?
    ensures Lex(text, env).Ok? ==> Agrees(r, MediaOf(Lex(text, env).value))
  {
    var tags := LexicalParse(text, env);
    if tags.Err? {
      return Err(tags.msg);
    }
    r := ParseMediaTags(tags.value);
  }

  /** A media playlist needs a truthy target duration, the last one given;
      `endlist` holds exactly when an `EXT-X-ENDLIST` tag occurs; every
      date-range of the tag list reaches the playlist, in order; and the
      playlist has one segment per span, each the normalized parse of its
      span. */
  lemma MediaFields(tags: seq<Tag>)
    requires MediaOf(tags).Ok?
    ensures var p := MediaOf(tags).value;
            TruthyOpt(Pick(tags, TargetDurationSel)) && p.targetDuration == Pick(tags, TargetDurationSel).value
            && (p.endlist <==> exists i :: 0 <= i < |tags| && tags[i].Endlist?)
            && (p.independentSegments <==> exists i :: 0 <= i < |tags| && tags[i].IndependentSegments?)
            && p.dateRanges == Collect(tags, RangeSel)
            && |p.dateRanges| == |Collect(tags, UnsplicedSel)| + |Collect(tags, SplicedSel)|
            && |p.segments| == |Spans(tags)| <= |Collect(tags, LiteralSel)|
            && AllParse(tags, Spans(tags), SegmentOf)
            && p.segments == Normalized(Parses(tags, Spans(tags), SegmentOf))
  {
    HasIsExists(tags, IsEndlist);
    HasIsExists(tags, IsIndependentSegments);
    DateRangesSplit(tags);
    SegmentsAreParses(tags, Spans(tags), SegmentOf);
    SpansAtMostLiterals(tags);
  }
}
