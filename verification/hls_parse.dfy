/** The playlist parser of `src/parser/hls/parse.ts`: the tag list of the lexer
    becomes a main or a media playlist. Segments are the spans that run from a
    segment tag to the next literal; maps and keys are carried forward to the
    segments that do not set their own. */
module HlsParse {
  import opened Wrappers
  import opened Values
  import opened HlsTypes
  import opened Lexer

  // ---------------------------------------------------------------------------
  // Selecting tags

  /** The value `sel` picks from the last tag it picks anything from: what a
      loop that assigns a variable on every matching tag leaves behind. */
  function Pick<T>(tags: seq<Tag>, sel: Tag -> Option<T>): Option<T> {
    if tags == [] then None
    else if sel(tags[|tags| - 1]).Some? then sel(tags[|tags| - 1])
    else Pick(tags[..|tags| - 1], sel)
  }

  /** `Pick` gives the selection of a tag after which no tag is selected, and
      nothing exactly when no tag is selected. */
  lemma {:induction false} PickIsLast<T>(tags: seq<Tag>, sel: Tag -> Option<T>)
    ensures Pick(tags, sel).None? <==> forall i :: 0 <= i < |tags| ==> sel(tags[i]).None?
    ensures Pick(tags, sel).Some? ==>
              exists i :: 0 <= i < |tags| && sel(tags[i]) == Pick(tags, sel)
                          && forall j :: i < j < |tags| ==> sel(tags[j]).None?
  {
    if tags != [] {
      var init := tags[..|tags| - 1];
      PickIsLast(init, sel);
      if sel(tags[|tags| - 1]).None? && Pick(init, sel).Some? {
        var i :| 0 <= i < |init| && sel(init[i]) == Pick(init, sel)
                 && forall j :: i < j < |init| ==> sel(init[j]).None?;
        assert sel(tags[i]) == Pick(tags, sel);
      }
    }
  }

  /** Whether some tag satisfies `p`. */
  predicate Has(tags: seq<Tag>, p: Tag -> bool) {
    tags != [] && (p(tags[|tags| - 1]) || Has(tags[..|tags| - 1], p))
  }

  lemma {:induction false} HasIsExists(tags: seq<Tag>, p: Tag -> bool)
    ensures Has(tags, p) <==> exists i :: 0 <= i < |tags| && p(tags[i])
  {
    if tags != [] {
      var init := tags[..|tags| - 1];
      HasIsExists(init, p);
      if exists i :: 0 <= i < |tags| && p(tags[i]) {
        var i :| 0 <= i < |tags| && p(tags[i]);
        if i < |init| {
          assert p(init[i]);
        }
      }
    }
  }

  /** The selections of all selected tags, in tag order: what a loop that
      pushes on every matching tag builds. */
  function Collect<T>(tags: seq<Tag>, sel: Tag -> Option<T>): (r: seq<T>)
    ensures |r| <= |tags|
  {
    if tags == [] then []
    else
      var t := tags[|tags| - 1];
      Collect(tags[..|tags| - 1], sel) + (if sel(t).Some? then [sel(t).value] else [])
  }

  /** Collecting keeps tag order: the selections of a concatenation are the
      selections of each part, one after the other. */
  lemma {:induction false} CollectAppend<T>(a: seq<Tag>, b: seq<Tag>, sel: Tag -> Option<T>)
    ensures Collect(a + b, sel) == Collect(a, sel) + Collect(b, sel)
    decreases |b|
  {
    if b == [] {
      assert a + b == a;
    } else {
      var b' := b[..|b| - 1];
      assert (a + b)[..|a + b| - 1] == a + b';
      assert (a + b)[|a + b| - 1] == b[|b| - 1];
      CollectAppend(a, b', sel);
    }
  }

  /** Every collected value is the selection of some tag. */
  lemma {:induction false} CollectMembers<T>(tags: seq<Tag>, sel: Tag -> Option<T>)
    ensures forall k :: 0 <= k < |Collect(tags, sel)| ==>
              exists i :: 0 <= i < |tags| && sel(tags[i]) == Some(Collect(tags, sel)[k])
  {
    if tags != [] {
      var init := tags[..|tags| - 1];
      CollectMembers(init, sel);
      var c := Collect(tags, sel);
      var last := tags[|tags| - 1];
      assert c == Collect(init, sel) + (if sel(last).Some? then [sel(last).value] else []);
      forall k | 0 <= k < |c| ensures exists i :: 0 <= i < |tags| && sel(tags[i]) == Some(c[k]) {
        if k < |Collect(init, sel)| {
          var i :| 0 <= i < |init| && sel(init[i]) == Some(Collect(init, sel)[k]);
          assert tags[i] == init[i];
          assert c[k] == Collect(init, sel)[k];
          assert sel(tags[i]) == Some(c[k]);
        } else {
          assert sel(last).Some? && c[k] == sel(last).value;
          assert sel(tags[|tags| - 1]) == Some(c[k]);
        }
      }
      assert c == Collect(tags, sel);
    } else {
      assert Collect(tags, sel) == [];
    }
  }

  // One more tag: the steps of the loops that compute `Pick`, `Has` and `Collect`.

  lemma PickStep<T>(tags: seq<Tag>, i: nat, sel: Tag -> Option<T>)
    requires i < |tags|
    ensures Pick(tags[..i + 1], sel) == if sel(tags[i]).Some? then sel(tags[i]) else Pick(tags[..i], sel)
  {
    assert tags[..i + 1][..i] == tags[..i];
  }

  lemma HasStep(tags: seq<Tag>, i: nat, p: Tag -> bool)
    requires i < |tags|
    ensures Has(tags[..i + 1], p) == (p(tags[i]) || Has(tags[..i], p))
  {
    assert tags[..i + 1][..i] == tags[..i];
  }

  lemma CollectStep<T>(tags: seq<Tag>, i: nat, sel: Tag -> Option<T>)
    requires i < |tags|
    ensures Collect(tags[..i + 1], sel) == Collect(tags[..i], sel) + if sel(tags[i]).Some? then [sel(tags[i]).value] else []
  {
    assert tags[..i + 1][..i] == tags[..i];
  }

  // The selectors of the parsers' loops.

  function TargetDurationSel(t: Tag): Option<Num> { if t.TargetDuration? then Some(t.n) else None }
  function MediaSequenceSel(t: Tag): Option<Num> { if t.MediaSequence? then Some(t.n) else None }
  function DiscontinuitySequenceSel(t: Tag): Option<Num> { if t.DiscontinuitySequence? then Some(t.n) else None }
  function PlaylistTypeSel(t: Tag): Option<PlaylistType> { if t.PlaylistTypeTag? then Some(t.playlistType) else None }
  function DurationSel(t: Tag): Option<Num> { if t.ExtInf? then Some(t.duration) else None }
  function DateTimeSel(t: Tag): Option<DateTime> { if t.ProgramDateTime? then Some(t.dateTime) else None }
  function CueOutSel(t: Tag): Option<Num> { if t.CueOut? then Some(t.duration) else None }
  function MapSel(t: Tag): Option<HLSMap> { if t.MapTag? then Some(t.hlsMap) else None }
  function KeySel(t: Tag): Option<HLSKey> { if t.KeyTag? then Some(t.key) else None }
  function LiteralSel(t: Tag): Option<string> { if t.Literal? then Some(t.text) else None }
  function MediaSel(t: Tag): Option<Media> { if t.MediaTag? then Some(t.media) else None }
  function DefineSel(t: Tag): Option<Define> { if t.DefineTag? then Some(t.define) else None }
  function RangeSel(t: Tag): Option<DateRange> { if t.DateRangeTag? then Some(t.dateRange) else None }

  /** Date-ranges whose `SCTE35` is set: kept aside to match segments. */
  function SplicedSel(t: Tag): Option<DateRange> {
    if t.DateRangeTag? && NonEmpty(t.dateRange.scte35) then Some(t.dateRange) else None
  }

  /** The other date-ranges: the playlist's own. */
  function UnsplicedSel(t: Tag): Option<DateRange> {
    if t.DateRangeTag? && !NonEmpty(t.dateRange.scte35) then Some(t.dateRange) else None
  }

  predicate IsIndependentSegments(t: Tag) { t.IndependentSegments? }
  predicate IsEndlist(t: Tag) { t.Endlist? }
  predicate IsDiscontinuity(t: Tag) { t.Discontinuity? }

  /** Date-ranges with `SCTE35` set never reach the playlist's own list, and
      every date-range goes to exactly one of the two lists. */
  lemma {:induction false} DateRangesSplit(tags: seq<Tag>)
    ensures forall k :: 0 <= k < |Collect(tags, UnsplicedSel)| ==> !NonEmpty(Collect(tags, UnsplicedSel)[k].scte35)
    ensures forall k :: 0 <= k < |Collect(tags, SplicedSel)| ==> NonEmpty(Collect(tags, SplicedSel)[k].scte35)
    ensures |Collect(tags, UnsplicedSel)| + |Collect(tags, SplicedSel)| == |Collect(tags, RangeSel)|
  {
    if tags != [] {
      DateRangesSplit(tags[..|tags| - 1]);
    }
  }

  // ---------------------------------------------------------------------------
  // isSegmentTag and segment spans

  /** `isSegmentTag`: the tags that belong to a media segment. */
  predicate IsSegmentTag(t: Tag) {
    t.ExtInf? || t.Discontinuity? || t.ProgramDateTime? || t.MapTag? || t.CueOut? || t.CueIn? || t.KeyTag?
  }

  /** The grouping pass over a tag list: the closed spans `(start, end)` found
      so far, and the start of the span still open. */
  function Scan(tags: seq<Tag>): (seq<(nat, nat)>, Option<nat>) {
    if tags == [] then ([], None)
    else
      var (spans, open) := Scan(tags[..|tags| - 1]);
      var index: nat := |tags| - 1;
      if open.None? then
        (spans, if IsSegmentTag(tags[index]) then Some(index) else None)
      else if tags[index].Literal? then
        (spans + [(open.value, index)], None)
      else
        (spans, open)
  }

  /** The spans of `parseMediaPlaylist`'s grouping loop, one per segment. */
  function Spans(tags: seq<Tag>): (r: seq<(nat, nat)>)
    ensures SpansIn(r, |tags|)
  {
    ScanIn(tags);
    Scan(tags).0
  }

  /** The spans lie within `n` tags. */
  predicate SpansIn(spans: seq<(nat, nat)>, n: nat) {
    forall k :: 0 <= k < |spans| ==> spans[k].0 <= spans[k].1 < n
  }

  lemma {:induction false} ScanIn(tags: seq<Tag>)
    ensures SpansIn(Scan(tags).0, |tags|)
    ensures Scan(tags).1.Some? ==> Scan(tags).1.value < |tags|
  {
    if tags != [] {
      ScanIn(tags[..|tags| - 1]);
    }
  }

  /** No tag in `tags[lo..hi]` is a segment tag. */
  predicate NoSegmentTagIn(tags: seq<Tag>, lo: nat, hi: nat)
    requires hi <= |tags|
  {
    forall j :: lo <= j < hi ==> !IsSegmentTag(tags[j])
  }

  /** No tag in `tags[lo..hi]` is a literal. */
  predicate NoLiteralIn(tags: seq<Tag>, lo: nat, hi: nat)
    requires hi <= |tags|
  {
    forall j :: lo <= j < hi ==> !tags[j].Literal?
  }

  /** Where the search for the `k`-th span starts: after the previous span. */
  function GapStart(spans: seq<(nat, nat)>, k: nat): nat
    requires k <= |spans|
  {
    if k == 0 then 0 else spans[k - 1].1 + 1
  }

  /** The `k`-th span starts at the first segment tag after the previous span
      and ends at the first literal after its start. */
  predicate SpanOk(tags: seq<Tag>, spans: seq<(nat, nat)>, k: nat)
    requires k < |spans| && SpansIn(spans, |tags|)
  {
    GapStart(spans, k) <= spans[k].0 && NoSegmentTagIn(tags, GapStart(spans, k), spans[k].0)
    && IsSegmentTag(tags[spans[k].0])
    && NoLiteralIn(tags, spans[k].0, spans[k].1) && tags[spans[k].1].Literal?
  }

  /** Every closed span is as the grouping loop finds it. */
  predicate ClosedOk(tags: seq<Tag>, spans: seq<(nat, nat)>) {
    SpansIn(spans, |tags|) && GapStart(spans, |spans|) <= |tags|
    && forall k :: 0 <= k < |spans| ==> SpanOk(tags, spans, k)
  }

  /** After the last closed span either a span is open (it starts at the first
      segment tag after the last span and no literal follows it), or no segment
      tag follows. */
  predicate OpenOk(tags: seq<Tag>, spans: seq<(nat, nat)>, open: Option<nat>)
    requires GapStart(spans, |spans|) <= |tags|
  {
    var g := GapStart(spans, |spans|);
    if open.Some? then
      g <= open.value < |tags| && NoSegmentTagIn(tags, g, open.value)
      && IsSegmentTag(tags[open.value]) && NoLiteralIn(tags, open.value, |tags|)
    else
      NoSegmentTagIn(tags, g, |tags|)
  }

  predicate SpansShape(tags: seq<Tag>, spans: seq<(nat, nat)>, open: Option<nat>) {
    ClosedOk(tags, spans) && OpenOk(tags, spans, open)
  }

  lemma NoSegmentTagGrows(tags: seq<Tag>, n: nat, lo: nat, hi: nat)
    requires hi <= n <= |tags| && NoSegmentTagIn(tags[..n], lo, hi)
    ensures NoSegmentTagIn(tags, lo, hi)
  {
    assert forall j :: lo <= j < hi ==> tags[..n][j] == tags[j];
  }

  lemma NoLiteralGrows(tags: seq<Tag>, n: nat, lo: nat, hi: nat)
    requires hi <= n <= |tags| && NoLiteralIn(tags[..n], lo, hi)
    ensures NoLiteralIn(tags, lo, hi)
  {
    assert forall j :: lo <= j < hi ==> tags[..n][j] == tags[j];
  }

  /** Closed spans stay as they are when more tags follow. */
  lemma ClosedGrows(tags: seq<Tag>, n: nat, spans: seq<(nat, nat)>)
    requires n <= |tags| && ClosedOk(tags[..n], spans)
    ensures ClosedOk(tags, spans)
  {
    forall k | 0 <= k < |spans| ensures SpanOk(tags, spans, k) {
      assert SpanOk(tags[..n], spans, k);
      NoSegmentTagGrows(tags, n, GapStart(spans, k), spans[k].0);
      NoLiteralGrows(tags, n, spans[k].0, spans[k].1);
    }
  }

  /** Closing the open span at a literal adds a closed span as the loop finds it. */
  lemma CloseSpan(tags: seq<Tag>, spans: seq<(nat, nat)>, start: nat)
    requires |tags| > 0 && tags[|tags| - 1].Literal?
    requires ClosedOk(tags[..|tags| - 1], spans) && OpenOk(tags[..|tags| - 1], spans, Some(start))
    ensures SpansShape(tags, spans + [(start, |tags| - 1)], None)
  {
    var n := |tags| - 1;
    var spans' := spans + [(start, n)];
    ClosedGrows(tags, n, spans);
    NoSegmentTagGrows(tags, n, GapStart(spans, |spans|), start);
    NoLiteralGrows(tags, n, start, n);
    assert forall k :: 0 <= k <= |spans| ==> GapStart(spans', k) == GapStart(spans, k);
    forall k | 0 <= k < |spans'| ensures SpanOk(tags, spans', k) {
      if k < |spans| {
        assert spans'[k] == spans[k];
        assert SpanOk(tags, spans, k);
      }
    }
  }

  /** The grouping pass finds exactly the spans that run from the first segment
      tag after the previous span to the next literal. */
  lemma {:induction false} ScanShape(tags: seq<Tag>)
    ensures SpansShape(tags, Scan(tags).0, Scan(tags).1)
  {
    if tags != [] {
      var n := |tags| - 1;
      var init := tags[..n];
      ScanShape(init);
      var (spans, open) := Scan(init);
      var g := GapStart(spans, |spans|);
      if open.Some? && tags[n].Literal? {
        CloseSpan(tags, spans, open.value);
      } else {
        ClosedGrows(tags, n, spans);
        if open.Some? {
          NoSegmentTagGrows(tags, n, g, open.value);
          NoLiteralGrows(tags, n, open.value, n);
        } else {
          NoSegmentTagGrows(tags, n, g, n);
        }
      }
    }
  }

  /** A literal outside every open span produces no segment: there are at most
      as many segments as literals. */
  lemma {:induction false} SpansAtMostLiterals(tags: seq<Tag>)
    ensures |Spans(tags)| <= |Collect(tags, LiteralSel)|
    ensures Scan(tags).1.Some? ==> |Spans(tags)| < |tags|
  {
    if tags != [] {
      SpansAtMostLiterals(tags[..|tags| - 1]);
    }
  }

  // ---------------------------------------------------------------------------
  // parseSegment

  /** The first date-range starting at `dateTime`: `Array.prototype.find`. */
  function FindByStart(ranges: seq<DateRange>, dateTime: DateTime): (r: Option<nat>)
    ensures r.Some? ==> r.value < |ranges| && ranges[r.value].startDate == dateTime
                        && forall j :: 0 <= j < r.value ==> ranges[j].startDate != dateTime
    ensures r.None? ==> forall j :: 0 <= j < |ranges| ==> ranges[j].startDate != dateTime
  {
    if ranges == [] then None
    else if ranges[0].startDate == dateTime then Some(0)
    else
      var rest := FindByStart(ranges[1..], dateTime);
      if rest.Some? then Some(rest.value + 1) else None
  }

  /** The splice information of a segment: its `EXT-X-CUE-OUT` if it has one;
      otherwise, when it has a program date-time, the first spliced date-range
      starting at that instant, if its `SCTE35` is set. */
  function SpliceOf(cueOut: Option<Num>, dateTime: Option<DateTime>, spliced: seq<DateRange>): Option<SpliceInfo> {
    if cueOut.Some? then Some(SpliceOut(Some(cueOut.value)))
    else if dateTime.None? then None
    else
      var found := FindByStart(spliced, dateTime.value);
      if found.Some? && NonEmpty(spliced[found.value].scte35) then Some(SpliceOut(spliced[found.value].duration))
      else None
  }

  /** The segment a span describes. Within the span the last occurrence of each
      tag wins; a span without a uri or without a truthy duration is an error. */
  function SegmentOf(tags: seq<Tag>, spliced: seq<DateRange>): Result<Segment> {
    var uri := Pick(tags, LiteralSel);
    var duration := Pick(tags, DurationSel);
    var dateTime := Pick(tags, DateTimeSel);
    if !NonEmpty(uri) then Err("parseSegment: uri not found")
    else if !TruthyOpt(duration) then Err("parseSegment: duration not found")
    else Ok(Segment(uri.value, duration.value,
                    if Has(tags, IsDiscontinuity) then Some(true) else None,
                    Pick(tags, MapSel), Pick(tags, KeySel), dateTime,
                    SpliceOf(Pick(tags, CueOutSel), dateTime, spliced)))
  }

  /** `parseSegment`: one pass over the span's tags. */
  method ParseSegment(tags: seq<Tag>, spliced: seq<DateRange>) returns (r: Result<Segment>)
    ensures Agrees(r, SegmentOf(tags, spliced))
  {
    var duration: Option<Num> := None;
    var discontinuity: Option<bool> := None;
    var dateTime: Option<DateTime> := None;
    var cueOut: Option<Num> := None;
    var uri: Option<string> := None;
    var initMap: Option<HLSMap> := None;
    var key: Option<HLSKey> := None;
    var i := 0;
    while i < |tags|
      invariant 0 <= i <= |tags|
      invariant duration == Pick(tags[..i], DurationSel)
      invariant discontinuity == if Has(tags[..i], IsDiscontinuity) then Some(true) else None
      invariant dateTime == Pick(tags[..i], DateTimeSel)
      invariant cueOut == Pick(tags[..i], CueOutSel)
      invariant uri == Pick(tags[..i], LiteralSel)
      invariant initMap == Pick(tags[..i], MapSel)
      invariant key == Pick(tags[..i], KeySel)
    {
      assert tags[..i + 1][..i] == tags[..i];
      var t := tags[i];
      if t.ExtInf? {
        duration := Some(t.duration);
      }
      if t.Discontinuity? {
        discontinuity := Some(true);
      }
      if t.ProgramDateTime? {
        dateTime := Some(t.dateTime);
      }
      if t.CueOut? {
        cueOut := Some(t.duration);
      }
      if t.MapTag? {
        initMap := Some(t.hlsMap);
      }
      if t.KeyTag? {
        key := Some(t.key);
      }
      if t.Literal? {
        uri := Some(t.text);
      }
      i := i + 1;
    }
    assert tags[..i] == tags;
    var spliceInfo: Option<SpliceInfo> := if cueOut.Some? then Some(SpliceOut(Some(cueOut.value))) else None;
    if spliceInfo.None? && dateTime.Some? {
      var found := FindByStart(spliced, dateTime.value);
      if found.Some? && NonEmpty(spliced[found.value].scte35) {
        spliceInfo := Some(SpliceOut(spliced[found.value].duration));
      }
    }
    if !NonEmpty(uri) {
      return Err("parseSegment: uri not found");
    }
    if !TruthyOpt(duration) {
      return Err("parseSegment: duration not found");
    }
    r := Ok(Segment(uri.value, duration.value, discontinuity, initMap, key, dateTime, spliceInfo));
  }

  /** `parseSegment` with the spliced date-ranges of the playlist at hand. */
  function SegmentParser(spliced: seq<DateRange>): seq<Tag> -> Result<Segment> {
    ts => SegmentOf(ts, spliced)
  }

  /** The segments of the spans, in order; the first failing span fails all. */
  function SegmentsOf(tags: seq<Tag>, spans: seq<(nat, nat)>, parse: seq<Tag> -> Result<Segment>): Result<seq<Segment>>
    requires SpansIn(spans, |tags|)
  {
    if spans == [] then Ok([])
    else
      var prev := SegmentsOf(tags, spans[..|spans| - 1], parse);
      var (start, end) := spans[|spans| - 1];
      var segment := parse(tags[start..end + 1]);
      if prev.Err? then prev
      else if segment.Err? then Err(segment.msg)
      else Ok(prev.value + [segment.value])
  }

  lemma {:induction false} SegmentsOfErrStays(tags: seq<Tag>, spans: seq<(nat, nat)>, parse: seq<Tag> -> Result<Segment>, k: nat)
    requires SpansIn(spans, |tags|) && k <= |spans| && SegmentsOf(tags, spans[..k], parse).Err?
    ensures SegmentsOf(tags, spans, parse).Err?
    decreases |spans|
  {
    if k < |spans| {
      assert spans[..|spans| - 1][..k] == spans[..k];
      SegmentsOfErrStays(tags, spans[..|spans| - 1], parse, k);
    } else {
      assert spans[..k] == spans;
    }
  }

  /** One segment per span. */
  lemma {:induction false} SegmentsPerSpan(tags: seq<Tag>, spans: seq<(nat, nat)>, parse: seq<Tag> -> Result<Segment>)
    requires SpansIn(spans, |tags|) && SegmentsOf(tags, spans, parse).Ok?
    ensures var segs := SegmentsOf(tags, spans, parse).value;
            |segs| == |spans|
            && forall k :: 0 <= k < |spans| ==> parse(tags[spans[k].0..spans[k].1 + 1]) == Ok(segs[k])
  {
    if spans != [] {
      SegmentsPerSpan(tags, spans[..|spans| - 1], parse);
    }
  }

  /** The tags of span `k`. */
  function SpanTags(tags: seq<Tag>, spans: seq<(nat, nat)>, k: nat): seq<Tag>
    requires SpansIn(spans, |tags|) && k < |spans|
  {
    tags[spans[k].0..spans[k].1 + 1]
  }

  /** Every span parses. */
  predicate AllParse(tags: seq<Tag>, spans: seq<(nat, nat)>, parse: seq<Tag> -> Result<Segment>)
    requires SpansIn(spans, |tags|)
  {
    forall k :: 0 <= k < |spans| ==> parse(SpanTags(tags, spans, k)).Ok?
  }

  /** The parse of each span, in span order. */
  function Parses(tags: seq<Tag>, spans: seq<(nat, nat)>, parse: seq<Tag> -> Result<Segment>): (segs: seq<Segment>)
    requires SpansIn(spans, |tags|) && AllParse(tags, spans, parse)
    ensures |segs| == |spans|
  {
    seq(|spans|, k requires 0 <= k < |spans| => parse(SpanTags(tags, spans, k)).value)
  }

  /** The segments are the parses of the spans, each on its own. */
  lemma SegmentsAreParses(tags: seq<Tag>, spans: seq<(nat, nat)>, parse: seq<Tag> -> Result<Segment>)
    requires SpansIn(spans, |tags|) && SegmentsOf(tags, spans, parse).Ok?
    ensures AllParse(tags, spans, parse)
    ensures SegmentsOf(tags, spans, parse).value == Parses(tags, spans, parse)
  {
    SegmentsPerSpan(tags, spans, parse);
    var segs := SegmentsOf(tags, spans, parse).value;
    forall k | 0 <= k < |spans| ensures parse(SpanTags(tags, spans, k)) == Ok(segs[k]) {
      assert SpanTags(tags, spans, k) == tags[spans[k].0..spans[k].1 + 1];
    }
  }

  // ---------------------------------------------------------------------------
  // normalizeSegments

  /** The map of the last segment of `segs` that has one. */
  function LastMap(segs: seq<Segment>): Option<HLSMap> {
    if segs == [] then None
    else if segs[|segs| - 1].initMap.Some? then segs[|segs| - 1].initMap
    else LastMap(segs[..|segs| - 1])
  }

  /** The key of the last segment of `segs` that has one. */
  function LastKey(segs: seq<Segment>): Option<HLSKey> {
    if segs == [] then None
    else if segs[|segs| - 1].key.Some? then segs[|segs| - 1].key
    else LastKey(segs[..|segs| - 1])
  }

  /** A segment after normalization, given the maps and keys before it. */
  function Inherit(s: Segment, before: seq<Segment>): Segment {
    s.(initMap := if s.initMap.Some? then s.initMap else LastMap(before),
       key := if s.key.Some? then s.key else LastKey(before))
  }

  /** Section 4.3.2.5 of RFC 8216: a map or key applies to every later segment
      until the next one. Each segment without its own map (key) gets the most
      recent explicit one before it. */
  function Normalized(segs: seq<Segment>): (r: seq<Segment>)
    ensures |r| == |segs|
    ensures forall i :: 0 <= i < |segs| ==> r[i] == Inherit(segs[i], segs[..i])
  {
    seq(|segs|, i requires 0 <= i < |segs| => Inherit(segs[i], segs[..i]))
  }

  /** One more segment: the remembered map (key) moves on to its own when it
      has one. */
  lemma NormalizeStep(segs: seq<Segment>, i: nat)
    requires i < |segs|
    ensures LastMap(segs[..i + 1]) == if segs[i].initMap.Some? then segs[i].initMap else LastMap(segs[..i])
    ensures LastKey(segs[..i + 1]) == if segs[i].key.Some? then segs[i].key else LastKey(segs[..i])
  {
    assert segs[..i + 1][..i] == segs[..i];
  }

  /** `normalizeSegments`: one pass that remembers the last map and key and
      assigns them to the segments that lack one. */
  method NormalizeSegments(a: array<Segment>)
    modifies a
    ensures a[..] == Normalized(old(a[..]))
  {
    ghost var segs := a[..];
    var lastMap: Option<HLSMap> := None;
    var lastKey: Option<HLSKey> := None;
    for i := 0 to a.Length
      invariant a[i..] == segs[i..]
      invariant forall k :: 0 <= k < i ==> a[k] == Inherit(segs[k], segs[..k])
      invariant lastMap == LastMap(segs[..i])
      invariant lastKey == LastKey(segs[..i])
    {
      assert a[i] == segs[i];
      NormalizeStep(segs, i);
      var segment := a[i];
      if segment.initMap.None? && lastMap.Some? {
        segment := segment.(initMap := lastMap);
      } else {
        lastMap := segment.initMap;
      }
      if segment.key.None? && lastKey.Some? {
        segment := segment.(key := lastKey);
      } else {
        lastKey := segment.key;
      }
      a[i] := segment;
    }
    assert a[..] == Normalized(segs);
  }

  /** A map (key) set explicitly on a segment is kept. */
  lemma NormalizedKeepsExplicit(segs: seq<Segment>, i: nat)
    requires i < |segs|
    ensures segs[i].initMap.Some? ==> Normalized(segs)[i].initMap == segs[i].initMap
    ensures segs[i].key.Some? ==> Normalized(segs)[i].key == segs[i].key
    ensures Normalized(segs)[i].(initMap := segs[i].initMap, key := segs[i].key) == segs[i]
  {
  }

  lemma {:induction false} LastMapIsSome(segs: seq<Segment>)
    ensures LastMap(segs).Some? <==> exists j :: 0 <= j < |segs| && segs[j].initMap.Some?
    ensures LastKey(segs).Some? <==> exists j :: 0 <= j < |segs| && segs[j].key.Some?
  {
    if segs != [] {
      var init := segs[..|segs| - 1];
      LastMapIsSome(init);
      assert forall j :: 0 <= j < |init| ==> init[j] == segs[j];
    }
  }

  /** Once a map (key) has appeared, every later segment has one. */
  lemma NormalizedOnceSet(segs: seq<Segment>, j: nat, i: nat)
    requires j <= i < |segs|
    ensures segs[j].initMap.Some? ==> Normalized(segs)[i].initMap.Some?
    ensures segs[j].key.Some? ==> Normalized(segs)[i].key.Some?
  {
    LastMapIsSome(segs[..i]);
    if j < i {
      assert segs[..i][j] == segs[j];
    }
  }

  lemma {:induction false} LastOfNormalized(segs: seq<Segment>, i: nat)
    requires i <= |segs|
    ensures LastMap(Normalized(segs)[..i]) == LastMap(segs[..i])
    ensures LastKey(Normalized(segs)[..i]) == LastKey(segs[..i])
  {
    if i > 0 {
      LastOfNormalized(segs, i - 1);
      var r := Normalized(segs);
      assert r[..i][..i - 1] == r[..i - 1];
      assert segs[..i][..i - 1] == segs[..i - 1];
    }
  }

  /** Normalizing twice is normalizing once. */
  lemma NormalizedIdempotent(segs: seq<Segment>)
    ensures Normalized(Normalized(segs)) == Normalized(segs)
  {
    var r := Normalized(segs);
    forall i | 0 <= i < |segs| ensures Normalized(r)[i] == r[i] {
      LastOfNormalized(segs, i);
    }
  }

  // ---------------------------------------------------------------------------
  // parseMainPlaylist

  function VariantOf(s: StreamInf, uri: string): Variant {
    Variant(uri, s.bandwidth, s.codecs, s.resolution, s.audio, s.subtitles)
  }

  /** Every `EXT-X-STREAM-INF` among the first `k` tags is followed by a literal. */
  predicate Paired(tags: seq<Tag>, k: nat)
    requires k <= |tags|
  {
    forall i :: 0 <= i < k && tags[i].StreamInfTag? ==> NextLiteral(tags, i).Ok?
  }

  /** The variants of the first `k` tags: one per `EXT-X-STREAM-INF`, with the
      uri of the literal after it. */
  function VariantsUpTo(tags: seq<Tag>, k: nat): (r: seq<Variant>)
    requires k <= |tags| && Paired(tags, k)
  {
    if k == 0 then []
    else
      VariantsUpTo(tags, k - 1)
      + (if tags[k - 1].StreamInfTag? then [VariantOf(tags[k - 1].streamInf, tags[k].text)] else [])
  }

  /** The positions of the `EXT-X-STREAM-INF` tags among the first `k`. */
  function StreamInfPositions(tags: seq<Tag>, k: nat): (r: seq<nat>)
    requires k <= |tags|
    ensures forall j :: 0 <= j < |r| ==> r[j] < k && tags[r[j]].StreamInfTag?
  {
    if k == 0 then []
    else StreamInfPositions(tags, k - 1) + (if tags[k - 1].StreamInfTag? then [k - 1] else [])
  }

  /** The `j`-th variant comes from the `j`-th `EXT-X-STREAM-INF`, and its uri is
      the literal immediately after that tag. */
  lemma {:induction false} VariantsPairStreamInfs(tags: seq<Tag>, k: nat)
    requires k <= |tags| && Paired(tags, k)
    ensures var v := VariantsUpTo(tags, k);
            var p := StreamInfPositions(tags, k);
            |v| == |p|
            && forall j :: 0 <= j < |v| ==>
                 p[j] + 1 < |tags| && tags[p[j] + 1].Literal?
                 && v[j] == VariantOf(tags[p[j]].streamInf, tags[p[j] + 1].text)
  {
    if k > 0 {
      VariantsPairStreamInfs(tags, k - 1);
    }
  }

  /** What `parseMainPlaylist` makes of a tag list. */
  function MainOf(tags: seq<Tag>): Result<MainPlaylistValue> {
    if !Paired(tags, |tags|) then Err("Expecting next tag to be a literal")
    else Ok(MainPlaylistValue(Has(tags, IsIndependentSegments), VariantsUpTo(tags, |tags|),
                              Collect(tags, MediaSel), Collect(tags, DefineSel), None))
  }

  /** The loop of `parseMainPlaylist` over the tags. */
  method ParseMainTags(tags: seq<Tag>) returns (r: Result<MainPlaylistValue>)
    ensures Agrees(r, MainOf(tags))
  {
    var independentSegments := false;
    var variants: seq<Variant> := [];
    var medias: seq<Media> := [];
    var defines: seq<Define> := [];
    var i := 0;
    while i < |tags|
      invariant 0 <= i <= |tags|
      invariant Paired(tags, i)
      invariant independentSegments == Has(tags[..i], IsIndependentSegments)
      invariant variants == VariantsUpTo(tags, i)
      invariant medias == Collect(tags[..i], MediaSel)
      invariant defines == Collect(tags[..i], DefineSel)
    {
      assert tags[..i + 1][..i] == tags[..i];
      var t := tags[i];
      if t.IndependentSegments? {
        independentSegments := true;
      }
      if t.StreamInfTag? {
        var uri := NextLiteral(tags, i);
        if uri.Err? {
          return Err(uri.msg);
        }
        variants := variants + [VariantOf(t.streamInf, uri.value)];
      }
      if t.MediaTag? {
        medias := medias + [t.media];
      }
      if t.DefineTag? {
        defines := defines + [t.define];
      }
      i := i + 1;
    }
    assert tags[..i] == tags;
    r := Ok(MainPlaylistValue(independentSegments, variants, medias, defines, None));
  }

  /** `parseMainPlaylist`: lex, then parse the tags. */
  method ParseMainPlaylist(text: string, env: Env) returns (r: Result<MainPlaylistValue>)
    ensures Lex(text, env).Err? ==> r.Err?
    ensures Lex(text, env).Ok? ==> Agrees(r, MainOf(Lex(text, env).value))
  {
    var tags := LexicalParse(text, env);
    if tags.Err? {
      return Err(tags.msg);
    }
    r := ParseMainTags(tags.value);
  }

  // ---------------------------------------------------------------------------
  // parseMediaPlaylist

  /** What `parseMediaPlaylist` makes of a tag list. */
  function MediaOf(tags: seq<Tag>): Result<MediaPlaylistValue> {
    var targetDuration := Pick(tags, TargetDurationSel);
    var spans := Spans(tags);
    var segments := SegmentsOf(tags, spans, SegmentParser(Collect(tags, SplicedSel)));
    if segments.Err? then Err(segments.msg)
    else if !TruthyOpt(targetDuration) then Err("no target duration")
    else Ok(MediaPlaylistValue(
      Has(tags, IsIndependentSegments), targetDuration.value, Has(tags, IsEndlist),
      Pick(tags, PlaylistTypeSel), Normalized(segments.value),
      Pick(tags, MediaSequenceSel), Pick(tags, DiscontinuitySequenceSel),
      Collect(tags, UnsplicedSel), Collect(tags, DefineSel)))
  }

  /** The playlist-level fields gathered by the first loop of `parseMediaPlaylist`. */
  datatype Header = Header(
    targetDuration: Option<Num>,
    endlist: bool,
    playlistType: Option<PlaylistType>,
    independentSegments: bool,
    mediaSequenceBase: Option<Num>,
    discontinuitySequenceBase: Option<Num>,
    dateRanges: seq<DateRange>,
    spliced: seq<DateRange>,
    defines: seq<Define>)

  /** The first loop of `parseMediaPlaylist`: the last value of each scalar tag
      and the date-ranges and defines in order. */
  method ScanHeader(tags: seq<Tag>) returns (h: Header)
    ensures h == Header(Pick(tags, TargetDurationSel), Has(tags, IsEndlist), Pick(tags, PlaylistTypeSel),
                        Has(tags, IsIndependentSegments), Pick(tags, MediaSequenceSel),
                        Pick(tags, DiscontinuitySequenceSel), Collect(tags, UnsplicedSel),
                        Collect(tags, SplicedSel), Collect(tags, DefineSel))
  {
    var targetDuration: Option<Num> := None;
    var endlist := false;
    var playlistType: Option<PlaylistType> := None;
    var independentSegments := false;
    var mediaSequenceBase: Option<Num> := None;
    var discontinuitySequenceBase: Option<Num> := None;
    var dateRanges: seq<DateRange> := [];
    var spliced: seq<DateRange> := [];
    var defines: seq<Define> := [];
    var i := 0;
    while i < |tags|
      invariant 0 <= i <= |tags|
      invariant targetDuration == Pick(tags[..i], TargetDurationSel)
      invariant endlist == Has(tags[..i], IsEndlist)
      invariant playlistType == Pick(tags[..i], PlaylistTypeSel)
      invariant independentSegments == Has(tags[..i], IsIndependentSegments)
      invariant mediaSequenceBase == Pick(tags[..i], MediaSequenceSel)
      invariant discontinuitySequenceBase == Pick(tags[..i], DiscontinuitySequenceSel)
      invariant dateRanges == Collect(tags[..i], UnsplicedSel)
      invariant spliced == Collect(tags[..i], SplicedSel)
      invariant defines == Collect(tags[..i], DefineSel)
    {
      PickStep(tags, i, TargetDurationSel);
      HasStep(tags, i, IsEndlist);
      PickStep(tags, i, PlaylistTypeSel);
      HasStep(tags, i, IsIndependentSegments);
      PickStep(tags, i, MediaSequenceSel);
      PickStep(tags, i, DiscontinuitySequenceSel);
      CollectStep(tags, i, UnsplicedSel);
      CollectStep(tags, i, SplicedSel);
      CollectStep(tags, i, DefineSel);
      var t := tags[i];
      if t.TargetDuration? {
        targetDuration := Some(t.n);
      }
      if t.Endlist? {
        endlist := true;
      }
      if t.PlaylistTypeTag? {
        playlistType := Some(t.playlistType);
      }
      if t.IndependentSegments? {
        independentSegments := true;
      }
      if t.MediaSequence? {
        mediaSequenceBase := Some(t.n);
      }
      if t.DiscontinuitySequence? {
        discontinuitySequenceBase := Some(t.n);
      }
      if t.DateRangeTag? {
        if NonEmpty(t.dateRange.scte35) {
          spliced := spliced + [t.dateRange];
        } else {
          dateRanges := dateRanges + [t.dateRange];
        }
      }
      if t.DefineTag? {
        defines := defines + [t.define];
      }
      i := i + 1;
    }
    assert tags[..i] == tags;
    h := Header(targetDuration, endlist, playlistType, independentSegments, mediaSequenceBase,
                discontinuitySequenceBase, dateRanges, spliced, defines);
  }

  /** The second loop of `parseMediaPlaylist`: open a span at a segment tag,
      close it at the next literal and parse it. */
  method GroupSegments(tags: seq<Tag>, spliced: seq<DateRange>) returns (r: Result<seq<Segment>>)
    ensures Agrees(r, SegmentsOf(tags, Spans(tags), SegmentParser(spliced)))
  {
    ghost var parse := SegmentParser(spliced);
    var segments: seq<Segment> := [];
    var segmentStart: Option<nat> := None;
    ghost var spans: seq<(nat, nat)> := [];
    GroupedStart(tags, parse);
    var i := 0;
    while i < |tags|
      invariant Grouped(tags, i, spans, segmentStart, segments, parse)
    {
      if segmentStart.Some? && tags[i].Literal? {
        var segment := ParseSegment(tags[segmentStart.value..i + 1], spliced);
        if segment.Err? {
          GroupedFails(tags, i, spans, segmentStart.value, segments, parse);
          return Err(segment.msg);
        }
        GroupedClose(tags, i, spans, segmentStart.value, segments, parse, segment.value);
        spans := spans + [(segmentStart.value, i)];
        segments := segments + [segment.value];
        segmentStart := None;
      } else {
        GroupedSkip(tags, i, spans, segmentStart, segments, parse);
        if segmentStart.None? && IsSegmentTag(tags[i]) {
          segmentStart := Some(i);
        }
      }
      i := i + 1;
    }
    GroupedEnd(tags, spans, segmentStart, segments, parse);
    r := Ok(segments);
  }

  /** One step of the grouping pass: what the tag at `i` does to the spans. */
  lemma ScanStep(tags: seq<Tag>, i: nat)
    requires i < |tags|
    ensures var (spans, open) := Scan(tags[..i]);
            Scan(tags[..i + 1])
            == if open.None? then (spans, if IsSegmentTag(tags[i]) then Some(i) else None)
               else if tags[i].Literal? then (spans + [(open.value, i)], None)
               else (spans, open)
  {
    assert tags[..i + 1][..i] == tags[..i];
  }

  /** Parsing one more span appends its segment, or fails. */
  lemma SegmentsOfSnoc(tags: seq<Tag>, spans: seq<(nat, nat)>, parse: seq<Tag> -> Result<Segment>, start: nat, end: nat)
    requires SpansIn(spans, |tags|) && start <= end < |tags| && SegmentsOf(tags, spans, parse).Ok?
    ensures SpansIn(spans + [(start, end)], |tags|)
    ensures parse(tags[start..end + 1]).Err? ==> SegmentsOf(tags, spans + [(start, end)], parse).Err?
    ensures parse(tags[start..end + 1]).Ok? ==>
              SegmentsOf(tags, spans + [(start, end)], parse)
              == Ok(SegmentsOf(tags, spans, parse).value + [parse(tags[start..end + 1]).value])
  {
    var spans' := spans + [(start, end)];
    assert forall k :: 0 <= k < |spans| ==> spans'[k] == spans[k];
    assert spans'[..|spans|] == spans;
    assert spans'[|spans|] == (start, end);
  }

  /** The state of the grouping pass after the first `i` tags: the spans it
      closed, the span still open, and the segments parsed from the closed
      spans. */
  predicate Grouped(tags: seq<Tag>, i: nat, spans: seq<(nat, nat)>, open: Option<nat>,
                    segments: seq<Segment>, parse: seq<Tag> -> Result<Segment>)
  {
    i <= |tags| && Scan(tags[..i]) == (spans, open) && (open.Some? ==> open.value < i)
    && SpansIn(spans, |tags|) && SegmentsOf(tags, spans, parse) == Ok(segments)
  }

  lemma GroupedStart(tags: seq<Tag>, parse: seq<Tag> -> Result<Segment>)
    ensures Grouped(tags, 0, [], None, [], parse)
  {
    assert tags[..0] == [];
  }

  /** A tag that does not close a span at most opens one. */
  lemma GroupedSkip(tags: seq<Tag>, i: nat, spans: seq<(nat, nat)>, open: Option<nat>,
                    segments: seq<Segment>, parse: seq<Tag> -> Result<Segment>)
    requires Grouped(tags, i, spans, open, segments, parse) && i < |tags|
    requires !(open.Some? && tags[i].Literal?)
    ensures Grouped(tags, i + 1, spans, if open.None? && IsSegmentTag(tags[i]) then Some(i) else open,
                    segments, parse)
  {
    ScanStep(tags, i);
  }

  /** A literal closes the open span, whose segment is appended. */
  lemma GroupedClose(tags: seq<Tag>, i: nat, spans: seq<(nat, nat)>, start: nat,
                     segments: seq<Segment>, parse: seq<Tag> -> Result<Segment>, segment: Segment)
    requires Grouped(tags, i, spans, Some(start), segments, parse) && i < |tags| && tags[i].Literal?
    requires parse(tags[start..i + 1]) == Ok(segment)
    ensures Grouped(tags, i + 1, spans + [(start, i)], None, segments + [segment], parse)
  {
    ScanStep(tags, i);
    SegmentsOfSnoc(tags, spans, parse, start, i);
  }

  /** A span that fails to parse fails the whole list of segments. */
  lemma GroupedFails(tags: seq<Tag>, i: nat, spans: seq<(nat, nat)>, start: nat,
                     segments: seq<Segment>, parse: seq<Tag> -> Result<Segment>)
    requires Grouped(tags, i, spans, Some(start), segments, parse) && i < |tags| && tags[i].Literal?
    requires parse(tags[start..i + 1]).Err?
    ensures SegmentsOf(tags, Spans(tags), parse).Err?
  {
    ScanStep(tags, i);
    var spans' := spans + [(start, i)];
    assert Scan(tags[..i + 1]).0 == spans';
    ScanPrefix(tags, i + 1);
    assert Spans(tags)[..|spans'|] == spans';
    SegmentsOfSnoc(tags, spans, parse, start, i);
    SegmentsOfErrStays(tags, Spans(tags), parse, |spans'|);
  }

  /** After the last tag, the segments are those of all spans. */
  lemma GroupedEnd(tags: seq<Tag>, spans: seq<(nat, nat)>, open: Option<nat>,
                   segments: seq<Segment>, parse: seq<Tag> -> Result<Segment>)
    requires Grouped(tags, |tags|, spans, open, segments, parse)
    ensures SegmentsOf(tags, Spans(tags), parse) == Ok(segments)
  {
    assert tags[..|tags|] == tags;
  }

  /** The spans of a prefix are a prefix of the spans. */
  lemma {:induction false} ScanPrefix(tags: seq<Tag>, n: nat)
    requires n <= |tags|
    ensures |Scan(tags[..n]).0| <= |Spans(tags)|
    ensures Spans(tags)[..|Scan(tags[..n]).0|] == Scan(tags[..n]).0
    decreases |tags| - n
  {
    if n < |tags| {
      ScanPrefix(tags, n + 1);
      assert tags[..n + 1][..n] == tags[..n];
    } else {
      assert tags[..n] == tags;
    }
  }

  /** The loops of `parseMediaPlaylist` over the tags, then the normalization
      and the target-duration check. */
  method ParseMediaTags(tags: seq<Tag>) returns (r: Result<MediaPlaylistValue>)
    ensures Agrees(r, MediaOf(tags))
  {
    var h := ScanHeader(tags);
    var segments := GroupSegments(tags, h.spliced);
    if segments.Err? {
      return Err(segments.msg);
    }
    var a := new Segment[|segments.value|](i requires 0 <= i < |segments.value| => segments.value[i]);
    assert a[..] == segments.value;
    NormalizeSegments(a);
    if !TruthyOpt(h.targetDuration) {
      return Err("no target duration");
    }
    r := Ok(MediaPlaylistValue(h.independentSegments, h.targetDuration.value, h.endlist, h.playlistType,
                               a[..], h.mediaSequenceBase, h.discontinuitySequenceBase, h.dateRanges,
                               h.defines));
  }

  /** `parseMediaPlaylist`: lex, then parse the tags. */
  method ParseMediaPlaylist(text: string, env: Env) returns (r: Result<MediaPlaylistValue>)
    ensures Lex(text, env).Err? ==> r.Err?
    ensures Lex(text, env).Ok? ==> Agrees(r, MediaOf(Lex(text, env).value))
  {
    var tags := LexicalParse(text, env);
    if tags.Err? {
      return Err(tags.msg);
    }
    r := ParseMediaTags(tags.value);
  }

  // ---------------------------------------------------------------------------
  // Properties of the media playlist

  /** A media playlist needs a truthy target duration; `endlist` holds exactly
      when an `EXT-X-ENDLIST` tag occurs; the scalar fields are the last
      occurrence of their tag; the date-ranges are the ones without `SCTE35`, in
      order. */
  lemma MediaFields(tags: seq<Tag>)
    requires MediaOf(tags).Ok?
    ensures var p := MediaOf(tags).value;
            TruthyOpt(Pick(tags, TargetDurationSel)) && p.targetDuration == Pick(tags, TargetDurationSel).value
            && (p.endlist <==> exists i :: 0 <= i < |tags| && tags[i].Endlist?)
            && (p.independentSegments <==> exists i :: 0 <= i < |tags| && tags[i].IndependentSegments?)
            && p.dateRanges == Collect(tags, UnsplicedSel)
  {
    HasIsExists(tags, IsEndlist);
    HasIsExists(tags, IsIndependentSegments);
  }

  /** There are at most as many segments as literals, and the segments are the
      parses of the spans, in order, after normalization. */
  lemma MediaSegments(tags: seq<Tag>)
    requires MediaOf(tags).Ok?
    ensures var p := MediaOf(tags).value;
            var parse := SegmentParser(Collect(tags, SplicedSel));
            |p.segments| == |Spans(tags)| <= |Collect(tags, LiteralSel)|
            && AllParse(tags, Spans(tags), parse)
            && p.segments == Normalized(Parses(tags, Spans(tags), parse))
  {
    ScanShape(tags);
    SegmentsAreParses(tags, Spans(tags), SegmentParser(Collect(tags, SplicedSel)));
    SpansAtMostLiterals(tags);
  }
}
