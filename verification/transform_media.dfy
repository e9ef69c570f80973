/** The media playlist rewriters of `src/lib/transform-media.ts`: absolute
    segment and map uris, the static interstitial date-ranges of a session's
    events, and a program-date-time anchor on video on demand. */
module TransformMedia {
  import opened Wrappers
  import opened Values
  import opened Strings
  import opened HlsTypes

  // ---------------------------------------------------------------- rewriteUrls

  /** The segment's map is the object `ref`. */
  predicate HasMap(s: Segment, ref: nat) {
    s.initMap.Some? && s.initMap.value.ref == ref
  }

  /** `resolveUrl(base, ·)` applied `k` times. */
  function Iterate(resolveUrl: (string, string) -> string, base: string, k: nat, uri: string): string {
    if k == 0 then uri else resolveUrl(base, Iterate(resolveUrl, base, k - 1, uri))
  }

  /** Assigning the uri of the map object `ref`: every segment holding that
      object sees the new uri. */
  function ResolveShared(segs: seq<Segment>, ref: nat, resolveUrl: (string, string) -> string, base: string)
    : (r: seq<Segment>)
    ensures |r| == |segs|
  {
    seq(|segs|, i requires 0 <= i < |segs| =>
      if HasMap(segs[i], ref)
      then segs[i].(initMap := Some(segs[i].initMap.value.(uri := resolveUrl(base, segs[i].initMap.value.uri))))
      else segs[i])
  }

  /** One iteration of the loop, on segment `i`. */
  function RewriteStep(segs: seq<Segment>, i: nat, resolveUrl: (string, string) -> string, base: string)
    : (r: seq<Segment>)
    requires i < |segs|
    ensures |r| == |segs|
  {
    var s := segs[i := segs[i].(uri := resolveUrl(base, segs[i].uri))];
    if s[i].initMap.Some? then ResolveShared(s, s[i].initMap.value.ref, resolveUrl, base) else s
  }

  /** The segments after the first `n` iterations. */
  function Rewritten(segs: seq<Segment>, n: nat, resolveUrl: (string, string) -> string, base: string)
    : (r: seq<Segment>)
    requires n <= |segs|
    ensures |r| == |segs|
  {
    if n == 0 then segs else RewriteStep(Rewritten(segs, n - 1, resolveUrl, base), n - 1, resolveUrl, base)
  }

  /** How many of the first `n` segments hold the map object `ref`. */
  function RefCount(segs: seq<Segment>, n: nat, ref: nat): nat
    requires n <= |segs|
  {
    if n == 0 then 0 else RefCount(segs, n - 1, ref) + (if HasMap(segs[n - 1], ref) then 1 else 0)
  }

  /** `rewriteUrls(playlist, playlistUrl)`. */
  method RewriteUrls(playlist: MediaPlaylist, playlistUrl: string, resolveUrl: (string, string) -> string)
    modifies playlist
    ensures playlist.View() ==
      old(playlist.View()).(segments := Rewritten(old(playlist.segments), |old(playlist.segments)|, resolveUrl, playlistUrl))
  {
    var original := playlist.segments;
    var segments := original;
    for i := 0 to |segments|
      invariant |segments| == |original|
      invariant segments == Rewritten(original, i, resolveUrl, playlistUrl)
    {
      segments := segments[i := segments[i].(uri := resolveUrl(playlistUrl, segments[i].uri))];
      if segments[i].initMap.Some? {
        segments := ResolveShared(segments, segments[i].initMap.value.ref, resolveUrl, playlistUrl);
      }
    }
    playlist.segments := segments;
  }

  /** One iteration changes the uri of segment `k` and the map object of
      segment `k`, wherever it is held. */
  lemma StepSegment(segs: seq<Segment>, k: nat, i: nat, resolveUrl: (string, string) -> string, base: string)
    requires k < |segs| && i < |segs|
    ensures RewriteStep(segs, k, resolveUrl, base)[i].uri == if i == k then resolveUrl(base, segs[i].uri) else segs[i].uri
    ensures RewriteStep(segs, k, resolveUrl, base)[i].initMap ==
      if segs[k].initMap.Some? && HasMap(segs[i], segs[k].initMap.value.ref)
      then Some(segs[i].initMap.value.(uri := resolveUrl(base, segs[i].initMap.value.uri)))
      else segs[i].initMap
    ensures RewriteStep(segs, k, resolveUrl, base)[i].(uri := segs[i].uri, initMap := segs[i].initMap) == segs[i]
  {
  }

  /** After `n` iterations the segments before `n` have a resolved uri, the
      others keep theirs, and no field but the uri and the map changes. */
  lemma {:induction false} RewrittenUri(segs: seq<Segment>, n: nat, i: nat,
                                         resolveUrl: (string, string) -> string, base: string)
    requires n <= |segs| && i < |segs|
    ensures Rewritten(segs, n, resolveUrl, base)[i].uri == if i < n then resolveUrl(base, segs[i].uri) else segs[i].uri
    ensures Rewritten(segs, n, resolveUrl, base)[i].(uri := segs[i].uri, initMap := segs[i].initMap) == segs[i]
  {
    if n > 0 {
      RewrittenUri(segs, n - 1, i, resolveUrl, base);
      StepSegment(Rewritten(segs, n - 1, resolveUrl, base), n - 1, i, resolveUrl, base);
    }
  }

  /** Every segment keeps holding the same map object, or none. */
  lemma {:induction false} RewrittenMapRef(segs: seq<Segment>, n: nat, i: nat,
                                            resolveUrl: (string, string) -> string, base: string)
    requires n <= |segs| && i < |segs|
    ensures Rewritten(segs, n, resolveUrl, base)[i].initMap.Some? == segs[i].initMap.Some?
    ensures segs[i].initMap.Some? ==> Rewritten(segs, n, resolveUrl, base)[i].initMap.value.ref == segs[i].initMap.value.ref
  {
    if n > 0 {
      RewrittenMapRef(segs, n - 1, i, resolveUrl, base);
      StepSegment(Rewritten(segs, n - 1, resolveUrl, base), n - 1, i, resolveUrl, base);
    }
  }

  /** After `n` iterations a map has been resolved once for each segment
      before `n` that holds the same object. */
  lemma {:induction false} RewrittenMapUri(segs: seq<Segment>, n: nat, i: nat,
                                            resolveUrl: (string, string) -> string, base: string)
    requires n <= |segs| && i < |segs| && segs[i].initMap.Some?
    ensures Rewritten(segs, n, resolveUrl, base)[i].initMap ==
            Some(segs[i].initMap.value.(uri := Iterate(resolveUrl, base, RefCount(segs, n, segs[i].initMap.value.ref),
                                                       segs[i].initMap.value.uri)))
  {
    if n > 0 {
      RewrittenMapRef(segs, n - 1, i, resolveUrl, base);
      RewrittenMapRef(segs, n - 1, n - 1, resolveUrl, base);
      RewrittenMapUri(segs, n - 1, i, resolveUrl, base);
      StepSegment(Rewritten(segs, n - 1, resolveUrl, base), n - 1, i, resolveUrl, base);
    }
  }

  /** Segments that share a map object still share one object afterwards. */
  lemma RewriteKeepsSharing(segs: seq<Segment>, i: nat, j: nat, resolveUrl: (string, string) -> string, base: string)
    requires i < |segs| && j < |segs|
    requires segs[i].initMap.Some? && segs[j].initMap.Some? && segs[i].initMap == segs[j].initMap
    ensures Rewritten(segs, |segs|, resolveUrl, base)[i].initMap == Rewritten(segs, |segs|, resolveUrl, base)[j].initMap
  {
    RewrittenMapRef(segs, |segs|, i, resolveUrl, base);
    RewrittenMapRef(segs, |segs|, j, resolveUrl, base);
    RewrittenMapUri(segs, |segs|, i, resolveUrl, base);
    RewrittenMapUri(segs, |segs|, j, resolveUrl, base);
  }

  // -------------------------------------------------------- addStaticDateRanges

  /** A session event: a point in time and an optional duration. */
  datatype StaticEvent = StaticEvent(dateTime: DateTime, duration: Option<Num>)

  /** What the date-range of an event is built from besides the event:
      `rison.encode({sessionId, dateTime})` and luxon's `toISO`. */
  datatype StaticContext = StaticContext(
    sessionId: string,
    startTime: DateTime,
    risonEncode: (string, string) -> string,
    toIso: DateTime -> string)

  const InterstitialClass := "com.apple.hls.interstitial"

  function StaticAssetList(ctx: StaticContext, e: StaticEvent): string {
    "/out/" + ctx.risonEncode(ctx.sessionId, ctx.toIso(e.dateTime)) + "/asset-list.json"
  }

  /** The client attributes of an event's date-range, in assignment order. */
  function StaticAttributes(ctx: StaticContext, e: StaticEvent): seq<(string, AttrValue)> {
    [("RESTRICT", AStr("SKIP,JUMP")),
     ("ASSET-LIST", AStr(StaticAssetList(ctx, e))),
     ("CONTENT-MAY-VARY", AStr("YES")),
     ("TIMELINE-STYLE", AStr("HIGHLIGHT")),
     ("TIMELINE-OCCUPIES", AStr("POINT")),
     ("RESUME-OFFSET", ANum(e.duration.GetOr(Fin(0.0))))]
    + (if e.dateTime == ctx.startTime then [("CUE", AStr("ONCE,PRE"))] else [])
  }

  function StaticId(dateTime: DateTime): string {
    "hlspresso." + IntToString(dateTime)
  }

  function StaticRange(ctx: StaticContext, e: StaticEvent): DateRange {
    DateRange(StaticId(e.dateTime), InterstitialClass, e.dateTime, None, None,
              Some(StaticAttributes(ctx, e)), None, None)
  }

  function StaticRanges(ctx: StaticContext, events: seq<StaticEvent>): (r: seq<DateRange>)
    ensures |r| == |events| && forall i :: 0 <= i < |events| ==> r[i] == StaticRange(ctx, events[i])
  {
    seq(|events|, i requires 0 <= i < |events| => StaticRange(ctx, events[i]))
  }

  lemma StaticRangesStep(ctx: StaticContext, events: seq<StaticEvent>, i: nat)
    requires i < |events|
    ensures StaticRanges(ctx, events[..i + 1]) == StaticRanges(ctx, events[..i]) + [StaticRange(ctx, events[i])]
  {
  }

  /** `addStaticDateRanges(playlist, session)`, with the session's id, start
      time and events. */
  method AddStaticDateRanges(playlist: MediaPlaylist, ctx: StaticContext, events: seq<StaticEvent>)
    modifies playlist
    ensures playlist.View() == old(playlist.View()).(dateRanges := old(playlist.dateRanges) + StaticRanges(ctx, events))
  {
    var dateRanges := playlist.dateRanges;
    for i := 0 to |events|
      invariant dateRanges == old(playlist.dateRanges) + StaticRanges(ctx, events[..i])
      invariant unchanged(playlist)
    {
      var event := events[i];
      var assetListUrl := "/out/" + ctx.risonEncode(ctx.sessionId, ctx.toIso(event.dateTime)) + "/asset-list.json";
      var clientAttributes := [("RESTRICT", AStr("SKIP,JUMP")), ("ASSET-LIST", AStr(assetListUrl)),
                               ("CONTENT-MAY-VARY", AStr("YES")), ("TIMELINE-STYLE", AStr("HIGHLIGHT"))];
      clientAttributes := clientAttributes + [("TIMELINE-OCCUPIES", AStr("POINT"))];
      clientAttributes := clientAttributes + [("RESUME-OFFSET", ANum(event.duration.GetOr(Fin(0.0))))];
      if event.dateTime == ctx.startTime {
        clientAttributes := clientAttributes + [("CUE", AStr("ONCE,PRE"))];
      }
      assert clientAttributes == StaticAttributes(ctx, event);
      StaticRangesStep(ctx, events, i);
      dateRanges := dateRanges + [DateRange(StaticId(event.dateTime), InterstitialClass, event.dateTime, None, None,
                                            Some(clientAttributes), None, None)];
    }
    assert events[..|events|] == events;
    playlist.dateRanges := dateRanges;
  }

  /** The attributes of an event's date-range: distinct keys, the fixed
      policy values, the resume offset defaulting to 0, and the pre-roll cue
      exactly for an event at the session start. */
  lemma StaticAttributesRead(ctx: StaticContext, e: StaticEvent)
    ensures UniqueKeys(StaticAttributes(ctx, e))
    ensures Get(StaticAttributes(ctx, e), "RESTRICT") == Some(AStr("SKIP,JUMP"))
    ensures Get(StaticAttributes(ctx, e), "TIMELINE-OCCUPIES") == Some(AStr("POINT"))
    ensures Get(StaticAttributes(ctx, e), "RESUME-OFFSET") == Some(ANum(if e.duration.Some? then e.duration.value else Fin(0.0)))
    ensures Get(StaticAttributes(ctx, e), "CUE").Some? <==> e.dateTime == ctx.startTime
  {
    var attrs := StaticAttributes(ctx, e);
    StaticKeyLengths(ctx, e);
    GetAt(attrs, 0);
    GetAt(attrs, 4);
    GetAt(attrs, 5);
    if e.dateTime == ctx.startTime {
      GetAt(attrs, 6);
    } else {
      assert forall i :: 0 <= i < |attrs| ==> |KeysOf(attrs)[i]| != 3;
    }
  }

  /** The keys have pairwise different lengths, none of them 3 but `CUE`. */
  lemma StaticKeyLengths(ctx: StaticContext, e: StaticEvent)
    ensures var attrs := StaticAttributes(ctx, e);
            (forall i, j :: 0 <= i < j < |attrs| ==> |attrs[i].0| != |attrs[j].0|)
            && forall i :: 0 <= i < 6 ==> |attrs[i].0| != 3
  {
    var attrs := StaticAttributes(ctx, e);
    var lengths := [8, 10, 16, 14, 17, 13, 3];
    assert forall i :: 0 <= i < |attrs| ==> |attrs[i].0| == lengths[i];
  }

  /** Events at different instants get different date-range ids. */
  lemma StaticIdsDistinct(ctx: StaticContext, events: seq<StaticEvent>, i: nat, j: nat)
    requires i < |events| && j < |events| && events[i].dateTime != events[j].dateTime
    ensures StaticRanges(ctx, events)[i].id != StaticRanges(ctx, events)[j].id
  {
    if StaticId(events[i].dateTime) == StaticId(events[j].dateTime) {
      PrefixCancel("hlspresso.", IntToString(events[i].dateTime), IntToString(events[j].dateTime));
      IntToStringInjective(events[i].dateTime, events[j].dateTime);
    }
  }

  // ------------------------------------------------------ ensureProgramDateTime

  /** The playlist after `ensureProgramDateTime`: on video on demand the first
      segment is anchored at the session start, which fails without a first
      segment; otherwise the playlist is left as it is. */
  function WithProgramDateTime(v: MediaPlaylistValue, startTime: DateTime): Result<MediaPlaylistValue> {
    if !v.endlist then Ok(v)
    else if |v.segments| == 0 then Err("Missing first segment")
    else Ok(v.(segments := v.segments[0 := v.segments[0].(programDateTime := Some(startTime))]))
  }

  /** `ensureProgramDateTime(session, playlist)`. */
  method EnsureProgramDateTime(startTime: DateTime, playlist: MediaPlaylist) returns (r: Result<()>)
    modifies playlist
    ensures r.Ok? == WithProgramDateTime(old(playlist.View()), startTime).Ok?
    ensures r.Ok? ==> playlist.View() == WithProgramDateTime(old(playlist.View()), startTime).value
    ensures r.Err? ==> playlist.View() == old(playlist.View())
  {
    if playlist.endlist {
      if |playlist.segments| == 0 {
        return Err("Missing first segment");
      }
      var firstSegment := playlist.segments[0];
      playlist.segments := playlist.segments[0 := firstSegment.(programDateTime := Some(startTime))];
    }
    r := Ok(());
  }

  /** It fails exactly on an ended playlist without segments; on success the
      first segment of an ended playlist starts at the session start, every
      other field and segment is kept, and a live playlist is untouched. */
  lemma ProgramDateTimeAnchors(v: MediaPlaylistValue, startTime: DateTime)
    ensures WithProgramDateTime(v, startTime).Err? <==> v.endlist && |v.segments| == 0
    ensures WithProgramDateTime(v, startTime).Ok? && v.endlist ==>
      var w := WithProgramDateTime(v, startTime).value;
      |w.segments| == |v.segments| && w.segments[0].programDateTime == Some(startTime)
      && w.segments[0].(programDateTime := v.segments[0].programDateTime) == v.segments[0]
      && w.segments[1..] == v.segments[1..] && w.(segments := v.segments) == v
    ensures !v.endlist ==> WithProgramDateTime(v, startTime) == Ok(v)
  {
  }

  /** Anchoring twice is anchoring once. */
  lemma ProgramDateTimeIdempotent(v: MediaPlaylistValue, startTime: DateTime)
    requires WithProgramDateTime(v, startTime).Ok?
    ensures WithProgramDateTime(WithProgramDateTime(v, startTime).value, startTime) == WithProgramDateTime(v, startTime)
  {
    if v.endlist {
      var w := WithProgramDateTime(v, startTime).value;
      assert w.segments[0].(programDateTime := Some(startTime)) == w.segments[0];
      assert w.segments[0 := w.segments[0]] == w.segments;
    }
  }
}
