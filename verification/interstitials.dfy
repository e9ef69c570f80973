/** `addInterstitialDateRanges` of `src/lib/interstitials.ts`: one
    `EXT-X-DATERANGE` of class `com.apple.hls.interstitial` per interstitial of
    the session, pointing at the signed asset-list route. */
module Interstitials {
  import opened Wrappers
  import opened Values
  import opened Strings
  import opened HlsTypes
  import opened Sessions

  /** What the date-ranges are built from besides the interstitials:
      `formatSig({dateTime})` and `btoa`. */
  datatype Context = Context(
    sessionId: string,
    startTime: DateTime,
    formatSig: DateTime -> string,
    btoa: string -> string)

  const InterstitialClass := "com.apple.hls.interstitial"

  /** `/out/<sessionId>/asset-list.json?sig=<signature>`. */
  function AssetListUrl(ctx: Context, it: Interstitial): string {
    "/out/" + ctx.sessionId + "/asset-list.json?sig=" + ctx.formatSig(it.dateTime)
  }

  /** The four attributes every interstitial gets. */
  function BaseAttributes(ctx: Context, it: Interstitial): seq<(string, AttrValue)> {
    [("RESTRICT", AStr("SKIP,JUMP")),
     ("ASSET-LIST", AStr(AssetListUrl(ctx, it))),
     ("CONTENT-MAY-VARY", AStr("YES")),
     ("TIMELINE-STYLE", AStr("HIGHLIGHT"))]
  }

  /** The client attributes: the base four, then the assignments that apply.
      Each assigned key is new, so each assignment appends. */
  function Attributes(ctx: Context, it: Interstitial, isLive: bool): seq<(string, AttrValue)> {
    BaseAttributes(ctx, it)
    + (if !isLive then [("RESUME-OFFSET", ANum(Fin(0.0)))] else [])
    + (if TruthyOpt(it.duration) then [("PLAYOUT-LIMIT", ANum(it.duration.value))] else [])
    + (if it.dateTime == ctx.startTime then [("CUE", AStr("ONCE,PRE"))] else [])
  }

  function RangeId(ctx: Context, dateTime: DateTime): string {
    ctx.btoa(IntToString(dateTime))
  }

  function RangeOf(ctx: Context, it: Interstitial, isLive: bool): DateRange {
    DateRange(RangeId(ctx, it.dateTime), InterstitialClass, it.dateTime, None, it.duration,
              Some(Attributes(ctx, it, isLive)), None, None)
  }

  function RangesOf(ctx: Context, list: seq<Interstitial>, isLive: bool): (r: seq<DateRange>)
    ensures |r| == |list| && forall i :: 0 <= i < |list| ==> r[i] == RangeOf(ctx, list[i], isLive)
  {
    seq(|list|, i requires 0 <= i < |list| => RangeOf(ctx, list[i], isLive))
  }

  lemma RangesStep(ctx: Context, list: seq<Interstitial>, i: nat, isLive: bool)
    requires i < |list|
    ensures RangesOf(ctx, list[..i + 1], isLive) == RangesOf(ctx, list[..i], isLive) + [RangeOf(ctx, list[i], isLive)]
  {
  }

  /** `addInterstitialDateRanges({session, playlist, isLive})`, with the
      session's id, start time and interstitials. */
  method AddInterstitialDateRanges(playlist: MediaPlaylist, ctx: Context, interstitials: seq<Interstitial>, isLive: bool)
    modifies playlist
    ensures playlist.View() ==
      old(playlist.View()).(dateRanges := old(playlist.dateRanges) + RangesOf(ctx, interstitials, isLive))
  {
    var dateRanges := playlist.dateRanges;
    for i := 0 to |interstitials|
      invariant dateRanges == old(playlist.dateRanges) + RangesOf(ctx, interstitials[..i], isLive)
      invariant unchanged(playlist)
    {
      var interstitial := interstitials[i];
      var assetListUrl := "/out/" + ctx.sessionId + "/asset-list.json?sig=" + ctx.formatSig(interstitial.dateTime);
      var clientAttributes := [("RESTRICT", AStr("SKIP,JUMP")), ("ASSET-LIST", AStr(assetListUrl)),
                               ("CONTENT-MAY-VARY", AStr("YES")), ("TIMELINE-STYLE", AStr("HIGHLIGHT"))];
      if !isLive {
        clientAttributes := clientAttributes + [("RESUME-OFFSET", ANum(Fin(0.0)))];
      }
      if TruthyOpt(interstitial.duration) {
        clientAttributes := clientAttributes + [("PLAYOUT-LIMIT", ANum(interstitial.duration.value))];
      }
      if interstitial.dateTime == ctx.startTime {
        clientAttributes := clientAttributes + [("CUE", AStr("ONCE,PRE"))];
      }
      assert clientAttributes == Attributes(ctx, interstitial, isLive);
      RangesStep(ctx, interstitials, i, isLive);
      dateRanges := dateRanges + [DateRange(ctx.btoa(IntToString(interstitial.dateTime)), InterstitialClass,
                                            interstitial.dateTime, None, interstitial.duration,
                                            Some(clientAttributes), None, None)];
    }
    assert interstitials[..|interstitials|] == interstitials;
    playlist.dateRanges := dateRanges;
  }

  function ResumeOffset(isLive: bool): seq<(string, AttrValue)> {
    if !isLive then [("RESUME-OFFSET", ANum(Fin(0.0)))] else []
  }

  function PlayoutLimit(it: Interstitial): seq<(string, AttrValue)> {
    if TruthyOpt(it.duration) then [("PLAYOUT-LIMIT", ANum(it.duration.value))] else []
  }

  function Cue(ctx: Context, it: Interstitial): seq<(string, AttrValue)> {
    if it.dateTime == ctx.startTime then [("CUE", AStr("ONCE,PRE"))] else []
  }

  /** The attributes in four parts, whose keys have lengths 8/10/16/14, 13,
      13 and 3; the two keys of length 13 differ in their first letter. */
  lemma AttributeParts(ctx: Context, it: Interstitial, isLive: bool)
    ensures Attributes(ctx, it, isLive) == BaseAttributes(ctx, it) + ResumeOffset(isLive) + PlayoutLimit(it) + Cue(ctx, it)
    ensures forall j :: 0 <= j < 4 ==> |BaseAttributes(ctx, it)[j].0| in {8, 10, 16, 14}
    ensures forall j :: 0 <= j < |ResumeOffset(isLive)| ==> |ResumeOffset(isLive)[j].0| == 13 && ResumeOffset(isLive)[j].0[0] == 'R'
    ensures forall j :: 0 <= j < |PlayoutLimit(it)| ==> |PlayoutLimit(it)[j].0| == 13 && PlayoutLimit(it)[j].0[0] == 'P'
    ensures forall j :: 0 <= j < |Cue(ctx, it)| ==> |Cue(ctx, it)[j].0| == 3
    ensures UniqueKeys(BaseAttributes(ctx, it))
  {
  }

  /** The keys are distinct; the fixed policy attributes and the signed asset
      list are always there. */
  lemma AttributesFixed(ctx: Context, it: Interstitial, isLive: bool)
    ensures UniqueKeys(Attributes(ctx, it, isLive))
    ensures Get(Attributes(ctx, it, isLive), "RESTRICT") == Some(AStr("SKIP,JUMP"))
    ensures Get(Attributes(ctx, it, isLive), "ASSET-LIST") == Some(AStr(AssetListUrl(ctx, it)))
    ensures Get(Attributes(ctx, it, isLive), "CONTENT-MAY-VARY") == Some(AStr("YES"))
    ensures Get(Attributes(ctx, it, isLive), "TIMELINE-STYLE") == Some(AStr("HIGHLIGHT"))
  {
    AttributeParts(ctx, it, isLive);
    var b, r, l, c := BaseAttributes(ctx, it), ResumeOffset(isLive), PlayoutLimit(it), Cue(ctx, it);
    UniqueConcat(b, r);
    UniqueConcat(b + r, l);
    UniqueConcat(b + r + l, c);
    var a := Attributes(ctx, it, isLive);
    GetAt(a, 0);
    GetAt(a, 1);
    GetAt(a, 2);
    GetAt(a, 3);
  }

  /** Reading one of the optional keys: the base part never holds it. */
  lemma OptionalRead(ctx: Context, it: Interstitial, isLive: bool, k: string)
    requires k == "RESUME-OFFSET" || k == "PLAYOUT-LIMIT" || k == "CUE"
    ensures Get(Attributes(ctx, it, isLive), k) ==
      if Get(ResumeOffset(isLive), k).Some? then Get(ResumeOffset(isLive), k)
      else if Get(PlayoutLimit(it), k).Some? then Get(PlayoutLimit(it), k)
      else Get(Cue(ctx, it), k)
  {
    var b, r, l, c := BaseAttributes(ctx, it), ResumeOffset(isLive), PlayoutLimit(it), Cue(ctx, it);
    assert Attributes(ctx, it, isLive) == b + r + l + c;
    assert Get(b, k) == None;
    GetConcat(b + r + l, c, k);
    GetConcat(b + r, l, k);
    GetConcat(b, r, k);
  }

  /** `RESUME-OFFSET=0` exactly when the playlist is not live. */
  lemma ResumeOffsetRead(ctx: Context, it: Interstitial, isLive: bool)
    ensures Get(Attributes(ctx, it, isLive), "RESUME-OFFSET") == if isLive then None else Some(ANum(Fin(0.0)))
  {
    OptionalRead(ctx, it, isLive, "RESUME-OFFSET");
  }

  /** `PLAYOUT-LIMIT` is the duration exactly when the duration is truthy, and
      then the planned duration is the same. */
  lemma PlayoutLimitRead(ctx: Context, it: Interstitial, isLive: bool)
    ensures Get(Attributes(ctx, it, isLive), "PLAYOUT-LIMIT") ==
      if TruthyOpt(it.duration) then Some(ANum(it.duration.value)) else None
    ensures TruthyOpt(it.duration) ==> RangeOf(ctx, it, isLive).plannedDuration == it.duration
  {
    OptionalRead(ctx, it, isLive, "PLAYOUT-LIMIT");
    assert "RESUME-OFFSET"[0] != "PLAYOUT-LIMIT"[0];
  }

  /** The pre-roll cue `ONCE,PRE` exactly at the session start. */
  lemma CueRead(ctx: Context, it: Interstitial, isLive: bool)
    ensures Get(Attributes(ctx, it, isLive), "CUE") == if it.dateTime == ctx.startTime then Some(AStr("ONCE,PRE")) else None
  {
    OptionalRead(ctx, it, isLive, "CUE");
  }

  /** Interstitials at different instants get different date-range ids when
      the base64 encoding is injective, for a live and a VOD playlist alike. */
  lemma RangeIdsDistinct(ctx: Context, list: seq<Interstitial>, isLive: bool, i: nat, j: nat)
    requires forall a, b :: ctx.btoa(a) == ctx.btoa(b) ==> a == b
    requires i < |list| && j < |list| && list[i].dateTime != list[j].dateTime
    ensures RangesOf(ctx, list, isLive)[i].id != RangesOf(ctx, list, isLive)[j].id
  {
    if RangeId(ctx, list[i].dateTime) == RangeId(ctx, list[j].dateTime) {
      IntToStringInjective(list[i].dateTime, list[j].dateTime);
    }
  }
}
