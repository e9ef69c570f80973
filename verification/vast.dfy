/** The ad selection and ad signaling of `src/lib/vast.ts`: the playable ads
    of a VAST response, and the version-2 slot envelope announcing one of them.
    Fetching and parsing VAST documents is not part of this model; a response
    is given as a value. */
module Vast {
  import opened Wrappers
  import opened Values
  import opened Svta

  datatype VastMediaFile = VastMediaFile(mimeType: Option<string>, fileURL: Option<string>)

  /** A creative of a VAST ad; `trackingEvents` is a record of url lists. */
  datatype VastCreative =
    | LinearCreative(trackingEvents: seq<(string, seq<string>)>, duration: Num, mediaFiles: seq<VastMediaFile>)
    | NonLinearCreative(trackingEvents: seq<(string, seq<string>)>)

  datatype VastUrlValue = VastUrlValue(id: Option<string>, url: string)

  datatype VastAd = VastAd(
    id: string,
    creatives: seq<VastCreative>,
    impressionURLTemplates: Option<seq<VastUrlValue>>,
    errorURLTemplates: Option<seq<string>>)

  datatype VastResponse = VastResponse(ads: seq<VastAd>)

  /** The tracking record of an ad: event name to url list, where a key may
      be present with an undefined list. */
  type AdTracking = seq<(string, Option<seq<string>>)>

  /** A playable ad: its id, HLS url, duration and tracking urls. */
  datatype Ad = Ad(id: string, url: string, duration: Num, tracking: AdTracking)

  const HlsMimeType: string := "application/x-mpegURL"

  predicate IsLinear(c: VastCreative) { c.LinearCreative? }

  predicate IsHls(m: VastMediaFile) { m.mimeType == Some(HlsMimeType) }

  /** The impression urls of an ad, when it has impression templates. */
  function ImpressionUrls(a: VastAd): (r: Option<seq<string>>)
    ensures r.Some? <==> a.impressionURLTemplates.Some?
    ensures r.Some? ==> |r.value| == |a.impressionURLTemplates.value|
                        && forall i :: 0 <= i < |r.value| ==> r.value[i] == a.impressionURLTemplates.value[i].url
  {
    match a.impressionURLTemplates
    case None => None
    case Some(ts) => Some(seq(|ts|, i requires 0 <= i < |ts| => ts[i].url))
  }

  /** The ad-level part of the tracking record: `error` then `impression`. */
  function AdLevel(a: VastAd): AdTracking {
    [("error", a.errorURLTemplates), ("impression", ImpressionUrls(a))]
  }

  /** `{...base, ...entries}`: each entry assigned in order. */
  function Spread(base: AdTracking, entries: seq<(string, seq<string>)>): AdTracking
  {
    if |entries| == 0 then base
    else
      var last := entries[|entries| - 1];
      Put(Spread(base, entries[..|entries| - 1]), last.0, Some(last.1))
  }

  /** The tracking record of an ad kept with creative `c`. */
  function TrackingOf(a: VastAd, c: VastCreative): AdTracking {
    Spread(AdLevel(a), c.trackingEvents)
  }

  /** What `mapAds` makes of one ad: nothing without a linear creative, or
      when the first linear creative's first HLS media file is missing or has
      no url. */
  function AdOf(a: VastAd): Option<Ad> {
    var c := FindFirst(a.creatives, IsLinear);
    if c < 0 then None
    else
      var creative := a.creatives[c];
      var m := FindFirst(creative.mediaFiles, IsHls);
      if m < 0 || !NonEmpty(creative.mediaFiles[m].fileURL) then None
      else Some(Ad(a.id, creative.mediaFiles[m].fileURL.value, creative.duration, TrackingOf(a, creative)))
  }

  /** `mapAds(response)`: the playable ads, in response order. */
  method MapAds(response: VastResponse) returns (ads: seq<Ad>)
    ensures ads == FilterMap(response.ads, AdOf)
  {
    ads := [];
    for i := 0 to |response.ads|
      invariant ads == FilterMap(response.ads[..i], AdOf)
    {
      FilterMapStep(response.ads, i, AdOf);
      var ad := response.ads[i];
      var c := FindFirst(ad.creatives, IsLinear);
      if c < 0 {
        continue;
      }
      var creative := ad.creatives[c];
      var m := FindFirst(creative.mediaFiles, IsHls);
      if m < 0 || !NonEmpty(creative.mediaFiles[m].fileURL) {
        continue;
      }
      ads := ads + [Ad(ad.id, creative.mediaFiles[m].fileURL.value, creative.duration, TrackingOf(ad, creative))];
    }
    assert response.ads[..|response.ads|] == response.ads;
  }

  /** The first HLS media file of `c` exists and has a url. */
  predicate PlayableAt(c: VastCreative, m: int) {
    c.LinearCreative? && 0 <= m < |c.mediaFiles| && IsHls(c.mediaFiles[m])
    && (forall m' :: 0 <= m' < m ==> !IsHls(c.mediaFiles[m']))
    && NonEmpty(c.mediaFiles[m].fileURL)
  }

  /** Creative `k` is the first linear creative of `a`. */
  predicate FirstLinearAt(a: VastAd, k: int) {
    0 <= k < |a.creatives| && IsLinear(a.creatives[k])
    && forall k' :: 0 <= k' < k ==> !IsLinear(a.creatives[k'])
  }

  /** An ad is kept exactly when its first linear creative has a first HLS
      media file with a url; the kept ad carries the ad's id, that file's url
      and the creative's duration. */
  lemma AdOfKeeps(a: VastAd)
    ensures AdOf(a).Some? <==> exists k, m :: FirstLinearAt(a, k) && PlayableAt(a.creatives[k], m)
    ensures forall k, m :: FirstLinearAt(a, k) && PlayableAt(a.creatives[k], m) ==>
              AdOf(a) == Some(Ad(a.id, a.creatives[k].mediaFiles[m].fileURL.value,
                                 a.creatives[k].duration, TrackingOf(a, a.creatives[k])))
  {
    var c := FindFirst(a.creatives, IsLinear);
    forall k, m | FirstLinearAt(a, k) && PlayableAt(a.creatives[k], m)
      ensures AdOf(a) == Some(Ad(a.id, a.creatives[k].mediaFiles[m].fileURL.value,
                                 a.creatives[k].duration, TrackingOf(a, a.creatives[k])))
    {
      assert c == k;
      assert FindFirst(a.creatives[k].mediaFiles, IsHls) == m;
    }
    if AdOf(a).Some? {
      var m := FindFirst(a.creatives[c].mediaFiles, IsHls);
      assert FirstLinearAt(a, c) && PlayableAt(a.creatives[c], m);
    }
  }

  /** `mapAds` keeps response order: its j-th ad comes from the j-th kept
      response ad, and every ad that `AdOf` keeps appears. */
  lemma MapAdsOrder(response: VastResponse)
    ensures var ks := KeptIndices(response.ads, AdOf);
            var ads := FilterMap(response.ads, AdOf);
            |ads| == |ks| <= |response.ads|
            && (forall j :: 0 <= j < |ks| ==> ks[j] < |response.ads| && AdOf(response.ads[ks[j]]) == Some(ads[j]))
            && (forall j, j' :: 0 <= j < j' < |ks| ==> ks[j] < ks[j'])
            && (forall k :: 0 <= k < |response.ads| && AdOf(response.ads[k]).Some? ==> k in ks)
  {
    FilterMapIsKept(response.ads, AdOf);
  }

  /** Each spread entry overrides the base: a key of `entries` reads as its
      list, any other key reads as in `base`. */
  lemma {:induction false} SpreadGet(base: AdTracking, entries: seq<(string, seq<string>)>, k: string)
    requires UniqueKeys(entries)
    ensures Get(Spread(base, entries), k) ==
            if Get(entries, k).Some? then Some(Some(Get(entries, k).value)) else Get(base, k)
  {
    if |entries| > 0 {
      var init := entries[..|entries| - 1];
      var last := entries[|entries| - 1];
      assert entries == init + [last];
      assert UniqueKeys(init);
      SpreadGet(base, init, k);
      PutGet(Spread(base, init), last.0, Some(last.1), k);
      GetSnoc(init, last.0, last.1, k);
      if last.0 == k {
        assert k !in KeysOf(init) by {
          assert forall i :: 0 <= i < |init| ==> init[i].0 == entries[i].0 != entries[|entries| - 1].0;
        }
      }
    }
  }

  /** The tracking record of a kept ad: the creative's events override the
      ad-level `error` and `impression` lists, and nothing else is present. */
  lemma TrackingOfGet(a: VastAd, c: VastCreative, k: string)
    requires UniqueKeys(c.trackingEvents)
    ensures Get(TrackingOf(a, c), k) ==
            if Get(c.trackingEvents, k).Some? then Some(Some(Get(c.trackingEvents, k).value))
            else if k == "error" then Some(a.errorURLTemplates)
            else if k == "impression" then Some(ImpressionUrls(a))
            else None
  {
    SpreadGet(AdLevel(a), c.trackingEvents, k);
    var base := AdLevel(a);
    assert Get(base, k) == if k == "error" then Some(a.errorURLTemplates)
                           else if k == "impression" then Some(ImpressionUrls(a)) else None by {
      assert base[1..] == [("impression", ImpressionUrls(a))];
      assert base[1..][1..] == [];
    }
  }

  /** Spreading keeps the base's keys first and in place, and keys unique. */
  lemma {:induction false} SpreadKeys(base: AdTracking, entries: seq<(string, seq<string>)>)
    requires UniqueKeys(base)
    ensures UniqueKeys(Spread(base, entries))
    ensures |Spread(base, entries)| >= |base|
    ensures KeysOf(Spread(base, entries))[..|base|] == KeysOf(base)
  {
    if |entries| > 0 {
      var init := entries[..|entries| - 1];
      var last := entries[|entries| - 1];
      var s := Spread(base, init);
      SpreadKeys(base, init);
      PutKeys(s, last.0, Some(last.1));
      PutKeepsUnique(s, last.0, Some(last.1));
      var ks := KeysOf(Put(s, last.0, Some(last.1)));
      assert ks[..|base|] == KeysOf(s)[..|base|];
    }
  }

  /** A kept ad's tracking record has unique keys and starts with `error`
      then `impression`, so those are visited first. */
  lemma TrackingOfKeys(a: VastAd, c: VastCreative)
    ensures UniqueKeys(TrackingOf(a, c))
    ensures |TrackingOf(a, c)| >= 2 && TrackingOf(a, c)[0].0 == "error" && TrackingOf(a, c)[1].0 == "impression"
  {
    SpreadKeys(AdLevel(a), c.trackingEvents);
    var ks := KeysOf(TrackingOf(a, c));
    assert ks[..2] == ["error", "impression"];
    assert ks[0] == "error" && ks[1] == "impression";
  }

  /** The event types forwarded under their own name. */
  predicate Forwarded(key: string) {
    key == "start" || key == "firstQuartile" || key == "midpoint" || key == "thirdQuartile"
    || key == "complete" || key == "mute" || key == "unmute" || key == "pause" || key == "resume"
    || key == "error" || key == "impression"
  }

  /** The event type of a wire name. */
  function EventOfName(name: string): Option<EventType> {
    if name == "impression" then Some(Impression)
    else if name == "clickTracking" then Some(ClickTracking)
    else if name == "error" then Some(Error)
    else if name == "podEnd" then Some(PodEnd)
    else if name == "podStart" then Some(PodStart)
    else if name == "loaded" then Some(Loaded)
    else if name == "start" then Some(Start)
    else if name == "firstQuartile" then Some(FirstQuartile)
    else if name == "midpoint" then Some(Midpoint)
    else if name == "thirdQuartile" then Some(ThirdQuartile)
    else if name == "complete" then Some(Complete)
    else if name == "mute" then Some(Mute)
    else if name == "unmute" then Some(Unmute)
    else if name == "pause" then Some(Pause)
    else if name == "resume" then Some(Resume)
    else if name == "skip" then Some(Skip)
    else if name == "progress" then Some(Progress)
    else if name == "playerCollapse" then Some(PlayerCollapse)
    else if name == "playerExpand" then Some(PlayerExpand)
    else None
  }

  /** Every event type is read back from its name. */
  lemma EventNameRoundTrip(e: EventType)
    ensures EventOfName(EventName(e)) == Some(e)
  {
  }

  /** Every name that reads as an event type is that type's name. */
  lemma EventOfNameRoundTrip(name: string)
    ensures EventOfName(name).Some? ==> EventName(EventOfName(name).value) == name
  {
  }

  /** The event a tracking key is forwarded as: allow-listed keys under their
      own name, `collapse` and `expand` renamed, every other key dropped. */
  function ForwardedAs(key: string): Option<EventType> {
    if Forwarded(key) then EventOfName(key)
    else if key == "collapse" then Some(PlayerCollapse)
    else if key == "expand" then Some(PlayerExpand)
    else None
  }

  /** The tracking event a tracking entry yields: none for a missing or empty
      url list or an unforwarded key. */
  function EntryEvent(entry: (string, Option<seq<string>>)): Option<TrackingEvent> {
    if entry.1.None? || |entry.1.value| == 0 then None
    else
      var e := ForwardedAs(entry.0);
      if e.None? then None else Some(TrackingEvent(e.value, None, entry.1.value))
  }

  /** The envelope announcing `ad` at `start`. */
  function Signaling(ad: Ad, start: Num): Envelope {
    Envelope(2, SlotPayload([Slot(start, ad.duration, [AdIdentifier("adId", ad.id)],
                                  FilterMap(ad.tracking, EntryEvent))]))
  }

  /** `createAdCreativeSignaling(ad, start)`. */
  method CreateAdCreativeSignaling(ad: Ad, start: Num) returns (envelope: Envelope)
    ensures envelope == Signaling(ad, start)
  {
    var tracking: seq<TrackingEvent> := [];
    for i := 0 to |ad.tracking|
      invariant tracking == FilterMap(ad.tracking[..i], EntryEvent)
    {
      FilterMapStep(ad.tracking, i, EntryEvent);
      var key := ad.tracking[i].0;
      var urls := ad.tracking[i].1;
      if urls.None? || |urls.value| == 0 {
        continue;
      }
      EntryEventCases(key, urls.value);
      if Forwarded(key) {
        tracking := tracking + [TrackingEvent(EventOfName(key).value, None, urls.value)];
      }
      if key == "collapse" {
        tracking := tracking + [TrackingEvent(PlayerCollapse, None, urls.value)];
      }
      if key == "expand" {
        tracking := tracking + [TrackingEvent(PlayerExpand, None, urls.value)];
      }
    }
    assert ad.tracking[..|ad.tracking|] == ad.tracking;
    envelope := Envelope(2, SlotPayload([Slot(start, ad.duration, [AdIdentifier("adId", ad.id)], tracking)]));
  }

  /** The event of one tracking entry with urls, by the branch the loop of
      `createAdCreativeSignaling` takes for its key; the branches exclude
      each other. */
  lemma EntryEventCases(key: string, urls: seq<string>)
    requires |urls| > 0
    ensures Forwarded(key) ==>
      (key != "collapse" && key != "expand"
       && EntryEvent((key, Some(urls))) == Some(TrackingEvent(EventOfName(key).value, None, urls)))
    ensures key == "collapse" ==> EntryEvent((key, Some(urls))) == Some(TrackingEvent(PlayerCollapse, None, urls))
    ensures key == "expand" ==> EntryEvent((key, Some(urls))) == Some(TrackingEvent(PlayerExpand, None, urls))
    ensures !Forwarded(key) && key != "collapse" && key != "expand" ==> EntryEvent((key, Some(urls))).None?
  {
    ForwardedAsNames(key);
  }

  /** Forwarding: allow-listed keys keep their name, `collapse` becomes
      `playerCollapse`, `expand` becomes `playerExpand`, and nothing else is
      forwarded. */
  lemma ForwardedAsNames(key: string)
    ensures ForwardedAs(key).Some? <==> Forwarded(key) || key == "collapse" || key == "expand"
    ensures Forwarded(key) ==> EventName(ForwardedAs(key).value) == key
    ensures key == "collapse" ==> ForwardedAs(key) == Some(PlayerCollapse)
    ensures key == "expand" ==> ForwardedAs(key) == Some(PlayerExpand)
  {
    EventOfNameRoundTrip(key);
  }

  /** Distinct keys are forwarded as distinct events. */
  lemma ForwardedAsInjective(key: string, other: string)
    requires ForwardedAs(key).Some? && ForwardedAs(key) == ForwardedAs(other)
    ensures key == other
  {
    ForwardedAsNames(key);
    ForwardedAsNames(other);
  }

  /** The envelope is version 2, of type slot, with one linear slot carrying
      the start, the ad's duration and the ad's id as its only identifier. */
  lemma SignalingEnvelope(ad: Ad, start: Num)
    ensures var e := Signaling(ad, start);
            e.version == 2 && e.payload.SlotPayload? && |e.payload.slots| == 1
            && e.payload.slots[0].start == start && e.payload.slots[0].duration == ad.duration
            && e.payload.slots[0].identifiers == [AdIdentifier("adId", ad.id)]
  {
  }

  /** The tracking events, in record order, are exactly those of entries with
      a non-empty url list and a forwarded key, each with that key's list. */
  lemma SignalingTracking(tracking: AdTracking)
    ensures var ks := KeptIndices(tracking, EntryEvent);
            var out := FilterMap(tracking, EntryEvent);
            |out| == |ks|
            && (forall j :: 0 <= j < |ks| ==>
                  ks[j] < |tracking| && tracking[ks[j]].1 == Some(out[j].urls) && |out[j].urls| > 0
                  && ForwardedAs(tracking[ks[j]].0) == Some(out[j].eventType) && out[j].offset.None?)
            && (forall j, j' :: 0 <= j < j' < |ks| ==> ks[j] < ks[j'])
            && (forall k ::
                  (0 <= k < |tracking| && tracking[k].1.Some? && |tracking[k].1.value| > 0
                   && ForwardedAs(tracking[k].0).Some?) ==> k in ks)
  {
    FilterMapIsKept(tracking, EntryEvent);
  }

  /** With unique keys each key yields at most one event, so event types do
      not repeat. */
  lemma SignalingTypesDistinct(tracking: AdTracking)
    requires UniqueKeys(tracking)
    ensures var out := FilterMap(tracking, EntryEvent);
            forall j, j' :: 0 <= j < j' < |out| ==> out[j].eventType != out[j'].eventType
  {
    SignalingTracking(tracking);
    var ks := KeptIndices(tracking, EntryEvent);
    var out := FilterMap(tracking, EntryEvent);
    forall j, j' | 0 <= j < j' < |out|
      ensures out[j].eventType != out[j'].eventType
    {
      if out[j].eventType == out[j'].eventType {
        ForwardedAsInjective(tracking[ks[j]].0, tracking[ks[j']].0);
      }
    }
  }
}
