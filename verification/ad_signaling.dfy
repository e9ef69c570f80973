/** The stand-alone copy of the ad-signaling builder in `src/ad-signaling.ts`.
    Its envelope types repeat those of `Svta` field for field, and its loop is
    the one of `Vast.CreateAdCreativeSignaling`; it is proved against the same
    specification, `Vast.Signaling`. */
module AdSignaling {
  import opened Wrappers
  import opened Values
  import opened Svta
  import opened Vast

  /** `createAdCreativeSignaling(ad, start)` of `src/ad-signaling.ts`: a slot
      envelope whose tracking follows the record order of `ad.tracking`. */
  method CreateAdCreativeSignaling(ad: Ad, start: Num) returns (envelope: Envelope)
    ensures envelope == Signaling(ad, start)
    ensures envelope.version == 2 && envelope.payload.SlotPayload? && |envelope.payload.slots| == 1
    ensures forall e :: e in envelope.payload.slots[0].tracking ==> |e.urls| > 0
  {
    var tracking: seq<TrackingEvent> := [];
    var i := 0;
    while i < |ad.tracking|
      invariant 0 <= i <= |ad.tracking|
      invariant tracking == FilterMap(ad.tracking[..i], EntryEvent)
    {
      FilterMapStep(ad.tracking, i, EntryEvent);
      var key := ad.tracking[i].0;
      var urls := ad.tracking[i].1;
      if urls.Some? && |urls.value| > 0 {
        EntryEventCases(key, urls.value);
        if Forwarded(key) {
          tracking := tracking + [TrackingEvent(EventOfName(key).value, None, urls.value)];
        }
        if key == "collapse" {
          tracking := tracking + [TrackingEvent(PlayerCollapse, None, urls.value)];
        }
        if key == "expand" {
          tracking := tracking + [TrackingEvent(PlayerExpand, None, urls.value)];
        }
      }
      i := i + 1;
    }
    assert ad.tracking[..i] == ad.tracking;
    SignalingUrlsNonEmpty(ad.tracking);
    envelope := Envelope(2, SlotPayload([Slot(start, ad.duration, [AdIdentifier("adId", ad.id)], tracking)]));
  }

  /** No tracking event carries an empty url list. */
  lemma SignalingUrlsNonEmpty(tracking: AdTracking)
    ensures forall e :: e in FilterMap(tracking, EntryEvent) ==> |e.urls| > 0
  {
    SignalingTracking(tracking);
  }
}
