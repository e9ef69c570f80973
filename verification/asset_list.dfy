/** The asset accumulation of the `assetList` handler in
    `src/routes/out/out.handlers.ts`: the assets of the interstitial scheduled
    at the requested instant, with each VAST ad announced at the running total
    of the durations before it, followed by the session's own VAST ads. */
module AssetList {
  import opened Wrappers
  import opened Values
  import opened Svta
  import opened Sessions
  import Ads = Vast

  /** One entry of the `ASSETS` list of the response. */
  datatype AssetEntry = AssetEntry(uri: string, duration: Num, signaling: Option<Envelope>)

  // ------------------------------------------------------------ running totals

  /** `start` plus the durations of `es`, added left to right. */
  function DurationSum(start: Num, es: seq<AssetEntry>): Num {
    if |es| == 0 then start else Add(DurationSum(start, es[..|es| - 1]), es[|es| - 1].duration)
  }

  lemma {:induction false} DurationSumConcat(start: Num, a: seq<AssetEntry>, b: seq<AssetEntry>)
    ensures DurationSum(start, a + b) == DurationSum(DurationSum(start, a), b)
    decreases |b|
  {
    if |b| == 0 {
      assert a + b == a;
    } else {
      assert (a + b)[..|a + b| - 1] == a + b[..|b| - 1];
      assert (a + b)[|a + b| - 1] == b[|b| - 1];
      DurationSumConcat(start, a, b[..|b| - 1]);
    }
  }

  lemma DurationSumSnoc(start: Num, a: seq<AssetEntry>, e: AssetEntry)
    ensures DurationSum(start, a + [e]) == Add(DurationSum(start, a), e.duration)
  {
    assert (a + [e])[..|a|] == a;
  }

  /** Every announced entry starts at `start` plus the durations of the
      entries before it, and lasts its own duration. */
  predicate AnnouncedAtRunningTotal(start: Num, es: seq<AssetEntry>) {
    forall k :: 0 <= k < |es| && es[k].signaling.Some? ==>
      var env := es[k].signaling.value;
      env.payload.SlotPayload? && |env.payload.slots| == 1
      && env.payload.slots[0].start == DurationSum(start, es[..k])
      && env.payload.slots[0].duration == es[k].duration
  }

  lemma AnnouncedConcat(start: Num, a: seq<AssetEntry>, b: seq<AssetEntry>)
    requires AnnouncedAtRunningTotal(start, a) && AnnouncedAtRunningTotal(DurationSum(start, a), b)
    ensures AnnouncedAtRunningTotal(start, a + b)
  {
    forall k | |a| <= k < |a + b|
      ensures DurationSum(start, (a + b)[..k]) == DurationSum(DurationSum(start, a), b[..k - |a|])
    {
      assert (a + b)[..k] == a + b[..k - |a|];
      DurationSumConcat(start, a, b[..k - |a|]);
    }
    forall k | 0 <= k < |a|
      ensures (a + b)[..k] == a[..k]
    {
    }
  }

  // ------------------------------------------------------------------- entries

  /** The entries of resolved ads, the first announced at `start`. */
  function AdEntries(ads: seq<Ads.Ad>, start: Num): (es: seq<AssetEntry>)
    ensures |es| == |ads|
  {
    if |ads| == 0 then []
    else
      var init := ads[..|ads| - 1];
      var ad := ads[|ads| - 1];
      AdEntries(init, start) + [AssetEntry(ad.url, ad.duration, Some(Ads.Signaling(ad, DurationSum(start, AdEntries(init, start)))))]
  }

  /** The entries of one asset, with `total` the running total before it. */
  function AssetEntries(asset: Asset, total: Num, resolve: Asset -> seq<Ads.Ad>): seq<AssetEntry> {
    match asset
    case Static(url, duration) => [AssetEntry(url, duration, None)]
    case _ => AdEntries(resolve(asset), total)
  }

  /** The entries of an interstitial's assets, in asset order. */
  function Emitted(assets: seq<Asset>, resolve: Asset -> seq<Ads.Ad>): seq<AssetEntry> {
    if |assets| == 0 then []
    else
      var before := Emitted(assets[..|assets| - 1], resolve);
      before + AssetEntries(assets[|assets| - 1], DurationSum(Fin(0.0), before), resolve)
  }

  lemma EmittedStep(assets: seq<Asset>, n: nat, resolve: Asset -> seq<Ads.Ad>)
    requires n < |assets|
    ensures Emitted(assets[..n + 1], resolve) ==
      Emitted(assets[..n], resolve) + AssetEntries(assets[n], DurationSum(Fin(0.0), Emitted(assets[..n], resolve)), resolve)
  {
    assert assets[..n + 1][..n] == assets[..n];
  }

  lemma AdEntriesStep(ads: seq<Ads.Ad>, m: nat, start: Num)
    requires m < |ads|
    ensures AdEntries(ads[..m + 1], start) ==
      AdEntries(ads[..m], start) + [AssetEntry(ads[m].url, ads[m].duration, Some(Ads.Signaling(ads[m], DurationSum(start, AdEntries(ads[..m], start)))))]
  {
    assert ads[..m + 1][..m] == ads[..m];
  }

  /** The session's own VAST ads, without signaling. */
  function SessionAdEntries(vast: Option<string>, resolve: Asset -> seq<Ads.Ad>): (es: seq<AssetEntry>)
    ensures vast.Some? ==> |es| == |resolve(Vast(vast.value))|
  {
    if vast.None? then []
    else
      var ads := resolve(Vast(vast.value));
      seq(|ads|, i requires 0 <= i < |ads| => AssetEntry(ads[i].url, ads[i].duration, None))
  }

  /** The response body: the matching interstitial's entries (none without a
      match; iterating its missing asset list throws), then the session's. */
  function AssetListOf(interstitials: seq<Interstitial>, dateTime: DateTime, vast: Option<string>,
                       resolve: Asset -> seq<Ads.Ad>): Result<seq<AssetEntry>>
  {
    var i := FindAt(interstitials, dateTime);
    if i >= 0 && interstitials[i].assets.None? then Err("interstitial.assets is not iterable")
    else
      var own := if i < 0 then [] else Emitted(interstitials[i].assets.value, resolve);
      Ok(own + SessionAdEntries(vast, resolve))
  }

  /** The inner loop over the ads resolved from one asset: each is announced
      at the running total, which then grows by its duration. */
  method AnnounceAds(ads: seq<Ads.Ad>, before: seq<AssetEntry>, start: Num)
    returns (data: seq<AssetEntry>, totalDuration: Num)
    requires start == DurationSum(Fin(0.0), before)
    ensures data == before + AdEntries(ads, start)
    ensures totalDuration == DurationSum(Fin(0.0), data)
  {
    data, totalDuration := before, start;
    for m := 0 to |ads|
      invariant data == before + AdEntries(ads[..m], start)
      invariant totalDuration == DurationSum(Fin(0.0), data)
    {
      AnnounceStep(ads, m, start, before, data);
      var ad := ads[m];
      var adSignaling := Ads.CreateAdCreativeSignaling(ad, totalDuration);
      data := data + [AssetEntry(ad.url, ad.duration, Some(adSignaling))];
      totalDuration := Add(totalDuration, ad.duration);
    }
    assert ads[..|ads|] == ads;
  }

  /** One turn of the ad loop: the next entry is announced at the running
      total, which it extends by its duration. */
  lemma AnnounceStep(ads: seq<Ads.Ad>, m: nat, start: Num, before: seq<AssetEntry>, data: seq<AssetEntry>)
    requires m < |ads| && start == DurationSum(Fin(0.0), before)
    requires data == before + AdEntries(ads[..m], start)
    ensures var entry := AssetEntry(ads[m].url, ads[m].duration, Some(Ads.Signaling(ads[m], DurationSum(Fin(0.0), data))));
            before + AdEntries(ads[..m + 1], start) == data + [entry]
            && DurationSum(Fin(0.0), data + [entry]) == Add(DurationSum(Fin(0.0), data), ads[m].duration)
  {
    var done := AdEntries(ads[..m], start);
    AdEntriesStep(ads, m, start);
    DurationSumConcat(Fin(0.0), before, done);
    var entry := AssetEntry(ads[m].url, ads[m].duration, Some(Ads.Signaling(ads[m], DurationSum(Fin(0.0), data))));
    DurationSumSnoc(Fin(0.0), data, entry);
  }

  /** The loop over an interstitial's assets, with its `totalDuration`
      accumulator. */
  method EmitAssets(assets: seq<Asset>, resolve: Asset -> seq<Ads.Ad>) returns (data: seq<AssetEntry>)
    ensures data == Emitted(assets, resolve)
  {
    data := [];
    var totalDuration := Fin(0.0);
    for n := 0 to |assets|
      invariant data == Emitted(assets[..n], resolve)
      invariant totalDuration == DurationSum(Fin(0.0), data)
    {
      EmittedStep(assets, n, resolve);
      var asset := assets[n];
      if asset.Static? {
        var entry := AssetEntry(asset.url, asset.duration, None);
        assert (data + [entry])[..|data|] == data;
        data := data + [entry];
        totalDuration := Add(totalDuration, asset.duration);
      }
      if asset.Vast? || asset.VastData? {
        data, totalDuration := AnnounceAds(resolve(asset), data, totalDuration);
      }
    }
    assert assets[..|assets|] == assets;
  }

  /** The accumulation of `assetList`; `resolve` is `resolveVASTAsset` and
      `vast` the url of `session.vast`. */
  method AssetListFor(interstitials: seq<Interstitial>, dateTime: DateTime, vast: Option<string>,
                      resolve: Asset -> seq<Ads.Ad>) returns (r: Result<seq<AssetEntry>>)
    ensures r == AssetListOf(interstitials, dateTime, vast, resolve)
  {
    var data: seq<AssetEntry> := [];
    var found := FindAt(interstitials, dateTime);
    if found >= 0 {
      var interstitial := interstitials[found];
      if interstitial.assets.None? {
        return Err("interstitial.assets is not iterable");
      }
      data := EmitAssets(interstitial.assets.value, resolve);
    }
    data := AppendSessionAds(data, vast, resolve);
    r := Ok(data);
  }

  /** The loop over the ads of `session.vast`, appended without signaling. */
  method AppendSessionAds(own: seq<AssetEntry>, vast: Option<string>, resolve: Asset -> seq<Ads.Ad>)
    returns (data: seq<AssetEntry>)
    ensures data == own + SessionAdEntries(vast, resolve)
  {
    data := own;
    if vast.Some? {
      var ads := resolve(Vast(vast.value));
      ghost var session := SessionAdEntries(vast, resolve);
      for m := 0 to |ads|
        invariant data == own + session[..m]
      {
        assert session[..m + 1] == session[..m] + [AssetEntry(ads[m].url, ads[m].duration, None)];
        data := data + [AssetEntry(ads[m].url, ads[m].duration, None)];
      }
      assert session[..|ads|] == session;
    } else {
      assert own + SessionAdEntries(vast, resolve) == own;
    }
  }

  // ---------------------------------------------------------------- properties

  /** The resolved ads of an asset are announced at the running total, and
      appear in ad order with their own urls and durations. */
  lemma {:induction false} AdEntriesAnnounced(ads: seq<Ads.Ad>, start: Num)
    ensures AnnouncedAtRunningTotal(start, AdEntries(ads, start))
    ensures forall k :: 0 <= k < |ads| ==>
      AdEntries(ads, start)[k].uri == ads[k].url && AdEntries(ads, start)[k].duration == ads[k].duration
  {
    if |ads| > 0 {
      var init := ads[..|ads| - 1];
      var ad := ads[|ads| - 1];
      AdEntriesAnnounced(init, start);
      var last := [AssetEntry(ad.url, ad.duration, Some(Ads.Signaling(ad, DurationSum(start, AdEntries(init, start)))))];
      Ads.SignalingEnvelope(ad, DurationSum(start, AdEntries(init, start)));
      assert AnnouncedAtRunningTotal(DurationSum(start, AdEntries(init, start)), last) by {
        assert last[..0] == [];
      }
      AnnouncedConcat(start, AdEntries(init, start), last);
    }
  }

  /** Every announced entry of an interstitial starts at the sum of the
      durations of all entries emitted before it; static assets and the
      session's own ads carry no signaling. */
  lemma {:induction false} EmittedAnnounced(assets: seq<Asset>, resolve: Asset -> seq<Ads.Ad>)
    ensures AnnouncedAtRunningTotal(Fin(0.0), Emitted(assets, resolve))
  {
    if |assets| > 0 {
      var init := assets[..|assets| - 1];
      var before := Emitted(init, resolve);
      var asset := assets[|assets| - 1];
      EmittedAnnounced(init, resolve);
      var total := DurationSum(Fin(0.0), before);
      if asset.Static? {
        assert AnnouncedAtRunningTotal(total, AssetEntries(asset, total, resolve));
      } else {
        AdEntriesAnnounced(resolve(asset), total);
      }
      AnnouncedConcat(Fin(0.0), before, AssetEntries(asset, total, resolve));
    }
  }

  /** Each asset contributes its entries in asset order: a static asset one
      unsignaled entry with its url and duration, a VAST asset one entry per
      resolved ad. */
  lemma EmittedOrder(assets: seq<Asset>, asset: Asset, resolve: Asset -> seq<Ads.Ad>)
    ensures var before := Emitted(assets, resolve);
            Emitted(assets + [asset], resolve)[..|before|] == before
            && |Emitted(assets + [asset], resolve)| ==
               |before| + (if asset.Static? then 1 else |resolve(asset)|)
    ensures asset.Static? ==>
      Emitted(assets + [asset], resolve)[|Emitted(assets, resolve)|] == AssetEntry(asset.url, asset.duration, None)
  {
    assert (assets + [asset])[..|assets|] == assets;
  }

  /** The response: the interstitial's entries, announced at running totals,
      then the session's ads unannounced; with no interstitial at the instant,
      only the session's ads. */
  lemma AssetListShape(interstitials: seq<Interstitial>, dateTime: DateTime, vast: Option<string>,
                       resolve: Asset -> seq<Ads.Ad>)
    ensures var r := AssetListOf(interstitials, dateTime, vast, resolve);
            r.Ok? ==> AnnouncedAtRunningTotal(Fin(0.0), r.value)
    ensures (forall k :: 0 <= k < |interstitials| ==> interstitials[k].dateTime != dateTime) ==>
      AssetListOf(interstitials, dateTime, vast, resolve) == Ok(SessionAdEntries(vast, resolve))
    ensures AssetListOf(interstitials, dateTime, vast, resolve).Err? <==>
      exists k :: 0 <= k < |interstitials| && interstitials[k].dateTime == dateTime
        && FindAt(interstitials, dateTime) == k && interstitials[k].assets.None?
  {
    var i := FindAt(interstitials, dateTime);
    var s := SessionAdEntries(vast, resolve);
    var own := if i < 0 then [] else if interstitials[i].assets.None? then [] else Emitted(interstitials[i].assets.value, resolve);
    if i >= 0 && interstitials[i].assets.Some? {
      EmittedAnnounced(interstitials[i].assets.value, resolve);
    }
    assert AnnouncedAtRunningTotal(DurationSum(Fin(0.0), own), s);
    AnnouncedConcat(Fin(0.0), own, s);
    if i < 0 {
      assert own + s == s;
    }
  }
}
