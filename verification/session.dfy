/** The session of `src/lib/session.ts`: the interstitials a session schedules,
    keyed by the instant they play at, and how `createSession` builds them from
    the request. Storage, the clock and `crypto.randomUUID` are parameters. */
module Sessions {
  import opened Wrappers
  import opened Values

  /** An interstitial asset: a static HLS asset with its measured duration, a
      VAST tag url, or inline VAST data. */
  datatype Asset = Static(url: string, duration: Num) | Vast(url: string) | VastData(data: string)

  /** An interstitial scheduled at `dateTime`. */
  datatype Interstitial = Interstitial(dateTime: DateTime, duration: Option<Num>, assets: Option<seq<Asset>>)

  /** No two interstitials share an instant. */
  predicate DistinctTimes(list: seq<Interstitial>) {
    forall i, j :: 0 <= i < j < |list| ==> list[i].dateTime != list[j].dateTime
  }

  /** The position of the first interstitial at `dateTime`, or -1. */
  function FindAt(list: seq<Interstitial>, dateTime: DateTime): (i: int)
    ensures -1 <= i < |list|
    ensures i >= 0 ==> list[i].dateTime == dateTime
    ensures forall k :: 0 <= k < |list| && (i < 0 || k < i) ==> list[k].dateTime != dateTime
  {
    if |list| == 0 then -1
    else
      var j := FindAt(list[..|list| - 1], dateTime);
      if j >= 0 then j
      else if list[|list| - 1].dateTime == dateTime then |list| - 1
      else -1
  }

  /** The merge of `value` into an existing interstitial `target`: incoming
      assets are appended to the target's (which start empty when it has none),
      and a truthy incoming duration replaces the target's. */
  function MergeInto(target: Interstitial, value: Interstitial): Interstitial {
    Interstitial(
      target.dateTime,
      if TruthyOpt(value.duration) then value.duration else target.duration,
      if value.assets.Some? then Some(target.assets.GetOr([]) + value.assets.value) else target.assets)
  }

  /** The interstitial list after `pushInterstitial(list, value)`. */
  function Merged(list: seq<Interstitial>, value: Interstitial): seq<Interstitial> {
    var i := FindAt(list, value.dateTime);
    if i < 0 then list + [value] else list[i := MergeInto(list[i], value)]
  }

  /** With no interstitial at the same instant, the new one is appended. */
  lemma MergeAppends(list: seq<Interstitial>, value: Interstitial)
    requires forall k :: 0 <= k < |list| ==> list[k].dateTime != value.dateTime
    ensures Merged(list, value) == list + [value]
    ensures |Merged(list, value)| == |list| + 1
  {
  }

  /** With an interstitial at the same instant, the first one is merged: the
      length stays, its assets are extended in order, its duration changes only
      for a truthy incoming duration, and every other entry is untouched. */
  lemma MergeUpdatesFirstMatch(list: seq<Interstitial>, value: Interstitial, i: nat)
    requires i < |list| && list[i].dateTime == value.dateTime
    requires forall k :: 0 <= k < i ==> list[k].dateTime != value.dateTime
    ensures var r := Merged(list, value);
            |r| == |list|
            && r[i].dateTime == list[i].dateTime
            && (value.assets.Some? ==> r[i].assets == Some(list[i].assets.GetOr([]) + value.assets.value))
            && (value.assets.None? ==> r[i].assets == list[i].assets)
            && r[i].duration == (if TruthyOpt(value.duration) then value.duration else list[i].duration)
            && forall k :: 0 <= k < |list| && k != i ==> r[k] == list[k]
  {
    var j := FindAt(list, value.dateTime);
    assert j == i;
  }

  /** Merging adds exactly the new instant to the set of instants, and keeps
      distinct instants distinct. */
  lemma MergeKeepsDistinct(list: seq<Interstitial>, value: Interstitial)
    requires DistinctTimes(list)
    ensures DistinctTimes(Merged(list, value))
    ensures forall k :: 0 <= k < |Merged(list, value)| ==>
              Merged(list, value)[k].dateTime == value.dateTime
              || exists m :: 0 <= m < |list| && list[m].dateTime == Merged(list, value)[k].dateTime
  {
    var r := Merged(list, value);
    var i := FindAt(list, value.dateTime);
    if i < 0 {
      assert r == list + [value];
    } else {
      assert forall k :: 0 <= k < |r| ==> r[k].dateTime == list[k].dateTime;
    }
  }

  /** A session: its id, start instant, content url, VMAP url and interstitials. */
  class Session {
    const id: string
    const startTime: DateTime
    const url: string
    const vmap: Option<string>
    var interstitials: seq<Interstitial>

    constructor (id: string, startTime: DateTime, url: string, vmap: Option<string>)
      ensures this.id == id && this.startTime == startTime && this.url == url && this.vmap == vmap
      ensures interstitials == []
    {
      this.id := id;
      this.startTime := startTime;
      this.url := url;
      this.vmap := vmap;
      interstitials := [];
    }

    /** `pushInterstitial(session.interstitials, value)`: find the first
        interstitial at the same instant, append when there is none, merge
        into it otherwise. */
    method PushInterstitial(value: Interstitial)
      modifies this
      ensures interstitials == Merged(old(interstitials), value)
    {
      var i := 0;
      while i < |interstitials| && interstitials[i].dateTime != value.dateTime
        invariant 0 <= i <= |interstitials|
        invariant forall k :: 0 <= k < i ==> interstitials[k].dateTime != value.dateTime
      {
        i := i + 1;
      }
      var j := FindAt(interstitials, value.dateTime);
      if i == |interstitials| {
        assert j < 0;
        interstitials := interstitials + [value];
      } else {
        assert j == i;
        var target := interstitials[i];
        var assets := target.assets;
        if value.assets.Some? {
          if assets.None? {
            assets := Some([]);
          }
          assets := Some(assets.value + value.assets.value);
        }
        var duration := target.duration;
        if TruthyOpt(value.duration) {
          duration := value.duration;
        }
        interstitials := interstitials[i := Interstitial(target.dateTime, duration, assets)];
      }
    }
  }

  /** The `time` of a requested interstitial: an ISO instant, or an offset in
      seconds, possibly fractional, from the session start. */
  datatype TimeSpec = IsoTime(text: string) | Offset(seconds: real)

  /** `toDateTime(startTime, time)`; `fromIso` is luxon's `DateTime.fromISO`.
      An offset moves the start by `1000 * seconds` milliseconds, down to the
      whole millisecond a `DateTime` holds. */
  function ToDateTime(startTime: DateTime, time: TimeSpec, fromIso: string -> DateTime): (r: DateTime)
    ensures time.IsoTime? ==> r == fromIso(time.text)
    ensures time.Offset? ==> (r - startTime) as real <= 1000.0 * time.seconds < (r - startTime + 1) as real
  {
    match time
    case IsoTime(text) => fromIso(text)
    case Offset(seconds) => startTime + (1000.0 * seconds).Floor
  }

  /** Offset 0 is the session start and `12.5` is 12 500 ms after it; later
      offsets never give earlier instants, offsets a millisecond or more apart
      give different instants, and offsets in whole milliseconds keep their
      order and their distinctness both ways. */
  lemma OffsetsKeepOrder(startTime: DateTime, a: real, b: real, fromIso: string -> DateTime)
    ensures ToDateTime(startTime, Offset(0.0), fromIso) == startTime
    ensures ToDateTime(startTime, Offset(12.5), fromIso) == startTime + 12500
    ensures a <= b ==> ToDateTime(startTime, Offset(a), fromIso) <= ToDateTime(startTime, Offset(b), fromIso)
    ensures a + 0.001 <= b ==> ToDateTime(startTime, Offset(a), fromIso) < ToDateTime(startTime, Offset(b), fromIso)
    ensures (1000.0 * a).Floor as real == 1000.0 * a && (1000.0 * b).Floor as real == 1000.0 * b ==>
              (a < b <==> ToDateTime(startTime, Offset(a), fromIso) < ToDateTime(startTime, Offset(b), fromIso))
              && (a == b <==> ToDateTime(startTime, Offset(a), fromIso) == ToDateTime(startTime, Offset(b), fromIso))
  {
    assert (1000.0 * 12.5).Floor == 12500;
  }

  /** A requested asset: its `type` string and its url. */
  datatype AssetParam = AssetParam(assetType: string, url: string)

  /** A requested interstitial. */
  datatype InterstitialParam = InterstitialParam(time: TimeSpec, duration: Option<Num>, assets: Option<seq<AssetParam>>)

  /** The asset a request entry maps to; `getDuration` measures a static
      asset's playlist. */
  function AssetOf(p: AssetParam, getDuration: string -> Num): Result<Asset> {
    if p.assetType == "static" then Ok(Static(p.url, getDuration(p.url)))
    else if p.assetType == "vast" then Ok(Vast(p.url))
    else Err("Unmapped asset type.")
  }

  /** The assets of a requested interstitial, mapped in order; one unmapped
      type fails the whole list. */
  function AssetsOf(ps: seq<AssetParam>, getDuration: string -> Num): Result<seq<Asset>>
  {
    if |ps| == 0 then Ok([])
    else
      var init := AssetsOf(ps[..|ps| - 1], getDuration);
      var last := AssetOf(ps[|ps| - 1], getDuration);
      if init.Err? then init
      else if last.Err? then Err(last.msg)
      else Ok(init.value + [last.value])
  }

  /** Mapping succeeds exactly when every type is `static` or `vast`; it then
      keeps the order, turns `static` into a static asset carrying the measured
      duration and `vast` into a VAST asset. */
  lemma {:induction false} AssetsOfMaps(ps: seq<AssetParam>, getDuration: string -> Num)
    ensures AssetsOf(ps, getDuration).Ok? <==>
            forall k :: 0 <= k < |ps| ==> ps[k].assetType == "static" || ps[k].assetType == "vast"
    ensures AssetsOf(ps, getDuration).Ok? ==>
            var r := AssetsOf(ps, getDuration).value;
            |r| == |ps|
            && forall k :: 0 <= k < |ps| ==>
                 r[k] == if ps[k].assetType == "static" then Static(ps[k].url, getDuration(ps[k].url))
                         else Vast(ps[k].url)
  {
    if |ps| > 0 {
      var init := ps[..|ps| - 1];
      AssetsOfMaps(init, getDuration);
      assert forall k :: 0 <= k < |init| ==> init[k] == ps[k];
    }
  }

  /** The interstitial a request entry describes; without assets it has an
      empty asset list. */
  function InterstitialOf(startTime: DateTime, p: InterstitialParam, assets: seq<Asset>,
                          fromIso: string -> DateTime): Interstitial {
    Interstitial(ToDateTime(startTime, p.time, fromIso), p.duration, Some(assets))
  }

  /** The interstitial list `createSession` builds: each request entry merged
      in order. */
  function Built(startTime: DateTime, ps: seq<InterstitialParam>, getDuration: string -> Num,
                 fromIso: string -> DateTime): Result<seq<Interstitial>>
  {
    if |ps| == 0 then Ok([])
    else
      var init := Built(startTime, ps[..|ps| - 1], getDuration, fromIso);
      var p := ps[|ps| - 1];
      var assets := if p.assets.Some? then AssetsOf(p.assets.value, getDuration) else Ok([]);
      if init.Err? then init
      else if assets.Err? then Err(assets.msg)
      else Ok(Merged(init.value, InterstitialOf(startTime, p, assets.value, fromIso)))
  }

  /** However the requests repeat instants, the built list holds each instant
      once and no more entries than requests. */
  lemma {:induction false} BuiltDistinct(startTime: DateTime, ps: seq<InterstitialParam>,
                                         getDuration: string -> Num, fromIso: string -> DateTime)
    requires Built(startTime, ps, getDuration, fromIso).Ok?
    ensures DistinctTimes(Built(startTime, ps, getDuration, fromIso).value)
    ensures |Built(startTime, ps, getDuration, fromIso).value| <= |ps|
  {
    if |ps| > 0 {
      var init := Built(startTime, ps[..|ps| - 1], getDuration, fromIso);
      BuiltDistinct(startTime, ps[..|ps| - 1], getDuration, fromIso);
      var p := ps[|ps| - 1];
      var assets := if p.assets.Some? then AssetsOf(p.assets.value, getDuration) else Ok([]);
      MergeKeepsDistinct(init.value, InterstitialOf(startTime, p, assets.value, fromIso));
    }
  }

  /** The interstitial part of `createSession`: a new session, then each
      requested interstitial mapped and pushed in order. */
  method CreateSession(id: string, startTime: DateTime, url: string, vmap: Option<string>,
                       params: Option<seq<InterstitialParam>>, getDuration: string -> Num,
                       fromIso: string -> DateTime)
    returns (r: Result<Session>)
    ensures r.Ok? <==> (params.None? || Built(startTime, params.value, getDuration, fromIso).Ok?)
    ensures r.Ok? ==> fresh(r.value) && r.value.id == id && r.value.startTime == startTime
                      && r.value.url == url && r.value.vmap == vmap
    ensures r.Ok? && params.Some? ==> r.value.interstitials == Built(startTime, params.value, getDuration, fromIso).value
    ensures r.Ok? && params.None? ==> r.value.interstitials == []
  {
    var session := new Session(id, startTime, url, vmap);
    if params.Some? {
      var ps := params.value;
      var i := 0;
      while i < |ps|
        invariant 0 <= i <= |ps|
        invariant Built(startTime, ps[..i], getDuration, fromIso).Ok?
        invariant session.interstitials == Built(startTime, ps[..i], getDuration, fromIso).value
        invariant fresh(session)
      {
        BuiltStep(startTime, ps, i, getDuration, fromIso);
        var value := ps[i];
        var assets: Result<seq<Asset>> := Ok([]);
        if value.assets.Some? {
          assets := AssetsOf(value.assets.value, getDuration);
        }
        if assets.Err? {
          BuiltFailsFrom(startTime, ps, i + 1, getDuration, fromIso);
          return Err(assets.msg);
        }
        session.PushInterstitial(InterstitialOf(startTime, value, assets.value, fromIso));
        i := i + 1;
      }
      assert ps[..i] == ps;
    }
    r := Ok(session);
  }

  /** One more request, merged when its assets resolve. */
  lemma BuiltStep(startTime: DateTime, ps: seq<InterstitialParam>, i: nat,
                  getDuration: string -> Num, fromIso: string -> DateTime)
    requires i < |ps| && Built(startTime, ps[..i], getDuration, fromIso).Ok?
    ensures var assets := if ps[i].assets.Some? then AssetsOf(ps[i].assets.value, getDuration) else Ok([]);
            Built(startTime, ps[..i + 1], getDuration, fromIso) ==
              if assets.Err? then Err(assets.msg)
              else Ok(Merged(Built(startTime, ps[..i], getDuration, fromIso).value,
                             InterstitialOf(startTime, ps[i], assets.value, fromIso)))
  {
    assert ps[..i + 1][..i] == ps[..i];
  }

  /** Once a prefix of the requests fails, the whole request fails. */
  lemma {:induction false} BuiltFailsFrom(startTime: DateTime, ps: seq<InterstitialParam>, n: nat,
                                          getDuration: string -> Num, fromIso: string -> DateTime)
    requires n <= |ps|
    requires Built(startTime, ps[..n], getDuration, fromIso).Err?
    ensures Built(startTime, ps, getDuration, fromIso).Err?
    decreases |ps| - n
  {
    if n < |ps| {
      assert ps[..n + 1][..n] == ps[..n];
      BuiltFailsFrom(startTime, ps, n + 1, getDuration, fromIso);
    } else {
      assert ps[..n] == ps;
    }
  }
}
