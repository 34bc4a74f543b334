/** `DAOPromotionAnalytics`: view and tap statistics of one promotion over a
    period, as returned by the analytics API, normalised into nested
    records. */
module PromotionAnalytics {
  import opened Values
  import opened Foreign
  import Promotion

  const PromotionKey := "promotion"
  const PeriodKey := "period"
  const MetricsKey := "metrics"

  /** The promotion type assumed when the API sends none. */
  const DefaultPromoType := "DEAL"

  datatype Period = Period(start: Time, end: Time)
  datatype PlatformBreakdown = PlatformBreakdown(ios: int, android: int)
  datatype ScreenMetrics = ScreenMetrics(views: int, taps: int)
  datatype TimelineEntry = TimelineEntry(period: string, views: int, taps: int)

  datatype Metrics = Metrics(
    totalViews: int,
    totalTaps: int,
    viewsByPlatform: PlatformBreakdown,
    tapsByPlatform: PlatformBreakdown,
    byScreen: map<string, ScreenMetrics>,
    timeline: seq<TimelineEntry>)

  datatype Analytics = Analytics(
    base: Base,
    promotion: Option<Promotion.Promotion>,
    period: Period,
    metrics: Metrics)

  const NoPlatforms := PlatformBreakdown(0, 0)
  const NoMetrics := Metrics(0, 0, NoPlatforms, NoPlatforms, map[], [])

  // ---- engagement rates ----

  /** The computed `engagementRate` of the metrics, a screen and a timeline
      entry: taps per view, and 0 when there is no (positive) view count.
      Swift's `Double` division is modelled by exact real division. */
  function Rate(taps: int, views: int): (r: real)
    ensures views <= 0 ==> r == 0.0
    ensures views > 0 ==> r * (views as real) == taps as real
    ensures views > 0 && 0 <= taps <= views ==> 0.0 <= r <= 1.0
  {
    if views > 0 then (taps as real) / (views as real) else 0.0
  }

  function MetricsRate(m: Metrics): real { Rate(m.totalTaps, m.totalViews) }
  function ScreenRate(s: ScreenMetrics): real { Rate(s.taps, s.views) }
  function EntryRate(e: TimelineEntry): real { Rate(e.taps, e.views) }

  // ---- nested parsers ----

  /** `period(from:)`: starts from `Period()`, both ends at `now`, and sets
      an end when its key holds a string the date reader accepts. */
  function PeriodFrom(fw: Framework, data: Dictionary, now: Time): (r: Period)
    ensures fw.readDate(CastString(Lookup(data, "start"))).Some? ==> r.start == fw.readDate(CastString(Lookup(data, "start"))).value
    ensures fw.readDate(CastString(Lookup(data, "start"))).None? ==> r.start == now
    ensures fw.readDate(CastString(Lookup(data, "end"))).Some? ==> r.end == fw.readDate(CastString(Lookup(data, "end"))).value
    ensures fw.readDate(CastString(Lookup(data, "end"))).None? ==> r.end == now
  {
    Period(fw.readDate(CastString(Lookup(data, "start"))).GetOr(now),
           fw.readDate(CastString(Lookup(data, "end"))).GetOr(now))
  }

  /** `platformBreakdown(from:)`: each count read as an integer, 0 when the
      reader finds none. */
  function PlatformFrom(fw: Framework, data: Dictionary): (r: PlatformBreakdown)
    ensures fw.readInt(Lookup(data, "ios")).None? ==> r.ios == 0
    ensures fw.readInt(Lookup(data, "ios")).Some? ==> r.ios == fw.readInt(Lookup(data, "ios")).value
    ensures fw.readInt(Lookup(data, "android")).None? ==> r.android == 0
    ensures fw.readInt(Lookup(data, "android")).Some? ==> r.android == fw.readInt(Lookup(data, "android")).value
  {
    PlatformBreakdown(fw.readInt(Lookup(data, "ios")).GetOr(0), fw.readInt(Lookup(data, "android")).GetOr(0))
  }

  /** `screenMetrics(from:)`. */
  function ScreenFrom(fw: Framework, data: Dictionary): (r: ScreenMetrics)
    ensures fw.readInt(Lookup(data, "views")).None? ==> r.views == 0
    ensures fw.readInt(Lookup(data, "views")).Some? ==> r.views == fw.readInt(Lookup(data, "views")).value
    ensures fw.readInt(Lookup(data, "taps")).None? ==> r.taps == 0
    ensures fw.readInt(Lookup(data, "taps")).Some? ==> r.taps == fw.readInt(Lookup(data, "taps")).value
  {
    ScreenMetrics(fw.readInt(Lookup(data, "views")).GetOr(0), fw.readInt(Lookup(data, "taps")).GetOr(0))
  }

  /** `timelineEntry(from:)`. */
  function EntryFrom(fw: Framework, data: Dictionary): (r: TimelineEntry)
    ensures fw.readString(Lookup(data, "period")).None? ==> r.period == ""
    ensures fw.readString(Lookup(data, "period")).Some? ==> r.period == fw.readString(Lookup(data, "period")).value
    ensures fw.readInt(Lookup(data, "views")).None? ==> r.views == 0
    ensures fw.readInt(Lookup(data, "views")).Some? ==> r.views == fw.readInt(Lookup(data, "views")).value
    ensures fw.readInt(Lookup(data, "taps")).None? ==> r.taps == 0
    ensures fw.readInt(Lookup(data, "taps")).Some? ==> r.taps == fw.readInt(Lookup(data, "taps")).value
  {
    TimelineEntry(fw.readString(Lookup(data, "period")).GetOr(""),
                  fw.readInt(Lookup(data, "views")).GetOr(0),
                  fw.readInt(Lookup(data, "taps")).GetOr(0))
  }

  /** The `byScreen` section: one entry per key of the dictionary found
      under "byScreen", each parsed from the dictionary under that key. */
  function ByScreen(fw: Framework, screens: Dictionary): (r: map<string, ScreenMetrics>)
    ensures r.Keys == screens.Keys
    ensures forall k :: k in r ==> r[k] == ScreenFrom(fw, fw.readDictionary(Some(screens[k])))
  {
    map k | k in screens :: ScreenFrom(fw, fw.readDictionary(Some(screens[k])))
  }

  predicate AllDictionaries(a: seq<Value>) {
    forall i :: 0 <= i < |a| ==> a[i].Dict?
  }

  /** Timeline normalisation. An array of dictionaries maps one entry per
      element; any other array maps every element through the dictionary
      reader (which never fails, so no element is dropped); a non-array
      value the dictionary reader turns into a non-empty dictionary gives a
      one-entry timeline; anything else an empty one. */
  function Timeline(fw: Framework, v: Option<Value>): (r: seq<TimelineEntry>)
    ensures v.Some? && v.value.Arr? ==> |r| == |v.value.a|
    ensures v.Some? && v.value.Arr? && AllDictionaries(v.value.a) ==>
      forall i :: 0 <= i < |r| ==> r[i] == EntryFrom(fw, v.value.a[i].d)
    ensures v.Some? && v.value.Arr? && !AllDictionaries(v.value.a) ==>
      forall i :: 0 <= i < |r| ==> r[i] == EntryFrom(fw, fw.readDictionary(Some(v.value.a[i])))
    ensures !(v.Some? && v.value.Arr?) && |fw.readDictionary(v)| > 0 ==> r == [EntryFrom(fw, fw.readDictionary(v))]
    ensures !(v.Some? && v.value.Arr?) && |fw.readDictionary(v)| == 0 ==> r == []
  {
    match v
    case Some(Arr(a)) =>
      if AllDictionaries(a) then
        seq(|a|, i requires 0 <= i < |a| => EntryFrom(fw, a[i].d))
      else
        seq(|a|, i requires 0 <= i < |a| => EntryFrom(fw, fw.readDictionary(Some(a[i]))))
    case _ =>
      var single := fw.readDictionary(v);
      if |single| > 0 then [EntryFrom(fw, single)] else []
  }

  /** `metrics(from:)`: the totals are cast (not read) as integers, the
      platform sections read through the dictionary reader. */
  function MetricsFrom(fw: Framework, data: Dictionary): (r: Metrics)
    ensures r.totalViews == CastInt(Lookup(data, "totalViews")).GetOr(0)
    ensures r.totalTaps == CastInt(Lookup(data, "totalTaps")).GetOr(0)
    ensures r.viewsByPlatform == PlatformFrom(fw, fw.readDictionary(Lookup(data, "viewsByPlatform")))
    ensures r.tapsByPlatform == PlatformFrom(fw, fw.readDictionary(Lookup(data, "tapsByPlatform")))
    ensures r.byScreen.Keys == fw.readDictionary(Lookup(data, "byScreen")).Keys
    ensures r.byScreen == ByScreen(fw, fw.readDictionary(Lookup(data, "byScreen")))
    ensures r.timeline == Timeline(fw, Lookup(data, "timeline"))
  {
    Metrics(
      CastInt(Lookup(data, "totalViews")).GetOr(0),
      CastInt(Lookup(data, "totalTaps")).GetOr(0),
      PlatformFrom(fw, fw.readDictionary(Lookup(data, "viewsByPlatform"))),
      PlatformFrom(fw, fw.readDictionary(Lookup(data, "tapsByPlatform"))),
      ByScreen(fw, fw.readDictionary(Lookup(data, "byScreen"))),
      Timeline(fw, Lookup(data, "timeline")))
  }

  // ---- the object ----

  /** `DAOPromotionAnalytics()`: no promotion, a period `Period()` taken at
      `now`, zero metrics. */
  function New(fw: Framework, now: Time): (r: Analytics)
    ensures r.base == fw.newBase && r.promotion.None?
    ensures r.period.start == now && r.period.end == now
    ensures r.metrics == NoMetrics
    ensures r.metrics.totalViews == 0 && r.metrics.totalTaps == 0 && MetricsRate(r.metrics) == 0.0
    ensures r.metrics.viewsByPlatform == PlatformBreakdown(0, 0) && r.metrics.tapsByPlatform == PlatformBreakdown(0, 0)
    ensures |r.metrics.byScreen| == 0 && |r.metrics.timeline| == 0
  {
    Analytics(fw.newBase, None, Period(now, now), NoMetrics)
  }

  /** The dictionary the promotion is built from: the API's promo code as
      its id and its promo type, defaulting to "" and "DEAL". */
  function PromotionData(fw: Framework, data: Dictionary): (r: Dictionary)
    ensures r.Keys == {"id", "type"}
    ensures r["id"] == Str(fw.readString(Lookup(data, "promoCode")).GetOr(""))
    ensures r["type"] == Str(fw.readString(Lookup(data, "promoType")).GetOr(DefaultPromoType))
  {
    map["id" := Str(fw.readString(Lookup(data, "promoCode")).GetOr("")),
        "type" := Str(fw.readString(Lookup(data, "promoType")).GetOr(DefaultPromoType))]
  }

  /** `dao(from:)`: the promotion is always rebuilt from the two-entry
      dictionary; `period` and `metrics` are replaced only when their keys
      hold dictionaries. */
  function Dao(fw: Framework, x: Analytics, data: Dictionary, now: Time): (r: Analytics)
    requires fw.Sound()
    ensures r.base == fw.baseDao(x.base, data)
    ensures r.promotion.Some?
    ensures r.promotion == Promotion.FromDictionary(fw, PromotionData(fw, data))
    ensures CastDictionary(Lookup(data, PeriodKey)).None? ==> r.period == x.period
    ensures CastDictionary(Lookup(data, PeriodKey)).Some? ==> r.period == PeriodFrom(fw, CastDictionary(Lookup(data, PeriodKey)).value, now)
    ensures CastDictionary(Lookup(data, MetricsKey)).None? ==> r.metrics == x.metrics
    ensures CastDictionary(Lookup(data, MetricsKey)).Some? ==> r.metrics == MetricsFrom(fw, CastDictionary(Lookup(data, MetricsKey)).value)
  {
    var promoData := PromotionData(fw, data);
    assert "id" in promoData;
    Analytics(
      fw.baseDao(x.base, data),
      Promotion.FromDictionary(fw, promoData),
      match CastDictionary(Lookup(data, PeriodKey))
      case Some(p) => PeriodFrom(fw, p, now)
      case None => x.period,
      match CastDictionary(Lookup(data, MetricsKey))
      case Some(m) => MetricsFrom(fw, m)
      case None => x.metrics)
  }

  /** `init?(from:)`: nil for an empty dictionary, otherwise a new object
      translated from it. */
  function FromDictionary(fw: Framework, data: Dictionary, now: Time): (r: Option<Analytics>)
    requires fw.Sound()
    ensures r.None? <==> |data| == 0
    ensures r.Some? ==> r.value == Dao(fw, New(fw, now), data, now)
  {
    if |data| == 0 then None else Some(Dao(fw, New(fw, now), data, now))
  }

  /** `update(from:)`: metrics, period and a copy of the promotion are taken
      from `o`. */
  function Update(fw: Framework, x: Analytics, o: Analytics): (r: Analytics)
    ensures r.base == fw.baseUpdate(x.base, o.base)
    ensures r.metrics == o.metrics && r.period == o.period && r.promotion == o.promotion
  {
    o.(base := fw.baseUpdate(x.base, o.base))
  }

  /** `promotion?.isDiffFrom(rhs.promotion) ?? (promotion != rhs.promotion)`. */
  function PromotionsDiffer(fw: Framework, a: Option<Promotion.Promotion>, b: Option<Promotion.Promotion>): (r: bool)
    ensures a.None? ==> (r <==> b.Some?)
    ensures a.Some? && b.None? ==> r
    ensures a.Some? && b.Some? ==> (r <==> Promotion.IsDiffFrom(fw, a.value, Instance(b.value)))
  {
    match a
    case Some(p) => Promotion.IsDiffFrom(fw, p, if b.Some? then Instance(b.value) else Nil)
    case None => b.Some?
  }

  /** `isDiffFrom(_:)`. */
  function IsDiffFrom(fw: Framework, x: Analytics, rhs: Peer<Analytics>): (r: bool)
    ensures rhs.Nil? || rhs.OtherKind? ==> r
    ensures rhs.Same? ==> !r
    ensures rhs.Instance? && (x.period != rhs.value.period || x.metrics != rhs.value.metrics) ==> r
    ensures rhs.Instance? ==> (r <==>
      || fw.baseDiff(x.base, rhs.value.base)
      || PromotionsDiffer(fw, x.promotion, rhs.value.promotion)
      || x.period != rhs.value.period
      || x.metrics != rhs.value.metrics)
  {
    match rhs
    case Nil => true
    case OtherKind => true
    case Same => false
    case Instance(y) =>
      if fw.baseDiff(x.base, y.base) then true
      else
        || PromotionsDiffer(fw, x.promotion, y.promotion)
        || x.period != y.period
        || x.metrics != y.metrics
  }

  // ---- dictionaries written by `asDictionary` ----

  /** `periodAsDictionary`: both ends stored as `Date` objects. */
  function PeriodDictionary(p: Period): Dictionary {
    map["start" := Obj(DateObject(p.start)), "end" := Obj(DateObject(p.end))]
  }

  function PlatformDictionary(b: PlatformBreakdown): Dictionary {
    map["ios" := Int(b.ios), "android" := Int(b.android)]
  }

  function ScreenDictionary(s: ScreenMetrics): Dictionary {
    map["views" := Int(s.views), "taps" := Int(s.taps)]
  }

  function EntryDictionary(e: TimelineEntry): Dictionary {
    map["period" := Str(e.period), "views" := Int(e.views), "taps" := Int(e.taps)]
  }

  function ScreensValue(screens: map<string, ScreenMetrics>): Value {
    Dict(map k | k in screens :: Dict(ScreenDictionary(screens[k])))
  }

  function TimelineValue(t: seq<TimelineEntry>): Value {
    Arr(seq(|t|, i requires 0 <= i < |t| => Dict(EntryDictionary(t[i]))))
  }

  /** `metricsAsDictionary`. */
  function MetricsDictionary(m: Metrics): Dictionary {
    map[
      "totalViews" := Int(m.totalViews),
      "totalTaps" := Int(m.totalTaps),
      "viewsByPlatform" := Dict(PlatformDictionary(m.viewsByPlatform)),
      "tapsByPlatform" := Dict(PlatformDictionary(m.tapsByPlatform)),
      "byScreen" := ScreensValue(m.byScreen),
      "timeline" := TimelineValue(m.timeline)
    ]
  }

  /** The object's own entries of `asDictionary`: the promotion only when
      there is one. */
  function FieldEntries(fw: Framework, x: Analytics): (r: Dictionary)
    ensures r.Keys == {PeriodKey, MetricsKey} + (if x.promotion.Some? then {PromotionKey} else {})
    ensures r[PeriodKey] == Dict(PeriodDictionary(x.period))
    ensures r[MetricsKey] == Dict(MetricsDictionary(x.metrics))
    ensures x.promotion.Some? ==> r[PromotionKey] == Dict(Promotion.AsDictionary(fw, x.promotion.value))
  {
    assert PeriodKey != MetricsKey && PeriodKey != PromotionKey && MetricsKey != PromotionKey;
    map k | k in {PeriodKey, MetricsKey} + (if x.promotion.Some? then {PromotionKey} else {}) :: FieldValue(fw, x, k)
  }

  /** The value `asDictionary` writes under the field key `k`. */
  function FieldValue(fw: Framework, x: Analytics, k: string): Value {
    if k == PeriodKey then Dict(PeriodDictionary(x.period))
    else if k == MetricsKey then Dict(MetricsDictionary(x.metrics))
    else if x.promotion.Some? then Dict(Promotion.AsDictionary(fw, x.promotion.value))
    else Null
  }

  /** `asDictionary`: the object's entries merged below the base
      dictionary, whose value wins on a collision. */
  function AsDictionary(fw: Framework, x: Analytics): (r: Dictionary)
    ensures r.Keys == fw.baseDictionary(x.base).Keys + FieldEntries(fw, x).Keys
    ensures PromotionKey in r <==> x.promotion.Some? || PromotionKey in fw.baseDictionary(x.base)
    ensures forall k :: k in fw.baseDictionary(x.base) ==> r[k] == fw.baseDictionary(x.base)[k]
    ensures PeriodKey !in fw.baseDictionary(x.base) ==> r[PeriodKey] == Dict(PeriodDictionary(x.period))
    ensures MetricsKey !in fw.baseDictionary(x.base) ==> r[MetricsKey] == Dict(MetricsDictionary(x.metrics))
    ensures PromotionKey !in fw.baseDictionary(x.base) && x.promotion.Some? ==>
      r[PromotionKey] == Dict(Promotion.AsDictionary(fw, x.promotion.value))
  {
    FieldEntries(fw, x) + fw.baseDictionary(x.base)
  }

  // ---- properties ----

  /** The promotion built by `dao(from:)` is never nil: its source
      dictionary always has two entries. */
  lemma DaoBuildsPromotion(fw: Framework, x: Analytics, data: Dictionary, now: Time)
    requires fw.Sound()
    ensures Dao(fw, x, data, now).promotion.Some?
    ensures Dao(fw, x, data, now).promotion.value ==
      Promotion.Dao(fw, Promotion.New(fw), PromotionData(fw, data))
  {
  }

  /** Missing totals and platform counts are 0. */
  lemma MetricsDefaultToZero(fw: Framework, data: Dictionary)
    requires fw.Sound()
    requires "totalViews" !in data && "totalTaps" !in data
    requires "viewsByPlatform" !in data && "tapsByPlatform" !in data
    ensures MetricsFrom(fw, data).totalViews == 0 && MetricsFrom(fw, data).totalTaps == 0
    ensures MetricsFrom(fw, data).viewsByPlatform == NoPlatforms
    ensures MetricsFrom(fw, data).tapsByPlatform == NoPlatforms
    ensures MetricsRate(MetricsFrom(fw, data)) == 0.0
  {
  }

  /** When the dictionary reader hands dictionaries back unchanged, the two
      array branches of the timeline normalisation agree, and a single
      dictionary sent instead of an array becomes a one-entry timeline. */
  lemma TimelineBranchesAgree(fw: Framework, a: seq<Value>, d: Dictionary)
    requires fw.KeepsDictionaries()
    requires AllDictionaries(a)
    ensures Timeline(fw, Some(Arr(a))) ==
      seq(|a|, i requires 0 <= i < |a| => EntryFrom(fw, fw.readDictionary(Some(a[i]))))
    ensures |d| > 0 ==> Timeline(fw, Some(Dict(d))) == [EntryFrom(fw, d)]
    ensures |d| == 0 ==> Timeline(fw, Some(Dict(d))) == []
  {
    assert fw.readDictionary(Some(Dict(d))) == d;
    forall i | 0 <= i < |a|
      ensures fw.readDictionary(Some(a[i])) == a[i].d
    {
      assert a[i] == Dict(a[i].d);
    }
  }

  /** A missing timeline is empty. */
  lemma TimelineMissingIsEmpty(fw: Framework)
    requires fw.Sound()
    ensures Timeline(fw, None) == []
  {
  }

  /** After `update(from: o)` the object differs from `o` only through the
      bases or the promotion's own comparison. */
  lemma UpdateThenNotDiff(fw: Framework, x: Analytics, o: Analytics)
    ensures IsDiffFrom(fw, Update(fw, x, o), Instance(o)) <==>
      fw.baseDiff(fw.baseUpdate(x.base, o.base), o.base) || PromotionsDiffer(fw, o.promotion, o.promotion)
  {
  }

  /** `metrics(from:)` reads back exactly what `metricsAsDictionary` wrote,
      given readers that accept plain values and dictionaries as they are. */
  lemma {:induction false} MetricsRoundTrip(fw: Framework, m: Metrics)
    requires fw.KeepsDictionaries() && fw.ReadsPlainValues()
    ensures MetricsFrom(fw, MetricsDictionary(m)) == m
  {
    var d := MetricsDictionary(m);
    PlatformRoundTrip(fw, m.viewsByPlatform);
    PlatformRoundTrip(fw, m.tapsByPlatform);
    assert fw.readDictionary(Lookup(d, "viewsByPlatform")) == PlatformDictionary(m.viewsByPlatform);
    assert fw.readDictionary(Lookup(d, "tapsByPlatform")) == PlatformDictionary(m.tapsByPlatform);
    ScreensRoundTrip(fw, m.byScreen);
    TimelineRoundTrip(fw, m.timeline);
  }

  lemma PlatformRoundTrip(fw: Framework, b: PlatformBreakdown)
    requires fw.ReadsPlainValues()
    ensures PlatformFrom(fw, PlatformDictionary(b)) == b
  {
    assert fw.readInt(Some(Int(b.ios))) == Some(b.ios);
    assert fw.readInt(Some(Int(b.android))) == Some(b.android);
  }

  lemma ScreensRoundTrip(fw: Framework, screens: map<string, ScreenMetrics>)
    requires fw.KeepsDictionaries() && fw.ReadsPlainValues()
    ensures ByScreen(fw, fw.readDictionary(Some(ScreensValue(screens)))) == screens
  {
    var written := map k | k in screens :: Dict(ScreenDictionary(screens[k]));
    assert fw.readDictionary(Some(Dict(written))) == written;
    var r := ByScreen(fw, written);
    forall k | k in screens
      ensures r[k] == screens[k]
    {
      var s := screens[k];
      assert fw.readDictionary(Some(Dict(ScreenDictionary(s)))) == ScreenDictionary(s);
      assert fw.readInt(Some(Int(s.views))) == Some(s.views);
      assert fw.readInt(Some(Int(s.taps))) == Some(s.taps);
    }
  }

  lemma TimelineRoundTrip(fw: Framework, t: seq<TimelineEntry>)
    requires fw.ReadsPlainValues()
    ensures Timeline(fw, Some(TimelineValue(t))) == t
  {
    var a := TimelineValue(t).a;
    assert AllDictionaries(a);
    forall i | 0 <= i < |t|
      ensures EntryFrom(fw, a[i].d) == t[i]
    {
      var e := t[i];
      assert fw.readString(Some(Str(e.period))) == Some(e.period);
      assert fw.readInt(Some(Int(e.views))) == Some(e.views);
      assert fw.readInt(Some(Int(e.taps))) == Some(e.taps);
    }
  }

  /** Translating `asDictionary` back keeps the metrics when the base
      dictionary does not claim their key. */
  lemma DaoOfAsDictionaryKeepsMetrics(fw: Framework, x: Analytics, y: Analytics, now: Time)
    requires fw.Sound() && fw.KeepsDictionaries() && fw.ReadsPlainValues()
    requires MetricsKey !in fw.baseDictionary(x.base)
    ensures Dao(fw, y, AsDictionary(fw, x), now).metrics == x.metrics
  {
    MetricsRoundTrip(fw, x.metrics);
  }

  /** The period does not survive the same round trip: `asDictionary` stores
      its ends as `Date` objects, while `period(from:)` accepts only strings,
      so both ends fall back to the translation time. */
  lemma PeriodDoesNotRoundTrip(fw: Framework, x: Analytics, y: Analytics, now: Time)
    requires fw.Sound()
    requires PeriodKey !in fw.baseDictionary(x.base)
    ensures Dao(fw, y, AsDictionary(fw, x), now).period == Period(now, now)
  {
    var d := AsDictionary(fw, x);
    var pd := PeriodDictionary(x.period);
    assert CastDictionary(Lookup(d, PeriodKey)) == Some(pd);
    assert CastString(Lookup(pd, "start")) == None;
    assert CastString(Lookup(pd, "end")) == None;
  }
}
