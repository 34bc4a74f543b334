/** `DAOPromotion`: a promotion placed somewhere in the app, with texts, a
    schedule, a priority kept inside the framework's priority range, an
    optional app action and a list of media items. */
module Promotion {
  import opened Values
  import opened Foreign
  import AppAction

  const ActionKey := "action"
  const BodyKey := "body"
  const DisclaimerKey := "disclaimer"
  const DisplayDayOfWeekKey := "displayDayOfWeek"
  const EnabledKey := "enabled"
  const EndTimeKey := "endTime"
  const MediaItemsKey := "mediaItems"
  const PlacementKey := "placement"
  const PriorityKey := "priority"
  const StartTimeKey := "startTime"
  const SubtitleKey := "subtitle"
  const TitleKey := "title"

  const FieldKeys: set<string> := {ActionKey, BodyKey, DisclaimerKey, DisplayDayOfWeekKey, EnabledKey, EndTimeKey,
                                   MediaItemsKey, PlacementKey, PriorityKey, StartTimeKey, SubtitleKey, TitleKey}

  datatype Promotion = Promotion(
    base: Base,
    body: DnsString,
    disclaimer: DnsString,
    displayDayOfWeek: DayOfWeekFlags,
    enabled: bool,
    endTime: Time,
    placement: string,
    priority: int,
    startTime: Time,
    subtitle: DnsString,
    title: DnsString,
    action: Option<AppAction.Action>,
    mediaItems: seq<Media>)

  /** `C.defaultStartTime`: the reference date itself. */
  const DefaultStartTime := Time(0.0)

  /** `C.defaultEndTime`: thirty framework years after the reference date. */
  function DefaultEndTime(fw: Framework): Time {
    Time(fw.deltaOneYear * 30.0)
  }

  // ---- the priority clamp ----

  predicate InRange(sc: PriorityScale, p: int) {
    sc.none <= p <= sc.highest
  }

  /** The `didSet` observer of `priority`: values above `highest` become
      `highest`, values below `none` become `none`, the rest are kept. */
  function ClampPriority(sc: PriorityScale, p: int): (r: int)
    ensures p > sc.highest ==> r == sc.highest
    ensures p <= sc.highest && p < sc.none ==> r == sc.none
    ensures InRange(sc, p) ==> r == p
    ensures sc.none <= sc.highest ==> InRange(sc, r)
  {
    if p > sc.highest then sc.highest
    else if p < sc.none then sc.none
    else p
  }

  /** Re-assigning the stored priority leaves it unchanged. */
  lemma ClampIdempotent(sc: PriorityScale, p: int)
    requires sc.none <= sc.highest
    ensures ClampPriority(sc, ClampPriority(sc, p)) == ClampPriority(sc, p)
  {
  }

  /** Every promotion the operations below build keeps its priority in
      range. */
  predicate Valid(fw: Framework, x: Promotion) {
    InRange(fw.priority, x.priority)
  }

  /** Assigning `priority`, through its observer. */
  function SetPriority(fw: Framework, x: Promotion, p: int): (r: Promotion)
    requires fw.Sound()
    ensures Valid(fw, r)
    ensures InRange(fw.priority, p) ==> r == x.(priority := p)
    ensures p > fw.priority.highest ==> r == x.(priority := fw.priority.highest)
    ensures p < fw.priority.none ==> r == x.(priority := fw.priority.none)
  {
    x.(priority := ClampPriority(fw.priority, p))
  }

  /** `DAOPromotion()`: enabled, normal priority, empty texts, the default
      schedule, no action and no media. */
  function New(fw: Framework): (r: Promotion)
    requires fw.Sound()
    ensures Valid(fw, r)
    ensures r.base == fw.newBase
    ensures r.enabled && r.priority == fw.priority.normal
    ensures r.body.IsEmpty() && r.disclaimer.IsEmpty() && r.subtitle.IsEmpty() && r.title.IsEmpty()
    ensures r.placement == ""
    ensures r.displayDayOfWeek == fw.defaultDayOfWeek
    ensures r.startTime == DefaultStartTime && r.endTime == DefaultEndTime(fw)
    ensures r.action.None? && |r.mediaItems| == 0
  {
    Promotion(fw.newBase, EmptyDnsString, EmptyDnsString, fw.defaultDayOfWeek, true, DefaultEndTime(fw), "",
      fw.priority.normal, DefaultStartTime, EmptyDnsString, EmptyDnsString, None, [])
  }

  /** `update(from:)`: every field is taken from `o`; the priority passes
      through its observer again. */
  function Update(fw: Framework, x: Promotion, o: Promotion): (r: Promotion)
    requires fw.Sound()
    ensures Valid(fw, r)
    ensures r.base == fw.baseUpdate(x.base, o.base)
    ensures Valid(fw, o) ==> r == o.(base := fw.baseUpdate(x.base, o.base))
  {
    o.(base := fw.baseUpdate(x.base, o.base), priority := ClampPriority(fw.priority, o.priority))
  }

  // ---- dictionary translation ----

  /** `compactMap { createMedia(from: $0) }`: the media the failable
      initialiser accepts, in input order. */
  function CompactMedia(parse: Dictionary -> Option<Media>, s: seq<Dictionary>): (r: seq<Media>)
    ensures |r| <= |s|
    ensures forall m :: m in r ==> exists i :: 0 <= i < |s| && parse(s[i]) == Some(m)
    ensures forall i :: 0 <= i < |s| && parse(s[i]).Some? ==> parse(s[i]).value in r
    ensures (forall i :: 0 <= i < |s| ==> parse(s[i]).Some?) ==> |r| == |s|
    ensures (forall i :: 0 <= i < |s| ==> parse(s[i]).None?) ==> r == []
  {
    if |s| == 0 then []
    else
      var rest := CompactMedia(parse, s[1..]);
      assert forall i :: 1 <= i < |s| ==> s[i] == s[1..][i - 1];
      match parse(s[0])
      case Some(m) => [m] + rest
      case None => rest
  }

  /** The filter respects order: it distributes over concatenation. */
  lemma {:induction false} CompactMediaAppend(parse: Dictionary -> Option<Media>, s: seq<Dictionary>, t: seq<Dictionary>)
    ensures CompactMedia(parse, s + t) == CompactMedia(parse, s) + CompactMedia(parse, t)
  {
    if |s| == 0 {
      assert s + t == t;
    } else {
      assert (s + t)[1..] == s[1..] + t;
      CompactMediaAppend(parse, s[1..], t);
    }
  }

  /** `items` is what `parse` gives for the dictionaries of `s`, entry by
      entry. */
  predicate ParsesTo(parse: Dictionary -> Option<Media>, s: seq<Dictionary>, items: seq<Media>)
    decreases |s|
  {
    |s| == |items| && (|s| == 0 || (parse(s[0]) == Some(items[0]) && ParsesTo(parse, s[1..], items[1..])))
  }

  /** The entry-by-entry form follows from the pointwise one. */
  lemma {:induction false} ParsesToPointwise(parse: Dictionary -> Option<Media>, s: seq<Dictionary>, items: seq<Media>)
    requires |s| == |items|
    requires forall i :: 0 <= i < |s| ==> parse(s[i]) == Some(items[i])
    ensures ParsesTo(parse, s, items)
    decreases |s|
  {
    if |s| > 0 {
      var tail, tailItems := s[1..], items[1..];
      forall i | 0 <= i < |tail|
        ensures parse(tail[i]) == Some(tailItems[i])
      {
        assert tail[i] == s[i + 1] && tailItems[i] == items[i + 1];
      }
      ParsesToPointwise(parse, tail, tailItems);
    }
  }

  /** Filtering a list that parses entry by entry keeps every medium. */
  lemma {:induction false} CompactMediaOfParsed(parse: Dictionary -> Option<Media>, s: seq<Dictionary>, items: seq<Media>)
    requires ParsesTo(parse, s, items)
    ensures CompactMedia(parse, s) == items
    decreases |s|
  {
    if |s| > 0 {
      assert parse(s[0]) == Some(items[0]);
      assert CompactMedia(parse, s) == [items[0]] + CompactMedia(parse, s[1..]);
      CompactMediaOfParsed(parse, s[1..], items[1..]);
      assert items == [items[0]] + items[1..];
    }
  }

  /** When the initialiser accepts every dictionary, no medium is dropped:
      the result is the parsed list, in order. */
  lemma CompactMediaKeepsAll(parse: Dictionary -> Option<Media>, s: seq<Dictionary>, items: seq<Media>)
    requires |s| == |items|
    requires forall i :: 0 <= i < |s| ==> parse(s[i]) == Some(items[i])
    ensures CompactMedia(parse, s) == items
  {
    ParsesToPointwise(parse, s, items);
    CompactMediaOfParsed(parse, s, items);
  }

  /** `dao(from:)`. `action`, `displayDayOfWeek` and `mediaItems` are always
      rebuilt; the other nine fields keep their previous values unless the
      reader accepts what their key holds; the priority is clamped. */
  function Dao(fw: Framework, x: Promotion, data: Dictionary): (r: Promotion)
    requires fw.Sound()
    ensures Valid(fw, r)
    ensures r.base == fw.baseDao(x.base, data)
    ensures r.action == AppAction.FromDictionary(fw, CastDictionary(Lookup(data, ActionKey)).GetOr(map[]))
    ensures r.displayDayOfWeek == fw.dayOfWeekFromDictionary(CastDictionary(Lookup(data, DisplayDayOfWeekKey)).GetOr(map[]))
    ensures r.mediaItems == CompactMedia(fw.mediaFromDictionary, fw.readDataArray(Lookup(data, MediaItemsKey)))
    ensures fw.readInt(Lookup(data, PriorityKey)).Some? ==> r.priority == ClampPriority(fw.priority, fw.readInt(Lookup(data, PriorityKey)).value)
    ensures fw.readInt(Lookup(data, PriorityKey)).None? ==> r.priority == ClampPriority(fw.priority, x.priority)
    ensures fw.readDnsString(Lookup(data, BodyKey)).None? ==> r.body == x.body
    ensures fw.readDnsString(Lookup(data, BodyKey)).Some? ==> r.body == fw.readDnsString(Lookup(data, BodyKey)).value
    ensures fw.readString(Lookup(data, PlacementKey)).None? ==> r.placement == x.placement
    ensures fw.readString(Lookup(data, PlacementKey)).Some? ==> r.placement == fw.readString(Lookup(data, PlacementKey)).value
    ensures fw.readDnsString(Lookup(data, DisclaimerKey)).None? ==> r.disclaimer == x.disclaimer
    ensures fw.readDnsString(Lookup(data, DisclaimerKey)).Some? ==> r.disclaimer == fw.readDnsString(Lookup(data, DisclaimerKey)).value
    ensures fw.readBool(Lookup(data, EnabledKey)).None? ==> r.enabled == x.enabled
    ensures fw.readBool(Lookup(data, EnabledKey)).Some? ==> r.enabled == fw.readBool(Lookup(data, EnabledKey)).value
    ensures fw.readTime(Lookup(data, EndTimeKey)).None? ==> r.endTime == x.endTime
    ensures fw.readTime(Lookup(data, EndTimeKey)).Some? ==> r.endTime == fw.readTime(Lookup(data, EndTimeKey)).value
    ensures fw.readTime(Lookup(data, StartTimeKey)).None? ==> r.startTime == x.startTime
    ensures fw.readTime(Lookup(data, StartTimeKey)).Some? ==> r.startTime == fw.readTime(Lookup(data, StartTimeKey)).value
    ensures fw.readDnsString(Lookup(data, SubtitleKey)).None? ==> r.subtitle == x.subtitle
    ensures fw.readDnsString(Lookup(data, SubtitleKey)).Some? ==> r.subtitle == fw.readDnsString(Lookup(data, SubtitleKey)).value
    ensures fw.readDnsString(Lookup(data, TitleKey)).None? ==> r.title == x.title
    ensures fw.readDnsString(Lookup(data, TitleKey)).Some? ==> r.title == fw.readDnsString(Lookup(data, TitleKey)).value
  {
    Promotion(
      fw.baseDao(x.base, data),
      fw.readDnsString(Lookup(data, BodyKey)).GetOr(x.body),
      fw.readDnsString(Lookup(data, DisclaimerKey)).GetOr(x.disclaimer),
      fw.dayOfWeekFromDictionary(CastDictionary(Lookup(data, DisplayDayOfWeekKey)).GetOr(map[])),
      fw.readBool(Lookup(data, EnabledKey)).GetOr(x.enabled),
      fw.readTime(Lookup(data, EndTimeKey)).GetOr(x.endTime),
      fw.readString(Lookup(data, PlacementKey)).GetOr(x.placement),
      ClampPriority(fw.priority, fw.readInt(Lookup(data, PriorityKey)).GetOr(x.priority)),
      fw.readTime(Lookup(data, StartTimeKey)).GetOr(x.startTime),
      fw.readDnsString(Lookup(data, SubtitleKey)).GetOr(x.subtitle),
      fw.readDnsString(Lookup(data, TitleKey)).GetOr(x.title),
      AppAction.FromDictionary(fw, CastDictionary(Lookup(data, ActionKey)).GetOr(map[])),
      CompactMedia(fw.mediaFromDictionary, fw.readDataArray(Lookup(data, MediaItemsKey))))
  }

  /** `init?(from:)`: nil for an empty dictionary, otherwise a new promotion
      translated from it. */
  function FromDictionary(fw: Framework, data: Dictionary): (r: Option<Promotion>)
    requires fw.Sound()
    ensures r.None? <==> |data| == 0
    ensures r.Some? ==> Valid(fw, r.value) && r.value == Dao(fw, New(fw), data)
  {
    if |data| == 0 then None else Some(Dao(fw, New(fw), data))
  }

  /** `mediaItems.map { $0.asDictionary }`. */
  function MediaDictionaries(fw: Framework, items: seq<Media>): (r: seq<Value>)
    ensures |r| == |items|
    ensures forall i :: 0 <= i < |items| ==> r[i] == Dict(fw.mediaDictionary(items[i]))
  {
    seq(|items|, i requires 0 <= i < |items| => Dict(fw.mediaDictionary(items[i])))
  }

  /** `action?.asDictionary`: a stored nil when there is no action. */
  function ActionValue(fw: Framework, a: Option<AppAction.Action>): (r: Value)
    ensures r == Null <==> a.None?
    ensures a.Some? ==> r == Dict(AppAction.AsDictionary(fw, a.value))
  {
    if a.Some? then Dict(AppAction.AsDictionary(fw, a.value)) else Null
  }

  /** The promotion's own entries of `asDictionary`; dates are written with
      the framework's short military format. */
  function FieldEntries(fw: Framework, x: Promotion): (r: Dictionary)
    ensures r.Keys == FieldKeys
    ensures r[PriorityKey] == Int(x.priority)
    ensures r[EnabledKey] == Bool(x.enabled)
    ensures r[PlacementKey] == Str(x.placement)
    ensures r[MediaItemsKey] == Arr(MediaDictionaries(fw, x.mediaItems))
    ensures r[ActionKey] == ActionValue(fw, x.action)
    ensures r[BodyKey] == Dict(fw.stringDictionary(x.body))
    ensures r[DisclaimerKey] == Dict(fw.stringDictionary(x.disclaimer))
    ensures r[DisplayDayOfWeekKey] == Dict(fw.dayOfWeekDictionary(x.displayDayOfWeek))
    ensures r[EndTimeKey] == Str(fw.formatTime(x.endTime))
    ensures r[StartTimeKey] == Str(fw.formatTime(x.startTime))
    ensures r[SubtitleKey] == Dict(fw.stringDictionary(x.subtitle))
    ensures r[TitleKey] == Dict(fw.stringDictionary(x.title))
  {
    map k | k in FieldKeys :: FieldValue(fw, x, k)
  }

  /** The value `asDictionary` writes under the field key `k`. */
  function FieldValue(fw: Framework, x: Promotion, k: string): Value {
    if k == PriorityKey then Int(x.priority)
    else if k == EnabledKey then Bool(x.enabled)
    else if k == PlacementKey then Str(x.placement)
    else if k == MediaItemsKey then Arr(MediaDictionaries(fw, x.mediaItems))
    else if k == ActionKey then ActionValue(fw, x.action)
    else if k == BodyKey then Dict(fw.stringDictionary(x.body))
    else if k == DisclaimerKey then Dict(fw.stringDictionary(x.disclaimer))
    else if k == DisplayDayOfWeekKey then Dict(fw.dayOfWeekDictionary(x.displayDayOfWeek))
    else if k == EndTimeKey then Str(fw.formatTime(x.endTime))
    else if k == StartTimeKey then Str(fw.formatTime(x.startTime))
    else if k == SubtitleKey then Dict(fw.stringDictionary(x.subtitle))
    else Dict(fw.stringDictionary(x.title))
  }

  /** `asDictionary`: the twelve field keys merged below the base
      dictionary, whose value wins on a collision. */
  function AsDictionary(fw: Framework, x: Promotion): (r: Dictionary)
    ensures r.Keys == fw.baseDictionary(x.base).Keys + FieldKeys
    ensures forall k :: k in fw.baseDictionary(x.base) ==> r[k] == fw.baseDictionary(x.base)[k]
    ensures forall k :: k in FieldKeys && k !in fw.baseDictionary(x.base) ==> r[k] == FieldEntries(fw, x)[k]
  {
    FieldEntries(fw, x) + fw.baseDictionary(x.base)
  }

  // ---- comparison ----

  /** `hasDiffElementsFrom`: the media lists differ in length or in some
      position. */
  predicate MediaListsDiffer(fw: Framework, a: seq<Media>, b: seq<Media>) {
    |a| != |b| || exists i :: 0 <= i < |a| && fw.mediaDiff(a[i], b[i])
  }

  /** The action comparison `lhs.action?.isDiffFrom(rhs.action) ??
      (lhs.action != rhs.action)`. */
  function ActionsDiffer(fw: Framework, a: Option<AppAction.Action>, b: Option<AppAction.Action>): (r: bool)
    ensures a.None? ==> (r <==> b.Some?)
    ensures a.Some? && b.None? ==> r
    ensures a.Some? && b.Some? ==> (r <==> AppAction.IsDiffFrom(fw, a.value, Instance(b.value)))
  {
    match a
    case Some(x) => AppAction.IsDiffFrom(fw, x, if b.Some? then Instance(b.value) else Nil)
    case None => b.Some?
  }

  /** `isDiffFrom(_:)`. */
  function IsDiffFrom(fw: Framework, x: Promotion, rhs: Peer<Promotion>): (r: bool)
    ensures rhs.Nil? || rhs.OtherKind? ==> r
    ensures rhs.Same? ==> !r
    ensures rhs.Instance? && |x.mediaItems| != |rhs.value.mediaItems| ==> r
    ensures rhs.Instance? && (exists i :: 0 <= i < |x.mediaItems| && i < |rhs.value.mediaItems| && fw.mediaDiff(x.mediaItems[i], rhs.value.mediaItems[i])) ==> r
    ensures rhs.Instance? ==> (r <==>
      || fw.baseDiff(x.base, rhs.value.base)
      || ActionsDiffer(fw, x.action, rhs.value.action)
      || MediaListsDiffer(fw, x.mediaItems, rhs.value.mediaItems)
      || x.body != rhs.value.body
      || x.disclaimer != rhs.value.disclaimer
      || x.displayDayOfWeek != rhs.value.displayDayOfWeek
      || x.enabled != rhs.value.enabled
      || x.endTime != rhs.value.endTime
      || x.placement != rhs.value.placement
      || x.priority != rhs.value.priority
      || x.startTime != rhs.value.startTime
      || x.subtitle != rhs.value.subtitle
      || x.title != rhs.value.title)
  {
    match rhs
    case Nil => true
    case OtherKind => true
    case Same => false
    case Instance(y) =>
      if fw.baseDiff(x.base, y.base) then true
      else
        || ActionsDiffer(fw, x.action, y.action)
        || MediaListsDiffer(fw, x.mediaItems, y.mediaItems)
        || x.body != y.body
        || x.disclaimer != y.disclaimer
        || x.displayDayOfWeek != y.displayDayOfWeek
        || x.enabled != y.enabled
        || x.endTime != y.endTime
        || x.placement != y.placement
        || x.priority != y.priority
        || x.startTime != y.startTime
        || x.subtitle != y.subtitle
        || x.title != y.title
  }

  // ---- properties ----

  /** Each of the nine reader-translated fields whose key is missing keeps
      its value, whichever other keys are present; so does the (clamped)
      priority of a valid promotion. */
  lemma DaoKeepsMissingFields(fw: Framework, x: Promotion, data: Dictionary)
    requires fw.Sound() && Valid(fw, x)
    ensures BodyKey !in data ==> Dao(fw, x, data).body == x.body
    ensures DisclaimerKey !in data ==> Dao(fw, x, data).disclaimer == x.disclaimer
    ensures EnabledKey !in data ==> Dao(fw, x, data).enabled == x.enabled
    ensures EndTimeKey !in data ==> Dao(fw, x, data).endTime == x.endTime
    ensures PlacementKey !in data ==> Dao(fw, x, data).placement == x.placement
    ensures PriorityKey !in data ==> Dao(fw, x, data).priority == x.priority
    ensures StartTimeKey !in data ==> Dao(fw, x, data).startTime == x.startTime
    ensures SubtitleKey !in data ==> Dao(fw, x, data).subtitle == x.subtitle
    ensures TitleKey !in data ==> Dao(fw, x, data).title == x.title
  {
  }

  /** The action is not kept: a missing "action", or one that does not hold
      a non-empty dictionary, leaves the promotion without an action. */
  lemma DaoDropsMissingAction(fw: Framework, x: Promotion, data: Dictionary)
    requires fw.Sound()
    ensures ActionKey !in data ==> Dao(fw, x, data).action.None?
    ensures ActionKey in data && !data[ActionKey].Dict? ==> Dao(fw, x, data).action.None?
    ensures ActionKey in data && data[ActionKey] == Dict(map[]) ==> Dao(fw, x, data).action.None?
    ensures ActionKey in data && data[ActionKey].Dict? && |data[ActionKey].d| > 0 ==> Dao(fw, x, data).action.Some?
  {
  }

  /** The media list is filtered, never grown. */
  lemma DaoMediaItemsBound(fw: Framework, x: Promotion, data: Dictionary)
    requires fw.Sound()
    ensures |Dao(fw, x, data).mediaItems| <= |fw.readDataArray(Lookup(data, MediaItemsKey))|
    ensures MediaItemsKey !in data ==> Dao(fw, x, data).mediaItems == []
  {
  }

  /** Under a field key no base claims, `asDictionary` holds the field's
      own entry. */
  lemma AsDictionaryLookup(fw: Framework, x: Promotion, k: string)
    requires k in FieldKeys && k !in fw.baseDictionary(x.base)
    ensures Lookup(AsDictionary(fw, x), k) == Some(FieldValue(fw, x, k))
  {
  }

  /** No base dictionary claims one of the twelve field keys. */
  predicate OwnKeysFree(fw: Framework, x: Promotion) {
    forall k :: k in FieldKeys ==> k !in fw.baseDictionary(x.base)
  }

  /** The four texts read back from `asDictionary` unchanged. */
  lemma {:induction false} AsDictionaryThenDaoKeepsTexts(fw: Framework, x: Promotion, y: Promotion)
    requires fw.Sound() && fw.ReadsBackWhatItWrites()
    requires OwnKeysFree(fw, x)
    ensures Dao(fw, y, AsDictionary(fw, x)).body == x.body
    ensures Dao(fw, y, AsDictionary(fw, x)).disclaimer == x.disclaimer
    ensures Dao(fw, y, AsDictionary(fw, x)).subtitle == x.subtitle
    ensures Dao(fw, y, AsDictionary(fw, x)).title == x.title
  {
    AsDictionaryLookup(fw, x, BodyKey);
    AsDictionaryLookup(fw, x, DisclaimerKey);
    AsDictionaryLookup(fw, x, SubtitleKey);
    AsDictionaryLookup(fw, x, TitleKey);
  }

  /** Reading settings back: a dictionary holding the flag, placement,
      priority and day flags of a valid promotion, as `asDictionary` writes
      them, gives those values back; each time comes back when the time
      reader parses what its key holds to that time. */
  lemma DaoReadsBackSettings(fw: Framework, x: Promotion, y: Promotion, data: Dictionary)
    requires fw.Sound() && fw.ReadsBackWhatItWrites() && fw.ReadsPlainValues() && Valid(fw, x)
    requires Lookup(data, EnabledKey) == Some(Bool(x.enabled))
    requires Lookup(data, PlacementKey) == Some(Str(x.placement))
    requires Lookup(data, PriorityKey) == Some(Int(x.priority))
    requires Lookup(data, DisplayDayOfWeekKey) == Some(Dict(fw.dayOfWeekDictionary(x.displayDayOfWeek)))
    ensures Dao(fw, y, data).enabled == x.enabled
    ensures Dao(fw, y, data).placement == x.placement
    ensures Dao(fw, y, data).priority == x.priority
    ensures Dao(fw, y, data).displayDayOfWeek == x.displayDayOfWeek
    ensures fw.readTime(Lookup(data, EndTimeKey)) == Some(x.endTime) ==> Dao(fw, y, data).endTime == x.endTime
    ensures fw.readTime(Lookup(data, StartTimeKey)) == Some(x.startTime) ==> Dao(fw, y, data).startTime == x.startTime
  {
  }

  /** The flag, placement, priority of a valid promotion and display days
      read back from `asDictionary` unchanged; each time does too when the
      time reader parses the short military form of that time back to it. */
  lemma {:induction false} AsDictionaryThenDaoKeepsSettings(fw: Framework, x: Promotion, y: Promotion)
    requires fw.Sound() && fw.ReadsBackWhatItWrites() && fw.ReadsPlainValues() && Valid(fw, x)
    requires OwnKeysFree(fw, x)
    ensures Dao(fw, y, AsDictionary(fw, x)).enabled == x.enabled
    ensures Dao(fw, y, AsDictionary(fw, x)).placement == x.placement
    ensures Dao(fw, y, AsDictionary(fw, x)).priority == x.priority
    ensures Dao(fw, y, AsDictionary(fw, x)).displayDayOfWeek == x.displayDayOfWeek
    ensures fw.readTime(Some(Str(fw.formatTime(x.endTime)))) == Some(x.endTime) ==> Dao(fw, y, AsDictionary(fw, x)).endTime == x.endTime
    ensures fw.readTime(Some(Str(fw.formatTime(x.startTime)))) == Some(x.startTime) ==> Dao(fw, y, AsDictionary(fw, x)).startTime == x.startTime
  {
    var data := AsDictionary(fw, x);
    AsDictionaryLookup(fw, x, EnabledKey);
    AsDictionaryLookup(fw, x, PlacementKey);
    AsDictionaryLookup(fw, x, PriorityKey);
    AsDictionaryLookup(fw, x, DisplayDayOfWeekKey);
    AsDictionaryLookup(fw, x, EndTimeKey);
    AsDictionaryLookup(fw, x, StartTimeKey);
    DaoReadsBackSettings(fw, x, y, data);
  }

  /** The action reads back from `asDictionary`: none stays none, and an
      action comes back as the action `init?(from:)` builds from the
      action's own dictionary, which is never nil. */
  lemma {:induction false} AsDictionaryThenDaoKeepsAction(fw: Framework, x: Promotion, y: Promotion)
    requires fw.Sound()
    requires OwnKeysFree(fw, x)
    ensures x.action.None? ==> Dao(fw, y, AsDictionary(fw, x)).action.None?
    ensures x.action.Some? ==> Dao(fw, y, AsDictionary(fw, x)).action == Some(AppAction.Dao(fw, AppAction.New(fw), AppAction.AsDictionary(fw, x.action.value)))
  {
    var data := AsDictionary(fw, x);
    AsDictionaryLookup(fw, x, ActionKey);
    assert CastDictionary(Lookup(data, ActionKey)) == (if x.action.Some? then Some(AppAction.AsDictionary(fw, x.action.value)) else None);
    if x.action.Some? {
      assert AppAction.ActionTypeKey in AppAction.AsDictionary(fw, x.action.value);
    }
  }

  /** The media list reads back from `asDictionary` unchanged when the array
      reader returns the dictionaries written and the media initialiser
      accepts each medium's own dictionary. */
  lemma {:induction false} AsDictionaryThenDaoKeepsMedia(fw: Framework, x: Promotion, y: Promotion)
    requires fw.Sound()
    requires OwnKeysFree(fw, x)
    requires |fw.readDataArray(Some(Arr(MediaDictionaries(fw, x.mediaItems))))| == |x.mediaItems|
    requires forall i :: 0 <= i < |x.mediaItems| ==> fw.readDataArray(Some(Arr(MediaDictionaries(fw, x.mediaItems))))[i] == fw.mediaDictionary(x.mediaItems[i])
    requires forall i :: 0 <= i < |x.mediaItems| ==> fw.mediaFromDictionary(fw.mediaDictionary(x.mediaItems[i])) == Some(x.mediaItems[i])
    ensures Dao(fw, y, AsDictionary(fw, x)).mediaItems == x.mediaItems
  {
    AsDictionaryLookup(fw, x, MediaItemsKey);
    DaoReadsBackMedia(fw, x.mediaItems, y, AsDictionary(fw, x));
  }

  /** Reading media back: when the array under "mediaItems" reads as the
      media's own dictionaries and each is accepted, the list is restored. */
  lemma DaoReadsBackMedia(fw: Framework, items: seq<Media>, y: Promotion, data: Dictionary)
    requires fw.Sound()
    requires |fw.readDataArray(Lookup(data, MediaItemsKey))| == |items|
    requires forall i :: 0 <= i < |items| ==> fw.readDataArray(Lookup(data, MediaItemsKey))[i] == fw.mediaDictionary(items[i])
    requires forall i :: 0 <= i < |items| ==> fw.mediaFromDictionary(fw.mediaDictionary(items[i])) == Some(items[i])
    ensures Dao(fw, y, data).mediaItems == items
  {
    CompactMediaKeepsAll(fw.mediaFromDictionary, fw.readDataArray(Lookup(data, MediaItemsKey)), items);
  }

  /** `update(from: o)` followed by a comparison with `o`: the result
      differs exactly when the updated base still differs from `o`'s, when
      `o`'s action or media list differs from itself, or when the priority
      observer moved `o`'s priority into range. */
  lemma UpdateThenNotDiff(fw: Framework, x: Promotion, o: Promotion)
    requires fw.Sound()
    ensures IsDiffFrom(fw, Update(fw, x, o), Instance(o)) <==>
      || fw.baseDiff(fw.baseUpdate(x.base, o.base), o.base)
      || ActionsDiffer(fw, o.action, o.action)
      || MediaListsDiffer(fw, o.mediaItems, o.mediaItems)
      || ClampPriority(fw.priority, o.priority) != o.priority
  {
    var u := Update(fw, x, o);
    assert u.action == o.action && u.mediaItems == o.mediaItems;
  }

  /** Hence nothing differs after the update when the priority of `o` is in
      range, the framework's base and media comparisons are irreflexive and
      the updated base agrees with `o`'s. */
  lemma UpdateThenEqualWhenIrreflexive(fw: Framework, x: Promotion, o: Promotion)
    requires fw.Sound() && Valid(fw, o)
    requires forall b: Base :: !fw.baseDiff(b, b)
    requires forall m: Media :: !fw.mediaDiff(m, m)
    requires !fw.baseDiff(fw.baseUpdate(x.base, o.base), o.base)
    ensures !IsDiffFrom(fw, Update(fw, x, o), Instance(o))
  {
    UpdateThenNotDiff(fw, x, o);
    assert !MediaListsDiffer(fw, o.mediaItems, o.mediaItems);
  }
}
