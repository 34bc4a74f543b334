/** `DAOAppAction`: an action shown to the user (a popup, a drawer, ...),
    with an optional deep link and three nested objects for its images,
    texts and button styles. */
module AppAction {
  import opened Values
  import opened Foreign
  import AppActionImages
  import AppActionStrings
  import AppActionThemes

  const ActionTypeKey := "actionType"
  const DeepLinkKey := "deepLink"
  const ImagesKey := "images"
  const StringsKey := "strings"
  const ThemesKey := "themes"

  const FieldKeys: set<string> := {ActionTypeKey, DeepLinkKey, ImagesKey, StringsKey, ThemesKey}

  datatype Action = Action(
    base: Base,
    actionType: ActionType,
    deepLink: Option<Url>,
    images: AppActionImages.Images,
    strings: AppActionStrings.Strings,
    themes: AppActionThemes.Themes)

  /** `DAOAppAction()`: a popup without a deep link, with new nested
      objects. */
  function New(fw: Framework): (r: Action)
    ensures r.base == fw.newBase
    ensures r.actionType == Popup
    ensures r.deepLink == None
    ensures r.images.topUrl == EmptyDnsUrl
    ensures forall f :: r.strings.Get(f).IsEmpty()
    ensures r.themes.cancelButton == fw.defaultCancelButton && r.themes.okayButton == fw.defaultOkayButton
  {
    Action(fw.newBase, Popup, None,
      AppActionImages.New(fw), AppActionStrings.New(fw), AppActionThemes.New(fw))
  }

  /** `update(from:)`: the base updates itself; the type, the link and
      copies of the three nested objects are taken from `o`. */
  function Update(fw: Framework, x: Action, o: Action): (r: Action)
    ensures r.base == fw.baseUpdate(x.base, o.base)
    ensures r.actionType == o.actionType && r.deepLink == o.deepLink
    ensures r.images == o.images && r.strings == o.strings && r.themes == o.themes
  {
    o.(base := fw.baseUpdate(x.base, o.base))
  }

  /** The action type named by the raw string under "actionType"; a
      missing, unreadable or unknown raw string gives `popup`. */
  function ParseActionType(fw: Framework, data: Dictionary): (r: ActionType)
    ensures fw.readString(Lookup(data, ActionTypeKey)).Some? && ActionTypeFromRaw(fw.readString(Lookup(data, ActionTypeKey)).value).Some?
      ==> r.RawValue() == fw.readString(Lookup(data, ActionTypeKey)).value
    ensures fw.readString(Lookup(data, ActionTypeKey)).None? ==> r == Popup
    ensures fw.readString(Lookup(data, ActionTypeKey)).Some? && ActionTypeFromRaw(fw.readString(Lookup(data, ActionTypeKey)).value).None?
      ==> r == Popup
  {
    var typeString := fw.readString(Lookup(data, ActionTypeKey)).GetOr("");
    ActionTypeFromRaw(typeString).GetOr(Popup)
  }

  /** `dao(from:)`. The action type is always re-parsed (falling back to
      `popup`, not to the previous type); the deep link and each nested
      object keep their previous value unless the key yields something the
      reader, or the nested failable initialiser, accepts. */
  function Dao(fw: Framework, x: Action, data: Dictionary): (r: Action)
    ensures r.base == fw.baseDao(x.base, data)
    ensures r.actionType == ParseActionType(fw, data)
    ensures fw.readUrl(Lookup(data, DeepLinkKey)).Some? ==> r.deepLink == fw.readUrl(Lookup(data, DeepLinkKey))
    ensures fw.readUrl(Lookup(data, DeepLinkKey)).None? ==> r.deepLink == x.deepLink
    ensures |fw.readDictionary(Lookup(data, ImagesKey))| == 0 ==> r.images == x.images
    ensures |fw.readDictionary(Lookup(data, ImagesKey))| > 0 ==>
      r.images == AppActionImages.Dao(fw, AppActionImages.New(fw), fw.readDictionary(Lookup(data, ImagesKey)))
    ensures |fw.readDictionary(Lookup(data, StringsKey))| == 0 ==> r.strings == x.strings
    ensures |fw.readDictionary(Lookup(data, StringsKey))| > 0 ==>
      r.strings == AppActionStrings.Dao(fw, AppActionStrings.New(fw), fw.readDictionary(Lookup(data, StringsKey)))
    ensures |fw.readDictionary(Lookup(data, ThemesKey))| == 0 ==> r.themes == x.themes
    ensures |fw.readDictionary(Lookup(data, ThemesKey))| > 0 ==>
      r.themes == AppActionThemes.Dao(fw, AppActionThemes.New(fw), fw.readDictionary(Lookup(data, ThemesKey)))
  {
    var link := fw.readUrl(Lookup(data, DeepLinkKey));
    Action(
      fw.baseDao(x.base, data),
      ParseActionType(fw, data),
      if link.Some? then link else x.deepLink,
      AppActionImages.FromDictionary(fw, fw.readDictionary(Lookup(data, ImagesKey))).GetOr(x.images),
      AppActionStrings.FromDictionary(fw, fw.readDictionary(Lookup(data, StringsKey))).GetOr(x.strings),
      AppActionThemes.FromDictionary(fw, fw.readDictionary(Lookup(data, ThemesKey))).GetOr(x.themes))
  }

  /** `init?(from:)`: nil for an empty dictionary, otherwise a new action
      translated from it. */
  function FromDictionary(fw: Framework, data: Dictionary): (r: Option<Action>)
    ensures r.None? <==> |data| == 0
    ensures r.Some? ==> r.value == Dao(fw, New(fw), data)
  {
    if |data| == 0 then None else Some(Dao(fw, New(fw), data))
  }

  /** The action's own entries of `asDictionary`. */
  function FieldEntries(fw: Framework, x: Action): (r: Dictionary)
    ensures r.Keys == FieldKeys
    ensures r[ActionTypeKey] == Obj(ActionTypeObject(x.actionType))
    ensures r[DeepLinkKey] == Null <==> x.deepLink.None?
    ensures x.deepLink.Some? ==> r[DeepLinkKey] == Obj(LinkObject(x.deepLink.value))
    ensures r[ImagesKey] == Dict(AppActionImages.AsDictionary(fw, x.images))
    ensures r[StringsKey] == Dict(AppActionStrings.AsDictionary(fw, x.strings))
    ensures r[ThemesKey] == Dict(AppActionThemes.AsDictionary(fw, x.themes))
  {
    map k | k in FieldKeys :: FieldValue(fw, x, k)
  }

  /** The value `asDictionary` writes under the field key `k`. */
  function FieldValue(fw: Framework, x: Action, k: string): Value {
    if k == ActionTypeKey then Obj(ActionTypeObject(x.actionType))
    else if k == DeepLinkKey then (if x.deepLink.Some? then Obj(LinkObject(x.deepLink.value)) else Null)
    else if k == ImagesKey then Dict(AppActionImages.AsDictionary(fw, x.images))
    else if k == StringsKey then Dict(AppActionStrings.AsDictionary(fw, x.strings))
    else Dict(AppActionThemes.AsDictionary(fw, x.themes))
  }

  /** `asDictionary`: the five field keys merged below the base dictionary,
      whose value wins on a collision. */
  function AsDictionary(fw: Framework, x: Action): (r: Dictionary)
    ensures r.Keys == fw.baseDictionary(x.base).Keys + FieldKeys
    ensures forall k :: k in fw.baseDictionary(x.base) ==> r[k] == fw.baseDictionary(x.base)[k]
    ensures ActionTypeKey !in fw.baseDictionary(x.base) ==> r[ActionTypeKey] == Obj(ActionTypeObject(x.actionType))
    ensures DeepLinkKey !in fw.baseDictionary(x.base) ==> (r[DeepLinkKey] == Null <==> x.deepLink.None?)
    ensures DeepLinkKey !in fw.baseDictionary(x.base) && x.deepLink.Some? ==> r[DeepLinkKey] == Obj(LinkObject(x.deepLink.value))
    ensures ImagesKey !in fw.baseDictionary(x.base) ==> r[ImagesKey] == Dict(AppActionImages.AsDictionary(fw, x.images))
    ensures StringsKey !in fw.baseDictionary(x.base) ==> r[StringsKey] == Dict(AppActionStrings.AsDictionary(fw, x.strings))
    ensures ThemesKey !in fw.baseDictionary(x.base) ==> r[ThemesKey] == Dict(AppActionThemes.AsDictionary(fw, x.themes))
  {
    FieldEntries(fw, x) + fw.baseDictionary(x.base)
  }

  /** `isDiffFrom(_:)`: the nested objects are compared with their own
      `!=`, that is, their own `isDiffFrom`. */
  function IsDiffFrom(fw: Framework, x: Action, rhs: Peer<Action>): (r: bool)
    ensures rhs.Nil? || rhs.OtherKind? ==> r
    ensures rhs.Same? ==> !r
    ensures rhs.Instance? ==> (r <==>
      || fw.baseDiff(x.base, rhs.value.base)
      || x.actionType != rhs.value.actionType
      || x.deepLink != rhs.value.deepLink
      || AppActionImages.IsDiffFrom(fw, x.images, Instance(rhs.value.images))
      || AppActionStrings.IsDiffFrom(fw, x.strings, Instance(rhs.value.strings))
      || AppActionThemes.IsDiffFrom(fw, x.themes, Instance(rhs.value.themes)))
  {
    match rhs
    case Nil => true
    case OtherKind => true
    case Same => false
    case Instance(y) =>
      if fw.baseDiff(x.base, y.base) then true
      else
        || x.actionType != y.actionType
        || x.deepLink != y.deepLink
        || !AppActionImages.Equal(fw, x.images, y.images)
        || !AppActionStrings.Equal(fw, x.strings, y.strings)
        || !AppActionThemes.Equal(fw, x.themes, y.themes)
  }

  /** `==` on actions. */
  function Equal(fw: Framework, x: Action, y: Action): (r: bool)
    ensures r <==> !IsDiffFrom(fw, x, Instance(y))
  {
    !IsDiffFrom(fw, x, Instance(y))
  }

  /** `!=` on actions. */
  function NotEqual(fw: Framework, x: Action, y: Action): (r: bool)
    ensures r <==> IsDiffFrom(fw, x, Instance(y))
  {
    IsDiffFrom(fw, x, Instance(y))
  }

  // ---- properties ----

  /** The two operators are each other's negation. */
  lemma NotEqualIsNotEqual(fw: Framework, x: Action, y: Action)
    ensures NotEqual(fw, x, y) == !Equal(fw, x, y)
  {
  }

  /** When the base diff is irreflexive, every action equals itself. */
  lemma EqualReflexive(fw: Framework, x: Action)
    requires forall b: Base :: !fw.baseDiff(b, b)
    ensures Equal(fw, x, x)
  {
  }

  /** Parsing the action type: a raw string the reader returns that names a
      case gives that case; anything else gives `popup`. */
  lemma ParseActionTypeCases(fw: Framework, data: Dictionary, t: ActionType)
    requires fw.Sound()
    ensures fw.readString(Lookup(data, ActionTypeKey)) == Some(t.RawValue()) ==> ParseActionType(fw, data) == t
    ensures ActionTypeKey !in data ==> ParseActionType(fw, data) == Popup
  {
    ActionTypeRawRoundTrip(t);
  }

  /** A missing key keeps the deep link or the nested object stored under
      it, while the action type falls back to `popup`. */
  lemma DaoKeepsMissingFields(fw: Framework, x: Action, data: Dictionary)
    requires fw.Sound()
    ensures DeepLinkKey !in data ==> Dao(fw, x, data).deepLink == x.deepLink
    ensures ImagesKey !in data ==> Dao(fw, x, data).images == x.images
    ensures StringsKey !in data ==> Dao(fw, x, data).strings == x.strings
    ensures ThemesKey !in data ==> Dao(fw, x, data).themes == x.themes
  {
  }

  /** A nested dictionary given as-is under "images", "strings" or "themes"
      replaces the nested object exactly when it is non-empty. */
  lemma DaoNestedDictionary(fw: Framework, x: Action, data: Dictionary, nested: Dictionary)
    requires fw.KeepsDictionaries()
    requires ImagesKey in data && data[ImagesKey] == Dict(nested)
    ensures Dao(fw, x, data).images == x.images <==>
      |nested| == 0 || AppActionImages.Dao(fw, AppActionImages.New(fw), nested) == x.images
  {
    assert fw.readDictionary(Some(Dict(nested))) == nested;
  }

  /** No base dictionary, the action's or a nested object's, uses one of
      the keys `asDictionary` writes a field under. */
  predicate OwnKeysFree(fw: Framework, x: Action) {
    && (forall k :: k in FieldKeys ==> k !in fw.baseDictionary(x.base))
    && AppActionImages.TopKey !in fw.baseDictionary(x.images.base)
    && (forall f :: AppActionStrings.Key(f) !in fw.baseDictionary(x.strings.base))
    && AppActionThemes.CancelButtonKey !in fw.baseDictionary(x.themes.base)
    && AppActionThemes.OkayButtonKey !in fw.baseDictionary(x.themes.base)
  }

  /** Under a field key no base claims, `asDictionary` holds the field's
      own entry. */
  lemma AsDictionaryLookup(fw: Framework, x: Action, k: string)
    requires k in FieldKeys && k !in fw.baseDictionary(x.base)
    ensures Lookup(AsDictionary(fw, x), k) == Some(FieldValue(fw, x, k))
  {
  }

  /** The action type and the deep link read back from `asDictionary`. A
      missing deep link is stored as a nil optional (`Null`); when the URL
      reader rejects that, the previous link stays. */
  lemma {:induction false} AsDictionaryThenDaoKeepsTypeAndLink(fw: Framework, x: Action, y: Action)
    requires fw.Sound() && fw.ReadsBackWhatItWrites()
    requires OwnKeysFree(fw, x)
    ensures Dao(fw, y, AsDictionary(fw, x)).actionType == x.actionType
    ensures x.deepLink.Some? ==> Dao(fw, y, AsDictionary(fw, x)).deepLink == x.deepLink
    ensures x.deepLink.None? && fw.readUrl(Some(Null)).None? ==> Dao(fw, y, AsDictionary(fw, x)).deepLink == y.deepLink
  {
    var data := AsDictionary(fw, x);
    AsDictionaryLookup(fw, x, ActionTypeKey);
    AsDictionaryLookup(fw, x, DeepLinkKey);
    ParseActionTypeCases(fw, data, x.actionType);
  }

  /** The nested images object reads back from `asDictionary` with the same
      top URL. */
  lemma {:induction false} AsDictionaryThenDaoKeepsImages(fw: Framework, x: Action, y: Action)
    requires fw.KeepsDictionaries() && fw.ReadsBackWhatItWrites()
    requires OwnKeysFree(fw, x)
    ensures Dao(fw, y, AsDictionary(fw, x)).images.topUrl == x.images.topUrl
  {
    var images := AppActionImages.AsDictionary(fw, x.images);
    AsDictionaryLookup(fw, x, ImagesKey);
    assert fw.readDictionary(Some(Dict(images))) == images;
    assert AppActionImages.TopKey in images;
    AppActionImages.AsDictionaryThenDaoKeepsTop(fw, x.images, AppActionImages.New(fw));
  }

  /** The nested strings object reads back from `asDictionary` with the same
      six texts. */
  lemma {:induction false} AsDictionaryThenDaoKeepsStrings(fw: Framework, x: Action, y: Action)
    requires fw.KeepsDictionaries() && fw.ReadsBackWhatItWrites()
    requires OwnKeysFree(fw, x)
    ensures forall f :: Dao(fw, y, AsDictionary(fw, x)).strings.Get(f) == x.strings.Get(f)
  {
    var strings := AppActionStrings.AsDictionary(fw, x.strings);
    AsDictionaryLookup(fw, x, StringsKey);
    assert fw.readDictionary(Some(Dict(strings))) == strings;
    AppActionStrings.AsDictionaryEntry(fw, x.strings, AppActionStrings.Body);
    AppActionStrings.AsDictionaryThenDaoKeepsTexts(fw, x.strings, AppActionStrings.New(fw));
  }

  /** The nested themes object reads back from `asDictionary` with the same
      two button styles. */
  lemma {:induction false} AsDictionaryThenDaoKeepsThemes(fw: Framework, x: Action, y: Action)
    requires fw.KeepsDictionaries() && fw.ReadsBackWhatItWrites()
    requires OwnKeysFree(fw, x)
    ensures Dao(fw, y, AsDictionary(fw, x)).themes.cancelButton == x.themes.cancelButton
    ensures Dao(fw, y, AsDictionary(fw, x)).themes.okayButton == x.themes.okayButton
  {
    var themes := AppActionThemes.AsDictionary(fw, x.themes);
    AsDictionaryLookup(fw, x, ThemesKey);
    assert fw.readDictionary(Some(Dict(themes))) == themes;
    assert AppActionThemes.CancelButtonKey in themes;
    AppActionThemes.AsDictionaryThenDaoKeepsStyles(fw, x.themes, AppActionThemes.New(fw));
  }

  /** After `update(from: o)` the action differs from `o` exactly when its
      updated base, or a nested object's base, still differs from `o`'s. */
  lemma UpdateThenNotDiff(fw: Framework, x: Action, o: Action)
    ensures IsDiffFrom(fw, Update(fw, x, o), Instance(o)) <==>
      fw.baseDiff(fw.baseUpdate(x.base, o.base), o.base)
      || fw.baseDiff(o.images.base, o.images.base)
      || fw.baseDiff(o.strings.base, o.strings.base)
      || fw.baseDiff(o.themes.base, o.themes.base)
  {
  }
}
