# DNSDataUIObjects in Dafny

A Dafny model of the core of the Swift package DNSDataUIObjects. The package has three parts, and each is modelled here.

1. **The app-action and promotion records.** These are `DAOAppActionImages`, `DAOAppActionStrings`, `DAOAppActionThemes`, `DAOAppAction` with its shortcut accessors, `DAOPromotion` and `DAOPromotionAnalytics`.
   - Each record is an immutable datatype.
   - A record is translated from and to a data dictionary, modelled as `map<string, Value>`.
   - A record is encoded to a keyed container; only the fields that encode and decode touch are modelled.
   - Each record has the `init?(from:)`, `dao(from:)`, `update(from:)`, `asDictionary`, `isDiffFrom` and `==` of the source.
2. **The error catalogue `DNSDataUIObjectsError`.** This is a case → (domain, code, userInfo, message) mapping. It includes the `", "` join of the parameter list.
3. **The media display classes.** These are `DNSMediaDisplay` and its static-image, animated-image and video subclasses. A display call is a pure function returning the list of effects it performs on the views. Examples: show the placeholder, run a class's reuse cleanup, load a url, hide the progress view, clear the secondary views, animate GIF data. `MediaDisplay.Apply`/`Run` give the meaning of such a list on what the views show.

The package sits on closed-source frameworks: `DAOBaseObject`, its typed dictionary readers, `DNSString`, `DNSURL`, `DNSThemeButtonStyle`, `DNSDayOfWeekFlags`, `DAOMedia` and the `DNSPriority` constants. Their behaviour is the record `Foreign.Framework` of uninterpreted functions and constants, passed to every operation as `fw`. The model assumes little about it:
- `Framework.Sound()`: a reader given no value finds nothing, and `none <= normal <= highest`.
- `KeepsDictionaries()`: `dictionary(from:)` returns a dictionary value unchanged.
- `ReadsPlainValues()`: `int(from:)` and `string(from:)` accept a plain integer or string.
- `DecodesWhatItEncodes()`: the Codable readers `dnsstring(from: container, forKey:)` and `dnsurl(from: container, forKey:)` find the string or url that `encode` stored under the key.
- `ReadsBackWhatItWrites()`: each typed reader accepts what the matching `asDictionary` entry writes, and returns the value that was written. This covers url objects, string dictionaries, button-style dictionaries, link urls, booleans and day-of-week dictionaries. It also covers the action-type enum value, which `string(from:)` reads as its raw value.

Other framework choices that the model fixes:
- `DAOAppActionThemes.defaultCancelButton` and `.defaultOkayButton` are two separate assignable statics. They are the two framework constants `fw.defaultCancelButton` and `fw.defaultOkayButton`, since a parameter covers any value they hold.
- The raw values of `DNSAppActionType` are the case names "drawer", "fullScreen", "popup" and "stage".
- `hasDiffElementsFrom` on the media list is framework code. `Promotion.MediaListsDiffer` defines it as: the lengths differ, or `DAOMedia`'s comparison differs at some position.

Each lemma that relies on one of these names it in its `requires`. The object identity that `!==` and `as?` test is the input `Values.Peer<T>`: `Nil`, `OtherKind`, `Same` (the same instance) or `Instance(value)`.

Behaviour of the source that the model follows:
- **`init?(from:)`** returns nothing exactly when the dictionary is empty. Otherwise it calls `super.init(from: data)`. The model takes that to run the overridden `dao(from:)` on a fresh object, because the `DAOBaseObject` initialiser is framework code.
- **`dao(from:)`** keeps a field's previous value when the reader finds nothing under its key. Two exceptions in `DAOPromotion`:
  - `action` is always rebuilt, from an empty dictionary when the key holds no dictionary, so it becomes nil.
  - `displayDayOfWeek` is always rebuilt the same way.
- **`asDictionary`** merges the record's own entries into the base dictionary with `{ current, _ in current }`. So the base dictionary's value wins on a key collision.
- **`DAOAppActionThemes`:** Codable writes and reads no button fields, so a decoded object has the default styles.
- **`DAOPromotionAnalytics.asDictionary`:** writes the period as two `Date` objects, but `period(from:)` reads only strings. So a period never survives a dictionary round trip, and both ends become "now" (`PromotionAnalytics.PeriodDoesNotRoundTrip`). The metrics do survive it (`PromotionAnalytics.MetricsRoundTrip`).
- **Timeline, mixed array:** `metrics(from:)` treats a timeline array that is not all dictionaries by sending every element through `dictionary(from:)`. That reader returns a non-optional dictionary, so the `compactMap` drops nothing, and the result has one entry per element. A reading in which a mixed array "keeps only its dictionary elements" disagrees with the code; the model follows the code (`PromotionAnalytics.Timeline`).
- **`invalidParameters` message:** joins the names with a `reduce` that adds `", "` only after a non-empty prefix. So leading empty names vanish: `["", "a"]` gives `"a"`. An empty name after a non-empty one still adds the separator, so a trailing empty name leaves a dangling one: `["a", ""]` gives `"a, "` (`Errors.ParametersTextTrailingEmpty`). The model characterises the reduce exactly as `Join(DropLeadingEmpty(ps))` (`Errors.ParametersTextIsJoin`).
- **`notFound` message:** the code suffix is `"(DATAUIOBJECTS:1003)"` with no leading space, unlike the other cases. The field and value are inserted with no separator.

## Model

| member | source | states |
|---|---|---|
| Values.CastDictionary | Sources/DNSDataUIObjects/DAOPromotion.swift:136 | `as? DNSDataDictionary` succeeds exactly on a dictionary value |
| Values.CastInt | Sources/DNSDataUIObjects/DAOPromotionAnalytics.swift:287-288 | `as? Int` succeeds exactly on an integer value |
| Values.CastString | Sources/DNSDataUIObjects/DAOPromotionAnalytics.swift:268 | `as? String` succeeds exactly on a string value |
| Values.ActionTypeFromRaw | Sources/DNSDataUIObjects/DAOAppAction.swift:137 | `DNSAppActionType(rawValue:)` gives a case whose raw value is the string, and fails only when no case has that raw value |
| Values.ActionTypeRawRoundTrip | Sources/DNSDataUIObjects/DAOAppAction.swift:137 | every action type is recovered from its own raw value |
| AppActionImages.New | Sources/DNSDataUIObjects/DAOAppAction-Images.swift:38 | a fresh object has the framework's fresh base and an empty `topUrl` |
| AppActionImages.Update | Sources/DNSDataUIObjects/DAOAppAction-Images.swift:53-58 | after `update(from: o)`, `topUrl` is `o.topUrl` and the base is the base update |
| AppActionImages.Dao | Sources/DNSDataUIObjects/DAOAppAction-Images.swift:65-69 | `topUrl` is what the url reader finds under "top", and the previous `topUrl` when it finds nothing |
| AppActionImages.FromDictionary | Sources/DNSDataUIObjects/DAOAppAction-Images.swift:61-64 | nil exactly for the empty dictionary, otherwise `dao(from:)` of a fresh object |
| AppActionImages.AsDictionary | Sources/DNSDataUIObjects/DAOAppAction-Images.swift:70-76 | keys are the base keys plus "top"; base values win; "top" holds the url object |
| AppActionImages.Encode | Sources/DNSDataUIObjects/DAOAppAction-Images.swift:103-107 | encoding writes `topUrl` under "top" on top of the base's keys |
| AppActionImages.Decode | Sources/DNSDataUIObjects/DAOAppAction-Images.swift:96-99 | decoding takes `topUrl` from what `dnsurl(from:forKey:)` finds under "top", and keeps the empty default when it finds nothing |
| AppActionImages.IsDiffFrom | Sources/DNSDataUIObjects/DAOAppAction-Images.swift:114-120 | true for nil or another type, false for the same instance, true when the bases differ, otherwise decided by `topUrl` alone |
| AppActionImages.Equal | Sources/DNSDataUIObjects/DAOAppAction-Images.swift:123-128 | `==` is exactly `!isDiffFrom` |
| AppActionImages.DaoReadsOnlyTop | Sources/DNSDataUIObjects/DAOAppAction-Images.swift:34-36 | two dictionaries that agree under "top" give the same `topUrl`, whatever they hold under "topUrl" |
| AppActionImages.DaoKeepsTopWhenMissing | Sources/DNSDataUIObjects/DAOAppAction-Images.swift:67 | a dictionary without "top" leaves `topUrl` unchanged |
| AppActionImages.AsDictionaryThenDaoKeepsTop | Sources/DNSDataUIObjects/DAOAppAction-Images.swift:61-76 | reading back the object's own dictionary restores its `topUrl` when the url reader accepts the url object; `init?(from:)` rebuilds the whole object when the base round-trips too |
| AppActionImages.EncodeDecodeRoundTrip | Sources/DNSDataUIObjects/DAOAppAction-Images.swift:96-107 | when the Codable readers find what was encoded (`DecodesWhatItEncodes`), decode after encode restores `topUrl`, and the whole object when the base round-trips |
| AppActionImages.UpdateThenNotDiff | Sources/DNSDataUIObjects/DAOAppAction-Images.swift:53-58 | after `update(from: o)` the object differs from `o` only if the updated base differs from `o`'s |
| AppActionStrings.Strings.Set | Sources/DNSDataUIObjects/DAOAppAction-Strings.swift:39-44 | setting one of the six text fields changes that field only |
| AppActionStrings.KeysAreDistinct | Sources/DNSDataUIObjects/DAOAppAction-Strings.swift:34-37 | the six coding keys are pairwise distinct; `body`'s key is "description" |
| AppActionStrings.Extensionality | Sources/DNSDataUIObjects/DAOAppAction-Strings.swift:39-44 | an object is determined by its base and its six fields |
| AppActionStrings.New | Sources/DNSDataUIObjects/DAOAppAction-Strings.swift:39-44 | all six fields of a fresh object are the empty string |
| AppActionStrings.Update | Sources/DNSDataUIObjects/DAOAppAction-Strings.swift:59-69 | after `update(from: o)` every field equals `o`'s |
| AppActionStrings.Dao | Sources/DNSDataUIObjects/DAOAppAction-Strings.swift:76-85 | each field is what the reader finds under its key, and keeps its previous value when it finds nothing |
| AppActionStrings.FromDictionary | Sources/DNSDataUIObjects/DAOAppAction-Strings.swift:72-75 | nil exactly for the empty dictionary, otherwise `dao(from:)` of a fresh object |
| AppActionStrings.AsDictionary | Sources/DNSDataUIObjects/DAOAppAction-Strings.swift:86-97 | keys are the base keys plus the six field keys; base values win; each field is stored as its string dictionary |
| AppActionStrings.Encode | Sources/DNSDataUIObjects/DAOAppAction-Strings.swift:129-138 | all six fields are encoded under their coding keys, on top of the base's keys |
| AppActionStrings.Decode | Sources/DNSDataUIObjects/DAOAppAction-Strings.swift:117-125 | each field is what `dnsstring(from:forKey:)` finds under its key, and is empty when it finds nothing |
| AppActionStrings.IsDiffFrom | Sources/DNSDataUIObjects/DAOAppAction-Strings.swift:145-157 | true for nil or another type, false for the same instance, true when the bases differ, otherwise true iff some field differs |
| AppActionStrings.Equal | Sources/DNSDataUIObjects/DAOAppAction-Strings.swift:160-165 | `==` is exactly `!isDiffFrom` |
| AppActionStrings.DaoReadsBodyFromDescription | Sources/DNSDataUIObjects/DAOAppAction-Strings.swift:35-36 | `body` depends only on what the dictionary holds under "description" |
| AppActionStrings.DaoKeepsMissingFields | Sources/DNSDataUIObjects/DAOAppAction-Strings.swift:78-83 | every field whose key is absent keeps its previous value |
| AppActionStrings.AsDictionaryEntry | Sources/DNSDataUIObjects/DAOAppAction-Strings.swift:86-97 | each field sits under its key as its string dictionary unless the base uses that key |
| AppActionStrings.AsDictionaryThenDaoKeepsTexts | Sources/DNSDataUIObjects/DAOAppAction-Strings.swift:76-97 | reading back the object's own dictionary restores all six fields when the reader accepts each string dictionary |
| AppActionStrings.AsDictionaryThenFromDictionary | Sources/DNSDataUIObjects/DAOAppAction-Strings.swift:72-97 | `init?(from:)` of the object's own dictionary rebuilds the whole object when the base round-trips |
| AppActionStrings.EncodeDecodeRoundTrip | Sources/DNSDataUIObjects/DAOAppAction-Strings.swift:117-138 | when the Codable readers find what was encoded (`DecodesWhatItEncodes`), decode after encode restores all six fields, and the whole object when the base round-trips |
| AppActionStrings.UpdateThenNotDiff | Sources/DNSDataUIObjects/DAOAppAction-Strings.swift:59-69 | after `update(from: o)` the object differs from `o` only if the updated base differs from `o`'s |
| AppActionThemes.New | Sources/DNSDataUIObjects/DAOAppAction-Themes.swift:33-43 | a fresh object has `defaultCancelButton` for the cancel button and `defaultOkayButton` for the okay button |
| AppActionThemes.Update | Sources/DNSDataUIObjects/DAOAppAction-Themes.swift:58-64 | after `update(from: o)` both button styles are `o`'s |
| AppActionThemes.Dao | Sources/DNSDataUIObjects/DAOAppAction-Themes.swift:71-76 | each button is what the style reader finds under its key, and keeps its previous style when it finds nothing |
| AppActionThemes.FromDictionary | Sources/DNSDataUIObjects/DAOAppAction-Themes.swift:67-70 | nil exactly for the empty dictionary, otherwise `dao(from:)` of a fresh object |
| AppActionThemes.AsDictionary | Sources/DNSDataUIObjects/DAOAppAction-Themes.swift:77-84 | keys are the base keys plus the two button keys; base values win; each button is stored as its style's dictionary |
| AppActionThemes.Encode | Sources/DNSDataUIObjects/DAOAppAction-Themes.swift:111-116 | encoding writes the base only, no button field |
| AppActionThemes.Decode | Sources/DNSDataUIObjects/DAOAppAction-Themes.swift:104-107 | decoding reads only the base; whatever the container holds, both buttons keep their class defaults `defaultCancelButton` and `defaultOkayButton` |
| AppActionThemes.IsDiffFrom | Sources/DNSDataUIObjects/DAOAppAction-Themes.swift:123-131 | true for nil or another type, false for the same instance, true when the bases differ, otherwise true iff either button differs |
| AppActionThemes.Equal | Sources/DNSDataUIObjects/DAOAppAction-Themes.swift:134-139 | `==` is exactly `!isDiffFrom` |
| AppActionThemes.DaoKeepsRejectedStyles | Sources/DNSDataUIObjects/DAOAppAction-Themes.swift:73-74 | a missing button key leaves that style unchanged, and so does a value the reader rejects |
| AppActionThemes.InvalidDictionaryGivesDefaults | Sources/DNSDataUIObjects/DAOAppAction-Themes.swift:67-76 | a non-empty dictionary whose button values are all rejected gives an object with the default styles |
| AppActionThemes.AsDictionaryThenDaoKeepsStyles | Sources/DNSDataUIObjects/DAOAppAction-Themes.swift:67-84 | reading back the object's own dictionary restores both styles when the style reader accepts their dictionaries; `init?(from:)` rebuilds the whole object when the base round-trips too |
| AppActionThemes.EncodeDecodeGivesDefaults | Sources/DNSDataUIObjects/DAOAppAction-Themes.swift:104-116 | decode after encode always has the default styles, whatever the object had |
| AppActionThemes.UpdateThenNotDiff | Sources/DNSDataUIObjects/DAOAppAction-Themes.swift:58-64 | after `update(from: o)` the object differs from `o` only if the updated base differs from `o`'s |
| AppAction.New | Sources/DNSDataUIObjects/DAOAppAction.swift:87-91 | a fresh action is a popup with no deep link, an empty top url, empty strings and default button styles |
| AppAction.Update | Sources/DNSDataUIObjects/DAOAppAction.swift:115-124 | after `update(from: o)`, the five fields equal `o`'s |
| AppAction.ParseActionType | Sources/DNSDataUIObjects/DAOAppAction.swift:136-137 | a recognised raw string gives its case; a missing or unknown string gives `popup` |
| AppAction.ParseActionTypeCases | Sources/DNSDataUIObjects/DAOAppAction.swift:136-137 | the raw value of any type parses to that type, and a missing key parses to `popup` |
| AppAction.Dao | Sources/DNSDataUIObjects/DAOAppAction.swift:134-149 | `actionType` is always re-parsed; `deepLink` keeps its value when unreadable; each sub-object keeps its value when its sub-dictionary is empty and is rebuilt from it otherwise |
| AppAction.FromDictionary | Sources/DNSDataUIObjects/DAOAppAction.swift:127-133 | nil exactly for the empty dictionary, otherwise `dao(from:)` of a fresh object |
| AppAction.FieldEntries | Sources/DNSDataUIObjects/DAOAppAction.swift:152-158 | the own entries hold exactly the five field keys: the action type as its enum value, the deep link as a url or null exactly when there is none, and each sub-object as its own dictionary |
| AppAction.AsDictionary | Sources/DNSDataUIObjects/DAOAppAction.swift:150-160 | keys are the base keys plus the five field keys; base values win; otherwise each field holds its own entry: the type's enum value, the deep link or null, and the sub-objects' own dictionaries |
| AppAction.IsDiffFrom | Sources/DNSDataUIObjects/DAOAppAction.swift:206-216 | true for nil or another type, false for the same instance, otherwise true iff the base or one of the five fields differs |
| AppAction.Equal | Sources/DNSDataUIObjects/DAOAppAction.swift:222-224 | `==` is exactly `!isDiffFrom` |
| AppAction.NotEqual | Sources/DNSDataUIObjects/DAOAppAction.swift:219-221 | `!=` is exactly `isDiffFrom` |
| AppAction.NotEqualIsNotEqual | Sources/DNSDataUIObjects/DAOAppAction.swift:219-224 | `!=` is the negation of `==` |
| AppAction.EqualReflexive | Sources/DNSDataUIObjects/DAOAppAction.swift:206-224 | an action equals itself when the base comparison is irreflexive |
| AppAction.DaoKeepsMissingFields | Sources/DNSDataUIObjects/DAOAppAction.swift:138-147 | each absent key leaves its field (the deep link or a sub-object) unchanged, whatever the other keys hold |
| AppAction.DaoNestedDictionary | Sources/DNSDataUIObjects/DAOAppAction.swift:140-141 | a nested images dictionary replaces `images` exactly when it is non-empty |
| AppAction.AsDictionaryLookup | Sources/DNSDataUIObjects/DAOAppAction.swift:150-160 | a field key the base does not use holds the field's own entry |
| AppAction.AsDictionaryThenDaoKeepsTypeAndLink | Sources/DNSDataUIObjects/DAOAppAction.swift:134-160 | reading back the action's own dictionary restores its type and its deep link; a nil link written as null leaves the previous link when the url reader rejects null |
| AppAction.AsDictionaryThenDaoKeepsImages | Sources/DNSDataUIObjects/DAOAppAction.swift:139-155 | reading back the action's own dictionary restores the top image url |
| AppAction.AsDictionaryThenDaoKeepsStrings | Sources/DNSDataUIObjects/DAOAppAction.swift:142-156 | reading back the action's own dictionary restores all six texts |
| AppAction.AsDictionaryThenDaoKeepsThemes | Sources/DNSDataUIObjects/DAOAppAction.swift:145-157 | reading back the action's own dictionary restores both button styles |
| AppAction.UpdateThenNotDiff | Sources/DNSDataUIObjects/DAOAppAction.swift:115-124 | after `update(from: o)` the action differs from `o` exactly when the updated base differs from `o`'s or a sub-object's base comparison is not irreflexive |
| AppActionShortcuts.SetCancelButtonTheme | Sources/DNSDataUIObjects/DAOAppAction+Shortcuts.swift:15 | setting `cancelButtonTheme` then getting it returns the value set; only `themes.cancelButton` changes |
| AppActionShortcuts.SetOkayButtonTheme | Sources/DNSDataUIObjects/DAOAppAction+Shortcuts.swift:16 | setting `okayButtonTheme` then getting it returns the value set; only `themes.okayButton` changes |
| AppActionShortcuts.SetTopImageUrl | Sources/DNSDataUIObjects/DAOAppAction+Shortcuts.swift:18 | setting `topImageUrl` then getting it returns the value set; only `images.topUrl` changes |
| AppActionShortcuts.SetText | Sources/DNSDataUIObjects/DAOAppAction+Shortcuts.swift:20-25 | setting a string shortcut then getting it returns the value set; the other five strings, `images`, `themes`, `actionType` and `deepLink` are unchanged |
| AppActionShortcuts.SetCurrentValueIsIdentity | Sources/DNSDataUIObjects/DAOAppAction+Shortcuts.swift:15-25 | setting any shortcut to its current value leaves the action unchanged |
| AppActionShortcuts.CancelButtonTheme | Sources/DNSDataUIObjects/DAOAppAction+Shortcuts.swift:15 | the `cancelButtonTheme` getter; `AppActionShortcuts.SetCancelButtonTheme` states get-after-set for it |
| AppActionShortcuts.OkayButtonTheme | Sources/DNSDataUIObjects/DAOAppAction+Shortcuts.swift:16 | the `okayButtonTheme` getter; `AppActionShortcuts.SetOkayButtonTheme` states get-after-set for it |
| AppActionShortcuts.TopImageUrl | Sources/DNSDataUIObjects/DAOAppAction+Shortcuts.swift:18 | the `topImageUrl` getter; `AppActionShortcuts.SetTopImageUrl` states get-after-set for it |
| AppActionShortcuts.Text | Sources/DNSDataUIObjects/DAOAppAction+Shortcuts.swift:20-25 | the six string getters; `AppActionShortcuts.SetText` states get-after-set for each |
| Promotion.ClampPriority | Sources/DNSDataUIObjects/DAOPromotion.swift:83-91 | a priority in range is kept, above `highest` becomes `highest`, below `none` becomes `none`, and the result is in range |
| Promotion.ClampIdempotent | Sources/DNSDataUIObjects/DAOPromotion.swift:83-91 | clamping a clamped priority changes nothing |
| Promotion.SetPriority | Sources/DNSDataUIObjects/DAOPromotion.swift:83-91 | assigning `priority` leaves the promotion valid and stores the clamped value |
| Promotion.New | Sources/DNSDataUIObjects/DAOPromotion.swift:72-96 | a fresh promotion is enabled, has `normal` priority, empty texts and placement, the default day flags `DNSDayOfWeekFlags()`, the default start and end times, no action and no media |
| Promotion.Update | Sources/DNSDataUIObjects/DAOPromotion.swift:111-127 | after `update(from: o)` every promotion field equals `o`'s and the result stays valid |
| Promotion.CompactMedia | Sources/DNSDataUIObjects/DAOPromotion.swift:144-145 | the parsed media are exactly the entries that parse, so there are at most as many as entries |
| Promotion.CompactMediaAppend | Sources/DNSDataUIObjects/DAOPromotion.swift:144-145 | parsing keeps the entries' order: the media of two arrays joined are the two media lists joined |
| Promotion.CompactMediaKeepsAll | Sources/DNSDataUIObjects/DAOPromotion.swift:144-145 | when every entry parses, the media are exactly the parsed entries, in order |
| Promotion.Dao | Sources/DNSDataUIObjects/DAOPromotion.swift:134-152 | the action and day-of-week are always rebuilt; media are the entries that parse; priority is the clamped value read, or the clamped previous one; each of body, disclaimer, enabled, endTime, placement, startTime, subtitle and title is what its reader finds, or its previous value when the reader finds nothing |
| Promotion.FromDictionary | Sources/DNSDataUIObjects/DAOPromotion.swift:130-133 | nil exactly for the empty dictionary, otherwise a valid `dao(from:)` of a fresh promotion |
| Promotion.MediaDictionaries | Sources/DNSDataUIObjects/DAOPromotion.swift:162 | one dictionary per media item, in order |
| Promotion.ActionValue | Sources/DNSDataUIObjects/DAOPromotion.swift:156 | the "action" entry is null exactly when there is no action, and otherwise the action's own dictionary |
| Promotion.FieldEntries | Sources/DNSDataUIObjects/DAOPromotion.swift:155-168 | the own entries hold exactly the twelve field keys: priority, enabled and placement as plain values, one dictionary per media item, the action's dictionary or null, each text and the day flags as their dictionaries, and both times in the short military format |
| Promotion.AsDictionary | Sources/DNSDataUIObjects/DAOPromotion.swift:153-170 | keys are the base keys plus the twelve field keys; base values win; every other field key holds the field's own entry |
| Promotion.ActionsDiffer | Sources/DNSDataUIObjects/DAOPromotion.swift:236 | two actions differ when exactly one is nil, or when both are present and the action comparison says so |
| Promotion.IsDiffFrom | Sources/DNSDataUIObjects/DAOPromotion.swift:230-248 | true for nil or another type, false for the same instance, true when the media lists differ in length or in any element, otherwise decided field by field |
| Promotion.DaoKeepsMissingFields | Sources/DNSDataUIObjects/DAOPromotion.swift:138-150 | each of the nine scalar fields whose key is absent keeps its previous value, whatever the other keys hold |
| Promotion.DaoDropsMissingAction | Sources/DNSDataUIObjects/DAOPromotion.swift:136-137 | a missing, non-dictionary or empty "action" yields no action; a non-empty dictionary yields one |
| Promotion.DaoMediaItemsBound | Sources/DNSDataUIObjects/DAOPromotion.swift:144-145 | there are never more media than array entries, and none without the key |
| Promotion.AsDictionaryLookup | Sources/DNSDataUIObjects/DAOPromotion.swift:153-170 | a field key the base does not use holds the field's own entry |
| Promotion.AsDictionaryThenDaoKeepsTexts | Sources/DNSDataUIObjects/DAOPromotion.swift:134-170 | reading back the promotion's own dictionary restores body, disclaimer, subtitle and title |
| Promotion.DaoReadsBackSettings | Sources/DNSDataUIObjects/DAOPromotion.swift:138-150 | a dictionary holding enabled, placement, priority and day flags as `asDictionary` writes them gives those values back; each time comes back when its reader parses it to that time |
| Promotion.AsDictionaryThenDaoKeepsSettings | Sources/DNSDataUIObjects/DAOPromotion.swift:134-170 | reading back the promotion's own dictionary restores enabled, placement, the valid priority and the day flags; a time is restored when the time reader parses its short military form back to it |
| Promotion.AsDictionaryThenDaoKeepsAction | Sources/DNSDataUIObjects/DAOPromotion.swift:136-137 | reading back the promotion's own dictionary gives no action when there was none, and otherwise the action `init?(from:)` builds from the action's dictionary, which is never nil |
| Promotion.AsDictionaryThenDaoKeepsMedia | Sources/DNSDataUIObjects/DAOPromotion.swift:144-162 | reading back the promotion's own dictionary restores the media list when the array reader and the media initialiser accept what was written |
| Promotion.UpdateThenNotDiff | Sources/DNSDataUIObjects/DAOPromotion.swift:111-127 | after `update(from: o)` the promotion differs from `o` exactly when the updated base differs from `o`'s, `o`'s action or media list differs from itself, or the priority observer moved `o`'s out-of-range priority |
| Promotion.UpdateThenEqualWhenIrreflexive | Sources/DNSDataUIObjects/DAOPromotion.swift:111-127 | given an in-range priority of `o`, irreflexive base and media comparisons and an updated base that agrees with `o`'s, the promotion does not differ from `o` after `update(from: o)` |
| PromotionAnalytics.Rate | Sources/DNSDataUIObjects/DAOPromotionAnalytics.swift:83-86 | the engagement rate is 0 without views, otherwise the rate times the views is the taps; at most one when taps do not exceed views |
| PromotionAnalytics.ScreenRate | Sources/DNSDataUIObjects/DAOPromotionAnalytics.swift:100-103 | a screen's `engagementRate`; it is `Rate` of its taps and views, whose contract (0 without views, taps per view otherwise) gives it meaning |
| PromotionAnalytics.EntryRate | Sources/DNSDataUIObjects/DAOPromotionAnalytics.swift:132-135 | a timeline entry's `engagementRate`; it is `Rate` of its taps and views, whose contract gives it meaning |
| PromotionAnalytics.PeriodFrom | Sources/DNSDataUIObjects/DAOPromotionAnalytics.swift:266-275 | each end is the date read from its string, and "now" otherwise |
| PromotionAnalytics.PlatformFrom | Sources/DNSDataUIObjects/DAOPromotionAnalytics.swift:351-356 | each platform count is the integer read, and 0 otherwise |
| PromotionAnalytics.ScreenFrom | Sources/DNSDataUIObjects/DAOPromotionAnalytics.swift:337-342 | views and taps are the integers read, and 0 otherwise |
| PromotionAnalytics.EntryFrom | Sources/DNSDataUIObjects/DAOPromotionAnalytics.swift:365-371 | period, views and taps are the values read, and "" or 0 otherwise |
| PromotionAnalytics.ByScreen | Sources/DNSDataUIObjects/DAOPromotionAnalytics.swift:297-303 | one screen entry per key of the "byScreen" dictionary, each parsed from its value |
| PromotionAnalytics.Timeline | Sources/DNSDataUIObjects/DAOPromotionAnalytics.swift:306-317 | an array gives one entry per element in order; a non-empty dictionary gives a single entry; anything else gives none |
| PromotionAnalytics.MetricsFrom | Sources/DNSDataUIObjects/DAOPromotionAnalytics.swift:284-320 | totals are the integers found, or 0; platforms, screens (from the "byScreen" dictionary) and timeline come from their parsers |
| PromotionAnalytics.New | Sources/DNSDataUIObjects/DAOPromotionAnalytics.swift:60-87 | a fresh object has no promotion, a period at "now" and zero metrics: zero totals and platform counts, no screens, an empty timeline, and rate 0 |
| PromotionAnalytics.PromotionData | Sources/DNSDataUIObjects/DAOPromotionAnalytics.swift:178-183 | the promotion dictionary has exactly "id" (promoCode or "") and "type" (promoType or "DEAL") |
| PromotionAnalytics.Dao | Sources/DNSDataUIObjects/DAOPromotionAnalytics.swift:174-192 | the promotion is always rebuilt and present; period and metrics are replaced only when their keys hold dictionaries |
| PromotionAnalytics.FromDictionary | Sources/DNSDataUIObjects/DAOPromotionAnalytics.swift:170-173 | nil exactly for the empty dictionary, otherwise `dao(from:)` of a fresh object |
| PromotionAnalytics.Update | Sources/DNSDataUIObjects/DAOPromotionAnalytics.swift:160-167 | after `update(from: o)` metrics, period and promotion are `o`'s |
| PromotionAnalytics.PromotionsDiffer | Sources/DNSDataUIObjects/DAOPromotionAnalytics.swift:252 | two promotions differ when exactly one is nil, or both are present and the promotion comparison says so |
| PromotionAnalytics.IsDiffFrom | Sources/DNSDataUIObjects/DAOPromotionAnalytics.swift:247-255 | true for nil or another type, false for the same instance, true when period or metrics differ |
| PromotionAnalytics.FieldEntries | Sources/DNSDataUIObjects/DAOPromotionAnalytics.swift:195-203 | the own entries hold the period and metrics dictionaries, and the promotion's dictionary only when there is one |
| PromotionAnalytics.AsDictionary | Sources/DNSDataUIObjects/DAOPromotionAnalytics.swift:193-205 | keys are the base keys plus the own entries; base values win; period and metrics are stored as dictionaries, and the promotion as its dictionary |
| PromotionAnalytics.PeriodDictionary | Sources/DNSDataUIObjects/DAOPromotionAnalytics.swift:277-282 | `periodAsDictionary` stores both ends as `Date` objects; `PromotionAnalytics.PeriodDoesNotRoundTrip` shows that `period(from:)` cannot read them back |
| PromotionAnalytics.MetricsDictionary | Sources/DNSDataUIObjects/DAOPromotionAnalytics.swift:322-336 | `metricsAsDictionary`; `PromotionAnalytics.MetricsRoundTrip` proves `metrics(from:)` inverts it |
| PromotionAnalytics.DaoBuildsPromotion | Sources/DNSDataUIObjects/DAOPromotionAnalytics.swift:178-184 | the promotion is never nil after `dao(from:)` |
| PromotionAnalytics.MetricsDefaultToZero | Sources/DNSDataUIObjects/DAOPromotionAnalytics.swift:287-294 | without the count keys all totals and platform counts are 0, and so is the rate |
| PromotionAnalytics.TimelineBranchesAgree | Sources/DNSDataUIObjects/DAOPromotionAnalytics.swift:306-317 | an all-dictionary array maps one to one in order; a single dictionary gives one entry when non-empty and none when empty |
| PromotionAnalytics.TimelineMissingIsEmpty | Sources/DNSDataUIObjects/DAOPromotionAnalytics.swift:315-316 | a missing timeline gives an empty timeline |
| PromotionAnalytics.UpdateThenNotDiff | Sources/DNSDataUIObjects/DAOPromotionAnalytics.swift:160-167 | after `update(from: o)` the object differs from `o` exactly when the updated base differs from `o`'s or `o`'s promotion differs from itself |
| PromotionAnalytics.MetricsRoundTrip | Sources/DNSDataUIObjects/DAOPromotionAnalytics.swift:284-379 | parsing the metrics dictionary written by `metricsAsDictionary` gives back the same metrics |
| PromotionAnalytics.PlatformRoundTrip | Sources/DNSDataUIObjects/DAOPromotionAnalytics.swift:351-363 | a platform breakdown survives its dictionary round trip |
| PromotionAnalytics.ScreensRoundTrip | Sources/DNSDataUIObjects/DAOPromotionAnalytics.swift:323-349 | the per-screen metrics survive their dictionary round trip |
| PromotionAnalytics.TimelineRoundTrip | Sources/DNSDataUIObjects/DAOPromotionAnalytics.swift:365-379 | the timeline survives its dictionary round trip |
| PromotionAnalytics.DaoOfAsDictionaryKeepsMetrics | Sources/DNSDataUIObjects/DAOPromotionAnalytics.swift:188-205 | reading back an object's own dictionary restores its metrics |
| PromotionAnalytics.PeriodDoesNotRoundTrip | Sources/DNSDataUIObjects/DAOPromotionAnalytics.swift:266-282 | reading back an object's own dictionary sets both period ends to "now", because dates are written as objects and read only from strings |
| Errors.CodeFromRaw | Sources/DNSDataUIObjects/DNSDataUIObjectsError.swift:27-38 | a raw value names a code exactly when it is one of 1001-1005, 2001, 2002, and then the code with that raw value |
| Errors.CodeRawRoundTrip | Sources/DNSDataUIObjects/DNSDataUIObjectsError.swift:27-38 | every code is recovered from its raw value, so the seven codes are distinct |
| Errors.CodeOf | Sources/DNSDataUIObjects/DNSDataUIObjectsError.swift:40-91 | each error case has its own code, and no other case has it |
| Errors.NatToString | Sources/DNSDataUIObjects/DNSDataUIObjectsError.swift:102 | a code is rendered as decimal digits without a leading zero |
| Errors.DecimalRoundTrip | Sources/DNSDataUIObjects/DNSDataUIObjectsError.swift:102 | the rendered digits denote the number rendered |
| Errors.FormatText | Sources/DNSDataUIObjects/DNSDataUIObjectsError.swift:101 | `String(format:)` copies text without a `%@` directive unchanged |
| Errors.FormatDirectives | Sources/DNSDataUIObjects/DNSDataUIObjectsError.swift:101-128 | a run of `%@` directives is filled by the arguments in order |
| Errors.Format | Sources/DNSDataUIObjects/DNSDataUIObjectsError.swift:101-128 | `String(format:)` on `%@` templates; it computes only, and its meaning is stated by `Errors.FormatText` (text without `%` is copied) and `Errors.FormatDirectives` (the directives are filled in order) |
| Errors.DropLeadingEmpty | Sources/DNSDataUIObjects/DNSDataUIObjectsError.swift:111 | removes exactly the empty names before the first non-empty one |
| Errors.ParametersText | Sources/DNSDataUIObjects/DNSDataUIObjectsError.swift:111 | the `reduce` that joins the parameter names; it computes only, and `Errors.ParametersTextIsJoin` proves it equal to the independent `Join(DropLeadingEmpty(ps))` |
| Errors.ParametersTextIsJoin | Sources/DNSDataUIObjects/DNSDataUIObjectsError.swift:111 | the reduce equals the ", "-join of the names after the leading empty ones are dropped |
| Errors.ParametersTextOfNames | Sources/DNSDataUIObjects/DNSDataUIObjectsError.swift:111 | non-empty names are joined with ", " with no leading or trailing separator; no names give "" |
| Errors.ParametersTextTrailingEmpty | Sources/DNSDataUIObjects/DNSDataUIObjectsError.swift:111 | an empty name after a non-empty one still adds ", ", so `["a", ""]` gives "a, " |
| Errors.Arguments | Sources/DNSDataUIObjects/DNSDataUIObjectsError.swift:101-128 | the last format argument of every message is its code suffix |
| Errors.ErrorString | Sources/DNSDataUIObjects/DNSDataUIObjectsError.swift:97-130 | each message is its domain-prefixed title followed by its arguments in order |
| Errors.ErrorStringNamesCode | Sources/DNSDataUIObjects/DNSDataUIObjectsError.swift:97-130 | every message starts with "DATAUIOBJECTS-" and its title, and ends with its domain and code |
| Errors.SuffixIdentifiesCode | Sources/DNSDataUIObjects/DNSDataUIObjectsError.swift:97-130 | two messages with the same code suffix belong to the same code |
| Errors.ErrorDescription | Sources/DNSDataUIObjects/DNSDataUIObjectsError.swift:94-96 | `errorDescription` is always `errorString` |
| Errors.FailureReason | Sources/DNSDataUIObjects/DNSDataUIObjectsError.swift:131-144 | `failureReason` is always the code location's failure reason |
| Errors.OwnInfo | Sources/DNSDataUIObjects/DNSDataUIObjectsError.swift:40-91 | each case adds its own userInfo keys with their values (`field`/`value`, `Parameters`, `Error`, `ExpectedType`/`ActualType`, `Name`); all but `unexpectedNil` add the description under the localized-description key |
| Errors.NsError | Sources/DNSDataUIObjects/DNSDataUIObjectsError.swift:26-92 | domain "DATAUIOBJECTS", the case's own code, the location's userInfo overridden by the case's own entries |
| Errors.NsErrorDescription | Sources/DNSDataUIObjects/DNSDataUIObjectsError.swift:45-91 | the description key is present for every case but `unexpectedNil`, which has it only when the location supplies it |
| Errors.NsErrorDescribesError | Sources/DNSDataUIObjects/DNSDataUIObjectsError.swift:45-96 | the description in userInfo is `errorDescription` |
| Errors.InvalidParametersMessage | Sources/DNSDataUIObjects/DNSDataUIObjectsError.swift:110-114 | the message is "DATAUIOBJECTS-Invalid Parameters", the joined names and " (DATAUIOBJECTS:1004)" |
| MediaDisplay.New | Sources/DNSDataUIObjects/SimpleObjects/DNSMediaDisplay.swift:19-28 | `init` stores the given views |
| MediaDisplay.NewWithDefaults | Sources/DNSDataUIObjects/SimpleObjects/DNSMediaDisplay.swift:19-22 | without the optional arguments there is no placeholder, no progress view and no secondary views |
| MediaDisplay.Copy | Sources/DNSDataUIObjects/SimpleObjects/DNSMediaDisplay.swift:34-40 | a copy is a base display sharing the views but not the placeholder |
| MediaDisplay.IsDiffFrom | Sources/DNSDataUIObjects/SimpleObjects/DNSMediaDisplay.swift:41-47 | true for nil or another type; otherwise true iff the image view, the progress view or some secondary view differs |
| MediaDisplay.Equal | Sources/DNSDataUIObjects/SimpleObjects/DNSMediaDisplay.swift:53-55 | `==` is exactly `!isDiffFrom` |
| MediaDisplay.NotEqual | Sources/DNSDataUIObjects/SimpleObjects/DNSMediaDisplay.swift:50-52 | `!=` is exactly `isDiffFrom` |
| MediaDisplay.CopyEqualsOriginal | Sources/DNSDataUIObjects/SimpleObjects/DNSMediaDisplay.swift:34-47 | a copy equals its original, both ways |
| MediaDisplay.EqualIgnoresPlaceholder | Sources/DNSDataUIObjects/SimpleObjects/DNSMediaDisplay.swift:43-46 | the class and the placeholder do not take part in `==` |
| MediaDisplay.EqualIsEquivalence | Sources/DNSDataUIObjects/SimpleObjects/DNSMediaDisplay.swift:41-55 | `==` is reflexive, symmetric and transitive, and `!=` is its negation |
| MediaDispatch.PrepareForReuse | Sources/DNSDataUIObjects/SimpleObjects/DNSMediaDisplayAnimatedImage.swift:71-76 | the reuse cleanup runs the class chain: animated always runs its parent's and resets the GIF only for `videoOnly` on a GIF view; video skips its parent's only for `videoOnly` |
| MediaDispatch.PrepareForReuseIsInvisible | Sources/DNSDataUIObjects/SimpleObjects/DNSMediaDisplay.swift:58 | a reuse cleanup that does not reset a GIF changes nothing visible |
| MediaDispatch.StaticLoad | Sources/DNSDataUIObjects/SimpleObjects/DNSMediaDisplayStaticImage.swift:33-35 | a static load starts with the reuse cleanup of the object's own class |
| MediaDispatch.StaticLoadSteps | Sources/DNSDataUIObjects/SimpleObjects/DNSMediaDisplayStaticImage.swift:33-54 | no GIF reset; one load keyed by the url's absolute string; completion(true) exactly on success and completion(false) exactly on failure, when a completion block was passed; secondaries untouched on failure |
| MediaDispatch.StaticLoadEffects | Sources/DNSDataUIObjects/SimpleObjects/DNSMediaDisplayStaticImage.swift:35-52 | exactly one static load; the progress view ends hidden; on success the image and every secondary view show the loaded image; on failure nothing else changes |
| MediaDispatch.AnimatedLoad | Sources/DNSDataUIObjects/SimpleObjects/DNSMediaDisplayAnimatedImage.swift:39-45 | starts with the animated-image class's cleanup; a non-GIF view falls back to a static load of the same url |
| MediaDispatch.AnimatedLoadSteps | Sources/DNSDataUIObjects/SimpleObjects/DNSMediaDisplayAnimatedImage.swift:44-70 | a GIF view resets, loads with its current image as placeholder, then animates the data when some came back and restarts the GIF exactly when none did |
| MediaDispatch.AnimatedLoadEffects | Sources/DNSDataUIObjects/SimpleObjects/DNSMediaDisplayAnimatedImage.swift:44-67 | on a GIF view exactly one animated load; the progress view ends hidden, every secondary view is cleared, the animation plays the data or restarts |
| MediaDispatch.VideoDisplay | Sources/DNSDataUIObjects/SimpleObjects/DNSMediaDisplayVideo.swift:48-50 | video display runs the full reuse cleanup, then clears the secondary views, and loads nothing |
| MediaDispatch.VideoDisplayScreen | Sources/DNSDataUIObjects/SimpleObjects/DNSMediaDisplayVideo.swift:48-50 | after video display every secondary view is empty, their number is unchanged, and the main image is untouched |
| MediaDispatch.PlainDisplayDoesNothing | Sources/DNSDataUIObjects/SimpleObjects/DNSMediaDisplay.swift:31 | the base display does nothing |
| MediaDispatch.Display | Sources/DNSDataUIObjects/SimpleObjects/DNSMediaDisplay.swift:31 | `display(from:)` of all four display classes; it computes the effect list only, and its meaning is stated by `PlainDisplayDoesNothing`, `NoUrlShowsPlaceholder`, `StaticDisplayLoadsUrl`, `AnimatedDisplayLoadsUrl`, `AnimatedDisplayPreloads`, `PreloadBecomesPlaceholder` and `VideoDisplayOutcome` |
| MediaDispatch.NoUrlShowsPlaceholder | Sources/DNSDataUIObjects/SimpleObjects/DNSMediaDisplayStaticImage.swift:17-24 | nil media or media without a url show the placeholder and load nothing |
| MediaDispatch.StaticDisplayLoadsUrl | Sources/DNSDataUIObjects/SimpleObjects/DNSMediaDisplayStaticImage.swift:25 | a static display with a url issues exactly one static load, of that url |
| MediaDispatch.AnimatedDisplayLoadsUrl | Sources/DNSDataUIObjects/SimpleObjects/DNSMediaDisplayAnimatedImage.swift:27-30 | without a preload url, exactly one load of the url: animated on a GIF view, static otherwise |
| MediaDispatch.AnimatedDisplayPreloads | Sources/DNSDataUIObjects/SimpleObjects/DNSMediaDisplayAnimatedImage.swift:31-34 | with a preload url, a static load of it and then a load of the url, whatever the preload outcome |
| MediaDispatch.PreloadBecomesPlaceholder | Sources/DNSDataUIObjects/SimpleObjects/DNSMediaDisplayAnimatedImage.swift:44 | a preloaded frame is the placeholder of the GIF load that follows |
| MediaDispatch.VideoDisplayOutcome | Sources/DNSDataUIObjects/SimpleObjects/DNSMediaDisplayVideo.swift:25-32 | a video display loads only the preload url, if any, and ends with every secondary view cleared |

## Left out

- UIKit views, AlamofireImage network loading, Gifu animation, the main-thread and delayed dispatch, and the cross-dissolve transition are I/O and UI. Each becomes an abstract effect, and each loader outcome is an input (`MediaDispatch.Response`).
- The load progress closures and their fractions are floating-point UI updates with no effect on the outcome.
- The timestamped GIF cache key (DNSMediaDisplayAnimatedImage.swift line 48) is not modelled, because it depends on the clock. `LoadAnimated` carries no cache key.
- The commented-out AVPlayer code of the video class is not modelled, because it is not compiled.
- The base object's internals are foreign code, available only through `Foreign.Framework`. These are id generation, meta data, `super.dao`, `super.update`, `super.asDictionary`, `super.isDiffFrom` and the base part of Codable.
- The typed readers are also foreign code, available only through `Foreign.Framework`. So are the Codable readers `dnsstring(from:forKey:)` and `dnsurl(from:forKey:)`. The lemmas that read back what was written name their assumption about these readers.
- `init?(from:)` relies on `DAOBaseObject.init(from:)` calling the overridden `dao(from:)`. That initialiser is not part of this model.
- Promotion.MediaListsDiffer: this is the model's own definition of the framework's `hasDiffElementsFrom`, whose code is not part of this model.
- Values.ActionTypeFromRaw: `DNSAppActionType` is not part of this model; its raw values are taken to be the case names.
- AppActionThemes.New: the two class defaults are framework constants, so a reassignment of either static while the program runs is not modelled.
- `DNSString`, `DNSURL`, `DNSThemeButtonStyle`, `DNSDayOfWeekFlags` and `DAOMedia` are opaque values with equality. Their dictionaries are framework functions.
- The Codable conformances of `DAOAppAction`, `DAOPromotion` and `DAOPromotionAnalytics` are not modelled. Neither are the `CFG*Object` configuration wrappers and the JSON coders. Only the field sets of the three app-action sub-objects' encode and decode are modelled.
- NSCopying and reference identity are value copies. Identity is only the `Peer` input of `isDiffFrom`.
- `Date()` defaults and date parsing and formatting are foreign. "Now" is a parameter, and dates are `Values.Time` values.
- `engagementRate` is computed in exact `real` arithmetic, without IEEE rounding.
- `NSLocalizedString` is the identity on the template. `String(format:)` fills `%@` directives in order.
- `DNSDataUIObjectsCodeLocation.swift` and `DAOMedia+display.swift` are not part of this model. The first is a single constant; the second is a one-line delegation to the display classes.
- The `DNSDataTranslation` extensions are not part of this model.
