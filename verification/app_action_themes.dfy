/** `DAOAppActionThemes`: the button styles of an app action. Its Codable
    conformance writes and reads no button at all (both bodies are commented
    out in the source), so a decoded object always has the default styles. */
module AppActionThemes {
  import opened Values
  import opened Foreign

  const CancelButtonKey := "cancelButton"
  const OkayButtonKey := "okayButton"

  datatype Themes = Themes(base: Base, cancelButton: ButtonStyle, okayButton: ButtonStyle)

  /** `DAOAppActionThemes()`: each button takes its own class-wide
      default. */
  function New(fw: Framework): (r: Themes)
    ensures r.base == fw.newBase
    ensures r.cancelButton == fw.defaultCancelButton
    ensures r.okayButton == fw.defaultOkayButton
  {
    Themes(fw.newBase, fw.defaultCancelButton, fw.defaultOkayButton)
  }

  /** `update(from:)`: the base updates itself and both styles are copied. */
  function Update(fw: Framework, x: Themes, o: Themes): (r: Themes)
    ensures r.base == fw.baseUpdate(x.base, o.base)
    ensures r.cancelButton == o.cancelButton && r.okayButton == o.okayButton
  {
    o.(base := fw.baseUpdate(x.base, o.base))
  }

  /** `dao(from:)`: a style is replaced only when the style reader accepts
      the value under its key. */
  function Dao(fw: Framework, x: Themes, data: Dictionary): (r: Themes)
    ensures r.base == fw.baseDao(x.base, data)
    ensures fw.readButtonStyle(Lookup(data, CancelButtonKey)).Some? ==> r.cancelButton == fw.readButtonStyle(Lookup(data, CancelButtonKey)).value
    ensures fw.readButtonStyle(Lookup(data, CancelButtonKey)).None? ==> r.cancelButton == x.cancelButton
    ensures fw.readButtonStyle(Lookup(data, OkayButtonKey)).Some? ==> r.okayButton == fw.readButtonStyle(Lookup(data, OkayButtonKey)).value
    ensures fw.readButtonStyle(Lookup(data, OkayButtonKey)).None? ==> r.okayButton == x.okayButton
  {
    Themes(fw.baseDao(x.base, data),
      fw.readButtonStyle(Lookup(data, CancelButtonKey)).GetOr(x.cancelButton),
      fw.readButtonStyle(Lookup(data, OkayButtonKey)).GetOr(x.okayButton))
  }

  /** `init?(from:)`: nil for an empty dictionary, otherwise a new object
      translated from it. */
  function FromDictionary(fw: Framework, data: Dictionary): (r: Option<Themes>)
    ensures r.None? <==> |data| == 0
    ensures r.Some? ==> r.value == Dao(fw, New(fw), data)
  {
    if |data| == 0 then None else Some(Dao(fw, New(fw), data))
  }

  /** `asDictionary`: each style's own dictionary under its key, below the
      base's entries. */
  function AsDictionary(fw: Framework, x: Themes): (r: Dictionary)
    ensures r.Keys == fw.baseDictionary(x.base).Keys + {CancelButtonKey, OkayButtonKey}
    ensures forall k :: k in fw.baseDictionary(x.base) ==> r[k] == fw.baseDictionary(x.base)[k]
    ensures CancelButtonKey !in fw.baseDictionary(x.base) ==> r[CancelButtonKey] == Dict(fw.buttonStyleDictionary(x.cancelButton))
    ensures OkayButtonKey !in fw.baseDictionary(x.base) ==> r[OkayButtonKey] == Dict(fw.buttonStyleDictionary(x.okayButton))
  {
    map[
      CancelButtonKey := Dict(fw.buttonStyleDictionary(x.cancelButton)),
      OkayButtonKey := Dict(fw.buttonStyleDictionary(x.okayButton))
    ] + fw.baseDictionary(x.base)
  }

  /** Codable `encode(to:)`: only the base's entries. */
  function Encode(fw: Framework, x: Themes): (r: Container)
    ensures r == fw.baseEncode(x.base)
  {
    fw.baseEncode(x.base)
  }

  /** Codable `init(from:)`: the base decodes itself; `commonInit` reads
      nothing, so whatever the container holds both buttons keep their
      class defaults. */
  function Decode(fw: Framework, c: Container): (r: Themes)
    ensures r.base == fw.baseDecode(c)
    ensures r.cancelButton == fw.defaultCancelButton && r.okayButton == fw.defaultOkayButton
  {
    New(fw).(base := fw.baseDecode(c))
  }

  /** `isDiffFrom(_:)`. */
  function IsDiffFrom(fw: Framework, x: Themes, rhs: Peer<Themes>): (r: bool)
    ensures rhs.Nil? || rhs.OtherKind? ==> r
    ensures rhs.Same? ==> !r
    ensures rhs.Instance? && !fw.baseDiff(x.base, rhs.value.base) ==>
      (r <==> x.cancelButton != rhs.value.cancelButton || x.okayButton != rhs.value.okayButton)
    ensures rhs.Instance? && fw.baseDiff(x.base, rhs.value.base) ==> r
  {
    match rhs
    case Nil => true
    case OtherKind => true
    case Same => false
    case Instance(y) =>
      fw.baseDiff(x.base, y.base)
      || x.cancelButton != y.cancelButton
      || x.okayButton != y.okayButton
  }

  /** `==` between two themes objects. */
  function Equal(fw: Framework, x: Themes, y: Themes): (r: bool)
    ensures r <==> !IsDiffFrom(fw, x, Instance(y))
  {
    !IsDiffFrom(fw, x, Instance(y))
  }

  // ---- properties ----

  /** A missing key, or a value the style reader rejects, keeps the
      previous style. */
  lemma DaoKeepsRejectedStyles(fw: Framework, x: Themes, data: Dictionary)
    requires fw.Sound()
    ensures CancelButtonKey !in data ==> Dao(fw, x, data).cancelButton == x.cancelButton
    ensures OkayButtonKey !in data ==> Dao(fw, x, data).okayButton == x.okayButton
    ensures fw.readButtonStyle(Lookup(data, CancelButtonKey)).None? && fw.readButtonStyle(Lookup(data, OkayButtonKey)).None?
      ==> Dao(fw, x, data) == x.(base := fw.baseDao(x.base, data))
  {
  }

  /** Translating a dictionary whose styles are all rejected, starting from
      a new object, leaves the default styles. */
  lemma InvalidDictionaryGivesDefaults(fw: Framework, data: Dictionary)
    requires |data| > 0
    requires fw.readButtonStyle(Lookup(data, CancelButtonKey)).None?
    requires fw.readButtonStyle(Lookup(data, OkayButtonKey)).None?
    ensures FromDictionary(fw, data).Some?
    ensures FromDictionary(fw, data).value.cancelButton == fw.defaultCancelButton
    ensures FromDictionary(fw, data).value.okayButton == fw.defaultOkayButton
  {
  }

  /** A dictionary built by `asDictionary` carries both styles in a form
      the reader accepts, so translating it back restores them, and
      `init?(from:)` rebuilds the object when the base round-trips too. */
  lemma AsDictionaryThenDaoKeepsStyles(fw: Framework, x: Themes, y: Themes)
    requires CancelButtonKey !in fw.baseDictionary(x.base) && OkayButtonKey !in fw.baseDictionary(x.base)
    requires fw.readButtonStyle(Some(Dict(fw.buttonStyleDictionary(x.cancelButton)))) == Some(x.cancelButton)
    requires fw.readButtonStyle(Some(Dict(fw.buttonStyleDictionary(x.okayButton)))) == Some(x.okayButton)
    ensures Dao(fw, y, AsDictionary(fw, x)).cancelButton == x.cancelButton
    ensures Dao(fw, y, AsDictionary(fw, x)).okayButton == x.okayButton
    ensures fw.baseDao(fw.newBase, AsDictionary(fw, x)) == x.base ==> FromDictionary(fw, AsDictionary(fw, x)) == Some(x)
  {
  }

  /** Codable loses the styles: whatever was encoded, the decoded object has
      the defaults, so it equals the original exactly when the original had
      default styles (and the base round-trips). */
  lemma EncodeDecodeGivesDefaults(fw: Framework, x: Themes)
    ensures Decode(fw, Encode(fw, x)).cancelButton == fw.defaultCancelButton
    ensures Decode(fw, Encode(fw, x)).okayButton == fw.defaultOkayButton
    ensures fw.baseDecode(Encode(fw, x)) == x.base ==>
      (Decode(fw, Encode(fw, x)) == x <==> x.cancelButton == fw.defaultCancelButton && x.okayButton == fw.defaultOkayButton)
  {
  }

  /** After `update(from: o)` the object differs from `o` only if the bases
      still differ. */
  lemma UpdateThenNotDiff(fw: Framework, x: Themes, o: Themes)
    ensures IsDiffFrom(fw, Update(fw, x, o), Instance(o)) <==> fw.baseDiff(fw.baseUpdate(x.base, o.base), o.base)
  {
  }
}
