/** `DAOAppActionStrings`: the six texts of an app action. `body` is stored
    under the key "description"; the other five under their own names. */
module AppActionStrings {
  import opened Values
  import opened Foreign

  datatype Field = Body | CancelLabel | Disclaimer | OkayLabel | Subtitle | Title

  /** The coding key of each field. */
  function Key(f: Field): string {
    match f
    case Body => "description"
    case CancelLabel => "cancelLabel"
    case Disclaimer => "disclaimer"
    case OkayLabel => "okayLabel"
    case Subtitle => "subtitle"
    case Title => "title"
  }

  const AllKeys: set<string> := {"description", "cancelLabel", "disclaimer", "okayLabel", "subtitle", "title"}

  datatype Strings = Strings(
    base: Base,
    body: DnsString,
    cancelLabel: DnsString,
    disclaimer: DnsString,
    okayLabel: DnsString,
    subtitle: DnsString,
    title: DnsString)
  {
    function Get(f: Field): DnsString {
      match f
      case Body => body
      case CancelLabel => cancelLabel
      case Disclaimer => disclaimer
      case OkayLabel => okayLabel
      case Subtitle => subtitle
      case Title => title
    }

    /** Assigning one text property. */
    function Set(f: Field, v: DnsString): (r: Strings)
      ensures r.Get(f) == v
      ensures forall g :: g != f ==> r.Get(g) == Get(g)
      ensures r.base == base
    {
      match f
      case Body => this.(body := v)
      case CancelLabel => this.(cancelLabel := v)
      case Disclaimer => this.(disclaimer := v)
      case OkayLabel => this.(okayLabel := v)
      case Subtitle => this.(subtitle := v)
      case Title => this.(title := v)
    }
  }

  lemma KeysAreDistinct(f: Field, g: Field)
    ensures Key(f) == Key(g) <==> f == g
    ensures Key(f) in AllKeys
  {
  }

  /** Two objects with the same base and the same six texts are equal. */
  lemma Extensionality(x: Strings, y: Strings)
    requires x.base == y.base
    requires forall f :: x.Get(f) == y.Get(f)
    ensures x == y
  {
    assert x.Get(Body) == y.Get(Body);
    assert x.Get(CancelLabel) == y.Get(CancelLabel);
    assert x.Get(Disclaimer) == y.Get(Disclaimer);
    assert x.Get(OkayLabel) == y.Get(OkayLabel);
    assert x.Get(Subtitle) == y.Get(Subtitle);
    assert x.Get(Title) == y.Get(Title);
  }

  /** `DAOAppActionStrings()`: six empty texts on a fresh base. */
  function New(fw: Framework): (r: Strings)
    ensures r.base == fw.newBase
    ensures forall f :: r.Get(f) == EmptyDnsString && r.Get(f).IsEmpty()
  {
    Strings(fw.newBase, EmptyDnsString, EmptyDnsString, EmptyDnsString, EmptyDnsString, EmptyDnsString, EmptyDnsString)
  }

  /** `update(from:)`: the base updates itself and all six texts are copied. */
  function Update(fw: Framework, x: Strings, o: Strings): (r: Strings)
    ensures r.base == fw.baseUpdate(x.base, o.base)
    ensures forall f :: r.Get(f) == o.Get(f)
  {
    o.(base := fw.baseUpdate(x.base, o.base))
  }

  /** One field of `dao(from:)`: what the string reader finds under the
      field's key, or the previous text. */
  function Translate(fw: Framework, x: Strings, data: Dictionary, f: Field): DnsString {
    fw.readDnsString(Lookup(data, Key(f))).GetOr(x.Get(f))
  }

  /** `dao(from:)`: each text is replaced when the reader accepts the value
      under its key and kept otherwise. */
  function Dao(fw: Framework, x: Strings, data: Dictionary): (r: Strings)
    ensures r.base == fw.baseDao(x.base, data)
    ensures forall f :: fw.readDnsString(Lookup(data, Key(f))).Some? ==> r.Get(f) == fw.readDnsString(Lookup(data, Key(f))).value
    ensures forall f :: fw.readDnsString(Lookup(data, Key(f))).None? ==> r.Get(f) == x.Get(f)
  {
    Strings(fw.baseDao(x.base, data),
      Translate(fw, x, data, Body),
      Translate(fw, x, data, CancelLabel),
      Translate(fw, x, data, Disclaimer),
      Translate(fw, x, data, OkayLabel),
      Translate(fw, x, data, Subtitle),
      Translate(fw, x, data, Title))
  }

  /** `init?(from:)`: nil for an empty dictionary, otherwise a new object
      translated from it. */
  function FromDictionary(fw: Framework, data: Dictionary): (r: Option<Strings>)
    ensures r.None? <==> |data| == 0
    ensures r.Some? ==> r.value == Dao(fw, New(fw), data)
  {
    if |data| == 0 then None else Some(Dao(fw, New(fw), data))
  }

  /** `asDictionary`: each text's own dictionary under its key, below the
      base's entries. */
  function AsDictionary(fw: Framework, x: Strings): (r: Dictionary)
    ensures r.Keys == fw.baseDictionary(x.base).Keys + AllKeys
    ensures forall k :: k in fw.baseDictionary(x.base) ==> r[k] == fw.baseDictionary(x.base)[k]
    ensures forall f :: Key(f) !in fw.baseDictionary(x.base) ==> r[Key(f)] == Dict(fw.stringDictionary(x.Get(f)))
  {
    map[
      "description" := Dict(fw.stringDictionary(x.body)),
      "cancelLabel" := Dict(fw.stringDictionary(x.cancelLabel)),
      "disclaimer" := Dict(fw.stringDictionary(x.disclaimer)),
      "okayLabel" := Dict(fw.stringDictionary(x.okayLabel)),
      "subtitle" := Dict(fw.stringDictionary(x.subtitle)),
      "title" := Dict(fw.stringDictionary(x.title))
    ] + fw.baseDictionary(x.base)
  }

  /** Codable `encode(to:)`: the base's entries, then all six texts. */
  function Encode(fw: Framework, x: Strings): (r: Container)
    ensures r.Keys == fw.baseEncode(x.base).Keys + AllKeys
    ensures forall f :: r[Key(f)] == CodedString(x.Get(f))
    ensures forall k :: k in r && k !in AllKeys ==> r[k] == fw.baseEncode(x.base)[k]
  {
    fw.baseEncode(x.base)[
      "description" := CodedString(x.body)][
      "cancelLabel" := CodedString(x.cancelLabel)][
      "disclaimer" := CodedString(x.disclaimer)][
      "okayLabel" := CodedString(x.okayLabel)][
      "subtitle" := CodedString(x.subtitle)][
      "title" := CodedString(x.title)]
  }

  /** Codable `init(from:)`: the base decodes itself, then each text takes
      what the string reader finds under its key, keeping the empty default
      otherwise. */
  function Decode(fw: Framework, c: Container): (r: Strings)
    ensures r.base == fw.baseDecode(c)
    ensures forall f :: fw.decodeDnsString(c, Key(f)).Some? ==> r.Get(f) == fw.decodeDnsString(c, Key(f)).value
    ensures forall f :: fw.decodeDnsString(c, Key(f)).None? ==> r.Get(f) == EmptyDnsString
  {
    Strings(fw.baseDecode(c),
      fw.decodeDnsString(c, "description").GetOr(EmptyDnsString),
      fw.decodeDnsString(c, "cancelLabel").GetOr(EmptyDnsString),
      fw.decodeDnsString(c, "disclaimer").GetOr(EmptyDnsString),
      fw.decodeDnsString(c, "okayLabel").GetOr(EmptyDnsString),
      fw.decodeDnsString(c, "subtitle").GetOr(EmptyDnsString),
      fw.decodeDnsString(c, "title").GetOr(EmptyDnsString))
  }

  /** `isDiffFrom(_:)`. */
  function IsDiffFrom(fw: Framework, x: Strings, rhs: Peer<Strings>): (r: bool)
    ensures rhs.Nil? || rhs.OtherKind? ==> r
    ensures rhs.Same? ==> !r
    ensures rhs.Instance? && !fw.baseDiff(x.base, rhs.value.base) ==> (r <==> exists f :: x.Get(f) != rhs.value.Get(f))
    ensures rhs.Instance? && fw.baseDiff(x.base, rhs.value.base) ==> r
  {
    match rhs
    case Nil => true
    case OtherKind => true
    case Same => false
    case Instance(y) =>
      if fw.baseDiff(x.base, y.base) then true
      else
        assert x.body != y.body ==> x.Get(Body) != y.Get(Body);
        assert x.cancelLabel != y.cancelLabel ==> x.Get(CancelLabel) != y.Get(CancelLabel);
        assert x.disclaimer != y.disclaimer ==> x.Get(Disclaimer) != y.Get(Disclaimer);
        assert x.okayLabel != y.okayLabel ==> x.Get(OkayLabel) != y.Get(OkayLabel);
        assert x.subtitle != y.subtitle ==> x.Get(Subtitle) != y.Get(Subtitle);
        assert x.title != y.title ==> x.Get(Title) != y.Get(Title);
        fw.baseDiff(x.base, y.base)
        || x.body != y.body
        || x.cancelLabel != y.cancelLabel
        || x.disclaimer != y.disclaimer
        || x.okayLabel != y.okayLabel
        || x.subtitle != y.subtitle
        || x.title != y.title
  }

  /** `==` between two strings objects. */
  function Equal(fw: Framework, x: Strings, y: Strings): (r: bool)
    ensures r <==> !IsDiffFrom(fw, x, Instance(y))
  {
    !IsDiffFrom(fw, x, Instance(y))
  }

  // ---- properties ----

  /** `body` is read from "description" only: two dictionaries that agree on
      "description" give the same body, whatever "body" holds. */
  lemma DaoReadsBodyFromDescription(fw: Framework, x: Strings, d1: Dictionary, d2: Dictionary)
    requires Lookup(d1, "description") == Lookup(d2, "description")
    ensures Dao(fw, x, d1).body == Dao(fw, x, d2).body
  {
  }

  /** Only the fields whose keys are present can change. */
  lemma DaoKeepsMissingFields(fw: Framework, x: Strings, data: Dictionary)
    requires fw.Sound()
    ensures forall f :: Key(f) !in data ==> Dao(fw, x, data).Get(f) == x.Get(f)
  {
  }

  /** Each text sits under its own key in `asDictionary`, as its string
      dictionary, unless the base already uses that key. */
  lemma AsDictionaryEntry(fw: Framework, x: Strings, f: Field)
    requires Key(f) !in fw.baseDictionary(x.base)
    ensures Lookup(AsDictionary(fw, x), Key(f)) == Some(Dict(fw.stringDictionary(x.Get(f))))
  {
  }

  /** A dictionary built by `asDictionary` carries each text in a form the
      reader accepts, so translating it back restores all six texts. */
  lemma {:induction false} AsDictionaryThenDaoKeepsTexts(fw: Framework, x: Strings, y: Strings)
    requires forall f :: Key(f) !in fw.baseDictionary(x.base)
    requires forall f :: fw.readDnsString(Some(Dict(fw.stringDictionary(x.Get(f))))) == Some(x.Get(f))
    ensures forall f :: Dao(fw, y, AsDictionary(fw, x)).Get(f) == x.Get(f)
  {
    forall f
      ensures Dao(fw, y, AsDictionary(fw, x)).Get(f) == x.Get(f)
    {
      AsDictionaryEntry(fw, x, f);
    }
  }

  /** `init?(from:)` applied to `asDictionary` rebuilds the object whenever
      the base round-trips through its own dictionary. */
  lemma {:induction false} AsDictionaryThenFromDictionary(fw: Framework, x: Strings)
    requires forall f :: Key(f) !in fw.baseDictionary(x.base)
    requires forall f :: fw.readDnsString(Some(Dict(fw.stringDictionary(x.Get(f))))) == Some(x.Get(f))
    requires fw.baseDao(fw.newBase, AsDictionary(fw, x)) == x.base
    ensures FromDictionary(fw, AsDictionary(fw, x)) == Some(x)
  {
    AsDictionaryEntry(fw, x, Body);
    AsDictionaryThenDaoKeepsTexts(fw, x, New(fw));
    Extensionality(Dao(fw, New(fw), AsDictionary(fw, x)), x);
  }

  /** Codable round trip: when the string reader gives back what was
      encoded, decoding restores all six texts, and the whole object when
      the base round-trips too. */
  lemma {:induction false} EncodeDecodeRoundTrip(fw: Framework, x: Strings)
    requires fw.DecodesWhatItEncodes()
    ensures forall f :: Decode(fw, Encode(fw, x)).Get(f) == x.Get(f)
    ensures fw.baseDecode(Encode(fw, x)) == x.base ==> Decode(fw, Encode(fw, x)) == x
  {
    var c := Encode(fw, x);
    var y := Decode(fw, c);
    forall f
      ensures y.Get(f) == x.Get(f)
    {
      assert c[Key(f)] == CodedString(x.Get(f));
      assert fw.decodeDnsString(c, Key(f)) == Some(x.Get(f));
    }
    if fw.baseDecode(c) == x.base {
      Extensionality(y, x);
    }
  }

  /** After `update(from: o)` the object differs from `o` only if the bases
      still differ. */
  lemma UpdateThenNotDiff(fw: Framework, x: Strings, o: Strings)
    ensures IsDiffFrom(fw, Update(fw, x, o), Instance(o)) <==> fw.baseDiff(fw.baseUpdate(x.base, o.base), o.base)
  {
  }
}
