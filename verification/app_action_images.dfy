/** `DAOAppActionImages`: the image URLs of an app action. Its one field,
    `topUrl`, lives under the key "top" in dictionaries and Codable
    containers alike. */
module AppActionImages {
  import opened Values
  import opened Foreign

  /** The coding key of `topUrl`. */
  const TopKey := "top"

  datatype Images = Images(base: Base, topUrl: DnsUrl)

  /** `DAOAppActionImages()`: an empty top URL on a fresh base. */
  function New(fw: Framework): (r: Images)
    ensures r.base == fw.newBase
    ensures r.topUrl == EmptyDnsUrl
  {
    Images(fw.newBase, EmptyDnsUrl)
  }

  /** `update(from:)`: the base updates itself and `topUrl` is copied. */
  function Update(fw: Framework, x: Images, o: Images): (r: Images)
    ensures r.base == fw.baseUpdate(x.base, o.base)
    ensures r.topUrl == o.topUrl
  {
    x.(base := fw.baseUpdate(x.base, o.base), topUrl := o.topUrl)
  }

  /** `dao(from:)`: `topUrl` takes what the URL reader finds under "top" and
      otherwise keeps its previous value. */
  function Dao(fw: Framework, x: Images, data: Dictionary): (r: Images)
    ensures r.base == fw.baseDao(x.base, data)
    ensures fw.readDnsUrl(Lookup(data, TopKey)).Some? ==> r.topUrl == fw.readDnsUrl(Lookup(data, TopKey)).value
    ensures fw.readDnsUrl(Lookup(data, TopKey)).None? ==> r.topUrl == x.topUrl
  {
    Images(fw.baseDao(x.base, data), fw.readDnsUrl(Lookup(data, TopKey)).GetOr(x.topUrl))
  }

  /** `init?(from:)`: nil for an empty dictionary, otherwise a new object
      translated from it. */
  function FromDictionary(fw: Framework, data: Dictionary): (r: Option<Images>)
    ensures r.None? <==> |data| == 0
    ensures r.Some? ==> r.value == Dao(fw, New(fw), data)
  {
    if |data| == 0 then None else Some(Dao(fw, New(fw), data))
  }

  /** `asDictionary`: the base dictionary with "top" added; on a collision
      the base's entry is kept. */
  function AsDictionary(fw: Framework, x: Images): (r: Dictionary)
    ensures r.Keys == fw.baseDictionary(x.base).Keys + {TopKey}
    ensures forall k :: k in fw.baseDictionary(x.base) ==> r[k] == fw.baseDictionary(x.base)[k]
    ensures TopKey !in fw.baseDictionary(x.base) ==> r[TopKey] == Obj(UrlObject(x.topUrl))
  {
    map[TopKey := Obj(UrlObject(x.topUrl))] + fw.baseDictionary(x.base)
  }

  /** Codable `encode(to:)`: the base's entries, then `topUrl` under "top". */
  function Encode(fw: Framework, x: Images): (r: Container)
    ensures r.Keys == fw.baseEncode(x.base).Keys + {TopKey}
    ensures r[TopKey] == CodedUrl(x.topUrl)
    ensures forall k :: k in r && k != TopKey ==> r[k] == fw.baseEncode(x.base)[k]
  {
    fw.baseEncode(x.base)[TopKey := CodedUrl(x.topUrl)]
  }

  /** Codable `init(from:)`: the base decodes itself, then `commonInit`
      takes what the url reader finds under "top", keeping the empty
      default otherwise. */
  function Decode(fw: Framework, c: Container): (r: Images)
    ensures r.base == fw.baseDecode(c)
    ensures fw.decodeDnsUrl(c, TopKey).Some? ==> r.topUrl == fw.decodeDnsUrl(c, TopKey).value
    ensures fw.decodeDnsUrl(c, TopKey).None? ==> r.topUrl == EmptyDnsUrl
  {
    Images(fw.baseDecode(c), fw.decodeDnsUrl(c, TopKey).GetOr(EmptyDnsUrl))
  }

  /** `isDiffFrom(_:)`. */
  function IsDiffFrom(fw: Framework, x: Images, rhs: Peer<Images>): (r: bool)
    ensures rhs.Nil? || rhs.OtherKind? ==> r
    ensures rhs.Same? ==> !r
    ensures rhs.Instance? && !fw.baseDiff(x.base, rhs.value.base) ==> (r <==> x.topUrl != rhs.value.topUrl)
    ensures rhs.Instance? && fw.baseDiff(x.base, rhs.value.base) ==> r
  {
    match rhs
    case Nil => true
    case OtherKind => true
    case Same => false
    case Instance(y) => fw.baseDiff(x.base, y.base) || x.topUrl != y.topUrl
  }

  /** `==` between two images objects. */
  function Equal(fw: Framework, x: Images, y: Images): (r: bool)
    ensures r <==> !IsDiffFrom(fw, x, Instance(y))
  {
    !IsDiffFrom(fw, x, Instance(y))
  }

  // ---- properties ----

  /** The URL is read from "top" and from no other key: two dictionaries
      that agree on "top" give the same `topUrl`, whatever "topUrl" holds. */
  lemma DaoReadsOnlyTop(fw: Framework, x: Images, d1: Dictionary, d2: Dictionary)
    requires Lookup(d1, TopKey) == Lookup(d2, TopKey)
    ensures Dao(fw, x, d1).topUrl == Dao(fw, x, d2).topUrl
  {
  }

  /** A missing "top" keeps the previous URL. */
  lemma DaoKeepsTopWhenMissing(fw: Framework, x: Images, data: Dictionary)
    requires fw.Sound()
    requires TopKey !in data
    ensures Dao(fw, x, data).topUrl == x.topUrl
  {
  }

  /** A dictionary built by `asDictionary` carries the URL under "top" in a
      form the reader accepts, so translating it back restores the URL, and
      `init?(from:)` rebuilds the object when the base round-trips too. */
  lemma AsDictionaryThenDaoKeepsTop(fw: Framework, x: Images, y: Images)
    requires TopKey !in fw.baseDictionary(x.base)
    requires fw.readDnsUrl(Some(Obj(UrlObject(x.topUrl)))) == Some(x.topUrl)
    ensures Dao(fw, y, AsDictionary(fw, x)).topUrl == x.topUrl
    ensures fw.baseDao(fw.newBase, AsDictionary(fw, x)) == x.base ==> FromDictionary(fw, AsDictionary(fw, x)) == Some(x)
  {
  }

  /** Codable round trip: when the url reader gives back what was encoded,
      decoding restores `topUrl`, and the whole object when the base
      round-trips too. */
  lemma EncodeDecodeRoundTrip(fw: Framework, x: Images)
    requires fw.DecodesWhatItEncodes()
    ensures Decode(fw, Encode(fw, x)).topUrl == x.topUrl
    ensures fw.baseDecode(Encode(fw, x)) == x.base ==> Decode(fw, Encode(fw, x)) == x
  {
  }

  /** After `update(from: o)` the object differs from `o` only if the bases
      still differ. */
  lemma UpdateThenNotDiff(fw: Framework, x: Images, o: Images)
    ensures IsDiffFrom(fw, Update(fw, x, o), Instance(o)) <==> fw.baseDiff(fw.baseUpdate(x.base, o.base), o.base)
  {
  }
}
