/** Values shared by every data-access object of the package: the loosely typed
    dictionaries objects are translated from and to, the typed keyed containers
    of Swift's Codable, and the value types the package borrows from its
    closed-source frameworks (modelled as plain records compared by value). */
module Values {

  datatype Option<+T> = None | Some(value: T) {
    /** `x ?? d` in the source. */
    function GetOr(default: T): T {
      match this
      case Some(v) => v
      case None => default
    }
  }

  /** An element of a `DNSDataDictionary` (`[String: Any]`). Foreign objects
      stored as-is (a `DNSURL`, a `URL`, an enum case, a `Date`) are `Obj`; a
      stored `nil` optional is `Null`. */
  datatype Value =
    | Null
    | Str(s: string)
    | Int(i: int)
    | Bool(b: bool)
    | Dict(d: map<string, Value>)
    | Arr(a: seq<Value>)
    | Obj(o: ForeignObject)

  type Dictionary = map<string, Value>

  datatype ForeignObject =
    | UrlObject(dnsUrl: DnsUrl)
    | LinkObject(url: Url)
    | ActionTypeObject(actionType: ActionType)
    | DateObject(time: Time)

  /** `data[key] as Any?`: the value stored under `key`, if any. */
  function Lookup(data: Dictionary, key: string): (r: Option<Value>)
    ensures r.Some? <==> key in data
    ensures r.Some? ==> r.value == data[key]
  {
    if key in data then Some(data[key]) else None
  }

  /** `data[key] as? DNSDataDictionary`: a Swift cast, not a lenient reader. */
  function CastDictionary(v: Option<Value>): (r: Option<Dictionary>)
    ensures r.Some? <==> v.Some? && v.value.Dict?
  {
    match v
    case Some(Dict(d)) => Some(d)
    case _ => None
  }

  /** `data[key] as? Int`. */
  function CastInt(v: Option<Value>): (r: Option<int>)
    ensures r.Some? <==> v.Some? && v.value.Int?
  {
    match v
    case Some(Int(i)) => Some(i)
    case _ => None
  }

  /** `data[key] as? String`. */
  function CastString(v: Option<Value>): (r: Option<string>)
    ensures r.Some? <==> v.Some? && v.value.Str?
  {
    match v
    case Some(Str(s)) => Some(s)
    case _ => None
  }

  // ---- value types of the closed-source frameworks ----

  /** `DNSString`: a localisable string; only its text is observable here. */
  datatype DnsString = DnsString(text: string) {
    predicate IsEmpty() { |text| == 0 }
  }
  const EmptyDnsString := DnsString("")

  /** `DNSURL`: a possibly localised URL holder; `DNSURL()` is the empty one. */
  datatype DnsUrl = DnsUrl(text: string)
  const EmptyDnsUrl := DnsUrl("")

  /** Foundation `URL`; the image cache key is its absolute string. */
  datatype Url = Url(absoluteString: string)

  /** `DNSThemeButtonStyle`: opaque, compared by value. */
  datatype ButtonStyle = ButtonStyle(tag: nat)

  /** `DNSDayOfWeekFlags`: opaque, compared by value. */
  datatype DayOfWeekFlags = DayOfWeekFlags(bits: nat)

  /** Foundation `Date`, as seconds since the reference date. */
  datatype Time = Time(sinceReference: real)

  /** `DAOMedia` as far as this package uses it: an identity and two URL
      holders whose `asURL` conversion lives in the frameworks. */
  datatype Media = Media(id: string, url: DnsUrl, preloadUrl: DnsUrl)

  /** `DNSAppActionType`. Its raw values are the case names, Swift's default
      for a `String` enum. */
  datatype ActionType = Drawer | FullScreen | Popup | Stage {
    function RawValue(): string {
      match this
      case Drawer => "drawer"
      case FullScreen => "fullScreen"
      case Popup => "popup"
      case Stage => "stage"
    }
  }

  /** `DNSAppActionType(rawValue:)`: the case whose raw value is `s`, if any. */
  function ActionTypeFromRaw(s: string): (r: Option<ActionType>)
    ensures r.Some? ==> r.value.RawValue() == s
    ensures r.None? ==> forall t: ActionType :: t.RawValue() != s
  {
    if s == "drawer" then Some(Drawer)
    else if s == "fullScreen" then Some(FullScreen)
    else if s == "popup" then Some(Popup)
    else if s == "stage" then Some(Stage)
    else None
  }

  lemma ActionTypeRawRoundTrip(t: ActionType)
    ensures ActionTypeFromRaw(t.RawValue()) == Some(t)
  {
  }

  /** What a keyed Codable container holds under one key: the typed value
      that was encoded there. `Other` stands for entries this package neither
      writes nor reads (the base object's keys, say). */
  datatype Coded =
    | CodedString(str: DnsString)
    | CodedUrl(url: DnsUrl)
    | Other(tag: nat)

  type Container = map<string, Coded>

  /** The three guards every `isDiffFrom(_ rhs: Any?)` starts with: the other
      side may be nil, an object of another class, this very instance, or
      another instance of the same class. */
  datatype Peer<T> = Nil | OtherKind | Same | Instance(value: T)
}
