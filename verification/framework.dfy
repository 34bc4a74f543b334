/** The closed-source frameworks the package is built on (DNSCore,
    DNSDataObjects, DNSThemeTypes, DNSDataTypes). Nothing of them is visible,
    so each behaviour the package calls is a field of `Framework`: an
    uninterpreted function or constant that every operation receives. */
module Foreign {
  import opened Values

  /** `DAOBaseObject`'s own state (id, meta data), seen only through the
      framework functions below. */
  datatype Base = Base(id: string, meta: nat)

  /** `DNSPriority.none`, `.normal` and `.highest`. */
  datatype PriorityScale = PriorityScale(none: int, normal: int, highest: int)

  datatype Framework = Framework(
    // typed dictionary readers of DAOBaseObject: `string(from:)`,
    // `dnsstring(from:)`, `dnsurl(from:)`, `url(from:)`, `int(from:)`,
    // `bool(from:)`, `time(from:)`, `dnsThemeButtonStyle(from:)`, `date(from:)`
    readString: Option<Value> -> Option<string>,
    readDnsString: Option<Value> -> Option<DnsString>,
    readDnsUrl: Option<Value> -> Option<DnsUrl>,
    readUrl: Option<Value> -> Option<Url>,
    readInt: Option<Value> -> Option<int>,
    readBool: Option<Value> -> Option<bool>,
    readTime: Option<Value> -> Option<Time>,
    readButtonStyle: Option<Value> -> Option<ButtonStyle>,
    readDate: Option<string> -> Option<Time>,
    // `dictionary(from:)` and `dataarray(from:)` return non-optional values
    readDictionary: Option<Value> -> Dictionary,
    readDataArray: Option<Value> -> seq<Dictionary>,
    // the Codable readers of DAOBaseObject: `dnsstring(from: container, forKey:)`
    // and `dnsurl(from: container, forKey:)`
    decodeDnsString: (Container, string) -> Option<DnsString>,
    decodeDnsUrl: (Container, string) -> Option<DnsUrl>,
    // DAOBaseObject: a fresh object's base, `super.dao(from:)`,
    // `super.update(from:)`, `super.asDictionary`, `super.isDiffFrom`,
    // and the base part of Codable
    newBase: Base,
    baseDao: (Base, Dictionary) -> Base,
    baseUpdate: (Base, Base) -> Base,
    baseDictionary: Base -> Dictionary,
    baseDiff: (Base, Base) -> bool,
    baseEncode: Base -> Container,
    baseDecode: Container -> Base,
    // foreign value types
    priority: PriorityScale,
    // `DAOAppActionThemes.defaultCancelButton` and `.defaultOkayButton`: two
    // assignable statics, both `DNSThemeButtonStyle.default` initially
    defaultCancelButton: ButtonStyle,
    defaultOkayButton: ButtonStyle,
    defaultDayOfWeek: DayOfWeekFlags,
    deltaOneYear: real,
    dayOfWeekFromDictionary: Dictionary -> DayOfWeekFlags,
    mediaFromDictionary: Dictionary -> Option<Media>,
    mediaDiff: (Media, Media) -> bool,
    asUrl: DnsUrl -> Option<Url>,
    stringDictionary: DnsString -> Dictionary,
    buttonStyleDictionary: ButtonStyle -> Dictionary,
    dayOfWeekDictionary: DayOfWeekFlags -> Dictionary,
    mediaDictionary: Media -> Dictionary,
    formatTime: Time -> string
  ) {
    /** What the model assumes of the frameworks: a reader given no value
        finds nothing, the dictionary reader returns a dictionary value as it
        is, and the priority constants are ordered. */
    predicate Sound() {
      && readString(None) == None
      && readDnsString(None) == None
      && readDnsUrl(None) == None
      && readUrl(None) == None
      && readInt(None) == None
      && readBool(None) == None
      && readTime(None) == None
      && readButtonStyle(None) == None
      && readDate(None) == None
      && readDictionary(None) == map[]
      && readDataArray(None) == []
      && priority.none <= priority.normal <= priority.highest
    }

    /** `dictionary(from:)` hands a dictionary value back unchanged. */
    ghost predicate KeepsDictionaries() {
      forall d: Dictionary :: readDictionary(Some(Dict(d))) == d
    }

    /** The Codable readers give back what `container.encode` wrote: a
        string or url stored under a key is found there unchanged. */
    ghost predicate DecodesWhatItEncodes() {
      && (forall c: Container, k: string :: k in c && c[k].CodedString? ==> decodeDnsString(c, k) == Some(c[k].str))
      && (forall c: Container, k: string :: k in c && c[k].CodedUrl? ==> decodeDnsUrl(c, k) == Some(c[k].url))
    }

    /** Each dictionary reader accepts what the matching `asDictionary`
        entry writes and gives back the value that was written. */
    ghost predicate ReadsBackWhatItWrites() {
      && (forall u: DnsUrl :: readDnsUrl(Some(Obj(UrlObject(u)))) == Some(u))
      && (forall s: DnsString :: readDnsString(Some(Dict(stringDictionary(s)))) == Some(s))
      && (forall b: ButtonStyle :: readButtonStyle(Some(Dict(buttonStyleDictionary(b)))) == Some(b))
      && (forall u: Url :: readUrl(Some(Obj(LinkObject(u)))) == Some(u))
      && (forall t: ActionType :: readString(Some(Obj(ActionTypeObject(t)))) == Some(t.RawValue()))
      && (forall b: bool :: readBool(Some(Bool(b))) == Some(b))
      && (forall w: DayOfWeekFlags :: dayOfWeekFromDictionary(dayOfWeekDictionary(w)) == w)
    }

    /** `int(from:)` and `string(from:)` accept a plain integer or string
        value as it is. */
    ghost predicate ReadsPlainValues() {
      && (forall i: int :: readInt(Some(Int(i))) == Some(i))
      && (forall s: string :: readString(Some(Str(s))) == Some(s))
    }
  }
}
