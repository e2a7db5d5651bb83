/**
 * The scalar properties of a `GPXWaypoint` and the dictionary decoder of
 * `init(dictionary:)`: each GPX tag name feeds exactly one property, through
 * `number(from:)`, `integer(from:)` or as text, and a missing or unparsable
 * value gives an absent property.
 */
module WaypointFields {
  import opened Wrappers
  import opened Decimal
  import opened DateParsing

  /** A `GPXExtensions` object, known only by its identity. */
  datatype GpxExtensions = GpxExtensions(id: nat)

  /** The optional properties of a waypoint, in declaration order (`type` is `classification`). */
  datatype Fields = Fields(
    elevation: Option<real>,
    time: Option<Date>,
    magneticVariation: Option<real>,
    geoidHeight: Option<real>,
    name: Option<string>,
    comment: Option<string>,
    desc: Option<string>,
    source: Option<string>,
    symbol: Option<string>,
    classification: Option<string>,
    fix: Option<int>,
    satellites: Option<int>,
    horizontalDilution: Option<real>,
    verticalDilution: Option<real>,
    positionDilution: Option<real>,
    ageofDGPSData: Option<real>,
    dgpsId: Option<int>,
    extensions: Option<GpxExtensions>,
    latitude: Option<real>,
    longitude: Option<real>)

  const NoFields: Fields := Fields(
    None, None, None, None, None, None, None, None, None, None,
    None, None, None, None, None, None, None, None, None, None)

  /** One property value, tagged with its kind. */
  datatype Value =
    | DoubleValue(number: Option<real>)
    | IntegerValue(integer: Option<int>)
    | TextValue(text: Option<string>)
    | DateTimeValue(date: Option<Date>)

  /** `dictionary[key]`. */
  function Lookup(dict: map<string, string>, key: string): (v: Option<string>)
    ensures v.Some? <==> key in dict
    ensures v.Some? ==> v.value == dict[key]
  {
    if key in dict then Some(dict[key]) else None
  }

  /** `number(from:)`. `parseDouble` stands for Swift's `Double(String)`. */
  function NumberFrom(s: Option<string>, parseDouble: string -> Option<real>): (r: Option<real>)
    ensures s.None? ==> r.None?
    ensures r.Some? ==> s.Some? && parseDouble(s.value) == r
  {
    match s
    case None => None
    case Some(text) => parseDouble(text)
  }

  /** `integer(from:)`, with Swift's `Int(String)`. */
  function IntegerFrom(s: Option<string>): (r: Option<int>)
    ensures s.None? ==> r.None?
    ensures r.Some? ==> s.Some? && InInt64(r.value)
    ensures r.Some? ==> s.value != [] && (IsDigit(s.value[0]) || s.value[0] == '+' || s.value[0] == '-')
  {
    match s
    case None => None
    case Some(text) => ParseInt(text)
  }

  /** Both coercions turn an absent string into an absent value, and pass a present one to the parser. */
  lemma CoercionsPropagateNil(s: Option<string>, parseDouble: string -> Option<real>)
    ensures s.None? ==> NumberFrom(s, parseDouble).None? && IntegerFrom(s).None?
    ensures s.Some? ==> NumberFrom(s, parseDouble) == parseDouble(s.value)
    ensures s.Some? ==> IntegerFrom(s) == ParseInt(s.value)
    ensures IntegerFrom(s).Some? ==> InInt64(IntegerFrom(s).value)
  {
  }

  /** Every `Int` written in decimal is read back by `integer(from:)`. */
  lemma IntegerFromShown(n: int)
    requires InInt64(n)
    ensures IntegerFrom(Some(ShowInt(n))) == Some(n)
  {
    ParseShowRoundTrip(n);
  }

  /** Text that `Int(String)` rejects, such as a leading blank, gives no integer rather than zero. */
  lemma IntegerFromBlankLed(s: string)
    ensures IntegerFrom(Some(" " + s)) == None
  {
    ParseRejectsLeadingBlank(s);
  }

  /** The tag names `init(dictionary:)` reads besides `time`. */
  datatype Key =
    | EleKey | LatKey | LonKey | MagvarKey | GeoidHeightKey | NameKey | CmtKey | DescKey | SrcKey
    | SymKey | TypeKey | FixKey | SatKey | HdopKey | VdopKey | PdopKey | DgpsIdKey

  function KeyName(k: Key): string
  {
    match k
    case EleKey => "ele" case LatKey => "lat" case LonKey => "lon" case MagvarKey => "magvar"
    case GeoidHeightKey => "geoidheight" case NameKey => "name" case CmtKey => "cmt" case DescKey => "desc"
    case SrcKey => "src" case SymKey => "sym" case TypeKey => "type" case FixKey => "fix" case SatKey => "sat"
    case HdopKey => "hdop" case VdopKey => "vdop" case PdopKey => "pdop" case DgpsIdKey => "dgpsid"
  }

  /** The key a tag name spells, if it is one of the decoded names. */
  function KeyOf(name: string): Option<Key>
  {
    match name
    case "ele" => Some(EleKey) case "lat" => Some(LatKey) case "lon" => Some(LonKey)
    case "magvar" => Some(MagvarKey) case "geoidheight" => Some(GeoidHeightKey) case "name" => Some(NameKey)
    case "cmt" => Some(CmtKey) case "desc" => Some(DescKey) case "src" => Some(SrcKey) case "sym" => Some(SymKey)
    case "type" => Some(TypeKey) case "fix" => Some(FixKey) case "sat" => Some(SatKey) case "hdop" => Some(HdopKey)
    case "vdop" => Some(VdopKey) case "pdop" => Some(PdopKey) case "dgpsid" => Some(DgpsIdKey)
    case _ => None
  }

  /** Every key has its own tag name, and `time` is none of them. */
  lemma KeyNamesDistinct(a: Key, b: Key)
    ensures KeyName(a) == KeyName(b) ==> a == b
    ensures KeyName(a) != "time"
  {
    KeyNameRoundTrip(a);
    KeyNameRoundTrip(b);
  }

  lemma KeyNameRoundTrip(k: Key)
    ensures KeyOf(KeyName(k)) == Some(k)
  {
    match k {
      case EleKey => case LatKey => case LonKey => case MagvarKey => case GeoidHeightKey =>
      case NameKey => case CmtKey => case DescKey => case SrcKey => case SymKey => case TypeKey =>
      case FixKey => case SatKey => case HdopKey => case VdopKey => case PdopKey => case DgpsIdKey =>
    }
  }

  /** `dictionary[name]` for a tag name. */
  function Entry(dict: map<string, string>, k: Key): Option<string>
  {
    Lookup(dict, KeyName(k))
  }

  /**
   * The fields `init(dictionary:)` sets. `time` is what
   * `ISO8601DateParser.parse` made of `dictionary["time"]`.
   */
  function Decode(dict: map<string, string>, time: Option<Date>, parseDouble: string -> Option<real>): (f: Fields)
    ensures f.time == time
    ensures f.ageofDGPSData.None? && f.extensions.None?
  {
    NoFields.(
      time := time,
      elevation := NumberFrom(Entry(dict, EleKey), parseDouble),
      latitude := NumberFrom(Entry(dict, LatKey), parseDouble),
      longitude := NumberFrom(Entry(dict, LonKey), parseDouble),
      magneticVariation := NumberFrom(Entry(dict, MagvarKey), parseDouble),
      geoidHeight := NumberFrom(Entry(dict, GeoidHeightKey), parseDouble),
      name := Entry(dict, NameKey),
      comment := Entry(dict, CmtKey),
      desc := Entry(dict, DescKey),
      source := Entry(dict, SrcKey),
      symbol := Entry(dict, SymKey),
      classification := Entry(dict, TypeKey),
      fix := IntegerFrom(Entry(dict, FixKey)),
      satellites := IntegerFrom(Entry(dict, SatKey)),
      horizontalDilution := NumberFrom(Entry(dict, HdopKey), parseDouble),
      verticalDilution := NumberFrom(Entry(dict, VdopKey), parseDouble),
      positionDilution := NumberFrom(Entry(dict, PdopKey), parseDouble),
      dgpsId := IntegerFrom(Entry(dict, DgpsIdKey)))
  }

  // ---------------------------------------------------------------------
  // The tag table the decoder follows, stated on its own

  /** How a tag's text becomes a property. */
  datatype Coercion = AsNumber | AsInteger | AsText

  function CoercionOf(k: Key): Coercion
  {
    match k
    case FixKey | SatKey | DgpsIdKey => AsInteger
    case NameKey | CmtKey | DescKey | SrcKey | SymKey | TypeKey => AsText
    case _ => AsNumber
  }

  function Coerce(c: Coercion, s: Option<string>, parseDouble: string -> Option<real>): Value
  {
    match c
    case AsNumber => DoubleValue(NumberFrom(s, parseDouble))
    case AsInteger => IntegerValue(IntegerFrom(s))
    case AsText => TextValue(s)
  }

  /** The property each tag name feeds. */
  function FieldOf(f: Fields, k: Key): Value
  {
    match k
    case EleKey => DoubleValue(f.elevation)
    case LatKey => DoubleValue(f.latitude)
    case LonKey => DoubleValue(f.longitude)
    case MagvarKey => DoubleValue(f.magneticVariation)
    case GeoidHeightKey => DoubleValue(f.geoidHeight)
    case NameKey => TextValue(f.name)
    case CmtKey => TextValue(f.comment)
    case DescKey => TextValue(f.desc)
    case SrcKey => TextValue(f.source)
    case SymKey => TextValue(f.symbol)
    case TypeKey => TextValue(f.classification)
    case FixKey => IntegerValue(f.fix)
    case SatKey => IntegerValue(f.satellites)
    case HdopKey => DoubleValue(f.horizontalDilution)
    case VdopKey => DoubleValue(f.verticalDilution)
    case PdopKey => DoubleValue(f.positionDilution)
    case DgpsIdKey => IntegerValue(f.dgpsId)
  }

  /** Every decoded tag sets its property from its own entry, by its own coercion. */
  lemma DecodeFieldFromItsKey(dict: map<string, string>, time: Option<Date>, parseDouble: string -> Option<real>, k: Key)
    ensures FieldOf(Decode(dict, time, parseDouble), k) == Coerce(CoercionOf(k), Entry(dict, k), parseDouble)
  {
  }

  /** Setting one tag's entry changes that tag's property and no other. */
  lemma DecodeOneEntry(dict: map<string, string>, time: Option<Date>, parseDouble: string -> Option<real>,
                       k: Key, text: string, other: Key)
    requires other != k
    ensures FieldOf(Decode(dict[KeyName(k) := text], time, parseDouble), k) == Coerce(CoercionOf(k), Some(text), parseDouble)
    ensures FieldOf(Decode(dict[KeyName(k) := text], time, parseDouble), other) == FieldOf(Decode(dict, time, parseDouble), other)
  {
    KeyNamesDistinct(k, other);
    DecodeFieldFromItsKey(dict[KeyName(k) := text], time, parseDouble, k);
    DecodeFieldFromItsKey(dict[KeyName(k) := text], time, parseDouble, other);
    DecodeFieldFromItsKey(dict, time, parseDouble, other);
  }

  /** A missing tag leaves its property absent: never an error and never a zero. */
  lemma DecodeMissingKey(dict: map<string, string>, time: Option<Date>, parseDouble: string -> Option<real>, k: Key)
    requires KeyName(k) !in dict
    ensures FieldOf(Decode(dict, time, parseDouble), k) in
      {DoubleValue(None), IntegerValue(None), TextValue(None)}
  {
    DecodeFieldFromItsKey(dict, time, parseDouble, k);
  }

  /** Entries under other tag names make no difference. */
  lemma DecodeIgnoresOtherKeys(d1: map<string, string>, d2: map<string, string>, time: Option<Date>, parseDouble: string -> Option<real>)
    requires forall k :: Entry(d1, k) == Entry(d2, k)
    ensures Decode(d1, time, parseDouble) == Decode(d2, time, parseDouble)
  {
  }

  /** An empty dictionary decodes to a waypoint with nothing but the parsed time. */
  lemma DecodeEmpty(time: Option<Date>, parseDouble: string -> Option<real>)
    ensures Decode(map[], time, parseDouble) == NoFields.(time := time)
  {
  }

  /** A waypoint written with an integer `fix` decodes it back. */
  lemma DecodeIntegerField(dict: map<string, string>, time: Option<Date>, parseDouble: string -> Option<real>, n: int)
    requires InInt64(n) && "fix" in dict && dict["fix"] == ShowInt(n)
    ensures Decode(dict, time, parseDouble).fix == Some(n)
  {
    IntegerFromShown(n);
  }
}
