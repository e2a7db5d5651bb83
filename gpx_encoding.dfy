/**
 * What `addOpenTag` and `addChildTag` of `GPXWaypoint` append to the GPX
 * text. The text is a sequence of chunks: literal text, and the pieces that
 * collaborators outside this model write (indentation, `%f` numbers,
 * `addProperty` elements, link and extensions elements, and the
 * `GPXElement` part of `addChildTag`), each tagged with what it is given.
 */
module GpxEncoding {
  import opened Wrappers
  import opened WaypointFields

  /**
   * The element names of a waypoint's GPX text: the children of `wptType` in
   * the GPX 1.1 schema, in schema order, and `source`, which the schema does
   * not have.
   */
  datatype Element =
    | Ele | Time | Magvar | GeoidHeight | Name | Cmt | Desc | Src | Link | Sym | Type | Fix | Sat
    | Hdop | Vdop | Pdop | AgeOfDgpsData | DgpsId | Extensions
    | Source

  /** The tag text of an element. */
  function TagName(e: Element): string
  {
    match e
    case Ele => "ele" case Time => "time" case Magvar => "magvar" case GeoidHeight => "geoidheight"
    case Name => "name" case Cmt => "cmt" case Desc => "desc" case Src => "src" case Link => "link"
    case Sym => "sym" case Type => "type" case Fix => "fix" case Sat => "sat" case Hdop => "hdop"
    case Vdop => "vdop" case Pdop => "pdop" case AgeOfDgpsData => "ageofdgpsdata" case DgpsId => "dgpsid"
    case Extensions => "extensions" case Source => "source"
  }

  datatype Chunk<L> =
    | Text(text: string)
      /** `indent(forIndentationLevel:)` */
    | Indent(level: int)
      /** `appendFormat(" \(name)=\"%f\"", x)` */
    | Attribute(name: string, x: real)
      /** `super.addChildTag(toGPX:indentationLevel:)` */
    | ElementChildren(level: int)
      /** `addProperty(for…Value:gpx:tagName:indentationLevel:)` */
    | Property(level: int, tag: Element, value: Value)
      /** `link.gpx(_:indentationLevel:)` */
    | LinkElement(level: int, link: L)
      /** `extensions.gpx(_:indentationLevel:)` */
    | ExtensionsElement(level: int, extensions: GpxExtensions)

  /** The `NSMutableString` the GPX text is appended to. */
  class GpxBuffer<L> {
    var chunks: seq<Chunk<L>>

    constructor ()
      ensures chunks == []
    {
      chunks := [];
    }

    method Append(more: seq<Chunk<L>>)
      modifies this
      ensures chunks == old(chunks) + more
    {
      chunks := chunks + more;
    }
  }

  // ---------------------------------------------------------------------
  // The open tag

  function CoordinateAttribute<L>(name: string, x: Option<real>): seq<Chunk<L>>
  {
    match x
    case None => []
    case Some(v) => [Attribute(name, v)]
  }

  /** What `addOpenTag` appends: indent, `<wpt`, the present coordinates, `>` and CR LF. */
  function OpenTag<L>(level: int, latitude: Option<real>, longitude: Option<real>): seq<Chunk<L>>
  {
    [Indent(level), Text("<wpt")] + CoordinateAttribute("lat", latitude) + CoordinateAttribute("lon", longitude)
    + [Text(">\r\n")]
  }

  function AttributeOf<L>(c: Chunk<L>): seq<(string, real)>
  {
    if c.Attribute? then [(c.name, c.x)] else []
  }

  /** The attributes among some chunks, in order. */
  function Attributes<L>(chunks: seq<Chunk<L>>): seq<(string, real)>
  {
    if chunks == [] then [] else AttributeOf(chunks[0]) + Attributes(chunks[1..])
  }

  lemma {:induction false} AttributesAppend<L>(a: seq<Chunk<L>>, b: seq<Chunk<L>>)
    ensures Attributes(a + b) == Attributes(a) + Attributes(b)
    decreases |a|
  {
    if a == [] {
      assert a + b == b;
    } else {
      assert (a + b)[0] == a[0] && (a + b)[1..] == a[1..] + b;
      AttributesAppend(a[1..], b);
    }
  }

  /** The open tag starts with the indent and `<wpt` and ends the line with `>` and CR LF. */
  lemma OpenTagFrame<L>(level: int, latitude: Option<real>, longitude: Option<real>)
    ensures OpenTag<L>(level, latitude, longitude)[..2] == [Indent(level), Text("<wpt")]
    ensures OpenTag<L>(level, latitude, longitude)[|OpenTag<L>(level, latitude, longitude)| - 1] == Text(">\r\n")
  {
  }

  /**
   * The open tag carries `lat` exactly when there is a latitude and `lon`
   * exactly when there is a longitude, `lat` first, and no other attribute.
   */
  lemma OpenTagShape<L>(level: int, latitude: Option<real>, longitude: Option<real>)
    ensures Attributes(OpenTag<L>(level, latitude, longitude)) ==
      (if latitude.Some? then [("lat", latitude.value)] else []) +
      (if longitude.Some? then [("lon", longitude.value)] else [])
  {
    var head: seq<Chunk<L>> := [Indent(level), Text("<wpt")];
    var lat: seq<Chunk<L>> := CoordinateAttribute("lat", latitude);
    var lon: seq<Chunk<L>> := CoordinateAttribute("lon", longitude);
    var tail: seq<Chunk<L>> := [Text(">\r\n")];
    assert OpenTag<L>(level, latitude, longitude) == head + lat + lon + tail;
    AttributesAppend(head, lat);
    AttributesAppend(head + lat, lon);
    AttributesAppend(head + lat + lon, tail);
    AttributesOfOne<L>(Indent(level));
    AttributesOfOne<L>(Text("<wpt"));
    AttributesOfOne<L>(Text(">\r\n"));
    assert head == [Indent(level)] + [Text("<wpt")];
    AttributesAppend<L>([Indent(level)], [Text("<wpt")]);
    if latitude.Some? {
      AttributesOfOne<L>(Attribute("lat", latitude.value));
    }
    if longitude.Some? {
      AttributesOfOne<L>(Attribute("lon", longitude.value));
    }
  }

  lemma AttributesOfOne<L>(c: Chunk<L>)
    ensures Attributes([c]) == AttributeOf(c)
  {
    assert [c][1..] == [];
  }

  // ---------------------------------------------------------------------
  // The child elements

  function LinkChunks<L>(links: seq<L>, level: int): (r: seq<Chunk<L>>)
    ensures |r| == |links|
    ensures forall i :: 0 <= i < |links| ==> r[i] == LinkElement(level, links[i])
  {
    if links == [] then [] else LinkChunks(links[..|links| - 1], level) + [LinkElement(level, links[|links| - 1])]
  }

  /** The properties `addChildTag` writes before the links. */
  function LeadingProperties<L>(f: Fields, level: int): seq<Chunk<L>>
  {
    [ Property(level, Ele, DoubleValue(f.elevation)),
      Property(level, Time, DateTimeValue(f.time)),
      Property(level, Magvar, DoubleValue(f.magneticVariation)),
      Property(level, GeoidHeight, DoubleValue(f.geoidHeight)),
      Property(level, Name, TextValue(f.name)),
      Property(level, Desc, TextValue(f.desc)),
      Property(level, Source, TextValue(f.source)) ]
  }

  /** The properties `addChildTag` writes after the links. */
  function TrailingProperties<L>(f: Fields, level: int): seq<Chunk<L>>
  {
    [ Property(level, Sym, TextValue(f.symbol)),
      Property(level, Type, TextValue(f.classification)),
      Property(level, Source, IntegerValue(f.fix)),
      Property(level, Sat, IntegerValue(f.satellites)),
      Property(level, Hdop, DoubleValue(f.horizontalDilution)),
      Property(level, Vdop, DoubleValue(f.verticalDilution)),
      Property(level, Pdop, DoubleValue(f.positionDilution)),
      Property(level, AgeOfDgpsData, DoubleValue(f.ageofDGPSData)),
      Property(level, DgpsId, IntegerValue(f.dgpsId)) ]
  }

  function ExtensionsChunks<L>(f: Fields, level: int): seq<Chunk<L>>
  {
    match f.extensions
    case None => []
    case Some(e) => [ExtensionsElement(level, e)]
  }

  /** What `addChildTag` appends, in order. */
  function ChildChunks<L>(f: Fields, links: seq<L>, level: int): seq<Chunk<L>>
  {
    [ElementChildren(level)] + LeadingProperties(f, level) + LinkChunks(links, level)
    + TrailingProperties(f, level) + ExtensionsChunks(f, level)
  }

  /** Appending the parts one after another appends `ChildChunks`. */
  lemma ChildChunksAppended<L>(before: seq<Chunk<L>>, f: Fields, links: seq<L>, level: int)
    ensures before + [ElementChildren(level)] + LeadingProperties(f, level) + LinkChunks(links, level)
      + TrailingProperties(f, level) + ExtensionsChunks(f, level) == before + ChildChunks(f, links, level)
  {
  }

  /** The element a chunk writes, if it writes one of this waypoint's elements. */
  function TagOf<L>(c: Chunk<L>): seq<Element>
  {
    match c
    case Property(_, t, _) => [t]
    case LinkElement(_, _) => [Link]
    case ExtensionsElement(_, _) => [Extensions]
    case _ => []
  }

  /** The elements some chunks write, in order. */
  function Tags<L>(chunks: seq<Chunk<L>>): seq<Element>
  {
    if chunks == [] then [] else TagOf(chunks[0]) + Tags(chunks[1..])
  }

  lemma {:induction false} TagsAppend<L>(a: seq<Chunk<L>>, b: seq<Chunk<L>>)
    ensures Tags(a + b) == Tags(a) + Tags(b)
    decreases |a|
  {
    if a == [] {
      assert a + b == b;
    } else {
      assert (a + b)[1..] == a[1..] + b;
      TagsAppend(a[1..], b);
    }
  }

  function Repeat(e: Element, n: nat): (r: seq<Element>)
    ensures |r| == n && forall i :: 0 <= i < n ==> r[i] == e
  {
    if n == 0 then [] else Repeat(e, n - 1) + [e]
  }

  lemma {:induction false} TagsOfLinks<L>(links: seq<L>, level: int)
    ensures Tags(LinkChunks(links, level)) == Repeat(Link, |links|)
    decreases |links|
  {
    if links != [] {
      var n := |links|;
      var last: seq<Chunk<L>> := [LinkElement(level, links[n - 1])];
      TagsAppend(LinkChunks(links[..n - 1], level), last);
      assert last[1..] == [];
      TagsOfLinks(links[..n - 1], level);
    }
  }

  const LeadingTags: seq<Element> := [Ele, Time, Magvar, GeoidHeight, Name, Desc, Source]
  const TrailingTags: seq<Element> := [Sym, Type, Source, Sat, Hdop, Vdop, Pdop, AgeOfDgpsData, DgpsId]

  /** Chunks that each write one element write those elements, one per chunk. */
  lemma {:induction false} TagsOfSingles<L>(cs: seq<Chunk<L>>)
    requires forall i :: 0 <= i < |cs| ==> |TagOf(cs[i])| == 1
    ensures |Tags(cs)| == |cs|
    ensures forall i :: 0 <= i < |cs| ==> Tags(cs)[i] == TagOf(cs[i])[0]
    decreases |cs|
  {
    if cs != [] {
      TagsOfSingles(cs[1..]);
      forall i | 1 <= i < |cs| ensures Tags(cs)[i] == TagOf(cs[i])[0] {
        assert cs[1..][i - 1] == cs[i];
      }
    }
  }

  /** The `GPXElement` part writes none of the waypoint's elements. */
  lemma TagsOfHead<L>(level: int)
    ensures Tags<L>([ElementChildren(level)]) == [] && CarriedAll<L>([ElementChildren(level)]) == []
  {
    var head: seq<Chunk<L>> := [ElementChildren(level)];
    assert head[1..] == [];
  }

  lemma TagsOfLeading<L>(f: Fields, level: int)
    ensures Tags<L>([ElementChildren(level)] + LeadingProperties(f, level)) == LeadingTags
  {
    TagsOfHead<L>(level);
    TagsAppend<L>([ElementChildren(level)], LeadingProperties(f, level));
    TagsOfLeadingProperties<L>(f, level);
  }

  lemma TagsOfLeadingProperties<L>(f: Fields, level: int)
    ensures Tags<L>(LeadingProperties(f, level)) == LeadingTags
  {
    TagsOfSingles<L>(LeadingProperties(f, level));
  }

  lemma TagsOfTrailing<L>(f: Fields, level: int)
    ensures Tags<L>(TrailingProperties(f, level)) == TrailingTags
  {
    TagsOfSingles<L>(TrailingProperties(f, level));
  }

  lemma TagsOfExtensions<L>(f: Fields, level: int)
    ensures Tags<L>(ExtensionsChunks(f, level)) == if f.extensions.Some? then [Extensions] else []
  {
    var ext: seq<Chunk<L>> := ExtensionsChunks(f, level);
    if f.extensions.Some? {
      assert ext[1..] == [];
    }
  }

  /**
   * After the `GPXElement` part, the child elements come in exactly this
   * order: ele, time, magvar, geoidheight, name, desc, source, one link per
   * entry of `links`, sym, type, source (carrying `fix`), sat, hdop, vdop,
   * pdop, ageofdgpsdata, dgpsid, and extensions when there are some.
   */
  lemma ChildTagOrder<L>(f: Fields, links: seq<L>, level: int)
    ensures Tags(ChildChunks(f, links, level)) ==
      LeadingTags + Repeat(Link, |links|) + TrailingTags + (if f.extensions.Some? then [Extensions] else [])
  {
    TagsOfChildChunks(f, links, level);
    TagsOfLeading<L>(f, level);
    TagsOfTrailing<L>(f, level);
    TagsOfExtensions<L>(f, level);
    TagsOfLinks(links, level);
  }

  lemma TagsOfChildChunks<L>(f: Fields, links: seq<L>, level: int)
    ensures Tags(ChildChunks(f, links, level)) ==
      Tags<L>([ElementChildren(level)] + LeadingProperties(f, level)) + Tags(LinkChunks(links, level))
      + Tags<L>(TrailingProperties(f, level)) + Tags<L>(ExtensionsChunks(f, level))
  {
    var ab: seq<Chunk<L>> := [ElementChildren(level)] + LeadingProperties(f, level);
    var c := LinkChunks(links, level);
    var d := TrailingProperties(f, level);
    var e := ExtensionsChunks(f, level);
    TagsAppend(ab, c);
    TagsAppend(ab + c, d);
    TagsAppend(ab + c + d, e);
  }

  /** The links are written in collection order, each once, between `source` and `sym`. */
  lemma ChildLinksInOrder<L>(f: Fields, links: seq<L>, level: int)
    ensures ChildChunks(f, links, level)[8..8 + |links|] == LinkChunks(links, level)
    ensures forall i :: 0 <= i < |links| ==> ChildChunks(f, links, level)[8 + i] == LinkElement(level, links[i])
  {
    var front: seq<Chunk<L>> := [ElementChildren(level)] + LeadingProperties(f, level);
    assert |front| == 8;
    var all := ChildChunks(f, links, level);
    assert all == front + LinkChunks(links, level) + TrailingProperties(f, level) + ExtensionsChunks(f, level);
    assert all[8..8 + |links|] == LinkChunks(links, level);
  }

  /** The comment takes no part in the output, and no `cmt` element is written. */
  lemma CommentNeverWritten<L>(f: Fields, comment: Option<string>, links: seq<L>, level: int)
    ensures ChildChunks(f.(comment := comment), links, level) == ChildChunks(f, links, level)
    ensures Cmt !in Tags(ChildChunks(f, links, level))
  {
    ChildTagOrder(f, links, level);
    AbsentFromChildTags(Cmt, |links|, f.extensions.Some?);
  }

  /** `fix` is written, under the tag `source`, right after `type`. */
  lemma FixWrittenAsSource<L>(f: Fields, links: seq<L>, level: int)
    ensures ChildChunks(f, links, level)[8 + |links| + 2] == Property(level, Source, IntegerValue(f.fix))
    ensures ChildChunks(f, links, level)[8 + |links| + 1] == Property(level, Type, TextValue(f.classification))
  {
    var front: seq<Chunk<L>> := [ElementChildren(level)] + LeadingProperties(f, level) + LinkChunks(links, level);
    var d := TrailingProperties(f, level);
    assert |front| == 8 + |links|;
    assert ChildChunks(f, links, level) == front + (d + ExtensionsChunks(f, level));
  }

  /** Neither a `fix` nor a `src` element is ever written: both go out as `source`. */
  lemma NoFixOrSrcElement<L>(f: Fields, links: seq<L>, level: int)
    ensures Fix !in Tags(ChildChunks(f, links, level)) && Src !in Tags(ChildChunks(f, links, level))
  {
    ChildTagOrder(f, links, level);
    AbsentFromChildTags(Fix, |links|, f.extensions.Some?);
    AbsentFromChildTags(Src, |links|, f.extensions.Some?);
  }

  lemma AbsentFromChildTags(e: Element, n: nat, ext: bool)
    requires e !in LeadingTags && e !in TrailingTags && e != Link && e != Extensions
    ensures e !in LeadingTags + Repeat(Link, n) + TrailingTags + (if ext then [Extensions] else [])
  {
  }

  // ---------------------------------------------------------------------
  // Written tags against the tag names `init(dictionary:)` reads

  /**
   * The element `addChildTag` writes the property of a dictionary tag under:
   * `lat` and `lon` go into the open tag instead, and `cmt` is not written.
   */
  function WrittenAs(k: Key): Option<Element>
  {
    match k
    case LatKey | LonKey | CmtKey => None
    case EleKey => Some(Ele) case MagvarKey => Some(Magvar) case GeoidHeightKey => Some(GeoidHeight)
    case NameKey => Some(Name) case DescKey => Some(Desc) case SrcKey => Some(Source)
    case SymKey => Some(Sym) case TypeKey => Some(Type) case FixKey => Some(Source)
    case SatKey => Some(Sat) case HdopKey => Some(Hdop) case VdopKey => Some(Vdop)
    case PdopKey => Some(Pdop) case DgpsIdKey => Some(DgpsId)
  }

  /** Each such property is passed to `addProperty` under that element. */
  lemma WrittenPropertyOfKey<L>(f: Fields, links: seq<L>, level: int, k: Key)
    requires WrittenAs(k).Some?
    ensures Property(level, WrittenAs(k).value, FieldOf(f, k)) in ChildChunks(f, links, level)
  {
    var p: Chunk<L> := Property(level, WrittenAs(k).value, FieldOf(f, k));
    var lead := LeadingProperties<L>(f, level);
    var trail := TrailingProperties<L>(f, level);
    assert p in lead || p in trail by {
      match k {
        case EleKey => assert lead[0] == p;
        case MagvarKey => assert lead[2] == p;
        case GeoidHeightKey => assert lead[3] == p;
        case NameKey => assert lead[4] == p;
        case DescKey => assert lead[5] == p;
        case SrcKey => assert lead[6] == p;
        case SymKey => assert trail[0] == p;
        case TypeKey => assert trail[1] == p;
        case FixKey => assert trail[2] == p;
        case SatKey => assert trail[3] == p;
        case HdopKey => assert trail[4] == p;
        case VdopKey => assert trail[5] == p;
        case PdopKey => assert trail[6] == p;
        case DgpsIdKey => assert trail[8] == p;
      }
    }
    var front: seq<Chunk<L>> := [ElementChildren(level)] + lead;
    assert ChildChunks(f, links, level) == front + LinkChunks(links, level) + trail + ExtensionsChunks(f, level);
  }

  /**
   * Every written property goes out under the tag name it is read from,
   * except `src` and `fix`, which both go out as `source`: reading the output
   * back loses both.
   */
  lemma WrittenTagMatchesReadTag(k: Key)
    requires WrittenAs(k).Some?
    ensures TagName(WrittenAs(k).value) == KeyName(k) <==> k != SrcKey && k != FixKey
  {
    match k {
      case EleKey => case MagvarKey => case GeoidHeightKey => case NameKey => case DescKey =>
      case SymKey => case TypeKey => case SatKey => case HdopKey => case VdopKey => case PdopKey =>
      case DgpsIdKey =>
      case SrcKey => assert TagName(Source)[1] != KeyName(SrcKey)[1];
      case FixKey => assert TagName(Source)[0] != KeyName(FixKey)[0];
    }
  }

  // ---------------------------------------------------------------------
  // Against the element sequence of `wptType` in the GPX 1.1 schema

  /** The children of `wptType`, in schema order. */
  const WptTypeElements: seq<Element> := [
    Ele, Time, Magvar, GeoidHeight, Name, Cmt, Desc, Src, Link,
    Sym, Type, Fix, Sat, Hdop, Vdop, Pdop, AgeOfDgpsData, DgpsId, Extensions]

  /** The position of an element in `WptTypeElements`; `source` is not a schema element. */
  function SchemaPosition(e: Element): int
  {
    match e
    case Ele => 0 case Time => 1 case Magvar => 2 case GeoidHeight => 3 case Name => 4
    case Cmt => 5 case Desc => 6 case Src => 7 case Link => 8 case Sym => 9 case Type => 10
    case Fix => 11 case Sat => 12 case Hdop => 13 case Vdop => 14 case Pdop => 15
    case AgeOfDgpsData => 16 case DgpsId => 17 case Extensions => 18
    case Source => -1
  }

  lemma SchemaPositions()
    ensures forall i :: 0 <= i < |WptTypeElements| ==> SchemaPosition(WptTypeElements[i]) == i
    ensures forall e :: SchemaPosition(e) >= 0 <==> e in WptTypeElements
  {
  }

  /** The schema element a written chunk stands for: `source` carries `src`, or `fix` when its value is an integer. */
  function Carried<L>(c: Chunk<L>): seq<Element>
  {
    match c
    case Property(_, Source, v) => if v.IntegerValue? then [Fix] else [Src]
    case _ => TagOf(c)
  }

  function CarriedAll<L>(chunks: seq<Chunk<L>>): seq<Element>
  {
    if chunks == [] then [] else Carried(chunks[0]) + CarriedAll(chunks[1..])
  }

  lemma {:induction false} CarriedAppend<L>(a: seq<Chunk<L>>, b: seq<Chunk<L>>)
    ensures CarriedAll(a + b) == CarriedAll(a) + CarriedAll(b)
    decreases |a|
  {
    if a == [] {
      assert a + b == b;
    } else {
      assert (a + b)[1..] == a[1..] + b;
      CarriedAppend(a[1..], b);
    }
  }

  /** Schema elements in schema order, repeats allowed (as for `link`). */
  predicate InSchemaOrder(es: seq<Element>)
  {
    (forall i :: 0 <= i < |es| ==> SchemaPosition(es[i]) >= 0) &&
    forall i, j :: 0 <= i < j < |es| ==> SchemaPosition(es[i]) <= SchemaPosition(es[j])
  }

  /** Appending elements that the schema puts at or after everything already there. */
  lemma InSchemaOrderAppend(a: seq<Element>, b: seq<Element>, bound: int)
    requires InSchemaOrder(a) && InSchemaOrder(b)
    requires forall i :: 0 <= i < |a| ==> SchemaPosition(a[i]) <= bound
    requires forall j :: 0 <= j < |b| ==> bound <= SchemaPosition(b[j])
    ensures InSchemaOrder(a + b)
  {
    var ab := a + b;
    forall i | 0 <= i < |ab| ensures SchemaPosition(ab[i]) >= 0 {
      if i >= |a| {
        assert ab[i] == b[i - |a|];
      }
    }
    forall i, j | 0 <= i < j < |ab| ensures SchemaPosition(ab[i]) <= SchemaPosition(ab[j]) {
      if j < |a| {
        assert ab[i] == a[i] && ab[j] == a[j];
      } else if i >= |a| {
        assert ab[i] == b[i - |a|] && ab[j] == b[j - |a|];
      } else {
        assert ab[i] == a[i] && ab[j] == b[j - |a|];
      }
    }
  }

  /** The schema elements written before the links. */
  const LeadingElements: seq<Element> := [Ele, Time, Magvar, GeoidHeight, Name, Desc, Src]
  /** The schema elements written after the links, extensions aside. */
  const TrailingElements: seq<Element> := [Sym, Type, Fix, Sat, Hdop, Vdop, Pdop, AgeOfDgpsData, DgpsId]

  /** Chunks that each carry one schema element carry those elements, one per chunk. */
  lemma {:induction false} CarriedOfSingles<L>(cs: seq<Chunk<L>>)
    requires forall i :: 0 <= i < |cs| ==> |Carried(cs[i])| == 1
    ensures |CarriedAll(cs)| == |cs|
    ensures forall i :: 0 <= i < |cs| ==> CarriedAll(cs)[i] == Carried(cs[i])[0]
    decreases |cs|
  {
    if cs != [] {
      CarriedOfSingles(cs[1..]);
      forall i | 1 <= i < |cs| ensures CarriedAll(cs)[i] == Carried(cs[i])[0] {
        assert cs[1..][i - 1] == cs[i];
      }
    }
  }

  lemma CarriedLeading<L>(f: Fields, level: int)
    ensures CarriedAll<L>([ElementChildren(level)] + LeadingProperties(f, level)) == LeadingElements
  {
    TagsOfHead<L>(level);
    CarriedAppend<L>([ElementChildren(level)], LeadingProperties(f, level));
    CarriedLeadingProperties<L>(f, level);
  }

  lemma CarriedLeadingProperties<L>(f: Fields, level: int)
    ensures CarriedAll<L>(LeadingProperties(f, level)) == LeadingElements
  {
    CarriedOfSingles<L>(LeadingProperties(f, level));
  }

  lemma CarriedTrailing<L>(f: Fields, level: int)
    ensures CarriedAll<L>(TrailingProperties(f, level)) == TrailingElements
  {
    CarriedOfSingles<L>(TrailingProperties(f, level));
  }

  lemma CarriedExtensions<L>(f: Fields, level: int)
    ensures CarriedAll<L>(ExtensionsChunks(f, level)) == if f.extensions.Some? then [Extensions] else []
  {
    var ext: seq<Chunk<L>> := ExtensionsChunks(f, level);
    if f.extensions.Some? {
      assert ext[1..] == [];
    }
  }

  lemma {:induction false} CarriedLinks<L>(links: seq<L>, level: int)
    ensures CarriedAll(LinkChunks(links, level)) == Repeat(Link, |links|)
    decreases |links|
  {
    if links != [] {
      var n := |links|;
      var last: seq<Chunk<L>> := [LinkElement(level, links[n - 1])];
      CarriedAppend(LinkChunks(links[..n - 1], level), last);
      assert last[1..] == [];
      CarriedLinks(links[..n - 1], level);
    }
  }

  lemma ElementPositions(ext: seq<Element>)
    requires ext == [] || ext == [Extensions]
    ensures InSchemaOrder(LeadingElements)
    ensures forall i :: 0 <= i < |LeadingElements| ==> SchemaPosition(LeadingElements[i]) <= 7
    ensures InSchemaOrder(TrailingElements + ext)
    ensures forall i :: 0 <= i < |TrailingElements + ext| ==> 9 <= SchemaPosition((TrailingElements + ext)[i])
  {
    var z := TrailingElements + ext;
    forall i | 0 <= i < |z| ensures SchemaPosition(z[i]) == i + 9 {
      if i < 9 {
        assert z[i] == TrailingElements[i];
      }
    }
  }

  /**
   * The schema elements the children carry: the leading ones, one `link` per
   * held link, the trailing ones, and `extensions` when there are some.
   */
  lemma ChildrenCarry<L>(f: Fields, links: seq<L>, level: int)
    ensures CarriedAll(ChildChunks(f, links, level)) ==
      LeadingElements + Repeat(Link, |links|) + TrailingElements + (if f.extensions.Some? then [Extensions] else [])
  {
    CarriedOfChildChunks(f, links, level);
    CarriedLeading<L>(f, level);
    CarriedTrailing<L>(f, level);
    CarriedExtensions<L>(f, level);
    CarriedLinks(links, level);
  }

  lemma CarriedOfChildChunks<L>(f: Fields, links: seq<L>, level: int)
    ensures CarriedAll(ChildChunks(f, links, level)) ==
      CarriedAll<L>([ElementChildren(level)] + LeadingProperties(f, level)) + CarriedAll(LinkChunks(links, level))
      + CarriedAll<L>(TrailingProperties(f, level)) + CarriedAll<L>(ExtensionsChunks(f, level))
  {
    var front: seq<Chunk<L>> := [ElementChildren(level)] + LeadingProperties(f, level);
    var c := LinkChunks(links, level);
    var d := TrailingProperties(f, level);
    var e := ExtensionsChunks(f, level);
    CarriedAppend(front, c);
    CarriedAppend(front + c, d);
    CarriedAppend(front + c + d, e);
  }

  /** The leading elements, any number of links, then the trailing ones are in schema order. */
  lemma PartsInSchemaOrder(n: nat, ext: seq<Element>)
    requires ext == [] || ext == [Extensions]
    ensures InSchemaOrder(LeadingElements + Repeat(Link, n) + TrailingElements + ext)
  {
    var x := LeadingElements;
    var y := Repeat(Link, n);
    var z := TrailingElements + ext;
    ElementPositions(ext);
    InSchemaOrderAppend(x, y, 8);
    forall i | 0 <= i < |x + y| ensures SchemaPosition((x + y)[i]) <= 8 {
      if i >= |x| {
        assert (x + y)[i] == y[i - |x|];
      }
    }
    InSchemaOrderAppend(x + y, z, 8);
    assert x + y + z == x + y + TrailingElements + ext;
  }

  /**
   * Read as the schema elements they carry, the children `addChildTag`
   * writes follow the `wptType` sequence: no element comes before one the
   * schema puts ahead of it, every schema element but `cmt`, `link` and
   * `extensions` is always passed to `addProperty` (which may write nothing
   * for an absent value), and `cmt` never is.
   */
  lemma ChildrenFollowSchema<L>(f: Fields, links: seq<L>, level: int)
    ensures InSchemaOrder(CarriedAll(ChildChunks(f, links, level)))
    ensures forall e :: e in WptTypeElements && e != Cmt && e != Link && e != Extensions ==>
      e in CarriedAll(ChildChunks(f, links, level))
    ensures Cmt !in CarriedAll(ChildChunks(f, links, level))
  {
    var ext: seq<Element> := if f.extensions.Some? then [Extensions] else [];
    ChildrenCarry(f, links, level);
    PartsInSchemaOrder(|links|, ext);
    assert Cmt !in Repeat(Link, |links|);
  }
}
