/**
 * `GPXWaypoint`: a waypoint's properties, its ordered collection of links
 * (each link pointing back at the waypoint that holds it), its construction
 * from the attribute and child-element dictionary of a parsed `<wpt>`, and
 * the GPX text it writes.
 */
module GPXWaypoint {
  import opened Wrappers
  import opened LinkList
  import opened WaypointFields
  import opened DateParsing
  import Enc = GpxEncoding

  /** A `GPXLink`: its `href` and the waypoint it belongs to. */
  class Link {
    var href: string
    var parent: Waypoint?

    /** `GPXLink().link(with: href)` */
    constructor (href: string)
      ensures this.href == href && parent == null
    {
      this.href := href;
      parent := null;
    }
  }

  class Waypoint {
    var links: seq<Link>
    var fields: Fields

    /** No link is held twice, and every held link names this waypoint as its parent. */
    ghost predicate Valid()
      reads this, links
    {
      NoDuplicates(links) && forall i :: 0 <= i < |links| ==> links[i].parent == this
    }

    /** `init()`. `now` stands for `Date()`. */
    constructor (now: Date)
      ensures Valid()
      ensures links == [] && fields == NoFields.(time := Some(now))
    {
      links := [];
      fields := NoFields.(time := Some(now));
    }

    /** `init(latitude:longitude:)`. */
    constructor AtCoordinate(latitude: real, longitude: real, now: Date)
      ensures Valid()
      ensures links == []
      ensures fields == NoFields.(time := Some(now), latitude := Some(latitude), longitude := Some(longitude))
    {
      links := [];
      fields := NoFields.(time := Some(now), latitude := Some(latitude), longitude := Some(longitude));
    }

    /**
     * `init(dictionary:)`. The time comes from the shared `parser`; the other
     * properties are set as `Decode` says, all at once.
     */
    constructor FromDictionary(dict: map<string, string>, parser: ISO8601DateParser,
                               dateFrom: (Calendar, DateComponents) -> Option<Date>,
                               parseDouble: string -> Option<real>)
      requires parser.Valid()
      requires "time" in dict ==> FitsInt32(ScanDateTime(dict["time"]))
      modifies parser
      ensures Valid()
      ensures links == []
      ensures fields == Decode(dict, fields.time, parseDouble)
      ensures "time" !in dict ==> fields.time.None? && unchanged(parser)
      ensures "time" in dict ==>
        parser.Slots() == Refill(old(parser.Slots()), ScanDateTime(dict["time"])) &&
        parser.components == DateComponents(Some(parser.year), Some(parser.month), Some(parser.day),
                                            Some(parser.hour), Some(parser.minute), Some(parser.second)) &&
        parser.calendarCache == CacheAfterParse(old(parser.calendarCache)) &&
        fields.time == dateFrom(parser.calendarCache[0], parser.components)
      ensures parser.Valid()
    {
      var time := parser.Parse(Lookup(dict, "time"), dateFrom);
      links := [];
      fields := Decode(dict, time, parseDouble);
    }

    /** `newLink(withHref:)`: a new link, not yet held by any waypoint. */
    method NewLink(href: string) returns (link: Link)
      ensures fresh(link)
      ensures link.href == href && link.parent == null
    {
      link := new Link(href);
    }

    /**
     * `add(link:)`: a link not yet held is appended and gets this waypoint as
     * its parent; nil, or a link already held, changes nothing.
     */
    method Add(link: Link?)
      modifies this, link
      ensures link == null ==> links == old(links)
      ensures link != null ==> links == Appended(old(links), link)
      ensures link != null && link !in old(links) ==> link.parent == this
      ensures link != null && link in old(links) ==> link.parent == old(link.parent)
      ensures link != null ==> link.href == old(link.href)
      ensures fields == old(fields)
      ensures old(Valid()) ==> Valid()
    {
      if link != null {
        var contains := link in links;
        if !contains {
          link.parent := this;
          links := links + [link];
        }
      }
    }

    /** `add(links:)`: `add(link:)` on each link, in order. */
    method AddLinks(more: seq<Link>)
      modifies this, more
      ensures links == AppendEach(old(links), more)
      ensures links == old(links) + NewElements(old(links), more)
      ensures forall l :: l in more && l !in old(links) ==> l.parent == this
      ensures forall l :: l in more && l in old(links) ==> l.parent == old(l.parent)
      ensures forall l :: l in more ==> l.href == old(l.href)
      ensures fields == old(fields)
      ensures old(Valid()) ==> Valid()
    {
      for n := 0 to |more|
        invariant links == AppendEach(old(links), more[..n])
        invariant forall l :: l in more[..n] && l !in old(links) ==> l.parent == this
        invariant forall l :: l in more && l !in more[..n] ==> l.parent == old(l.parent)
        invariant forall l :: l in more && l in old(links) ==> l.parent == old(l.parent)
        invariant forall l :: l in more ==> l.href == old(l.href)
        invariant fields == old(fields)
        invariant old(Valid()) ==> Valid()
      {
        AppendEachMembers(old(links), more[..n]);
        assert more[..n + 1] == more[..n] + [more[n]];
        Add(more[n]);
      }
      assert more[..|more|] == more;
      AppendEachIsNewElements(old(links), more);
    }

    /**
     * `remove(Link:)`: a held link loses its parent and its entry; a link not
     * held changes nothing.
     */
    method Remove(link: Link)
      modifies this, link
      ensures link in old(links) ==> link.parent == null
      ensures link !in old(links) ==> link.parent == old(link.parent)
      ensures links == Removed(old(links), link)
      ensures link.href == old(link.href)
      ensures fields == old(fields)
      ensures old(Valid()) ==> Valid()
    {
      var contains := link in links;
      if contains {
        link.parent := null;
        var index := IndexOf(links, link);
        links := links[..index] + links[index + 1..];
        if NoDuplicates(old(links)) {
          RemovedNoDuplicates(old(links), link);
        }
      }
    }

    /**
     * `add(link:)` on a link that another waypoint holds: the link is
     * re-parented to this waypoint but stays in the other's collection, which
     * then no longer satisfies `Valid()`.
     */
    method AddHeldElsewhere(other: Waypoint, link: Link)
      requires other != this && other.Valid()
      requires link in other.links && link !in links
      modifies this, link
      ensures links == old(links) + [link] && link.parent == this
      ensures other.links == old(other.links) && link in other.links
      ensures !other.Valid()
    {
      Add(link);
      assert link.parent != other;
    }

    /** `addOpenTag(toGPX:indentationLevel:)`. */
    method AddOpenTag(gpx: Enc.GpxBuffer<Link>, level: int)
      modifies gpx
      ensures gpx.chunks == old(gpx.chunks) + Enc.OpenTag(level, fields.latitude, fields.longitude)
    {
      var attribute: seq<Enc.Chunk<Link>> := [];
      if fields.latitude.Some? {
        attribute := attribute + [Enc.Attribute("lat", fields.latitude.value)];
      }
      if fields.longitude.Some? {
        attribute := attribute + [Enc.Attribute("lon", fields.longitude.value)];
      }
      gpx.Append([Enc.Indent(level), Enc.Text("<wpt")] + attribute + [Enc.Text(">\r\n")]);
    }

    /** `addProperty(for…Value:gpx:tagName:indentationLevel:)` of `GPXElement`. */
    static method AddProperty(value: Value, gpx: Enc.GpxBuffer<Link>, tag: Enc.Element, level: int)
      modifies gpx
      ensures gpx.chunks == old(gpx.chunks) + [Enc.Property(level, tag, value)]
    {
      gpx.Append([Enc.Property(level, tag, value)]);
    }

    /** `addChildTag(toGPX:indentationLevel:)`: the child elements, links in collection order. */
    method AddChildTag(gpx: Enc.GpxBuffer<Link>, level: int)
      modifies gpx
      ensures gpx.chunks == old(gpx.chunks) + Enc.ChildChunks(fields, links, level)
    {
      gpx.Append([Enc.ElementChildren(level)]);
      AddLeadingProperties(gpx, level);
      AddLinkElements(gpx, level);
      AddTrailingProperties(gpx, level);
      if fields.extensions.Some? {
        gpx.Append([Enc.ExtensionsElement(level, fields.extensions.value)]);
      }
      Enc.ChildChunksAppended(old(gpx.chunks), fields, links, level);
    }

    /** The part of `addChildTag` that writes ele through source. */
    method AddLeadingProperties(gpx: Enc.GpxBuffer<Link>, level: int)
      modifies gpx
      ensures gpx.chunks == old(gpx.chunks) + Enc.LeadingProperties(fields, level)
    {
      AddProperty(DoubleValue(fields.elevation), gpx, Enc.Ele, level);
      AddProperty(DateTimeValue(fields.time), gpx, Enc.Time, level);
      AddProperty(DoubleValue(fields.magneticVariation), gpx, Enc.Magvar, level);
      AddProperty(DoubleValue(fields.geoidHeight), gpx, Enc.GeoidHeight, level);
      AddProperty(TextValue(fields.name), gpx, Enc.Name, level);
      AddProperty(TextValue(fields.desc), gpx, Enc.Desc, level);
      AddProperty(TextValue(fields.source), gpx, Enc.Source, level);
    }

    /** The `for link in links` loop of `addChildTag`. */
    method AddLinkElements(gpx: Enc.GpxBuffer<Link>, level: int)
      modifies gpx
      ensures gpx.chunks == old(gpx.chunks) + Enc.LinkChunks(links, level)
    {
      for n := 0 to |links|
        invariant gpx.chunks == old(gpx.chunks) + Enc.LinkChunks(links[..n], level)
      {
        assert links[..n + 1][..n] == links[..n];
        gpx.Append([Enc.LinkElement(level, links[n])]);
      }
      assert links[..|links|] == links;
    }

    /** The part of `addChildTag` that writes sym through dgpsid. */
    method AddTrailingProperties(gpx: Enc.GpxBuffer<Link>, level: int)
      modifies gpx
      ensures gpx.chunks == old(gpx.chunks) + Enc.TrailingProperties(fields, level)
    {
      AddProperty(TextValue(fields.symbol), gpx, Enc.Sym, level);
      AddProperty(TextValue(fields.classification), gpx, Enc.Type, level);
      AddProperty(IntegerValue(fields.fix), gpx, Enc.Source, level);
      AddProperty(IntegerValue(fields.satellites), gpx, Enc.Sat, level);
      AddProperty(DoubleValue(fields.horizontalDilution), gpx, Enc.Hdop, level);
      AddProperty(DoubleValue(fields.verticalDilution), gpx, Enc.Vdop, level);
      AddProperty(DoubleValue(fields.positionDilution), gpx, Enc.Pdop, level);
      AddProperty(DoubleValue(fields.ageofDGPSData), gpx, Enc.AgeOfDgpsData, level);
      AddProperty(IntegerValue(fields.dgpsId), gpx, Enc.DgpsId, level);
    }
  }
}
