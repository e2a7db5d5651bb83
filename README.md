# GPXWaypoint in Dafny

A model of the waypoint class of a Swift GPX library (`GPXWaypoint`) and of
the timestamp parser that sits beside it (`ISO8601DateParser`).

A waypoint holds:

- twenty optional scalar properties: position, elevation, time, names and
  descriptions, fix quality and dilution figures, and extensions;
- an ordered collection of `GPXLink` objects. Each of the waypoint's own
  operations keeps its links free of repeats and pointing back at it as
  their `parent` (`Valid()`).

The model covers these operations:

- building a waypoint from the attribute and child-element dictionary of a
  parsed `<wpt>` element, with the `number(from:)` and `integer(from:)`
  coercions;
- adding one link, adding a list of links and removing a link;
- writing the open tag and the child elements of a `<wpt>` element;
- parsing a `<time>` string with `vsscanf` into six process-wide integer
  slots, and turning them into a date with a cached UTC Gregorian calendar.

## Modules

| file | module | contents |
|---|---|---|
| `wrappers.dfy` | `Wrappers` | `Option` |
| `decimal.dfy` | `Decimal` | decimal digits and Swift's `Int(String)` |
| `date_parser.dfy` | `DateParsing` | these parts of `ISO8601DateParser`: the C `%d` scan, the 32-bit store into 64-bit slots, and the class holding the static state |
| `timestamps.dfy` | `Timestamps` | what the parser stores for well-formed timestamps, for truncated ones and for sample strings |
| `linklist.dfy` | `LinkList` | the link collection as a sequence value: `Appended`, `AppendEach`, `Removed` and their laws |
| `waypoint_fields.dfy` | `WaypointFields` | the property record and the dictionary decoder of `init(dictionary:)` |
| `gpx_encoding.dfy` | `GpxEncoding` | the GPX output as a sequence of chunks, and the order of the child elements |
| `waypoint.dfy` | `GPXWaypoint` | the `Link` and `Waypoint` classes and their methods |

## How the code's own behaviour is modelled

These points describe the code as written. They are not the documented
intent.

- The parser's format is `"%d-%d-%dT%d:%d:%dZ"`. Each `%d` skips leading
  white space, takes an optional sign, and reads a digit run of any width.
  So the parser is more lenient than fixed-width ISO 8601 fields.
  - The scan stops at the first directive that does not match. Each value
    scanned up to that point has its 32-bit store go into its slot.
  - The later slots keep what the previous parse stored, so a date with no
    time of day inherits the previous time of day (`StaleTimeOfDay`).
- `%d` stores a 32-bit C `int` through an `UnsafeMutablePointer<Int>`, which
  points at a 64-bit word.
  - On little-endian targets this replaces only the low half of the word.
  - The model states that store exactly (`Store32`). A stored value reads
    back unchanged exactly when the slot's high half is its sign extension
    (`Store32ReadsBack`). So a slot whose high half is zero reads back a
    non-negative value unchanged, and a negative value as itself plus 2^32
    (`Store32NegativeMisread`).
- `addChildTag` passes sixteen properties to `addProperty`, present or not:
  ele, time, magvar, geoidheight, name, desc, source, sym, type, fix, sat,
  hdop, vdop, pdop, ageofdgpsdata and dgpsid. What `addProperty` writes for
  an absent value is not part of this model. The latitude and longitude go
  into the open tag instead, the extensions are written by their own `gpx`
  call only when present, and the comment is not written at all.
- `addChildTag` writes `src` under the tag `source`. It also writes `fix`
  under the tag `source`, right after `type`. No `cmt` element is ever
  written, although `init(dictionary:)` reads `cmt`.
- `add(link:)` checks only the waypoint's own collection, not the link's
  `parent`. Adding a link that another waypoint holds re-parents it without
  removing it there, so that other waypoint no longer satisfies `Valid()`
  (`AddHeldElsewhere`). Single ownership of a link is not enforced.
- `GPXLink` equality is object identity. So `contains` and `firstIndex(of:)`
  compare references.
- `init(dictionary:)` sets the properties in an `async(flags: .barrier)`
  block. The model sets them before the constructor returns.

## Model

| member | source | states |
|---|---|---|
| GPXWaypoint.Waypoint.constructor | Classes/GPXWaypoint.swift:48-51 | a new waypoint has no links and no properties except the given current time |
| GPXWaypoint.Waypoint.AtCoordinate | Classes/GPXWaypoint.swift:53-58 | a new waypoint has the given latitude and longitude, the current time, and nothing else |
| GPXWaypoint.Waypoint.FromDictionary | Classes/GPXWaypoint.swift:62-84 | without a `time` key, the time is absent and the parser state is untouched; with one, the slots and cache change as `Parse` says, the components hold the six slots, and the time is what the cached calendar makes of them; every other property is what `Decode` makes of the dictionary; the new waypoint holds no links |
| GPXWaypoint.Waypoint.NewLink | Classes/GPXWaypoint.swift:102-105 | the link is a new object with the given href and no parent |
| GPXWaypoint.Waypoint.Add | Classes/GPXWaypoint.swift:107-115 | nil changes nothing; a link not yet held is appended and gets this waypoint as its parent; a held link changes nothing, not even its parent; if the waypoint was `Valid()` before, it still is |
| GPXWaypoint.Waypoint.AddLinks | Classes/GPXWaypoint.swift:117-121 | the result equals `add(link:)` applied to each link in order: the old links stay in front, each new link is appended once in order of first occurrence, and only the newly added links get this waypoint as their parent |
| GPXWaypoint.Waypoint.Remove | Classes/GPXWaypoint.swift:123-132 | a held link loses its first entry and its parent, and every other entry keeps its order; a link not held changes nothing; if the waypoint was `Valid()` before, it still is |
| GPXWaypoint.Waypoint.AddHeldElsewhere | Classes/GPXWaypoint.swift:107-115 | adding a link that another waypoint holds appends it here and makes this waypoint its parent, while it stays in the other waypoint's collection, which then breaks `Valid()` |
| GPXWaypoint.Waypoint.AddOpenTag | Classes/GPXWaypoint.swift:142-154 | appends exactly `OpenTag`: the indent, `<wpt`, then `lat` when present and `lon` when present, then `>` and CR LF |
| GPXWaypoint.Waypoint.AddChildTag | Classes/GPXWaypoint.swift:156-185 | appends exactly `ChildChunks`: the inherited children, the seven leading properties, one element per link in collection order, the nine trailing properties, then the extensions if there are any |
| GPXWaypoint.Waypoint.AddLinkElements | Classes/GPXWaypoint.swift:167-169 | appends one link element per held link, in collection order |
| GPXWaypoint.Waypoint.AddLeadingProperties | Classes/GPXWaypoint.swift:159-165 | appends ele, time, magvar, geoidheight, name, desc and source, each with its own property |
| GPXWaypoint.Waypoint.AddTrailingProperties | Classes/GPXWaypoint.swift:171-179 | appends sym, type, source (carrying `fix`), sat, hdop, vdop, pdop, ageofdgpsdata and dgpsid |
| WaypointFields.Decode | Classes/GPXWaypoint.swift:62-84 | the time is the one given; `ageofdgpsdata` and extensions are never set from the dictionary |
| WaypointFields.DecodeFieldFromItsKey | Classes/GPXWaypoint.swift:66-82 | each of the seventeen tag names sets its own property from its own entry, as a number, an integer or text |
| WaypointFields.DecodeOneEntry | Classes/GPXWaypoint.swift:66-82 | setting one tag's entry changes that property and no other |
| WaypointFields.DecodeMissingKey | Classes/GPXWaypoint.swift:66-82 | a missing tag gives an absent property, never a default value |
| WaypointFields.DecodeIgnoresOtherKeys | Classes/GPXWaypoint.swift:66-82 | two dictionaries that agree on the seventeen tag names decode to the same properties |
| WaypointFields.DecodeEmpty | Classes/GPXWaypoint.swift:62-84 | an empty dictionary gives a waypoint with nothing but the parsed time |
| WaypointFields.DecodeIntegerField | Classes/GPXWaypoint.swift:77 | a `fix` written as the decimal text of a 64-bit integer decodes to that integer |
| WaypointFields.KeyNamesDistinct | Classes/GPXWaypoint.swift:63-82 | the tag names read are pairwise distinct, and none of them is `time` |
| WaypointFields.KeyNameRoundTrip | Classes/GPXWaypoint.swift:66-82 | each tag name is recognised as the key it spells |
| WaypointFields.Lookup | Classes/GPXWaypoint.swift:63 | an entry is present exactly when the key is in the dictionary, and then it is the stored text |
| WaypointFields.NumberFrom | Classes/GPXWaypoint.swift:88-93 | nil gives nil, and a number comes only from present text that `Double(String)` reads as that number |
| WaypointFields.IntegerFrom | Classes/GPXWaypoint.swift:95-100 | nil gives nil; an integer comes only from present text that starts with a digit or a sign, and it is within 64 bits |
| WaypointFields.CoercionsPropagateNil | Classes/GPXWaypoint.swift:88-100 | both coercions map nil to nil and pass present text to `Double(String)` or `Int(String)`; an integer result is within 64 bits |
| WaypointFields.IntegerFromShown | Classes/GPXWaypoint.swift:95-100 | `integer(from:)` reads back the decimal text of any 64-bit integer |
| WaypointFields.IntegerFromBlankLed | Classes/GPXWaypoint.swift:95-100 | text with a leading blank gives nil, not zero |
| Decimal.ParseInt | Classes/GPXWaypoint.swift:99 | a parsed integer is within 64 bits, and the text starts with a digit or a sign |
| Decimal.ParseShowRoundTrip | Classes/GPXWaypoint.swift:99 | `Int(String(n)) == n` for every 64-bit `n` |
| Decimal.ParseRejectsOutOfRange | Classes/GPXWaypoint.swift:99 | the decimal text of an integer outside 64 bits gives nil rather than a wrapped value |
| Decimal.ParseRejectsLeadingBlank | Classes/GPXWaypoint.swift:99 | `Int(String)` does not skip white space |
| LinkList.Appended | Classes/GPXWaypoint.swift:107-115 | the old links are kept as a prefix; the link is present; the length grows by one exactly when the link was absent; freedom from repeats is kept |
| LinkList.AppendedIdempotent | Classes/GPXWaypoint.swift:107-115 | adding the same link twice is adding it once |
| LinkList.AppendEachIsNewElements | Classes/GPXWaypoint.swift:117-121 | adding a list appends, in order, the links not yet held, each once |
| LinkList.AppendEachCons | Classes/GPXWaypoint.swift:117-121 | adding `[x] + xs` is adding `x` and then `xs` |
| LinkList.NewElementsMembers | Classes/GPXWaypoint.swift:117-121 | the appended links are exactly those of the list that were not held, without repeats |
| LinkList.NewElementsOfFresh | Classes/GPXWaypoint.swift:117-121 | a list of distinct links that are all new is appended unchanged |
| LinkList.AppendEachMembers | Classes/GPXWaypoint.swift:117-121 | after adding a list, the collection holds exactly the old links and the added ones |
| LinkList.AppendEachNoDuplicates | Classes/GPXWaypoint.swift:117-121 | adding a list keeps the collection free of repeats |
| LinkList.IndexOf | Classes/GPXWaypoint.swift:128 | `firstIndex(of:)` gives a position of the link with no earlier occurrence |
| LinkList.RemovedContents | Classes/GPXWaypoint.swift:123-132 | removing a held link drops exactly its first entry and keeps the rest in order; removing an absent link changes nothing |
| LinkList.RemovedMultiset | Classes/GPXWaypoint.swift:123-132 | removal takes away exactly one copy of a held link |
| LinkList.RemovedNoDuplicates | Classes/GPXWaypoint.swift:123-132 | without repeats, the removed link is gone and every other link stays |
| LinkList.RemovedAppended | Classes/GPXWaypoint.swift:107-132 | removing a link that was just added restores the collection |
| GpxEncoding.GpxBuffer.Append | Classes/GPXWaypoint.swift:153 | appending to the output string only extends it |
| GpxEncoding.OpenTagShape | Classes/GPXWaypoint.swift:142-154 | the attributes of the open tag are `lat` and then `lon`, each present exactly when the coordinate is present and carrying its value |
| GpxEncoding.OpenTagFrame | Classes/GPXWaypoint.swift:153 | the open tag begins with the indent and `<wpt` and ends with `>` and CR LF |
| GpxEncoding.ChildTagOrder | Classes/GPXWaypoint.swift:156-185 | the child tags come in exactly the written order, with one `link` per held link, and `extensions` only when present |
| GpxEncoding.ChildLinksInOrder | Classes/GPXWaypoint.swift:167-169 | the link elements sit between `source` and `sym`, in collection order, one per link |
| GpxEncoding.CommentNeverWritten | Classes/GPXWaypoint.swift:156-185 | the comment does not affect the output, and no `cmt` element appears |
| GpxEncoding.FixWrittenAsSource | Classes/GPXWaypoint.swift:172-173 | `fix` is written under the tag `source`, right after `type` |
| GpxEncoding.NoFixOrSrcElement | Classes/GPXWaypoint.swift:165-173 | no element is tagged `fix` or `src` |
| GpxEncoding.LinkChunks | Classes/GPXWaypoint.swift:167-169 | one link element per link, at the link's own position |
| GpxEncoding.ChildrenFollowSchema | Classes/GPXWaypoint.swift:156-185 | read as the schema elements they carry, the children follow the `wptType` order; every element except `cmt`, `link` and `extensions` is always passed to `addProperty`, whatever its value; `cmt` never is |
| GpxEncoding.WrittenPropertyOfKey | Classes/GPXWaypoint.swift:159-179 | every property read from a dictionary tag, except `lat`, `lon` and `cmt`, is passed to `addProperty` with its own value, under the element `WrittenAs` names |
| GpxEncoding.WrittenTagMatchesReadTag | Classes/GPXWaypoint.swift:159-179 | a written property goes out under the tag name it is read from, exactly when it is neither `src` nor `fix`; those two both go out as `source` |
| GpxEncoding.SchemaPositions | Classes/GPXWaypoint.swift:156-185 | the schema positions number the `wptType` elements in order, and only those |
| DateParsing.ISO8601DateParser.constructor | Classes/GPXWaypoint.swift:194-204 | the cache and the components start empty; the slots hold whatever the allocation left |
| DateParsing.ISO8601DateParser.Parse | Classes/GPXWaypoint.swift:206-231 | nil gives nil and changes no state; otherwise each scanned value's 32-bit store goes into its slot, the other slots are kept, all six slots are copied into the components, the cache gains the UTC Gregorian calendar unless it holds one, and the date comes from the cached calendar |
| DateParsing.ISO8601DateParser.StoreScanned | Classes/GPXWaypoint.swift:210-221 | each scanned value's 32-bit store goes into its slot, later slots are kept, and the components copy all six slots |
| DateParsing.ISO8601DateParser.CachedCalendar | Classes/GPXWaypoint.swift:223-230 | a cached calendar is reused as it is; otherwise a Gregorian calendar at GMT offset 0 is made and cached under key 0 |
| DateParsing.CacheAfterParse | Classes/GPXWaypoint.swift:223-230 | after a parse there is a calendar under key 0, the cached one if there was one, and no other key changes |
| DateParsing.CacheFilledOnce | Classes/GPXWaypoint.swift:223-230 | the first parse builds the calendar; later parses leave the cache as it is |
| DateParsing.Refill | Classes/GPXWaypoint.swift:210-221 | a slot with a stored value gets the 32-bit store of it; every later slot keeps its contents |
| DateParsing.Store32 | Classes/GPXWaypoint.swift:199-221 | a slot read back after a `%d` store is still a 64-bit `Int` |
| DateParsing.Store32Halves | Classes/GPXWaypoint.swift:199-221 | the store sets the low 32 bits to the C `int` and keeps the high 32 bits of the slot |
| DateParsing.Store32Exact | Classes/GPXWaypoint.swift:199-221 | a slot whose high half is zero reads back a non-negative stored value exactly |
| DateParsing.Store32Misreads | Classes/GPXWaypoint.swift:199-221 | examples: a stored −5 reads back as 4294967291 from a zero high half, 5 as −4294967291 from an all-ones high half, and 2020 as 2^32 + 2020 from a high half of 1 |
| DateParsing.Store32Congruent | Classes/GPXWaypoint.swift:199-221 | whatever the slot held, the value read back differs from the stored `int` by a multiple of 2^32 |
| DateParsing.Store32ReadsBack | Classes/GPXWaypoint.swift:199-221 | a stored value reads back unchanged exactly when the slot's high half is zero for a non-negative value, or all ones for a negative one |
| DateParsing.Store32NegativeMisread | Classes/GPXWaypoint.swift:199-221 | a negative value stored into a slot whose high half is zero reads back as itself plus 2^32 |
| DateParsing.CString | Classes/GPXWaypoint.swift:212 | `vsscanf` sees the text up to its first NUL, and all of it when there is none |
| DateParsing.ScanDecimalRest | Classes/GPXWaypoint.swift:212 | a successful `%d` consumes at least one character and leaves a tail of the input that does not start with a digit, so the digit run it reads is the longest one |
| DateParsing.ScanDecimalStart | Classes/GPXWaypoint.swift:212 | input starting with a digit converts to a non-negative value; input starting with anything but white space, a sign or a digit fails the conversion |
| DateParsing.Scan | Classes/GPXWaypoint.swift:210-214 | `vsscanf` stores at most one value per conversion of the format |
| DateParsing.ScanBoundedByInput | Classes/GPXWaypoint.swift:210-214 | the scan stores no more values than the input has characters, and nothing from empty input |
| DateParsing.ScanDateTime | Classes/GPXWaypoint.swift:210-214 | the scan stores at most six values |
| DateParsing.ScanDateTimeFields | Classes/GPXWaypoint.swift:210-214 | a timestamp laid out by the format, with six digit fields of any width, stores the six field values |
| Timestamps.ScanTimestamp | Classes/GPXWaypoint.swift:210-214 | `y-mo-dTh:mi:seZ` with digit fields stores their six values in order |
| Timestamps.ScanStopsAfterDay | Classes/GPXWaypoint.swift:210-214 | when the day is not followed by `T`, the scan stores exactly the year, month and day |
| Timestamps.StaleTimeOfDay | Classes/GPXWaypoint.swift:210-221 | a date without a time of day overwrites the first three slots and keeps the hour, minute and second from the previous parse |
| Timestamps.RefillThree | Classes/GPXWaypoint.swift:216-221 | a three-value scan overwrites the first three slots only |
| Timestamps.RefillExact | Classes/GPXWaypoint.swift:216-221 | with zero high halves, the slots read back the stored non-negative values exactly, and the stale rest |
| Timestamps.ExampleTimestamp | Classes/GPXWaypoint.swift:210-214 | "2020-05-01T12:30:45Z" stores 2020, 5, 1, 12, 30, 45 |
| Timestamps.ExampleStopsAtBlank | Classes/GPXWaypoint.swift:210-214 | "2020-05-01 12:30:45Z" stores only 2020, 5, 1 |
| Timestamps.ExampleShortFields | Classes/GPXWaypoint.swift:210-214 | "7-1-1T0:0:0Z" stores 7, 1, 1, 0, 0, 0 |
| Timestamps.ExampleSlots | Classes/GPXWaypoint.swift:210-221 | with zero high halves, "2020-05-01T12:30:45Z" leaves the slots at 2020, 5, 1, 12, 30, 45 |
| Timestamps.ExampleStaleSlots | Classes/GPXWaypoint.swift:210-221 | with zero high halves, "2020-05-01 12:30:45Z" leaves the slots at 2020, 5, 1 and the previous time of day |

## Left out

- `DispatchQueue`: the concurrent queue and the barrier block of `init(dictionary:)` are not modelled. The properties are set before the constructor returns.
- `Double(String)` is the `parseDouble` parameter. It is not modelled, so which texts give a number is left open.
- `%f` formatting of the coordinates: an attribute chunk carries the real value, not its text.
- `Date()` is the `now` parameter of the constructors.
- `Calendar.date(from:)` is the `dateFrom` parameter, and a calendar is a value (Gregorian, GMT offset). Time zones beyond the offset are not modelled.
- `GPXType().value(forDateTime:)`: the time property is written as a date-valued chunk. Its text form is not modelled.
- `indent(forIndentationLevel:)`, `addProperty(for…Value:…)`, `super.addChildTag`, `GPXLink.gpx` and `GPXExtensions.gpx` are not part of this model. They appear as tagged chunks, so what they write is not stated, including what `addProperty` writes for a nil value.
- `GPXLink`: only `href` and `parent` are modelled. `link(with:)` is the `Link` constructor. An `isEqual` override that would make `contains` compare values is not modelled, and equality is identity.
- `GPXExtensions` is known only by identity. It is never decoded from the dictionary, matching the code.
- The `…String` properties and `tagName()` are not modelled. The open tag writes the literal `wpt`.
- `UnsafeMutablePointer.allocate`: the first contents of the slots are a parameter of the parser's constructor. The slots are never freed.
- DateParsing.ISO8601DateParser.Parse: requires every scanned value to fit a C `int`. A `%d` conversion that overflows is undefined behaviour in C, so nothing is claimed for such text.
- GPXWaypoint.Waypoint.FromDictionary: requires the same of the `time` entry, for the same reason.
- The `vsscanf` return value is discarded by the code and is not modelled.
- The parser state is static in the code. The model passes one shared `ISO8601DateParser` object explicitly, and unsynchronised access from several threads is not modelled.
- A 64-bit, little-endian Swift target is assumed. `Store32` and the range of `Int(String)` are stated for a 64-bit `Int`. On a target with a 32-bit `Int` the `%d` store would be exact and the integer range smaller. On a big-endian 64-bit target such as s390x the store would fill the high half of the slot instead. Neither platform is modelled.
- Swift strings become sequences of characters. The UTF-8 bridge to the C string is the identity, which holds for the ASCII characters the format reads.
