/**
 * `ISO8601DateParser`: scans a GPX `<time>` string with the C format
 * "%d-%d-%dT%d:%d:%dZ" into six process-wide integer slots, copies the slots
 * into a shared `DateComponents` value and asks a lazily cached UTC Gregorian
 * calendar for the date. The slots outlive every call, so a scan that stops
 * early leaves the later slots as the previous call left them.
 */
module DateParsing {
  import opened Wrappers
  import opened Decimal

  /** A Foundation `Date`: an instant, seconds since the reference date. */
  datatype Date = Date(sinceReferenceDate: real)

  datatype CalendarIdentifier = Gregorian
  datatype Calendar = Calendar(identifier: CalendarIdentifier, secondsFromGMT: int)

  /** The one calendar the parser ever builds: Gregorian at GMT offset 0. */
  const UtcGregorian: Calendar := Calendar(Gregorian, 0)

  /** The six `DateComponents` fields the parser sets. */
  datatype DateComponents = DateComponents(
    year: Option<int>, month: Option<int>, day: Option<int>,
    hour: Option<int>, minute: Option<int>, second: Option<int>)

  const NoComponents: DateComponents := DateComponents(None, None, None, None, None, None)

  // ---------------------------------------------------------------------
  // The C `vsscanf` call

  /** C's `isspace` in the "C" locale: blank, and tab through carriage return. */
  predicate IsSpace(c: char) { c == ' ' || 9 <= c as int <= 13 }

  /** The C string Swift hands to `vsscanf`: the text up to its first NUL. */
  function CString(s: string): (t: string)
    ensures t <= s
    ensures '\0' !in t
    ensures '\0' !in s ==> t == s
    ensures |t| < |s| ==> s[|t|] == '\0'
  {
    if s == [] || s[0] == '\0' then [] else [s[0]] + CString(s[1..])
  }

  /** The input after its leading white space. */
  function SkipSpaces(s: string): (t: string)
    ensures IsTail(t, s)
    ensures t != [] ==> !IsSpace(t[0])
    ensures (s == [] || !IsSpace(s[0])) ==> t == s
  {
    if s != [] && IsSpace(s[0]) then SkipSpaces(s[1..]) else s
  }

  /** A successful `%d` conversion: the value and the unread rest of the input. */
  datatype Conversion = Conversion(value: int, rest: string)

  /**
   * One `%d`: skip white space, take an optional sign and the longest run of
   * decimal digits. Without at least one digit the conversion fails and
   * nothing is stored.
   */
  function ScanDecimal(s: string): Option<Conversion> {
    var t := SkipSpaces(s);
    var signed := t != [] && (t[0] == '+' || t[0] == '-');
    var u := if signed then t[1..] else t;
    var k := DigitRun(u);
    if k == 0 then None
    else
      var magnitude := Value(u[..k]);
      Some(Conversion(if signed && t[0] == '-' then -(magnitude as int) else magnitude, u[k..]))
  }

  /**
   * A successful conversion consumes at least one character, and the rest it
   * leaves is a tail of the input that does not start with a digit.
   */
  lemma ScanDecimalRest(s: string)
    ensures ScanDecimal(s).Some? ==>
      var rest := ScanDecimal(s).value.rest;
      IsTail(rest, s) && |rest| < |s| && (rest == [] || !IsDigit(rest[0]))
  {
    var t := SkipSpaces(s);
    var signed := t != [] && (t[0] == '+' || t[0] == '-');
    var u := if signed then t[1..] else t;
    assert IsTail(u, t);
    var k := DigitRun(u);
    if k > 0 {
      var rest := u[k..];
      assert ScanDecimal(s) == Some(Conversion(ScanDecimal(s).value.value, rest));
      assert rest == [] || rest[0] == u[k];
      assert IsTail(rest, u);
      TailOfTail(t, u, rest);
      TailOfTail(s, t, rest);
    }
  }

  /**
   * Input that starts with a digit converts to a non-negative value; input
   * that starts with anything but white space, a sign or a digit fails.
   */
  lemma ScanDecimalStart(s: string)
    ensures s != [] && IsDigit(s[0]) ==> ScanDecimal(s).Some? && ScanDecimal(s).value.value >= 0
    ensures s == [] || !(IsSpace(s[0]) || IsDigit(s[0]) || s[0] == '+' || s[0] == '-') ==> ScanDecimal(s).None?
  {
    if s != [] && !IsSpace(s[0]) && s[0] != '+' && s[0] != '-' {
      assert SkipSpaces(s) == s;
      assert DigitRun(s) == 0 <==> !IsDigit(s[0]);
    }
  }

  /** `u` is what is left of `s` after dropping some leading characters. */
  predicate IsTail(u: string, s: string)
  {
    |u| <= |s| && u == s[|s| - |u|..]
  }

  lemma TailOfTail(s: string, t: string, u: string)
    requires IsTail(t, s) && IsTail(u, t)
    ensures IsTail(u, s)
  {
    forall i | 0 <= i < |u| ensures u[i] == s[|s| - |u| + i] {
      assert u[i] == t[|t| - |u| + i];
    }
  }

  /** A directive of a scanf format: a `%d` conversion or a literal character. */
  datatype Directive = IntConversion | Literal(c: char)

  /** "%d-%d-%dT%d:%d:%dZ" */
  const DateTimeFormat: seq<Directive> := [
    IntConversion, Literal('-'), IntConversion, Literal('-'), IntConversion, Literal('T'),
    IntConversion, Literal(':'), IntConversion, Literal(':'), IntConversion, Literal('Z')]

  function ConversionCount(format: seq<Directive>): nat {
    if format == [] then 0
    else (if format[0] == IntConversion then 1 else 0) + ConversionCount(format[1..])
  }

  /**
   * The values `vsscanf` stores, in directive order. A literal must equal the
   * next input character; the first failed directive ends the scan, and the
   * conversions after it store nothing.
   */
  function Scan(s: string, format: seq<Directive>): (vs: seq<int>)
    ensures |vs| <= ConversionCount(format)
    decreases format
  {
    if format == [] then []
    else match format[0]
      case IntConversion =>
        (match ScanDecimal(s)
         case None => []
         case Some(c) => [c.value] + Scan(c.rest, format[1..]))
      case Literal(c) =>
        if s != [] && s[0] == c then Scan(s[1..], format[1..]) else []
  }

  /** Every stored value consumes input, so empty input stores nothing. */
  lemma {:induction false} ScanBoundedByInput(s: string, format: seq<Directive>)
    ensures |Scan(s, format)| <= |s|
    ensures s == [] ==> Scan(s, format) == []
    decreases format
  {
    if format != [] {
      match format[0]
      case IntConversion =>
        ScanDecimalRest(s);
        if ScanDecimal(s).Some? {
          ScanBoundedByInput(ScanDecimal(s).value.rest, format[1..]);
        }
      case Literal(c) =>
        if s != [] && s[0] == c {
          ScanBoundedByInput(s[1..], format[1..]);
        }
    }
  }

  /** What `vsscanf(s, "%d-%d-%dT%d:%d:%dZ", ...)` stores. */
  function ScanDateTime(s: string): (vs: seq<int>)
    ensures |vs| <= ConversionCount(DateTimeFormat)
  {
    Scan(CString(s), DateTimeFormat)
  }

  // ---------------------------------------------------------------------
  // What the scan reads back from well-formed text

  predicate DigitField(f: string) { f != [] && AllDigits(f) }

  /** Every field is a non-empty run of decimal digits. */
  predicate DigitFields(fields: seq<string>) {
    forall i :: 0 <= i < |fields| ==> DigitField(fields[i])
  }

  function Values(fields: seq<string>): (vs: seq<int>)
    requires DigitFields(fields)
    ensures |vs| == |fields|
    ensures forall i :: 0 <= i < |fields| ==> vs[i] == Value(fields[i])
  {
    if fields == [] then [] else [Value(fields[0])] + Values(fields[1..])
  }

  /** The text that puts `fields` at the conversions of `format`, and each literal's character. */
  function Render(format: seq<Directive>, fields: seq<string>): string
    requires |fields| == ConversionCount(format)
    decreases format
  {
    if format == [] then ""
    else match format[0]
      case IntConversion => fields[0] + Render(format[1..], fields[1..])
      case Literal(c) => [c] + Render(format[1..], fields)
  }

  lemma {:induction false} ConversionCountAppend(a: seq<Directive>, b: seq<Directive>)
    ensures ConversionCount(a + b) == ConversionCount(a) + ConversionCount(b)
    decreases a
  {
    if a == [] {
      assert a + b == b;
    } else {
      assert (a + b)[1..] == a[1..] + b;
      ConversionCountAppend(a[1..], b);
    }
  }

  /** Rendering two formats one after the other renders each with its own fields. */
  lemma {:induction false} RenderAppend(a: seq<Directive>, b: seq<Directive>, fa: seq<string>, fb: seq<string>)
    requires |fa| == ConversionCount(a) && |fb| == ConversionCount(b)
    ensures ConversionCount(a + b) == |fa + fb|
    ensures Render(a + b, fa + fb) == Render(a, fa) + Render(b, fb)
    decreases a
  {
    ConversionCountAppend(a, b);
    if a == [] {
      assert a + b == b;
      assert fa + fb == fb;
    } else {
      assert (a + b)[1..] == a[1..] + b;
      ConversionCountAppend(a[1..], b);
      if a[0] == IntConversion {
        assert (fa + fb)[1..] == fa[1..] + fb;
        RenderAppend(a[1..], b, fa[1..], fb);
        ConcatAssociative(fa[0], Render(a[1..], fa[1..]), Render(b, fb));
      } else {
        RenderAppend(a[1..], b, fa, fb);
        ConcatAssociative([a[0].c], Render(a[1..], fa), Render(b, fb));
      }
    }
  }

  /** Every conversion is followed by a literal that is not a digit. */
  predicate Separated(format: seq<Directive>) {
    forall i :: 0 <= i < |format| && format[i] == IntConversion ==>
      i + 1 < |format| && format[i + 1].Literal? && !IsDigit(format[i + 1].c)
  }

  /** A `%d` conversion reads a whole digit run that a non-digit ends. */
  lemma ScanDecimalDigits(d: string, after: string)
    requires DigitField(d)
    requires after == [] || !IsDigit(after[0])
    ensures ScanDecimal(d + after) == Some(Conversion(Value(d), after))
  {
    var text := d + after;
    assert text[0] == d[0];
    var t := SkipSpaces(text);
    assert t == text;
    assert !(t[0] == '+' || t[0] == '-');
    DigitRunOfDigits(d, after);
    assert text[..|d|] == d;
    assert text[|d|..] == after;
  }

  lemma ScanConversionStep(format: seq<Directive>, d: string, after: string)
    requires format != [] && format[0] == IntConversion
    requires DigitField(d)
    requires after == [] || !IsDigit(after[0])
    ensures Scan(d + after, format) == [Value(d)] + Scan(after, format[1..])
  {
    ScanDecimalDigits(d, after);
  }

  lemma ScanLiteralStep(format: seq<Directive>, c: char, after: string)
    requires format != [] && format[0] == Literal(c)
    ensures Scan([c] + after, format) == Scan(after, format[1..])
  {
    assert ([c] + after)[1..] == after;
  }

  /**
   * A conversion followed by text that neither extends its digits nor
   * matches the next literal stores one value and ends the scan.
   */
  lemma ScanMismatchAfterConversion(format: seq<Directive>, d: string, rest: string, c: char)
    requires |format| > 1 && format[0] == IntConversion && format[1] == Literal(c)
    requires DigitField(d)
    requires rest == [] || (!IsDigit(rest[0]) && rest[0] != c)
    ensures Scan(d + rest, format) == [Value(d)]
  {
    ScanConversionStep(format, d, rest);
    assert Scan(rest, format[1..]) == [];
  }

  lemma SeparatedTail(format: seq<Directive>)
    requires format != [] && Separated(format)
    ensures Separated(format[1..])
  {
    var rest := format[1..];
    forall i | 0 <= i < |rest| && rest[i] == IntConversion
      ensures i + 1 < |rest| && rest[i + 1].Literal? && !IsDigit(rest[i + 1].c)
    {
      assert format[i + 1] == rest[i];
    }
  }

  /**
   * Scanning rendered digit fields gives back their values, and the scan
   * then goes on with whatever follows: the scan inverts `Render` for any
   * separated format.
   */
  lemma {:induction false} ScanRendered(format: seq<Directive>, fields: seq<string>, tail: string, more: seq<Directive>)
    requires Separated(format)
    requires |fields| == ConversionCount(format) && DigitFields(fields)
    ensures Scan(Render(format, fields) + tail, format + more) == Values(fields) + Scan(tail, more)
    decreases format, 1
  {
    if format == [] {
      assert format + more == more;
      assert Render(format, fields) + tail == tail;
      assert Values(fields) + Scan(tail, more) == Scan(tail, more);
    } else if format[0] == IntConversion {
      ScanRenderedConversion(format, fields, tail, more);
    } else {
      ScanRenderedLiteral(format, fields, tail, more);
    }
  }

  lemma {:induction false} ScanRenderedConversion(format: seq<Directive>, fields: seq<string>, tail: string, more: seq<Directive>)
    requires format != [] && format[0] == IntConversion && Separated(format)
    requires |fields| == ConversionCount(format) && DigitFields(fields)
    ensures Scan(Render(format, fields) + tail, format + more) == Values(fields) + Scan(tail, more)
    decreases format, 0
  {
    var rest := format[1..];
    assert (format + more)[1..] == rest + more;
    SeparatedTail(format);
    var c := format[1].c;
    assert Render(rest, fields[1..]) == [c] + Render(rest[1..], fields[1..]);
    var after := Render(rest, fields[1..]) + tail;
    assert Render(format, fields) + tail == fields[0] + after;
    ScanConversionStep(format + more, fields[0], after);
    ScanRendered(rest, fields[1..], tail, more);
    var v, vs, ts := [Value(fields[0])], Values(fields[1..]), Scan(tail, more);
    assert Values(fields) == v + vs;
    calc {
      Scan(Render(format, fields) + tail, format + more);
      Scan(fields[0] + after, format + more);
      v + Scan(after, (format + more)[1..]);
      v + Scan(after, rest + more);
      v + (vs + ts);
      { ConcatAssociative(v, vs, ts); }
      Values(fields) + ts;
    }
  }

  lemma ConcatAssociative<T>(a: seq<T>, b: seq<T>, c: seq<T>)
    ensures a + (b + c) == (a + b) + c
  {
  }

  lemma {:induction false} ScanRenderedLiteral(format: seq<Directive>, fields: seq<string>, tail: string, more: seq<Directive>)
    requires format != [] && format[0].Literal? && Separated(format)
    requires |fields| == ConversionCount(format) && DigitFields(fields)
    ensures Scan(Render(format, fields) + tail, format + more) == Values(fields) + Scan(tail, more)
    decreases format, 0
  {
    var rest := format[1..];
    var c := format[0].c;
    assert (format + more)[1..] == rest + more;
    SeparatedTail(format);
    var after := Render(rest, fields) + tail;
    assert Render(format, fields) + tail == [c] + after;
    ScanLiteralStep(format + more, c, after);
    ScanRendered(rest, fields, tail, more);
  }

  /** Rendered digit fields hold no NUL, so Swift passes the whole text to C. */
  lemma {:induction false} RenderHasNoNul(format: seq<Directive>, fields: seq<string>)
    requires |fields| == ConversionCount(format) && DigitFields(fields)
    requires Literal('\0') !in format
    ensures '\0' !in Render(format, fields)
    decreases format
  {
    if format != [] {
      assert Literal('\0') !in format[1..];
      match format[0]
      case IntConversion =>
        assert '\0' !in fields[0] by {
          forall i | 0 <= i < |fields[0]| ensures fields[0][i] != '\0' {
            assert IsDigit(fields[0][i]);
          }
        }
        RenderHasNoNul(format[1..], fields[1..]);
      case Literal(c) =>
        RenderHasNoNul(format[1..], fields);
    }
  }

  lemma DateTimeFormatShape()
    ensures ConversionCount(DateTimeFormat) == 6
    ensures Separated(DateTimeFormat)
    ensures Literal('\0') !in DateTimeFormat
  {
    DateTimeFormatCount();
    DateTimeFormatSeparated();
    DateTimeFormatHasNoNul();
  }

  lemma DateTimeFormatCount() ensures ConversionCount(DateTimeFormat) == 6 {}
  lemma DateTimeFormatSeparated() ensures Separated(DateTimeFormat) {}
  lemma DateTimeFormatHasNoNul() ensures Literal('\0') !in DateTimeFormat {}

  /**
   * A timestamp laid out as RFC 3339 `date-time` in UTC (y-m-dTh:m:sZ) whose
   * six fields are digit runs, of any width, scans to the six field values.
   */
  lemma ScanDateTimeFields(fields: seq<string>)
    requires |fields| == 6 && DigitFields(fields)
    ensures ConversionCount(DateTimeFormat) == 6
    ensures ScanDateTime(Render(DateTimeFormat, fields)) == Values(fields)
  {
    DateTimeFormatShape();
    var text := Render(DateTimeFormat, fields);
    RenderHasNoNul(DateTimeFormat, fields);
    ScanWholeText(text);
    ScanRenderedWhole(DateTimeFormat, fields);
  }

  lemma ScanRenderedWhole(format: seq<Directive>, fields: seq<string>)
    requires Separated(format)
    requires |fields| == ConversionCount(format) && DigitFields(fields)
    ensures Scan(Render(format, fields), format) == Values(fields)
  {
    var text := Render(format, fields);
    assert text + "" == text;
    assert format + [] == format;
    ScanRendered(format, fields, "", []);
  }

  /** Text without NUL reaches `vsscanf` whole. */
  lemma ScanWholeText(text: string)
    requires '\0' !in text
    ensures ScanDateTime(text) == Scan(text, DateTimeFormat)
  {
  }

  // ---------------------------------------------------------------------
  // What a `%d` store does to a Swift `Int` slot

  const Two32: int := 0x1_0000_0000
  const Two63: int := 0x8000_0000_0000_0000
  const Two64: int := 0x1_0000_0000_0000_0000

  predicate InInt32(v: int) { -0x8000_0000 <= v < 0x8000_0000 }

  /**
   * `%d` stores a 32-bit C `int` through the pointer, but each slot is an
   * `UnsafeMutablePointer<Int>`, a 64-bit word. On a little-endian target
   * (the only kind modelled) the store replaces the low half of the word; the
   * high half keeps whatever the slot held. The slot then reads as a signed 64-bit `Int`.
   */
  function Store32(word: int, v: int): (r: int)
    requires InInt64(word) && InInt32(v)
    ensures InInt64(r)
  {
    var u := word % Two64;
    var stored := (u / Two32) * Two32 + v % Two32;
    if stored >= Two63 then stored - Two64 else stored
  }

  /** The store sets the low 32 bits to those of `v` and keeps the high 32 bits. */
  lemma Store32Halves(word: int, v: int)
    requires InInt64(word) && InInt32(v)
    ensures Store32(word, v) % Two32 == v % Two32
    ensures (Store32(word, v) % Two64) / Two32 == (word % Two64) / Two32
  {
    var u := word % Two64;
    var h := u / Two32;
    var stored := h * Two32 + v % Two32;
    assert 0 <= h < Two32;
    assert 0 <= stored < Two64;
    var r := Store32(word, v);
    assert r % Two64 == stored;
  }

  /** A slot whose high half is zero reads back a non-negative value exactly. */
  lemma Store32Exact(word: int, v: int)
    requires 0 <= word < Two32 && 0 <= v < 0x8000_0000
    ensures Store32(word, v) == v
  {
  }

  /** Whatever the slot held, the value read back differs from the stored `int` by a multiple of 2^32. */
  lemma Store32Congruent(word: int, v: int)
    requires InInt64(word) && InInt32(v)
    ensures (Store32(word, v) - v) % Two32 == 0
  {
    Store32Halves(word, v);
  }

  /**
   * A stored value reads back unchanged exactly when the slot's high half is
   * its sign extension: zero for a non-negative value, all ones for a
   * negative one.
   */
  lemma {:induction false} Store32ReadsBack(word: int, v: int)
    requires InInt64(word) && InInt32(v)
    ensures Store32(word, v) == v <==> (word % Two64) / Two32 == (if v < 0 then Two32 - 1 else 0)
  {
    var h := (word % Two64) / Two32;
    assert 0 <= h < Two32;
    var low := v % Two32;
    assert low == (if v < 0 then v + Two32 else v);
    var stored := h * Two32 + low;
    if v >= 0 {
      if h == 0 {
        assert stored == v;
      } else {
        assert stored >= Two32;
        if stored >= Two63 {
          assert stored - Two64 == (h - Two32) * Two32 + v;
          assert (h - Two32) * Two32 <= -Two32;
        }
      }
    } else {
      assert stored == (h + 1) * Two32 + v;
      assert stored >= 0;
      if h == Two32 - 1 {
        assert stored == Two64 + v;
      } else if stored >= Two63 {
        assert (h + 1) * Two32 <= (Two32 - 1) * Two32;
      }
    }
  }

  /** So a negative value stored into a slot whose high half is zero reads back as itself plus 2^32. */
  lemma Store32NegativeMisread(word: int, v: int)
    requires 0 <= word < Two32 && -0x8000_0000 <= v < 0
    ensures Store32(word, v) == v + Two32
  {
    assert word % Two64 == word;
    assert word / Two32 == 0;
  }

  /**
   * Instances: a negative value reads back as a large positive one, and a
   * slot whose high half is not zero is off by a multiple of 2^32.
   */
  lemma Store32Misreads()
    ensures Store32(0, -5) == 4294967291
    ensures Store32(-1, 5) == -4294967291
    ensures Store32(Two32, 2020) == Two32 + 2020
  {
  }

  // ---------------------------------------------------------------------
  // The process-wide parser state

  /** The calendar cache after a parse of a non-nil string. */
  function CacheAfterParse(cache: map<int, Calendar>): (c: map<int, Calendar>)
    ensures 0 in c && c[0] == (if 0 in cache then cache[0] else UtcGregorian)
    ensures forall k :: k != 0 ==> (k in c <==> k in cache)
    ensures forall k :: k != 0 && k in cache ==> c[k] == cache[k]
  {
    if 0 in cache then cache else cache[0 := UtcGregorian]
  }

  /**
   * The first parse stores the calendar; every later one finds it under key 0
   * and keeps the cache as it is.
   */
  lemma CacheFilledOnce(cache: map<int, Calendar>)
    ensures cache == map[] ==> CacheAfterParse(cache) == map[0 := UtcGregorian]
    ensures 0 in cache ==> CacheAfterParse(cache) == cache
    ensures CacheAfterParse(CacheAfterParse(cache)) == CacheAfterParse(cache)
  {
  }

  /**
   * The six slots after a scan that stored `vs`: slot k gets the k-th stored
   * value when there is one and keeps its contents otherwise.
   */
  function Refill(slots: seq<int>, vs: seq<int>): (r: seq<int>)
    requires |slots| == 6
    requires forall k :: 0 <= k < 6 ==> InInt64(slots[k])
    requires forall k :: 0 <= k < |vs| && k < 6 ==> InInt32(vs[k])
    ensures |r| == 6
    ensures forall k :: 0 <= k < 6 ==> InInt64(r[k])
    ensures forall k :: 0 <= k < |vs| && k < 6 ==> r[k] == Store32(slots[k], vs[k])
    ensures forall k :: |vs| <= k < 6 ==> r[k] == slots[k]
  {
    seq(6, k requires 0 <= k < 6 => if k < |vs| then Store32(slots[k], vs[k]) else slots[k])
  }

  /** Every value fits a C `int`. */
  predicate FitsInt32(vs: seq<int>)
  {
    forall k :: 0 <= k < |vs| ==> InInt32(vs[k])
  }

  /** The static state of `ISO8601DateParser`. */
  class ISO8601DateParser {
    var year: int
    var month: int
    var day: int
    var hour: int
    var minute: int
    var second: int
    var components: DateComponents
    var calendarCache: map<int, Calendar>

    ghost predicate Valid()
      reads this
    {
      forall k :: 0 <= k < 6 ==> InInt64(Slots()[k])
    }

    /** The six slots in scanning order. */
    function Slots(): (s: seq<int>)
      reads this
      ensures |s| == 6
    {
      [year, month, day, hour, minute, second]
    }

    /**
     * The static initialisers. `allocate(capacity:)` leaves the slots
     * uninitialised, so their first contents are parameters.
     */
    constructor (initialSlots: seq<int>)
      requires |initialSlots| == 6
      requires forall k :: 0 <= k < 6 ==> InInt64(initialSlots[k])
      ensures Valid()
      ensures Slots() == initialSlots
      ensures components == NoComponents && calendarCache == map[]
    {
      year, month, day := initialSlots[0], initialSlots[1], initialSlots[2];
      hour, minute, second := initialSlots[3], initialSlots[4], initialSlots[5];
      components := NoComponents;
      calendarCache := map[];
    }

    /**
     * The part of `parse(_:)` after the `vsscanf` call: each scanned value's
     * 32-bit store goes into its slot, and all six slots are copied into `components`.
     */
    method StoreScanned(vs: seq<int>)
      requires Valid()
      requires FitsInt32(vs)
      modifies this
      ensures Valid()
      ensures Slots() == Refill(old(Slots()), vs)
      ensures components == DateComponents(Some(year), Some(month), Some(day), Some(hour), Some(minute), Some(second))
      ensures calendarCache == old(calendarCache)
    {
      var filled := Refill(Slots(), vs);
      year, month, day := filled[0], filled[1], filled[2];
      hour, minute, second := filled[3], filled[4], filled[5];

      components := components.(year := Some(year), minute := Some(minute), day := Some(day));
      components := components.(hour := Some(hour), month := Some(month), second := Some(second));
    }

    /**
     * `parse(_:)`. `dateFrom` stands for `Calendar.date(from:)`. The scanned
     * values must fit a C `int`: `%d` overflow is undefined in C.
     */
    method Parse(text: Option<string>, dateFrom: (Calendar, DateComponents) -> Option<Date>)
      returns (r: Option<Date>)
      requires Valid()
      requires text.Some? ==> FitsInt32(ScanDateTime(text.value))
      modifies this
      ensures Valid()
      ensures text.None? ==> r.None? && unchanged(this)
      ensures text.Some? ==> Slots() == Refill(old(Slots()), ScanDateTime(text.value))
      ensures text.Some? ==>
        components == DateComponents(Some(year), Some(month), Some(day), Some(hour), Some(minute), Some(second))
      ensures text.Some? ==> calendarCache == CacheAfterParse(old(calendarCache))
      ensures text.Some? ==> r == dateFrom(calendarCache[0], components)
    {
      if text.None? {
        return None;
      }
      var vs := ScanDateTime(text.value);
      StoreScanned(vs);
      var calendar := CachedCalendar();
      r := dateFrom(calendar, components);
    }

    /**
     * The calendar lookup of `parse(_:)`: the cached calendar under key 0,
     * or a new Gregorian calendar at GMT that is cached under key 0.
     */
    method CachedCalendar() returns (calendar: Calendar)
      modifies this`calendarCache
      ensures calendarCache == CacheAfterParse(old(calendarCache))
      ensures calendar == calendarCache[0]
      ensures old(0 in calendarCache) ==> calendar == old(calendarCache[0])
    {
      if 0 in calendarCache {
        return calendarCache[0];
      }
      calendar := Calendar(Gregorian, 0);
      calendarCache := calendarCache[0 := calendar];
    }
  }
}
