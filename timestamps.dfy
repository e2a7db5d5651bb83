/**
 * What `ISO8601DateParser.parse` stores for timestamps laid out as
 * y-m-dTh:m:sZ, for text that stops matching the layout, and for sample
 * strings.
 */
module Timestamps {
  import opened Decimal
  import opened DateParsing

  /** "%d-%d-%dT" and "%d:%d:%dZ", the two halves of the date-time format. */
  const DateHalf: seq<Directive> := [IntConversion, Literal('-'), IntConversion, Literal('-'), IntConversion, Literal('T')]
  const TimeHalf: seq<Directive> := [IntConversion, Literal(':'), IntConversion, Literal(':'), IntConversion, Literal('Z')]

  lemma FormatHalves()
    ensures DateTimeFormat == DateHalf + TimeHalf
    ensures ConversionCount(DateHalf) == 3 && ConversionCount(TimeHalf) == 3
  {
  }

  lemma RenderDateHalf(y: string, mo: string, d: string)
    ensures Render(DateHalf, [y, mo, d]) == y + "-" + mo + "-" + d + "T"
  {
  }

  lemma RenderTimeHalf(h: string, mi: string, se: string)
    ensures Render(TimeHalf, [h, mi, se]) == h + ":" + mi + ":" + se + "Z"
  {
  }

  lemma RenderDateTime(y: string, mo: string, d: string, h: string, mi: string, se: string)
    ensures ConversionCount(DateTimeFormat) == 6
    ensures Render(DateTimeFormat, [y, mo, d, h, mi, se]) ==
      (y + "-" + mo + "-" + d + "T") + (h + ":" + mi + ":" + se + "Z")
  {
    FormatHalves();
    RenderDateHalf(y, mo, d);
    RenderTimeHalf(h, mi, se);
    assert [y, mo, d] + [h, mi, se] == [y, mo, d, h, mi, se];
    RenderAppend(DateHalf, TimeHalf, [y, mo, d], [h, mi, se]);
  }

  /**
   * A timestamp whose six fields are digit runs, of any width, stores the six
   * field values, year first.
   */
  lemma ScanTimestamp(y: string, mo: string, d: string, h: string, mi: string, se: string)
    requires DigitField(y) && DigitField(mo) && DigitField(d)
    requires DigitField(h) && DigitField(mi) && DigitField(se)
    ensures ScanDateTime((y + "-" + mo + "-" + d + "T") + (h + ":" + mi + ":" + se + "Z")) ==
      [Value(y), Value(mo), Value(d), Value(h), Value(mi), Value(se)]
  {
    ValuesOfSix(y, mo, d, h, mi, se);
    ScanTimestampFields(y, mo, d, h, mi, se);
  }

  lemma ValuesOfSix(y: string, mo: string, d: string, h: string, mi: string, se: string)
    requires DigitField(y) && DigitField(mo) && DigitField(d)
    requires DigitField(h) && DigitField(mi) && DigitField(se)
    ensures DigitFields([y, mo, d, h, mi, se])
    ensures Values([y, mo, d, h, mi, se]) == [Value(y), Value(mo), Value(d), Value(h), Value(mi), Value(se)]
  {
    var fields := [y, mo, d, h, mi, se];
    assert DigitFields(fields);
    var vs := Values(fields);
    assert vs[0] == Value(y) && vs[1] == Value(mo) && vs[2] == Value(d);
    assert vs[3] == Value(h) && vs[4] == Value(mi) && vs[5] == Value(se);
  }

  lemma ScanTimestampFields(y: string, mo: string, d: string, h: string, mi: string, se: string)
    requires DigitFields([y, mo, d, h, mi, se])
    ensures ScanDateTime((y + "-" + mo + "-" + d + "T") + (h + ":" + mi + ":" + se + "Z")) == Values([y, mo, d, h, mi, se])
  {
    var fields := [y, mo, d, h, mi, se];
    RenderDateTime(y, mo, d, h, mi, se);
    ScanDateTimeText((y + "-" + mo + "-" + d + "T") + (h + ":" + mi + ":" + se + "Z"), fields);
  }

  lemma ScanDateTimeText(text: string, fields: seq<string>)
    requires |fields| == 6 && DigitFields(fields)
    requires ConversionCount(DateTimeFormat) == 6 && text == Render(DateTimeFormat, fields)
    ensures ScanDateTime(text) == Values(fields)
  {
    ScanDateTimeFields(fields);
  }

  /** The first four directives of the date-time format: "%d-%d-". */
  const DateHead: seq<Directive> := [IntConversion, Literal('-'), IntConversion, Literal('-')]

  lemma DateHeadShape(y: string, mo: string)
    ensures ConversionCount(DateHead) == 2 && Separated(DateHead)
    ensures Render(DateHead, [y, mo]) == y + "-" + mo + "-"
    ensures DateTimeFormat == DateHead + DateTimeFormat[4..]
    ensures |DateTimeFormat[4..]| > 1
    ensures DateTimeFormat[4..][0] == IntConversion && DateTimeFormat[4..][1] == Literal('T')
  {
  }

  lemma ScanTwoFields(head: seq<Directive>, more: seq<Directive>, y: string, mo: string, tail: string)
    requires ConversionCount(head) == 2 && Separated(head)
    requires DigitField(y) && DigitField(mo)
    ensures Scan(Render(head, [y, mo]) + tail, head + more) == [Value(y), Value(mo)] + Scan(tail, more)
  {
    assert DigitFields([y, mo]);
    ScanRendered(head, [y, mo], tail, more);
    assert Values([y, mo]) == [Value(y), Value(mo)];
  }

  lemma ScanThreeFields(head: seq<Directive>, more: seq<Directive>, y: string, mo: string, d: string, rest: string)
    requires ConversionCount(head) == 2 && Separated(head)
    requires |more| > 1 && more[0] == IntConversion && more[1] == Literal('T')
    requires DigitField(y) && DigitField(mo) && DigitField(d)
    requires rest == [] || (!IsDigit(rest[0]) && rest[0] != 'T')
    ensures Scan(Render(head, [y, mo]) + (d + rest), head + more) == [Value(y), Value(mo), Value(d)]
  {
    ScanMismatchAfterConversion(more, d, rest, 'T');
    ScanTwoFields(head, more, y, mo, d + rest);
  }

  /**
   * When the day is not followed by `T` the scan stops there: three values
   * are stored, and the hour, minute and second slots keep what they held.
   */
  lemma ScanStopsAfterDay(y: string, mo: string, d: string, rest: string)
    requires DigitField(y) && DigitField(mo) && DigitField(d)
    requires rest == [] || (!IsDigit(rest[0]) && rest[0] != 'T')
    requires '\0' !in y + "-" + mo + "-" + d + rest
    ensures ScanDateTime(y + "-" + mo + "-" + d + rest) == [Value(y), Value(mo), Value(d)]
  {
    var text := y + "-" + mo + "-" + d + rest;
    ScanWholeText(text);
    DateHeadShape(y, mo);
    ConcatAssociative(y + "-" + mo + "-", d, rest);
    ScanThreeFields(DateHead, DateTimeFormat[4..], y, mo, d, rest);
  }

  /** "2020-05-01T12:30:45Z" stores 2020, 5, 1, 12, 30, 45. */
  lemma ExampleValues()
    ensures DigitField("2020") && Value("2020") == 2020
    ensures DigitField("05") && Value("05") == 5
    ensures DigitField("01") && Value("01") == 1
    ensures DigitField("12") && Value("12") == 12
    ensures DigitField("30") && Value("30") == 30
    ensures DigitField("45") && Value("45") == 45
  {
    ValueOfFour('2', '0', '2', '0');
    ValueOfTwo('0', '5');
    ValueOfTwo('0', '1');
    ValueOfTwo('1', '2');
    ValueOfTwo('3', '0');
    ValueOfTwo('4', '5');
  }

  lemma ExampleTimestamp(text: string)
    requires text == "2020-05-01T12:30:45Z"
    ensures ScanDateTime(text) == [2020, 5, 1, 12, 30, 45]
  {
    ExampleValues();
    assert text == ("2020" + "-" + "05" + "-" + "01" + "T") + ("12" + ":" + "30" + ":" + "45" + "Z");
    ScanTimestamp("2020", "05", "01", "12", "30", "45");
  }

  /** A blank in place of the `T` stores only 2020, 5, 1. */
  lemma ExampleStopsAtBlank(text: string)
    requires text == "2020-05-01 12:30:45Z"
    ensures ScanDateTime(text) == [2020, 5, 1]
  {
    ExampleValues();
    assert text == "2020" + "-" + "05" + "-" + "01" + " 12:30:45Z";
    ScanStopsAfterDay("2020", "05", "01", " 12:30:45Z");
  }

  /** Fields of any width: "7-1-1T0:0:0Z" stores 7, 1, 1, 0, 0, 0. */
  lemma ExampleShortFields(text: string)
    requires text == "7-1-1T0:0:0Z"
    ensures ScanDateTime(text) == [7, 1, 1, 0, 0, 0]
  {
    assert Value("7") == 7 && Value("1") == 1 && Value("0") == 0;
    assert text == ("7" + "-" + "1" + "-" + "1" + "T") + ("0" + ":" + "0" + ":" + "0" + "Z");
    ScanTimestamp("7", "1", "1", "0", "0", "0");
  }

  // ---------------------------------------------------------------------
  // What the slots hold after a scan

  /** Six slots as the parser keeps them: 64-bit words. */
  predicate SlotWords(slots: seq<int>)
  {
    |slots| == 6 && forall k :: 0 <= k < 6 ==> InInt64(slots[k])
  }

  /** A scan that stores three values overwrites the first three slots only. */
  lemma RefillThree(slots: seq<int>, vs: seq<int>)
    requires SlotWords(slots) && |vs| == 3 && FitsInt32(vs)
    ensures Refill(slots, vs) == [Store32(slots[0], vs[0]), Store32(slots[1], vs[1]), Store32(slots[2], vs[2])] + slots[3..]
  {
    var r := Refill(slots, vs);
    var e := [Store32(slots[0], vs[0]), Store32(slots[1], vs[1]), Store32(slots[2], vs[2])] + slots[3..];
    assert |e| == 6;
    forall k | 0 <= k < 6 ensures r[k] == e[k] {
      if k >= 3 {
        assert e[k] == slots[3..][k - 3];
      }
    }
  }

  /**
   * A date without a time of day overwrites the year, month and day slots
   * and leaves the hour, minute and second slots as the previous parse left
   * them.
   */
  lemma StaleTimeOfDay(slots: seq<int>, y: string, mo: string, d: string, rest: string)
    requires SlotWords(slots)
    requires DigitField(y) && DigitField(mo) && DigitField(d)
    requires Value(y) < 0x8000_0000 && Value(mo) < 0x8000_0000 && Value(d) < 0x8000_0000
    requires rest == [] || (!IsDigit(rest[0]) && rest[0] != 'T')
    requires '\0' !in y + "-" + mo + "-" + d + rest
    ensures FitsInt32(ScanDateTime(y + "-" + mo + "-" + d + rest))
    ensures Refill(slots, ScanDateTime(y + "-" + mo + "-" + d + rest)) ==
      [Store32(slots[0], Value(y)), Store32(slots[1], Value(mo)), Store32(slots[2], Value(d))] + slots[3..]
  {
    RefillThree(slots, [Value(y), Value(mo), Value(d)]);
    ScanStopsAfterDay(y, mo, d, rest);
  }

  /** Slots whose high halves are zero read back non-negative stored values exactly. */
  lemma RefillExact(slots: seq<int>, vs: seq<int>)
    requires |slots| == 6 && forall k :: 0 <= k < 6 ==> 0 <= slots[k] < Two32
    requires |vs| <= 6 && forall k :: 0 <= k < |vs| ==> 0 <= vs[k] < 0x8000_0000
    ensures FitsInt32(vs)
    ensures Refill(slots, vs) == vs + slots[|vs|..]
    ensures |vs| == 6 ==> Refill(slots, vs) == vs
  {
    var r := Refill(slots, vs);
    var e := vs + slots[|vs|..];
    forall k | 0 <= k < 6 ensures r[k] == e[k] {
      if k < |vs| {
        Store32Exact(slots[k], vs[k]);
      } else {
        assert e[k] == slots[|vs|..][k - |vs|];
      }
    }
    if |vs| == 6 {
      assert e == vs + [];
    }
  }

  /**
   * "2020-05-01T12:30:45Z" fills the six slots with 2020, 5, 1, 12, 30 and
   * 45, when the high halves of the slots are zero.
   */
  lemma ExampleSlots(slots: seq<int>, text: string)
    requires |slots| == 6 && forall k :: 0 <= k < 6 ==> 0 <= slots[k] < Two32
    requires text == "2020-05-01T12:30:45Z"
    ensures var vs := ScanDateTime(text); FitsInt32(vs) && Refill(slots, vs) == [2020, 5, 1, 12, 30, 45]
  {
    RefillExact(slots, [2020, 5, 1, 12, 30, 45]);
    ExampleTimestamp(text);
  }

  /** "2020-05-01 12:30:45Z" stores the date and keeps the previous time of day. */
  lemma ExampleStaleSlots(slots: seq<int>, text: string)
    requires |slots| == 6 && forall k :: 0 <= k < 6 ==> 0 <= slots[k] < Two32
    requires text == "2020-05-01 12:30:45Z"
    ensures var vs := ScanDateTime(text); FitsInt32(vs) && Refill(slots, vs) == [2020, 5, 1] + slots[3..]
  {
    RefillExact(slots, [2020, 5, 1]);
    ExampleStopsAtBlank(text);
  }
}
