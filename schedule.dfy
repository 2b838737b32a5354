// The weekly schedule on the home page (app/page.tsx): which dates the
// current week holds, and the hours, specials and late-night pricing shown
// for each of its days. A date is a day number counted from 1 January 1970
// (a Thursday), so `setDate(getDate() + n)` is addition; time zones and
// month rollover are part of the Date library and are not modelled.
module Schedule {
  import opened Common
  import opened Text

  /** `getDay()`: 0 for Sunday, 1 for Monday, ... 6 for Saturday. */
  function JsDay(day: int): (d: int)
    ensures 0 <= d < 7
  {
    (day + 4) % 7
  }

  /** The distance from a weekday back to that week's Monday: a week runs Monday to Sunday. */
  function MondayOffset(currentDay: int): (diff: int)
    requires 0 <= currentDay < 7
    ensures -6 <= diff <= 0
    ensures currentDay == 0 ==> diff == -6
    ensures currentDay != 0 ==> currentDay + diff == 1
  {
    if currentDay == 0 then -6 else 1 - currentDay
  }

  /** Stepping back by the offset from any day lands on a Monday at most six days earlier. */
  lemma OffsetReachesMonday(today: int)
    ensures JsDay(today + MondayOffset(JsDay(today))) == 1
    ensures today - 6 <= today + MondayOffset(JsDay(today)) <= today
  {
    var k := JsDay(today);
    var q := (today + 4) / 7;
    assert today + 4 == 7 * q + k;
    if k == 0 {
      assert today + MondayOffset(k) + 4 == 7 * (q - 1) + 1;
    } else {
      assert today + MondayOffset(k) + 4 == 7 * q + 1;
    }
  }

  /** getCurrentWeekDates: the Monday of today's week and the six days after it. */
  method GetCurrentWeekDates(today: int) returns (weekDates: seq<int>)
    ensures |weekDates| == 7
    ensures JsDay(weekDates[0]) == 1
    ensures forall i :: 0 < i < 7 ==> weekDates[i] == weekDates[i - 1] + 1
    ensures today in weekDates
  {
    var diff := MondayOffset(JsDay(today));
    var monday := today + diff;
    OffsetReachesMonday(today);
    weekDates := [];
    for i := 0 to 7
      invariant |weekDates| == i
      invariant forall j :: 0 <= j < i ==> weekDates[j] == monday + j
    {
      weekDates := weekDates + [monday + i];
    }
    assert weekDates[-diff] == today;
  }

  /** `dayIndex === 0 ? 6 : dayIndex - 1`: Monday first, Sunday last. */
  function AdjustedIndex(dayIndex: int): (i: int)
    requires 0 <= dayIndex < 7
    ensures 0 <= i < 7
  {
    if dayIndex == 0 then 6 else dayIndex - 1
  }

  /** The weekday (`getDay()` numbering) shown in a column. */
  function ColumnWeekday(column: int): (d: int)
    requires 0 <= column < 7
    ensures 0 <= d < 7
  {
    if column == 6 then 0 else column + 1
  }

  /** AdjustedIndex and ColumnWeekday undo each other, so the mapping is a bijection. */
  lemma AdjustedIndexBijective()
    ensures forall d :: 0 <= d < 7 ==> ColumnWeekday(AdjustedIndex(d)) == d
    ensures forall i :: 0 <= i < 7 ==> AdjustedIndex(ColumnWeekday(i)) == i
  {
  }

  /** The i-th date of a Monday-first week of consecutive days is shown in column i. */
  lemma WeekColumns(weekDates: seq<int>)
    requires |weekDates| == 7 && JsDay(weekDates[0]) == 1
    requires forall i :: 0 < i < 7 ==> weekDates[i] == weekDates[i - 1] + 1
    ensures forall i :: 0 <= i < 7 ==> AdjustedIndex(JsDay(weekDates[i])) == i
  {
    var m := weekDates[0];
    var q := (m + 4) / 7;
    assert m + 4 == 7 * q + 1;
    forall i | 0 <= i < 7
      ensures AdjustedIndex(JsDay(weekDates[i])) == i
    {
      WeekDateAt(weekDates, i);
      if i == 6 {
        assert weekDates[i] + 4 == 7 * (q + 1) + 0;
      } else {
        assert weekDates[i] + 4 == 7 * q + i + 1;
      }
    }
  }

  lemma {:induction false} WeekDateAt(weekDates: seq<int>, i: nat)
    requires |weekDates| == 7 && i < 7
    requires forall j :: 0 < j < 7 ==> weekDates[j] == weekDates[j - 1] + 1
    ensures weekDates[i] == weekDates[0] + i
  {
    if i > 0 {
      WeekDateAt(weekDates, i - 1);
    }
  }

  // ---------------------------------------------------------------------------
  // Opening hours and prices, by column (Monday = 0)

  /** A span of opening on a 24-hour clock; a close of 24 is midnight. */
  datatype Span = Span(open: nat, close: nat)

  /** The clock text of an hour: "12PM" for noon, "12AM" for midnight, "7PM", "10AM". */
  function ClockText(hour: nat): string
  {
    if hour % 12 == 0 then (if hour == 12 then "12PM" else "12AM")
    else if hour < 12 then NatToString(hour) + "AM"
    else NatToString(hour - 12) + "PM"
  }

  function SpanText(s: Span): string
  {
    ClockText(s.open) + "-" + ClockText(s.close)
  }

  /** The `hours` chain: noon to 10PM Monday to Thursday, later on the weekend. */
  function OpeningHours(adjustedIndex: int): Span
  {
    if 0 <= adjustedIndex <= 3 then Span(12, 22)
    else if adjustedIndex == 4 then Span(12, 23)
    else if adjustedIndex == 5 then Span(10, 24)
    else Span(10, 23)
  }

  /** The `lastThreeHours` table; it has no entry for Monday and Tuesday or outside the week. */
  function LateNightWindow(dayIndex: int): Option<Span>
  {
    if dayIndex == 2 || dayIndex == 3 then Some(Span(19, 22))
    else if dayIndex == 4 then Some(Span(20, 23))
    else if dayIndex == 5 then Some(Span(21, 24))
    else if dayIndex == 6 then Some(Span(20, 23))
    else None
  }

  /**
   * getPricing: none on Monday and Tuesday, otherwise "$25 (<window>)"; an
   * index the table lacks reads back as "undefined" in the template.
   */
  function GetPricing(dayIndex: int): (r: Option<string>)
    ensures r.None? <==> dayIndex == 0 || dayIndex == 1
    ensures r.Some? ==> |r.value| > 5 && r.value[..5] == "$25 (" && r.value[|r.value| - 1] == ')'
  {
    if dayIndex == 0 || dayIndex == 1 then None
    else
      var window := match LateNightWindow(dayIndex) case Some(s) => SpanText(s) case None => "undefined";
      Some("$25 (" + window + ")")
  }

  /** The late-night price covers exactly the last three opening hours of its day. */
  lemma LateNightIsLastThreeHours(dayIndex: int)
    requires 2 <= dayIndex <= 6
    ensures LateNightWindow(dayIndex).Some?
    ensures LateNightWindow(dayIndex).value.close == OpeningHours(dayIndex).close
    ensures LateNightWindow(dayIndex).value.open + 3 == OpeningHours(dayIndex).close
  {
  }

  lemma ClockTexts()
    ensures ClockText(7 + 12) == "7PM" && ClockText(8 + 12) == "8PM" && ClockText(9 + 12) == "9PM"
    ensures ClockText(10 + 12) == "10PM" && ClockText(11 + 12) == "11PM"
    ensures ClockText(10) == "10AM" && ClockText(12) == "12PM" && ClockText(24) == "12AM"
  {
    assert NatToString(7) == "7" && NatToString(8) == "8" && NatToString(9) == "9";
    assert NatToString(10) == "10" && NatToString(11) == "11";
  }

  /** The opening-hours texts the page shows, Monday to Sunday. */
  lemma HoursTexts()
    ensures forall i :: 0 <= i <= 3 ==> SpanText(OpeningHours(i)) == "12PM-10PM"
    ensures SpanText(OpeningHours(4)) == "12PM-11PM"
    ensures SpanText(OpeningHours(5)) == "10AM-12AM"
    ensures SpanText(OpeningHours(6)) == "10AM-11PM"
  {
    ClockTexts();
  }

  /** The late-night price texts, Wednesday to Sunday. */
  lemma PricingTexts()
    ensures GetPricing(2) == Some("$25 (7PM-10PM)") && GetPricing(3) == Some("$25 (7PM-10PM)")
    ensures GetPricing(4) == Some("$25 (8PM-11PM)") && GetPricing(6) == Some("$25 (8PM-11PM)")
    ensures GetPricing(5) == Some("$25 (9PM-12AM)")
  {
    ClockTexts();
    assert SpanText(Span(19, 22)) == "7PM-10PM";
    assert SpanText(Span(20, 23)) == "8PM-11PM";
    assert SpanText(Span(21, 24)) == "9PM-12AM";
    assert "$25 (" + "7PM-10PM" + ")" == "$25 (7PM-10PM)";
    assert "$25 (" + "8PM-11PM" + ")" == "$25 (8PM-11PM)";
    assert "$25 (" + "9PM-12AM" + ")" == "$25 (9PM-12AM)";
  }

  /** A day's entry in the `specials` table. */
  datatype Special = Special(text: string, hasDiscount: bool, originalPrice: string, discountPrice: Option<string>)

  /** getDaySpecial: half price on Monday and Tuesday, an event on Wednesday and Thursday. */
  function GetDaySpecial(dayIndex: int): (r: Option<Special>)
    ensures r.Some? <==> 0 <= dayIndex < 7
    ensures r.Some? ==> r.value.originalPrice == "$50"
    ensures r.Some? ==> (r.value.hasDiscount <==> dayIndex == 0 || dayIndex == 1)
    ensures r.Some? ==> (r.value.discountPrice.Some? <==> r.value.hasDiscount)
    ensures r.Some? && r.value.hasDiscount ==> r.value.discountPrice == Some("$25") && r.value.text == "50% OFF"
  {
    if dayIndex == 0 || dayIndex == 1 then Some(Special("50% OFF", true, "$50", Some("$25")))
    else if dayIndex == 2 then Some(Special("SPEEDSOFT", false, "$50", None))
    else if dayIndex == 3 then Some(Special("FREE RENTAL", false, "$50", None))
    else if 4 <= dayIndex <= 6 then Some(Special("Regular", false, "$50", None))
    else None
  }

  /** A day of the week has either the all-day discount or a late-night price, never both. */
  lemma DiscountOrLateNight(dayIndex: int)
    requires 0 <= dayIndex < 7
    ensures GetDaySpecial(dayIndex).value.hasDiscount <==> GetPricing(dayIndex).None?
  {
  }
}
