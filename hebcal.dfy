// Shabbat times for the field's town and the game times derived from them:
// registration waves, the check-in deadline and the kickoff.
module Hebcal {
  import opened Wrappers
  import opened Clock

  /** One entry of the Hebcal response; `date` is what `new Date(item.date)` yields. */
  datatype HebcalItem = HebcalItem(title: string, category: string, date: Instant)

  /** `date` is the Saturday's day number; havdalah is kept as parsed. */
  datatype ShabbatTimes = ShabbatTimes(date: int, candleLighting: int, havdalah: Instant)

  datatype GameTimes = GameTimes(wave1Opens: int, wave2Opens: int, deadline: Instant, kickoff: Instant)

  datatype HebcalError =
    | ApiError(httpStatus: int)   // the response was not ok
    | BadCandleDate               // toISOString on an invalid candle-lighting date throws
    | TimesNotFound               // no candles item or no havdalah item

  /** The date of the last item of category `category`, if any. */
  function LastOf(items: seq<HebcalItem>, category: string): (r: Option<Instant>)
    ensures r.None? <==> forall k :: 0 <= k < |items| ==> items[k].category != category
  {
    if items == [] then None
    else
      var n := |items| - 1;
      if items[n].category == category then Some(items[n].date)
      else
        var r := LastOf(items[..n], category);
        assert forall k :: 0 <= k < n ==> items[..n][k] == items[k];
        r
  }

  /** Item `k` has category `category` and date `date`, and no later item has that category. */
  predicate LastMatchAt(items: seq<HebcalItem>, category: string, k: int, date: Instant)
  {
    0 <= k < |items| && items[k].category == category && items[k].date == date
    && forall j :: k < j < |items| ==> items[j].category != category
  }

  /** The found date belongs to a matching item after which no item matches. */
  lemma {:induction false} LastOfIsLast(items: seq<HebcalItem>, category: string)
    requires LastOf(items, category).Some?
    ensures exists k :: LastMatchAt(items, category, k, LastOf(items, category).value)
  {
    var n := |items| - 1;
    if items[n].category == category {
      assert LastMatchAt(items, category, n, LastOf(items, category).value);
    } else {
      var p := items[..n];
      LastOfIsLast(p, category);
      var k :| LastMatchAt(p, category, k, LastOf(p, category).value);
      assert forall j :: k < j < n ==> items[j] == p[j];
      assert LastMatchAt(items, category, k, LastOf(items, category).value);
    }
  }

  /** Appending an item: it is the last one of its category. */
  lemma LastOfSnoc(items: seq<HebcalItem>, x: HebcalItem, category: string)
    ensures LastOf(items + [x], category) == if x.category == category then Some(x.date) else LastOf(items, category)
  {
    assert (items + [x])[..|items|] == items;
  }

  /** Some `candles` item has a date that does not parse. */
  predicate InvalidCandles(items: seq<HebcalItem>)
  {
    exists k :: 0 <= k < |items| && items[k].category == "candles" && items[k].date.InvalidDate?
  }

  /** Without an unparsable candles item, the last candles date is a real instant. */
  lemma LastCandlesParsed(items: seq<HebcalItem>)
    requires !InvalidCandles(items) && LastOf(items, "candles").Some?
    ensures LastOf(items, "candles").value.At?
  {
    LastOfIsLast(items, "candles");
  }

  /** What getNextShabbatTimes returns for a successful response with these items. */
  function ShabbatTimesOf(items: seq<HebcalItem>): Result<ShabbatTimes, HebcalError>
  {
    if InvalidCandles(items) then Failure(BadCandleDate)
    else
      var candles := LastOf(items, "candles");
      var havdalah := LastOf(items, "havdalah");
      if candles.None? || havdalah.None? then Failure(TimesNotFound)
      else
        LastCandlesParsed(items);
        var c := candles.value.ms;
        Success(ShabbatTimes(UtcDay(c + MsPerDay), c, havdalah.value))
  }

  /** The UTC day after a parsed candle-lighting time: the Shabbat date. */
  function DayAfter(candles: Option<Instant>): (r: Option<int>)
    ensures r.Some? <==> candles.Some? && candles.value.At?
  {
    if candles.Some? && candles.value.At? then Some(UtcDay(candles.value.ms + MsPerDay)) else None
  }

  /** getNextShabbatTimes, from the HTTP response on: the loop over the items. */
  method GetNextShabbatTimes(response: Result<seq<HebcalItem>, int>) returns (r: Result<ShabbatTimes, HebcalError>)
    ensures response.Failure? ==> r == Failure(ApiError(response.error))
    ensures response.Success? ==> r == ShabbatTimesOf(response.value)
  {
    if response.Failure? {
      return Failure(ApiError(response.error));
    }
    var items := response.value;
    var candleLighting: Option<Instant> := None;
    var havdalah: Option<Instant> := None;
    var shabbatDate: Option<int> := None;
    var i := 0;
    while i < |items|
      invariant 0 <= i <= |items|
      invariant candleLighting == LastOf(items[..i], "candles")
      invariant havdalah == LastOf(items[..i], "havdalah")
      invariant forall k :: 0 <= k < i ==> !(items[k].category == "candles" && items[k].date.InvalidDate?)
      invariant candleLighting.Some? ==> candleLighting.value.At?
      invariant shabbatDate == DayAfter(candleLighting)
    {
      var item := items[i];
      assert items[..i + 1] == items[..i] + [item];
      LastOfSnoc(items[..i], item, "candles");
      LastOfSnoc(items[..i], item, "havdalah");
      if item.category == "candles" {
        if item.date.InvalidDate? {
          assert InvalidCandles(items);
          return Failure(BadCandleDate);
        }
        candleLighting := Some(item.date);
        shabbatDate := DayAfter(Some(item.date));
      } else if item.category == "havdalah" {
        havdalah := Some(item.date);
      }
      i := i + 1;
    }
    assert items[..i] == items;
    if candleLighting.None? || havdalah.None? || shabbatDate.None? {
      return Failure(TimesNotFound);
    }
    r := Success(ShabbatTimes(shabbatDate.value, candleLighting.value.ms, havdalah.value));
  }

  /** The Shabbat date is the UTC day after candle lighting, and both times come from the last matching items. */
  lemma ShabbatTimesFromLastItems(items: seq<HebcalItem>)
    requires ShabbatTimesOf(items).Success?
    ensures var st := ShabbatTimesOf(items).value;
      st.date * MsPerDay <= st.candleLighting + MsPerDay < (st.date + 1) * MsPerDay
      && LastOf(items, "candles") == Some(At(st.candleLighting))
      && LastOf(items, "havdalah") == Some(st.havdalah)
  {
    LastCandlesParsed(items);
  }

  // ---- rounding ----

  lemma HourMultiplePlus(k: int, r: int)
    requires 0 <= r < MsPerHour
    ensures (k * MsPerHour + r) % MsPerHour == r
    ensures (k * MsPerHour + r) / MsPerHour == k
  {
  }

  /** roundUpToHalfHour in the local clock. */
  function RoundUpToHalfHour(t: int, tz: int): (r: int)
    ensures t <= r < t + 30 * MsPerMinute
    ensures MinuteOfHour(r, tz) == 0 || MinuteOfHour(r, tz) == 30
    ensures MinuteOfHour(t, tz) == 0 || MinuteOfHour(t, tz) == 30 ==> r == t
    ensures !(MinuteOfHour(t, tz) == 0 || MinuteOfHour(t, tz) == 30) ==> (r + tz) % MsPerMinute == 0
    // below :30 the result is :30 of the same hour, above it :00 of the next hour
    ensures 0 < MinuteOfHour(t, tz) < 30 ==>
      MinuteOfHour(r, tz) == 30 && LocalHourStart(r, tz) == LocalHourStart(t, tz)
    ensures MinuteOfHour(t, tz) > 30 ==>
      MinuteOfHour(r, tz) == 0 && LocalHourStart(r, tz) == LocalHourStart(t, tz) + MsPerHour
  {
    var m := MinuteOfHour(t, tz);
    var h := LocalHourStart(t, tz);
    var k := (h + tz) / MsPerHour;
    assert h + tz == k * MsPerHour;
    if m == 0 || m == 30 then t
    else if m < 30 then
      HourMultiplePlus(k, 30 * MsPerMinute);
      h + 30 * MsPerMinute
    else
      HourMultiplePlus(k + 1, 0);
      assert (h + MsPerHour + tz) == (k + 1) * MsPerHour;
      h + MsPerHour
  }

  /** Rounding a rounded time changes nothing. */
  lemma RoundUpIdempotent(t: int, tz: int)
    ensures RoundUpToHalfHour(RoundUpToHalfHour(t, tz), tz) == RoundUpToHalfHour(t, tz)
  {
  }

  // ---- game times ----

  /** calculateGameTimes */
  function CalculateGameTimes(st: ShabbatTimes, tz: int): (g: GameTimes)
    ensures g.wave2Opens == st.candleLighting - 60 * MsPerMinute
    ensures st.havdalah.InvalidDate? <==> g.deadline.InvalidDate?
    ensures g.deadline.InvalidDate? <==> g.kickoff.InvalidDate?
    ensures g.deadline.At? ==> g.deadline.ms == RoundUpToHalfHour(st.havdalah.ms + 60 * MsPerMinute, tz)
    ensures g.deadline.At? ==>
      st.havdalah.ms + 60 * MsPerMinute <= g.deadline.ms < st.havdalah.ms + 90 * MsPerMinute
      && g.kickoff.ms == g.deadline.ms - 15 * MsPerMinute
      && (MinuteOfHour(g.kickoff.ms, tz) == 15 || MinuteOfHour(g.kickoff.ms, tz) == 45)
  {
    var wave1 := LocalMidnight(UtcMidnight(st.date) - MsPerDay, tz) + 12 * MsPerHour;
    var wave2 := st.candleLighting - 60 * MsPerMinute;
    if st.havdalah.InvalidDate? then GameTimes(wave1, wave2, InvalidDate, InvalidDate)
    else
      var deadline := RoundUpToHalfHour(st.havdalah.ms + 60 * MsPerMinute, tz);
      KickoffMinute(deadline, tz);
      GameTimes(wave1, wave2, At(deadline), At(deadline - 15 * MsPerMinute))
  }

  /** Fifteen minutes before a time on :00 or :30 is a time on :45 or :15. */
  lemma KickoffMinute(d: int, tz: int)
    requires MinuteOfHour(d, tz) == 0 || MinuteOfHour(d, tz) == 30
    ensures MinuteOfHour(d - 15 * MsPerMinute, tz) == 15 || MinuteOfHour(d - 15 * MsPerMinute, tz) == 45
  {
    var x := (d + tz) % MsPerHour;
    var k := (d + tz) / MsPerHour;
    assert d + tz == k * MsPerHour + x;
    if x < 15 * MsPerMinute {
      HourMultiplePlus(k - 1, x + 45 * MsPerMinute);
      assert d - 15 * MsPerMinute + tz == (k - 1) * MsPerHour + (x + 45 * MsPerMinute);
    } else {
      HourMultiplePlus(k, x - 15 * MsPerMinute);
    }
  }

  /** For a zone up to a day east of UTC, wave 1 opens at 12:00 local time on the day before the Shabbat date. */
  lemma WaveOneOpensFridayNoon(st: ShabbatTimes, tz: int)
    requires 0 <= tz < MsPerDay
    ensures CalculateGameTimes(st, tz).wave1Opens + tz == (st.date - 1) * MsPerDay + 12 * MsPerHour
    ensures LocalDay(CalculateGameTimes(st, tz).wave1Opens, tz) == st.date - 1
  {
    assert UtcMidnight(st.date) - MsPerDay == UtcMidnight(st.date - 1);
    LocalMidnightOfUtcMidnight(st.date - 1, tz);
    DayMultiplePlus(st.date - 1, 12 * MsPerHour);
  }
}
