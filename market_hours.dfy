/** `src/utils/market_hours.py`: US trading days, the pre-market, regular
    and after-hours sessions, the market status, the next regular open and
    the countdown to it. Moments are already in New York time: a day
    number (`date.toordinal`) and the whole seconds since midnight. */
module MarketHours {
  import opened Wrappers
  import opened Text
  import opened Calendar

  const SecondsPerDay := 86400

  datatype Moment = Moment(day: nat, second: nat)

  predicate ValidMoment(m: Moment)
  {
    m.second < SecondsPerDay
  }

  /** Seconds since day 0, for comparing and subtracting moments. */
  function Timestamp(m: Moment): int
  {
    m.day * SecondsPerDay + m.second
  }

  const PremarketOpen := 4 * 3600
  const MarketOpen := 9 * 3600 + 30 * 60
  const MarketClose := 16 * 3600
  const AfterhoursClose := 20 * 3600

  /** US_MARKET_HOLIDAYS for 2025 and 2026, as day numbers in four runs of
      five; `HolidayDates` names the dates. */
  const FirstRun: set<nat> := {739252, 739271, 739299, 739359, 739397}
  const SecondRun: set<nat> := {739421, 739436, 739495, 739582, 739610}
  const ThirdRun: set<nat> := {739617, 739635, 739663, 739709, 739761}
  const FourthRun: set<nat> := {739786, 739800, 739866, 739946, 739975}
  const Holidays: set<nat> := FirstRun + SecondRun + ThirdRun + FourthRun

  /** The holidays are these dates. */
  lemma HolidayDates()
    ensures Holidays == {
      Ordinal(2025, 1, 1), Ordinal(2025, 1, 20), Ordinal(2025, 2, 17), Ordinal(2025, 4, 18),
      Ordinal(2025, 5, 26), Ordinal(2025, 6, 19), Ordinal(2025, 7, 4), Ordinal(2025, 9, 1),
      Ordinal(2025, 11, 27), Ordinal(2025, 12, 25),
      Ordinal(2026, 1, 1), Ordinal(2026, 1, 19), Ordinal(2026, 2, 16), Ordinal(2026, 4, 3),
      Ordinal(2026, 5, 25), Ordinal(2026, 6, 19), Ordinal(2026, 7, 3), Ordinal(2026, 9, 7),
      Ordinal(2026, 11, 26), Ordinal(2026, 12, 25)
    }
  {
    Ordinals2025();
    Ordinals2026();
  }

  /** The day numbers of the 2025 holidays. */
  lemma Ordinals2025()
    ensures Ordinal(2025, 1, 1) == 739252 && Ordinal(2025, 1, 20) == 739271 && Ordinal(2025, 2, 17) == 739299
    ensures Ordinal(2025, 4, 18) == 739359 && Ordinal(2025, 5, 26) == 739397 && Ordinal(2025, 6, 19) == 739421
    ensures Ordinal(2025, 7, 4) == 739436 && Ordinal(2025, 9, 1) == 739495 && Ordinal(2025, 11, 27) == 739582
    ensures Ordinal(2025, 12, 25) == 739610
  {
  }

  /** The day numbers of the 2026 holidays. */
  lemma Ordinals2026()
    ensures Ordinal(2026, 1, 1) == 739617 && Ordinal(2026, 1, 19) == 739635 && Ordinal(2026, 2, 16) == 739663
    ensures Ordinal(2026, 4, 3) == 739709 && Ordinal(2026, 5, 25) == 739761 && Ordinal(2026, 6, 19) == 739786
    ensures Ordinal(2026, 7, 3) == 739800 && Ordinal(2026, 9, 7) == 739866 && Ordinal(2026, 11, 26) == 739946
    ensures Ordinal(2026, 12, 25) == 739975
  {
  }

  /** `_is_trading_day`: Monday to Friday and not a holiday. */
  predicate IsTradingDay(day: nat)
  {
    Weekday(day) < 5 && day !in Holidays
  }

  /** Every listed holiday falls on a weekday, so the holiday list only
      ever closes a Monday to Friday, and the trading days are the weekdays
      minus exactly those twenty dates. */
  lemma HolidaysOnWeekdays(day: nat)
    ensures day in Holidays ==> Weekday(day) < 5
    ensures IsTradingDay(day) <==> Weekday(day) < 5 && day !in Holidays
    ensures Weekday(day) >= 5 ==> !IsTradingDay(day)
  {
  }

  /** The hour and minute a clock shows `second` seconds after midnight. */
  function Hour(second: nat): nat { second / 3600 }
  function Minute(second: nat): nat { second % 3600 / 60 }

  /** `is_market_open`: a trading day, from 9:30 until before 16:00. */
  predicate IsMarketOpen(m: Moment)
    ensures IsMarketOpen(m) <==>
              IsTradingDay(m.day) && (Hour(m.second) > 9 || (Hour(m.second) == 9 && Minute(m.second) >= 30))
              && Hour(m.second) < 16
  {
    IsTradingDay(m.day) && MarketOpen <= m.second < MarketClose
  }

  /** `is_premarket`: a trading day, from 4:00 until before 9:30. */
  predicate IsPremarket(m: Moment)
    ensures IsPremarket(m) <==>
              IsTradingDay(m.day) && Hour(m.second) >= 4
              && (Hour(m.second) < 9 || (Hour(m.second) == 9 && Minute(m.second) < 30))
  {
    IsTradingDay(m.day) && PremarketOpen <= m.second < MarketOpen
  }

  /** `is_afterhours`: a trading day, from 16:00 until before 20:00. */
  predicate IsAfterhours(m: Moment)
    ensures IsAfterhours(m) <==> IsTradingDay(m.day) && 16 <= Hour(m.second) < 20
  {
    IsTradingDay(m.day) && MarketClose <= m.second < AfterhoursClose
  }

  /** `is_extended_hours`: any of the three sessions, so a trading day
      from 4:00 until before 20:00. */
  predicate IsExtendedHours(m: Moment)
    ensures IsExtendedHours(m) <==> IsTradingDay(m.day) && 4 <= Hour(m.second) < 20
  {
    IsPremarket(m) || IsMarketOpen(m) || IsAfterhours(m)
  }

  /** At most one session holds at a time, and each needs a trading day. */
  lemma SessionsExclusive(m: Moment)
    ensures !(IsPremarket(m) && IsMarketOpen(m)) && !(IsMarketOpen(m) && IsAfterhours(m))
    ensures !(IsPremarket(m) && IsAfterhours(m))
    ensures IsExtendedHours(m) <==> IsTradingDay(m.day) && PremarketOpen <= m.second < AfterhoursClose
  {
  }

  datatype Status = PreMarket | Open | AfterHours | Closed

  /** The text `get_market_status` returns. */
  function StatusName(s: Status): string
  {
    match s
    case PreMarket => "Pre-Market"
    case Open => "Open"
    case AfterHours => "After-Hours"
    case Closed => "Closed"
  }

  /** `get_market_status`: pre-market, open and after-hours are checked in
      that order. */
  function MarketStatus(m: Moment): (s: Status)
    ensures s == PreMarket <==> IsPremarket(m)
    ensures s == Open <==> IsMarketOpen(m)
    ensures s == AfterHours <==> IsAfterhours(m)
    ensures s == Closed <==> !IsExtendedHours(m)
  {
    if IsPremarket(m) then PreMarket
    else if IsMarketOpen(m) then Open
    else if IsAfterhours(m) then AfterHours
    else Closed
  }

  /** A day that does not trade is always "Closed". */
  lemma NonTradingDayClosed(m: Moment)
    requires !IsTradingDay(m.day)
    ensures StatusName(MarketStatus(m)) == "Closed"
  {
  }

  /** The status names are distinct, so the status can be read back from
      its text. */
  lemma StatusNameInjective(a: Status, b: Status)
    ensures StatusName(a) == StatusName(b) ==> a == b
  {
    if a != b {
      assert StatusName(a)[0] != StatusName(b)[0] || |StatusName(a)| != |StatusName(b)|;
    }
  }

  /** The day the forward search of `get_next_market_open` stops at, with
      `day` the date being checked: the first trading day, or the first
      day past `start + 10`. */
  function SearchFrom(start: nat, day: nat): (d: nat)
    requires start < day <= start + 10
    ensures day <= d <= start + 11
    ensures forall k :: day <= k < d ==> !IsTradingDay(k)
    ensures IsTradingDay(d) || d == start + 11
    decreases start + 11 - day
  {
    if IsTradingDay(day) then day
    else if day + 1 > start + 10 then day + 1
    else SearchFrom(start, day + 1)
  }

  /** What `get_next_market_open` returns: today's 9:30 if today trades
      and it is not yet 9:30, otherwise 9:30 of the day the search stops
      at. */
  function NextMarketOpen(m: Moment): (r: Moment)
    ensures r.second == MarketOpen && m.day <= r.day <= m.day + 11
    ensures r.day == m.day <==> IsTradingDay(m.day) && m.second < MarketOpen
    ensures r.day > m.day ==> forall k :: m.day < k < r.day ==> !IsTradingDay(k)
    ensures IsTradingDay(r.day) || r.day == m.day + 11
  {
    if IsTradingDay(m.day) && m.second < MarketOpen then Moment(m.day, MarketOpen)
    else Moment(SearchFrom(m.day, m.day + 1), MarketOpen)
  }

  /** `get_next_market_open`. */
  method GetNextMarketOpen(m: Moment) returns (next: Moment)
    ensures next == NextMarketOpen(m)
  {
    var checkDate := m.day;
    if IsTradingDay(checkDate) {
      if m.second < MarketOpen {
        return Moment(checkDate, MarketOpen);
      }
    }
    checkDate := checkDate + 1;
    while !IsTradingDay(checkDate)
      invariant m.day < checkDate <= m.day + 10
      invariant SearchFrom(m.day, m.day + 1) == SearchFrom(m.day, checkDate)
      decreases m.day + 10 - checkDate
    {
      checkDate := checkDate + 1;
      if checkDate > m.day + 10 {
        break;
      }
    }
    next := Moment(checkDate, MarketOpen);
  }

  /** The next open is strictly after the moment it is computed from. */
  lemma NextOpenIsLater(m: Moment)
    requires ValidMoment(m)
    ensures Timestamp(NextMarketOpen(m)) > Timestamp(m)
  {
  }

  lemma RunNoConsecutive(run: set<nat>, day: nat)
    requires run == FirstRun || run == SecondRun || run == ThirdRun || run == FourthRun
    ensures !(day in run && day + 1 in run)
  {
  }

  /** No two holidays are on consecutive days. */
  lemma NoConsecutiveHolidays(day: nat)
    ensures !(day in Holidays && day + 1 in Holidays)
  {
    RunNoConsecutive(FirstRun, day);
    RunNoConsecutive(SecondRun, day);
    RunNoConsecutive(ThirdRun, day);
    RunNoConsecutive(FourthRun, day);
    assert forall h :: h in FirstRun ==> h <= 739397;
    assert forall h :: h in SecondRun ==> 739421 <= h <= 739610;
    assert forall h :: h in ThirdRun ==> 739617 <= h <= 739761;
    assert forall h :: h in FourthRun ==> 739786 <= h;
  }

  /** Within the next eight days there is a Monday followed by a Tuesday or
      preceded by a Sunday, so one of two adjacent weekdays trades. */
  lemma TradingDayWithin(start: nat)
    ensures exists k :: start + 1 <= k <= start + 8 && IsTradingDay(k)
  {
    var k := start + 1 + (7 - Weekday(start + 1)) % 7;
    assert Weekday(k) == 0;
    assert Weekday(k + 1) == 1;
    NoConsecutiveHolidays(k);
    if k in Holidays {
      assert IsTradingDay(k + 1);
    } else {
      assert IsTradingDay(k);
    }
  }

  /** With the holiday list as it is, the search always stops at a trading
      day, so the next open is a regular-session opening and the market is
      open at it. */
  lemma NextOpenIsOpen(m: Moment)
    ensures IsMarketOpen(NextMarketOpen(m))
  {
    if !(IsTradingDay(m.day) && m.second < MarketOpen) {
      TradingDayWithin(m.day);
      var k :| m.day + 1 <= k <= m.day + 8 && IsTradingDay(k);
      assert SearchFrom(m.day, m.day + 1) <= k;
    }
  }

  /** No regular session starts between a moment and its next open. */
  lemma NextOpenIsFirst(m: Moment, day: nat)
    requires ValidMoment(m)
    requires IsTradingDay(day)
    requires Timestamp(m) < Timestamp(Moment(day, MarketOpen))
    ensures Timestamp(NextMarketOpen(m)) <= Timestamp(Moment(day, MarketOpen))
  {
    if !(IsTradingDay(m.day) && m.second < MarketOpen) {
      assert day > m.day;
      if day <= m.day + 10 {
        assert SearchFrom(m.day, m.day + 1) <= day;
      } else {
        assert SearchFrom(m.day, m.day + 1) <= m.day + 11;
      }
    }
  }

  /** The shape of the countdown text of `time_until_market_open`. */
  datatype Countdown =
    | DaysHoursMinutes(days: nat, hours: nat, minutes: nat)
    | HoursMinutes(hours: nat, minutes: nat)
    | MinutesOnly(minutes: nat)

  function CountdownText(c: Countdown): string
  {
    match c
    case DaysHoursMinutes(d, h, mi) => NatToString(d) + "d " + NatToString(h) + "h " + NatToString(mi) + "m"
    case HoursMinutes(h, mi) => NatToString(h) + "h " + NatToString(mi) + "m"
    case MinutesOnly(mi) => NatToString(mi) + "m"
  }

  /** The number of seconds a countdown stands for, to the minute. */
  function CountdownSeconds(c: Countdown): nat
  {
    match c
    case DaysHoursMinutes(d, h, mi) => d * 86400 + h * 3600 + mi * 60
    case HoursMinutes(h, mi) => h * 3600 + mi * 60
    case MinutesOnly(mi) => mi * 60
  }

  /** Whole hours and minutes of `delta` seconds, with days split off only
      when there are more than 24 hours. */
  function CountdownOf(delta: nat): (c: Countdown)
    ensures CountdownSeconds(c) <= delta < CountdownSeconds(c) + 60
    ensures c.DaysHoursMinutes? <==> delta / 3600 > 24
    ensures c.MinutesOnly? <==> delta < 3600
    ensures c.minutes < 60 && (c.DaysHoursMinutes? ==> c.hours < 24)
  {
    var hours := delta / 3600;
    var minutes := delta % 3600 / 60;
    if hours > 24 then DaysHoursMinutes(hours / 24, hours % 24, minutes)
    else if hours > 0 then HoursMinutes(hours, minutes)
    else MinutesOnly(minutes)
  }

  /** `time_until_market_open`: None while the market is open, else the
      time to the next open. */
  function TimeUntilMarketOpen(m: Moment): (r: Option<string>)
    requires ValidMoment(m)
    ensures r.None? <==> IsMarketOpen(m)
    ensures r.Some? ==> r.value == CountdownText(CountdownOf(Timestamp(NextMarketOpen(m)) - Timestamp(m)))
  {
    if IsMarketOpen(m) then None
    else
      NextOpenIsLater(m);
      Some(CountdownText(CountdownOf(Timestamp(NextMarketOpen(m)) - Timestamp(m))))
  }

  /** Sunday 8 June 2025, 4:00 in New York (10:00 in Berlin): the market is
      closed and opens on Monday 9 June at 9:30. */
  lemma SundayOpensMonday()
    ensures var sunday := Moment(Ordinal(2025, 6, 8), 4 * 3600);
            Weekday(sunday.day) == 6 && MarketStatus(sunday) == Closed
            && NextMarketOpen(sunday) == Moment(Ordinal(2025, 6, 9), MarketOpen)
            && Weekday(NextMarketOpen(sunday).day) == 0
  {
    JuneOrdinals();
    SundayBeforeTradingMonday(739410);
  }

  lemma JuneOrdinals()
    ensures Ordinal(2025, 6, 8) == 739410 && Ordinal(2025, 6, 9) == 739411
  {
  }

  lemma SundayBeforeTradingMonday(day: nat)
    requires day == 739410
    ensures Weekday(day) == 6 && MarketStatus(Moment(day, 4 * 3600)) == Closed
    ensures NextMarketOpen(Moment(day, 4 * 3600)) == Moment(day + 1, MarketOpen) && Weekday(day + 1) == 0
  {
    assert Weekday(day) == 6;
    BetweenHolidays(day + 1);
    assert IsTradingDay(day + 1);
    assert SearchFrom(day, day + 1) == day + 1;
  }

  /** No holiday falls between 26 May and 19 June 2025. */
  lemma BetweenHolidays(d: nat)
    requires 739397 < d < 739421
    ensures d !in Holidays
  {
    assert d !in FirstRun;
    assert d !in SecondRun;
    assert d !in ThirdRun;
    assert d !in FourthRun;
  }
}
