/**
 * US market-hours check, on a date and time already converted to
 * America/New_York. Holidays are not considered.
 */
module MarketHours {

  /** A wall-clock time of day, as Python's `datetime.time`. */
  datatype Time = Time(hour: nat, minute: nat, second: nat, microsecond: nat)

  predicate ValidTime(t: Time)
  {
    t.hour < 24 && t.minute < 60 && t.second < 60 && t.microsecond < 1_000_000
  }

  /** A weekday as `datetime.weekday()` numbers it: Monday 0 to Sunday 6. */
  type Weekday = d: nat | d <= 6

  const MarketOpen := Time(9, 30, 0, 0)
  const MarketClose := Time(16, 0, 0, 0)

  /** `time` ordering: lexicographic on hour, minute, second, microsecond. */
  predicate Before(a: Time, b: Time)
  {
    a.hour < b.hour
    || (a.hour == b.hour && (a.minute < b.minute
    || (a.minute == b.minute && (a.second < b.second
    || (a.second == b.second && a.microsecond < b.microsecond)))))
  }

  /** `is_market_open`: a weekday, at or after 9:30 and strictly before 16:00. */
  predicate IsMarketOpen(weekday: Weekday, t: Time)
  {
    if weekday > 4 then false
    else !Before(t, MarketOpen) && Before(t, MarketClose)
  }

  /** Microseconds since midnight. */
  function Micros(t: Time): nat
  {
    ((t.hour * 60 + t.minute) * 60 + t.second) * 1_000_000 + t.microsecond
  }

  /** On valid times the lexicographic order is the order of elapsed microseconds. */
  lemma BeforeIsMicrosOrder(a: Time, b: Time)
    requires ValidTime(a) && ValidTime(b)
    ensures Before(a, b) <==> Micros(a) < Micros(b)
  {
    var sa := (a.hour * 60 + a.minute) * 60 + a.second;
    var sb := (b.hour * 60 + b.minute) * 60 + b.second;
    assert Micros(a) == sa * 1_000_000 + a.microsecond;
    assert Micros(b) == sb * 1_000_000 + b.microsecond;
    SecondsOrder(a, b);
    if sa < sb {
      assert Micros(a) < (sa + 1) * 1_000_000 <= sb * 1_000_000 <= Micros(b);
    } else if sa > sb {
      assert Micros(b) < (sb + 1) * 1_000_000 <= sa * 1_000_000 <= Micros(a);
    }
  }

  /** Whole seconds since midnight, compared lexicographically. */
  lemma SecondsOrder(a: Time, b: Time)
    requires ValidTime(a) && ValidTime(b)
    ensures var sa := (a.hour * 60 + a.minute) * 60 + a.second;
            var sb := (b.hour * 60 + b.minute) * 60 + b.second;
            (sa < sb <==> (a.hour < b.hour || (a.hour == b.hour && (a.minute < b.minute
                            || (a.minute == b.minute && a.second < b.second)))))
            && (sa == sb <==> (a.hour == b.hour && a.minute == b.minute && a.second == b.second))
  {
    var ma := a.hour * 60 + a.minute;
    var mb := b.hour * 60 + b.minute;
    if a.hour < b.hour {
      assert ma < (a.hour + 1) * 60 <= mb;
    } else if a.hour > b.hour {
      assert mb < (b.hour + 1) * 60 <= ma;
    }
    assert ma < mb <==> (a.hour < b.hour || (a.hour == b.hour && a.minute < b.minute));
    assert ma == mb <==> (a.hour == b.hour && a.minute == b.minute);
    if ma < mb {
      assert ma * 60 + a.second < (ma + 1) * 60 <= mb * 60;
    } else if ma > mb {
      assert mb * 60 + b.second < (mb + 1) * 60 <= ma * 60;
    }
  }

  /** The session is the half-open interval [9:30, 16:00) of weekdays Monday to Friday. */
  lemma OpenIffSession(weekday: Weekday, t: Time)
    requires ValidTime(t)
    ensures IsMarketOpen(weekday, t) <==> weekday <= 4 && 34_200_000_000 <= Micros(t) < 57_600_000_000
  {
    BeforeIsMicrosOrder(t, MarketOpen);
    BeforeIsMicrosOrder(t, MarketClose);
  }

  /** Saturday and Sunday are closed at every time. */
  lemma WeekendClosed(weekday: Weekday, t: Time)
    requires weekday >= 5
    ensures !IsMarketOpen(weekday, t)
  {
  }

  /** The boundary cases of a Wednesday session, and a Saturday noon. */
  lemma SessionBoundaries()
    ensures IsMarketOpen(2, Time(12, 0, 0, 0))
    ensures !IsMarketOpen(5, Time(12, 0, 0, 0))
    ensures !IsMarketOpen(2, Time(9, 29, 0, 0))
    ensures IsMarketOpen(2, Time(9, 30, 0, 0))
    ensures !IsMarketOpen(2, Time(16, 0, 0, 0))
    ensures IsMarketOpen(2, Time(15, 59, 0, 0))
    ensures IsMarketOpen(2, Time(15, 59, 59, 999_999))
  {
  }
}
