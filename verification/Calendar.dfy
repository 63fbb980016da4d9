/** Instants as numbers: the nanoseconds of the Gregorian calendar since the start of year 0. */
module Calendar {
  import opened Cursor

  function DaysBeforeYear(year: nat): nat {
    if year == 0 then 0 else DaysBeforeYear(year - 1) + YearLength(year - 1)
  }

  function YearLength(year: nat): nat {
    if Leap(year) then 366 else 365
  }

  function DaysBeforeMonth(year: nat, month: nat): nat {
    if month <= 1 then 0 else DaysBeforeMonth(year, month - 1) + DaysIn(year, month - 1)
  }

  function DayNumber(t: Instant): int {
    DaysBeforeYear(t.year) + DaysBeforeMonth(t.year, t.month) + (t.day - 1)
  }

  function SecondOfDay(t: Instant): nat {
    (t.hour * 60 + t.minute) * 60 + t.second
  }

  function Nanos(t: Instant): int {
    (DayNumber(t) * 86400 + SecondOfDay(t)) * 1_000_000_000 + t.nanos
  }

  lemma {:induction false} YearsAscend(a: nat, b: nat)
    requires a < b
    ensures DaysBeforeYear(a) + YearLength(a) <= DaysBeforeYear(b)
  {
    if a + 1 < b {
      YearsAscend(a, b - 1);
    }
  }

  lemma {:induction false} MonthsAscend(year: nat, a: nat, b: nat)
    requires 1 <= a < b
    ensures DaysBeforeMonth(year, a) + DaysIn(year, a) <= DaysBeforeMonth(year, b)
  {
    if a + 1 < b {
      MonthsAscend(year, a, b - 1);
    }
  }

  lemma TwelveMonths(year: nat)
    ensures DaysBeforeMonth(year, 13) == YearLength(year)
  {
    assert DaysBeforeMonth(year, 1) == 0 && DaysBeforeMonth(year, 2) == 31;
    assert DaysBeforeMonth(year, 3) == 31 + DaysIn(year, 2);
    assert DaysBeforeMonth(year, 4) == DaysBeforeMonth(year, 3) + 31;
    assert DaysBeforeMonth(year, 5) == DaysBeforeMonth(year, 4) + 30;
    assert DaysBeforeMonth(year, 7) == DaysBeforeMonth(year, 5) + 61;
    assert DaysBeforeMonth(year, 9) == DaysBeforeMonth(year, 7) + 62;
    assert DaysBeforeMonth(year, 11) == DaysBeforeMonth(year, 9) + 61;
    assert DaysBeforeMonth(year, 13) == DaysBeforeMonth(year, 11) + 61;
  }

  /** A later day has a larger number. */
  lemma DaysAscend(a: Instant, b: Instant)
    requires ValidInstant(a) && ValidInstant(b)
    requires a.year < b.year || (a.year == b.year && (a.month < b.month || (a.month == b.month && a.day < b.day)))
    ensures DayNumber(a) < DayNumber(b)
  {
    hide DaysIn, YearLength;
    if a.year < b.year {
      YearsAscend(a.year, b.year);
      MonthsAscend(a.year, a.month, 13);
      TwelveMonths(a.year);
    } else if a.month < b.month {
      MonthsAscend(a.year, a.month, b.month);
    }
  }

  /** The order of the fields is the order of the instants. */
  lemma NanosAscend(a: Instant, b: Instant)
    requires ValidInstant(a) && ValidInstant(b) && Earlier(a, b)
    ensures Nanos(a) < Nanos(b)
  {
    hide DaysBeforeYear, DaysBeforeMonth, DaysIn;
    if (a.year, a.month, a.day) != (b.year, b.month, b.day) {
      DaysAscend(a, b);
    }
  }

  lemma EarlierIff(a: Instant, b: Instant)
    requires ValidInstant(a) && ValidInstant(b)
    ensures Earlier(a, b) <==> Nanos(a) < Nanos(b)
    ensures a == b <==> Nanos(a) == Nanos(b)
  {
    hide Nanos, DaysIn;
    if Earlier(a, b) {
      NanosAscend(a, b);
    } else if a != b {
      NanosAscend(b, a);
    }
  }
}
