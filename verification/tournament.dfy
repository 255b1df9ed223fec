/** Boss Rush tournament windows: tournaments run on the UTC weekdays Monday,
    Thursday and Saturday, midnight to midnight. Time is integer milliseconds
    since 1970-01-01T00:00Z; day numbers count UTC days since that instant. */
module Tournament {

  const DayMs: int := 86400000

  /** 0 = Sunday, 1 = Monday, ..., 6 = Saturday. */
  predicate IsTournamentDay(weekday: int)
  {
    weekday == 1 || weekday == 4 || weekday == 6
  }

  /** The UTC day a timestamp falls on (floor division, also before 1970). */
  function DayOf(t: int): int
  {
    t / DayMs
  }

  /** `getUTCDay()` of any instant of a day: 1970-01-01 was a Thursday. */
  function Weekday(day: int): (w: int)
    ensures 0 <= w < 7
  {
    (day + 4) % 7
  }

  /** `(currentDay - i + 7) % 7`: the weekday `i` days before `current`. */
  function BackDay(current: int, i: int): int
  {
    (current - i + 7) % 7
  }

  /** The backward scan over i = start..6 that stops at the first tournament
      day; when none is found the scan leaves `daysBack` at its initial 0. */
  function ScanBack(current: int, start: nat): (daysBack: nat)
    requires 0 <= current < 7
    requires start <= 7
    ensures (&& start <= daysBack < 7
             && IsTournamentDay(BackDay(current, daysBack))
             && forall j :: start <= j < daysBack ==> !IsTournamentDay(BackDay(current, j)))
         || (&& daysBack == 0
             && forall j :: start <= j < 7 ==> !IsTournamentDay(BackDay(current, j)))
    decreases 7 - start
  {
    if start == 7 then 0
    else if IsTournamentDay(BackDay(current, start)) then start
    else ScanBack(current, start + 1)
  }

  /** `x % 7` is the remainder of any decomposition `x == 7 * q + r` with `r` in 0..6. */
  lemma ModSevenUnique(x: int, q: int, r: int)
    requires x == 7 * q + r && 0 <= r < 7
    ensures x % 7 == r
  {
  }

  /** The weekday `j` days before a day is what the scan computes from that
      day's weekday. */
  lemma WeekdayBack(day: int, j: int)
    requires 0 <= j < 7
    ensures Weekday(day - j) == BackDay(Weekday(day), j)
  {
    var q := (day + 4) / 7;
    var w := (day + 4) % 7;
    var m := w - j + 7;
    if m < 7 {
      ModSevenUnique(day - j + 4, q - 1, m);
      ModSevenUnique(m, 0, m);
    } else {
      ModSevenUnique(day - j + 4, q, m - 7);
      ModSevenUnique(m, 1, m - 7);
    }
  }

  /** From any weekday the scan stops within two days, at a tournament day,
      with none before it: the schedule leaves no gap longer than two days. */
  lemma ScanStopsWithinTwo(w: int)
    requires 0 <= w < 7
    ensures ScanBack(w, 0) <= 2
    ensures IsTournamentDay(BackDay(w, ScanBack(w, 0)))
    ensures forall j :: 0 <= j < ScanBack(w, 0) ==> !IsTournamentDay(BackDay(w, j))
  {
    if w == 0 {
      assert IsTournamentDay(BackDay(w, 1));
    } else if w == 2 {
      assert IsTournamentDay(BackDay(w, 1));
    } else if w == 3 {
      assert IsTournamentDay(BackDay(w, 2));
    } else if w == 5 {
      assert IsTournamentDay(BackDay(w, 1));
    } else {
      assert IsTournamentDay(BackDay(w, 0));
    }
  }

  /** What the backward scan from today finds, in day numbers. */
  lemma DaysBackFacts(today: int)
    ensures ScanBack(Weekday(today), 0) <= 2
    ensures IsTournamentDay(Weekday(today - ScanBack(Weekday(today), 0)))
    ensures forall d :: today - ScanBack(Weekday(today), 0) < d <= today ==> !IsTournamentDay(Weekday(d))
  {
    var w := Weekday(today);
    var daysBack := ScanBack(w, 0);
    ScanStopsWithinTwo(w);
    WeekdayBack(today, daysBack);
    forall d | today - daysBack < d <= today
      ensures !IsTournamentDay(Weekday(d))
    {
      var j := today - d;
      WeekdayBack(today, j);
      assert today - j == d;
      assert !IsTournamentDay(BackDay(w, j));
    }
  }

  /** The number of days back to the most recent tournament day (today counts). */
  function DaysBack(now: int): (daysBack: nat)
    ensures daysBack <= 2
    ensures IsTournamentDay(Weekday(DayOf(now) - daysBack))
    ensures forall d :: DayOf(now) - daysBack < d <= DayOf(now) ==> !IsTournamentDay(Weekday(d))
  {
    DaysBackFacts(DayOf(now));
    ScanBack(Weekday(DayOf(now)), 0)
  }

  /** `getLastTournamentStartTime()`: UTC midnight of the most recent tournament
      day, today included. */
  function LastTournamentStartTime(now: int): (start: int)
    ensures start % DayMs == 0
    ensures start <= now < start + 3 * DayMs
    ensures IsTournamentDay(Weekday(DayOf(start)))
    ensures forall d :: DayOf(start) < d <= DayOf(now) ==> !IsTournamentDay(Weekday(d))
  {
    var daysBack := DaysBack(now);
    var start := (DayOf(now) - daysBack) * DayMs;
    assert DayOf(start) == DayOf(now) - daysBack;
    start
  }

  /** `isTournamentActive()`: today's UTC weekday is a tournament day. */
  function IsTournamentActive(now: int): bool
  {
    IsTournamentDay(Weekday(DayOf(now)))
  }

  /** A tournament is active exactly when the backward scan stops at today,
      that is, when the window started at today's midnight. */
  lemma ActiveIffWindowStartsToday(now: int)
    ensures IsTournamentActive(now) <==> DaysBack(now) == 0
    ensures IsTournamentActive(now) <==> LastTournamentStartTime(now) == DayOf(now) * DayMs
  {
  }

  /** The window start is the LATEST tournament midnight not after `now`: any
      tournament midnight not after `now` is no later than it. */
  lemma WindowStartIsLatest(now: int, day: int)
    requires IsTournamentDay(Weekday(day))
    requires day <= DayOf(now)
    ensures day <= DayOf(LastTournamentStartTime(now))
  {
  }

  /** Two instants see the same window start whenever the later one's window had
      already begun at the earlier one. */
  lemma WindowStartStable(t1: int, t2: int)
    requires t1 <= t2
    requires LastTournamentStartTime(t2) <= t1
    ensures LastTournamentStartTime(t1) == LastTournamentStartTime(t2)
  {
    var s1, s2 := LastTournamentStartTime(t1), LastTournamentStartTime(t2);
    assert DayOf(s2) <= DayOf(t1);
    assert DayOf(t1) <= DayOf(t2);
    WindowStartIsLatest(t1, DayOf(s2));
    WindowStartIsLatest(t2, DayOf(s1));
  }

  /** Window starts never move backwards in time. */
  lemma WindowStartMonotone(t1: int, t2: int)
    requires t1 <= t2
    ensures LastTournamentStartTime(t1) <= LastTournamentStartTime(t2)
  {
    assert DayOf(t1) <= DayOf(t2);
    WindowStartIsLatest(t2, DayOf(LastTournamentStartTime(t1)));
  }
}
