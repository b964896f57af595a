/** Monthly traffic resets. Instants are Unix seconds; the panel's zone has a fixed offset. Months
    are numbered from January of year 0, so that month 12 * y + k is month k (from 0) of year y, and
    the month before a January is the December before it. */
module MonthlyReset {
  import opened Collections

  const DAY: int := 86400

  // ---------------------------------------------------------------------------------------
  // The calendar
  // ---------------------------------------------------------------------------------------

  predicate Leap(year: int) { year % 4 == 0 && (year % 100 != 0 || year % 400 == 0) }

  function DaysInMonth(month: int): (n: int)
    ensures 28 <= n <= 31
  {
    var k := month % 12;
    if k == 1 then (if Leap(month / 12) then 29 else 28)
    else if k == 3 || k == 5 || k == 8 || k == 10 then 30
    else 31
  }

  /** January 1970. */
  const EPOCH: int := 12 * 1970

  /** Days from 1 January 1970 to the first of the month: each month starts where the one before
      ends. */
  function MonthStart(month: int): (d: int)
    decreases if month < EPOCH then EPOCH - month else month - EPOCH
  {
    if month == EPOCH then 0
    else if month > EPOCH then MonthStart(month - 1) + DaysInMonth(month - 1)
    else MonthStart(month + 1) - DaysInMonth(month)
  }

  lemma MonthLength(month: int)
    ensures MonthStart(month + 1) == MonthStart(month) + DaysInMonth(month)
  {
  }

  lemma {:induction false} MonthsAscend(m: int, n: int)
    requires m < n
    ensures MonthStart(m) + DaysInMonth(m) <= MonthStart(n)
    decreases n - m
  {
    MonthLength(n - 1);
    if m < n - 1 {
      MonthsAscend(m, n - 1);
    }
  }

  predicate InMonth(day: int, month: int) { MonthStart(month) <= day < MonthStart(month) + DaysInMonth(month) }

  /** The month a day (counted from 1 January 1970) lies in. */
  function MonthOf(day: int): (month: int)
    ensures InMonth(day, month)
  {
    FindMonth(day, EPOCH)
  }

  function FindMonth(day: int, month: int): (r: int)
    ensures InMonth(day, r)
    decreases if day < MonthStart(month) then MonthStart(month) - day + 31 else day - MonthStart(month)
  {
    MonthLength(month);
    MonthLength(month - 1);
    if InMonth(day, month) then month
    else if day < MonthStart(month) then FindMonth(day, month - 1)
    else FindMonth(day, month + 1)
  }

  /** Days from 1 January 1970 to 1 January of the year, by the leap year rule alone. */
  function YearStart(year: int): (d: int) {
    365 * year + (year + 3) / 4 - (year + 99) / 100 + (year + 399) / 400 - 719528
  }

  lemma CeilingStep(year: int, n: int)
    requires n == 4 || n == 100 || n == 400
    ensures (year + n) / n - (year + n - 1) / n == if year % n == 0 then 1 else 0
  {
  }

  lemma Multiples(year: int)
    ensures year % 400 == 0 ==> year % 100 == 0
    ensures year % 100 == 0 ==> year % 4 == 0
  {
  }

  lemma YearLength(year: int)
    ensures YearStart(year + 1) == YearStart(year) + if Leap(year) then 366 else 365
  {
    CeilingStep(year, 4);
    CeilingStep(year, 100);
    CeilingStep(year, 400);
    Multiples(year);
  }

  lemma MonthOfYear(year: int, k: int)
    requires 0 <= k < 12
    ensures (12 * year + k) / 12 == year && (12 * year + k) % 12 == k
    ensures MonthStart(12 * year + k + 1) == MonthStart(12 * year + k) + DaysInMonth(12 * year + k)
  {
    MonthLength(12 * year + k);
  }

  lemma HalfYear(year: int, k: int)
    requires k == 0 || k == 6
    ensures MonthStart(12 * year + k + 6) - MonthStart(12 * year + k)
      == if k == 0 then (if Leap(year) then 182 else 181) else 184
  {
    MonthOfYear(year, k);
    MonthOfYear(year, k + 1);
    MonthOfYear(year, k + 2);
    MonthOfYear(year, k + 3);
    MonthOfYear(year, k + 4);
    MonthOfYear(year, k + 5);
  }

  /** Every first of January is where the Gregorian rule puts it. */
  lemma {:induction false} JanuaryStarts(year: int)
    ensures MonthStart(12 * year) == YearStart(year)
    decreases if year < 1970 then 1970 - year else year - 1970
  {
    if year > 1970 {
      JanuaryStarts(year - 1);
      HalfYear(year - 1, 0);
      HalfYear(year - 1, 6);
      YearLength(year - 1);
    } else if year < 1970 {
      JanuaryStarts(year + 1);
      HalfYear(year, 0);
      HalfYear(year, 6);
      YearLength(year);
    }
  }

  // ---------------------------------------------------------------------------------------
  // Reset boundaries
  // ---------------------------------------------------------------------------------------

  /** normalizeClientResetDay. */
  function Normalize(resetDay: int): (r: int) {
    if resetDay < 0 then 0 else if resetDay > 31 then 31 else resetDay
  }

  /** The reset instant of a month: midnight of the reset day, or of the last day in a short month. */
  function Boundary(resetDay: int, month: int, offset: int): (t: int) {
    var last := DaysInMonth(month);
    (MonthStart(month) + (if resetDay > last then last else resetDay) - 1) * DAY - offset
  }

  function MonthAt(now: int, offset: int): (month: int) { MonthOf((now + offset) / DAY) }

  function Latest(resetDay: int, now: int, offset: int): (r: Option<int>) {
    var day := Normalize(resetDay);
    if day <= 0 then None
    else
      var month := MonthAt(now, offset);
      if now >= Boundary(day, month, offset) then Some(Boundary(day, month, offset))
      else Some(Boundary(day, month - 1, offset))
  }

  function Next(resetDay: int, now: int, offset: int): (r: Option<int>) {
    var day := Normalize(resetDay);
    if day <= 0 then None
    else
      var month := MonthAt(now, offset);
      if now < Boundary(day, month, offset) then Some(Boundary(day, month, offset))
      else Some(Boundary(day, month + 1, offset))
  }

  lemma {:induction false} BoundariesAscend(resetDay: int, m: int, n: int, offset: int)
    requires 1 <= resetDay <= 31 && m < n
    ensures Boundary(resetDay, m, offset) + DAY <= Boundary(resetDay, n, offset)
  {
    MonthsAscend(m, n);
  }

  /** A boundary lies inside its month. */
  lemma BoundaryInMonth(resetDay: int, m: int, offset: int)
    requires 1 <= resetDay <= 31
    ensures MonthStart(m) * DAY <= Boundary(resetDay, m, offset) + offset < (MonthStart(m) + DaysInMonth(m)) * DAY
  {
  }

  /** The month at an instant starts at or before it and ends after it. */
  lemma NowInMonth(now: int, offset: int)
    ensures var m := MonthAt(now, offset);
      MonthStart(m) * DAY <= now + offset < (MonthStart(m) + DaysInMonth(m)) * DAY
  {
    assert InMonth((now + offset) / DAY, MonthAt(now, offset));
  }

  /** The boundaries around an instant belong to consecutive months. */
  lemma Around(resetDay: int, now: int, offset: int) returns (m: int)
    requires resetDay >= 1
    ensures Latest(resetDay, now, offset) == Some(Boundary(Normalize(resetDay), m, offset))
    ensures Next(resetDay, now, offset) == Some(Boundary(Normalize(resetDay), m + 1, offset))
    ensures Boundary(Normalize(resetDay), m, offset) <= now < Boundary(Normalize(resetDay), m + 1, offset)
  {
    var day, here := Normalize(resetDay), MonthAt(now, offset);
    NowInMonth(now, offset);
    if now >= Boundary(day, here, offset) {
      m := here;
      MonthLength(here);
      BoundaryInMonth(day, here + 1, offset);
    } else {
      m := here - 1;
      MonthLength(here - 1);
      BoundaryInMonth(day, here - 1, offset);
    }
  }

  /** For every instant and reset day: latest <= now < next, and the boundary of every month lies at
      or before the one or at or after the other. */
  lemma LatestAndNext(resetDay: int, now: int, offset: int, month: int)
    requires resetDay >= 1
    ensures Latest(resetDay, now, offset).Some? && Next(resetDay, now, offset).Some?
    ensures Latest(resetDay, now, offset).value <= now < Next(resetDay, now, offset).value
    ensures Boundary(Normalize(resetDay), month, offset) <= Latest(resetDay, now, offset).value
      || Next(resetDay, now, offset).value <= Boundary(Normalize(resetDay), month, offset)
  {
    var m := Around(resetDay, now, offset);
    if month < m {
      BoundariesAscend(Normalize(resetDay), month, m, offset);
    } else if month > m + 1 {
      BoundariesAscend(Normalize(resetDay), m + 1, month, offset);
    }
  }

  /** The latest boundary is the one of the month whose period the instant lies in. */
  lemma LatestIs(resetDay: int, now: int, offset: int, m: int)
    requires 1 <= resetDay <= 31 && Boundary(resetDay, m, offset) <= now < Boundary(resetDay, m + 1, offset)
    ensures Latest(resetDay, now, offset) == Some(Boundary(resetDay, m, offset))
  {
    LatestAndNext(resetDay, now, offset, m);
    LatestAndNext(resetDay, now, offset, m + 1);
    var k := Around(resetDay, now, offset);
    if k < m {
      BoundariesAscend(resetDay, k, m, offset);
    } else if m < k {
      BoundariesAscend(resetDay, m, k, offset);
      if m + 1 < k {
        BoundariesAscend(resetDay, m + 1, k, offset);
      }
    }
  }

  /** The day of the month at an instant, from one. */
  function DayOfMonth(t: int, offset: int): (d: int) {
    (t + offset) / DAY - MonthStart(MonthAt(t, offset)) + 1
  }

  lemma MonthIsUnique(day: int, m: int)
    requires InMonth(day, m)
    ensures MonthOf(day) == m
  {
    var n := MonthOf(day);
    if n < m {
      MonthsAscend(n, m);
    } else if m < n {
      MonthsAscend(m, n);
    }
  }

  /** A boundary is midnight of the reset day, or of the month's last day if the month is shorter. */
  lemma BoundaryIsResetDay(resetDay: int, m: int, offset: int)
    requires 1 <= resetDay <= 31
    ensures var b := Boundary(resetDay, m, offset);
      && MonthAt(b, offset) == m && (b + offset) % DAY == 0
      && DayOfMonth(b, offset) == if resetDay <= DaysInMonth(m) then resetDay else DaysInMonth(m)
  {
    var last := DaysInMonth(m);
    var day := MonthStart(m) + (if resetDay > last then last else resetDay) - 1;
    assert Boundary(resetDay, m, offset) + offset == day * DAY;
    assert (day * DAY) / DAY == day && (day * DAY) % DAY == 0;
    MonthIsUnique(day, m);
  }

  /** The instant is midnight of the reset day of its month, or of the last day of a shorter month. */
  predicate OnResetDay(t: int, resetDay: int, offset: int) {
    var last := DaysInMonth(MonthAt(t, offset));
    (t + offset) % DAY == 0 && DayOfMonth(t, offset) == if resetDay <= last then resetDay else last
  }

  lemma NormalDay(t: int, resetDay: int, offset: int)
    requires resetDay >= 1 && OnResetDay(t, Normalize(resetDay), offset)
    ensures OnResetDay(t, resetDay, offset)
  {
  }

  /** For every instant, both the latest and the next boundary are such instants. */
  lemma BoundariesOnResetDay(resetDay: int, now: int, offset: int)
    requires resetDay >= 1
    ensures Latest(resetDay, now, offset).Some? && OnResetDay(Latest(resetDay, now, offset).value, resetDay, offset)
    ensures Next(resetDay, now, offset).Some? && OnResetDay(Next(resetDay, now, offset).value, resetDay, offset)
  {
    var day := Normalize(resetDay);
    var m := Around(resetDay, now, offset);
    BoundaryIsResetDay(day, m, offset);
    BoundaryIsResetDay(day, m + 1, offset);
    NormalDay(Boundary(day, m, offset), resetDay, offset);
    NormalDay(Boundary(day, m + 1, offset), resetDay, offset);
  }

  /** A later instant has the same boundary or a later one. */
  lemma LatestMonotone(resetDay: int, now: int, later: int, offset: int)
    requires resetDay >= 1 && now <= later
    ensures Latest(resetDay, now, offset).value <= Latest(resetDay, later, offset).value
  {
    var m := Around(resetDay, now, offset);
    LatestAndNext(resetDay, later, offset, m);
  }

  /** The instant of the zero time.Time, 1 January of year 1 in UTC. */
  const ZERO: int := -62135596800

  predicate ShouldReset(lastReset: int, resetDay: int, now: int, offset: int) {
    match Latest(resetDay, now, offset)
    case None => false
    case Some(boundary) => boundary != ZERO && lastReset < boundary && now >= boundary
  }

  /** Without a reset day there is no boundary and no reset. */
  lemma NoResetDay(lastReset: int, resetDay: int, now: int, offset: int)
    requires resetDay <= 0
    ensures Latest(resetDay, now, offset) == None && Next(resetDay, now, offset) == None
    ensures !ShouldReset(lastReset, resetDay, now, offset)
  {
  }

  /** A reset is due exactly when there is a month whose boundary has come since the last one (the
      zero time aside). */
  lemma DueExactly(lastReset: int, resetDay: int, now: int, offset: int)
    requires resetDay >= 1 && Latest(resetDay, now, offset) != Some(ZERO)
    ensures ShouldReset(lastReset, resetDay, now, offset)
      <==> exists m :: lastReset < Boundary(Normalize(resetDay), m, offset) <= now
  {
    var m := Around(resetDay, now, offset);
    if exists k :: lastReset < Boundary(Normalize(resetDay), k, offset) <= now {
      var k :| lastReset < Boundary(Normalize(resetDay), k, offset) <= now;
      LatestAndNext(resetDay, now, offset, k);
    }
  }
}
