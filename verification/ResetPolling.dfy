/** A client's scheduled resets over a whole run of polls, as ResetTrafficBySchedule makes them. */
module ResetPolling {
  import opened MonthlyReset
  import opened Collections

  /** A poll reads the clock at `now` and finds the latest boundary. If the client is due, the traffic
      journal is flushed and the reset is written with a new reading of the clock; `written` tells
      that neither the flush nor that write fails (what fails after it leaves the record). */
  datatype Poll = Poll(boundary: int, now: int, recorded: int, written: bool)

  /** The reset day, the zone's offset, the initial record and the polls. */
  datatype Schedule = Schedule(resetDay: int, offset: int, first: int, polls: seq<Poll>)

  /** The polls are in the order of the clock, and each has found its boundary. */
  ghost predicate Ordered(s: Schedule) {
    && s.resetDay >= 1
    && (forall i :: 0 <= i < |s.polls| ==>
          && s.polls[i].now <= s.polls[i].recorded
          && Latest(s.resetDay, s.polls[i].now, s.offset) == Some(s.polls[i].boundary))
    && (forall i, j :: 0 <= i < j < |s.polls| ==> s.polls[i].recorded <= s.polls[j].now)
  }

  /** The last reset on record before poll `i`. */
  function LastReset(s: Schedule, i: nat): (t: int)
    requires i <= |s.polls|
    decreases i, 0
  {
    if i == 0 then s.first
    else if Fires(s, i - 1) then s.polls[i - 1].recorded
    else LastReset(s, i - 1)
  }

  /** The client is reset. */
  predicate Fires(s: Schedule, i: nat)
    requires i < |s.polls|
    decreases i, 1
  {
    s.polls[i].written && s.polls[i].boundary != ZERO && LastReset(s, i) < s.polls[i].boundary
  }

  /** It is if and only if ShouldReset decides so and the writes succeed. */
  lemma FiresAsDecided(s: Schedule, i: nat)
    requires Ordered(s) && i < |s.polls|
    ensures Fires(s, i) <==>
      s.polls[i].written && ShouldReset(LastReset(s, i), s.resetDay, s.polls[i].now, s.offset)
  {
    LatestAndNext(s.resetDay, s.polls[i].now, s.offset, 0);
  }

  /** What the lemmas below need of the calendar. */
  ghost predicate Chain(s: Schedule) {
    && (forall i :: 0 <= i < |s.polls| ==> s.polls[i].boundary <= s.polls[i].recorded)
    && (forall i, j :: 0 <= i <= j < |s.polls| ==>
          s.polls[i].boundary <= s.polls[j].boundary && s.polls[i].recorded <= s.polls[j].recorded)
  }

  lemma OrderedIsChain(s: Schedule)
    requires Ordered(s)
    ensures Chain(s)
  {
    forall i | 0 <= i < |s.polls| ensures s.polls[i].boundary <= s.polls[i].recorded {
      LatestAndNext(s.resetDay, s.polls[i].now, s.offset, 0);
    }
    forall i, j | 0 <= i <= j < |s.polls|
      ensures s.polls[i].boundary <= s.polls[j].boundary && s.polls[i].recorded <= s.polls[j].recorded
    {
      if i < j {
        assert s.polls[i].recorded <= s.polls[j].now;
        LatestMonotone(s.resetDay, s.polls[i].now, s.polls[j].now, s.offset);
      }
    }
  }

  /** The record before poll `j` is the initial one or the one of the latest firing. */
  lemma {:induction false} RecordOrigin(s: Schedule, j: nat) returns (i: int)
    requires j <= |s.polls|
    ensures -1 <= i < j
    ensures i == -1 ==> LastReset(s, j) == s.first
    ensures i >= 0 ==> Fires(s, i) && LastReset(s, j) == s.polls[i].recorded
  {
    if j == 0 {
      i := -1;
    } else if Fires(s, j - 1) {
      i := j - 1;
    } else {
      i := RecordOrigin(s, j - 1);
    }
  }

  /** After a firing the record never falls behind it again. */
  lemma {:induction false} RecordsStay(s: Schedule, i: nat, j: nat)
    requires Chain(s) && i < j <= |s.polls| && Fires(s, i)
    ensures LastReset(s, j) >= s.polls[i].recorded
    decreases j
  {
    if i < j - 1 {
      RecordsStay(s, i, j - 1);
    }
  }

  /** No period sees two resets. */
  lemma AtMostOncePerPeriod(s: Schedule, i: nat, j: nat)
    requires Ordered(s) && i < j < |s.polls| && Fires(s, i) && Fires(s, j)
    ensures s.polls[i].boundary < s.polls[j].boundary
  {
    OrderedIsChain(s);
    RecordsStay(s, i, j);
  }

  /** The period of poll `j` counts as reset although no poll in it fired: the initial record, or
      that of a reset begun in an earlier period, is not before its start. */
  ghost predicate Covered(s: Schedule, j: nat)
    requires j < |s.polls|
  {
    || s.first >= s.polls[j].boundary
    || exists i :: 0 <= i < j && Straddles(s, i, s.polls[j].boundary)
  }

  /** Poll `i` resets in a period before the boundary, and records it after. */
  predicate Straddles(s: Schedule, i: nat, boundary: int)
    requires i < |s.polls|
  {
    Fires(s, i) && s.polls[i].boundary < boundary <= s.polls[i].recorded
  }

  /** An initial record at or after a boundary holds back every poll up to its period. */
  lemma {:induction false} FirstHolds(s: Schedule, k: nat, b: int)
    requires Chain(s) && k < |s.polls| && s.polls[k].boundary <= b <= s.first
    ensures LastReset(s, k) >= b
    decreases k
  {
    if k > 0 {
      assert s.polls[k - 1].boundary <= s.polls[k].boundary;
      FirstHolds(s, k - 1, b);
    }
  }

  lemma CoveredHolds(s: Schedule, k: nat, j: nat)
    requires Chain(s) && k <= j < |s.polls| && s.polls[k].boundary == s.polls[j].boundary && Covered(s, j)
    ensures !Fires(s, k)
  {
    var b := s.polls[j].boundary;
    if s.first >= b {
      FirstHolds(s, k, b);
    } else {
      var i :| 0 <= i < j && Straddles(s, i, b);
      assert i < k;
      RecordsStay(s, i, k);
    }
  }

  /** At poll `k`, in the period of poll `j`, the writes of a reset succeed. */
  predicate Writable(s: Schedule, k: nat, j: nat)
    requires k < |s.polls| && j < |s.polls|
  {
    s.polls[k].written && s.polls[k].boundary == s.polls[j].boundary
  }

  lemma UncoveredFires(s: Schedule, k: nat, j: nat) returns (i: nat)
    requires Chain(s) && k <= j < |s.polls| && Writable(s, k, j) && s.polls[j].boundary != ZERO && !Covered(s, j)
    ensures i <= k && Fires(s, i) && s.polls[i].boundary == s.polls[j].boundary
  {
    if Fires(s, k) {
      i := k;
    } else {
      var o := RecordOrigin(s, k);
      i := o;
      assert s.polls[i].boundary <= s.polls[k].boundary;
      assert !Straddles(s, i, s.polls[j].boundary);
    }
  }

  /** A period that has been polled has seen its one reset, if and only if the writes of a reset
      succeeded at some poll in it and no earlier record covers it (the zero time aside). */
  lemma OncePerPolledPeriod(s: Schedule, j: nat)
    requires Ordered(s) && j < |s.polls| && s.polls[j].boundary != ZERO
    ensures (exists i :: 0 <= i <= j && Fires(s, i) && s.polls[i].boundary == s.polls[j].boundary) <==>
      !Covered(s, j) && exists k :: 0 <= k <= j && Writable(s, k, j)
  {
    OrderedIsChain(s);
    if Covered(s, j) {
      forall i | 0 <= i <= j && s.polls[i].boundary == s.polls[j].boundary ensures !Fires(s, i) {
        CoveredHolds(s, i, j);
      }
    } else {
      forall i | 0 <= i <= j && Fires(s, i) && s.polls[i].boundary == s.polls[j].boundary ensures Writable(s, i, j) {}
      if exists k :: 0 <= k <= j && Writable(s, k, j) {
        var k :| 0 <= k <= j && Writable(s, k, j);
        var i := UncoveredFires(s, k, j);
      }
    }
  }

  lemma Straddling(resetDay: int, offset: int, a: int, b: int) returns (s: Schedule)
    requires resetDay >= 1 && a < b && a != ZERO
    requires Latest(resetDay, b - 1, offset) == Some(a) && Latest(resetDay, b, offset) == Some(b)
    ensures Ordered(s) && |s.polls| == 2 && Fires(s, 0) && !Fires(s, 1) && s.polls[1].written
    ensures s.polls[0].boundary == a && s.polls[1].boundary == b
  {
    s := Schedule(resetDay, offset, a - 1, [Poll(a, b - 1, b, true), Poll(b, b, b, true)]);
  }

  /** A reset that begins in the last second of a period and is recorded in the next covers that one:
      the client then gets no reset there. */
  lemma StraddlingRun(resetDay: int, offset: int, m: int) returns (s: Schedule)
    requires 1 <= resetDay <= 31 && Boundary(resetDay, m, offset) != ZERO
    ensures Ordered(s) && |s.polls| == 2 && Fires(s, 0) && !Fires(s, 1) && s.polls[1].written
    ensures s.polls[0].boundary == Boundary(resetDay, m, offset)
    ensures s.polls[1].boundary == Boundary(resetDay, m + 1, offset)
  {
    var a, b := Boundary(resetDay, m, offset), Boundary(resetDay, m + 1, offset);
    BoundariesAscend(resetDay, m, m + 1, offset);
    BoundariesAscend(resetDay, m + 1, m + 2, offset);
    LatestIs(resetDay, b - 1, offset, m);
    LatestIs(resetDay, b, offset, m + 1);
    s := Straddling(resetDay, offset, a, b);
  }
}
