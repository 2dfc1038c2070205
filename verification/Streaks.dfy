/** The two streak algorithms of the backend: `computeStreak` walks backwards through a set of
    dates (quiz/reports.go:322-343), `loadStreak` scans a descending list of them
    (careergoals/goals.go:257-300). Days are numbered. */
module Streaks {

  type Day = int

  /** The run of consecutive days ending at `end` has length n. */
  ghost predicate IsRun(dates: set<Day>, end: Day, n: nat) {
    && (forall d :: end - n < d <= end ==> d in dates)
    && end - n !in dates
  }

  /** The reference: the run ending today, or yesterday when today has no entry. */
  ghost predicate IsStreak(dates: set<Day>, today: Day, n: nat) {
    IsRun(dates, if today in dates then today else today - 1, n)
  }

  /** A run is the longest block of consecutive days with that end. */
  lemma RunIsLongest(dates: set<Day>, end: Day, n: nat, m: nat)
    requires IsRun(dates, end, n) && forall d :: end - m < d <= end ==> d in dates
    ensures m <= n
  {
  }

  lemma StreakIsUnique(dates: set<Day>, today: Day, n: nat, m: nat)
    requires IsStreak(dates, today, n) && IsStreak(dates, today, m)
    ensures n == m
  {
  }

  /** The walk stops because each step uses up one of the finitely many dates. */
  method ComputeStreak(dates: set<Day>, today: Day) returns (streak: nat)
    ensures IsStreak(dates, today, streak)
  {
    if |dates| == 0 { return 0; }
    var day := today;
    if day !in dates {
      day := day - 1;
      if day !in dates { return 0; }
    }
    streak := 0;
    ghost var end, left := day, dates;
    while day in dates
      invariant end == (if today in dates then today else today - 1)
      invariant day == end - streak
      invariant forall d :: day < d <= end ==> d in dates
      invariant forall d :: d in dates && d <= day ==> d in left
      decreases |left|
    {
      left := left - {day};
      streak := streak + 1;
      day := day - 1;
    }
  }

  /** The rows of the query: distinct dates, latest first. */
  ghost predicate Descending(dates: seq<Day>) {
    forall i, j :: 0 <= i < j < |dates| ==> dates[i] > dates[j]
  }

  ghost function DatesOf(dates: seq<Day>): (r: set<Day>)
    ensures forall d :: d in r <==> d in dates
  {
    set d | d in dates
  }

  lemma BelowIsNotListed(dates: seq<Day>, i: nat)
    requires Descending(dates) && 0 < i <= |dates|
    requires i == |dates| || dates[i] != dates[i - 1] - 1
    ensures dates[i - 1] - 1 !in dates
  {
    forall k | 0 <= k < |dates|
      ensures dates[k] != dates[i - 1] - 1
    {
      if k < i - 1 {
        assert dates[k] > dates[i - 1];
      } else if k > i {
        assert dates[k] < dates[i];
      }
    }
  }

  ghost predicate IsListStreak(dates: seq<Day>, today: Day, n: nat) {
    if dates == [] || dates[0] < today - 1 then n == 0 else IsRun(DatesOf(dates), dates[0], n)
  }

  /** Counts the run ending at the latest date, unless that is before yesterday. */
  method LoadStreak(dates: seq<Day>, today: Day) returns (streak: nat)
    requires Descending(dates)
    ensures IsListStreak(dates, today, streak)
  {
    if |dates| == 0 { return 0; }
    var gap := today - dates[0];
    if gap > 1 { return 0; }
    streak := 1;
    var i := 1;
    while i < |dates|
      invariant 1 <= i == streak <= |dates|
      invariant forall k :: 0 <= k < i ==> dates[k] == dates[0] - k
    {
      var diff := dates[i - 1] - dates[i];
      if diff != 1 { break; }
      streak := streak + 1;
      i := i + 1;
    }
    BelowIsNotListed(dates, i);
    forall d | dates[0] - streak < d <= dates[0]
      ensures d in dates
    {
      assert dates[dates[0] - d] == d;
    }
  }

  /** On the same dates, none of them after today, what loadStreak computes is the streak that
      computeStreak computes. */
  lemma ListStreakIsStreak(dates: seq<Day>, today: Day, n: nat)
    requires Descending(dates) && (forall d :: d in dates ==> d <= today)
    requires IsListStreak(dates, today, n)
    ensures IsStreak(DatesOf(dates), today, n)
  {
    if dates != [] {
      assert dates[0] in dates;
      forall d | d in dates
        ensures d <= dates[0]
      {
        var k :| 0 <= k < |dates| && dates[k] == d;
      }
    }
  }

  /** The two algorithms agree on every set of dates with none after today. */
  lemma StreaksAgree(dates: seq<Day>, today: Day, walked: nat, listed: nat)
    requires Descending(dates) && (forall d :: d in dates ==> d <= today)
    requires IsStreak(DatesOf(dates), today, walked) && IsListStreak(dates, today, listed)
    ensures walked == listed
  {
    ListStreakIsStreak(dates, today, listed);
    StreakIsUnique(DatesOf(dates), today, walked, listed);
  }

  /** Every day from today to `latest` is listed. */
  ghost predicate ListedUpTo(dates: seq<Day>, today: Day, latest: Day) {
    forall d :: today <= d <= latest ==> d in dates
  }

  /** The two algorithms on any dates. A completed attempt carries the time its client sent, so
      the walk can meet dates after today; practice sets are dated by the server. The walk never
      looks at such dates. The list starts at the latest one: if the days from today up to it
      are all listed it counts them on top of the streak, otherwise it counts only days after
      today. */
  lemma StreaksCompared(dates: seq<Day>, today: Day, walked: nat, listed: nat)
    requires Descending(dates) && dates != []
    requires IsStreak(DatesOf(dates), today, walked) && IsListStreak(dates, today, listed)
    ensures dates[0] <= today ==> listed == walked
    ensures dates[0] > today && ListedUpTo(dates, today, dates[0]) ==> listed == walked + (dates[0] - today)
    ensures dates[0] > today && !ListedUpTo(dates, today, dates[0]) ==>
              IsRun(DatesOf(dates), dates[0], listed) && listed <= dates[0] - today
  {
    var latest, all := dates[0], DatesOf(dates);
    assert latest in dates;
    if latest <= today {
      forall d | d in dates
        ensures d <= today
      {
        var k :| 0 <= k < |dates| && dates[k] == d;
      }
      StreaksAgree(dates, today, walked, listed);
    } else if ListedUpTo(dates, today, latest) {
      assert today in dates;
      assert IsRun(all, latest, walked + (latest - today));
      RunIsLongest(all, latest, listed, walked + (latest - today));
      RunIsLongest(all, latest, walked + (latest - today), listed);
    } else {
      assert forall d :: latest - listed < d <= latest ==> d in all;
    }
  }
}
