/** The streak calculator (`calculateStreak`, src/stores/useProgressStore.ts).

    The distinct session days, newest first, are split into runs of
    consecutive days. The current streak is the length of the newest run and
    the longest streak the length of the longest run. */
module Streaks {
  import opened Types

  datatype Streak = Streak(current: nat, longest: nat)

  predicate StrictlyDescending(s: seq<int>) {
    forall i, j :: 0 <= i < j < |s| ==> s[i] > s[j]
  }

  /** Inserts a day into a strictly descending list of days, unless it is already there. */
  function InsertDescending(x: int, s: seq<int>): (r: seq<int>)
    requires StrictlyDescending(s)
    ensures StrictlyDescending(r)
    ensures forall y :: y in r <==> y == x || y in s
  {
    if s == [] then [x]
    else if x > s[0] then [x] + s
    else if x == s[0] then s
    else
      var t := InsertDescending(x, s[1..]);
      assert forall k :: 0 <= k < |t| ==> t[k] < s[0] by {
        forall k | 0 <= k < |t| ensures t[k] < s[0] {
          assert t[k] in t;
        }
      }
      [s[0]] + t
  }

  /** `[...new Set(days)].sort().reverse()`: the distinct days, newest first. */
  function DescendingDays(days: seq<Day>): (r: seq<Day>)
    ensures StrictlyDescending(r)
    ensures forall y :: y in r <==> y in days
  {
    if days == [] then []
    else
      assert forall y :: y in days <==> y == days[0] || y in days[1..];
      InsertDescending(days[0], DescendingDays(days[1..]))
  }

  /** `sessions.map((s) => s.date)` */
  function DatesOf(sessions: seq<PracticeSession>): (r: seq<Day>)
    ensures |r| == |sessions|
    ensures forall i :: 0 <= i < |sessions| ==> r[i] == sessions[i].date
  {
    seq(|sessions|, i requires 0 <= i < |sessions| => sessions[i].date)
  }

  /** The set of days on which at least one session was logged. */
  function DaysLogged(sessions: seq<PracticeSession>): set<Day> {
    set i | 0 <= i < |sessions| :: sessions[i].date
  }

  /** The days the calculator walks over. */
  function SessionDays(sessions: seq<PracticeSession>): (r: seq<Day>)
    ensures StrictlyDescending(r)
    ensures forall y :: y in r <==> y in DaysLogged(sessions)
    ensures |r| == 0 <==> |sessions| == 0
  {
    var d := DescendingDays(DatesOf(sessions));
    assert forall y :: y in DatesOf(sessions) <==> y in DaysLogged(sessions) by {
      forall y ensures y in DatesOf(sessions) <==> y in DaysLogged(sessions) {
        if y in DatesOf(sessions) {
          var i :| 0 <= i < |sessions| && DatesOf(sessions)[i] == y;
          assert sessions[i].date == y;
        }
      }
    }
    assert |sessions| > 0 ==> sessions[0].date in d;
    d
  }

  /** A strictly descending list is determined by its elements: however the
      sessions are ordered or repeated, the calculator walks the same days. */
  lemma {:induction false} DescendingUnique(a: seq<int>, b: seq<int>)
    requires StrictlyDescending(a) && StrictlyDescending(b)
    requires forall y :: y in a <==> y in b
    ensures a == b
  {
    if a == [] {
      // a first element of b would have to be in a
      assert forall i :: 0 <= i < |b| ==> b[i] in a;
    } else {
      assert a[0] in a;
      assert a[0] in b;
      assert b[0] in b;
      assert b[0] in a;
      assert a[0] == b[0];
      forall y ensures y in a[1..] <==> y in b[1..] {
        assert y in a[1..] <==> y in a && y != a[0];
        assert y in b[1..] <==> y in b && y != b[0];
      }
      DescendingUnique(a[1..], b[1..]);
      assert a == [a[0]] + a[1..] && b == [b[0]] + b[1..];
    }
  }

  // ----- Runs of consecutive days -----

  /** Positions i .. j-1 of `d` hold consecutive days, each one day before the previous. */
  ghost predicate IsRun(d: seq<int>, i: int, j: int) {
    0 <= i < j <= |d| && forall k :: i < k < j ==> d[k] == d[k - 1] - 1
  }

  /** The run at position j ends there: j is the end of `d`, or d[j] does not follow d[j-1]. */
  ghost predicate RunEndsAt(d: seq<int>, j: int)
    requires 0 < j <= |d|
  {
    j == |d| || d[j] != d[j - 1] - 1
  }

  /** The length of the maximal run of consecutive days starting at position i. */
  function RunAt(d: seq<int>, i: nat): (n: nat)
    requires i < |d|
    ensures 1 <= n <= |d| - i
    decreases |d| - i
  {
    if i + 1 < |d| && d[i + 1] == d[i] - 1 then 1 + RunAt(d, i + 1) else 1
  }

  /** The longest run starting before position n. */
  function MaxRunBelow(d: seq<int>, n: nat): nat
    requires n <= |d|
  {
    if n == 0 then 0
    else
      var m := MaxRunBelow(d, n - 1);
      var r := RunAt(d, n - 1);
      if m < r then r else m
  }

  /** The newest run (0 when there are no days). */
  function CurrentRun(d: seq<int>): nat {
    if d == [] then 0 else RunAt(d, 0)
  }

  /** The longest run (0 when there are no days). */
  function LongestRun(d: seq<int>): nat {
    MaxRunBelow(d, |d|)
  }

  /** The streak of a session history, as the calculator must report it. */
  function StreakOf(sessions: seq<PracticeSession>): Streak {
    var d := SessionDays(sessions);
    Streak(CurrentRun(d), LongestRun(d))
  }

  /** RunAt(d, i) is a run, and it cannot be extended. */
  lemma {:induction false} RunAtIsMaximal(d: seq<int>, i: nat)
    requires i < |d|
    ensures IsRun(d, i, i + RunAt(d, i)) && RunEndsAt(d, i + RunAt(d, i))
    decreases |d| - i
  {
    if i + 1 < |d| && d[i + 1] == d[i] - 1 {
      RunAtIsMaximal(d, i + 1);
    }
  }

  /** Every run starting at i fits inside RunAt(d, i). */
  lemma {:induction false} RunWithinRunAt(d: seq<int>, i: nat, j: int)
    requires IsRun(d, i, j)
    ensures j - i <= RunAt(d, i)
    decreases j - i
  {
    if j > i + 1 {
      assert IsRun(d, i + 1, j);
      RunWithinRunAt(d, i + 1, j);
    }
  }

  /** A run that ends at j has exactly its own length as RunAt. */
  lemma {:induction false} ClosedRunLength(d: seq<int>, i: nat, j: int)
    requires IsRun(d, i, j) && RunEndsAt(d, j)
    ensures RunAt(d, i) == j - i
    decreases j - i
  {
    if j > i + 1 {
      assert IsRun(d, i + 1, j);
      ClosedRunLength(d, i + 1, j);
    }
  }

  /** Every run starting below n is at most MaxRunBelow(d, n) long, and one reaches it. */
  lemma {:induction false} MaxRunBelowIsMax(d: seq<int>, n: nat)
    requires n <= |d|
    ensures forall i :: 0 <= i < n ==> RunAt(d, i) <= MaxRunBelow(d, n)
    ensures n > 0 ==> exists i :: 0 <= i < n && RunAt(d, i) == MaxRunBelow(d, n)
  {
    if n > 0 {
      MaxRunBelowIsMax(d, n - 1);
    }
  }

  /** Closing a run that occupies positions s .. i-1 raises the maximum to cover it. */
  lemma {:induction false} MaxRunBelowCloses(d: seq<int>, s: nat, i: nat)
    requires IsRun(d, s, i) && RunEndsAt(d, i)
    ensures MaxRunBelow(d, i) == if MaxRunBelow(d, s) < i - s then i - s else MaxRunBelow(d, s)
    decreases i - s
  {
    MaxRunBelowUpTo(d, s, i, i);
  }

  /** Inside a run closing at e, the maximum below each position k in (s, e] is
      the old maximum or the run's full length. */
  lemma {:induction false} MaxRunBelowUpTo(d: seq<int>, s: nat, k: nat, e: nat)
    requires IsRun(d, s, e) && RunEndsAt(d, e) && s < k <= e
    ensures MaxRunBelow(d, k) == if MaxRunBelow(d, s) < e - s then e - s else MaxRunBelow(d, s)
    decreases k - s
  {
    ClosedRunLength(d, s, e);
    if k > s + 1 {
      MaxRunBelowUpTo(d, s, k - 1, e);
      assert IsRun(d, k - 1, e);
      ClosedRunLength(d, k - 1, e);
    }
  }

  /** Closing the run at positions i-streak .. i-1: the first run closed
      becomes the current streak, and the longest covers every run so far. */
  lemma CloseRun(d: seq<int>, i: nat, streak: nat, current: nat, longest: nat)
    requires 1 <= streak <= i <= |d|
    requires IsRun(d, i - streak, i) && RunEndsAt(d, i)
    requires i - streak > 0 ==> RunEndsAt(d, i - streak)
    requires longest == MaxRunBelow(d, i - streak)
    requires current == if i - streak == 0 then 0 else RunAt(d, 0)
    ensures (if current == 0 then streak else current) == RunAt(d, 0)
    ensures (if longest < streak then streak else longest) == MaxRunBelow(d, i)
  {
    MaxRunBelowCloses(d, i - streak, i);
    if i - streak == 0 {
      ClosedRunLength(d, 0, i);
    }
  }

  /** `calculateStreak`: no sessions give (0, 0); otherwise the walk over
      the distinct session days, newest first. */
  method CalculateStreak(sessions: seq<PracticeSession>, today: Day) returns (current: nat, longest: nat)
    ensures Streak(current, longest) == StreakOf(sessions)
  {
    if |sessions| == 0 {
      return 0, 0;
    }
    var dates := SessionDays(sessions);
    current, longest := WalkDays(dates, today);
  }

  /** The loop of `calculateStreak`: walks the days with `today` as the
      first expected day, closing a run at every gap. */
  method WalkDays(dates: seq<Day>, today: Day) returns (current: nat, longest: nat)
    ensures current == CurrentRun(dates) && longest == LongestRun(dates)
  {
    current, longest := 0, 0;
    var streak: nat := 0;
    var expected := today;
    for i := 0 to |dates|
      invariant i == 0 ==> streak == 0 && current == 0 && longest == 0
      invariant i > 0 ==> 1 <= streak <= i && expected == dates[i - 1] - 1
      invariant i > 0 ==> IsRun(dates, i - streak, i)
      invariant i > 0 && i - streak > 0 ==> RunEndsAt(dates, i - streak)
      invariant i > 0 ==> longest == MaxRunBelow(dates, i - streak)
      invariant i > 0 ==> current == if i - streak == 0 then 0 else RunAt(dates, 0)
    {
      var date := dates[i];
      if date == expected {
        streak := streak + 1;
        expected := expected - 1;
      } else {
        if i > 0 {
          CloseRun(dates, i, streak, current, longest);
        }
        if current == 0 {
          current := streak;
        }
        longest := if longest < streak then streak else longest;
        streak := 1;
        expected := date - 1;
      }
    }
    if |dates| > 0 {
      CloseRun(dates, |dates|, streak, current, longest);
      if current == 0 {
        current := streak;
      }
      longest := if longest < streak then streak else longest;
    }
  }

  // ----- Properties of the streak -----

  /** No sessions give (0, 0); otherwise both streaks are at least 1 and the
      longest streak is never below the current one. */
  lemma StreakBounds(sessions: seq<PracticeSession>)
    ensures sessions == [] ==> StreakOf(sessions) == Streak(0, 0)
    ensures sessions != [] ==> 1 <= StreakOf(sessions).current <= StreakOf(sessions).longest
  {
    var d := SessionDays(sessions);
    if sessions != [] {
      MaxRunBelowIsMax(d, |d|);
    }
  }

  /** The current streak is the newest run of consecutive days, whether or not
      it reaches today; the longest streak is the longest run of all. */
  lemma StreakIsRunLengths(sessions: seq<PracticeSession>)
    ensures var d := SessionDays(sessions);
      && (d != [] ==> IsRun(d, 0, StreakOf(sessions).current) && RunEndsAt(d, StreakOf(sessions).current))
      && (forall i, j :: IsRun(d, i, j) ==> j - i <= StreakOf(sessions).longest)
      && (d != [] ==> exists i, j :: IsRun(d, i, j) && j - i == StreakOf(sessions).longest)
  {
    var d := SessionDays(sessions);
    MaxRunBelowIsMax(d, |d|);
    if d != [] {
      RunAtIsMaximal(d, 0);
      var i :| 0 <= i < |d| && RunAt(d, i) == LongestRun(d);
      RunAtIsMaximal(d, i);
    }
    forall i, j | IsRun(d, i, j) ensures j - i <= LongestRun(d) {
      RunWithinRunAt(d, i, j);
    }
  }

  /** The streak depends only on the set of days with a session. */
  lemma StreakDependsOnlyOnDays(a: seq<PracticeSession>, b: seq<PracticeSession>)
    requires DaysLogged(a) == DaysLogged(b)
    ensures StreakOf(a) == StreakOf(b)
  {
    DescendingUnique(SessionDays(a), SessionDays(b));
  }

  /** Reordering the sessions does not change the streak. */
  lemma StreakIgnoresOrder(a: seq<PracticeSession>, b: seq<PracticeSession>)
    requires multiset(a) == multiset(b)
    ensures StreakOf(a) == StreakOf(b)
  {
    forall y ensures y in DaysLogged(a) ==> y in DaysLogged(b) {
      if y in DaysLogged(a) {
        var i :| 0 <= i < |a| && a[i].date == y;
        assert a[i] in multiset(b);
        var j :| 0 <= j < |b| && b[j] == a[i];
      }
    }
    forall y ensures y in DaysLogged(b) ==> y in DaysLogged(a) {
      if y in DaysLogged(b) {
        var j :| 0 <= j < |b| && b[j].date == y;
        assert b[j] in multiset(a);
        var i :| 0 <= i < |a| && a[i] == b[j];
      }
    }
    StreakDependsOnlyOnDays(a, b);
  }

  /** A further session on a day that already has one does not change the streak. */
  lemma StreakIgnoresRepeatedDay(sessions: seq<PracticeSession>, s: PracticeSession, k: nat)
    requires k < |sessions| && sessions[k].date == s.date
    ensures StreakOf([s] + sessions) == StreakOf(sessions)
  {
    var t := [s] + sessions;
    forall y ensures y in DaysLogged(t) <==> y in DaysLogged(sessions) {
      if y in DaysLogged(t) {
        var i :| 0 <= i < |t| && t[i].date == y;
        if i == 0 {
          assert sessions[k].date == y;
        } else {
          assert sessions[i - 1].date == y;
        }
      }
      if y in DaysLogged(sessions) {
        var i :| 0 <= i < |sessions| && sessions[i].date == y;
        assert t[i + 1].date == y;
      }
    }
    StreakDependsOnlyOnDays(t, sessions);
  }

  /** Sessions on today and yesterday give a current and longest streak of 2. */
  lemma StreakTodayAndYesterday(a: PracticeSession, b: PracticeSession, today: Day)
    requires a.date == today && b.date == today - 1
    ensures StreakOf([a, b]) == Streak(2, 2)
  {
    var d := [today, today - 1];
    assert DatesOf([a, b]) == d;
    DescendingUnique(SessionDays([a, b]), d);
    assert RunAt(d, 1) == 1;
    assert RunAt(d, 0) == 2;
    assert MaxRunBelow(d, 1) == 2;
  }

  /** A session today, a gap of three days, then five consecutive earlier days
      give a current streak of 1 and a longest streak of 5. */
  lemma StreakAfterGap(sessions: seq<PracticeSession>, today: Day)
    requires |sessions| == 6 && sessions[0].date == today
    requires forall k :: 1 <= k < 6 ==> sessions[k].date == today - 3 - k
    ensures StreakOf(sessions) == Streak(1, 5)
  {
    var d := [today, today - 4, today - 5, today - 6, today - 7, today - 8];
    assert DatesOf(sessions) == d;
    DescendingUnique(SessionDays(sessions), d);
    assert RunAt(d, 5) == 1;
    assert RunAt(d, 4) == 2;
    assert RunAt(d, 3) == 3;
    assert RunAt(d, 2) == 4;
    assert RunAt(d, 1) == 5;
    assert RunAt(d, 0) == 1;
    assert MaxRunBelow(d, 1) == 1;
    assert MaxRunBelow(d, 2) == 5;
    assert MaxRunBelow(d, 3) == 5;
    assert MaxRunBelow(d, 4) == 5;
    assert MaxRunBelow(d, 5) == 5;
  }

  /** A single session gives (1, 1) on whatever day it was logged: a session
      logged only yesterday still counts as a current streak of 1. */
  lemma StreakOfOneSession(s: PracticeSession)
    ensures StreakOf([s]) == Streak(1, 1)
  {
    assert DatesOf([s]) == [s.date];
    DescendingUnique(SessionDays([s]), [s.date]);
    assert RunAt([s.date], 0) == 1;
    assert MaxRunBelow([s.date], 1) == 1;
  }
}
