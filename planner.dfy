/**
  The per-station window planner of both scripts: a list of timesteps from a
  start instant to an end instant in steps of at most `delta`, then one request
  interval per pair of consecutive timesteps.

  Instants are integers counting microseconds, the resolution of Python's
  datetime arithmetic, so the one-second nudge is exact.
*/
module Planner {

  /** One second, in microseconds. */
  const Second: int := 1_000_000

  /** One day, in microseconds. */
  const Day: int := 86_400 * Second

  /** A request interval "{start}/{end}" for the stationdata call. */
  datatype Window = Window(start: int, end: int)

  /**
    The timesteps from begin: add delta while the end is more than delta away
    from the last timestep, then finish with the end itself.
  */
  function Timesteps(begin: int, end: int, delta: int): seq<int>
    requires delta > 0
    decreases end - begin
  {
    if end - begin > delta then [begin] + Timesteps(begin + delta, end, delta) else [begin, end]
  }

  /** The `timesteps` while loop of both scripts. */
  method PlanTimesteps(begin: int, end: int, delta: int) returns (timesteps: seq<int>)
    requires delta > 0
    ensures timesteps == Timesteps(begin, end, delta)
  {
    timesteps := [begin];
    ghost var done: seq<int> := [];
    while end - timesteps[|timesteps| - 1] > delta
      invariant |timesteps| > 0 && timesteps == done + [timesteps[|timesteps| - 1]]
      invariant done + Timesteps(timesteps[|timesteps| - 1], end, delta) == Timesteps(begin, end, delta)
      decreases end - timesteps[|timesteps| - 1]
    {
      var last := timesteps[|timesteps| - 1];
      done := done + [last];
      timesteps := timesteps + [last + delta];
    }
    timesteps := timesteps + [end];
  }

  /**
    The timesteps start at begin and finish exactly at end; there are always at
    least two of them; every step but the last is exactly delta; the loop went on
    while the end was more than delta away and stopped once it was not.
  */
  lemma {:induction false} TimestepsShape(begin: int, end: int, delta: int)
    requires delta > 0
    decreases end - begin
    ensures var ts := Timesteps(begin, end, delta);
      && |ts| >= 2 && ts[0] == begin && ts[|ts| - 1] == end
      && (forall i :: 0 <= i < |ts| - 2 ==> ts[i + 1] == ts[i] + delta && end - ts[i] > delta)
      && end - ts[|ts| - 2] <= delta
  {
    var ts := Timesteps(begin, end, delta);
    if end - begin > delta {
      TimestepsShape(begin + delta, end, delta);
      var rest := Timesteps(begin + delta, end, delta);
      assert ts == [begin] + rest;
      forall i | 0 <= i < |ts| - 2
        ensures ts[i + 1] == ts[i] + delta && end - ts[i] > delta
      {
        if i > 0 {
          assert ts[i] == rest[i - 1] && ts[i + 1] == rest[i];
        }
      }
    } else {
      assert ts == [begin, end];
    }
  }

  /**
    The number of intervals n = |timesteps| - 1: one when the end is at most
    delta past begin (begin == end and begin after end included), and otherwise
    the span divided by delta, rounded up: (n - 1) * delta < end - begin <= n * delta.
  */
  lemma {:induction false} TimestepsCount(begin: int, end: int, delta: int)
    requires delta > 0
    decreases end - begin
    ensures var n := |Timesteps(begin, end, delta)| - 1;
      && n >= 1
      && (end - begin <= delta ==> n == 1)
      && (end - begin > 0 ==> (n - 1) * delta < end - begin <= n * delta)
  {
    if end - begin > delta {
      TimestepsCount(begin + delta, end, delta);
      var m := |Timesteps(begin + delta, end, delta)| - 1;
      assert |Timesteps(begin, end, delta)| - 1 == m + 1;
      assert (m + 1) * delta == m * delta + delta;
      assert m * delta == (m - 1) * delta + delta;
    }
  }

  /** get_history.py: the first interval starts at its timestep, every later one a second after it. */
  function HistoryWindows(ts: seq<int>): seq<Window>
  {
    if |ts| < 2 then []
    else seq(|ts| - 1, i requires 0 <= i < |ts| - 1 => Window(if i > 0 then ts[i] + Second else ts[i], ts[i + 1]))
  }

  /** scraper.py: every interval, the first included, starts a second after its timestep. */
  function ScraperWindows(ts: seq<int>): seq<Window>
  {
    if |ts| < 2 then []
    else seq(|ts| - 1, i requires 0 <= i < |ts| - 1 => Window(ts[i] + Second, ts[i + 1]))
  }

  /** The `intervals` for loop of get_history.py. */
  method PlanHistoryWindows(timesteps: seq<int>) returns (intervals: seq<Window>)
    ensures intervals == HistoryWindows(timesteps)
  {
    intervals := [];
    var n := if |timesteps| > 0 then |timesteps| - 1 else 0;
    for i := 0 to n
      invariant |intervals| == i
      invariant forall k :: 0 <= k < i ==>
        intervals[k] == Window(if k > 0 then timesteps[k] + Second else timesteps[k], timesteps[k + 1])
    {
      var ts := timesteps[i];
      if i > 0 {
        ts := ts + Second;
      }
      intervals := intervals + [Window(ts, timesteps[i + 1])];
    }
    assert |timesteps| < 2 ==> intervals == [];
  }

  /** The `intervals` for loop of scraper.py. */
  method PlanScraperWindows(timesteps: seq<int>) returns (intervals: seq<Window>)
    ensures intervals == ScraperWindows(timesteps)
  {
    intervals := [];
    var n := if |timesteps| > 0 then |timesteps| - 1 else 0;
    for i := 0 to n
      invariant |intervals| == i
      invariant forall k :: 0 <= k < i ==> intervals[k] == Window(timesteps[k] + Second, timesteps[k + 1])
    {
      var ts := timesteps[i] + Second;
      intervals := intervals + [Window(ts, timesteps[i + 1])];
    }
    assert |timesteps| < 2 ==> intervals == [];
  }

  /**
    The backfill plan from begin to end: at least one interval; the first starts
    at begin and the last ends exactly at end; each later interval starts one
    second after the previous one ends; no interval spans more than delta. With
    delta above one second, only the last interval can be inverted (start after
    end), and it is exactly when begin is after end with a single interval, or
    when the end lies less than a second after the previous interval's end.
  */
  lemma HistoryPlan(begin: int, end: int, delta: int)
    requires delta > Second
    ensures var ws := HistoryWindows(Timesteps(begin, end, delta));
      && |ws| >= 1 && ws[0].start == begin && ws[|ws| - 1].end == end
      && (forall i :: 0 <= i < |ws| - 1 ==> ws[i + 1].start == ws[i].end + Second)
      && (forall i :: 0 <= i < |ws| ==> ws[i].end - ws[i].start <= delta)
      && (forall i :: 0 <= i < |ws| - 1 ==> ws[i].start < ws[i].end)
      && (ws[|ws| - 1].start > ws[|ws| - 1].end <==>
           (|ws| == 1 && begin > end) || (|ws| > 1 && end - ws[|ws| - 2].end < Second))
  {
    TimestepsShape(begin, end, delta);
  }

  /**
    The catch-up plan from the stored watermark begin to the current time end:
    at least one interval; the first starts one second after begin and the last
    ends exactly at end; each later interval starts one second after the previous
    one ends, so no two overlap; no interval spans more than delta minus a second.
    With delta above one second only the last interval can be inverted, exactly
    when end lies less than a second after its timestep.
  */
  lemma ScraperPlan(begin: int, end: int, delta: int)
    requires delta > Second
    ensures var ws := ScraperWindows(Timesteps(begin, end, delta));
      && |ws| >= 1 && ws[0].start == begin + Second && ws[|ws| - 1].end == end
      && (forall i :: 0 <= i < |ws| - 1 ==> ws[i + 1].start == ws[i].end + Second)
      && (forall i :: 0 <= i < |ws| ==> ws[i].end - ws[i].start <= delta - Second)
      && (forall i :: 0 <= i < |ws| - 1 ==> ws[i].start < ws[i].end)
      && (ws[|ws| - 1].start > ws[|ws| - 1].end <==>
           (|ws| == 1 && end - begin < Second) || (|ws| > 1 && end - ws[|ws| - 2].end < Second))
  {
    TimestepsShape(begin, end, delta);
  }

  /** Ten days planned in three-day steps give four intervals, the last one day less a second long. */
  lemma TenDaysInThreeDaySteps(t0: int)
    ensures HistoryWindows(Timesteps(t0, t0 + 10 * Day, 3 * Day)) ==
      [Window(t0, t0 + 3 * Day), Window(t0 + 3 * Day + Second, t0 + 6 * Day),
       Window(t0 + 6 * Day + Second, t0 + 9 * Day), Window(t0 + 9 * Day + Second, t0 + 10 * Day)]
  {
    var end, delta := t0 + 10 * Day, 3 * Day;
    assert Timesteps(t0 + 9 * Day, end, delta) == [t0 + 9 * Day, end];
    assert Timesteps(t0 + 6 * Day, end, delta) == [t0 + 6 * Day, t0 + 9 * Day, end];
    assert Timesteps(t0 + 3 * Day, end, delta) == [t0 + 3 * Day, t0 + 6 * Day, t0 + 9 * Day, end];
    assert Timesteps(t0, end, delta) == [t0, t0 + 3 * Day, t0 + 6 * Day, t0 + 9 * Day, end];
  }
}
