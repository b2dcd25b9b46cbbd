/**
 * A fixed-window quota: at most `Limit` events may happen within `Interval`
 * time units, counted from the first call.  A call never blocks; once the
 * window is exhausted it fails with `QuotaExceeded` until the window elapses.
 *
 * Time is an integer clock reading passed in by the caller.  No ordering of
 * successive readings is assumed: the wall clock may go backwards.
 */
module HttpThrottle {

  datatype Option<T> = None | Some(value: T)

  /** What a call to Wait reports: success, or the quota-exceeded error. */
  datatype Outcome = Ok | QuotaExceeded

  /**
   * The value of a quota: its configuration (`interval`, `limit`), the number
   * `c` of calls counted in the current window, and the start `from` of that
   * window, `None` until the first call.
   */
  datatype QuotaState = QuotaState(interval: int, limit: int, c: int, from: Option<int>)
  {
    /** Before the first call nothing is counted; after it, the call that opened the window is. */
    predicate Valid() {
      (from.None? && c == 0) || (from.Some? && c >= 1)
    }

    /** Whether a call at time `now` is within the current window. */
    predicate InWindow(now: int) {
      from.Some? && now <= from.value + interval
    }
  }

  /** The state of a freshly built quota allowing `n` events within `d`. */
  function NewState(d: int, n: int): (s: QuotaState)
    ensures s.interval == d && s.limit == n
    ensures s.Valid() && s.from.None?
  {
    QuotaState(d, n, 0, None)
  }

  /**
   * One call to Wait at time `now`: the window is opened lazily, rolled over
   * when `now` is strictly after its end, and the counter is incremented
   * whether or not the call then fails.
   */
  function Step(s: QuotaState, now: int): (r: (QuotaState, Outcome))
    ensures r.0.interval == s.interval && r.0.limit == s.limit
    ensures r.0.from.Some?
    ensures r.1 == QuotaExceeded <==> r.0.c > s.limit
    ensures s.Valid() ==> r.0.Valid()
  {
    var start := if s.from.None? then now else s.from.value;
    var (from', c') := if now > start + s.interval then (now, 0) else (start, s.c);
    var s' := s.(c := c' + 1, from := Some(from'));
    (s', if s'.c > s.limit then QuotaExceeded else Ok)
  }

  /** A sequence of calls to Wait, at the given times, in order. */
  function Run(s: QuotaState, times: seq<int>): (r: (QuotaState, seq<Outcome>))
    ensures |r.1| == |times|
    ensures r.0.interval == s.interval && r.0.limit == s.limit
    ensures s.Valid() ==> r.0.Valid()
    decreases |times|
  {
    if times == [] then (s, [])
    else
      var (s1, o) := Step(s, times[0]);
      var (s2, os) := Run(s1, times[1..]);
      (s2, [o] + os)
  }

  /** A call on a quota that has never been used opens the window at `now`. */
  lemma FirstCallOpensWindow(s: QuotaState, now: int)
    requires s.Valid() && s.from.None?
    ensures Step(s, now).0.from == Some(now)
    ensures Step(s, now).0.c == 1
    ensures Step(s, now).1 == (if s.limit >= 1 then Ok else QuotaExceeded)
  {
  }

  /** A call strictly after the end of the window starts a new one, counting only itself. */
  lemma RolloverStartsNewWindow(s: QuotaState, now: int)
    requires s.from.Some? && now > s.from.value + s.interval
    ensures Step(s, now).0 == s.(c := 1, from := Some(now))
    ensures Step(s, now).1 == (if s.limit >= 1 then Ok else QuotaExceeded)
  {
  }

  /**
   * A call within the window, including one exactly at its end, keeps the
   * window and adds one to the counter; it fails iff the counter then exceeds
   * the limit, and the increment stays even when it fails.
   */
  lemma CallInWindowCounts(s: QuotaState, now: int)
    requires s.InWindow(now)
    ensures Step(s, now).0 == s.(c := s.c + 1)
    ensures Step(s, now).1 == QuotaExceeded <==> s.c + 1 > s.limit
  {
  }

  /**
   * Calls that all fall within the current window keep it, are each counted,
   * and the i-th of them succeeds exactly when the count after it is within
   * the limit.
   */
  lemma {:induction false} CallsInWindow(s: QuotaState, times: seq<int>)
    requires s.from.Some?
    requires forall i :: 0 <= i < |times| ==> s.InWindow(times[i])
    ensures Run(s, times).0 == s.(c := s.c + |times|)
    ensures forall i :: 0 <= i < |times| ==>
              (Run(s, times).1[i] == Ok <==> s.c + i + 1 <= s.limit)
    decreases |times|
  {
    if times != [] {
      var s1 := Step(s, times[0]).0;
      CallInWindowCounts(s, times[0]);
      assert s1 == s.(c := s.c + 1);
      forall i | 0 <= i < |times[1..]|
        ensures s1.InWindow(times[1..][i])
      {
        assert times[1..][i] == times[i + 1];
      }
      CallsInWindow(s1, times[1..]);
      var os := Run(s1, times[1..]).1;
      assert Run(s, times).1 == [Step(s, times[0]).1] + os;
      forall i | 0 <= i < |times|
        ensures Run(s, times).1[i] == Ok <==> s.c + i + 1 <= s.limit
      {
        if i > 0 {
          assert Run(s, times).1[i] == os[i - 1];
        }
      }
    }
  }

  /**
   * Whether a call at `t0` opens a window: the quota was never used, or `t0`
   * is strictly after the end of the current window.
   */
  predicate OpensWindow(s: QuotaState, t0: int) {
    s.from.None? || t0 > s.from.value + s.interval
  }

  /**
   * Window accounting: once a window opens at `t0`, the calls that follow
   * within it (the opening one included) succeed for the first `limit` of them
   * and fail from then on.  This holds for the first window and for every
   * window after a rollover alike.
   */
  lemma {:induction false} FreshWindow(s: QuotaState, t0: int, times: seq<int>)
    requires s.Valid() && OpensWindow(s, t0)
    requires forall i :: 0 <= i < |times| ==> times[i] <= t0 + s.interval
    ensures var outcomes := Run(s, [t0] + times).1;
            forall k :: 0 <= k < |outcomes| ==> (outcomes[k] == Ok <==> k < s.limit)
  {
    var all := [t0] + times;
    var (s1, o) := Step(s, t0);
    assert s1.from == Some(t0) && s1.c == 1;
    assert all[0] == t0 && all[1..] == times;
    CallsInWindow(s1, times);
    var os := Run(s1, times).1;
    assert Run(s, all).1 == [o] + os;
    forall k | 0 <= k < |times| + 1
      ensures Run(s, all).1[k] == Ok <==> k < s.limit
    {
      if k > 0 {
        assert Run(s, all).1[k] == os[k - 1];
      }
    }
  }

  /** Once a call fails, every later call in the same window fails too. */
  lemma ExceededStaysExceeded(s: QuotaState, times: seq<int>, i: int, j: int)
    requires s.from.Some?
    requires forall k :: 0 <= k < |times| ==> s.InWindow(times[k])
    requires 0 <= i <= j < |times|
    requires Run(s, times).1[i] == QuotaExceeded
    ensures Run(s, times).1[j] == QuotaExceeded
  {
    CallsInWindow(s, times);
  }

  /** With a limit of zero or less every call fails, whatever the times. */
  lemma {:induction false} NonPositiveLimitAlwaysFails(s: QuotaState, times: seq<int>)
    requires s.Valid() && s.limit <= 0
    ensures forall i :: 0 <= i < |times| ==> Run(s, times).1[i] == QuotaExceeded
    decreases |times|
  {
    if times != [] {
      var s1 := Step(s, times[0]).0;
      NonPositiveLimitAlwaysFails(s1, times[1..]);
      var os := Run(s1, times[1..]).1;
      assert Run(s, times).1 == [Step(s, times[0]).1] + os;
      forall i | 0 <= i < |times|
        ensures Run(s, times).1[i] == QuotaExceeded
      {
        if i > 0 {
          assert Run(s, times).1[i] == os[i - 1];
        }
      }
    }
  }

  /**
   * The quota object: its exported configuration and the counter and window
   * start that Wait updates in place.
   */
  class Quota {
    var Interval: int
    var Limit: int
    var c: int
    var from: Option<int>

    /** The value this object currently holds. */
    function State(): QuotaState
      reads this
    {
      QuotaState(Interval, Limit, c, from)
    }

    /** A quota that allows `n` events to occur within duration `d`. */
    constructor (d: int, n: int)
      ensures Interval == d && Limit == n && c == 0 && from == None
      ensures State() == NewState(d, n)
    {
      Interval := d;
      Limit := n;
      c := 0;
      from := None;
    }

    /**
     * Counts one event at time `now` and reports whether the quota is
     * exceeded.  Never blocks; the count is kept even when the call fails.
     */
    method Wait(now: int) returns (result: Outcome)
      modifies this
      ensures (State(), result) == Step(old(State()), now)
      ensures Interval == old(Interval) && Limit == old(Limit)
      ensures result == QuotaExceeded <==> c > Limit
      ensures var start := if old(from).None? then now else old(from).value;
              if now > start + Interval then from == Some(now) && c == 1
              else from == Some(start) && c == old(c) + 1
      ensures old(State()).Valid() ==> State().Valid()
    {
      if from.None? {
        from := Some(now);
      }
      if now > from.value + Interval {
        from := Some(now);
        c := 0;
      }
      c := c + 1;
      if c > Limit {
        return QuotaExceeded;
      }
      return Ok;
    }
  }

  /**
   * One burst of the package's own quota test: four calls at time `t`, the
   * first of which opens a window with a limit of 2.
   */
  method Burst(q: Quota, t: int) returns (outcomes: seq<Outcome>)
    requires q.Interval >= 0 && q.Limit == 2 && q.State().Valid() && OpensWindow(q.State(), t)
    modifies q
    ensures outcomes == [Ok, Ok, QuotaExceeded, QuotaExceeded]
    ensures q.Interval == old(q.Interval) && q.Limit == 2
    ensures q.State().Valid() && q.from == Some(t) && q.c == 4
  {
    var r1 := q.Wait(t);
    var r2 := q.Wait(t);
    var r3 := q.Wait(t);
    var r4 := q.Wait(t);
    outcomes := [r1, r2, r3, r4];
  }

  /**
   * The call sequence of the package's own quota test: a limit of 2 per 10
   * time units, a burst at time 0, a pause past the window end, a burst at
   * time 11, a longer pause, a burst at time 32.  Each of these times opens a
   * new window, and each burst yields two successes and two failures.
   */
  method QuotaTrace() returns (outcomes: seq<Outcome>)
    ensures outcomes == [Ok, Ok, QuotaExceeded, QuotaExceeded]
                      + [Ok, Ok, QuotaExceeded, QuotaExceeded]
                      + [Ok, Ok, QuotaExceeded, QuotaExceeded]
  {
    var q := new Quota(10, 2);
    var first := Burst(q, 0);
    var second := Burst(q, 11);
    var third := Burst(q, 32);
    outcomes := first + second + third;
  }
}
