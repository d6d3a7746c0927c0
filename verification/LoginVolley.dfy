/** The rate bound of the login limiter is exact: a client that times its requests well gets that many
    through. */
module LoginVolley {
  import opened LoginLimiter

  /** The same run with `k` more requests at one time. */
  function More(checks: seq<Check>, key: string, t: int, k: nat): seq<Check> {
    if k == 0 then checks else More(checks, key, t, k - 1) + [Check(key, t)]
  }

  function WindowAt(n: nat, windows: nat): int { windows * (WINDOW + 1) - n }

  /** One request shortly before the interval, nineteen in what is left of its window, and twenty at the
      start of each of the next windows. */
  function Volley(key: string, n: nat, windows: nat): seq<Check> {
    if windows == 0 then More(More([], key, WindowAt(n, 0), 1), key, 0, 19)
    else More(Volley(key, n, windows - 1), key, WindowAt(n, windows), 20)
  }

  function RateAfter(checks: seq<Check>, key: string): RateState {
    RateOf(RatesAfter(map[], checks), key)
  }

  function Passed(checks: seq<Check>, key: string, to: int): nat {
    Hits(map[], checks, key, 0, to)
  }

  lemma OneMore(checks: seq<Check>, key: string, t: int, to: int)
    requires !Limited(RateAfter(checks, key), t)
    ensures var after := checks + [Check(key, t)];
            && RateAfter(after, key) == AfterHit(RateAfter(checks, key), t)
            && Passed(after, key, to) == Passed(checks, key, to) + if 0 <= t <= to then 1 else 0
  {
  }

  /** Requests that fit into the open window pass. */
  lemma {:induction false} MoreInWindow(checks: seq<Check>, key: string, t: int, k: nat, to: int, s: RateState)
    requires s == RateAfter(checks, key) && Open(s, t) && s.count + k <= MAX_HITS
    ensures RateAfter(More(checks, key, t, k), key) == Window(s.count + k, s.start)
    ensures Passed(More(checks, key, t, k), key, to) == Passed(checks, key, to) + if 0 <= t <= to then k else 0
    decreases k
  {
    if k > 0 {
      MoreInWindow(checks, key, t, k - 1, to, s);
      OneMore(More(checks, key, t, k - 1), key, t, to);
    }
  }

  /** At most twenty requests after the window has passed open a new one and pass. */
  lemma {:induction false} MoreAfterWindow(checks: seq<Check>, key: string, t: int, k: nat, to: int)
    requires !Open(RateAfter(checks, key), t) && 0 < k <= MAX_HITS
    ensures RateAfter(More(checks, key, t, k), key) == Window(k, t)
    ensures Passed(More(checks, key, t, k), key, to) == Passed(checks, key, to) + if 0 <= t <= to then k else 0
    decreases k
  {
    if k == 1 {
      assert More(checks, key, t, 0) == checks;
      OneMore(checks, key, t, to);
    } else {
      MoreAfterWindow(checks, key, t, k - 1, to);
      OneMore(More(checks, key, t, k - 1), key, t, to);
    }
  }

  /** Everything in a run happened by a time, in order. */
  ghost predicate DoneBy(checks: seq<Check>, t: int) {
    Rising(checks) && (checks != [] ==> checks[|checks| - 1].time <= t)
  }

  lemma {:induction false} MoreRising(checks: seq<Check>, key: string, t: int, k: nat, before: int)
    requires DoneBy(checks, before) && before <= t
    ensures DoneBy(More(checks, key, t, k), t)
    decreases k
  {
    if k > 0 {
      MoreRising(checks, key, t, k - 1, before);
    }
  }

  function LastTime(n: nat, windows: nat): int { if windows == 0 then 0 else WindowAt(n, windows) }

  lemma Times(n: nat, windows: nat)
    requires 0 < windows <= n <= WINDOW
    ensures WindowAt(n, windows) == WindowAt(n, windows - 1) + WINDOW + 1
    ensures LastTime(n, windows - 1) <= WindowAt(n, windows) <= WINDOW * n && 0 <= WindowAt(n, windows)
  {
  }

  lemma {:induction false} VolleyPasses(key: string, n: nat, windows: nat)
    requires 0 < n <= WINDOW && windows <= n
    ensures DoneBy(Volley(key, n, windows), LastTime(n, windows))
    ensures RateAfter(Volley(key, n, windows), key) == Window(20, WindowAt(n, windows))
    ensures Passed(Volley(key, n, windows), key, WINDOW * n) == 20 * windows + 19
    decreases windows
  {
    if windows == 0 {
      FirstWindow(key, n);
    } else {
      Times(n, windows);
      VolleyPasses(key, n, windows - 1);
      MoreAfterWindow(Volley(key, n, windows - 1), key, WindowAt(n, windows), 20, WINDOW * n);
      MoreRising(Volley(key, n, windows - 1), key, WindowAt(n, windows), 20, LastTime(n, windows - 1));
    }
  }

  lemma FirstWindow(key: string, n: nat)
    requires 0 < n <= WINDOW
    ensures DoneBy(Volley(key, n, 0), 0)
    ensures RateAfter(Volley(key, n, 0), key) == Window(20, WindowAt(n, 0))
    ensures Passed(Volley(key, n, 0), key, WINDOW * n) == 19
  {
    var early: int := WindowAt(n, 0);
    assert early < 0;
    var first := More([], key, early, 1);
    assert Volley(key, n, 0) == More(first, key, 0, 19);
    MoreAfterWindow([], key, early, 1, WINDOW * n);
    MoreInWindow(first, key, 0, 19, WINDOW * n, Window(1, early));
    MoreRising([], key, early, 1, early);
    MoreRising(first, key, 0, 19, early);
  }

  /** For every number of windows up to one per tick of a window, some run lets exactly as many requests
      through as the bound allows. */
  lemma RateBoundAttained(key: string, n: nat)
    requires 0 < n <= WINDOW
    ensures Rising(Volley(key, n, n))
    ensures Hits(map[], Volley(key, n, n), key, 0, WINDOW * n) == 20 * n + 19
  {
    VolleyPasses(key, n, n);
  }
}
