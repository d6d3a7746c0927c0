/** The login limiter: hits per client address in fixed windows, and lockouts per user name, with bounds
    that hold over whole histories. Times are nanoseconds of one clock. */
module LoginLimiter {
  const MINUTE: int := 60_000_000_000
  const WINDOW: int := MINUTE
  const LOCKOUT: int := 5 * MINUTE
  const MAX_HITS: int := 20
  const FAIL_LIMIT: int := 5

  // ---- the rate limit of one key

  /** Fresh is the zero state of a key never seen. */
  datatype RateState = Fresh | Window(count: nat, start: int)

  predicate Open(s: RateState, now: int) { s.Window? && now - s.start <= WINDOW }

  predicate Limited(s: RateState, now: int) { Open(s, now) && s.count >= MAX_HITS }

  function AfterHit(s: RateState, now: int): RateState {
    if !Open(s, now) then Window(1, now)
    else if s.count >= MAX_HITS then s
    else s.(count := s.count + 1)
  }

  type Rates = map<string, RateState>

  function RateOf(rates: Rates, key: string): RateState { if key in rates then rates[key] else Fresh }

  function Hit(rates: Rates, key: string, now: int): Rates {
    if Limited(RateOf(rates, key), now) then rates else rates[key := AfterHit(RateOf(rates, key), now)]
  }

  // ---- the lockout of one user

  datatype Lockout = Lockout(failed: nat, lockedUntil: int)

  type Lockouts = map<string, Lockout>

  /** A user without an entry has no failures and was never locked; the zero time is before any other. */
  predicate Locked(lockouts: Lockouts, user: string, now: int) {
    user != "" && user in lockouts && lockouts[user].lockedUntil > now
  }

  function Failed(lockouts: Lockouts, user: string, now: int, zero: int): Lockouts {
    if user == "" then lockouts
    else
      var l := if user in lockouts then lockouts[user] else Lockout(0, zero);
      lockouts[user := if l.failed + 1 >= FAIL_LIMIT then Lockout(0, now + LOCKOUT) else l.(failed := l.failed + 1)]
  }

  function Reset(lockouts: Lockouts, user: string): Lockouts {
    if user == "" then lockouts else lockouts - {user}
  }

  // ---- logins

  /** One login request with the clock readings of its three checks; `matches` is whether the user exists
      and the password compares equal. */
  datatype Login = Login(client: string, user: string, rateTime: int, lockTime: int, failTime: int, matches: bool)

  datatype Outcome = TooMany | AccountLocked | Refused | Accepted

  datatype State = State(rates: Rates, lockouts: Lockouts)

  function OutcomeOf(s: State, e: Login): Outcome {
    if Limited(RateOf(s.rates, e.client), e.rateTime) then TooMany
    else if Locked(s.lockouts, e.user, e.lockTime) then AccountLocked
    else if !e.matches then Refused
    else Accepted
  }

  function After(s: State, e: Login, zero: int): State {
    State(Hit(s.rates, e.client, e.rateTime),
          match OutcomeOf(s, e)
          case Refused => Failed(s.lockouts, e.user, e.failTime, zero)
          case Accepted => Reset(s.lockouts, e.user)
          case _ => s.lockouts)
  }

  class AuthHandler {
    var rate: Rates
    var lockouts: Lockouts
    const zero: int    // the zero time

    constructor (zero: int)
      ensures rate == map[] && lockouts == map[] && this.zero == zero
    {
      rate, lockouts := map[], map[];
      this.zero := zero;
    }

    method CheckRateLimit(key: string, now: int) returns (limited: bool, retry: int)
      modifies this`rate
      ensures limited <==> Limited(old(RateOf(rate, key)), now)
      ensures rate == Hit(old(rate), key, now)
      ensures retry == if limited then old(RateOf(rate, key)).start + WINDOW - now else 0
    {
      var state := RateOf(rate, key);
      if state.Fresh? || now - state.start > WINDOW {
        state := Window(0, now);
      }
      if state.count >= MAX_HITS {
        return true, WINDOW - (now - state.start);
      }
      state := state.(count := state.count + 1);
      rate := rate[key := state];
      return false, 0;
    }

    method IsLocked(user: string, now: int) returns (locked: bool, remaining: int)
      ensures locked <==> Locked(lockouts, user, now)
      ensures remaining == if locked then lockouts[user].lockedUntil - now else 0
    {
      if user == "" {
        return false, 0;
      }
      if user in lockouts && lockouts[user].lockedUntil > now {
        return true, lockouts[user].lockedUntil - now;
      }
      return false, 0;
    }

    method RegisterFailure(user: string, now: int)
      modifies this`lockouts
      ensures lockouts == Failed(old(lockouts), user, now, zero)
    {
      if user == "" {
        return;
      }
      var state := Lockout(0, zero);
      if user in lockouts {
        state := lockouts[user];
      }
      state := state.(failed := state.failed + 1);
      if state.failed >= FAIL_LIMIT {
        state := Lockout(0, now + LOCKOUT);
      }
      lockouts := lockouts[user := state];
    }

    method ResetFailures(user: string)
      modifies this`lockouts
      ensures lockouts == Reset(old(lockouts), user)
    {
      if user == "" {
        return;
      }
      lockouts := lockouts - {user};
    }

    method LogIn(e: Login) returns (r: Outcome)
      modifies this`rate, this`lockouts
      ensures r == OutcomeOf(State(old(rate), old(lockouts)), e)
      ensures State(rate, lockouts) == After(State(old(rate), old(lockouts)), e, zero)
    {
      var limited, _ := CheckRateLimit(e.client, e.rateTime);
      if limited {
        return TooMany;
      }
      var locked, _ := IsLocked(e.user, e.lockTime);
      if locked {
        return AccountLocked;
      }
      if !e.matches {
        RegisterFailure(e.user, e.failTime);
        return Refused;
      }
      ResetFailures(e.user);
      return Accepted;
    }
  }

  // ---- the rate limit over histories

  /** One rate check: whose, and the clock reading it uses. A history lists them in the order in which
      their critical sections ran, whatever the requests they belong to did besides. */
  datatype Check = Check(client: string, time: int)

  ghost predicate Rising(checks: seq<Check>) {
    forall k :: 0 < k < |checks| ==> checks[k - 1].time <= checks[k].time
  }

  function RatesAfter(rates: Rates, checks: seq<Check>): Rates {
    if checks == [] then rates
    else Hit(RatesAfter(rates, checks[..|checks| - 1]), checks[|checks| - 1].client, checks[|checks| - 1].time)
  }

  predicate Admitted(before: Rates, c: Check, key: string, from: int, to: int) {
    c.client == key && from <= c.time <= to && !Limited(RateOf(before, key), c.time)
  }

  /** How many checks of one key with a reading in [from, to] let their request through. */
  function Hits(rates: Rates, checks: seq<Check>, key: string, from: int, to: int): nat {
    if checks == [] then 0
    else
      var init := checks[..|checks| - 1];
      Hits(rates, init, key, from, to) + if Admitted(RatesAfter(rates, init), checks[|checks| - 1], key, from, to) then 1 else 0
  }

  lemma {:induction false} RisingPrefix(checks: seq<Check>)
    requires Rising(checks) && checks != []
    ensures Rising(checks[..|checks| - 1])
    ensures forall k :: 0 <= k < |checks| ==> checks[k].time <= checks[|checks| - 1].time
    decreases |checks|
  {
    var init := checks[..|checks| - 1];
    assert Rising(init);
    if init != [] {
      RisingPrefix(init);
      assert init[|init| - 1] == checks[|checks| - 2];
      forall k | 0 <= k < |checks| ensures checks[k].time <= checks[|checks| - 1].time {
        if k < |init| { assert init[k] == checks[k]; }
      }
    }
  }

  /** How many hits the windows so far can have placed in [from, from + n * WINDOW]: `started` windows
      began inside it, and `carried` is what a window that was open when the interval began left in it. */
  ghost predicate WindowsFit(s: RateState, hits: nat, from: int, started: nat, carried: nat) {
    && s.Window? && 1 <= s.count <= MAX_HITS
    && (started == 0 ==> s.start < from && carried == 0 && hits < s.count && (hits > 0 ==> from <= s.start + WINDOW))
    && (started > 0 ==>
          && carried < MAX_HITS && hits <= carried + s.count + MAX_HITS * (started - 1)
          && s.start >= from + WINDOW * (started - 1)
          && (carried > 0 || started > 1 ==> s.start > from + WINDOW * (started - 1)))
  }

  function HitBound(n: nat): nat { if n == 0 then MAX_HITS else MAX_HITS * n + MAX_HITS - 1 }

  ghost predicate RateInv(s: RateState, hits: nat, from: int, n: nat, started: nat, carried: nat) {
    && hits <= HitBound(n)
    && (s.Fresh? ==> hits == 0)
    && (s.Window? && s.start <= from + WINDOW * n ==> WindowsFit(s, hits, from, started, carried))
  }

  lemma WindowsBound(s: RateState, hits: nat, from: int, n: nat, started: nat, carried: nat)
    requires WindowsFit(s, hits, from, started, carried) && s.start <= from + WINDOW * n
    ensures hits <= HitBound(n)
  {
  }

  /** One hit of the key that is admitted. */
  lemma HitKeepsInv(s: RateState, hits: nat, from: int, n: nat, started: nat, carried: nat, now: int)
    returns (started': nat, carried': nat)
    requires RateInv(s, hits, from, n, started, carried) && !Limited(s, now)
    requires s.Window? ==> s.start <= now && s.count <= MAX_HITS
    ensures RateInv(AfterHit(s, now), hits + if from <= now <= from + WINDOW * n then 1 else 0, from, n, started', carried')
  {
    var s' := AfterHit(s, now);
    var hits' := hits + if from <= now <= from + WINDOW * n then 1 else 0;
    started', carried' := started, carried;
    if s'.start <= from + WINDOW * n {
      if !Open(s, now) && now >= from {
        if s.Fresh? || (started == 0 && hits == 0) {
          started', carried' := 1, 0;
        } else if started == 0 {
          started', carried' := 1, hits;
        } else {
          started' := started + 1;
        }
      } else if !Open(s, now) {
        started', carried' := 0, 0;
        assert hits == 0;
      }
      assert WindowsFit(s', hits', from, started', carried');
      WindowsBound(s', hits', from, n, started', carried');
    }
  }

  lemma {:induction false} RateHistory(rates: Rates, checks: seq<Check>, key: string, from: int, n: nat)
    returns (started: nat, carried: nat)
    requires Rising(checks) && RateOf(rates, key) == Fresh
    ensures var s := RateOf(RatesAfter(rates, checks), key);
            && RateInv(s, Hits(rates, checks, key, from, from + WINDOW * n), from, n, started, carried)
            && (s.Window? ==> checks != [] && s.start <= checks[|checks| - 1].time && s.count <= MAX_HITS)
    decreases |checks|
  {
    started, carried := 0, 0;
    if checks != [] {
      var init, c := checks[..|checks| - 1], checks[|checks| - 1];
      RisingPrefix(checks);
      var before := RatesAfter(rates, init);
      started, carried := RateHistory(rates, init, key, from, n);
      if c.client == key && !Limited(RateOf(before, key), c.time) {
        started, carried := HitKeepsInv(RateOf(before, key), Hits(rates, init, key, from, from + WINDOW * n),
                                        from, n, started, carried, c.time);
      }
    }
  }

  /** However requests of all clients interleave and overlap, a closed interval of n windows' length lets
      at most 20n + 19 requests of one client through, and a single instant at most 20. */
  lemma RateBound(rates: Rates, checks: seq<Check>, key: string, from: int, n: nat)
    requires Rising(checks) && RateOf(rates, key) == Fresh
    ensures Hits(rates, checks, key, from, from + WINDOW * n) <= if n == 0 then 20 else 20 * n + 19
  {
    var _, _ := RateHistory(rates, checks, key, from, n);
  }

  // ---- readings that overtake one another

  /** The clock is read before the mutex is taken, so a check may run with a reading that is behind an
      earlier one's, by at most `skew`. */
  ghost predicate Skewed(checks: seq<Check>, skew: nat) {
    forall j, k :: 0 <= j < k < |checks| ==> checks[j].time <= checks[k].time + skew
  }

  /** `windows` counts the windows that can have placed hits in the interval. */
  ghost predicate SkewFit(s: RateState, hits: nat, from: int, windows: nat) {
    && s.Window? && 1 <= s.count <= MAX_HITS
    && (windows == 0 ==> s.start < from - WINDOW && hits == 0)
    && (windows > 0 ==>
          && hits <= MAX_HITS * (windows - 1) + s.count
          && s.start >= from - WINDOW + WINDOW * (windows - 1)
          && (windows > 1 ==> s.start > from - WINDOW + WINDOW * (windows - 1)))
  }

  function SkewBound(n: nat, skew: nat): nat { MAX_HITS * (n + 1 + (skew + WINDOW - 1) / WINDOW) }

  ghost predicate SkewInv(s: RateState, hits: nat, from: int, n: nat, skew: nat, windows: nat) {
    && hits <= SkewBound(n, skew)
    && (s.Fresh? ==> hits == 0)
    && (s.Window? ==> 1 <= s.count <= MAX_HITS)
    && (s.Window? && s.start <= from + WINDOW * n + skew ==> SkewFit(s, hits, from, windows))
  }

  lemma SkewFitBound(s: RateState, hits: nat, from: int, n: nat, skew: nat, windows: nat)
    requires SkewFit(s, hits, from, windows) && s.start <= from + WINDOW * n + skew
    ensures hits <= SkewBound(n, skew)
  {
    var extra := (skew + WINDOW - 1) / WINDOW;
    assert WINDOW * extra >= skew;
    if windows > 1 {
      assert WINDOW * (windows - 1) < WINDOW * (n + 1 + extra);
      assert windows - 1 < n + 1 + extra;
    }
  }

  lemma SkewedHit(s: RateState, hits: nat, from: int, n: nat, skew: nat, windows: nat, now: int) returns (windows': nat)
    requires SkewInv(s, hits, from, n, skew, windows) && !Limited(s, now)
    requires s.Window? ==> s.start <= now + skew
    ensures SkewInv(AfterHit(s, now), hits + if from <= now <= from + WINDOW * n then 1 else 0, from, n, skew, windows')
  {
    var s' := AfterHit(s, now);
    var hits' := hits + if from <= now <= from + WINDOW * n then 1 else 0;
    windows' := windows;
    if s'.start <= from + WINDOW * n + skew {
      if !Open(s, now) {
        windows' := if now < from - WINDOW then 0 else if s.Fresh? then 1 else windows + 1;
      }
      assert SkewFit(s', hits', from, windows');
      SkewFitBound(s', hits', from, n, skew, windows');
    }
  }

  /** A window starts at some check's reading. */
  lemma {:induction false} StartIsReading(rates: Rates, checks: seq<Check>, key: string)
    requires RateOf(rates, key) == Fresh
    ensures var s := RateOf(RatesAfter(rates, checks), key);
            s.Window? ==> exists k :: 0 <= k < |checks| && checks[k].time == s.start
    decreases |checks|
  {
    if checks != [] {
      var init, c := checks[..|checks| - 1], checks[|checks| - 1];
      StartIsReading(rates, init, key);
      var before := RateOf(RatesAfter(rates, init), key);
      if before.Window? {
        var k :| 0 <= k < |init| && init[k].time == before.start;
        assert checks[k].time == before.start;
      }
    }
  }

  lemma SkewedPrefix(checks: seq<Check>, skew: nat)
    requires Skewed(checks, skew) && checks != []
    ensures Skewed(checks[..|checks| - 1], skew)
  {
    assert forall k :: 0 <= k < |checks| - 1 ==> checks[..|checks| - 1][k] == checks[k];
  }

  lemma {:induction false} SkewHistory(rates: Rates, checks: seq<Check>, key: string, from: int, n: nat, skew: nat)
    returns (windows: nat)
    requires Skewed(checks, skew) && RateOf(rates, key) == Fresh
    ensures SkewInv(RateOf(RatesAfter(rates, checks), key), Hits(rates, checks, key, from, from + WINDOW * n), from, n, skew, windows)
    decreases |checks|
  {
    windows := 0;
    if checks != [] {
      var init, c := checks[..|checks| - 1], checks[|checks| - 1];
      SkewedPrefix(checks, skew);
      windows := SkewHistory(rates, init, key, from, n, skew);
      StartIsReading(rates, init, key);
      var s, hits := RateOf(RatesAfter(rates, init), key), Hits(rates, init, key, from, from + WINDOW * n);
      if c.client == key && !Limited(s, c.time) {
        windows := SkewedHit(s, hits, from, n, skew, windows, c.time);
      }
    }
  }

  /** With readings at most `skew` out of order, the bound grows by twenty for every window's length the
      skew has begun; without skew it is 20 (n + 1). */
  lemma RateBoundSkewed(rates: Rates, checks: seq<Check>, key: string, from: int, n: nat, skew: nat)
    requires Skewed(checks, skew) && RateOf(rates, key) == Fresh
    ensures Hits(rates, checks, key, from, from + WINDOW * n) <= 20 * (n + 1 + (skew + WINDOW - 1) / WINDOW)
  {
    var _ := SkewHistory(rates, checks, key, from, n, skew);
  }

  /** The checks of one client. */
  function Own(checks: seq<Check>, key: string): seq<Check> {
    if checks == [] then []
    else Own(checks[..|checks| - 1], key) + if checks[|checks| - 1].client == key then [checks[|checks| - 1]] else []
  }

  lemma HitOf(a: Rates, b: Rates, client: string, key: string, now: int)
    requires RateOf(a, key) == RateOf(b, key)
    ensures client != key ==> RateOf(Hit(a, client, now), key) == RateOf(a, key)
    ensures client == key ==> RateOf(Hit(a, client, now), key) == RateOf(Hit(b, client, now), key)
  {
  }

  lemma OneMoreCheck(rates: Rates, checks: seq<Check>, c: Check)
    ensures RatesAfter(rates, checks + [c]) == Hit(RatesAfter(rates, checks), c.client, c.time)
  {
    assert (checks + [c])[..|checks|] == checks;
  }

  /** Other clients never change what the limit says to this one: its state is the one its own requests
      alone would have led to. */
  lemma {:induction false} OtherClientsIrrelevant(rates: Rates, checks: seq<Check>, key: string)
    ensures RateOf(RatesAfter(rates, checks), key) == RateOf(RatesAfter(rates, Own(checks, key)), key)
    decreases |checks|
  {
    if checks != [] {
      var init, c := checks[..|checks| - 1], checks[|checks| - 1];
      OtherClientsIrrelevant(rates, init, key);
      OneMoreCheck(rates, Own(init, key), c);
      HitOf(RatesAfter(rates, init), RatesAfter(rates, Own(init, key)), c.client, key, c.time);
      assert c.client != key ==> Own(checks, key) == Own(init, key);
    }
  }

  // ---- histories of logins

  /** Sequential requests read a non-decreasing clock. */
  ghost predicate Ordered(events: seq<Login>) {
    && (forall k :: 0 <= k < |events| ==> events[k].rateTime <= events[k].lockTime <= events[k].failTime)
    && (forall k :: 0 < k < |events| ==> events[k - 1].failTime <= events[k].rateTime)
  }

  function StateAfter(start: State, events: seq<Login>, zero: int): State {
    if events == [] then start
    else After(StateAfter(start, events[..|events| - 1], zero), events[|events| - 1], zero)
  }

  lemma OrderedPrefix(events: seq<Login>)
    requires Ordered(events) && events != []
    ensures Ordered(events[..|events| - 1])
    ensures forall k :: 0 <= k < |events| ==> events[k].failTime <= events[|events| - 1].failTime
    ensures forall k :: 0 <= k < |events| - 1 ==> events[k].failTime <= events[|events| - 1].rateTime
    decreases |events|
  {
    var init := events[..|events| - 1];
    assert Ordered(init);
    if init != [] {
      OrderedPrefix(init);
      assert init[|init| - 1] == events[|events| - 2];
      forall k | 0 <= k < |events| - 1 ensures events[k].failTime <= events[|events| - 1].rateTime {
        assert init[k] == events[k];
      }
    }
  }

  function ChecksOf(events: seq<Login>): (checks: seq<Check>)
    ensures |checks| == |events|
    ensures forall k :: 0 <= k < |checks| ==> checks[k] == Check(events[k].client, events[k].rateTime)
  {
    seq(|events|, k requires 0 <= k < |events| => Check(events[k].client, events[k].rateTime))
  }

  /** Lockouts and passwords have no part in the rate limit: a login history leaves it as its rate checks
      alone do. */
  lemma {:induction false} RatesOfLogins(start: State, events: seq<Login>, zero: int)
    ensures StateAfter(start, events, zero).rates == RatesAfter(start.rates, ChecksOf(events))
    decreases |events|
  {
    if events != [] {
      var init := events[..|events| - 1];
      RatesOfLogins(start, init, zero);
      assert ChecksOf(events)[..|events| - 1] == ChecksOf(init);
    }
  }

  // ---- lockouts over histories

  /** When the attempts on a user that were compared and refused since its last success were registered. */
  function Refusals(start: State, events: seq<Login>, zero: int, user: string): seq<int> {
    if events == [] then []
    else
      var init, e := events[..|events| - 1], events[|events| - 1];
      var so := Refusals(start, init, zero, user);
      if e.user != user then so
      else
        match OutcomeOf(StateAfter(start, init, zero), e)
        case Refused => so + [e.failTime]
        case Accepted => []
        case _ => so
  }

  ghost predicate Spaced(times: seq<int>) {
    forall i :: 0 <= i && i + FAIL_LIMIT < |times| ==> times[i + FAIL_LIMIT] - times[i] >= LOCKOUT
  }

  ghost predicate UpTo(times: seq<int>, now: int) {
    && (forall i, j :: 0 <= i < j < |times| ==> times[i] <= times[j])
    && (forall i :: 0 <= i < |times| ==> times[i] <= now)
  }

  /** Every refusal but those counted since the last lock is five minutes behind the end of the lock. */
  ghost predicate LockInv(lockouts: Lockouts, times: seq<int>, user: string) {
    && (user in lockouts ==> lockouts[user].failed < FAIL_LIMIT)
    && (user !in lockouts ==> times == [])
    && (user in lockouts ==> forall i :: 0 <= i < |times| - lockouts[user].failed ==> times[i] + LOCKOUT <= lockouts[user].lockedUntil)
  }

  lemma RefusalKeeps(lockouts: Lockouts, times: seq<int>, user: string, lockTime: int, now: int, zero: int)
    requires user != "" && LockInv(lockouts, times, user) && Spaced(times) && UpTo(times, lockTime) && lockTime <= now
    requires !Locked(lockouts, user, lockTime)
    ensures LockInv(Failed(lockouts, user, now, zero), times + [now], user) && Spaced(times + [now]) && UpTo(times + [now], now)
  {
  }

  lemma {:induction false} LockHistory(start: State, events: seq<Login>, zero: int, user: string)
    requires Ordered(events) && user != ""
    requires user in start.lockouts ==> start.lockouts[user].failed < FAIL_LIMIT
    ensures var times := Refusals(start, events, zero, user);
            && LockInv(StateAfter(start, events, zero).lockouts, times, user) && Spaced(times)
            && (events == [] ==> times == []) && (events != [] ==> UpTo(times, events[|events| - 1].failTime))
    decreases |events|
  {
    if events != [] {
      var init, e := events[..|events| - 1], events[|events| - 1];
      OrderedPrefix(events);
      LockHistory(start, init, zero, user);
      var before, times := StateAfter(start, init, zero), Refusals(start, init, zero, user);
      assert UpTo(times, e.rateTime);
      if e.user == user && OutcomeOf(before, e) == Refused {
        RefusalKeeps(before.lockouts, times, user, e.lockTime, e.failTime, zero);
      }
    }
  }

  /** Without a success in between, five refused attempts on a user are spread over at least five
      minutes: the sixth comes no sooner. */
  lemma LockoutSpacing(start: State, events: seq<Login>, zero: int, user: string, i: nat)
    requires Ordered(events) && user != ""
    requires user in start.lockouts ==> start.lockouts[user].failed < FAIL_LIMIT
    requires i + 5 < |Refusals(start, events, zero, user)|
    ensures var times := Refusals(start, events, zero, user);
            times[i + 5] - times[i] >= 5 * MINUTE
  {
    LockHistory(start, events, zero, user);
  }

  lemma {:induction false} SpacedApart(times: seq<int>, i: nat, q: nat)
    requires Spaced(times) && i + FAIL_LIMIT * q < |times|
    ensures times[i + FAIL_LIMIT * q] - times[i] >= LOCKOUT * q
    decreases q
  {
    if q > 0 {
      SpacedApart(times, i, q - 1);
    }
  }

  /** A stretch of refused attempts on one user that spans the time T holds at most 5(T/5min + 1) of
      them: guessing is limited to five tries in five minutes in the long run. */
  lemma GuessBound(start: State, events: seq<Login>, zero: int, user: string, i: nat, j: nat)
    requires Ordered(events) && user != ""
    requires user in start.lockouts ==> start.lockouts[user].failed < FAIL_LIMIT
    requires i <= j < |Refusals(start, events, zero, user)|
    ensures var times := Refusals(start, events, zero, user);
            times[i] <= times[j] && j - i + 1 <= 5 * ((times[j] - times[i]) / LOCKOUT + 1)
  {
    LockHistory(start, events, zero, user);
    SpacedCount(Refusals(start, events, zero, user), events[|events| - 1].failTime, i, j);
  }

  lemma SpacedCount(times: seq<int>, now: int, i: nat, j: nat)
    requires Spaced(times) && UpTo(times, now) && i <= j < |times|
    ensures times[i] <= times[j] && j - i + 1 <= 5 * ((times[j] - times[i]) / LOCKOUT + 1)
  {
    var q := (j - i) / FAIL_LIMIT;
    SpacedApart(times, i, q);
    assert times[i + FAIL_LIMIT * q] <= times[j];
  }

  // ---- exactly when an account is locked

  /** The entry of a user is its refusals since the last success, counted in fives: the last full five
      decide the end of the lock. */
  ghost predicate CountedInFives(lockouts: Lockouts, times: seq<int>, user: string, zero: int) {
    var n := |times|;
    if n == 0 then user !in lockouts
    else user in lockouts && lockouts[user] == Lockout(n % FAIL_LIMIT, if n < FAIL_LIMIT then zero else times[FAIL_LIMIT * (n / FAIL_LIMIT) - 1] + LOCKOUT)
  }

  lemma FifthRefusalLocks(lockouts: Lockouts, times: seq<int>, user: string, now: int, zero: int)
    requires user != "" && CountedInFives(lockouts, times, user, zero)
    ensures CountedInFives(Failed(lockouts, user, now, zero), times + [now], user, zero)
  {
    var n := |times|;
    if n % FAIL_LIMIT == FAIL_LIMIT - 1 {
      assert FAIL_LIMIT * ((n + 1) / FAIL_LIMIT) == n + 1;
    } else {
      assert (n + 1) / FAIL_LIMIT == n / FAIL_LIMIT && (n + 1) % FAIL_LIMIT == n % FAIL_LIMIT + 1;
    }
  }

  lemma {:induction false} CountHistory(start: State, events: seq<Login>, zero: int, user: string)
    requires user != "" && user !in start.lockouts
    ensures CountedInFives(StateAfter(start, events, zero).lockouts, Refusals(start, events, zero, user), user, zero)
    decreases |events|
  {
    if events != [] {
      var init, e := events[..|events| - 1], events[|events| - 1];
      CountHistory(start, init, zero, user);
      var before, times := StateAfter(start, init, zero), Refusals(start, init, zero, user);
      if e.user == user && OutcomeOf(before, e) == Refused {
        FifthRefusalLocks(before.lockouts, times, user, e.failTime, zero);
      }
    }
  }

  /** One of the refusals numbered 5, 10, 15, … was registered less than five minutes before a time. */
  ghost predicate FifthWithin(times: seq<int>, now: int) {
    exists k :: 0 < k && 5 * k <= |times| && FifthAt(times, k, now)
  }

  predicate FifthAt(times: seq<int>, k: int, now: int)
    requires 0 < k && 5 * k <= |times|
  {
    now < times[5 * k - 1] + 5 * MINUTE
  }

  lemma LatestFifth(lockouts: Lockouts, times: seq<int>, user: string, zero: int, now: int, last: int)
    requires user != "" && CountedInFives(lockouts, times, user, zero) && zero <= now
    requires times != [] ==> UpTo(times, last)
    ensures Locked(lockouts, user, now) <==> FifthWithin(times, now)
  {
    var n := |times| / FAIL_LIMIT;
    if n > 0 {
      assert FifthAt(times, n, now) <==> Locked(lockouts, user, now);
    }
    if FifthWithin(times, now) {
      var k :| 0 < k && 5 * k <= |times| && FifthAt(times, k, now);
      assert 5 * k - 1 <= 5 * n - 1;
      assert times[5 * k - 1] <= times[5 * n - 1];
    }
  }

  /** What a login is answered after any history, for a user that starts without an entry: unless the rate
      limit stops it, the account is locked exactly when one of the refusals numbered 5, 10, 15, … since the
      user's last success is less than five minutes old; otherwise the password alone decides. */
  lemma LockedExactly(start: State, events: seq<Login>, zero: int, e: Login)
    requires Ordered(events) && e.user !in start.lockouts && zero <= e.lockTime
    requires OutcomeOf(StateAfter(start, events, zero), e) != TooMany
    ensures OutcomeOf(StateAfter(start, events, zero), e)
            == if e.user != "" && FifthWithin(Refusals(start, events, zero, e.user), e.lockTime) then AccountLocked
               else if e.matches then Accepted else Refused
  {
    if e.user != "" {
      CountHistory(start, events, zero, e.user);
      LockHistory(start, events, zero, e.user);
      LatestFifth(StateAfter(start, events, zero).lockouts, Refusals(start, events, zero, e.user), e.user, zero, e.lockTime,
                  if events == [] then 0 else events[|events| - 1].failTime);
    }
  }

  /** Four mistakes are forgiven: with fewer than five refusals since the last success, the right password
      is accepted. */
  lemma FourMistakesForgiven(start: State, events: seq<Login>, zero: int, e: Login)
    requires Ordered(events) && e.user !in start.lockouts && zero <= e.lockTime && e.matches
    requires OutcomeOf(StateAfter(start, events, zero), e) != TooMany
    requires |Refusals(start, events, zero, e.user)| < 5
    ensures OutcomeOf(StateAfter(start, events, zero), e) == Accepted
  {
    LockedExactly(start, events, zero, e);
  }

  // ---- the limit stops nobody early

  lemma {:induction false} CountedHits(rates: Rates, checks: seq<Check>, key: string, from: int, to: int)
    requires Rising(checks) && RateOf(rates, key) == Fresh
    requires forall k :: 0 <= k < |checks| ==> checks[k].time <= to
    ensures var s := RateOf(RatesAfter(rates, checks), key);
            s.Window? && from <= s.start ==> s.count <= Hits(rates, checks, key, from, to)
    decreases |checks|
  {
    if checks != [] {
      var init, c := checks[..|checks| - 1], checks[|checks| - 1];
      RisingPrefix(checks);
      CountedHits(rates, init, key, from, to);
      StartIsReading(rates, init, key);
      var s := RateOf(RatesAfter(rates, init), key);
      if s.Window? {
        var k :| 0 <= k < |init| && init[k].time == s.start;
        assert checks[k].time <= c.time;
      }
    }
  }

  /** Nobody is stopped early: a request that the limit refuses comes within a minute after twenty of the
      same client that were let through. */
  lemma LimitedAfterTwenty(rates: Rates, checks: seq<Check>, c: Check)
    requires Rising(checks) && RateOf(rates, c.client) == Fresh
    requires forall k :: 0 <= k < |checks| ==> checks[k].time <= c.time
    requires Limited(RateOf(RatesAfter(rates, checks), c.client), c.time)
    ensures Hits(rates, checks, c.client, c.time - MINUTE, c.time) >= 20
  {
    CountedHits(rates, checks, c.client, c.time - MINUTE, c.time);
  }
}
