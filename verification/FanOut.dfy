/** The pollers' fan-out over PONs as a system of interleaved steps: a goroutine per PON, two places in
    a semaphore, a slot per result, and a wait group. */
module FanOut {
  const PLACES := 2

  /** Where a goroutine is. It leaves the semaphore before it tells the wait group, since deferred calls
      run last first. */
  datatype Phase = Idle | Spawned | Polling | Written | Released | Finished

  datatype Outcome = Polled(count: int) | PollFailed

  /** `inside` is the number of tokens in the semaphore, `waiting` the wait group's counter and `writes`
      how often each slot was written. */
  datatype State = State(
    phases: seq<Phase>, slots: seq<Outcome>, writes: seq<nat>,
    spawned: nat, inside: nat, waiting: nat, past: bool)

  datatype Move = Spawn | Advance(i: nat) | Pass

  function Next(p: Phase): Phase {
    match p
    case Idle => Spawned
    case Spawned => Polling
    case Polling => Written
    case Written => Released
    case Released => Finished
    case Finished => Finished
  }

  function Start(n: nat): State {
    State(seq(n, _ => Idle), seq(n, _ => Polled(0)), seq(n, _ => 0), 0, 0, 0, false)
  }

  predicate Enabled(s: State, m: Move) {
    match m
    case Spawn => s.spawned < |s.phases|
    case Advance(i) =>
      && i < |s.phases| && s.phases[i] != Idle && s.phases[i] != Finished
      && (s.phases[i] == Spawned ==> s.inside < PLACES)
      && (s.phases[i] == Written ==> s.inside > 0)
      && (s.phases[i] == Released ==> s.waiting > 0)
    case Pass => s.spawned == |s.phases| && s.waiting == 0 && !s.past
  }

  /** One move; `outcomes` is what polling each PON gives. */
  function Apply(s: State, m: Move, outcomes: seq<Outcome>): State
    requires Enabled(s, m) && |outcomes| == |s.phases| == |s.slots| == |s.writes|
  {
    match m
    case Spawn => s.(phases := s.phases[s.spawned := Spawned], spawned := s.spawned + 1, waiting := s.waiting + 1)
    case Pass => s.(past := true)
    case Advance(i) =>
      var on := s.(phases := s.phases[i := Next(s.phases[i])]);
      match s.phases[i]
      case Spawned => on.(inside := s.inside + 1)
      case Polling => on.(slots := s.slots[i := outcomes[i]], writes := s.writes[i := s.writes[i] + 1])
      case Written => on.(inside := s.inside - 1)
      case Released => on.(waiting := s.waiting - 1)
      case _ => on
  }

  // ---- counting goroutines

  function Count(phases: seq<Phase>, which: set<Phase>): nat {
    if phases == [] then 0 else (if phases[0] in which then 1 else 0) + Count(phases[1..], which)
  }

  lemma {:induction false} CountUpdate(phases: seq<Phase>, i: nat, p: Phase, which: set<Phase>)
    requires i < |phases|
    ensures Count(phases[i := p], which) + (if phases[i] in which then 1 else 0) == Count(phases, which) + (if p in which then 1 else 0)
  {
    if i == 0 {
      assert phases[i := p][1..] == phases[1..];
    } else {
      CountUpdate(phases[1..], i - 1, p, which);
      assert phases[i := p][1..] == phases[1..][i - 1 := p];
    }
  }

  lemma {:induction false} CountZero(phases: seq<Phase>, which: set<Phase>)
    ensures Count(phases, which) == 0 <==> forall i :: 0 <= i < |phases| ==> phases[i] !in which
  {
    if phases != [] {
      CountZero(phases[1..], which);
      assert forall i :: 0 < i < |phases| ==> phases[i] == phases[1..][i - 1];
      assert forall i :: 0 <= i < |phases| - 1 ==> phases[1..][i] == phases[i + 1];
    }
  }

  /** The steps a goroutine still has before it, spawning included. */
  function Weight(p: Phase): nat {
    match p
    case Idle => 5
    case Spawned => 4
    case Polling => 3
    case Written => 2
    case Released => 1
    case Finished => 0
  }

  function Weights(phases: seq<Phase>): nat {
    if phases == [] then 0 else Weight(phases[0]) + Weights(phases[1..])
  }

  lemma {:induction false} WeightsUpdate(phases: seq<Phase>, i: nat, p: Phase)
    requires i < |phases|
    ensures Weights(phases[i := p]) + Weight(phases[i]) == Weights(phases) + Weight(p)
  {
    if i == 0 {
      assert phases[i := p][1..] == phases[1..];
    } else {
      WeightsUpdate(phases[1..], i - 1, p);
      assert phases[i := p][1..] == phases[1..][i - 1 := p];
    }
  }

  function Left(s: State): nat { Weights(s.phases) + if s.past then 0 else 1 }

  // ---- invariant

  const INSIDE := {Polling, Written}
  const COUNTED := {Spawned, Polling, Written, Released}

  predicate Wrote(p: Phase) { p == Written || p == Released || p == Finished }

  ghost predicate Inv(s: State, outcomes: seq<Outcome>) {
    && |outcomes| == |s.phases| == |s.slots| == |s.writes|
    && s.spawned <= |s.phases|
    && s.inside == Count(s.phases, INSIDE) <= PLACES
    && s.waiting == Count(s.phases, COUNTED)
    && (forall i :: 0 <= i < |s.phases| ==> (s.phases[i] == Idle <==> s.spawned <= i))
    && (forall i :: 0 <= i < |s.phases| ==> s.writes[i] == if Wrote(s.phases[i]) then 1 else 0)
    && (forall i :: 0 <= i < |s.phases| ==> s.slots[i] == if Wrote(s.phases[i]) then outcomes[i] else Polled(0))
    && (s.past ==> forall i :: 0 <= i < |s.phases| ==> s.phases[i] == Finished)
  }

  lemma {:induction false} CountNone(n: nat, which: set<Phase>)
    requires Idle !in which
    ensures Count(seq(n, _ => Idle), which) == 0 && Weights(seq(n, _ => Idle)) == 5 * n
  {
    if n > 0 {
      assert seq(n, _ => Idle)[1..] == seq(n - 1, _ => Idle);
      CountNone(n - 1, which);
    }
  }

  lemma StartInv(outcomes: seq<Outcome>)
    ensures Inv(Start(|outcomes|), outcomes) && Left(Start(|outcomes|)) == 5 * |outcomes| + 1
  {
    CountNone(|outcomes|, INSIDE);
    CountNone(|outcomes|, COUNTED);
  }

  lemma SpawnKeepsInv(s: State, outcomes: seq<Outcome>)
    requires Inv(s, outcomes) && Enabled(s, Spawn)
    ensures Inv(Apply(s, Spawn, outcomes), outcomes) && Left(Apply(s, Spawn, outcomes)) == Left(s) - 1
  {
    CountUpdate(s.phases, s.spawned, Spawned, INSIDE);
    CountUpdate(s.phases, s.spawned, Spawned, COUNTED);
    WeightsUpdate(s.phases, s.spawned, Spawned);
  }

  lemma AdvanceKeepsInv(s: State, i: nat, outcomes: seq<Outcome>)
    requires Inv(s, outcomes) && Enabled(s, Advance(i))
    ensures Inv(Apply(s, Advance(i), outcomes), outcomes) && Left(Apply(s, Advance(i), outcomes)) == Left(s) - 1
  {
    CountUpdate(s.phases, i, Next(s.phases[i]), INSIDE);
    CountUpdate(s.phases, i, Next(s.phases[i]), COUNTED);
    WeightsUpdate(s.phases, i, Next(s.phases[i]));
  }

  /** Every move keeps the invariant and shortens what is left by exactly one. */
  lemma MoveKeepsInv(s: State, m: Move, outcomes: seq<Outcome>)
    requires Inv(s, outcomes) && Enabled(s, m)
    ensures Inv(Apply(s, m, outcomes), outcomes) && Left(Apply(s, m, outcomes)) == Left(s) - 1
  {
    match m
    case Spawn => SpawnKeepsInv(s, outcomes);
    case Pass => CountZero(s.phases, COUNTED);
    case Advance(i) => AdvanceKeepsInv(s, i, outcomes);
  }

  /** Until the wait has ended some move is possible: nothing blocks for good. */
  lemma Progress(s: State, outcomes: seq<Outcome>) returns (m: Move)
    requires Inv(s, outcomes) && !s.past
    ensures Enabled(s, m)
  {
    if s.spawned < |s.phases| {
      return Spawn;
    }
    if s.waiting == 0 {
      return Pass;
    }
    CountZero(s.phases, COUNTED);
    if s.inside == 0 {
      CountZero(s.phases, INSIDE);
      var i :| 0 <= i < |s.phases| && s.phases[i] in COUNTED;
      return Advance(i);
    }
    CountZero(s.phases, INSIDE);
    var i :| 0 <= i < |s.phases| && s.phases[i] in INSIDE;
    return Advance(i);
  }

  // ---- runs

  ghost predicate Run(states: seq<State>, moves: seq<Move>, outcomes: seq<Outcome>) {
    && |states| == |moves| + 1 && states[0] == Start(|outcomes|)
    && (forall k :: 0 <= k < |moves| ==>
          && |outcomes| == |states[k].phases| == |states[k].slots| == |states[k].writes|
          && Enabled(states[k], moves[k]) && states[k + 1] == Apply(states[k], moves[k], outcomes))
  }

  lemma {:induction false} RunInv(states: seq<State>, moves: seq<Move>, outcomes: seq<Outcome>, k: nat)
    requires Run(states, moves, outcomes) && k < |states|
    ensures Inv(states[k], outcomes) && Left(states[k]) + k == 5 * |outcomes| + 1
  {
    if k == 0 {
      StartInv(outcomes);
    } else {
      RunInv(states, moves, outcomes, k - 1);
      MoveKeepsInv(states[k - 1], moves[k - 1], outcomes);
    }
  }

  /** In every interleaving: never more than two polls at once, no slot written twice, and the wait is
      over only when every slot has been written with its own PON's outcome. */
  lemma FanOutSafety(states: seq<State>, moves: seq<Move>, outcomes: seq<Outcome>, k: nat)
    requires Run(states, moves, outcomes) && k < |states|
    ensures Count(states[k].phases, {Polling, Written}) <= 2
    ensures forall i :: 0 <= i < |states[k].writes| ==> states[k].writes[i] <= 1
    ensures states[k].past ==> states[k].slots == outcomes && forall i :: 0 <= i < |states[k].writes| ==> states[k].writes[i] == 1
  {
    RunInv(states, moves, outcomes, k);
  }

  /** Every run ends after the same number of moves, whatever the schedule, and only past the wait. */
  lemma FanOutEnds(states: seq<State>, moves: seq<Move>, outcomes: seq<Outcome>)
    requires Run(states, moves, outcomes)
    ensures |moves| <= 5 * |outcomes| + 1
    ensures states[|moves|].past <==> |moves| == 5 * |outcomes| + 1
    ensures !states[|moves|].past ==> exists m :: Enabled(states[|moves|], m)
  {
    var s := states[|moves|];
    RunInv(states, moves, outcomes, |moves|);
    if s.past {
      AllFinished(s.phases);
    } else {
      var m := Progress(s, outcomes);
    }
  }

  lemma {:induction false} AllFinished(phases: seq<Phase>)
    requires forall i :: 0 <= i < |phases| ==> phases[i] == Finished
    ensures Weights(phases) == 0
  {
    if phases != [] {
      AllFinished(phases[1..]);
    }
  }

  // ---- the summary after the wait

  function Total(outcomes: seq<Outcome>): int {
    if outcomes == [] then 0
    else Total(outcomes[..|outcomes| - 1]) + match outcomes[|outcomes| - 1] case Polled(count) => count case PollFailed => 0
  }

  function Failures(outcomes: seq<Outcome>): nat {
    if outcomes == [] then 0
    else Failures(outcomes[..|outcomes| - 1]) + if outcomes[|outcomes| - 1].PollFailed? then 1 else 0
  }

  /** Totals are sums over the PONs, a failed one counting nothing, and failures are counted one by one. */
  lemma {:induction false} TotalsAdd(a: seq<Outcome>, b: seq<Outcome>, count: int)
    ensures Total(a + b) == Total(a) + Total(b) && Failures(a + b) == Failures(a) + Failures(b)
    ensures Total([Polled(count)]) == count && Failures([Polled(count)]) == 0
    ensures Total([PollFailed]) == 0 && Failures([PollFailed]) == 1
    decreases |b|
  {
    assert [Polled(count)][..0] == [] && [PollFailed][..0] == [];
    if b == [] {
      assert a + b == a;
    } else {
      var n := |b| - 1;
      assert (a + b)[..|a + b| - 1] == a + b[..n];
      TotalsAdd(a, b[..n], count);
    }
  }

  ghost function FailedAt(outcomes: seq<Outcome>): set<int> { set i | 0 <= i < |outcomes| && outcomes[i].PollFailed? }

  lemma {:induction false} FailuresCounted(outcomes: seq<Outcome>)
    ensures Failures(outcomes) == |FailedAt(outcomes)|
    decreases |outcomes|
  {
    if outcomes != [] {
      var n := |outcomes| - 1;
      FailuresCounted(outcomes[..n]);
      assert FailedAt(outcomes) == FailedAt(outcomes[..n]) + if outcomes[n].PollFailed? then {n} else {};
    }
  }

  method Summarize(results: seq<Outcome>) returns (total: int, failed: nat)
    ensures total == Total(results) && failed == Failures(results)
    ensures failed == |set i | 0 <= i < |results| && results[i].PollFailed?|
  {
    FailuresCounted(results);
    total, failed := 0, 0;
    for i := 0 to |results|
      invariant total == Total(results[..i]) && failed == Failures(results[..i])
    {
      assert results[..i + 1][..i] == results[..i];
      if results[i].PollFailed? {
        failed := failed + 1;
        continue;
      }
      total := total + results[i].count;
    }
    assert results[..|results|] == results;
  }

  /** What is summed after the wait is the outcomes themselves, in PON order, under any two schedules. */
  lemma TotalsIndependent(states: seq<State>, moves: seq<Move>, states': seq<State>, moves': seq<Move>, outcomes: seq<Outcome>)
    requires Run(states, moves, outcomes) && Run(states', moves', outcomes)
    requires states[|moves|].past && states'[|moves'|].past
    ensures Total(states[|moves|].slots) == Total(states'[|moves'|].slots) == Total(outcomes)
    ensures Failures(states[|moves|].slots) == Failures(states'[|moves'|].slots) == Failures(outcomes)
  {
    RunInv(states, moves, outcomes, |moves|);
    RunInv(states', moves', outcomes, |moves'|);
    assert states[|moves|].slots == outcomes && states'[|moves'|].slots == outcomes;
  }
}
