/** Goroutines that append what they have to one shared slice under a mutex: the error group of the
    optical poller and the indexer's collection over all OLTs. */
module Gather {
  import opened Text

  /** Appending is one step, since it is done under the mutex; then the wait group is told. */
  datatype Phase = Idle | Running | Appended | Finished

  datatype State<T> = State(phases: seq<Phase>, gathered: seq<T>, spawned: nat, waiting: nat, past: bool)

  datatype Move = Spawn | Append(i: nat) | Finish(i: nat) | Pass

  function Start<T>(n: nat): State<T> { State(seq(n, _ => Idle), [], 0, 0, false) }

  predicate Enabled<T>(s: State<T>, m: Move) {
    match m
    case Spawn => s.spawned < |s.phases|
    case Append(i) => i < |s.phases| && s.phases[i] == Running
    case Finish(i) => i < |s.phases| && s.phases[i] == Appended && s.waiting > 0
    case Pass => s.spawned == |s.phases| && s.waiting == 0 && !s.past
  }

  /** `parts` is what each goroutine appends; nothing, for a task without an error or an OLT that
      cannot be walked. */
  function Apply<T>(s: State<T>, m: Move, parts: seq<seq<T>>): State<T>
    requires Enabled(s, m) && |parts| == |s.phases|
  {
    match m
    case Spawn => s.(phases := s.phases[s.spawned := Running], spawned := s.spawned + 1, waiting := s.waiting + 1)
    case Append(i) => s.(phases := s.phases[i := Appended], gathered := s.gathered + parts[i])
    case Finish(i) => s.(phases := s.phases[i := Finished], waiting := s.waiting - 1)
    case Pass => s.(past := true)
  }

  predicate Gave(p: Phase) { p == Appended || p == Finished }

  predicate Counted(p: Phase) { p == Running || p == Appended }

  /** The elements of the parts appended so far. */
  function Given<T>(phases: seq<Phase>, parts: seq<seq<T>>): multiset<T>
    requires |phases| == |parts|
  {
    if phases == [] then multiset{}
    else (if Gave(phases[0]) then multiset(parts[0]) else multiset{}) + Given(phases[1..], parts[1..])
  }

  function CountOpen(phases: seq<Phase>): nat {
    if phases == [] then 0 else (if Counted(phases[0]) then 1 else 0) + CountOpen(phases[1..])
  }

  lemma {:induction false} GivenUpdate<T>(phases: seq<Phase>, parts: seq<seq<T>>, i: nat, p: Phase)
    requires i < |phases| == |parts| && (Gave(phases[i]) ==> Gave(p))
    ensures Given(phases[i := p], parts) ==
            Given(phases, parts) + if Gave(p) && !Gave(phases[i]) then multiset(parts[i]) else multiset{}
  {
    if i == 0 {
      assert phases[i := p][1..] == phases[1..];
    } else {
      GivenUpdate(phases[1..], parts[1..], i - 1, p);
      assert phases[i := p][1..] == phases[1..][i - 1 := p];
    }
  }

  lemma {:induction false} OpenUpdate(phases: seq<Phase>, i: nat, p: Phase)
    requires i < |phases|
    ensures CountOpen(phases[i := p]) + (if Counted(phases[i]) then 1 else 0) == CountOpen(phases) + if Counted(p) then 1 else 0
  {
    if i == 0 {
      assert phases[i := p][1..] == phases[1..];
    } else {
      OpenUpdate(phases[1..], i - 1, p);
      assert phases[i := p][1..] == phases[1..][i - 1 := p];
    }
  }

  lemma {:induction false} OpenZero(phases: seq<Phase>)
    ensures CountOpen(phases) == 0 <==> forall i :: 0 <= i < |phases| ==> !Counted(phases[i])
  {
    if phases != [] {
      OpenZero(phases[1..]);
      assert forall i :: 0 < i < |phases| ==> phases[i] == phases[1..][i - 1];
      assert forall i :: 0 <= i < |phases| - 1 ==> phases[1..][i] == phases[i + 1];
    }
  }

  ghost predicate Inv<T>(s: State<T>, parts: seq<seq<T>>) {
    && |parts| == |s.phases| && s.spawned <= |s.phases|
    && s.waiting == CountOpen(s.phases)
    && multiset(s.gathered) == Given(s.phases, parts)
    && (forall i :: 0 <= i < |s.phases| ==> (s.phases[i] == Idle <==> s.spawned <= i))
    && (s.past ==> forall i :: 0 <= i < |s.phases| ==> s.phases[i] == Finished)
  }

  lemma {:induction false} StartGiven<T>(parts: seq<seq<T>>)
    ensures Given(seq(|parts|, _ => Idle), parts) == multiset{} && CountOpen(seq(|parts|, _ => Idle)) == 0
  {
    if parts != [] {
      assert seq(|parts|, _ => Idle)[1..] == seq(|parts| - 1, _ => Idle);
      StartGiven(parts[1..]);
    }
  }

  lemma SpawnKeepsInv<T>(s: State<T>, parts: seq<seq<T>>)
    requires Inv(s, parts) && Enabled(s, Spawn)
    ensures Inv(Apply(s, Spawn, parts), parts)
  {
    GivenUpdate(s.phases, parts, s.spawned, Running);
    OpenUpdate(s.phases, s.spawned, Running);
  }

  lemma AppendKeepsInv<T>(s: State<T>, i: nat, parts: seq<seq<T>>)
    requires Inv(s, parts) && Enabled(s, Append(i))
    ensures Inv(Apply(s, Append(i), parts), parts)
  {
    GivenUpdate(s.phases, parts, i, Appended);
    OpenUpdate(s.phases, i, Appended);
  }

  lemma FinishKeepsInv<T>(s: State<T>, i: nat, parts: seq<seq<T>>)
    requires Inv(s, parts) && Enabled(s, Finish(i))
    ensures Inv(Apply(s, Finish(i), parts), parts)
  {
    GivenUpdate(s.phases, parts, i, Finished);
    OpenUpdate(s.phases, i, Finished);
  }

  lemma MoveKeepsInv<T>(s: State<T>, m: Move, parts: seq<seq<T>>)
    requires Inv(s, parts) && Enabled(s, m)
    ensures Inv(Apply(s, m, parts), parts)
  {
    match m
    case Spawn => SpawnKeepsInv(s, parts);
    case Append(i) => AppendKeepsInv(s, i, parts);
    case Finish(i) => FinishKeepsInv(s, i, parts);
    case Pass => OpenZero(s.phases);
  }

  ghost predicate Run<T>(states: seq<State<T>>, moves: seq<Move>, parts: seq<seq<T>>) {
    && |states| == |moves| + 1 && states[0] == Start(|parts|)
    && (forall k :: 0 <= k < |moves| ==>
          && |parts| == |states[k].phases|
          && Enabled(states[k], moves[k]) && states[k + 1] == Apply(states[k], moves[k], parts))
  }

  lemma {:induction false} RunInv<T>(states: seq<State<T>>, moves: seq<Move>, parts: seq<seq<T>>, k: nat)
    requires Run(states, moves, parts) && k < |states|
    ensures Inv(states[k], parts)
  {
    if k == 0 {
      StartGiven(parts);
    } else {
      RunInv(states, moves, parts, k - 1);
      MoveKeepsInv(states[k - 1], moves[k - 1], parts);
    }
  }

  function Concat<T>(parts: seq<seq<T>>): seq<T> {
    if parts == [] then [] else parts[0] + Concat(parts[1..])
  }

  lemma {:induction false} AllGiven<T>(phases: seq<Phase>, parts: seq<seq<T>>)
    requires |phases| == |parts| && forall i :: 0 <= i < |phases| ==> phases[i] == Finished
    ensures Given(phases, parts) == multiset(Concat(parts))
  {
    if phases != [] {
      AllGiven(phases[1..], parts[1..]);
    }
  }

  /** Whatever the order of the goroutines, after the wait the slice holds every part's elements, each as
      often as it was appended. */
  lemma GatheredAll<T>(states: seq<State<T>>, moves: seq<Move>, parts: seq<seq<T>>)
    requires Run(states, moves, parts) && states[|moves|].past
    ensures multiset(states[|moves|].gathered) == multiset(Concat(parts))
  {
    RunInv(states, moves, parts, |moves|);
    AllGiven(states[|moves|].phases, parts);
  }

  // ---- the error group

  /** What a task appends to the group's errors. */
  function ErrorParts<E>(outcomes: seq<Option<E>>): (parts: seq<seq<E>>)
    ensures |parts| == |outcomes|
    ensures forall i :: 0 <= i < |parts| ==> parts[i] == if outcomes[i].Some? then [outcomes[i].value] else []
  {
    seq(|outcomes|, i requires 0 <= i < |outcomes| => if outcomes[i].Some? then [outcomes[i].value] else [])
  }

  /** Wait, once all tasks are done. */
  function WaitResult<E>(errs: seq<E>): Option<E> {
    if |errs| > 0 then Some(errs[0]) else None
  }

  lemma {:induction false} ConcatMember<T>(parts: seq<seq<T>>, x: T)
    ensures x in Concat(parts) <==> exists i :: 0 <= i < |parts| && x in parts[i]
  {
    if parts != [] {
      ConcatMember(parts[1..], x);
      assert forall i :: 0 < i < |parts| ==> parts[i] == parts[1..][i - 1];
      assert forall i :: 0 <= i < |parts| - 1 ==> parts[1..][i] == parts[i + 1];
    }
  }

  /** Wait gives nothing exactly when no task failed, and otherwise the error of one that did. */
  lemma GroupWait<E>(states: seq<State<E>>, moves: seq<Move>, outcomes: seq<Option<E>>)
    requires Run(states, moves, ErrorParts(outcomes)) && states[|moves|].past
    ensures var r := WaitResult(states[|moves|].gathered);
            && (r.None? <==> forall i :: 0 <= i < |outcomes| ==> outcomes[i].None?)
            && (r.Some? ==> r in outcomes)
  {
    var errs, parts := states[|moves|].gathered, ErrorParts(outcomes);
    GatheredAll(states, moves, parts);
    if errs != [] {
      assert errs[0] in multiset(errs);
      assert errs[0] in Concat(parts);
      ConcatMember(parts, errs[0]);
      var i :| 0 <= i < |parts| && errs[0] in parts[i];
      assert outcomes[i] == Some(errs[0]);
    } else {
      assert |Concat(parts)| == |multiset(Concat(parts))| == 0;
      forall i | 0 <= i < |outcomes| ensures outcomes[i].None? {
        if outcomes[i].Some? {
          ConcatMember(parts, outcomes[i].value);
        }
      }
    }
  }
}
