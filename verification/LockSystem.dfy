/** The manager's locks as a system of interleaved steps. Every thread runs a script over four kinds of
    lock: the single-flight slot of a request key, the operation channel of an OLT (a generation, since
    unregistering forgets it), the manager's read-write mutex, and the mutex of an SNMP client. */
module LockSystem {

  datatype Kind = Flight | Chan | Reading | Writing | Client

  function Rank(k: Kind): nat {
    match k
    case Flight => 0
    case Chan => 1
    case Reading => 2
    case Writing => 2
    case Client => 3
  }

  datatype Instr =
    | Acquire(kind: Kind)
    | Release(kind: Kind)
    | AwaitFlight              // a request that shares the fetch of another
    | FindLock                 // look the OLT's channel up, or make one
    | FindClient               // read the OLT's client; leave if there is no such OLT
    | CheckAbsent              // leave if the OLT is registered
    | NewClient
    | AddOlt
    | DropOlt

  /** `gen` is the channel the thread has looked up and `epoch` how often the OLT had been unregistered
      then; zero is no channel, and no client. */
  datatype Thread = Thread(olt: string, key: string, todo: seq<Instr>, held: set<Kind>, gen: nat, epoch: nat, client: nat)

  /** `full` are the generations whose channel holds its one token, `owner` the OLT each generation was
      made for, `drops` the number of times each OLT was unregistered. */
  datatype Tables = Tables(
    olts: map<string, nat>, opLocks: map<string, nat>, full: set<nat>,
    owner: map<nat, string>, nextGen: nat, nextClient: nat, drops: map<string, nat>)
  {
    function Drops(olt: string): nat { if olt in drops then drops[olt] else 0 }
  }

  datatype State = State(threads: seq<Thread>, t: Tables)

  // ---- scripts that respect the lock order

  /** What a script can rely on: the locks held, and whether a channel and a client were looked up. */
  datatype Profile = Profile(held: set<Kind>, hasGen: bool, hasClient: bool)

  /** Acquisitions are of a higher rank than anything held; tables are read and changed under the
      manager's mutex; what is in use is not looked up again. */
  predicate Allowed(instr: Instr, p: Profile) {
    match instr
    case Acquire(k) =>
      (forall h :: h in p.held ==> Rank(h) < Rank(k)) && (k == Chan ==> p.hasGen) && (k == Client ==> p.hasClient)
    case Release(k) => k in p.held
    case AwaitFlight => p.held == {}
    case FindLock => Writing in p.held && Chan !in p.held
    case FindClient => (Reading in p.held || Writing in p.held) && Client !in p.held
    case CheckAbsent => Writing in p.held
    case NewClient => Client !in p.held
    case AddOlt => Writing in p.held && p.hasClient
    case DropOlt => Writing in p.held
  }

  function Advance(instr: Instr, p: Profile): Profile {
    match instr
    case Acquire(k) => p.(held := p.held + {k})
    case Release(k) => p.(held := p.held - {k})
    case FindLock => p.(hasGen := true)
    case FindClient => p.(hasClient := true)
    case NewClient => p.(hasClient := true)
    case _ => p
  }

  /** A script that keeps to the rules and releases everything. */
  predicate WellRanked(todo: seq<Instr>, p: Profile) {
    if todo == [] then p.held == {}
    else Allowed(todo[0], p) && WellRanked(todo[1..], Advance(todo[0], p))
  }

  function ProfileOf(th: Thread): Profile { Profile(th.held, th.gen > 0, th.client > 0) }

  /** What an early return runs: the deferred releases, last acquired first. */
  function Releases(order: seq<Kind>, held: set<Kind>): seq<Instr> {
    if order == [] then []
    else if order[0] in held then [Release(order[0])] + Releases(order[1..], held - {order[0]})
    else Releases(order[1..], held)
  }

  function Cleanup(held: set<Kind>): seq<Instr> { Releases([Client, Reading, Writing, Chan, Flight], held) }

  lemma {:induction false} ReleasesRanked(order: seq<Kind>, p: Profile)
    requires forall k :: k in p.held ==> k in order
    ensures WellRanked(Releases(order, p.held), p)
    ensures |Releases(order, p.held)| == |p.held|
  {
    if order == [] {
      assert p.held == {};
    } else {
      var rest := if order[0] in p.held then p.held - {order[0]} else p.held;
      forall k | k in rest ensures k in order[1..] {
        assert k in order && k != order[0];
      }
      ReleasesRanked(order[1..], p.(held := rest));
      assert ([Release(order[0])] + Releases(order[1..], rest))[1..] == Releases(order[1..], rest);
    }
  }

  lemma CleanupRanked(p: Profile)
    ensures WellRanked(Cleanup(p.held), p)
    ensures |Cleanup(p.held)| == |p.held|
  {
    var order := [Client, Reading, Writing, Chan, Flight];
    forall k: Kind ensures k in order {
      match k
      case Flight => assert order[4] == k;
      case Chan => assert order[3] == k;
      case Reading => assert order[1] == k;
      case Writing => assert order[2] == k;
      case Client => assert order[0] == k;
    }
    ReleasesRanked(order, p);
  }

  /** Whatever is held must still be released. */
  lemma {:induction false} HeldBound(todo: seq<Instr>, p: Profile)
    requires WellRanked(todo, p)
    ensures |p.held| <= |todo|
  {
    if todo != [] {
      HeldBound(todo[1..], Advance(todo[0], p));
      match todo[0]
      case Acquire(k) => HeldGrows(p.held, k);
      case Release(k) =>
      case _ =>
    }
  }

  lemma HeldGrows(held: set<Kind>, k: Kind)
    ensures |held| <= |held + {k}|
  {
    if k in held { assert held + {k} == held; }
  }

  // ---- steps

  /** Two threads that must not be inside at once. */
  predicate Conflict(a: Thread, b: Thread) {
    || (Flight in a.held && Flight in b.held && a.key == b.key)
    || (Chan in a.held && Chan in b.held && a.gen == b.gen)
    || (Writing in a.held && (Writing in b.held || Reading in b.held))
    || (Reading in a.held && Writing in b.held)
    || (Client in a.held && Client in b.held && a.client == b.client)
  }

  predicate Wants(th: Thread, k: Kind) { th.todo != [] && th.todo[0] == Acquire(k) }

  /** Whether a thread's next instruction may run now. A channel blocks while it holds its token. A reader
      is let in while no writer is inside: a thread about to call Lock has not announced itself yet, so
      every order of its call and the reader's is a run. */
  ghost predicate Enabled(s: State, i: nat)
    requires i < |s.threads| && s.threads[i].todo != []
  {
    var th := s.threads[i];
    match th.todo[0]
    case Acquire(Flight) => forall j :: 0 <= j < |s.threads| && j != i ==> !(Flight in s.threads[j].held && s.threads[j].key == th.key)
    case AwaitFlight => forall j :: 0 <= j < |s.threads| && j != i ==> !(Flight in s.threads[j].held && s.threads[j].key == th.key)
    case Acquire(Chan) => th.gen !in s.t.full
    case Acquire(Reading) => forall j :: 0 <= j < |s.threads| && j != i ==> Writing !in s.threads[j].held
    case Acquire(Writing) => forall j :: 0 <= j < |s.threads| && j != i ==> Writing !in s.threads[j].held && Reading !in s.threads[j].held
    case Acquire(Client) => forall j :: 0 <= j < |s.threads| && j != i ==> !(Client in s.threads[j].held && s.threads[j].client == th.client)
    case Release(Chan) => th.gen in s.t.full
    case _ => true
  }

  /** Enabled even if every writer that could have announced itself has: then readers must wait for it.
      What is certain to run runs whichever of them have. */
  ghost predicate Certain(s: State, i: nat)
    requires i < |s.threads| && s.threads[i].todo != []
  {
    && Enabled(s, i)
    && (Wants(s.threads[i], Reading) ==> forall j :: 0 <= j < |s.threads| && j != i ==> !Wants(s.threads[j], Writing))
  }

  /** Whether an instruction finds its OLT in the wrong state and leaves. */
  predicate Leaves(t: Tables, th: Thread)
    requires th.todo != []
  {
    (th.todo[0].FindClient? && th.olt !in t.olts) || (th.todo[0].CheckAbsent? && th.olt in t.olts)
  }

  function StepThread(t: Tables, th: Thread): Thread
    requires th.todo != []
  {
    var on := th.(todo := th.todo[1..]);
    if Leaves(t, th) then th.(todo := Cleanup(th.held))
    else
      match th.todo[0]
      case Acquire(k) => on.(held := th.held + {k})
      case Release(k) => on.(held := th.held - {k})
      case FindLock => on.(gen := if th.olt in t.opLocks then t.opLocks[th.olt] else t.nextGen, epoch := t.Drops(th.olt))
      case FindClient => if th.olt in t.olts then on.(client := t.olts[th.olt]) else on
      case NewClient => on.(client := t.nextClient)
      case _ => on
  }

  function StepTables(t: Tables, th: Thread): Tables
    requires th.todo != []
  {
    match th.todo[0]
    case Acquire(k) => if k == Chan then t.(full := t.full + {th.gen}) else t
    case Release(k) => if k == Chan then t.(full := t.full - {th.gen}) else t
    case FindLock =>
      if th.olt in t.opLocks then t
      else t.(opLocks := t.opLocks[th.olt := t.nextGen], owner := t.owner[t.nextGen := th.olt], nextGen := t.nextGen + 1)
    case NewClient => t.(nextClient := t.nextClient + 1)
    case AddOlt => t.(olts := t.olts[th.olt := th.client])
    case DropOlt =>
      t.(olts := t.olts - {th.olt}, opLocks := t.opLocks - {th.olt}, drops := t.drops[th.olt := t.Drops(th.olt) + 1])
    case _ => t
  }

  function Step(s: State, i: nat): State
    requires i < |s.threads| && s.threads[i].todo != []
  {
    State(s.threads[i := StepThread(s.t, s.threads[i])], StepTables(s.t, s.threads[i]))
  }

  /** A step runs one enabled instruction, or gives up: an SNMP error or a cancelled request, which runs
      the deferred releases. */
  ghost predicate Next(s: State, s': State, i: nat) {
    && i < |s.threads| && s.threads[i].todo != []
    && ((Enabled(s, i) && s' == Step(s, i)) || GivesUp(s, s', i))
  }

  ghost predicate GivesUp(s: State, s': State, i: nat)
    requires i < |s.threads|
  {
    var th := s.threads[i];
    |th.held| < |th.todo| && s' == s.(threads := s.threads[i := th.(todo := Cleanup(th.held))])
  }

  // ---- the invariant

  ghost predicate ThreadInv(t: Tables, th: Thread) {
    && WellRanked(th.todo, ProfileOf(th))
    && (Chan in th.held ==> th.gen > 0)
    && GenInv(t, th)
  }

  /** A looked-up generation was made for the thread's OLT, and is current in the epoch of the look-up. */
  ghost predicate GenInv(t: Tables, th: Thread) {
    th.gen > 0 ==>
      && th.gen in t.owner && t.owner[th.gen] == th.olt
      && th.epoch <= t.Drops(th.olt)
      && (th.epoch == t.Drops(th.olt) ==> th.olt in t.opLocks && t.opLocks[th.olt] == th.gen)
  }

  ghost predicate TableInv(t: Tables) {
    && t.nextGen > 0 && t.nextClient > 0
    && (forall g :: g in t.owner ==> 0 < g < t.nextGen)
    && (forall o :: o in t.opLocks ==> t.opLocks[o] in t.owner && t.owner[t.opLocks[o]] == o)
    && (forall o :: o in t.olts ==> t.olts[o] > 0)
  }

  /** A channel holds its token exactly while some thread is inside with that generation. */
  ghost predicate TokenInv(s: State) {
    && (forall i :: 0 <= i < |s.threads| && Chan in s.threads[i].held ==> s.threads[i].gen in s.t.full)
    && (forall g :: g in s.t.full ==> exists i :: 0 <= i < |s.threads| && Chan in s.threads[i].held && s.threads[i].gen == g)
  }

  ghost predicate Exclusive(s: State) {
    forall i, j :: 0 <= i < |s.threads| && 0 <= j < |s.threads| && i != j ==> !Conflict(s.threads[i], s.threads[j])
  }

  ghost predicate SameEpoch(a: Thread, b: Thread) {
    a.gen > 0 && b.gen > 0 && a.olt == b.olt && a.epoch == b.epoch
  }

  /** Between two unregistrations of an OLT there is one channel for it. */
  ghost predicate EpochInv(s: State) {
    forall i, j :: 0 <= i < |s.threads| && 0 <= j < |s.threads| && SameEpoch(s.threads[i], s.threads[j])
      ==> s.threads[i].gen == s.threads[j].gen
  }

  ghost predicate ThreadsInv(s: State) {
    forall i :: 0 <= i < |s.threads| ==> ThreadInv(s.t, s.threads[i])
  }

  ghost predicate Inv(s: State) {
    ThreadsInv(s) && TableInv(s.t) && TokenInv(s) && Exclusive(s) && EpochInv(s)
  }

  ghost predicate Init(s: State) {
    && TableInv(s.t) && s.t.full == {} && s.t.opLocks == map[]
    && (forall i :: 0 <= i < |s.threads| ==>
          s.threads[i].held == {} && s.threads[i].gen == 0 && WellRanked(s.threads[i].todo, ProfileOf(s.threads[i])))
  }

  lemma InitInv(s: State)
    requires Init(s)
    ensures Inv(s)
  {
  }

  // ---- preservation

  /** A step advances the profile as its instruction says, and changes nothing else of the rules. */
  lemma ProfileAdvances(t: Tables, th: Thread)
    requires TableInv(t) && th.todo != [] && Allowed(th.todo[0], ProfileOf(th)) && !Leaves(t, th)
    ensures ProfileOf(StepThread(t, th)) == Advance(th.todo[0], ProfileOf(th))
    ensures StepThread(t, th).todo == th.todo[1..]
  {
  }

  lemma StepRanked(t: Tables, th: Thread)
    requires TableInv(t) && th.todo != [] && ThreadInv(t, th)
    ensures WellRanked(StepThread(t, th).todo, ProfileOf(StepThread(t, th)))
    ensures Chan in StepThread(t, th).held ==> StepThread(t, th).gen > 0
  {
    if Leaves(t, th) {
      CleanupRanked(ProfileOf(th));
    } else {
      ProfileAdvances(t, th);
    }
  }

  lemma StepGen(t: Tables, th: Thread)
    requires TableInv(t) && th.todo != [] && ThreadInv(t, th)
    ensures GenInv(StepTables(t, th), StepThread(t, th))
  {
  }

  lemma StepOthers(t: Tables, th: Thread, other: Thread)
    requires TableInv(t) && th.todo != [] && ThreadInv(t, other)
    ensures ThreadInv(StepTables(t, th), other)
  {
  }

  lemma StepTable(t: Tables, th: Thread)
    requires TableInv(t) && th.todo != [] && ThreadInv(t, th)
    ensures TableInv(StepTables(t, th))
  {
  }

  /** Only the channel instructions touch the tokens and who is inside. */
  lemma StepInside(t: Tables, th: Thread)
    requires th.todo != [] && ThreadInv(t, th)
    ensures var th' := StepThread(t, th);
            && (th.todo[0] != Acquire(Chan) && th.todo[0] != Release(Chan) ==>
                  StepTables(t, th).full == t.full && (Chan in th'.held <==> Chan in th.held)
                  && (Chan in th.held ==> th'.gen == th.gen))
            && (th.todo[0] == Acquire(Chan) ==> StepTables(t, th).full == t.full + {th.gen} && Chan in th'.held && th'.gen == th.gen)
            && (th.todo[0] == Release(Chan) ==> StepTables(t, th).full == t.full - {th.gen} && Chan !in th'.held && Chan in th.held)
  {
  }

  lemma StepTokens(s: State, i: nat)
    requires Inv(s) && i < |s.threads| && s.threads[i].todo != []
    ensures TokenInv(Step(s, i))
  {
    var s' := Step(s, i);
    var th := s.threads[i];
    assert ThreadInv(s.t, th);
    StepInside(s.t, th);
    forall j | 0 <= j < |s'.threads| && Chan in s'.threads[j].held
      ensures s'.threads[j].gen in s'.t.full
    {
      if j != i { assert !Conflict(th, s.threads[j]); }
    }
    forall g | g in s'.t.full
      ensures exists j :: 0 <= j < |s'.threads| && Chan in s'.threads[j].held && s'.threads[j].gen == g
    {
      if g in s.t.full {
        var j :| 0 <= j < |s.threads| && Chan in s.threads[j].held && s.threads[j].gen == g;
        assert Chan in s'.threads[j].held && s'.threads[j].gen == g;
      } else {
        assert Chan in s'.threads[i].held && s'.threads[i].gen == g;
      }
    }
  }

  /** What an enabled step newly holds conflicts with nobody. */
  lemma StepNoConflict(s: State, i: nat, j: nat)
    requires Inv(s) && i < |s.threads| && s.threads[i].todo != [] && Enabled(s, i)
    requires j < |s.threads| && j != i
    ensures !Conflict(StepThread(s.t, s.threads[i]), s.threads[j])
  {
    var th, other := s.threads[i], s.threads[j];
    assert ThreadInv(s.t, th) && !Conflict(th, other);
    assert Chan in other.held ==> other.gen in s.t.full;
  }

  lemma ConflictSymmetric(a: Thread, b: Thread)
    ensures Conflict(a, b) <==> Conflict(b, a)
  {
  }

  lemma StepExclusive(s: State, i: nat)
    requires Inv(s) && i < |s.threads| && s.threads[i].todo != [] && Enabled(s, i)
    ensures Exclusive(Step(s, i))
  {
    var s' := Step(s, i);
    forall j, k | 0 <= j < |s.threads| && 0 <= k < |s.threads| && j != k
      ensures !Conflict(s'.threads[j], s'.threads[k])
    {
      ConflictSymmetric(s'.threads[j], s'.threads[k]);
      if j == i { StepNoConflict(s, i, k); }
      else if k == i { StepNoConflict(s, i, j); }
      else { assert !Conflict(s.threads[j], s.threads[k]); }
    }
  }

  lemma StepSameEpoch(t: Tables, th: Thread, other: Thread)
    requires th.todo != [] && ThreadInv(t, other)
    requires SameEpoch(th, other) ==> th.gen == other.gen
    ensures SameEpoch(StepThread(t, th), other) ==> StepThread(t, th).gen == other.gen
  {
  }

  lemma StepEpochs(s: State, i: nat)
    requires Inv(s) && i < |s.threads| && s.threads[i].todo != []
    ensures EpochInv(Step(s, i))
  {
    var s' := Step(s, i);
    forall j, k | 0 <= j < |s.threads| && 0 <= k < |s.threads| && SameEpoch(s'.threads[j], s'.threads[k])
      ensures s'.threads[j].gen == s'.threads[k].gen
    {
      if j != k {
        if j == i { StepSameEpoch(s.t, s.threads[i], s.threads[k]); }
        if k == i { StepSameEpoch(s.t, s.threads[i], s.threads[j]); }
      }
    }
  }

  lemma GivesUpExclusive(s: State, s': State, i: nat)
    requires Inv(s) && i < |s.threads| && GivesUp(s, s', i)
    ensures TokenInv(s') && Exclusive(s')
  {
    forall g | g in s'.t.full
      ensures exists j :: 0 <= j < |s'.threads| && Chan in s'.threads[j].held && s'.threads[j].gen == g
    {
      var j :| 0 <= j < |s.threads| && Chan in s.threads[j].held && s.threads[j].gen == g;
      assert Chan in s'.threads[j].held && s'.threads[j].gen == g;
    }
    forall j, k | 0 <= j < |s'.threads| && 0 <= k < |s'.threads| && j != k
      ensures !Conflict(s'.threads[j], s'.threads[k])
    {
      assert !Conflict(s.threads[j], s.threads[k]);
    }
  }

  lemma GivesUpThreads(s: State, s': State, i: nat)
    requires ThreadsInv(s) && EpochInv(s) && i < |s.threads| && GivesUp(s, s', i)
    ensures ThreadsInv(s') && EpochInv(s')
  {
    CleanupRanked(ProfileOf(s.threads[i]));
    forall j | 0 <= j < |s'.threads| ensures ThreadInv(s'.t, s'.threads[j]) {
      assert ThreadInv(s.t, s.threads[j]);
    }
    forall j, k | 0 <= j < |s'.threads| && 0 <= k < |s'.threads| && SameEpoch(s'.threads[j], s'.threads[k])
      ensures s'.threads[j].gen == s'.threads[k].gen
    {
      assert SameEpoch(s.threads[j], s.threads[k]);
    }
  }

  lemma GivesUpKeeps(s: State, s': State, i: nat)
    requires Inv(s) && i < |s.threads| && GivesUp(s, s', i)
    ensures Inv(s')
  {
    GivesUpExclusive(s, s', i);
    GivesUpThreads(s, s', i);
  }

  lemma StepKeepsInv(s: State, i: nat)
    requires Inv(s) && i < |s.threads| && s.threads[i].todo != [] && Enabled(s, i)
    ensures Inv(Step(s, i))
  {
    var s' := Step(s, i);
    forall j | 0 <= j < |s'.threads| ensures ThreadInv(s'.t, s'.threads[j]) {
      if j == i {
        StepRanked(s.t, s.threads[i]);
        StepGen(s.t, s.threads[i]);
      } else {
        StepOthers(s.t, s.threads[i], s.threads[j]);
      }
    }
    StepTable(s.t, s.threads[i]);
    StepTokens(s, i);
    StepExclusive(s, i);
    StepEpochs(s, i);
  }

  lemma NextKeepsInv(s: State, s': State, i: nat)
    requires Inv(s) && Next(s, s', i)
    ensures Inv(s')
  {
    if Enabled(s, i) && s' == Step(s, i) {
      StepKeepsInv(s, i);
    } else {
      GivesUpKeeps(s, s', i);
    }
  }

  ghost predicate Run(states: seq<State>, moved: seq<nat>) {
    && |states| == |moved| + 1
    && Init(states[0])
    && (forall k :: 0 <= k < |moved| ==> Next(states[k], states[k + 1], moved[k]))
  }

  lemma {:induction false} RunKeepsInv(states: seq<State>, moved: seq<nat>, k: nat)
    requires Run(states, moved) && k < |states|
    ensures Inv(states[k])
  {
    if k == 0 {
      InitInv(states[0]);
    } else {
      RunKeepsInv(states, moved, k - 1);
      NextKeepsInv(states[k - 1], states[k], moved[k - 1]);
    }
  }

  // ---- safety over runs

  /** In every reachable state each channel, client mutex and single-flight slot has at most one thread
      inside, and a writer of the manager's mutex is alone. */
  lemma MutualExclusion(states: seq<State>, moved: seq<nat>, k: nat, i: nat, j: nat)
    requires Run(states, moved) && k < |states|
    requires i < |states[k].threads| && j < |states[k].threads| && i != j
    ensures !Conflict(states[k].threads[i], states[k].threads[j])
  {
    RunKeepsInv(states, moved, k);
  }

  /** A release frees the generation its closure captured and no other, a generation of the thread's own
      OLT, even when unregistering has since replaced or removed the map entry. */
  lemma ReleaseFreesOwnGeneration(states: seq<State>, moved: seq<nat>, k: nat, th: Thread)
    requires Run(states, moved) && k < |moved|
    requires Next(states[k], states[k + 1], moved[k]) && th == states[k].threads[moved[k]]
    requires th.todo[0] == Release(Chan) && states[k + 1] == Step(states[k], moved[k])
    ensures var before, after := states[k].t, states[k + 1].t;
            && th.gen in before.full && th.gen in before.owner && before.owner[th.gen] == th.olt
            && after.full == before.full - {th.gen}
            && after.opLocks == before.opLocks
            && forall o :: o in after.opLocks && (o != th.olt || after.opLocks[o] != th.gen) ==>
                 (after.opLocks[o] in after.full <==> before.opLocks[o] in before.full)
  {
    RunKeepsInv(states, moved, k);
    assert ThreadInv(states[k].t, th);
  }

  /** Two threads inside the operation section of one OLT looked its channel up in different epochs: the
      OLT was unregistered in between. */
  lemma OltExclusivity(states: seq<State>, moved: seq<nat>, k: nat, i: nat, j: nat)
    requires Run(states, moved) && k < |states|
    requires i < |states[k].threads| && j < |states[k].threads| && i != j
    requires Chan in states[k].threads[i].held && Chan in states[k].threads[j].held
    requires states[k].threads[i].olt == states[k].threads[j].olt
    ensures states[k].threads[i].epoch != states[k].threads[j].epoch
  {
    RunKeepsInv(states, moved, k);
    var s := states[k];
    assert ThreadInv(s.t, s.threads[i]) && ThreadInv(s.t, s.threads[j]);
    assert !Conflict(s.threads[i], s.threads[j]);
  }

  // ---- progress

  function Level(instr: Instr): nat {
    match instr
    case Acquire(Flight) => 0
    case AwaitFlight => 0
    case Acquire(Chan) => 1
    case Acquire(Reading) => 2
    case Acquire(Writing) => 3
    case Acquire(Client) => 4
    case _ => 5
  }

  /** A thread that holds something is unfinished, and waits at most for something of a higher rank. */
  lemma HolderMoves(s: State, j: nat, k: Kind)
    requires Inv(s) && j < |s.threads| && k in s.threads[j].held
    ensures s.threads[j].todo != []
    ensures var instr := s.threads[j].todo[0];
            Level(instr) > (match k case Flight => 0 case Chan => 1 case Reading => 3 case Writing => 3 case Client => 4)
  {
  }

  /** A reader waits for a writer inside, or for one that may have announced itself. */
  lemma ReaderBlocker(s: State, i: nat) returns (j: nat)
    requires Inv(s) && i < |s.threads| && Wants(s.threads[i], Reading) && !Certain(s, i)
    ensures j < |s.threads| && s.threads[j].todo != []
    ensures Level(s.threads[j].todo[0]) > 2
  {
    if x :| 0 <= x < |s.threads| && x != i && Writing in s.threads[x].held {
      HolderMoves(s, x, Writing);
      return x;
    }
    assert Enabled(s, i);
    j :| 0 <= j < |s.threads| && j != i && Wants(s.threads[j], Writing);
  }

  /** Whoever blocks a thread is unfinished and at a higher level. */
  lemma Blocker(s: State, i: nat) returns (j: nat)
    requires Inv(s) && i < |s.threads| && s.threads[i].todo != [] && !Certain(s, i)
    ensures j < |s.threads| && s.threads[j].todo != []
    ensures Level(s.threads[j].todo[0]) > Level(s.threads[i].todo[0])
  {
    var th := s.threads[i];
    assert ThreadInv(s.t, th);
    if th.todo[0] == Acquire(Reading) {
      j := ReaderBlocker(s, i);
    } else if th.todo[0] == Acquire(Chan) {
      j :| 0 <= j < |s.threads| && Chan in s.threads[j].held && s.threads[j].gen == th.gen;
      HolderMoves(s, j, Chan);
    } else if th.todo[0] == Acquire(Writing) {
      j :| 0 <= j < |s.threads| && j != i && (Writing in s.threads[j].held || Reading in s.threads[j].held);
      HolderMoves(s, j, if Writing in s.threads[j].held then Writing else Reading);
    } else if th.todo[0] == Acquire(Client) {
      j :| 0 <= j < |s.threads| && j != i && Client in s.threads[j].held && s.threads[j].client == th.client;
      HolderMoves(s, j, Client);
    } else {
      j :| 0 <= j < |s.threads| && j != i && Flight in s.threads[j].held && s.threads[j].key == th.key;
      HolderMoves(s, j, Flight);
    }
  }

  /** Following the holders of what is waited for leads to a thread that can run. */
  lemma {:induction false} SomeoneRuns(s: State, i: nat) returns (r: nat)
    requires Inv(s) && i < |s.threads| && s.threads[i].todo != []
    ensures r < |s.threads| && s.threads[r].todo != [] && Certain(s, r)
    decreases 5 - Level(s.threads[i].todo[0])
  {
    if Certain(s, i) {
      return i;
    }
    var j := Blocker(s, i);
    r := SomeoneRuns(s, j);
  }

  /** No reachable state is a deadlock: while any thread is unfinished some thread can run, whichever
      writers have announced themselves. */
  lemma DeadlockFreedom(states: seq<State>, moved: seq<nat>, k: nat)
    requires Run(states, moved) && k < |states|
    requires exists i :: 0 <= i < |states[k].threads| && states[k].threads[i].todo != []
    ensures exists r :: 0 <= r < |states[k].threads| && states[k].threads[r].todo != [] && Certain(states[k], r)
  {
    RunKeepsInv(states, moved, k);
    var i :| 0 <= i < |states[k].threads| && states[k].threads[i].todo != [];
    var r := SomeoneRuns(states[k], i);
  }

  function Remaining(threads: seq<Thread>): nat {
    if threads == [] then 0 else |threads[0].todo| + Remaining(threads[1..])
  }

  lemma {:induction false} RemainingUpdate(threads: seq<Thread>, i: nat, th: Thread)
    requires i < |threads|
    ensures Remaining(threads[i := th]) == Remaining(threads) - |threads[i].todo| + |th.todo|
  {
    if i == 0 {
      assert threads[i := th][1..] == threads[1..];
    } else {
      assert threads[i := th][1..] == threads[1..][i - 1 := th];
      RemainingUpdate(threads[1..], i - 1, th);
    }
  }

  lemma StepShortens(t: Tables, th: Thread)
    requires TableInv(t) && th.todo != [] && ThreadInv(t, th)
    ensures |StepThread(t, th).todo| < |th.todo|
  {
    if Leaves(t, th) {
      CleanupRanked(ProfileOf(th));
      HeldBound(th.todo[1..], Advance(th.todo[0], ProfileOf(th)));
    }
  }

  /** Every step shortens what remains, so every run ends, and by the lemma above it ends with every
      thread finished and every lock free. */
  lemma NextShortens(s: State, s': State, i: nat)
    requires Inv(s) && Next(s, s', i)
    ensures Remaining(s'.threads) < Remaining(s.threads)
  {
    var th := s.threads[i];
    assert ThreadInv(s.t, th);
    CleanupRanked(ProfileOf(th));
    StepShortens(s.t, th);
    RemainingUpdate(s.threads, i, s'.threads[i]);
  }

  lemma {:induction false} RunsAreBounded(states: seq<State>, moved: seq<nat>)
    requires Run(states, moved)
    ensures |moved| + Remaining(states[|moved|].threads) <= Remaining(states[0].threads)
  {
    if moved != [] {
      var n := |moved| - 1;
      RunsAreBounded(states[..|moved|], moved[..n]);
      RunKeepsInv(states, moved, n);
      NextShortens(states[n], states[n + 1], moved[n]);
    }
  }

  /** A reachable state in which nothing is certain to run has every thread finished and holding nothing. */
  lemma RunsEndFree(states: seq<State>, moved: seq<nat>, k: nat, i: nat)
    requires Run(states, moved) && k < |states| && i < |states[k].threads|
    requires forall r :: 0 <= r < |states[k].threads| && states[k].threads[r].todo != [] ==> !Certain(states[k], r)
    ensures states[k].threads[i].todo == [] && states[k].threads[i].held == {} && states[k].t.full == {}
  {
    RunKeepsInv(states, moved, k);
    var s := states[k];
    forall j | 0 <= j < |s.threads| ensures s.threads[j].todo == [] && s.threads[j].held == {} {
      if s.threads[j].todo != [] {
        var r := SomeoneRuns(s, j);
      }
      assert ThreadInv(s.t, s.threads[j]);
    }
    assert s.t.full == {};
  }
}
