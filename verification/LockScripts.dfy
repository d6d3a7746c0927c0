/** The operations of the program as lock scripts. */
module LockScripts {
  import opened LockSystem

  datatype Op =
    | FetchList       // the single-flight body of an ONU list request
    | SharedFetch     // a list request that waits for another's fetch
    | FetchDetail
    | Index           // the search indexer's walk of one OLT
    | PollOlt         // a poller on its own client, between its fan-outs
    | PollPon(walks: nat)
    | Register
    | Unregister
    | Update          // unregister, then register
    | UpdateUnknown   // the same, when there is no such OLT yet
    | SystemInfo
    | FetchPonList
    | ReadOlts        // GetOLT, ListOLTs and the other readers of the manager's map
    | SetProfiles     // UpdateVLANProfiles
    | ImportProfiles  // read the OLT, then set what the device listed
    | TestConnection  // on a client of its own, without the manager

  function UseClient(rest: seq<Instr>): seq<Instr> { [Acquire(Client), Release(Client)] + rest }

  function ReadClient(rest: seq<Instr>): seq<Instr> { [Acquire(Reading), FindClient, Release(Reading)] + rest }

  function ReadAdapter(rest: seq<Instr>): seq<Instr> { [Acquire(Reading), Release(Reading)] + rest }

  function WriteNothing(rest: seq<Instr>): seq<Instr> { [Acquire(Writing), Release(Writing)] + rest }

  function CloneClient(rest: seq<Instr>): seq<Instr> { [Acquire(Reading), FindClient, NewClient, Release(Reading)] + rest }

  /** Look the channel up under the manager's mutex, drop the mutex, then block on the channel. */
  function ClaimLock(rest: seq<Instr>): seq<Instr> {
    [Acquire(Writing), FindLock, Release(Writing), Acquire(Chan)] + rest
  }

  function UseClientTimes(n: nat, rest: seq<Instr>): seq<Instr> {
    if n == 0 then rest else UseClient(UseClientTimes(n - 1, rest))
  }

  function RegisterThen(rest: seq<Instr>): seq<Instr> {
    [Acquire(Writing), CheckAbsent, NewClient] + UseClient(UseClient([AddOlt, Release(Writing)] + rest))
  }

  function UnregisterThen(rest: seq<Instr>): seq<Instr> {
    [Acquire(Writing), FindClient] + UseClient([DropOlt, Release(Writing)] + rest)
  }

  function Script(op: Op): seq<Instr> {
    match op
    case FetchList =>
      [Acquire(Flight)] + ReadClient(ClaimLock(UseClientTimes(3, ReadAdapter(UseClient([Release(Chan), Release(Flight)])))))
    case SharedFetch => [AwaitFlight]
    case FetchDetail => ReadClient(ClaimLock(ReadAdapter(UseClient([Release(Chan)]))))
    case Index => ClaimLock(CloneClient(UseClientTimes(5, [Release(Chan)])))
    case PollOlt => CloneClient(UseClientTimes(2, ReadAdapter(ReadAdapter(UseClient([])))))
    case PollPon(walks) => UseClientTimes(walks, [])
    case Register => RegisterThen([])
    case Unregister => UnregisterThen([])
    case Update => UnregisterThen(RegisterThen([]))
    case UpdateUnknown => WriteNothing(RegisterThen([]))
    case SystemInfo => ReadAdapter(ReadClient(ClaimLock(UseClient([Release(Chan)]))))
    case FetchPonList => ReadClient(UseClient([]))
    case ReadOlts => ReadAdapter([])
    case SetProfiles => WriteNothing([])
    case ImportProfiles => ReadAdapter(WriteNothing([]))
    case TestConnection => [NewClient] + UseClientTimes(3, [])
  }

  // ---- each block respects the order

  lemma Prepend(instr: Instr, rest: seq<Instr>, p: Profile)
    requires Allowed(instr, p) && WellRanked(rest, Advance(instr, p))
    ensures WellRanked([instr] + rest, p)
  {
  }

  lemma Around(k: Kind, p: Profile)
    requires k !in p.held
    ensures Advance(Release(k), Advance(Acquire(k), p)) == p
  {
  }

  lemma UseClientRanked(rest: seq<Instr>, p: Profile)
    requires p.hasClient && Client !in p.held && WellRanked(rest, p)
    ensures WellRanked(UseClient(rest), p)
  {
  }

  lemma {:induction false} UseClientTimesRanked(n: nat, rest: seq<Instr>, p: Profile)
    requires p.hasClient && Client !in p.held && WellRanked(rest, p)
    ensures WellRanked(UseClientTimes(n, rest), p)
  {
    if n > 0 {
      UseClientTimesRanked(n - 1, rest, p);
      UseClientRanked(UseClientTimes(n - 1, rest), p);
    }
  }

  lemma ReadAdapterRanked(rest: seq<Instr>, p: Profile)
    requires p.held <= {Flight, Chan} && WellRanked(rest, p)
    ensures WellRanked(ReadAdapter(rest), p)
  {
  }

  lemma WriteNothingRanked(rest: seq<Instr>, p: Profile)
    requires p.held == {} && WellRanked(rest, p)
    ensures WellRanked(WriteNothing(rest), p)
  {
  }

  lemma ReadClientRanked(rest: seq<Instr>, p: Profile)
    requires p.held <= {Flight, Chan} && WellRanked(rest, p.(hasClient := true))
    ensures WellRanked(ReadClient(rest), p)
  {
  }

  lemma CloneClientRanked(rest: seq<Instr>, p: Profile)
    requires p.held <= {Flight, Chan} && WellRanked(rest, p.(hasClient := true))
    ensures WellRanked(CloneClient(rest), p)
  {
    var inside := Advance(Acquire(Reading), p);
    var r1 := [Release(Reading)] + rest;
    Around(Reading, p.(hasClient := true));
    Prepend(Release(Reading), rest, inside.(hasClient := true));
    Prepend(NewClient, r1, inside.(hasClient := true));
    Prepend(FindClient, [NewClient] + r1, inside);
    Prepend(Acquire(Reading), [FindClient] + ([NewClient] + r1), p);
    assert CloneClient(rest) == [Acquire(Reading)] + ([FindClient] + ([NewClient] + r1));
  }

  lemma ClaimLockRanked(rest: seq<Instr>, p: Profile)
    requires p.held <= {Flight} && WellRanked(rest, Profile(p.held + {Chan}, true, p.hasClient))
    ensures WellRanked(ClaimLock(rest), p)
  {
    var found := p.(hasGen := true);
    var inside := Advance(Acquire(Writing), p);
    var r1 := [Acquire(Chan)] + rest;
    var r2 := [Release(Writing)] + r1;
    Prepend(Acquire(Chan), rest, found);
    Around(Writing, found);
    Prepend(Release(Writing), r1, inside.(hasGen := true));
    Prepend(FindLock, r2, inside);
    Prepend(Acquire(Writing), [FindLock] + r2, p);
    assert ClaimLock(rest) == [Acquire(Writing)] + ([FindLock] + r2);
  }

  lemma AddOltRanked(rest: seq<Instr>, p: Profile)
    requires p.held == {} && p.hasClient && WellRanked(rest, p)
    ensures WellRanked([AddOlt, Release(Writing)] + rest, Advance(Acquire(Writing), p))
  {
    var inside := Advance(Acquire(Writing), p);
    Around(Writing, p);
    Prepend(Release(Writing), rest, inside);
    Prepend(AddOlt, [Release(Writing)] + rest, inside);
    assert [AddOlt, Release(Writing)] + rest == [AddOlt] + ([Release(Writing)] + rest);
  }

  lemma RegisterRanked(rest: seq<Instr>, p: Profile)
    requires p.held == {} && WellRanked(rest, p.(hasClient := true))
    ensures WellRanked(RegisterThen(rest), p)
  {
    var done := p.(hasClient := true);
    var inside := Advance(Acquire(Writing), done);
    var r2 := [AddOlt, Release(Writing)] + rest;
    AddOltRanked(rest, done);
    UseClientRanked(r2, inside);
    UseClientRanked(UseClient(r2), inside);
    var r3 := UseClient(UseClient(r2));
    Prepend(NewClient, r3, Advance(Acquire(Writing), p));
    Prepend(CheckAbsent, [NewClient] + r3, Advance(Acquire(Writing), p));
    Prepend(Acquire(Writing), [CheckAbsent] + ([NewClient] + r3), p);
    assert RegisterThen(rest) == [Acquire(Writing)] + ([CheckAbsent] + ([NewClient] + r3));
  }

  lemma UnregisterRanked(rest: seq<Instr>, p: Profile)
    requires p.held == {} && WellRanked(rest, p.(hasClient := true))
    ensures WellRanked(UnregisterThen(rest), p)
  {
    var done := p.(hasClient := true);
    var inside := Advance(Acquire(Writing), done);
    var r1 := [Release(Writing)] + rest;
    Around(Writing, done);
    Prepend(Release(Writing), rest, inside);
    Prepend(DropOlt, r1, inside);
    var r2 := [DropOlt] + r1;
    UseClientRanked(r2, inside);
    Prepend(FindClient, UseClient(r2), Advance(Acquire(Writing), p));
    Prepend(Acquire(Writing), [FindClient] + UseClient(r2), p);
    assert r2 == [DropOlt, Release(Writing)] + rest;
    assert UnregisterThen(rest) == [Acquire(Writing)] + ([FindClient] + UseClient(r2));
  }

  lemma FetchListRanked()
    ensures WellRanked(Script(FetchList), Profile({}, false, false))
  {
    var start := Profile({}, false, false);
    var flight := Profile({Flight}, false, false);
    var inside := Profile({Flight, Chan}, true, true);
    var end := [Release(Chan), Release(Flight)];
    assert {Flight, Chan} - {Chan} == {Flight} && {Flight} - {Flight} == {};
    Prepend(Release(Flight), [], Profile({Flight}, true, true));
    Prepend(Release(Chan), [Release(Flight)], inside);
    assert end == [Release(Chan)] + [Release(Flight)];
    UseClientRanked(end, inside);
    ReadAdapterRanked(UseClient(end), inside);
    var work := UseClientTimes(3, ReadAdapter(UseClient(end)));
    UseClientTimesRanked(3, ReadAdapter(UseClient(end)), inside);
    assert {Flight} + {Chan} == {Flight, Chan};
    ClaimLockRanked(work, flight.(hasClient := true));
    ReadClientRanked(ClaimLock(work), flight);
    assert Advance(Acquire(Flight), start) == flight;
    Prepend(Acquire(Flight), ReadClient(ClaimLock(work)), start);
  }

  lemma ReleaseChanRanked(c: bool)
    ensures WellRanked([Release(Chan)], Profile({Chan}, true, c))
  {
  }

  lemma SystemInfoRanked()
    ensures WellRanked(Script(SystemInfo), Profile({}, false, false))
  {
    var start, ready := Profile({}, false, false), Profile({}, false, true);
    ReleaseChanRanked(true);
    assert {} + {Chan} == {Chan};
    UseClientRanked([Release(Chan)], Profile({Chan}, true, true));
    ClaimLockRanked(UseClient([Release(Chan)]), ready);
    ReadClientRanked(ClaimLock(UseClient([Release(Chan)])), start);
    ReadAdapterRanked(ReadClient(ClaimLock(UseClient([Release(Chan)]))), start);
  }

  /** Every operation keeps to the lock order, so all that is proved of well-ranked scripts holds of any
      number of these operations run together. */
  lemma ScriptWellRanked(op: Op)
    ensures WellRanked(Script(op), Profile({}, false, op.PollPon?))
  {
    var start := Profile({}, false, false);
    var ready := Profile({}, false, true);
    var inside := Profile({Chan}, true, true);
    assert {} + {Chan} == {Chan};
    match op
    case FetchList => FetchListRanked();
    case SharedFetch => Prepend(AwaitFlight, [], start);
    case FetchDetail =>
      ReleaseChanRanked(true);
      UseClientRanked([Release(Chan)], inside);
      ReadAdapterRanked(UseClient([Release(Chan)]), inside);
      ClaimLockRanked(ReadAdapter(UseClient([Release(Chan)])), ready);
      ReadClientRanked(ClaimLock(ReadAdapter(UseClient([Release(Chan)]))), start);
    case Index =>
      ReleaseChanRanked(true);
      UseClientTimesRanked(5, [Release(Chan)], inside);
      CloneClientRanked(UseClientTimes(5, [Release(Chan)]), Profile({Chan}, true, false));
      ClaimLockRanked(CloneClient(UseClientTimes(5, [Release(Chan)])), start);
    case PollOlt =>
      UseClientRanked([], ready);
      ReadAdapterRanked(UseClient([]), ready);
      ReadAdapterRanked(ReadAdapter(UseClient([])), ready);
      UseClientTimesRanked(2, ReadAdapter(ReadAdapter(UseClient([]))), ready);
      CloneClientRanked(UseClientTimes(2, ReadAdapter(ReadAdapter(UseClient([])))), start);
    case PollPon(walks) => UseClientTimesRanked(walks, [], ready);
    case Register => RegisterRanked([], start);
    case Unregister => UnregisterRanked([], start);
    case Update =>
      RegisterRanked([], ready);
      UnregisterRanked(RegisterThen([]), start);
    case UpdateUnknown =>
      RegisterRanked([], start);
      WriteNothingRanked(RegisterThen([]), start);
    case SystemInfo => SystemInfoRanked();
    case FetchPonList =>
      UseClientRanked([], ready);
      ReadClientRanked(UseClient([]), start);
    case ReadOlts => ReadAdapterRanked([], start);
    case SetProfiles => WriteNothingRanked([], start);
    case ImportProfiles =>
      WriteNothingRanked([], start);
      ReadAdapterRanked(WriteNothing([]), start);
    case TestConnection =>
      UseClientTimesRanked(3, [], ready);
      Prepend(NewClient, UseClientTimes(3, []), start);
  }

  /** Any number of operations, each for its own OLT and request, from a manager without channels. */
  ghost predicate Launch(s: State, ops: seq<Op>) {
    && TableInv(s.t) && s.t.full == {} && s.t.opLocks == map[]
    && |s.threads| == |ops|
    && (forall i :: 0 <= i < |ops| ==>
          && s.threads[i].todo == Script(ops[i]) && s.threads[i].held == {} && s.threads[i].gen == 0
          && (s.threads[i].client > 0 <==> ops[i].PollPon?))
  }

  lemma LaunchInit(s: State, ops: seq<Op>)
    requires Launch(s, ops)
    ensures Init(s)
  {
    forall i | 0 <= i < |s.threads| ensures WellRanked(s.threads[i].todo, ProfileOf(s.threads[i])) {
      ScriptWellRanked(ops[i]);
    }
  }

  /** Whatever operations are started together and however they interleave and fail, no state they reach
      is stuck before all are finished, and no more steps are taken than instructions were given. */
  lemma OperationsComplete(states: seq<State>, moved: seq<nat>, ops: seq<Op>, k: nat)
    requires |states| == |moved| + 1 && Launch(states[0], ops) && k < |states|
    requires forall n :: 0 <= n < |moved| ==> Next(states[n], states[n + 1], moved[n])
    ensures (exists i :: 0 <= i < |states[k].threads| && states[k].threads[i].todo != []) ==>
              exists r :: 0 <= r < |states[k].threads| && states[k].threads[r].todo != [] && Certain(states[k], r)
    ensures |moved| <= Remaining(states[0].threads)
  {
    LaunchInit(states[0], ops);
    RunsAreBounded(states, moved);
    if i :| 0 <= i < |states[k].threads| && states[k].threads[i].todo != [] {
      DeadlockFreedom(states, moved, k);
    }
  }
}
