/** What the operation channel is for: the operations that walk a device do so inside its section. */
module LockSections {
  import opened LockSystem
  import opened LockScripts

  function HeldAfter(instr: Instr, held: set<Kind>): set<Kind> {
    match instr
    case Acquire(k) => held + {k}
    case Release(k) => held - {k}
    case _ => held
  }

  /** A script that takes the client only inside the section, and leaves the section only without it. */
  predicate Sectioned(todo: seq<Instr>, held: set<Kind>) {
    todo == [] ||
    ((todo[0] == Acquire(Client) ==> Chan in held) && (todo[0] == Release(Chan) ==> Client !in held)
     && Sectioned(todo[1..], HeldAfter(todo[0], held)))
  }

  /** The operations that walk a device under its channel. */
  predicate Walks(op: Op) { op.FetchList? || op.FetchDetail? || op.Index? || op.SystemInfo? }

  // ---- the scripts

  lemma First(instr: Instr, rest: seq<Instr>, held: set<Kind>)
    requires instr == Acquire(Client) ==> Chan in held
    requires instr == Release(Chan) ==> Client !in held
    requires Sectioned(rest, HeldAfter(instr, held))
    ensures Sectioned([instr] + rest, held)
  {
    assert ([instr] + rest)[1..] == rest;
  }

  lemma TakeAndGive(k: Kind, rest: seq<Instr>, held: set<Kind>)
    requires k !in held && k != Chan && (k == Client ==> Chan in held) && Sectioned(rest, held)
    ensures Sectioned([Acquire(k), Release(k)] + rest, held)
  {
    assert held + {k} - {k} == held;
    First(Release(k), rest, held + {k});
    First(Acquire(k), [Release(k)] + rest, held);
    assert [Acquire(k), Release(k)] + rest == [Acquire(k)] + ([Release(k)] + rest);
  }

  lemma {:induction false} ClientTimes(n: nat, rest: seq<Instr>, held: set<Kind>)
    requires Chan in held && Client !in held && Sectioned(rest, held)
    ensures Sectioned(UseClientTimes(n, rest), held)
  {
    if n > 0 {
      ClientTimes(n - 1, rest, held);
      TakeAndGive(Client, UseClientTimes(n - 1, rest), held);
    }
  }

  lemma ReadClientSectioned(rest: seq<Instr>, held: set<Kind>)
    requires Reading !in held && Sectioned(rest, held)
    ensures Sectioned(ReadClient(rest), held)
  {
    assert held + {Reading} - {Reading} == held;
    First(Release(Reading), rest, held + {Reading});
    First(FindClient, [Release(Reading)] + rest, held + {Reading});
    First(Acquire(Reading), [FindClient] + ([Release(Reading)] + rest), held);
    assert ReadClient(rest) == [Acquire(Reading)] + ([FindClient] + ([Release(Reading)] + rest));
  }

  lemma CloneClientSectioned(rest: seq<Instr>, held: set<Kind>)
    requires Reading !in held && Sectioned(rest, held)
    ensures Sectioned(CloneClient(rest), held)
  {
    assert held + {Reading} - {Reading} == held;
    First(Release(Reading), rest, held + {Reading});
    First(NewClient, [Release(Reading)] + rest, held + {Reading});
    First(FindClient, [NewClient] + ([Release(Reading)] + rest), held + {Reading});
    First(Acquire(Reading), [FindClient] + ([NewClient] + ([Release(Reading)] + rest)), held);
    assert CloneClient(rest) == [Acquire(Reading)] + ([FindClient] + ([NewClient] + ([Release(Reading)] + rest)));
  }

  lemma ClaimLockSectioned(rest: seq<Instr>, held: set<Kind>)
    requires Writing !in held && Sectioned(rest, held + {Chan})
    ensures Sectioned(ClaimLock(rest), held)
  {
    var r1 := [Acquire(Chan)] + rest;
    assert held + {Writing} - {Writing} == held;
    First(Acquire(Chan), rest, held);
    First(Release(Writing), r1, held + {Writing});
    First(FindLock, [Release(Writing)] + r1, held + {Writing});
    First(Acquire(Writing), [FindLock] + ([Release(Writing)] + r1), held);
    assert ClaimLock(rest) == [Acquire(Writing)] + ([FindLock] + ([Release(Writing)] + r1));
  }

  lemma LeaveSection(rest: seq<Instr>, held: set<Kind>)
    requires Chan !in held && Client !in held && Sectioned(rest, held)
    ensures Sectioned([Release(Chan)] + rest, held + {Chan})
  {
    assert held + {Chan} - {Chan} == held;
    First(Release(Chan), rest, held + {Chan});
  }

  lemma FetchListSectioned()
    ensures Sectioned(Script(FetchList), {})
  {
    var inside := {Flight} + {Chan};
    var none: set<Kind> := {};
    assert {Flight} - {Flight} == none && none + {Flight} == {Flight};
    First(Release(Flight), [], {Flight});
    LeaveSection([Release(Flight)] + [], {Flight});
    assert [Release(Chan)] + ([Release(Flight)] + []) == [Release(Chan), Release(Flight)];
    TakeAndGive(Client, [Release(Chan), Release(Flight)], inside);
    var last := UseClient([Release(Chan), Release(Flight)]);
    TakeAndGive(Reading, last, inside);
    ClientTimes(3, ReadAdapter(last), inside);
    ClaimLockSectioned(UseClientTimes(3, ReadAdapter(last)), {Flight});
    ReadClientSectioned(ClaimLock(UseClientTimes(3, ReadAdapter(last))), {Flight});
    First(Acquire(Flight), ReadClient(ClaimLock(UseClientTimes(3, ReadAdapter(last)))), none);
  }

  lemma Leaving()
    ensures Sectioned([Release(Chan)], {Chan})
  {
    LeaveSection([], {});
    assert [Release(Chan)] + [] == [Release(Chan)] && {} + {Chan} == {Chan};
  }

  lemma OthersSectioned(op: Op)
    requires op.FetchDetail? || op.Index? || op.SystemInfo?
    ensures Sectioned(Script(op), {})
  {
    Leaving();
    assert {} + {Chan} == {Chan};
    TakeAndGive(Client, [Release(Chan)], {Chan});
    match op
    case FetchDetail =>
      TakeAndGive(Reading, UseClient([Release(Chan)]), {Chan});
      ClaimLockSectioned(ReadAdapter(UseClient([Release(Chan)])), {});
      ReadClientSectioned(ClaimLock(ReadAdapter(UseClient([Release(Chan)]))), {});
    case Index =>
      ClientTimes(5, [Release(Chan)], {Chan});
      CloneClientSectioned(UseClientTimes(5, [Release(Chan)]), {Chan});
      ClaimLockSectioned(CloneClient(UseClientTimes(5, [Release(Chan)])), {});
    case SystemInfo =>
      ClaimLockSectioned(UseClient([Release(Chan)]), {});
      ReadClientSectioned(ClaimLock(UseClient([Release(Chan)])), {});
      TakeAndGive(Reading, ReadClient(ClaimLock(UseClient([Release(Chan)]))), {});
  }

  lemma ScriptSectioned(op: Op)
    requires Walks(op)
    ensures Sectioned(Script(op), {})
  {
    if op.FetchList? { FetchListSectioned(); } else { OthersSectioned(op); }
  }

  // ---- every reachable state

  /** A thread that talks to the device is inside the section, and will be whenever it does. */
  ghost predicate WalkInv(th: Thread) { Sectioned(th.todo, th.held) && (Client in th.held ==> Chan in th.held) }

  lemma {:induction false} ReleasesSectioned(order: seq<Kind>, held: set<Kind>)
    requires Client !in held
    ensures Sectioned(Releases(order, held), held)
    decreases |order|
  {
    if order != [] {
      ReleasesSectioned(order[1..], held);
      if order[0] in held {
        ReleasesSectioned(order[1..], held - {order[0]});
        First(Release(order[0]), Releases(order[1..], held - {order[0]}), held);
      }
    }
  }

  lemma CleanupSectioned(held: set<Kind>)
    ensures Sectioned(Cleanup(held), held)
  {
    var rest := [Reading, Writing, Chan, Flight];
    assert [Client, Reading, Writing, Chan, Flight][1..] == rest;
    if Client in held {
      ReleasesSectioned(rest, held - {Client});
      First(Release(Client), Releases(rest, held - {Client}), held);
    } else {
      ReleasesSectioned(rest, held);
    }
  }

  lemma StepKeepsWalkInv(t: Tables, th: Thread)
    requires th.todo != [] && WalkInv(th)
    ensures WalkInv(StepThread(t, th))
  {
    CleanupSectioned(th.held);
  }

  lemma NextKeepsWalkInv(s: State, s': State, n: nat, i: nat)
    requires Next(s, s', n) && i < |s.threads| && WalkInv(s.threads[i])
    ensures i < |s'.threads| && WalkInv(s'.threads[i])
  {
    if n == i {
      StepKeepsWalkInv(s.t, s.threads[i]);
      CleanupSectioned(s.threads[i].held);
    }
  }

  lemma {:induction false} RunKeepsWalkInv(states: seq<State>, moved: seq<nat>, ops: seq<Op>, k: nat, i: nat)
    requires Run(states, moved) && Launch(states[0], ops) && k < |states| && i < |ops| && Walks(ops[i])
    ensures i < |states[k].threads| && WalkInv(states[k].threads[i])
  {
    if k == 0 {
      ScriptSectioned(ops[i]);
    } else {
      RunKeepsWalkInv(states, moved, ops, k - 1, i);
      NextKeepsWalkInv(states[k - 1], states[k], moved[k - 1], i);
    }
  }

  /** Whatever runs beside them, two fetches, index walks or readings of system information never talk to
      one OLT at the same time, unless it was unregistered between their look-ups of its channel. */
  lemma OneWalkPerOlt(states: seq<State>, moved: seq<nat>, ops: seq<Op>, k: nat, i: nat, j: nat)
    requires Run(states, moved) && Launch(states[0], ops) && k < |states|
    requires i < |ops| && j < |ops| && i != j && Walks(ops[i]) && Walks(ops[j])
    ensures i < |states[k].threads| && j < |states[k].threads|
    ensures var a, b := states[k].threads[i], states[k].threads[j];
            Client in a.held && Client in b.held && a.olt == b.olt ==> a.epoch != b.epoch
  {
    RunKeepsWalkInv(states, moved, ops, k, i);
    RunKeepsWalkInv(states, moved, ops, k, j);
    var a, b := states[k].threads[i], states[k].threads[j];
    if Client in a.held && Client in b.held && a.olt == b.olt {
      OltExclusivity(states, moved, k, i, j);
    }
  }
}
