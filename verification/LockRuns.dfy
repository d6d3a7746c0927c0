/** Runs of the lock system: what unregistering an OLT does to operations already under way. */
module LockRuns {
  import opened LockSystem
  import opened LockScripts

  /** A run from one state to another. */
  ghost predicate Reaches(s: State, s': State, moved: seq<nat>)
    decreases |moved|
  {
    if moved == [] then s == s'
    else exists m :: Next(s, m, moved[0]) && Reaches(m, s', moved[1..])
  }

  lemma OneStep(s: State, i: nat)
    requires i < |s.threads| && s.threads[i].todo != [] && Enabled(s, i)
    ensures Reaches(s, Step(s, i), [i])
  {
    var s' := Step(s, i);
    assert Next(s, s', i) && Reaches(s', s', []);
    assert [i][1..] == [];
  }

  lemma {:induction false} Then(s: State, m: State, s': State, first: seq<nat>, second: seq<nat>)
    requires Reaches(s, m, first) && Reaches(m, s', second)
    ensures Reaches(s, s', first + second)
    decreases |first|
  {
    if first == [] {
      assert first + second == second;
    } else {
      var n :| Next(s, n, first[0]) && Reaches(n, m, first[1..]);
      Then(n, m, s', first[1..], second);
      var both := first + second;
      assert both[0] == first[0] && both[1..] == first[1..] + second;
      assert Next(s, n, both[0]) && Reaches(n, s', both[1..]);
    }
  }

  lemma ThenTwice(s: State, a: State, b: State, s': State, part: seq<nat>) returns (moved: seq<nat>)
    requires Reaches(s, a, part) && Reaches(a, b, part) && Reaches(b, s', part)
    ensures Reaches(s, s', moved)
  {
    Then(s, a, b, part, part);
    Then(s, b, s', part + part, part);
    moved := part + part + part;
  }

  /** Nobody else is in or waiting for the manager. */
  ghost predicate ManagerFree(s: State, i: nat) {
    forall j :: 0 <= j < |s.threads| && j != i ==> Writing !in s.threads[j].held && Reading !in s.threads[j].held
  }

  function Claimed(t: Tables, olt: string): nat { if olt in t.opLocks then t.opLocks[olt] else t.nextGen }

  /** The state with one thread replaced. */
  function With(s: State, i: nat, th: Thread, t: Tables): State
    requires i < |s.threads|
  {
    State(s.threads[i := th], t)
  }

  lemma StepAt(s: State, i: nat, th: Thread, t: Tables, instr: Instr, rest: seq<Instr>)
    requires i < |s.threads| && th.todo == [instr] + rest && !Leaves(t, th)
    requires Enabled(With(s, i, th, t), i)
    ensures Reaches(With(s, i, th, t), With(s, i, StepThread(t, th), StepTables(t, th)), [i])
    ensures StepThread(t, th).todo == rest
  {
    var from := With(s, i, th, t);
    assert from.threads[i] == th && th.todo[1..] == rest;
    OneStep(from, i);
    assert from.threads[i := StepThread(t, th)] == s.threads[i := StepThread(t, th)];
  }

  function FoundThread(s: State, th: Thread, rest: seq<Instr>): Thread {
    th.(todo := rest, held := th.held + {Writing}, gen := Claimed(s.t, th.olt), epoch := s.t.Drops(th.olt))
  }

  function FoundTables(s: State, olt: string): Tables {
    if olt in s.t.opLocks then s.t
    else s.t.(opLocks := s.t.opLocks[olt := s.t.nextGen], owner := s.t.owner[s.t.nextGen := olt], nextGen := s.t.nextGen + 1)
  }

  lemma FindRun(s: State, i: nat, rest: seq<Instr>)
    requires i < |s.threads| && s.threads[i].todo == [Acquire(Writing), FindLock] + rest
    requires ManagerFree(s, i)
    ensures Reaches(s, With(s, i, FoundThread(s, s.threads[i], rest), FoundTables(s, s.threads[i].olt)), [i, i])
  {
    var th := s.threads[i];
    assert s == With(s, i, th, s.t);
    assert th.todo == [Acquire(Writing)] + ([FindLock] + rest);
    StepAt(s, i, th, s.t, Acquire(Writing), [FindLock] + rest);
    var th1 := StepThread(s.t, th);
    StepAt(s, i, th1, s.t, FindLock, rest);
    Then(s, With(s, i, th1, s.t), With(s, i, StepThread(s.t, th1), StepTables(s.t, th1)), [i], [i]);
    assert [i] + [i] == [i, i];
  }

  function EnteredThread(th: Thread, rest: seq<Instr>): Thread {
    th.(todo := rest, held := th.held - {Writing} + {Chan})
  }

  lemma EnterRun(s: State, i: nat, th: Thread, t: Tables, rest: seq<Instr>)
    requires i < |s.threads| && th.todo == [Release(Writing), Acquire(Chan)] + rest
    requires th.gen !in t.full
    ensures Reaches(With(s, i, th, t), With(s, i, EnteredThread(th, rest), t.(full := t.full + {th.gen})), [i, i])
  {
    assert th.todo == [Release(Writing)] + ([Acquire(Chan)] + rest);
    StepAt(s, i, th, t, Release(Writing), [Acquire(Chan)] + rest);
    var th1 := StepThread(t, th);
    StepAt(s, i, th1, t, Acquire(Chan), rest);
    assert StepThread(t, th1) == EnteredThread(th, rest);
    Then(With(s, i, th, t), With(s, i, th1, t), With(s, i, StepThread(t, th1), StepTables(t, th1)), [i], [i]);
    assert [i] + [i] == [i, i];
  }

  /** Four undisturbed steps take a thread into the section of its OLT. */
  lemma ClaimRun(s: State, i: nat, rest: seq<Instr>) returns (s': State, moved: seq<nat>)
    requires i < |s.threads| && s.threads[i].todo == ClaimLock(rest) && Writing !in s.threads[i].held
    requires ManagerFree(s, i) && Claimed(s.t, s.threads[i].olt) !in s.t.full
    ensures Reaches(s, s', moved)
    ensures |s'.threads| == |s.threads| && forall j :: 0 <= j < |s.threads| && j != i ==> s'.threads[j] == s.threads[j]
    ensures s'.threads[i].olt == s.threads[i].olt && s'.threads[i].held == s.threads[i].held + {Chan}
    ensures s'.t.olts == s.t.olts && s'.t.full == s.t.full + {Claimed(s.t, s.threads[i].olt)}
    ensures s'.t.nextGen == FoundTables(s, s.threads[i].olt).nextGen
  {
    var th := s.threads[i];
    var r := [Release(Writing), Acquire(Chan)] + rest;
    assert th.todo == [Acquire(Writing), FindLock] + r;
    FindRun(s, i, r);
    var found, t := FoundThread(s, th, r), FoundTables(s, th.olt);
    EnterRun(s, i, found, t, rest);
    assert th.held + {Writing} - {Writing} == th.held;
    s' := With(s, i, EnteredThread(found, rest), t.(full := t.full + {found.gen}));
    moved := [i, i] + [i, i];
    Then(s, With(s, i, found, t), s', [i, i], [i, i]);
  }

  lemma CloseRun(s: State, i: nat, th: Thread, t: Tables, rest: seq<Instr>)
    requires i < |s.threads| && th.todo == UseClient(rest) && th.held == {Writing}
    requires forall j :: 0 <= j < |s.threads| && j != i ==> Client !in s.threads[j].held
    ensures Reaches(With(s, i, th, t), With(s, i, th.(todo := rest), t), [i, i])
  {
    assert th.todo == [Acquire(Client)] + ([Release(Client)] + rest);
    StepAt(s, i, th, t, Acquire(Client), [Release(Client)] + rest);
    var th1 := StepThread(t, th);
    StepAt(s, i, th1, t, Release(Client), rest);
    assert {Writing} + {Client} - {Client} == {Writing};
    assert StepThread(t, th1) == th.(todo := rest);
    Then(With(s, i, th, t), With(s, i, th1, t), With(s, i, th.(todo := rest), t), [i], [i]);
    assert [i] + [i] == [i, i];
  }

  lemma DropRun(s: State, i: nat, th: Thread, t: Tables)
    requires i < |s.threads| && th.todo == [DropOlt, Release(Writing)] && th.held == {Writing}
    ensures Reaches(With(s, i, th, t), With(s, i, th.(todo := [], held := {}), StepTables(t, th)), [i, i])
  {
    assert th.todo == [DropOlt] + [Release(Writing)];
    StepAt(s, i, th, t, DropOlt, [Release(Writing)]);
    var th1, t1 := StepThread(t, th), StepTables(t, th);
    assert [Release(Writing)] == [Release(Writing)] + [];
    StepAt(s, i, th1, t1, Release(Writing), []);
    assert {Writing} - {Writing} == {};
    assert StepThread(t1, th1) == th.(todo := [], held := {});
    Then(With(s, i, th, t), With(s, i, th1, t1), With(s, i, th.(todo := [], held := {}), t1), [i], [i]);
    assert [i] + [i] == [i, i];
  }

  lemma DropTables(t: Tables, th: Thread)
    requires th.todo != [] && th.todo[0] == DropOlt
    ensures var t' := StepTables(t, th); t'.full == t.full && t'.nextGen == t.nextGen && th.olt !in t'.opLocks && th.olt !in t'.olts
  {
  }

  lemma FindClientRun(s: State, i: nat, rest: seq<Instr>)
    requires i < |s.threads| && s.threads[i].todo == [Acquire(Writing), FindClient] + rest && s.threads[i].held == {}
    requires ManagerFree(s, i) && s.threads[i].olt in s.t.olts
    ensures Reaches(s, With(s, i, s.threads[i].(todo := rest, held := {Writing}, client := s.t.olts[s.threads[i].olt]), s.t), [i, i])
  {
    var th := s.threads[i];
    assert s == With(s, i, th, s.t);
    assert th.todo == [Acquire(Writing)] + ([FindClient] + rest);
    StepAt(s, i, th, s.t, Acquire(Writing), [FindClient] + rest);
    var th1 := StepThread(s.t, th);
    assert th1.held == {Writing};
    StepAt(s, i, th1, s.t, FindClient, rest);
    Then(s, With(s, i, th1, s.t), With(s, i, StepThread(s.t, th1), s.t), [i], [i]);
    assert [i] + [i] == [i, i];
  }

  lemma UnregisterShape(last: seq<Instr>)
    requires last == [DropOlt, Release(Writing)]
    ensures Script(Unregister) == [Acquire(Writing), FindClient] + UseClient(last)
  {
  }

  /** Six undisturbed steps unregister an OLT, whoever is in its section. */
  lemma UnregisterRun(s: State, i: nat, last: seq<Instr>) returns (s': State, moved: seq<nat>)
    requires i < |s.threads| && s.threads[i].todo == [Acquire(Writing), FindClient] + UseClient(last) && s.threads[i].held == {}
    requires last == [DropOlt, Release(Writing)]
    requires ManagerFree(s, i) && s.threads[i].olt in s.t.olts
    requires forall j :: 0 <= j < |s.threads| && j != i ==> Client !in s.threads[j].held
    ensures Reaches(s, s', moved)
    ensures |s'.threads| == |s.threads| && forall j :: 0 <= j < |s.threads| && j != i ==> s'.threads[j] == s.threads[j]
    ensures s'.threads[i].held == {}
    ensures s'.t.full == s.t.full && s'.t.nextGen == s.t.nextGen
    ensures s.threads[i].olt !in s'.t.opLocks && s.threads[i].olt !in s'.t.olts
  {
    var th := s.threads[i];
    FindClientRun(s, i, UseClient(last));
    var th1 := th.(todo := UseClient(last), held := {Writing}, client := s.t.olts[th.olt]);
    CloseRun(s, i, th1, s.t, last);
    var th2 := th1.(todo := last);
    DropRun(s, i, th2, s.t);
    s' := With(s, i, th2.(todo := [], held := {}), StepTables(s.t, th2));
    DropTables(s.t, th2);
    moved := ThenTwice(s, With(s, i, th1, s.t), With(s, i, th2, s.t), s', [i, i]);
  }

  /** Exclusivity per OLT does not survive unregistering: while one index walk is inside, an unregister
      lets a second walk of the same OLT in. */
  lemma UnregisterLetsSecondIn(olt: string) returns (s: State, s': State, moved: seq<nat>)
    ensures Launch(s, [Index, Unregister, Index])
    ensures Reaches(s, s', moved)
    ensures |s'.threads| == 3 && s'.threads[0].olt == olt && s'.threads[2].olt == olt
    ensures Chan in s'.threads[0].held && Chan in s'.threads[2].held
  {
    var rest := IndexWork();
    s := Together(olt);
    TogetherLaunch(olt);
    var s1, first := ClaimRun(s, 0, rest);
    var last := [DropOlt, Release(Writing)];
    UnregisterShape(last);
    var s2, second := UnregisterRun(s1, 1, last);
    var third;
    s', third := ClaimRun(s2, 2, rest);
    moved := first + second + third;
    Then(s, s1, s2, first, second);
    Then(s, s2, s', first + second, third);
  }

  function IndexWork(): seq<Instr> { CloneClient(UseClientTimes(5, [Release(Chan)])) }

  function Together(olt: string): State {
    var index := Thread(olt, "", ClaimLock(IndexWork()), {}, 0, 0, 0);
    var drop := Thread(olt, "", Script(Unregister), {}, 0, 0, 0);
    State([index, drop, index], Tables(map[olt := 1], map[], {}, map[], 1, 2, map[]))
  }

  lemma TogetherLaunch(olt: string)
    ensures Launch(Together(olt), [Index, Unregister, Index])
  {
  }

  // ---- a fetch overtaken by an unregister

  lemma FlightRun(s: State, i: nat, rest: seq<Instr>)
    requires i < |s.threads| && s.threads[i].todo == [Acquire(Flight)] + rest
    requires forall j :: 0 <= j < |s.threads| && j != i ==> Flight !in s.threads[j].held
    ensures Reaches(s, With(s, i, s.threads[i].(todo := rest, held := s.threads[i].held + {Flight}), s.t), [i])
  {
    assert s == With(s, i, s.threads[i], s.t);
    StepAt(s, i, s.threads[i], s.t, Acquire(Flight), rest);
  }

  /** Three undisturbed steps read an OLT's client under the read lock. */
  lemma ReadRun(s: State, i: nat, rest: seq<Instr>) returns (s': State, moved: seq<nat>)
    requires i < |s.threads| && s.threads[i].todo == ReadClient(rest) && Reading !in s.threads[i].held
    requires ManagerFree(s, i) && s.threads[i].olt in s.t.olts
    ensures Reaches(s, s', moved)
    ensures s' == With(s, i, s.threads[i].(todo := rest, client := s.t.olts[s.threads[i].olt]), s.t)
  {
    var th := s.threads[i];
    var r1 := [Release(Reading)] + rest;
    var r2 := [FindClient] + r1;
    assert s == With(s, i, th, s.t) && th.todo == [Acquire(Reading)] + r2;
    StepAt(s, i, th, s.t, Acquire(Reading), r2);
    var th1 := StepThread(s.t, th);
    StepAt(s, i, th1, s.t, FindClient, r1);
    var th2 := StepThread(s.t, th1);
    StepAt(s, i, th2, s.t, Release(Reading), rest);
    assert th.held + {Reading} - {Reading} == th.held;
    s' := With(s, i, StepThread(s.t, th2), s.t);
    moved := ThenTwice(s, With(s, i, th1, s.t), With(s, i, th2, s.t), s', [i]);
  }

  function FetchWork(): seq<Instr> { UseClientTimes(3, ReadAdapter(UseClient([Release(Chan), Release(Flight)]))) }

  function DetailWork(): seq<Instr> { ReadAdapter(UseClient([Release(Chan)])) }

  /** A list fetch goes into its section. */
  lemma FetchRun(s: State, i: nat, work: seq<Instr>) returns (s': State, moved: seq<nat>)
    requires i < |s.threads| && s.threads[i].todo == [Acquire(Flight)] + ReadClient(ClaimLock(work)) && s.threads[i].held == {}
    requires forall j :: 0 <= j < |s.threads| && j != i ==> s.threads[j].held == {}
    requires s.threads[i].olt in s.t.olts && Claimed(s.t, s.threads[i].olt) !in s.t.full
    ensures Reaches(s, s', moved)
    ensures |s'.threads| == |s.threads| && forall j :: 0 <= j < |s.threads| && j != i ==> s'.threads[j] == s.threads[j]
    ensures s'.threads[i].olt == s.threads[i].olt && s'.threads[i].held == {Flight, Chan}
    ensures s'.t.olts == s.t.olts && s'.t.full == s.t.full + {Claimed(s.t, s.threads[i].olt)}
    ensures s'.t.nextGen == FoundTables(s, s.threads[i].olt).nextGen
  {
    FlightRun(s, i, ReadClient(ClaimLock(work)));
    var a := With(s, i, s.threads[i].(todo := ReadClient(ClaimLock(work)), held := s.threads[i].held + {Flight}), s.t);
    var b, second := ReadRun(a, i, ClaimLock(work));
    var third;
    s', third := ClaimRun(b, i, work);
    Then(s, a, b, [i], second);
    Then(s, b, s', [i] + second, third);
    moved := [i] + second + third;
  }

  /** An unregister overtakes a list fetch that is inside its section and a detail fetch that has read its
      client but not yet looked the lock up: both end inside the section of the OLT. */
  lemma FetchesOvertaken(olt: string) returns (s: State, s': State, moved: seq<nat>)
    ensures Launch(s, [FetchList, Unregister, FetchDetail])
    ensures Reaches(s, s', moved)
    ensures |s'.threads| == 3 && s'.threads[0].olt == olt && s'.threads[2].olt == olt
    ensures Chan in s'.threads[0].held && Chan in s'.threads[2].held && olt !in s'.t.olts
  {
    s := Fetching(olt);
    FetchingLaunch(olt);
    var s1, first := FetchRun(s, 0, FetchWork());
    var s2, second := ReadRun(s1, 2, ClaimLock(DetailWork()));
    var last := [DropOlt, Release(Writing)];
    UnregisterShape(last);
    var s3, third := UnregisterRun(s2, 1, last);
    var fourth;
    s', fourth := ClaimRun(s3, 2, DetailWork());
    Then(s, s1, s2, first, second);
    Then(s, s2, s3, first + second, third);
    Then(s, s3, s', first + second + third, fourth);
    moved := first + second + third + fourth;
  }

  function Fetching(olt: string): State {
    var list := Thread(olt, "list", [Acquire(Flight)] + ReadClient(ClaimLock(FetchWork())), {}, 0, 0, 0);
    var drop := Thread(olt, "", Script(Unregister), {}, 0, 0, 0);
    var detail := Thread(olt, "detail", ReadClient(ClaimLock(DetailWork())), {}, 0, 0, 0);
    State([list, drop, detail], Tables(map[olt := 1], map[], {}, map[], 1, 2, map[]))
  }

  lemma FetchingLaunch(olt: string)
    ensures Launch(Fetching(olt), [FetchList, Unregister, FetchDetail])
  {
  }
}
