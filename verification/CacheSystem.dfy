/** On-demand fetches, both pollers and invalidations as one system of interleaved steps over the cache.
    A step is one Redis call, which may fail, or one fetch from the device; walks may return anything, so
    the device may change between and during them. */
module CacheSystem {
  import opened Text
  import opened Decimal
  import opened Pdus
  import opened Joins
  import opened CacheKeys
  import opened Redis
  import opened OnuService
  import IfIndex
  import Pollers

  function ListKey(port: Port): string { KeyText(OnuList(port.oltId, port.board, port.pon)) }

  function NamesKey(port: Port): string { KeyText(OnuNames(port.oltId, port.board, port.pon)) }

  /** The single-flight key: requests with equal texts share one fetch. */
  function FlightKey(port: Port): string {
    "onulist:" + (port.oltId + ":" + SignedDec(port.board) + ":" + SignedDec(port.pon))
  }

  datatype Task =
    | FetchRead(port: Port)
    | FetchMerge(port: Port, list: seq<ListItem>)
    | FetchQueue(port: Port)
    | FetchLead(port: Port)
    | FetchWait(port: Port, leader: nat)
    | FetchStoreList(port: Port, items: seq<ListItem>)
    | FetchStoreNames(port: Port, items: seq<ListItem>)
    | FetchDone(port: Port, items: seq<ListItem>)
    | FetchFailed(port: Port)
    | OpticalWalk(port: Port, ifIndex: int)
    | OpticalNames(port: Port, adapter: Adapter, ifIndex: int, walks: Walks)
    | OpticalStore(port: Port, items: seq<ListItem>)
    | NamesWalk(port: Port, ifIndex: int)
    | NamesStore(port: Port, names: seq<NameEntry>)
    | Finished
  {
    predicate InFlight() { FetchLead? || FetchStoreList? || FetchStoreNames? }
  }

  datatype State = State(now: int, store: Store, tasks: map<nat, Task>)

  datatype Step =
    | Tick(now: int)
    | Drop(keys: set<string>)                 // expiry, DEL, or part of an invalidation by pattern
    | WriteOther(key: Key, data: string)      // the other key families
    | Request(id: nat, port: Port, forceFresh: bool)
    | ReadList(id: nat, ok: bool)
    | ReadNames(id: nat, ok: bool)
    | Lead(id: nat)
    | Join(id: nat, leader: nat)
    | Walk(id: nat, adapter: Adapter, walks: Walks)
    | StoreList(id: nat, ttl: int, ok: bool)
    | StoreNames(id: nat, ok: bool)
    | Share(id: nat)
    | StartOptical(id: nat, port: Port, ifIndex: int)
    | StartNames(id: nat, port: Port, ifIndex: int)

  /** A failing read counts as a miss. */
  ghost function AfterReadList(s: State, port: Port, ok: bool): Task {
    match if ok then GetList(s.store, port, s.now) else None
    case Some(items) =>
      if items == [] then FetchQueue(port) else if Complete(items) then FetchDone(port, items) else FetchMerge(port, items)
    case None => FetchQueue(port)
  }

  ghost function AfterReadNames(s: State, task: Task, ok: bool): Task
    requires task.FetchMerge? || (task.OpticalNames? && IsInt64(task.ifIndex))
  {
    var names := if ok then GetNames(s.store, task.port, s.now) else None;
    match task
    case FetchMerge(port, list) =>
      if Mergeable(list, CachedNames(names)) then FetchDone(port, Merged(list, CachedNames(names))) else FetchQueue(port)
    case OpticalNames(port, adapter, ifIndex, walks) =>
      OpticalStore(port, OpticalList(port, adapter, ifIndex, walks, names))
  }

  ghost function AfterWalk(task: Task, adapter: Adapter, walks: Walks): Task
    requires task.FetchLead? || ((task.OpticalWalk? || task.NamesWalk?) && IsInt64(task.ifIndex))
  {
    match task
    case FetchLead(port) =>
      (match FetchOutcome(port, adapter, walks)
       case Failed(_) => FetchFailed(port)
       case Listed(items) => if items == [] then FetchDone(port, []) else FetchStoreList(port, items))
    case OpticalWalk(port, ifIndex) =>
      if walks.status.None? || OpticalMap(port, adapter, ifIndex, walks, None) == map[] then Finished
      else OpticalNames(port, adapter, ifIndex, walks)
    case NamesWalk(port, ifIndex) =>
      if walks.names.None? || NamesMap(ifIndex, walks) == map[] then Finished
      else NamesStore(port, PolledNames(ifIndex, walks))
  }

  ghost predicate Moves(s: State, s': State, id: nat, task: Task) {
    s' == s.(tasks := s.tasks[id := task])
  }

  ghost predicate Next(s: State, s': State, step: Step) {
    match step
    case Tick(now) => now >= s.now && s' == s.(now := now)
    case Drop(keys) => s' == s.(store := s.store - keys)
    case WriteOther(key, data) =>
      !key.OnuList? && !key.OnuNames? && s' == s.(store := s.store[KeyText(key) := Entry(Blob(data), None)])
    case Request(id, port, forced) =>
      id !in s.tasks && Moves(s, s', id, if forced then FetchQueue(port) else FetchRead(port))
    case ReadList(id, ok) =>
      id in s.tasks && s.tasks[id].FetchRead? && Moves(s, s', id, AfterReadList(s, s.tasks[id].port, ok))
    case ReadNames(id, ok) =>
      && id in s.tasks && (s.tasks[id].FetchMerge? || (s.tasks[id].OpticalNames? && IsInt64(s.tasks[id].ifIndex)))
      && Moves(s, s', id, AfterReadNames(s, s.tasks[id], ok))
    case Lead(id) =>
      && id in s.tasks && s.tasks[id].FetchQueue?
      && (forall other :: other in s.tasks && s.tasks[other].InFlight() ==> FlightKey(s.tasks[other].port) != FlightKey(s.tasks[id].port))
      && Moves(s, s', id, FetchLead(s.tasks[id].port))
    case Join(id, leader) =>
      && id in s.tasks && s.tasks[id].FetchQueue?
      && leader in s.tasks && s.tasks[leader].InFlight() && FlightKey(s.tasks[leader].port) == FlightKey(s.tasks[id].port)
      && Moves(s, s', id, FetchWait(s.tasks[id].port, leader))
    case Walk(id, adapter, walks) =>
      && id in s.tasks
      && (s.tasks[id].FetchLead? || ((s.tasks[id].OpticalWalk? || s.tasks[id].NamesWalk?) && IsInt64(s.tasks[id].ifIndex)))
      && Moves(s, s', id, AfterWalk(s.tasks[id], adapter, walks))
    case StoreList(id, ttl, ok) =>
      && id in s.tasks && (s.tasks[id].FetchStoreList? || s.tasks[id].OpticalStore?)
      && var t := s.tasks[id];
      s' == s.(store := if ok then WithList(s.store, t.port, t.items, ttl, s.now) else s.store,
               tasks := s.tasks[id := if t.FetchStoreList? then FetchStoreNames(t.port, t.items) else Finished])
    case StoreNames(id, ok) =>
      && id in s.tasks && (s.tasks[id].FetchStoreNames? || s.tasks[id].NamesStore?)
      && var t := s.tasks[id];
      s' == s.(store := if ok then WithNames(s.store, t.port, if t.NamesStore? then t.names else NamesOf(t.items), s.now) else s.store,
               tasks := s.tasks[id := if t.FetchStoreNames? then FetchDone(t.port, t.items) else Finished])
    case Share(id) =>
      && id in s.tasks && s.tasks[id].FetchWait? && s.tasks[id].leader in s.tasks
      && var lead := s.tasks[s.tasks[id].leader];
      && (lead.FetchDone? || lead.FetchFailed?)
      && Moves(s, s', id, if lead.FetchDone? then FetchDone(s.tasks[id].port, lead.items) else FetchFailed(s.tasks[id].port))
    case StartOptical(id, port, ifIndex) =>
      id !in s.tasks && Moves(s, s', id, OpticalWalk(port, ifIndex))
    case StartNames(id, port, ifIndex) =>
      id !in s.tasks && Moves(s, s', id, NamesWalk(port, ifIndex))
  }

  // ---- the invariant

  ghost predicate NamesSorted(names: seq<NameEntry>) {
    names != [] && forall i, j :: 0 <= i < j < |names| ==> names[i].onuId < names[j].onuId
  }

  ghost predicate FullList(items: seq<ListItem>, port: Port) { items != [] && ForPort(items, port) }

  /** What may be stored under a key. */
  ghost predicate WellStored(key: string, value: Value) {
    match value
    case ListValue(items) => exists port :: key == ListKey(port) && FullList(items, port)
    case NamesValue(names) => (exists port :: key == NamesKey(port)) && NamesSorted(names)
    case Blob(_) => forall port :: key != ListKey(port) && key != NamesKey(port)
  }

  ghost predicate StoreInv(store: Store) {
    forall key :: key in store ==> WellStored(key, store[key].value)
  }

  ghost predicate TaskInv(tasks: map<nat, Task>, task: Task) {
    match task
    case FetchMerge(port, list) => FullList(list, port)
    case FetchWait(port, leader) => leader in tasks && Leads(tasks[leader], port)
    case FetchStoreList(port, items) => FullList(items, port)
    case FetchStoreNames(port, items) => FullList(items, port)
    case FetchDone(port, items) => ForPort(items, port)
    case OpticalNames(port, adapter, ifIndex, walks) => IsInt64(ifIndex) && OpticalMap(port, adapter, ifIndex, walks, None) != map[]
    case OpticalStore(port, items) => FullList(items, port)
    case NamesStore(_, names) => NamesSorted(names)
    case _ => true
  }

  ghost predicate TasksInv(tasks: map<nat, Task>) {
    forall id :: id in tasks ==> TaskInv(tasks, tasks[id])
  }

  /** A task whose flight other requests for the port may wait for. */
  ghost predicate Leads(task: Task, port: Port) {
    (task.InFlight() || task.FetchDone? || task.FetchFailed?) && task.port == port
  }

  ghost predicate Inv(s: State) {
    && StoreInv(s.store)
    && TasksInv(s.tasks)
  }

  ghost predicate Init(s: State) { s.store == map[] && s.tasks == map[] }

  // ---- preservation

  lemma FlightKeyInjective(p: Port, q: Port)
    requires FlightKey(p) == FlightKey(q)
    ensures p == q
  {
    FlightComponents(p);
    FlightComponents(q);
    var a, b := Split(p.oltId, ':'), Split(q.oltId, ':');
    var s := Split(FlightKey(p), ':');
    var n := |s|;
    assert s[n - 1] == SignedDec(p.pon) == SignedDec(q.pon);
    assert s[n - 2] == SignedDec(p.board) == SignedDec(q.board);
    assert a == s[1..n - 2] == b;
    JoinSplit(p.oltId, ':');
    JoinSplit(q.oltId, ':');
    SignedDecInjective(p.pon, q.pon);
    SignedDecInjective(p.board, q.board);
  }

  lemma FlightComponents(p: Port)
    ensures Split(FlightKey(p), ':') == ["onulist"] + Split(p.oltId, ':') + [SignedDec(p.board), SignedDec(p.pon)]
  {
    var b, n := SignedDec(p.board), SignedDec(p.pon);
    SignedDecChars(p.board);
    SignedDecChars(p.pon);
    FlightSplit(p.oltId, b, n);
    assert "onulist:" == "onulist" + ":";
    SplitCons("onulist", ':', p.oltId + ":" + b + ":" + n);
  }

  lemma FlightSplit(o: string, b: string, n: string)
    requires ':' !in b && ':' !in n
    ensures Split(o + ":" + b + ":" + n, ':') == Split(o, ':') + [b, n]
  {
    SplitWithout(n, ':');
    SplitAppend(o + ":" + b, ':', n);
    SplitWithout(b, ':');
    SplitAppend(o, ':', b);
  }

  lemma StoredListFits(s: State, port: Port)
    requires StoreInv(s.store)
    ensures var list := GetList(s.store, port, s.now);
            list.Some? ==> FullList(list.value, port)
  {
    var list := GetList(s.store, port, s.now);
    if list.Some? {
      var key := ListKey(port);
      var p :| key == ListKey(p) && FullList(list.value, p);
      KeysApart(p, port);
    }
  }

  lemma StoreListKeeps(store: Store, port: Port, items: seq<ListItem>, ttl: int, now: int)
    requires StoreInv(store) && FullList(items, port)
    ensures StoreInv(WithList(store, port, items, ttl, now))
  {
  }

  lemma StoreNamesKeeps(store: Store, port: Port, names: seq<NameEntry>, now: int)
    requires StoreInv(store) && NamesSorted(names)
    ensures StoreInv(WithNames(store, port, names, now))
  {
    assert WellStored(NamesKey(port), NamesValue(names));
  }

  lemma WriteOtherKeeps(store: Store, key: Key, data: string)
    requires StoreInv(store) && !key.OnuList? && !key.OnuNames?
    ensures StoreInv(store[KeyText(key) := Entry(Blob(data), None)])
  {
    forall port: Port ensures KeyText(key) != ListKey(port) && KeyText(key) != NamesKey(port) {
      if KeyText(key) == ListKey(port) { KeyTextInjective(key, OnuList(port.oltId, port.board, port.pon)); }
      if KeyText(key) == NamesKey(port) { KeyTextInjective(key, OnuNames(port.oltId, port.board, port.pon)); }
    }
    assert WellStored(KeyText(key), Blob(data));
  }

  lemma PolledNamesSorted(ifIndex: int, walks: Walks)
    requires IsInt64(ifIndex) && NamesMap(ifIndex, walks) != map[]
    ensures NamesSorted(PolledNames(ifIndex, walks))
  {
  }

  lemma WalkResult(tasks: map<nat, Task>, task: Task, adapter: Adapter, walks: Walks)
    requires task.FetchLead? || ((task.OpticalWalk? || task.NamesWalk?) && IsInt64(task.ifIndex))
    ensures TaskInv(tasks, AfterWalk(task, adapter, walks))
    ensures task.FetchLead? ==> Leads(AfterWalk(task, adapter, walks), task.port)
  {
    if task.FetchLead? {
      DirectForPort(task.port, adapter, IfIndex.CalculateIfIndex(1, task.port.board, task.port.pon), walks);
    } else if task.NamesWalk? && NamesMap(task.ifIndex, walks) != map[] {
      PolledNamesSorted(task.ifIndex, walks);
    }
  }

  lemma ReadNamesResult(s: State, task: Task, ok: bool)
    requires task.FetchMerge? || (task.OpticalNames? && IsInt64(task.ifIndex))
    requires TaskInv(s.tasks, task)
    ensures TaskInv(s.tasks, AfterReadNames(s, task, ok))
  {
    var names := if ok then GetNames(s.store, task.port, s.now) else None;
    match task
    case FetchMerge(port, list) => MergedKeepsPort(list, CachedNames(names), port);
    case OpticalNames(port, adapter, ifIndex, walks) =>
      assert OpticalMap(port, adapter, ifIndex, walks, names).Keys == OpticalMap(port, adapter, ifIndex, walks, None).Keys;
      OpticalForPort(port, adapter, ifIndex, walks, names);
  }

  /** Moving one task keeps the others, as long as nobody waits for the wrong leader. */
  lemma MoveKeeps(tasks: map<nat, Task>, after: map<nat, Task>, id: nat)
    requires TasksInv(tasks) && id in after && after == tasks[id := after[id]]
    requires TaskInv(after, after[id])
    requires id in tasks ==> forall port :: Leads(tasks[id], port) ==> Leads(after[id], port)
    ensures TasksInv(after)
  {
  }

  lemma NextKeepsStore(s: State, s': State, step: Step)
    requires Inv(s) && Next(s, s', step)
    ensures StoreInv(s'.store)
  {
    match step
    case WriteOther(key, data) => WriteOtherKeeps(s.store, key, data);
    case StoreList(id, ttl, _) =>
      assert TaskInv(s.tasks, s.tasks[id]);
      StoreListKeeps(s.store, s.tasks[id].port, s.tasks[id].items, ttl, s.now);
    case StoreNames(id, _) =>
      var t := s.tasks[id];
      assert TaskInv(s.tasks, t);
      StoreNamesKeeps(s.store, t.port, if t.NamesStore? then t.names else NamesOf(t.items), s.now);
    case _ =>
  }

  /** What a step moves, and what it becomes. */
  lemma MovedTaskFits(s: State, s': State, step: Step, id: nat)
    requires Inv(s) && Next(s, s', step) && id in s.tasks
    requires step.ReadList? || step.ReadNames? || step.Lead? || step.Join? || step.Walk? || step.StoreList? || step.StoreNames? || step.Share?
    requires step.id == id
    ensures TaskInv(s'.tasks, s'.tasks[id])
    ensures forall port :: Leads(s.tasks[id], port) ==> Leads(s'.tasks[id], port)
  {
    assert TaskInv(s.tasks, s.tasks[id]);
    match step
    case ReadList(_, _) => StoredListFits(s, s.tasks[id].port);
    case ReadNames(_, ok) => ReadNamesFits(s, s', id, ok);
    case Join(_, leader) => FlightKeyInjective(s.tasks[leader].port, s.tasks[id].port);
    case Walk(_, adapter, walks) => WalkResult(s'.tasks, s.tasks[id], adapter, walks);
    case Share(_) => assert TaskInv(s.tasks, s.tasks[s.tasks[id].leader]);
    case _ =>
  }

  lemma ReadNamesFits(s: State, s': State, id: nat, ok: bool)
    requires Inv(s) && Next(s, s', ReadNames(id, ok))
    ensures TaskInv(s'.tasks, s'.tasks[id])
  {
    assert TaskInv(s.tasks, s.tasks[id]);
    ReadNamesResult(s, s.tasks[id], ok);
  }

  lemma NextKeepsTasks(s: State, s': State, step: Step)
    requires Inv(s) && Next(s, s', step)
    ensures TasksInv(s'.tasks)
  {
    match step
    case Tick(_) =>
    case Drop(_) =>
    case WriteOther(_, _) =>
    case Request(id, _, _) => MoveKeeps(s.tasks, s'.tasks, id);
    case StartOptical(id, _, _) => MoveKeeps(s.tasks, s'.tasks, id);
    case StartNames(id, _, _) => MoveKeeps(s.tasks, s'.tasks, id);
    case _ =>
      MovedTaskFits(s, s', step, step.id);
      MoveKeeps(s.tasks, s'.tasks, step.id);
  }

  // ---- whole runs

  ghost predicate Run(states: seq<State>, steps: seq<Step>) {
    && |states| == |steps| + 1
    && Init(states[0])
    && (forall i :: 0 <= i < |steps| ==> Next(states[i], states[i + 1], steps[i]))
  }

  lemma {:induction false} RunKeepsInv(states: seq<State>, steps: seq<Step>, i: nat)
    requires Run(states, steps) && i < |states|
    ensures Inv(states[i])
  {
    if i > 0 {
      RunKeepsInv(states, steps, i - 1);
      NextKeepsStore(states[i - 1], states[i], steps[i - 1]);
      NextKeepsTasks(states[i - 1], states[i], steps[i - 1]);
    }
  }

  /** In every state of every interleaving: a list stored anywhere is a list key's, non-empty, strictly
      increasing in ONU ID and on exactly the OLT, board and PON of that key; and every list a request has
      been answered with is empty or has that shape for the port it asked for. */
  lemma StoredAndServedLists(states: seq<State>, steps: seq<Step>, i: nat)
    requires Run(states, steps) && i < |states|
    ensures forall key :: key in states[i].store && states[i].store[key].value.ListValue? ==>
      exists port :: key == ListKey(port) && FullList(states[i].store[key].value.items, port)
    ensures forall port :: ListKey(port) in states[i].store ==>
      states[i].store[ListKey(port)].value.ListValue? && FullList(states[i].store[ListKey(port)].value.items, port)
    ensures forall id :: id in states[i].tasks && states[i].tasks[id].FetchDone? ==>
      ForPort(states[i].tasks[id].items, states[i].tasks[id].port)
  {
    RunKeepsInv(states, steps, i);
    var s := states[i];
    forall port: Port | ListKey(port) in s.store
      ensures s.store[ListKey(port)].value.ListValue? && FullList(s.store[ListKey(port)].value.items, port)
    {
      OwnListKey(s.store, port);
    }
    forall id | id in s.tasks && s.tasks[id].FetchDone? ensures ForPort(s.tasks[id].items, s.tasks[id].port) {
      assert TaskInv(s.tasks, s.tasks[id]);
    }
    forall key | key in s.store && s.store[key].value.ListValue?
      ensures exists port :: key == ListKey(port) && FullList(s.store[key].value.items, port)
    {
      assert WellStored(key, s.store[key].value);
    }
  }

  lemma OwnListKey(store: Store, port: Port)
    requires StoreInv(store) && ListKey(port) in store
    ensures store[ListKey(port)].value.ListValue? && FullList(store[ListKey(port)].value.items, port)
  {
    var value := store[ListKey(port)].value;
    assert WellStored(ListKey(port), value);
    match value
    case ListValue(items) =>
      var p :| ListKey(port) == ListKey(p) && FullList(items, p);
      KeysApart(p, port);
    case NamesValue(_) =>
      var p :| ListKey(port) == NamesKey(p);
      KeysApart(port, p);
    case Blob(_) =>
  }

  // ---- single flight

  /** No two fetches for one port are under way. */
  ghost predicate SingleFlight(tasks: map<nat, Task>) {
    forall i, j :: i in tasks && j in tasks && i != j && tasks[i].InFlight() && tasks[j].InFlight() ==> tasks[i].port != tasks[j].port
  }

  /** A step that starts no flight leaves every flight where it is. */
  lemma MoveKeepsSingle(tasks: map<nat, Task>, after: map<nat, Task>, id: nat)
    requires SingleFlight(tasks) && id in after && after == tasks[id := after[id]]
    requires after[id].InFlight() ==>
      (id in tasks && tasks[id].InFlight() && tasks[id].port == after[id].port)
      || forall j :: j in tasks && tasks[j].InFlight() ==> tasks[j].port != after[id].port
    ensures SingleFlight(after)
  {
  }

  lemma NextKeepsSingle(s: State, s': State, step: Step)
    requires SingleFlight(s.tasks) && Next(s, s', step)
    ensures SingleFlight(s'.tasks)
  {
    match step
    case Tick(_) =>
    case Drop(_) =>
    case WriteOther(_, _) =>
    case _ => MoveKeepsSingle(s.tasks, s'.tasks, step.id);
  }

  lemma {:induction false} RunSingle(states: seq<State>, steps: seq<Step>, i: nat)
    requires Run(states, steps) && i < |states|
    ensures SingleFlight(states[i].tasks)
  {
    if i > 0 {
      RunSingle(states, steps, i - 1);
      NextKeepsSingle(states[i - 1], states[i], steps[i - 1]);
    }
  }

  /** Requests for one port share one fetch: in every reachable state at most one is under way for it, and
      whoever waited for it is answered exactly what it answered, for the port they asked for. */
  lemma FlightsShared(states: seq<State>, steps: seq<Step>, i: nat, id: nat)
    requires Run(states, steps) && i < |steps|
    ensures SingleFlight(states[i].tasks)
    ensures steps[i] == Share(id) ==> Answered(states[i].tasks, states[i + 1].tasks, id)
  {
    RunSingle(states, steps, i);
    RunKeepsInv(states, steps, i);
    if steps[i] == Share(id) {
      assert Next(states[i], states[i + 1], steps[i]);
      assert TaskInv(states[i].tasks, states[i].tasks[id]);
    }
  }

  /** A waiting request gets what its leader got, for its own port. */
  ghost predicate Answered(before: map<nat, Task>, after: map<nat, Task>, id: nat) {
    && id in before && before[id].FetchWait? && before[id].leader in before && id in after
    && var port, lead := before[id].port, before[before[id].leader];
    match lead
    case FetchDone(p, items) => p == port && after[id] == FetchDone(port, items)
    case FetchFailed(p) => p == port && after[id] == FetchFailed(port)
    case _ => false
  }

  // ---- one task alone

  /** Left alone, a request's two reads answer what the service's own reading of the cache answers, and go to
      the flight where it has no answer. */
  lemma ReadsServe(s: State, port: Port, calls: Calls)
    ensures var read := AfterReadList(s, port, calls.readList);
            var named := if read.FetchMerge? then AfterReadNames(s, read, calls.readNames) else read;
            named == match ServeCached(ReadListOf(s.store, port, s.now, calls), ReadNamesOf(s.store, port, s.now, calls))
                     case Some(items) => FetchDone(port, items)
                     case None => FetchQueue(port)
  {
  }

  ghost predicate Alone(s: State, s': State, id: nat, t: Task, t': Task) {
    id in s.tasks && s.tasks[id] == t && id in s'.tasks && s'.tasks[id] == t'
  }

  /** Left alone, what a fetch stores in its two steps is what the service stores. */
  lemma FetchStores(s: State, m: State, s': State, id: nat, port: Port, items: seq<ListItem>, ttl: int, okList: bool, okNames: bool)
    requires Alone(s, s', id, FetchStoreList(port, items), FetchDone(port, items))
    requires Next(s, m, StoreList(id, ttl, okList)) && Next(m, s', StoreNames(id, okNames))
    ensures var listed := if okList then WithList(s.store, port, items, ttl, s.now) else s.store;
            s'.store == if okNames then WithNames(listed, port, NamesOf(items), s.now) else listed
    ensures forall other :: other in s.tasks && other != id ==> other in s'.tasks && s'.tasks[other] == s.tasks[other]
  {
  }

  lemma OpticalJoins(s: State, a: State, b: State, id: nat, port: Port, adapter: Adapter, ifIndex: int, walks: Walks)
    requires IsInt64(ifIndex) && id in s.tasks && s.tasks[id] == OpticalWalk(port, ifIndex)
    requires Next(s, a, Walk(id, adapter, walks)) && a.tasks[id].OpticalNames? && Next(a, b, ReadNames(id, true))
    ensures b.store == s.store && b.now == s.now && walks.status.Some? && OpticalMap(port, adapter, ifIndex, walks, None) != map[]
    ensures id in b.tasks
    ensures b.tasks[id] == OpticalStore(port, OpticalList(port, adapter, ifIndex, walks, GetNames(s.store, port, s.now)))
  {
  }

  lemma OpticalListed(port: Port, adapter: Adapter, ifIndex: int, walks: Walks, names: Option<seq<NameEntry>>)
    requires IsInt64(ifIndex) && OpticalMap(port, adapter, ifIndex, walks, None) != map[]
    ensures OpticalList(port, adapter, ifIndex, walks, names) != []
  {
    assert OpticalMap(port, adapter, ifIndex, walks, names).Keys == OpticalMap(port, adapter, ifIndex, walks, None).Keys;
    OpticalForPort(port, adapter, ifIndex, walks, names);
  }

  /** Left alone, an optical poll's steps store what the poller stores, with the names then in the cache. */
  lemma OpticalStores(s: State, a: State, b: State, s': State, id: nat, port: Port, adapter: Adapter, ifIndex: int, walks: Walks,
                      ttl: int)
    requires IsInt64(ifIndex) && id in s.tasks && s.tasks[id] == OpticalWalk(port, ifIndex)
    requires Next(s, a, Walk(id, adapter, walks)) && a.tasks[id].OpticalNames?
    requires Next(a, b, ReadNames(id, true)) && Next(b, s', StoreList(id, ttl, true))
    ensures s'.store == Pollers.StoreAfterOptical(s.store, port, adapter, ifIndex, walks, ttl, s.now)
  {
    OpticalJoins(s, a, b, id, port, adapter, ifIndex, walks);
    OpticalListed(port, adapter, ifIndex, walks, GetNames(s.store, port, s.now));
  }

  /** Left alone, a names poll's steps store what the poller stores. */
  lemma NamesStores(s: State, a: State, s': State, id: nat, port: Port, adapter: Adapter, ifIndex: int, walks: Walks)
    requires IsInt64(ifIndex) && id in s.tasks && s.tasks[id] == NamesWalk(port, ifIndex)
    requires Next(s, a, Walk(id, adapter, walks)) && a.tasks[id].NamesStore? && Next(a, s', StoreNames(id, true))
    ensures s'.store == Pollers.StoreAfterNames(s.store, port, ifIndex, walks, s.now)
  {
  }
}
