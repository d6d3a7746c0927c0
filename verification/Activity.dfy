/** The activity log: a bounded list, newest first, kept in Redis or in memory. */
module Activity {
  import opened Decimal

  const MAX_ENTRIES := 500

  /** Zero is the zero time, and an empty ID is one still to be given. */
  datatype Entry = Entry(id: string, time: int, action: string)

  function Stamped(e: Entry, now: int): Entry {
    Entry(if e.id == "" then SignedDec(now) else e.id, if e.time == 0 then now else e.time, e.action)
  }

  /** The `n` newest of a history, newest first. */
  function Newest(history: seq<Entry>, n: nat): seq<Entry> {
    if n == 0 || history == [] then []
    else [history[|history| - 1]] + Newest(history[..|history| - 1], n - 1)
  }

  /** LRANGE and LTRIM from the head to an inclusive index. */
  function HeadTo(list: seq<Entry>, stop: int): seq<Entry>
    requires stop >= -1
  {
    if stop + 1 >= |list| then list else list[..stop + 1]
  }

  function Clamp(limit: int): (n: nat)
    ensures 0 < n <= MAX_ENTRIES
  {
    if limit <= 0 || limit > MAX_ENTRIES then MAX_ENTRIES else limit
  }

  lemma {:induction false} NewestIndex(history: seq<Entry>, n: nat)
    ensures |Newest(history, n)| == if n < |history| then n else |history|
    ensures forall i :: 0 <= i < |Newest(history, n)| ==> Newest(history, n)[i] == history[|history| - 1 - i]
    decreases n
  {
    if n > 0 && history != [] {
      NewestIndex(history[..|history| - 1], n - 1);
    }
  }

  /** Prepending and cutting keeps the newest. */
  lemma NewestPush(history: seq<Entry>, e: Entry, n: nat)
    requires n > 0
    ensures Newest(history + [e], n) == HeadTo([e] + Newest(history, n), n - 1)
  {
    NewestIndex(history, n);
    NewestIndex(history + [e], n);
  }

  /** A shorter listing is the head of a longer one. */
  lemma {:induction false} NewestHead(history: seq<Entry>, n: nat, limit: nat)
    requires limit <= n
    ensures Newest(history, limit) == if limit < |Newest(history, n)| then Newest(history, n)[..limit] else Newest(history, n)
  {
    NewestIndex(history, n);
    NewestIndex(history, limit);
  }

  class ActivityService {
    const useRedis: bool
    var mem: seq<Entry>
    var stored: seq<Entry>          // the Redis list
    ghost var history: seq<Entry>   // every entry that was kept when it was logged

    ghost predicate Valid()
      reads this
    {
      if useRedis then mem == [] && stored == Newest(history, MAX_ENTRIES)
      else mem == Newest(history, MAX_ENTRIES)
    }

    constructor (useRedis: bool)
      ensures Valid() && history == [] && this.useRedis == useRedis
    {
      this.useRedis := useRedis;
      mem, stored, history := [], [], [];
    }

    /** An entry that Redis does not take is lost: the buffer in memory is only for running without Redis. */
    method Log(entry: Entry, now: int, redisOk: bool)
      requires Valid()
      modifies this
      ensures Valid()
      ensures history == if useRedis && !redisOk then old(history) else old(history) + [Stamped(entry, now)]
      ensures useRedis && !redisOk ==> history == old(history)
      ensures !useRedis || redisOk ==>
        && |history| == |old(history)| + 1 && old(history) <= history
        && var kept := history[|old(history)|];
           && kept.action == entry.action
           && kept.id == (if entry.id != "" then entry.id else SignedDec(now))
           && kept.time == (if entry.time != 0 then entry.time else now)
    {
      var e := entry;
      if e.time == 0 {
        e := e.(time := now);
      }
      if e.id == "" {
        e := e.(id := SignedDec(now));
      }
      if useRedis {
        if redisOk {
          NewestPush(history, e, MAX_ENTRIES);
          stored := HeadTo([e] + stored, MAX_ENTRIES - 1);
          history := history + [e];
        }
        return;
      }
      NewestPush(history, e, MAX_ENTRIES);
      mem := [e] + mem;
      if |mem| > MAX_ENTRIES {
        mem := mem[..MAX_ENTRIES];
      }
      history := history + [e];
    }

    /** Both back ends list the same of the same history; a failing Redis lists nothing. */
    method List(limit: int, redisOk: bool) returns (entries: seq<Entry>)
      requires Valid()
      ensures entries == if useRedis && !redisOk then [] else Newest(history, Clamp(limit))
      ensures !useRedis || redisOk ==>
        var most := if 0 < limit <= 500 then limit else 500;
        && |entries| == (if most < |history| then most else |history|)
        && forall i :: 0 <= i < |entries| ==> entries[i] == history[|history| - 1 - i]
    {
      var n := limit;
      if n <= 0 || n > MAX_ENTRIES {
        n := MAX_ENTRIES;
      }
      NewestHead(history, MAX_ENTRIES, n);
      NewestIndex(history, n);
      if useRedis && redisOk {
        return HeadTo(stored, n - 1);
      }
      if n > |mem| {
        n := |mem|;
      }
      return mem[..n];
    }
  }
}
