/** The manager's maps and lock channels as its methods change them. Every method is tied to the tables
    of the lock system, so what is proved of runs there is about these updates. */
module OltManager {
  import opened Text
  import opened CacheKeys
  import opened Redis
  import opened LockSystem

  datatype Instance = Instance(id: string, name: string, host: string, vlanProfiles: map<string, string>)

  datatype Version = V1 | V2

  /** `client` names the SNMP client. */
  datatype Connection = Connection(olt: Instance, client: nat, adapter: Version)

  datatype Outcome = Done(olt: Instance) | AlreadyExists | NotFound | ClientFailed

  datatype Entry = Entered | Cancelled | Blocked

  /** A channel of capacity one; the generation numbers the channels ever made. */
  class LockChannel {
    var full: bool
    ghost const generation: nat

    constructor (ghost generation: nat)
      ensures !full && this.generation == generation
    {
      full := false;
      this.generation := generation;
    }
  }

  /** What one instruction of the lock system does to the tables. */
  ghost function Effect(t: Tables, instr: Instr, olt: string, gen: nat, client: nat): Tables {
    StepTables(t, Thread(olt, "", [instr], {}, gen, 0, client))
  }

  function Clients(olts: map<string, Connection>): map<string, nat> {
    map id | id in olts :: olts[id].client
  }

  class OltManager {
    var olts: map<string, Connection>
    var opLocks: map<string, LockChannel>
    var nextClient: nat
    const cache: RedisCache?
    ghost var channels: set<LockChannel>
    ghost var tables: Tables

    ghost predicate Valid()
      reads this, channels
    {
      && TableInv(tables)
      && tables.olts == Clients(olts) && tables.nextClient == nextClient
      && tables.opLocks.Keys == opLocks.Keys
      && (forall id :: id in opLocks ==> opLocks[id] in channels && opLocks[id].generation == tables.opLocks[id])
      && (forall c :: c in channels ==> c.generation in tables.owner && (c.full <==> c.generation in tables.full))
      && (forall c, d :: c in channels && d in channels && c.generation == d.generation ==> c == d)
      && (forall g :: g in tables.full ==> g in tables.owner)
    }

    constructor (cache: RedisCache?)
      ensures Valid() && olts == map[] && opLocks == map[] && channels == {} && this.cache == cache
    {
      olts, opLocks, nextClient := map[], map[], 1;
      this.cache := cache;
      channels := {};
      tables := Tables(map[], map[], {}, map[], 1, 1, map[]);
    }

    /** Registration goes on when the device cannot be reached; only a client that cannot be made, or an
        OLT already there, ends it. */
    method RegisterOlt(olt: Instance, clientMade: bool, detected: Option<Version>) returns (r: Outcome)
      requires Valid()
      modifies this`olts, this`nextClient, this`tables
      ensures Valid()
      ensures r == if olt.id in old(olts) then AlreadyExists else if !clientMade then ClientFailed else Done(olt)
      ensures r.Done? ==> olts == old(olts)[olt.id := Connection(olt, old(nextClient), if detected.Some? then detected.value else V1)]
      ensures r.Done? ==> tables == Effect(Effect(old(tables), NewClient, olt.id, 0, 0), AddOlt, olt.id, 0, old(nextClient))
      ensures !r.Done? ==> olts == old(olts) && tables == old(tables) && nextClient == old(nextClient)
    {
      if olt.id in olts {
        return AlreadyExists;
      }
      if !clientMade {
        return ClientFailed;
      }
      var client := nextClient;
      nextClient := nextClient + 1;
      var adapter := V1;
      if detected.Some? {
        adapter := detected.value;
      }
      olts := olts[olt.id := Connection(olt, client, adapter)];
      tables := Effect(Effect(tables, NewClient, olt.id, 0, 0), AddOlt, olt.id, 0, client);
      assert Clients(olts) == tables.olts;
      return Done(olt);
    }

    /** Forgets the OLT and its channel, then clears its cache; `pages` and `failAt` are the cache's scan.
        The channel itself, and whoever is inside, is left alone. */
    method UnregisterOlt(id: string, pages: seq<set<string>>, failAt: Option<nat>) returns (found: bool)
      requires Valid()
      requires cache != null ==> forall key :: key in cache.store ==> exists i :: 0 <= i < |pages| && key in pages[i]
      modifies this`olts, this`opLocks, this`tables, cache
      ensures Valid()
      ensures found <==> id in old(olts)
      ensures olts == old(olts) - {id}
      ensures found ==> opLocks == old(opLocks) - {id} && tables == Effect(old(tables), DropOlt, id, 0, 0)
      ensures found && cache != null && failAt.None? ==> cache.store == WithoutMatching(old(cache.store), OltPattern(id))
      ensures cache != null ==> forall key :: key in cache.store ==> key in old(cache.store) && cache.store[key] == old(cache.store)[key]
      ensures cache != null ==> forall key :: key in old(cache.store) && !Glob(OltPattern(id), key) ==> key in cache.store
      ensures !found ==> opLocks == old(opLocks) && tables == old(tables) && (cache != null ==> cache.store == old(cache.store))
    {
      if id !in olts {
        return false;
      }
      olts := olts - {id};
      opLocks := opLocks - {id};
      tables := Effect(tables, DropOlt, id, 0, 0);
      assert Clients(olts) == tables.olts;
      if cache != null {
        var _ := cache.InvalidateOlt(id, pages, failAt);
      }
      return true;
    }

    /** Not atomic: when the new client cannot be made, the old OLT, its lock and its cache are gone. */
    method UpdateOlt(olt: Instance, clientMade: bool, detected: Option<Version>, pages: seq<set<string>>, failAt: Option<nat>)
      returns (r: Outcome)
      requires Valid()
      requires cache != null ==> forall key :: key in cache.store ==> exists i :: 0 <= i < |pages| && key in pages[i]
      modifies this`olts, this`opLocks, this`nextClient, this`tables, cache
      ensures Valid()
      ensures r == if clientMade then Done(olt) else ClientFailed
      ensures r.Done? ==> olts == old(olts)[olt.id := Connection(olt, old(nextClient), if detected.Some? then detected.value else V1)]
      ensures !r.Done? ==> olts == old(olts) - {olt.id}
      ensures opLocks == if olt.id in old(olts) then old(opLocks) - {olt.id} else old(opLocks)
    {
      var _ := UnregisterOlt(olt.id, pages, failAt);
      r := RegisterOlt(olt, clientMade, detected);
      assert r.Done? ==> olts == old(olts)[olt.id := Connection(olt, old(nextClient), if detected.Some? then detected.value else V1)];
    }

    /** Under the manager's mutex: the OLT's channel, made on first use. */
    method FindOpLock(id: string) returns (lock: LockChannel)
      requires Valid()
      modifies this`opLocks, this`channels, this`tables
      ensures Valid()
      ensures id in old(opLocks) ==> lock == old(opLocks)[id]
      ensures id !in old(opLocks) ==> fresh(lock) && !lock.full
      ensures opLocks == old(opLocks)[id := lock] && channels == old(channels) + {lock}
      ensures tables == Effect(old(tables), FindLock, id, 0, 0) && lock.generation == tables.opLocks[id]
    {
      if id !in opLocks {
        lock := new LockChannel(tables.nextGen);
        opLocks := opLocks[id := lock];
        channels := channels + {lock};
      } else {
        lock := opLocks[id];
      }
      tables := Effect(tables, FindLock, id, 0, 0);
    }

    /** Look up, then send or see the request cancelled. `done` tells whether the context is cancelled and
        `pickDone` which ready case select takes. The caller waits while neither is ready. */
    method AcquireSnmpLock(id: string, done: bool, pickDone: bool) returns (lock: LockChannel, entry: Entry)
      requires Valid()
      modifies this`opLocks, this`channels, this`tables, channels`full
      ensures Valid()
      ensures id in old(opLocks) ==> lock == old(opLocks)[id]
      ensures id !in old(opLocks) ==> fresh(lock)
      ensures opLocks == old(opLocks)[id := lock] && channels == old(channels) + {lock}
      ensures var busy := id in old(opLocks) && old(opLocks[id].full);
              entry == if done && (busy || pickDone) then Cancelled else if busy then Blocked else Entered
      ensures entry.Entered? ==> lock.full
      ensures forall c :: c in old(channels) && !(entry.Entered? && c == lock) ==> c.full == old(c.full)
      ensures tables ==
              var looked := Effect(old(tables), FindLock, id, 0, 0);
              if entry.Entered? then Effect(looked, Acquire(Chan), id, lock.generation, 0) else looked
    {
      lock := FindOpLock(id);
      if done && (lock.full || pickDone) {
        return lock, Cancelled;
      }
      if lock.full {
        return lock, Blocked;
      }
      lock.full := true;
      tables := Effect(tables, Acquire(Chan), id, lock.generation, 0);
      return lock, Entered;
    }

    /** The closure an acquisition returns: it receives from the channel it captured, wherever the map of
        channels points by now. */
    method Release(lock: LockChannel)
      requires Valid() && lock in channels && lock.full
      modifies this`tables, lock`full
      ensures Valid() && !lock.full
      ensures tables == Effect(old(tables), LockSystem.Release(Chan), "", lock.generation, 0)
    {
      lock.full := false;
      tables := Effect(tables, LockSystem.Release(Chan), "", lock.generation, 0);
    }

    /** The list of one PON, and one ONU's detail if an ONU is named. */
    method InvalidateOnuCache(id: string, board: int, pon: int, onuId: int)
      modifies cache
      ensures cache != null ==>
        cache.store == old(cache.store) - ({KeyText(OnuList(id, board, pon))}
                        + if onuId > 0 then {KeyText(OnuDetail(id, board, pon, onuId))} else {})
    {
      if cache == null {
        return;
      }
      cache.Delete({KeyText(OnuList(id, board, pon))});
      if onuId > 0 {
        cache.Delete({KeyText(OnuDetail(id, board, pon, onuId))});
      }
    }

    method UpdateVlanProfiles(id: string, profiles: map<string, string>) returns (found: bool)
      requires Valid()
      modifies this`olts
      ensures Valid()
      ensures found <==> id in old(olts)
      ensures olts == if found then old(olts)[id := old(olts)[id].(olt := old(olts)[id].olt.(vlanProfiles := profiles))] else old(olts)
    {
      if id !in olts {
        return false;
      }
      var conn := olts[id];
      olts := olts[id := conn.(olt := conn.olt.(vlanProfiles := profiles))];
      assert Clients(olts) == Clients(old(olts));
      return true;
    }
  }
}
