# OLT monitor: a verified model

This project models the parts of the OLT monitoring service that decide what users see and what the
devices are told, and proves what they promise.

- **The ONU list of a PON port** is produced in three ways: an on-demand join of four SNMP walks, a names
  poller, and an optical poller, all over one Redis cache. `Oids`, `IfIndex`, `Pdus`, `Joins`, `Keyed` hold
  the OID texts, index arithmetic, row values and keyed joins; `OnuService`, `Pollers`, `PonLists` and
  `Indexer` the loops that compute them, and `SyncIndex` the search index over all OLTs; `Pipeline` their agreement, `ServedPipeline` what a request is answered after the pollers, and
  `PrintedDevice` a device's own table read back as the list; `CacheKeys`, `Redis`, `AdaptiveTtl` the
  cache; `CacheSystem` all producers, invalidation and expiry as one system of interleaved steps.
- **Locks and fan-out.** `LockSystem` is a step system over the single-flight slots, the per-OLT operation
  channels (in generations, since unregistering forgets a channel), the manager's read-write mutex and the
  SNMP client mutexes; `LockScripts` gives the operations that take any of these locks as scripts over them,
  `LockSections` what the operation channel keeps apart, and `LockRuns` runs of those scripts;
  `OltManager` is the manager object itself, each method tied to the tables of the step system. `FanOut` is
  the pollers' semaphore, wait group and result slots; `Gather` the slices several goroutines append to.
- **Login and administration.** `LoginLimiter` and `LoginVolley` hold the rate limit and the lockout as
  clock-driven state with bounds over whole histories, `UserAdmin` the users map, password storage and
  normalisation, `Activity` the bounded audit log.
- **Provisioning.** `Replacer`, `Templates`, `Rendering` go from a request to command lines,
  `ProgramTemplates` holds the four templates, `Commands` what a request turns into under each and
  `CommandTexts` the texts that carry its values; `Telnet`
  frames them, reads one prompt per command and parses the VLAN profile listing; `Provisioning` is the flow
  and its structured log; `OnuIds` finds the next free ONU ID in a printed table.
- `Text` and `Decimal` are the string and number functions of the standard library that the rest needs.

A device is an immutable snapshot of SNMP rows (or, in `CacheSystem`, anything at every walk). Redis is a map
from texts to values with an expiry; a cached value stands for its JSON encoding. Clock readings, library
results, error texts and hash salts are parameters. Code that changes state step by step is a method or a
class proved against a specification function; the main results are lemmas about those functions.

## What the code does that its documentation does not say

- `README.md` and `API.md` give an interface-index formula with the shelf shifted by 25 bits; the code adds
  a constant and never reads the shelf. The model follows the code, and `IfIndex.ParseCalculate` says for
  which arguments parsing inverts it.
- The integer printer of the OID builder prints the least 64-bit integer as a bare minus sign;
  `Oids.ItoaRoundTrip` shows it is the only integer it gets wrong.
- A stored password is hashed after trimming, but a login compares the password as typed:
  `UserAdmin.HashThenCheck` shows it is accepted exactly when it has no surrounding white space.
- Invalidating an OLT by pattern can reach other OLTs' keys, in three ways: the other ID continues its own
  after a colon, its own ID runs into the other's keys, or its own ID holds a wildcard. `CacheKeys.InvalidationReach`
  says which keys any ID without glob characters reaches, `CacheKeys.InvalidationCrosses` and
  `CacheKeys.WildcardsReachOthers` say exactly when another OLT is hit, and `CacheKeys.InvalidationLeaks`
  gives a case of each kind.
- Unregistering an OLT deletes its lock while it may be held: `LockRuns.UnregisterLetsSecondIn` and
  `LockRuns.FetchesOvertaken` are runs with two holders, and `LockSystem.OltExclusivity` shows that an
  unregistration in between is the only way.
- An update whose new SNMP client cannot be made loses the OLT (`OltManager.OltManager.UpdateOlt`).
- The last-superadmin guard counts in any case but protects one spelling: `UserAdmin.DeleteGuardExact` says
  for any users what it is worth. Loading normalises every role, so no state it fails in is ever reached
  (`UserAdmin.AdministrationInvariant`).
- A PPPoE user name or password with spaces is not quoted in the command that sends it: requests with
  different logins can turn into the same commands (`Commands.LoginsAlike`), and only those with equal login
  text do (`Commands.CommandsIdentifyRequest`). No template uses the hotspot profile, and the Huawei ones
  no login.
- Every template enters ONU management, so the wait that looks for it is never skipped
  (`Provisioning.KnownTemplatesWait`).
- The comment on the names cache says six hours; the constant is ten.
- The per-window limit of 20 logins lets 20n + 19 through an interval of n windows, and this is attained
  (`LoginLimiter.RateBound`, `LoginVolley.RateBoundAttained`). The clock is read before the limiter's mutex
  is taken, so readings may be out of order by a little: `LoginLimiter.RateBoundSkewed` says what that costs.

## Model

| member | source | states |
|---|---|---|
| Oids.Itoa | internal/snmp/oids.go:69-90 | the digit loop ends and yields the canonical decimal text, except that the least integer, whose negation overflows, prints as a bare minus sign |
| Oids.ItoaRoundTrip | internal/snmp/oids.go:69-90 | strconv.Atoi inverts the printer exactly for every integer but the least, and fails on that one |
| Oids.ItoaTextInjective | internal/snmp/oids.go:69-90 | different integers print differently |
| Oids.OnuOidUnder | internal/snmp/oids.go:55-66 | the OID of an ONU lies under the walk prefix of an interface index exactly when it is that ONU's own, and what follows the prefix is the ONU ID and the suffix |
| Oids.ExtractRoundTrip | internal/service/onu_service.go:277-287 | reading an ONU ID back from a built OID gives the ID in its own subtree and an error in every other |
| Oids.PolledAgrees | internal/poller/optical.go:248-261 | the pollers' unchecked reading equals the service's checked one exactly when the prefix is there or the whole name does not begin with a number |
| Oids.PolledRoundTrip | internal/poller/optical.go:270-288 | the pollers read back the ID built in; received-power rows only with a channel component |
| IfIndex.ParseCalculate | internal/snmp/ifindex.go:6-17 | parsing inverts calculation exactly for shelf 1 and one-byte slot and port |
| IfIndex.IndexOrder | internal/snmp/ifindex.go:3-9 | indexes sort by board and then by PON, and the boards and PONs observed on devices have the documented ones |
| IfIndex.SameSubtree | internal/poller/optical.go:123-136 | recalculating a discovered index from its board and PON gives it back exactly when it has the canonical form, so poller and service then walk one subtree |
| Decimal.AtoiSignedDec | internal/poller/optical.go:252-255 | strconv.Atoi reads back every 64-bit integer from its canonical text |
| Pdus.SerialNumbersDiffer | internal/snmp/parsers.go:37-48 | different eight-byte serial numbers are shown differently |
| Pdus.HexRoundTrip | internal/snmp/parsers.go:37-48 | the hexadecimal digits shown read back as the bytes, the more significant digit first |
| Pdus.StatusNamesDiffer | internal/snmp/parsers.go:74-98 | different status codes have different names, unknown codes included |
| Keyed.CollectSorted | internal/service/onu_service.go:196-205 | ranging over the ONU map in any order, appending and sorting by ID gives the one list of its values in increasing key order |
| Keyed.KeyedListUnique | internal/service/onu_service.go:196-205 | a list sorted by a key that holds exactly a map's values is determined by the map |
| OnuService.JoinStatus | internal/service/onu_service.go:143-149 | the status loop computes the keyed join in which the last row of an ID wins |
| OnuService.JoinNames | internal/service/onu_service.go:160-168 | the name loop adds trimmed names to the join, creating ONUs that had no row yet |
| OnuService.JoinSerials | internal/service/onu_service.go:170-178 | the serial-number loop does the same for serial numbers |
| OnuService.JoinPower | internal/service/onu_service.go:180-194 | the received-power loop does the same through the OLT's adapter, or the default conversion |
| OnuService.Fetch | internal/service/onu_service.go:106-211 | the whole on-demand fetch: an error if the status walk fails, the empty list without status rows, otherwise the sorted four-way join |
| OnuService.MergeNames | internal/service/onu_service.go:67-76 | an item without a name whose ID has an entry takes that entry's name and serial number and keeps every other field, every other item is unchanged, and the flag says whether one was found |
| OnuService.Service.ReadCache | internal/service/onu_service.go:41-89 | what is served without a fetch: a complete list, or a list the names cache improves |
| OnuService.Service.GetOnuList | internal/service/onu_service.go:40-244 | whichever Redis calls fail: a request is answered from the cache, with names filled in as above and nothing changed, or by a fetch whose list and names are stored as far as the writes succeed; an unknown OLT, a cancelled request and a failed walk are errors that store nothing |
| OnuService.FetchThenServe | internal/service/onu_service.go:213-235 | a fetched list whose writes succeeded is what later requests that can read it are served until it expires, nameless ONUs included: the cache is transparent |
| OnuService.MergedKeepsPort | internal/service/onu_service.go:67-76 | merging keeps IDs, their order and the port of every item |
| PrintedDevice.FetchRoundTrip | internal/service/onu_service.go:106-211 | on a device that prints the ONUs of a port in order, the fetch of that board and PON lists exactly those, each with its own name, serial number, status and received power |
| ServedPipeline.OpticalThenNamesServed | internal/service/onu_service.go:41-89 | after an optical poll without names and then a names poll, a request is answered from the cache, and with the on-demand list if and only if the tables are covered |
| ServedPipeline.NamesThenOpticalServed | internal/service/onu_service.go:41-89 | after the polls in the usual order, a request answered from the cache gets the on-demand list if and only if the tables are covered |
| AdaptiveTtl.TtlBounds | internal/service/onu_service.go:258-274 | under wrapping 64-bit arithmetic the lifetime lies between base and five times base, and equals the smaller of base + 2d and 5 base unless that sum overflows |
| AdaptiveTtl.ComputeTtl | internal/service/onu_service.go:258-274 | the assignments compute that function |
| Pollers.DiscoverPons | internal/poller/optical.go:118-140 | discovery lists, in row order, the port of every description row whose suffix is one number; a failed walk is an error |
| Pollers.DiscoveryRoundTrip | internal/poller/names.go:161-182 | a device that prints one row per PON is discovered port by port, each with its board, PON and index |
| Pollers.NamesPoller.PollPon | internal/poller/names.go:184-260 | one names poll: the sorted name and serial join is stored unless the write fails, and counted; without name rows nothing is stored |
| Pollers.OpticalPoller.Join | internal/poller/optical.go:246-325 | status, power with a channel component, sort, and names from the cache give the optical list |
| Pollers.OpticalPoller.PollPon | internal/poller/optical.go:233-340 | one optical poll, whichever Redis calls fail: that list is stored for its lifetime unless the write fails, and counted; without status rows nothing is stored |
| Pipeline.TablesAgree | internal/service/onu_service.go:133-205 | the sorted list of the pipeline's map and that of the direct join are equal if and only if the tables are covered |
| Pipeline.PipelineAgrees | internal/poller/optical.go:233-340 | on one snapshot, with no names left in the cache when the device has no name row, the names poller followed by the optical poller builds exactly the on-demand list if and only if every ONU has a status row, an ONU without a name row has no serial number, and rows with a channel decide the power |
| Pipeline.RegularDeviceCovered | internal/service/onu_service.go:133-194 | a device whose status and name rows cover the same ONUs, with serial and power rows among them and channels on power rows, meets that condition |
| Pipeline.PollersMatchFetch | internal/service/onu_service.go:108-109 | the same from a discovered index: the fetch recalculates its subtree from board and PON |
| Pollers.PollersCacheDirectList | internal/poller/names.go:247-256 | through the cache and its lifetimes: after both polls the cached list is the on-demand list if and only if the tables are covered, whatever was cached before |
| PonLists.GetPonList | internal/service/onu_service.go:436-482 | on demand: exactly the rows of the board, each as often as it occurs, sorted by PON number |
| PonLists.PonListRoundTrip | internal/service/onu_service.go:436-482 | on a device that prints one row per PON, the answer for a board, on demand or stored, lists exactly its PONs in increasing order with their descriptions unquoted, and a board has a stored list exactly when it has a PON |
| PonLists.ListedAreDiscovered | internal/poller/optical.go:118-182 | on any rows, the ports listed for a board are those discovery finds there |
| PonLists.PonListsByBoard | internal/poller/optical.go:161-182 | the poller makes a list for exactly the boards that have a port, each sorted and complete |
| PonLists.PonListsAgree | internal/poller/optical.go:161-182 | poller and service give the same list for a board on which no PON number is described in two ways |
| CacheKeys.KeyTextInjective | internal/cache/redis.go:25-35 | keys of different families or arguments are different texts, for arbitrary OLT IDs |
| CacheKeys.InvalidationReach | internal/cache/redis.go:161-164 | the pattern of any OLT ID free of glob characters matches a key exactly when it is a per-OLT key whose OLT ID is that ID, continues it after a colon, or is continued by it with the beginning of that key |
| CacheKeys.InvalidationExact | internal/cache/redis.go:161-164 | when no OLT ID holds a colon it matches exactly that OLT's keys among all keys written |
| CacheKeys.InvalidationCrosses | internal/cache/redis.go:161-164 | invalidating an OLT hits some key of a given other exactly when the other's ID continues its own after a colon or its own continues the other's with the beginning of a key |
| CacheKeys.WildcardsReachOthers | internal/cache/redis.go:161-164 | a colon-free ID reaches another colon-free OLT exactly when it holds a wildcard |
| CacheKeys.InvalidationLeaks | internal/cache/redis.go:161-164 | a concrete case of each of the three kinds |
| Redis.KeysApart | internal/cache/redis.go:82-113 | list and names keys never coincide, and keys of different ports differ |
| Redis.ListWritten | internal/cache/redis.go:95-101 | a written list reads back until its lifetime ends and then not at all, and every other key is as it was |
| Redis.NamesWritten | internal/cache/redis.go:105-113 | the same for names, with ten hours |
| Redis.RedisCache.DeleteByPattern | internal/cache/redis.go:204-225 | the cursor loop deletes exactly the matching keys when the scan completes, and only matching keys when a call fails |
| Redis.RedisCache.InvalidateOlt | internal/cache/redis.go:161-164 | the same with the OLT's pattern |
| Redis.RedisCache.SetOnuListWithTtl | internal/cache/redis.go:95-101 | the one key of the port is written, with the default lifetime when the given one is not positive |
| CacheSystem.RunKeepsInv | internal/service/onu_service.go:40-243 | every interleaving of fetches, both pollers, invalidation, expiry, other writers and failing Redis calls keeps the invariant of store and tasks |
| CacheSystem.StoredAndServedLists | internal/poller/optical.go:290-337 | in every state of every such run a stored list is non-empty, strictly increasing in ONU ID and on exactly the OLT, board and PON of its key, and every list answered is empty or of that shape for the port asked for |
| CacheSystem.FlightsShared | internal/service/onu_service.go:91-93 | in every reachable state at most one fetch is under way for a port, and whoever waited for it is answered exactly what it answered |
| CacheSystem.ReadsServe | internal/service/onu_service.go:41-89 | left alone, the two cache reads of a request answer what the service's own reading answers |
| CacheSystem.FetchStores | internal/service/onu_service.go:213-235 | left alone, the two writes of a fetch store its list and its names |
| CacheSystem.OpticalStores | internal/poller/optical.go:233-340 | left alone, an optical poll's steps store what the poller's method stores |
| CacheSystem.NamesStores | internal/poller/names.go:184-260 | left alone, a names poll's steps likewise |
| CacheSystem.FlightKeyInjective | internal/service/onu_service.go:92-93 | requests that share one fetch ask for the same port, for arbitrary OLT IDs |
| Indexer.OnuKeyInjective | internal/service/indexer_service.go:169-180 | the text key of the join identifies interface index and ONU ID |
| Indexer.IndexStatus | internal/service/indexer_service.go:182-201 | the status loop over a whole OLT computes the join keyed by ONU, last row winning |
| Indexer.IndexNames | internal/service/indexer_service.go:203-225 | the name loop changes only ONUs that have a status row |
| Indexer.IndexSerials | internal/service/indexer_service.go:227-243 | the serial-number loop likewise |
| Indexer.WalkOlt | internal/service/indexer_service.go:182-259 | the index lists every ONU with a status row once, in some order, and fails only when the status walk does |
| Indexer.LatestOnuUnder | internal/service/indexer_service.go:188-201 | the last row of an ONU in a whole walk is its last row in the walk of its PON, for rows of the built form |
| Indexer.IndexAgrees | internal/service/indexer_service.go:167-257 | for every canonical index the search index holds exactly the ONUs with a status row in that port's fetch, with the same status and serial number and, after trimming, the same name |
| SyncIndex.SyncAllCollects | internal/service/indexer_service.go:88-131 | in every goroutine order and map iteration the stored index holds exactly every reachable OLT's items with their multiplicity |
| Gather.GatheredAll | internal/service/indexer_service.go:93-113 | in every goroutine order the collected slice holds every part's elements with their multiplicity |
| Gather.GroupWait | internal/poller/optical.go:362-388 | the error group returns nil exactly when no task failed, and otherwise the error of one that did |
| FanOut.MoveKeepsInv | internal/poller/optical.go:196-216 | every move of spawner, goroutine or waiter keeps the counters of semaphore and wait group right and shortens the run by exactly one |
| FanOut.FanOutSafety | internal/poller/optical.go:196-216 | in every interleaving at most two polls run at once, no slot is written twice, and the wait ends only when every slot holds its own PON's outcome |
| FanOut.FanOutEnds | internal/poller/names.go:126-146 | every run takes at most 5n + 1 moves, is past the wait exactly after that many, and is never stuck before |
| FanOut.Summarize | internal/poller/optical.go:218-227 | the loop computes that total, and counts as many failures as there are failed PONs |
| FanOut.TotalsAdd | internal/poller/optical.go:218-227 | totals are sums over the PONs, a failed one counting nothing, and failures are counted one by one |
| FanOut.TotalsIndependent | internal/poller/names.go:148-155 | total and failures are the same under any two schedules |
| LockSystem.MutualExclusion | internal/service/olt_manager.go:134-149 | in every reachable state a channel generation, a client mutex and a single-flight slot have at most one holder, and a writer of the manager's mutex is alone |
| LockSystem.ReleaseFreesOwnGeneration | internal/service/olt_manager.go:143-146 | a release frees the channel its closure captured and no other, even after unregistering replaced the map entry |
| LockSystem.OltExclusivity | internal/service/olt_manager.go:104-120 | two holders of one OLT's section looked its channel up with an unregistration of that OLT in between |
| LockSystem.DeadlockFreedom | internal/service/onu_service.go:93-104 | in every reachable state, while any thread is unfinished some thread can run even if waiting writers keep new readers out |
| LockSystem.NextShortens | internal/snmp/client.go:60-150 | every step, failing operations included, shortens what remains to be run |
| LockSystem.RunsEndFree | internal/service/olt_manager.go:134-149 | a state in which nothing can run has every operation finished and every lock free |
| LockScripts.ScriptWellRanked | internal/service/olt_manager.go:54-149 | every operation that takes one of these locks acquires them in the order flight, channel, manager mutex, client mutex, and releases them all |
| LockScripts.OperationsComplete | internal/service/onu_service.go:93-104 | any number of operations started together is never stuck before all are finished, and takes boundedly many steps |
| LockSections.OneWalkPerOlt | internal/service/olt_manager.go:134-149 | whatever runs beside them, two fetches, index walks or readings of system information never talk to one OLT at once unless it was unregistered between their look-ups |
| LockRuns.UnregisterLetsSecondIn | internal/service/olt_manager.go:104-131 | a run of two index walks and an unregister of one OLT that ends with both walks inside its section |
| LockRuns.FetchesOvertaken | internal/service/onu_service.go:93-211 | a run in which an unregister overtakes a list fetch inside its section and a detail fetch that has read its client: both end inside the section of an OLT that is gone |
| OltManager.OltManager.RegisterOlt | internal/service/olt_manager.go:54-101 | an existing OLT or a client that cannot be made changes nothing; otherwise the OLT is added, with the default firmware when detection fails |
| OltManager.OltManager.UnregisterOlt | internal/service/olt_manager.go:104-131 | connection, lock and, when the scan completes, every cached key of the pattern are gone; channels themselves are untouched |
| OltManager.OltManager.UpdateOlt | internal/service/olt_manager.go:273-281 | unregister then register, and the exact state left when registering fails |
| OltManager.OltManager.FindOpLock | internal/service/olt_manager.go:135-141 | the OLT's channel is the one in the map, or a new one put there |
| OltManager.OltManager.AcquireSnmpLock | internal/service/olt_manager.go:134-149 | which of entering, cancelling and waiting is possible, and that only the channel entered is filled |
| OltManager.OltManager.Release | internal/service/olt_manager.go:143-146 | the captured channel is emptied and nothing else changes |
| OltManager.OltManager.InvalidateOnuCache | internal/service/olt_manager.go:152-164 | the list key of the port, and the detail key for a positive ONU ID, are deleted and no other |
| OltManager.OltManager.UpdateVlanProfiles | internal/service/olt_manager.go:284-295 | only the profiles of the named OLT change |
| LoginLimiter.AuthHandler.CheckRateLimit | internal/handler/auth_handler.go:202-221 | the window of one key is opened, counted or found full; a refused hit changes nothing |
| LoginLimiter.AuthHandler.IsLocked | internal/handler/auth_handler.go:223-236 | locked exactly while the lock's end lies ahead, and never for the empty name |
| LoginLimiter.AuthHandler.RegisterFailure | internal/handler/auth_handler.go:238-253 | the fifth failure locks for five minutes from now and starts the count again |
| LoginLimiter.AuthHandler.LogIn | internal/handler/auth_handler.go:98-131 | limit, lock, password, in that order: the outcome and the state after each |
| LoginLimiter.RateBound | internal/handler/auth_handler.go:202-221 | however clients and overlapping logins interleave, with clock readings that never go back a closed interval of n windows lets at most 20n + 19 requests of one client through, and an instant at most 20 |
| LoginLimiter.RateBoundSkewed | internal/handler/auth_handler.go:202-206 | with readings up to a given skew out of order, at most 20 more for every window's length the skew has begun |
| LoginLimiter.RatesOfLogins | internal/handler/auth_handler.go:98-131 | lockouts and passwords have no part in the rate limit: a login history leaves it as its rate checks alone do |
| LoginVolley.RateBoundAttained | internal/handler/auth_handler.go:202-221 | for every n up to the ticks of a window a run reaches that number |
| LoginLimiter.OtherClientsIrrelevant | internal/handler/auth_handler.go:207-219 | a client's limit state is what its own requests alone would have made it |
| LoginLimiter.LockoutSpacing | internal/handler/auth_handler.go:108-127 | without a success in between, the i-th and (i+5)-th refused attempts on a user are at least five minutes apart |
| LoginLimiter.GuessBound | internal/handler/auth_handler.go:223-262 | refused attempts on a user within a time T number at most 5 (T / 5 min + 1) |
| LoginLimiter.LockedExactly | internal/handler/auth_handler.go:108-131 | after any history, a login the rate limit lets through finds the account locked if and only if one of the refusals numbered 5, 10, 15 and so on since the user's last success is less than five minutes old; otherwise the password alone decides |
| LoginLimiter.FourMistakesForgiven | internal/handler/auth_handler.go:238-253 | with fewer than five refusals since the last success the right password is accepted |
| LoginLimiter.LimitedAfterTwenty | internal/handler/auth_handler.go:202-221 | a request is refused by the limit only within a minute of twenty of the same client that were let through |
| UserAdmin.HashThenCheck | internal/config/password.go:11-39 | a stored hash accepts exactly the trimmed password, so the typed one exactly when it is trimmed |
| UserAdmin.NormalizeKeepsPassword | internal/config/password.go:41-57 | normalising a plain stored password keeps what it accepts exactly when it is trimmed |
| UserAdmin.NormalizedNormal | internal/config/password.go:41-66 | a normalised account has a normal role and a hashed password, and a normal one is left as it is |
| UserAdmin.NormalizeRoleNormal | internal/config/password.go:59-66 | the result is trimmed, lower-case and not empty, and only such roles are unchanged |
| UserAdmin.NormalizeRoleSpelled | internal/config/password.go:59-66 | a role is read in any case and with white space around it, and a blank one is a technician's |
| UserAdmin.StoredHashKept | internal/config/password.go:25-57 | a stored text with one of the three hash prefixes is compared by the library and never hashed again |
| UserAdmin.UserHandler.NormalizeUsers | internal/config/password.go:41-57 | every account is normalised, or an error leaves each normalised or as it was |
| UserAdmin.UserHandler.CountSuperadmins | internal/handler/user_handler.go:197-205 | the loop counts the superadmins without regard to case |
| UserAdmin.UserHandler.CreateUser | internal/handler/user_handler.go:57-100 | the account added, or the reply and no change; a failed save keeps the change in memory |
| UserAdmin.UserHandler.UpdateUser | internal/handler/user_handler.go:103-159 | role and password changed as UpdateThenCheck says, or the reply and no change |
| UserAdmin.UserHandler.DeleteUser | internal/handler/user_handler.go:162-195 | the account removed, or the reply and no change |
| UserAdmin.UserHandler.ChangeOwnPassword | internal/handler/auth_handler.go:161-200 | the password replaced after the old one was checked, or the reply and no change |
| UserAdmin.GuardLeavesAnother | internal/handler/user_handler.go:133-137 | where the last-superadmin guard lets a change through, another superadmin is left |
| UserAdmin.CreateGranted | internal/handler/user_handler.go:57-100 | a user is created exactly when the name is not blank and free, the password not blank and hashable, and the role blank or known |
| UserAdmin.UpdateGranted | internal/handler/user_handler.go:103-159 | an account is updated exactly when it exists, something valid is asked for, and no last superadmin would become a technician |
| UserAdmin.DeleteGranted | internal/handler/user_handler.go:162-195 | an account is deleted exactly when it exists, is not one's own, and another superadmin remains; only it goes |
| UserAdmin.PasswordGranted | internal/handler/auth_handler.go:161-200 | one's own password is changed exactly when the present one is accepted and the new one is not blank and hashable |
| UserAdmin.RepliesTell | internal/handler/user_handler.go:57-195 | success is answered exactly when a request was granted and saved, and a refused one changes nothing |
| UserAdmin.AdministrationInvariant | internal/handler/user_handler.go:57-205 | every run of requests, whoever makes them and whether or not saving works, leaves a superadmin, normal roles and hashed passwords |
| UserAdmin.DeleteGuardExact | internal/handler/user_handler.go:162-195 | for any users: a deletion leaves no superadmin exactly when it names the only one, not oneself, and that role is not the spelling the guard compares with |
| UserAdmin.CreateThenCheck | internal/handler/user_handler.go:83-92 | a created user can log in with the trimmed password and nothing else, has the role asked for, and no other account changed |
| UserAdmin.UpdateThenCheck | internal/handler/user_handler.go:139-152 | after an update the account accepts exactly the trimmed new password, or what it did before if none was asked for, has the role asked for or its old one, and no other account changed |
| UserAdmin.ChangeThenCheck | internal/handler/auth_handler.go:184-191 | after a change of one's own password the account accepts exactly the trimmed new one, with its role and all other accounts unchanged |
| Activity.ActivityService.Log | internal/service/activity_service.go:31-53 | the entry is stamped and becomes the newest; one that Redis refuses is lost |
| Activity.ActivityService.List | internal/service/activity_service.go:56-83 | either back end lists exactly the newest entries of the same history, newest first, as many as asked for up to 500 and as there are |
| Activity.NewestPush | internal/cache/redis.go:179-185 | pushing at the head and trimming keeps exactly the newest |
| Replacer.OrderIndependent | internal/service/provisioning_templates.go:203-217 | with prefix-free keys simultaneous replacement does not depend on the order of the pairs |
| Replacer.MatchUnique | internal/service/provisioning_templates.go:203-217 | at most one key of a prefix-free list matches at a position |
| Replacer.FirstMatchEarliest | internal/service/provisioning_templates.go:203-217 | where keys overlap, the first in argument order wins |
| Templates.PlaceholdersPrefixFree | internal/service/provisioning_templates.go:203-217 | none of the thirteen placeholders begins another |
| Templates.ReplaceFills | internal/service/provisioning_templates.go:225 | rendering fills exactly the placeholders of a template, whatever the values hold |
| Templates.SequentialAgrees | internal/service/provisioning_templates.go:203-225 | with brace-free values replacing the keys one by one in any order gives the same text |
| Templates.SequentialDiffers | internal/service/provisioning_templates.go:203-225 | with a placeholder as value it does not |
| Templates.FillHolds | internal/service/provisioning_templates.go:203-225 | a filled line holds a brace or a line break exactly when the value of one of its fields does |
| Templates.ReadBack | internal/service/provisioning_templates.go:203-225 | where every value ends at a character it does not hold, a filled line determines the value of each field in it |
| Rendering.RenderProvisioningTemplate | internal/service/provisioning_templates.go:202-229 | one command for every line that is neither blank nor a comment, trimmed and then replaced |
| Rendering.LineCounts | internal/service/provisioning_templates.go:219-226 | a template line counts as the text it holds between white space, and not at all when that is empty or begins with an exclamation mark |
| Commands.GeneratedCommands | internal/service/provisioning_templates.go:50-229 | under each of the four templates a request becomes the template's lines, one command each, with exactly its values filled in |
| Commands.GeneratedCount | internal/service/provisioning_templates.go:85-200 | 25, 31, 22 or 24 commands, by the template alone |
| CommandTexts.CommandsSay | internal/service/provisioning_templates.go:59-200 | under every template each value of a request stands in the command it belongs to: board, PON and ONU ID in the interface lines, serial number and type in the registering line, and name, bandwidth, both VLANs and the login in theirs |
| CommandTexts.EnteredOnuFound | internal/service/provisioning_service.go:258-259 | the scan for used IDs finds in the line that enters a ZTE ONU exactly the request's ID on its own board and PON, and in a Huawei line nothing |
| Commands.CommandsIdentifyRequest | internal/service/provisioning_templates.go:50-200 | two requests turn into the same commands if and only if they name the same template and agree on board, PON, ONU ID, serial number, name, bandwidth and both VLANs and, with a ZTE template, on the login as printed |
| Commands.LoginReadBack | internal/service/provisioning_templates.go:110 | with user names and passwords free of spaces the printed login determines user, password and profile |
| Commands.LoginsAlike | internal/service/provisioning_templates.go:110 | any request whose password holds the text before the profile shares its commands with another |
| Commands.CommandsCarry | internal/service/provisioning_templates.go:85-229 | some command holds a line break, or a brace, exactly when a text the template uses holds one |
| Rendering.Request.ApplyVlanProfiles | internal/service/provisioning_templates.go:26-33 | only empty profiles are resolved, each from its own VLAN |
| Telnet.FramedSplit | internal/service/telnet_service.go:96-104 | the bytes written split back into the commands exactly when no command holds a line break |
| Telnet.PromptTexts | internal/service/telnet_service.go:106-110 | text up to its first number sign, greater-than sign or Confirm is one reply |
| Telnet.TelnetSession.ReadUntil | internal/service/telnet_service.go:109 | output up to and including the first prompt, or a time-out with no prompt anywhere |
| Telnet.TelnetSession.SendCommands | internal/service/telnet_service.go:93-118 | the batch is written once and one prompt is consumed per command; a failure returns the replies before it |
| Telnet.RepliesReadBack | internal/service/telnet_service.go:106-117 | a stream of replies is read back reply by reply |
| Telnet.BatchInStep | internal/service/telnet_service.go:93-118 | with a device that answers every line with one or more prompts, nothing is left unread exactly when no command holds a line break and no answer a second prompt |
| Telnet.ParseVlanProfileOutput | internal/service/telnet_service.go:211-233 | the line loop computes the listing's map |
| Telnet.ProfilesRoundTrip | internal/service/telnet_service.go:211-233 | parsing a printed listing, with any white space and other lines, gives what its blocks say |
| Telnet.LastBlockWins | internal/service/telnet_service.go:224-229 | a VLAN maps to the name of the last block that lists it |
| Telnet.ListedProfileResolves | internal/service/provisioning_templates.go:35-48 | a request's VLAN resolves to that name, and to P and its number when no block lists it |
| Provisioning.PrepareProvisioning | internal/service/provisioning_service.go:97-111 | the commands executed are those of the preview |
| Provisioning.ShouldWaitForOnuInitialization | internal/service/provisioning_service.go:128-136 | whether some command enters ONU management |
| Provisioning.IncludesAnywhere | internal/service/provisioning_service.go:142-149 | the scan for an error word finds it anywhere in the output and nothing else |
| Provisioning.ComplainsExact | internal/service/provisioning_service.go:142-149 | output is taken for an error exactly when it holds "error" or "invalid" somewhere, in any case |
| Provisioning.RunBatch | internal/service/provisioning_service.go:75-89 | the batch's verdict, what was written and read, and the log's remaining entries |
| Provisioning.ProvisionOnu | internal/service/provisioning_service.go:51-89 | the flow succeeds exactly when its log has no failed entry; which stage failed, what was sent and what was read |
| Provisioning.LogSound | internal/service/provisioning_service.go:51-89 | a log of any verdict holds a failed entry exactly when the flow did not succeed |
| Provisioning.StepsAreThePreview | internal/service/provisioning_service.go:151-161 | a successful log holds Step 1 to Step n with the previewed commands in order |
| Provisioning.BatchEntryReadBack | internal/service/provisioning_service.go:75-84 | a failed batch is logged with its commands, line by line |
| Provisioning.PreviewFrames | internal/service/provisioning_service.go:92-111 | under each template, the bytes written split back into the previewed commands if and only if no text the template uses holds a line break |
| Provisioning.PreviewSays | internal/service/provisioning_service.go:92-111 | the previewed commands say every value of the request in its place, with the profile of its internet VLAN resolved |
| Provisioning.KnownTemplatesWait | internal/service/provisioning_service.go:128-136 | the preview of every known template makes the flow wait for the new ONU |
| OnuIds.FindNextOnuId | internal/service/provisioning_service.go:258-274 | one more than the greatest number matched |
| OnuIds.TableFinds | internal/service/provisioning_service.go:258-259 | the pattern finds exactly the IDs of the rows on that board and PON, in order |
| OnuIds.PonPartStarts | internal/service/provisioning_service.go:258 | the part of the pattern that names a board and PON begins no other's |
| OnuIds.NextIdIsFree | internal/service/provisioning_service.go:227-274 | in a printed table with any header and rows of other ports the ID found is one more than the greatest used on that board and PON |

## Left out

- Parsing the list of unconfigured ONUs: two patterns over single lines, without state.
- ONU details, system information, search filtering and statistics, configuration defaults, response redaction, HTTP routing, JSON, JWT and request decoding: straight-line code over libraries.
- singleflight, go-redis, gosnmp, telnet, bcrypt and the regular-expression engine are contracts: one fetch in flight per key whose result all waiters share; SCAN visits every key present throughout; a walk returns rows or fails; reading stops after the first delimiter; a hash is matched by the password it was made from and no other; the one pattern of the ID scan is matched by hand.
- Glob patterns with bracket classes or escapes: only the characters `*` and `?` are interpreted, and the exact invalidation results exclude IDs with any glob character.
- Floating point: received power is an exact rational number.
- Unicode case folding and trimming: ASCII only. A text is a sequence of characters, not of UTF-8 bytes.
- The cached forms of the PON list and the search index: `PonLists` and `Indexer` end where the list is handed to the cache.
- `LockScripts` has no wait groups: a poller's fan-out is the separate system `FanOut`, whose goroutines block only on the semaphore and, inside a poll, on a client mutex.
- Time in `LockSystem` and `FanOut`: the sleeps after a poll and the delays between retries are not steps.
- LoginLimiter.LockoutSpacing: for requests handled one after the other; concurrent requests can pass the lock check together before a failure is registered, because check and registration are separate critical sections.
- UserAdmin.AdministrationInvariant: for requests handled one after the other, since the users map has no lock.
- Telnet.TelnetSession.ReadUntil: does not model what a timed-out read had already received, which the library drops.
- Updates in place of map entries through shared references (`onuMap[id].Name = …`) are map updates here; no two names share an entry.
