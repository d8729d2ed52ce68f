# Lorentz query store: a verified model

Lorentz answers DNS queries, decides which of them to block and keeps a history of them in
shared memory. Every DNS event (a new query, a forward, a reply, a CNAME hop, a duplicate
reply, a block reported by an upstream server) changes a table of queries and a large set of
counters that must agree with it at all times. A garbage collector takes the oldest queries out
of all counters again, frees the records nobody refers to and moves a window of time slots.

This project models that store, the indexes and allocators under it, the blocking decision and
the codecs beside it, and proves what the program relies on.

## How it is built

| file | content |
|---|---|
| `Records.dfy` | query records, enumerations, and `Count`: one definition of "how many live queries fall under this counter" for every counter there is |
| `Lookup.dfy`, `LookupTable.dfy` | the sorted hash index, as a sequence and in place |
| `Interning.dfy` | clients, domains and DNS cache records: ID tables over that index, with a free list |
| `OverTime.dfy` | the window of ten-minute slots |
| `Blocking.dfy`, `Hashing.dfy` | the list chain as a function of the lists, remembered verdicts, the hash functions |
| `Store.dfy` | the state and, for every locked section, the state it leaves behind |
| `Conservation.dfy`, `Hooks.dfy`, `Collection.dfy` | the invariant, and that every hook and both collector rounds keep it |
| `Runs.dfy` | any interleaving of hooks and collector rounds: the main theorems |
| `Effects.dfy`, `Recycling.dfy` | what each hook makes of its query and of the servers' counts; what a collection frees and keeps |
| `Forwards.dfy`, `Remembering.dfy` | over whole runs: forwarded queries and the servers that count them; blocks reported upstream and how long they are remembered |
| `Epoch.dfy`, `Hops.dfy` | remembered verdicts against the list chain; the fold over a CNAME chain |
| `QueryStore.dfy` | the same sections as imperative code over mutable fields, each proved to leave the state of `Store.dfy` |
| `QueryWindow.dfy` | the physical query array, its compaction, the lookup by dnsmasq ID |
| `ProbeTable.dfy`, `StringPool.dfy` | the string pool and its per-process open-addressing index |
| `Remap.dfy`, `Alloc.dfy` | how forked processes agree on mapping sizes; page-aligned growth |
| `DnsName.dfy`, `Edns.dfy`, `Base32.dfy`, `Totp.dfy` | the codecs and one-time use of login codes |

The central invariant (`Conservation.Inv`) says, for all counters at once: the counter equals
`Count` over the queries not yet retracted. "Not yet retracted" is what makes it hold in the
middle of a collection, which takes queries out of the counters in one locked section and out
of the table in a later one, with hooks running in between. From it follow the theorems about
IDs, counters, upstream servers and slots, each over every sequence of events the surroundings
allow (`Runs.Enabled`): hooks name queries that are still live, time does not run backwards and
stays inside the window, collector rounds alternate.

Counters that agree with the queries say little if the queries are wrong, so the other half of the
project states what every hook does to its query: which status, reply and flags it ends with, which
server counts it, which records it names (`Effects.dfy`), why it was blocked
(`Blocking.DecideReason`), what its DNS cache record remembers and until when (`Remembering.dfy`),
and which records a collection frees (`Recycling.dfy`). These say it on queries, lists and times,
not on the hooks' own definitions.

`QueryStores.QueryStore.Handle` closes the circle: the statement-by-statement code, working in
place, does exactly what the step function of the theorems says. Most methods of the class are
steps on the way there; what a single hook does to the counters and to other queries is stated by
the lemmas about its specification (`Hooks.BlockedGood` and its siblings).

## What the proofs brought to light

Each of these is stated with the exact condition and, where it is a fault, a concrete input.

- A flush while a collection is between its two locked sections takes the retracted queries off
  the counters a second time. The counters stay right exactly if nothing was retracted or the
  oldest query is newer than the flush time (`Runs.FlushConservesIff`); one query, a collection
  and a flush leave the type counters at minus one (`Runs.FlushTwice`).
- `- GCdelay + maxHistory` is computed in 32 unsigned bits: with a history shorter than the
  delay it wraps and the collection removes nothing. A history of zero, meant to keep as few
  queries as possible, is such a case (`Collection.MinTimeIff`, `Collection.ShortHistoryKeepsAll`).
- An OPT record with 65535 bytes of options is not walked at all (`Edns.OversizedIsSkipped`).
- A client subnet option naming a loopback address after one naming a usable address replaces
  the address but leaves it marked as usable (`Edns.LoopbackMarkedUsable`); mark and address fit
  together exactly if that is not how the option list ends (`Edns.FlagFitsAddress`).
- The byte count of a decoded name is one too small when a compression pointer follows exactly
  254 bytes of labels (`DnsName.DecodeIsParse`, `DnsName.CountTooSmall`).
- A second block of the same record does not extend the time it is remembered for, and a block that
  would expire in the very second the 32-bit clock of the records wraps at is never forgotten
  (`Remembering.BlockRemembered`, `Remembering.WrapNeverExpires`).
- The terminator of an encoded name is written one byte past a buffer that the wire form fills.
  A name stays inside exactly if the buffer is two bytes longer (`DnsName.NameToDNS`,
  `DnsName.NameFitsIff`).
- A string that is shortened to fit the pool is indexed under the hash of the whole string by
  the process that stored it and under the hash of the stored text by every other process
  (`StringPool.ShortenedHasTwoHashes`, `StringPool.ShortenedExample`). The same string, coming
  again, is stored again unless it is by then shortened further
  (`StringPool.ShortenedIsFoundIff`).

## Model

| member | source | states |
|---|---|---|
| `Runs.RunsKeepInv` | src/gc.c:410-570 | after any sequence of hooks and collector rounds, in any order the surroundings allow, every counter equals its count over the live queries, all tables are valid and CNAME references cover their holders |
| `Runs.RunsNeverDangle` | src/gc.c:73-241 | every ID held by a live query or a live DNS cache record names a record that was not recycled, although domains are freed before the cache records that refer to them |
| `Runs.RunsConserveEnums` | src/datastructure.c:1261-1404 | status, reply and type counters equal the counts over live queries in every run, and each of the three arrays sums to the number of live queries |
| `Runs.RunsCountUpstreams` | src/dnsmasq_interface.c:2343-2362 | every upstream server counts exactly the live queries counted at it, across re-forwarding, another server answering, later blocking and expiry |
| `Forwards.RunsServeForwards` | src/dnsmasq_interface.c:2343-2362 | in every run every live query recorded as forwarded is counted at a server of the table, that server counts at least one query, and the servers together count at least as many queries as are recorded as forwarded |
| `Runs.RunsFillSlots` | src/overTime.c:102-211 | every slot's total, blocked, cached and forwarded numbers and every client's slot equal the counts of live queries of those ten minutes, and the slots together count each live query once |
| `Runs.RunsKeepTables` | src/lookup-table.c:78-137 | in every run the three tables are sorted, in bijection with their records, hold one ID per key, and list free IDs once and unused |
| `Runs.FlushConservesIff` | src/gc.c:410-531 | a flush leaves the counters equal to the counts over the queries neither it nor a pending collection has retracted, if and only if no collection is pending with queries retracted or the oldest query in the table is newer than the flush time |
| `Runs.FlushTwice` | src/gc.c:410-531 | the fault can be reached: any one query, a collection that retracts it, then a flush; the type counters then sum to minus one |
| `Runs.FailGood` | src/dnsmasq_interface.c:3158-3261 | an upstream error keeps the invariant and changes no other query |
| `Runs.BlockedByHeaderGood` | src/dnsmasq_interface.c:3263-3325 | a block reported in a header keeps the invariant and changes no other query |
| `Runs.RetryGood` | src/dnsmasq_interface.c:3829-3912 | a retried forward, to a known or a new server, keeps the invariant and changes no other query |
| `Runs.DropGood` | src/dnsmasq_interface.c:3063-3132 | a failed validation keeps the invariant and changes no other query |
| `Runs.FirstArrival` | src/dnsmasq_interface.c:905-1085 | the first query of any client and name can arrive at once and is then the one live query, counted |
| `Runs.StepKeeps` | src/gc.c:410-570 | every single locked section keeps the invariant |
| `Effects.EventIs` | src/dnsmasq_interface.c:238-320 | in any state with the invariant no hook finds a record missing, so every event does what its hook does with the records it looks up |
| `Effects.ArriveEffect` | src/dnsmasq_interface.c:905-1085 | an analysed query is appended with dnsmasq's number, time and type, nothing known about it, and with records that carry the client's address and the queried name, last queried now; one that is not analysed is not stored, but its client is known |
| `Effects.ForwardEffect` | src/dnsmasq_interface.c:2268-2422 | a complete query is left alone; any other one becomes forwarded and counted at the server with that address, new or known, whose count rises by one while that of the server it was counted at before falls by one; it is complete unless it had been answered from the cache |
| `Effects.UpdateUpstreamEffect` | src/dnsmasq_interface.c:2498-2547 | the first answer moves the query to the server that gave it, and the count with it if it was counted; later answers move nothing |
| `Effects.ReplyEffect` | src/dnsmasq_interface.c:2549-2932 | by kind of answer (cached, local, exact from a known server, reverse, error code): the reply, status and complete flag the query ends with; once it has a reply no further one changes reply, status or counters |
| `Effects.FailEffect` | src/dnsmasq_interface.c:3158-3261 | the query gets the reply of the error code and goes to the server that sent it; its status stays |
| `Effects.HeaderEffect` | src/dnsmasq_interface.c:3263-3325 | the query is blocked with the reported status unless it was blocked before, and its reply is NXDOMAIN |
| `Effects.DropEffect` | src/dnsmasq_interface.c:3063-3132 | a query without a reply is recorded as not replied to, any other one stays as it is |
| `Effects.RetryEffect` | src/dnsmasq_interface.c:3829-3912 | the query is marked as retried, or as awaiting keys if the validation is retried; the server is known afterwards and no count moves |
| `Effects.DuplicateEffect` | src/dnsmasq_interface.c:4139-4220 | the duplicate ends with reply and CNAME target of its source, complete, and with its status unless that is forwarded |
| `Effects.HopEffect` | src/dnsmasq_interface.c:2088-2266 | a target other than the queried name: the answer is what the lists say about it; if they block it, the query is blocked for the CNAME with the status of the list that has the target, the CNAME reply and the target as reason, in the query and its DNS cache record; if not, at most the allowed flag changes; the target counts as queried now |
| `Effects.TargetEffect` | src/dnsmasq_interface.c:2196-2255 | the references on all domains after a block for a target: one more by the query, one moved by its DNS cache record |
| `Conservation.SetStatusKeeps` | src/datastructure.c:1261-1404 | changing a status moves the query between the status counters and between the slot counters and leaves every other counter alone |
| `Conservation.EnqueueKeeps` | src/dnsmasq_interface.c:1003-1085 | recording a query adds one to exactly the counters it falls under |
| `Conservation.CacheHoldKeeps` | src/dnsmasq_interface.c:2211-2233 | a DNS cache record holds at most one CNAME reference and moves it with the reference count |
| `Conservation.CacheCnameLive` | src/gc.c:190-226 | the domain a DNS cache record refers to by CNAME has not been recycled |
| `Conservation.ReloadKeeps` | src/datastructure.c:704-724 | a list reload keeps the invariant, whatever queries the table holds |
| `Hooks.NewQueryKeeps` | src/dnsmasq_interface.c:905-1085 | a new query, recorded or dropped by rate limit or type, keeps the invariant |
| `Hooks.CnameKeeps` | src/dnsmasq_interface.c:2088-2266 | a CNAME hop, blocked or not, keeps the invariant |
| `Hooks.ReplyToGood` | src/dnsmasq_interface.c:2549-2932 | a reply, in every branch, keeps the invariant; no record or query comes or goes and every other query is unchanged |
| `Hooks.ForwardGood` | src/dnsmasq_interface.c:2268-2422 | a forward, first, repeated or of a query answered from the cache before, keeps the invariant; no record or query comes or goes and every other query is unchanged |
| `Hooks.DuplicateGood` | src/dnsmasq_interface.c:4139-4220 | copying the outcome of a query to its duplicate keeps the invariant |
| `Hooks.ReplyGood` | src/dnsmasq_interface.c:3481-3582 | setting a reply keeps every counter equal to its count and changes no other query |
| `Hooks.UpdateUpstreamGood` | src/dnsmasq_interface.c:2498-2547 | when another server answers first, the counts of all servers still equal the queries counted at them, and no other query changes |
| `Hooks.BlockedGood` | src/dnsmasq_interface.c:3024-3061 | a block, of a forwarded query or any other, keeps the invariant and changes no other query |
| `Hooks.BlockedOnce` | src/dnsmasq_interface.c:3024-3061 | a query is blocked once: the first block sets the status and takes a forwarded query off its server, any further one changes nothing |
| `Hooks.ApplyVerdictGood` | src/dnsmasq_interface.c:1736-1945 | acting on a remembered verdict, in every branch, keeps the invariant and changes no other query |
| `Hooks.ApplyDecisionGood` | src/dnsmasq_interface.c:1947-2051 | acting on an answer of the lists, in every branch, keeps the invariant and changes no other query |
| `Hooks.CheckBlockingGood` | src/dnsmasq_interface.c:1721-2052 | the blocking check as a whole keeps the invariant and changes no other query |
| `Collection.RetractKeeps` | src/gc.c:452-531 | one turn of the retraction loop takes the oldest live query out of every counter exactly once, including the status, which is lowered before it is reset |
| `Collection.RetractFromKeeps` | src/gc.c:452-531 | the loop stops at the first query that is too new and the counters then count the queries from there on |
| `Collection.GcBeginKeeps` | src/gc.c:425-538 | the first locked round keeps the invariant, with the retracted queries still in the table |
| `Collection.GcEndKeeps` | src/gc.c:540-570 | the second locked round (offset, recycling, slot shift) keeps the invariant |
| `Collection.RecycleKeeps` | src/gc.c:73-241 | recycling clients, then domains, then DNS cache records keeps every counter and leaves no reference to a freed record |
| `Recycling.RecycleEffect` | src/gc.c:73-241 | exactly those clients and DNS cache records are left that some query refers to, and those domains that a query refers to, that hold a CNAME reference or that were last queried less than 24 hours ago; their content stays, save for references given back |
| `Recycling.RecycledPushes` | src/shmem.c:1879-1915 | the freed IDs are listed behind the ones on the free list, each once, as far as the list has room |
| `Recycling.FinishEffect` | src/gc.c:540-570 | the second round takes exactly the retracted queries out of the table, leaves the others as they are, and frees exactly the records no remaining query needs |
| `Recycling.FinishWindow` | src/gc.c:558-570 | the second round moves the slot window to the oldest time kept if that lies inside the window, and not otherwise |
| `Recycling.CollectEffect` | src/gc.c:410-570 | after both rounds exactly the queries newer than the cut-off are left, unchanged and in order |
| `Collection.CachesKeep` | src/gc.c:190-241 | a recycled DNS cache record gives back the CNAME reference it holds, and only that |
| `Collection.DroppedSlotsAreZero` | src/overTime.c:157-211 | the slots a shift drops are already zero, globally and for every client |
| `Collection.MoveKeeps` | src/overTime.c:157-211 | moving the slot window keeps the counters right |
| `Collection.WindowReachesNextRun` | src/gc.c:410-447 | with the default history of one day a moved window covers every second until the next collection |
| `Collection.MinTimeIff` | src/gc.c:430-439 | the cut-off is `now - (maxHistory - delay)`, aligned, if and only if the history is at least the delay |
| `Collection.ZeroHistory` | src/gc.c:430-439 | the cut-off a history of zero leads to |
| `Collection.MinTimePast` | src/gc.c:430-439 | the cut-off is never in the future, so queries arriving between the two rounds are kept |
| `Collection.ShortHistoryKeepsAll` | src/gc.c:430-439 | with a shorter history, zero included, the unsigned difference wraps and nothing is removed |
| `Epoch.EpochsAgree` | src/dnsmasq_interface.c:1736-1945 | after any run, a list reload and any further events up to the next reload: every remembered verdict agrees with what the lists decide, and every query the check has released since is one the lists do not block |
| `Epoch.EpochChecksAreFaithful` | src/dnsmasq_interface.c:1721-2052 | at any such point a check answered from a remembered verdict gives the same answer, status and allowed flag as one that asks the lists |
| `Epoch.ReloadStartsEpoch` | src/datastructure.c:704-724 | a reload of any store with the invariant, its history of answered queries included, starts such a period |
| `Remembering.BlockRemembered` | src/datastructure.c:1298-1330 | a block reported upstream, of a query not blocked before, is remembered by the query's record with its status, for ttl seconds after the query unless the record expired earlier already; no other record changes |
| `Remembering.RunsRememberBlocks` | src/dnsmasq_interface.c:1736-1945 | in any run, after such a block and any events that set no status the record would remember: an arrived query of the same client, name and type is answered with that status from memory, blocked unless it is a known address, up to and including the second of expiry; later the lists decide |
| `Remembering.ExpiresAfterTtl` | src/datastructure.c:1315-1326 | while the 32-bit clock of the records does not wrap, that second is the one ttl seconds after the first block |
| `Remembering.WrapNeverExpires` | src/datastructure.c:1315-1326 | an expiry that falls on the wrap of that clock is no expiry |
| `Remembering.RememberedCheck` | src/dnsmasq_interface.c:1736-1945 | a check whose record remembers something repeats a block with its status and, for a CNAME block, its target, and lets anything else go on, allowed if the record says so; the record stays |
| `Remembering.FreshCheck` | src/dnsmasq_interface.c:1947-2051 | a check whose record remembers nothing answers what the lists say, available or not; the record remembers the list that blocked or whether the name is allowed, and nothing while the database cannot be asked |
| `Remembering.FilterEffect` | src/dnsmasq_interface.c:1193-1211 | dnsmasq goes on with exactly the queries the check does not block; with blocking off that is every query, and nothing is recorded |
| `Remembering.ReloadForgets` | src/datastructure.c:704-724 | a reload forgets every remembered status and expiry and nothing else about a record |
| `Remembering.ReloadAsksLists` | src/datastructure.c:704-724 | after a reload the lists decide every check |
| `Hops.ChainsBlockedIff` | src/dnsmasq_interface.c:2088-2266 | over any chain of hops the hook blocks if and only if some hop is denied and no hop up to it is allowed |
| `Hops.HookFolds` | src/dnsmasq_interface.c:2174-2255 | hook after hook, the store blocks when the fold of the decision over the hop names blocks, and otherwise is left with the fold's allowed flag and the same client, name and type |
| `Hops.ChainsKeepAllowed` | src/dnsmasq_interface.c:2174-2255 | a query the lists have allowed is not blocked by any chain of hops, and stays allowed in the store |
| `Blocking.DecideMeaning` | src/dnsmasq_interface.c:1492-1632 | the list chain blocks and allows exactly when the declarative conditions on the lists say so, and never both |
| `Blocking.DecideReason` | src/dnsmasq_interface.c:1492-1632 | for any lists, available or not: which list is the reason of a block (special domain, exact deny entry, gravity, busy database, deny regex, in this order, antigravity before gravity), when a name is allowed, and when the database counts as fine |
| `Blocking.BlockedStatus` | src/dnsmasq_interface.c:1492-1632 | with the lists available the status of a blocked name is SpecialDomain, Denylist, Gravity or Regex exactly if that is the first list to have it, the parent's lists for an _esni. name that has none |
| `Blocking.EsniNames` | src/dnsmasq_interface.c:1991-2005 | what is an _esni. name and what is its parent |
| `Blocking.ChainMeaning` | src/dnsmasq_interface.c:1947-2051 | folding the decision over hops blocks exactly when a denied hop is not preceded by an allowed one |
| `Blocking.FoldAllowed` | src/dnsmasq_interface.c:1947-2051 | an allowed flag is never lost along a chain |
| `QueryStores.QueryStore.Handle` | src/dnsmasq_interface.c:238-320 | every locked section, executed statement by statement on the fields, leaves the state of the step function and restores the invariant; it stands for the hooks, whose single effects the `Good` lemmas state |
| `QueryStores.QueryStore.constructor` | src/overTime.c:62-99 | an empty store satisfies the invariant |
| `QueryStores.QueryStore.SetStatus` | src/datastructure.c:1261-1404 | new state of a status change, the remembered verdict and its expiry included |
| `QueryStores.QueryStore.FindUpstreamID` | src/datastructure.c:194-246 | the scan returns the first server with this address and port, or appends it |
| `QueryStores.QueryStore.FindDomainID` | src/datastructure.c:272-331 | the ID of a known name, or a new record under a free ID, counted or not |
| `QueryStores.QueryStore.FindClientID` | src/datastructure.c:357-460 | the ID of a known client, or a new record, counted |
| `QueryStores.QueryStore.FindCacheID` | src/datastructure.c:536-594 | the ID of a known (domain, client, type), or a new record |
| `QueryStores.QueryStore.NewQuery` | src/dnsmasq_interface.c:905-1085 | counting client and domain first and the rest later gives the same state as counting everything at the end |
| `QueryStores.QueryStore.ResetVerdicts` | src/datastructure.c:704-724 | the loop over the DNS cache records forgets every verdict and leaves keys, counts and references alone |
| `QueryStores.QueryStore.CollectBegin` | src/gc.c:425-538 | the retraction loop leaves the state of the first collector round |
| `QueryStores.QueryStore.RecycleCaches` | src/gc.c:188-241 | one decrement per recycled record adds up to the references they held |
| `QueryStores.QueryStore.Recycle` | src/gc.c:73-241 | the three compaction loops leave the recycled state |
| `QueryStores.QueryStore.CollectEnd` | src/gc.c:540-570 | state of the second collector round |
| `QueryStores.QueryStore.InitSlot` | src/overTime.c:29-60 | a slot and every client's count in it start at zero |
| `QueryStores.QueryStore.MoveOverTimeMemory` | src/overTime.c:157-211 | moving memory and initialising slot by slot leaves the shifted window |
| `OverTime.GetIdOfCovered` | src/overTime.c:102-154 | a time inside the window gets the slot of its ten minutes |
| `OverTime.MovedAligned` | src/overTime.c:157-211 | a moved window is aligned and contiguous and moved by whole slots |
| `OverTime.ShiftBound` | src/overTime.c:157-181 | if the window moves, its oldest slot becomes that of the oldest time kept |
| `OverTime.ShiftIff` | src/overTime.c:157-186 | the window moves if and only if the oldest time to keep lies inside it, behind its first slot |
| `OverTime.GetIdOutside` | src/overTime.c:113-148 | a time before or behind the window gets the slot at that end |
| `Records.StatusKinds` | src/datastructure.c:1020-1230 | every status is exactly one of blocked, cached, forwarded and not settled |
| `Lookup.BinSearch` | src/lookup-table.c:78-137 | the pointer-and-size loop computes the recursive search |
| `Lookup.SearchMiss` | src/lookup-table.c:78-137 | a miss means the hash is absent, and the position splits smaller from larger hashes |
| `Lookup.InsertedSorted` | src/lookup-table.c:197-230 | inserting where the search ended keeps the index sorted, with equal hashes too |
| `LookupTables.LookupTable.Insert` | src/lookup-table.c:197-230 | moving the tail up in place inserts the entry and keeps the table valid |
| `LookupTables.LookupTable.Remove` | src/lookup-table.c:246-307 | moving the tail down in place drops exactly the named entry, and nothing if it is not there |
| `LookupTables.Locate` | src/lookup-table.c:246-307 | walking the run of equal hashes finds the entry if and only if it is there |
| `Interning.LookupFindId` | src/lookup-table.c:324-369 | binary search, stepping back and comparing gives the ID of the key, collisions included |
| `Interning.RecycleTable` | src/gc.c:82-137 | compaction behind a write cursor keeps exactly the entries of surviving records, in order, and pushes the freed IDs |
| `Interning.RunsIntern` | src/datastructure.c:248-331 | over any run of interning and recycling, for any hash function: equal keys have one ID, different keys different ones, a new ID is never in use, the free list holds no ID twice |
| `Interning.CreatedValid` | src/shmem.c:1879-1952 | taking a recycled ID or the running counter, which grows on reuse too, keeps the table valid |
| `Interning.CreatedReuses` | src/shmem.c:1879-1952 | a new record takes the ID recycled last and takes it off the free list, or without one the running counter |
| `Interning.RecycledValid` | src/gc.c:140-186 | recycling any set of records keeps the table valid, free list overflow included |
| `Interning.InternKeepsOthers` | src/datastructure.c:259-331 | interning a key changes no other key's ID |
| `Hashing.ComputeHash` | src/datastructure.c:76-88 | the hash loop is the FNV-1a recursion |
| `Hashing.KnownHashes` | src/datastructure.c:76-88 | two published values of the hash |
| `Hashing.CombinedApart` | src/datastructure.c:101-128 | within 65536 domains, 2048 clients and 32 types the combined hash can be taken apart again, so it is unique |
| `QueryWindow.Window.EnsureSize` | src/shmem.c:1408-1433 | compaction and growth leave the logical table unchanged and room for the next query |
| `QueryWindow.Shift` | src/shmem.c:1415-1420 | moving the window to the front and clearing what it left gives the window followed by zeros |
| `QueryWindow.Window.GetQuery` | src/shmem.c:1628-1654 | inside the logical table the query, past it nothing, because slots past the window are zero |
| `QueryWindow.Window.Append` | src/dnsmasq_interface.c:1008-1073 | the query becomes the last of the logical table |
| `QueryWindow.Window.RemovePrefix` | src/gc.c:540-557 | advancing the offset drops exactly the oldest queries |
| `QueryWindow.Window.FindQueryID` | src/datastructure.c:156-192 | whatever the ID map holds, a hit has the ID, a miss means the last 1000 queries do not have it, and with unique IDs the map changes no answer of the scan, the empty store included |
| `QueryWindow.Window.GetSnapshotQuery` | src/database/query-table.c:2078-2088 | the rebased query of a snapshot |
| `QueryWindow.RunsRebase` | src/gc.c:401-408 | an index taken earlier, rebased by the number of queries removed since, names the same query after any run, or nothing if that query is gone |
| `QueryWindow.WrappedShift` | src/gc.c:404-408 | the 32-bit counter gives the right shift if and only if fewer than 2^32 queries were removed |
| `ProbeTable.PutKeeps` | src/shmem.c:276-282 | storing an entry adds it, keeps every other entry and keeps each findable by probing |
| `ProbeTable.GrowKeeps` | src/shmem.c:249-274 | growing keeps the content and leaves the load below three quarters |
| `ProbeTable.InsertKeeps` | src/shmem.c:239-282 | inserting adds the entry unless its hash is 0, and keeps an empty slot |
| `ProbeTable.FindExact` | src/shmem.c:288-309 | a search answers with an indexed match, and answers whenever there is one |
| `ProbeTable.InsertLoop` | src/shmem.c:239-282 | the probing and rehashing loops end and compute the insertion |
| `ProbeTable.FindLoop` | src/shmem.c:288-309 | the probing loop ends and computes the search |
| `StringPool.SyncKeeps` | src/shmem.c:313-340 | after a sync the process knows exactly the whole pool |
| `StringPool.AddKeeps` | src/shmem.c:412-502 | one call keeps the pool well laid out and free of duplicates, and a string that fits reads back from the returned position |
| `StringPool.StoredLength` | src/shmem.c:412-490 | how much of a string is stored: all of it exactly if it takes at most a page and leaves a byte of the pool, otherwise the longest beginning that does; nothing of an empty string or without room |
| `StringPool.RunsShareStrings` | src/shmem.c:239-502 | under any interleaving of calls, forks and growth every process indexes exactly the prefix it has walked, no string that fits and has a hash other than 0 is stored twice, and every position handed out reads back its string for ever |
| `StringPool.ShortenedHasTwoHashes` | src/shmem.c:446-500 | in any state, a string that is stored shortened is indexed under the hash of the whole string by the process that stored it and under the hash of the stored text by every other process that syncs |
| `StringPool.ShortenedIsFoundIff` | src/shmem.c:288-309 | the stored text matches the same string again if and only if that is by then shortened further |
| `StringPool.ShortenedExample` | src/shmem.c:446-500 | an instance in a pool of four bytes |
| `StringPool.SyncLoop` | src/shmem.c:313-340 | the walk computes the sync |
| `StringPool.StringProcess.AddString` | src/shmem.c:412-502 | the call in place leaves the pool and index of the specification |
| `Remap.NeverStale` | src/shmem.c:674-760 | for any number of processes locking, resizing, forking and dying, a process past the lock maps every region at its published size, and a process whose counter agrees is never stale |
| `Remap.ResizeKeeps` | src/shmem.c:1136-1307 | each of the four steps of a resize keeps the agreement |
| `Remap.RemapKeeps` | src/shmem.c:674-711 | remapping region by region keeps the agreement |
| `Remap.ResizeEffect` | src/shmem.c:1136-1307 | after the four steps the region has the new size in the file, as published and as mapped by the process, and everybody else who was up to date is so no longer |
| `Remap.LockEffect` | src/shmem.c:674-760 | a stale process maps every region at its published size before it goes on, and one that is up to date goes on at once |
| `Alloc.Gcd` | src/shmem.c:1353-1363 | the loop is Euclid's algorithm |
| `Alloc.WholePages` | src/shmem.c:1368-1405 | exactly the multiples of pagesize / gcd make whole pages |
| `Alloc.OptimalObjectSize` | src/shmem.c:1368-1405 | the result is the least positive number of objects that is at least the minimum and fills whole pages |
| `DnsName.RoundTrip` | src/resolve.c:779-930 | any dotted name of at most 253 characters, encoded anywhere in a message, decodes to itself with the exact byte count |
| `DnsName.DecodeIsParse` | src/resolve.c:779-900 | with compression, decoding gives the labels section 4.1.4 of RFC 1035 reads, joined by dots; the count is exact if and only if no pointer follows 254 bytes of labels |
| `DnsName.ParseCompressed` | src/resolve.c:803-857 | labels followed by a pointer read as those labels plus the labels at the target |
| `DnsName.CountTooSmall` | src/resolve.c:861-873 | a name for which the count misses a byte |
| `DnsName.NameFromDNS` | src/resolve.c:779-900 | on every buffer decoding ends, reads in range, and gives the specified result |
| `DnsName.CopyLoop` | src/resolve.c:793-873 | the copying loop ends on every buffer, cyclic pointers included |
| `DnsName.DotInPlace` | src/resolve.c:875-900 | turning lengths into dots in place gives the text, for malformed and cut-off names too |
| `DnsName.NameToDNS` | src/resolve.c:906-930 | for a buffer and a host of any length, the two cursors write the wire form as far as the buffer reaches and a terminator behind it; the terminator is inside the buffer if and only if the wire form is shorter than the buffer |
| `DnsName.NameFitsIff` | src/resolve.c:906-930 | a dotted name stays inside the buffer if and only if the buffer is at least two bytes longer than the name |
| `DnsName.WireExample` | src/resolve.c:902-930 | a dotted name and its bytes |
| `DnsName.PointerExample` | src/resolve.c:803-830 | what a compression pointer is on the wire, and that it takes two bytes |
| `Edns.Walk` | src/edns0.c:180-440 | the walk is the fold over the complete options for every RDATA below 65535 bytes |
| `Edns.OptionAt` | src/edns0.c:202-440 | every branch consumes exactly the length of its option |
| `Edns.SubnetAt` | src/edns0.c:202-276 | every branch of the client subnet option consumes exactly its length |
| `Edns.ParsedIsFold` | src/edns0.c:60-440 | for every option list with any truncated tail the record is the fold over the list |
| `Edns.OptionsOfEncode` | src/edns0.c:184-196 | the walk reads back any encoded option list and drops a truncated tail |
| `Edns.LastEdeWins` | src/edns0.c:395-430 | the last extended error code is kept, and none means unset |
| `Edns.MacOfFold` | src/edns0.c:324-360 | over any option list the last MAC address is kept, in bytes or as text |
| `Edns.ClientOfFold` | src/edns0.c:202-276 | the client is known if and only if some option names a host that is not loopback; the address is that of the last option naming a host |
| `Edns.FlagFitsAddress` | src/edns0.c:202-276 | if the last option naming a host is usable, the client is marked known; the mark fits the address kept if and only if that last host is not a loopback address behind a usable one |
| `Edns.LoopbackMarkedUsable` | src/edns0.c:202-276 | 192.0.2.1/32 followed by 127.0.0.1/32 leaves the loopback address marked as usable |
| `Edns.OversizedIsSkipped` | src/edns0.c:180-184 | an RDATA of 65535 bytes is skipped and the error code in it lost |
| `Edns.Record.Parse` | src/edns0.c:60-440 | anything but an OPT record of version 0 leaves the record alone |
| `Edns.Refused` | src/edns0.c:96-171 | exactly the OPT records of the root domain and version 0 are looked at, by their bytes |
| `Edns.SubnetExample` | src/edns0.c:202-276 | the bytes of a client subnet option for one IPv4 host, and of one that names a network and is ignored |
| `Edns.SubnetExample6` | src/edns0.c:202-276 | the bytes of one for an IPv6 host, for ::1, and for a network |
| `Edns.OptionExamples` | src/edns0.c:278-430 | the bytes of an extended error, of MAC addresses in both forms, and of an option that changes nothing |
| `Edns.Record.Get` | src/edns0.c:46-58 | a parsed record is handed out once |
| `Base32.DecodeEncode` | src/api/2fa.c:95-207 | decoding an encoded byte string of any positive length divisible by five gives it back |
| `Base32.EncodeDecode` | src/api/2fa.c:95-207 | encoding a decoded full-length string gives its upper-case form |
| `Base32.EncodeExample` | src/api/2fa.c:155-207 | the first bit of the first byte is that of the first letter |
| `Base32.Alphabet` | src/api/2fa.c:158-158 | which letters stand for which values |
| `Base32.RepackUnique` | src/api/2fa.c:129-147 | words that hold the bits of a string are its only repacking |
| `Base32.Encode` | src/api/2fa.c:155-207 | setting bits one by one in a zeroed buffer encodes |
| `Base32.Decode` | src/api/2fa.c:95-153 | setting bits one by one in a zeroed buffer decodes, and a wrong length or letter fails |
| `Base32.Spread` | src/api/2fa.c:129-147 | the bits of one word land at their positions and nowhere else, or the buffer is too small |
| `Totp.Verifier.Verify` | src/api/2fa.c:249-328 | correct exactly if the code belongs to a step of the window newer than every accepted one, reused exactly if it belongs only to older ones |
| `Totp.TryWindow` | src/api/2fa.c:282-328 | the loop accepts the first fresh matching step and reports a reuse only after trying all three |
| `Totp.RunsAcceptOnce` | src/api/2fa.c:242-328 | in every sequence of attempts accepted steps strictly increase, so none is accepted twice |
| `Totp.FreshIsAccepted` | src/api/2fa.c:277-328 | a code matching a fresh step is never called reused, even if it also matches an older one |
| `Totp.WindowSteps` | src/api/2fa.c:283-289 | the steps tried are the current one and its neighbours |
| `Totp.KnownSteps` | src/api/2fa.c:83-93 | the steps of two times of appendix B of RFC 6238 |
| `Totp.KeyLength` | src/api/2fa.c:262-275 | a usable secret has at most 32 letters and its key 20 bytes |

## Assumptions

- A run starts from an empty store (`Store.Initial`) at a time at least one day after the epoch.
- Hooks name queries the collector has not retracted. Between the two rounds of a collection the
  program could still find a retracted query by its ID; that it does not is an assumption about
  dnsmasq, which by then has long finished with queries as old as the configured history. A hook
  that finds no query changes nothing and is not an event, with one exception: the retry of a
  forward looks up, and may add, its server first. That is the event `Runs.RetryUnknown`.
- The clock that stamps queries does not run backwards and stays inside the slot window; the
  collector uses the default interval of ten minutes.
- A period in `Epoch.dfy` follows any run and a reload. Within it blocking is on, the lists do not
  change and are readable, no CNAME hop and no duplicate reply occurs, and dnsmasq forwards,
  answers or reports blocked only queries the check released in this period: the `released` field
  of a query, which is no field of the program's record, stands for that and is cleared by a
  reload. Queries released before the reload may stay in the table.
- The string pool's hash function is arbitrary; interning is proved for an arbitrary one and used
  with the program's own.
- For `Forwards.RunsServeForwards`, a block an upstream server reports carries one of the statuses
  that mean "blocked" (`Forwards.Genuine`).
- Library functions (the keyed hash of login codes, address printing, MAC parsing) and the
  blocking lists are arbitrary functions.
- Time stamps are real numbers, and integers are unbounded except where a width matters and is
  written out (the collector's cut-off, the count of removed queries, time steps, DNS bytes).

## Left out

- Blocked counts of single domains and clients: the CNAME hook and the duplicate reply count them differently from the collector, so no conservation law holds for them.
- Exact equality of CNAME reference counts: a query blocked twice over-counts, so "at least" is what is proved.
- Alias clients, the import of queries from the database and hostname resolution.
- Slots under the 60-second collection interval that a history of zero brings, and clock jumps out of the window.
- QueryStores.QueryStore.Flush: the time a flush recycles at is taken to be the time it was started with.
- Runs.FlushConservesIff: is about the counters after the retraction loop of a flush; the second round moves the same query buffer and is not followed further once the counters are wrong.
- Remembering.RunsRememberBlocks: a status another query of the same record gets in the meantime, while it is in flight, replaces the remembered block, as in the program; the lemma is about runs without one.
- Counters of failed forwards per upstream server, which no other counter is checked against.
- Remap.NeverStale: the version counter is unbounded, so 2^32 resizes between two locks of one process are not modelled.
- ProbeTable.GrowKeeps: failing allocations and a load count beyond 2^30 entries are not modelled.
- QueryWindow.Window.EnsureSize: growth of the other regions follows the same pattern and is not repeated.
- Epoch.EpochsAgree: verdicts remembered from CNAME hops are outside, because they depend on answers of upstream servers.
- Deduplication of integer arrays, regex matching, gravity database access, sockets, logging, the HTTP interface and signal handling.
