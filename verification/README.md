# A Dafny model of the NAS NDI caches

The NDI library keeps in-memory indexes beside the objects that the switch
abstraction interface (SAI) holds. Each call steps SAI and then an index, or
the other way round, and any SAI call may be refused. This project models the
indexes and the calls around them and proves what they keep: that the indexes of
one component agree with each other, and with SAI, over every run, for every
pattern of refusals; and, where the code does not keep that, the exact condition
under which it does.

SAI is an abstract object store (`Types.Store`): a creation yields a fresh
non-null id, which may be one given out before, or is refused, a removal of an
unknown id fails, and any call may be refused. `failures` counts the calls refused although nothing was wrong with
them; "when SAI refuses nothing" means that the counter stays the same.

| file | what it models |
|---|---|
| `Runs.dfy` | what holds over the steps of a run until one breaks it |
| `EntryRelation.dfy` | which replication group carries which multicast entry, as one relation |
| `IpmcCache.dfy` | the replication-group cache: group objects, entry sets, and the map of pointers |
| `ReplGroupState.dfy`, `ReplGroups.dfy` | group records beside the SAI objects; create, delete and update of groups |
| `IpmcEntries.dfy` | multicast entries in SAI and in the cache; runs of all calls |
| `NdiMap.dfy` | the keyed multimap with filters |
| `NhMatch.dfy`, `NextHopGroup.dfy` | the greedy member match; next-hop groups with rollback |
| `StpPorts.dfy` | the STP port index, forward and reverse |
| `BrportCache.dfy` | the five bridge-port indexes; the virtual object cache |
| `Bridge.dfy`, `Lag.dfy` | bridge ports, 1D and 1Q members, LAG members |
| `PortMap.dfy` | the port table and its inverse map |
| `RifUpdate.dfy`, `Rif.dfy` | the RIF attribute loop; reference-counted RIFs |
| `Mirror.dfy` | mirror session lists with undo |
| `QueueStats.dfy` | gather and scatter of queue counters |

Classes carry the fields that the source updates in place; ghost fields hold the
value that the fields encode, and pure functions on those values say what a call
does. `dafny verify dfyconfig.toml` checks the whole project.

## What does not hold

Each of these is proved with its exact condition.

- An entry added under a second group stays in two sets: the group's set is
  written before the global map refuses (`AddKeeps`, `SecondGroupBreaks`). The
  entry calls are safe from it because SAI refuses the entry first
  (`EntryCreate`).
- An entry that moves from a group with an IPMC group to one without keeps its old
  output group in SAI, also after the old group is deleted; and an update that SAI
  breaks off leaves the attributes sent before (`UpdateAgrees`, `PartUpdateAgrees`,
  `OutputGroupOutlives`).
- A member that only the cache refuses, such as a second RPF member, stays in SAI
  unrecorded (`UpdateReplGroup`, `SecondRpfMemberStrands`).
- A replication group that SAI refuses a sub-group leaks, with the sub-group made
  before; so does a bridge port whose settings SAI refuses, and a 1D bridge's RIF
  whose rollback it refuses (`CreateReplGroup`, `CreateBridgePort`, `RifCreate`).
- Moving an entry leaves the global map's copy of its CPU flag stale (`MoveKeeps`,
  `MoveLeavesStaleFlag`).
- A replication group or next-hop group deletion that SAI breaks off leaves
  records of objects that are gone (`DeletionBrokenOff`, `LossBreaks`).
- A replication group whose RPF member SAI refuses stays cached without one and
  cannot be deleted until it gets one (`EnterGroup`, `DeleteReplGroup`).
- An IPMC group all of whose members were refused is not removed with its group
  (`RemovalUndoesGrowth`).
- A next-hop group created without hops, or grown beyond the buffer, cannot be
  deleted (`GroupDelete`).
- A request for next hop -1 is answered from a pair already used, so one member
  is handed out twice, unless a pair recorded with -1 comes first (`MatchIsRight`,
  `MarkerIsAnswered`).
- Deleting the router bridge port of a 1D bridge's RIF does not say which RIF it
  was, so the index goes on finding a bridge port that has left SAI
  (src/nas_ndi_bridge.cpp:1354-1362). If SAI then refuses the RIF itself, repeating
  the deletion never succeeds; if SAI gives the id out again, the new RIF cannot be
  deleted, or the deletion takes away another bridge port that has the same id by
  now (`DeleteRouterPort`, `RifDelete`, `DanglingSticks`, `RouterRifSticks`,
  `InheritedPort`).
- A SAI port that is added under a second slot is found under that one only, and
  both slots answer with it (`WrittenKeeps`, `Run` of the port table).
- A default STP port created for a pair that has one cannot be indexed
  (`SecondPortBreaks`); the refused removal that leads there reports success
  (`PassedOverPort`).
- A bridge port removed under another type or VLAN than it was added with leaves
  an index stale (`RemoveKeeps`, `DeleteBridgePort`).
- A port that enters the 1Q bridge twice, or a 1D member added twice, overwrites
  the index (`CreateBridgePort`).
- The RIF update loop does not end when supported and unsupported attributes are
  mixed and SAI sets what it is asked to (`LoopEndsIff`).
- Without a port in slot 0, three or more ports are one more than announced; with
  one, a single other port is announced and not listed (`AllSaiPorts`).
- A deleted port goes on being counted and listed (`DeletedIsStillListed`).
- Undoing the enabling of a mirror session that was there already takes it away,
  and a port without a SAI id makes the call report success after the list has
  changed (`UpdateDirection`).

## Assumptions

- The containers refuse a key they have and do not know one they have not; the
  filter bits and the RIF attribute flags are distinct single bits.
- SAI refuses the null id as the mandatory parent of a group member and, for an
  (*,G) entry, ignores the source address; it makes next-hop group members only of
  groups that exist, and removes an object only through the API of its kind. The
  port table row of an NPU has at least one slot.
- The source of an (S,G) entry is an address of the same family as its group.
- A caller of the next-hop calls passes no more hops than its array holds.

## Model

| member | source | states |
|---|---|---|
| `EntryRelation.Relation.OneGroup` | src/nas_ndi_ipmc.cpp:332-432 | with the two sides consistent, an entry is in at most one group, it is bound exactly when some group carries it, and the group it is bound to exists |
| `EntryRelation.KeysAreRoutes` | inc/opx/nas_ndi_ipmc_utl.h:274-287 | the cache takes two entries for the same one exactly when NPU, virtual router, type, input RIF, family and group address agree, and for (S,G) entries the source; the family is IPv4 exactly for address family 2 |
| `EntryRelation.Relation.AddKeeps` | src/nas_ndi_ipmc.cpp:332-352 | adding keeps the invariant exactly when the entry is not bound to another group already; success leaves the entry in that group alone and every other entry untouched; a refused call that keeps the invariant has changed nothing |
| `EntryRelation.Relation.DeleteKeeps` | src/nas_ndi_ipmc.cpp:354-373 | deleting succeeds exactly for a bound entry, keeps the invariant, and takes out that entry and no other |
| `EntryRelation.Relation.MoveKeeps` | src/nas_ndi_ipmc.cpp:378-408 | moving always keeps the invariant, leaves the entry in the new group alone and no other entry changed; the two copies of the CPU flag go on agreeing exactly when the caller repeats the stored flag |
| `EntryRelation.Relation.MovedRoute` | src/nas_ndi_ipmc.cpp:378-408 | a move binds the entry's route to the group named, with the flag it had, and leaves every other route bound as it was |
| `EntryRelation.Relation.SetCopyToCpuKeeps` | src/nas_ndi_ipmc.cpp:409-427 | setting the flag reaches both copies of a bound entry and nothing else |
| `EntryRelation.Relation.WithoutGroupKeeps` | src/nas_ndi_ipmc.cpp:227-238 | dropping a group keeps the invariant exactly when no entry uses it |
| `EntryRelation.StepKeeps` | src/nas_ndi_ipmc.cpp:115-434 | one call of the cache keeps the invariant exactly when the caller's obligation for it holds: the obligations are neither too weak nor too strong |
| `EntryRelation.EveryRunIsConsistent` | src/nas_ndi_ipmc.cpp:332-432 | over every run of allowed calls no entry refers to a group outside the table and none sits in two groups |
| `EntryRelation.SecondGroupBreaks` | src/nas_ndi_ipmc.cpp:343-349 | a concrete run, one entry added under two groups, that breaks the invariant: the group's set is written before the global map refuses |
| `EntryRelation.MoveLeavesStaleFlag` | inc/opx/nas_ndi_ipmc_utl.h:497-507 | a concrete move after which the two copies of the CPU flag differ: only the group id of the global key is refreshed |
| `IpmcCache.ReplGroupCache.MembershipIsAliasing` | src/nas_ndi_ipmc.cpp:332-352 | an entry is in a group's set exactly when the global map's pointer is that very group object |
| `IpmcCache.ReplGroupCache.AddReplGroup` | src/nas_ndi_ipmc.cpp:115-126 | refuses a group it has; otherwise the table gains an empty group and nothing else changes |
| `IpmcCache.ReplGroupCache.DelReplGroup` | src/nas_ndi_ipmc.cpp:227-238 | takes the group out of the table without asking; the pointers of the global map stay inside the table exactly when none pointed at it |
| `IpmcCache.ReplGroupCache.IsReplGroupUsed` | src/nas_ndi_ipmc.cpp:240-251 | true exactly when some entry of either family is in the group |
| `IpmcCache.ReplGroupCache.AddRpfGroupMember` | src/nas_ndi_ipmc.cpp:128-144 | accepted exactly when the group is cached and has no RPF member |
| `IpmcCache.ReplGroupCache.AddIpmcGroupMember` | src/nas_ndi_ipmc.cpp:146-161 | accepted exactly when the group is cached and does not have that RIF yet |
| `IpmcCache.ReplGroupCache.UpdateGroupMember` | src/nas_ndi_ipmc.cpp:163-193 | replaces the port set of a cached member of that side and RIF, and nothing else |
| `IpmcCache.ReplGroupCache.DelGroupMember` | src/nas_ndi_ipmc.cpp:195-225 | takes a cached member of that side and RIF out, and nothing else |
| `IpmcCache.ReplGroupCache.GetGroupMemberList` | src/nas_ndi_ipmc.cpp:268-297 | lists the member ids of one side, each RIF once |
| `IpmcCache.ReplGroupCache.AddIpmcEntry` | src/nas_ndi_ipmc.cpp:332-352 | the objects in the heap step as the relation does: the group object's set first, then the global map |
| `IpmcCache.ReplGroupCache.DelIpmcEntry` | src/nas_ndi_ipmc.cpp:354-373 | removes through the pointer of the global map, whatever group the caller names; the objects step as the relation does |
| `IpmcCache.ReplGroupCache.UpdateEntryReplGrp` | src/nas_ndi_ipmc.cpp:378-408 | moves the entry between two group objects, which may be the same one, and redirects the pointer; the objects step as the relation does |
| `IpmcCache.ReplGroupCache.UpdateEntryCopyToCpu` | src/nas_ndi_ipmc.cpp:409-427 | writes both copies of the flag; the objects step as the relation does |
| `IpmcCache.ReplGroupCache.GetIpmcEntry` | src/nas_ndi_ipmc.cpp:434-438 | finds an entry exactly when some group carries it, and names that group |
| `ReplGroupState.Mc.CachedAreExactlyLive` | src/nas_ndi_ipmc.cpp:778-874 | while cache and SAI agree, the members cached for a side of a group are exactly those live in SAI under its sub-group, members whose rollback failed apart |
| `ReplGroupState.Mc.MemberWrittenKeeps` | src/nas_ndi_ipmc.cpp:962-990 | a member created in SAI and recorded, or given a new port list in both, keeps cache and SAI in agreement |
| `ReplGroupState.Mc.MemberRemovedKeeps` | src/nas_ndi_ipmc.cpp:995-1009 | a member removed from both keeps the agreement |
| `ReplGroupState.Mc.GroupRemovedKeeps` | src/nas_ndi_ipmc.cpp:891-936 | a group whose listed objects have all left SAI can leave the cache: the other groups still agree with SAI |
| `ReplGroupState.Mc.DeletionIsOrdered` | src/nas_ndi_ipmc.cpp:891-934 | the ids a deletion takes, in its order, are live, distinct, and together the group's own |
| `ReplGroupState.Mc.DeletionBrokenOff` | src/nas_ndi_ipmc.cpp:896-934 | a deletion that SAI breaks off keeps the agreement of records and members exactly when nothing had been removed yet |
| `ReplGroupState.Mc.GroupRemovedSound` | src/nas_ndi_ipmc.cpp:925-936 | cached groups stay live in SAI when a group goes: the group object is the last to be removed and the record follows at once |
| `ReplGroupState.Mc.RemovalUndoesGrowth` | src/nas_ndi_ipmc.cpp:778-941 | deleting a group gives back the state before its creation exactly when the creation stranded no member and left no IPMC group without members |
| `ReplGroups.ReplGroupApi.CreateReplGroup` | src/nas_ndi_ipmc.cpp:778-874 | whatever SAI refuses: nothing that was live is lost, and the objects that are new in SAI are those of the cached group, the stranded members and the leaked ids, which are the group and its IPMC group exactly when SAI refused a sub-group; if cache and SAI agreed, they agree afterwards; on success the RPF member is the one asked for, with its ports in the cache and in SAI, and each IPMC member is a requested one with the ports of its request; when SAI refuses nothing, the first request for each RIF is; a group whose RPF member was refused is cached without members; distinct RIFs strand no member; an unknown owner type changes nothing |
| `ReplGroups.ReplGroupApi.AddIpmcMembers` | src/nas_ndi_ipmc.cpp:842-867 | the member loop: refused members are skipped, a repeated RIF is rolled back, only a repeated RIF whose rollback fails is stranded; each recorded RIF has a request whose port list SAI holds under the recorded id and whose ports the cache holds, without refusals the first one for that RIF; if cache and SAI agreed before, they agree after each step |
| `ReplGroups.ReplGroupApi.RemoveGroupObjects` | src/nas_ndi_ipmc.cpp:891-934 | removes the RPF members, RPF group, IPMC members, IPMC group and group in that order, each through the API of its kind, stops at the first refusal, and, for a group in agreement with SAI, comes through exactly when SAI refuses nothing; the group object goes last |
| `ReplGroups.ReplGroupApi.DeleteReplGroup` | src/nas_ndi_ipmc.cpp:876-941 | refuses exactly a used, unknown or not-one-RPF-member group; success removes the group's own objects and record and no others; a refusal keeps the record and the group object, whatever state the members are in; an agreement with SAI survives exactly unless SAI breaks off after a removal |
| `ReplGroups.ReplGroupApi.UpdateReplGroup` | src/nas_ndi_ipmc.cpp:943-1032 | adding, deleting and updating one member keep cache and SAI in agreement if they were; an added or updated member has the ports asked for in both, a deleted one is in neither; when SAI refuses nothing, a cached group's member stays in SAI as an orphan exactly when an addition names a RIF that the side does not have and the side takes no more |
| `ReplGroups.SecondRpfMemberStrands` | src/nas_ndi_ipmc.cpp:972-983 | the shortest run that strands a member without a refusal: a second RPF member fails in the cache only and stays in SAI |
| `ReplGroups.ReplGroupApi.CreateThenDelete` | src/nas_ndi_ipmc.cpp:778-941 | creating and then deleting a group restores the cache and the SAI objects when SAI refuses nothing, also with repeated RIFs; with refusals, exactly when no member is stranded and no empty IPMC group is left; in between the group has the members asked for |
| `IpmcEntries.CreateAgrees` | src/nas_ndi_mcast.cpp:258-263 | an entry that SAI accepts is new to the cache as well, so both tables list the same entries; RPF group, flag and output group (none when the group has no IPMC group) match the group's, and the attributes of all entries match exactly if they did before |
| `IpmcEntries.UpdateAgrees` | src/nas_ndi_mcast.cpp:320-366 | after all attributes of an update are set, both tables list the same entries; the output group is the new group's exactly when that has an IPMC group or the entry had no output group, and the attributes go on matching exactly in that case |
| `IpmcEntries.PartUpdateAgrees` | src/nas_ndi_mcast.cpp:356-363 | an update that SAI breaks off part-way keeps the attributes matching exactly when the RPF group and the flag sent before the refusal are those the cache holds |
| `IpmcEntries.WholeUpdateDrifts` | src/nas_ndi_mcast.cpp:337-341 | an update applied as a whole drifts exactly for a move to a group without an IPMC group of an entry that has an output group, that is, comes from a group with one |
| `ReplGroupState.Mc.RpfGroupIsOwn` | src/nas_ndi_ipmc.cpp:803-826 | no two groups in agreement with SAI share an RPF group, so the RPF group sent for a group is another's exactly when the group is another |
| `IpmcEntries.Snap.EntryIsHoused` | src/nas_ndi_mcast.cpp:217-291 | whatever SAI refuses: each entry in SAI is in exactly one group, which is cached and whose replication group is live in SAI |
| `IpmcEntries.IpmcEntryApi.EntryCreate` | src/nas_ndi_mcast.cpp:217-266 | without refusals, succeeds exactly for a known router, a cached group and a route bound nowhere; the route is then bound to the group named, with the flag asked for, and no other route changes; an entry never enters the cache twice, and carries its group's attributes |
| `IpmcEntries.IpmcEntryApi.EntryDelete` | src/nas_ndi_mcast.cpp:268-291 | deletes in SAI and then in the cache; without refusals, succeeds exactly for a bound route; that route is gone and every other is bound as it was |
| `IpmcEntries.TwoRoutes` | src/nas_ndi_mcast.cpp:217-291 | entries for different routes, such as (S,G) entries that differ in the source alone, are both created without refusals, and deleting one leaves the other as it was |
| `IpmcEntries.IpmcEntryApi.EntryUpdate` | src/nas_ndi_mcast.cpp:293-369 | the cache changes only after the last attribute, for the entry's route alone: its group or its flag becomes the one asked for; SAI has exactly the attributes sent before a refusal; the attributes of all entries go on matching exactly unless the update drifts |
| `IpmcEntries.IpmcEntryApi.Run` | src/nas_ndi_mcast.cpp:217-369 | over every run of group and entry calls, whatever SAI refuses and without a stop, each step does to the tables what its call promises, and at every moment no entry refers to a group outside the table or sits in two, both tables list the same entries and cached groups are live; the members agree throughout exactly when no group deletion is broken off part-way, and the entries' attributes exactly when no update drifts |
| `IpmcEntries.OutputGroupOutlives` | src/nas_ndi_mcast.cpp:336-341 | the shortest run, without a refusal, after which an entry names an output group that is gone from SAI |
| `NdiMap.SingleBitFilters` | src/nas_ndi_map.cpp:63-84 | what each single filter bit compares |
| `NdiMap.RejectCounts` | src/nas_ndi_map.cpp:143-184 | the pass that drops the matches loses exactly the matching occurrences |
| `NdiMap.RejectKeepsOrder` | src/nas_ndi_map.cpp:143-184 | what the pass keeps stays in the original order |
| `NdiMap.RejectAfterErase` | src/nas_ndi_map.cpp:143-161 | erasing the first match does not change the result of the full pass |
| `NdiMap.Multimap.DeleteElements` | src/nas_ndi_map.cpp:163-184 | erasing first matches until none is found ends and equals one order-keeping pass; the key stays, even with an empty list |
| `NdiMap.Multimap.DeleteInternal` | src/nas_ndi_map.cpp:143-161 | erases the first match and fails exactly when there is none |
| `NdiMap.Multimap.Insert` | src/nas_ndi_map.cpp:88-120 | appends to the key's list, or makes it |
| `NdiMap.Multimap.Get` | src/nas_ndi_map.cpp:186-228 | copies the whole list or says why not, and reports the stored count when the buffer is too small |
| `NdiMap.Multimap.GetElements` | src/nas_ndi_map.cpp:230-267 | copies the first matches in order until the buffer is full; an absent key or an empty buffer leaves the caller's count |
| `NhMatch.GreedyAnswers` | src/nas_ndi_route.c:397-451 | without the marker among the requests, each is answered from a recorded pair with its own id, and no pair answers two |
| `NhMatch.AllFound` | src/nas_ndi_route.c:426-446 | every request finds a pair exactly when the requests, counted with repeats, are contained in what is recorded |
| `NhMatch.MatchIsRight` | src/nas_ndi_route.c:397-451 | each request gets a recorded pair of its own exactly when all, counted with repeats, are recorded, and none that comes before a request for -1 is for -1 too or for a hop recorded ahead of the first pair that has -1; so without -1 in the table, exactly when they are all recorded and none is for -1 |
| `NhMatch.MatchReturnsMembers` | src/nas_ndi_route.c:397-451 | requests contained in the recorded ids get pairwise distinct recorded members of the next hops asked for |
| `NhMatch.MatchRoundTrips` | src/nas_ndi_route.c:397-490 | looking the matched members up by member id gives back the requested next hops |
| `NhMatch.MarkerIsAnswered` | src/nas_ndi_route.c:428-434 | a request for -1 is answered from a pair already used: one member is handed out twice |
| `NextHopGroup.Nh.AddedKeeps` | src/nas_ndi_route.c:343-394 | new members recorded under their group's key keep pairs in SAI and pairs in the map the same |
| `NextHopGroup.Nh.DroppedKeeps` | src/nas_ndi_route.c:555-579 | removing a member from SAI and erasing by its id keeps the two the same and takes exactly one pair |
| `NextHopGroup.Nh.LossBreaks` | src/nas_ndi_route.c:519-526 | members removed while the list stays break the agreement on their group, unless there were none, and on no other group |
| `NextHopGroup.Nh.LostKeeps` | src/nas_ndi_route.c:560-575 | a member that leaves SAI under another group's stale id takes its own group's agreement along and no other's |
| `NextHopGroup.Nh.MatchDecides` | src/nas_ndi_route.c:857-875 | the members removed for a request are the ones matched, and all can be removed exactly when the request is contained in what is recorded |
| `NextHopGroup.NextHopGroups.MembersCreate` | src/nas_ndi_route.c:329-395 | all members or none: a refusal rolls back what was made, and only a refused rollback leaves a member behind, unrecorded; each refusal is counted |
| `NextHopGroup.NextHopGroups.GetMemberOid` | src/nas_ndi_route.c:397-451 | the in-place double loop computes the greedy match; an unknown group is an error |
| `NextHopGroup.NextHopGroups.NhIdsFromMemberOids` | src/nas_ndi_route.c:453-490 | distinct recorded members are mapped to their next hops |
| `NextHopGroup.NextHopGroups.AllMembersRemove` | src/nas_ndi_route.c:492-534 | removes every recorded member and then the list; a refusal leaves the list, and the group broken exactly when a member was gone; too many members for the buffer is an error that changes nothing |
| `NextHopGroup.NextHopGroups.MembersRemove` | src/nas_ndi_route.c:536-583 | each step takes one member out of SAI and its one pair out of the list; a refusal stops with both in agreement |
| `NextHopGroup.NextHopGroups.UnmakeGroup` | src/nas_ndi_route.c:631-635 | a group that could not be filled leaves SAI unless SAI refuses that too; SAI is then as it was before the group exactly when no member is stuck either |
| `NextHopGroup.NextHopGroups.GroupCreate` | src/nas_ndi_route.c:585-640 | a group with hops is recorded under its handle with exactly those hops, one without gets no handle and no list, and SAI has gained the group and those members alone; on a failure SAI has gained the members whose rollback it refused, and the group exactly when it refused its removal, so nothing when it refused just one call |
| `NextHopGroup.NextHopGroups.GroupDelete` | src/nas_ndi_route.c:642-665 | without refusals, succeeds exactly for a group with a list that fits the buffer, so a group created without hops cannot be deleted and one emptied of hops can |
| `NextHopGroup.NextHopGroups.AddHops` | src/nas_ndi_route.c:787-821 | appends the requested hops to the group's list, or changes no list; SAI has gained the new members alone, or on a failure those whose rollback it refused |
| `NextHopGroup.NextHopGroups.DeleteHops` | src/nas_ndi_route.c:823-876 | removes the requested hops counted with repeats; without refusals, succeeds exactly when they are contained in the recorded ones |
| `NextHopGroup.NextHopGroups.Run` | src/nas_ndi_route.c:585-876 | over every run of calls, whatever SAI refuses and without a stop, each step does what its call says (the hops recorded grow or shrink by those asked for, no other group's list changes, and a refused creation or addition leaves as many new objects behind as rollbacks were refused), and the pairs recorded for each group that is not broken are the pairs live in SAI; the first group breaks exactly when a deletion is broken off part-way; without refusals none does and no member is left over |
| `StpPorts.Index.OnePerPair` | src/nas_ndi_stg.cpp:246-275 | there is at most one STP port in SAI for each STP instance and bridge port, spoiled bridge ports apart |
| `StpPorts.Index.AddedKeeps` | src/nas_ndi_stg.cpp:156-198 | a port for a pair without one keeps both indexes and SAI encoding one relation |
| `StpPorts.Index.SecondPortBreaks` | src/nas_ndi_stg.cpp:280-282 | a second port for a pair: no relation fits the two indexes any more, whatever SAI holds |
| `StpPorts.Index.SecondPortSpoils` | src/nas_ndi_stg.cpp:156-198 | a second port for a pair spoils its bridge port and no other: the indexes of the others go on encoding what SAI holds |
| `StpPorts.Index.VictimSpoils` | src/nas_ndi_stg.cpp:747-757 | a port removed under the stale id of a spoiled bridge port spoils the bridge port it belongs to and no other |
| `StpPorts.Index.RemovedKeeps` | src/nas_ndi_stg.cpp:128-154 | removing a pair's port from SAI and from both indexes keeps them encoding one relation |
| `StpPorts.StgPorts.GetStpPortId` | src/nas_ndi_stg.cpp:104-126 | finds the port of the pair, or the null id |
| `StpPorts.StgPorts.DelPortFromCache` | src/nas_ndi_stg.cpp:128-154 | takes the pair out of both indexes; for a pair without a port nothing changes |
| `StpPorts.StgPorts.CreateStpPort` | src/nas_ndi_stg.cpp:200-244 | a port for a pair without one enters both indexes; one for a pair that has one fits no relation, and spoils that bridge port alone |
| `StpPorts.StgPorts.CreateDefaultStpPort` | src/nas_ndi_stg.cpp:280-282 | the default port of a bridge port spoils it exactly when SAI makes it although there is one |
| `StpPorts.StgPorts.SetStpPortState` | src/nas_ndi_stg.cpp:246-275 | creates a port on first use only and sets the state; a refusal changes nothing |
| `StpPorts.StgPorts.DeletePortStpPorts` | src/nas_ndi_stg.cpp:713-763 | of the bridge port's STP ports only those whose removal SAI refused remain, and the lists of other bridge ports are untouched |
| `StpPorts.StgPorts.DeleteAllStpPorts` | src/nas_ndi_stg.cpp:403-469 | success leaves the instance without ports; a refusal stops with indexes and SAI in agreement; ports of other instances stay |
| `StpPorts.StgPorts.Run` | src/nas_ndi_stg.cpp:200-763 | over every run of calls, default ports included, whatever SAI refuses and without a stop: each step does what its call says, and outside the spoiled bridge ports there is at most one STP port for each pair, and both indexes encode what SAI holds; the first is spoiled exactly by a default port made for a bridge port that has one |
| `StpPorts.PassedOverPort` | src/nas_ndi_stg.cpp:751-759 | how that comes about: SAI refuses a removal, the deletion reports success, the bridge port's id is given out again; without refusals the second port is the only one |
| `BrportCache.Cache.AddKeeps` | src/nas_ndi_obj_cache.cpp:227-252 | adding keeps all indexes exact projections of the blocks exactly when the block is fresh |
| `BrportCache.Cache.AddIsLocal` | src/nas_ndi_obj_cache.cpp:227-252 | an added block is held beside all that were |
| `BrportCache.Cache.RemoveKeeps` | src/nas_ndi_obj_cache.cpp:254-305 | removing keeps the indexes exact exactly when the caller's type and VLAN match the cached block |
| `BrportCache.Cache.RemoveRouterKeeps` | src/nas_ndi_obj_cache.cpp:260-265 | a 1D router's bridge port is removed by its RIF and no other index moves |
| `BrportCache.Cache.AddThenRemove` | src/nas_ndi_obj_cache.cpp:227-305 | a fresh block added and then removed leaves every index, list order included, as it was |
| `BrportCache.Cache.FindIsSearch` | src/nas_ndi_obj_cache.cpp:166-213 | each of the four queries finds the one block that a search of all blocks finds |
| `BrportCache.Cache.RemovalIsLocal` | src/nas_ndi_obj_cache.cpp:254-305 | after a removal no query finds the block and every other answer is unchanged |
| `BrportCache.Cache.ListedIsAll` | src/nas_ndi_obj_cache.cpp:217-305 | the list lengths sum to the number of blocks |
| `BrportCache.BrportTable.AddBridgePort` | src/nas_ndi_obj_cache.cpp:227-252 | the fields step as the five indexes do; they stay exact exactly for a fresh block |
| `BrportCache.BrportTable.RemoveBridgePort` | src/nas_ndi_obj_cache.cpp:254-305 | the fields step as the five indexes do, early exits included |
| `BrportCache.BrportTable.GetBrportBlock` | src/nas_ndi_obj_cache.cpp:166-213 | finds a block exactly when one fits the query |
| `BrportCache.BrportTable.GetBrportList` | src/nas_ndi_obj_cache.cpp:217-225 | lists the bridge ports of a port, each once, and never an empty list |
| `BrportCache.VirtualObjCache.AddVirtualObj` | src/nas_ndi_obj_cache.cpp:338-348 | the two maps stay inverse exactly when neither id was bound to another |
| `BrportCache.VirtualObjCache.RemoveVirtualObj` | src/nas_ndi_obj_cache.cpp:350-359 | takes one object out of both maps and keeps them inverse |
| `BrportCache.VirtualObjCache.OidOf` | src/nas_ndi_obj_cache.cpp:361-382 | the VLAN look-up is the inverse of the object look-up |
| `BrportCache.VirtualObjCache.VidOf` | src/nas_ndi_obj_cache.cpp:361-382 | the object look-up is the inverse of the VLAN look-up |
| `Bridge.BridgeApi.CreateBridgePort` | src/nas_ndi_bridge.cpp:579-709 | a bridge port enters the cache only after every step, taken in order (admin state, and for a 1Q port the filters and the default STP port), and SAI holds it with its type and its port and VLAN, or its RIF; the indexes stay exact exactly unless the place of one that gets there was taken; a failure leaves the new object in SAI exactly at a setting of a 1Q port, or at the admin state when the removal is refused too; nothing else in SAI changes |
| `Bridge.BridgeApi.DeleteBridgePort` | src/nas_ndi_bridge.cpp:518-576 | a bridge port leaves SAI after every step for its type, taken in order (admin state, MAC flush, STP ports, VLAN members), and then the cache, or nothing changes; an id that SAI does not know fails without being refused; the cached bridge ports stay live exactly unless one is removed under a type or VLAN that does not reach its index, and those of 1D routers exactly unless one goes while its RIF stays in the index, whose RIF is looked for under whatever the unset field holds |
| `Bridge.RouterLeaves` | src/nas_ndi_bridge.cpp:566-570 | a bridge port leaves SAI and some RIF the index: the routers' bridge ports are all live afterwards exactly when no RIF left in the index was bound to that one |
| `Bridge.BridgeApi.AddRouterPort` | src/nas_ndi_bridge.cpp:1370-1389 | the bridge port of a 1D router is in SAI for that RIF, and in the index under it, exactly when SAI refuses nothing, and those of the others stay live |
| `Bridge.BridgeApi.DeleteRouterPort` | src/nas_ndi_bridge.cpp:1338-1400 | removes the bridge port that the cache finds for the RIF, or does nothing when it finds none; without refusals it fails exactly for one that has left SAI; the routers' bridge ports all stay live exactly when the unset field happens to name that RIF |
| `Bridge.RemoveLeaves` | src/nas_ndi_obj_cache.cpp:254-305 | what a removal leaves of the blocks, cached or not, and when the indexes stay exact |
| `Bridge.BridgeApi.Add1DMember` | src/nas_ndi_bridge.cpp:829-880 | a 1D member is found under its port and VLAN exactly when SAI refuses nothing, and what is found is in SAI at that port and VLAN, tagged or untagged as asked; the indexes stay exact exactly when that place was free |
| `Bridge.BridgeApi.Delete1DMember` | src/nas_ndi_bridge.cpp:886-907 | removes exactly the block that the (port, VLAN) look-up found, tagged or untagged, and leaves every other query answer unchanged |
| `Bridge.BridgeApi.DeleteAllTypeSubports` | src/nas_ndi_bridge.cpp:712-729 | passing the tagged type removes tagged and untagged members alike |
| `Bridge.BridgeApi.Delete1Q` | src/nas_ndi_bridge.cpp:941-957 | takes the port out of the 1Q index, or changes nothing |
| `Bridge.BridgeApi.Create1Q` | src/nas_ndi_bridge.cpp:959-978 | the port enters the 1Q index exactly when SAI refuses nothing, with a new bridge port that is at this port in SAI; the indexes stay exact exactly unless a port in the index enters again |
| `Lag.LagApi.ExactlyOne` | src/nas_ndi_lag.cpp:101-184 | no port is in the 1Q index and a LAG member at once; with no port left stray by a refusal, each is in exactly one of the two |
| `Lag.Homes.Joins` | src/nas_ndi_lag.cpp:141-147 | a port outside the 1Q bridge that joins a LAG has that one home |
| `Lag.Homes.Departs` | src/nas_ndi_lag.cpp:162-175 | a port whose LAG member is gone is in no LAG any more |
| `Lag.LagApi.AddPortsToLag` | src/nas_ndi_lag.cpp:101-151 | a port leaves the 1Q index before it joins; a refusal in between leaves it in neither place, never in both |
| `Lag.LagApi.DelPortsFromLag` | src/nas_ndi_lag.cpp:154-184 | the port of the member enters the 1Q index again, as a port, or is left in neither place |
| `Lag.LagApi.CreatePortObj` | src/nas_ndi_lag.cpp:51-76 | a new LAG, or a front-panel port once it is in the port table, enters the 1Q index as what it is, or is left in neither place |
| `Lag.LagApi.DeletePortObj` | src/nas_ndi_lag.cpp:78-97 | a LAG (or port) leaves the 1Q index before it leaves SAI |
| `Lag.LagApi.Run` | src/nas_ndi_lag.cpp:51-184 | over every run of calls, whatever SAI refuses, each step does what its call says, no port is in two places, and without refusals each is in exactly one |
| `PortMap.Ports.LookupsInverse` | src/nas_ndi_port_map.cpp:141-152 | the slot look-up and the SAI-port look-up undo each other |
| `PortMap.Ports.WrittenKeeps` | src/nas_ndi_port_map.cpp:327-341 | writing a port to a slot keeps table and map inverse exactly when neither the slot nor the SAI port is taken by another, and changes no other slot's answer |
| `PortMap.Ports.ClearedKeeps` | src/nas_ndi_port_map.cpp:436-447 | clearing a port's slot keeps them inverse and changes no other slot's answer |
| `PortMap.PortTable.SaiPortAdd` | src/nas_ndi_port_map.cpp:287-344 | uses the slot of the first hardware port, the caller's or SAI's, grows the row for it, refuses an active slot, and otherwise writes port and hardware ports there and changes no other slot; table and map stay inverse exactly when the SAI port was unknown |
| `PortMap.PortTable.CpuPortAdd` | src/nas_ndi_port_map.cpp:346-399 | overwrites the slot unasked: table and map stay inverse exactly when the slot and the CPU port were free or already paired |
| `PortMap.PortTable.SaiPortDelete` | src/nas_ndi_port_map.cpp:401-448 | deactivates the port's slot and forgets the port, keeping table and map inverse; an unknown port is no error |
| `PortMap.PortTable.SaiPortIdGet` | src/nas_ndi_port_map.cpp:550-559 | an active slot's SAI port maps back to the slot; anything else is an error |
| `PortMap.PortTable.HwportList` | src/nas_ndi_port_map.cpp:561-585 | as much of the hardware port list as fits, and how much |
| `PortMap.PortTable.SaiPortsLen` | src/nas_ndi_port_map.cpp:635-648 | with a port in slot 0, the number of ports in the other slots |
| `PortMap.PortTable.AllSaiPorts` | src/nas_ndi_port_map.cpp:650-682 | an empty row, counted as 2^64-1, fails; with a port in slot 0 the ports of the other slots in order, never more than announced, and all of them unless there is just one; without it, what is written fits the announced length exactly for fewer than three ports |
| `PortMap.DeletedIsStillListed` | src/nas_ndi_port_map.cpp:436-438 | a deleted port keeps its SAI port in the slot, so it is still counted and listed |
| `PortMap.PortTable.Run` | src/nas_ndi_port_map.cpp:287-448 | over every run of additions and deletions each step does what its call says, and the two look-ups are inverse throughout exactly when no accepted addition names a SAI port that is in the map |
| `PortMap.ThreeOthersCountAsTwo` | src/nas_ndi_port_map.cpp:657-677 | a concrete row without a port in slot 0 whose three ports are counted as two |
| `RifUpdate.LoopEndsIff` | src/nas_ndi_router_interface.c:67-104 | if SAI sets whatever it is asked to, the loop ends exactly for flags that are all supported or all unsupported |
| `RifUpdate.PassesEnd` | src/nas_ndi_router_interface.c:75-102 | for supported flags the number of flags is the number of passes |
| `RifUpdate.MixedFlagsNeverEnd` | src/nas_ndi_router_interface.c:88-102 | a concrete flag set for which the loop does not end |
| `Rif.RifApi.UpdateAttribute` | src/nas_ndi_router_interface.c:67-104 | sets requested supported attributes and no others, each to the entry's own value for it, for supported flags each at most once and exactly once on success; unsupported or mixed flags never succeed, mixed ones end in a refusal |
| `Rif.KeysAreRifs` | inc/opx/nas_ndi_router_interface_utl.h:81-101 | two entries are for the same RIF exactly when NPU, virtual router, attachment and virtual flag agree, and for virtual ones the MAC |
| `Rif.RifApi.RifCreate` | src/nas_ndi_router_interface.c:107-271 | success is one hold more on the RIF that the entry names, and no other RIF gets another id; a new one gets an id that was not live, and exactly the supported and virtual attributes requested, each with its own value; a known one has the requested attributes set and the others as they were; a virtual RIF is held exactly once; the databases stay inverse and match SAI unless the 32-bit count was full; a failure changes no database, and leaves a RIF behind in SAI only for a 1D bridge whose bridge port and whose rollback were refused; the bridge ports of the 1D bridges' RIFs go on agreeing |
| `Rif.RifApi.RifDelete` | src/nas_ndi_router_interface.c:273-308 | one hold less, except that the last one stays while SAI refuses, or while the bridge port that the cache finds for the id has left SAI; without refusals it goes exactly when the id finds no such bridge port; only a bridge port that stays is reported; a RIF is live in SAI exactly when it is held or has leaked; the bridge ports go on agreeing exactly unless one goes and leaves its RIF in the index or in SAI |
| `Rif.RifApi.NothingDangles` | src/nas_ndi_bridge.cpp:1338-1352 | while the bridge ports agree, the look-up finds one for exactly the non-virtual RIFs of 1D bridges, and it is live, so no deletion fails for want of it |
| `Rif.DanglingSticks` | src/nas_ndi_router_interface.c:288-293 | the last hold of a RIF whose bridge port has left SAI is not taken however often the deletion is repeated and whatever SAI answers |
| `Rif.RouterRifSticks` | src/nas_ndi_router_interface.c:288-301 | the run of two deletions: the bridge port goes and SAI refuses the RIF; the second deletion fails although SAI refuses nothing more |
| `Rif.InheritedPort` | src/nas_ndi_bridge.cpp:566-568 | a RIF without a bridge port that SAI gives the id of a deleted 1D bridge's RIF cannot be deleted, when SAI refuses nothing exactly unless the unset field happened to name that RIF |
| `Rif.RifApi.Run` | src/nas_ndi_router_interface.c:107-308 | over every run of creations and deletions, whatever SAI refuses, until a 32-bit count is full: each step does what its call says, the holds are those before and the ids that the creations returned, less the ids whose deletion took effect; a RIF is live exactly when held or leaked, and a virtual one is held once; the bridge ports agree throughout exactly when they did before and no deletion takes one away and leaves its RIF behind |
| `Rif.HoldsBalance` | src/nas_ndi_router_interface.c:107-308 | the holds and the ids whose deletion took effect are, as multisets, the holds before and the ids that the creations returned |
| `Rif.RifDb.CreateRif` | src/nas_ndi_router_interface_utl.cpp:87-146 | a known key is held once more under its id, a new one gets a count of 1; the databases stay inverse exactly for an id not in use and a count not full |
| `Rif.RifDb.DeleteRif` | src/nas_ndi_router_interface_utl.cpp:150-173 | the last hold takes the RIF out of both databases, and no other; counts are holds minus releases throughout |
| `Rif.RifDb.AddRef` | src/nas_ndi_router_interface_utl.cpp:204-227 | one hold more; the invariant survives exactly below the 32-bit limit |
| `Mirror.MirrorApi.PortToIdList` | src/nas_ndi_mirror.cpp:234-285 | adds an absent session at the end or takes one out, never twice in a list; fails exactly for disabling an absent one |
| `Mirror.MirrorApi.UpdateDirection` | src/nas_ndi_mirror.cpp:288-348 | lists stay duplicate-free; after SAI accepts, its list is the table's; a refusal restores the set of sessions exactly unless an already present one was enabled; the table goes on agreeing with SAI exactly outside that case and an untranslatable port |
| `Mirror.MirrorApi.StepSet` | src/nas_ndi_mirror.cpp:249-284 | what one step does to the set of sessions |
| `QueueStats.ExtendedQueueStatistics` | src/nas_ndi_qos_queue.cpp:671-733 | position i gets the SAI value of the i-th counter when the snapshot table, or else the current one, maps it, and 0 otherwise; it fails exactly for an unknown mode or when SAI refuses, and then leaves the caller's array alone |
| `QueueStats.GatheredPlace` | src/nas_ndi_qos_queue.cpp:720-731 | the index of a mapped counter is within the gathered list and names its SAI id |

## Left out

- Locks and interleavings: every run is sequential, so the separate locking of the in-use check and the deletion of a replication group does not show.
- Null pointers, missing NPU tables and switch ids: the tables are taken as present.
- SAI itself, its events and callbacks, start-up, logging and text dumps.
- Translating a member's port list to bridge ports before SAI sees it: SAI is given the caller's list.
- Which bridge a bridge port belongs to, and attribute values that no index depends on: learning modes, MAC and IP formatting, QoS conversions, ACL, hash, speed and media tables.
- What the bridge attribute, MAC flush, VLAN and STP steps inside the bridge-port calls do: the order of the steps is modelled, and that each may be refused; the STP index is modelled on its own in `StpPorts`.
- The L2 multicast entries, tunnel, FC and slave-port caches: smaller map wrappers of the same shape.
- The queue statistics without clear mode, and the buffer-pool, priority-group and port-pool statistics: the same two loops.
- Creating an STP instance and its VLAN list, and reading port states: they change no index.
- NextHopGroup.NextHopGroups.AddHops: asks for no more hops than the source's local array holds; beyond that the source writes past it.
- NextHopGroup.NextHopGroups.GroupCreate: the same bound, for the same reason.
- PortMap.PortTable.SaiPortAdd: asks for a row with at least one slot; for an empty row the source's size minus one wraps and it writes past the row.
- PortMap.PortTable.CpuPortAdd: the same bound, for the same reason.
- PortMap.PortTable.Run: the same bound, for the same reason.
- PortMap.PortTable.AllSaiPorts: asks, for an empty row, for a length below 2^64-1; at that one value the source steps past the row.
- Rif.RifApi.UpdateAttribute: covers every run that ends; `patience` is how many calls SAI accepts, and without a refusal mixed flags run for ever (`LoopEndsIff`).
- NextHopGroup.NextHopGroups.GetMemberOid: models the two filters it is called with, not the combined or empty filter, for which it does nothing.
- Lag.LagApi.CreatePortObj: stands for the creation of a LAG and of a front-panel port; the other settings of a new port are left out.
- The rollback of a replication group whose new id is cached already: cached groups are live, whatever SAI has refused, so SAI does not give their ids out again and the branch cannot be reached.
- ReplGroups.ReplGroupApi.DeleteReplGroup: reads both member lists before the first removal, where the code reads the second one later; the cache does not change in between.
- Exceptions from memory exhaustion in the containers.
