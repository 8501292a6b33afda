# Verified model of the qumomf failover engine

qumomf watches a Tarantool vshard cluster, finds replica sets whose master is gone or
whose configuration has diverged, elects a new master, and pushes a new configuration to
every node. This project models that pipeline in Dafny and proves what it guarantees:
discovery, analysis, election, configuration push, and the registry that keeps recoveries
from flapping. `dafny verify dfyconfig.toml` checks everything.

## How the model is laid out

| file | models |
|---|---|
| topology.dfy | instances, replica sets, the follower selections, reads of the current snapshot |
| sorting.dfy | `sort.Sort` as an in-place insertion sort over any comparison |
| quorum.dfy, smart_order.dfy, election.dfy | the admission filter, both electors, the laws of the smart comparison |
| analysis.dfy | the counting loop and the decision chain of `analyze` |
| nodes.dfy, fleet.dfy | a node's configuration, the recovery script, execution with retries |
| protocol.dfy | safety of the push over whole runs of requests that may fail in any way |
| registry.dfy | the clock, recoveries, expiry, blocking and cleanup |
| accounts.dfy | which recovery attempt each request belongs to, and how attempts follow each other |
| failover.dfy | the failover loop: promotion, co-master recovery, registration, cleanup |
| outcomes.dfy | what the recoveries achieve, from the analysis to the state of the nodes |
| update_order.dfy | the order in which members are told |
| worlds.dfy | overlapping discoveries as a machine over values, and what it guarantees |
| snapshots.dfy, set_comparison.dfy, discovery.dfy | snapshots over shared arrays, and the discoveries that work on them: they refine that machine |
| races.dfy | two unlocked swaps of one array, step by step |
| templates.dfy, hooks.dfy | placeholder replacement and the hook gate |

A Go slice of instances that is written in place is an `array`, so that sharing and
separation are proved rather than assumed. An object with changing fields is a class
(`Cluster`, `Task`, `Fleet`, `Recovery`, `Failover`, `Clock`). What happens outside the
engine is arbitrary: what the network does to each attempt of each request, how far the
clock advances between two readings, which analyses arrive and in which order, how discoveries interleave, and what
each read of the current snapshot shows.

## Main results

- **No one hears of a promotion its candidate has not confirmed.** Over every run of the
  loop, with every request confirmed, executed but reported as failed, or lost, and as long
  as the records looked up give a candidate's own address: a master flagged on a node other
  than itself was flagged initially, or confirmed its promotion before, or was named the
  leader by a co-master recovery (`Failover.Serve` keeps the invariant,
  `Failover.EveryRunIsSafe` states the consequence).
- **Every input gets its turn.** The loop takes ticks and analyses in order up to the first
  stop or crash, and handles each as its state demands: when nothing is blocked and hooks,
  election and record agree, the promotion is pushed; when not, it says which of them spoke
  against it (`Failover.Serve`). A request is confirmed exactly when the network answers its
  last attempt and the node can run the script (`Fleets.ExecWithRetries`).
- **Write access stays with the old writers and the candidate**, other sets are untouched,
  and after a confirmed promotion the candidate is the only writer *if and only if* every
  formerly writable rival was reached (`Protocol.SingleWriterIff`).
- **Anti-flapping.** Over every run, each request belongs to a registered recovery attempt
  with the configured TTL; two promotions of one set, or two demotions of one instance,
  belong to different attempts, and the later one starts and sends strictly more than the
  TTL after the earlier one was armed (`Failover.EveryRunIsSpaced`). A key is blocked
  exactly until the second of an attempt's deadline is over, although timestamps are
  truncated to seconds and whatever was cleaned up (`Failover.KeyIsBlockedWhile`).
- **The smart comparison is not an order in general.** It is one *if and only if* the list
  contains neither three followers of one tier with a negative, a zero and a positive lag,
  nor a rising chain: three of one tier and lag with rising priorities, each at most half a
  second more idle than the one before, the last more than half a second above the first.
  The elected follower is beaten by no one *if and only if* the best tier does not mix the
  three signs and no rising chain starts from its front (`SmartOrdering.WinnerIsUnbeatenIff`);
  and on every list it is of the best tier, and of the least lag there unless a lag is
  negative.
- **Valid instances are told first**, in whatever order discovery delivered them, *if and only
  if* no failed instance is ahead of a valid one (`UpdateOrder.ValidComeFirstIff`).
- **Overlapping discoveries** over arrays that are shared and written in place refine a
  machine over plain values, in any interleaving with updates of the priorities
  (`Discovery.Interleave`): nothing that is shared ever shows. In that machine no update of
  the priorities is lost (`Worlds.PrioritiesAreTheLastSet`), the creation time never moves
  back (`Worlds.CreatedNeverDecreases`), discoveries do not interfere
  (`Worlds.RunsDoNotInterfere`), before a commit only the order of instances within a
  committed set changes (`Worlds.OnlyCommitsChangeSets`), and a committed instance that was
  polled is valid exactly if its last poll succeeded (`Worlds.ValidityIsTheLastPoll`). One
  comparison at a time, that is: two overlapping ones keep all instances in every
  interleaving of two swaps *if and only if* the swaps share no position
  (`Races.SwapsKeepInstancesIff`).
- **The analysis** computes exactly one of ten states, each a quantified statement about
  the instances.
- **Co-master recovery converges** once every follower that shows another checksum was
  told; co-masters come back *if and only if* a follower that could not be polled had still
  shown the leader's checksum (`Outcomes.CoMastersReturnIff`).
- **Sequential placeholder replacement** equals one simultaneous substitution *if and only
  if* each placeholder stands in holes of the template only by the time it is replaced
  (`Templates.InTurnIsAtOnceIff`), as it does when every literal '{' is followed by a
  non-letter within its literal.

## Where the code and its comments disagree

- `InstanceFailoverSorter.Less` says that replicas polled successfully come first. It has
  no branch for an invalid left and a valid right instance, so a failed instance can come
  first: a dead master has no upstream, so its idle counts as 0 (`UpdateOrder.InvalidCanComeFirst`).
  Every member is contacted exactly once regardless.
- The smart elector is documented as a ranking by lag, idle and priority. Where the elected
  follower's tier mixes the three lag signs, another follower beats it
  (`SmartOrdering.MixedSignsLeaveNoBest`).

## Assumptions

- UUIDs of the instances of an analysed set are distinct (`Acceptable`).
- With the smart elector, eligible followers have an upstream whenever there are several;
  the comparison dereferences it. A candidate whose current record has none ends the
  process, and is modelled so.
- The promotion is offered at the address found in the current snapshot. If that is not the
  candidate's own, an unconfirmed candidate ends up flagged on a stranger's node
  (`Protocol.OfferFlagsStrangerIff`).
- Comparing a found set with the committed one, which sorts both without the lock, counts as
  one step of a discovery. The code does not enforce that; `Races` says what overlapping
  swaps, or a copy taken in the middle of one, would do.
- An error-free response means that the script was executed; a script error raised before
  the new configuration is applied changes nothing; master flags are explicit booleans.
- Idles are real numbers. The configuration checksum is an arbitrary function.

## Model

| member | source | states |
|---|---|---|
| Topology.ReplicaSet.Master | internal/vshard/replicaset.go:129-138 | found exactly when an instance has the master's UUID; then it is the first such record |
| Topology.ReplicaSet.Followers | internal/vshard/replicaset.go:78-91 | the instances that are not the master, in order, none lost or added |
| Topology.ReplicaSet.AliveFollowers | internal/vshard/replicaset.go:93-127 | the non-master instances polled successfully whose upstream, or else downstream, is neither cut nor stopped, in order |
| Topology.SelectIsSubsequence | internal/vshard/replicaset.go:83-90 | what is selected from a list stands at ascending positions, namely all those that pass the test |
| Topology.AliveFollowersInRawTerms | internal/vshard/replicaset.go:99-123 | an alive follower was polled successfully, and its upstream, or without one its downstream, is not cut or stopped |
| Topology.FirstWithUuidIsAt | internal/vshard/cluster.go:228-243 | a lookup across all sets yields the first record with the UUID |
| Sorting.SiftDown | internal/quorum/smart.go:67-69 | swapping left while less than the neighbour inserts the element into the prefix and leaves the rest alone |
| Sorting.InsertionSort | internal/quorum/smart.go:40-41 | the array ends up as the insertion-sorted list of its old content, for any comparison |
| Sorting.InsertPosition | internal/quorum/smart.go:40-41 | an element is inserted right behind the last one it is not less than |
| Sorting.SortedPermutes | internal/quorum/smart.go:67-69 | sorting only reorders, whatever the comparison does |
| Sorting.SortedIsAdjacentOrdered | internal/quorum/smart.go:40-41 | asymmetry alone makes the result adjacent-ordered |
| Sorting.SortedFirstIsUnbeaten | internal/quorum/smart.go:40-43 | over a strict weak order the first element is beaten by no element of the list |
| Sorting.SortingMoreKeepsBefore | internal/vshard/orchestrator/failover.go:299-300 | elements sorted later never turn round the order of those sorted before, whatever the comparison does |
| Quorum.Filter | internal/quorum/elector.go:46-75 | keeps, in order, exactly the instances of non-negative priority whose lag and idle are within the limits that are switched on |
| Quorum.ScanForLeastIdle | internal/quorum/idle.go:33-42 | the UUID of the first instance of least idle, or "" when none is below the bound |
| Quorum.ChooseMasterByIdle | internal/quorum/idle.go:27-49 | no eligible follower, no candidate, or the first eligible follower of least idle |
| Quorum.ChooseMasterSmart | internal/quorum/smart.go:30-44 | no eligible follower, no master, or the first of the eligible followers sorted by the smart comparison |
| Quorum.ElectedIsEligible | internal/quorum/elector.go:27-43 | whichever elector is configured, it elects an alive, admitted follower of the set |
| Quorum.ElectionIsDetermined | internal/quorum/elector.go:27-43 | the outcome of an election is determined by the set and the limits |
| Quorum.NoOneIsAliveIff | internal/quorum/elector.go:46-75 | an election finds no one alive exactly when no member but the master was polled, has an uncut link and meets the limits |
| Quorum.IdlesStayBelowTheBound | internal/quorum/idle.go:33-34 | no idle that occurs reaches the bound the search starts from |
| SmartOrdering.SmartLessIsLexicographic | internal/quorum/smart.go:72-115 | the branch chain is a lexicographic comparison of configuration and upstream, then lag, then priority or idle |
| SmartOrdering.SmartLessIsAsymmetric | internal/quorum/smart.go:72-115 | on every list the comparison is irreflexive and asymmetric |
| SmartOrdering.WinnerLeadsItsTier | internal/quorum/smart.go:40-43 | on every list sorting yields an adjacent-ordered list and the elected follower is best in (master's configuration, upstream follow) |
| SmartOrdering.WinnerInRawTerms | internal/quorum/smart.go:76-90 | it has the master's fingerprint if any follower does, and follows if any follower no further from that configuration does |
| SmartOrdering.SignCycleIsACycle | internal/quorum/smart.go:92-104 | a negative, a zero and a positive lag beat each other in a circle |
| SmartOrdering.RisingChainIsACycle | internal/quorum/smart.go:106-114 | a rising chain of priorities across the idle delta is a circle |
| SmartOrdering.SmartLessIsAnOrderIff | internal/quorum/smart.go:72-115 | the comparison is a strict weak order on a list if and only if the list has neither kind of circle |
| SmartOrdering.UniformListsAreOrdered | internal/quorum/smart.go:92-114 | it is one when no tier mixes the lag signs and followers of one tier and lag share a priority or are about equally idle |
| SmartOrdering.WinnerIsUnbeatenIfAnyIs | internal/quorum/smart.go:40-43 | the elected follower is beaten by no one if and only if the list holds such a follower, however intransitive the rest |
| SmartOrdering.SomeoneIsUnbeatenIff | internal/quorum/smart.go:72-115 | it holds one if and only if the best tier does not mix the signs and no rising chain starts from its front |
| SmartOrdering.WinnerIsUnbeatenIff | internal/quorum/smart.go:40-43 | so that is exactly when the elected follower is beaten by no one |
| SmartOrdering.WinnerIsUnbeaten | internal/quorum/smart.go:40-43 | nobody beats the elected follower when its own tier has no circle |
| SmartOrdering.WinnerHasLeastLag | internal/quorum/smart.go:92-104 | on every list, where its tier has no negative lag, it has the least lag of the tier |
| SmartOrdering.MixedSignsLeaveNoBest | internal/quorum/smart.go:92-104 | where its tier mixes the three signs, the elected follower is beaten |
| ElectionLaws.ElectorsRefuseTogether | internal/quorum/idle.go:27-49 | with a present master, finite idles and UUIDs both electors refuse on the same inputs, with the same answer |
| ElectionLaws.IdleElectsFirstLeastIdle | internal/quorum/idle.go:33-48 | under the same conditions the idle elector succeeds exactly on non-empty lists and elects the first follower of least idle |
| ElectionLaws.ElectionImpliesState | internal/vshard/orchestrator/monitor.go:140-154 | an election in a set with a dead master means one of three states |
| ElectionLaws.PromotionPremises | internal/vshard/orchestrator/failover.go:192-201 | before a promotion the master is dead, some follower works, none replicates, and the candidate is alive, admitted and not the master |
| Analysis.Tally | internal/vshard/orchestrator/monitor.go:107-136 | the counters count, and the dead followers are the working ones that do not replicate, in order |
| Analysis.DecisionDescribes | internal/vshard/orchestrator/monitor.go:138-165 | over the true counters the decision chain yields the state that describes the set |
| Analysis.ExactlyOneState | internal/vshard/orchestrator/monitor.go:138-165 | the ten quantified states are exclusive and exhaustive |
| Analysis.Analyze | internal/vshard/orchestrator/monitor.go:98-176 | reports exactly when the master is in the set, and then counters and state are what the instances amount to |
| Analysis.FaithfulCounts | internal/vshard/orchestrator/monitor.go:107-136 | replicating <= working <= all followers, and the dead followers make up the difference |
| Analysis.DeadFollowersAreSilent | internal/vshard/orchestrator/monitor.go:119-129 | reported dead are exactly the polled followers whose status is neither follow nor master |
| Analysis.CountIsSelected | internal/vshard/orchestrator/monitor.go:107-136 | each counter is the number of followers it is about |
| Nodes.PushIsCoherent | internal/vshard/orchestrator/failover.go:40-58 | the script keeps one master per set at most and "writable iff own configuration says master" |
| Nodes.PushStaysInItsSet | internal/vshard/orchestrator/failover.go:40-53 | the script changes only the flags of its set, and read-only only on members of that set |
| Nodes.PushEffect | internal/vshard/orchestrator/failover.go:40-53 | the script fails exactly where the set is not configured, and changes nothing there; elsewhere, on routers too, the new master alone is flagged, and a member of the set is writable exactly when it is the new master |
| Nodes.PushIsIdempotent | internal/vshard/orchestrator/failover.go:27-60 | executing the script twice is executing it once |
| Nodes.LastPushWins | internal/vshard/orchestrator/failover.go:40-53 | of two scripts for one set only the last is visible |
| Nodes.PushesCommute | internal/vshard/orchestrator/failover.go:40-53 | scripts for different sets commute |
| Fleets.ExecWithRetries | internal/vshard/tarantool.go:100-128 | up to two attempts leave a node as before or as after exactly one execution; success is reported exactly when the last attempt made was answered and the script can run; a second is made exactly after a first that lost its connection or timed out |
| Fleets.Fleet.Exec | internal/vshard/tarantool.go:100-128 | a request changes at most its target, by at most one execution, takes effect and is confirmed as the network decides, and is recorded |
| Fleets.SuffixReplays | internal/vshard/orchestrator/failover.go:262-323 | what follows a point of a run starts from the nodes of that point |
| Protocol.EveryStepIsCoherent | internal/vshard/orchestrator/failover.go:264-323 | every node stays coherent at every step of every run |
| Protocol.NewFlagHasAuthor | internal/vshard/orchestrator/failover.go:40-43 | a master flag that was not there initially was put there by a request that named it |
| Protocol.FlagsAreInitialOrConfirmed | internal/vshard/orchestrator/failover.go:262-327 | at every step every master flag is initial, offered at its own address, confirmed before, or a leader named by a co-master recovery |
| Protocol.FlagsElsewhereAreConfirmed | internal/vshard/orchestrator/failover.go:252-327 | when promotions are offered at home, a master flagged on another node is initial, confirmed before, or a named leader |
| Protocol.OfferFlagsStrangerIff | internal/vshard/orchestrator/failover.go:252-280 | an executed but unconfirmed offer leaves a stranger flagged if and only if the address was not the candidate's |
| Protocol.ConfirmedCandidateIsWritable | internal/vshard/orchestrator/failover.go:264-272 | a confirming candidate's own node names itself the only master and accepts writes |
| Protocol.ConfirmedNodeNamesCandidate | internal/vshard/orchestrator/failover.go:283-296 | any node that confirms, routers included, names the candidate alone |
| Protocol.SegmentKeepsDiscipline | internal/vshard/orchestrator/failover.go:264-323 | a promotion tells nobody else before its candidate confirmed |
| Protocol.OtherSetsUntouched | internal/vshard/orchestrator/failover.go:40-53 | at every step of a promotion every node agrees with its old state beyond the flags of the set |
| Protocol.EveryNodeHasOutcome | internal/vshard/orchestrator/failover.go:282-323 | a node that was reached is settled for good, one that was not is as before |
| Protocol.WritersStayWithin | internal/vshard/orchestrator/failover.go:264-323 | at every step the writers of the set are among the old ones and the candidate, and those of other sets are the same |
| Protocol.SingleWriterIff | internal/vshard/orchestrator/failover.go:264-323 | after a confirmed promotion the candidate is the only writer if and only if every writable rival was reached |
| Protocol.AllConfirmedMeansSingleWriter | internal/vshard/orchestrator/failover.go:282-323 | so it is when all members are known and all requests succeed |
| Registry.BlockingPeriod | internal/vshard/orchestrator/recovery.go:53-74 | an attempt blocks until exactly the end of the second of its deadline: at least its TTL, at most a second longer |
| Registry.NotBlockedIsSpaced | internal/vshard/orchestrator/failover.go:228-231 | an attempt that was not blocked starts strictly more than the TTL after every earlier one on its key |
| Registry.RegisteringKeepsLaws | internal/vshard/orchestrator/failover.go:407-411 | registration keeps the spacing and the agreement with a log that never forgets |
| Registry.CleanupIsInvisible | internal/vshard/orchestrator/failover.go:426-449 | after a cleanup every later question has the answer it would have had without it |
| Registry.BlockedEarlier | internal/vshard/orchestrator/failover.go:413-424 | what blocks at some time blocked at every earlier time |
| Registry.BlockedWhile | internal/vshard/orchestrator/failover.go:413-424 | a key is blocked exactly until the second of the deadline of some attempt on it is over |
| Accounts.RecoveriesAreSpaced | internal/vshard/orchestrator/failover.go:228-235 | two promotions of one set, or demotions of one instance, belong to different attempts, the later started and sent strictly more than the TTL after the earlier was armed |
| Registry.Recovery.constructor | internal/vshard/orchestrator/recovery.go:42-51 | a new recovery carries its scope, set, state and start, and is not successful |
| Registry.Recovery.ExpireAfter | internal/vshard/orchestrator/recovery.go:53-56 | the expiration is the deadline in whole seconds |
| Registry.Recovery.Expired | internal/vshard/orchestrator/recovery.go:71-74 | expired exactly when the expiration lies before the current second |
| UpdateOrder.FailoverLessIsAnOrderIff | internal/vshard/orchestrator/instance_utils.go:24-40 | the comparison is asymmetric, and a strict weak order, if and only if no failed instance is ahead of a valid one |
| UpdateOrder.UniformValidityIsOrdered | internal/vshard/orchestrator/instance_utils.go:33-39 | on lists of uniform validity it is a strict weak order by alert and idle |
| UpdateOrder.ValidComeFirstIff | internal/vshard/orchestrator/instance_utils.go:30-33 | valid instances are told first in every order of the list if and only if no failed instance is ahead of a valid one |
| UpdateOrder.OrderedIsInUpdateOrder | internal/vshard/orchestrator/instance_utils.go:24-40 | under that condition: valid first, then those that report an unreachable master, then the less idle |
| UpdateOrder.InvalidCanComeFirst | internal/vshard/orchestrator/instance_utils.go:30-33 | otherwise a failed instance can be told first: a dead master before its valid follower |
| UpdateOrder.SortedKeepsAddresses | internal/vshard/orchestrator/failover.go:299-308 | sorting drops and repeats no address, orderly comparison or not |
| UpdateOrder.OneAddressIsSkipped | internal/vshard/orchestrator/failover.go:303-308 | with distinct UUIDs the loop skips exactly the candidate |
| Failovers.ShouldPromoteFollower | internal/vshard/orchestrator/failover.go:333-344 | promotes exactly records of non-negative lag whose upstream is follow or running |
| Failovers.Failover.HasBlockedRecovery | internal/vshard/orchestrator/failover.go:413-424 | true only if the key was blocked when asked, false only if it is blocked no more |
| Failovers.Failover.RegistryRecovery | internal/vshard/orchestrator/failover.go:407-411 | appends the recovery and keeps the laws of the registry |
| Failovers.Failover.Cleanup | internal/vshard/orchestrator/failover.go:426-449 | keeps only entries alive when it began, drops only expired ones, and changes no later answer |
| Failovers.Failover.PushToRouters | internal/vshard/orchestrator/failover.go:282-297 | contacts every router once, in order, whatever fails |
| Failovers.Failover.PushToMembers | internal/vshard/orchestrator/failover.go:302-323 | contacts every instance but the candidate once, in order, whatever fails |
| Failovers.MembersAreToldInOrder | internal/vshard/orchestrator/failover.go:299-303 | the members are told in that order |
| Failovers.Failover.PushPromotion | internal/vshard/orchestrator/failover.go:262-323 | the candidate first; the others exactly when it confirms |
| Failovers.Failover.ElectAndPush | internal/vshard/orchestrator/failover.go:246-270 | pushes exactly when the election names a candidate whose current record is fit, and then that promotion |
| Failovers.Failover.PromoteFollowerToMaster | internal/vshard/orchestrator/failover.go:224-327 | nothing when blocked; otherwise one recovery that expires after the TTL, and a promotion unless hooks, election or record speak against it; successful exactly when the candidate confirmed; a crash only on a record without upstream |
| Failovers.Failover.DemoteCoMaster | internal/vshard/orchestrator/failover.go:356-401 | nothing when blocked; otherwise one recovery, and one request unless a hook objects; successful exactly when confirmed |
| Failovers.Failover.ApplyFollowerRoleToCoMasters | internal/vshard/orchestrator/failover.go:347-405 | requests go only to followers whose configuration differs; each of these is recovered unless blocked, and told exactly if it is recovered and the hooks pass |
| Failovers.Failover.CheckAndRecover | internal/vshard/orchestrator/failover.go:146-222 | dispatches on the state; an unblocked promotion is one attempt on the set under its TTL, each demotion one on its follower; every attempt is registered and every request belongs to one; nothing happens in any other state |
| Failovers.Failover.Serve | internal/vshard/orchestrator/failover.go:108-128 | every input up to the first stop or crash is handled in order: a tick by a cleanup, an analysis as its state demands; log, attempts and registry are what these turns made of them; the invariant holds throughout; truthful records keep promotions at home |
| Failovers.Failover.EveryRunIsSafe | internal/vshard/orchestrator/failover.go:108-128 | in every run, at every step, nodes are coherent and every master flag is accounted for; with promotions at home, one on another node is initial, confirmed, or a leader named by a co-master recovery |
| Failovers.Failover.EveryRunIsSpaced | internal/vshard/orchestrator/failover.go:228-235 | that spacing, in every run of the loop |
| Failovers.Failover.KeyIsBlockedWhile | internal/vshard/orchestrator/failover.go:413-449 | that blocking period, in every run of the loop, whatever was cleaned up |
| Outcomes.PushedPromotionIsJustified | internal/vshard/orchestrator/failover.go:192-257 | from the analysis to the writers: when a promotion is pushed, of whom, and what it can change |
| Outcomes.EveryoneIsContactedOnce | internal/vshard/orchestrator/failover.go:283-323 | a confirmed promotion contacts every router and every other instance exactly once |
| Outcomes.EveryInstanceIsContactedOnce | internal/vshard/orchestrator/failover.go:283-323 | when the candidate is a member at its address, every instance exactly once |
| Outcomes.RecoveredFollower | internal/vshard/orchestrator/failover.go:385-398 | whatever fails, a follower's configuration has the leader's checksum exactly when it did before or was reached; the leader is untouched |
| Outcomes.UnhinderedMeansAllConfirmed | internal/vshard/orchestrator/failover.go:355-401 | if none is blocked, the hooks pass and all requests succeed, every inconsistent follower was told and confirmed |
| Outcomes.CoMasterRecoveryConverges | internal/vshard/orchestrator/failover.go:347-405 | after a fully confirmed co-master recovery no later analysis finds co-masters or inconsistent configurations, provided no record hides a difference |
| Outcomes.CoMastersReturnIff | internal/vshard/orchestrator/failover.go:358-360 | otherwise it finds them again exactly if a follower polled now had hidden a difference behind an old checksum |
| Snapshots.CopySet | internal/vshard/replicaset.go:27-37 | equal content behind a fresh array |
| Snapshots.Copy | internal/vshard/snapshot.go:38-57 | equal content, no shared array |
| Snapshots.FindSet | internal/vshard/snapshot.go:59-77 | the first record of the set, sharing its array |
| Snapshots.UpdatePriorities | internal/vshard/snapshot.go:79-93 | every instance gets its entry or 0, and nothing else changes |
| Snapshots.ParsedTopology | internal/vshard/cluster.go:410-425 | the first instance with the master's UUID, and no other, gets the master's address |
| SetComparison.StringLessIsTotal | internal/vshard/replicaset.go:63-67 | byte-wise order tells any two different UUIDs apart |
| SetComparison.StringLessMeans | internal/vshard/replicaset.go:63-67 | a string is less if it is a proper prefix or has the lesser character at the first difference |
| SetComparison.SameGraphIsSameElementwise | internal/vshard/replicaset.go:51-58 | sorted lists that are equal as maps agree element by element |
| SetComparison.SameAs | internal/vshard/replicaset.go:39-61 | true exactly when the records agree as UUID-indexed maps on the compared fields; both lists keep their instances |
| SetComparison.SameSetsMeans | internal/vshard/instance.go:184-192 | which is: same header and size, and every instance agrees with one of the other record on the compared fields |
| SetComparison.SameSetsIsAnEquivalence | internal/vshard/replicaset.go:39-61 | the comparison is an equivalence, blind to the order of either list |
| Races.SwapsKeepInstancesIff | internal/vshard/replicaset.go:63-67 | two swaps of one array keep all instances in every interleaving if and only if they share no position |
| Races.CopyDuringSwapIff | internal/vshard/cluster.go:278-282 | a copy taken during a swap sees all instances unless one is overwritten and not yet put back |
| Worlds.CreatedNeverDecreases | internal/vshard/cluster.go:378-387 | in every interleaving the creation time of the committed snapshot never decreases |
| Worlds.PrioritiesAreTheLastSet | internal/vshard/cluster.go:144-148 | in every interleaving the priorities in force are the last ones set, for every committed instance |
| Worlds.RunsDoNotInterfere | internal/vshard/cluster.go:278-282 | no step of another discovery, nor an update of the priorities, changes what a discovery has found |
| Worlds.CommitReplacesIff | internal/vshard/cluster.go:378-387 | a discovery put together no earlier than the committed snapshot replaces it by what it found; an earlier one changes nothing |
| Worlds.FallBackTakesTheCommittedSet | internal/vshard/cluster.go:331-351 | a set that cannot be read is taken from the snapshot committed at the beginning, under the master the router names now |
| Worlds.OnlyCommitsChangeSets | internal/vshard/cluster.go:390-395 | before a commit committed sets change in the order of their instances only |
| Worlds.ValidityIsTheLastPoll | internal/vshard/cluster.go:442-473 | in every interleaving a committed instance that was polled is valid exactly if its last poll succeeded |
| Discovery.Cluster.constructor | internal/vshard/cluster.go:106-134 | a new cluster starts the machine with nothing found |
| Discovery.Cluster.SetPriorities | internal/vshard/cluster.go:144-148 | the committed sets get the priorities, as the machine does it |
| Discovery.Cluster.Begin | internal/vshard/cluster.go:278-282 | a discovery works on a copy that shares nothing and holds the same |
| Discovery.Task.FoundTopology | internal/vshard/cluster.go:400-426 | a freshly read topology is added, in an array of its own |
| Discovery.Task.FallBack | internal/vshard/cluster.go:331-340 | the first record of the set in this discovery's own copy is added, array and all |
| Discovery.DiscoverInstance | internal/vshard/cluster.go:442-473 | a failed poll only marks the instance invalid; a successful one marks it valid and takes over the reported fields; nothing else of it changes |
| Discovery.Cluster.LogDiscovered | internal/vshard/cluster.go:390-398 | the comparison answers whether the set is as before, and puts both records in the order of their UUIDs and does nothing else, in one step |
| Discovery.Cluster.Commit | internal/vshard/cluster.go:378-387 | the snapshot is replaced, under the priorities in force, unless that would move its creation back |
| Discovery.Cluster.Instances | internal/vshard/cluster.go:216-226 | all committed instances in order |
| Discovery.Cluster.FindInstance | internal/vshard/cluster.go:228-243 | the first committed record with the UUID, or the zero record |
| Discovery.Advance | internal/vshard/cluster.go:270-388 | every step of a discovery over arrays does what the machine over values does |
| Discovery.Interleave | internal/vshard/cluster.go:270-388 | so does every interleaving of any number of discoveries with updates of the priorities |
| Templates.ReplacingFills | internal/vshard/orchestrator/hook.go:142-156 | replacing one placeholder in a rendered template fills exactly its holes |
| Templates.InTurnIsAtOnce | internal/vshard/orchestrator/hook.go:142-156 | replacing in turn equals substituting at once when every literal brace and value shows that no placeholder starts there |
| Templates.InTurnIsAtOnceIff | internal/vshard/orchestrator/hook.go:142-156 | with brace-free values replacing in turn equals substituting at once if and only if each placeholder stands in holes only by its turn |
| Templates.GenerateRecoveryScript | internal/vshard/orchestrator/failover.go:458-463 | the script is the template with both placeholders replaced in turn |
| Templates.ScriptHoles | internal/vshard/orchestrator/failover.go:458-463 | the set's UUID goes where the template has {set_uuid}, the new master's where it has {new_master_uuid} |
| Templates.ScriptIsFilledAtOnce | internal/vshard/orchestrator/failover.go:458-463 | which is both UUIDs put in at once |
| Hooks.PrepareCommand | internal/vshard/orchestrator/hook.go:133-159 | trims the command, recognises an asynchronous one, and replaces the placeholders in turn |
| Hooks.TrimmedMeans | internal/vshard/orchestrator/hook.go:134 | white space is taken away at both ends, and all of it |
| Hooks.StrippedMeans | internal/vshard/orchestrator/hook.go:135-138 | exactly the leading ampersands are stripped |
| Hooks.PlaceholdersMean | internal/vshard/orchestrator/hook.go:142-156 | what each placeholder stands for |
| Hooks.DecimalReadsBack | internal/vshard/orchestrator/hook.go:147-150 | counts are written in decimal without leading zeros |
| Hooks.CommandIsFilledAtOnce | internal/vshard/orchestrator/hook.go:142-156 | for brace-free values that is the template with all values put in at once |
| Hooks.CommandIsFilledAtOnceIff | internal/vshard/orchestrator/hook.go:142-156 | for any command that is so exactly when each placeholder stands in holes only by its turn |
| Hooks.OpenBraceBeforeHole | internal/vshard/orchestrator/hook.go:145-151 | the command {{failureCluster}} on a cluster called isSuccessful is a case where it is not |
| Hooks.SuccessorStaysOpen | internal/vshard/orchestrator/hook.go:153-156 | after an unsuccessful recovery the successor placeholders stay as they are |
| Hooks.ExecuteProcesses | internal/vshard/orchestrator/hook.go:69-112 | the error is the first synchronous failure; it stops the later hooks only on request |

## Left out

- Protocol.FlagsAreInitialOrConfirmed: a co-master recovery names the leader of the analysed set without asking it, so such flags are a case of their own; the case of a promotion offered at an address is narrowed to the candidate's own node by FlagsElsewhereAreConfirmed.
- Failovers.Failover.Serve: whether the cleanup ticker ever fires is open, as the source stops it when `Serve` returns.
- Sorting.InsertionSort: Go switches to other algorithms for longer slices; over an intransitive comparison those may order differently, so adjacent order is claimed for insertion sort only.
- Quorum.ChooseMasterSmart: a missing upstream among several eligible followers can crash the source; the model requires upstreams there.
- Fleets.ExecWithRetries: a script that fails between applying the vshard configuration and setting read-only is not modelled.
- Discovery.Cluster.LogDiscovered: counts the unlocked comparison as one step; overlapping comparisons are covered by `Races` for two swaps only.
- Discovery.Advance: performs that comparison as one step, too.
- Discovery.Interleave: interleaves whole steps, of which the comparison is one.
- Discovery.Task.FoundTopology: starts from parsed instances; the response parser is not part of this model.
- The analysed set is a value: an update of the priorities that arrives between analysis and election through a shared array is not modelled.
- Setting and clearing the flags for read-only mode and for an active recovery: two assignments each; the guards that read them are modelled.
- The monitor's timers and its skipping of an already analysed snapshot: one comparison.
- vshard's and Tarantool's own behaviour, networking, the connection pool, shell execution and environment variables, the HTTP API, storage, configuration files, logging and metrics.
- Router details beyond their addresses: the engine only reads addresses.
- Infinite and undefined idles: idles are real numbers.
- Forced cleanup: only the repository's own tests call it.
