# Tunnet in Dafny

A model of the parts of the Tunnet mesh VPN whose behaviour is hardest to see
from the code, with proofs of what they promise. `dafny verify dfyconfig.toml`
checks all of it.

**Outbound scheduler** (`Qos*.dfy`). One peer's three queues, the `running` flag,
the notify permit, and any number of enqueuers and sender tasks form a transition
system in which every step is one lock acquisition or one atomic operation, so a
run is an arbitrary interleaving. `QosHandshake` and `QosProgress` show that
nothing queued is ever forgotten, `QosWakeup` that it never waits for a timeout
either, `QosConservation` that nothing is lost or duplicated, `QosEviction` who
makes room for whom, `QosServiceBound` and `QosFairness` how soon and in what
proportion packets leave, `QosTermination` that visits end and packets leave
within a bounded number of one sender's own steps whatever the others do,
`QosConduct` how calls and senders behave by themselves, `QosScheduler` that all
this survives the removal of map entries under live states. `QosQueues` holds the
drop policy and the deficit round as methods, and `QosRound` shows that an
undisturbed sender of the transition system does exactly that round.

**Route reconciler** (`Route*.dfy`). `RouteEngine` is the class that drives a
kernel table it does not control, over a backend (`RouteBackend`) that may answer
any call with a failure, after which that one route may or may not have changed.
A kernel may also be strict, refusing to add what it has. The backend keeps a
ghost trace of calls; `RouteSteps` and `RoutePlan` relate the trace to what was
tracked, wanted and present. The kernel stores a destination without its host
bits, which is why several statements ask that wanted networks have none, and why
that condition is shown to be exact.

**Audit chain** (`Audit*.dfy`). Events are collected by workers, split by
organisation, chained, stored and read back by a verifier. The MAC, JSON and time
rendering and the `inet`, `uuid` and `jsonb` conversions are arbitrary functions.
Where injectivity of the MAC would be needed, the theorems name the two texts of
the chain at hand that would have to collide. `AuditSystem` is the transition
system of any number of workers over one table at transaction granularity;
`AuditWorker` is the loop of one worker, proved to take steps of that system.
`AuditMeaning` writes the frozen formats out.

**Access rules** (`Acl*.dfy`). The evaluator sorts each phase's rules and takes
the first match; its specification neither sorts nor looks at order except to
name the rule it reports. IPv4, IPv6 and flow evaluation share one record with an
address of either family, since the three differ in nothing else. `AclMeaning`
gives the decision on every flow from the fields of rules and flows alone.

**Core update** (`Update*.dfy`). `UpdateProtocol` is the life of an update from
activation through boots and the health timer; its steps carry what the file
operations did. `UpdateDisk` is the code over a disk where any operation may
fail, proved to take those steps. Times are in milliseconds. The install time is
recorded in whole seconds, as in the source.

**Multicast host and SSH configuration** (`Multicast.dfy`, `SshConfig.dfy`). The
epoch-stamped binding of the platform host as a class whose invariant every
operation keeps, and the editor of one marked block in a text file.

Where the code does less than one would hope, the model follows the code and
states exactly when the hoped-for property holds:

- A wanted network with host bits is never found in the kernel again. Each
  further reconcile adds it anew, and deletes its live route first if that lies on
  the tunnel or shares a wanted destination (`ReconcileTwice`, `HostBitsChurn`).
  If it does not, as with a split-tunnel network going around the tunnel, and the
  kernel refuses to add what it has, then every later reconcile returns an error
  (`ReconcileAgain`, `SplitNetIsStubborn`); `StuckDecides`, which a reconcile
  ensures, makes the condition exact.
- Two tracked routes of one identity can leave nothing tracked and an error
  returned (`ErrorWithNothingTracked`); with distinct identities, clearing answers
  Ok if and only if nothing is tracked.
- A call never makes room for itself by evicting from a lower class. It is
  accepted after all only if others took more packets out of its queue than were
  put in, by sending or by evicting on their own behalf
  (`RetryAcceptedIffOthersMadeRoom`, `AnotherCallCanMakeRoom`).
- Packets without bytes could keep a visit open for ever (`VisitNeedNotEnd`);
  packets with bytes cannot (`VisitTerminates`).
- A separator in a free-text field makes the canonical text ambiguous
  (`PipesAreAmbiguous`), and a hashed field that storage rewrites makes the stored
  chain fail verification (`LedgerVerifiesIffIntact`).
- The comment at `crates/tunnet-common/src/policy.rs:366-367` says only `Any` and
  CIDR selectors match an external side; an empty endpoint id or network name
  does too (`ExternalMatches`). The ICMP policy covers ICMP but not ICMPv6
  (`IcmpGateIsForIcmpOnly`). The comment at line 475 says a merge
  preserves rule scopes; the code overwrites them, which can allow what the
  network's bundle denied (`WhenMergingWidens`). A device that loses posture may be
  allowed what it was denied before (`LosingPosture`).
- An update may be accepted up to one second early because the fraction of the
  install time is dropped (`DeadlineDropsFraction`), and earlier still when the
  same version is activated again in place under a running timer
  (`StaleTimerAccepts`). A further activation during the window ends the watch over
  an undecided update even if it fails: undone without a hitch, it removes the
  marker and leaves the undecided unit in place (`FailedActivationAcceptsEarly`),
  and one that gets no further than clearing the previous directory leaves nothing
  to restore (`LostPreviousUnitStays`). `ActivationKeepsGuardIff` says for every
  outcome exactly when the undecided update stays guarded, `WatchEndsEarlyOnlyBy`
  when it stays watched.
- A begin marker without an end marker makes the second edit swallow the text
  after it (`DanglingBeginSwallows`). The program's own block can be found again
  unless one of the paths in it holds the end marker (`WrittenBlockIsWellFormedIff`).

## Model

| member | source | states |
|---|---|---|
| `QosHandshake.NoPacketIsStranded` | crates/tunnet-agent/src/qos.rs:200-306 | in every interleaving of any number of enqueuers and senders, a class with queued packets has a sender that will inspect it again, or an enqueuer that pushed and has yet to swap `running` or start a sender |
| `QosHandshake.RunKeepsHandshake` | crates/tunnet-agent/src/qos.rs:200-306 | the invariant behind it: `running` implies a live responsible sender or one about to start, and every non-empty class is attended; kept by every run |
| `QosProgress.SenderAloneProgresses` | crates/tunnet-agent/src/qos.rs:231-306 | a sender that will look at a non-empty class takes its oldest packet after some number of its own steps, whatever its deficit and program point |
| `QosProgress.QueuedPacketsStayServiceable` | crates/tunnet-agent/src/qos.rs:200-306 | from every reachable state some continuation without arrivals ends with a sender having taken the oldest packet of any given non-empty class, none of it evicted |
| `QosWakeup.NoWakeUpIsLost` | crates/tunnet-agent/src/qos.rs:217-229 | in every interleaving a class with queued packets has a sender that reaches it before it waits or returns, a call about to start or notify a sender, or the permit set and a sender to take it |
| `QosWakeup.RunKeepsAlert` | crates/tunnet-agent/src/qos.rs:217-306 | the invariant behind it, kept by every run |
| `QosWakeup.TimeoutIsNotNeeded` | crates/tunnet-agent/src/qos.rs:283-304 | from every reachable state some continuation without arrivals and without any wait timing out sends the oldest packet of any given non-empty class |
| `QosConservation.PacketsAreConserved` | crates/tunnet-agent/src/qos.rs:144-178 | over every run and per class: accepted packets are those sent or evicted, in that order, followed by those queued; each call is logged once if accepted and never otherwise; lengths stay within 64, 256 and 512 |
| `QosConservation.RunKeepsLedger` | crates/tunnet-agent/src/qos.rs:144-281 | the inductive form of that balance, with distinct call names and the program point of every enqueuer |
| `QosAccounts.StepMoves` | crates/tunnet-agent/src/qos.rs:239-281 | any step of anyone leaves a sender's account of a class alone, zeroes it on an empty queue, grants one quantum, pays for exactly the head packet, or ends the visit because the head is too dear or the queue empty |
| `QosServiceBound.ServedWithin` | crates/tunnet-agent/src/qos.rs:239-281 | a packet with S bytes up to and including itself has left once one sender finished k visits with k quanta covering S, under any interleaving; that visits finish is `VisitTerminates` |
| `QosServiceBound.EveryPacketLeavesWithin` | crates/tunnet-agent/src/qos.rs:20-27 | with packets up to the MTU every queued packet leaves within 8, 64 or 512 finished visits for latency, normal and bulk |
| `QosTermination.VisitTerminates` | crates/tunnet-agent/src/qos.rs:253-281 | with packets that have bytes, a sender that has since run more often than its deficit had bytes has finished the visit it was in, under any interleaving |
| `QosTermination.VisitNeedNotEnd` | crates/tunnet-agent/src/qos.rs:253-281 | with empty packets a visit can be open after any number of its sender's steps |
| `QosTermination.AttendedPacketLeaves` | crates/tunnet-agent/src/qos.rs:231-306 | whatever all others do, a queued packet has left once a sender attending its class has run more often than a bound given by its deficits, its place in the loop and the bytes queued up to the packet |
| `QosEviction.EvictionsServeEarlierClasses` | crates/tunnet-agent/src/qos.rs:152-176 | in every run a packet is evicted only for a call of a class served before its own, and latency never |
| `QosEviction.RetryAcceptedIffOthersMadeRoom` | crates/tunnet-agent/src/qos.rs:144-178 | in every run a call that found its queue full is accepted on a retry if and only if more packets have left the queue since than joined it, each sent or evicted by another call |
| `QosEviction.AnotherCallMakesRoom` | crates/tunnet-agent/src/qos.rs:152-176 | a normal call that would be dropped is accepted after a latency call's eviction |
| `QosEviction.AnotherCallCanMakeRoom` | crates/tunnet-agent/src/qos.rs:144-178 | a run of calls alone, without any sender, that leads there |
| `QosFairness.BackloggedClassesShareFairly` | crates/tunnet-agent/src/qos.rs:239-281 | between two rounds, while two classes stay backlogged, the bytes one sender sends for them differ from the ratios 2:1 (latency to normal), 8:1 (latency to bulk) and 4:1 (normal to bulk) by a constant times the largest packet, with anything interleaved |
| `QosFairness.BackloggedClassSendsItsQuanta` | crates/tunnet-agent/src/qos.rs:25-27 | and each sends 8, 4 or 1 times the MTU a round, up to one largest packet |
| `QosFairness.RunStaysInStep` | crates/tunnet-agent/src/qos.rs:239-251 | a sender's visit counts of the three classes differ by at most its position in the round |
| `QosFairness.RunStaysSquare` | crates/tunnet-agent/src/qos.rs:247-264 | over a backlogged window quanta granted equal bytes sent plus the change of deficit, and the deficit stays below the largest packet between visits |
| `QosScheduler.StatesAreRuns` | crates/tunnet-agent/src/qos.rs:200-229 | however map entries are created and removed, every peer state ever created goes through a run of the per-peer system |
| `QosScheduler.SubmitLands` | crates/tunnet-agent/src/qos.rs:200-207 | after any run a submitted packet arrives as one call at the state its peer's entry names, a new empty one exactly when there was none, and touches nothing else |
| `QosScheduler.RemovalTakesOneEntry` | crates/tunnet-agent/src/qos.rs:219-225 | a returned sender takes its peer's entry, whichever state that names, and nothing else |
| `QosScheduler.NoPacketIsStrandedAnywhere` | crates/tunnet-agent/src/qos.rs:200-229 | no packet is stranded in a state whose entry was removed or replaced under it |
| `QosScheduler.TimeoutIsNotNeededAnywhere` | crates/tunnet-agent/src/qos.rs:200-229 | nor does one there depend on a timeout |
| `QosQueues.Affordable` | crates/tunnet-agent/src/qos.rs:252-264 | the number of packets a budget pays for: they fit, and one more would not |
| `QosQueues.AffordableIsUnique` | crates/tunnet-agent/src/qos.rs:252-264 | no other number has that property |
| `QosQueues.PeerState.TryEnqueue` | crates/tunnet-agent/src/qos.rs:144-178 | with others doing anything between its locks: accepted at once with fewer than 64, 256 or 512 packets queued; if full, only if somebody else takes a packet out of that queue; left alone, a full queue means the packet is lost with the ones evicted for it |
| `QosQueues.DrainQueue` | crates/tunnet-agent/src/qos.rs:332-340 | sends exactly the affordable prefix and leaves the unspent deficit |
| `QosQueues.PeerState.VisitClass` | crates/tunnet-agent/src/qos.rs:327-340 | an empty queue zeroes the deficit; otherwise deficit and quantum pay for the prefix sent, other classes untouched |
| `QosQueues.PeerState.DrrRound` | crates/tunnet-agent/src/qos.rs:312-342 | each class in turn sends the longest prefix its deficit and quantum pay for; in bytes, with what was left, at most 8, 4 or 1 times the MTU and no less than the next packet short of it, the remainder being carried over unless the queue was empty; latency before normal before bulk |
| `QosRound.SoloVisit` | crates/tunnet-agent/src/qos.rs:239-281 | a sender of the transition system left alone for one visit leaves queue and deficit as the method does |
| `QosRound.SoloRound` | crates/tunnet-agent/src/qos.rs:239-284 | and for a whole round of its own steps only, after which it looks whether all is empty |
| `QosConduct.FirstTryAcceptedIff` | crates/tunnet-agent/src/qos.rs:144-151 | at its first try a call gets in if and only if its queue holds fewer than 64, 256 or 512 packets |
| `QosConduct.SoloCallDrops` | crates/tunnet-agent/src/qos.rs:144-178 | a call nobody interferes with, its queue full, drops its packet and evicts what the queue method says, in five steps |
| `QosConduct.BulkGoesFirst` | crates/tunnet-agent/src/qos.rs:153-176 | in every run a call turns to the normal queue only after it tried the bulk queue |
| `QosConduct.NoSecondSender` | crates/tunnet-agent/src/qos.rs:216-228 | while `running` stays set no further sender is started, whatever calls come in |
| `QosConduct.WaitEndsOnlyBy` | crates/tunnet-agent/src/qos.rs:284-288 | a wait ends by timing out or by taking the permit, which it uses up |
| `QosConduct.LeavesOnlyAfterTimeout` | crates/tunnet-agent/src/qos.rs:283-304 | in every run a sender is on its way out only after one of its waits timed out |
| `QosConduct.IdleSenderReturns` | crates/tunnet-agent/src/qos.rs:283-304 | left idle, it gives `running` up and returns, within eleven steps of a wait |
| `RouteTypes.SortByRankSorts` | crates/tunnet-agent/src/system_routes.rs:55-66 | ordering by add or delete rank is sorted and keeps every route with its multiplicity |
| `RouteTypes.Kinds` | crates/tunnet-agent/src/system_routes.rs:293-334 | the set filled loop by loop is the declared set of tunnel and bypass routes |
| `RouteTypes.WantedThroughTunnel` | crates/tunnet-agent/src/system_routes.rs:293-364 | a network is wanted through the tunnel if and only if it is a subnet, a peer, an included network, or the default network for an exit node with the underlay and its gateway known |
| `RouteTypes.WantedExactly` | crates/tunnet-agent/src/system_routes.rs:286-368 | which routes are wanted, in full: those, and around an exit node's tunnel, with the gateway known, excluded networks, 10/8, 172.16/12 and 192.168/16 if the local network is allowed, and underlay hosts; with their gateway, interface and name |
| `RouteTypes.EscapesAreWanted` | crates/tunnet-agent/src/system_routes.rs:293-364 | with an exit node every underlay host has an escape route among the wanted ones |
| `RouteSteps.DeleteStep` | crates/tunnet-agent/src/system_routes.rs:495-518 | deleting one more route keeps the bookkeeping of the deletion pass, whatever the backend answers |
| `RouteSteps.AddStep` | crates/tunnet-agent/src/system_routes.rs:529-563 | the same for the addition pass: an added default route found every escape in the table, no error means every route is in and tracked, and without failures there is exactly one addition per route |
| `RoutePlan.CourseIsSafe` | crates/tunnet-agent/src/system_routes.rs:461-563 | under any failures only unwanted routes that are tracked, on-link on the tunnel or to a wanted destination are deleted, only wanted ones added, all others stay, and the default tunnel route is added only with every escape present |
| `RoutePlan.CourseInOrder` | crates/tunnet-agent/src/system_routes.rs:50-66 | additions go from host routes around the tunnel over other routes around it and networks through it to its default route, deletions the other way |
| `RoutePlan.CourseIsConsistent` | crates/tunnet-agent/src/system_routes.rs:461-563 | with every listing successful tracked routes stay within the kernel table after each handled route |
| `RoutePlan.CourseReachesTarget` | crates/tunnet-agent/src/system_routes.rs:418-570 | a course that raises no error, also one whose failed calls turned out to have taken effect, ends at the target with exactly the wanted identities tracked |
| `RoutePlan.CourseMended` | crates/tunnet-agent/src/system_routes.rs:495-563 | as many errors are raised as there are failed calls that the next listing does not show to have taken effect |
| `RoutePlan.StuckCourse` | crates/tunnet-agent/src/system_routes.rs:523-563 | a kernel that refuses to add what it has makes a reconcile fail over a wanted network whose bare network it holds and nobody clears away, and leaves it so |
| `RoutePlan.FreeCourse` | crates/tunnet-agent/src/system_routes.rs:523-563 | with no such network, and nothing else failing, nothing fails |
| `RoutePlan.TargetShape` | crates/tunnet-agent/src/system_routes.rs:469-563 | a wanted destination, and the tunnel on-link, has exactly the wanted routes without host bits; tracked routes are gone unless wanted; everything else is as before |
| `RoutePlan.InSyncCourseIsIdle` | crates/tunnet-agent/src/system_routes.rs:461-563 | a table already in sync gets listings only, also if one of them fails |
| `RoutePlan.UndisturbedCalls` | crates/tunnet-agent/src/system_routes.rs:469-563 | without failures exactly the doomed routes are deleted and exactly the missing ones added |
| `RoutePlan.IdleIffInSync` | crates/tunnet-agent/src/system_routes.rs:458-563 | without failures a reconcile only lists if and only if kernel and wanted routes agree |
| `RoutePlan.AgainFromTarget` | crates/tunnet-agent/src/system_routes.rs:458-563 | from a table just reconciled, exactly the wanted networks with host bits are missing and exactly their kernel routes on the tunnel or to a wanted destination are doomed |
| `RouteEngine.Engine.DeleteOne` | crates/tunnet-agent/src/system_routes.rs:497-517 | a route is forgotten exactly when its deletion is confirmed by the answer or by a fresh listing |
| `RouteEngine.Engine.AddOne` | crates/tunnet-agent/src/system_routes.rs:538-562 | a route is tracked exactly when added, or found under its identity by a fresh listing, which is made exactly after an already-exists answer; an error is the one the backend gave |
| `RouteEngine.Engine.Adopt` | crates/tunnet-agent/src/system_routes.rs:458-467 | tracked routes become those still listed plus the wanted ones listed |
| `RouteEngine.Engine.PlanDeletes` | crates/tunnet-agent/src/system_routes.rs:469-492 | the identities to delete are exactly the doomed ones in the listing |
| `RouteEngine.Engine.ReconcileNative` | crates/tunnet-agent/src/system_routes.rs:418-570 | for one reconcile from any tracked set, any table and any failures: all of the above; whenever a default tunnel route is added the wanted host routes, with an exit node those of all underlay hosts, are in; Ok, one error or several as both passes could list and none, one or more failed calls were not shown to have taken effect; Ok means the target is reached with exactly the wanted routes tracked; on a strict kernel a stuck route means an error and stays stuck, and if nothing else fails only a stuck route does; a missing interface is an error |
| `RouteEngine.Engine.Clear` | crates/tunnet-agent/src/system_routes.rs:572-600 | deletes only tracked routes, by rank, and adds none; Ok if and only if each failed deletion was followed by a listing without the route, and, identities being distinct, if and only if nothing is left tracked; keeps tracked routes within the table; without failures removes exactly the tracked ones, never a gateway route before the tunnel's default route |
| `RouteEngine.ErrorWithNothingTracked` | crates/tunnet-agent/src/system_routes.rs:572-600 | two tracked routes of one identity: a failed and a successful deletion leave nothing tracked and an error |
| `RouteEngine.TeardownOrder` | crates/tunnet-agent/src/system_routes.rs:55-70 | in no prefix of the deletion order is a tracked gateway route gone while a tracked default tunnel route is left |
| `RouteTheorems.SettlesIffCanonical` | crates/tunnet-agent/src/system_routes.rs:205-262 | the table a reconcile leaves is in sync if and only if wanted networks carry no host bits |
| `RouteTheorems.ReconcileTwice` | crates/tunnet-agent/src/system_routes.rs:418-570 | after a failure-free reconcile a second one only lists if and only if no wanted network has host bits; otherwise it adds exactly those anew and deletes exactly their live routes on the tunnel or to a wanted destination |
| `RouteTheorems.ReconcileAgain` | crates/tunnet-agent/src/system_routes.rs:418-570 | on such a kernel an Ok is followed by errors in all later reconciles if a wanted network with host bits has a live route that the next one does not clear away first |
| `RouteTheorems.SplitNetIsStubborn` | crates/tunnet-agent/src/system_routes.rs:309-330 | a split-tunnel network with host bits around an exit node's tunnel is one, if its bare network is no wanted destination |
| `RouteTheorems.StubbornInstance` | crates/tunnet-agent/src/system_routes.rs:309-330 | 10.0.0.1/24, for instance |
| `RouteTheorems.HostBitsChurn` | crates/tunnet-agent/src/system_routes.rs:205-262 | one tunnel network with host bits: its live route is deleted and it is added again, each time |
| `RouteTheorems.HostBitsInstance` | crates/tunnet-agent/src/system_routes.rs:205-262 | 10.0.0.1/24 is such a network |
| `RouteTheorems.DefaultRouteIff` | crates/tunnet-agent/src/system_routes.rs:435-446 | after an undisturbed reconcile the tunnel has a default route if and only if an exit node is in use and the underlay gateway known, or an empty prefix is among subnets, peer routes or included networks, whatever was there before |
| `RouteTheorems.NoGatewayNoDefault` | crates/tunnet-agent/src/system_routes.rs:435-446 | so with an exit node but no gateway, only if an empty prefix is among subnets or peer routes |
| `AuditText.PeelFields` | crates/tunnet-audit/src/chain.rs:19-46 | leading fields without separators can be read back from the joined text |
| `AuditText.LastPipe` | crates/tunnet-audit/src/chain.rs:19-46 | the text after the last separator is unambiguous |
| `AuditText.HexInjective` | crates/tunnet-audit/src/chain.rs:48-52 | equal hexadecimal texts come from equal bytes |
| `AuditText.DecimalRoundTrip` | crates/tunnet-audit/src/chain.rs:19-46 | decimal rendering can be read back |
| `AuditMeaning.DecimalIsUsual` | crates/tunnet-audit/src/chain.rs:22-29 | decimal text has digits only and no leading zero |
| `AuditMeaning.HexIsUsual` | crates/tunnet-audit/src/chain.rs:48-52 | two lower-case digits a byte, the high one first |
| `AuditMeaning.GenesisIs` | crates/tunnet-audit/src/chain.rs:12 | a chain starts from sixty-four zeros |
| `AuditMeaning.CanonicalTextIs` | crates/tunnet-audit/src/chain.rs:19-46 | the hashed text is these twenty-one fields in this order with a bar between any two |
| `AuditChain.ChainEvents` | crates/tunnet-audit/src/chain.rs:72-92 | the slice is rewritten in place to the chained batch |
| `AuditChain.ChainedAt` | crates/tunnet-audit/src/chain.rs:72-92 | event i is numbered start + 1 + i, linked to the hash of its predecessor, and the last hash is the tip |
| `AuditMeaning.ChainedExactly` | crates/tunnet-audit/src/chain.rs:73-93 | each event gets its number, its predecessor's hash, its own hash, schema version 1 and a time cut to whole seconds, and nothing else changes |
| `AuditChain.ChainedConcat` | crates/tunnet-audit/src/chain.rs:72-92 | cutting a batch in two and chaining the parts in turn makes no difference |
| `AuditChain.CheckRow` | crates/tunnet-audit/src/verify.rs:83-148 | reports the first failing check of a row, or that its time cannot be read, which is found out exactly when sequence and link are right |
| `AuditMeaning.FaultMeans` | crates/tunnet-audit/src/verify.rs:86-148 | which of four faults is reported, and when none, exactly |
| `AuditMeaning.RowEventIs` | crates/tunnet-audit/src/verify.rs:98-131 | the event rebuilt from a row has the row's values, numbers by their low bits |
| `AuditChain.VerifyOrgChain` | crates/tunnet-audit/src/verify.rs:81-158 | the report covers the longest verifying prefix, names the first broken row and its first failing check, and is clean if and only if the whole chain verifies; there is none if and only if the first row at fault has an unreadable time |
| `AuditStore.LedgerTip` | crates/tunnet-audit/src/postgres.rs:37-47 | reading back the highest row gives the count and tip hash to continue from, and rows are numbered from 1 without gaps |
| `AuditMeaning.TipIsHighest` | crates/tunnet-audit/src/postgres.rs:37-48 | a flush goes on from the row with the highest number, or from the start of a chain |
| `AuditMeaning.StoredRowIs` | crates/tunnet-audit/src/postgres.rs:50-112 | what each column holds, and that only a rejected address makes an insert fail |
| `AuditStore.FlushExtendsLedger` | crates/tunnet-audit/src/postgres.rs:20-113 | flushing a batch on top of stored events gives what one flush of all of them would have |
| `AuditStore.RebuiltFields` | crates/tunnet-audit/src/verify.rs:98-131 | the event rebuilt from a row has every hashed field of the stamped one except the stored address, network id and metadata |
| `AuditStore.LedgerVerifies` | crates/tunnet-audit/src/verify.rs:81-158 | events whose hashed fields survive storage are all stored and their chain verifies end to end |
| `AuditTip.CanonicalInjective` | crates/tunnet-audit/src/chain.rs:19-46 | with no separator in free text the canonical text determines every field |
| `AuditTip.PipesAreAmbiguous` | crates/tunnet-audit/src/chain.rs:19-46 | with a separator in any free text some other event has the same canonical text |
| `AuditTip.TipFixesHistory` | crates/tunnet-audit/src/verify.rs:83-158 | two verifying row lists of one organisation with equal last hash have equal length and agree in every hashed value at every position, or two texts hashed for these very rows differ and have the same MAC |
| `AuditTip.LedgerVerifiesIffIntact` | crates/tunnet-audit/src/postgres.rs:49-109 | the stored chain verifies if and only if every event's hashed fields survive storage, or the MAC collides on that event's text as stored and as read back |
| `AuditSystem.RunKeepsInv` | crates/tunnet-audit/src/worker.rs:35-104 | every run of any workers keeps each table equal to the ledger of committed events and accounts for every received one |
| `AuditSystem.RunsStoreTheLedger` | crates/tunnet-audit/src/worker.rs:35-104 | for every run: rows are those of one flush of the committed events, numbered 1..n, and what a worker received is in order what it put into transactions followed by what it holds, a failure dropping one whole group |
| `AuditSystem.RunsVerify` | crates/tunnet-audit/src/worker.rs:35-104 | after every run an organisation's chain verifies if and only if each committed event is intact in that sense |
| `AuditWorker.GroupByOrg` | crates/tunnet-audit/src/worker.rs:67-74 | draining a batch gives one group per organisation in arrival order |
| `AuditWorker.Sink.FlushOrgBatch` | crates/tunnet-audit/src/postgres.rs:20-113 | one transaction reads the tip, chains, inserts row by row and commits; a rejected row or failed commit leaves the table as it was |
| `AuditWorker.AuditWorker.FlushGroups` | crates/tunnet-audit/src/worker.rs:67-92 | the groups are flushed in any order, each as one transaction of the recorded run |
| `AuditWorker.AuditWorker.OnEvent` | crates/tunnet-audit/src/worker.rs:42-49 | an event is batched and a full batch flushed, as the recorded run says |
| `AuditWorker.AuditWorker.Serve` | crates/tunnet-audit/src/worker.rs:35-64 | serving a channel to its end puts every event into exactly one transaction in arrival order per organisation; rows are the ledger of committed events, and of all events if none failed |
| `AclTypes.PrefixIsRange` | crates/tunnet-common/src/policy.rs:443 | an address is in a CIDR if and only if it lies between the network's first and last address |
| `AclMeaning.SelectorsMean` | crates/tunnet-common/src/policy.rs:430-472 | which side of a flow a selector names: ids but for letter case, tags, network names, address blocks, users by marker or tag |
| `AclMeaning.PortsMean` | crates/tunnet-common/src/policy.rs:813-835 | which flows protocol and ports cover: TCP and UDP with a list need a port in one of its ranges, ICMP ignores it, other protocols need it empty |
| `AclTypes.ExternalMatches` | crates/tunnet-common/src/policy.rs:364-450 | which selectors match an external side, in both directions |
| `AclOrder.WinnerIsLeast` | crates/tunnet-common/src/policy.rs:695-716 | the winner exists if and only if some rule matches, and is least by order index, priority and position |
| `AclOrder.LeastIsUnique` | crates/tunnet-common/src/policy.rs:695-716 | no other position is least |
| `AclOrder.StableSortSorts` | crates/tunnet-common/src/policy.rs:699-703 | sorting orders the rules and keeps them all |
| `AclOrder.StableSortIsStable` | crates/tunnet-common/src/policy.rs:699-703 | rules of equal key keep their relative places |
| `AclOrder.FirstOfSortedWins` | crates/tunnet-common/src/policy.rs:695-716 | the first match of the sorted list is the winner of the unsorted one |
| `AclEvaluator.FirstMatchingInPhase` | crates/tunnet-common/src/policy.rs:684-718 | finds the winner among enabled rules of the phase whose posture is met, and remembers the first one it is not met for without overwriting an earlier phase's |
| `AclEvaluator.EvaluatePhases` | crates/tunnet-common/src/policy.rs:630-682 | the verdict is the one defined from the winners of the three phases |
| `AclEvaluator.EvaluateFlow` | crates/tunnet-common/src/policy.rs:619-628 | the ICMP gate and then the phases |
| `AclEvaluator.EvaluateDetailed` | crates/tunnet-common/src/policy.rs:577-617 | at either end the verdict is that of the flow with self and peer as source and destination according to direction |
| `AclMeaning.VerdictIsMeaning` | crates/tunnet-common/src/policy.rs:619-718 | for every bundle and flow action and reason are what the fields of rules and flow say: the ICMP gate, then denies of the organisation, of the network, its allows, then the default |
| `AclMeaning.VerdictReportsFirst` | crates/tunnet-common/src/policy.rs:684-720 | and the rule reported is the first by order index, priority and place in effect, or held back, in the phase that decided |
| `AclMeaning.LoneRuleDecides` | crates/tunnet-common/src/policy.rs:757-835 | one network rule against the opposite default decides exactly the flows it names and covers |
| `AclMeaning.PortRuleInstance` | crates/tunnet-common/src/policy.rs:826-831 | an allow for TCP port 22 alone lets TCP to port 22 pass and nothing else |
| `AclMeaning.PrefixInstance` | crates/tunnet-common/src/policy.rs:430-443 | 10.0.0.0/8 names 10.0.0.0 to 10.255.255.255 |
| `AclTheorems.VerdictIsDecision` | crates/tunnet-common/src/policy.rs:569-594 | action and reason follow from existence alone: organisation deny, network deny, network allow, posture skip, default |
| `AclTheorems.VerdictNamesLeast` | crates/tunnet-common/src/policy.rs:630-718 | a phase's verdict reports the rule in force that is least by order index, priority and position |
| `AclTheorems.SkipNamesLeast` | crates/tunnet-common/src/policy.rs:671-716 | a posture skip reports the least rule skipped in the first phase that skipped one |
| `AclTheorems.LosingPosture` | crates/tunnet-common/src/policy.rs:705-713 | exactly when losing posture turns a deny into an allow, and an allow into a deny |
| `AclTheorems.ListingDoesNotMatter` | crates/tunnet-common/src/policy.rs:630-718 | action and reason are the same for every permutation of the rules |
| `AclTheorems.ListingDoesNotMatterAtAll` | crates/tunnet-common/src/policy.rs:630-718 | with distinct keys so is the reported rule |
| `AclTheorems.BothEndsAgree` | crates/tunnet-common/src/policy.rs:577-628 | a sender's outbound, the receiver's inbound and the flow's verdict are equal for mirrored contexts |
| `AclTheorems.IcmpGateIsForIcmpOnly` | crates/tunnet-common/src/policy.rs:582-588 | the ICMP policy has no effect on other protocols, and rules none on ICMP unless it defers to them |
| `AclMerge.MergePolicyBundles` | crates/tunnet-common/src/policy.rs:476-516 | rules are rescoped and concatenated, the newer version kept, the network's default and ICMP policy taken |
| `AclMerge.OrganisationOnlyTightens` | crates/tunnet-common/src/policy.rs:476-516 | an organisation deny in force settles the merged verdict; otherwise the action is the network's, and the whole verdict is if and only if no organisation deny was skipped for posture or a network rule is in force |
| `AclMerge.NetworkScopedIsUnchanged` | crates/tunnet-common/src/policy.rs:483-486 | a bundle of network-scoped rules alone is what the merge reads it as |
| `AclMerge.WhenMergingWidens` | crates/tunnet-common/src/policy.rs:483-486 | exactly when merging allows what the network's bundle as delivered denies |
| `AclMerge.MergingCanWiden` | crates/tunnet-common/src/policy.rs:483-486 | one such bundle |
| `AclMerge.MergingNeverWidens` | crates/tunnet-common/src/policy.rs:476-516 | never for a bundle of network-scoped rules |
| `AclMerge.OnlyOrganisationDeniesCount` | crates/tunnet-common/src/policy.rs:476-516 | organisation bundles with the same active denies merge to the same verdicts, whatever their allows, defaults and ICMP policy |
| `UpdateProtocol.WindowEndsAtDeadline` | crates/tunnet-agent/src/auto_update.rs:41-50 | the whole-second comparison is a deadline in milliseconds |
| `UpdateTheorems.AcceptedOnlyAfterWindow` | crates/tunnet-agent/src/auto_update.rs:23-104 | in every run, whatever fails, a boot or timer accepts an update only once its window has passed since the recorded time, unless a clock ran backwards or a stale timer survived |
| `UpdateTheorems.BootOutcome` | crates/tunnet-agent/src/auto_update.rs:23-85 | without failures a boot of another version or interface, or a second one within the window, puts the previous unit back and removes marker and unit; one after the window removes both and keeps the update; the first within it is counted and sets a timer for the window's end |
| `UpdateTheorems.TimerOutcome` | crates/tunnet-agent/src/auto_update.rs:68-104 | without failures a due timer removes marker and previous unit and keeps the update, unless the marker is gone or about another version |
| `UpdateTheorems.AcceptanceDoes` | crates/tunnet-agent/src/auto_update.rs:87-104 | accepting leaves the files alone, whatever fails, and removes marker and previous unit unless that fails |
| `UpdateTheorems.AcceptanceIsFinal` | crates/tunnet-agent/src/auto_update.rs:23-104 | in every run, once an update is accepted without a failure, no boot and no timer touches its files until the next activation |
| `UpdateTheorems.WatchEndsEarlyOnlyBy` | crates/tunnet-agent/src/core_update.rs:305-356 | in every run, activations included, the watch over an undecided update ends before its deadline only by a boot that turns it down or an activation that went ahead, and exactly which outcomes of one end it |
| `UpdateTheorems.ActivationLosesEarlierUnit` | crates/tunnet-agent/src/core_update.rs:315-325 | after any activation that went ahead and until the next one, only files of the undecided unit are set aside, and every installed file is as the activation left it or one of that unit |
| `UpdateTheorems.FailedActivationEndsWatch` | crates/tunnet-agent/src/core_update.rs:346-354 | a failed and undone activation leaves the undecided unit installed for good |
| `UpdateTheorems.FailedActivationAcceptsEarly` | crates/tunnet-agent/src/core_update.rs:346-354 | an update undecided at 2 s is beyond recall at 3 s |
| `UpdateTheorems.ActivationKeepsGuardIff` | crates/tunnet-agent/src/core_update.rs:305-356 | an activation attempted while an update is undecided keeps its guard, whatever became of it, if and only if: given up early, each file of the prior unit is still set aside or in place; gone ahead and leaving a record, that is of the same update and nothing of the prior unit was replaced; failed with the marker removed, every file of the prior unit came back |
| `UpdateTheorems.RecoverableIffSetAside` | crates/tunnet-agent/src/core_update.rs:315-356 | after an activation that went ahead the prior unit is recoverable if and only if what was installed belonged to it and its other files were written |
| `UpdateTheorems.ChangedUnitIsNotSpared` | crates/tunnet-agent/src/core_update.rs:315-325 | one that leaves a record never spares an update that had installed a file unlike the prior unit's |
| `UpdateTheorems.LostPreviousUnitStays` | crates/tunnet-agent/src/core_update.rs:315-325 | one that cleared the previous directory first leaves a second boot nothing to restore |
| `UpdateTheorems.StaleTimerAccepts` | crates/tunnet-agent/src/auto_update.rs:68-104 | a version activated again in place is accepted when the earlier timer ends, too early if and only if that is before the new deadline |
| `UpdateTheorems.DeadlineDropsFraction` | crates/tunnet-agent/src/auto_update.rs:12-21 | the deadline is the install time plus the window less the dropped fraction; the full window if and only if there is none |
| `UpdateTheorems.AcceptedEarlyByTruncation` | crates/tunnet-agent/src/auto_update.rs:12-66 | an update installed at 0.9 s accepted at 30.0 s |
| `UpdateTheorems.AcceptedEarlyByStaleTimer` | crates/tunnet-agent/src/auto_update.rs:68-104 | a reinstalled version accepted on the first installation's timer |
| `UpdateTheorems.SecondBootRestores` | crates/tunnet-agent/src/auto_update.rs:41-61 | after an activation and any boots, timers and harmless activation attempts in clock order, whatever fails in them, with one counted boot, a further boot before the deadline ends with every binary installed beforehand back and the marker gone |
| `UpdateTheorems.ActivationAcceptedOnlyAfterWindow` | crates/tunnet-agent/src/auto_update.rs:41-104 | acceptance comes less than a second short of the full window after the activation |
| `UpdateDisk.Disk.ReplaceInstallFile` | crates/tunnet-agent/src/auto_update.rs:168-180 | whatever fails, the installed file is the old one or the whole new one, or missing with the old one set aside |
| `UpdateDisk.Disk.RestoreUnit` | crates/tunnet-agent/src/core_update.rs:358-366 | success means every file of the previous unit is installed again; a failure leaves each file as it was, restored, or missing with its copy still set aside |
| `UpdateDisk.Disk.BackUp` | crates/tunnet-agent/src/core_update.rs:315-325 | success means the previous unit equals the installed one; nothing else is touched |
| `UpdateDisk.Disk.ActivateVerified` | crates/tunnet-agent/src/core_update.rs:305-356 | all or nothing: both binaries replaced, prior unit aside and marker written; or nothing changed; or, if the undoing meets no failure, prior contents back and no marker; in any case a step of the protocol |
| `UpdateDisk.Disk.RevertToPrevious` | crates/tunnet-agent/src/auto_update.rs:123-152 | restores the previous unit, or gives up on the update if there is none |
| `UpdateDisk.Disk.MarkUpdateSuccess` | crates/tunnet-agent/src/auto_update.rs:87-104 | without failures marker and previous unit are gone, unless the marker was absent or about another version; a step of the protocol in any case |
| `UpdateDisk.Disk.OnAgentStart` | crates/tunnet-agent/src/auto_update.rs:23-85 | a boot is a step of the protocol whatever file operations fail |
| `UpdateDisk.Disk.TimerFires` | crates/tunnet-agent/src/auto_update.rs:68-82 | so is the timer's end |
| `Multicast.Demand.SetMulticastHost` | crates/tunnet-agent/src/multicast_demand.rs:38-43 | the new host carries the current epoch and was last told the demand, every host before it was last told to let go |
| `Multicast.Demand.ClearMulticastHost` | crates/tunnet-agent/src/multicast_demand.rs:46-48 | clearing leaves no host bound and the demand as it was |
| `Multicast.Demand.ReleaseCurrentHost` | crates/tunnet-agent/src/multicast_demand.rs:50-56 | no host is bound and all were last told to let go |
| `Multicast.Demand.SetNeeded` | crates/tunnet-agent/src/multicast_demand.rs:62-71 | the bound host was last told the new demand, every other one to let go |
| `Multicast.Demand.SetHeldThrough` | crates/tunnet-agent/src/multicast_demand.rs:23-30 | a call reaches the host if and only if the epoch is the handle's |
| `Multicast.Demand.StaleSetHeld` | crates/tunnet-agent/src/multicast_demand.rs:23-30 | a handle to a released host has no effect until the 64-bit epoch comes round, and has one exactly then |
| `Multicast.Demand.Request` | crates/tunnet-agent/src/multicast_demand.rs:79-84 | a lease sets the demand and is active if and only if it asked for multicast |
| `Multicast.Demand.DropLease` | crates/tunnet-agent/src/multicast_demand.rs:86-92 | dropping an active lease withdraws the demand |
| `SshConfig.UpsertMarkedBlock` | crates/tunnet-cli/src/cmds_ssh.rs:486-520 | the block takes the place of all from the first begin marker to the line end after the next end marker; if there is no such place, the file stays as it is and the block follows, after one blank line if there was text |
| `SshConfig.MarksAreSingleLine` | crates/tunnet-cli/src/cmds_ssh.rs:412-413 | the two markers in use meet the condition of the theorems below |
| `SshConfig.BlockIsExchanged` | crates/tunnet-cli/src/cmds_ssh.rs:486-506 | a well-formed block between two texts is exchanged and both texts stay as they are |
| `SshConfig.LastEditWins` | crates/tunnet-cli/src/cmds_ssh.rs:486-520 | a later edit replaces an earlier one completely |
| `SshConfig.EditingTwiceIsOnce` | crates/tunnet-cli/src/cmds_ssh.rs:486-520 | editing is idempotent if and only if the first begin marker, if any, is followed by an end marker |
| `SshConfig.DanglingBeginSwallows` | crates/tunnet-cli/src/cmds_ssh.rs:486-520 | otherwise the second edit replaces everything from the dangling marker on |
| `SshConfig.WrittenBlockIsWellFormedIff` | crates/tunnet-cli/src/cmds_ssh.rs:445-484 | the block the program writes is well formed if and only if no path put into it holds the end marker |

## Left out

- `RouteEngine.Engine.ReconcileNative`: that only a stuck route makes a strict kernel fail asks that no two wanted routes are one route to the kernel, since for such a pair it depends on which is added first and the order within a rank is arbitrary here; nobody else changes the kernel table while a reconcile is under way; `reconcile_last` and the remembered desired routes would add only a call with the same arguments.
- `AuditTip.TipFixesHistory`: asks that no free text other than metadata holds a separator, which `PipesAreAmbiguous` shows is needed.
- `UpdateTheorems.SecondBootRestores`: asks that no timer of an earlier activation of the same version survives and that no further activation goes ahead meanwhile; `StaleTimerAccepts` and `ActivationLosesEarlierUnit` show what happens otherwise.
- The conversion of microseconds through a double in the insert statement: stored times are exact here.
- Several database connections interleaving inside one flush: the advisory lock makes a flush one step, and failing halfway has no effect.
- Secondary sinks and streams of the audit worker: they get copies of chained events and feed nothing back.
- SSH rules, postures and the default posture of policy bundles: merged field by field, with no effect on the evaluation of flows.
- Signature verification of policy bundles, HMAC, BLAKE3 and JSON rendering: foreign functions.
- Packet classification and the bulk threshold: one formula each.
- Sending a packet, its metrics and its failures: a packet handed to the connection pool has left its queue either way.
- The Windows variants of activation and rollback, which hand the same file steps to another process.
- Crashes between the file steps of an activation: the marker is written last, so there is nothing atomic to state.
- Concurrent calls into the multicast host binding: the epoch test and the inner call are not one step, so only completed operations are modelled; with two leases the demand is not tied to a live lease.
- Finding the payload directory, interface and gateway discovery, DNS, NAT, the firewall, the packet pumps, the HTTP and Go clients: foreign calls or plumbing.
