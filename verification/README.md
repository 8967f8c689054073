# Replica-set bootstrap: model and proofs

The programs in this repository bring up a MongoDB (or Kafka) cluster on a
handful of nodes whose disks may hold data of different ages and of different
replica sets. Every node publishes a report of its oplog position under its
own key. A controller debounces the snapshots of those reports with a timer,
sorts them, takes the best three, prints them into a colon/comma member string
and publishes that spec once. Every delivery of the spec makes a member parse
the string back and then do nothing, initiate the set, force-reconfigure it, or
wipe its own data directory.

This project models that pipeline in Dafny and proves what it promises, across
its stages and over all runs:

| file | module | what it models |
|---|---|---|
| options.dfy | `Options` | values that may be missing |
| text.dfy | `Text` | Split, Join, `%d`, `ParseInt(s, 10, 32)` with the error dropped |
| ordering.dfy, iteration.dfy | `Ordering`, `Iteration` | in-place sort by a "less" relation; hash-map iteration in any order |
| candidates.dfy | `Candidates` | candidate reports, the Mongo and Kafka orders, sort-and-cut |
| members.dfy | `MemberCodec` | the two printers and the one parser of member strings |
| mongod.dfy, primary.dfy | `MongodClient`, `PrimaryConfig` | replica-set commands; `configPrimary` |
| member_task.dfy | `MemberTask` | one delivery to one member, including every wipe |
| store.dfy | `ReportStore` | candidate reports in the key-value store |
| stateless.dfy | `Stateless` | the state-machine library both controllers use |
| controller.dfy | `Controller` | `ControllerTask`: timers, queued triggers, publication |
| bootstrap.dfy | `Bootstrap` | all of the above as one step system over a whole cluster |
| reconciler.dfy | `Reconciler` | the Java reconciler `MongoControl` |
| kafka.dfy | `KafkaLifecycle` | the Kafka process/monitor state machine and its spec |
| stabilise.dfy | `Stabilise` | the node choice of `mongo_ctrl.js`, with the errors that end it, and its polling loop |

Objects that the source updates in place are classes here (`Mongod`,
`MongoMember`, `ControllerTask`, `ConsulStore`, `MongoControl`, `KafkaSM`).
Each of their methods is proved equal to one step of a transition function, and
the theorems are about every sequence of such steps. A run is a list of events
in any order; an event that is not possible in a state changes nothing.

## What holds, and what does not

The code is modelled as it is written. Where it falls short of what it is for,
there is a lemma with the failing runs and one that says when it does hold.

- A spec goes out at most once in every interleaving
  (`Controller.PublishedAtMostOnce`).
- Debouncing holds in every run in which no snapshot overtakes a callback that
  has already started: exactly the latest snapshot is then outstanding, and a
  stored spec comes from it (`Controller.Debounce`), never before its delay is
  over and in a prompt run at that very second (`Controller.PublishedOnTime`);
  past that second every prompt run has decided (`Controller.DecidedAfterTheDelay`).
  The condition is exact: as soon as a snapshot does overtake a callback, the
  older one can still decide (`Controller.OvertakenStillGoesOut`), and for any
  two snapshots such a run exists (`Controller.StaleSnapshotCanGoOut`).
- `rs.candidates` is only assigned when a cast fails, which it does not. The
  number of members kept is therefore min(3, n) exactly for n >= 3 (or n = 0)
  (`Controller.KeptLengthIsMin3`), and a snapshot of one or two reports ends in
  a panic instead of a spec (`Controller.FewCandidatesCrash`,
  `Controller.EverySnapshotCanBeDecided`); reports without separators cause no
  other panic (`Controller.CleanReportsCrashBelowThree`). `handleTimer`, which
  nothing calls, computes the intended length (`Candidates.SortAndCut`).
- The newest data in the published snapshot is never wiped, not even in part
  (`Bootstrap.NewestDataSurvives`). Data reported after the spec is out is not
  looked at any more: whatever a named member then holds or reports, it is safe
  exactly when the spec names a set and the member does not belong to another
  one (`Bootstrap.SafeFromNowOnIff`). Otherwise newer data can be lost after any
  run with a spec out, and in a whole run from the start
  (`Bootstrap.LateReporterIsWiped`, `Bootstrap.NewestDataCanBeLost`).
- Under a spec that names a set the whole cluster can come to rest from every
  run (`Bootstrap.CanComeToRest`), and then stays there: no event ends it, and no
  delivery with a readable status changes anything (`Bootstrap.RestIsForGood`).
- Wiping is one-shot exactly for specs that name a set
  (`Bootstrap.WipingIsOneShotIff`): then no member's directory is emptied twice
  and members of that set are not touched (`Bootstrap.WipedAtMostOnce`). A spec
  made from a fresh primary names no set, and every member it names can be wiped
  k more times, for every k (`Bootstrap.CanBeWipedAgain`); such runs start from
  any three empty nodes (`Bootstrap.EmptyClusterCanBeWipedForever`). A wipe that
  stops halfway is counted apart: it may leave the old configuration behind, and
  then the next delivery wipes again.
- The Mongo selection is the same for every order of the reports
  (`Candidates.CanonicalSelection`). Kafka's is exactly when different reports
  with equal modification times have three older ones before them
  (`Candidates.KafkaSelectionIsCanonicalIff`).
- Configuring converges: a second run on the same spec sends nothing, for any
  members string the code accepts at all and any map iteration order, exactly
  when the configured set name is not empty or the node had a configuration
  (`PrimaryConfig.Converges`).
- A member status that cannot be read ends the member task, except when the
  primary's rewrite of an invalid configuration is refused
  (`MemberTask.UnreadableStatusCrashes`).
- The Java reconciler always reaches the best three
  (`Reconciler.ReconcilesToBestThree`), but it trusts its commands. Roles and
  `replicaSet` agree after every event exactly when in each run, compared with
  the best three, the commands for all who have to join or leave are obeyed, or
  without a node status nobody has to join
  (`Reconciler.RolesMatchReplicaSet`): a failed purge or put is logged and not
  repeated, and after a failed first run the next one sends nothing
  (`Reconciler.FailedRunLosesRoles`). Its comparator is the intended order
  exactly where the subtraction fits 32 bits (`Reconciler.ComparatorBound`,
  `Reconciler.OverflowBreaksTransitivity`).
- If the Kafka process fails to start, leaving the starting superstate closes a
  nil channel (`KafkaLifecycle.ExitIsAcceptedEverywhere`), and runs get there
  (`KafkaLifecycle.BothEndsAreReached`); if it starts, no run ever panics
  (`KafkaLifecycle.Lifecycle`).
- `mongo_ctrl.js` chooses canonically (`Stabilise.ChoiceIsCanonical`), unless one
  node among several could not be read: then its sort throws
  (`Stabilise.ChoiceThrowsIff`).

## Assumptions

- `slices.SortFunc` and Java's `sorted` return a sorted permutation; the sort in
  `Ordering.SortInPlace` is the insertion sort Go uses on short slices. For
  distinct names the result is unique, so the algorithm does not matter.
- Strings compare by character code. JSON decoding inverts encoding, except for
  values that do not decode at all.
- mongod stores a document it accepts as sent, refuses to initiate a set twice,
  and hands the primary's configuration to empty members and to members of the
  same set. Whether it accepts, and every other outcome of the environment, is a
  free parameter. An object id prints as 24 characters, so it is never empty.
- One trigger is executed at a time and in queue order, as the library's queued
  mode does. The library drops the rest of a drain after an error; the model
  lets queued triggers run at any later time, which includes that.
- The key for the spec is empty when the controller starts.
- The member job runs on the nodes the spec names (jobs/mongo/mongo.hcl). The
  safety theorems hold even if other nodes get deliveries; the runs that show a
  failure only wipe named members.
- A host and the node name in its variable's path stay together, so a role is
  followed by its host.

## Model

| member | source | states |
|---|---|---|
| Text.SplitOfJoin | goctl/internal/replset/mongo.go:134 | splitting a joined list restores it when no part holds the separator |
| Text.JoinOfSplit | goctl/internal/replset/mongo-control.go:17 | splitting loses nothing of any string |
| Text.SecondPartIffSeparator | goctl/internal/replset/mongo.go:107-114 | splitting yields a second part exactly when the separator occurs |
| Text.ParseOfPrint | goctl/internal/replset/mongo-control.go:22-101 | printing with %d and reading with ParseInt is the identity on 32-bit integers |
| Text.ParseClamps | goctl/internal/replset/mongo-control.go:22-23 | a number out of range is read as the nearest 32-bit bound |
| Text.ParseOfJunk | goctl/internal/replset/mongo-control.go:22-23 | what is not a number is read as 0 |
| Ordering.MoveDown | goctl/internal/replset/replica.go:301-312 | one insertion keeps the sorted prefix and the elements |
| Ordering.SortInPlace | goctl/internal/replset/replica.go:301-312 | sortCandidates leaves a sorted permutation of the slice, for any strict weak order |
| Ordering.SortedIsUnique | goctl/internal/replset/replica.go:301-312 | without ties there is only one sorted arrangement of the same elements |
| Ordering.PrefixIsUnique | goctl/internal/replset/replica.go:131-136 | two sorted arrangements agree on a prefix none of whose elements ties with another |
| Candidates.NewerIsStrictWeakOrder | goctl/internal/replset/mongo.go:57-66 | Less is a strict weak order on all reports |
| Candidates.NewerIsTotal | goctl/internal/replset/mongo.go:57-66 | reports with distinct names never tie |
| Candidates.StrLessMeans | goctl/internal/replset/mongo.go:57-66 | in string order the first difference decides and a proper prefix comes first |
| Candidates.SortAndCut | goctl/internal/replset/replica.go:240-245 | sorts in place and keeps the first min(3, n) |
| Candidates.CanonicalSelection | goctl/internal/replset/replica.go:131-136 | every permutation of a snapshot selects the same sequence, of length min(3, n) |
| Candidates.SelectionDominates | goctl/internal/replset/replica.go:131-136 | every chosen report is newer than every report left out |
| Candidates.PrimaryIsNewest | goctl/internal/replset/mongo.go:123-141 | the first chosen report, the primary's, is newer than all others: the furthest oplog, then the greatest name |
| Candidates.KafkaSelectionDominates | goctl/internal/replset/kafka.go:25-27 | a selection in ascending order of modification times, with no earlier one left out |
| Candidates.KafkaSelectionIsNotCanonical | goctl/internal/replset/kafka.go:25-27 | a concrete pair with equal modification times that is selected in two ways |
| Candidates.OneSelectionIff | goctl/internal/replset/replica.go:131-136 | for any strict weak order: every arrangement selects the same sequence exactly when tied elements have three before them |
| Candidates.KafkaSelectionIsCanonicalIff | goctl/internal/replset/kafka.go:25-27 | Kafka's selection is canonical exactly when different reports with equal modification times have three older ones before them |
| ReportStore.ConsulStore.PutCandidateReport | goctl/internal/store/store.go:73-136 | session reuse; a failing read, session creation or acquire; lock by another session; keeps names equal to keys |
| ReportStore.ConsulStore.ListReports | goctl/internal/store/store.go:138-166 | one poll is a snapshot: every decodable value under the prefix, once |
| ReportStore.SnapshotNamesAreDistinct | goctl/internal/store/store.go:144-162 | snapshots of a keyed store name no node twice and hold exactly the decodable reports under the path |
| ReportStore.SnapshotsAreDistinct | goctl/internal/store/store.go:130-134 | in every run of publications and session losses, Less is total on every snapshot |
| ReportStore.KeyEndsInName | goctl/internal/store/store.go:130-131 | a report's key is the path and, as its last part, the node's name |
| ReportStore.PutStoresUnlessLocked | goctl/internal/store/store.go:130-134 | a put stores under that key unless another session holds it, and touches no other key |
| ReportStore.ExpiryDropsTheSession | goctl/internal/store/store.go:110-117 | when a session dies exactly its keys are gone |
| ReportStore.AllAreListed | goctl/internal/store/store.go:130-162 | what nodes of distinct names publish, each under its session, can be listed as exactly those reports |
| ReportStore.ForeignIdBreaksDistinctness | goctl/internal/store/store.go:130-134 | publishing under a foreign id can name a node twice |
| MemberCodec.ParseMembers | goctl/internal/replset/mongo-control.go:15-26 | the loop computes the last well-formed entry per id, short chunks skipped |
| MemberCodec.LastEntryWins | goctl/internal/replset/mongo-control.go:15-26 | of several entries with one id the last one stays |
| MemberCodec.ByIdOfDistinct | goctl/internal/replset/mongo-control.go:15-26 | with distinct ids the parsed map holds exactly the listed members |
| MemberCodec.ByIdIsFaithful | goctl/internal/replset/mongo-control.go:15-26 | with distinct ids equal maps mean equal member sets |
| MemberCodec.PrintLive | goctl/internal/replset/mongo-control.go:97-103 | the loop prints the live configuration entry by entry |
| MemberCodec.LiveRoundTrip | goctl/internal/replset/mongo-control.go:15-103 | the printed live configuration parses to its members by id; "" to the empty map |
| MemberCodec.LiveEntriesNameNobody | goctl/internal/replset/mongo-control.go:99-103 | live entries carry an empty name |
| MemberCodec.GenerateReplConfig | goctl/internal/replset/mongo.go:123-141 | spec of a candidate list; panics exactly on the empty one |
| MemberCodec.SpecOfSelection | goctl/internal/replset/mongo.go:123-141 | the spec of a selection carries the best report's name, set and oplog window, and no report's oplog ends later |
| MemberCodec.GetMembers | goctl/internal/replset/mongo.go:107-114 | the loop collects the second tokens in order, or panics |
| MemberCodec.NamesReadIff | goctl/internal/replset/mongo.go:107-114 | GetMembers returns names exactly when every chunk holds a colon |
| MemberCodec.NamesRoundTrip | goctl/internal/replset/mongo.go:107-141 | GetMembers of a generated spec returns the node names in order |
| MemberCodec.SpecParsesExactly | goctl/internal/replset/mongo.go:123-141 | ParseMembers of a generated spec holds exactly id to addr:port; Count is its size |
| MemberCodec.TwoPrintersOneParser | goctl/internal/replset/mongo-control.go:99-158 | both printed forms parse equal exactly when they assign the same hosts to the same ids |
| MongodClient.Mongod.ReplSetInitiate | goctl/internal/util/mongo.go:260-267 | sends the members; stores them at version 1 unless a configuration exists |
| MongodClient.Mongod.ReplSetReconfig | goctl/internal/util/mongo.go:216-225 | sends and stores the document with its version raised by one |
| MongodClient.Mongod.AddMember | goctl/internal/util/mongo.go:235-242 | re-reads the configuration and appends; fails or panics without one |
| PrimaryConfig.MembersDiffer | goctl/internal/replset/mongo-control.go:135-158 | the early-exit loop answers exactly whether the maps differ, in any iteration order |
| PrimaryConfig.Values | goctl/internal/replset/mongo-control.go:165-168 | appends every value once, in iteration order |
| PrimaryConfig.ParseSpecMembers | goctl/internal/replset/mongo-control.go:111-118 | the member sequence; panics exactly on a chunk of fewer than four tokens |
| PrimaryConfig.Apply | goctl/internal/replset/mongo-control.go:119-185 | the method takes the decision Act describes and sends its commands |
| PrimaryConfig.ConfigPrimary | goctl/internal/replset/mongo-control.go:110-186 | the whole method is one Configure step on the world |
| PrimaryConfig.ValuesRebuild | goctl/internal/replset/mongo-control.go:165-176 | the values of a keyed map rebuild it, whatever the order |
| PrimaryConfig.ConfigureCases | goctl/internal/replset/mongo-control.go:110-186 | by what is stored and what the spec says: the commands sent, the document stored and the outcome, for every answer of mongod |
| PrimaryConfig.StoredAfter | goctl/internal/replset/mongo-control.go:119-182 | what each of the fresh, stale and live paths sends and leaves stored |
| PrimaryConfig.StoredParses | goctl/internal/replset/mongo-control.go:110-186 | after success the printed live configuration parses to the spec's map |
| PrimaryConfig.Converges | goctl/internal/replset/mongo-control.go:71-186 | a second run on the same spec is idle, exactly when a set name exists |
| PrimaryConfig.FreshMembersOfCandidates | goctl/internal/replset/mongo-control.go:121-133 | the first candidate alone initiates, the others follow in one command; one member per candidate is stored, in order |
| PrimaryConfig.LiveKeepsIdentity | goctl/internal/replset/mongo-control.go:159-181 | live runs keep name, id and term, raise the version by one, list the desired members once |
| MemberTask.MongoMember.GetMemberStatus | goctl/internal/replset/mongo-control.go:71-108 | the status of the stored configuration |
| MemberTask.MongoMember.OnConfig | goctl/internal/replset/mongo.go:317-382 | one delivery is one Handle step on the node |
| MemberTask.MongoMember.RewriteConfig | goctl/internal/replset/mongo.go:328-346 | the recovery of an invalid configuration, which crashes when it works |
| MemberTask.MongoMember.WipeDb | goctl/internal/replset/mongo.go:352-374 | a wipe empties the node, stops halfway or changes nothing, and leaves an exit notice |
| MemberTask.WipesExactlyForeigners | goctl/internal/replset/mongo-control.go:50-69 | when exactly a delivery starts to wipe, and what is counted |
| MemberTask.UnreadableStatusCrashes | goctl/internal/replset/mongo.go:323-376 | when exactly the task survives an unreadable status |
| MemberTask.RecoveryInstallsTheSpec | goctl/internal/replset/mongo.go:328-346 | the recovery sends the stored document with the spec's members and the next version, and the primary is then idle |
| MemberTask.ReadableDeliverySurvivesIff | goctl/internal/replset/mongo.go:321-381 | when exactly the task survives a readable delivery, and when an exit notice is left |
| MemberTask.IdentityIsKept | goctl/internal/replset/mongo.go:321-381 | only wiping takes a node's set name and id away |
| MemberTask.FreshSpecWipesJoinedMembers | goctl/internal/replset/mongo-control.go:60-62 | a fresh primary's spec wipes every joined member |
| Stateless.ActionsRunAtTheBoundary | goctl/vendor/github.com/qmuntal/stateless/states.go:116-152 | exit and entry actions run exactly when the state's boundary is crossed |
| Stateless.OwnTableFirst | goctl/vendor/github.com/qmuntal/stateless/statemachine.go:342-433 | a state's own table comes first, and a move back to the same state is not taken |
| Controller.TableOfPhases | goctl/internal/replset/replica.go:82-157 | the response to every trigger in every phase |
| Controller.HealthIsNeverHandled | goctl/internal/replset/replica.go:171-175 | in no run is the health trigger queued; what is queued for it is unhandled in every phase |
| Controller.MovesAreFlat | goctl/internal/replset/replica.go:82-157 | without superstates a move exits the one state and enters the other |
| Controller.ControllerTask.constructor | goctl/internal/replset/replica.go:80-83 | starts in init with the start trigger queued |
| Controller.ControllerTask.TakeReports | goctl/internal/replset/replica.go:168-170 | a snapshot queues its trigger |
| Controller.ControllerTask.TimerExpires | goctl/internal/replset/replica.go:106-119 | an expired timer can no longer be stopped |
| Controller.ControllerTask.CallbackFires | goctl/internal/replset/replica.go:106-119 | a started callback queues its own snapshot |
| Controller.ControllerTask.OnConfigurationEntry | goctl/internal/replset/replica.go:86-123 | stops the timer and starts one of 1, 5 or 15 seconds for a non-empty snapshot |
| Controller.ControllerTask.OnMonitoringEntry | goctl/internal/replset/replica.go:128-146 | sorts, cuts, generates and publishes, with every failure branch |
| Controller.ControllerTask.PublishReplSpec | goctl/internal/replset/replica.go:260-299 | store first, then names, then the job; nothing is undone |
| Controller.ControllerTask.FireNext | goctl/vendor/github.com/qmuntal/stateless/modes.go:47-89 | the head of the queue is executed as the table says |
| Controller.PublishedAtMostOnce | goctl/internal/replset/replica.go:80-176 | at most one spec is built and stored in every run, from the best three of a delivered snapshot |
| Controller.PhasesAreMonotone | goctl/internal/replset/replica.go:82-157 | phases only move forward and what is stored stays |
| Controller.KeptLengthIsMin3 | goctl/internal/replset/replica.go:95-135 | the computed length is min(3, n) exactly for n >= 3 or n = 0 |
| Controller.FewCandidatesCrash | goctl/internal/replset/replica.go:132-136 | one or two candidates end in a panic, nothing stored |
| Controller.PublishEffect | goctl/internal/replset/replica.go:128-146 | what publishing changes, for every failure of the store, the names and the job |
| Controller.CrashesExactly | goctl/internal/replset/replica.go:128-146 | a step panics exactly when it executes the publishing trigger with fewer than three reports, or stores a spec with a chunk without a colon |
| Controller.CleanReportsCrashBelowThree | goctl/internal/replset/replica.go:128-146 | if no report holds a separator: exactly on a snapshot of fewer than three |
| Controller.EverySnapshotCanBeDecided | goctl/internal/replset/replica.go:80-146 | every non-empty snapshot has a prompt run that publishes its best three, or with fewer than three reports panics |
| Controller.Debounce | goctl/internal/replset/replica.go:86-125 | while no snapshot overtakes a started callback: exactly the latest snapshot is outstanding, due 1, 5 or 15 seconds after arrival by its size, and a stored spec selects from it |
| Controller.DecidedOnTime | goctl/internal/replset/replica.go:104-146 | the latest snapshot is never published, nor does it panic, before those seconds are over, and in a prompt run it does so at that second |
| Controller.PublishedOnTime | goctl/internal/replset/replica.go:104-119 | the same for the building of a spec |
| Controller.DecidedAfterTheDelay | goctl/internal/replset/replica.go:86-146 | in every prompt run, once those seconds are over, one spec has been built from the latest snapshot or, with fewer than three reports, the controller has panicked |
| Controller.OvertakenStillGoesOut | goctl/internal/replset/replica.go:86-119 | the converse: after any overtaking some continuation decides by the older snapshot, with a later one taken in |
| Controller.StaleSnapshotCanGoOut | goctl/internal/replset/replica.go:86-109 | for any two snapshots, the older of at least three reports: a run takes in the newer and publishes the older |
| Bootstrap.StoringPublishes | goctl/internal/replset/replica.go:128-146 | only the configuration-to-monitoring move stores a spec, of a delivered snapshot |
| Bootstrap.InvHolds | goctl/internal/replset/mongo.go:253-389 | the cluster invariant in every run |
| Bootstrap.NewestDataSurvives | goctl/internal/replset/mongo.go:321-356 | a node wiped as a whole or in part is not the primary and reported nothing newer than the primary |
| Bootstrap.LateReporterIsWiped | goctl/internal/replset/mongo.go:352-356 | from every run with a spec out, a named member of another set reports newer data and is wiped |
| Bootstrap.NewestDataCanBeLost | goctl/internal/replset/mongo.go:352-356 | the same as one run from the start, for every snapshot whose chosen members include one of another set |
| Bootstrap.SafeFromNowOnIff | goctl/internal/replset/mongo-control.go:50-69 | for every run and named member: never wiped again, not even in part, exactly when the spec names a set and the member is not of another set |
| Bootstrap.WipedAtMostOnce | goctl/internal/replset/mongo-control.go:50-69 | with a spec that names a set: emptied once at most, and nodes empty or of that set not touched |
| Bootstrap.WipingIsOneShotIff | goctl/internal/replset/mongo-control.go:50-69 | for every run and named member: at most one wipe in all continuations exactly when the spec names a set |
| Bootstrap.CanBeWipedAgain | goctl/internal/store/store.go:226-255 | with a spec that names no set every named member is wiped k more times in some continuation |
| Bootstrap.SpecStays | goctl/internal/replset/replica.go:80-176 | the stored spec stays the same in every continuation |
| Bootstrap.FreshSpecWipesForever | goctl/internal/store/store.go:226-255 | once joined, a member is wiped k more times by redelivery, restart and sync |
| Bootstrap.SpecCanBePublished | goctl/internal/replset/replica.go:80-176 | from any three or more reporting nodes a run leads to a published spec of their best three, nodes untouched |
| Bootstrap.EmptyClusterCanBeWipedForever | goctl/internal/replset/mongo-control.go:50-69 | from any three or more empty nodes, and for every k, a run wipes one chosen member that is not the primary k times |
| Bootstrap.ResultingConfiguration | goctl/internal/replset/mongo-control.go:110-186 | from snapshot to configuration: exactly the chosen candidates, and then idle |
| Bootstrap.CanComeToRest | goctl/internal/replset/mongo.go:317-382 | from every run with a readable spec that names a set, deliveries lead to rest: primary idle, no named member of another set |
| Bootstrap.RestIsForGood | goctl/internal/replset/mongo.go:317-382 | rest survives every event, and every readable delivery leaves the whole cluster unchanged |
| Reconciler.ComparatorBound | src/main/java/com/example/MongoControl.java:96-104 | the comparator is the intended order exactly when the deciding subtraction fits |
| Reconciler.OverflowBreaksTransitivity | src/main/java/com/example/MongoControl.java:96-104 | three time stamps on which it runs in a circle |
| Reconciler.AgreesWithGo | src/main/java/com/example/MongoControl.java:96-104 | on non-negative ints it is the Go Less with the host for the name |
| Reconciler.BestThreeIsUnique | src/main/java/com/example/MongoControl.java:95-106 | there is one set of best three hosts |
| Reconciler.BestIsBestThree | src/main/java/com/example/MongoControl.java:95-106 | sorted().limit(3) is that set, best first, for every map order |
| Reconciler.NodeNameExists | src/main/java/com/example/MongoControl.java:40-139 | under the watched prefix the path always has a second part |
| Reconciler.NodeNameIsSecondPart | src/main/java/com/example/MongoControl.java:138-139 | the node name is the part of the path behind the first slash |
| Reconciler.MongoControl.UpdateMembers | src/main/java/com/example/MongoControl.java:56-91 | puts every node, then cancels and reschedules from three members on |
| Reconciler.LastReportWins | src/main/java/com/example/MongoControl.java:66-68 | a host's last report is the one kept; others keep theirs |
| Reconciler.UpdateSchedules | src/main/java/com/example/MongoControl.java:69-88 | in every run an update schedules nothing below three members; from three on it cancels what is pending and schedules one task 30 seconds later, or at once from six on |
| Reconciler.MongoControl.ConfigureCluster | src/main/java/com/example/MongoControl.java:93-182 | the run is one Configured step |
| Reconciler.MongoControl.PurgeRoles | src/main/java/com/example/MongoControl.java:136-155 | sends a purge for every removed host and removes it whether or not the purge works |
| Reconciler.MongoControl.PutRoles | src/main/java/com/example/MongoControl.java:156-178 | sends a put for every added host, the first as primary, with the same members string, and records the outcome |
| Reconciler.ReconcilesToBestThree | src/main/java/com/example/MongoControl.java:107-178 | target reached; purges are sent for old minus target, puts for target minus old, members strings list the target |
| Reconciler.SendsWhatIsDue | src/main/java/com/example/MongoControl.java:136-178 | the commands themselves: purges first, one purge per leaver and one put per joiner, to the node in the path, first put primary, one members string |
| Reconciler.MembersStringListsTheSet | src/main/java/com/example/MongoControl.java:161-167 | every members string sent reads back as each host of the new replica set, once |
| Reconciler.FailedRunOnlyAdds | src/main/java/com/example/MongoControl.java:116-181 | without a node status the target joins, nobody leaves, nothing is sent |
| Reconciler.FailedRunLosesRoles | src/main/java/com/example/MongoControl.java:111-181 | after a failed first run the next one puts no role at all |
| Reconciler.FirstRunHasOneLeader | src/main/java/com/example/MongoControl.java:156-166 | the first run makes exactly one primary, the best of all known nodes |
| Reconciler.AtMostOneNewPrimary | src/main/java/com/example/MongoControl.java:156-166 | a run with status that adds hosts puts exactly one primary, better than every other host it adds; any other run puts none |
| Reconciler.ReconcilerInvariant | src/main/java/com/example/MongoControl.java:56-182 | replicaSet within allMembers, roles outside it only after a failed purge, one pending task, and only the last one runs, when due and from three members on |
| Reconciler.StaysInStepIff | src/main/java/com/example/MongoControl.java:136-181 | a run keeps roles and replicaSet in step exactly when, compared with the best three, all joiners' and leavers' commands are obeyed, or without a node status nobody has to join |
| Reconciler.RolesMatchReplicaSet | src/main/java/com/example/MongoControl.java:93-182 | over every run: roles and replicaSet agree after each event exactly when every configuration run met that condition |
| KafkaLifecycle.MovesOf | goctl/internal/replset/kafka-control.go:64-137 | the whole table: destination, exit and entry actions for every state and trigger |
| KafkaLifecycle.StartingBoundary | goctl/internal/replset/kafka-control.go:83-129 | the superstate's actions run exactly when starting is entered or left as a whole |
| KafkaLifecycle.KafkaSM.Exit | goctl/internal/replset/kafka-control.go:95-98 | leaving the superstate closes the stop channel or panics |
| KafkaLifecycle.KafkaSM.Enter | goctl/internal/replset/kafka-control.go:69-136 | the entry actions, with the triggers they fire and the panic of formatStorage |
| KafkaLifecycle.KafkaSM.FireNext | goctl/vendor/github.com/qmuntal/stateless/statemachine.go:342-433 | one queued trigger: exits, state change, entries |
| KafkaLifecycle.Lifecycle | goctl/internal/replset/kafka-control.go:64-148 | one start, one close; once started no panic, monitor on exactly inside starting |
| KafkaLifecycle.StartFormatsFirst | goctl/internal/replset/kafka-control.go:69-83 | in every run a start formats before the server is started; no configuration file panics, a failed format stops there |
| KafkaLifecycle.InterruptCancels | goctl/internal/replset/kafka-control.go:101-129 | in every run a shutdown in startup or running goes to shuttingdown and cancels; ready and done go to running; nothing else moves inside starting |
| KafkaLifecycle.CancelledOnlyByShutdown | goctl/internal/replset/kafka-control.go:121-128 | the process is cancelled only if a shutdown was fired |
| KafkaLifecycle.ExitIsAcceptedEverywhere | goctl/internal/replset/kafka-control.go:95-143 | exit in any substate: failed and stopped if started, a panic otherwise |
| KafkaLifecycle.FailedStartQueuesExit | goctl/internal/replset/kafka-control.go:90-92 | after a failed start the exit trigger is on the queue until it panics |
| KafkaLifecycle.BothEndsAreReached | goctl/internal/replset/kafka-control.go:69-143 | a run in which the start fails ends in the panic; one in which it works ends in failed, stopped once |
| KafkaLifecycle.SubstateMovesLeaveTheProcessAlone | goctl/internal/replset/kafka-control.go:101-129 | moves inside starting neither restart the process nor touch the monitor |
| KafkaLifecycle.GenerateReplConfig | goctl/internal/replset/kafka.go:133-148 | the three lists of the Kafka spec, in candidate order |
| KafkaLifecycle.EntriesReadBack | goctl/internal/replset/kafka.go:133-148 | entries read back as controller address and port, and as node id, address, port and storage id |
| KafkaLifecycle.ServerListsRoundTrip | goctl/internal/replset/kafka.go:133-148 | both server lists read back one entry per candidate |
| Stabilise.ChoiceIsCanonical | mongo_ctrl.js:176-187 | the choice does not depend on the order of results; each chosen node exceeds each other node by oplog, then number, and the primary exceeds all |
| Stabilise.ChoiceThrowsIff | mongo_ctrl.js:79-185 | the sort throws exactly when one node among several could not be read |
| Stabilise.SortOfOplogs | mongo_ctrl.js:176-185 | otherwise it is the sort by the comparator |
| Stabilise.ThreeOrdersAgree | mongo_ctrl.js:176-185 | Go, Java and this script rank oplog positions alike |
| Stabilise.StableIffStreak | mongo_ctrl.js:230-248 | the counter exceeds five exactly on a stable stretch of polls |
| Stabilise.PollUntilStable | mongo_ctrl.js:230-248 | the loop ends at the first stable poll and not before |

## Left out

- collect and getOfflineStatus (goctl/internal/replset/mongo.go:142-252): starting mongod offline, users, and the wipe after two failed attempts; only the report they produce is modelled.
- Processes, sockets, signals, the file system and Nomad job submission: each is a free success or failure; of a wipe that stops halfway only the loss of the configuration is modelled.
- Health status sessions (goctl/internal/store/store.go:168-310): no decision depends on them. The controller fires health triggers with a context in the trigger's place, so they are never handled.
- The member task's exit channel beyond the notice a wipe leaves, and the health ticker.
- Data races between Java's updateMembers and configureCluster: each runs as one step.
- Superstates nested more than one deep and inherited re-entries in the state-machine library: no table here has them.
- The Kafka monitor's dial loop, which does not look at the stop channel while dialling fails: the monitor is on while its stop channel is open.
- The Kafka instance of the controller: it shares ControllerTask; with fewer than three candidates it publishes an empty spec instead of panicking.
- mongo_ctrl.js process handling, the connect, init and reconf commands it sends to each node, and the empty drop branch; its commented-out second half.
- MongoWatcher.java duplicates MongoControl.java; the remaining Java classes, the demos and the job files hold no further decision.
- IPv6 addresses and separators inside reported names: the member format cannot carry them, and the round trips exclude them.
- MemberCodec.TwoPrintersOneParser: assumes distinct ids; with repeated ids the last entry wins on both sides, as MemberCodec.LiveRoundTrip states.
