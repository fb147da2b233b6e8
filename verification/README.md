# Calamari's manager, verified

Calamari mirrors the maps of a Ceph cluster, runs what users ask for as chains of remote jobs, and
reports an operation complete only when its mirror shows the effect. This project models that
behaviour in Dafny and proves what its parts promise one another. `dafny verify dfyconfig.toml`
checks the whole project.

## The parts

**Mirrors and requests.** `SyncMirror` has the copy of each cluster map: the version stored, the
newest one heard of, and a fetch underway. `Requests` has the kinds of user request as state
machines, `PoolGrowth`, `GrowthRuns` and `GrowthLimits` the growth of a pool in tranches,
`RequestRuns` the runs of a single request, `PoolRuns` those of one that creates a pool, and
`RequestEnds` says of every kind which maps and results end it, and how.
`RequestIndex` has the collection of requests by id and by job, `Cluster` the manager as a whole
with every message that can reach it and the cluster that publishes maps beside it, `ClusterSteps`
the invariant that each message keeps, and `ClusterRuns` the results about whole runs. `Wakeups` says
what it is for a request to be behind the stored OSD map, and `LostWakeup` has inputs that leave one so.
`Deliveries` picks out of a run what it delivers to a single request, so that `ClusterGrowths` can say
of every cluster run what `GrowthRuns` and `PoolRuns` say of single requests. `ClusterEnds` has, in terms
of messages, exactly why requests fail and succeed in a cluster, `Favorites` which mon is trusted and
when another is, and `MirrorRuns` what is stored and known of each map in the end. Each of these is a value
turned into another value. The objects that the manager really updates in place are classes whose
methods are proved to do what those values do: `SyncMirror.SyncObjects`, `RequestObjects`,
`RequestCollections` and `ClusterMonitors`; `ManagerRuns` gives any sequence of inputs to such an
object and proves that it goes through a run of the model whose events are these inputs, with the
registry of servers failing in it where the object's own registry does.

Every handler is one atomic step, as the locks and `nosleep` blocks of the manager intend. Jobs are
numbered afresh by Salt; replies, maps and heartbeats come in any order, any number of times, and as
late as one likes; they are only required to be truthful: a version is one that the cluster has
reached, and a map is one that it has had. Times are integers given with each message. An exception
is an outcome like any other: methods return whether they raised.

**Servers and services.** `Placements` has services, servers and the one relation between them;
`ServerRegistry` the object whose dictionaries all have to describe that relation, through
heartbeats, three kinds of map and deletions. The agreement is an invariant of every method, also of
those that raise; only the deletion of a cluster can stop halfway, with part of the cluster's list
unregistered. When each entry point raises is worked out on a value, the roll of servers: `Rolls` for
heartbeats, `HostRolls` for OSD maps, `HostOrders` for the order in which the hosts of one are walked,
and `DeletionRolls` for the deletion of a cluster. `RegistryRuns` has sequences of calls.

**CRUSH.** `Crush` has the OSDs that a rule can choose, `CrushParents` the tree upside down,
`CrushPools` the OSDs of pools and the pools of OSDs, and `CrushHosts` the hosts above OSDs. Recursive
walks are proved against paths down the tree, not against another recursion.

**Counting.** `PgDigest` has the digest of placement groups and `HealthCounters` its classification,
with the state names that are tallied beside each count.

**Quorum.** `MonQuorum` reconciles what the mons say of themselves and of each other.

**iSCSI.** `IscsiConfig` and `Iscsi` have the targets, LUNs and images, `StatusParser` the parser of the
daemon's indented report.

## Where the code does less than it means to

- A map is stored, then shown to the registry of servers, and only then to the requests
  (`cluster_monitor.py:352-379`); an exception in between is swallowed (`:280-284`). If the registry
  raises on an OSD map, a request that waits for it is not told, nor later, until another OSD map is
  stored without an exception. `WakeupIsLost` has nine inputs that always end so, and `LoseWakeup` the
  object that does; `NoLostWakeup`, `GoalIsShown` and `TranchesStayWithinLimit` say that this is the only
  way in which a request falls behind.
- The registry does raise on plausible OSD maps: a server made up for a host is struck off when its last
  OSD moves, but stays under its hostname (`server_monitor.py:531-534`), and a new OSD on that host is
  then filed under a name that is gone. `StrayHost` has three maps of which the last fails. `OnOsdMap`
  says which maps are sure to go through, which are sure to fail, and, for a given order of the hosts,
  exactly which fail (`HostOrders.Turn`).
- An error that mon commands report, or an exception while the end of a job is dealt with, leaves
  the job in the index (`request_collection.py:211-221`, `:249-255`). The exception is a growth's whose
  pool is missing in the stored OSD map (`CompleteRaises`). `OnCompletionAgrees` and `IndexIsExact` say
  exactly when; `TickAgrees` says that a later tick raises exactly when it meets such an entry.
- A growth completes without setting pgp_num exactly when a summary reports the final count before
  the last tranche; `OvershootSkipsPgpNum` is such a run. A block size of zero makes it endless
  (`ZeroBlockNeverEnds`).
- `user_request.py:543` checks the PG count before the version, so that an OSD map in between ends a
  growth with an error; `InBetweenMapEnds` says exactly when.
- The fresh epoch of a single mon can be disregarded because of an older dispute
  (`FreshStatusDisregarded`); `NewestBelieved` says exactly when, and `UndisputedStands` that without
  disputes the freshest status is believed.
- The deletion of a cluster deletes, with the last service of an inferred server, whoever is registered
  under that server's name, and stops halfway if nobody is (`server_monitor.py:607-624`); `DeleteCluster`
  says when.
- A reply that carries version 0 is waited for by nobody (`if self._await_version`); the results about
  wakeups are about the versions that requests do await.
- Maps from a mon that is not the favourite are stored, although the log line says otherwise
  (`cluster_monitor.py:369-370`).
- Setting a LUN looks at its new name only: given another number, target name or image, it can break
  what all other operations keep; `SetLunKeeps` says exactly when. The REST view lets through a name and
  a size, which is harmless (`RenamedKeeps`).
- The bound of 255 on ids is compared with the function `max` (`tgt_manager.py:226`) and never applies.
- Choices of buckets that an emit follows directly choose no OSD (`BucketsOnlyChooseNothing`).

## Model

| member | source | states |
|---|---|---|
| `ClusterRuns.ReadYourWrites` | cthulhu/cthulhu/manager/user_request.py:274-290 | in every run, once a map-modifying, pool-creating or PG-creating request is complete without error, the stored OSD map is at least of the version that its last job returned, in that world and every later one, and the request never changes again |
| `ClusterEnds.RequestsEnd` | cthulhu/cthulhu/manager/request_collection.py:53-296 | in every world of every run, a request has ended in error if and only if an earlier message made it fail, and without error if and only if one made it succeed; for each kind of request, both are said of the message and of the fields of request, mirrors and favourite when it came |
| `ClusterEnds.OperationsComplete` | cthulhu/cthulhu/manager/user_request.py:242-290 | in every world of every run, an operation on the OSD map has failed if and only if a Salt failure, an error of its mon commands, a cancellation, a tick or a change of favourite ended it, and is complete without error if and only if the OSD map version that its job made has come, with a map or before the job's end |
| `ClusterEnds.StepGoesOn` | cthulhu/cthulhu/manager/request_collection.py:53-296 | each message ends a request that is under way, in error or well, exactly as said; its jobs grow exactly by a growth's next one, if Salt takes it; and it is known to be alive from the last job or report on |
| `ClusterEnds.ReplyEnds` | cthulhu/cthulhu/manager/request_collection.py:200-296 | the reply to its job ends a request in error or well exactly as said, a map that is stored already being looked at once; a reply to another's job changes nothing |
| `ClusterEnds.TickIsForTheSilent` | cthulhu/cthulhu/manager/request_collection.py:65-81 | a tick ends requests whose job was last known to run more than 60 seconds ago, and all of them, unless it meets one that is complete already |
| `ClusterEnds.RequestIsFiled` | cthulhu/cthulhu/manager/cluster_monitor.py:395-418 | a request is filed if and only if there is a favourite and Salt takes its job, with the commands that were asked for as its first job, on the favourite; no other request changes |
| `ClusterEnds.ReportedAlive` | cthulhu/cthulhu/manager/request_collection.py:97-112 | a report of running jobs sets the time of exactly the requests whose jobs it names |
| `Favorites.FavoriteChanges` | cthulhu/cthulhu/manager/cluster_monitor.py:291-319 | in every run, the favourite changes exactly with a heartbeat of another mon, if there is none yet or more than the timeout has passed since the favourite's own last heartbeat of the run; and then to its sender |
| `Favorites.HeartbeatChooses` | cthulhu/cthulhu/manager/cluster_monitor.py:291-347 | a heartbeat makes its sender the favourite, and ends every request under way, if and only if there is none or the favourite has been silent for longer than the timeout; otherwise both stay; the versions count for the mirrors exactly if the sender is the favourite then |
| `Favorites.BeatsAreRemembered` | cthulhu/cthulhu/manager/cluster_monitor.py:301-302 | the time remembered of a minion is that of its last heartbeat in the run |
| `MirrorRuns.NewestIsStored` | cthulhu/cthulhu/manager/cluster_monitor.py:121-145 | over every run, what is stored of an ordered map is the newest of the maps fetched, whenever and from whomever, or what was there at the start |
| `MirrorRuns.NewestIsKnown` | cthulhu/cthulhu/manager/cluster_monitor.py:68-99 | and what is known is the newest version that the favourite's heartbeats, the maps fetched and the results of jobs have told of |
| `MirrorRuns.AwaitedIsKnown` | cthulhu/cthulhu/manager/request_collection.py:229-239 | in every world of every run, the OSD map version that a request awaits is known of |
| `MirrorRuns.AwaitedIsFetched` | cthulhu/cthulhu/manager/request_collection.py:229-239 | the end of the job makes it known at once, and if it is not stored, a fetch is underway, from now on if none was |
| `ClusterRuns.NoLostWakeup` | cthulhu/cthulhu/manager/cluster_monitor.py:352-379 | in every world of every run, a submitted request waits for a (nonzero) OSD map version that the stored OSD map has already if and only if it waited for it in the step that stored that map, and the registry of servers failed on it, so that no request was told; whichever of the job's reply and the map came first |
| `ClusterRuns.GoalIsShown` | cthulhu/cthulhu/manager/user_request.py:521-530 | in every world of every run, the stored OSD map shows the PG count of the tranche whose PGs a growth waits for, except exactly if that map was stored during the wait and the registry failed on it |
| `ClusterRuns.BehindExactly` | cthulhu/cthulhu/manager/cluster_monitor.py:280-284 | both at once: a request is behind the stored OSD map, in one of these two ways, exactly if it was left behind by the step that stored it |
| `LostWakeup.WakeupIsLost` | cthulhu/cthulhu/manager/cluster_monitor.py:352-379 | whoever manages a cluster with these nine inputs (three OSD maps that move an OSD between two hosts, and an operation whose job makes the third) ends up with a submitted request that waits for the OSD map that is stored; the registry has failed on it by itself, whatever the order in which anything is walked |
| `LostWakeup.LoseWakeup` | cthulhu/cthulhu/manager/cluster_monitor.py:352-379 | the manager as an object, new and given these inputs, does end so: its request waits for the map that it has stored |
| `ClusterRuns.MirrorsAreSafe` | cthulhu/cthulhu/manager/cluster_monitor.py:121-145 | over every run with lost, repeated and reordered replies: a stored epoch never falls, stored is at most known, known at most what the cluster has published, and what is stored is the cluster's own data of that epoch |
| `ClusterRuns.StaleMirrorsAreRepaired` | cthulhu/cthulhu/manager/cluster_monitor.py:68-145 | in every world of every run, a mirror (epochs or hashes) that knows of a better version than it stores has a fetch marked |
| `ClusterRuns.FavoriteIsExclusive` | cthulhu/cthulhu/manager/cluster_monitor.py:389-418 | in every world of every run, every submitted request that went through the cluster is with the current favourite mon |
| `ClusterRuns.IndexAgrees` | cthulhu/cthulhu/manager/request_collection.py:298-319 | in every world of every run, each submitted request with a job out is the index's entry for it, and every entry's request holds that job or is complete with an error |
| `ClusterRuns.IndexIsExact` | cthulhu/cthulhu/manager/request_collection.py:200-255 | the index has no stale entry as long as no reply reports a mon command error or meets an exception in its handling, and the first such reply leaves one |
| `ClusterRuns.HandleKeepsExact` | cthulhu/cthulhu/manager/request_collection.py:211-255 | from an exact index any single message leaves an exact index if and only if it is not such a reply; maps, ticks, cancellations and changes of favourite never spoil it |
| `Deliveries.RequestIsItsRun` | cthulhu/cthulhu/manager/request_collection.py:169-296 | in every world of every run, each request is exactly as its own run over the events that the run's messages delivered to it leaves it, from the submission on |
| `Deliveries.HeardIsRun` | cthulhu/cthulhu/manager/request_collection.py:169-296 | one message does to a request exactly what the events that it delivers to the request do |
| `ClusterGrowths.GrowthsFinish` | cthulhu/cthulhu/manager/user_request.py:485-561 | in every run of the cluster, a growth that completed without error, and was told of no summary that ran ahead, really finished: an earlier step delivered a summary with the final number of PGs out of 'creating', and only then was pgp_num set, and a later step completed it with the stored OSD map showing the final pg_num |
| `ClusterGrowths.GrowthsComplete` | cthulhu/cthulhu/manager/user_request.py:501-510 | in every run of the cluster, a growth that completed without error has submitted its whole script if and only if no message brought it the final count before its last tranche |
| `ClusterGrowths.PoolsAreCreated` | cthulhu/cthulhu/manager/user_request.py:316-348 | in every run of the cluster, behind a pool creation without error there is a step that stored an OSD map as new as its job's with that pool, and a later one that brought a PG summary with all of the pool's PGs out of 'creating' |
| `ClusterGrowths.OvershotExactly` | cthulhu/cthulhu/manager/user_request.py:501-510 | what a growth was told overshot exactly if some message of the run reported the final count while it had tranches to go |
| `ClusterRuns.RunAwaitsLastResult` | cthulhu/cthulhu/manager/user_request.py:274-279 | in every run, the version that such a request awaits is exactly the one that its last successful job returned, none before that |
| `ClusterGrowths.GrowthsKeepToTheirScript` | cthulhu/cthulhu/manager/user_request.py:501-520 | in every world of every run, the jobs of a growth are a prefix of its script, at most one a tranche and one more |
| `ClusterGrowths.TranchesStayWithinLimit` | minion-sim/minion_sim/ceph_cluster.py:1429-1433 | in every run with a fixed OSD count, the pg_num command with which a growth goes on to its next tranche asks for that one's count, which is within the mons' split limit for the goal that it has reached; and that is what the stored OSD map shows then, exactly if no map was stored untold during the wait for it |
| `ClusterRuns.RunKeeps` | cthulhu/cthulhu/manager/cluster_monitor.py:148-194 | the joint invariant of mirrors, requests, index and favourite holds in every world that a run reaches |
| `ClusterRuns.RunFollows` | cthulhu/cthulhu/manager/user_request.py:37-39 | between any two worlds of a run, epochs stored do not fall and every request has only gone on as a run of its own |
| `ManagerRuns.Serve` | cthulhu/cthulhu/manager/cluster_monitor.py:216-284 | the manager as an object, given any sensible sequence of inputs, goes through a run of the model whose i-th event is the i-th input with just those fields; favourite, maps stored and progress of the requests, looked at after every input, are those of the run, and so is everything at the end; its registry has been shown exactly the new maps, and has failed exactly where the run says |
| `ManagerRuns.Take` | cthulhu/cthulhu/manager/cluster_monitor.py:216-284 | one input is one step of the model: the event that the input is, with the registry's own outcome in it |
| `ClusterRuns.HandleDrifts` | cthulhu/cthulhu/manager/request_collection.py:169-198 | any message other than the end of a request's own job lets it go on only by maps, interruptions and sightings, so that the version it awaits stays |
| `ClusterRuns.FinishedAwaits` | cthulhu/cthulhu/manager/user_request.py:274-279 | the end of its job makes a request await exactly the version that the job returned |
| `ClusterSteps.HandleKeeps` | cthulhu/cthulhu/manager/cluster_monitor.py:232-284 | every message that can reach the manager keeps the joint invariant, never lowers a stored epoch, changes requests only as their own runs can, and either tells all submitted requests of a new OSD map or leaves each as far behind as it was |
| `ClusterSteps.NextKeeps` | cthulhu/cthulhu/manager/cluster_monitor.py:232-284 | the same for every step of the world, including the cluster's publishing new maps |
| `ClusterSteps.HeartbeatKeeps` | cthulhu/cthulhu/manager/cluster_monitor.py:326-347 | a heartbeat, with or without a change of favourite, keeps the joint invariant |
| `ClusterSteps.MapReplyKeeps` | cthulhu/cthulhu/manager/cluster_monitor.py:368-387 | the same for a fetched map from any mon, whether the registry fails on it or not: it is stored before requests are told |
| `ClusterSteps.JobReplyKeeps` | cthulhu/cthulhu/manager/request_collection.py:257-296 | the end of a job keeps the joint invariant, and leaves no request behind the stored OSD map that was not |
| `ClusterSteps.PromoteKeeps` | cthulhu/cthulhu/manager/cluster_monitor.py:301-319 | whoever a heartbeat makes the favourite, every submitted request is with it afterwards, and the index still agrees |
| `ClusterSteps.InitialInv` | cthulhu/cthulhu/manager/manager.py:279-308 | whatever maps are replayed from the database at the start, the invariant holds |
| `ClusterSteps.EvolveKeepsFavorite` | cthulhu/cthulhu/manager/cluster_monitor.py:411-413 | requests that only go on, or enter through the favourite, leave all submitted ones with the favourite |
| `SyncMirror.VersionKeepsSafe` | cthulhu/cthulhu/manager/cluster_monitor.py:76-82 | a truthful version report keeps stored <= known <= the cluster's epoch and does not touch what is stored |
| `SyncMirror.FetchKeepsSafe` | cthulhu/cthulhu/manager/cluster_monitor.py:126-138 | any genuine fetched map, however old, keeps that order and leaves a stored epoch at least that of the old one and of the map |
| `SyncMirror.VersionKeepsRepair` | cthulhu/cthulhu/manager/cluster_monitor.py:88-99 | reported by a real minion, a version never leaves a stale mirror without a fetch |
| `SyncMirror.FetchRepairs` | cthulhu/cthulhu/manager/cluster_monitor.py:126-143 | a completed fetch leaves no stale mirror without a new fetch; for hashes it leaves stored = known and no fetch marked |
| `SyncMirror.UnaskedVersionRepair` | cthulhu/cthulhu/manager/cluster_monitor.py:101-106 | with nobody to ask, a version report leaves a mirror under repair exactly when it is no news or a fetch is marked already |
| `SyncMirror.OneFetchAtATime` | cthulhu/cthulhu/manager/cluster_monitor.py:84-99 | however many reports come in while a fetch is underway, no other fetch is started, nor is what is stored touched, before it times out; after that the next report of something that is not stored starts one |
| `MirrorRuns.HearingIsExact` | cthulhu/cthulhu/manager/cluster_monitor.py:68-106 | a version newer than what is stored raises what is known to the newer of the two, and marks a fetch exactly if there is a minion to ask and none has been underway for less than ten seconds |
| `MirrorRuns.FetchingIsExact` | cthulhu/cthulhu/manager/cluster_monitor.py:121-145 | a fetched map is stored exactly if it is newer, known exactly if it is newer, and the mark of the fetch goes, unless something newer is known, which is fetched at once |
| `SyncMirror.SyncObjects.OnVersion` | cthulhu/cthulhu/manager/cluster_monitor.py:68-99 | the three dictionaries change at this type only, and as the rule for version reports says |
| `SyncMirror.SyncObjects.OnFetchComplete` | cthulhu/cthulhu/manager/cluster_monitor.py:121-145 | the three dictionaries change at this type only, as the rule for fetched maps says, and a new object is returned exactly if it was stored |
| `SyncMirror.SyncObjects.Fetch` | cthulhu/cthulhu/manager/cluster_monitor.py:101-119 | marks a fetch, unless there is nobody to ask |
| `SyncMirror.SyncObjects.SetMap` | cthulhu/cthulhu/manager/cluster_monitor.py:55-57 | replaces what is stored of this type and nothing else |
| `Requests.OnMapIsSound` | cthulhu/cthulhu/manager/user_request.py:281-348 | a map reaches a request only while it has no job out, and leaves either an exception that can still be settled or a sound request with at most one job more |
| `Requests.CompleteJidIsSound` | cthulhu/cthulhu/manager/user_request.py:140-153 | the end of a job never raises for a submitted request with a job, and leaves it sound and without one |
| `Requests.SubmitIsSound` | cthulhu/cthulhu/manager/user_request.py:126-135 | a request whose first job is accepted is submitted, sound, and holds that job |
| `Requests.AbandonIsSound` | cthulhu/cthulhu/manager/request_collection.py:188-195 | a submitted request can always be given up: it ends complete, with an error, without a job |
| `Requests.RaisedIsSubmitted` | cthulhu/cthulhu/manager/request_collection.py:188-195 | code that raises on a map does so before the request completes and without having started a job, so that giving it up cannot raise again |
| `RequestRuns.RunStays` | cthulhu/cthulhu/manager/user_request.py:37-39 | whatever happens to a request, its plan and minion stay, complete stays complete, and a success never changes again |
| `RequestEnds.MapAnswered` | cthulhu/cthulhu/manager/user_request.py:281-561 | for every kind of request and any map: when it ends the request in error, when well, and when it makes a growth send its next job, which is then the next tranche or pgp_num; in terms of what the map shows |
| `RequestEnds.GrowthMoves` | cthulhu/cthulhu/manager/user_request.py:485-561 | a growth waits for PGs exactly from the first OSD map of its job's version on, its goal rises by a block with each job, and what is still to be created is counted from each summary |
| `RequestEnds.PoolFound` | cthulhu/cthulhu/manager/user_request.py:329-346 | a new pool is found with the first OSD map of the job's version, by its name, with that map's PG count; nothing else changes a pool creation that goes on |
| `RequestEnds.JobEnds` | cthulhu/cthulhu/manager/user_request.py:140-153 | the end of its job completes a plain request; the others await the version that it returned |
| `RequestEnds.Starts` | cthulhu/cthulhu/manager/user_request.py:126-135 | a submitted request has, on that mon, one job, which is exactly the commands asked for; for a growth with the first tranche's pg_num after them |
| `RequestEnds.FirstJobIsAsked` | cthulhu/cthulhu/manager/user_request.py:126-135 | however it goes on, that stays its first job, and no job is taken back |
| `RequestRuns.StepIsSound` | cthulhu/cthulhu/manager/user_request.py:126-164 | every event keeps a request sound |
| `RequestObjects.UserRequest.Submit` | cthulhu/cthulhu/manager/user_request.py:126-135 | the object is left exactly as the value-level submission says, and the Salt client has handed out exactly the jobs added |
| `RequestObjects.UserRequest.CompleteJid` | cthulhu/cthulhu/manager/user_request.py:462-469 | the object is left as the value-level rule for the end of a job says, for each kind of request, raising when that does |
| `RequestObjects.UserRequest.OnMap` | cthulhu/cthulhu/manager/user_request.py:485-561 | the object is left as the value-level rule for maps says, for each kind and phase, raising when that does |
| `RequestObjects.UserRequest.OnMapPool` | cthulhu/cthulhu/manager/user_request.py:316-348 | the same for a pool that is being created, whose pool is looked for by name |
| `RequestObjects.UserRequest.OnPgSummaryGrowth` | cthulhu/cthulhu/manager/user_request.py:488-520 | the same for a PG summary that reaches a growing pool |
| `RequestObjects.UserRequest.OnOsdMapGrowth` | cthulhu/cthulhu/manager/user_request.py:536-559 | the same for the OSD map that a growing pool's job made; its PG count is checked before its version |
| `GrowthRuns.GrowthReallyFinished` | cthulhu/cthulhu/manager/user_request.py:485-561 | a growth that completes without error and was never overshot: at some moment a summary showed at least the final number of PGs out of 'creating', only then was pgp_num set, and later the OSD map that completed it showed the final pg_num |
| `GrowthRuns.GrowthCompletes` | cthulhu/cthulhu/manager/user_request.py:501-510 | a growth that completes without error has submitted its whole script, pgp_num last and once, if and only if no summary reported the final count before the last tranche |
| `GrowthRuns.GrowthJobs` | cthulhu/cthulhu/manager/user_request.py:385-405 | in any run a growth submits at most ceil((final-initial)/block)+1 jobs, those of its script in order |
| `GrowthRuns.GrowthTerminates` | cthulhu/cthulhu/manager/user_request.py:419-425 | in any run the number of phase changes is bounded by three a job, by a measure that falls at each |
| `GrowthRuns.MeasureFalls` | cthulhu/cthulhu/manager/user_request.py:419-425 | the measure never rises and falls whenever phase or state changes |
| `GrowthRuns.JobAnswersSummary` | cthulhu/cthulhu/manager/user_request.py:501-520 | every job after the first answers a PG summary that reaches the current goal, and the last one a summary of the final count |
| `GrowthRuns.CompletionSeesPgNum` | cthulhu/cthulhu/manager/user_request.py:548-555 | only an OSD map of the awaited version with the expected PG count completes a growth without error |
| `GrowthRuns.InBetweenMapEnds` | cthulhu/cthulhu/manager/user_request.py:536-559 | while a growth waits for the OSD map of its job, a map that has the pool ends it with an error if and only if the PG count differs from the tranche's, however old the map is (or the job came back with version 0); an older map changes nothing exactly if the count is the tranche's |
| `GrowthRuns.RunOnScript` | cthulhu/cthulhu/manager/user_request.py:408-445 | every run keeps goal, jobs sent and PGs still to create in step with the script |
| `PoolRuns.PoolReallyCreated` | cthulhu/cthulhu/manager/user_request.py:316-348 | a pool creation that completes without error really finished: an OSD map as new as its job's showed the pool under its name, and after that a PG summary showed at least that pool's PG count out of 'creating' |
| `PoolRuns.CompletionSeesPgs` | cthulhu/cthulhu/manager/user_request.py:317-327 | only such a summary, for the pool that was found, completes the creation without error |
| `PoolRuns.StepFindsPool` | cthulhu/cthulhu/manager/user_request.py:329-346 | the wait for PGs starts only with a map of the awaited version that has the pool, and keeps to that pool and count |
| `GrowthLimits.OvershootSkipsPgpNum` | cthulhu/cthulhu/manager/user_request.py:485-561 | a concrete run: a summary that runs ahead makes a growth complete without error though pgp_num was never set |
| `GrowthLimits.ZeroBlockNeverEnds` | cthulhu/cthulhu/manager/user_request.py:366-368 | with a block size of zero, for any n some run submits n+1 jobs and is still at its initial goal |
| `GrowthLimits.JobsRespectLimit` | cthulhu/cthulhu/manager/pool_request_factory.py:114-130 | each later pg_num command of a growth made by the factory asks for the count of its tranche, and that is within the split limit at the goal reached before |
| `GrowthLimits.FirstJobRespectsLimit` | cthulhu/cthulhu/manager/pool_request_factory.py:114-130 | the first pg_num command, too, rises and is within the limit at the pool's count, and comes after the other commands |
| `GrowthLimits.FactoryGrowthCompletes` | cthulhu/cthulhu/manager/pool_request_factory.py:94-130 | a growth made by the factory that completes without error, not overshot, has last set pg_num to what the update asked for, and then pgp_num, to the same if the update had none |
| `PoolGrowth.TranchesRise` | cthulhu/cthulhu/manager/user_request.py:366-368 | the goals rise strictly, by at most one block, from initial to final, which is reached exactly at tranche ceil((final-initial)/block) |
| `PoolGrowth.TranchesRespectLimit` | minion-sim/minion_sim/ceph_cluster.py:1429-1433 | although the block size is computed once from the initial count, every tranche obeys the limit of the count at which it is requested |
| `PoolGrowth.AdvanceIsNextTranche` | cthulhu/cthulhu/manager/user_request.py:366-368 | advancing the goal of one tranche gives that of the next, while there is one |
| `PoolGrowth.EmptyBlockNeverAdvances` | cthulhu/cthulhu/manager/user_request.py:366-368 | with an empty block no tranche leaves the initial count |
| `Wakeups.SuccessServed` | cthulhu/cthulhu/manager/request_collection.py:226-247 | after the end of a job is dealt with, the request waits neither for a map nor for PGs as if it had not seen what is stored: the map is looked for at once |
| `Wakeups.TakesOsdMap` | cthulhu/cthulhu/manager/user_request.py:281-290 | an OSD map at least as new as the one before, once handed over, leaves a request that is not behind it, and whose success is visible in it |
| `Wakeups.TakesOtherMap` | cthulhu/cthulhu/manager/user_request.py:485-520 | maps of other types neither leave a request behind the stored OSD map nor bring it up to it, except by a job of its own |
| `RequestIndex.OnCompletionAgrees` | cthulhu/cthulhu/manager/request_collection.py:257-319 | the end of any job keeps the agreement of requests and index; it stays exact if and only if the reply leaves no stale entry, that is, reports no mon command error and does not end the job of a growth whose pool the stored OSD map lacks; and it raises exactly if it meets a stale entry by a Salt failure or a plain Salt call |
| `RequestIndex.TickAgrees` | cthulhu/cthulhu/manager/request_collection.py:65-81 | a tick ends overdue requests, keeps the agreement, and raises exactly if it walks onto a stale entry, whose request is overdue but complete |
| `RequestIndex.OnMapAllAgrees` | cthulhu/cthulhu/manager/request_collection.py:169-198 | a map handed to all submitted requests keeps agreement and exactness, and leaves each of them as its own code and the exception handler do, once |
| `RequestIndex.FailAllAgrees` | cthulhu/cthulhu/manager/request_collection.py:144-155 | failing all leaves every submitted request complete with an error and without a job, the others untouched, and the agreement kept, in whatever order |
| `RequestIndex.SubmitAgrees` | cthulhu/cthulhu/manager/request_collection.py:157-166 | submission keeps agreement and exactness, accepted or not |
| `RequestIndex.SubmitEffect` | cthulhu/cthulhu/manager/request_collection.py:157-167 | submission raises exactly if Salt refuses the job, and then files nothing |
| `RequestIndex.OnTickResponseAgrees` | cthulhu/cthulhu/manager/request_collection.py:97-112 | a report of running jobs changes only when requests were last seen, and no success |
| `RequestIndex.FailAgrees` | cthulhu/cthulhu/manager/request_collection.py:149-155 | ending a submitted request keeps the agreement and takes its job out of the index |
| `RequestIndex.OnMapOneAgrees` | cthulhu/cthulhu/manager/request_collection.py:181-195 | one request's handling of a map, with or without an exception, keeps agreement and exactness |
| `RequestIndex.CompleteSuccessAgrees` | cthulhu/cthulhu/manager/request_collection.py:223-255 | a successful completion keeps the agreement, and leaves a stale entry exactly if it is a growth's whose pool the stored OSD map, new enough already, lacks |
| `RequestIndex.CompleteRaises` | cthulhu/cthulhu/manager/request_collection.py:226-255 | the request's code raises at the end of its job exactly in that case |
| `RequestIndex.OnRadosAgrees` | cthulhu/cthulhu/manager/request_collection.py:200-255 | the end of a rados job keeps the agreement, and exactness exactly if it reports no error and is not of a growth whose pool is gone |
| `RequestIndex.UpdateAgrees` | cthulhu/cthulhu/manager/request_collection.py:298-319 | moving the index along with a sound change of one request keeps agreement and exactness |
| `CollectionRuns.OnCompletionEffect` | cthulhu/cthulhu/manager/request_collection.py:257-296 | the end of a job concerns no request but the one that the index gives for it |
| `CollectionRuns.OnCompletionFinishes` | cthulhu/cthulhu/manager/request_collection.py:257-296 | that request had this job out, and goes on from the end of the job only by maps |
| `CollectionRuns.FailAllUndisturbed` | cthulhu/cthulhu/manager/request_collection.py:144-155 | after failing all, no request is submitted, and each has ended or is as it was |
| `RequestCollections.RequestCollection.Submit` | cthulhu/cthulhu/manager/request_collection.py:157-167 | the two dictionaries and the request objects are left as the value-level submission says, and still agree |
| `RequestCollections.RequestCollection.OnMap` | cthulhu/cthulhu/manager/request_collection.py:169-198 | the same for a new map, in whatever order the submitted requests are walked |
| `RequestCollections.RequestCollection.OnCompletion` | cthulhu/cthulhu/manager/request_collection.py:257-296 | the same for the end of a job, together with the mirror of the OSD map, raising when the value-level rule does |
| `RequestCollections.RequestCollection.Tick` | cthulhu/cthulhu/manager/request_collection.py:53-81 | the same for a tick, with the overdue requests that were walked before it raised |
| `RequestCollections.RequestCollection.FailAll` | cthulhu/cthulhu/manager/request_collection.py:144-155 | the same for failing all submitted requests |
| `RequestCollections.RequestCollection.Cancel` | cthulhu/cthulhu/manager/request_collection.py:114-132 | the same for a cancellation, which a complete request ignores |
| `RequestCollections.RequestCollection.OnTickResponse` | cthulhu/cthulhu/manager/request_collection.py:97-112 | the same for a report of running jobs |
| `RequestCollections.RequestCollection.UpdateIndex` | cthulhu/cthulhu/manager/request_collection.py:298-319 | the index forgets the old job and learns the new one, if they differ |
| `RequestCollections.RequestCollection.OnAwaitedMap` | cthulhu/cthulhu/manager/request_collection.py:185-195 | a request that awaits a map takes it, and is ended without the index if its code raises |
| `RequestCollections.RequestCollection.OnRadosCompletion` | cthulhu/cthulhu/manager/request_collection.py:200-255 | the end of a rados job, whose error or exception leaves the index alone |
| `RequestCollections.RequestCollection.OnSuccess` | cthulhu/cthulhu/manager/request_collection.py:223-255 | a successful completion, with the awaited version made known and a map already stored handed over at once |
| `ClusterMonitors.ClusterMonitor.OnHeartbeat` | cthulhu/cthulhu/manager/cluster_monitor.py:326-347 | mirrors, requests and favourite are left as the value-level rule for heartbeats says |
| `ClusterMonitors.ClusterMonitor.OnSyncObject` | cthulhu/cthulhu/manager/cluster_monitor.py:352-387 | the same for a fetched map, stored whoever sent it and shown to the registry before the requests; the registry's roster is left as its entry point says of that map, and what it raises is what keeps the map from the requests; without news the registry is not touched |
| `ClusterMonitors.ClusterMonitor.Show` | cthulhu/cthulhu/manager/cluster_monitor.py:356-361 | which map goes to which entry point of the registry, with the roster afterwards and the failure that the entry point promises; nothing else of the manager changes |
| `ClusterMonitors.ClusterMonitor.OnTick` | cthulhu/cthulhu/manager/request_collection.py:53-81 | the same for a tick, with the overdue requests that were walked |
| `ClusterMonitors.ClusterMonitor.IsFavorite` | cthulhu/cthulhu/manager/cluster_monitor.py:291-319 | the same for the choice of the favourite, and true exactly if the minion is the favourite afterwards |
| `ClusterMonitors.ClusterMonitor.SetFavorite` | cthulhu/cthulhu/manager/cluster_monitor.py:389-393 | every submitted request is failed before the favourite changes |
| `ClusterMonitors.ClusterMonitor.MakeRequest` | cthulhu/cthulhu/manager/cluster_monitor.py:395-418 | a request goes to the favourite; it fails, and is not filed, exactly if there is none or Salt refuses its job |
| `ClusterMonitors.ClusterMonitor.OnJobReply` | cthulhu/cthulhu/manager/request_collection.py:223-247 | the end of a job leaves requests and the OSD map's mirror as the value-level rule says |
| `Cluster.HearInTurnIsHearAll` | cthulhu/cthulhu/manager/cluster_monitor.py:343-347 | in whatever order the types of a heartbeat are taken, the mirrors end the same |
| `ServerRegistry.RegistryAgrees` | cthulhu/cthulhu/manager/server_monitor.py:120-135 | in every valid state, a reachable server holds a service exactly if the service is registered and points to it, and a service is registered exactly if its own cluster, and no other, lists it, once |
| `Placements.HeartbeatIsExact` | cthulhu/cthulhu/manager/server_monitor.py:470-487 | after a heartbeat the services held by that server and running are exactly those it reported, with that status; no other server holds any of them; everything else is unchanged but for running |
| `ServerRegistry.ServerMonitor.OnServerHeartbeat` | cthulhu/cthulhu/manager/server_monitor.py:371-482 | finds, takes over or creates the right server, keeps all dictionaries in agreement, and, unless it raises, changes the relation of services to servers exactly so; where it raises, part of the report has been registered, and nothing else has changed place; if names are in order, it raises if and only if its sender cannot be found, or it takes the last services from an inferred server that is not registered any more |
| `Rolls.HeartbeatFound` | cthulhu/cthulhu/manager/server_monitor.py:381-432 | whose heartbeat it is, in terms of names only: the server of that name, else an unmanaged one of that hostname, which takes the name, else a new one; it is managed and has the name then, and all others are called what they were; it raises there exactly if Salt does not know the sender or its old name is gone |
| `ServerRegistry.ServerMonitor.StopUnseen` | cthulhu/cthulhu/manager/server_monitor.py:476-482 | the symmetric difference that picks stopped services is a plain difference, and exactly they stop |
| `ServerRegistry.ServerMonitor.FindServer` | cthulhu/cthulhu/manager/server_monitor.py:381-432 | a registered name gives its server; else an unmanaged server of that hostname is taken over, raising exactly if its old name is gone; else a new server is made, also on a hostname clash |
| `ServerRegistry.ServerMonitor.RegisterService` | cthulhu/cthulhu/manager/server_monitor.py:489-534 | the service ends on this server as reported, new or moved; its old server is struck off exactly if it is another, unmanaged and left empty; it raises exactly if there is no server of that name for a new service, or the empty server is not registered |
| `ServerRegistry.ServerMonitor.RegisterAll` | cthulhu/cthulhu/manager/server_monitor.py:470-474 | services are registered one after another in any order; if names are in order, one of them raises if and only if a service is new and the server is not registered, or they are all that some other inferred, unregistered server holds |
| `ServerRegistry.ServerMonitor.InjectService` | cthulhu/cthulhu/manager/server_monitor.py:254-259 | a new service enters all dictionaries, or, if no server has that name, none |
| `ServerRegistry.ServerMonitor.ForgetService` | cthulhu/cthulhu/manager/server_monitor.py:261-267 | a service leaves all dictionaries |
| `ServerRegistry.ServerMonitor.InjectServer` | cthulhu/cthulhu/manager/server_monitor.py:250-252 | a new server enters both dictionaries of servers and holds nothing |
| `ServerRegistry.ServerMonitor.OnOsdMap` | cthulhu/cthulhu/manager/server_monitor.py:269-329 | services other than the cluster's OSDs are untouched, and OSDs that the map does not have are forgotten. If no OSD is under two hosts, each one that it has is on its host's server, up or down as the map says, unless that server reports itself, or nobody knows the host and it has an OSD of a server that does: then it is where it was. If also names are in order, it raises if and only if one of the hosts, in the order in which they are walked, fails at its turn, which is said of the roster before the map; a raising map, too, has moved OSDs only where it places them, and renamed or forgotten no server. In any case it does not raise if every host is steady, and does if a new OSD is under a struck-off server's host and no other |
| `HostOrders.Turn` | cthulhu/cthulhu/manager/server_monitor.py:284-323 | at its turn a host of the map raises if and only if it moves OSDs and, of the roster before the map: it has a new OSD and its server was not registered, or was emptied and struck off by hosts walked before; or it takes the last OSDs that another unregistered server has left |
| `HostOrders.MovedTurn` | cthulhu/cthulhu/manager/server_monitor.py:284-323 | after a host that is not an alias, each OSD is where the hosts walked so far have moved it last, and a server is registered exactly if it was, or was made, and has not been emptied in between |
| `HostRolls.HostSettles` | cthulhu/cthulhu/manager/server_monitor.py:284-323 | once dealt with, a host's OSDs are all on its server as the map says, or all where they were, which is decided by the roster before the map |
| `ServerRegistry.ServerMonitor.OnHost` | cthulhu/cthulhu/manager/server_monitor.py:284-323 | a CRUSH alias and a managed server change nothing; an unmanaged server, found or made, gets the host's OSDs, raising exactly when registering them does |
| `ServerRegistry.ServerMonitor.OnMdsMap` | cthulhu/cthulhu/manager/server_monitor.py:331-345 | exactly the cluster's MDS services that the map does not list are forgotten |
| `ServerRegistry.ServerMonitor.OnMonMap` | cthulhu/cthulhu/manager/server_monitor.py:347-359 | exactly the cluster's mon services that the map does not list are forgotten |
| `ServerRegistry.ServerMonitor.Delete` | cthulhu/cthulhu/manager/server_monitor.py:588-605 | the server and exactly its services are gone, and all dictionaries agree; it raises, changing nothing, exactly if no server has that name |
| `ServerRegistry.ServerMonitor.DeleteCluster` | cthulhu/cthulhu/manager/server_monitor.py:607-624 | unless it raises, no service of the cluster is left, and only servers registered under the name of an inferred one that held one are gone; where it raises, an unregistered inferred server has lost its last service; if no such server's name is taken by another, it raises if and only if one of them, with services of this cluster only, is not registered, and otherwise takes exactly the cluster's services and exactly the unmanaged servers left with none |
| `Rolls.FailsLater` | cthulhu/cthulhu/manager/server_monitor.py:489-534 | with one service of a report registered, the rest fails exactly if the whole would have, so that the order does not matter |
| `Rolls.HeartbeatFails` | cthulhu/cthulhu/manager/server_monitor.py:381-432 | once the sender is found, its report fails exactly if it takes the last services from a struck-off server |
| `HostRolls.SteadyHandled` | cthulhu/cthulhu/manager/server_monitor.py:284-329 | a steady host does not fail and leaves the other hosts of the map steady |
| `HostRolls.StrayHandled` | cthulhu/cthulhu/manager/server_monitor.py:284-323 | a host whose server was struck off stays so whatever other hosts have, and a new OSD under it fails |
| `DeletionRolls.OrderlyFails` | cthulhu/cthulhu/manager/server_monitor.py:607-624 | a deletion that fails meets an unregistered inferred server which held services of this cluster only |
| `DeletionRolls.OrderlyDone` | cthulhu/cthulhu/manager/server_monitor.py:607-624 | one that ends met none, took exactly the cluster's services, and exactly the inferred servers that were left with none |
| `DeletionRolls.DeletionLeaves` | cthulhu/cthulhu/manager/server_monitor.py:607-624 | whatever is left of the placements is as it was; all services of other clusters are, on servers that are still there; and none of the cluster's, unless the deletion raises |
| `RegistryRuns.ServeAll` | cthulhu/cthulhu/manager/server_monitor.py:120-135 | a new registry, asked any sequence of heartbeats, maps and deletions, gives to each exactly the answer that its entry point promises to the roster that the one before has left; its dictionaries agree after each, also one that raises, except for a deletion of a cluster that stops halfway |
| `RegistryRuns.StrayHost` | cthulhu/cthulhu/manager/server_monitor.py:531-534 | a new registry, shown three OSD maps, for any two hosts and two OSDs, raises on the last and not before |
| `RegistryRuns.StrayTrail` | cthulhu/cthulhu/manager/server_monitor.py:531-534 | so do any answers to these maps, in whatever order hosts and services are walked |
| `ServerRegistry.ServerMonitor.Expunge` | cthulhu/cthulhu/manager/server_monitor.py:531-534 | an unmanaged server without services is struck off, and no other |
| `Placements.PrunedInferred` | cthulhu/cthulhu/manager/server_monitor.py:318-329 | placing OSDs by hosts and then pruning gives what an OSD map is said to leave |
| `Crush.RuleIsExact` | calamari-common/calamari_common/types.py:169-173 | any rule, on a tree in which no type that it chooses is both an OSD's and a bucket's, chooses exactly the OSDs that some take reaches down a path meeting the chosen types in order, each strictly below the last; a take of an OSD chooses that one |
| `Crush.ChoiceIsExact` | calamari-common/calamari_common/types.py:144-167 | any steps after a take choose exactly the OSDs reached through the types chosen up to a choice of OSDs or of leaves, and none without such a choice |
| `Crush.OsdsAreChosen` | calamari-common/calamari_common/types.py:144-156 | choices of bucket types followed by a choice of an OSD type choose the OSDs reached through all of them, whatever comes then |
| `Crush.LeavesAreChosen` | calamari-common/calamari_common/types.py:144-163 | the same with a choice of leaves, which chooses all OSDs below the nodes of the last type |
| `Crush.GetCrushRuleOsds` | calamari-common/calamari_common/types.py:117-173 | the walk over a rule returns exactly the OSDs that it chooses, in terms of the steps and of the paths down the tree |
| `Crush.GatherOsds` | calamari-common/calamari_common/types.py:144-167 | the recursive walk returns exactly the OSDs reached down such paths, and terminates on any acyclic tree |
| `Crush.GatherLeafIds` | calamari-common/calamari_common/types.py:120-131 | returns exactly the OSDs to which some way down leads |
| `Crush.GatherDescendantIds` | calamari-common/calamari_common/types.py:133-142 | returns exactly the nodes of the type to which a way down leads that meets none of it before |
| `Crush.ReachesStep` | calamari-common/calamari_common/types.py:150-162 | going through types in order is going to a nearest node of the first and on from there |
| `Crush.BucketsOnlyChooseNothing` | calamari-common/calamari_common/types.py:150-165 | choices among bucket types with no choice of OSDs or leaves after them choose no OSD at all |
| `CrushParents.ParentBucketByNodeId` | calamari-common/calamari_common/types.py:87-100 | the map has exactly the nodes with parents, each with its parents in the tree's order, one for each id |
| `CrushParents.ParentsAreExact` | calamari-common/calamari_common/types.py:87-100 | the parents found are exactly the nodes that have the child, when ids are distinct, and never two of one id |
| `CrushParents.ParentsInOrder` | calamari-common/calamari_common/types.py:87-100 | and they are in the order in which the nodes are listed |
| `CrushParents.LookupAncestry` | rest-api/calamari_rest/views/crush_node.py:6-20 | one ancestry for each direct parent, going up by first parents to a node without any; it terminates on any acyclic map |
| `CrushParents.AncestryIsWayDown` | rest-api/calamari_rest/views/crush_node.py:6-20 | read backwards an ancestry is a way down the tree to the OSD from a node that is nobody's child |
| `CrushPools.PoolsByOsd` | calamari-common/calamari_common/types.py:173-224 | from the CRUSH tree and the rules, a pool is listed for an OSD of the map, and once, if and only if no rule fits the pool or the last one that fits reaches the OSD through the tree |
| `CrushPools.OsdsByRuleId` | calamari-common/calamari_common/types.py:175-182 | for each rule id, exactly the OSDs that the last rule of that id can choose, each once |
| `CrushPools.OsdsByPool` | calamari-common/calamari_common/types.py:184-208 | the last rule of the pool's ruleset whose size range fits decides its OSDs; without one, all OSDs |
| `CrushPools.FitsBySize` | calamari-common/calamari_common/types.py:184-208 | a rule is for pools of its ruleset whose size is neither below its range nor above |
| `CrushPools.OsdPools` | calamari-common/calamari_common/types.py:210-224 | the exact inverse of that relation for the OSDs that the map has, each pool once |
| `CrushHosts.GetHostnameToOsds` | cthulhu/cthulhu/manager/server_monitor.py:198-248 | an OSD is listed under a host exactly if the map has it and the host is the last one above it in the tree's list, so never under two |
| `CrushHosts.FindDescendants` | cthulhu/cthulhu/manager/server_monitor.py:213-220 | returns exactly the nearest OSD-typed nodes, or the node itself |
| `CrushHosts.LastHostCounts` | cthulhu/cthulhu/manager/server_monitor.py:229-233 | the host of an OSD is the last node in the list that is a host with a way down to the OSD; without such a node it has none |
| `MonQuorum.GetMons` | rest-api/calamari_rest/views/v2.py:1115-1189 | the three loops give what the three passes, as functions, give |
| `MonQuorum.ReportsRestOnFreshest` | rest-api/calamari_rest/views/v2.py:1130-1179 | every mon reported in quorum is backed by a status than which none has a later epoch, which lists it or is its own and lists itself |
| `MonQuorum.DisagreementMeansNoQuorum` | rest-api/calamari_rest/views/v2.py:1139-1143 | if two statuses of the latest epoch disagree about the quorum, nobody is reported in it |
| `MonQuorum.StoppedIsNotInQuorum` | rest-api/calamari_rest/views/v2.py:1161-1170 | a mon that has a status but does not run is never reported in quorum |
| `MonQuorum.NoneOrMajority` | rest-api/calamari_rest/views/v2.py:1181-1187 | the number reported is zero or more than half of the mons |
| `MonQuorum.CountIs` | rest-api/calamari_rest/views/v2.py:1181-1187 | what is counted is the number of mons that are believed |
| `MonQuorum.UndisputedStands` | rest-api/calamari_rest/views/v2.py:1130-1143 | if given statuses of one epoch never disagree about the quorum, the freshest of all is the one believed, whoever gave it, and its epoch the lowest valid one |
| `MonQuorum.UndisputedReports` | rest-api/calamari_rest/views/v2.py:1145-1187 | then a mon is reported in quorum if and only if it has a vote, and more than half of the mons have: a vote is to be listed by the freshest status, unless the mon does not run, was never elected, or is of that epoch itself and does not list itself |
| `MonQuorum.ReportsAreVotes` | rest-api/calamari_rest/views/v2.py:1145-1187 | the same for all statuses, disputed or not: nobody is reported if the latest epoch is not valid, and otherwise those with a vote, if they are more than half; statuses of older epochs have no vote if none of the latest is believed |
| `MonQuorum.ClusterDecides` | rest-api/calamari_rest/views/v2.py:1130-1143 | if no mon's status is later than the cluster's, that one is believed, and its epoch valid exactly if nobody of that epoch disagrees |
| `MonQuorum.LatestDecides` | rest-api/calamari_rest/views/v2.py:1130-1143 | otherwise the first mon's status of the latest epoch is believed exactly if the disputes before it left the lowest valid epoch below, and that epoch is valid exactly if nobody of it disagrees, nor it with what was believed before |
| `MonQuorum.LowestIsNear` | rest-api/calamari_rest/views/v2.py:1130-1143 | the lowest valid epoch is the latest one given, or the next |
| `MonQuorum.FarAheadIsBelieved` | rest-api/calamari_rest/views/v2.py:1130-1143 | a status alone two epochs ahead of those before it is believed, whatever disputes there were |
| `MonQuorum.NewestBelieved` | rest-api/calamari_rest/views/v2.py:1133-1143 | a status newer than all others, a mon's own, is believed if and only if the disputes among the statuses before it have left the lowest valid epoch below its own; otherwise none is |
| `MonQuorum.FreshStatusDisregarded` | rest-api/calamari_rest/views/v2.py:1139-1143 | concrete reports where an undisputed latest status with all mons in quorum is disregarded, since an older dispute had raised the lowest valid epoch |
| `PgDigest.PgSummary` | salt/srv/salt/_modules/ceph.py:167-210 | the three dictionaries are the fold over the PG list |
| `PgDigest.DigestIsExact` | salt/srv/salt/_modules/ceph.py:167-210 | every entry, overall, of a pool or of an OSD, is the number of PGs (of acting-set places) counted from the list |
| `PgDigest.DigestTotals` | salt/srv/salt/_modules/ceph.py:167-210 | overall counts add up to the number of PGs, per-OSD counts to the lengths of the acting sets |
| `PgDigest.DigestSums` | salt/srv/salt/_modules/ceph.py:189-204 | any weighted sum read off the digest is that sum over the PGs |
| `PgDigest.CountNotCreating` | cthulhu/cthulhu/manager/user_request.py:493-496 | the loop over a pool's tally counts the PGs whose state is not 'creating' |
| `PgDigest.NotCreatingIsExact` | cthulhu/cthulhu/manager/user_request.py:493-496 | read off the digest, that is the number of the pool's PGs out of 'creating' |
| `PgDigest.TokensRoundTrip` | cthulhu/cthulhu/manager/user_request.py:494-494 | splitting a combined state name loses nothing and leaves no separator |
| `PgDigest.TokensAreParts` | cthulhu/cthulhu/manager/user_request.py:494-494 | and gives exactly the parts between separators |
| `PgDigest.CreatingIsPart` | cthulhu/cthulhu/manager/user_request.py:493-496 | a PG counts as being created exactly if that is one of the parts of its state's name |
| `HealthCounters.CalculatePgCounters` | rest-api/calamari_rest/views/v1.py:213-251 | each of the three counters, count and tally by state name, is the sum over the digest of what a state adds to it, unknown states being critical |
| `HealthCounters.PgCounterHelper` | rest-api/calamari_rest/views/v1.py:202-210 | adds the count once, and under each state name of the class, exactly if there is one |
| `HealthCounters.CountersAreDirect` | rest-api/calamari_rest/views/v1.py:213-251 | read off a digest, such a counter is the number of PGs in the list that its class takes, and under each name the number counted from the list |
| `HealthCounters.CounterByName` | rest-api/calamari_rest/views/v1.py:158-162 | which counter a PG goes to, by the twenty state names: critical if its state has a critical name in it, in whatever case, else warning, else ok; critical also if it has none of them |
| `HealthCounters.TallyByName` | rest-api/calamari_rest/views/v1.py:202-236 | and which names it is tallied under: each of the deciding class that its state has, once; without such a class each part of its state, as often as it occurs |
| `HealthCounters.EveryPgCountedOnce` | rest-api/calamari_rest/views/v1.py:213-251 | whatever states the PGs are in, the counters add up to the number of PGs |
| `HealthCounters.CountersPartition` | rest-api/calamari_rest/views/v1.py:222-236 | the three counts of any tally add up to the whole |
| `IscsiConfig.RunKeeps` | rest-api/calamari_rest/sservice/iscsi/target.py:205-325 | over every run of target and LUN operations, LUN numbers are distinct across all targets, target ids and names are distinct, and the image behind a configured LUN was created and not removed since |
| `IscsiConfig.ImageGoesWithLastLun` | rest-api/calamari_rest/sservice/iscsi/target.py:293-325 | deleting a LUN removes its image exactly when no LUN left in any target has it, and no other image |
| `IscsiConfig.AddedLun` | rest-api/calamari_rest/sservice/iscsi/target.py:205-251 | adding makes exactly one LUN more among those of all targets, as asked for and with a number above all others |
| `IscsiConfig.Adds` | rest-api/calamari_rest/sservice/iscsi/target.py:205-251 | adding raises, changing nothing, exactly if the storage is not rbd, there is no such target, or it has a LUN of that name, or one in that pool and one with that image; otherwise the image is created |
| `IscsiConfig.Sets` | rest-api/calamari_rest/sservice/iscsi/target.py:260-285 | setting raises, changing nothing, exactly if the target has no such LUN, or another one with the new name |
| `IscsiConfig.Deletes` | rest-api/calamari_rest/sservice/iscsi/target.py:293-325 | deleting raises, changing nothing, exactly if the target has no such LUN |
| `IscsiConfig.Renames` | rest-api/calamari_rest/sservice/iscsi/target.py:345-365 | renaming raises, changing nothing, exactly if there is no such target, or one of the new name; otherwise that target and its LUNs have the new name, and nothing else changes |
| `IscsiConfig.Creates` | rest-api/calamari_rest/sservice/iscsi/tgt_manager.py:237-261 | creating raises exactly if the name is taken; otherwise there is one target more, without LUNs, numbered above all others |
| `IscsiConfig.Removes` | rest-api/calamari_rest/sservice/iscsi/tgt_manager.py:273-290 | removing raises exactly if there is no target of that name without LUNs; otherwise all others are left, images included |
| `IscsiConfig.RemovesById` | rest-api/calamari_rest/sservice/iscsi/tgt_manager.py:297-315 | the same, by id |
| `IscsiConfig.ChangedLun` | rest-api/calamari_rest/sservice/iscsi/target.py:260-285 | setting changes exactly the LUN of that number in that target, in whatever fields are given, and no other |
| `IscsiConfig.ChangesAre` | rest-api/calamari_rest/sservice/iscsi/target.py:280-281 | each field is as asked for, or as it was |
| `IscsiConfig.DeletedLun` | rest-api/calamari_rest/sservice/iscsi/target.py:293-325 | deleting takes out exactly the LUN of that number in that target |
| `IscsiConfig.AddLunKeeps` | rest-api/calamari_rest/sservice/iscsi/target.py:205-251 | adding a LUN keeps that invariant and removes no image |
| `IscsiConfig.SetLunKeeps` | rest-api/calamari_rest/sservice/iscsi/target.py:260-285 | setting any fields of a LUN keeps all images, and keeps the invariant if and only if no other LUN of any target has the new number, the target's name is kept and the new image is one that there is; only the name is checked in the original |
| `IscsiConfig.RenamedKeeps` | rest-api/calamari_rest/serializers/v2.py:126-131 | so a new name and size, which is all that the REST view lets through, keep it |
| `IscsiConfig.DelLunKeeps` | rest-api/calamari_rest/sservice/iscsi/target.py:293-325 | deleting a LUN keeps it |
| `IscsiConfig.UpdateIqnKeeps` | rest-api/calamari_rest/sservice/iscsi/target.py:345-365 | renaming a target keeps it, LUNs included |
| `IscsiConfig.CreateTargetKeeps` | rest-api/calamari_rest/sservice/iscsi/tgt_manager.py:237-261 | creating a target keeps it |
| `IscsiConfig.RemoveTargetKeeps` | rest-api/calamari_rest/sservice/iscsi/tgt_manager.py:273-315 | removing a target keeps it |
| `IscsiConfig.GenerateId` | rest-api/calamari_rest/sservice/iscsi/tgt_manager.py:224-235 | the new id is above all in use, and one above the largest; the bound of 255 never applies |
| `Iscsi.Target.AddLun` | rest-api/calamari_rest/sservice/iscsi/target.py:205-251 | configuration and images are left as the value-level rule says, raising, with nothing changed, when that does |
| `Iscsi.Target.SetLun` | rest-api/calamari_rest/sservice/iscsi/target.py:260-285 | the same |
| `Iscsi.Target.DelLun` | rest-api/calamari_rest/sservice/iscsi/target.py:293-325 | the same |
| `Iscsi.Target.UpdateTargetIqn` | rest-api/calamari_rest/sservice/iscsi/target.py:345-365 | the same, and the handle follows the new name exactly if it succeeds |
| `Iscsi.TgtManager.CreateTarget` | rest-api/calamari_rest/sservice/iscsi/tgt_manager.py:237-261 | the same |
| `Iscsi.TgtManager.RemoveTargetByIqn` | rest-api/calamari_rest/sservice/iscsi/tgt_manager.py:273-290 | the same; a target with LUNs cannot be removed |
| `Iscsi.TgtManager.RemoveTargetById` | rest-api/calamari_rest/sservice/iscsi/tgt_manager.py:297-315 | the same, by id |
| `Iscsi.TgtManager.GetTargetConf` | rest-api/calamari_rest/sservice/iscsi/tgt_manager.py:79-84 | the first target of that name, if any |
| `Iscsi.TgtManager.SetTargetConf` | rest-api/calamari_rest/sservice/iscsi/tgt_manager.py:86-94 | the first target of that name is replaced, and nothing else; raises exactly if there is none |
| `StatusParser.ParseLines` | rest-api/calamari_rest/sservice/iscsi/tgtadmparse.py:19-50 | takes exactly the longest prefix of lines indented at least as much as the first, and builds exactly one object for each of them with a colon, with its key and value, under the keys of just those lines whose blocks are open there by indentation, to any depth |
| `StatusParser.LeadingSpaces` | rest-api/calamari_rest/sservice/iscsi/tgtadmparse.py:14-16 | the number of leading white-space characters, except that a blank line counts as not indented |
| `StatusParser.PartitionIsExact` | rest-api/calamari_rest/sservice/iscsi/tgtadmparse.py:29-29 | a line is split at its first colon, losing nothing |
| `StatusParser.StripIs` | rest-api/calamari_rest/sservice/iscsi/tgtadmparse.py:30-31 | stripping takes off the white space on both sides, and nothing else |
| `StatusParser.LineIsKeyAndValue` | rest-api/calamari_rest/sservice/iscsi/tgtadmparse.py:29-31 | a line with a colon is its key, the colon and its value, with white space around each |
| `StatusParser.LinesWithColon` | rest-api/calamari_rest/sservice/iscsi/tgtadmparse.py:29-34 | just the lines with a colon make an object each |
| `StatusParser.PutAddsOne` | rest-api/calamari_rest/sservice/iscsi/tgtadmparse.py:43-48 | a repeated key makes a list: no object is lost, doubled or moved under another key |
| `StatusParser.PutIsLast` | rest-api/calamari_rest/sservice/iscsi/tgtadmparse.py:43-48 | it comes last of those under its key, and those under other keys stay |
| `StatusParser.BlocksBelow` | rest-api/calamari_rest/sservice/iscsi/tgtadmparse.py:36-41 | inside a block, the blocks open by indentation are those of the lines above it and those that would be open if the block were all there is |
| `StatusParser.ExtentIsUnique` | rest-api/calamari_rest/sservice/iscsi/tgtadmparse.py:26-28 | the prefix taken is determined, and not empty if there are lines |

## Left out

- RequestCollections.RequestCollection.OnMap: has one cluster; the branch for requests of other clusters does nothing in the original, so that a map of one would reach the requests of all.
- RequestCollections.RequestCollection.Tick: leaves out the query for running jobs that a tick sends at its end, since it changes no request.
- RequestCollections.RequestCollection.Cancel: leaves out the best-effort job that kills the cancelled one.
- Cluster.OnSyncObject: leaves out the generator of events, which sees a stored map after the registry and before the requests; what it may raise on a health or mon-status map keeps nothing from a request, since none waits for those types.
- ClusterRuns.NoLostWakeup: is about OSD maps; a request that starts to wait for PGs looks at the next PG summary that arrives, never at the stored one, in the original as in the model.
- ClusterMonitors.ClusterMonitor.MakeRequest: leaves out the factories except for the growth of a pool; an update that also renames the pool is not modelled, since the later commands name a pool that is gone.
- ServerRegistry.ServerMonitor.OnOsdMap: says exactly when it raises only if no two servers share a name, no new host has a server's, and no OSD is under two hosts, and for a given order of the hosts, which is that of a dictionary in the original; otherwise one server may be struck off in place of another, and that depends on the order of the OSDs, too.
- ServerRegistry.ServerMonitor.OnServerHeartbeat: says exactly when it raises only if names are in order; if two servers share a name, one may be struck off in place of the other, and that depends on the order of the services. It leaves out boot time, last contact and Ceph version, which are logged and persisted but decide nothing; a heartbeat names each service once.
- RegistryRuns.ServeAll: ends with a deletion of a cluster that stops halfway, which leaves services on the cluster's list that are registered no more; what the original does from there is not modelled.
- ManagerRuns.Serve: shows the registry the maps of this cluster only; heartbeats and the maps of other clusters, which reach the same registry, would only change which maps it fails on.
- Crush.GatherOsds: requires an acyclic tree whose buckets have children and whose OSDs have none, as Ceph reports it; anything else is a KeyError or endless in the original. The steps choose_indep, chooseleaf_indep and set_* choose nothing, as in the original.
- CrushParents.LookupAncestry: requires that no node is above itself, without which the original does not end.
- Iscsi.Target.SetLun: leaves out the resizing of the image, which is asked for before the name is looked at.
- IscsiConfig.RunKeeps: has LUNs set as the REST view lets them be, in name and size. It leaves out the schema that a configuration is loaded through, which would refuse a LUN number above 255; configurations are taken as already in normal form.
- Iscsi.Target.AddLun: takes an image as created once it was asked for; the mon's answer is not looked at in the original.
- Lists of initiators and users of a target, and the files that are sent to the minions: plain list edits without a property that spans operations.
- `rest-api/calamari_rest/sservice/lib/schema.py`, `cthulhu/cthulhu/manager/crush_node_request_factory.py`, `_pool_min_size`, OSD and MDS counters: easy members, or dependent on code that is not in the repository.
- Persistence, events, RPC, greenlets and logging: plumbing; the manager's `request_ticker` and event loops are the messages of `Cluster`.
- CRUSH weights: in-place float division of values that nothing else here depends on.
