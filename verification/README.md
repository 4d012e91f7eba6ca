# Lightning Monkey control plane: model and proofs

Lightning Monkey deploys Kubernetes clusters. Agents on the machines register with an API server, report what they have
provisioned, and ask for work; the API server keeps everything in etcd and answers from a hot cache that it keeps up to
date by watching etcd. This project models that control plane and proves what it is there for: the cache follows the
store, deployment goes in order and to the end, a stored state is held by a live lease, a delayed transfer is cancelled
or carried out but never both, a cluster is visible only with all its certificates, and agents that never talk to each
other agree on who belongs to the ETCD cluster and who has which priority.

`dafny verify dfyconfig.toml` checks the whole project.

## How it is built

| file | what it models |
|---|---|
| `Entities.dfy`, `Text.dfy` | the records; the string operations of Go's library that the code relies on (order, sorting, join, split, fields, replace, decimals) |
| `AgentCache.dfy` | the five role collections: the class whose methods change them in place, over shared, numbered records, and the single map they refine |
| `Scheduling.dfy` | the strategies and the scheduler's loop, and the meaning of each answer |
| `Deployment.dfy` | the scheduler over whole runs: order, deadlock freedom, termination |
| `ControlPlane.dfy` | one cluster as a state machine: store, leases, event queue, watcher, records and requests, in interleaved steps; who changes stored roles; leases |
| `Watching.dfy` | the cache follows the store: convergence, what an event repairs, what a removal leaves behind |
| `Phases.dfy` | what a query stores, and when the stored phase never goes down |
| `Scenarios.dfy` | runs in which a promise fails |
| `Server.dfy` | the API server's methods, statement by statement, proved to take those steps |
| `Snapshot.dfy`, `Keys.dfy` | filling a new cluster's cache from the key-ordered snapshot; store keys and their classifiers |
| `Clusters.dfy`, `Publication.dfy`, `Certificates.dfy` | the manager's map of clusters, publication order, certificates |
| `PendingTasks.dfy` | delayed transfers: protocol, tasks and registry as objects, listings |
| `Membership.dfy` | what agents derive from their job arguments |

Wherever the code updates something in place the model has a class or a loop; its contract ties the new state to a
function or step of the old one, and the properties are lemmas about those. What the code does in several steps is
several steps here, and anything may come between them:

- A registration checks the store before its settings reach it.
- A query finds a record; it notes its phase; the scheduler answers from what its strategies counted, each at its own
  moment, and writes the phase through the record the query holds, which may have been replaced in the cache meanwhile;
  the record's phase is compared with the noted one; a record whose phase went up is read once more and encoded; the
  message reaches the store, or does not. Another query may write into the same record between any two of these.
- The watcher reads the settings, then the state, then updates the cache, and either read may fail and drop the event.

Map iteration, which Go leaves unordered, picks any remaining key, so every result about it holds for every order. Calls
that can fail, the clock, new identifiers and the outcome of the server-side deployment strategies are parameters.

## Where a promise does not hold

- Stored roles can change while the settings exist. A query saves the whole record it holds. An agent that was removed,
  stayed cached, and registered again under its id with other roles (a transfer back to its own cluster does that) gets
  its old roles back with the first query that raises its phase (`Scenarios.GhostOverwritesRegistration`); a registration
  overtaken by another one of its id does the same (`Scenarios.OvertakenRegistrationOverwrites`). Of any step of any run,
  `ControlPlane.RolesChangeExactlyWhen` says when it changes them, `ControlPlane.RolesHoldExactlyWhen` lifts that to runs,
  and `Phases.QueryOverwritesRolesExactlyWhen` says it of a whole query in terms of what it finds. Once everything known
  of an id agrees about its roles they stay fixed until its settings are removed (`ControlPlane.RolesStayFixed`), and an
  id that is known nowhere any more starts over (`ControlPlane.ForgottenStartsOver`).
- The stored deployment phase can go down in four ways: a save lands during a refresh of the agent and the refresh
  brings the old phase back into the cache (`Scenarios.OvertakenRefreshLowersPhase`); a refresh completes during a query,
  whose save then comes from a record that is no longer cached (`Scenarios.ReplacedRecordLowersPhase`); two queries
  of the agent overlap and the earlier message lands last (`Scenarios.OverlappingQueriesLowerPhase`); or a query of the
  agent writes a lower phase into the record after another has compared it and before that one encodes it
  (`Scenarios.EncodedLateLowersPhase`). When none of these overlaps occurs it never goes down
  (`Phases.StoredPhaseIsMonotone`). `Phases.StepLowersPhaseExactlyWhen`, `Phases.PhaseHoldsExactlyWhen` and
  `Phases.QueryLowersPhaseExactlyWhen` say exactly when one step, some step of a run and one whole query lower it.
- An event whose agent cannot be read is dropped. If it was the last one of its agent the cache stays stale with nothing
  queued (`Scenarios.LostEventLeavesCacheStale`); otherwise the next event makes up for it (`Watching.RunTracks`).
- An event repairs whatever was missed before, except where a collection has the id that updates for the stored roles do
  not reach, and except for the deletion of a state that has been stored again since, whose own event is still to come
  (`Watching.HandlingRepairsExactlyWhen`, `Watching.WriteRepairsExactlyWhen`).
- Removing an agent's settings leaves it in the cache for good exactly when it is cached, or about to be, at that moment,
  whatever it goes on reporting, because later events of an id without settings are skipped
  (`Watching.RemovalLeavesGhostExactlyWhen`, `Scenarios.RemovedAgentStaysCached`). Deleting the state first helps only
  if the watcher handles that deletion in between (`Watching.HandledRemovalLeavesNothing`).
- A removal is final exactly when no message about the id lands afterwards (`Watching.RemovalIsFinalExactlyWhen`). An
  agent that stayed cached while pending has its settings stored again by its next query
  (`Scenarios.RemovedAgentIsStoredAgain`); an agent that is cached, held and asked about nowhere stays removed, whatever it
  goes on reporting, until it registers (`Watching.GoneStaysGone`).
- A pending task's clean-up removes the registry entry by key. A live task is lost from the registry exactly when another
  task of its key passes its clean-up; a cancellation then finds nothing and the work runs
  (`PendingTasks.DroppedExactlyWhen`, `PendingTasks.CancelMissesDroppedTask`).
- One map would do in place of five exactly as long as new roles cover the cached ones (`Caching.OneUpdateIff`).
- Nothing bounds how often a job is handed out: an agent whose job failed asks again and is given the same job, and so
  is one whose report is still on its way. The numbers of such failures and repeats bound the whole deployment
  (`Deployment.DeploymentTerminates`).
- A certificate that is saved again between the listing of a new cluster's certificates and the start of its watch is
  delivered to nobody: the cluster is shown with the old one until the next save
  (`Publication.ShownAsStoredExactlyWhen`, `Publication.RenewalIsMissed`).
- An agent called `certificates`, a cluster called `certificates` and a certificate called `metadata` have keys that two
  classifiers claim (`Keys.ClaimedOnceExactlyWhen`).
- Priorities fit the backup range of section 5.2.4 of RFC 5798 for up to 155 HA agents and no further
  (`Membership.BackupRangeExactlyWhen`).

## Model

| member | source | states |
|---|---|---|
| Caching.OneUpdateIff | pkg/cache/cache.go:41-83 | coming online or going offline acts on the five collections as one update of one map if and only if the roles cover those cached for that id; otherwise a stale record stays behind |
| Caching.FiveMapsRefineOne | pkg/cache/cache.go:41-83 | after any sequence of Online and Offline in which every id keeps its roles, the five collections are the projections of a single id-to-agent map |
| Caching.AdmittedByRole | pkg/cache/cache.go:41-61 | coming online files the agent under its id in the collection of each role it has, or in the pool when it has none, and changes nothing else |
| Caching.EvictedByRole | pkg/cache/cache.go:63-83 | going offline takes the id out of exactly those collections |
| Caching.ProjectionLooksUp | pkg/cache/cluster_controller.go:237-261 | the lookup through five collections in turn equals one lookup in the single map |
| Caching.AddressesAreExact | pkg/cache/cache.go:204-211 | every address is listed exactly as often as there are qualifying agents that report it, and the list is sorted |
| Caching.ProvisionedAreListed | pkg/cache/cache.go:146-203 | asked for provisioned agents, an address is listed if and only if some agent of the collection has the role, reported from there at most 30 seconds ago, and has that role's own flag set; of minions every one with the role |
| Caching.RunningAreListed | pkg/cache/cache.go:146-203 | asked for running agents, if and only if some agent of the collection with the role reported from there at most 30 seconds ago |
| Caching.AllAreListed | pkg/cache/cache.go:146-203 | asked without a condition, if and only if some agent of the collection with the role last reported from there |
| Caching.ProvisionedAreCounted | pkg/cache/cache.go:102-138 | the provisioned count of a role is the number of agents of its collection with a state and that role's own flag set |
| Caching.AddressesAreCanonical | pkg/cache/cache.go:204-211 | the list is the same for every order in which the runtime walks the collection |
| Caching.AddressesOfAll | pkg/cache/cache.go:140-212 | with no status condition there is one address per agent of the role, each agent's own among them |
| Caching.WithShows | pkg/cache/cache.go:41-61 | filing one new shared record in the collections of an agent's roles shows, record by record, as the agent being admitted, and keeps every record filed under its own id |
| Caching.AgentCache.Online | pkg/cache/cache.go:41-61 | one fresh shared record is made and filed in the collections of the agent's roles, or the pool; what the cache shows is what it showed with the agent admitted, and no other record changes |
| Caching.AgentCache.Offline | pkg/cache/cache.go:63-83 | the agent leaves the collections its roles name and nothing else changes |
| Caching.AgentCache.Find | pkg/cache/cluster_controller.go:237-261 | finds the record the first collection has under the id, or nothing exactly when none has it; the collections are asked in the order ETCD, master, minion, HA, pool |
| Caching.AgentCache.WritePhase | pkg/managers/agent_mgmt.go:98-100 | the phase is written into that one record, whether it is still cached or was replaced meanwhile |
| Caching.AgentCache.GetTotalCountByRole | pkg/cache/cache.go:85-100 | the number of agents in the role's collection, and -1 for anything that is no role |
| Caching.AgentCache.GetTotalProvisionedCountByRole | pkg/cache/cache.go:102-138 | the counting loop gives the number of agents of the role's collection that are provisioned for it |
| Caching.AgentCache.GetAgentsAddress | pkg/cache/cache.go:140-212 | collecting in any order and sorting gives the canonical address list; no record that is listed lacks a state |
| Scheduling.DispatchedExactlyWhen | pkg/cache/job_scheduler.go:43-59 | for each of the four kinds of job, the exact condition on counts, roles and flags under which it is handed out |
| Scheduling.DeployedExactlyWhen | pkg/cache/job_scheduler.go:43-59 | a query fails, answers Deployed or answers Deploying exactly when the four role strategies are past and a server-side one fails, they are past and none fails, or they are not past |
| Scheduling.ToldExactlyWhen | pkg/cache/job_scheduler.go:43-59 | an agent without a job is told what the deployment waits for, that nothing is left or that the query failed, each under exactly which counts, roles and flags |
| Scheduling.StageIsDecisive | pkg/cache/job_scheduler.go:17-29 | the first strategy that does not pass by is given by how far the deployment has come |
| Scheduling.JobScheduler.GetNextJob | pkg/cache/job_scheduler.go:31-60 | the loop over the strategies gives the first decisive answer, its job and arguments, and calls back with the phase that goes with it |
| Scheduling.JobScheduler.CheckEtcd | pkg/cache/strategy_etcd.go:16-34 | gate, waiting and the ETCD job with the joined addresses, from the counts over the cache |
| Scheduling.JobScheduler.CheckMaster | pkg/cache/strategy_k8s_master.go:12-20 | an unprovisioned master gets its job, others wait for one provisioned master |
| Scheduling.JobScheduler.CheckHa | pkg/cache/strategy_ha.go:17-46 | gate, waiting and the HA job with its addresses, router id, priority and address |
| Scheduling.JobScheduler.CheckMinion | pkg/cache/strategy_k8s_minion.go:15-28 | an unprovisioned minion gets its job with the provisioned masters and the virtual address |
| Scheduling.FindIndex | pkg/cache/strategy_ha.go:48-55 | the loop finds the first position of a word, or -1 exactly when it does not occur |
| Deployment.JobsNeverStepBack | pkg/cache/job_scheduler.go:18-28 | while no agent leaves and no flag regresses, the jobs of an agent's queries never step back in the order ETCD, master, HA, minion, and after Deployed every later query that does not fail answers Deployed; each count of a query is taken at any moment of its own while the query lasts |
| Deployment.JobsWaitForTheirBase | pkg/cache/job_scheduler.go:43-59 | no master before enough ETCD, no HA node or minion before a master, no minion before the HA nodes of a cluster that has them; a job is only given to an agent that owes it |
| Deployment.NoJobExactlyWhen | pkg/cache/job_scheduler.go:43-59 | nobody can be given a job if and only if the deployment is finished or waits for agents that have not come |
| Deployment.DeploymentTerminates | cmd/agent/register.go:396-428 | in any order of hand-outs, completions, failures and reports, with n (agent, role) pairs neither done nor at work, f failed jobs and r jobs handed out while the report of the first time is on its way, at most n + f other jobs are handed out, and from an idle site at most 3n + 3r + 2f steps take place |
| Deployment.NoDeadlock | pkg/cache/job_scheduler.go:31-60 | with as many agents as the cluster asks for, a point of any run where nobody is at work and nobody can be given a job is a finished deployment |
| Deployment.DeploymentCompletes | pkg/cache/job_scheduler.go:31-60 | with as many agents as the cluster asks for, from any point some continuation finishes the deployment |
| ControlPlane.RunKeepsForm | pkg/common/common.go:89-135 | in every run keys are filed under their ids, no cached agent lacks a state, every stored state is bound to a live lease, and the revision filter drops nothing new |
| ControlPlane.RolesChangeExactlyWhen | pkg/managers/agent_mgmt.go:97-106 | while an id's settings exist a step changes their roles if and only if a message with other roles lands: from a query that holds a record with other roles, or from an overtaken registration |
| ControlPlane.RolesHoldExactlyWhen | pkg/managers/agent_mgmt.go:97-106 | in any run, removals and new registrations included, stored roles hold if and only if no such message lands |
| ControlPlane.RolesStayFixed | pkg/managers/agent_mgmt.go:32-53 | when everything known of an id has its stored roles, they never change in a run that does not remove its settings, whatever queries and overlapping registrations it has |
| ControlPlane.ForgottenStartsOver | pkg/managers/agent_mgmt.go:32-53 | an id that is cached, held and asked about nowhere any more can register with other roles and is consistent again |
| ControlPlane.ExpiryTakesExactlyItsOwn | pkg/common/common.go:137-144 | the expiry of a lease removes exactly the states bound to it |
| ControlPlane.StateOutlivesOtherLeases | pkg/common/common.go:108-135 | a state stays stored on a live lease, unchanged between reports, until the lease of its latest report runs out or it is removed; no older lease can take it |
| Watching.RunTracks | pkg/cache/cluster_manager.go:215-277 | in every run that keeps an id's settings and roles and loses no last event to a failed read, the cache is right for the id or an event or read that will make it right is on its way; what was missed before is made up for by the next event |
| Watching.WatchConverges | pkg/cache/cluster_manager.go:215-277 | in every interleaving of registrations, reports, expiries and watcher steps, failed reads included, once the queue is empty the five collections are exactly the projections of the agents with both keys in the store, if no last event of an id was lost and no overtaken registration changed roles |
| Watching.WatchConvergesUpToPhase | pkg/cache/cluster_manager.go:215-277 | with queries in the run too, the same holds per id of everything but the deployment phase |
| Watching.ReadsSucceed | pkg/cache/cluster_manager.go:242-246 | no event is lost in a run in which no read fails |
| Watching.HandlingRepairsExactlyWhen | pkg/cache/cluster_manager.go:240-258 | whatever the cache has and whatever was missed, handling an event of an id with settings makes every collection right for it at that moment, if and only if it is not the deletion of a state stored again since and no collection has the id where the stored roles do not reach |
| Watching.WriteRepairsExactlyWhen | pkg/cache/cluster_manager.go:215-277 | with a write to either key of an id queued, draining the queue makes the cache right for it if and only if no collection has it where the stored roles do not reach |
| Watching.NoStrayExactlyWhen | pkg/cache/cache.go:41-83 | where the collections agree about an id, that condition says that the stored roles cover the cached ones |
| Watching.DrainedConverges | pkg/cache/cluster_manager.go:215-277 | when the watcher has handled its queue, a cache that was on track is exactly the projection of the store |
| Watching.JoinedByRole | pkg/cache/cache.go:41-61 | those projections, collection by collection: an agent is in a role's collection if and only if both its keys are stored and its settings have the role, in the pool if they have none, and its record is the settings joined with the state |
| Watching.RemovalLeavesGhostExactlyWhen | pkg/cache/cluster_manager.go:247-250 | whatever the agent reports and asks afterwards, as long as its settings stay away it stays cached for good if and only if it was cached, or about to be, when they were removed; a read of its state under way decides by what it finds |
| Watching.HandledRemovalLeavesNothing | pkg/cache/transfer_agent.go:78-90 | nothing stays cached when the settings are removed after the events of the id, the deletion of its state among them, were handled |
| Watching.RemovalIsFinalExactlyWhen | pkg/managers/agent_mgmt.go:97-106 | removed settings stay away for a whole run if and only if no message about the id lands in it |
| Watching.GoneStaysGone | pkg/cache/cluster_manager.go:247-250 | an id without settings that is cached, held and asked about nowhere stays so in every run without a registration of it, whatever it reports and asks |
| Phases.QueryStores | pkg/managers/agent_mgmt.go:82-108 | a query that nothing interrupts writes the phase into the record it finds and stores that whole record exactly when the phase went up and the store takes it |
| Phases.QueryLowersPhaseExactlyWhen | pkg/managers/agent_mgmt.go:97-106 | such a query lowers the stored phase if and only if it finds the agent cached as pending while it is stored as deployed, the deployment has a stage left for it, and the save succeeds |
| Phases.QueryOverwritesRolesExactlyWhen | pkg/managers/agent_mgmt.go:97-106 | such a query changes the stored roles if and only if it finds other roles cached, the scheduler's stage raises the cached phase, and the save succeeds |
| Phases.StepLowersPhaseExactlyWhen | pkg/managers/agent_mgmt.go:97-106 | any step lowers a stored phase if and only if a message with a lower one lands |
| Phases.PhaseHoldsExactlyWhen | pkg/managers/agent_mgmt.go:97-106 | in any run, removals and new registrations included, no step lowers a stored phase if and only if no such message lands |
| Phases.StoredPhaseIsMonotone | pkg/managers/agent_mgmt.go:97-106 | in any run the stored phase never goes down while the settings exist, if no refresh of the agent completes during a query of it, no save of it lands during a refresh of it or another request about it, and no query of it is answered between the comparison and the encoding of another |
| Phases.RegisteredIsBehind | pkg/managers/agent_mgmt.go:32-53 | an agent that was known nowhere is where that theorem starts from as soon as its registration is stored |
| Scenarios.GhostOverwritesRegistration | pkg/managers/agent_mgmt.go:97-106 | a concrete run: removed, still cached, registered again as a minion, and the next query stores the old roles over the new ones |
| Scenarios.RemovedAgentStaysCached | pkg/cache/cluster_manager.go:247-250 | a concrete run: both deletions are handled when the settings are gone, so the agent stays cached with nothing queued |
| Scenarios.RemovedAgentIsStoredAgain | pkg/managers/agent_mgmt.go:90-106 | the same run continued: the removed agent asks while pending, and its settings are stored again with nobody registering |
| Scenarios.OvertakenRegistrationOverwrites | pkg/managers/agent_mgmt.go:32-80 | of two registrations of one id that both found no settings, the second to land replaces the roles of the first |
| Scenarios.LostEventLeavesCacheStale | pkg/cache/cluster_manager.go:242-246 | a concrete run: the read of a reported state fails, and the cache is stale with nothing queued |
| Scenarios.OvertakenRefreshLowersPhase | pkg/cache/cluster_controller.go:492-529 | a concrete run in which a save during a refresh lets the next query lower the stored phase |
| Scenarios.ReplacedRecordLowersPhase | pkg/managers/agent_mgmt.go:90-106 | a concrete run in which a refresh during a query lets the next query lower the stored phase, with no save during a refresh |
| Scenarios.OverlappingQueriesLowerPhase | pkg/managers/agent_mgmt.go:97-106 | a concrete run in which the earlier of two queries of an agent saves last and lowers the stored phase, with no refresh of it |
| Scenarios.EncodedLateLowersPhase | pkg/common/common.go:73-87 | a concrete run in which a query writes a lower phase into the shared record after another has compared and before it encodes, and the save lowers the stored phase with nothing else about the agent under way |
| Server.ApiServer.CheckRegistration | pkg/managers/agent_mgmt.go:14-73 | exactly when a registration is let in, and of each refusal exactly when it is given; a known agent gets its record and -1 and nothing is written, a new one's settings are under way |
| Server.ApiServer.SaveAgent | pkg/common/common.go:63-87 | settings first, then the state with the time of registration under the fresh live lease that is returned; settings stay stored when the second part fails, and no state is stored then |
| Server.ApiServer.RegisterAgent | pkg/managers/agent_mgmt.go:14-80 | both together: exactly when it succeeds; a new agent then has its settings stored under the id it is told, a master with the generated certificate, and its state under the fresh live lease it is told; a known agent changes nothing, and a failure stores no state |
| Server.ApiServer.LookUpAgent | pkg/managers/agent_mgmt.go:90-96 | a query finds the first cached record |
| Server.ApiServer.NotePhase | pkg/managers/agent_mgmt.go:97 | it notes the phase the record has by then |
| Server.ApiServer.AnswerQuery | pkg/managers/agent_mgmt.go:98-100 | the scheduler's answer for the record; its phase is written through it wherever that is still shared |
| Server.ApiServer.ComparePhase | pkg/managers/agent_mgmt.go:101 | the record's phase is compared with the noted one; the query is over unless it is above it |
| Server.ApiServer.EncodePhase | pkg/common/common.go:73-81 | what is to be saved is the whole record as it is by then |
| Server.ApiServer.PutPhase | pkg/common/common.go:82-86 | the settings of the message are stored under its id or nothing changes, and the query is over |
| Server.ApiServer.QueryAgentNextWorkItem | pkg/managers/agent_mgmt.go:82-108 | a query nothing comes between answers what the scheduler says of the cached agent and takes exactly these six steps; it stores the cached agent with the new phase exactly when that is above the cached one and the put succeeds |
| Server.ApiServer.AgentReportStatus | pkg/managers/agent_mgmt.go:110-166 | a successful report leaves the reported state bound to a live lease that is returned; -1 or an agent missing in the cache always gets a fresh one; a failed report leaves the states alone |
| Server.Store.SaveAgentStateOnly | pkg/common/common.go:108-135 | renews the lease presented or grants one for -1; without a live lease the answer is -1, and when only the put fails the lease is returned beside the failure |
| Server.Store.SaveAgentStateOnlyWithTTL | pkg/common/common.go:89-106 | binds the state to a fresh lease, or reports which part failed by what is left behind; no other state changes |
| Server.Store.GetAgent | pkg/cache/cluster_controller.go:492-529 | the settings joined with the state if it exists; nothing for an empty id or without settings; a failure if a read that is made fails |
| Server.ApiServer.RemoveAgentFromEtcd | pkg/cache/transfer_agent.go:78-95 | the state is deleted before the settings, a failure of either stops there, and the third delete only adds its failure; exactly which of the two are gone in each case |
| Server.ApiServer.HandleEvent | pkg/cache/cluster_manager.go:235-258 | one event is taken, the store is read and the cache updated, as the three steps of the watcher; a failed read drops it |
| Server.ApiServer.WatchChanges | pkg/cache/cluster_manager.go:215-277 | handles every queued event, whichever reads fail |
| Server.ApiServer.OnAgentChanged | pkg/cache/cluster_controller.go:206-216 | a deletion or a missing state takes the agent offline, anything else brings it online |
| Server.StateFrom | pkg/managers/agent_mgmt.go:134-164 | the state says of every component what was reported of it, and that an unreported one is not provisioned; the reason is that of the last component reported in the order ETCD, master, HA, minion |
| Keys.SplitsBackExactlyWhen | pkg/common/common.go:77-94 | a formatted key splits back into its segments if and only if its ids are non-empty and free of slashes |
| Keys.PathsAre | pkg/common/common.go:77-94 | the literal paths of settings, states, metadata and certificates |
| Keys.FormatIsInjective | pkg/managers/cluster_mgmt.go:81-101 | different settings, state, metadata or certificate keys are different paths |
| Keys.ClaimedOnceExactlyWhen | pkg/cache/cluster_manager.go:363-393 | each key's own classifier reads its id back, and another one claims it exactly when an agent or a cluster is called certificates or a certificate metadata |
| Keys.AgentIdReadBackExactlyWhen | pkg/cache/cluster_manager.go:363-370 | the agent classifier gives back the id a key was formatted from if and only if it is non-empty and free of slashes |
| Keys.SettingsBeforeState | pkg/cache/cluster_manager.go:171-172 | for one agent the settings key sorts before the state key |
| Snapshot.JoinSnapshot | pkg/cache/cluster_manager.go:165-197 | one pass over a key-ordered snapshot gives every agent with settings, with its state exactly when that key exists too, and no orphan state |
| Snapshot.FillCache | pkg/cache/cluster_manager.go:198-203 | handing the agents over in any order leaves the projections of those that have a state |
| Snapshot.DoRegister | pkg/cache/cluster_manager.go:157-206 | a registered cluster starts with its cache in step with the store and one record per agent, which is where the theorems about runs start from |
| Snapshot.InStepStarts | pkg/cache/cluster_manager.go:157-206 | from there the conditions of the theorems about stored roles and phases hold of every agent |
| Clusters.ReplayFromSnapshot | pkg/cache/cluster_manager.go:34-72 | a snapshot at a revision and the stream from that revision on leave, after every prefix, the same clusters and settings as the whole log from nothing, although the changes at that revision are seen twice |
| Clusters.ReplayLeaves | pkg/cache/cluster_manager.go:321-361 | a log leaves a cluster if and only if its last change is a put, with the settings of that put |
| Clusters.DepictedIsReplayed | pkg/cache/cluster_manager.go:47-72 | loading, in any order, the puts that are the last changes of their clusters leaves what the whole log leaves |
| Clusters.DeliveryTells | pkg/cache/cluster_manager.go:300-315 | a delivery at the literal metadata path of a cluster puts or deletes that cluster, and one at an agent's path concerns none |
| Clusters.ClusterManager.DoClusterChange | pkg/cache/cluster_manager.go:321-361 | a deleted cluster is disposed of and gone, a new one gets a controller unless registering fails, a known one keeps its controller; after a success it has the settings it was given, and no other cluster changes |
| Clusters.ClusterManager.FullSync | pkg/cache/cluster_manager.go:47-72 | loads the clusters among the keys and stops at the first failure, with those before it loaded |
| Clusters.ClusterManager.WatchClusterChanges | pkg/cache/cluster_manager.go:289-319 | applies the clusters' changes among the deliveries in order, passes over other keys, and leaves a new cluster that fails to register out until its next delivery |
| Clusters.KnownExactlyWhen | pkg/cache/cluster_manager.go:321-361 | after any deliveries a cluster is known if and only if some put of it could be registered and no deletion of it followed |
| Clusters.KnownAsLastPut | pkg/cache/cluster_manager.go:356-360 | it then has the settings of its last put, whether that one could have been registered or not |
| Clusters.NoFailures | pkg/cache/cluster_manager.go:302-315 | when nothing fails to register, the deliveries come to replaying the clusters' changes |
| Clusters.ClusterManager.Initialize | pkg/cache/cluster_manager.go:34-45 | started on a snapshot and fed any prefix of the stream, the manager knows a cluster if and only if its last change in the log up to that point is a put, with the settings of that put |
| Publication.SaveCluster | pkg/managers/cluster_mgmt.go:71-90 | the metadata is written last, and exactly when every certificate was written |
| Publication.SaveClusterCertificate | pkg/managers/cluster_mgmt.go:92-108 | each certificate is written once under its escaped name, up to the first failure; without one, what is stored under an escaped name is the content of a certificate of that escaped name, and every certificate's escaped name is stored; after a failure the puts before it are stored and none behind it |
| Publication.FullSync | pkg/cache/cluster_controller.go:119-149 | the controller's loop caches the non-empty values its classifier claims |
| Publication.CachesTheCertificates | pkg/cache/cluster_controller.go:119-149 | among the keys of a cluster without reserved words those are exactly the non-empty certificates |
| Publication.MetadataComesLast | pkg/managers/cluster_mgmt.go:71-90 | the metadata is stored after the first n writes of a save if and only if the save succeeded and they are all of its writes |
| Publication.WritesAreStored | pkg/managers/cluster_mgmt.go:71-108 | whatever saves were made, failed and repeated ones too, under the path of each escaped name is the content written last, the metadata is there once it was written, and no other paths are used |
| Publication.AllWrittenIsSaved | pkg/managers/cluster_mgmt.go:99-106 | a complete save leaves, by escaped name, what saving the certificates one by one leaves |
| Publication.LoadsWhatIsStored | pkg/cache/cluster_controller.go:119-149 | whatever was saved, loading the keys of the cluster in any order gives its stored certificates that are not empty |
| Publication.SavesTakePlace | pkg/managers/cluster_mgmt.go:71-108 | every write of every save takes place in its turn, whatever comes between |
| Publication.PublishedLast | pkg/cache/cluster_manager.go:341-353 | in every interleaving of the writes of any number of saves of any number of clusters, failed and repeated ones too, with the manager's steps, a cluster that is shown was saved completely before its certificates were loaded, has every certificate of that save for whose name nothing empty was generated, and has nothing that was not generated for it |
| Publication.ShownAsStoredExactlyWhen | pkg/cache/cluster_manager.go:204-270 | a certificate the controller has is the one that was stored at the write its watch has reached if and only if it was written again since the watch began or the writes between the listing and the watch left it as it was |
| Publication.RenewalIsMissed | pkg/cache/cluster_manager.go:341-353 | a concrete run: a certificate saved again between the listing and the watch, and the cluster is shown with the old one with nothing left to deliver |
| Publication.ShownOnceSaved | pkg/managers/cluster_mgmt.go:71-108 | a cluster that is saved completely once, after any number of failed attempts at the same names, is shown only when all writes are done and has exactly its non-empty generated certificates |
| Publication.ShownClusterAnswers | pkg/cache/cluster_manager.go:74-84 | each non-empty certificate of such a cluster, once shown, can be looked up by its name in any letter case, if no two differ in letter case only |
| Certificates.UnescapeUndoesEscapeExactlyWhen | pkg/managers/cluster_mgmt.go:101 | a certificate name survives the store if and only if it has no underscore |
| Certificates.RoundTripExactlyWhen | pkg/entities/cluster.go:193-200 | saving, listing in any order and looking up in any letter case returns every content if and only if no name has an underscore and no two contents differ in name by letter case only |
| Certificates.SameNameExactlyWhen | pkg/entities/cluster.go:193-200 | two names are the same if and only if they differ in the case of ASCII letters only |
| Certificates.GetCertificates | pkg/cache/cluster_controller.go:176-184 | the collection lists every cached certificate once, under its unescaped name |
| Certificates.GetCertificateContent | pkg/entities/cluster.go:193-200 | the loop returns the first content of that name in any letter case, or nothing |
| Certificates.FindsTheFirst | pkg/entities/cluster.go:193-200 | the content found is that of the first certificate of the name, and empty if there is none |
| PendingTasks.CancelOrFire | cmd/apiserver/apis/v1/agents/apis.go:31-62 | in every interleaving a task runs at most once and never when cancelled, a finished one was cancelled or has run, registered tasks are live, and no empty collection is stored |
| PendingTasks.FoundByCancelNeverRuns | cmd/apiserver/apis/v1/agents/apis.go:345-361 | a task that a cancellation finds never runs its work afterwards |
| PendingTasks.NothingIsLeftBehind | cmd/apiserver/apis/v1/agents/apis.go:36-56 | when all goroutines are done the registry is empty |
| PendingTasks.DroppedExactlyWhen | cmd/apiserver/apis/v1/agents/apis.go:43-53 | a registered task that stays live is missing from the registry if and only if another task of its key passed its clean-up |
| PendingTasks.CancelMissesDroppedTask | cmd/apiserver/apis/v1/agents/apis.go:43-53 | a concrete run in which a live task is dropped, a cancellation finds nothing, and the work runs |
| PendingTasks.Transfers.AddPendingTask | cmd/apiserver/apis/v1/agents/apis.go:368-416 | registers a new task, not cancelled, that shows the agent with the roles and phase it will have, unless its key has one, in which case nothing changes; no other entry changes |
| PendingTasks.Transfers.Cancel | cmd/apiserver/apis/v1/agents/apis.go:345-361 | takes the registered task out and cancels it, as the protocol's step; no other entry changes |
| PendingTasks.Transfers.CleanUp | cmd/apiserver/apis/v1/agents/apis.go:36-56 | removes whatever entry the key has, as the protocol's step; no other entry changes, and no task is cancelled by it |
| PendingTasks.Transfers.Decide | cmd/apiserver/apis/v1/agents/apis.go:56-60 | runs the work exactly when the task is not cancelled |
| PendingTasks.PoolListingIsSubsequence | cmd/apiserver/apis/v1/agents/apis.go:474-494 | the pool listing keeps the order of the agents and leaves out exactly those some cluster waits for |
| PendingTasks.Transfers.FilterPoolingHosts | cmd/apiserver/apis/v1/agents/apis.go:474-494 | the loop with its carried flag gives that listing for every iteration order; an agent is listed if and only if no cluster has a pending task for it |
| PendingTasks.Transfers.FilterClusterHosts | cmd/apiserver/apis/v1/agents/apis.go:496-507 | the cluster's agents in order, followed, in any order, by what each pending task shows of its agent, one of each |
| PendingTasks.Transfers.ListedExactlyWhenPending | cmd/apiserver/apis/v1/agents/apis.go:496-507 | an agent waits for a cluster, and is therefore hidden in the pool, if and only if the filter for that cluster appends it |
| Membership.HandleDeployEtcd | cmd/agent/job_etcd.go:43-60 | the loop builds a comma-separated list that reads back, address by address in order, as the member's name and https://address:2380; without addresses the job is refused |
| Membership.EntryReadsBack | cmd/agent/job_etcd.go:55 | cut at its first equals sign, an entry gives the member's name and https://address:2380 |
| Membership.EntriesDiffer | cmd/agent/job_etcd.go:55 | entries are equal if and only if their addresses are, even under equal names |
| Membership.SameEtcdArguments | pkg/cache/strategy_etcd.go:22-31 | agents given the ETCD job from the same cache content get the same argument, whenever they ask |
| Membership.MembershipAgreement | cmd/agent/job_etcd.go:47-60 | whoever is given the ETCD job from one cache content derives a setting with as many entries as ETCD agents, at least the expected number, that reads back as exactly the pairs of name and https://address:2380 of those agents |
| Membership.PrioritiesAreExact | pkg/cache/strategy_ha.go:31-38 | in one cache state the priorities of n HA agents with distinct addresses are exactly 100 to 100 + n - 1 |
| Membership.PrioritiesFollowAddresses | pkg/cache/strategy_ha.go:31-38 | they are ordered as the addresses and no two agents have the same |
| Membership.BackupRangeExactlyWhen | pkg/cache/strategy_ha.go:38 | they lie in the backup range of section 5.2.4 of RFC 5798 if and only if there are at most 155 |
| Membership.HaJobCarriesPriority | pkg/cache/strategy_ha.go:33-40 | an HA job is only given in a cluster with HA settings and carries the arguments for that agent |
| Membership.PriorityReadsBack | pkg/cache/strategy_ha.go:38 | the priority in an HA job reads back as the number, and up to 254 it is its three decimal digits |
| Membership.HaJobLists | pkg/cache/strategy_ha.go:33-40 | the HA address list of an HA job reads back as the addresses of exactly the HA agents and its master list as those of exactly the masters; that list is never empty; the job carries the virtual address, the state BACKUP, and the router id of the cluster or 40 |
| Membership.MinionJobLists | pkg/cache/strategy_k8s_minion.go:15-25 | the address list of a minion job reads back as the addresses of exactly the masters that are running and provisioned, and it is empty if and only if there is none; it carries the virtual address of a cluster with HA settings |
| Membership.MinionJoinsReadyMaster | cmd/agent/job_minion.go:12-24 | a minion joins the virtual address if there is one and otherwise the running provisioned master whose address comes first, and refuses its job if and only if there is neither |
| Membership.WritePeers | cmd/agent/job_ha.go:149-158 | the loop writes the peer block of all addresses but its own |
| Membership.BlockListsPeers | cmd/agent/job_ha.go:149-158 | the non-empty lines of the block are the peers, one each, although a trailing line break may remain |
| Membership.PeersAreMutual | cmd/agent/job_ha.go:149-158 | no agent is its own peer, and two agents on the list are each other's |
| Membership.HaPeersAreTheOthers | cmd/agent/job_ha.go:105-158 | from the address list of its HA job, an agent takes for peers exactly the addresses of the other HA agents of that cache state |
| Text.SplitUndoesJoin | cmd/agent/job_etcd.go:47 | splitting undoes joining if and only if the list is non-empty and no part has the separator |
| Text.SortIsCanonical | pkg/cache/cache.go:210 | sorting gives the same list for every order of the same elements |
| Text.LessExactlyWhen | pkg/cache/cache.go:210 | a string comes first if and only if it is a proper prefix or has the lower character where the two first differ |
| Text.SameLettersExactlyWhen | pkg/managers/agent_mgmt.go:40 | two strings are equal in lower case if and only if they differ in the case of ASCII letters only |

## Left out

- Server.ApiServer.RegisterAgent: its argument has a state because the only caller sets one; a new identifier is never
  the empty string, but may be in use.
- Publication.PublishedLast: saves of one cluster come one after another; two simultaneous ones are not modelled. A put
  that fails is taken to have had no effect.
- Publication.ShownOnceSaved: about generated names that survive the store.
- PendingTasks.Transfers.FilterClusterHosts: is about the filter; the caller applies it only when the cluster already has
  agents, so the listing of an empty cluster shows none of those on their way to it.
- Scenarios.OvertakenRegistrationOverwrites: two registrations of one id at the same time; no lock or transaction in the
  code excludes it.
- The cluster's status checks during registration, the messages of errors, and the fields of records that nothing decides on.
- Several API servers on one store, and the disposal of a cluster while its watcher is running.
- Events between the snapshot and the start of the watch are not delivered by the code: convergence starts from a cache in
  step with the store, and `Watching.WriteRepairsExactlyWhen` says what later writes repair.
- A watch response with several events is taken event by event with one revision each, and expiries delete their keys at one revision.
- JSON: values decode to what was encoded; only the snapshot has values that do not decode.
- Certificate deletion events carry an empty value and are skipped by the code, so the certificate cache is not claimed to follow deletions.
- The five server-side strategies (network stack, DNS, monitors, extensions, static routes) never confirm a job; they are an oracle that passes by or fails.
- Reasons, job names and argument maps are datatypes in place of strings and string maps.
- The time limits behind leases, timeouts and tickers are nondeterministic steps; the agent's own clock is a parameter.
- Letter case is that of ASCII letters; MD5 in the names of ETCD members is a function parameter.
- A classifier that indexes past the segments of a short key panics in the code; the model says so and the loops over keys assume keys that are long enough.
- HTTP handling, the etcd, Docker and Kubernetes clients, certificate generation, health checks, agent start-up and host
  probing are not part of this model.
