# Verified model of etcdauto

etcdauto runs an etcd cluster on Kubernetes without an operator. Every pod runs a small program beside its etcd: it
probes all nodes, then joins a ready cluster, retries, waits, or (pod 0 only) founds a new one. A controller watches
the ECSNode objects and hands every node's addresses to the pods through a ConfigMap, and keeps the CA secret.

This project models those programs in Dafny and proves what their design rests on. `dafny verify dfyconfig.toml`
checks everything.

## How it is laid out

| files | part of the system |
|---|---|
| `Base`, `Text` | facts about sequences and sets; the Go string functions the programs use |
| `Members`, `InitialCluster`, `Joining`, `Manager` | the join code: member lists, the initial-cluster text, the pass as functions on values, and the same pass as methods that change cluster, disk and child process |
| `JoinTable` | what a pass comes to, case by case: outcome, data, child, member list, and what etcd reads from its environment |
| `JoinFacts`, `Bootstrap`, `OneCluster`, `Runs` | any number of pods over one world of clusters: what every step keeps, what it keeps with faithful discovery, and safety of whole runs |
| `Quorum` | majorities through every configuration of a join |
| `Checker`, `Detection`, `Recovery`, `SplitRun` | the brain-split checker, what its alarm means in the world of all pods, recovery after an alarm, and a run that does not recover |
| `ClusterLoop`, `Discovery` | the endless loop of one process; the concurrent probes |
| `PubSub`, `HostMaps`, `EcsNode`, `ConfigMaps`, `Pipeline`, `Propagation` | host maps from the ECSNode reconciler through lossy queues to the subscribers, the ConfigMap and the node files |
| `CASecrets` | the CA secret in two namespaces |

Code that works step by step is modelled as classes and methods with loops, each proved equal to a function on values
or to a declarative contract; the properties are proved of those functions. Whatever the surroundings decide (an etcd
server, the API server, a probe, the operating system) is a parameter: `Env` records answer every request, and a
membership or write request may also take effect while its caller gets an error.

## Hypotheses

The many-pod results (`Runs`) need these, and the model names them:

- One loop iteration is atomic with its discovery snapshot, and joins are serialised (`examples/etcd-sts.yml:29`).
- A running etcd is never probed as unreachable and node files can be read (`cmd/etcdcluster/main.go:392-395`);
  `Bootstrap.Faithful`. `Recovery` drops this one.
- Pod names and peer-URL sets are fixed and distinct, and no pod repeats an address (`Bootstrap.ValidConfig`). Where it
  matters that URL sets do not even overlap, the lemma says so (`Runs.DisjointURLs`).
- A SIGTERM ends the child at once, and removing a directory succeeds (the programs ignore that error).
- Every founding gets a cluster ID never used before, as `proposals/20260812-cluster-discovery-fix.md:413` states; the
  server gives non-zero member IDs it never gave out, stores peer URLs in any order and refuses duplicates.

The agreement results (`Pipeline`, `Propagation`) need: a subscriber's loop over the message's map is not interleaved
with a write to that map (`pkg/controller/ecnode.go:175` writes under no lock, line 185 under a read lock); reads of
the ConfigMap are up to date, and every change of it leads to a watch event; addresses in ECSNode objects contain no
comma.

The quorum results (`Quorum`) need: the cluster has a running majority, members on dead hosts and the pod itself are
down and counted voters run (`Quorum.Counted`); removals of dead members take effect, and a new member ID is nobody's
(`Quorum.Allowed`). `ClusterLoop` does not need a SIGTERM to end the child.

## What turned out false, and exactly when it holds

- A successful join ends in the joined cluster, except exactly when that cluster lists an entry the pod recognises and
  the pod holds other data: then it starts that data again (`Recovery.JoinLandsInTarget`). So a detected split is healed
  if the surviving cluster does not list the pod (`Recovery.RecoveryAfterSplit`), and can remain if it does
  (`SplitRun.SplitPersists`).
- A join keeps a running majority in every configuration it goes through, except exactly when the pod is a listed
  learner with data beside a single voter: it is promoted before its etcd is started (`Quorum.JoinKeepsQuorumIff`,
  `Quorum.UnstartedLearner`). A failed promotion whose lost request took effect leaves no majority once the new etcd is
  stopped (`Quorum.StoppedAfterFailureIff`).
- A dead IP is looked for as a substring, so 10.0.0.1 dooms the live member at 10.0.0.10 (`Members.DoomedBySubstring`);
  the removals are right exactly when no live member's URL has a dead IP as a part (`Members.RemovalsAreRightIff`).
- The URL match is set equality only without repeats, and a pod with a repeated address does not recognise its own
  addition (`Members.MatchIsSetEqualityIff`, `Members.OwnAdditionRecognised`).
- An empty host map is never enforced on the ConfigMap (`Pipeline.EmptyMapIsNotEnforced`), and a ConfigMap text that
  the controller leaves alone may still be misread by the etcd side (`ConfigMaps.LeftAloneTextReadIff`).
- One failed read of the configured CA secret makes the controller return another CA and, with two namespaces, replace
  the stored one (`CASecrets.FailedReadKeepsIff`, `CASecrets.FailedReadReplacesCA`); a corrupt secret of its own can
  keep the namespaces apart (`CASecrets.ConvergesIff`).
- The agreement of all copies rests on every message being a reference to the one live map: with copies, the same
  program can lose the last update for good (`Propagation.CopiesWouldLoseAnUpdate`).

The comment at `pkg/cluster/manager.go:318-321` says a case is rejected for quorum protection; the code adds a voter
whenever two or more voters are counted and rejects only when none is. The model follows the code.

## Model

| member | source | states |
|---|---|---|
| Members.BuildPeerURLSet | pkg/cluster/manager.go:264-270 | the set has exactly the peer URL of each own IP |
| Members.CheckPeerURLsMatch | pkg/cluster/manager.go:275-288 | the loop decides: both non-empty, equally many, every listed URL ours |
| Members.MatchIsSetEqualityIff | pkg/cluster/manager.go:272-288 | the test is equality of non-empty sets, against every set, if and only if the listed URLs are all different |
| Members.IsSelfIff | pkg/cluster/manager.go:152-163 | a member whose URLs are all different is this pod if and only if it bears its name or has exactly its URLs |
| Members.OwnAdditionRecognised | pkg/cluster/manager.go:126-129 | a member this pod added and never started, its URLs in any order, is recognised as self if and only if the pod has addresses and none repeated |
| Members.RolesPartition | pkg/cluster/manager.go:152-187 | self, doomed, learners and counted voters split every member list, as multisets and in size |
| Members.WithRole | pkg/cluster/manager.go:152-187 | the members handled in one way are exactly those with that role |
| Members.RemovalsAreRightIff | pkg/cluster/manager.go:165-187 | the removed members of any list are those on a dead host, if and only if no other member that is not on one has a URL with a dead IP as a part |
| Members.DottedIPOccursInHost | pkg/cluster/manager.go:169 | a dotted dead IP is a part of a URL exactly when it is a part of its host |
| Members.DoomedBySubstring | pkg/cluster/manager.go:169 | the live member at 10.0.0.10 is removed for the dead IP 10.0.0.1 |
| Members.MyID | pkg/cluster/manager.go:154-158 | a non-zero ID of an own entry, and 0 only if there is none |
| Members.ScanFindsTheOwnEntry | pkg/cluster/manager.go:152-163 | with one own entry the scan reports exactly its ID and learner flag |
| Members.Purge | pkg/cluster/manager.go:181-201 | after the removals exactly those members are gone whose removal took effect |
| Joining.FirstAccepted | pkg/cluster/manager.go:395-410 | the attempt that ends the promotion is the first accepted one, or none of the 100 was accepted |
| Manager.Cluster.MemberRemove | pkg/cluster/manager.go:193-201 | the member is gone if the request took effect, whatever the caller was told |
| Manager.Cluster.MemberAdd | pkg/cluster/manager.go:322-339 | an unnamed member with the given URLs is appended unless the server refuses; a shared URL is refused |
| Manager.Cluster.MemberPromote | pkg/cluster/manager.go:400-405 | the learner becomes a voter if the request took effect |
| Manager.Host.StartEtcd | pkg/cluster/manager.go:414-425 | etcd starts on the data directory that is there, or else bootstraps the new member's data |
| Manager.JoinManager.InitializeNewCluster | pkg/cluster/manager.go:83-109 | old data is wiped and a one-member cluster with this pod is started, or only the wipe happens |
| Manager.JoinManager.PeerEndpoints | pkg/cluster/discovery.go:287-302 | the loop builds one named entry with scheme for each own address, in order |
| Manager.JoinManager.JoinExistingCluster | pkg/cluster/manager.go:112-135 | the method's effect on cluster, disk, child and environment, and its result, are the pass that the other modules reason about |
| Manager.JoinManager.ProcessMembers | pkg/cluster/manager.go:145-190 | removal is attempted exactly once for each doomed member in list order, and the scan is that of the whole list |
| Manager.JoinManager.CheckDeadIP | pkg/cluster/manager.go:165-179 | for every order of the dead IPs, the loops find a dead IP in some URL exactly when there is one |
| Manager.JoinManager.HandleJoin | pkg/cluster/manager.go:204-221 | the three-way choice on own entry and data, with the wipe when there is no own entry |
| Manager.JoinManager.HandleExistingMemberWithData | pkg/cluster/manager.go:224-239 | promote first, clean up member and data on failure, else start on the data |
| Manager.JoinManager.HandleExistingMemberWithoutData | pkg/cluster/manager.go:242-252 | remove the old entry, and add afresh only if that was accepted |
| Manager.JoinManager.AddAndStart | pkg/cluster/manager.go:303-370 | learner at one counted voter, voter above, nothing at none; start; promote after the start |
| Manager.JoinManager.BuildConfig | pkg/cluster/manager.go:373-385 | the nested loops list every URL of every member under its name or ours |
| Manager.JoinManager.Promote | pkg/cluster/manager.go:388-411 | succeeds if and only if one of the 100 attempts is accepted, and makes no more attempts than that |
| InitialCluster.ParseOfWritten | pkg/cluster/manager.go:343-348 | etcd reads under each name exactly the URLs of the members written under that name, in order |
| InitialCluster.MemberReadBackIff | pkg/cluster/manager.go:373-385 | a member's own URLs are read back exactly if no other member with URLs is written under its name |
| InitialCluster.FoundingFormAgrees | pkg/cluster/manager.go:92-98 | the founding text is the join text of the one-member list |
| JoinTable.JoinTable | pkg/cluster/manager.go:112-370 | for every list and all answers: the outcome of a join, the data directory and the child it leaves |
| JoinTable.ListTable | pkg/cluster/manager.go:112-411 | for every list and all answers: the member list a join leaves, lost answers included |
| JoinTable.EtcdReadsTheNewList | pkg/cluster/manager.go:343-348 | an etcd started for an added member is told to join, and reads under each name the URLs of the members left after the removals and the stored URLs of the new one, if none of them contain a separator; a pass that adds nobody leaves the environment alone |
| JoinTable.EtcdReadsItself | pkg/cluster/manager.go:343-348 | under the pod's name it reads exactly the new entry as the server stored it, if nobody who is left is unnamed or bears that name |
| JoinTable.EtcdReadsTheOthers | pkg/cluster/manager.go:373-385 | under the name of any other member that is left, exactly that member's URLs, if the name is its own |
| JoinTable.FoundingTable | pkg/cluster/manager.go:83-109 | a founding wipes old data in any case, and leaves the one-member cluster and its data exactly if etcd started |
| JoinTable.FounderReadsItself | pkg/cluster/manager.go:89-98 | a founding etcd is told to found, and reads the https URL of each own IP in order under the pod's name and nothing under any other |
| JoinFacts.JoinKeeps | pkg/cluster/manager.go:112-252 | every pass, with any failures: at most one own entry stays, listed own entries fit the data, and a child runs on the joined cluster's data |
| JoinFacts.AddAndStartKeeps | pkg/cluster/manager.go:303-370 | the same for adding: every addition meets an empty directory |
| JoinFacts.WithDataKeeps | pkg/cluster/manager.go:224-239 | the same for the branch with data, including the failed promotion |
| JoinFacts.AnyJoinKeeps | pkg/cluster/manager.go:112-252 | and whatever cluster the data is of: lists stay in order, and the disk is kept, wiped or holds the added member's data |
| Bootstrap.OwnerRecognises | pkg/cluster/manager.go:152-163 | a member is recognised as self by its owner and by no other pod |
| Bootstrap.NextDecides | cmd/etcdcluster/main.go:369-420 | a pod that sees a ready node makes the join pass whatever else it sees; one that sees none but a not-ready one changes nothing; founding is what pod 0 does otherwise |
| Bootstrap.LossyStepStaysSane | cmd/etcdcluster/main.go:369-420 | every step of the many-pod system, also with missed etcds, keeps lists tidy, every member owned, and every disk naming its own pod |
| OneCluster.StepKeeps | cmd/etcdcluster/main.go:369-420 | every step with faithful discovery keeps besides: one live cluster, and no stale data beside a listed own entry |
| OneCluster.JoinKeepsInv | cmd/etcdcluster/main.go:370-384 | the joining iteration keeps it, with every partial failure |
| OneCluster.FoundingSeesNobody | cmd/etcdcluster/main.go:391-403 | a founding iteration is pod 0's, and no etcd runs anywhere |
| OneCluster.FoundedInv | pkg/cluster/manager.go:83-109 | founding keeps the invariant |
| OneCluster.PublishKeeps | pkg/cluster/manager.go:126-128 | a started member's name appearing in the list keeps it |
| OneCluster.EvictKeeps | pkg/cluster/manager.go:181-201 | removal of any member by anyone keeps it |
| OneCluster.ExitKeeps | cmd/etcdcluster/main.go:443-473 | the end of an etcd, with its data kept or lost, keeps it |
| Runs.SingleLiveCluster | cmd/etcdcluster/main.go:391-403 | at every moment of every run all running etcds are of one cluster |
| Runs.NoStaleDataInRuns | pkg/cluster/manager.go:204-239 | if the live cluster lists an entry a pod recognises, the pod has no data or exactly that member's |
| Runs.EveryClusterWasFoundedByPodZero | cmd/etcdcluster/main.go:396-403 | every cluster comes from a founding by pod 0 while no etcd was running |
| Runs.DeadClusterStaysDead | cmd/etcdcluster/main.go:369-420 | a cluster without a running process never runs again |
| Runs.AddIsNeverADuplicate | pkg/cluster/manager.go:140-144 | in every reachable world an addition never fails because of the pod's own older entry |
| Runs.NoLearnerLivelock | pkg/cluster/manager.go:228-236 | between two failures of a pod's learner branch it was added afresh and started, whether or not the clean-up worked |
| Recovery.JoinLandsInTarget | pkg/cluster/manager.go:204-220 | a successful join ends in the joined cluster if and only if there was no recognised entry, no data, or that cluster's data |
| Recovery.RejoinWipesSplitData | pkg/cluster/manager.go:214-220 | without a recognised entry the data is wiped and replaced by a new member's |
| Recovery.CanStillLand | pkg/cluster/manager.go:204-252 | through every step of anyone, and every failure of its own attempts, a pod stays unlisted in c, without data or with data of c, unless it takes up other data |
| Recovery.WhatADetourIs | cmd/etcdcluster/main.go:379-407 | only its own founding that starts, or its own join of another cluster, can give it other data |
| Recovery.JoinsLand | cmd/etcdcluster/main.go:379-384 | in every run with lossy probes, each successful join of c from such a world on runs in c |
| Recovery.SplitIsAlarmed | pkg/cluster/manager.go:470-491 | a checker that is answered by another cluster's etcd raises the alarm at that tick, after any inconclusive ones |
| Recovery.RecoveryAfterSplit | cmd/etcdcluster/main.go:508-523 | in every run with lossy probes: the checker raises the alarm, its etcd is ended, and after any failed attempts and any steps of others the pod's next successful join of the surviving cluster runs there, if that cluster did not list the pod and it took up no other data in between |
| SplitRun.SplitPersists | pkg/cluster/manager.go:207-209 | for every three pods there is a run in which the alarm is raised, the etcd is ended, the pod rejoins successfully and the split remains, with a majority behind every ready probe |
| SplitRun.ProbesHaveQuorum | pkg/cluster/discovery.go:220-228 | whoever is probed as ready in that run has a leader: a majority of its cluster's voters runs |
| SplitRun.ThreePodsCanRunTogether | cmd/etcdcluster/main.go:369-420 | for every three pods there is a run with faithful probes in which all end up running one cluster |
| Quorum.PassKeepsQuorumIff | pkg/cluster/manager.go:112-252 | from a counted cluster, every configuration of a whole pass has a running majority if and only if no promotion of an unstarted learner beside a single voter takes effect |
| Quorum.JoinKeepsQuorumIff | pkg/cluster/manager.go:207-252 | whatever the surroundings answer, a pass keeps the majority throughout if and only if the pod is not a listed learner with data beside a single voter |
| Quorum.UnstartedLearner | pkg/cluster/manager.go:228-238 | such a cluster, for every pod |
| Quorum.StoppedAfterFailureIff | pkg/cluster/manager.go:357-366 | after a failed promotion and the SIGTERM, a majority is left if and only if none of the failed promotions took effect |
| Quorum.PassGoesThrough | pkg/cluster/manager.go:112-135 | exactly the configurations of a pass: those before the start, and after it only promotions of the member it added |
| Quorum.AdditionKeepsQuorumIff | pkg/cluster/manager.go:318-335 | the thresholds are tight: a voter may be added exactly above one counted voter, a learner exactly from one |
| Quorum.VoterAdditionIff | pkg/cluster/manager.go:327-330 | in general a voter may be added exactly when running voters exceed the dead ones by two |
| Quorum.PromotionKeepsQuorumIff | pkg/cluster/manager.go:388-411 | promoting a learner is safe exactly if it runs or there is that slack |
| Checker.CollectOtherEndpoints | pkg/cluster/manager.go:534-594 | the first usable address of each other node, and exact reasons when there is none |
| Checker.ComparedEndpointsAreForeign | pkg/cluster/manager.go:553-582 | compared endpoints come from different directory entries, each of another node, and use a healthy address of it that is not ours |
| Checker.ComparedIff | pkg/cluster/manager.go:534-594 | an address is compared if and only if it is the first healthy foreign address of some entry of another node |
| Checker.HostIsReadBack | pkg/cluster/manager.go:575-579 | the host of a compared address is read back from it, and an IPv6 host stands in brackets (section 3.2.2 of RFC 3986) |
| Checker.GetLocalClusterInfo | pkg/cluster/manager.go:665-696 | the local cluster ID, and the ID of the first member with the pod's name; zero without an answer or such a member |
| Checker.VerifyWithOtherNodes | pkg/cluster/manager.go:597-652 | split if and only if some answering node offends; verified if and only if some answers and none offends |
| Checker.MemberIDFound | pkg/cluster/manager.go:655-662 | membership |
| Checker.CheckBrainSplit | pkg/cluster/manager.go:507-530 | the same of one whole check, with local IDs non-zero |
| Checker.OrderDoesNotMatter | pkg/cluster/manager.go:548-582 | the order of the node directory does not change the verdict |
| Checker.ZeroClusterIDAgrees | pkg/cluster/manager.go:625 | a zero remote cluster ID does not offend by itself |
| Checker.RunChecker | pkg/cluster/manager.go:448-500 | over any ticks: at most one result, at the first conclusive tick, true exactly for a split; never gives up; silent on a stop |
| Detection.AlarmMeansEvicted | pkg/cluster/manager.go:624-639 | with faithful probes an alarm means that the pod's own member was removed |
| Detection.OtherClusterRaisesAlarm | pkg/cluster/manager.go:624-631 | a compared node of another cluster always raises the alarm |
| Detection.SplitSeenIff | pkg/cluster/manager.go:597-652 | in any world a tick sees a split if and only if a compared node answers from another cluster, or from a list without the pod's member |
| Detection.NamedMemberIsOwn | pkg/cluster/manager.go:687-692 | the member listed under the pod's name is the pod's own, and the running one if that is listed |
| ClusterLoop.Process.WaitExit | cmd/etcdcluster/main.go:443-473 | a signal has the child killed and the child's end is waited for otherwise; both end the process |
| ClusterLoop.Process.WaitExitWithBrainSplitCheck | cmd/etcdcluster/main.go:476-540 | it returns exactly when the checker reports a split and the child can be signalled, and the child has then ended; else the process exits |
| ClusterLoop.Process.Iterate | cmd/etcdcluster/main.go:345-421 | one iteration, through the real join, founding and wait methods, on the process's own disk and children |
| ClusterLoop.IterationDecides | cmd/etcdcluster/main.go:369-420 | an iteration with a ready node and a client makes exactly the join pass, whatever else is seen; it founds exactly if no node is ready or not ready and the pod is pod 0; otherwise it changes nothing; a started etcd is waited for, and only a detected split of a founded one lets the loop go on |
| ClusterLoop.Process.RunClusterLoop | cmd/etcdcluster/main.go:333-422 | the loop over any iterations is the run that the lemmas below are about |
| ClusterLoop.RunShape | cmd/etcdcluster/main.go:369-420 | processes handed to a wait are foundings whose split was detected and ended, then at most one last one and exit; only pod 0 founds |
| ClusterLoop.OthersWaitOnce | cmd/etcdcluster/main.go:396-400 | any other pod waits at most once |
| ClusterLoop.StraysAre | pkg/cluster/manager.go:357-366 | an iteration finds a child running exactly if an earlier join of this process failed to promote it, it outlived its SIGTERM and has not ended since; it is the etcd of the member that join added |
| ClusterLoop.ChildDoesNotMatter | pkg/cluster/manager.go:112-370 | a pass does the same beside such a child |
| ClusterLoop.PassLeavesChild | pkg/cluster/manager.go:351-369 | a pass leaves a child exactly when it started one or could not end it after the failed promotion |
| Discovery.ReadIPFile | pkg/cluster/discovery.go:232-248 | fails exactly on an unreadable file, and never gives an empty list |
| Discovery.ReadIPFileIff | pkg/cluster/discovery.go:232-248 | the list is the node's own name without a file, and else exactly the comma-separated pieces of the text between white space |
| Discovery.Nodes | pkg/cluster/discovery.go:86-94 | exactly the entries that are files named by an IP address |
| Discovery.CollectBest | pkg/cluster/discovery.go:174-184 | the collecting loop with its early return finds the best result for every arrival order |
| Discovery.SenderNeverBlocks | pkg/cluster/discovery.go:160-168 | a probe that has yet to send finds room in the channel, also after the early return |
| Discovery.StepKeeps | pkg/cluster/discovery.go:96-127 | every step of every goroutine keeps the invariant |
| Discovery.DiscoveryIsScheduleIndependent | pkg/cluster/discovery.go:82-127 | for every interleaving a finished node is stored by its best probe alone, the maps are disjoint, and no sender blocks |
| Discovery.CompleteRunsAgree | pkg/cluster/discovery.go:57-133 | two complete runs over the same files and probes give the same result |
| Discovery.DiscoveryFinds | pkg/cluster/discovery.go:82-133 | whatever the schedule: a node is ready with the addresses of its file if and only if one of them answers as healthy, not ready if and only if none does and one answers so, dead if and only if its file cannot be read; nothing else is stored |
| Discovery.NeverStuck | pkg/cluster/discovery.go:129 | until a node is done some goroutine of it can go on |
| Discovery.StopsIff | pkg/cluster/discovery.go:160-172 | nothing can move if and only if every node is done and every probe has sent |
| Discovery.DiscoveryEnds | pkg/cluster/discovery.go:96-129 | no schedule takes more than three steps a node and two an address, and where it stops every node is done |
| PubSub.PubSub.Subscribe | pkg/util/pubsub.go:32-50 | registers an empty open channel, and fails exactly for a registered ID |
| PubSub.PubSub.Unsubscribe | pkg/util/pubsub.go:52-68 | closes and removes that channel, and the topic with its last one |
| PubSub.PubSub.Publish | pkg/util/pubsub.go:70-88 | every subscriber of the topic is offered the message, no channel offered to is closed, and nothing else changes |
| PubSub.Subscriber.Offer | pkg/util/pubsub.go:81-85 | a full channel drops the message |
| PubSub.PubSub.Receive | pkg/util/pubsub.go:18-20 | the oldest waiting message is taken |
| PubSub.NoEmptyTopic | pkg/util/pubsub.go:65-67 | after any operations no topic entry is empty |
| PubSub.OperationIs | pkg/util/pubsub.go:32-88 | what each operation does to any one queue, and that all others leave it alone |
| PubSub.RegisteredIff | pkg/util/pubsub.go:32-68 | after any operations a subscriber is registered if and only if it subscribed and did not unsubscribe since |
| PubSub.SubscribersAreIndependent | pkg/util/pubsub.go:22-25 | a subscriber's queue depends only on its topic's publications and its own operations |
| PubSub.FirstInFirstOut | pkg/util/pubsub.go:79-86 | received and waiting messages are the offered ones in order, less exactly those offered while ten were waiting |
| PubSub.OfferedSinceSubscription | pkg/util/pubsub.go:70-88 | the offered messages are exactly the topic's publications since the subscription |
| HostMaps.HostDict.Apply | pkg/controller/configmap.go:105-126 | the copy ends equal to the message; the changed list has no duplicates, is exactly the differing keys, and is empty exactly if nothing changed |
| HostMaps.HostDict.AddOrUpdate | pkg/controller/pod.go:131-138 | the first loop, for every map order |
| HostMaps.HostDict.RemoveAbsent | pkg/controller/pod.go:141-146 | the second loop, for every map order |
| HostMaps.SubsetOfSameSizeOrLess | pkg/controller/pod.go:140 | the size test that guards the second loop is sound |
| HostMaps.ChangedIsExact | pkg/controller/pod.go:126-146 | both loops together list every differing key once |
| EcsNode.GetIpmap | pkg/controller/ecnode.go:190-219 | master address and address set of any endpoint list |
| EcsNode.MasterIsTheLast | pkg/controller/ecnode.go:212-214 | the last usable endpoint on the master interface gives the master address |
| EcsNode.MasterOf | pkg/controller/ecnode.go:195-218 | there is a master address exactly if there is such an endpoint, and it is one of the addresses |
| EcsNode.AddressesAre | pkg/controller/ecnode.go:199-216 | the addresses are exactly the hosts that endpoints on configured interfaces say: the text before the first slash, without the white space around it |
| EcsNode.MasterIs | pkg/controller/ecnode.go:199-218 | the master address is the host that the last endpoint on the master interface says, of those that say one |
| EcsNode.MaskIsDropped | pkg/controller/ecnode.go:204-205 | an address with any mask gives what the address alone gives: exactly itself |
| EcsNode.EcsNode.OnceInit | pkg/controller/ecnode.go:80-106 | the list is taken in once, on the first success |
| EcsNode.EcsNode.Reconcile | pkg/controller/ecnode.go:136-188 | new map and deferred trigger for every event |
| EcsNode.LastListedWins | pkg/controller/ecnode.go:95-102 | each entry after the first list is that of the last listed node with this master address |
| EcsNode.ReconcileSaysTheNode | pkg/controller/ecnode.go:161-186 | a later reconcile makes the object's entry say exactly its usable addresses, or removes it, and touches no other |
| EcsNode.ChangeIsPublished | pkg/controller/ecnode.go:142-147 | no change of the map goes without a trigger |
| EcsNode.ReconcileKeepsClean | pkg/controller/ecnode.go:199-216 | always, whatever the objects say: each key is in its own set, and addresses are trimmed, non-empty and without a mask |
| EcsNode.ReconcileKeepsOwn | pkg/controller/ecnode.go:199-216 | and, if no endpoint has a comma, the map can be written as text and read back |
| ConfigMaps.GetIPSetFromConfigmap | pkg/controller/configmap.go:217-230 | the loops read every entry as the set of its trimmed pieces |
| ConfigMaps.DeepEqualSets | pkg/controller/configmap.go:232-259 | equality of the two maps |
| ConfigMaps.EntryRoundTripIff | pkg/controller/configmap.go:203 | a joined list is read back as its set if and only if it is not empty and every address is trimmed and comma-free |
| ConfigMaps.ParsedIff | pkg/controller/configmap.go:222-226 | any text is read as exactly its comma-separated pieces without the white space around each |
| ConfigMaps.RoundTripIff | pkg/controller/configmap.go:200-205 | the same for whole maps and every order of writing |
| ConfigMaps.NodeFileGivesEachIPOnce | pkg/cluster/discovery.go:245-247 | the etcd side reads each written address exactly once |
| ConfigMaps.LeftAloneTextReadIff | pkg/controller/configmap.go:222-226 | a text the controller accepts gives the etcd side each address once exactly if its pieces are trimmed and different |
| ConfigMaps.ConfigMapSync.OnMessage | pkg/controller/configmap.go:95-126 | the copy becomes the message's map, and a trigger follows exactly if that changed it |
| ConfigMaps.ConfigMapSync.Reconcile | pkg/controller/configmap.go:147-185 | a trigger exactly if there is data and the ConfigMap is unreadable, missing, being deleted or different |
| ConfigMaps.ConfigMapSync.Mutate | pkg/controller/configmap.go:196-207 | text that says the data is left alone, other text is rewritten from the data |
| ConfigMaps.ConfigMapSync.SyncConfigmap | pkg/controller/configmap.go:188-215 | success means the stored text reads back as the data; an error leaves the old object or the right one |
| Pipeline.PublishIsThePubSubs | pkg/util/pubsub.go:79-86 | publishing in the pipeline is publishing in the hub |
| Pipeline.ReceiveIsThePubSubs | pkg/util/pubsub.go:18-20 | so is taking a message |
| Pipeline.StepKeeps | pkg/controller/ecnode.go:110-188 | every step keeps: a copy that is behind has a message or trigger pending, a ConfigMap that is behind has work pending |
| Pipeline.AgreementAtQuiescence | pkg/controller/configmap.go:82-145 | in every run, whatever was dropped or failed, all copies equal the live map once nothing is pending, and so does a non-empty ConfigMap |
| Pipeline.EmptyMapIsNotEnforced | pkg/controller/configmap.go:154-157 | with an empty map the ConfigMap can be anything at quiescence |
| Pipeline.SnapshotsLoseTheLast | pkg/controller/ecnode.go:125 | with copies as messages the agreement fails for any map that can take eleven values in turn |
| Propagation.ProgramIsSound | pkg/controller/ecnode.go:134-188 | the real reconciler, text form and reader meet what the pipeline asks of them |
| Propagation.HostsAgreeAtQuiescence | pkg/controller/configmap.go:82-215 | the agreement for the real host maps and texts |
| Propagation.SameDecisions | pkg/controller/configmap.go:165-182 | the pipeline's ConfigMap steps decide as the synchroniser's methods do |
| Propagation.WrittenTextReachesEtcd | pkg/cluster/discovery.go:232-248 | for every reachable map, the written file gives the etcd side exactly the node's addresses, once each, the master among them |
| Propagation.CopiesWouldLoseAnUpdate | pkg/controller/ecnode.go:125 | a run of the real reconciler with copied messages that ends quiescent with a subscriber behind |
| CASecrets.MapsEqual | pkg/cert/secret.go:208-219 | equality of the two data maps |
| CASecrets.SecretManager.LoadCAFromSecret | pkg/cert/secret.go:222-239 | the CA of the secret, if it can be read, has both keys and parses |
| CASecrets.SecretManager.EnsureCASecret | pkg/cert/secret.go:45-97 | creates a missing secret, never changes an existing one, succeeds only if both keys are then there, and fails and writes nothing if the read fails |
| CASecrets.SecretManager.CopyCASecretData | pkg/cert/secret.go:158-205 | on success the namespace holds exactly the data; nothing is written if it did already |
| CASecrets.SecretSync.SyncCAToNamespace | pkg/controller/secret.go:415-422 | copies the two keys |
| CASecrets.SecretSync.LoadOrCreateCA | pkg/controller/secret.go:162-226 | the method's calls and result are the function that the lemmas below are about |
| CASecrets.SecretSync.Start | pkg/controller/secret.go:143-160 | keeps a loaded CA, and fails without one |
| CASecrets.ConvergesIff | pkg/controller/secret.go:162-226 | with a reliable API a successful call leaves both namespaces holding the returned CA, unless exactly the own secret is corrupt and the configured one gives no CA |
| CASecrets.SucceedsIff | pkg/controller/secret.go:162-226 | with a reliable API only an incomplete own secret makes a call fail |
| CASecrets.CallSucceedsIff | pkg/controller/secret.go:162-226 | the exact condition for success for every store and every pattern of failing requests |
| CASecrets.ReturnedIsStored | pkg/controller/secret.go:162-226 | whatever fails, a CA is returned only if both namespaces then have a secret with both keys, and with two namespaces the configured one holds that CA |
| CASecrets.OnlyTheCandidate | pkg/controller/secret.go:162-226 | whatever fails, no CA but the loaded or generated one is returned or written, and no other namespace is touched |
| CASecrets.NoReadNoCA | pkg/cert/secret.go:63-65 | while no read works no CA is returned and nothing is written |
| CASecrets.NoAnswerNoNewCA | pkg/controller/secret.go:180-226 | while no write is acknowledged a CA is returned only if nothing had to be written |
| CASecrets.LoadableIsKept | pkg/controller/secret.go:167-178 | a loadable CA of the configured namespace is returned and its secret not touched, if the first read works |
| CASecrets.FailedReadKeepsIff | pkg/controller/secret.go:180-210 | if that read fails, the CA survives exactly when the other namespace holds the same one |
| CASecrets.FailedReadReplacesCA | pkg/controller/secret.go:180-210 | a concrete case in which it is replaced in both namespaces |
| CASecrets.CallKeepsCA | pkg/controller/secret.go:162-226 | whatever becomes of the writes, a CA in force stays in force and no other is returned |
| CASecrets.AllStartsAgree | pkg/controller/secret.go:143-152 | over any number of restarts with failing writes, all successful starts return one CA |
| CASecrets.SecondCall | pkg/controller/secret.go:168-177 | a second call returns the same CA, and writes nothing exactly if the own secret holds just the two keys |
| CASecrets.ThirdCallWritesNothing | pkg/controller/secret.go:168-177 | from the third call on nothing is written |

## Left out

- Recovery.RecoveryAfterSplit: each join talks to one cluster; a client whose endpoints span two live clusters (`pkg/cluster/manager.go:50-55`) is not part of this model.
- OneCluster.StepKeeps: an iteration is one step; several pods' joins interleaved request by request are not modelled, nor is a cluster ID that etcd derives anew from the same names and URLs.
- ClusterLoop.StraysAre: an etcd started beside a child left behind is a process of its own; that it finds the data directory locked and ends is not modelled.
- ClusterLoop.RunShape: exit codes and the unbounded retry without delay are not modelled.
- PubSub.PubSub.Publish: calls are atomic under the lock; shutdown and the closing of channels by a context are not modelled.
- EcsNode.EcsNode.Reconcile: the map is compared with nothing outside; agreement with the API server's ECSNode objects does not hold (a changed master address leaves its old key) and is not claimed.
- Pipeline.AgreementAtQuiescence: safety only; the ConfigMap loop can block on its own full trigger channel (`pkg/controller/configmap.go:125`), which is a pending state here.
- CASecrets.AllStartsAgree: one controller at a time; a concurrent writer of the secrets is not modelled, and certificates are bytes with a parse predicate.
- etcd itself, networking, TLS and timing: every request is an answered call, a probe is one of three results.
- X.509 certificates, client certificates and their validation (`pkg/cert/ca.go`, `pkg/cert/member.go`, `pkg/controller/secret.go` from line 228 on).
- Environment files, scripts, interface lookup and configuration loading (`pkg/init`, `cmd/ecsnode`): straight-line input and output.
- `pkg/controller/node.go`, `pkg/controller/service.go` and the tracking of pods in `pkg/controller/pod.go`: object plumbing that would add easy members.
- The bracketed host form of an IPv6 zone and the parsing of IP addresses: `isIP` is given for each directory entry, and a colon brings brackets.
- Secret annotations and labels, log messages, Helm charts, YAML and generated code.
