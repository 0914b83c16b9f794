# Reconciler models

Models of the reconcilers that keep state across runs, share a target with other actors, or must be
safe at every intermediate call, and the properties stated of them.  `dfyconfig.toml` names the files.

| part | modules |
|---|---|
| optimistic multi-merge queue of `gitlab_housekeeping` | `GitLabRepo` (MRs, labels, commit graph, writes), `MergeQueue` (what a pass writes), `MergeQueueRules` / `MergeQueueLegal` (the rule of every write), `MergeQueueRuns`, `MergeQueueGroups`, `MergeQueueLandings`, `MergeQueueProgress`, `MergeQueueRetries` (the theorems), `MergeQueueMembers`, `MergeQueueTurns`, `MergeQueueSerial` (the same passes told by labels, pipelines, commits and counts alone), `GitLabHousekeeping` (the loops), `ErrorHealthcheck`, `ActiveCapRebase` |
| three-way realization of `openshift_base` | `OpenshiftRealize` (comparison, ownership, effects), `OpenshiftConvergence`, `OpenshiftCallers`, `OpenshiftTasks` (the theorems), `OpenshiftOutcome` (verdicts and effects told by single fields), `OpenshiftBase` (the handlers) |
| label inventory of `openshift_namespace_labels` | `NamespaceLabels` (runs), `LabelInventory` (the inventory) |
| `database_access_manager` | `DatabaseScript` (SQL), `DatabaseAccess` (passes, job, password, clean-up), `DatabaseRecord` (what is held and recorded), `DatabaseAccessManager` (one pass) |
| `openshift_cluster_bots` | `BotTokens` (protocol), `ClusterBots` (calls and merging) |
| diff planners | `MachinePools`, `Groups` |

Where the code loops over mutable state, a class with methods makes exactly the writes that a
specification function assigns to it; the theorems are about that function, over every input,
every prefix of writes (a stop) and every run.  Clocks, the network and answers of remote services
are parameters: "window open", "CI healthy", GitLab's rebase, merge and compare answers, what an
API server refuses.

## What the models found

- The branch-integrity check of the merge queue cancels a healthy group after a landing by
  unsquashed fast-forward, because GitLab then records neither a merge nor a squash commit
  (`IntactIffRecorded`, `FastForwardCancels`).
- A merge attempt that raises is retried with the listing it started from, unless it raised to insist
  on a pipeline.  The retry can take a member that the failed attempt has landed for a newcomer and
  unlabel it, so that the integrity check cancels a healthy group (`RetryCancels`); exactly when is
  said by `EnlistIntactIff` and `GroupPassIntactIff`.
- Such a retry also lands MRs on the labels and the commit of the listing: an MR put on hold in the
  meantime is merged (`OldLabelsLand`, `ReadyFitIffUnspoilt`), and one whose tenant labels changed can
  join a group it overlaps (`OldTenantsOverlap`, `GroupPassDisjointIff`).
- Group members are judged by their newest pipeline that is neither skipped nor started by a push,
  serial merges by their newest one that is not skipped (`GreenIffNoPushInFront`, `PushFailureLands`).
- A dry group pass counts every member that is ready now, a real one lands them one after the other with
  HEAD moving under the rest, so the dry count can be too high (`DryGroupMergesAre`, `MemberActs`,
  `GroupPassLandsOnce`).
- Approval labels are not looked at again once an MR is pending (`FitToLand` does not mention them).
- ADR-019 (`docs/adr`) lets optimistic merges skip the rebase check; the code does not, and the model
  follows the code.
- One error health check is not always a fixpoint: a freshly flagged rebase error defers the other
  labels (`OnePassSettlesIff`).
- A second realization is idle after a restart in between only while the carried-over restart
  annotations are unchanged, since the hash covers them (`QuietIffRestartsKept`).  The restart
  itself is not undone (`RestartSurvives`).
- A run of the label inventory that cannot list a cluster's namespaces takes their labels to be none:
  it overwrites conflicting labels and forgets managed ones (`BlindRunIff`).
- The database access manager records the definition of the pass that finds the job completed, not
  of the script that ran, and records it in a dry run too (`RecordsTruthIff`, `DryRunIsDryIff`).
- A definition that cannot run leaves privileges behind when it is replaced after its failed job was
  removed: revocations follow from the record, which never had them (`ReplacementKeepsOld`,
  `RecordsWhatIsHeldIff`, `UnrecordedIsNeverRevoked`).
- A clean-up that is stopped behind its first deletion is stuck, for the next one raises when it does
  not find the service account; if the user secret is gone by then, every further pass hands Vault a
  new password that the database does not have (`StoppedCleanUpIsStuck`,
  `StoppedCleanUpLosesThePassword`).
- A job that is suspended or about to fail counts as completed (`HaltedJobIsRecorded`).
- A removal script revokes before it connects to the user's database and before it stops on errors, so
  nothing is revoked there; the role goes only if it holds nothing, whatever is listed, and a user that
  was provisioned never goes, for CONNECT stays granted (`DeprovisionIff`, `ProvisionedUserStays`,
  `RemovalRecordedIff`).
- The merge limit of a group pass stops it behind the landing that reaches it, so one member lands even
  when the limit is zero; the limit of a serial pass is checked before (`MemberActs`, `SerialTurns`).
- An empty grant list makes the generated script fail (`ProvisionEffect`).

## Model

| member | source | states |
|---|---|---|
| `GitLabHousekeeping.GitLabApi.GetOmmGroupLead` | reconcile/gitlab_housekeeping.py:739-749 | finds the first merged MR with the lead label in listing order, or none |
| `GitLabHousekeeping.GitLabApi.FormOmmGroup` | reconcile/gitlab_housekeeping.py:855-894 | the loop returns the selection `Form`, which `FormIsGreedy` and `GreedyUnique` pin down |
| `GitLabHousekeeping.GitLabApi.ApplyOmmPending` | reconcile/gitlab_housekeeping.py:761-800 | labels and rebases every candidate, takes the label back and flags a rebase error on a conflict, and returns exactly the candidates not refused |
| `GitLabHousekeeping.GitLabApi.EnlistMr` | reconcile/gitlab_housekeeping.py:775-799 | the calls made for one candidate, in order |
| `GitLabHousekeeping.GitLabApi.ClearOmmGroup` | reconcile/gitlab_housekeeping.py:814-852 | lead first, then open, closed and merged pending MRs lose their label; a dry run writes nothing |
| `GitLabHousekeeping.GitLabApi.ProcessOmmMember` | reconcile/gitlab_housekeeping.py:1058-1249 | ejects, waits, lands or rebases one member exactly as `Member` decides, and reports merged/active; `MemberReacts` and `MemberActs` say what that means on labels, pipelines and commits |
| `GitLabHousekeeping.GitLabApi.CheckTargetBranchIntegrity` | reconcile/gitlab_housekeeping.py:1252-1303 | true exactly when HEAD is the lead's commit, or contains it and is the recorded merge or squash commit of a merged, still pending MR on the same branch |
| `GitLabHousekeeping.GitLabApi.EjectOverlapping` | reconcile/gitlab_housekeeping.py:1375-1386 | keeps each member that overlaps neither the lead nor an earlier kept one and takes the label off the others; `KeepIsFirstCome` pins the selection down |
| `GitLabHousekeeping.GitLabApi.ProcessMembers` | reconcile/gitlab_housekeeping.py:1388-1402 | processes members in order until the merge limit; counts merges, remembers activity |
| `GitLabHousekeeping.GitLabApi.ExpandGroup` | reconcile/gitlab_housekeeping.py:1404-1420 | adds newcomers apart from lead and kept members and closes a group that waits for nothing |
| `GitLabHousekeeping.GitLabApi.ProcessOmmGroup` | reconcile/gitlab_housekeeping.py:1306-1422 | a group pass makes exactly the writes of `GroupPass` and returns its merge count; `MemberActs`, `GroupStaysOpenIff`, `StaysMemberIff`, `EnlistedIff` and `GroupMergesAre` state these without naming it |
| `GitLabHousekeeping.GitLabApi.MergeMr` | reconcile/gitlab_housekeeping.py:1541-1560 | merges one MR, or flags it when GitLab refuses, and says which |
| `GitLabHousekeeping.GitLabApi.MergeSerially` | reconcile/gitlab_housekeeping.py:1495-1577 | the serial loop makes exactly the writes of `Serial`, counts the merges and gives up as `SerialEnd` says; `SerialTurns`, `SerialLimit`, `GroupStartsIff` and `SerialEndIs` state these without naming them |
| `GitLabHousekeeping.GitLabApi.StartOmmGroup` | reconcile/gitlab_housekeeping.py:1563-1577 | the landed MR becomes lead, and candidates are enlisted, only if it has tenant labels and there are candidates |
| `GitLabHousekeeping.GitLabApi.MergeMergeRequests` | reconcile/gitlab_housekeeping.py:1458-1579 | a whole merge pass from the processed queue on makes exactly the writes of `MergePass` and ends as `EndOf` says |
| `MergeQueueRules.ClearLegal` | reconcile/gitlab_housekeeping.py:814-852 | with a unique lead, clearing leaves no lead or pending label on open, closed or merged MRs when a pre-fetched list covers the open pending MRs |
| `MergeQueueLandings.ClearIffCovering` | reconcile/gitlab_housekeeping.py:814-852 | exact condition on a pre-fetched member list: no group label is left if and only if the list names every open pending MR |
| `MergeQueueLandings.RunGroupEndsWhole` | reconcile/gitlab_housekeeping.py:1388-1420 | the merge-limit call, made with the kept members, leaves no group label, nor does the stand-still call; otherwise the lead stays |
| `MergeQueueLandings.GroupPassClosesIff` | reconcile/gitlab_housekeeping.py:1328-1422 | a completed group pass leaves no group label on open, closed or merged MRs if and only if it had a reason to clear - window, CI, foreign HEAD, no member, merge limit, standing still - and otherwise keeps its lead |
| `MergeQueueLegal.CleanUpLegal` | reconcile/gitlab_housekeeping.py:1458-1490 | clean-up of a switched-off feature or a lost lead obeys the write rule and leaves no lead when the feature is off |
| `MergeQueueLegal.DryPass` | reconcile/gitlab_housekeeping.py:1426-1579 | a dry merge pass writes nothing in any mode |
| `MergeQueueLegal.MergePassLegal` | reconcile/gitlab_housekeeping.py:1425-1579 | every single write of every pass, on a listing made at any earlier time, obeys the rule in the state in which it is made: a lead is put up only without another and at HEAD, only open MRs are rebased or landed, an MR is fit when it lands if and only if it was not spoilt since its listing, and while newcomers take no voucher for HEAD along a merged MR loses the pending label only where HEAD stays vouched for |
| `MergeQueueLegal.ReadyFitIffUnspoilt` | reconcile/gitlab_housekeeping.py:1493-1542 | the exact condition on a serial landing: the MR is fit if and only if it has gained no hold or error label since its listing and, with rebasing on, its commit is the listed one or contains HEAD |
| `MergeQueueRuns.AtMostOneLead` | reconcile/gitlab_housekeeping.py:814-852 | in every state reachable from one without group labels - feature switched on and off, passes stopping at any write and retried on old listings, others acting in between and taking group labels off - at most one MR carries the lead label, and it is merged |
| `MergeQueueRuns.EveryLandingFit` | reconcile/gitlab_housekeeping.py:1121-1223 | each landing, in retried passes too, is of an open MR and moves HEAD forward; the MR has no hold or error label and a commit that contains the HEAD of that moment if and only if it was not spoilt since its listing, and a group pass lands nobody else; its newest pipeline with a signal succeeded, and its newest non-skipped one if and only if that is not an unsuccessful push pipeline |
| `MergeQueueRules.GreenIffNoPushInFront` | reconcile/gitlab_housekeeping.py:1113-1120 | exact condition for a green newest pipeline with a signal to mean a green newest non-skipped one |
| `MergeQueueRuns.PushFailureLands` | reconcile/gitlab_housekeeping.py:1113-1125 | a concrete group member that is landed although its newest non-skipped pipeline, a push one, failed |
| `MergeQueueRuns.RunLandingFit` | reconcile/gitlab_housekeeping.py:1493-1562 | the same for landing k of step n of any rebasing run, retries included |
| `MergeQueueRuns.HeadsChain` | reconcile/gitlab_housekeeping.py:496-507 | over any rebasing run, retries on old listings included, the HEADs of every branch form an ancestor chain |
| `MergeQueueRuns.IntegrityNeverCancels` | reconcile/gitlab_housekeeping.py:1252-1303 | while nobody else merges or unlabels merged members, landings are recorded, and no newcomers of a pass include the last member that vouches for HEAD, the integrity check passes in every reachable state with a lead that has a commit |
| `MergeQueueRetries.FreshListingIsSafe` | reconcile/gitlab_housekeeping.py:1442-1451 | a pass on a fresh listing lands nobody unfit, and with intact groups its newcomers take no voucher for HEAD along |
| `MergeQueueRetries.EnlistIntactIff` | reconcile/gitlab_housekeeping.py:761-800 | the exact condition on newcomers: the integrity check still passes after enlisting them if and only if HEAD is the lead's commit or the recorded commit of a merged member that is not among them |
| `MergeQueueRetries.GroupPassIntactIff` | reconcile/gitlab_housekeeping.py:1306-1422 | the exact condition on a completed group pass with recorded landings: the integrity check still passes if and only if the pass cleared its group, or a member's landing moved HEAD, or HEAD was the lead's commit or vouched for by a merged member not among those about to join |
| `MergeQueueRetries.RetryCancels` | reconcile/gitlab_housekeeping.py:1425-1445 | a concrete attempt that lands a member and raises, and its retry on the same listing, which enlists the landed member, is refused its rebase, takes its label off and so makes the integrity check fail although nobody else merged |
| `MergeQueueRetries.OldLabelsLand` | reconcile/gitlab_housekeeping.py:1493-1545 | a concrete MR put on hold after its listing that a retried pass lands |
| `MergeQueueRetries.EnlistDisjointIff` | reconcile/gitlab_housekeeping.py:855-894 | the exact condition on newcomers picked by listed tenant labels: the group stays disjoint if and only if the labels that the retained ones carry now are apart |
| `MergeQueueRetries.GroupPassDisjointIff` | reconcile/gitlab_housekeeping.py:1306-1422 | the exact condition on a completed group pass, from any labels and on any earlier listing: tenant labels are disjoint afterwards if and only if it does not get as far as newcomers, or the labels that the retained ones carry now are apart |
| `MergeQueueRetries.OldTenantsOverlap` | reconcile/gitlab_housekeeping.py:855-894 | a concrete MR relabelled after its listing that joins the group it overlaps |
| `MergeQueueRuns.IntactIffRecorded` | reconcile/gitlab_housekeeping.py:1252-1303 | exact condition for one member landing: the group stays intact if and only if GitLab records a merge or squash commit, i.e. does not fast-forward unsquashed |
| `MergeQueueRuns.FastForwardCancels` | reconcile/gitlab_housekeeping.py:1286-1303 | a concrete group that the integrity check cancels after its own unsquashed fast-forward landing |
| `MergeQueueGroups.FormIsGreedy` | reconcile/gitlab_housekeeping.py:855-894 | group formation is the greedy selection in queue order: candidates with tenant labels and a live pipeline, pairwise disjoint and disjoint from the merged labels, every skipped candidate overlapping those or an earlier choice |
| `MergeQueueGroups.GreedyUnique` | reconcile/gitlab_housekeeping.py:855-894 | no other selection meets those clauses |
| `MergeQueueGroups.GroupPassDisjoint` | reconcile/gitlab_housekeeping.py:1361-1420 | from any starting labels, a non-dry group pass past the missing-sha return, on a queue with current tenant labels, leaves the lead and all open pending MRs with pairwise disjoint tenant labels |
| `MergeQueueGroups.ClearEndsMembership` | reconcile/gitlab_housekeeping.py:835-852 | clearing ends every open membership, whatever the leads |
| `MergeQueueLandings.GroupPassAllOrNothing` | reconcile/gitlab_housekeeping.py:1306-1422 | a completed group pass leaves no group label at all, or keeps its lead - with a disjoint group if the listed tenant labels are the current ones |
| `MergeQueueLandings.GroupPassLandsOnce` | reconcile/gitlab_housekeeping.py:1388-1402 | if no unsquashed fast-forward lands a commit below another member's, one group pass lands at most one MR per target branch |
| `MergeQueueLandings.LandingLeavesBehind` | reconcile/gitlab_housekeeping.py:1123-1125 | after a landing every other member of the branch lacks the new HEAD |
| `MergeQueueProgress.OpenGroupIsWorthWaiting` | reconcile/gitlab_housekeeping.py:1361-1422 | a completed group pass leaves no group label at all, or at least one open member, each enlisted just now or without hold label, failed pipeline or error label other than that of a refused merge |
| `MergeQueueProgress.MembersStay` | reconcile/gitlab_housekeeping.py:1388-1402 | after the member loop an active member is still a member, and unless the limit stopped it everyone still a member is worth waiting for |
| `MergeQueueProgress.RetainedStays` | reconcile/gitlab_housekeeping.py:775-800 | if any candidate is retained, one of them is an open pending MR afterwards |
| `MergeQueueProgress.TakenIsNeverChosen` | reconcile/gitlab_housekeeping.py:876-879 | an MR whose tenant labels are all taken, like the lead, is never a candidate |
| `MergeQueueProgress.CleanUpClears` | reconcile/gitlab_housekeeping.py:1458-1490 | clean-up before a serial pass leaves no group label when the feature is off with a lead, or on with pending MRs and no lead |
| `MergeQueueProgress.PassBegins` | reconcile/gitlab_housekeeping.py:1453-1490 | when a pass processes a group - rebasing and group merging on, and a merged MR with the lead label - and when it cleans up before it merges serially |
| `MergeQueueMembers.MemberReacts` | reconcile/gitlab_housekeeping.py:1058-1249 | what a pass does with one member, by what GitLab shows: unlabelled if held back, failed or in conflict, merged or flagged if ready, rebased if green but behind, otherwise left alone; active exactly if it is worth waiting for - a pipeline under way, no news on top of HEAD, or just rebased |
| `MergeQueueTurns.KeepIsFirstCome` | reconcile/gitlab_housekeeping.py:1363-1381 | the members kept are those that share no tenant label with the lead or with a kept one listed ahead of them, and the others are ejected |
| `MergeQueueTurns.MemberActs` | reconcile/gitlab_housekeeping.py:1058-1249 | until the limit is reached every kept member has its turn, and it is merged if and only if it is ready then - no hold or error label, a known commit, a successful newest pipeline with a signal, HEAD contained - and GitLab accepts; a refusal flags it, a green one behind HEAD is rebased; after the limit nothing but labels come off |
| `MergeQueueTurns.GroupStaysOpenIff` | reconcile/gitlab_housekeeping.py:1306-1422 | the exact condition on a completed group pass, without naming its parts: the lead keeps its label if and only if the window is open, CI is healthy, and its commit is unknown yet, or nobody else has merged, there is a member, fewer than the limit have landed, and somebody is worth waiting for at its turn or has just joined |
| `MergeQueueTurns.StaysMemberIff` | reconcile/gitlab_housekeeping.py:1058-1249 | in a group that stays open a kept member keeps the pending label if and only if nothing makes it leave at its turn |
| `MergeQueueTurns.EnlistedIff` | reconcile/gitlab_housekeeping.py:1404-1420 | a pass enlists exactly the first-come selection from its queue, apart from lead, members and one another, unless the limit stops it; those that GitLab rebases are rebased, the others flagged |
| `MergeQueueTurns.GroupMergesAre` | reconcile/gitlab_housekeeping.py:1388-1402 | a group pass reports as many merges as it has made |
| `MergeQueueTurns.DryGroupMergesAre` | reconcile/gitlab_housekeeping.py:1388-1402 | a dry one reports all kept members that are ready now, up to the limit, although a real one moves HEAD under the others with every landing |
| `MergeQueueSerial.SerialTurns` | reconcile/gitlab_housekeeping.py:1493-1561 | item k of a serial pass is merged if and only if it has no error flag, with rebasing on is up to date, its newest non-skipped pipeline succeeded, with `wait` none is running, no item before it holds the pass up, fewer than the limit have been merged before it - with rebasing on nobody - and GitLab accepts; it is flagged if and only if all this holds and GitLab refuses |
| `MergeQueueSerial.SerialLimit` | reconcile/gitlab_housekeeping.py:1537-1578 | a serial pass merges at most the limit, with rebasing on at most one, and only items of its queue |
| `MergeQueueSerial.GroupStartsIff` | reconcile/gitlab_housekeeping.py:1562-1578 | a group starts behind the merged MR if and only if rebasing and group merging are on, it was listed with a tenant label and somebody may join; the first-come selection is enlisted, and the lead is labelled first |
| `MergeQueueSerial.NoMergeNoGroup` | reconcile/gitlab_housekeeping.py:1562-1578 | a serial pass that merges nobody starts no group and rebases nobody |
| `MergeQueueSerial.SerialEndIs` | reconcile/gitlab_housekeeping.py:1518-1531 | a serial pass counts the merges it has made, and gives up if and only if an item holds it up - with rebasing on, before anybody has been merged |
| `MergeQueueSerial.DryEndIs` | reconcile/gitlab_housekeeping.py:1541-1561 | a dry serial pass reports what a real one would if GitLab accepted every merge |
| `ErrorHealthcheck.RunErrorHealthcheck` | reconcile/gitlab_housekeeping.py:1582-1732 | the loop makes exactly the label writes of `CheckAll` |
| `ErrorHealthcheck.CheckPipelineHealth` | reconcile/gitlab_housekeeping.py:323-337 | unhealthy exactly when there are enough finished pipelines and the newest ones all failed |
| `ErrorHealthcheck.SettledIffQuiet` | reconcile/gitlab_housekeeping.py:1609-1732 | the check writes nothing for an MR exactly when its error labels say what GitLab, pipelines and notes say |
| `ErrorHealthcheck.OnePass` | reconcile/gitlab_housekeeping.py:1644-1655 | one pass settles an MR unless it flags a rebase error just now, which then is all it changes |
| `ErrorHealthcheck.LabelsAre` | reconcile/gitlab_housekeeping.py:1605-1732 | the labels one pass leaves, label by label: rebase error as GitLab reports unless the refresh failed, pipeline error if the newest finished pipelines all failed, merge error gone if somebody commented; nothing else changes, nor anything on an MR that is a draft, on hold or not approved |
| `ErrorHealthcheck.CheckAllResult` | reconcile/gitlab_housekeeping.py:1582-1732 | on a list of distinct MRs a pass relabels each on its own and changes nothing else |
| `ErrorHealthcheck.OnePassSettlesIff` | reconcile/gitlab_housekeeping.py:1644-1655 | exact condition under which one pass is not enough |
| `ErrorHealthcheck.OnePassIsNotEnough` | reconcile/gitlab_housekeeping.py:1644-1655 | a concrete MR that one pass does not settle |
| `ErrorHealthcheck.PassesToFixpoint` | reconcile/gitlab_housekeeping.py:1582-1732 | on any list of distinct MRs a second pass is idle if and only if no MR was freshly flagged with stale labels, and a third pass always is |
| `ErrorHealthcheck.CheckIsUpkeep` | reconcile/gitlab_housekeeping.py:1815-1828 | the health check never touches group labels: it is a legal step of every merge-queue run |
| `ActiveCapRebase.RebaseMergeRequestsActiveCap` | reconcile/gitlab_housekeeping.py:924-995 | the pass makes exactly the rebases of `RebasePass` |
| `ActiveCapRebase.CapHonouredAndUsed` | reconcile/gitlab_housekeeping.py:924-995 | MRs that hold a slot - on top of HEAD with a live pipeline - plus rebases never exceed the limit unless it was exceeded before; only MRs behind HEAD that are neither flagged nor pending nor waiting for a pipeline are rebased, and with a free slot none of them is left out except by GitLab's refusal |
| `ActiveCapRebase.NobodyPassedOver` | reconcile/gitlab_housekeeping.py:983-995 | whoever is rebased, every MR behind HEAD earlier in the queue was rebased too or refused |
| `ActiveCapRebase.RebaseIsUpkeep` | reconcile/gitlab_housekeeping.py:959-981 | the rebase pass rebases only open MRs: it is a legal step of every merge-queue run |
| `OpenshiftBase.RealizeResourceData` | reconcile/openshift_base.py:1048-1133 | one task leaves the cluster as `Realized` says, registers an error exactly when `RealizeFails`, and plans one action per name that gets one; a cluster with errors gets none |
| `OpenshiftBase.HandleIdenticalResources` | reconcile/openshift_base.py:778-819 | in any order, identical objects are taken over or complained about |
| `OpenshiftBase.HandleNewResources` | reconcile/openshift_base.py:718-751 | in any order, new objects are applied |
| `OpenshiftBase.HandleModifiedResources` | reconcile/openshift_base.py:870-912 | in any order, modified objects are applied or complained about |
| `OpenshiftBase.HandleDeletedResources` | reconcile/openshift_base.py:915-956 | in any order, undesired objects are deleted where permitted |
| `OpenshiftBase.ShouldApply` | reconcile/openshift_base.py:657-692 | applies unless another live caller manages the object; then registers an error |
| `OpenshiftBase.ShouldTakeOver` | reconcile/openshift_base.py:754-775 | takes an identical object over from a caller that is gone; otherwise registers an error |
| `OpenshiftBase.ShouldDelete` | reconcile/openshift_base.py:695-715 | deletes an annotated object of this caller, or a taken-over one without owner |
| `OpenshiftBase.PatchDesired` | reconcile/openshift_base.py:1071-1075 | patches every shared desired object in place with the live restart annotations it does not set |
| `OpenshiftBase.DiffMappings` | reconcile/utils/three_way_diff_strategy.py:123-161 | partitions the names into add, delete, change and identical, and raises when a hash stands without an integration |
| `OpenshiftConvergence.QuietIffRestartsKept` | reconcile/openshift_base.py:822-867 | exact condition for a second realization to do nothing after restart annotations changed: the annotations carried over are what they were |
| `OpenshiftConvergence.SecondTaskIsIdle` | reconcile/openshift_base.py:1048-1133 | with nothing changed in between the second realization applies and deletes nothing and meets no error |
| `OpenshiftConvergence.RestartSurvives` | reconcile/openshift_base.py:822-867 | where a restart changed one, the object is applied again with the new annotation in it |
| `OpenshiftConvergence.RestartBreaksQuiet` | reconcile/openshift_base.py:822-867 | a concrete Deployment that is applied again after a restart |
| `OpenshiftConvergence.PatchAgain` | reconcile/openshift_base.py:822-867 | patching an object just applied changes nothing |
| `OpenshiftCallers.NonInterference` | reconcile/openshift_base.py:657-775 | among any interleaving of whole runs by callers (take-over off, comparison on), an object of a live caller ends up as if only that caller's runs had happened |
| `OpenshiftCallers.OnlyItsCaller` | reconcile/openshift_base.py:657-775 | whoever changes an object of a live caller at any point is that caller |
| `OpenshiftCallers.ForeignTurnLeaves` | reconcile/openshift_base.py:671-684 | another caller's run leaves such an object exactly as it is |
| `OpenshiftCallers.ChangesHandsIff` | reconcile/openshift_base.py:754-775 | exact condition for an object under another name to change hands; otherwise it stays and an error is registered |
| `OpenshiftTasks.InterleavingIsAtomic` | reconcile/openshift_base.py:1048-1133 | in any interleaving of tasks, a finished task has left its objects as it would have alone with the flags it read at its start |
| `OpenshiftTasks.NoDeletionAfterError` | reconcile/openshift_base.py:1065-1069 | a task that starts after any registered error deletes nothing |
| `OpenshiftTasks.FailedClusterUntouched` | reconcile/openshift_base.py:1059-1062 | a cluster with registered errors gets no action and no change |
| `OpenshiftTasks.OneActionPerName` | reconcile/openshift_base.py:1077-1131 | each name gets at most one action per task, deletions last |
| `OpenshiftTasks.ActionsPermitted` | reconcile/openshift_base.py:695-715 | a deleted object was absent from desired and annotated for this caller, or taken over without owner; an applied one is not another live caller's; deletions never use the admin token |
| `OpenshiftTasks.EverythingPlanned` | reconcile/openshift_base.py:1077-1131 | every name a verdict calls for an action on gets one |
| `OpenshiftOutcome.VerdictIs` | reconcile/openshift_base.py:657-775 | which objects are applied, complained about or deleted, told by fields, annotations and options: patched body, hash, integration, CPU and environment values, callers, take-over, comparison switched off, owner |
| `OpenshiftOutcome.TaskDoes` | reconcile/openshift_base.py:1048-1133 | what a task leaves of every name: exactly those to be applied, within reach and accepted, have the wanted object with its annotations, exactly those to be deleted are gone, every other object is as it was |
| `OpenshiftOutcome.TaskFailsIff` | reconcile/openshift_base.py:1048-1133 | a task registers an error exactly if the comparison raises, or some name is complained about or refused, or awaits a missing namespace |
| `OpenshiftOutcome.PlansExactly` | reconcile/openshift_base.py:1077-1131 | a task that is through has planned exactly the applies and deletions called for |
| `OpenshiftOutcome.StagesInOrder` | reconcile/openshift_base.py:1085-1131 | within a task identical objects come first, then new, then changed, then undesired ones, each name once at most |
| `LabelInventory.Types.UpdateManagedKeys` | reconcile/openshift_namespace_labels.py:141-159 | in a copy of the managed list, removes a managed key once and raises the second time, and appends any other key each time |
| `LabelInventory.Types.Reconcile` | reconcile/openshift_namespace_labels.py:175-216 | the three loops compute exactly the changes, the remembered keys and whether there is a conflict |
| `LabelInventory.Inventory.Reconcile` | reconcile/openshift_namespace_labels.py:161-216 | every namespace without errors is worked out; those with errors are left alone |
| `LabelInventory.Inventory.GetDesired` | reconcile/openshift_namespace_labels.py:242-285 | a namespace stays exactly when one single definition of it was accepted |
| `LabelInventory.Inventory.GetManaged` | reconcile/openshift_namespace_labels.py:292-308 | reads the stored keys of the namespaces in the inventory |
| `LabelInventory.Inventory.GetCurrent` | reconcile/openshift_namespace_labels.py:340-364 | reads the labels of the namespaces of clusters that could be listed |
| `LabelInventory.Inventory.WriteStore` | reconcile/openshift_namespace_labels.py:398-406 | an empty key list is not written, nor anything for a namespace with errors |
| `LabelInventory.Inventory.Label` | reconcile/openshift_namespace_labels.py:367-385 | applies the changes of one namespace without errors |
| `LabelInventory.Inventory.Realize` | reconcile/openshift_namespace_labels.py:388-416 | store writes first, then label calls, namespace by namespace |
| `LabelInventory.RunIntegration` | reconcile/openshift_namespace_labels.py:424-476 | a whole run makes exactly the step `NamespaceLabels.Next` of every namespace with one single definition - with labels, without errors, on a cluster within reach - and leaves all others alone |
| `LabelInventory.TouchedIff` | reconcile/openshift_namespace_labels.py:242-285 | a namespace is worked on exactly if a single definition names it with labels, on a cluster within reach and without errors |
| `NamespaceLabels.RunDoes` | reconcile/openshift_namespace_labels.py:161-216 | what one run does to labels and managed keys, key by key: nothing if dry, stopped before its first write or meeting a foreign label; otherwise it sets the desired labels, takes off managed ones it sees and that are no longer desired, and remembers the desired keys and the managed ones it has seen |
| `NamespaceLabels.ThreeRuns` | reconcile/openshift_namespace_labels.py:161-216 | one run sets every desired label, from the second run on nothing is changed, from the third on the store stands still |
| `NamespaceLabels.StopMakesNoConflict` | reconcile/openshift_namespace_labels.py:397-416 | a stop between store write and label call never makes a conflict the next run would not have met anyway, whatever it desires |
| `NamespaceLabels.RestartsRecover` | reconcile/openshift_namespace_labels.py:397-416 | after any number of runs stopped anywhere one complete run still sets every desired label |
| `NamespaceLabels.OnlyDesiredKeys` | reconcile/openshift_namespace_labels.py:161-216 | over any history no run changes or removes a key that was never desired, and every managed key was desired once |
| `NamespaceLabels.LabelsAreExact` | reconcile/openshift_namespace_labels.py:161-216 | over any history of changing desired labels, stops and dry runs: a conflict is met exactly when a label found at first is desired, and a complete run leaves exactly the labels found at first plus the desired ones |
| `NamespaceLabels.BlindRunIff` | reconcile/openshift_namespace_labels.py:311-364 | exact condition under which a run that could not list the namespaces keeps managed and foreign labels apart |
| `NamespaceLabels.BlindRunOverwrites` | reconcile/openshift_namespace_labels.py:311-364 | a concrete conflict that such a run overlooks and overwrites |
| `DatabaseScript.AccessIsValid` | reconcile/database_access_manager.py:571-579 | true exactly when no schema is listed twice |
| `DatabaseScript.GenerateRevokeChanged` | reconcile/database_access_manager.py:140-161 | produces exactly REVOKE ALL for schemas no longer listed and REVOKE for grants no longer wanted |
| `DatabaseScript.GenerateScript` | reconcile/database_access_manager.py:163-178 | provisioning script (stop on errors, connect, create the user, revoke, grant) or deprovisioning script (revoke, then stop on errors, connect, drop the role) for a definition |
| `DatabaseScript.ProvisionEffect` | reconcile/database_access_manager.py:163-170 | a provisioning script succeeds exactly when its schemas exist, the user's own one aside, and no grant list is empty; then it sets the password, and the user holds what was held minus the obsolete plus the wanted privileges |
| `DatabaseScript.ProvisionExactIff` | reconcile/database_access_manager.py:126-161 | exact condition for a successful script to leave precisely the wanted privileges |
| `DatabaseScript.ProvisionExact` | reconcile/database_access_manager.py:126-170 | a database holding at most recorded and wanted privileges ends with exactly the wanted ones |
| `DatabaseScript.DeprovisionIff` | reconcile/database_access_manager.py:119-131 | exact condition for a removal to succeed: the role is there without CONNECT and without privileges in its own database, and its privileges in the admin's database - where the revocations run, failures passed over - lie in existing, listed schemas; nothing is revoked in its own database |
| `DatabaseScript.RemovalIgnoresTheList` | reconcile/database_access_manager.py:126-131 | without CONNECT and privileges in the admin's database the role goes if and only if it holds nothing in its own database, whatever is listed |
| `DatabaseScript.RemovalFails` | reconcile/database_access_manager.py:172-173 | a concrete user with one privilege in a listed schema who is not removed |
| `DatabaseScript.RemovalPassesOverErrors` | reconcile/database_access_manager.py:172-173 | a concrete user who is removed although a listed schema does not exist |
| `DatabaseScript.ProvisionedUserStays` | reconcile/database_access_manager.py:111-124 | a provisioned user is never removed, whatever the removal lists, for CONNECT stays granted |
| `DatabaseAccessManager.Platform.ProcessDbAccess` | reconcile/database_access_manager.py:586-704 | one pass refuses, applies or cleans up (stopping anywhere, raising where a resource to delete is missing) or waits exactly as `Pass` says; `RefusalIs`, `StartsInOrder`, `CleansUpInOrder` and `WaitsForTheJob` state it without naming its parts |
| `DatabaseAccessManager.Platform.ApplyResources` | reconcile/database_access_manager.py:653-666 | the apply loop in the order service account, script, user secret, pull secret, job |
| `DatabaseAccessManager.Platform.DeleteResources` | reconcile/database_access_manager.py:688-697 | the clean-up loop deletes in the same order until it is stopped or a resource is not found |
| `DatabaseAccessManager.Platform.CleanUp` | reconcile/database_access_manager.py:673-702 | Vault first, then the deletions, then the record |
| `DatabaseAccess.RefusalIs` | reconcile/database_access_manager.py:598-680 | a pass raises and touches nothing exactly when a schema is listed twice, or another definition than the recorded one changes database or user, would use the admin's database or finds a failed job; the failure names the first of these |
| `DatabaseAccess.RecordedIsLeft` | reconcile/database_access_manager.py:604-606 | a definition that is recorded already is not acted upon |
| `DatabaseAccess.RecordKeepsItsUser` | reconcile/database_access_manager.py:607-612 | over any run whatever what is recorded stays recorded for the same database and the same user |
| `DatabaseAccess.StartsInOrder` | reconcile/database_access_manager.py:615-666 | the first pass for a definition makes one resource with each call, in order, the job last; the script is made for definition, record and new password, and the user secret has that password |
| `DatabaseAccess.CleansUpInOrder` | reconcile/database_access_manager.py:678-702 | the pass that finds a finished job with all its resources hands the connection to Vault unless the user is removed, then deletes one resource with each call in the order of their creation, then records the definition |
| `DatabaseAccess.WaitsForTheJob` | reconcile/database_access_manager.py:667-704 | a pass leaves everything as it is while the job shows no condition |
| `DatabaseAccess.JobHasOnePassword` | reconcile/database_access_manager.py:500-533 | over any passes with stops anywhere in apply loop and clean-up, job and user secret have the same password, the job's script is one generated for it, and until a clean-up has taken the service account away a job finds both its secrets |
| `DatabaseAccess.VaultGetsThePassword` | reconcile/database_access_manager.py:673-687 | exact condition for Vault to get the password of the script that ran - and, where that created the user, of the database: the user secret is still there, or chance makes the same password again |
| `DatabaseAccess.CleanUpEndsIff` | reconcile/database_access_manager.py:688-702 | exact condition for a clean-up to record the definition and to remove the job: nothing stops it, and no resource is missing or it is a dry run |
| `DatabaseAccess.StoppedCleanUpIsStuck` | reconcile/database_access_manager.py:688-697 | after a clean-up has stopped behind its first deletion no pass ever deletes or records anything any more |
| `DatabaseAccess.StoppedCleanUpLosesThePassword` | reconcile/database_access_manager.py:673-697 | a clean-up stopped behind the user secret: the next pass hands Vault a password that the database does not have, and nothing is recorded or cleaned up later |
| `DatabaseAccess.DryRunLosesThePassword` | reconcile/database_access_manager.py:681-702 | a dry run that meets a completed job records the definition, so the password never reaches Vault and nothing is cleaned up |
| `DatabaseAccess.DryRunIsDryIff` | reconcile/database_access_manager.py:681-702 | exact condition for a dry run to change nothing |
| `DatabaseRecord.NothingUnasked` | reconcile/database_access_manager.py:586-704 | over any run whatever - changed definitions, removals, failed and removed jobs, stops, dry runs - the user never holds a privilege it did not hold at first and no definition asked for |
| `DatabaseRecord.FaithfulStepIff` | reconcile/database_access_manager.py:586-704 | the exact condition on one step of anybody - pass, job run, removal of a job - for the database to go on following the record |
| `DatabaseRecord.DatabaseFollowsRecord` | reconcile/database_access_manager.py:586-704 | over any run whatever the database follows the record at every step if and only if every step is steady; then, with no script and no job about, it holds exactly what is due by the record |
| `DatabaseRecord.CarefulRunsFollowRecord` | reconcile/database_access_manager.py:586-704 | over any run whose definitions do not change while there is a job, and replace that of a removed job only where nothing else is held than is recorded or wanted - stops, retries, failed and removed jobs included - the database follows the record, and around a job it holds at most what is recorded or wanted |
| `DatabaseRecord.FromDefinitionToRecord` | reconcile/database_access_manager.py:586-704 | pass, job, pass bring a runnable definition to database, Vault and record and clean up |
| `DatabaseRecord.RecordsWhatIsHeldIff` | reconcile/database_access_manager.py:653-702 | exact condition on a definition whose job succeeds - also one put in place of a failed one: what is held is recorded if and only if everything held before is wanted or revoked by reason of the record |
| `DatabaseRecord.ReplacementKeepsOld` | reconcile/database_access_manager.py:653-702 | a concrete run in which a definition that cannot run is replaced after its failed job was removed: the second one is recorded, and a privilege of the first is still held |
| `DatabaseRecord.UnrecordedIsNeverRevoked` | reconcile/database_access_manager.py:140-161 | what is held in a schema that the record does not list stays over any run of definitions that do not list it either |
| `DatabaseRecord.RecordsTruthIff` | reconcile/database_access_manager.py:698-702 | exact condition for a pass behind a succeeded job to record what the database holds |
| `DatabaseRecord.HaltedJobIsRecorded` | reconcile/database_access_manager.py:405-412 | a job that shows another condition than failed before it has done anything counts as completed: Vault, record and clean-up, while the database is untouched |
| `DatabaseRecord.RemovalRecordedIff` | reconcile/database_access_manager.py:586-704 | over any passes, stops, job runs and removed jobs the removal of a provisioned user is recorded if and only if a pass takes a halted job for a completed one |
| `DatabaseRecord.ChangeInFlightIsLost` | reconcile/database_access_manager.py:698-702 | a definition changed while its job is under way is recorded without having been executed, for good |
| `ClusterBots.ProcessDeleteEntry` | reconcile/openshift_cluster_bots.py:413-446 | skips an unmanaged secret, otherwise deletes the secret and then its Vault path |
| `ClusterBots.ProcessCreateEntry` | reconcile/openshift_cluster_bots.py:449-546 | creates, syncs or skips an entry with exactly the calls of `ProcessCreate`; `EveryEntryDone` states what they come to |
| `ClusterBots.ProcessClusterEntries` | reconcile/openshift_cluster_bots.py:575-606 | processes the entries in order until one raises |
| `ClusterBots.MergeEntryUpdates` | reconcile/openshift_cluster_bots.py:613-636 | no list when there is nothing to merge, otherwise the declared entries without deleted ones and with new references |
| `BotTokens.AnyStopIsSafe` | reconcile/openshift_cluster_bots.py:413-546 | at whatever call a run stops, annotated secrets have their token at their path, and unmanaged or unnamed secrets are untouched |
| `BotTokens.SafeOverHistory` | reconcile/openshift_cluster_bots.py:413-606 | over any history of stopped runs, changing entries and secrets removed or created by others, annotated secrets are backed, and a secret others leave alone and no managing entry names is exactly as it was |
| `BotTokens.EveryEntryDone` | reconcile/openshift_cluster_bots.py:413-606 | a run that is not dry and raises nothing does for every entry what it asks for: a new secret carries the dedicated service account, for admin entries the cluster-admin one, as label and annotation, and its token is in Vault; a secret marked for that account is synced or deleted; any other is exactly as it was |
| `BotTokens.RaisesIff` | reconcile/openshift_cluster_bots.py:406-411 | a run raises if and only if it is not dry and an own secret that is to be synced lacks its token |
| `BotTokens.DryRunIsDry` | reconcile/openshift_cluster_bots.py:413-546 | a dry run makes no call |
| `BotTokens.MergedIs` | reconcile/openshift_cluster_bots.py:613-636 | the merged list is the declared one, in order, without the deleted entries and with every other entry referring to its Vault path, except those whose key collides, which stay as they are |
| `ClusterBots.UpdateIff` | reconcile/openshift_cluster_bots.py:613-626 | after a whole run there is something to merge if and only if some entry was to be deleted or not handed over yet, and its key did not collide |
| `BotTokens.MergedListIsDone` | reconcile/openshift_cluster_bots.py:709-715 | after a whole run whose merged list is adopted, some entry still needs processing if and only if one that needed it collides with an unmanaged secret |
| `BotTokens.DeletionSafeIff` | reconcile/openshift_cluster_bots.py:437-440 | exact condition for a deletion by declared reference to keep every annotated secret backed |
| `BotTokens.ForeignRefBreaks` | reconcile/openshift_cluster_bots.py:437-440 | a concrete deletion whose reference is another secret's path leaves that secret without its token in Vault |
| `MachinePools.CalculateDiff` | reconcile/ocm_machine_pools.py:441-510 | the three loops plan every action called for and no other, one per pool, creations first, deletions last, and collect exactly the errors; a malformed declaration raises; `SettledIff`, `LeftOutIff`, `ErrorsAre`, `FinalIdsIff` and `RaisesIff` say on single fields what that comes to |
| `MachinePools.Ocm.CarryOut` | reconcile/ocm_machine_pools.py:513-519 | carries out a prefix of the plan, passing over clusters without client |
| `MachinePools.NeverWithoutPool` | reconcile/ocm_machine_pools.py:441-519 | at every prefix of the plan a cluster that had a pool still has one |
| `MachinePools.DefaultAndImmutable` | reconcile/ocm_machine_pools.py:190-200 | at every prefix the OSD default worker pool is there and no pool has another instance type or subnet |
| `MachinePools.FinalIdsIff` | reconcile/ocm_machine_pools.py:486-508 | the final pools are exactly the declared ones if and only if no deletion was refused |
| `MachinePools.SettledIff` | reconcile/ocm_machine_pools.py:162-188 | after an error-free plan replicas, autoscaling, instance type and, for node pools, subnet are as declared; taints and labels are so if and only if the declaration did not ask for them to be cleared, and stay as they were otherwise |
| `MachinePools.LeftOutIff` | reconcile/ocm_machine_pools.py:459-484 | a pool that is there and declared is left out of the plan if and only if all these fields, taints and labels agree, or an immutable one differs; otherwise it is updated |
| `MachinePools.ErrorsAre` | reconcile/ocm_machine_pools.py:459-508 | which errors a plan comes with, on single fields: changed instance type, changed node-pool subnet, a cluster losing all pools, the default worker pool of an OSD cluster |
| `MachinePools.RaisesIff` | reconcile/ocm_machine_pools.py:441-484 | planning raises exactly if autoscaling bounds are the wrong way round, or replicas stand beside autoscaling, in a declaration of a new pool or of one that must change |
| `MachinePools.UnreachedStays` | reconcile/ocm_machine_pools.py:513-519 | clusters without an OCM client keep their pools as they are |
| `Groups.SubtractStates` | reconcile/openshift_groups.py:161-198 | the nested loops compute `Subtract` |
| `Groups.CalculateDiff` | reconcile/openshift_groups.py:144-158 | additions, then removals |
| `Groups.Clusters.Apply` | reconcile/openshift_groups.py:240-307 | raises without acting on a group that is not managed, otherwise carries out the sorted plan until an action fails, passing over clusters without a client |
| `Groups.PlanIs` | reconcile/openshift_groups.py:144-198 | what the plan consists of, action by action |
| `Groups.EndsAsDesired` | reconcile/openshift_groups.py:240-264 | the sorted plan never fails and ends with exactly the desired memberships; groups out of scope keep their members |
| `Groups.ReachablePlan` | reconcile/openshift_groups.py:240-247 | passing over clusters without a client comes to planning for the other clusters alone |
| `Groups.EndsAsDesiredWhereReachable` | reconcile/openshift_groups.py:43-52 | clusters without a client keep their members whatever is desired there, all other groups in scope end with exactly the desired memberships |
| `Groups.CreationsFirst` | reconcile/openshift_groups.py:234-237 | every group creation precedes every addition |
| `Groups.RemovalsFirst` | reconcile/openshift_groups.py:234-237 | group creations and removals of users come before additions of users and group deletions |
| `Groups.DeletionsHitIff` | reconcile/openshift_groups.py:161-198 | every deletion removes a user who is a member when it runs if and only if no undesired entry is listed twice |
| `Groups.SecondDeletionMisses` | reconcile/openshift_groups.py:161-198 | a concrete user listed twice whose second deletion finds the user gone |

## Left out

- Clients of GitLab, OpenShift, OCM, Vault and SQL, GraphQL queries, command line, logging and metrics: only the state their calls read and change is modelled.
- Queue processing (`preprocess_merge_requests`): the merge pass takes any queue of distinct MRs that were good to merge when listed, in any order and listed at any earlier time.
- Stale items, pipeline cancellation, the old-burst rebase strategy and on-demand tests.
- Reloading the listing after insisting on a pipeline: a retry is a further pass, on the old listing or on a new one.
- The labels of a queue item are fixed during a pass; the refresh that a refused merge makes of that MR's own labels is not modelled.
- MergeQueueGroups.GroupPassDisjoint: assumes that no listed MR has changed its tenant labels since; `GroupPassDisjointIff` says exactly what such a change does, and the next pass ejects the overlap.
- MergeQueueRuns.AtMostOneLead: others may take group labels off and put the pending label on, but not the lead label; nor do they retarget MRs or reopen merged ones.
- Other actors between two writes of one merge pass: they act between passes; the rule of every write is stated for the state in which it is made.
- Label spelling: labels are values of a datatype, one value per tenant label.
- The consecutive failure limit is a natural number; negative limits, which Python would slice from the end, are not modelled.
- MergeQueueLandings.GroupPassLandsOnce: assumes that no unsquashed fast-forward lands a commit below another member's, because such a landing does leave the next member rebased.
- Applying an object sets it or is refused; immutable-field replacement, ReplicaSet adoption, PVC resize and pod recycling are not modelled, nor is the three-way merge of fields set by others.
- The body comparison is field by field; JSON patches that move or copy values, and normalization of Secrets, are not modelled.  A hash is represented by the body it was computed from.
- OpenshiftConvergence.QuietIffRestartsKept: assumes that desired objects carry the name of the caller that realizes them, as the populating integrations set it.
- OpenshiftTasks.InterleavingIsAtomic: the API's answers are fixed per task, and others do not change its objects while it runs.
- Values of labels are compared as they are; label validation is an error count per definition.
- The fields host and port of a database connection, service account and pull secret contents, and the engine lookup.
- Others who remove or restore a database access's service account or secrets: they only remove its job.
- Privileges are kept per schema, not per table; reassigning ownership has no effect, and databases other than the user's and the admin's are not modelled.
- A user's database that does not exist: a provisioning script creates it, a removal cannot connect to it.
- DatabaseRecord.DatabaseFollowsRecord: says nothing of the database while a script secret stands without a job, when a job may have left anything between the record and its definition; `NothingUnasked` and `CarefulRunsFollowRecord` bound it.
- BotTokens.AnyStopIsSafe: assumes that declared Vault references are the merged ones; `DeletionSafeIff` says what another reference does.
- Service accounts, namespaces and role bindings of cluster bots, the legacy singular tokens, reachability and the selection of clusters.
- Names with slashes: the Vault path of an entry is modelled as its cluster-wide key.
- Duplicate pool identifiers in one declaration (the last one wins in the code): declared pools are a map.
- OCM answers with empty taints or labels instead of none.
- Group and role queries; groups of clusters managed by OCM are assumed to be filtered from both states.
- The library's stable sort: `Groups.Sorted` is its specification for two keys.
- `reconcile/acs_rbac.py` and the thin diff-and-call integrations, which would only repeat easier forms.
