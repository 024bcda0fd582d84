# A verified model of the Falcon repository's replication and failure-detection core

This project models three parts of the repository and proves properties of them.

1. **The viewstamped-replication cohort** (`code/apps/pmp_vanilla/cohort.C`, with its quorum set
   `set.h`, its stamp order `util.h` and the state-machine queue `execute.h`). A cohort is a record
   of the fields of the class `cohort`; every handler is a function on that record
   (`CohortSpec.dfy`), and a class (`Cohort.dfy`) runs the same handlers in place, loops included,
   and is proved against those functions. Groups are maps from machine identifiers to cohorts; the
   network is everything ever sent, so messages may be lost, repeated, delayed and reordered.
2. **The Falcon enforcer** (`code/falcon/enforcer/enforcer.cc`): generations, client bookkeeping and
   the generation log, with crashes at any step.
3. **Steady primary/backup replication in Diomedes** (`code/apps/diomedes/diomedes.cc`).

`dafny verify dfyconfig.toml` checks everything.

## Files

| file | contents |
|---|---|
| `Stamps.dfy`, `Quorum.dfy` | order on viewids and viewstamps; the sorted set and quorum intersection |
| `CohortSpec.dfy` | the cohort as a value, one function per handler and loop |
| `Cohort.dfy` | the cohort as an object, proved against `CohortSpec` |
| `CohortInvariants.dfy`, `LogWalk.dfy` | what every handler and every run of a cohort keeps; jump index, scan, splitting execution |
| `LogPull.dfy` | what a completed log pull means |
| `Traffic.dfy`, `AckSets.dfy`, `CohortRuns.dfy` | where messages and recorded acknowledgements come from; runs of a whole group |
| `Outcomes.dfy` | what each handler must send and record, case by case |
| `ViewChoice.dfy`, `ViewChanges.dfy`, `AckRuns.dfy` | the view a manager chooses; competing attempts; what committing requires, and how committed requests survive |
| `NewViewRuns.dfy`, `NewViewAnswers.dfy` | when NEW_VIEW and INIT_VIEW are sent, and what accepting NEW_VIEW means for the log |
| `PrimaryLoop.dfy`, `PrimarySteps.dfy`, `BackupSteps.dfy` | the primary's acknowledgement sets and commit loop; every handler at a primary and elsewhere |
| `LinearHistory.dfy`, `HistorySteps.dfy`, `HistoryWalk.dfy` | cohorts that execute along one linear history, and exactly when one leaves it |
| `OneView.dfy`, `EraSteps.dfy`, `NextView.dfy`, `EraRuns.dfy` | groups on a linear history: the invariant, steps within a view, the step to the next view, runs through any number of views |
| `RequestStates.dfy`, `ExecServer.dfy`, `Completions.dfy`, `ReplyCache.dfy` | the queue to the state machine, completions, replies and retransmissions |
| `Counterexamples.dfy`, `LaggingAccepter.dfy` | states and runs showing that hypotheses are needed |
| `Diomedes.dfy` | primary/backup replication |
| `Enforcer.dfy`, `EnforcerRuns.dfy`, `Registrations.dfy`, `DownCalls.dfy`, `EnforcerObject.dfy`, `GenerationLog.dfy` | the enforcer as a value, its runs, what keeps and ends a registration, what clients are told, the enforcer as an object, and its log as a file of characters |

## Hypotheses

The code does not enforce these; each theorem that needs one states it.

- A formation entry is stored under `(view.vid, 0)` and its `prev` lies before it. In the model this
  is part of the types `Formation` and `Log`.
- No handler logs a second, different entry under a stamp that is in the log
  (`CohortInvariants.NoDuplicateStamp`): the model's log is a map, the code's tree allows duplicates.
- `CohortRuns.Start`: a run begins with cohorts in order, no attempt under way, and nobody having
  answered a call yet except for log entries; a founded group with joiners is such a state.
- `CohortRuns.Arrives`: a callback belongs to a call that was made and runs once, with the answer or
  without one.
- `ViewChanges.CompetingAttempts`: a cohort that accepts NEW_VIEW a and VIEW_CHANGE b accepted
  VIEW_CHANGE a before, and executes no formation entry in between. NEW_VIEW itself does not raise
  `proposed_vid_`.
- `AckRuns.FreshChangeKeepsCommitted`: the members of the view are active in it whenever they
  acknowledge one of its stamps to its primary; the cohorts that accept the attempt know of no later
  view; and those that have acknowledged the request accept while in the view. REPLICATE does not
  compare the stamp's view, and a delayed completion of a pull does not look at the mode again.
  `LaggingAccepter.CommittedLeftBehind` is a run of a group in which a member accepts first and joins
  the view afterwards, and the conclusion fails.
- `EraRuns`: every log lies on one linear history, and each new view continues right after it under a
  primary that reported all of it. Nobody but the current primary takes a request, which is so if
  clients address the current view (`EraSteps.AddressedSteps`). Traffic, pulls and former primaries of
  earlier views may be left over; any number of view changes may be attempted in between.
  `HistoryWalk.ReplicateStaysOn` says exactly when a cohort that holds entries off the history leaves
  it, and `HistoryWalk.ReplicateGuard` which leftover does it.
- `HistoryWalk`: what a log holds at a stamp of the history is what the history has there.
- `LogPull.SuccessHoldsChain`: the chain to `executed` is held if the next stamp to execute is not in
  a view above the lowest one reached; otherwise exactly if the rest of the chain is held.
  `Counterexamples.SuccessCanMissFork` shows one cohort handling two formations after which it is not;
  no run of a group is shown to send them.
- `ReplyCache.OneStampPerView`: the client has one outstanding request, and the primary's `latest` is
  not below its view. `ReplyCache.CompletionForgets` shows what a second outstanding request does.
- `ViewChoice.MergedViewSpec`: the reported view lists no cohort twice. Fresh views never do
  (`ViewChanges.FreshMembersAccepted`), and rebuilding one keeps it so.
- `EnforcerRuns`: `UpdateGenerations` does nothing, and there are fewer than 2^32 failures where that
  is said. `Diomedes`: fewer than 2^32 requests, one primary, a deterministic state machine.

## Findings

- `Counterexamples.FormerPrimaryOverruns`: the formation of a view that does not follow its own raises
  `committed_` at a former primary without making it leave its view. `advance_executed` then hands
  every request it has logged to the state machine, acknowledged by a majority or not, and the next
  acknowledgement fails the assertion in `replicate_cb`. `Counterexamples.OrphanIsExecuted` is a case
  with three members. `EraRuns.FailsExactly` gives the exact condition of the assertion and
  `HistoryWalk.ReplicateStaysOn` that of the leftovers.
- `LaggingAccepter.CommittedLeftBehind`: executing a formation entry lowers `proposed_vid_`
  (`Traffic.HandlePromise` says exactly when), so a promise made to a view change is forgotten and the
  view change leaves a committed request behind.
- `Counterexamples.SuccessCanMissFork`: `fetchlog_check` decides that the bottom is reached from the
  view of the next stamp, which a sibling formation can make too high; REPLICATE is then acknowledged
  with entries missing. This is about one handler; the two formations are given to it.
- `ViewChoice.OvertakenSpec`: the assertion inside `view_change_choose_view` fails exactly when
  newview's primary takes the lead and a later reply of a member exceeds it.
- `ReplyCache.CompletionForgets`: the completion of an older request of the same client takes over the
  reply cache entry, and a retransmission is logged twice.
- `EnforcerRuns.LateAckRun`: the answer to a CLIENT_DOWN call is not tied to a generation and silently
  drops a registration made for the next generation. `Registrations.StepDrops` lists everything that
  takes a client out of a target's set, and `Registrations.RegistrationLasts` says that without such a
  call outstanding a registration lasts exactly as long as it should.
- `GenerationLog.TornLineForgets`: after a torn line the next line written is lost at the following
  restart; `GenerationLog.AppendsLine` gives the exact condition.
- `Diomedes.WrapStalls`: request number 2^32 is taken for an old one.

## Model

| member | source | states |
|---|---|---|
| Stamps.Plus | code/apps/pmp_vanilla/util.h:49-57 | adding to a timestamp fails exactly when the 32-bit sum wraps, and otherwise never goes down |
| Stamps.SuccIsLeast | code/apps/pmp_vanilla/util.h:43-75 | nothing lies between a stamp and its successor; a later stamp with timestamp 0 is in a later view |
| Quorum.InsertedSorted | code/apps/pmp_vanilla/set.h:63-69 | inserting keeps the tree's listing sorted and adds exactly the new element |
| Quorum.MidSet.Insert | code/apps/pmp_vanilla/set.h:63-69 | the contents gain the element; the result says whether it was new; nothing changes if it was not |
| Quorum.MidSet.Contains | code/apps/pmp_vanilla/set.h:58-61 | membership in the contents |
| Quorum.MidSet.Clear | code/apps/pmp_vanilla/set.h:140-142 | leaves the set empty and valid |
| Quorum.MidSet.Size | code/apps/pmp_vanilla/set.h:48-56 | the cursor loop counts the distinct members |
| Quorum.MidSet.Members | code/apps/pmp_vanilla/set.h:80-88 | the cursor loop lists exactly the members, sorted |
| Quorum.MidSet.IntersectWith | code/apps/pmp_vanilla/set.h:118-132 | the two-cursor merge adds exactly the intersection to the result set, even when that is an operand |
| Quorum.MidSet.ContainsMajorityOf | code/apps/pmp_vanilla/set.h:134-138 | true exactly if twice the common members exceed the other set's size |
| Quorum.MajoritiesMeet | code/apps/pmp_vanilla/set.h:134-138 | two sets that each hold a majority of a third share one of its members |
| CohortProcess.View2Mids | code/apps/pmp_vanilla/cohort.C:231-233 | the set built for a view holds its primary and its backups and nothing else |
| CohortProcess.CohortObject.Found | code/apps/pmp_vanilla/cohort.C:166-199 | a new group starts in an installed one-member view with its formation logged |
| CohortProcess.CohortObject.Join | code/apps/pmp_vanilla/cohort.C:200-210 | a joining cohort starts without a view at stamp zero |
| CohortProcess.CohortObject.Log | code/apps/pmp_vanilla/cohort.C:556-575 | logging an entry also raises the jump from its `prev` if it is a greater formation |
| CohortProcess.CohortObject.DoAdvanceExecuted | code/apps/pmp_vanilla/cohort.C:685-717 | the loop reaches the state of the recursive specification `AdvanceExecuted` and terminates |
| CohortProcess.CohortObject.DoAdvanceCommitted | code/apps/pmp_vanilla/cohort.C:719-738 | the loop reaches the state of `AdvanceCommitted`; a missing entry or acknowledgement set is a crash |
| CohortProcess.CohortObject.DoReplicateCb | code/apps/pmp_vanilla/cohort.C:740-774 | an acknowledgement is recorded in every entry up to its stamp, then committing advances |
| CohortProcess.CohortObject.DoPullUpto | code/apps/pmp_vanilla/cohort.C:839-870 | exactly the stamps of the segment that the log lacks are asked for, once each |
| CohortProcess.CohortObject.DoFetchlogCheck | code/apps/pmp_vanilla/cohort.C:787-812 | committing advances, the pull steps one view back or finds the bottom, and reports once it is settled |
| CohortProcess.CohortObject.DoFetchlogCb | code/apps/pmp_vanilla/cohort.C:814-837 | an answer is filed unless already logged, an error fails the pull, then the pull is checked |
| CohortProcess.CohortObject.DoPullLog | code/apps/pmp_vanilla/cohort.C:872-880 | a pull asks for the top segment and checks itself |
| CohortProcess.CohortObject.DoExecute | code/apps/pmp_vanilla/cohort.C:953-1039 | the reply cache answers, parks or re-issues; otherwise redirect, or log, cache, replicate and commit |
| CohortProcess.CohortObject.DoExecuteDone | code/apps/pmp_vanilla/cohort.C:660-683 | a completion marks the entry, caches the reply and answers the waiting client once |
| CohortProcess.CohortObject.DoReplicate | code/apps/pmp_vanilla/cohort.C:1041-1093 | the three refusals; otherwise store, raise `committed`, execute and pull |
| CohortProcess.CohortObject.DoFetchlog | code/apps/pmp_vanilla/cohort.C:1095-1105 | answers with the logged argument, or not at all |
| CohortProcess.CohortObject.Scan | code/apps/pmp_vanilla/cohort.C:1142-1149 | the open-ended scan terminates and returns the end of the gapless chain |
| CohortProcess.CohortObject.DoViewChange | code/apps/pmp_vanilla/cohort.C:1117-1158 | refuses an older view or a lower promise; otherwise promises, reports and aborts other attempts |
| CohortProcess.CohortObject.DoNewView | code/apps/pmp_vanilla/cohort.C:1160-1180 | refuses likewise; otherwise adopts the view, without raising the promise, and pulls |
| CohortProcess.CohortObject.DoFormView | code/apps/pmp_vanilla/cohort.C:252-287 | stops unless it is the view's primary; otherwise logs the formation, moves `latest` and `committed` to it, commits and replicates it |
| CohortProcess.CohortObject.DoInitView | code/apps/pmp_vanilla/cohort.C:1182-1188 | forms the view only if it is later than the installed one |
| CohortProcess.CohortObject.DoInitiate | code/apps/pmp_vanilla/cohort.C:505-547 | starts an attempt above every view known, asking members and joiners, unless one is live |
| CohortProcess.CohortObject.ChooseView | code/apps/pmp_vanilla/cohort.C:346-410 | both branches of the choice; None where the assertion fails or an unset cohort would be read |
| CohortProcess.CohortObject.DoCheckPrepare | code/apps/pmp_vanilla/cohort.C:424-473 | waits for everyone, aborts without a majority, extends to a reported view, and then issues NEW_VIEW |
| CohortProcess.CohortObject.DoPrepareCb | code/apps/pmp_vanilla/cohort.C:475-503 | a rejection aborts and raises the promise; a first acceptance is recorded with the latest view reported |
| CohortProcess.CohortObject.DoNewviewCb | code/apps/pmp_vanilla/cohort.C:311-344 | INIT_VIEW goes out exactly if both views' majorities have accepted |
| CohortProcess.CohortObject.Dispatch | code/apps/pmp_vanilla/cohort.C:933-1212 | every event runs its handler, keeps the invariant, and takes back nothing that only grows |
| CohortSpec.VsNext | code/apps/pmp_vanilla/cohort.C:549-554 | the next stamp is strictly greater |
| CohortInvariants.HandleKeeps | code/apps/pmp_vanilla/cohort.C:660-1188 | every handler keeps: executed at or below committed, executed in the installed view, jump index matching the log, requests submitted in strictly increasing order; and executed, view, log and submissions never go back |
| CohortInvariants.JumpsDetermined | code/apps/pmp_vanilla/cohort.C:556-575 | the log determines the jump index |
| CohortInvariants.InsertJumps | code/apps/pmp_vanilla/cohort.C:556-575 | the incremental update keeps the jump index equal to its recomputation from the log |
| LogWalk.RunKeeps | code/apps/pmp_vanilla/cohort.C:685-738 | the same over every run of any events: no stamp is executed twice |
| LogWalk.ExecSplits | code/apps/pmp_vanilla/cohort.C:685-717 | on a fixed log, executing up to c1 and then c2 is executing up to c2 |
| LogWalk.ScanIsChainEnd | code/apps/pmp_vanilla/cohort.C:1142-1149 | the scan ends at the end of a chain of logged stamps whose next stamp is not logged |
| LogWalk.ChainEndIsScan | code/apps/pmp_vanilla/cohort.C:1142-1149 | every such chain ends where the scan ends |
| LogPull.SuccessHoldsChain | code/apps/pmp_vanilla/cohort.C:787-880 | a successful pull leaves the whole prev chain down to `executed` in the log, under the stated proviso, and otherwise exactly if the rest of the chain is held |
| LogPull.FetchlogCbPulls | code/apps/pmp_vanilla/cohort.C:814-837 | every answer keeps what each pull has covered so far |
| LogPull.PullLogPulls | code/apps/pmp_vanilla/cohort.C:872-880 | so does opening a pull |
| LogPull.StepPassesOne | code/apps/pmp_vanilla/cohort.C:790-803 | each step back strictly lowers the bottom view and passes one formation |
| LogPull.StepsBounded | code/apps/pmp_vanilla/cohort.C:790-803 | the steps are bounded by the formations logged above the bottom view |
| LogPull.SuccessMeans | code/apps/pmp_vanilla/cohort.C:882-891 | an acknowledged stamp's view is held up to it by a cohort that has not moved past the view |
| Traffic.HandlePromise | code/apps/pmp_vanilla/cohort.C:697-706 | a handler becomes active or forgets an accepted view only by executing a formation, and always does so then, giving up its attempt and leaving the promise at the view; the promise is lowered if and only if that view is below what was promised |
| Traffic.HandleExplained | code/apps/pmp_vanilla/cohort.C:882-1188 | every message other than FETCHLOG follows from the sender's state and event: the manager's calls from an attempt that has what it takes, client replies from the cache, the current view or a completion, acknowledgements and acceptances from pulls opened for them |
| Outcomes.InitiateOutcome | code/apps/pmp_vanilla/cohort.C:505-547 | an attempt asks every member and joiner, and proposes a view above all this cohort knows of |
| Outcomes.ViewChangeOutcome | code/apps/pmp_vanilla/cohort.C:1117-1158 | VIEW_CHANGE is always answered: exactly when it is refused and with what, and what a promise records and reports |
| Outcomes.AnswerRecorded | code/apps/pmp_vanilla/cohort.C:475-503 | what each answer to VIEW_CHANGE adds to the attempt's record; a refusal ends the attempt and raises the promise |
| Outcomes.PrepareOutcome | code/apps/pmp_vanilla/cohort.C:424-473 | nothing is sent before everybody asked is heard of; then the attempt ends, asks the new members of a reported view, or sends every underling its choice, exactly by the two majorities |
| Outcomes.NewviewOutcome | code/apps/pmp_vanilla/cohort.C:311-344 | an answer to NEW_VIEW sends INIT_VIEW to the new primary exactly if it completes both majorities, and ends the attempt if everybody is heard of without them |
| Outcomes.NewViewOutcome | code/apps/pmp_vanilla/cohort.C:1160-1180 | when NEW_VIEW is refused; otherwise what is adopted, and that every missing stamp of the view to continue from is asked for from the new primary |
| Outcomes.ExecuteCached | code/apps/pmp_vanilla/cohort.C:962-969 | a request already executed is answered from the cache and nothing else happens |
| Outcomes.ExecuteParked | code/apps/pmp_vanilla/cohort.C:970-980 | a request that is being worked on takes over the reply handle and nothing is sent |
| Outcomes.ExecuteRedirected | code/apps/pmp_vanilla/cohort.C:988-996 | a request for another view or cohort is answered with the current view and its primary |
| Outcomes.ExecuteTaken | code/apps/pmp_vanilla/cohort.C:998-1035 | any other is logged at the next stamp, cached, and sent to every backup with the primary's `committed`, and to nobody else |
| Outcomes.ExecuteDoneOutcome | code/apps/pmp_vanilla/cohort.C:660-683 | a completion marks the entry, caches the reply and answers exactly the client that waits |
| Outcomes.ReplicateOutcome | code/apps/pmp_vanilla/cohort.C:1041-1093 | when REPLICATE is ignored; otherwise when the entry is stored, how `committed` rises, and that whatever is missing up to the entry is asked for from the primary |
| Outcomes.FetchlogOutcome | code/apps/pmp_vanilla/cohort.C:1095-1105 | FETCHLOG is answered exactly if the entry is logged |
| Outcomes.CheckSteps | code/apps/pmp_vanilla/cohort.C:787-803 | checking a pull steps one view back whenever it can and asks for everything missing there; otherwise the bottom is reached or the formation has still to arrive |
| Outcomes.FetchedReports | code/apps/pmp_vanilla/cohort.C:804-837 | the last answer to a pull makes it report at once: acknowledge, or answer NEW_VIEW either way |
| Outcomes.OpenedReports | code/apps/pmp_vanilla/cohort.C:872-880 | so does opening a pull that has nothing to wait for |
| Outcomes.AckOutcome | code/apps/pmp_vanilla/cohort.C:740-774 | when an acknowledgement is ignored, when it stops the cohort, and that it is otherwise recorded and committing goes on |
| Outcomes.CommitStops | code/apps/pmp_vanilla/cohort.C:719-738 | exactly where the commit loop ends and when its assertion fails |
| Outcomes.InitViewOutcome | code/apps/pmp_vanilla/cohort.C:252-287 | INIT_VIEW of a later view logs the formation and sends it to every backup; of any other does nothing |
| CohortRuns.RunOkAt | code/apps/pmp_vanilla/cohort.C:289-308 | in every run of a group, whatever an attempt believes it was told was sent |
| CohortRuns.FindVcAccept | code/apps/pmp_vanilla/cohort.C:1117-1158 | every acceptance on the network was sent by a cohort that accepted, with its report at that moment |
| CohortRuns.FindNvAccept | code/apps/pmp_vanilla/cohort.C:1160-1180 | likewise for NEW_VIEW |
| ViewChanges.CompetingAttempts | code/apps/pmp_vanilla/cohort.C:311-503 | after attempt a has its NEW_VIEW majority, any later attempt on the same view that passes its check has been told of a view not older than a and rebuilds on it |
| NewViewRuns.RunBooks | code/apps/pmp_vanilla/cohort.C:289-547 | in every run a live attempt has asked exactly its underlings, from the view it leaves, and all its NEW_VIEW calls carry one proposal |
| NewViewRuns.NewViewWarranted | code/apps/pmp_vanilla/cohort.C:424-473 | every NEW_VIEW call is sent when everybody asked has been heard of and majorities of the manager's view and of the latest view reported have accepted; it proposes to continue from the greatest report, under its author |
| NewViewRuns.InitViewWarranted | code/apps/pmp_vanilla/cohort.C:311-344 | every INIT_VIEW call goes to the primary of the view it forms, when majorities of that view and of the manager's have accepted exactly this view, continuing from exactly this stamp |
| NewViewRuns.FormedViewSurvives | code/apps/pmp_vanilla/cohort.C:311-503 | whatever NEW_VIEW a later attempt from the same view sends after INIT_VIEW was sent is built on a reported view that is not older |
| NewViewAnswers.HandleEarns | code/apps/pmp_vanilla/cohort.C:787-891 | no cohort acknowledges REPLICATE or accepts NEW_VIEW before it has pulled what it was asked to |
| NewViewAnswers.PulledHolds | code/apps/pmp_vanilla/cohort.C:787-880 | what has been pulled: the view up to the stamp, and the prev chain down to `executed`, with the exact exception |
| NewViewAnswers.NewViewAnswerMeans | code/apps/pmp_vanilla/cohort.C:1160-1180 | in every run a cohort that accepts NEW_VIEW was asked to by a manager and then holds what the manager's call asks for |
| NewViewAnswers.FormedViewPulled | code/apps/pmp_vanilla/cohort.C:311-344 | before a view is formed, majorities of its members and of the manager's view have held everything it continues from |
| AckSets.ReplicateCbAcks | code/apps/pmp_vanilla/cohort.C:719-774 | an acknowledgement adds its sender to entries of its view up to its stamp and to nothing else, and an entry's set is dropped only when a majority is in it |
| AckRuns.RunLogsOk | code/apps/pmp_vanilla/cohort.C:740-774 | in every run whoever is recorded in an entry's set has sent an acknowledgement of that entry or a later one of its view |
| AckRuns.CommittedByMajority | code/apps/pmp_vanilla/cohort.C:719-774 | a primary has committed an entry it took only if a majority of its view, itself apart, has acknowledged that entry or a later one |
| ViewChanges.FreshChangeContinues | code/apps/pmp_vanilla/cohort.C:387-472 | if a majority would report a stamp, a fresh view change from the view continues from there or later, under a primary whose log holds it |
| AckRuns.FreshChangeKeepsCommitted | code/apps/pmp_vanilla/cohort.C:387-472 | a fresh view change proposes to continue from every request the primary has committed in the view, or later, under a primary whose log holds it |
| ViewChanges.FreshMembersAccepted | code/apps/pmp_vanilla/cohort.C:387-410 | in every run a fresh view's members are exactly the cohorts that accepted the attempt, each once |
| ViewChanges.AckMeansHeld | code/apps/pmp_vanilla/cohort.C:882-891 | an acknowledgement sent while active in its view means every earlier entry of the view is held |
| ViewChoice.BestIsFirst | code/apps/pmp_vanilla/cohort.C:352-399 | of several greatest reports the first received is chosen |
| ViewChoice.FreshViewSpec | code/apps/pmp_vanilla/cohort.C:387-410 | a fresh view exists exactly if some report is above zero; its members are exactly the accepters without repeats, and its primary's report is greatest |
| ViewChoice.MergedViewSpec | code/apps/pmp_vanilla/cohort.C:346-385 | a merged view is a permutation of the reported one, and its primary's report is greatest among the members' |
| ViewChoice.OvertakenSpec | code/apps/pmp_vanilla/cohort.C:365-374 | exactly when the assertion in the scan fails |
| PrimaryLoop.CommitsExactly | code/apps/pmp_vanilla/cohort.C:719-738 | at a primary the loop sets `committed` exactly to the greatest stamp acknowledged by a majority, execution catches up, and no assertion fails |
| PrimaryLoop.AckLeads | code/apps/pmp_vanilla/cohort.C:766-771 | recording an acknowledgement keeps the acknowledgement sets nested |
| PrimaryLoop.LogRequestLeads | code/apps/pmp_vanilla/cohort.C:998-1035 | a request gets the next stamp of the view, acknowledged by the primary alone, and the sets stay nested |
| PrimarySteps.HandleStepped | code/apps/pmp_vanilla/cohort.C:719-1188 | every handler at a primary, present or former, keeps the sets nested and true, and every committed entry held by a majority |
| BackupSteps.HandleLags | code/apps/pmp_vanilla/cohort.C:719-1188 | elsewhere `committed` only follows what REPLICATE says, and nothing stops the cohort but an acknowledgement that finds `committed` in a later view than `latest` at the primary of the installed view |
| LinearHistory.NextIsNextSlot | code/apps/pmp_vanilla/cohort.C:549-554 | if the next stamp to execute is logged with a slot of a linear history, it is the next slot, whatever else is logged or missing |
| HistorySteps.HandleFollows | code/apps/pmp_vanilla/cohort.C:685-1180 | every handler keeps a cohort's log and executed requests on the history |
| HistoryWalk.ReplicateStaysOn | code/apps/pmp_vanilla/cohort.C:1041-1093 | REPLICATE leaves a cohort on the history if and only if no entry on the walk from `executed` to the new `committed` lies off it, and hands over only the history's requests, in order, if and only if no request on that walk does |
| HistoryWalk.ReplicateGuard | code/apps/pmp_vanilla/cohort.C:1041-1093 | with formations of the history only, that is: if and only if nowhere on the way the history enters a view whose formation is missing while a leftover of the old view is logged |
| OneView.OnlyPrimaryTakes | code/apps/pmp_vanilla/cohort.C:982-996 | a request addressed to the current view is taken only by its primary |
| EraSteps.EraKeeps | code/apps/pmp_vanilla/cohort.C:719-1188 | the invariant of a group on a linear history survives every step that forms no view, with traffic, pulls and former primaries of earlier views about |
| EraSteps.AddressedSteps | code/apps/pmp_vanilla/cohort.C:953-1039 | every step of a group is such a step if clients address the current view and no later INIT_VIEW is handled |
| NextView.ExecReachesScan | code/apps/pmp_vanilla/cohort.C:685-717 | with everything logged committed, executing ends exactly at the stamp the cohort would report to VIEW_CHANGE |
| NextView.FormViewOpens | code/apps/pmp_vanilla/cohort.C:252-287 | a cohort whose report is the formation's `prev` executes everything up to and including the formation |
| NextView.NextFormed | code/apps/pmp_vanilla/cohort.C:252-287 | forming a view right after the history, at a cohort that reported all of it, begins the next era: the new primary has executed every request of the past and no assertion fails |
| NextView.PrimaryReports | code/apps/pmp_vanilla/cohort.C:1142-1149 | the primary of the current view reports the whole history, so a view that continues from its report under it is such a step |
| EraRuns.CommittedHeldByMajority | code/apps/pmp_vanilla/cohort.C:719-1105 | at every moment each committed entry, with the formation and every earlier entry of the view, is held by a majority of the view, then and ever after, and nothing above `committed` has been acknowledged by one |
| EraRuns.LogsAgree | code/apps/pmp_vanilla/cohort.C:814-1093 | through any number of views, any two cohorts that ever hold an entry at the same stamp hold the same entry |
| EraRuns.RunMovesOn | code/apps/pmp_vanilla/cohort.C:814-1093 | no entry is overwritten or lost, no stamp given out again, and the history and its committed part only grow |
| EraRuns.SubmissionsComparable | code/apps/pmp_vanilla/cohort.C:685-717 | through any number of views, the requests any two cohorts have passed to their state machines are one a prefix of the other |
| EraRuns.PrimariesContinue | code/apps/pmp_vanilla/cohort.C:252-287 | every later primary has passed on all the requests that earlier primaries have, in the same order |
| EraRuns.FailsExactly | code/apps/pmp_vanilla/cohort.C:719-774 | apart from the manager, the one assertion that can fail is the one on the views of `latest` and `committed` in `replicate_cb`, and it fails exactly where they differ at the primary of the installed view |
| EraRuns.FoundedGroup | code/apps/pmp_vanilla/cohort.C:166-210 | a founded group with waiting joiners can begin such a run |
| RequestStates.HandleWork | code/apps/pmp_vanilla/cohort.C:685-1188 | only EXECUTE and completions touch waiting clients, the cache and executed entries |
| ExecServer.ExecBackend.Execute | code/apps/pmp_vanilla/execute.h:38-45 | queues the request and sends it if it is alone |
| ExecServer.ExecBackend.ConnectCb | code/apps/pmp_vanilla/execute.h:48-52 | sends the oldest request on the new connection; there is one |
| ExecServer.ExecBackend.Recv | code/apps/pmp_vanilla/execute.h:54-67 | a packet runs the oldest callback with the reply to that very request; the end of the stream reconnects |
| ExecServer.CompletionsFollowSubmissions | code/apps/pmp_vanilla/execute.h:38-78 | through any number of disconnects, callbacks run plus callbacks waiting are the submissions in order, with at most one request in flight |
| Completions.StartNode | code/apps/pmp_vanilla/cohort.C:166-210 | a cohort starts with an empty queue, having answered nobody |
| Completions.CompletionExpected | code/apps/pmp_vanilla/cohort.C:660-683 | a completion always finds its entry in the log, being executed |
| Completions.CompletionsInOrder | code/apps/pmp_vanilla/cohort.C:660-717 | completions are a prefix of the requests submitted, in stamp order, each once and with its own reply |
| Completions.RepliesAreOwn | code/apps/pmp_vanilla/cohort.C:953-1024 | every client that is sent a reply is sent one that executing its own request has produced |
| ReplyCache.OneStampPerView | code/apps/pmp_vanilla/cohort.C:959-1021 | any number of retransmissions of the one outstanding request get one viewstamp per view |
| ReplyCache.ExecutedIsAnswered | code/apps/pmp_vanilla/cohort.C:962-969 | once executed, the request is always answered with a reply its execution produced and never logged again |
| ReplyCache.CompletionForgets | code/apps/pmp_vanilla/cohort.C:663-672 | a completion of another request of the client makes the primary log the request again |
| Counterexamples.SuccessCanMissFork | code/apps/pmp_vanilla/cohort.C:790-806 | a pull that succeeds with entries missing |
| Counterexamples.FormerPrimaryOverruns | code/apps/pmp_vanilla/cohort.C:740-774 | a former primary told of a commit beyond its view runs every request it has logged, keeps its view, and any acknowledgement then stops it |
| Counterexamples.OrphanIsExecuted | code/apps/pmp_vanilla/cohort.C:1041-1093 | three members: a request that nobody acknowledged is handed to the state machine, and the next acknowledgement fails the assertion |
| LaggingAccepter.CommittedLeftBehind | code/apps/pmp_vanilla/cohort.C:697-706 | a run of a group in which installing a view forgets a promise and a view change leaves a committed request behind |
| Diomedes.BackupsFollow | code/apps/diomedes/diomedes.cc:911-1137 | each backup has gone through the primary's first `curr_req_id_` requests; equal counts mean equal machines and caches; the checks in SendVote never fail |
| Diomedes.BackupsVote | code/apps/diomedes/diomedes.cc:1109-1137 | in every run each backup has voted for every request it has gone through |
| Diomedes.DeliverOutcome | code/apps/diomedes/diomedes.cc:1118-1137 | an older request is voted for again, the next one is applied and voted for, a later one changes nothing |
| Diomedes.RequestOutcome | code/apps/diomedes/diomedes.cc:938-972 | a client request is broadcast; a cached one is answered at once, any other is run and the primary waits |
| Diomedes.VotesMatch | code/apps/diomedes/diomedes.cc:676-689 | the primary's check on the transaction id of a vote never fails |
| Diomedes.RetransmissionsRunOnce | code/apps/diomedes/diomedes.cc:1085-1106 | with a state machine that echoes transaction ids, no client's request runs twice in a row |
| Diomedes.WrapStalls | code/apps/diomedes/diomedes.cc:1118-1122 | request 2^32 is run by the primary and not by a backup |
| Diomedes.Server.Run | code/apps/diomedes/diomedes.cc:1085-1106 | runs the request unless its id is the cached one |
| Diomedes.Server.Vote | code/apps/diomedes/diomedes.cc:1204-1224 | votes with the remembered request if its number is the current one |
| Diomedes.Server.HandleRequestAsPrimary | code/apps/diomedes/diomedes.cc:911-972 | numbers, remembers, broadcasts and runs a client request; a cached one is answered at once |
| Diomedes.Server.ProcessPrimaryMessage | code/apps/diomedes/diomedes.cc:1109-1137 | an old request is voted for again, the next is applied, a later one ignored |
| Enforcer.GenCheckIsLex | code/falcon/enforcer/enforcer.cc:310-334 | the answers are exactly unknown target, wrong length, or the lexicographic comparison |
| EnforcerObject.EnforcerServer.CheckGenerations | code/falcon/enforcer/enforcer.cc:310-334 | the loop with early returns computes that comparison |
| EnforcerObject.EnforcerServer.IncrementGeneration | code/falcon/enforcer/enforcer.cc:61-72 | one log line and one more generation, modulo 2^32 |
| EnforcerObject.EnforcerServer.GetClient | code/falcon/enforcer/enforcer.cc:154-185 | the object filed under the id, or a new one |
| EnforcerObject.EnforcerServer.DoRemoveClient | code/falcon/enforcer/enforcer.cc:187-201 | the loop over the client's targets erases it from each and stops monitoring those left empty |
| EnforcerObject.EnforcerServer.DoReportDown | code/falcon/enforcer/enforcer.cc:221-242 | an acknowledgement withdraws the client from the target; the last retry removes it; otherwise one more call |
| EnforcerObject.EnforcerServer.DoObserveDown | code/falcon/enforcer/enforcer.cc:244-277 | every client is told the dying generation, then it is raised and the target forgotten |
| EnforcerObject.EnforcerServer.DoRegister | code/falcon/enforcer/enforcer.cc:342-371 | SPY_REGISTER, including which registrations start monitoring |
| EnforcerObject.EnforcerServer.DoCancel | code/falcon/enforcer/enforcer.cc:372-409 | SPY_CANCEL, including when the client is removed |
| EnforcerRuns.StepKeeps | code/falcon/enforcer/enforcer.cc:187-448 | every step, crashes included, keeps the client bookkeeping and the log in order |
| EnforcerRuns.MembersAreWatched | code/falcon/enforcer/enforcer.cc:187-409 | at every moment a target with a registered client is monitored, and members have an interval for the target |
| EnforcerRuns.RemovedEverywhere | code/falcon/enforcer/enforcer.cc:187-201 | after RemoveClient the object is in no target's client set or deadly set |
| EnforcerRuns.RemovedForGood | code/falcon/enforcer/enforcer.cc:187-448 | and until the process restarts it never comes back into one, whatever late answers and timers still refer to it |
| EnforcerRuns.DeadStaysDead | code/falcon/enforcer/enforcer.cc:244-448 | after a failure at generation g no request carrying g is ever accepted, through any crashes |
| EnforcerRuns.GenerationsSurvive | code/falcon/enforcer/enforcer.cc:47-72 | at every moment a crash, even between line and counter, never restores a smaller generation |
| EnforcerRuns.LateAckDrops | code/falcon/enforcer/enforcer.cc:224-232 | a late acknowledgement withdraws the client whatever it has registered for since |
| DownCalls.DownOutcome | code/falcon/enforcer/enforcer.cc:244-277 | every client registered, and nobody else, is told the generation that has just ended; then the target is forgotten and its generation raised |
| DownCalls.CallsNameFailures | code/falcon/enforcer/enforcer.cc:221-277 | in every run each outstanding call goes back to a failure since the last restart, at which its receiver was registered, and names the generation that ended then |
| DownCalls.ToldIsOver | code/falcon/enforcer/enforcer.cc:221-334 | so below 2^32 lines whatever a client is told has been passed, and a request that carries it is answered LONG_DEAD |
| DownCalls.ReportOutcome | code/falcon/enforcer/enforcer.cc:221-242 | an acknowledgement withdraws the client; a failed call is made again, three times in all, and then the client is removed |
| DownCalls.RemoveOutcome | code/falcon/enforcer/enforcer.cc:187-201 | the client leaves every set of its targets, and exactly the targets left empty are no longer monitored |
| DownCalls.HeartbeatOutcome | code/falcon/enforcer/enforcer.cc:124-152 | exactly when a heartbeat removes the client |
| DownCalls.RegisterOutcome | code/falcon/enforcer/enforcer.cc:342-371 | a registration is acknowledged exactly if it carries the current generation; then set, interval, waiting, deadly and monitoring are as asked and nothing else changes |
| DownCalls.CancelOutcome | code/falcon/enforcer/enforcer.cc:372-409 | a cancel is acknowledged exactly if it carries the current generation and the client is registered; what it leaves |
| Registrations.StepDrops | code/falcon/enforcer/enforcer.cc:187-409 | a step takes a client out of a target's set if and only if it is the target's failure, an accepted cancel, a removal that reaches the target, a crash, or an acknowledged CLIENT_DOWN call about the target |
| Registrations.RegistrationLasts | code/falcon/enforcer/enforcer.cc:187-409 | with no such call outstanding, a registration lasts if and only if none of the others happens |
| EnforcerRuns.LateAckRun | code/falcon/enforcer/enforcer.cc:221-277 | a run in which an acknowledged registration is lost that way |
| GenerationLog.RoundTrip | code/falcon/enforcer/enforcer.cc:47-59 | reading the log back restores exactly the lines written |
| GenerationLog.AppendsLine | code/falcon/enforcer/enforcer.cc:47-72 | writing a line adds exactly that target if and only if the file was not torn |
| GenerationLog.TornTailRestores | code/falcon/enforcer/enforcer.cc:47-59 | restarting on a torn file lowers no generation |
| GenerationLog.TornLineForgets | code/falcon/enforcer/enforcer.cc:47-72 | but the next line written to it is lost |
| GenerationLog.LogStaysAhead | code/falcon/enforcer/enforcer.cc:47-84 | every step keeps at least as many lines as the generation, so a restart anywhere restores the lines modulo 2^32 and never lowers it below 2^32 lines |
| GenerationLog.LogAlwaysAhead | code/falcon/enforcer/enforcer.cc:47-84 | the same over every run from an empty log |
| GenerationLog.Generations.Init | code/falcon/enforcer/enforcer.cc:47-59 | the read loop counts the lines of each target, modulo 2^32 |
| GenerationLog.Generations.FastForward | code/falcon/enforcer/enforcer.cc:74-84 | sets the generation down at once or up with one line per step |

## Left out

- Sockets, RPC transport, XDR, addresses and retry timers: a message is a value, an RPC error an event, and a timer may fire at any moment.
- Ping and LETMEIN bookkeeping: both only start attempts, which the model lets happen at any moment.
- The 32-bit limit on timestamps inside the cohort: `Stamps.Plus` states where the code stops; the cohort model counts without bound.
- The `itree` library is taken to be an exact-match ordered map; `set::remove`, `set::union_with` and set assignment add nothing harder.
- Log entries, view-change attempts and pulls are values held in the cohort's fields, not shared objects; a callback of an aborted attempt that has been replaced is ignored, as the code's own test does.
- Attempt and acknowledgement sets inside a cohort are mathematical sets; `Quorum.MidSet` proves the tree and cursor form.
- Backend connections that fail to open (`tcpconnect` returning an error) and requests sent by callbacks while `recv` runs: `execute_done` makes none.
- CohortProcess.CohortObject.Log: an entry with timestamp 0 holds the formation of its own view; the code stores whatever view it is given.
- CohortProcess.CohortObject.DoFetchlogCb: a fetched formation is the one of its stamp's view, likewise.
- CohortProcess.CohortObject.DoReplicate: so is a replicated one.
- CohortProcess.CohortObject.Dispatch: no second, different entry is logged under a stamp; the code's tree would take it. On a linear history this cannot happen (`EraSteps.NoDuplicates`).
- CohortInvariants.HandleKeeps: the same restriction.
- LogWalk.RunKeeps: the same restriction, at every step.
- Diomedes failover, joining, vote counting and the responder threads: one primary, and its return to waiting is a step that may happen at any moment.
- Enforcer clients are handles into a map of objects rather than references; ObserveUp and the timers appear as separate steps that may happen at any moment, so no fixed order of notifications is modelled.
- EnforcerRuns.DeadStaysDead: assumes fewer than 2^32 log lines, because generations wrap.
- GenerationLog.RoundTrip: targets hold no newline and no NUL and are shorter than 255 characters.
- GenerationLog.Generations.Init: a NUL character in the file, at which the code's `strlen` would stop, is read like any other.
- `UpdateGenerations` of layers that keep their own generations, the Falcon client library, the layer-specific enforcers and the other cohort variants.
