# Proofs about the API's protocols, paging and selection

This project models the parts of the API that must stay right while processes crash, replicas
interleave and lists are read page by page, and proves what they keep. `dafny verify dfyconfig.toml`
checks everything.

Protocols are state machines: a `World`, an `Action` for every await (or every file operation), and
`Run` over any sequence of actions. Where the source updates an object in place there is also a class
whose methods are proved to follow the machine or a specification function. Main results hold for
every run, every list or every input.

## What is modelled

- **Idempotent reply** (`Base64`, `ReplyRecovery`, `ReplyProtocol`, `ReplySafety`, `ReplyService`).
  One durable attempt row per client request, any number of calls on any number of replicas. A store
  write takes effect, or fails towards the caller and may still land at any later time. Assumed: the
  claim is one atomic statement, and the channel raises `SendNotAcceptedError` only when nothing was
  accepted.
- **Package version switch** (`MarketFiles`, `MarketSwitch`, `PluginDirectory`, `MarketHistory`,
  `MarketInstaller`). A recorded change completed by renames at startup, each start cut after any
  step; the pruned archive; and the long life of a package under updates and rollbacks. Assumed:
  install times increase, and a rename or a removal of a directory is one step.
- **Package operations** (`PackageOperations`). Installs, updates and uninstalls in one process, and the
  map that keeps them apart per package.
- **Background leader** (`BackgroundLeader`, `LeaderSafety`). Replicas, sessions that die at any time,
  one session lock, and the controller's promise chain.
- **Starting work** (`WorkStart`, `WorkStartSafety`, `RecipeTurns`). Every dispatcher that starts a run
  of one item, the executor's channel, the supervisor and a person dismissing, step by step. Assumed:
  the start claim is one transaction; an executor reaches the outside only through its start context;
  it passes on the first failed context call; and a call that the channel accepted does not fail with
  one of the two local refusal codes. `RecipeTurns` is the lane in front of capped starts.
- **Work order** (`RecipeOrder`, `InboxScan`). Taking recipes in turn, and the scan and ring pages.
- **Conversation paging** (`MessageKeys`, `KeyedLists`, `Conversation`, `ConversationPaging`,
  `ConversationContinuation`). Keys, boundaries, windows over unreadable messages, and continuations.
- **Inbox list and thread tail** (`InboxHeads`, `InboxPaging`, `ThreadTail`). Over-fetch and partition,
  paging by `next_before`, and the backward reader.
- **Connector streams** (`StreamLocks`, `MaintenanceHold`, `WorkerPool`, `PollItem`, `DueWork`,
  `FocusSlot`). Lock chains, ticks and the maintenance hold, the bounded pool, the poll of a claimed row
  with all its exits, settlement of a whole batch, and the interactive focus.

## Where the code does less than its name or its documentation says

The model follows the code. Each of these has a concrete witness, and the exact condition is proved.

- A saved reply does not come back unchanged if the batch already holds an object shaped like the byte
  marker under a key `bytes` (`RoundTrip`, `ForeignMarkerIsRewritten`). Reply batches never do.
- `docs/en/CONNECTOR_MARKETPLACE.md:86` promises one-step rollback to the previous version. After an
  update the rollback goes back to the replaced version exactly if no archived version was newer than it
  (`RollbackAfterUpdate`), and update, rollback, update to the same version leaves the rollback refused
  (`UpdateRollbackUpdate`).
- `docs/en/CONNECTOR_MARKETPLACE.md:88` promises that operations for a package cannot overlap. They do not
  unless a finished job's result cannot be saved after the next operation began: the job then takes out the
  other's entry (`StepKeepsMapExactly`, `FailedReportLetsOperationsOverlap`).
- `stop()` of the leader's controller gives the lease up exactly if the job before it did not throw and
  its own stop callback does not throw (`StopJobReleases`); two throwing callbacks leave the lock held
  (`ThrowingCallbacksKeepTheLock`).
- The continuation of a bounded read names nothing when every selected message is unreadable, although
  others may be readable (`ContinuationIsComplete`, `UnreadableSelectionLosesTheRest`).
- With a NUL in a time two different messages can share a key (`NulMakesKeysCollide`); keys follow two
  different times exactly if neither, followed by a NUL, begins the other (`KeysFollowTimesExactly`). A
  boundary names its message exactly if trimming changes neither of its parts (`BoundaryNamesItsMessage`,
  `TrailingSpaceNamesAnother`).
- Paging the inbox list reaches every live head exactly if no wall of excluded heads as long as a fetch
  stands above one; at the page cap of 200 a page can be empty, announce older heads and give no cursor
  (`PagesAreCompleteWithoutWall`, `WallHidesTheLiveHead`).
- A turn looks at the item's mark before it waits for the capacity answer, and not again. Two starts of one
  item come to overlap exactly when the item is marked at the moment of the answer
  (`StepKeepsOneStartExactly`, `ManualStartsBreakTheTurn`). That needs a start from outside
  (`OnlyOutsidersIntrude`): an item that only turns of one recipe start never has two starts under way
  (`OneRecipeNeverStartsTwice`). The durable claim still lets only one run start.
- A stream job called with `ahead` breaks the turns of its stream exactly if another job of that stream has
  not ended (`StepKeepsChainExactly`), and exactly then two jobs may come to run at once without any further
  such call (`OvertakesExactlyIfOverlapFollows`, `AheadOverlaps`).
- The maintenance hold is one flag for all pausers. It stays up exactly until a pauser resumes or gives up
  while another is not done (`StepKeepsHoldExactly`), and exactly then a tick may come to run beside a pauser
  at work, such as a store clear (`ReleasesExactlyIfTickFollows`, `ResumeClearsTheOthersHold`,
  `TimeoutClearsTheOthersHold`).

## Model

| member | source | states |
|---|---|---|
| ReplyRecovery.RoundTrip | apps/api/src/personal-reply-recovery.ts:10-54 | decoding an encoded batch gives the batch back if and only if no `bytes` field of it already held a marker-shaped object |
| ReplyRecovery.LoadAfterSave | apps/api/src/personal-reply-recovery.ts:31-54 | loading a saved payload succeeds with the same batch exactly if it is marker-free, valid, of this organisation and has one record |
| ReplyRecovery.RevivePlain | apps/api/src/personal-reply-recovery.ts:40-48 | on trees without byte arrays the reviver is the identity exactly when the tree is marker-free |
| ReplyRecovery.RoundTripPart | apps/api/src/personal-reply-recovery.ts:18-24 | the same for one content part: its byte array is replaced by a marker and comes back |
| ReplyRecovery.RoundTripRecord | apps/api/src/personal-reply-recovery.ts:16-25 | the same for one record with its content parts |
| Base64.RoundTrip | apps/api/src/personal-reply-recovery.ts:21-45 | base64 text, padded, reads back as the bytes it was made of, for every length |
| Base64.KnownTexts | apps/api/src/personal-reply-recovery.ts:21-45 | the texts of section 10 of RFC 4648 are written as given there |
| Base64.LastSymbols | apps/api/src/personal-reply-recovery.ts:21-45 | the last two symbols, and those of the URL alphabet read as the same |
| ReplyRecovery.ForeignMarkerIsRewritten | apps/api/src/personal-reply-recovery.ts:41-46 | a concrete batch with an attribute that looks like a marker is not read back unchanged |
| ReplySafety.AtMostOneDelivery | apps/api/src/personal-reply.service.ts:252-340 | over every interleaving, crash and lost or late write, the channel delivers at most one message for a client request |
| ReplySafety.OnlyUndeliveredIsSent | apps/api/src/personal-reply.service.ts:252-274 | a call about to send is the only one, holds the pending claim of its thread, and nothing was delivered before |
| ReplySafety.StatusOnlyMovesForward | apps/api/src/personal-reply.service.ts:282-330 | every step moves the stored status only pending, accepted, sent or pending, rejected, pending, and never changes the receipt and payload of an accepted attempt |
| ReplySafety.AfterAcceptanceOnlyRecovery | apps/api/src/personal-reply.service.ts:451-478 | once acceptance is durable nobody sends again, and everything ever ingested is the batch of the one delivered message with the channel's id |
| ReplySafety.RepliedMeansStored | apps/api/src/personal-reply.service.ts:347-414 | over every run, a caller is told that the reply went out only when the one delivered message is ingested and the attempt marked sent |
| ReplySafety.ReplyBatchRoundTrip | apps/api/src/personal-reply.service.ts:220-252 | every reply batch, with any attachments, survives saving and loading |
| ReplySafety.RecordHoldsTheReply | apps/api/src/personal-reply.service.ts:210-240 | the one record of a reply stands under the given id, with the parent it quotes, its text, and every attachment with all its bytes in order |
| ReplySafety.BatchNames | apps/api/src/personal-reply.service.ts:240-247 | a reply batch names its connector, organisation and request, and has that one record |
| ReplySafety.InvNext | apps/api/src/personal-reply.service.ts:140-345 | every step of any call, and every late write, keeps the protocol's invariant |
| ReplySafety.InvClaim | packages/authority-store/src/postgres/events.ts:165-184 | the claim statement keeps the invariant: it takes a new row, or a rejected one of the same thread without evidence |
| ReplySafety.InvLand | packages/authority-store/src/postgres/events.ts:186-233 | a write that failed towards its caller keeps the invariant when it lands later |
| ReplySafety.WriteMovesForward | packages/authority-store/src/postgres/events.ts:186-233 | every write a call may make moves the row forward and keeps an accepted payload |
| ReplySafety.SettledStays | apps/api/src/personal-reply.service.ts:451-478 | an accepted attempt keeps its receipt and recovery payload through every later run |
| ReplyService.ReplyHost.RunIdempotentSend | apps/api/src/personal-reply.service.ts:129-138 | one call, whatever throws and whatever other calls do between its awaits, is part of a run of the protocol: at most one delivery, and a success means stored; undisturbed, the outcome and the stored state for every answer of the channel and for every row that a retry can meet |
| ReplyService.ReplyHost.SendOnce | apps/api/src/personal-reply.service.ts:140-345 | with others getting on between the awaits, still steps of the protocol; undisturbed and with a claimable row, delivery, stored status and outcome for every answer of the channel |
| ReplyService.ReplyHost.SendClaimed | apps/api/src/personal-reply.service.ts:274-340 | the send and its three endings: sent and ingested, rejected, or outcome unknown with the claim left as it is |
| ReplyService.ReplyHost.RecordRejection | apps/api/src/personal-reply.service.ts:282-304 | a definite rejection is stored without evidence, or reported as not saved with the row unchanged |
| ReplyService.ReplyHost.RecordDelivery | apps/api/src/personal-reply.service.ts:316-341 | after delivery the payload is saved under the channel's id, acceptance recorded, the batch ingested and the attempt marked sent |
| ReplyService.ReplyHost.ReplayPriorAttempt | apps/api/src/personal-reply.service.ts:416-503 | nothing is delivered; no prior outcome only if the row may be claimed; a sent attempt is answered with success, an undecided one as uncertain, another thread's and one with conflicting evidence refused, all without a change; an accepted one is finished with exactly the saved batch |
| ReplyService.ReplyHost.RecoverAccepted | apps/api/src/personal-reply.service.ts:451-478 | a recoverable accepted attempt ends as sent, with the delivered batch ingested once more |
| ReplyService.ReplyHost.StoreDeliveredReply | apps/api/src/personal-reply.service.ts:347-414 | ingest, aliases, sent, read back, as steps of the protocol; with nothing failing the attempt is sent |
| ReplyService.ReplyHost.MarkSent | apps/api/src/personal-reply.service.ts:380-414 | the row is marked sent under the event that was ingested, then read back |
| ReplyService.ReplyHost.ClaimAttempt | packages/authority-store/src/postgres/events.ts:165-184 | the claim succeeds exactly if the row is claimable, or fails towards the caller |
| ReplyService.ReplyHost.Interleave | apps/api/src/personal-reply.service.ts:104-138 | what other calls do while this one waits leaves its own place alone and is part of the run |
| ReplyService.OthersMove | apps/api/src/personal-reply.service.ts:104-138 | what others do does not depend on where this call is |
| ReplyService.DeliveryIsRecorded | apps/api/src/personal-reply.service.ts:316-330 | undisturbed, a delivery is on record with its receipt, its message ids and the payload under the channel's id |
| ReplyService.StoringMarksTheEvent | apps/api/src/personal-reply.service.ts:347-414 | undisturbed, the batch is ingested and the row marked sent under the event it became and the receipt's message ids |
| ReplyService.FirstLookDecides | apps/api/src/personal-reply.service.ts:416-503 | the first look of any call in any world decides by the row alone: which rows end it at once and how, which are finished from the saved payload, and which let a send go ahead |
| ReplyService.RefusedClaimDecides | apps/api/src/personal-reply.service.ts:252-264 | a call whose claim was refused looks again and decides in the same way, except that it never sends |
| MarketSwitch.CutCompletion | apps/api/src/channel-plugins.ts:447-478 | a completion cut after any step leaves the change recorded with all versions as they were, or has done the whole switch |
| MarketSwitch.FullCompletion | apps/api/src/channel-plugins.ts:447-478 | an uncut completion commits exactly if the target is intact; otherwise the old version is active and the change stays recorded |
| MarketSwitch.CrashAtomic | apps/api/src/channel-plugins.ts:437-494 | the same after any number of starts, each cut anywhere |
| MarketSwitch.NextStartSettles | apps/api/src/channel-plugins.ts:437-494 | however often it was cut, the next complete start settles the switch one way or the other |
| MarketSwitch.ForeignVersionIsLeftAlone | apps/api/src/channel-plugins.ts:455-463 | a change recorded for a version that is no longer active changes nothing, and one that is done is only forgotten |
| PluginDirectory.PassKeepsOrCommits | apps/api/src/channel-plugins.ts:437-494 | over the real pass with pruning and sweeping, a switch in progress keeps its versions and record or is committed; a whole pass decides by the target |
| PluginDirectory.ThreeStay | apps/api/src/channel-plugins.ts:1037-1042 | a whole pruning leaves at most three listed versions |
| PluginDirectory.Directory.MarketVersionHistory | apps/api/src/channel-plugins.ts:551-579 | the accepted archive directories, each once, newest install first |
| PluginDirectory.Directory.PruneMarketVersionHistory | apps/api/src/channel-plugins.ts:1037-1042 | only entries behind the three newest are removed, in order, and nothing else changes; whatever went, three at least as new are still there |
| PluginDirectory.Directory.CompleteChange | apps/api/src/channel-plugins.ts:445-482 | one transaction file: the recorded steps, as far as they got, then pruning |
| PluginDirectory.Directory.CompletePendingMarketVersionChanges | apps/api/src/channel-plugins.ts:437-503 | the startup pass treats every package independently; no stage whose transaction exists is swept |
| PluginDirectory.Directory.Sweep | apps/api/src/channel-plugins.ts:483-503 | only stages without a transaction file, and download leftovers, are removed |
| MarketHistory.SwitchKeepsOrder | apps/api/src/channel-plugins.ts:1037-1042 | a switch keeps at most one archived version newer than the active one, and its pruning keeps the version just archived |
| MarketHistory.LifeKeepsOrder | apps/api/src/connector-market-installer.ts:221-245 | the same over any sequence of updates and rollbacks with increasing install times |
| MarketHistory.SwitchedOrderly | apps/api/src/connector-market-installer.ts:458-478 | before pruning, at most one archived version is newer than the one just archived |
| MarketHistory.NotInTail | apps/api/src/channel-plugins.ts:1037-1042 | an entry with at most one newer entry is never pruned |
| MarketHistory.ReplacedVersionSurvives | apps/api/src/channel-plugins.ts:462-480 | a committed switch still has the version it replaced in the archive after pruning |
| MarketHistory.RollbackAfterUpdate | apps/api/src/connector-market-installer.ts:453-478 | after an update the rollback offers the version just replaced if and only if no archived version was newer than it |
| MarketHistory.RollbackTwice | apps/api/src/connector-market-installer.ts:453-478 | two rollbacks in a row end at the version they started from |
| MarketHistory.SameVersionRefusesRollback | apps/api/src/connector-market-installer.ts:453-458 | no rollback is possible while the newest archived version equals the active one |
| MarketHistory.UpdateRollbackUpdate | apps/api/src/connector-market-installer.ts:453-458 | a concrete life after which an older archived version cannot be reached |
| MarketInstaller.Installer.BeginMarketVersionChange | apps/api/src/channel-plugins.ts:581-626 | the change is recorded exactly if it fits the installed version, is well-formed, and neither a change nor a removal is pending |
| MarketInstaller.Installer.StageUpdate | apps/api/src/connector-market-installer.ts:211-265 | exactly when the update is recorded and when each refusal is given; a recorded update has its intact stage, a refused or interrupted one leaves at most a stage that is swept |
| MarketInstaller.Installer.Rollback | apps/api/src/connector-market-installer.ts:431-487 | refused as not possible exactly if nothing with a version is installed or something is pending; a recorded rollback targets the newest archived version, refused for lack of one only if there is none or it equals the active version |
| MarketInstaller.Installer.Uninstall | apps/api/src/connector-market-installer.ts:502-564 | an installed package is marked for removal unless that or a version change is pending; no package ever waits for both |
| PackageOperations.OperationsDoNotOverlap | apps/api/src/connector-market-installer.ts:331-427 | unless such a failed report happens, no two operations on one package are ever under way at once |
| PackageOperations.BeginsExactly | apps/api/src/connector-market-installer.ts:331-360 | and an operation begins exactly if none is under way on its package |
| PackageOperations.EndsFree | apps/api/src/connector-market-installer.ts:360-427 | an operation that ended, or could not be saved at its start, leaves its package free |
| PackageOperations.StepKeepsMapExactly | apps/api/src/connector-market-installer.ts:360-427 | a step keeps the map naming exactly the operations under way, if and only if it is not a failed report that meets a later operation |
| PackageOperations.ReleaseKeeps | apps/api/src/connector-market-installer.ts:502-564 | the end of an operation takes out its own entry |
| PackageOperations.FailedReportLetsOperationsOverlap | apps/api/src/connector-market-installer.ts:394-427 | a concrete run in which an uninstall begins beside a running job of the same package |
| LeaderSafety.OneLiveLeader | apps/api/src/background-leader.ts:35-122 | at most one replica leads while its own lock session is alive |
| LeaderSafety.InvNext | apps/api/src/background-leader.ts:35-203 | every await of every replica and every death of a session keeps the invariant |
| LeaderSafety.StartsAndStopsAlternate | apps/api/src/background-leader.ts:142-178 | on each replica start and stop alternate, and the last call is a start exactly while it leads |
| LeaderSafety.HealthyLeaderStays | apps/api/src/background-leader.ts:153-164 | over every run in which nobody stops the replica, its session lives and is not dropped, and its queries are answered, a leader never stops its timers |
| LeaderSafety.AnsweredProbeKeepsLeading | apps/api/src/background-leader.ts:145-160 | a probe that was answered changes nothing on a leader whose client was not lost |
| LeaderSafety.GrantedLeads | apps/api/src/background-leader.ts:138-152 | once the lock is granted, an undisturbed tick can only end leading, with the timers started once, whatever other replicas do |
| LeaderSafety.FreeLockTickLeads | apps/api/src/background-leader.ts:40-152 | a tick on a free lock, by its own steps, with every query answered and no throw, ends leading with the timers started, from each state of the client |
| LeaderSafety.LossStopsTheLeader | apps/api/src/background-leader.ts:110-116 | a reported loss chains a tick, and the next tick of a running leader that knows of a loss stops the timers at once |
| LeaderSafety.TickAfterDeath | apps/api/src/background-leader.ts:142-178 | a tick that begins after the leader's session died is bound to fail its probe or has stopped the timers already; on a stopped replica the stop job that stops them is chained behind it |
| LeaderSafety.StopJobStopsTimers | apps/api/src/background-leader.ts:185-203 | a stop job that begins stops the timers, whatever threw before it or in it |
| LeaderSafety.DoomedEndsFollowing | apps/api/src/background-leader.ts:78-90 | such a tick never passes, whatever happens meanwhile: it ends with the timers stopped |
| LeaderSafety.DoomedStaysDoomed | apps/api/src/background-leader.ts:78-90 | each step keeps it so |
| LeaderSafety.ReleasedIsRetired | apps/api/src/background-leader.ts:185-203 | once a stop job has ended there is no lease, no timers, and the last call was not a start |
| LeaderSafety.RetiredForGood | apps/api/src/background-leader.ts:138-203 | nothing that happens later starts the timers again |
| LeaderSafety.StopJobReleases | apps/api/src/background-leader.ts:191-202 | a stop job gives the lease up if and only if the job before it did not throw and its own stop callback does not |
| LeaderSafety.ReleaseFreesExactly | apps/api/src/background-leader.ts:91-108 | the unlock, or the end of the session, frees the server's lock if and only if it arrives or the session did not hold it |
| LeaderSafety.ReleasedLockStaysFree | apps/api/src/background-leader.ts:91-108 | once either has arrived the released session never holds the lock again |
| LeaderSafety.EveryJobEnds | apps/api/src/background-leader.ts:138-203 | whatever each awaited operation comes to, a job is over after at most eight of them |
| LeaderSafety.NoSessionIsForgotten | apps/api/src/background-leader.ts:64-136 | over every run, each session ever opened is in use by a replica, or a replica asked the server to end it |
| LeaderSafety.OnlyThrowingStopRejects | apps/api/src/background-leader.ts:165-177 | a job throws only if the stop callback throws |
| LeaderSafety.QuietStopNeverRejects | apps/api/src/background-leader.ts:165-177 | with a stop callback that never throws, no job ever does |
| LeaderSafety.ThrowingCallbacksKeepTheLock | apps/api/src/background-leader.ts:165-202 | a concrete run in which a stopped replica that does not lead still holds the lock |
| WorkStartSafety.ClaimFindsAllSettled | apps/api/src/personal-work-dispatch.ts:577-586 | a start is claimed only when every earlier run that may have reached its executor is settled |
| WorkStartSafety.UnsettledBlocksStarts | packages/authority-store/src/postgres/work.ts:278-310 | until somebody settles it, such a run blocks every further start, through any crash and any overwrite of the item |
| WorkStartSafety.AtMostOneUnsettled | apps/api/src/personal-work-dispatch.ts:534-728 | in every reachable state at most one run has reached its executor without being settled |
| WorkStartSafety.FailedWasNeverReached | apps/api/src/personal-work-dispatch.ts:626-660 | a run marked failed by its dispatcher, and so retried, was never reached and never will be |
| WorkStartSafety.OnlyAPersonReleases | apps/api/src/personal-work-supervise.ts:125-148 | an uncertain start, and a pending one whose process died, stays as it is until a person dismisses it |
| WorkStartSafety.UnconfirmedBlocksStarts | apps/api/src/personal-work-supervise.ts:125-148 | and it blocks every further start of the item until then |
| WorkStartSafety.ConfirmingNext | apps/api/src/personal-work-supervise.ts:125-148 | every step keeps that what the supervisor may apply a handle to never needs confirmation again |
| WorkStartSafety.RetryableExactlyIfUntouched | apps/api/src/personal-work-dispatch.ts:623-680 | after a throw the run becomes retryable if and only if the refusal was local and nothing was recorded; otherwise it stays active |
| WorkStartSafety.ThrowSettles | apps/api/src/personal-work-dispatch.ts:623-680 | an undisturbed catch block: a local refusal of an untouched start fails run and item, any other pending start is left uncertain and waiting for a person, and a start on record stays as it was |
| WorkStartSafety.AmbiguousThrowWaitsForAPerson | apps/api/src/personal-work-dispatch.ts:661-680 | after an ambiguous throw, over every later run without a dismissal, whoever dies or interferes, the run stays unconfirmed and unclosed, and no start of the item is claimed |
| WorkStartSafety.WriteIsRecorded | apps/api/src/personal-work-dispatch.ts:752-771 | a write that the channel took is on record as submitted, with its session |
| WorkStartSafety.RecordedStaysRecoverable | apps/api/src/personal-work-supervise.ts:125-148 | a start on record never needs confirmation again, over every run, so the supervisor may recover it while it is active |
| WorkStartSafety.ReturnSettles | apps/api/src/personal-work-dispatch.ts:685-706 | a start that returned, applied undisturbed, has the status of its handle, and is closed exactly if that is an end |
| WorkStartSafety.LateReturnChangesNothing | apps/api/src/personal-work-dispatch.ts:689-697 | one that a person dismissed or somebody settled meanwhile is left as it is |
| WorkStartSafety.ClaimsExactly | packages/authority-store/src/postgres/work.ts:278-310 | a claim begins a run exactly if the item is open, none of its runs is active and the recipe has room; otherwise it changes nothing |
| WorkStartSafety.AbandonedRunCallsNothing | apps/api/src/personal-work-dispatch.ts:730-748 | once the item is skipped or the run over, its dispatcher makes no further call and records nothing |
| WorkStartSafety.SkippedItemCancels | apps/api/src/personal-work-supervise.ts:352-372 | a handle that comes after the item was skipped cancels the run |
| WorkStartSafety.SupervisorSettles | apps/api/src/personal-work-supervise.ts:266-300 | the supervisor gives a watched run the status of its handle, and closes it exactly at an end |
| WorkStartSafety.DeathLeavesTheRows | apps/api/src/personal-work-dispatch.ts:534-728 | a process may die at any point of a start, and leaves the rows as they are |
| WorkStartSafety.InvNext | apps/api/src/personal-work-dispatch.ts:534-774 | every step of dispatchers, supervisor and people keeps the invariant |
| WorkStartSafety.DispatchOk | apps/api/src/personal-work-dispatch.ts:730-774 | each step of a dispatcher, the start context included, keeps its own run in order and touches no other |
| WorkStartSafety.WrittenOk | apps/api/src/personal-work-supervise.ts:266-376 | applying a handle, or dismissing, keeps the invariant |
| RecipeTurns.TurnsAreServedInOrder | apps/api/src/personal-work-dispatch.ts:406-429 | one turn at a time per recipe, in order of arrival, throwing bodies included |
| RecipeTurns.MayEnterExactlyInTurn | apps/api/src/personal-work-dispatch.ts:406-429 | a queued turn may enter if and only if all earlier turns of its recipe are over |
| RecipeTurns.StepKeepsOneStartExactly | apps/api/src/personal-work-dispatch.ts:503-532 | a step keeps to one start of an item, marked, if and only if it is not a capacity answer of one of its turns that finds the item marked |
| RecipeTurns.NoDoubleStart | apps/api/src/personal-work-dispatch.ts:503-532 | in runs without such an answer two starts of one item are never both under way, with or without a turn |
| RecipeTurns.OneRecipeNeverStartsTwice | apps/api/src/personal-work-dispatch.ts:406-532 | in every run in which an item is started only through turns of one recipe, two starts of it are never both under way |
| RecipeTurns.FreeTurnStarts | apps/api/src/personal-work-dispatch.ts:518-531 | the head of a lane whose item is not marked, with room, starts and marks it |
| RecipeTurns.RefusedTurnStartsNothing | apps/api/src/personal-work-dispatch.ts:518-531 | a turn that finds the mark, no room or an error is over and has started nothing |
| RecipeTurns.MarkedExactlyWhileUnderWay | apps/api/src/personal-work-dispatch.ts:481-500 | in runs without such an answer an item is marked exactly while a start of it is under way |
| RecipeTurns.OnlyOutsidersIntrude | apps/api/src/personal-work-dispatch.ts:522-531 | turns of one recipe never do this to each other: the other start has no turn, or one of another recipe |
| RecipeTurns.ManualStartsBreakTheTurn | apps/api/src/personal-work-dispatch.ts:508-511 | a concrete run with a manual start in which two are |
| RecipeTurns.LaneNext | apps/api/src/personal-work-dispatch.ts:406-429 | every step keeps the chain of turns linked and in order |
| RecipeOrder.InterleaveByRecipe | apps/api/src/personal-work-dispatch.ts:1008-1034 | terminates with the same items, each recipe's in its own order, and in every prefix no recipe more than one ahead of one that still waits |
| RecipeOrder.GroupByRecipe | apps/api/src/personal-work-dispatch.ts:1009-1018 | one queue for every recipe that occurs, holding exactly its items in order |
| RecipeOrder.InTurnIsFair | apps/api/src/personal-work-dispatch.ts:1019-1033 | at every point of a round the counts differ by at most one while items are left |
| RecipeOrder.SameItems | apps/api/src/personal-work-dispatch.ts:1008-1034 | lists that agree recipe by recipe are permutations of each other |
| InboxScan.SweepIsTheList | apps/api/src/personal-work-dispatch.ts:984-1006 | from no cursor, the pages up to the next empty cursor are exactly the list |
| InboxScan.StayingRowIsServed | apps/api/src/personal-work-dispatch.ts:984-1006 | from any cursor, a row that stays is served within twice the ticks that a sweep of n rows in pages of `limit` takes, whatever other rows of the n disappear |
| InboxScan.TwoSweepsServe | apps/api/src/personal-work-dispatch.ts:984-1006 | from any cursor and whatever else comes and goes, a row that stays is served by the second tick that ends with an empty cursor |
| InboxScan.TickComesNearer | apps/api/src/personal-work-dispatch.ts:984-1006 | each tick serves the row or takes a page of `limit` rows off what lies before it |
| InboxScan.NextStart | apps/api/src/personal-work-dispatch.ts:984-1006 | the next page starts where this one ended |
| InboxScan.AfterIsStrict | apps/api/src/personal-work-dispatch.ts:973-981 | the cursor's order is a strict total order |
| InboxScan.CycleIsTheList | apps/api/src/personal-work-dispatch.ts:1036-1044 | one cycle of ring pages covers a fixed list exactly once, in order |
| MessageKeys.KeyOrdersAsPair | apps/api/src/personal-conversation-context.service.ts:265-276 | the joined key orders messages by time and then id when the times contain no NUL |
| MessageKeys.KeysFollowTimesExactly | apps/api/src/personal-conversation-context.service.ts:265-276 | for two different times the keys are ordered as the times, for all ids, if and only if neither time followed by a NUL begins the other |
| MessageKeys.NulMakesKeysCollide | apps/api/src/personal-conversation-context.service.ts:265-267 | with a NUL in a time, two different messages share one key |
| MessageKeys.BoundaryNamesItsMessage | apps/api/src/personal-conversation-context.service.ts:278-288 | a boundary made from a message stands for its key if and only if trimming changes neither part |
| MessageKeys.TrailingSpaceNamesAnother | apps/api/src/personal-conversation-context.service.ts:416-421 | the boundary of a time that ends in a space stands for another key |
| Conversation.ThreadIsOrdered | apps/api/src/personal-conversation-context.service.ts:61-74 | a thread holds exactly its current events, ordered by time and id |
| Conversation.ReadMessages | apps/api/src/personal-conversation-context.service.ts:76-129 | the readable ones of the indexes become messages in order; kept and unreadable indexes are reported; every message is truthful |
| Conversation.MessagesAreTruthful | apps/api/src/personal-conversation-context.service.ts:88-119 | every message names as reply target the first event with its own source and its parent's external id, none exactly if there is no such event, and its content was decoded from bytes whose digest is its event's |
| Conversation.ReadableExactly | apps/api/src/personal-conversation-context.service.ts:88-98 | a body can be read exactly if it is stored under its own digest and decodes |
| Conversation.Window | apps/api/src/personal-conversation-context.service.ts:131-192 | refuses exactly the invalid requests and a changed epoch; otherwise the page next to the boundary, in message order, over unreadable messages; its messages are truthful |
| Conversation.FillPage | apps/api/src/personal-conversation-context.service.ts:168-179 | batch by batch, reads up to and including the readable candidate that fills the page |
| Conversation.PageEndAfterBatch | apps/api/src/personal-conversation-context.service.ts:170-178 | reading in batches no larger than the room left stops where reading one by one would |
| ConversationPaging.WalkReadsTheRange | apps/api/src/personal-conversation-context.service.ts:155-191 | asking again from the outermost message while there is more ends, and yields every readable message strictly inside the range exactly once and in order |
| ConversationPaging.NextRange | apps/api/src/personal-conversation-context.service.ts:158-167 | behind the outermost message lies exactly what the page has not read |
| ConversationPaging.PageFacts | apps/api/src/personal-conversation-context.service.ts:168-191 | a page with more behind it is full and ends at a readable message |
| ConversationContinuation.ContinuationIsComplete | apps/api/src/personal-context.service.ts:217-241 | paging out every interval of the continuation gives the whole readable thread in order with nothing twice, if and only if a message was kept or nothing was readable |
| ConversationContinuation.UnreadableSelectionLosesTheRest | apps/api/src/personal-context.service.ts:303-317 | a thread of two messages of which the selected one cannot be read: the continuation names nothing, and paging it out gives nothing although the other message is readable |
| ConversationContinuation.GapsFillTheMiddle | apps/api/src/personal-context.service.ts:1749-1773 | the kept messages with their named gaps paged in are the stretch from the first kept message to the last |
| ConversationContinuation.WalkBetween | apps/api/src/personal-context.service.ts:1765-1769 | paging a gap yields the readable messages between its two ends |
| ConversationContinuation.NothingSkipped | apps/api/src/personal-context.service.ts:219-224 | a stretch that is not named holds only unreadable messages |
| ConversationContinuation.ContextGaps | apps/api/src/personal-context.service.ts:1749-1773 | a gap for every pair of neighbouring kept messages with something between them that is not known to be unreadable |
| ConversationContinuation.ReadableBetween | apps/api/src/personal-context.service.ts:219-224 | true exactly if an index of the stretch is not known to be unreadable |
| ConversationContinuation.ReadSelected | apps/api/src/personal-context.service.ts:281-317 | the messages and the continuation of a bounded read |
| InboxHeads.PartitionLiveInboxHeads | apps/api/src/personal-inbox-heads.ts:262-309 | the newest live heads, the pinned and the working ones, and when older heads are announced |
| InboxHeads.HeadsNextBefore | apps/api/src/personal-inbox-heads.ts:216-228 | the cursor is the oldest head of the page, none if the page is empty |
| InboxHeads.SplitExactly | apps/api/src/personal-inbox-heads.ts:230-250 | a conversation is left out of the page exactly if it is pinned on this very list, or, on the visible list, has work under way |
| InboxHeads.AllLive | apps/api/src/personal-inbox-heads.ts:252-309 | a page has only heads that are not left out, and without a limit all of those before the cursor |
| InboxHeads.LivePage | apps/api/src/personal-inbox.service.ts:1253-1309 | fetching, selecting, partitioning and the cursor together are the specified page |
| InboxPaging.OverfetchIsFilterThenTake | apps/api/src/personal-inbox-heads.ts:252-260 | while the cap does not bind, the page is the newest of the filtered full list |
| InboxPaging.NothingOlderMeansAll | apps/api/src/personal-inbox-heads.ts:303-307 | no older heads announced means that no live head was left behind |
| InboxPaging.NextPageStartsBehind | apps/api/src/personal-inbox-heads.ts:216-228 | behind the cursor lie exactly the live heads the page does not hold |
| InboxPaging.PagesAreCompleteWithoutWall | apps/api/src/personal-inbox-heads.ts:216-309 | paging visits every live head exactly once, in order, if and only if no wall of excluded heads as long as a fetch stands above one |
| InboxPaging.PagesAreCompleteBelowTheCap | apps/api/src/personal-inbox-heads.ts:252-309 | so it does whenever the page cap does not bind |
| InboxPaging.FullOfExcludedHeadsIsStuck | apps/api/src/personal-inbox-heads.ts:303-307 | a fetch of excluded heads only gives an empty page that announces older heads and has no cursor |
| InboxPaging.WallHidesTheLiveHead | apps/api/src/personal-inbox-heads.ts:252-309 | a list of 201 heads, two hundred of them excluded: an empty page, older heads announced, no cursor, and paging never comes to the live head |
| InboxPaging.AtMostExcluded | apps/api/src/personal-inbox-heads.ts:230-250 | excluded conversations take at most as many heads as there are of them |
| ThreadTail.ReadThreadTail | apps/api/src/personal-work-channel.ts:596-618 | the last `limit` rows in order, and overflow exactly if there are more, for every thread length; the loop ends |
| StreamLocks.JobsTakeTurns | apps/api/src/personal-connector.service.ts:795-826 | on a stream where no job was called ahead of an unfinished one, jobs never overlap and begin in the order of their calls, failures included |
| StreamLocks.BusyWhileQueuedOrRunning | apps/api/src/personal-connector.service.ts:795-826 | on such a stream the lock's entry is present while any job is queued or running |
| StreamLocks.MayBeginExactlyInTurn | apps/api/src/personal-connector.service.ts:805-816 | on such a stream a queued job may begin if and only if all its earlier jobs have ended |
| StreamLocks.HeadRunsAndLeavesIdle | apps/api/src/personal-connector.service.ts:795-826 | on such a stream the head of the chain runs and ends, failing or not, and after its last job the stream is idle |
| StreamLocks.CallJoinsExactly | apps/api/src/personal-connector.service.ts:795-812 | a call joins the chain exactly if it need not skip, behind the last job unless it goes ahead |
| StreamLocks.StepKeepsChainExactly | apps/api/src/personal-connector.service.ts:795-826 | a step keeps a stream's chain if and only if it does not call a job ahead of one of the stream that has not ended |
| StreamLocks.OvertakesExactlyIfOverlapFollows | apps/api/src/personal-connector.service.ts:795-826 | a call overtakes an unfinished job if and only if some continuation without further overtaking runs two jobs of the stream at once |
| StreamLocks.AheadOverlaps | apps/api/src/personal-connector.service.ts:805-807 | a concrete run in which a job called with `ahead` makes two ordinary jobs overlap |
| WorkerPool.EachIndexAtMostOnce | apps/api/src/personal-connector-poll.ts:227-248 | every index is given out and finished at most once, with at most `limit` under way |
| WorkerPool.EachIndexExactlyOnce | apps/api/src/personal-connector-poll.ts:227-248 | when every worker has ended without a throw, every index was worked on exactly once |
| MaintenanceHold.TicksDoNotOverlap | apps/api/src/personal-connector.service.ts:459-564 | at most one of the three ticks runs, whoever pauses and resumes |
| MaintenanceHold.TickStartsExactly | apps/api/src/personal-connector.service.ts:459-564 | a tick starts exactly if there is no hold and no other tick |
| MaintenanceHold.PauseReturnsExactly | apps/api/src/personal-connector.service.ts:220-253 | a waiting pauser comes to work exactly when all is quiet, and gives up, clearing the hold, exactly at its timeout otherwise |
| MaintenanceHold.ClearStopsFirst | apps/api/src/personal-connector.service.ts:220-249 | a pause raises the hold at once, and one for a store clear waits for quiet only after the installations were stopped |
| MaintenanceHold.StepKeepsHoldExactly | apps/api/src/personal-connector.service.ts:220-253 | a step keeps the hold up for everybody who pauses if and only if it is not a resume or a failed pause while another pauser is not done |
| MaintenanceHold.ReleasesExactlyIfTickFollows | apps/api/src/personal-connector.service.ts:220-253 | a step releases another's pause if and only if some continuation without a further such release runs a tick beside a pauser at work |
| MaintenanceHold.NoTickWhilePaused | apps/api/src/personal-connector.service.ts:220-253 | in runs without such a release no tick runs between the return of a pause and its resume |
| MaintenanceHold.ResumeClearsTheOthersHold | apps/api/src/personal-store-maintenance.service.ts:71-83 | a concrete run in which store maintenance resumes and a tick runs beside a store clear |
| MaintenanceHold.TimeoutClearsTheOthersHold | apps/api/src/personal-connector.service.ts:220-229 | a concrete run in which a later pause times out and a tick runs beside the earlier one |
| PollItem.Streams.PassGates | apps/api/src/personal-connector-due-work.ts:418-545 | the gates in front of a stream: a row goes on exactly if all allow it; otherwise it is settled by the gate that stopped it, or a read or write threw |
| PollItem.Streams.TryStream | apps/api/src/personal-connector-due-work.ts:564-719 | the try block and its catch: skipped when busy, released when stale, otherwise settled by the poll or as a failure; it throws only if the failure cannot be remembered |
| PollItem.Streams.Poll | apps/api/src/personal-connector-due-work.ts:418-725 | one row: exactly when it is due at once, deferred, succeeded, cancelled, failed or polled, and exactly when the poll throws; put back as live work exactly if found stale; counted only when remembered, and its stream no longer marked as pulled |
| PollItem.VerdictIsRight | apps/api/src/personal-connector-due-work.ts:418-719 | each settlement is given exactly under its own condition on the lane and on what the awaits answered |
| PollItem.ThrowsExactly | apps/api/src/personal-connector-due-work.ts:418-725 | exactly which awaits make the poll throw |
| PollItem.PollsExactly | apps/api/src/personal-connector-due-work.ts:418-600 | a stream is really polled exactly if every gate lets the row through and its lock need not be skipped |
| PollItem.Streams.ReleaseStaleInteractiveClaim | apps/api/src/personal-connector-due-work.ts:759-784 | the claim is cancelled before the row is put back, so a throw in between leaves it settled |
| DueWork.ExecuteClaimedDueWork | apps/api/src/personal-connector-due-work.ts:249-336 | every claimed row is settled when the batch is over: by the right settlement of its own branch, or by the catch block, and that only after a real error of its installation; a failed census or read fails rows, a deadline leaves them due at once, and only history without duty counts as succeeded |
| DueWork.RunGroup | apps/api/src/personal-connector-due-work.ts:269-328 | one installation: census, streams, and a catch block that settles what has no settlement; polls that finish late change nothing |
| DueWork.PollStreams | apps/api/src/personal-connector-due-work.ts:339-743 | live and history pools together, then media: without an error every row has its own settlement, and a reported throw comes from a poll that throws |
| DueWork.MediaTurn | apps/api/src/personal-connector-due-work.ts:701-717 | the media rows are deferred when media is not polled, otherwise a pool settles them by their own polls |
| DueWork.RunSteps | apps/api/src/personal-connector-poll.ts:227-248 | any interleaving of the pools' workers, of which one that throws leaves the others running, settles rows by their own polls only |
| DueWork.LateChangesNothing | apps/api/src/personal-connector-due-work.ts:309-327 | whatever is settled after the catch block leaves every row as it is |
| DueWork.FinishLate | apps/api/src/personal-connector-due-work.ts:697-717 | after the catch block the workers go on, and the media rows may only then be deferred or get their pool; no row changes |
| DueWork.StoppedMeansSettled | apps/api/src/personal-connector-poll.ts:227-248 | a pool whose workers have all stopped has settled every row |
| DueWork.GroupElements | apps/api/src/personal-connector-due-work.ts:259-264 | grouping by installation puts every claimed row in exactly its group |
| FocusSlot.NeverRevives | apps/api/src/personal-connector-live.ts:236-331 | a generation that is not alive is never alive again, whatever later clicks and old finalizers do |
| FocusSlot.NewestWins | apps/api/src/personal-connector-live.ts:301-327 | a new job has a larger generation, is alive, and every earlier one is dead for good |
| FocusSlot.NoJobIsForgotten | apps/api/src/personal-connector-live.ts:301-327 | over every run, each generation ever given out was told to stop, has finished, or holds the slot |
| FocusSlot.EndedExactly | apps/api/src/personal-connector-live.ts:236-331 | exactly which actions end a living job; another job's finalizer is not among them |
| FocusSlot.OtherThreadsStayQuiet | apps/api/src/personal-connector-live.ts:169-179 | after noting the interactive thread no other thread's job is alive until the focus is taken for that thread |
| FocusSlot.CutOffExactly | apps/api/src/personal-connector-live.ts:236-306 | exactly which living job a taker cuts off, by thread and kind |
| FocusSlot.TakenFocusIsOnTheThread | apps/api/src/personal-connector-live.ts:236-327 | after taking the focus a living job of that thread holds the slot |
| FocusSlot.GivenBackExactly | apps/api/src/personal-connector-live.ts:169-331 | the slot is given back exactly by its job's finalizer, the note of another thread, and a reset |
| FocusSlot.TakesRightly | apps/api/src/personal-connector-live.ts:236-327 | by the held slot's thread, kind and life: who joins the running job, who waits its turn, who borrows its signal, and who gets a new job |
| FocusSlot.DeferredTakesExactly | apps/api/src/personal-connector-live.ts:274-286 | a taker that waited its turn takes the focus exactly if nobody else did since |
| FocusSlot.Focus.TakeFocus | apps/api/src/personal-connector-live.ts:236-327 | the slot, the counter, the aborted signals and what the taker gets |

## Left out

- Reply: the in-process map that joins concurrent calls of one process (dropping it only adds runs), trimming and de-duplication of channel message ids, labels, quoting and the follow-up pull.
- Reply: hashing is an injective `Digest`, and ingest and alias binding are steps that may fail.
- Version switch: the regular expressions for package names and versions are only required to be non-empty strings, the download and its verification, the job list's contents, and the removal of a marked package at the next start.
- Version switch: the archive can hold more than three versions after a crash between the last rename and the pruning; only a completed switch bounds it.
- Leader: timers. The lock's two keys are one lock, and a session's unlock and end are separate steps.
- Starting work: composing the conversation, capacity counts (an unknown answer here), the time-based retry schedule, and the attachment of waits. Concurrent dispatchers are modelled on values, so no class mirrors the dispatcher object.
- Starting work: a dispatcher whose executor keeps calling after a failed context call, or raises a local refusal after the channel accepted, is outside the stated assumptions.
- Conversation: blob transport, the labels and transcript of answers, and how a bounded read selects its indexes; any rising selection is covered.
- ConversationContinuation.ContinuationIsComplete: asks for a thread whose times and ids survive trimming, because otherwise boundaries do not name their messages.
- Inbox list: the store is asked for heads in order, views are not decorated, the pages of one walk see one unchanged list, and the extra loads of pinned and working heads are not modelled.
- Due work: installations of one batch are handled one after the other, since their rows are disjoint; a poll's own steps are not interleaved with those of other rows. A row claimed again by the same process while an old poll of it is still running is not modelled.
- Due work: heat, idle times and error codes of a settlement, the pace books, and pressure flags.
- Focus: the kick of a new live page after a scroll, cooldowns and the pulling sets.
- Ticks and maintenance hold: the gates of background release and pressure in front of a tick, and the jobs that look at the hold later.
