# Supervised agents: parking, approval and waking, verified

This project is a Dafny model of the framework's task machine and of five self-contained algorithms around
it, with proofs of what they promise over whole runs. `dafny verify dfyconfig.toml` checks it.

A task runs provider rounds. Each round emits an ordered list of intents; an intent is denied, escalated to
a human, sent, or delegated to a peer. A task that waits for a human or a peer *parks*: its execution ends
and its continuation lives in a task record. A verdict, a watcher's notice or a restart re-enters it.

## How the modules fit together

- `Basics`, `BoundedContext`, `Tasks`, `RiskPolicy`: the data, the transcript cut to a budget, the policy.
- `Machine`: what one execution makes of a record, as functions; `Supervisors` holds the class whose
  methods rewrite the record step by step, save it, mint and spend tokens and arm watchers, each proved
  against those functions. `TaskStore`, `WatcherTable` and `RiskPolicy` hold the other classes.
- `Histories`, `Soundness`, `TaskTheorems`: what can be read off a task's effect history, the invariant of
  every rest point, and the theorems about whole runs of one task.
- `TurnReading`, `PolicyTheorems`, `PeerSeen`, `Openings`: what a turn asks for, position by position in the
  provider's own list; what the policy's fields say of every effect; what the awaited peer was last seen in;
  what a task keeps of the message that opened it.
- `StraightLine`, `Transparency`: a second, independent description of a task as a program that simply
  blocks for every verdict and every peer, with no record and no resume path, and the proof that the parking
  machine computes exactly what that program computes.
- `LeftBehind`: what a finished task's record still holds. `ProviderText`, `ProviderInputs`: the text a
  provider receives against the budget, for one transcript and over whole runs.
- `FollowUps`: runs of a whole task file with follow-ups. `Network`: many supervisors waiting for each other.
- `WakeUp`, `PeerWatch`: watchers, executions, cancellations and recovery interleaved step by step.
- `IntentLedger`, `PiStream`, `ToolNames`, `TaskForest`: the MCP invocation ledger, pi's bounded stream
  parser, pi's flat tool namespace, the task forest of the user interface.

## What is assumed of the surroundings

- Provider, gateway and delegator are arbitrary functions of the task's id and of everything it has done so
  far, so they may answer every call differently. What reading a peer answers is a parameter of each message.
- `Faithful`: the delegator names every peer task it opens (core/port/delegator.go:27-40), and no policy
  escalates the empty action kind. `TaskTheorems.RestStatesIff` and `UnfaithfulTasksAreLost` show what goes
  wrong over whole runs without them. The watcher-table clauses of the class methods need the first only.
- a2asrv runs one execution per task, delivers no message to a terminal task, cancels no terminal task, and
  names new tasks freshly. A cancel may run beside a live execution of its task (transport/a2a/cancel.go:18-26)
  and does so in `WakeUp`. The store keeps what is saved.
- In `WakeUp` a delegator and a resumer are configured; `PeerWatch` covers their absence.
- A restart happens while no execution is live. Random tokens are fresh: a counter stands for them.
- Time stamps are erased. Texts are sequences of bytes, as the source measures them; tool and
  server names are sequences of characters, as the source replaces them.

## Where the code falls short of a natural statement

- `WakeUp.RecoveryRaceLosesWakeUp`: the server opens before recovery runs (transport/a2a/server.go:176-179
  and 207), so a message can move a task on to another peer while recovery still holds the old list; the
  stale re-arm then replaces the right watcher and the task is never woken. `RearmKeepsInvIff` is the exact
  condition for one re-arm, `ShelteredIsSafe` shows that opening the server after recovery suffices.
- `WakeUp.CancelledNoticeCanBeLate`, `OverrunNoticeCanBeLate`, `PeerWatch.LateNoticeRejects`: the comment at watcher.go:138-139 says a
  watcher never resumes a human escalation. The check and the delivery are two steps and a cancelled watcher
  still delivers, so its notice can reach a task that has escalated since, where anything but `approve`
  rejects the task. Even an uncancelled watcher can be late, when recovery arms it between the stop that ends
  a wait (core/supervisor/supervisor.go:468) and the save (480). `UncancelledNoticeIsTimely` shows over all
  runs that there is no third way, `RearmKeepsUnlistedIff` is the exact condition for one re-arm.
- `ProviderText.TextFitsIff`, `ProviderInputs.CallsExceedByAtMost`, `RunReachesExcess`: the budget bounds the
  contents of the messages; the text the provider receives is longer by its role prefixes and line breaks, over
  every run by less than 9.5 bytes a message, and that is reached.
- `IntentLedger.DrainMissesCall`, `DrainMissesNothingIff`: a call between resolving its token and recording is
  acknowledged but not drained.
- `WakeUp.CancelledRecordComesBack`, `DeletedForGoodIff`: a cancel deletes the record beside a live execution,
  whose next save brings it back.
- `PiStream.UnfinishedLineIsLost`, `EveryByteIsReadIff`: a last line that ends the stream without a newline
  just as the reader's buffer is full is never decoded.
- `LeftBehind.FinishedHoldsIntentIff`, `RejectionLeavesIntents`, `FailedApprovalLeavesIntents`: a rejected task,
  and one whose approved action fails, keep the pending intent and the queue behind it on the terminal record,
  and the task list still carries its kind (cmd/company/wire.go:139, ui/handler.go:25). No other end does.

Where the repository's texts disagree with the code, the code is followed: README.md:33-36 calls tasks
single-shot and chained approval missing; the comment on `addRaw` (adapters/pi/adapter.go:518) says the raw
output keeps its newlines; the comment on `Turns` in core/supervisor/store.go says nothing writes it.

## Model

| member | source | states |
|---|---|---|
| Transparency.ParkingIsInvisible | core/supervisor/supervisor.go:310-750 | For every schedule of verdicts, wake-ups, early messages, failed reads and restarts, output, transcript, delegations, history and final state are those of a program that blocks for each verdict and peer |
| Transparency.StepAgrees | core/supervisor/supervisor.go:310-485 | One message to a task at rest moves the blocking program by exactly the answer it brings; one that brings none, or a restart, is a stutter |
| Transparency.PeerMessageTells | core/supervisor/supervisor.go:415-485 | A message to a peer-parked task either changes nothing but the approval flag, or ends the wait as the blocking program's wait ends |
| PeerSeen.FlagIsWhatWasSeen | core/supervisor/supervisor.go:441-464 | Over every run a record parked on a peer is flagged as awaiting the peer's human exactly when that is the state the peer was last seen in, by the opening's reply or a later reading; any other record says nothing of a peer |
| TurnReading.TurnIntentsAreRead | core/supervisor/supervisor.go:933-963 | A turn's intents are, in the order of the provider's own list, exactly its entries that are not a finish signal, each with its kind and its payload's body and target |
| TurnReading.AnswerIsRead | core/supervisor/supervisor.go:575-592 | A finish counts exactly if the list holds one and no delegation; its answer is the body of the first, and the output is that body unless it is empty, else the answer's text |
| TurnReading.ReadingIsExact | core/supervisor/supervisor.go:575-592 | Only one finish and one output fit an answer so |
| PolicyTheorems.EveryEffectIsJustified | core/policy/engine.go:57-77 | Over every run a token is spent only on a kind the policy declares and opens to the role, a risky one directly behind the approval of that very intent, and each send and delegation directly behind its token |
| PolicyTheorems.WalkStopsByPolicy | core/supervisor/supervisor.go:678-747 | A walk carries out its intents one by one and ends REJECTED exactly at one undeclared or closed to the role, parks for a human exactly at an open risky one, else stops only at a failed action or a wait |
| TaskTheorems.RestStates | core/supervisor/supervisor.go:328-346 | At rest a task is terminal or parked on exactly one of a verdict and a peer; a completed record holds nothing to resume, so the re-execute branch is never taken |
| TaskTheorems.IntentsAreConserved | core/supervisor/supervisor.go:669-750 | At every rest point the current turn's list, as the provider gave it, is executed, then queued, then dropped, in order; earlier turns ran entirely; only rejection or failure drops; completion ran everything once |
| TaskTheorems.CompletionReadsEveryPeer | core/supervisor/supervisor.go:576-612 | The task's own turns match user (assistant peer*)*, a finish flag on the record means, at every rest point, no delegation in the turn, and a completed task ends on the provider's last answer with the output that answer's own list says |
| TaskTheorems.OnlyApprovedRisksRun | core/supervisor/supervisor.go:348-401 | The risky intents carried out over a run are exactly the pending intents released by messages reading "approve", in order, and every effect follows the token spent on it |
| TaskTheorems.OneApprovalOneRisk | core/supervisor/supervisor.go:387-401 | One message carries out exactly the risky intent it releases; a second risky one parks again |
| TaskTheorems.RoundsAreCapped | core/supervisor/supervisor.go:559-625 | Provider calls never exceed the cap over all parks and resumes of a task; inherited rounds do not count |
| TaskTheorems.DelegationsAreLedgered | core/supervisor/store.go:114-122 | Delegations are the peer tasks opened, in order; short of failure as many as peer turns plus the one awaited, which stands last |
| TaskTheorems.RestStatesIff | core/supervisor/supervisor.go:328-346 | With named peers, tasks rest properly under every provider exactly when the policy does not escalate the empty kind |
| TaskTheorems.UnfaithfulTasksAreLost | core/supervisor/supervisor.go:334-346 | With the empty kind escalated, or delegation permitted to a delegator that names no task, some task's record says over its whole run neither whom nor what it waits for, and each message asks the provider once more without any cap |
| TaskTheorems.EmptyKindForgetsTheIntent | core/supervisor/supervisor.go:335-346 | With the empty kind escalated, even "approve" re-runs the provider and releases nothing |
| TaskTheorems.StepGrows | core/supervisor/supervisor.go:310-485 | A message only adds to transcript, ledger and history, changes no identity field, and consumes one approval at most |
| Soundness.RunIsSound | core/supervisor/supervisor.go:310-750 | The rest-point invariant (queue, transcript, ledger, approvals, rounds) holds after every run |
| Soundness.StepKeeps | core/supervisor/supervisor.go:310-485 | Every message keeps the rest-point invariant |
| Soundness.IntentKeeps | core/supervisor/supervisor.go:678-747 | Denying, escalating or performing one intent keeps the mid-turn invariant or reaches a sound rest point |
| Soundness.PerformKeeps | core/supervisor/supervisor.go:724-746 | Performing a permitted or approved intent keeps it, whether it fails, parks or succeeds |
| Soundness.HeardIsMidTurn | core/supervisor/supervisor.go:465-484 | Taking in the awaited peer's result puts the task back in its turn with the queue it parked with |
| Soundness.ApprovalPerforms | core/supervisor/supervisor.go:362-409 | Approving is performing the pending intent on the idle record and running what is queued behind it |
| LeftBehind.FinishedHoldsIntentIff | core/supervisor/supervisor.go:348-409 | Over whole runs a finished record holds a pending intent exactly when some verdict did not go through, a rejection or an approval whose action failed; finished in any other way it holds no intent, queue or peer |
| LeftBehind.LeavesBehindIff | core/supervisor/supervisor.go:348-409 | A message that finishes a parked task leaves exactly its pending intent and queue on the record if it is such a verdict, and clears them otherwise |
| LeftBehind.RejectionLeavesIntents | core/supervisor/supervisor.go:352-360 | A concrete run: a task that escalates the first of two intents is rejected and keeps both |
| LeftBehind.FailedApprovalLeavesIntents | core/supervisor/supervisor.go:370-377 | A concrete run: its approved action fails and the record keeps both |
| Soundness.FinishNeverDelegates | core/supervisor/supervisor.go:581-592 | A finish signal that is kept belongs to a turn without delegation |
| Histories.ActExtends | core/supervisor/supervisor.go:786-840 | Acting spends one token on exactly the intent and opens at most the peer task its outcome names |
| Machine.RoundDecreases | core/supervisor/supervisor.go:559-625 | Each further round leaves fewer rounds, so every execution ends |
| Machine.WalkKeepsRounds | core/supervisor/supervisor.go:638-654 | Walking intents adds peer turns only and spends no round |
| StraightLine.HandleAllKeepsRounds | core/supervisor/supervisor.go:638-654 | The same for the blocking program |
| Openings.EveryTaskIsAsOpened | core/supervisor/supervisor.go:262-306 | Over every run of a task file each record keeps its opening message's id, text, context and reference; its own turns start with that text, and without references so does its first provider call |
| Openings.OpensAsAsked | core/supervisor/supervisor.go:492-525 | A follow-up inherits the followed transcript, a note on how that ended and, unless given one, its context; it is refused, with the reason as output, exactly when its references are not one known, finished task |
| FollowUps.LineageHolds | core/supervisor/supervisor.go:492-525 | Over every run of a task file each ancestor's transcript is a prefix of its descendant's, links form no circle, and own rounds start behind the inherited turns |
| FollowUps.FinishedIsFinal | core/supervisor/supervisor.go:283-304 | A finished record, hence a followed one, never changes again |
| FollowUps.MoveKeeps | core/supervisor/supervisor.go:232-306 | Opening, resuming or cancelling a task keeps ids unique, records sound and links to earlier, finished tasks |
| FollowUps.OpenedRecord | core/supervisor/supervisor.go:492-525 | A new task rests soundly under its own id and extends what it inherits |
| Supervisors.Supervisor.Execute | core/supervisor/supervisor.go:232-306 | A new task's final record and history are those of the machine, an admitted one is saved as WORKING before anything runs, its watcher is armed exactly if it parks on a named peer, and a refused follow-up fails |
| Supervisors.Supervisor.ExecuteResume | core/supervisor/supervisor.go:310-410 | A message ends with the record and history the machine says, saved, leaving no token outstanding; the watcher is stopped unless the wait goes on, and armed exactly if the task parks on a named peer |
| Supervisors.Supervisor.ExecuteVerdict | core/supervisor/supervisor.go:348-409 | Anything but "approve" rejects; "approve" acts on the pending intent and goes on |
| Supervisors.Supervisor.ResumeFromPeer | core/supervisor/supervisor.go:415-485 | Only the peer's state as read now releases the task; a failed read or a running peer parks it again |
| Supervisors.Supervisor.JudgePeer | core/supervisor/supervisor.go:441-484 | What the peer reads as decides: fail, park again, or release |
| Supervisors.Supervisor.Release | core/supervisor/supervisor.go:465-484 | The watcher is stopped, the heard result is saved as WORKING, then the parked turn goes on |
| Supervisors.Supervisor.RunRounds | core/supervisor/supervisor.go:550-634 | The loop ends with the record and history of the recursive rounds, entered mid-turn or not |
| Supervisors.Supervisor.CloseTurn | core/supervisor/supervisor.go:597-633 | The end of a turn: complete, give up at the cap, or go on, and exactly the records saved on the way |
| Supervisors.Supervisor.Receive | core/supervisor/supervisor.go:575-592 | The answer becomes the turn, a finish next to a delegation is discarded, a non-empty answer replaces the output |
| Supervisors.Supervisor.InputFor | core/supervisor/supervisor.go:561-567 | The first call gets the plain input, later ones the bounded transcript |
| Supervisors.Supervisor.RunIntents | core/supervisor/supervisor.go:669-750 | The walk in emission order equals the machine's; a halt has saved the record and every minted token is spent |
| Supervisors.Supervisor.PerformIntent | core/supervisor/supervisor.go:724-746 | A permitted intent spends its token and fails, parks or goes on |
| Supervisors.Supervisor.ExecuteAction | core/supervisor/supervisor.go:786-800 | Nothing happens without an outstanding token, and the token is consumed |
| Supervisors.Supervisor.ExecuteDelegation | core/supervisor/supervisor.go:815-840 | One peer task at most is opened and its state mapped onto this task's fate |
| Supervisors.Supervisor.SaveAs | core/supervisor/watcher.go:60-68 | A save is made only in a phase in which the interleaving model's execution makes one, and moves it on alike |
| Supervisors.Supervisor.StopFor | core/supervisor/supervisor.go:465-468 | A watcher is stopped only on waking, before any save |
| Supervisors.Supervisor.Repark | core/supervisor/watcher.go:60-68 | The record is saved as INPUT_REQUIRED and a watcher armed for it |
| Supervisors.Supervisor.SeedFrom | core/supervisor/supervisor.go:492-525 | Exactly one known, terminal task may be followed; its chain's transcript and outcome are inherited |
| Supervisors.Supervisor.Cancel | core/supervisor/supervisor.go:883-889 | The watcher is stopped and the record deleted |
| Supervisors.Supervisor.RecoverOpenTasks | core/supervisor/supervisor.go:201-210 | With a resumer, whatever the table holds, it is re-armed for the peer-parked records in order; without one nothing happens |
| Supervisors.RecoveryArmsEveryWait | core/supervisor/supervisor.go:201-210 | That leaves exactly the peer-parked tasks with a fresh, uncancelled watcher of their own and every other entry as it was; once stopped nothing is armed |
| Supervisors.SplitFinishTask | core/supervisor/supervisor.go:951-963 | The actions in order, and the answer of the first finish signal |
| Supervisors.AnyDelegation | core/supervisor/supervisor.go:966-973 | True exactly when some action delegates |
| Supervisors.PendingIntents | core/supervisor/supervisor.go:933-946 | The turn's actions in their persisted form, in order |
| Supervisors.SpentRounds | core/supervisor/supervisor.go:638-654 | The provider turns after the inherited ones |
| TaskStore.Store.Save | core/supervisor/store.go:190-206 | Replaces the task's record in place or appends it |
| TaskStore.Store.Load | core/supervisor/store.go:210-224 | The record of that id, if any |
| TaskStore.Store.Delete | core/supervisor/store.go:235-253 | Removes the id's record and keeps the others in order |
| TaskStore.Compact | core/supervisor/store.go:241-252 | In-place compaction keeps exactly the other tasks' records, in order |
| TaskStore.SavedFinds | core/supervisor/store.go:190-224 | A load after a save finds the saved record under its id and the old one under any other |
| TaskStore.SavedKeepsPlaces | core/supervisor/store.go:190-206 | A saved new task goes to the end; a saved known task leaves every record in its place |
| TaskStore.SaveTwice | core/supervisor/store.go:190-206 | Only the last of two saves of a task is seen |
| TaskStore.WithoutFinds | core/supervisor/store.go:235-253 | After a delete the other records, and only they, are left |
| RiskPolicy.TokensWorkOnce | core/policy/token.go:23-48 | After any operations a token is accepted if and only if this store minted it and it has not been presented since |
| RiskPolicy.Engine.ClassifyIntent | core/policy/engine.go:57-77 | Capability before risk; only a permit mints a token |
| RiskPolicy.Engine.Validate | core/policy/token.go:39-48 | Accepts exactly outstanding tokens and consumes them |
| RiskPolicy.Contains | core/policy/engine.go:92-99 | Membership |
| WatcherTable.Watchers.Arm | core/supervisor/watcher.go:74-102 | Replaces and cancels the earlier watcher; once stopped starts nothing |
| WatcherTable.Watchers.Stop | core/supervisor/watcher.go:172-179 | Cancels and removes the task's entry |
| WatcherTable.Watchers.CancelAll | core/supervisor/watcher.go:182-190 | Cancels every entry and stops the table for good |
| WatcherTable.Watchers.Leave | core/supervisor/watcher.go:93-99 | A dying watcher removes its own entry, never its successor's |
| WakeUp.NoLostWakeUp | core/supervisor/watcher.go:58-168 | Under every interleaving, cancels beside live executions and retried deliveries included, a task parked on a peer with no execution or cancel under way has a live, uncancelled watcher for exactly that wait, unless recovery re-arms from an outdated list |
| WakeUp.StepKeepsInv | core/supervisor/watcher.go:74-196 | Every step but a stale re-arm keeps table, phases and coverage |
| WakeUp.RearmKeepsInvIff | core/supervisor/supervisor.go:201-210 | A recovery step keeps the guarantee exactly when what it read is not out of date |
| WakeUp.TableIsSound | core/supervisor/watcher.go:74-102 | At most one live uncancelled watcher per task, entries are live and uncancelled, none after the stop, the wait group counts the goroutines, and no dying watcher removes another's entry |
| WakeUp.WatchedWakes | core/supervisor/watcher.go:140-158 | A covering watcher can find the task parked and resume it |
| WakeUp.GivesUpOnlyIf | core/supervisor/watcher.go:122-159 | A watcher gives up only if cancelled while polling, if its task is no longer parked on its peer, or once its notice is delivered; a failed look or notice is tried again |
| WakeUp.ShelteredIsSafe | transport/a2a/server.go:176-207 | Were the server opened after recovery, no list would ever be out of date and no wait overrun |
| WakeUp.RecoveryRaceLosesWakeUp | transport/a2a/server.go:176-207 | A concrete run in which recovery replaces the right watcher and the task stays parked unwatched |
| WakeUp.UncancelledNoticeIsTimely | core/supervisor/watcher.go:138-156 | Over all runs in which recovery never arms between the stop and the save that end a wait, an uncancelled watcher's notice reaches the very wait it watches |
| WakeUp.DeletedForGoodIff | core/supervisor/supervisor.go:883-889 | A cancelled task's record stays deleted under every continuation exactly when no execution was left that had yet to save |
| WakeUp.CancelledRecordComesBack | core/supervisor/supervisor.go:883-889 | A concrete run in which a cancelled task's record is back |
| WakeUp.RearmKeepsUnlistedIff | core/supervisor/supervisor.go:465-481 | A recovery step leaves a wait that is being ended without an entry exactly when it does not overrun it |
| WakeUp.OverrunNoticeCanBeLate | core/supervisor/supervisor.go:465-481 | A concrete run, with no outdated list, in which such a re-arm makes an uncancelled watcher's notice reach a task that waits for its human |
| WakeUp.CancelledNoticeCanBeLate | core/supervisor/watcher.go:138-156 | A concrete run in which a cancelled watcher's notice reaches a task that waits for its human |
| PeerWatch.WakesIffItMatters | core/supervisor/watcher.go:128-156 | A watcher gives up only without delegator or resumer, wakes only with a message that changes the task, and when it waits an update would change nothing, unless the peer's state breaks the contract |
| PeerWatch.TimesOutIff | core/supervisor/watcher.go:140-150 | A timeout is reported exactly when the deadline has passed on a peer that runs and was not seen escalated; the watcher leaves exactly when the wait is over |
| PeerWatch.NoticesNeverApprove | core/supervisor/watcher.go:137-150 | No notice reads as an approval, and a peer waiting on its own human never times out |
| PeerWatch.LateNoticeRejects | core/supervisor/supervisor.go:348-360 | A message to a human-parked task rejects it exactly when it is not "approve", a watcher's notice included |
| Network.NoCircularWait | core/supervisor/supervisor.go:815-880 | Tasks never wait for each other in a circle, whichever roles delegate to which |
| Network.EveryWaitEnds | core/supervisor/watcher.go:43-56 | Every wait chain ends at a running, human-parked or finished task |
| Network.SomeoneCanMove | core/supervisor/watcher.go:112-160 | While a task is unfinished one is running and can settle, waits for a human, or awaits a finished peer, and a step of it is enabled that changes the company |
| Network.FinishedPeerEndsWait | core/supervisor/supervisor.go:415-485 | Whatever the awaited peer ended in, waking the task takes it to a rest point past that wait, where it can settle in any state of the company in which it runs and has opened the peers it names |
| Network.FinishedPeerReleases | core/supervisor/supervisor.go:415-485 | Waking a task whose peer has finished is no stutter |
| BoundedContext.TruncationIsOptimal | core/supervisor/context.go:16-65 | A cut transcript is the marker and the longest suffix that fits; the budget holds whenever it pays for the marker |
| BoundedContext.AssembleBoundedContext | core/supervisor/context.go:16-65 | The backward walk computes exactly that assembly |
| BoundedContext.FlattenContext | core/supervisor/context.go:68-82 | The flat text is one "role: content" line per message, separated by newlines |
| BoundedContext.LinesNameRoles | core/supervisor/context.go:73-80 | Each line starts with the name of its message's role, and no two roles share one |
| BoundedContext.TextOfParts | core/supervisor/context.go:68-82 | The text of a transcript is that of its parts, in order, one line break apart |
| BoundedContext.UncutStays | core/supervisor/context.go:16-28 | A transcript is left as it is exactly if it fits, is empty, or the budget is zero |
| ProviderText.TextFitsIff | core/supervisor/context.go:16-82 | The text fits the budget exactly when contents and line widths do, or when cut exactly when the marker's line and the lines of the longest suffix that fits do |
| ProviderText.TextExceedsByAtMost | core/supervisor/context.go:16-82 | Behind a user's first turn the text exceeds the budget, or a longer marker, by at most 12 bytes a message less 4; where no answer follows an answer, by 9.5 a message less 1.5 |
| ProviderText.ExcessIsReached | core/supervisor/context.go:16-82 | The first bound is reached with any number of answers behind a user's turn |
| ProviderText.CallExcessIsReached | core/supervisor/context.go:16-82 | The second is reached with any number of answers and peer results in turn |
| ProviderInputs.CallsExceedByAtMost | core/supervisor/supervisor.go:559-567 | Over every run of a task file, follow-ups included, every provider call gets the task's input or the text of a transcript of that second kind, within that bound |
| ProviderInputs.RunReachesExcess | core/supervisor/supervisor.go:559-567 | For every number of rounds some task's call exceeds its budget by exactly that bound |
| TaskForest.EveryTaskShownOnce | ui/app.js:38-76 | Unique ids and keys and no circle: every listed task is shown once, roots are the tasks without a listed parent, newest first |
| TaskForest.ForestShowsReachableOnce | ui/app.js:61-75 | On any links, circular ones included, exactly the tasks reachable from a root are shown, each once, and children are linked to their parent |
| TaskForest.AcyclicForestIsComplete | ui/app.js:61-75 | Without circles nothing is missing |
| TaskForest.LinksInOrder | ui/app.js:61-72 | A task's children come in order: the listed tasks it delegated, as it did, then its follow-ups, as listed |
| TaskForest.LinksAreParents | ui/app.js:45-60 | The two kinds of links are delegation and follow-up between listed tasks |
| TaskForest.BuildTree | ui/app.js:38-76 | The source's passes build exactly that forest |
| TaskForest.Builder.MakeNode | ui/app.js:62-72 | A node and its unseen descendants, marking the shared set |
| PiStream.ParseStream | adapters/pi/adapter.go:480-516 | One bounded pass gives the plain parse: capped text of all assistant messages, exact truncation flags, the last message's failure, capped raw bytes |
| PiStream.StreamResult.HandleLine | adapters/pi/adapter.go:535-572 | One line extends the parse by the event it stands for, if any |
| PiStream.StreamResult.AddRaw | adapters/pi/adapter.go:519-533 | The first bytes are kept and the flag says whether more existed |
| PiStream.LastMessageDecides | adapters/pi/adapter.go:535-572 | The parse has failed exactly if the assistant's last message stopped on an error or was aborted, and says why |
| PiStream.TextIsRead | adapters/pi/adapter.go:549-564 | The text is that of every text block of every message the assistant ended, in order |
| PiStream.EventsAreRead | adapters/pi/adapter.go:535-545 | The events are those of exactly the lines that are short enough, not blank, and decode to a typed one, in order |
| PiStream.LinesAreRead | adapters/pi/adapter.go:487-509 | The lines are what the chunks of each join to, one by one; an unfinished rest adds none |
| PiStream.ChunkingDoesNotMatter | adapters/pi/adapter.go:487-509 | The result depends on the lines, not on how the reader cuts them up |
| PiStream.EveryByteIsReadIff | adapters/pi/adapter.go:487-509 | Every byte reaches a line exactly when no line lacks its final chunk |
| PiStream.UnfinishedLineIsLost | adapters/pi/adapter.go:497-505 | A last line without its final chunk is never decoded |
| ToolNames.ToolNameIs | adapters/pi/mcp_probe.go:22-30 | A full name is the prefix, the normalized server, two underscores and the normalized tool, and its own normal form |
| ToolNames.ServerNameIs | config/schema.go:258-261 | The names the pattern admits, letter by letter |
| ToolNames.LeqIsLexicographic | adapters/pi/mcp_probe.go:129 | Names are ordered by their first differing character, and before their extensions |
| ToolNames.ParsesOneWayIff | adapters/pi/mcp_probe.go:32-36 | A joined name parses one way if and only if both parts pass the checks |
| ToolNames.ToolNamesParseOneWay | adapters/pi/mcp_probe.go:22-30 | Equal full names mean equal normalized server and tool once one pair is clean |
| ToolNames.DeclaredToolsAreDistinct | adapters/pi/mcp_probe.go:53-90 | Declared pairs map injectively to names and never meet a framework tool |
| ToolNames.AllowlistAdmitsNoStranger | adapters/pi/adapter.go:389-405 | An allowed name comes only from a server spelled like the framework's or a declared one that was granted the tool |
| ToolNames.CheckServerNames | config/schema.go:258-316 | The loader accepts exactly valid, unreserved, unambiguous and pairwise distinct server names |
| ToolNames.ProbeServer | adapters/pi/mcp_probe.go:92-131 | A listing is accepted exactly when it is not empty, clean and free of duplicates, and gives its names in order |
| ToolNames.ProbeMCP | adapters/pi/mcp_probe.go:67-90 | The probe succeeds exactly when kinds, servers and listings all pass |
| ToolNames.SortIsOrdered | adapters/pi/mcp_probe.go:129 | The sorted names are the same names, in order |
| ToolNames.OnlyFrameworkIsFramework | config/schema.go:262-264 | Only the reserved name itself is spelled like the framework server |
| IntentLedger.LedgerIsExact | transport/mcp/tools.go:204-237 | Over any calls and drains receipts and sink entries correspond one to one within the cap, refusals leave nothing, no finish follows a delegation |
| IntentLedger.RecordedKeeps | transport/mcp/tools.go:206-237 | One call adds one entry and one receipt or changes nothing, and is acknowledged exactly when it has a receipt |
| IntentLedger.RepliesIff | transport/mcp/tools.go:206-237 | A call is a repeat exactly if it is recorded, and a new one is refused exactly if it would finish behind a delegation or the sink is full |
| IntentLedger.ReceiptsStay | transport/mcp/tools.go:209-211 | A repeat gets the first call's receipt, at any later time |
| IntentLedger.FirstDrainIsExact | transport/mcp/registry.go:149-163 | The first drain returns exactly the distinct acknowledged calls, in order |
| IntentLedger.DrainMissesCall | transport/mcp/tools.go:194-237 | In every invocation with room in its sink any call can end acknowledged but missed by the drain |
| IntentLedger.DrainMissesNothingIff | transport/mcp/registry.go:149-163 | Nothing acknowledged later is missed exactly when no recordable call was in flight |
| IntentLedger.KeysTellCallsApart | transport/mcp/tools.go:104-117 | Within an invocation two calls share a key exactly when kind and encoded payload agree |
| IntentLedger.Invocation.RecordCall | transport/mcp/tools.go:206-237 | Dedupe, finish rejection and recording under the lock |
| IntentLedger.Registry.Resolve | transport/mcp/registry.go:90-105 | Unknown, expired and foreign tokens resolve to nothing |
| IntentLedger.Registry.HandleCall | transport/mcp/tools.go:187-237 | A call by an unresolved token changes no ledger, an expired or foreign one included; any other goes to that token's invocation alone, and neither counts as contact |
| IntentLedger.Registry.Verify | transport/mcp/registry.go:111-135 | A known, unexpired token is accepted and marks its invocation contacted; ledgers stay as they are |
| IntentLedger.ContactedIff | transport/mcp/registry.go:137-145 | Over any run the invocation is contacted exactly when some verification met its token unexpired and not retired |
| IntentLedger.UncontactedMeansSilent | transport/mcp/registry.go:141-163 | An invocation never contacted has acknowledged and drained nothing |
| IntentLedger.Handle.Drain | transport/mcp/registry.go:149-163 | The first drain ends the token and returns the sink, later ones return nothing |
| IntentLedger.Sink.Record | transport/mcp/sink.go:38-46 | Appends below the cap, refuses at it |

## Left out

- Crash in the middle of an execution, panic recovery, a consumer that stops iterating: the code keeps no
  invariant there, because queued intents live in memory only while an execution is live.
- Failed saves (core/supervisor/supervisor.go:293 and 613) and failed loads other than a missing task.
- Re-submitting WORKING records and registering parked ones with a2asrv during recovery.
- Events yielded to the consumer, error messages, logging, notifications, JSON files and renames.
- The clock: a poll is told whether the deadline has passed, and no bound on a wait is claimed, because a
  failing poll skips the deadline test.
- Restart of a peer process: the in-memory task store of a2asrv is not part of this model.
- TaskForest.BuildTree: requires unique task ids and keys, under which the source's marks by key and by id
  are marks of tasks; lists with duplicates are not modelled.
- ToolNames.ProbeMCP: the process that answers the probe is not modelled; a listing is a parameter, and servers
  come in the order of their names.
- ToolNames.CheckServerNames: the decoding of each server's command and arguments is not modelled, and names
  come in one order where the source iterates a map, so which of several errors is reported is not compared.
- PiStream.ParseStream: trimming white space and decoding JSON are parameters; a failing read just ends the
  chunks, and its error is not part of the result here.
- IntentLedger.KeysTellCallsApart: the canonical JSON encoding of a payload is taken as given, free of NUL.
- IntentLedger.Registry.Mint: the random token is a parameter that must be fresh.
- WakeUp.NoLostWakeUp: says that a covering watcher exists, not that its polls succeed.
- FollowUps.MoveKeeps: a cancel there falls between executions; one beside a live execution is in `WakeUp` only.
- Network.SomeoneCanMove: the same holds of cancels there.
- Supervisors.Supervisor.Cancel: a method of one object at a time; its interleaving with an execution is in `WakeUp`.
- Parsers of the other adapters, the lifecycle counter, addresses, authentication, the web handlers.
