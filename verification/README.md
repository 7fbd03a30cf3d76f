# Machine fabric: a verified model

Machine fabric lets Controllers drive shared desktops on Executors. This project models the
parts of it whose correctness depends on order, failure and bytes, and proves what they keep
over every run and every input. `dafny verify dfyconfig.toml` verifies the whole project.

- **Desktop admission** (`Desktop*.dfy`). The durable queue that admits one job at a time to a
  desktop. Memory, the last saved file and a history of what happened are separate; every save
  may succeed, fail before or after its write, or be where the process dies. `DesktopModel` has
  the transitions as functions, `DesktopQueue` the object whose methods perform them, loop by
  loop. `DesktopSystem` adds crashes, starts and the executor's gate and shows that every step
  keeps the invariant; `DesktopTheorems` and `DesktopStanding` draw the conclusions.
  `DesktopAnswers` says exactly when each request succeeds and what it does, `DesktopGrants` how
  long a grant lasts, and `DesktopReached` holds runs that reach the states these speak of.
  `DesktopRun` puts any number of consumers with receipt files on top, `DesktopFleet` any number
  of executors; `DesktopProgress` shows that a consumer gets to launch, and `DesktopConsumer` is
  one consumer as the sequential program.
- **Session handoff** (`Handoff*.dfy`). Any number of Controllers, messages that are lost,
  delayed and repeated, restarts at any time; and requests forwarded while the authority moves.
- **Tasks and payloads** (`Task*.dfy`, `Payload*.dfy`). The table with its idempotency index,
  the life of a task, and the side store of large values that a persist fills while other
  operations go on.
- **Leases** (`Lease*.dfy`). Mutual exclusion, fencing numbers and tokens.
- **Peer connection** (`Peer*.dfy`). Calls and their answers, handlers, closing, framing,
  compression, handshake.
- **Resource packs** (`DataPack*.dfy`, `PackOrder.dfy`). The byte format, its writer and reader,
  and incremental builds.
- **Text at the edges** (`WindowsArgs.dfy`, `OutputText.dfy`). Argument quoting, and bounded
  command output.

Clocks, UUIDs, the network, file writes and the operating system's answers are inputs. JSON,
SHA-256, gzip and base64 are function values with the law the program relies on (decoding
inverts encoding, digests do not collide). Where a member's method form and its function form
both exist, the method is proved equal to the function, and the lemmas are about the function.

Where the program does not do what one might expect, or what its comments say, the model
follows the program; each item has its exact condition and an input that shows it:

- `begin` sets the in-flight flag before it saves. When it gets as far as that save and the save
  fails, and only then, it is refused with the flag set (`FailedBeginLeavesMark`); the flag then
  stays, nothing is granted and every dispatch is refused, until the process is started again
  (`StuckUntilRestart`, `RestartClearsMark`, `StuckIsReached`).
- A safe point reached while a cleanup is running is lost when the cleanup fails, and at no other
  time (`SafePointLastsIffNoCleanup`, `SafePointIsLost`).
- `session.put` without an authority splits the authority exactly when another Controller knows
  the session (`BarePutIsSafeIffUnknownElsewhere`, `SecondPutSplits`).
- A handoff whose acceptance was lost can be completed by repeating it exactly until its target
  begins to hand the session on (`RepeatAcceptedIffNotHandedOn`). After that the old authority
  answers that a handoff is in progress until the session is handed back to it
  (`BarredUntilReturned`, `BarredIsReached`).
- Epochs and revisions saturate at the largest 64-bit number; handoffs and compare-and-swaps are
  refused or let through wrongly exactly there (`NextHandoffAcceptedIffNotSaturated`,
  `SaturatedHandoffIsRefused`, `StaleUpdateRefusedIffNotSaturated`, `SaturatedUpdateIsLetThrough`).
- A request has its idempotency key to itself exactly when none of its four parts holds a NUL
  (`KeyIsUniqueIffClean`); otherwise, and only then, it can be answered with the task of another
  request (`AnsweredWithOwnIffClean`, `SeparatorsCollide`).
- Restoring leases without the fence snapshot forgets fences exactly when some resource is no
  longer leased; the next lease then repeats one (`RestoreWithoutFencesIffAllLeased`,
  `RestoreReissuesFence`).
- After a close, the uncancelled entries of the inbound table are exactly the requests read after
  it that the peer has not cancelled (`UncancelledIffEnteredAfterClose`, `UncancelledIsReached`);
  none of them gets as far as its handler (`NoHandlerStartsAfterClose`).
- The comment on output text speaks of keeping a suffix. What is shown of any well-formed output
  is a suffix of it exactly when it is within the limit or the cut leaves fewer than three loose
  bytes of a character (`ShownIsSuffixIff`, `LooseBytesAreShown`).
- The launcher takes verbatim path prefixes off every argument, so a started program gets its
  arguments back exactly when none has such a prefix or a NUL (`LaunchedArgumentsArriveIff`).

## Model

| member | source | states |
|---|---|---|
| DesktopSystem.RunKeeps | crates/machine-fabric-runtime/src/desktop.rs:163-753 | over every run of requests, dispatches, cleanups, saves that fail, crashes and starts, memory, file and history stay consistent (at most one live job, its epoch the queue's, every live grant durable, file explained by history) |
| DesktopSystem.StepKeeps | crates/machine-fabric-runtime/src/desktop.rs:163-753 | each single step, with whatever outcome of its saves, keeps that invariant |
| DesktopSystem.CommandKeeps | crates/machine-fabric-runtime/src/desktop.rs:437-664 | every request, promoted before and after, keeps the invariant |
| DesktopSystem.PromoteKeeps | crates/machine-fabric-runtime/src/desktop.rs:365-418 | expiring, choosing, granting and rolling a grant back when its save fails keep the invariant |
| DesktopSystem.BeginKeeps | crates/machine-fabric-runtime/src/desktop.rs:693-747 | starting a dispatch keeps the invariant and is recorded before any save outcome |
| DesktopSystem.EndKeeps | crates/machine-fabric-runtime/src/desktop.rs:748-753 | ending a dispatch keeps the invariant, whether or not the end reaches the file |
| DesktopSystem.CleanupDoneKeeps | crates/machine-fabric-runtime/src/desktop.rs:250-269 | the end of a cleanup retires the live job or quarantines, and keeps the invariant |
| DesktopSystem.OpenKeeps | crates/machine-fabric-runtime/src/desktop.rs:167-211 | opening any file a run can leave behind restores the invariant |
| DesktopTheorems.ExclusiveGrants | crates/machine-fabric-runtime/src/desktop.rs:231-269 | in every reachable state, in memory and on disk, at most one job is active or draining, its epoch is the queue's, epochs of jobs are distinct, and between two grants lies a release with nothing in flight: a cleanup, a recovery or a verified restart |
| DesktopTheorems.HandoverIsClean | crates/machine-fabric-runtime/src/desktop.rs:365-418 | in every consistent history later grants have larger epochs and are separated by such a release |
| DesktopTheorems.GrantsInOrder | crates/machine-fabric-runtime/src/desktop.rs:365-418 | no job is granted twice, and after a head grant only later-submitted jobs are granted |
| DesktopTheorems.DispatchesAreSound | crates/machine-fabric-runtime/src/desktop.rs:693-747 | in every run each dispatch starts with none in flight; one with a session belongs to the current grant, made since the last start; one without a session is made while nothing is granted |
| DesktopAnswers.DispatchesPresentTheirSession | crates/machine-fabric-runtime/src/desktop.rs:693-747 | over every run each dispatch into a session presented exactly the owner and token of the job that was granted it, which are those given out when a job was submitted |
| DesktopAnswers.DispatchAdmittedIff | crates/machine-fabric-runtime/src/desktop.rs:693-747 | a dispatch is admitted exactly when nothing is blocked or in flight, its saves succeed, and the live job is active, in time, cleared and its owner and token are presented; or, with no live job, there is no maintenance and no gate and the call is plain and without credentials |
| DesktopTheorems.LiveGrantIsDurable | crates/machine-fabric-runtime/src/desktop.rs:365-418 | a job live in memory is live in the last saved file with the same epoch and identity |
| DesktopTheorems.FirstComeFirstServed | crates/machine-fabric-runtime/src/desktop.rs:365-418 | a job granted through the head has a larger epoch than every earlier-submitted job ever granted; only an operator receipt overtakes |
| DesktopTheorems.GrantHasRoute | crates/machine-fabric-runtime/src/desktop.rs:310-418 | every grant of a promotion went to the first queued job with availability satisfied, or to a job with a matching operator receipt, in an open queue |
| DesktopAnswers.PromotionGrantsIff | crates/machine-fabric-runtime/src/desktop.rs:365-418 | with its writes made, a promotion grants exactly when the queue is vacant and a waiting job may go: the first one if its gate is open, else the first that a receipt names; it is active for its time to live, and otherwise only the overdue expire |
| DesktopGrants.GrantLasts | crates/machine-fabric-runtime/src/desktop.rs:231-269 | over every run of one process a granted job keeps its state, expiry and deadline until its owner renews or ends it, a cleanup finds it past its time, a cleanup ends, or a recovery |
| DesktopGrants.GrantedUntil | crates/machine-fabric-runtime/src/desktop.rs:365-418 | a job granted by a promotion is usable, after any such run, exactly until its time to live or its deadline is over |
| DesktopGrants.GateStaysClosed | crates/machine-fabric-runtime/src/desktop.rs:294-309 | once the file requires availability, memory and file do in every later state of every run, restarts included |
| DesktopTheorems.NeverDispatchedAgain | crates/machine-fabric-runtime/src/desktop.rs:167-211 | after a start no dispatch is made for a job that was live when it happened |
| DesktopTheorems.CrashNeverReplays | crates/machine-fabric-runtime/src/desktop.rs:167-230 | after a crash at any point and any continuation, no job that was live in memory or in the file is dispatched |
| DesktopTheorems.ReopenQuarantines | crates/machine-fabric-runtime/src/desktop.rs:167-211 | reopening with an unsettled dispatch, a live job or a quarantine in the file blocks the queue unless two known, different boot identities prove a restart; then the live jobs are interrupted and the queue is open |
| DesktopTheorems.SettledBySavedEnd | crates/machine-fabric-runtime/src/desktop.rs:748-753 | a dispatch is settled when its end is saved and stays unsettled when nothing was written |
| DesktopAnswers.StartBlocksIff | crates/machine-fabric-runtime/src/desktop.rs:167-211 | a start is in quarantine exactly when the file was, or shows a dispatch or session, and no restart of the operating system is known; sessions are interrupted by such a restart and everything else is kept |
| DesktopAnswers.ClaimAnsweredIff | crates/machine-fabric-runtime/src/desktop.rs:559-606 | a claim is answered, and then on disk, exactly when the names are in bounds, nothing is blocked, the save succeeds, and the job with these credentials is in time, cleared and not claimed by another |
| DesktopAnswers.RenewalAnsweredIff | crates/machine-fabric-runtime/src/desktop.rs:607-646 | a renewal is answered exactly for an active job still in time in an open queue, and moves only its expiry |
| DesktopAnswers.FinishAnswered | crates/machine-fabric-runtime/src/desktop.rs:607-646 | finishing or cancelling makes a waiting job cancelled and an active one draining, changes no other, and is answered when saved |
| DesktopAnswers.StrangersAreRefused | crates/machine-fabric-runtime/src/desktop.rs:607-646 | credentials of no job are refused by every request and change nothing |
| DesktopAnswers.StatusAgreesWithDispatch | crates/machine-fabric-runtime/src/desktop.rs:419-436 | a status read of a gated session says that input is allowed exactly when a dispatch with its credentials would be admitted now |
| DesktopAnswers.ListingIsComplete | crates/machine-fabric-runtime/src/desktop.rs:528-558 | a listing shows, in queue order, all jobs or those that are not over, each as its status without the token |
| DesktopAnswers.HistoryIsCounted | crates/machine-fabric-runtime/src/desktop.rs:528-558 | the history count and a short listing make up all jobs |
| DesktopAnswers.SubmitAnsweredIff | crates/machine-fabric-runtime/src/desktop.rs:469-527 | a known request is answered with its job; a new one within the limits of count, time to live and deadline is appended, saved and promoted, and any other is refused with nothing changed |
| DesktopAnswers.CleanupNeededIff | crates/machine-fabric-runtime/src/desktop.rs:236-249 | a cleanup is needed exactly when nothing is in flight and the live job drains or is past its time, and it then drains |
| DesktopAnswers.CleanupEnds | crates/machine-fabric-runtime/src/desktop.rs:250-269 | a cleanup that succeeded ends the live job as interrupted, expired or completed and leaves none live; one that failed blocks |
| DesktopAnswers.RecoveryAnsweredIff | crates/machine-fabric-runtime/src/desktop.rs:647-660 | recovery needs a blocked idle queue and a confirmation; it unblocks, interrupts what was live, saves and promotes |
| DesktopAnswers.MaintenanceAnsweredIff | crates/machine-fabric-runtime/src/desktop.rs:447-468 | maintenance is given, kept or released exactly for a named owner while nobody else owns it |
| DesktopAnswers.InspectionStartsIff | crates/machine-fabric-runtime/src/desktop.rs:667-692 | an inspection starts exactly for a request in due form in a blocked idle queue |
| DesktopAnswers.InspectionFreezes | crates/machine-fabric-runtime/src/desktop.rs:437-446 | while an inspection runs no request changes anything |
| DesktopAnswers.AllowedExactlyDuring | crates/machine-fabric-runtime/src/desktop.rs:15-32 | a snapshot in due form allows input from its observation until its expiry, at most ten seconds; what was allowed lapses for good |
| DesktopAnswers.ReceiptServesOneJob | crates/machine-fabric-runtime/src/desktop.rs:310-364 | a receipt serves exactly the waiting or active job it names by identity, token and boot, from its grant until its expiry, at most fifteen minutes |
| DesktopStanding.StandsThroughout | crates/machine-fabric-runtime/src/desktop.rs:447-468 | over every run without its release by the owner, a safe point stays on disk and in memory through failures and restarts, queued jobs only become cancelled or expired, and nothing is granted or dispatched; likewise a quarantine until recovery or a verified restart |
| DesktopStanding.StepHolds | crates/machine-fabric-runtime/src/desktop.rs:396-400 | every single step other than the one that ends it keeps a safe point or a quarantine |
| DesktopStanding.SafePointLastsIffNoCleanup | crates/machine-fabric-runtime/src/desktop.rs:250-269 | every step but the release keeps a safe point exactly when no cleanup is running |
| DesktopStanding.SafePointReplyIsDurable | crates/machine-fabric-runtime/src/desktop.rs:447-468 | when taking maintenance is answered with a safe point, that state is already in the file |
| DesktopStanding.FailedBeginLeavesMark | crates/machine-fabric-runtime/src/desktop.rs:693-747 | with nothing in flight, a dispatch is refused and leaves the flag set exactly when only its own save could still refuse it and that save did not succeed |
| DesktopStanding.StuckUntilRestart | crates/machine-fabric-runtime/src/desktop.rs:693-747 | over every run without a new start, the flag stays set while the process is up, nothing is granted or dispatched, and every further dispatch is refused |
| DesktopStanding.RestartClearsMark | crates/machine-fabric-runtime/src/desktop.rs:167-211 | a started process never has the flag set |
| DesktopReached.StuckIsReached | crates/machine-fabric-runtime/src/desktop.rs:693-747 | a first start and one dispatch whose save fails reach such a queue, unblocked, with no flag in the file |
| DesktopReached.SafePointIsLost | crates/machine-fabric-runtime/src/desktop.rs:250-269 | an uncertain end, a finish, and maintenance and recovery during the cleanup reach a safe point that the failed cleanup turns into a quarantine |
| DesktopObject.DesktopQueue.SaveFile | crates/machine-fabric-runtime/src/desktop.rs:212-230 | the file becomes the whole record exactly when the write happened, and a saved end settles the dispatch |
| DesktopObject.DesktopQueue.OpenFile | crates/machine-fabric-runtime/src/desktop.rs:167-211 | an unreadable file opens nothing; otherwise the state after opening: quarantine or interruption by boot identity, saved before use |
| DesktopObject.DesktopQueue.FindLive | crates/machine-fabric-runtime/src/desktop.rs:231-235 | the first active or draining job, or none |
| DesktopObject.DesktopQueue.CheckCleanup | crates/machine-fabric-runtime/src/desktop.rs:236-249 | with nothing in flight a live job past its time drains, and cleanup is needed exactly for a draining one |
| DesktopObject.DesktopQueue.FinishCleanup | crates/machine-fabric-runtime/src/desktop.rs:250-269 | after a successful cleanup the live job is interrupted in a blocked queue, else expired or completed; a failed one blocks the queue; saved, then promoted |
| DesktopObject.DesktopQueue.RefreshAvailabilityPolicy | crates/machine-fabric-runtime/src/desktop.rs:294-307 | once a provider file is seen the gate is required, in memory even when its save fails |
| DesktopObject.DesktopQueue.ExpireWaiting | crates/machine-fabric-runtime/src/desktop.rs:370-380 | exactly the queued jobs past their deadline expire, and a save is made exactly when some did |
| DesktopObject.DesktopQueue.Candidates | crates/machine-fabric-runtime/src/desktop.rs:381-395 | the first queued job if its availability condition holds, else the first queued one with a matching operator receipt |
| DesktopObject.DesktopQueue.GrantTo | crates/machine-fabric-runtime/src/desktop.rs:396-416 | the grant takes the next epoch and is undone completely when its save fails |
| DesktopObject.DesktopQueue.PromoteNext | crates/machine-fabric-runtime/src/desktop.rs:365-418 | one promotion with its three saves and every early exit |
| DesktopObject.DesktopQueue.ListJobs | crates/machine-fabric-runtime/src/desktop.rs:528-558 | the jobs shown, each with what a status read says of it and without its token, the counts, the gate, and whether this is a safe point; nothing changes |
| DesktopObject.DesktopQueue.SetMaintenance | crates/machine-fabric-runtime/src/desktop.rs:447-468 | maintenance is taken, kept or released only by its owner; the answer lists the queue after the save and a promotion |
| DesktopObject.DesktopQueue.SubmitJob | crates/machine-fabric-runtime/src/desktop.rs:469-527 | a known request returns its job; a new one is refused by each parameter condition or appended at the end, saved and promoted, and stays queued in memory when that save fails |
| DesktopObject.DesktopQueue.ClaimJob | crates/machine-fabric-runtime/src/desktop.rs:559-606 | a claim is answered only when it is in the file, to one consumer, and repeats for that consumer |
| DesktopObject.DesktopQueue.TouchJob | crates/machine-fabric-runtime/src/desktop.rs:607-646 | reading, renewing, finishing and cancelling by owner and token, with their refusals |
| DesktopObject.DesktopQueue.RecoverQueue | crates/machine-fabric-runtime/src/desktop.rs:647-661 | a confirmed recovery of a blocked queue with nothing in flight interrupts what is live and opens the queue, in one save |
| DesktopObject.DesktopQueue.Handle | crates/machine-fabric-runtime/src/desktop.rs:437-664 | every request, with promotion around it and the refusal during an inspection |
| DesktopObject.DesktopQueue.BeginRecoveryInspection | crates/machine-fabric-runtime/src/desktop.rs:94-122 | only an inspection of one application path that asks for no permission starts, and only in a blocked queue with nothing in flight and no other inspection |
| DesktopObject.DesktopQueue.BeginDispatch | crates/machine-fabric-runtime/src/desktop.rs:693-747 | every refusal in order, else the flag is set and saved before input is dispatched; the history notes what was presented |
| DesktopObject.DesktopQueue.EndDispatch | crates/machine-fabric-runtime/src/desktop.rs:748-753 | the flag is cleared and an uncertain end blocks the queue, in one save |
| DesktopRun.AtMostOneLaunch | crates/machine-fabric-cli/src/desktop_run.rs:66-178 | over any number of consumers, receipts, lost replies, failed writes, crashes and restarts, at most one child command is started per owner and request key |
| DesktopProgress.RunnableIsLaunched | crates/machine-fabric-cli/src/desktop_run.rs:112-175 | from every site, a polling consumer whose job is granted, in time, permitted and not claimed by another, with replies and writes made, reaches its claim by one status read and one claim, and then starts its command exactly once |
| DesktopProgress.LaunchIsReached | crates/machine-fabric-cli/src/desktop_run.rs:66-178 | from nothing, a start of the executor, an invocation, a submission and those four steps start the command |
| DesktopProgress.PollDecides | crates/machine-fabric-cli/src/desktop_run.rs:118-150 | a status read leads on to a claim, stops the consumer, or leaves it waiting, exactly by the state, permission and claim it reports |
| DesktopProgress.SubmitDecides | crates/machine-fabric-cli/src/desktop_run.rs:96-111 | an answered and stored submission gives the consumer its token and lets it wait; otherwise the process ends |
| DesktopProgress.FailedSpawnIsNoted | crates/machine-fabric-cli/src/desktop_run.rs:152-175 | a command that cannot be started is stored as such, starts nothing and ends the process |
| DesktopProgress.GiveUpCancels | crates/machine-fabric-cli/src/desktop_run.rs:113-117 | a consumer past its deadline ends; its job is cancelled when the call is delivered, and its receipt says so only when that was answered |
| DesktopProgress.LaunchedIsFinished | crates/machine-fabric-cli/src/desktop_run.rs:176-203 | the start, exit and end of a launched command are stored one after the other, and the receipt keeps the exit code |
| DesktopFleet.FleetLaunchesAtMostOnce | crates/machine-fabric-cli/src/desktop_run.rs:66-178 | the same over any set of executors: no two child commands are started for one executor, owner and request key |
| DesktopFleet.SiteRunsInFleet | crates/machine-fabric-cli/src/desktop_run.rs:66-178 | every run of one executor's consumers that keeps apart from the others is a run of the fleet and changes nothing else |
| DesktopFleet.MoveKeeps | crates/machine-fabric-cli/src/desktop_run.rs:66-78 | a receipt of another executor's request is refused, so no receipt file ever serves two executors |
| DesktopRun.OneConsumerPerRequest | crates/machine-fabric-runtime/src/desktop.rs:559-606 | all saved claims of one request name one consumer |
| DesktopRun.ClaimSucceeds | crates/machine-fabric-runtime/src/desktop.rs:559-606 | an answered claim with a token issued for a request is in the saved history for that request and consumer |
| DesktopRun.SubmitIssues | crates/machine-fabric-runtime/src/desktop.rs:469-527 | the token in the reply to a submit was issued for that owner and request key |
| DesktopRun.SiteStepKeeps | crates/machine-fabric-cli/src/desktop_run.rs:66-203 | every step of every consumer keeps receipts, processes, claims and launches consistent |
| DesktopConsumer.Consumer.Execute | crates/machine-fabric-cli/src/desktop_run.rs:46-204 | one invocation is a run of that step machine in program order; a receipt that may have been started or belongs to another request is refused with nothing changed, and only that of an earlier success answers again; a finished one has started this request's command, given the session back, and stored its end and exit code |
| DesktopConsumer.Consumer.AwaitClaim | crates/machine-fabric-cli/src/desktop_run.rs:112-151 | polling, giving up at the deadline and claiming only ever make steps of the machine, for the same request; the loop goes on while the process waits, ends in a claim only by an answered claim request, and does so in two turns when the job is granted, in time, permitted and not another's and nothing else happens |
| DesktopConsumer.Consumer.Start | crates/machine-fabric-cli/src/desktop_run.rs:152-175 | the child is started only from a stored "starting" receipt, and then a launch of this request is recorded; when "starting" is saved and the spawn succeeds exactly one launch is added; when it cannot be started that is stored and the session is given back |
| DesktopConsumer.Consumer.Supervise | crates/machine-fabric-cli/src/desktop_run.rs:176-203 | running, the exit with its code, and completed are stored in this order; a result is the code the child exited with, stored after the executor answered the finish |
| DesktopConsumer.Consumer.Watch | crates/machine-fabric-cli/src/desktop_run.rs:178-191 | the child is watched and its session renewed until it exits; an unanswered renewal ends the invocation and leaves the receipt |
| DesktopConsumer.ProgramLaunchesAtMostOnce | crates/machine-fabric-cli/src/desktop_run.rs:46-204 | histories made by the program, with fresh identifiers, start a request's command at most once |
| Handoff.OneAuthority | crates/machine-fabric-runtime/src/controller.rs:640-822 | over every run at most one Controller names itself without a pending target, it has the greatest epoch anywhere, every epoch has one owner, and some Controller always still holds or is handing over the session |
| Handoff.RunKeeps | crates/machine-fabric-runtime/src/controller.rs:640-822 | the protocol invariant (records, offers, acknowledgements and open handlers agree on who was given each epoch) holds over every run |
| Handoff.EpochsNeverDecrease | crates/machine-fabric-runtime/src/controller.rs:640-716 | no Controller's recorded epoch goes back and no record disappears |
| Handoff.ForwardingAdvances | crates/machine-fabric-runtime/src/controller.rs:2421-2494 | a Controller serves a request exactly when its record names itself and otherwise forwards it to the Controller its record names, another one, which has a record of at least that epoch, and of a larger one unless it serves the request |
| Handoff.RoutingTerminates | crates/machine-fabric-runtime/src/controller.rs:2421-2494 | from any Controller that knows the session, forwarding as each Controller answers ends at one that serves the request and names itself, within as many hops as handoffs were made |
| HandoffProgress.TravelIsBounded | crates/machine-fabric-runtime/src/controller.rs:2421-2494 | with any protocol steps between its hops, a request forwarded as each Controller answers is forwarded at most once more than epochs were given out beyond the one it started from |
| HandoffProgress.RoutingEndsAmidHandoffs | crates/machine-fabric-runtime/src/controller.rs:2421-2494 | over every run and every journey, hops never outnumber the epochs given out when it ends, so only new handoffs keep a request travelling |
| HandoffProgress.LegAdvances | crates/machine-fabric-runtime/src/controller.rs:2421-2494 | on arrival, however long the hop took, the request is served there or the record has a larger epoch |
| HandoffProgress.HandoffCompletes | crates/machine-fabric-runtime/src/controller.rs:640-822 | from every sound state the holder can hand the session to any other Controller with an open gate: offered, accepted and committed, the target holds the next epoch and the old holder forwards there |
| HandoffProgress.HandoffStartsIff | crates/machine-fabric-runtime/src/controller.rs:717-797 | a handoff starts exactly for a quiescent session whose record names this Controller without a mark for another target |
| Handoff.PendingStops | crates/machine-fabric-runtime/src/controller.rs:2436-2458 | a pending mark stops every request but the two that pass it, and changes no other answer |
| Handoff.NamedPutChangesNothing | crates/machine-fabric-runtime/src/controller.rs:594-640 | a put that names an authority succeeds exactly for the recorded one held here |
| HandoffProgress.RepeatAcceptedIffNotHandedOn | crates/machine-fabric-runtime/src/controller.rs:640-822 | a marked handoff offered again is accepted exactly when its target has neither gone past the offer nor begun to hand the session on |
| HandoffProgress.BarredUntilReturned | crates/machine-fabric-runtime/src/controller.rs:640-822 | once that is refused with no acceptance on the way, over every run the old authority answers that a handoff is in progress and every repeat is refused, until a later handoff replaces its record |
| HandoffProgress.BarredIsReached | crates/machine-fabric-runtime/src/controller.rs:640-822 | a lost acceptance followed by a handoff of the target to a third Controller gets there |
| Handoff.ServedOnlyByHolder | crates/machine-fabric-runtime/src/controller.rs:2440-2480 | a Controller with a record serves an ordinary request itself exactly when it holds the session |
| Handoff.BarePutIsSafeIffUnknownElsewhere | crates/machine-fabric-runtime/src/controller.rs:594-639 | a put without authority keeps the authority single exactly when no other Controller knows the session |
| Handoff.SecondPutSplits | crates/machine-fabric-runtime/src/controller.rs:594-639 | a second Controller's put of a session just created splits the authority |
| Handoff.NextHandoffAcceptedIffNotSaturated | crates/machine-fabric-runtime/src/controller.rs:640-716 | a Controller that recorded the current authority accepts the next handoff exactly while the epoch can grow |
| Handoff.SaturatedHandoffIsRefused | crates/machine-fabric-runtime/src/controller.rs:640-822 | at the largest epoch a marked handoff is refused as stale by a Controller that knows the authority |
| HandoffController.Controller.PutSession | crates/machine-fabric-runtime/src/controller.rs:594-639 | the stored record of this session, and of no other, becomes the given or the first authority, or the put is refused |
| HandoffController.Controller.AcceptHandoff | crates/machine-fabric-runtime/src/controller.rs:640-716 | a newer offer replaces the record, an exact repeat is acknowledged, anything older is refused; other sessions are untouched |
| HandoffController.Controller.MarkHandoff | crates/machine-fabric-runtime/src/controller.rs:731-797 | the pending mark is stored, or one of the refusals leaves every record alone |
| HandoffController.Controller.CommitHandoff | crates/machine-fabric-runtime/src/controller.rs:798-822 | the old authority records the new one |
| HandoffController.Controller.RouteRequest | crates/machine-fabric-runtime/src/controller.rs:2421-2494 | here, the Controller its first record of the session names, or handoff in progress |
| Tasks.KeyIsInjective | crates/machine-fabric-core/src/task.rs:294-301 | requests whose first three parts are NUL-free share a key only when all four parts agree |
| Tasks.SeparatorsCollide | crates/machine-fabric-core/src/task.rs:294-301 | any request with a NUL in one of its four parts shares its key with a different one |
| Tasks.KeyIsUniqueIffClean | crates/machine-fabric-core/src/task.rs:294-301 | a request shares its key with no other one exactly when none of its four parts holds a NUL |
| Tasks.SubmitReusesExactly | crates/machine-fabric-core/src/task.rs:40-108 | for a NUL-free request, or among requests with no NUL before the last part, a submit reuses a stored task exactly when one has the same four-part identity, and answers with that identity |
| Tasks.SubmitAnswersByKey | crates/machine-fabric-core/src/task.rs:40-108 | for every request a submit reuses a stored task exactly when one has the same key, and otherwise adds one with this identity and input; the index stays exact |
| Tasks.AnsweredWithOwnIffClean | crates/machine-fabric-core/src/task.rs:40-108 | in every reachable table a request is answered with a task of its own identity exactly when none of its parts holds a NUL |
| Tasks.ReachableIsIndexed | crates/machine-fabric-core/src/task.rs:23-282 | over any operations, whatever the identities, the index stays the exact inverse of the table |
| Tasks.PruneStaysIndexed | crates/machine-fabric-core/src/task.rs:240-260 | pruning removes exactly the old terminal entries, and their index entries with them |
| TaskLaws.StepOfTask | crates/machine-fabric-core/src/task.rs:110-282 | every operation leaves each task as it is, moves its state along the allowed lines, or prunes it, and then it had ended before the cutoff |
| TaskLaws.UnfinishedIsNeverPruned | crates/machine-fabric-core/src/task.rs:240-260 | over every run a queued or running task is in the table until it has ended |
| TaskLaws.SettledForGood | crates/machine-fabric-core/src/task.rs:110-183 | over every run a succeeded or cancelled task keeps its state, result, attempts and history for as long as it is kept |
| TaskLaws.TransitionSucceedsIff | crates/machine-fabric-core/src/task.rs:110-149 | a transition succeeds exactly from queued to running or cancelled and from running to an end, and counts an attempt when it starts |
| TaskLaws.RetrySucceedsIff | crates/machine-fabric-core/src/task.rs:155-176 | exactly failed, timed out and unknown tasks are retried, and can be run again |
| Tasks.RebuildIsIdentity | crates/machine-fabric-core/src/task.rs:23-38 | rebuilding from a snapshot in any order gives the same table and index |
| TaskTableObject.TaskTable.FromSnapshot | crates/machine-fabric-core/src/task.rs:23-38 | the loop over a snapshot builds table and index together |
| TaskTableObject.TaskTable.SubmitTask | crates/machine-fabric-core/src/task.rs:40-108 | reuse through the index, or a new entry in both maps |
| TaskTableObject.TaskTable.TransitionTask | crates/machine-fabric-core/src/task.rs:110-149 | an allowed transition changes state, output, attempt and revision of one entry, anything else changes nothing |
| TaskTableObject.TaskTable.RetryTask | crates/machine-fabric-core/src/task.rs:155-176 | a retryable entry is queued again with a cleared output |
| TaskTableObject.TaskTable.RetryTaskWithInput | crates/machine-fabric-core/src/task.rs:177-183 | a retry with another input drops the reference to the old one |
| TaskTableObject.TaskTable.ReplaceInputRefIfUnchanged | crates/machine-fabric-core/src/task.rs:204-220 | an input is replaced by its reference only at the same revision and while it has none |
| TaskTableObject.TaskTable.ReplaceOutputRefIfUnchanged | crates/machine-fabric-core/src/task.rs:222-238 | the same for an output |
| TaskTableObject.TaskTable.PruneTerminalBefore | crates/machine-fabric-core/src/task.rs:240-260 | the removal loop prunes both maps |
| TaskTableObject.TaskTable.RecoverOrphanTasks | crates/machine-fabric-core/src/task.rs:262-282 | exactly the queued and running entries become unknown and retryable |
| Payloads.ExternalisationIsInvisible | crates/machine-fabric-runtime/src/controller.rs:2594-2661 | with any operations between a persist's copy and its compare-and-swap, and any number of persists, reading any entry gives its logical input and output |
| Payloads.RunKeeps | crates/machine-fabric-runtime/src/controller.rs:2594-2631 | over every run a pending update of a matching revision with no reference stands for the current value |
| Payloads.WrittenIsReadable | crates/machine-fabric-runtime/src/controller.rs:2886-2940 | what is written under its digest reads back as the value, and no other payload changes |
| Payloads.ExternaliseWell | crates/machine-fabric-runtime/src/controller.rs:2844-2884 | moving the values of an entry out leaves an entry that reads the same |
| Payloads.StaleUpdateRefusedIffNotSaturated | crates/machine-fabric-core/src/task.rs:110-282 | after any transition, retry or recovery of an entry, an input or output swap prepared before it is refused exactly when the revision could still grow or a reference is there already |
| Payloads.SaturatedUpdateIsLetThrough | crates/machine-fabric-core/src/task.rs:110-238 | at the largest revision, the update of a persist that copied a failed entry puts its first output back over that of a later success |
| PayloadFiles.ExternalizeTaskPayloads | crates/machine-fabric-runtime/src/controller.rs:2844-2884 | the loop over a copy externalises every entry in order or fails as a whole |
| PayloadFiles.SavedStateReadsTheSame | crates/machine-fabric-runtime/src/controller.rs:2594-2631 | the state a persist saves reads like the table it copied |
| PayloadFiles.CommitUpdates | crates/machine-fabric-runtime/src/controller.rs:2594-2631 | the loop applies every prepared swap to the live table |
| PayloadFiles.BulkCommitIsStepwise | crates/machine-fabric-runtime/src/controller.rs:2594-2631 | applying prepared swaps in bulk keeps the invariant the single steps keep |
| PayloadFiles.MigratedFieldReadsTheSame | crates/machine-fabric-runtime/src/controller.rs:2663-2746 | migrating a deployed marker changes neither what a reader sees nor any other payload |
| PayloadFiles.MigratedTaskReadsTheSame | crates/machine-fabric-runtime/src/controller.rs:2708-2746 | whatever could be read of an entry before migration reads the same after it |
| PayloadFiles.MigratedTableReadsTheSame | crates/machine-fabric-runtime/src/controller.rs:2708-2746 | after migrating a whole table every entry, also those migrated before later files were written, reads in the final store as it did before |
| PayloadLaws.DeployedResolvesIff | crates/machine-fabric-runtime/src/controller.rs:2663-2706 | a well-formed deployed marker reads as the decoded value of its file exactly when that has the stated length and digest and decodes; a malformed one is an error |
| PayloadLaws.ExternalisedIff | crates/machine-fabric-runtime/src/controller.rs:2844-2884 | over intact files a persist never fails and moves out exactly the values over 64 KiB of tasks that have ended, each to the file of its digest |
| PayloadLaws.CommittedIff | crates/machine-fabric-runtime/src/controller.rs:2612-2631 | an update is applied exactly to the unchanged task it was made from, where that has no reference yet |
| PayloadLaws.PersistMovesLargeValues | crates/machine-fabric-runtime/src/controller.rs:2594-2640 | a persist that nothing disturbs leaves the live task with exactly its large values moved out |
| PayloadLaws.MigratedIff | crates/machine-fabric-runtime/src/controller.rs:2708-2746 | over intact files a field is converted exactly when its marker is readable and has no reference beside it |
| PayloadFiles.MigrateDeployedTaskPayloads | crates/machine-fabric-runtime/src/controller.rs:2708-2746 | the loop migrates every entry in order or fails as a whole, and the migrated table reads the same |
| Leases.FencesIncreaseByOne | crates/machine-fabric-core/src/lease.rs:30-177 | over any run, restores included, the fences issued for a resource are 1, 2, 3 and so on, and a current lease has the last one |
| Leases.DeadTokensStayDead | crates/machine-fabric-core/src/lease.rs:30-177 | under a clock that does not go back, a token that stopped validating never validates again |
| Leases.TokenStaysDead | crates/machine-fabric-core/src/lease.rs:44-177 | the same for each single operation |
| Leases.ClockMustNotGoBack | crates/machine-fabric-core/src/lease.rs:84-93 | with an earlier clock an expired token validates again |
| LeaseLaws.AcquireIffUnheld | crates/machine-fabric-core/src/lease.rs:44-79 | a resource is given out exactly when no owner and token validate for it at that time; a refusal names the holder and until when it holds |
| LeaseLaws.OneHolder | crates/machine-fabric-core/src/lease.rs:84-93 | at one time at most one owner and token validate for a resource |
| LeaseLaws.HeldUntilGivenUp | crates/machine-fabric-core/src/lease.rs:44-177 | over every run with a clock that does not go back, a token that validates goes on validating exactly until its expiry as last renewed, unless its holder releases it or the owner it was offered to takes it; until then nobody else validates and every acquire is refused |
| LeaseLaws.OwnerChangesOnlyByOffer | crates/machine-fabric-core/src/lease.rs:44-177 | from the first lease on, a resource acquired and never offered or released has no other holder before its expiry, whatever others do |
| LeaseLaws.HolderActs | crates/machine-fabric-core/src/lease.rs:95-156 | only a validating token renews, offers or releases; a renewal holds for its new time, an offer changes nothing yet, a release leaves nobody |
| LeaseLaws.OfferIsTaken | crates/machine-fabric-core/src/lease.rs:124-146 | an offer is taken exactly by the owner it names, who alone holds the resource from then on |
| LeaseLaws.ReapIsInvisible | crates/machine-fabric-core/src/lease.rs:165-177 | reaping changes no later validation |
| Leases.RestoreIsIdentity | crates/machine-fabric-core/src/lease.rs:26-42 | a table is restored exactly from its own leases and fences, in any order |
| Leases.RestoreWithoutFencesIffAllLeased | crates/machine-fabric-core/src/lease.rs:26-42 | restoring from leases alone is exact exactly when every resource ever leased still is |
| Leases.RestoreReissuesFence | crates/machine-fabric-core/src/lease.rs:26-79 | after a lease was released, restoring from leases alone issues its fence a second time |
| LeaseTableObject.LeaseTable.AcquireLease | crates/machine-fabric-core/src/lease.rs:44-79 | an unexpired lease conflicts, else the next fence is issued |
| LeaseTableObject.LeaseTable.Check | crates/machine-fabric-core/src/lease.rs:80-93 | a lease validates exactly for its owner, token and unexpired time |
| LeaseTableObject.LeaseTable.RenewLease | crates/machine-fabric-core/src/lease.rs:95-108 | only the expiry of a valid lease moves |
| LeaseTableObject.LeaseTable.HandoffLease | crates/machine-fabric-core/src/lease.rs:110-122 | a valid lease records its next owner |
| LeaseTableObject.LeaseTable.TakeLease | crates/machine-fabric-core/src/lease.rs:124-145 | the named next owner gets a new token and the next fence |
| LeaseTableObject.LeaseTable.ReleaseLease | crates/machine-fabric-core/src/lease.rs:147-155 | a valid lease goes and its fence stays |
| LeaseTableObject.LeaseTable.ReapExpired | crates/machine-fabric-core/src/lease.rs:165-177 | exactly the expired leases go and every fence stays |
| Peer.CallsArePairedAndSettled | crates/machine-fabric-peer/src/connection.rs:478-553 | over all interleavings: a request frame is queued exactly once for exactly the registered calls, a returned response is the one read for that call's own frame (and identity, when scoped) or an unknown outcome, a waiting caller can always still be told, both tables and the queue stay within limits, a closed connection has no pending call, and handlers past their conditions are cancelled |
| PeerAnswers.AnswerIsReturned | crates/machine-fabric-peer/src/connection.rs:767-783 | over every run, when a response of its identity is read for a pending call and its deadline does not strike, the call returns exactly that response, by at most a delivery and a receive |
| PeerAnswers.UnknownIffExcused | crates/machine-fabric-peer/src/connection.rs:478-553 | over every run, a call that returned has an unknown outcome exactly when its deadline struck, the connection closed while it was pending, a scoped response came under a wrong identity, or the peer itself answered so |
| PeerAnswers.OnlyOpenCallsArePending | crates/machine-fabric-peer/src/connection.rs:478-553 | over every run a call that has returned or was forgotten takes up no place among the pending ones |
| PeerAnswers.CallIsSentIff | crates/machine-fabric-peer/src/connection.rs:498-533 | a call is registered, with its frame queued, exactly when the connection is open and ready, the service is offered and both limits allow it, and otherwise nothing changes |
| PeerAnswers.RequestIsServed | crates/machine-fabric-peer/src/connection.rs:791-868 | in an open connection an admitted request that is authorized and not cancelled is run, its response frame is queued and its entry removed |
| PeerAnswers.HandlerStartsIff | crates/machine-fabric-peer/src/connection.rs:842-855 | a checked request is run exactly when it is authorized and not cancelled, and is answered otherwise |
| PeerAnswers.CheckPassesIff | crates/machine-fabric-peer/src/connection.rs:841-847 | the liveness check passes exactly in an open connection whose lease has not ended |
| PeerAnswers.RequestIsAdmittedIff | crates/machine-fabric-peer/src/connection.rs:791-829 | a request under a new identity is admitted exactly while there is room, and answered with a refusal otherwise |
| PeerAnswers.MisuseStopsReader | crates/machine-fabric-peer/src/connection.rs:767-812 | a request identity in use and a scoped response of a wrong identity stop the reader, and nothing else read as a response does |
| PeerAnswers.GiveUpAsksToCancel | crates/machine-fabric-peer/src/connection.rs:543-551 | a caller that gives up queues a cancel frame exactly on the scoped protocol |
| Peer.RunKeeps | crates/machine-fabric-peer/src/connection.rs:478-871 | the connection invariant holds over every run |
| Peer.StepKeeps | crates/machine-fabric-peer/src/connection.rs:478-871 | each critical section keeps it |
| Peer.RunAnswers | crates/machine-fabric-peer/src/connection.rs:617-639 | a call that returned keeps its one answer, and the first close reason is final |
| Peer.CloseReleasesEveryCaller | crates/machine-fabric-peer/src/connection.rs:617-639 | once a closed connection has sent its notices, every waiting caller can return |
| Peer.NoHandlerStartsAfterClose | crates/machine-fabric-peer/src/connection.rs:791-868 | over every run after a close, a running handler was already running when it happened |
| Peer.UncancelledIffEnteredAfterClose | crates/machine-fabric-peer/src/connection.rs:764-829 | over every run after a close, an inbound entry is uncancelled exactly when it was read after the close and the peer has not cancelled it since |
| Peer.UncancelledIsReached | crates/machine-fabric-peer/src/connection.rs:764-829 | a close between the liveness condition and the insertion leaves such an entry |
| PeerObject.Connection.StartCall | crates/machine-fabric-peer/src/connection.rs:498-533 | a call is registered and its frame queued together, or refused with nothing left behind |
| PeerObject.Connection.CloseWith | crates/machine-fabric-peer/src/connection.rs:617-639 | the first close cancels every handler and takes every pending call into its notice; later closes change nothing |
| PeerObject.Connection.SendFrame | crates/machine-fabric-peer/src/connection.rs:646-654 | a frame is queued, dropped when it is too long or the lease has ended, or closes the connection when the queue is full |
| PeerObject.Connection.HearFrame | crates/machine-fabric-peer/src/connection.rs:767-783 | a response goes to the pending call of its frame id; a wrong identity fails that call and stops the reader |
| PeerObject.Connection.AdmitFrame | crates/machine-fabric-peer/src/connection.rs:791-829 | a repeated id stops the reader, a full table answers busy, else the request is entered uncancelled |
| PeerObject.Connection.FinishHandshake | crates/machine-fabric-peer/src/connection.rs:750-759 | the peer becomes callable with the services it named, unless the connection is closed by then |
| PeerObject.Connection.SendMessage | crates/machine-fabric-peer/src/connection.rs:631-637 | a message taken out of the table reaches the channel of its own call and leaves transit |
| PeerObject.Connection.ReceiveOrElapse | crates/machine-fabric-peer/src/connection.rs:534-536 | a caller returns what its channel holds, else its deadline has passed |
| PeerObject.Connection.ForgetCall | crates/machine-fabric-peer/src/connection.rs:536-543 | after the deadline the call leaves the table |
| PeerObject.Connection.GiveUpOn | crates/machine-fabric-peer/src/connection.rs:543-551 | then the peer is asked to cancel, on the scoped protocol, and the caller returns an unknown outcome |
| PeerObject.Connection.CheckLive | crates/machine-fabric-peer/src/connection.rs:841-847 | a handler goes on only in a connection that is open at that moment |
| PeerObject.Connection.StartHandler | crates/machine-fabric-peer/src/connection.rs:842-855 | it runs only when authorized and not cancelled |
| PeerObject.Connection.Answer | crates/machine-fabric-peer/src/connection.rs:856-867 | its response is queued, dropped or fatal before its entry goes |
| PeerObject.Connection.CancelInboundRequest | crates/machine-fabric-peer/src/connection.rs:784-790 | a cancel frame marks the named request and nothing else |
| PeerFraming.EncodeBounded | crates/machine-fabric-peer/src/connection.rs:889-914 | a document written piece by piece becomes a frame exactly when it and its newline fit |
| PeerFraming.MeasureBounded | crates/machine-fabric-peer/src/compression.rs:15-28 | the size of a document within the budget, else nothing |
| PeerFraming.ReadFrameIff | crates/machine-fabric-peer/src/connection.rs:874-887 | a frame is read exactly when a newline ends it within the limit, and it is that line; only an empty stream counts as disconnected |
| PeerFraming.FramesReadBack | crates/machine-fabric-peer/src/connection.rs:874-914 | any list of newline-free documents within the limit is read back frame by frame, whatever follows |
| PeerFraming.FramedIffReadable | crates/machine-fabric-peer/src/connection.rs:874-914 | a document without newlines is framed exactly when an end with the same limit reads its frame |
| PeerCompression.EncodeResponseFrame | crates/machine-fabric-peer/src/compression.rs:30-56 | the size counted while writing, within its budget, decides as the size of the whole document does |
| PeerCompression.DecodeResponseFrame | crates/machine-fabric-peer/src/compression.rs:58-95 | the decoded frame or the first error; whatever the frame claims, no more than one byte past the declared size is ever expanded, within both limits |
| PeerCompression.CompressionIsTransparent | crates/machine-fabric-peer/src/connection.rs:656-680 | with equal limits and flags, a response whose plain frame fits is framed within the limit and received as the same id and response |
| PeerCompression.DecodesIffWithinLimit | crates/machine-fabric-peer/src/compression.rs:30-95 | an encoded response decodes to itself exactly when it was sent plain or its size is within the receiver's limit |
| PeerCompression.ChosenFrameIsNotLonger | crates/machine-fabric-peer/src/compression.rs:30-56 | the chosen frame is never longer than the plain one, and a compressed one is shorter by more than 200 bytes |
| PeerCompression.DecodedIsBounded | crates/machine-fabric-peer/src/compression.rs:58-95 | any accepted compressed frame was negotiated, expands to the declared size within both limits, and holds a successful response |
| PeerCompression.TooLongBecomesFailure | crates/machine-fabric-peer/src/connection.rs:656-680 | a response whose plain frame is too long is replaced by a plain failure, also when compression would have fitted |
| PeerCompression.BothEndsAgree | crates/machine-fabric-peer/src/connection.rs:683-759 | both ends of a completed handshake hold the same flag whatever their ages, name each other, and share protocol, binding and required services |
| PeerCompression.HandshakeCompletesIff | crates/machine-fabric-peer/src/connection.rs:683-759 | a handshake completes exactly between ends that speak one protocol, name each other, share the binding and offer what the other requires under at most 64 valid names |
| PeerCompression.CompressedIff | crates/machine-fabric-peer/src/compression.rs:30-56 | a response is compressed exactly when agreed, successful, between 64 KiB and 32 MiB, and more than 256 bytes shorter as base64 |
| PackWriter.PackTree | crates/machine-fabric-runtime/src/datapack.rs:75-255 | the sorted, digested and laid out file, or the first error in the program's order |
| PackWriter.DigestContent | crates/machine-fabric-runtime/src/datapack.rs:124-142 | the digested content covers every path, a zero and its packed bytes in order; a missing base entry stops it |
| PackWriter.PartOffsets | crates/machine-fabric-runtime/src/datapack.rs:157-181 | each part begins where header, index and the parts before it end |
| PackWriter.WriteParts | crates/machine-fabric-runtime/src/datapack.rs:201-251 | the bytes written front to back are the layout |
| PackWriter.ParseEntries | crates/machine-fabric-runtime/src/datapack.rs:281-363 | the table of ranges, or the first error in the program's order |
| PackWriter.IsChanged | crates/machine-fabric-runtime/src/datapack.rs:272-279 | a path is changed exactly when it is a prefix or continues one with a slash |
| PackOrder.SortIsSortedPermutation | crates/machine-fabric-runtime/src/datapack.rs:75-75 | the resources come out in byte order of their paths, none lost or added |
| PackOrder.NeighboursDecide | crates/machine-fabric-runtime/src/datapack.rs:76-83 | after sorting, comparing neighbours finds a repeated path exactly when there is one |
| PackTheorems.DuplicatesAreReported | crates/machine-fabric-runtime/src/datapack.rs:75-83 | packing reports a duplicate exactly when two collected files share a path |
| PackTheorems.OrderDoesNotMatter | crates/machine-fabric-runtime/src/datapack.rs:66-83 | collecting the same files in another order gives the same result |
| DataPack.WrittenReadsBack | crates/machine-fabric-runtime/src/datapack.rs:157-251 | a written file within the format's limits is accepted, and each path's range holds its bytes |
| DataPack.ParsedRangesInside | crates/machine-fabric-runtime/src/datapack.rs:281-363 | in any accepted file every returned range lies inside the file |
| PackTheorems.PackThenParse | crates/machine-fabric-runtime/src/datapack.rs:75-363 | parsing a packed file, full or incremental, names exactly the collected paths and finds exactly their packed bytes |
| PackTheorems.IncrementalIsFullIffSameBytes | crates/machine-fabric-runtime/src/datapack.rs:90-251 | an incremental build equals the full build byte for byte exactly when every path outside the changed prefixes has the same bytes in base and tree |
| PackTheorems.RebuildOnEarlierPack | crates/machine-fabric-runtime/src/datapack.rs:90-251 | building on the pack of an earlier tree equals the full build when unchanged files were in that tree |
| PackTheorems.PrefixCovers | crates/machine-fabric-runtime/src/datapack.rs:272-279 | a prefix covers its own path and every path that continues it with a slash, and no other |
| PackTheorems.ChangedIsReadFromTree | crates/machine-fabric-runtime/src/datapack.rs:116-251 | in a written pack every file at or below a changed prefix has the bytes of the tree, and every other file those of the base |
| PackTheorems.PackSucceedsIff | crates/machine-fabric-runtime/src/datapack.rs:75-251 | packing succeeds exactly when no path is taken twice, there is something to pack, the base has the expected digest, reads and holds every unchanged file, and count and length can be written |
| PackTheorems.ParseAcceptsIff | crates/machine-fabric-runtime/src/datapack.rs:281-363 | the reader accepts exactly files of version 5 with a whole index of offsets that never decrease and stay inside the file, and a manifest with a path for every other part |
| PackTheorems.ParsedTableIs | crates/machine-fabric-runtime/src/datapack.rs:281-363 | of any accepted file it returns exactly the paths of the manifest, each with the range of the last part that has it |
| PackTheorems.FormatFields | crates/machine-fabric-runtime/src/datapack.rs:203-232 | the header and the index entries carry the version, zeros and numbers of the format |
| PackTheorems.HashCoversBodies | crates/machine-fabric-runtime/src/datapack.rs:124-143 | over the same paths and lengths what is hashed differs whenever any body does |
| WindowsArgs.QuoteArgument | crates/machine-fabric-runtime/src/process.rs:694-718 | the loop writes the quoted form: bare when possible, backslashes doubled before quotes and at the end |
| WindowsArgs.JoinedIsParsed | crates/machine-fabric-runtime/src/process.rs:694-718 | parsing the joined quoted arguments by the CommandLineToArgvW rules, with or without the doubled-quote rule, returns the same list |
| WindowsArgs.QuotedIsParsed | crates/machine-fabric-runtime/src/process.rs:694-718 | one quoted argument is parsed back and never consumes what follows its space |
| WindowsArgs.ArgumentsArriveIffNulFree | crates/machine-fabric-runtime/src/process.rs:694-718 | on a NUL-terminated command line the list arrives exactly when no argument holds a NUL |
| WindowsArgs.LaunchedArgumentsArriveIff | crates/machine-fabric-runtime/src/windows.rs:467-475 | a started program gets its arguments back exactly when none of them holds a NUL or begins with a verbatim path prefix |
| WindowsArgs.LeftAloneIff | crates/machine-fabric-runtime/src/process.rs:694-718 | an argument is passed on as it is exactly when it is not empty and holds no quote and no white space, and is put in quotes otherwise |
| OutputText.ShowText | crates/machine-fabric-runtime/src/command.rs:45-64 | the scan ends at the first character boundary from the budgeted start |
| OutputText.TextIsBounded | crates/machine-fabric-runtime/src/command.rs:45-64 | the text has at most 65536 bytes, is well-formed UTF-8, and uses the limit up to three bytes when there is enough output |
| OutputText.UnmarkedTextIsComplete | crates/machine-fabric-runtime/src/command.rs:39-64 | output not marked truncated is shown as the decoding of all its bytes; truncated output carries the notice |
| OutputText.LossyNotShorter | crates/machine-fabric-runtime/src/command.rs:54-59 | replacement decoding never shortens |
| OutputText.LossyIsValid | crates/machine-fabric-runtime/src/command.rs:56-56 | decoding gives well-formed UTF-8 and leaves well-formed bytes alone |
| OutputText.CutOutput | crates/machine-fabric-runtime/src/command.rs:54-63 | well-formed output of which more is kept than fits, also when the kept bytes begin inside a character, is shown from its next whole character, with one replacement character in front exactly after three loose bytes |
| OutputText.KeepTail | crates/machine-fabric-runtime/src/command.rs:74-90 | the last 65536 bytes of what was measured are kept with its length, however the file grows meanwhile |
| OutputText.KeptOutput | crates/machine-fabric-runtime/src/command.rs:45-90 | the same for every well-formed output longer than the limit |
| OutputText.KeptWhole | crates/machine-fabric-runtime/src/command.rs:45-90 | well-formed output within the limit is shown as it is |
| OutputText.CutIsSuffixIff | crates/machine-fabric-runtime/src/command.rs:54-63 | what is shown of kept well-formed output is a suffix of the output exactly when the cut leaves fewer than three loose bytes |
| OutputText.ShownIsSuffixIff | crates/machine-fabric-runtime/src/command.rs:45-90 | for every well-formed output as the program captures it, what is shown is a suffix exactly when it is within the limit or the cut leaves fewer than three loose bytes |
| OutputText.LooseBytesAreShown | crates/machine-fabric-runtime/src/command.rs:45-90 | a captured output of 70000 well-formed bytes whose shown text is not a suffix of it |

## Left out

- Handoff.OneAuthority: for runs shorter than the largest 64-bit number, because epochs saturate there; what happens at saturation is a separate lemma.
- Handoff.RoutingTerminates: the same bound, and in a state that does not change while the request travels; `HandoffProgress` has the steps in between.
- Payloads.ExternalisationIsInvisible: for fewer steps than the largest 64-bit number, because revisions saturate there.
- DesktopRun.AtMostOneLaunch: for the consumers of one executor, as a step machine, since the interleaving of processes is the point; `DesktopFleet` has all executors and `DesktopConsumer` the sequential program.
- HandoffController.Controller.RouteRequest: the table of Controllers, in which the named one may be missing, and the forwarding call are not modelled.
- HandoffController.Controller.AcceptHandoff: authority records only, without the bundle of tasks, artifacts and agents.
- PeerAnswers.AnswerIsReturned: a delivery and a receive are steps that can be taken; that threads are scheduled is not modelled.
- Peer.CallsArePairedAndSettled: condition variables, the shutdown callback and thread counts are not modelled; real time is the choice to elapse.
- PackWriter.PackTree: files do not change between the passes that digest, measure and copy them; the walk of the tree, path policy and the atomic rename are not modelled.
- WindowsArgs.JoinedIsParsed: the program name, which follows other rules, and the conversion to UTF-16 are not modelled; prefixes the launcher takes off are in `LaunchedArgumentsArriveIff`.
- Leases.FencesIncreaseByOne: fences and desktop epochs are unbounded numbers; their 64-bit overflow is not modelled.
- `session.put` without an authority over an existing record resets it; runs of the handoff protocol start from one first put, and the reset appears only in `BarePutIsSafeIffUnknownElsewhere`.
- A persist that fails during a handoff.
- `capability.invoke` across restarts, and evidence compaction, which changes values on purpose.
- The legacy locator path of payload files, hydration of event and error details, and paging.
- Values whose top level is itself a payload marker.
- DesktopObject.DesktopQueue.ListJobs: without the last-recovery report and the wake counters.
- The wording of errors.
- JSON, SHA-256, gzip and base64 internals, sockets, SSH, the command line tools, accessibility and browser automation, telemetry and installers.
