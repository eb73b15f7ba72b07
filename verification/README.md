# A verified model of the calluwu realtime data plane

`runtime/calluwu-core` is a set of bounded, single-writer state machines joined by first-in first-out
queues: a session actor with its response and transcription tasks, an event pipeline with a retrying
delivery worker, a tool coordinator with an idempotency ledger, a shard supervisor, and the stream
decoders of the provider gateway. This project models them in Dafny and proves what they promise over
whole runs, for every interleaving and every behaviour of clients, providers, sinks and schedulers.

`dafny verify dfyconfig.toml` checks everything.

## How it is organised

| part | modules |
|---|---|
| session actor, its tasks and the composed system | `SessionModel` (state, handlers and system steps as values), `ResponsePipeline`, `Transcription` (the tasks), `ClientView` (what a client sees), `DialogueInvariant`, `ListeningInvariant`, `SessionSafety`, `PipelineSafety`, `SystemSafety` (the invariant, kept by every step), `SessionTheorems` (the promises), `ResponseMirror`, `TurnMirror`, `Greetings`, `SessionMirror`, `MirrorTheorems` (what is sent is what was said), `Arrivals` (what is taken in is what arrived), `Interruptions`, `SessionPhases` (what each step calls for), `ResponseBudgets`, `ResponseFaults` (what a task passes on, and when it fails), `SessionExample`, `ResponseExample` (they are not empty), `SessionActor`, `SessionRun` (the actor, and the session that drives it, as classes) |
| conversation history, bounded maps | `History`, `BoundedMaps` |
| event pipeline | `EventSpool` (step machine and promises), `SpoolAcceptance` (when a publish is accepted), `EventPipeline` (the class) |
| tools | `ToolSchema` (input schemas), `ToolLedger` (step machine and promises), `ToolAdmission` (which calls run, and what answers mean), `ToolCoordinator` (`execute` as a class) |
| supervisor | `Supervisor` (step machine and invariant), `SupervisorTheorems`, `SupervisorAccess` (who may attach and stop), `ShardSupervisor` (the class) |
| gateway decoders | `SseDecoder`, `SseWire` (streams read as written), `SseChunking`, `SseExample`, `AudioDeframer`, `AudioChunking`, `TtsText`, `Gateway` (what they share) |
| shared | `Common`, `Json` |

Concurrent parts have two forms. A step machine on values gives the meaning: every lock-held section,
queue operation, provider answer, timeout, cancellation and dropped future is a step, steps come in any
order, and promises are lemmas about every run. A class in the program's own form (fields changed by
methods, early returns on errors, other operations running wherever the code awaits) has methods
proved to be exactly those steps, so the promises carry over.

Environment choices are inputs of the steps: which ready branch of the actor's loop fires, whether the
transport takes an output, what the delivery worker does around each publish, what a provider or tool
answers, when time passes. Cancelled and aborted tasks may stop at any point or keep emitting; the
promises hold either way. Epochs are saturating 64-bit counters in the code and in the model; promises
about sessions assume only that the input epoch counter has not reached its maximum.

Four places where a promise needs a condition are stated with it:

* Active plus prepared sessions stay within the shard's capacity throughout a run exactly when no step
  of the run enrols an actor over a full shard (`CapacityIff`, from the step-wise `OverfillsIff`). That is
  so if no reservation happens while an attach hand-off is under way and direct admission is unused
  (`CapacityShared`); two short runs overfill (`OverlappingHandoffOverfills`, `DirectAdmissionOverfills`).
* The comment that stale state can never cancel a newer actor (`supervisor.rs:436-437`) holds throughout
  a run exactly when no stop finishes while its session runs again under the same generation
  (`RunningRegisteredIff`, `StopUnregistersIff`). That is so if no session and generation is admitted
  twice (`RunningActorsBounded`); `ReadmittedGenerationUnregistered` is a run in which it fails.
* The comment that a failed invocation of a tool without side effects may be retried (`domain.rs:10`)
  holds exactly when the failing call settles (`RetryIffSettled`): a future dropped while in flight, or an
  output that cannot be encoded, leaves its key in flight for the rest of the session
  (`DroppedCallBlocksRetry`).
* Decoding is independent of chunking, at any size, exactly under conditions on the bytes alone
  (`SseChunking.IndependentIff`, `AudioChunking.IndependentIff`). Reasoning: within 4 MiB, at the first
  block long enough for the per-event guard to fire inside it (over 512 KiB and one byte, delimiter
  included) the bytes must have nothing more to yield and end permanently; over 4 MiB, the first 4 MiB
  must yield nothing. Audio: the response stays within 4 MiB, or its header is not accepted before that
  limit. Streams that are read differently when cut differently are `OutgrownResponseDiffers`,
  `LongEventDiffers` and `LongSilenceDepends`.

## Model

| member | source | states |
|---|---|---|
| `SessionTheorems.TerminalIsLast` | runtime/calluwu-core/src/session.rs:481-507 | in every reachable state of actor, spool and worker a terminal event is the last accepted one: at most one, nothing after it |
| `SessionTheorems.FlushedMeansPersisted` | runtime/calluwu-core/src/server.rs:486-499 | close code 1000 means the sink acknowledged every accepted event in order, numbered 1..n, ending in one session.completed or session.canceled, with no session.failed |
| `SessionTheorems.FlushedIff` | runtime/calluwu-core/src/server.rs:486-499 | once the delivery worker has stopped, a session is closed with code 1000 exactly when everything accepted was acknowledged and it ended in session.completed or session.canceled |
| `SessionExample.FlushedIsReachable` | runtime/calluwu-core/src/session.rs:481-507 | a quiet session completed by its operator does end flushed |
| `ResponseExample.AnsweredIsReachable` | runtime/calluwu-core/src/session.rs:882-1148 | a run exists in which one response, after a tool call, completes uninterrupted, with its reply the one assistant message, and the session ends in session.completed |
| `ResponseExample.ToolContextIsReachable` | runtime/calluwu-core/src/session.rs:997-1017 | a run exists to a running state whose current response has completed a tool call |
| `SessionTheorems.OutputsAreFenced` | runtime/calluwu-core/src/session.rs:935-1169 | response epochs a client sees never go back, nothing of a response follows its completion, each response's audio is numbered exactly 0..k-1 |
| `SessionTheorems.GuardsNeverFire` | runtime/calluwu-core/src/session.rs:968-1139 | the overlapping, unmatched, mismatched and unfinished tool errors and the missing assistant text error are unreachable in the composed system |
| `SessionTheorems.EmissionsFollowGrammar` | runtime/calluwu-core/src/session.rs:1905-1934 | what a response task has sent follows the grammar, and what the actor has taken is a prefix of it |
| `SessionTheorems.ContextAgrees` | runtime/calluwu-core/src/session.rs:882-945 | the first reasoner request is the retained history plus the user's text; after k processed tool calls the actor's history is a group-aligned suffix of the task's request messages |
| `SessionTheorems.HistoryIsLongestSuffix` | runtime/calluwu-core/src/session.rs:1403-1447 | while the loop runs, the history is the longest group-aligned suffix of everything pushed that fits both bounds |
| `SessionTheorems.EveryResponseCompletes` | runtime/calluwu-core/src/session.rs:1123-1230 | in a run ending completed or canceled, announced responses are exactly the completed ones, once each and in order; assistant messages are the final-round deltas of the uninterrupted ones, in order |
| `SessionTheorems.InputsAreFenced` | runtime/calluwu-core/src/session.rs:882-883 | each input epoch has at most one commit, one final transcript, one response; responses never outnumber inputs; starting one never supersedes another |
| `SessionTheorems.TranscribedAudioIsFaithful` | runtime/calluwu-core/src/session.rs:725-764 | audio handed to transcription is the ordered concatenation of exactly the frames heard in that epoch: nonempty, whole samples, within budget |
| `MirrorTheorems.ResponsesAreMirrored` | runtime/calluwu-core/src/session.rs:935-1148 | for every response: the texts and audio the client was sent and the milestones recorded are, in order and unchanged, a prefix of what its task emitted, so of what reasoner and synthesizer said; all that was taken off the lane while it is current; all of it once it completed uninterrupted |
| `MirrorTheorems.TurnsAreMirrored` | runtime/calluwu-core/src/session.rs:836-866 | for every turn: the transcripts shown are a prefix, in order, of the segments its transcription heard, or the text typed; all of those taken for the latest turn |
| `MirrorTheorems.ResponsesAnswerTheirTurns` | runtime/calluwu-core/src/session.rs:853-870 | the user text of a response is the final transcript shown for the turn it came from, and the final segment heard for it or the text typed |
| `MirrorTheorems.GreetingsAreOrdered` | runtime/calluwu-core/src/session.rs:509-667 | ready is said and recorded once, then started once the client starts; a client is told of exactly the interruptions recorded, unless the session breaks in between |
| `SessionMirror.NextMirrored` | runtime/calluwu-core/src/session.rs:533-594 | every step of the composed system keeps what is sent and recorded in agreement with what was emitted, heard and typed |
| `SessionMirror.RunMirrored` | runtime/calluwu-core/src/session.rs:509-596 | so does every run |
| `ResponseMirror.MirrorFollows` | runtime/calluwu-core/src/session.rs:935-1148 | an emission shown and recorded, or cut off by a fault, keeps the agreement for its response and every other |
| `ResponseMirror.MirrorStale` | runtime/calluwu-core/src/session.rs:941-947 | an emission of a response that is no longer current adds nothing |
| `TurnMirror.TurnsGrow` | runtime/calluwu-core/src/session.rs:836-870 | a segment or text shown, recorded and answered keeps the agreement for its turn and every other |
| `Arrivals.TakenInOrder` | runtime/calluwu-core/src/session.rs:223-276 | the texts of typed turns and the frames heard are among those the client sent, each used once, in the order sent |
| `Arrivals.TextIsTaken` | runtime/calluwu-core/src/session.rs:668-688 | a text taken off the lane opens the next turn exactly when the session is active and the message is new |
| `Arrivals.FrameIsTaken` | runtime/calluwu-core/src/session.rs:725-751 | a frame taken off the lane is heard, in the turn in progress, exactly when the session is active, unless it fails the session |
| `Interruptions.InterruptedIff` | runtime/calluwu-core/src/session.rs:641-751 | a client is told that a response is interrupted exactly when the step is a cancel naming it, a new text, the first frame of an utterance, or an end of the session while it is under way |
| `SessionPhases.PhasesAreDecided` | runtime/calluwu-core/src/session.rs:533-751 | a step of a running session leaves it in exactly the phase, and sends exactly the error notices, that its command, message, segment, frame or deadline calls for, unless the session breaks |
| `SessionPhases.StoppedStaysStopped` | runtime/calluwu-core/src/session.rs:481-507 | once a session is not running nothing more is sent, and its phase changes only by recording a failure |
| `SystemSafety.NextInv` | runtime/calluwu-core/src/session.rs:533-594 | every step of the composed system keeps the session invariant |
| `SystemSafety.RunInv` | runtime/calluwu-core/src/session.rs:509-596 | the invariant holds after any run whose input epoch has not saturated |
| `SystemSafety.ControlLoop` | runtime/calluwu-core/src/session.rs:598-639 | handling any control command keeps the loop invariant |
| `SystemSafety.MediaLoop` | runtime/calluwu-core/src/session.rs:571-586 | handling any media command keeps the loop invariant and the lanes |
| `SystemSafety.ArriveInv` | runtime/calluwu-core/src/session.rs:223-276 | queueing frames and ordered controls keeps the invariant, also when the media lane overruns |
| `SystemSafety.EnqueueInv` | runtime/calluwu-core/src/session.rs:244-304 | queueing client and operator commands keeps the invariant |
| `SystemSafety.RespondInv` | runtime/calluwu-core/src/session.rs:1905-1922 | a response task's step and its send keep the invariant |
| `SystemSafety.ListenInv` | runtime/calluwu-core/src/session.rs:764-832 | a transcription task's step and its send keep the invariant |
| `SystemSafety.StopInv` | runtime/calluwu-core/src/session.rs:536-562 | forced cancel, media overrun and both deadlines keep the invariant |
| `SystemSafety.TeardownInv` | runtime/calluwu-core/src/session.rs:481-489 | leaving the loop records a failure at most once and never after another terminal event |
| `SystemSafety.LeaveInv` | runtime/calluwu-core/src/session.rs:454-463 | Flushed is reported only after an orderly end whose worker delivered everything |
| `SessionSafety.StartResponseMid` | runtime/calluwu-core/src/session.rs:882-883 | starting a response finds no current one, so the superseding interrupt does nothing |
| `SessionSafety.LaunchGrows` | runtime/calluwu-core/src/session.rs:884-933 | a started response is announced once, is current, and starts from the agreed context |
| `SessionSafety.InterruptMid` | runtime/calluwu-core/src/session.rs:1156-1186 | interrupting completes the current response once and keeps the invariant |
| `SessionSafety.EndLoop` | runtime/calluwu-core/src/session.rs:1188-1230 | completing or canceling closes the current response and then accepts the one terminal event |
| `SessionSafety.FailAlways` | runtime/calluwu-core/src/session.rs:1232-1254 | failing drops the response and publishes nothing terminal yet |
| `SessionSafety.TextGood` | runtime/calluwu-core/src/session.rs:668-688 | a text input opens a fresh epoch, is finally transcribed once and answered once |
| `SessionSafety.AudioLoop` | runtime/calluwu-core/src/session.rs:725-751 | buffering a frame keeps the buffer equal to the frames of its epoch, within budget, or fails the session |
| `SessionSafety.CommitGood` | runtime/calluwu-core/src/session.rs:689-700 | a commit hands over the buffered utterance, once for its epoch |
| `SessionSafety.ClientLoop` | runtime/calluwu-core/src/session.rs:641-723 | every client message, duplicate or not, keeps the invariant |
| `SessionSafety.SttTaken` | runtime/calluwu-core/src/session.rs:811-817 | a final transcript of the current epoch is its first, and that epoch has no response yet |
| `SessionSafety.SttLoop` | runtime/calluwu-core/src/session.rs:836-880 | handling a transcription event keeps the invariant |
| `PipelineSafety.ExpectedNext` | runtime/calluwu-core/src/session.rs:968-1139 | the task's grammar grants what each guard of the actor demands |
| `PipelineSafety.ApplyGood` | runtime/calluwu-core/src/session.rs:935-1148 | every event of the current response other than failure keeps the invariant |
| `PipelineSafety.PipelineLoop` | runtime/calluwu-core/src/session.rs:935-948 | an event taken off the lane is handled if current, dropped if stale, and the invariant holds |
| `DialogueInvariant.TasksStep` | runtime/calluwu-core/src/session.rs:1905-1922 | taken events, then queued events, are exactly what a task sent |
| `DialogueInvariant.TasksLog` | runtime/calluwu-core/src/session.rs:621-627 | taking an event off the lane keeps that equation |
| `DialogueInvariant.DeliveredGrammatical` | runtime/calluwu-core/src/session.rs:1905-1934 | everything taken off the lane is grammatical |
| `DialogueInvariant.StaleSound` | runtime/calluwu-core/src/session.rs:941-947 | events of responses that are no longer current change nothing the client or history shows |
| `DialogueInvariant.FinishSound` | runtime/calluwu-core/src/session.rs:1119-1148 | a completed response adds its tracked text to the history and is closed for the client |
| `ListeningInvariant.CommitKeeps` | runtime/calluwu-core/src/session.rs:753-766 | a commit adds one faithful utterance under a new epoch |
| `ListeningInvariant.SttLog` | runtime/calluwu-core/src/session.rs:764-832 | transcription events arrive in order, and a final one is the first for its epoch |
| `ClientView.AcceptedLogIsFenced` | runtime/calluwu-core/src/session.rs:941-947 | a log the view accepts has ascending epochs and final completions |
| `ClientView.AcceptedFramesCount` | runtime/calluwu-core/src/session.rs:1795-1850 | a log the view accepts numbers each response's frames from zero without gaps |
| `ResponsePipeline.EveryRunIsGrammatical` | runtime/calluwu-core/src/session.rs:1531-1893 | whatever providers do and wherever it is cut, a task's emissions follow one grammar, its request is the first one plus the reported tool exchanges, and the round budget is never exhausted silently |
| `ResponsePipeline.StepOk` | runtime/calluwu-core/src/session.rs:1531-1893 | one step sends at most one event and keeps stage and grammar in agreement |
| `ResponsePipeline.TrackedTextIsFinalRound` | runtime/calluwu-core/src/session.rs:1576-1649 | the text a response carries is the deltas after its last tool event |
| `ResponseBudgets.PassesOn` | runtime/calluwu-core/src/session.rs:1531-1893 | whatever providers say, a task passes on, in order and unchanged, a prefix of the deltas and calls of the reasoner, of the outputs of the tools and of the frames of the synthesizer, all of them if it completes, each within the budgets |
| `ResponseBudgets.RunFrugal` | runtime/calluwu-core/src/session.rs:1576-1850 | over every run: deltas, texts, frames and total audio within their limits, whole samples, at most sixteen well-formed calls, no blank reply |
| `ResponseFaults.FaultsAreAnswered` | runtime/calluwu-core/src/session.rs:1576-1850 | a step answers with a failure exactly if what the provider just said is a cause for one: an error, a timeout, an early end, a limit overrun, a malformed call, a blank reply, too many calls or rounds, bad audio |
| `ResponseFaults.FailsForCause` | runtime/calluwu-core/src/session.rs:1531-1893 | over every run a failed response had such a cause in the last thing said to it, and with a cause nothing more is passed on |
| `ResponsePipeline.FinishedIsLast` | runtime/calluwu-core/src/session.rs:1851-1893 | nothing follows completion or failure |
| `ResponsePipeline.GrammarPrefix` | runtime/calluwu-core/src/session.rs:1924-1934 | cutting a task short leaves its emissions grammatical |
| `Transcription.StepOk` | runtime/calluwu-core/src/session.rs:764-832 | a transcription task's emissions follow its grammar and its audio never changes |
| `Transcription.EveryRunReports` | runtime/calluwu-core/src/session.rs:764-832 | a transcription reports what it hears, errors and timeouts included, in order and unchanged up to the first final segment, end or timeout; then it tells whether it saw a final one, and nothing more |
| `Transcription.FinalIsFirst` | runtime/calluwu-core/src/session.rs:811-818 | no final segment precedes a final segment |
| `SessionActor.Actor.constructor` | runtime/calluwu-core/src/session.rs:401-453 | a new actor is the session's initial state |
| `SessionActor.Actor.EmitOutput` | runtime/calluwu-core/src/session.rs:1352-1365 | an output is queued or refused, as the value handler says |
| `SessionActor.Actor.EmitEvent` | runtime/calluwu-core/src/session.rs:1315-1330 | an event is accepted or refused, as the value handler says |
| `SessionActor.Actor.EmitTerminalEvent` | runtime/calluwu-core/src/session.rs:1332-1350 | the terminal event goes through the reserved slot |
| `SessionActor.Actor.InterruptCurrent` | runtime/calluwu-core/src/session.rs:1156-1186 | the whole new session is the interrupt handler's |
| `SessionActor.Actor.PushHistory` | runtime/calluwu-core/src/session.rs:1403-1447 | the bounded history object refines pushing a group and keeping the longest fitting suffix |
| `SessionActor.Actor.StartResponse` | runtime/calluwu-core/src/session.rs:882-933 | the whole new session is the start handler's, whichever emission fails |
| `SessionActor.Actor.HandlePipeline` | runtime/calluwu-core/src/session.rs:935-1154 | the whole new session is the pipeline handler's, for each event and each error; that nothing else is shown is `ResponsesAreMirrored` |
| `SessionActor.Actor.CompleteResponse` | runtime/calluwu-core/src/session.rs:1119-1148 | the whole new session is the completion handler's |
| `SessionActor.Actor.FailSession` | runtime/calluwu-core/src/session.rs:1232-1254 | the whole new session is the failure handler's |
| `SessionActor.Actor.EndSession` | runtime/calluwu-core/src/session.rs:1188-1230 | the whole new session is the ending handler's |
| `SessionActor.Actor.HandleClient` | runtime/calluwu-core/src/session.rs:641-723 | the duplicate window object and the branches refine the client handler |
| `SessionActor.Actor.HandleAudio` | runtime/calluwu-core/src/session.rs:725-751 | the whole new session is the audio handler's |
| `SessionActor.Actor.CommitAudio` | runtime/calluwu-core/src/session.rs:753-766 | the whole new session is the commit handler's |
| `SessionActor.Actor.HandleSttUpdate` | runtime/calluwu-core/src/session.rs:836-880 | the whole new session is the transcription handler's |
| `SessionActor.Actor.HandleControl` | runtime/calluwu-core/src/session.rs:598-639 | the whole new session is the control handler's |
| `SessionActor.Actor.Overrun` | runtime/calluwu-core/src/session.rs:540-548 | the whole new session is the media overrun branch's |
| `SessionActor.Actor.CloseDown` | runtime/calluwu-core/src/session.rs:481-489 | recording an unexpected failure and dropping the sender is the teardown of the model |
| `SessionRun.Driven.Perform` | runtime/calluwu-core/src/session.rs:509-596 | any system step, taken by the class, is exactly that step of the model |
| `SessionRun.Driven.TakeFromControl` | runtime/calluwu-core/src/session.rs:563-570 | taking and handling a control command is the control step |
| `SessionRun.Driven.TakeFromMedia` | runtime/calluwu-core/src/session.rs:571-586 | taking and handling a media command is the media step |
| `SessionRun.Driven.Stop` | runtime/calluwu-core/src/session.rs:536-562 | the forced cancel, overrun and deadline branches are those steps |
| `SessionRun.Driven.LeaveLoop` | runtime/calluwu-core/src/session.rs:481-489 | leaving the loop is the teardown step |
| `SessionRun.Drive` | runtime/calluwu-core/src/session.rs:401-480 | a new session driven through any steps is in the state those steps reach, so its output is fenced and its terminal event last |
| `History.ConversationHistory.PushGroup` | runtime/calluwu-core/src/session.rs:1422-1447 | a group is accepted exactly when it fits alone; afterwards the history is the longest fitting group-aligned suffix of all accepted groups and the byte count is exact |
| `History.ConversationHistory.EvictGroup` | runtime/calluwu-core/src/session.rs:1449-1486 | eviction never errs on such a history and removes exactly the oldest group, never half a tool pair |
| `History.RetainedIsLongest` | runtime/calluwu-core/src/session.rs:1422-1447 | the retained suffix fits, and no longer suffix does |
| `History.OldestIsWholeGroup` | runtime/calluwu-core/src/session.rs:1449-1486 | the unmatched and inconsistent history errors are unreachable |
| `BoundedMaps.MessageWindow.IsDuplicate` | runtime/calluwu-core/src/session.rs:1389-1401 | a message is a duplicate exactly when its identifier is among the last 1,024 accepted |
| `BoundedMaps.PlayoutAckHistory.Record` | runtime/calluwu-core/src/protocol.rs:311-345 | queue and map hold the same distinct responses within capacity, each with the maximum acknowledged since it was last inserted |
| `BoundedMaps.PlayoutAckHistory.PlayedThroughMs` | runtime/calluwu-core/src/protocol.rs:347-354 | a lookup returns that maximum, or nothing for an untracked response |
| `BoundedMaps.KeptMaxima` | runtime/calluwu-core/src/protocol.rs:311-345 | maxima of the responses kept are unaffected by inserting and evicting others |
| `EventSpool.RunInv` | runtime/calluwu-core/src/event.rs:369-530 | every interleaving of producer, worker and sink keeps the spool invariant |
| `EventSpool.GapFreeAndInOrder` | runtime/calluwu-core/src/event.rs:401-469 | accepted events are numbered 1..n without gaps, and the acknowledged log is always a prefix of the accepted log |
| `EventSpool.RefusalBurnsNothing` | runtime/calluwu-core/src/event.rs:401-430 | a refused publish leaves sequence, log and channel alone |
| `EventSpool.ReservedSlot` | runtime/calluwu-core/src/event.rs:369-397 | queued ordinary events never exceed held permits nor those the capacity; so the terminal reserve never waits and a permitted publish never meets a full channel |
| `EventSpool.SinkCallsAreSlices` | runtime/calluwu-core/src/event.rs:488-530 | every sink call is the next contiguous slice within the batch size, or the same slice again after its scheduled delay, within the attempt budget |
| `EventSpool.DelayDoubles` | runtime/calluwu-core/src/event.rs:505-527 | retry delay k is the smaller of the ceiling and the initial delay times 2^(k-1) |
| `EventSpool.CloseVerdict` | runtime/calluwu-core/src/event.rs:477-485 | the worker's verdict is success exactly when everything accepted was acknowledged |
| `EventSpool.TryPublishEffect` | runtime/calluwu-core/src/event.rs:401-430 | a publish, with the worker running in between, appends its event or nothing |
| `EventSpool.PublishTerminalEffect` | runtime/calluwu-core/src/event.rs:432-469 | so does a terminal publish |
| `SpoolAcceptance.PublishVerdicts` | runtime/calluwu-core/src/event.rs:401-469 | in every reachable spool an ordinary publish is accepted exactly when a permit is left, the pipeline is open, the worker runs and numbers are left, else gets the first of these to fail; the first terminal publish needs only the last three |
| `SpoolAcceptance.AcceptsIff` | runtime/calluwu-core/src/event.rs:401-430 | so does a publish from any state in the invariant, whatever the worker does in between |
| `SpoolAcceptance.AcceptsTerminalIff` | runtime/calluwu-core/src/event.rs:432-469 | likewise the terminal publish |
| `SpoolAcceptance.WorkerVerdicts` | runtime/calluwu-core/src/event.rs:488-530 | the worker acknowledges exactly on success, gives up exactly on a permanent failure or at its last attempt, stops in good order exactly when closed and drained, and sends a short batch only when nothing more is queued |
| `EventPipeline.Pipeline.TryPublish` | runtime/calluwu-core/src/event.rs:401-430 | is the run Acquire, Reserve, Seal; returns Ok exactly when nothing stands in the way, accepting under the next number, and otherwise the first obstacle, changing neither log nor counter |
| `EventPipeline.Pipeline.PublishTerminal` | runtime/calluwu-core/src/event.rs:432-469 | is the run ReserveTerminal, Seal; the first one returns Ok exactly when the event is terminal, the pipeline open, its worker running and numbers left |
| `EventPipeline.Pipeline.DeliverBatch` | runtime/calluwu-core/src/event.rs:488-530 | receiving, filling, submitting and retrying one batch, whatever the sink answers to each try of each batch, is a run; it acknowledges more events or stops the worker |
| `EventPipeline.Pipeline.FinishBatch` | runtime/calluwu-core/src/event.rs:493-527 | from anywhere inside a turn of the worker, going on to its end is a run |
| `EventPipeline.Pipeline.CloseAndFlush` | runtime/calluwu-core/src/event.rs:477-485 | closing, whatever the worker is doing, lets it finish its batch and drain the channel; its verdict is success exactly when everything was acknowledged |
| `ToolLedger.LedgerKeyInjective` | runtime/calluwu-core/src/manifest.rs:266-274 | for valid tool names the joined ledger key determines tool and idempotency key |
| `ToolLedger.RunInv` | runtime/calluwu-core/src/tool.rs:97-205 | every interleaving of calls, cancels, timeouts, bad outputs and dropped futures keeps the ledger invariant |
| `ToolLedger.NeverOverlap` | runtime/calluwu-core/src/tool.rs:125-151 | two executions for one tool and key never run at once |
| `ToolLedger.CommitOnceStartsOnce` | runtime/calluwu-core/src/tool.rs:190-200 | a commit-once executor is started at most once for a key, ever |
| `ToolLedger.Bounded` | runtime/calluwu-core/src/tool.rs:116-149 | ledger entries stay within 1,024 and running executors within the permits |
| `ToolLedger.CachedIsOwn` | runtime/calluwu-core/src/tool.rs:133-139 | a cached answer was produced for the same tool and the same key |
| `ToolLedger.SuccessIsFinal` | runtime/calluwu-core/src/tool.rs:131-189 | after a success the executor never starts again for its pair, and every call that reaches the ledger returns that value |
| `ToolLedger.RetryIffSettled` | runtime/calluwu-core/src/domain.rs:10-11 | a failed call of a tool that does not commit once frees its key exactly when it settles; otherwise every later call is refused as in flight |
| `ToolLedger.DroppedCallBlocksRetry` | runtime/calluwu-core/src/tool.rs:125-151 | a call dropped while executing blocks the next one for its key |
| `ToolAdmission.OnlyAdmissibleStart` | runtime/calluwu-core/src/tool.rs:103-119 | over every run a started executor was called for a declared tool, with a key of 1 to 200 and an identifier of 1 to 160, and an input that encodes within 64 KiB and conforms to the tool's schema |
| `ToolAdmission.ObjectionsAreAnswered` | runtime/calluwu-core/src/tool.rs:103-119 | a call failing one of these is answered with the first that fails, never enters the ledger and never starts |
| `ToolAdmission.AdmittedCallsWait` | runtime/calluwu-core/src/tool.rs:119-123 | a call enters the queue exactly when there is no objection |
| `ToolAdmission.ConsultMeans` | runtime/calluwu-core/src/tool.rs:124-151 | at the ledger a call is refused exactly if one for its pair is under way or abandoned, gets the value exactly of one that succeeded, learns exactly of a commit-once failure, and otherwise goes ahead unless the ledger is full |
| `ToolAdmission.ResultsAreTheExecutors` | runtime/calluwu-core/src/tool.rs:153-176 | a returned value is what the executor answered, within 64 KiB; a failure names what it did |
| `ToolCoordinator.Tools.Execute` | runtime/calluwu-core/src/tool.rs:97-205 | one call, with other calls running wherever it waits and cancellation or a drop at any of those places, is a run of the step machine ending in the answer it returns; what the answer means is in `ToolAdmission` |
| `ToolCoordinator.Tools.Consult` | runtime/calluwu-core/src/tool.rs:124-151 | the first ledger section returns what it finds or enters the call, then runs it |
| `ToolCoordinator.Tools.Settle` | runtime/calluwu-core/src/tool.rs:176-205 | the second ledger section records success, marks a commit-once failure uncertain, or frees the key |
| `ToolSchema.ValidateInstanceMeaning` | runtime/calluwu-core/src/tool.rs:353-443 | for contract-accepted schemas the validator accepts exactly the values in a depth-free declarative meaning; its depth and unknown-type errors are unreachable |
| `ToolSchema.ObjectMeaning` | runtime/calluwu-core/src/tool.rs:384-408 | the object checks decide required, declared and conforming members |
| `ToolSchema.ItemsMeaning` | runtime/calluwu-core/src/tool.rs:409-416 | the array check decides that every element conforms |
| `ToolSchema.LengthMeaning` | runtime/calluwu-core/src/tool.rs:417-429 | the string check decides the declared lengths |
| `ToolSchema.NumberMeaning` | runtime/calluwu-core/src/tool.rs:430-442 | the number check decides the declared bounds |
| `Supervisor.RunInv` | runtime/calluwu-core/src/supervisor.rs:172-525 | every interleaving of lock-held sections keeps the registries, tickets, hand-offs and stops in order |
| `SupervisorTheorems.RegistriesBounded` | runtime/calluwu-core/src/supervisor.rs:199-248 | each registry holds at most the maximum; a session has at most one registered actor, its own |
| `SupervisorTheorems.PreparationLeavesOnce` | runtime/calluwu-core/src/supervisor.rs:278-304 | a created preparation is in the registry or left exactly once, and yields at most one lease, only by an attachment recorded as its departure |
| `SupervisorAccess.LeasesAreEntitled` | runtime/calluwu-core/src/supervisor.rs:278-304 | over every run a lease from a preparation was attached with its generation, tenant and binding, before it expired, and its actor runs in that context |
| `SupervisorAccess.DeparturesAreEntitled` | runtime/calluwu-core/src/supervisor.rs:410-525 | a preparation left by expiry had expired, and one stopped or attached was so with its own credentials in time |
| `SupervisorAccess.AttachVerdict` | runtime/calluwu-core/src/supervisor.rs:710-740 | an attach without a waiting preparation is told so; with one it gets the first objection (expiry, generation, tenant, binding) and changes nothing, or takes the preparation |
| `SupervisorAccess.UnprepareVerdict` | runtime/calluwu-core/src/supervisor.rs:479-489 | a stop that found no actor is judged alike, and succeeds if nothing waits |
| `SupervisorAccess.StopVerdict` | runtime/calluwu-core/src/supervisor.rs:463-477 | a stop finds the running actor and waits for it exactly when generation, tenant and the binding it was leased with match; else gets the first mismatch and changes nothing |
| `SupervisorAccess.ExpiryVerdict` | runtime/calluwu-core/src/supervisor.rs:410-434 | a timer removes a waiting preparation exactly when the fingerprint matches and it is due |
| `SupervisorAccess.ReservationVerdict` | runtime/calluwu-core/src/supervisor.rs:199-248 | a reservation of a served or waiting session is a replay exactly if fingerprint and generation match, else a conflict; a new one is refused exactly when the shard is full, else recorded as asked |
| `SupervisorAccess.AdmissionVerdict` | runtime/calluwu-core/src/supervisor.rs:342-404 | an admission is refused when draining, served already, full or not spawning, in that order; else a new actor serves the session |
| `SupervisorAccess.PrepareVerdict` | runtime/calluwu-core/src/supervisor.rs:176-198 | a reservation is refused at once when draining or its snapshot is unsound |
| `SupervisorTheorems.CapacityShared` | runtime/calluwu-core/src/supervisor.rs:229-231 | a condition on the interleaving that suffices: in calm runs active plus prepared sessions fit the shard |
| `SupervisorTheorems.CapacityIff` | runtime/calluwu-core/src/supervisor.rs:346-374 | over a whole run active plus prepared sessions fit the shard after every step exactly when no step enrols over a full shard |
| `SupervisorTheorems.OverfillsIff` | runtime/calluwu-core/src/supervisor.rs:346-374 | a step overfills exactly when it enrols an actor over an already full shard |
| `SupervisorTheorems.OverlappingHandoffOverfills` | runtime/calluwu-core/src/supervisor.rs:284-304 | a reservation between an attach's two sections overfills |
| `SupervisorTheorems.DirectAdmissionOverfills` | runtime/calluwu-core/src/supervisor.rs:306-340 | a direct admission beside a reservation overfills |
| `SupervisorTheorems.RunningActorsBounded` | runtime/calluwu-core/src/supervisor.rs:457-525 | if no session and generation is admitted twice, running actors are registered and at most the maximum |
| `SupervisorTheorems.StopUnregistersIff` | runtime/calluwu-core/src/supervisor.rs:515-523 | a stop unregisters a running actor exactly when it is another one of the same session and generation |
| `SupervisorTheorems.RunningRegisteredIff` | runtime/calluwu-core/src/supervisor.rs:457-525 | over a whole run every running actor stays registered exactly when no stop finishes while its session runs again under the same generation |
| `SupervisorTheorems.DrainAccounts` | runtime/calluwu-core/src/supervisor.rs:561-644 | a drain accounts for every actor it asked to stop, forces exactly those that outlast the grace period, and, admissions being unique, aborts exactly when one of them is still running |
| `SupervisorTheorems.ReadmittedGenerationUnregistered` | runtime/calluwu-core/src/supervisor.rs:515-523 | a run in which that happens |
| `ShardSupervisor.Registry.Prepare` | runtime/calluwu-core/src/supervisor.rs:172-248 | is a run of the step machine that ends in the reply it returns |
| `ShardSupervisor.Registry.AttachPrepared` | runtime/calluwu-core/src/supervisor.rs:278-304 | is a run: consume, others, check, others, enrol; who gets through is in `SupervisorAccess` |
| `ShardSupervisor.Registry.AdmitInternal` | runtime/calluwu-core/src/supervisor.rs:342-408 | is a run: check acceptance, others, enrol |
| `ShardSupervisor.Registry.StopSession` | runtime/calluwu-core/src/supervisor.rs:457-525 | is a run: locate, others, unregister by generation or drop the preparation |
| `ShardSupervisor.Registry.ExpirePreparation` | runtime/calluwu-core/src/supervisor.rs:410-434 | is the expiry step |
| `ShardSupervisor.Registry.Drain` | runtime/calluwu-core/src/supervisor.rs:561-644 | with others running wherever it waits, refuses newcomers, empties the prepared registry, and reports the actors that stopped, were forced and were aborted |
| `SseDecoder.SseBoundary` | runtime/calluwu-core/src/provider/gateway.rs:671-681 | finds the first blank-line boundary, of either style |
| `SseDecoder.BoundaryStable` | runtime/calluwu-core/src/provider/gateway.rs:671-681 | more bytes never move a boundary already found |
| `SseDecoder.ReadBlock` | runtime/calluwu-core/src/provider/gateway.rs:683-712 | parses one block exactly as the declarative reading of its lines |
| `SseDecoder.DecodeExtends` | runtime/calluwu-core/src/provider/gateway.rs:751-849 | decoding a prefix and then the rest is decoding the whole |
| `SseWire.StreamReadAsWritten` | runtime/calluwu-core/src/provider/gateway.rs:751-849 | any stream of written blocks (comments, either line end, any number of data lines), followed by an unfinished one, is decoded as the meanings of its blocks in order, up to a rejection or the completion |
| `SseWire.StreamsTold` | runtime/calluwu-core/src/provider/gateway.rs:751-849 | within the size limits, however cut into chunks, such a stream yields those events; it succeeds exactly if it completes, fails permanently if rejected or cut short, transiently if it breaks off |
| `SseWire.MeaningOfBlock` | runtime/calluwu-core/src/provider/gateway.rs:785-843 | after authentication a delta yields its text, a tool_call the call the payload holds if its input is an object, completed finishes exactly with a positive usage; before it only a meta with the expected identifier is taken; anything else is rejected |
| `SseWire.ReadAsWritten` | runtime/calluwu-core/src/provider/gateway.rs:683-712 | a written block is read as the one event name and the joined data lines it carries, and rejected if it carries anything else |
| `SseWire.BlockEnds` | runtime/calluwu-core/src/provider/gateway.rs:671-681 | the blank line written after a block is the first boundary found |
| `SseDecoder.Reason` | runtime/calluwu-core/src/provider/gateway.rs:751-849 | the loop is the stream function that its exact condition is about; within the size limits its events and outcome depend only on the concatenated bytes; always the events are a prefix of those, and success means all of them |
| `SseChunking.IndependentIff` | runtime/calluwu-core/src/provider/gateway.rs:755-849 | events and outcome are the same for every chunking exactly when the bytes say nothing a size guard could cut off |
| `SseChunking.GuardUnnoticed` | runtime/calluwu-core/src/provider/gateway.rs:844-847 | where the per-event guard fires in such a stream, everything has been said and the outcome is the guard's |
| `SseChunking.GuardNoticed` | runtime/calluwu-core/src/provider/gateway.rs:844-847 | in any other stream within the limit there is a place to cut at which the guard changes the result |
| `SseChunking.SilentStream` | runtime/calluwu-core/src/provider/gateway.rs:769-773 | over the response limit, bytes that say nothing within it end permanently with no event, however cut |
| `SseExample.ReadsBack` | runtime/calluwu-core/src/provider/gateway.rs:683-712 | a block written with one event and one data line is read back as written |
| `SseExample.OutgrownResponseDiffers` | runtime/calluwu-core/src/provider/gateway.rs:769-773 | bytes that outgrow the response limit after an event: read together nothing is yielded, read apart the event is |
| `SseExample.LongEventDiffers` | runtime/calluwu-core/src/provider/gateway.rs:844-847 | an event longer than the per-event limit: read together it is yielded, cut inside it is not |
| `SseDecoder.AuthenticatedFirst` | runtime/calluwu-core/src/provider/gateway.rs:785-800 | nothing is yielded before a meta event with the expected identifier |
| `SseDecoder.CompletedLast` | runtime/calluwu-core/src/provider/gateway.rs:824-849 | completion is the last event, and exactly then the stream finished |
| `AudioDeframer.DecodeSegment` | runtime/calluwu-core/src/provider/gateway.rs:984-1073 | the loop is the stream function that its exact condition is about; accept or reject is the same for every chunking; within the size limit so are the frames |
| `AudioChunking.IndependentIff` | runtime/calluwu-core/src/provider/gateway.rs:984-1073 | frames and outcome are the same for every chunking exactly when the response stays within its limit or its header is not accepted before it |
| `AudioChunking.OutgrownSegmentDiffers` | runtime/calluwu-core/src/provider/gateway.rs:1005-1009 | a response that outgrows its limit after its header: read together nothing is yielded, read apart its full blocks are |
| `AudioChunking.LongSilenceDepends` | runtime/calluwu-core/src/provider/gateway.rs:1005-1009 | such a response |
| `AudioDeframer.FramesAreTheAudio` | runtime/calluwu-core/src/provider/gateway.rs:1056-1072 | on accept the frames spell exactly the payload, each nonempty, even and at most 32 KiB |
| `AudioDeframer.AcceptedIff` | runtime/calluwu-core/src/provider/gateway.rs:984-1073 | a response is accepted exactly when, within 4 MiB, it is the letters CWT1, a header of 1 to 1,024 bytes with its length, carrying the wanted invocation, pcm16le, sample rate, one channel and character count, and nonempty whole samples; and those are what is yielded |
| `AudioDeframer.LaidOutcome` | runtime/calluwu-core/src/provider/gateway.rs:984-1073 | a laid-out response that is too long or has another header fails permanently however it ends; otherwise breaking off is a transient failure |
| `AudioDeframer.ScanExtends` | runtime/calluwu-core/src/provider/gateway.rs:1010-1051 | more bytes never undo a rejection nor move the payload |
| `TtsText.SplitTtsText` | runtime/calluwu-core/src/provider/gateway.rs:911-946 | terminates; segments are nonempty, trimmed, at most 500 characters, and with whitespace-only gaps spell the input; no word shorter than a window is cut |
| `TtsText.CutOf` | runtime/calluwu-core/src/provider/gateway.rs:920-938 | the cut is after the last sentence end of the second half, else before the last whitespace, else at the end |

## Left out

- HTTP, WebSocket, tracing and command-line code; of the server only the mapping from outcome to close code.
- Real time: timeouts, deadlines and cancellations are steps that may come at any moment; preparation expiry uses a monotone clock.
- JSON text, SHA-256 and UUIDs: encoded sizes are an arbitrary function, fingerprints opaque numbers, header and event payload parsing arbitrary fixed functions. Lengths that the code counts in bytes are sequence lengths here.
- Floating point: playout milliseconds and numeric schema bounds are reals.
- Server envelopes, message texts, reason and error codes, event payloads other than the response or turn an event belongs to, and the playout position attached to an interruption.
- Client message validation beyond what the actor's branches depend on: messages that reach a lane are valid.
- The CWU1 frame codec, manifest and provider-settings validation, speaker and language tables.
- `packages/webrtc-client`, `packages/sdk` and `scripts`.
- Poisoned locks, panics in the delivery worker, and a second `close` of an event pipeline.
- The scheduler's choice among ready branches of the actor's loop is the sequence of steps given to `SessionRun.Drive`.
- The response and transcription tasks are step machines on values, since their loops are interleaved with the actor at every send.
- Arrivals in the mailboxes during one handler are modelled before or after it, because handlers never look at the lanes; the delivery worker does run inside handlers.
- Cancelling, forcing and aborting an actor during a stop or drain are requests to code outside the supervisor: actors finish by steps of their own.
