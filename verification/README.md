# A verified model of professord

professord is a daemon with two threads: an event loop that serves HTTP
connections, and one worker that runs inference. They share a single job slot, a
token ring for each streaming job, a few flags and the wakeups that the worker posts
to the event loop. This project models that protocol, the generation loop behind it,
and the buffers, checks and configuration around it, and proves what they promise.

Verify everything with `dafny verify dfyconfig.toml` (Dafny 4.11).

## The parts

**The protocol** (`Protocol`, `ProtocolInvariant`, `ProtocolAccess`, `ProtocolTheorems`,
`ProtocolProgress`, `ProtocolOutcome`, `ProtocolWakeups`, `ProtocolTraces`). A state holds the slot, all
jobs, all connections and one program counter for each thread. A step is one critical
section, one atomic access or one access to a shared flag; a run is any interleaving of
such steps with requests, closes, new connections and a shutdown signal. There may be
any number of jobs and connections. Memory is sequentially consistent. A freed job keeps
its last contents, and every access to it is recorded: in `looks` when it comes from
the unlocked `worker_is_busy`, in `faults` otherwise. One inductive invariant holds in
every reachable state, and the theorems are read off it. `ProtocolProgress` adds that
under any schedule the threads come to rest: in a run without a shutdown everybody has
then been answered, and after a shutdown both threads have ended. `ProtocolOutcome` ties
the answer to the result with which the generation loop of the job returned, over whole
runs, and `ProtocolWakeups` bounds the wakeups a stream costs. `ProtocolTraces` exhibits reachable states that show where each guarantee
stops.

What it shows about the code:

- A job is lost (never picked up, never answered) exactly if it was accepted while the
  slot still held a finished job, that is, between the worker publishing the outcome
  and clearing the slot. `JobLost` is such a run.
- A job is leaked exactly if its connection closes after the worker's orphan test, or
  if it was lost and its connection closes at any time, because no worker ever makes
  the test for it. `JobLeaked` and `LostJobLeaked` are such runs.
  `doc/ARCHITECTURE.md:588` promises that the job of a client that disconnects during
  inference is always freed.
- Finalising a stream through the test under the ring's lock loses nothing; finalising
  it through the job state lacks exactly the tokens written after the ring was last
  seen empty. `TokenSkipped` is a run in which one is missing.
- Under the locks and flags, a job is used after it was freed exactly if the event loop
  finalised it while the worker still held it. This happens to streaming jobs alone,
  once their ring is marked as done; `StreamUsedAfterFree` is such a run.
- The unlocked look of `worker_is_busy` loads the state of a freed job exactly if that
  job was finalised so early, or the worker freed it since the slot was read.
  `LookedAtFreed` is such a run, with a job that does not stream.
- The worker asks a null manager for a wakeup exactly if the close of the connection
  gets between its two loads of `job->mgr`. `NullAsked` is such a run.

**The generation loop** (`StopWindow`, `Generation`, `Params`, `Inference`). Sampler,
decoder, clock and flags are functions of the iteration; the loop is proved to end
with the earliest event, and the end and the finish reason are also stated in terms of
these oracles alone. `doc/ARCHITECTURE.md:227-234` lists a decode error ahead of
EOS and stop strings; the code decodes last in each iteration (`src/inference.c:426`),
and the model follows the code. A decode error inside the loop leaves the return value
0. The prompt is fed in batches; `n_batch` is not validated, and a value below 1 makes
a prompt with tokens fail, because the decoder rejects a batch without tokens. The
context budget holds across configuration, request and loop; the 32-bit sum cannot
overflow exactly if `n_ctx` is at most 2^30.

**Buffers** (`TokenRing`, `ResponseBuffer`, `Chatml`, `WorkerSlot`, `Refinement`). The
ring is a class over an array that refines a queue; the response buffer is an exact
accumulator below 64 KiB; slot, ring and buffer are shown to carry out the steps of the
protocol. The two-pass ChatML renderer never cuts a write. A prompt can be read as
a conversation of more messages exactly if some content holds a complete message
border; among conversations without that, rendering is injective, and the prompt of any
two messages is also that of a single one with a border in its content. The prompt size limit of
`doc/ARCHITECTURE.md:478` is not applied when ChatML replaces a template that yields
nothing.

**Streaming and non-streaming agree** (`Agreement`, `Driven`, `DrivenRuns`). `Driven`
follows a job through a run of the protocol in which the generation loop supplies its
tokens, and `DrivenRuns` shows that every course of the loop has such runs. Over the same
oracles both ways deliver the same texts, for the same reason and with the same token
counts, exactly if the text that the stream delivers stays below 64 KiB; and then the
chunks of the stream add up to the text of the reply exactly if no delivered text is
longer than 127 bytes. A stop string's last piece is never delivered and does not matter.

**Around it** (`Auth`, `Connections`, `ConfigSyntax`, `ConfigMeaning`, `Config`). The comparison of the bearer header
(RFC 6750, section 2.1) accepts exactly the right header in a number of rounds that
depends on the key alone. The connection counter is exact throughout a run exactly if
no close of a connection that the allow list dropped is counted; every such close lets
one more connection in above the limit of 32. Configuration is last-writer-wins over
defaults, file and command line; `ConfigMeaning` says what the lines and arguments mean
as texts, apart from how they are parsed. For float parameters, `doc/ARCHITECTURE.md:418` says
that infinity is replaced with the configured default; the code clamps it to the low end
of the range, and it does not check the configured defaults themselves.

## Model

| member | source | states |
|---|---|---|
| ProtocolInvariant.StepKeeps | src/worker.c:171-290 | every step of either thread and of the environment keeps the invariant on ownership, flow, wakeups and slot |
| ProtocolInvariant.ReachableInv | src/server.c:336-523 | the invariant holds after every run, whatever the interleaving |
| ProtocolTheorems.NoLostWakeup | src/worker.c:101-125 | with no wakeup pending and no drain to come, an open streaming job's ring holds at most the tokens written since the last wakeup, never more than 8 |
| ProtocolTheorems.NoBackpressureDeadlock | src/worker.c:44-58 | a worker that waits on a full ring has a wakeup pending, or a drain under way, or its job is about to be cancelled |
| ProtocolTheorems.WakeupUnblocks | src/server.c:432-446 | handling that wakeup makes room in the ring in two steps |
| ProtocolTheorems.HandlerEnds | src/server.c:432-472 | every handler of the event loop ends although the worker keeps writing; a drain reads at most limit / 32 full batches |
| ProtocolTheorems.StreamConserved | src/server.c:424-499 | frames sent, then tokens in transit, then the ring are the tokens written, in order, each cut to 127 bytes; final chunk and DONE mark come at most once, last |
| ProtocolTheorems.StreamEnding | src/server.c:475-499 | finalised through the locked test a stream is complete; through the state it lacks exactly the tokens given after the last empty observation |
| ProtocolTheorems.ReplyComplete | src/server.c:343-401 | a job that does not stream gets one reply with its whole text if its state is done, or one error, or nothing yet |
| ProtocolOutcome.AnswerIsResult | src/worker.c:193-262 | in every run, an answered job's generation loop has returned, and the client of a job that does not stream got its text if the loop returned 0 and an error if it did not |
| ProtocolOutcome.ResultKept | src/worker.c:262-262 | from the return of the loop on, its result is on its way to be published or is the state of the job |
| ProtocolOutcome.ResultReachesClient | src/server.c:346-401 | where a run without a shutdown comes to rest, the client has got the reply or the error that the result calls for, unless it left |
| ProtocolOutcome.DrainingExactly | src/server.c:520-521 | a connection is told to close after its answer if and only if the answer was a stream |
| ProtocolWakeups.FewWakeups | src/worker.c:116-122 | while a job is generated, the worker asks for no more wakeups than it found the ring empty, and one for every eight tokens |
| ProtocolTheorems.FreedOnce | src/worker.c:278-282 | each job is freed at most once: by the event loop when it finalises it, by the worker exactly if it read the orphan flag |
| ProtocolTheorems.NonStreamingSafe | src/server.c:415-419 | a job that does not stream is not accessed after it was freed, save by the unlocked look at one that the worker freed, and the slot never points to a freed one |
| ProtocolTheorems.StreamingFreedAfterDone | src/worker.c:217-221 | a job that the worker holds was freed if and only if the event loop finalised it meanwhile: a stream, after its ring was marked as done |
| ProtocolTheorems.LeakExactly | src/worker.c:274-286 | a job that the worker gave up, or that was lost, is leaked if and only if its connection closed, and after the orphan test unless it was lost |
| ProtocolTheorems.LeakAtRest | src/server.c:673-684 | at rest this decides for every job whether it is leaked |
| ProtocolAccess.FaultExactly | src/server.c:514-518 | a job that the worker gave up was accessed after it was freed if and only if the event loop finalised it while the worker held it; only streams, after the ring was marked as done |
| ProtocolAccess.FaultNext | src/worker.c:262-285 | before that too only such jobs are accessed after they were freed, and every step of the worker on one is such an access, except clearing the slot |
| ProtocolAccess.EarlyWhen | src/server.c:481-518 | finalisation comes early exactly if the worker holds the job at that moment |
| ProtocolAccess.LookExactly | src/worker.c:350-357 | the unlocked look loads the state of a freed job if and only if the job was finalised early or the worker freed it since the slot was read |
| ProtocolAccess.LookBegins | src/worker.c:353-353 | when the slot is read, its job was freed only if it was finalised early |
| ProtocolAccess.LookedAt | src/worker.c:350-357 | over a whole run, the freed jobs that were looked at are such jobs |
| ProtocolAccess.NullManager | src/worker.c:119-120 | a null manager is asked for a wakeup if and only if the close got between the two loads |
| ProtocolAccess.WakeupPosted | src/worker.c:283-285 | then the connection is closed and nothing is posted; else one more wakeup is pending |
| ProtocolTheorems.OneInferenceAtATime | src/worker.c:187-262 | from pickup to publication the slot holds the job and every submission is refused |
| ProtocolTheorems.WaitingJob | src/worker.c:330-348 | a job accepted into an empty slot stays there, keeping others out, until it is picked up |
| ProtocolTheorems.SubmitOutcome | src/worker.c:334-347 | an accepted job is stored on slot and connection, and is lost if and only if the slot was not empty; a refused one changes only the reply count |
| ProtocolTheorems.LostForever | src/worker.c:274-276 | a lost job is never picked up and never answered |
| ProtocolTheorems.RequestsAccounted | src/server.c:232-334 | requests are refused, answered, dropped by a close or outstanding, and at most one is outstanding for each connection |
| ProtocolTheorems.QuietMeansAnswered | src/server.c:613-618 | with both threads at rest and no wakeup pending, every job accepted into an empty slot was answered once, or its connection closed |
| ProtocolTheorems.StuckMeansLost | src/worker.c:334-341 | only a lost job can stay on an open connection for good |
| ProtocolProgress.StuckIsQuiet | src/worker.c:171-185 | if neither thread can take a step, then without a shutdown no wakeup is pending, no job is in the slot and no handler under way, and after a shutdown both threads have ended: no deadlock, and the worker can be joined |
| ProtocolProgress.EveryStepCounts | src/worker.c:175-287 | every step that a thread takes on its own descends in a well-founded order |
| ProtocolProgress.EndsAfter | src/server.c:613-618 | under any schedule, without new input, no run of such steps is endless |
| ProtocolProgress.EverybodyAnswered | src/server.c:336-523 | where it ends the worker holds no job, and without a shutdown each job has exactly one answer unless it was lost or its client left |
| ProtocolTraces.TokenSkipped | src/server.c:481-482 | a reachable state in which a finalised stream lacks a token that was written |
| ProtocolTraces.StreamUsedAfterFree | src/worker.c:219-262 | a reachable state in which the worker has accessed a streaming job after it was freed |
| ProtocolTraces.JobLeaked | src/worker.c:279-286 | a reachable state at rest with a job that nobody holds and nobody freed |
| ProtocolTraces.FailureSent | src/server.c:349-354 | a reachable state in which a failed job was answered with an error |
| ProtocolTraces.JobLost | src/worker.c:274-276 | a reachable state in which an accepted job was wiped from the slot |
| ProtocolTraces.LostJobLeaked | src/server.c:673-684 | a reachable state in which the client of a lost job has left, and nobody holds the job or freed it |
| ProtocolTraces.LookedAtFreed | src/worker.c:350-357 | a reachable state in which the unlocked look has touched a freed job that does not stream |
| ProtocolTraces.NullAsked | src/worker.c:119-120 | a reachable state in which the worker has asked a null manager |
| TokenRing.Ring.constructor | src/worker.c:18-24 | a new ring is empty and not done |
| TokenRing.Ring.Write | src/worker.c:44-74 | appends the token cut to 127 bytes, or changes nothing when cancelled |
| TokenRing.Ring.Read | src/worker.c:77-92 | takes out the oldest token, if there is one |
| TokenRing.Ring.DrainBatch | src/server.c:432-446 | takes out the oldest 32 tokens or all; a short batch means the ring was seen empty |
| TokenRing.Ring.DrainAll | src/server.c:432-472 | undisturbed, the drain returns the whole queue in order and in n / 32 + 1 batches |
| TokenRing.BatchIsReads | src/server.c:530-542 | a batch equals as many single reads |
| TokenRing.Ring.FullAndEmpty | src/worker.c:33-41 | full means 255 tokens, empty means none |
| WorkerSlot.Worker.Submit | src/worker.c:330-348 | refused exactly while the slot holds an unfinished job; then nothing changes |
| WorkerSlot.Worker.Cancel | src/worker.c:359-367 | sets the flag of the slot's job and nothing else |
| Refinement.SubmitStep | src/worker.c:330-348 | the method on the slot does what the step of the protocol says, and succeeds exactly when the step does |
| Refinement.CancelStep | src/worker.c:359-367 | the same for the cancel at shutdown |
| Refinement.WriteStep | src/worker.c:44-74 | ring_write on the array is the worker's step on the ring of the protocol, and refuses a token only when cancelled or shut down |
| Refinement.DrainStep | src/server.c:432-446 | a locked batch on the array is the step of the event loop on the ring of the protocol |
| Refinement.DoneStep | src/server.c:475-479 | the test under the lock decides what the protocol says |
| Refinement.LookDecides | src/worker.c:350-357 | worker_is_busy on the slot decides what the unlocked look of the protocol decides, if the slot has not changed since it was read |
| Refinement.CollectStep | src/worker.c:133-167 | a token on the buffer is accepted exactly as the callback of the agreement results says, and is then the worker's step on the tokens of the job |
| ResponseBuffer.InitialCap | src/worker.c:224-227 | the capacity starts between 8 KiB and 64 KiB |
| ResponseBuffer.Buffer.Append | src/worker.c:133-167 | accepted if and only if not cancelled, the total stays below 64 KiB and growing succeeds; rejection changes nothing; never more than 3 reallocations |
| ResponseBuffer.Collect | src/worker.c:133-167 | the text collected is the concatenation of the tokens before the first that would reach 64 KiB |
| ResponseBuffer.ReplyNotCut | src/server.c:361-364 | the copy into the response truncates nothing |
| StopWindow.Push | src/inference.c:382-403 | after a piece the window in place holds the last 64 bytes of window and piece, shifted or cut |
| StopWindow.TailStep | src/inference.c:382-403 | the last 64 bytes of the whole output can be kept up from the window alone |
| StopWindow.TailStops | src/inference.c:405-414 | stop strings of up to 63 bytes end the window if and only if they end the whole output |
| StopWindow.Matches | src/inference.c:405-414 | the suffix comparisons decide exactly whether the window ends with a stop string |
| StopWindow.StoppedMeans | src/inference.c:405-414 | that is, whether the output is something followed by a stop string that is not empty |
| Generation.Iterate | src/inference.c:344-434 | one iteration reports exactly the most urgent event and keeps the window equal to the end of the whole output |
| Generation.EventMeans | src/inference.c:346-433 | which oracle fired, and that no more urgent one did, for every event of an iteration |
| Generation.Generate | src/inference.c:325-437 | the loop ends with the earliest event, or after max_gen tokens, as read off the oracles, and counts and delivers accordingly |
| Generation.CourseMeans | src/inference.c:344-434 | the end of a run in terms of the oracles alone: all earlier iterations went through, and what kept the last one from it |
| Generation.ReasonMeans | src/inference.c:214-432 | the finish reason in terms of the oracles: length if all went through, stop for EOS or a stop string, and the rest likewise |
| Generation.EndExists | src/inference.c:344-434 | every choice of oracles has an outcome |
| Generation.TokenAccounting | src/inference.c:380-424 | completion tokens are the accepted callbacks, plus one exactly after a stop match or a refusal; length means exactly max_gen |
| Generation.StopsAtFirstMatch | src/inference.c:382-415 | the run never gets past the first token after which the whole output ends with a stop string |
| Generation.DeadlineBound | src/inference.c:354-359 | once the limit has passed at most 31 more tokens are generated, 32 with the one under way |
| Params.ResolvedInRange | src/inference.c:96-102 | an absent parameter is the default; a given one ends in its range, unchanged if and only if it was there; infinity becomes the low end |
| Params.CopyStops | src/inference.c:577-580 | stop strings are cut to 63 bytes, and those that fit are unchanged |
| Params.ResolveChat | src/inference.c:557-583 | each parameter is the default or the nearest value of its own range, and the stop strings fit the window |
| Params.ResolveCompletion | src/inference.c:585-609 | a completion request resolves like a chat request that leaves both penalties out |
| Params.AllWithinIff | src/inference.c:563-573 | every request runs with all floats in their ranges if and only if the configured floats are |
| Params.Budget | src/inference.c:262-271 | a validated configuration leaves at least one token; prompt and completion fit the context if and only if the 32-bit sum does not overflow, for which n_ctx up to 2^30 is enough |
| Params.NoOverflowIff | src/inference.c:264-264 | the 32-bit sum cannot overflow for any request if and only if n_ctx is at most 2^30 |
| Inference.FeedPrompt | src/inference.c:273-293 | the loop feeds exactly the chunks of the specification and returns its verdict |
| Inference.FeedingMeans | src/inference.c:273-293 | on success the chunks concatenate to the prompt, all but the last full; the first failure ends it; n_batch below 1 fails |
| Inference.ChunkCount | src/inference.c:276-278 | the number of chunks is the rounded-up quotient |
| Inference.Complete | src/inference.c:207-457 | exactly when it succeeds, with the whole prompt fed, the first event as the end and the finish reason that the oracles call for; context_overflow if and only if the prompt is too long or the decoder says so; unless the sum overflows, tokens fit the context and the total fits an int32 |
| Chatml.RenderSpelled | src/inference.c:84-89 | the prompt spelled out, message by message |
| Chatml.NeededExceeds | src/inference.c:66-74 | the size pass exceeds the rendered length by exactly 3 n + 2 |
| Chatml.Build | src/inference.c:63-94 | no write is cut: the buffer is the rendered conversation and pos its exact length |
| Chatml.Format | src/inference.c:459-545 | which prompts are produced and rejected, with which reason, on all three branches; a prompt exceeds the limit exactly on the second ChatML branch |
| Chatml.LimitMissed | src/inference.c:507-514 | on the second ChatML branch four messages that a request can hold yield a prompt above the limit |
| Chatml.MostMessages | src/inference.c:82-93 | of all conversations with one prompt, one without forged borders has the most messages, and no other has as many |
| Chatml.RenderInjective | src/inference.c:82-93 | conversations without forged borders have different prompts if they differ |
| Chatml.NoEndMarker | src/inference.c:84-86 | a content without the end marker has no forged border |
| Chatml.MisreadIff | src/inference.c:82-93 | a prompt can be read as a conversation of more messages if and only if some content holds a message border |
| Chatml.AmbiguousIff | src/inference.c:82-93 | a prompt is that of another conversation, too, if and only if it has two or more messages or a forged border |
| Agreement.SameEnd | src/worker.c:101-167 | both callbacks end the run at the same token for the same reason if and only if the text that the stream delivers fits 64 KiB |
| Agreement.FramesAreText | src/server.c:436-439 | the frames add up to the delivered text if and only if no delivered text exceeds 127 bytes |
| Agreement.StreamEqualsReply | src/server.c:355-369 | same end and frames that add up to the reply if and only if no delivered text exceeds 127 bytes and together they fit 64 KiB |
| Agreement.BothWays | src/inference.c:207-457 | the whole call with either callback: same result and prompt tokens; same texts if and only if those of the stream fit, and then the same outcome, and frames that add up exactly if no text is too long |
| Agreement.AnswersAgree | src/server.c:448-499 | the same for any two runs of the protocol that the same generation loop drives: same texts and same end if and only if they fit, and then chunks that add up to the reply exactly if no text is too long |
| Agreement.AnswersExist | src/worker.c:190-262 | every generation has such runs |
| Driven.AnsweredInFull | src/inference.c:417-456 | in a run driven by the generation loop an answered job was given exactly what the loop delivers, and its client got no error |
| DrivenRuns.StreamExists | src/server.c:424-522 | every course of the loop has a run that streams it to the end |
| DrivenRuns.ReplyExists | src/server.c:343-420 | every course of the loop has a run that replies with it |
| Auth.CheckAuth | src/server.c:119-149 | accepts if and only if no key is set or the header is Bearer, a space and the key; the rounds depend on the key alone |
| Connections.CheckList | src/server.c:621-641 | allowed if and only if there is no list or an entry is the address or its mapped form |
| Connections.ListedMeans | src/server.c:625-641 | among plain addresses, exactly those in a list are allowed |
| Connections.MappedSame | src/server.c:625-636 | the mapped form of an address makes no difference, on either side |
| Connections.Counter.Accept | src/server.c:619-665 | closes at once if not listed or above 32 connections; the drop of an unlisted one is not counted |
| Connections.Counter.Close | src/server.c:666-669 | counts down, not below zero |
| Connections.NeverTooMany | src/server.c:619-669 | the counter never exceeds the number of open admitted connections |
| Connections.ExactThroughout | src/server.c:642-669 | it is exact throughout a run if and only if no close of a dropped connection is counted |
| Connections.LimitHolds | src/server.c:653-669 | at most 32 connections that were not closed at once are open, and one more for each close that was counted wrongly |
| Connections.LimitPassed | src/server.c:642-669 | the bound is met, for any number of such closes |
| ConfigSyntax.Trim | src/config.c:44-58 | in place, the bounds returned delimit the trimmed text |
| ConfigMeaning.TrimFinds | src/config.c:44-58 | whatever space is around a text, trimming finds the text |
| ConfigMeaning.TrimParts | src/config.c:44-58 | trimming takes off space at the ends, and all of it |
| Config.Store.constructor | src/config.c:16-41 | the defaults, spelled out |
| Config.Store.AddAllowed | src/config.c:105-119 | appends the addresses that are written in the list, with any space around them, cut to 63 bytes, and keeps the first 16 |
| Config.Store.Apply | src/config.c:65-121 | one assignment changes its field or the allow list and nothing else |
| Config.Store.LoadFile | src/config.c:123-154 | every field ends as what it keeps of the value in the last line that gives its name one, or unchanged; the allow list grows by the lists that lines give it |
| ConfigMeaning.LineMeans | src/config.c:132-149 | a line sets a field if and only if it gives its name a value, with any space around name and value, and extends the allow list if and only if it gives allow_ip one |
| ConfigMeaning.LineIgnored | src/config.c:134-143 | blank lines, comments and lines without an equals sign do nothing |
| ConfigMeaning.GivesOrSilent | src/config.c:131-150 | every file gives a name a last value or none |
| Config.Store.ParseCli | src/config.c:156-251 | if the arguments spell words up to their end, a call for help, an option without value or an unknown one, the status says so, and every field has the last value that a word gives it |
| ConfigMeaning.WordsMean | src/config.c:158-250 | parsing finds the words that were spelled, and how they end |
| ConfigMeaning.EverythingSpells | src/config.c:158-250 | all arguments spell something |
| ConfigSyntax.LastWins | src/config.c:65-104 | assigning in order lets the last assignment to a key win and leaves the others alone |
| ConfigSyntax.LayersLastWins | src/main.c:99-110 | the last command line value, else the last file value, else the default |
| ConfigSyntax.Cut16Twice | src/config.c:111-118 | cutting the list after every step is cutting it once |
| Config.PathMeans | src/main.c:91-97 | the file that is read is the one after the first --config that has an argument after it |
| Config.Configure | src/main.c:91-110 | succeeds if and only if a file that is named can be opened and the arguments spell words without a remainder; then every field has the value of the last word that gives it one, else of the last line that does, else the default, which for config_file is the path found first; the allow list is the file's, then the command line's, cut to 16 |

## Left out

- Weak memory: shared flags and states are read and written in one global order; real condition variables, the 50 ms timed wait and its re-checks are a wait that ends when its condition holds.
- The HTTP library: wakeups reach their connection, connection ids are unique, and a connection delivers its next request only after the reply to the last one, never while it drains.
- ProtocolAccess.NullManager: says when a null manager is asked, not what mg_wakeup then does; the model goes on as if nothing had been posted.
- Contents of reused memory: a freed job keeps its last contents and its identity is not given out again.
- The text of generated tokens in the protocol: any text may come, up to the job's limit, and the loop may end at any time with either result; `Generation` says which texts and when.
- Agreement.AnswersAgree: covers jobs that are not cancelled and whose buffers can grow, as its callbacks say.
- The second caller of `worker_is_busy`, in the main loop of `server_run` (src/server.c:723-729): after every poll it sets a flag for the statistics, with the same two unlocked loads as the admission check, which is the one that is modelled.
- The cleanup of `main` (src/main.c:197-199): server_destroy closes all connections and frees the manager before worker_cancel and the join. The model stops the event loop at worker_cancel with whatever connections are still open, and gives the manager no lifetime, so a wakeup asked of a freed manager is not seen.
- The early exits of `main` for help and recommendations.
- Failed allocation of the initial response buffer (src/worker.c:236-239): in the protocol it is a job that ends with an error at once.
- Params.NoOverflowIff: where the sum does overflow, which C leaves undefined, the model of the loop lets it wrap.
- Params.ResolvedInRange: floats are reals with NaN and infinity added; rounding is not modelled.
- Chatml.Build: the allocation succeeds (`Format` has the failure) and the length fits an int32, as it does for 64 messages of 64 KiB.
- Config.Configure: numbers keep the text they are read from; what strtol and strtof make of it, and the validation that follows, apart from the limits used in `Params.ValidConfig`, are not computed. A failed run says nothing about the fields.
- Config.Store.LoadFile: takes the lines as fgets returns them, so a line longer than 1023 bytes arrives in parts.
- Tokenizer, template engine, sampler and decoder of llama.cpp are oracles; the tokenizer's second call returns at most as many tokens as the first announced.
- JSON parsing and printing, routing, access logs, statistics formatting, the quotes endpoint and error texts: plumbing around libraries.
- Logger, daemon start, signals, PID file and hardware recommendations: effects on the operating system, or fixed tables.
