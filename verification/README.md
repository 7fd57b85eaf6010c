# trio-parallel, modelled and verified

trio-parallel runs synchronous functions in worker processes. A Trio task borrows a worker
from its context's cache, writes a pickled job to the worker's job pipe, reads the pickled
outcome from its result pipe, and puts the worker back; an idle worker leaves by itself, a
context waits for its last task and then shuts its cache down. This project models the POSIX
side with `spawn` workers, where each pipe end has one owner, and proves what the code's
comments argue for. `dafny verify dfyconfig.toml` checks everything.

| file | what it models |
|---|---|
| `Framing.dfy` | the wire format: `Frame`, `Decode`, and how much a reader asks for next, `Need` |
| `Streams.dfy` | `FdStream` and `FdChannel`: partial writes, short reads, blocking, faults, end of file |
| `Transfer.dfy` | whole conversations: repeated `send` and repeated `receive` over a pipe that may be cut |
| `Protocol.dfy` | `SpawnProcWorker.run_sync` against `worker_behavior`: the steps of both processes and the invariant |
| `ProtocolProofs.dfy` | every step keeps the invariant |
| `ProtocolResults.dfy` | what follows for every run: safety, progress, termination, delivery |
| `ProtocolTraces.dfy` | what the labels of a run say about its end: laws over what was called, what user code returned and what happened |
| `Lifetime.dfy` | `ContextLifetimeManager` and the start of `_aclose` |
| `System.dfy`, `SystemProofs.dfy` | a whole context: tasks, cache, every worker ever made, the closer |
| `SystemResults.dfy` | what follows for every run of a context |
| `SystemTermination.dfy` | counted retries, no stuck task, and the end of closing |
| `SystemTraces.dfy` | the same for calls in a context, and each worker's part of a run as a run of the protocol |
| `SystemExamples.dfy` | a run in which the idle count is wrong, and one in which closing hangs |
| `Context.dfy` | the retry loop of `WorkerContext.run_sync` as code |
| `Timing.dfy` | an exact clock, and `safe_poll` |
| `Pruning.dfy` | what pruning from the left end does and does not remove |
| `Cache.dfy` | `WorkerProcCache.prune` and `shutdown`, and idle expiry |

## How it is modelled

**Two processes.** `Protocol` is a state machine whose labels are the steps of the two
processes between which anything else may happen: each partial write, each short read, each
close, each return from user code, the idle timeout, cancellation, kill, and death from
outside. Pipes carry the bytes of `Frame`, hold at most `capacity` of them, take a write of
up to 512 bytes whole or not at all, and are kept as the whole stream with cursors for what
has been written and read. `MainCan`/`MainDo` are `run_sync`
(`trio_parallel/_proc.py:95-132`), `LoopCan`/`LoopDo` the worker's loop
(`_trio_parallel_workers/__init__.py:73-78`), `ExitCan`/`ExitDo` its three ways out (79-109),
`UserCan`/`UserDo` what `init`, jobs and `retire` do, `WorldCan`/`WorldDo` the surroundings,
`CallCan`/`CallDo` what the context asks of a worker. Fields of `State` marked as history
(which job, how often `handle_job` was entered for it, what that produced, which way out was
taken) only record; no step depends on them, but for the sizes of the job and the reply that
are being written. `Reachable` states are those of all runs of all interleavings. The laws of
`ProtocolTraces` and `SystemTraces` do not use these fields: they relate the answers of a run
to its labels.

**A whole context.** `System` composes any number of such workers, each with its own protocol
state, with any number of tasks in `WorkerContext.run_sync`, the cache, the lifetime counters
and one closer, whose grace period may be infinite. `SysInv` includes that every worker's
state is a reachable state of the protocol, so what is proved of one worker holds of each.

**Loops and fields.** Where the original changes things step by step and no other process
looks on, the model does too: `send_all`, `receive_some`, `_recv_exactly`, `send`, `receive`,
`safe_poll`, `prune`, `shutdown`, the lifetime manager and the retry loop are methods of
classes with loops, proved against specification functions. What the operating system does at
each call is read off a script, so that a contract for every script covers every splitting.
Two loops of the original need not end when there is no deadline; they are watched for any
number of rounds, and what they have done by then is part of the contract.

**What is assumed.** Pickling is a function whose results load back (`Sane`; `PlainIsSane`
gives one), a pickled `None` is small, a kill always ends a process, and starting a process
is one step that either happens whole or not at all.

## What was found

* A submission after `shutdown` does not return `None`, as `trio_parallel/_abc.py:62` says:
  the closed descriptor is a `ClosedResourceError`, which line 104 of `trio_parallel/_proc.py`
  does not catch. The model follows the code: `SubmittedAfterShutdown` is such a run, and
  `ShutForGood` says that there is no other answer after shutdown.
* `EOFError` and `BrokenPipeError` raised by `init` or `retire` are taken for a shutdown, so
  such a failure can be answered with `None`. `RetriedFailures` shows that it happens for
  these exceptions and for no others. (Raised while an outcome is pickled they take the same
  way out, but by then the job has been entered and the answer is never `None`.)
* A worker that dies inside its reply gives `OSError`, not `BrokenWorkerError`, unless it dies
  where a read begins: end of file right after a complete header still counts as end of
  channel. `EofDiagnosis` says exactly which. It takes a reply of more than 512 bytes, which
  need not be written in one piece (`TornReplies`, both ways); `ReplyTorn` and
  `ReplyCutAtItsHeader` are runs of either kind for every such reply.
* The sentinel can find a full pipe not only while main is reading but also between a
  cancellation and the death of the process (`SentinelMayWait`); in every other phase the pipe
  is empty (`SentinelFits`). It does no harm: the kill is on its way.
* Closing a context can hang with no task inside: with an infinite grace period, while the
  worker being joined is in `init` or `retire`. `StuckExactly` shows that there is no other
  way for the shutdown to be stuck, and `HangingInit` is a run that leads there.
* `prune` drops only the dead prefix, so the number of idle workers reported is that of living
  ones if and only if no dead worker sits right of a living one (`PruneExact`). Idle expiry
  alone keeps it that way (`IdlePruneExact`); a crash does not (`DeadOneStays`).

## Model

| member | source | states |
|---|---|---|
| ProtocolTraces.AnswersTold | trio_parallel/_proc.py:95-132 | in every run, an outcome is delivered only if handle_job was entered exactly once since the latest submission, that of a job, and ended in that very outcome; None only without an entry and after an idle timeout, a retirement, a shutdown lookalike or an outside death; an exception with at most one entry, Cancelled only after a cancellation, a broken worker only after a failure or an outside death |
| ProtocolTraces.RunsTheJobSubmitted | _trio_parallel_workers/__init__.py:73-76 | handle_job is entered, once, with the job submitted last |
| ProtocolTraces.RetireFollowsEachJob | _trio_parallel_workers/__init__.py:73-78 | each job is followed by one call of retire before the next, and a worker that polls has been kept on after every job it ran |
| ProtocolTraces.EndsTold | _trio_parallel_workers/__init__.py:79-109 | a process ends with the code of its failure if there was one, with 0 if it left by itself otherwise, and with -9 if killed |
| ProtocolResults.AnswersKeepContract | trio_parallel/_proc.py:118-130 | every answer of None, and every exception, leaves a reaped worker; none that goes back has been killed |
| ProtocolResults.OwnJobOnly | _trio_parallel_workers/__init__.py:73-76 | whenever handle_job runs, it has the bytes of the latest submitted job, was entered once for it, and the submission is still in progress |
| ProtocolResults.NothingStale | trio_parallel/_proc.py:101-132 | between submissions no job byte is anywhere, and the result pipe holds nothing or exactly one whole sentinel |
| ProtocolTraces.CleanExitTold | _trio_parallel_workers/__init__.py:96-109 | after an idle timeout, or a retire that answers true, with either setting of EAGER_CLEANUP, in every interleaving with a job write and with no outside death: the worker has left its loop, no submission ends in a broken worker or an OSError, one that is not cancelled or entered ends in None, and the exit code is 0 |
| ProtocolTraces.CleanWorkerRetries | _trio_parallel_workers/__init__.py:96-109 | and the next submission does end so, by the code of main and worker alone |
| ProtocolTraces.FailureTold | _trio_parallel_workers/__init__.py:86-95 | after init or retire raise, or an outcome cannot be pickled, with any other exception and no outside death: the worker has left its loop, its read end stays open while main writes, no submission ends in None, and one that is not cancelled or entered ends in the broken-worker error |
| ProtocolTraces.FailedWorkerBreaks | _trio_parallel_workers/__init__.py:86-95 | and the next submission does end so, by the code of main and worker alone |
| ProtocolResults.BrokenHasACause | trio_parallel/_proc.py:111-117 | a broken-worker error has a failure in the worker or an outside death behind it, an OSError an outside death, a None a clean exit, a lookalike exception or an outside death |
| ProtocolResults.EofDiagnosis | trio_parallel/_posix_pipes.py:107-115 | end of file while a reply is awaited is end of channel, unless it cuts a reply at an offset where no read begins; then it is an OSError; exact in both directions |
| ProtocolResults.ShutIsNeverRetried | trio_parallel/_proc.py:102-107 | once main has closed its end of the job pipe no submission is answered None; one made after shutdown goes to the error handler |
| ProtocolResults.SubmittedAfterShutdown | trio_parallel/_proc.py:102-104 | a run in which a job, any job, is submitted after shutdown and ends in the closed-resource error, never entered |
| ProtocolResults.ShutForGood | trio_parallel/_proc.py:102-125 | and whatever happens after shutdown, that error is the only answer there is |
| ProtocolResults.ReplyTorn | trio_parallel/_posix_pipes.py:111-115 | for every outcome whose reply has more than PIPE_BUF bytes, a run in which the worker dies inside it and the submission ends in the OSError |
| ProtocolResults.TornReplies | trio_parallel/_posix_pipes.py:74-115 | a reply can end in the OSError if and only if it has more than PIPE_BUF bytes |
| ProtocolResults.ReplyCutAtItsHeader | trio_parallel/_proc.py:111-117 | for every such outcome, a run in which the worker dies after the complete header and the submission ends in the broken-worker error |
| ProtocolTraces.RetriedFailures | _trio_parallel_workers/__init__.py:79-85 | a run in which init, retire or pickling raises e can end in None, with no outside death, if and only if e is EOFError or BrokenPipeError |
| ProtocolResults.QuietShutdown | _trio_parallel_workers/__init__.py:79-85 | the run that shows it: init raises EOFError and the next submission is answered None |
| ProtocolResults.SentinelFits | _trio_parallel_workers/__init__.py:101-109 | when the worker comes to its sentinel and main is neither reading nor killing it, the result pipe is empty and the sentinel can be written at once |
| ProtocolResults.SentinelMayWait | _trio_parallel_workers/__init__.py:101-109 | in each of those three other phases there is a run in which the sentinel finds no room |
| ProtocolResults.Progress | trio_parallel/_proc.py:101-132 | no deadlock, whatever the capacity and the sizes of job and reply, and with writes of up to PIPE_BUF bytes that move all or nothing: while a submission is in progress some side can step, unless main waits for user code |
| ProtocolResults.SubmissionEnds | trio_parallel/_proc.py:95-132 | no run goes on for ever inside one submission, whatever steps it takes |
| ProtocolResults.StepDescends | trio_parallel/_proc.py:95-132 | every step during a submission, of either side and of any kind, lowers one well-founded measure of stages and bytes still to move |
| ProtocolResults.ExitIsBounded | _trio_parallel_workers/__init__.py:79-109 | once main is in its wait, the worker is past its loop and takes at most 12 + capacity further steps, draining included |
| ProtocolResults.AnythingCanBeDelivered | trio_parallel/_proc.py:95-132 | from every reachable state with an idle worker in its loop, any job can be submitted and any outcome of it delivered, through pipes of any capacity |
| ProtocolResults.RunKeepsInv | _trio_parallel_workers/__init__.py:61-109 | the invariant holds throughout every run: which ends are open, what the two pipes carry, and what each way of ending implies |
| ProtocolProofs.StepKeepsInv | trio_parallel/_proc.py:95-157 | every step of main, worker, user code and surroundings keeps that invariant |
| ProtocolProofs.MainHearsDue | trio_parallel/_posix_pipes.py:97-122 | what main has read of the result pipe is part of the parcel it is owed, and it stops asking exactly when it has all of it |
| ProtocolProofs.ReadingFrame | trio_parallel/_posix_pipes.py:97-122 | a reader at the head of a frame asks for no byte beyond it, wants more until its end, and then holds its message |
| ProtocolProofs.InnerLeavesUndisturbed | trio_parallel/_proc.py:95-132 | no step but the caller's wakes an idle worker, alters an answer or revives the dead |
| SystemTraces.CallsTold | trio_parallel/_impl.py:166-183 | in every run of a context, over all the workers a call tries since it entered: a delivered outcome is what the one entry of handle_job ended in; an unpicklable job is never entered and its exception is its own; an exception means at most one entry, Cancelled a cancellation; giving up and a failed start none; and handle_job is entered with the job the task entered with |
| SystemTraces.AnswerLeaves | trio_parallel/_impl.py:175-183 | an attempt's answer is what the call leaves with, and a None leaves the task inside and choosing again |
| SystemTraces.AnswerCaches | trio_parallel/_impl.py:177-183 | the worker goes to the right end of the cache exactly after an outcome |
| SystemTraces.TriesTheLatest | trio_parallel/_impl.py:168-174 | the worker tried is the one cached last; one is made only when none is cached |
| SystemTraces.EnteringPrunes | trio_parallel/_impl.py:164-165 | entering drops dead workers from the left end until the leftmost is alive, and nothing else |
| SystemTraces.PartIsARun | trio_parallel/_impl.py:164-198 | each worker's part of a run of a context is a run of the protocol, with exactly the steps the context takes with it |
| SystemTraces.ContextAnswersTold | trio_parallel/_impl.py:175-183 | so what is told of runs of the protocol holds of every answer in a context |
| SystemTraces.RaisesExactly | trio_parallel/_proc.py:189-200 | closing raises if and only if a cached worker was killed or exited with a code other than 0 |
| SystemResults.RunsOnlyItsOwn | trio_parallel/_impl.py:166-183 | as long as a job is being retried nothing has run for it, and the worker in use runs no other job |
| SystemResults.Ownership | trio_parallel/_impl.py:164-183 | each worker ever made is in the cache once, or held by exactly one task, or dead or never started |
| SystemResults.NothingOutlives | trio_parallel/_impl.py:185-198 | when `_aclose` completes, normally or by raising, every process the context ever started has exited; normally only if all cached ones exited with code 0 |
| SystemResults.CacheIsClean | trio_parallel/_impl.py:181-183 | a cached worker is idle, with no job byte left over and at most a sentinel in its result pipe |
| SystemResults.Capacity | trio_parallel/_impl.py:164-183 | cached and held workers together never exceed the most tasks ever inside at once, hence not the capacity of a single limiter |
| SystemResults.CloserCounts | trio_parallel/_impl.py:185-198 | calc_running is the number of tasks inside; the cache is shut down with none inside; the closer is rescheduled once if it had to park and all have left, otherwise never |
| SystemResults.WakesWhenLast | trio_parallel/_impl.py:76-81 | a task on its way out reschedules the closer if and only if the closer is parked and nobody else is inside |
| SystemResults.NoEntryAfterClose | trio_parallel/_impl.py:70-74 | nobody enters once closing has begun |
| ProtocolResults.ShutdownIsObeyed | _trio_parallel_workers/__init__.py:73-109 | a worker told to shut down takes at most 16 more steps, user code and accidents included; where it can take none by itself it is dead or in user code; and if it did not fail, and was neither killed nor died from outside, it exits with code 0 |
| ProtocolResults.ShutRun | _trio_parallel_workers/__init__.py:79-109 | outside user code it gets there by its own steps alone |
| SystemResults.ShutdownProgress | trio_parallel/_proc.py:171-200 | cache shutdown goes on, with no kill unless the worker being joined is in user code, and then only within a finite grace period; outside these it can be stuck |
| SystemResults.StuckExactly | trio_parallel/_proc.py:178-189 | neither the closer nor the worker it joins or has killed can step if and only if the grace period is infinite and that worker is in user code |
| SystemExamples.HangingInit | trio_parallel/_proc.py:178-184 | a run to such a state, with nobody inside: a cached worker is still in init when the context closes |
| SystemTermination.ClosingIsBounded | trio_parallel/_proc.py:171-200 | once the shutdown has begun no run of the whole context, worker, user and outside steps included, is longer than a measure of the state |
| SystemTermination.ClosingEnds | trio_parallel/_proc.py:171-200 | so it comes to its end, or to a closer that waits without limit for user code; anywhere else it can go on |
| SystemTermination.ClosingDescends | trio_parallel/_proc.py:171-200 | every step of every part of the context lowers that measure |
| SystemTermination.CloserProgress | trio_parallel/_impl.py:185-198 | a context being closed can always step by the code of main or a worker, unless all tasks inside wait for user code or, with an infinite grace period, the worker being joined is in user code |
| SystemTermination.TaskProgress | trio_parallel/_impl.py:164-183 | no task is ever stuck: it, or main or the worker on its behalf, can step, unless it waits for user code |
| SystemTermination.RetriesCounted | trio_parallel/_impl.py:166-183 | in any run a call makes no more attempts than there were cached workers, others have cached meanwhile, and it has made itself; of those it made all but the last answered None |
| SystemTermination.RetriesEnd | trio_parallel/_impl.py:166-183 | so with nobody else filling the cache and new workers that outlast their first submission it makes at most one attempt more than there were cached workers, and is answered None at most once for each of those |
| SystemTermination.Outlasts | _trio_parallel_workers/__init__.py:73-95 | a worker still in its loop, or thrown out of it by a failure, is not behind a None unless it died from outside |
| SystemTermination.NoneDiscards | trio_parallel/_impl.py:177-179 | each None discards one worker, dead, that was not discarded before |
| SystemTermination.DiscardedForGood | trio_parallel/_impl.py:166-183 | in no later state of any run is a discarded worker cached or held by anyone |
| SystemExamples.DeadOneStays | trio_parallel/_impl.py:200-206 | a run after which a prune leaves two workers in the cache, one of them dead |
| SystemResults.RunKeepsInv | trio_parallel/_impl.py:164-198 | ownership, counts, the closer's state and the reachability of every worker's state hold throughout every run of a context |
| SystemProofs.WorkersMove | trio_parallel/_impl.py:164-198 | no step of a context touches a worker other than by a step of the protocol |
| SystemProofs.PrunedKeeps | trio_parallel/_proc.py:160-169 | pruning a shared cache keeps every worker accounted for |
| Lifetime.ContextLifetimeManager.Enter | trio_parallel/_impl.py:70-74 | refuses exactly when a closer is recorded, and otherwise counts one entrance and nothing else |
| Lifetime.ContextLifetimeManager.Leave | trio_parallel/_impl.py:76-81 | counts one exit and nothing else, and reschedules the recorded closer exactly when nobody is left |
| Lifetime.ContextLifetimeManager.Close | trio_parallel/_impl.py:185-189 | records the closer, which has to park exactly when somebody is inside |
| Context.WorkerContext.RunSync | trio_parallel/_impl.py:164-183 | given how each attempt ends: the first not answered None decides; workers are tried from the right end of the pruned cache and then made, at most one of them if new ones outlast their first submission; the worker goes back exactly after an outcome, and each one that answered None is gone |
| Context.WorkerContext.TryWorkers | trio_parallel/_impl.py:166-183 | the loop by itself, the same without entering and pruning |
| Context.DecidingAttempt | trio_parallel/_impl.py:175-183 | the first attempt that is not answered None, or is cancelled after one that is, decides: an outcome leaves with the call and its worker is cached, an exception leaves and its worker is gone |
| Context.TriedFromTheRight | trio_parallel/_impl.py:168-174 | attempts take the cached workers from the right end one by one, then new ones |
| Cache.WorkerProcCache.Shutdown | trio_parallel/_proc.py:171-200 | every worker is signalled before any is joined; reported as unclean are exactly those that exit by themselves by the one shared deadline with a code other than 0, as killed exactly those that do not exit by it, each once and in cache order; afterwards none is alive; only without a deadline can it be joining for ever, and then a worker that has not exited |
| Cache.WorkerProcCache.JoinAll | trio_parallel/_proc.py:177-191 | joining any number of workers ends by start plus grace in all; no join asks for more than MAX_TIMEOUT or for exactly 0.0; kills happen at the deadline and never before |
| Cache.WorkerProcCache.JoinOne | trio_parallel/_proc.py:178-187 | the chunked join of one worker says whether it exits by the shared deadline, and ends at its exit or at that deadline |
| Cache.WorkerProcCache.SignalAll | trio_parallel/_proc.py:174-175 | every worker's job pipe is closed, at one moment, in order |
| Cache.WorkerProcCache.CollectKilled | trio_parallel/_proc.py:192-194 | every killed process has exited afterwards |
| Cache.WorkerProcCache.Prune | trio_parallel/_proc.py:160-169 | drops the dead at the left end and nothing else |
| Cache.NormalMeansClean | trio_parallel/_proc.py:192-200 | shutdown returns normally if and only if every worker exits by itself in time with code 0 |
| Pruning.PruneExact | trio_parallel/_impl.py:200-206 | the number of workers a prune leaves is never less than that of living ones, and equals it if and only if no dead one sits right of a living one |
| Cache.OrderKept | trio_parallel/_impl.py:165-182 | over any run of pops, appends, prunes and waiting the cache stays sorted by last use |
| Cache.PopTakesTheLatest | trio_parallel/_impl.py:168-170 | and a pop takes the one used last |
| Cache.IdlePruneExact | trio_parallel/_proc.py:160-169 | so, with idle expiry the only death, every prune drops all and only the expired, and the idle count is that of the living |
| Timing.SafePoll | _trio_parallel_workers/__init__.py:51-58 | gives the answer of one long poll at the same moment, for finite, negative and infinite timeouts, and never polls for more than MAX_TIMEOUT at once; it ends for every finite timeout |
| Timing.WaitMeansByDeadline | _trio_parallel_workers/__init__.py:51-58 | that answer is yes exactly when the pipe becomes readable by the deadline, and comes no later than it |
| Transfer.Deliver | trio_parallel/_posix_pipes.py:27-122 | from end to end, for every splitting at either end and a pipe cut anywhere: what is received are messages that were sent, in order and unaltered; without faults and with enough calls that move something, exactly those that should survive and the error that fits, and all of them if nothing is cut off |
| Transfer.SendMany | trio_parallel/_posix_pipes.py:74-95 | repeated send puts the frames of the messages on the pipe one behind the other, or a prefix of them |
| Transfer.ReceiveAll | trio_parallel/_posix_pipes.py:97-122 | repeated receive gives the messages of the stream in order, a prefix of them if something goes wrong, and the end that fits |
| Framing.RoundTrip | trio_parallel/_posix_pipes.py:74-103 | any sequence of messages under 2^64 bytes is received as it was sent, followed by end of channel |
| Framing.Truncation | trio_parallel/_posix_pipes.py:97-122 | end of file at any offset of any stream of frames: the whole frames before it, nothing of the one it falls in, and the error that fits the offset |
| Framing.CutDecodes | trio_parallel/_posix_pipes.py:105-115 | a cut frame is end of channel where a header, extended length or body read begins, and an OSError anywhere else |
| Framing.FrameDecodes | trio_parallel/_posix_pipes.py:97-103 | a frame decodes to its message and leaves the stream behind it untouched |
| Framing.PrefixFree | trio_parallel/_posix_pipes.py:74-95 | all ways of sending make one prefix-free code; no ordinary length reads as the escape |
| Framing.FramesAppend | trio_parallel/_posix_pipes.py:74-95 | one more send puts one more frame behind the others |
| Framing.NeedWithinFrame | trio_parallel/_posix_pipes.py:105-122 | reading a frame piecewise never asks for a byte beyond it and stops exactly at its end |
| Framing.NumberOfDigits | trio_parallel/_posix_pipes.py:77-84 | packed lengths unpack to what was packed |
| Framing.WireFormat | trio_parallel/_posix_pipes.py:74-95 | the bytes of every frame: the length, most significant byte first, or four bytes of ones and the length in eight bytes, and then the message |
| Framing.HeaderReads | trio_parallel/_posix_pipes.py:98-102 | four bytes read as a signed number, most significant first |
| Framing.RefusedExactly | trio_parallel/_posix_pipes.py:97-103 | a length is refused exactly when it is negative and not the escape |
| Streams.FdStream.SendAll | trio_parallel/_posix_pipes.py:27-45 | whatever the operating system does, a prefix of the data is in the pipe, all of it exactly on success; each write asks for all that is left; no fault is passed over, EBADF and other faults are told apart and end it; it waits only if too little was moved |
| Streams.FdStream.ReceiveSome | trio_parallel/_posix_pipes.py:47-62 | returns the next bytes of the stream, at most those asked for, and none only at end of file; no fault is passed over, and the two kinds are told apart |
| Streams.FdChannel.Send | trio_parallel/_posix_pipes.py:74-95 | each of the three branches puts exactly the message's frame on the pipe, or a prefix of it when it does not succeed, in the pieces that the protocol's writes are made of |
| Streams.FdChannel.SendExtended | trio_parallel/_posix_pipes.py:76-81 | so for messages over 0x7FFFFFFF bytes |
| Streams.FdChannel.SendShort | trio_parallel/_posix_pipes.py:82-95 | and for those over and up to 16384 bytes |
| Streams.FdChannel.RecvExactly | trio_parallel/_posix_pipes.py:105-122 | exactly the bytes asked for, or end of file told apart by whether any had come; never oversized |
| Streams.FdChannel.ReceiveLength | trio_parallel/_posix_pipes.py:100-102 | after an escape, the size is that of the extended length |
| Streams.FdChannel.ReceiveSize | trio_parallel/_posix_pipes.py:97-102 | the size is that of the message at the head of the stream, in either form |
| Streams.FdChannel.Receive | trio_parallel/_posix_pipes.py:97-103 | for every splitting into short reads the result is that of decoding the stream; what has been read is what `Need` says was wanted, which ties it to the protocol's reads |

## Left out

- `run_sync` and `worker_behavior` are steps on values, not methods with fields: their interleavings are the point, and a method body has none. Update in place and aliasing of the two objects are not captured.
- Context.WorkerContext.RunSync: one call at a time, how each attempt ends given from outside, with cancellation only at the checkpoint after a None and a worker that fails to start counted as an attempt that raises; `System` has the interleaved form with starting as a step of its own.
- Cache.WorkerProcCache.JoinAll: time passes only while something waits; with a clock that also runs between calls the deadline is met only up to that time.
- Streams.FdChannel.ReceiveSize: the limit that the interpreter puts on the length of one read is not modelled.
- SystemResults.Capacity: one Trio run; several threads sharing the default context read and store their tickets separately, so counts are only eventually right there.
- Main never closes its end of the result pipe while the worker lives, so a worker's broken pipe on replying does not occur in the model.
- An unpicklable job submitted after shutdown is not a step; nothing is sent for it.
- Pickling, cloudpickle, tblib and `outcome` are abstract: `Sane` is all that is used of them, and `safe_dumps` with its fallback is one step that yields a pickle or raises. `handle_job`'s coroutine check is part of the user code.
- `fork` and `forkserver` workers, whose inherited pipe ends break the one-owner assumption.
- Windows: its pipes, its start handshake and its foreign calls.
- `cache_scope`, the default context, `configure_default_context` and the exit handler.
- Trio's scheduler and `CapacityLimiter`: any interleaving of steps, and a bound on entries.
- `statistics` itself, and pruning outside `run_sync`: `PruneExact` and `IdlePruneExact` say what its idle count means.
- Attribute validators, names, documentation and examples: only easy facts.
