# InferDeck verification

A Dafny 4.11 model of the parts of InferDeck that keep state over many requests, and proofs of what they promise.
`dafny verify dfyconfig.toml` checks all of it.

## What is modelled

**Continuous-batching scheduler.** One thread multiplexes many requests over one KV cache: it admits them to a bounded
pool, reuses cached prefixes, drafts speculatively, builds one batch, decodes, samples or verifies, rolls rejected
drafts back and retires tasks. `Scheduler` is the state machine: a turn is four thread steps, and callers may submit,
cancel, stop, release their slot or shut down between any two of them. The foreign results of a step (evictions,
trimming, checkpoint restore, drafts, decode, rollback) are arbitrary inputs. `SlotTask` is what a turn does to one
task; `Generation` is plain autoregressive decoding, the reference. `SchedulerRun` states the theorems over all runs,
`SchedulerFair` those about who is served when, `SchedulerProgress` when a task is done, with
`SchedulerSolo` the run that takes longest, `SchedulerAdmission` who is rejected and who waits, and `SchedulerOutcome`
what submitting, cancelling, failing and releasing come to. `SlotTaskEffect` says what reuse, checkpoints and drafts
are good for, `BatchFill` how a batch is filled.
`ContinuousBatchScheduler` is the object with its loops, proved to take exactly the machine's steps; the loops are in
the `Scheduler*Loop` modules.

**Streaming text.** `Utf8Stream` and `DeltaStream` hold back unfinished characters; `Sanitizer` strips control tags and
hidden blocks. `SanitizerRun` says when a whole stream is read correctly, `SanitizerBlocks` what is then hidden,
`SanitizerChunks` when the cut into tokens does not matter, `SanitizerRescan` which streams are not read correctly.

**Configuration secrets.** `SecretLine` reads one line, `ConfigSecrets` finds, masks and restores fields in a text,
`SecretRoundTrip` proves when restoring undoes masking.

**API keys and the background lease.** `KeyStore` says what each call makes of table, index and lease, `KeyStoreEffect`
when it succeeds and what that means, `KeyStoreRun` proves coherence and exclusion over runs, `ApiKeyStore` is the
object with transactions that may fail at every statement.

**Searches.** `ContextPoolFit` (galloping and bisection over memory probes) and `ChatFit` (dropping old turns).

**Media history.** `MediaHistory` (limits and pruning), `MediaRun` (interleaved steps with failures and crashes),
`MediaTwice` (jobs that store again), `MediaOrphans` (no file is forgotten), `MediaStore` (the object),
`MediaNames` (paths).

## What turned out not to hold

- A stop request that reaches a task after its admission and before its initialisation in the same turn retires it
  without trimming its sequence. What the sequence then holds beyond the reservation is too much for the pool
  (`SchedulerLeak.PoolLeaks` is a run that shows it; `SchedulerWindow.TurnLoad` and `StaysMoreIff` are exact). The state
  counts such positions (`leaked`), and the pool theorem is stated up to that count; the next turn that admits a task
  brings the pool back within its capacity (`SchedulerRun.AdmittingTurnFits`).
- init_task takes the shorter of target and draft cache as present; if the draft's ends inside the common prefix it goes
  on from there without trimming the target (`SlotTask.ReuseIsPrefix`, condition `DraftLags`; the next row
  then clashes: `SlotTaskProofs.DraftLagClashes`). Runs assume that a draft cache in sync does not lag (`EnvOk`).
- flush returns early inside a hidden block without trimming its buffer, so text consumed before can be scanned, and
  shown, again (`SanitizerRescan.TextRepeats`); the exact condition is in `SanitizerRun.BlockEndIffNotTrapped`.
- The sanitizer is not independent of chunking (`SanitizerRescan.SplitTagDiffers`): a token boundary matters exactly
  where it changes the first tag that matches (`SanitizerChunks.BoundaryIff`), and not at all if no token ends inside
  or right behind text that starts with one tag and is a proper beginning of another (`OutputIsOneScan`).
- A secret field that is empty and followed by a comment does not survive the textual round trip
  (`SecretRoundTrip.RoundTrip`).
- A media job that stored outputs and stores again can lose a file that the index names: by taking back a file that is
  named (`MediaTwice.TakeBackIff`, `AbortedSecondStore`), or by committing one that is gone or that the save under way
  is about to delete (`CommitIff`, `CondemnedThirdStore`), as can happen if it was waiting to be deleted when it was
  written (`WriteIff`). In every run in which neither is done each file that the index names is on disk
  (`MediaRun.IndexIsBacked`), and so it is in every run in which each job stores once (`StoringOnceIsSafe`).
- Expired leases are removed as of the time of the call that looks, so with a clock that goes back a lease can be
  granted twice (`KeyStoreRun.ClockBackBreaksExclusion`; exactly when: `UntrueIff`).

## Model

| member | source | states |
|---|---|---|
| `SchedulerRun.EveryAnswerIsPlain` | libs/llama_cpp_wrapper/src/continuous_batch_scheduler.cpp:839-866 | in every run, for every drafter, cache history, eviction, failure and interleaving of callers, the token events of every task are a prefix of plain autoregressive decoding of its own prompt, and those of a completed task are exactly the plain answer: cut before the first end-of-generation or stop token, or at the token limit |
| `SchedulerRun.ExactlyOnce` | libs/llama_cpp_wrapper/src/continuous_batch_scheduler.cpp:1159-1196 | in every run a task has no done event while it is active and exactly one, as its last event, afterwards; its sampler is freed exactly once; when the thread has ended nothing is active |
| `SchedulerRun.KvAtBoundary` | libs/llama_cpp_wrapper/src/continuous_batch_scheduler.cpp:727-868 | at every loop boundary the cache of an initialised active task is the first nPos tokens of prompt ++ emitted, and nPos = prompt + generated - 1 while generating |
| `SchedulerRun.BatchWellFormed` | libs/llama_cpp_wrapper/src/continuous_batch_scheduler.cpp:813-866 | every batch of every run extends each sequence it touches without a gap and holds no (sequence, position) twice, also after rejected drafts were rolled back |
| `SchedulerRun.PoolNeverOverflows` | libs/llama_cpp_wrapper/src/continuous_batch_scheduler.cpp:440-548 | in every run, reservations of admitted tasks plus positions of idle sequences exceed the capacity by no more than what turns have leaked since a task was last admitted, and so do all positions at decode time, drafts included; a turn leaks only what a task, stopped between admission and initialisation, leaves cached beyond its reservation |
| `SchedulerRun.AdmittingTurnFits` | libs/llama_cpp_wrapper/src/continuous_batch_scheduler.cpp:505-548 | in every run a turn that admits a task brings reservations plus idle positions back within the capacity, whatever had leaked before |
| `SchedulerRun.RowsWithinReservation` | libs/llama_cpp_wrapper/include/llama_cpp_wrapper/continuous_batch_scheduler.hpp:97-110 | every row of every batch lies inside the reservation of its task |
| `SchedulerRun.NoOvertaking` | libs/llama_cpp_wrapper/src/continuous_batch_scheduler.cpp:505-548 | in every reachable state a live task is admitted if a live task behind it is |
| `SchedulerRun.RunSound` | libs/llama_cpp_wrapper/src/continuous_batch_scheduler.cpp:550-1199 | the whole invariant (tasks, caches, slots, pool, order of admission) holds after every sequence of caller and thread steps |
| `SchedulerRun.ActionKeeps` | libs/llama_cpp_wrapper/src/continuous_batch_scheduler.cpp:550-1199 | each single step -- submit, release, cancel, stop, shutdown, admission, preparation, batch, decode -- keeps the invariant |
| `SchedulerFifo.HeadWaiterServed` | libs/llama_cpp_wrapper/src/continuous_batch_scheduler.cpp:521-547 | once nothing is reserved, the first live waiter is admitted or rejected in the next admission, whatever eviction does |
| `SchedulerAdmission.RejectedOnlyInNeed` | libs/llama_cpp_wrapper/src/continuous_batch_scheduler.cpp:505-548 | in every run a task that admission rejects was waiting, and needs more than the whole pool, or an eviction for it failed or left something idle in the draft context; so one that fits the pool waits or is admitted as long as evictions work |
| `SchedulerAdmission.NobodyWaitsInVain` | libs/llama_cpp_wrapper/src/continuous_batch_scheduler.cpp:505-548 | in every run, as long as evictions work, a live task that still waits after admission has at or before it a waiter that fits the pool, but not beside what is then reserved |
| `SchedulerAdmission.ReclaimIsLeast` | libs/llama_cpp_wrapper/src/continuous_batch_scheduler.cpp:475-502 | nothing is evicted in vain: each sequence that is cleared held tokens when the candidate did not fit yet |
| `SchedulerWindow.TurnLoad` | libs/llama_cpp_wrapper/src/continuous_batch_scheduler.cpp:735-912 | the load after any batch step is the load before, less what the leaving tasks counted for, plus what the stopped ones leave in their sequences |
| `SchedulerWindow.StaysMoreIff` | libs/llama_cpp_wrapper/src/continuous_batch_scheduler.cpp:870-885 | a leaving task leaves more than it counted for if and only if it is stopped between admission and initialisation with more stale positions than it had reserved, and then by exactly what the turn is said to leak |
| `SchedulerLeak.PoolLeaks` | libs/llama_cpp_wrapper/src/continuous_batch_scheduler.cpp:550-912 | a run of twelve actions from the empty state after which a pool of five positions carries a load of seven: what leaked is exactly what is too much |
| `SchedulerFair.TurnBudget` | libs/llama_cpp_wrapper/src/continuous_batch_scheduler.cpp:717-868 | in every turn of every run, whoever was cancelled or stopped after its order was made: at most n_batch rows, all rows of every live decoder if they fit together, and beside live decoders at most max(1024, #prompts) prompt rows |
| `SchedulerFair.HeadOfTurnAdvances` | libs/llama_cpp_wrapper/src/continuous_batch_scheduler.cpp:717-868 | in every turn of every run the task at the head of the rotation, if still live, advances: its prompt position grows if the decoders left room, its last token is in the batch if it decodes and fits a batch |
| `SchedulerFair.EveryoneAdvances` | libs/llama_cpp_wrapper/src/continuous_batch_scheduler.cpp:717-868 | over as many consecutive turns of a run as there are runnable tasks, with that list unchanged, every task that could be served in each of them advances in one, whatever callers and foreign calls do in between |
| `SchedulerProgress.ServedTasksComplete` | libs/llama_cpp_wrapper/src/continuous_batch_scheduler.cpp:717-1186 | bounded completion: over consecutive turns of a run in which, as long as a task is active, the runnable tasks are the same and it could be served, either it gets done -- and unless it was cancelled or stopped, or the scheduler failed, completes with its plain answer -- or there were fewer than (prompt tokens + token limit - 1) times the number of runnable tasks |
| `SchedulerSolo.BoundIsAttained` | libs/llama_cpp_wrapper/src/continuous_batch_scheduler.cpp:717-1186 | for every prompt, token limit and model that never stops there is a run that meets all of these conditions, with exactly that many turns, in the last of which the task is still active |
| `SchedulerProgress.StepProgress` | libs/llama_cpp_wrapper/src/continuous_batch_scheduler.cpp:550-1199 | no step of a run takes back what an active task has read and generated, rejected drafts and reused prefixes included |
| `SchedulerProgress.LeavesEnded` | libs/llama_cpp_wrapper/src/continuous_batch_scheduler.cpp:870-1186 | in every run a task that was active and no longer is was flagged, was never begun, or has completed, or the scheduler failed |
| `SchedulerOutcome.RequestsTakeEffect` | libs/llama_cpp_wrapper/src/continuous_batch_scheduler.cpp:727-912 | a request to cancel or stop a task of a turn, made at any time before the batch of the turn is built, takes effect there: the task leaves and is told, and a cancelled one leaves no cache |
| `SchedulerOutcome.FlaggedLeave` | libs/llama_cpp_wrapper/src/continuous_batch_scheduler.cpp:735-912 | every batch step lets go of exactly the flagged tasks of its turn, tells each once, cancelled before stopped, empties the sequences of the cancelled and keeps the others |
| `SchedulerOutcome.LiveAreRunnable` | libs/llama_cpp_wrapper/src/continuous_batch_scheduler.cpp:572-619 | exactly the live tasks, in a bounded pool the admitted ones, are prepared in a turn |
| `SchedulerOutcome.AllTakePart` | libs/llama_cpp_wrapper/src/continuous_batch_scheduler.cpp:557-726 | whoever is active after admission takes part in the turn, and preparation drops nobody |
| `SchedulerOutcome.DraftsTaken` | libs/llama_cpp_wrapper/src/continuous_batch_scheduler.cpp:629-715 | a generating task goes into the batch step with the draft proposed for it, one that reads its prompt with none, and every live one is initialised |
| `SchedulerOutcome.CheckpointKept` | libs/llama_cpp_wrapper/src/continuous_batch_scheduler.cpp:947-977 | when a batch is decoded, a task whose checkpoint is due keeps the prompt as far as it has been read, if it can be captured, and no other checkpoint changes |
| `SchedulerOutcome.FailsIff` | libs/llama_cpp_wrapper/src/continuous_batch_scheduler.cpp:550-1196 | a thread step ends the scheduler if and only if it is told to stop at the top of a turn, or drafting, decoding or the rollback of a drafted task of the turn fails; every active task is then told |
| `SchedulerOutcome.ShutdownEnds` | libs/llama_cpp_wrapper/src/continuous_batch_scheduler.cpp:188-207 | after a request to stop the scheduler the next step at the top of a turn fails every active task, and nobody is active from then on |
| `SchedulerOutcome.SubmitEffect` | libs/llama_cpp_wrapper/src/continuous_batch_scheduler.cpp:140-166 | a submitted task waits at the end of the line, or fails at once if the scheduler has ended or is told to stop; nothing else changes but the owner of its slot |
| `SchedulerOutcome.ReleasedKeeps` | libs/llama_cpp_wrapper/src/llama_cpp_decoding.ipp:116-139 | a drained slot is free, and keeps the prompt, the tokens that the caller kept and the checkpoint; nothing of a cancelled task, and what it had before if the task was never begun or failed |
| `SchedulerPlan.BatchIsPlan` | libs/llama_cpp_wrapper/src/continuous_batch_scheduler.cpp:735-868 | the batch loop puts in exactly the share that the order plans, task by task |
| `SchedulerPlan.BatchNeverTooLarge` | libs/llama_cpp_wrapper/src/continuous_batch_scheduler.cpp:789-841 | no run hands the decoder more than n_batch rows, whichever callers come between the steps of a turn |
| `Generation.VerifiedDraftIsPlain` | libs/llama_cpp_wrapper/src/continuous_batch_scheduler.cpp:1070-1084 | verifying any draft against the cache yields a stretch of plain decoding, and all but its last token are the draft tokens already cached |
| `Generation.OutputUnique` | libs/llama_cpp_wrapper/src/continuous_batch_scheduler.cpp:1035-1057 | the plain answer of a prompt is unique |
| `BatchOrder.OrderIsPermutation` | libs/llama_cpp_wrapper/src/continuous_batch_scheduler.cpp:23-63 | the order is a permutation of the runnable tasks |
| `BatchOrder.BatchBudget` | libs/llama_cpp_wrapper/src/continuous_batch_scheduler.cpp:23-63 | an ordered turn fits n_batch; decoders that fit together get all their rows; mixed turns bound the prompt rows -- also if tasks are cancelled or stopped after the order was made |
| `BatchOrder.SortSorts` | libs/llama_cpp_wrapper/src/continuous_batch_scheduler.cpp:41-62 | the sort by slot yields the same tasks in the order of their slots |
| `BatchOrder.DecodersPlaced` | libs/llama_cpp_wrapper/src/continuous_batch_scheduler.cpp:839-841 | decoders whose demand fits are all placed, whole |
| `BatchFill.OrderArranges` | libs/llama_cpp_wrapper/src/continuous_batch_scheduler.cpp:41-62 | decoders go before prompts; decoders that all fit go in the order of their slots, and so do prompts if their room divides evenly |
| `BatchFill.LimitIsShare` | libs/llama_cpp_wrapper/src/continuous_batch_scheduler.cpp:23-63 | the limit of a prompt is an equal share of the room, rounded up: all that decoders leave, and beside live decoders no more than about 1024 |
| `BatchFill.ShareIsAllOrFull` | libs/llama_cpp_wrapper/src/continuous_batch_scheduler.cpp:784-838 | a prompt reads the smaller of its limit and what it has left, or fills the batch |
| `BatchFill.RoomIsUsed` | libs/llama_cpp_wrapper/src/continuous_batch_scheduler.cpp:23-63 | if every live prompt has its share left to read, prompts read at least as much as there is room for, and fill the batch when no decoder is live |
| `BatchOrder.HeadPromptAdvances` | libs/llama_cpp_wrapper/src/continuous_batch_scheduler.cpp:23-63 | with room left by the decoders the prompt at the head of the rotation advances, unless it is flagged after the order was made |
| `BatchOrder.HeadDecoderRuns` | libs/llama_cpp_wrapper/src/continuous_batch_scheduler.cpp:23-63 | the decoder at the head of the rotation runs with its whole draft if that fits n_batch, unless it is flagged after the order was made |
| `BatchOrder.RotationFairness` | libs/llama_cpp_wrapper/src/continuous_batch_scheduler.cpp:23-63 | the order alone is fair: over as many orders of equally long lists with consecutive turn numbers as these have entries, each entry that is served when it comes first is served once; over turns of a run this is SchedulerFair.EveryoneAdvances |
| `BatchOrder.PrepareBatchOrder` | libs/llama_cpp_wrapper/src/continuous_batch_scheduler.cpp:23-63 | the caller's array ends as a permutation of what it held, in the planned order, and the prefill limit is returned |
| `BatchOrder.CountDemand` | libs/llama_cpp_wrapper/src/continuous_batch_scheduler.cpp:23-63 | the counting loop yields the decode demand and the number of prompts |
| `SlotTask.ReuseIsPrefix` | libs/llama_cpp_wrapper/src/continuous_batch_scheduler.cpp:238-438 | for a surviving cache that agrees with the previous tokens, init_task leaves exactly the first prompt_pos prompt tokens cached, fewer than the prompt, for every outcome of trimming and restoring -- if and only if the draft cache does not lag behind the target inside the common prefix |
| `SlotTaskProofs.DraftLagClashes` | libs/llama_cpp_wrapper/src/continuous_batch_scheduler.cpp:238-438 | where the draft cache lags, init_task goes on from its end with the whole target cache kept, and the next row of the task clashes with a cached position |
| `SlotTaskProofs.DraftLagExample` | libs/llama_cpp_wrapper/src/continuous_batch_scheduler.cpp:238-438 | previous tokens 1 2 3, prompt 1 2 4, all of the former cached and a draft cache of one: position 1 with three tokens cached |
| `SlotTaskEffect.ReuseIsLongest` | libs/llama_cpp_wrapper/src/continuous_batch_scheduler.cpp:238-438 | init_task goes on behind a prefix of the prompt no shorter than any that can be reused, if the caches can be cut and the draft cache need not be rebuilt, and reports it as cached |
| `SlotTaskEffect.ReuseFallsBack` | libs/llama_cpp_wrapper/src/continuous_batch_scheduler.cpp:238-438 | if they cannot be cut, it goes on behind all that is cached if that is a prefix of the prompt, else behind the checkpoint if that can be restored, and else from the beginning |
| `SlotTaskEffect.CheckpointHandedOn` | libs/llama_cpp_wrapper/src/continuous_batch_scheduler.cpp:238-438 | a usable checkpoint at the very position to be captured is handed on |
| `SlotTaskEffect.CheckpointTaken` | libs/llama_cpp_wrapper/src/continuous_batch_scheduler.cpp:784-838 | a prompt is read up to the position to capture and not past it, and there its checkpoint is the prompt up to that position; a checkpoint with a separate draft context gets its last token alone |
| `SlotTaskEffect.LogitsWhereSampled` | libs/llama_cpp_wrapper/src/continuous_batch_scheduler.cpp:784-867 | rows carry the prompt tokens, or the last token and the draft, and logits are asked for at the last prompt token and at each row of a generating task, nowhere else |
| `SlotTaskEffect.SampledRows` | libs/llama_cpp_wrapper/src/continuous_batch_scheduler.cpp:784-867 | the row to be sampled is the last of its task, and the rows to be verified are all of them, in order |
| `SlotTaskEffect.DraftPaysOff` | libs/llama_cpp_wrapper/src/continuous_batch_scheduler.cpp:1070-1084 | a draft that agrees with plain decoding in its first k tokens yields at least k + 1 tokens of the plain answer in one decode |
| `SlotTaskEffect.AcceptsWhileAgreeing` | libs/llama_cpp_wrapper/src/continuous_batch_scheduler.cpp:1070-1084 | verification goes on exactly as long as the draft agrees with what is sampled |
| `SlotTask.BlockIsTake` | libs/llama_cpp_wrapper/src/continuous_batch_scheduler.cpp:784-866 | what one task puts into a batch has the size the plan gives it |
| `SlotTaskProofs.BuildKeeps` | libs/llama_cpp_wrapper/src/continuous_batch_scheduler.cpp:746-867 | building leads from the loop-boundary invariant to the decoded-batch invariant: its rows continue the sequence with the right tokens |
| `SlotTaskProofs.SampleKeeps` | libs/llama_cpp_wrapper/src/continuous_batch_scheduler.cpp:1000-1058 | sampling a plain row either restores the loop-boundary invariant or leaves the complete answer |
| `SlotTaskProofs.VerifyKeeps` | libs/llama_cpp_wrapper/src/continuous_batch_scheduler.cpp:1060-1135 | verifying a draft and rolling back what was rejected does the same |
| `SlotTaskProofs.EmitSays` | libs/llama_cpp_wrapper/src/continuous_batch_scheduler.cpp:1099-1124 | the push loop emits a prefix of the verified tokens that ends exactly where plain decoding ends |
| `SlotTaskProofs.DecodeBlock` | libs/llama_cpp_wrapper/src/continuous_batch_scheduler.cpp:926-931 | decoding the rows of a task appends exactly their tokens to its sequence |
| `SlotTaskProofs.NoClashNoDuplicates` | libs/llama_cpp_wrapper/src/continuous_batch_scheduler.cpp:926-931 | a batch the decoder accepts has no sequence position twice |
| `SlotTaskProofs.WithinReservation` | libs/llama_cpp_wrapper/include/llama_cpp_wrapper/continuous_batch_scheduler.hpp:97-102 | prompt, answer and draft of a task stay within its reservation |
| `SchedulerInv.SubmitOk` | libs/llama_cpp_wrapper/src/continuous_batch_scheduler.cpp:140-166 | submitting keeps the invariant, also after a failure or a stop |
| `SchedulerInv.FailAllOk` | libs/llama_cpp_wrapper/src/continuous_batch_scheduler.cpp:188-207 | failing everything leaves every task retired once |
| `SchedulerInv.ReleasedSlotAgrees` | libs/llama_cpp_wrapper/src/llama_cpp_decoding.ipp:116-139 | what the caller records for its slot after draining a task agrees with what the cache holds, for every number of tokens it kept |
| `SchedulerSteps.ReclaimEffect` | libs/llama_cpp_wrapper/src/continuous_batch_scheduler.cpp:475-502 | eviction clears only sequences that are neither admitted nor the candidate's, and success means that the candidate fits |
| `SchedulerSteps.AdmitEffect` | libs/llama_cpp_wrapper/src/continuous_batch_scheduler.cpp:505-548 | admission changes only pool fields, runs exactly the admitted live tasks, and rejects only tasks not admitted |
| `SchedulerSteps.BeginBoundedOk` | libs/llama_cpp_wrapper/src/continuous_batch_scheduler.cpp:557-619 | admission and rejection at the top of a turn keep the invariant |
| `SchedulerTurn.PrepareOk` | libs/llama_cpp_wrapper/src/continuous_batch_scheduler.cpp:621-726 | initialisation, drafting and ordering keep the invariant |
| `SchedulerTurn.BatchEffect` | libs/llama_cpp_wrapper/src/continuous_batch_scheduler.cpp:735-868 | after any number of tasks the batch under construction is decodable and each visited task is as its rows say |
| `SchedulerBuild.BuildOk` | libs/llama_cpp_wrapper/src/continuous_batch_scheduler.cpp:727-912 | building and retiring flagged tasks keep the invariant; cancelled sequences are cleared |
| `SchedulerFinish.FinishOk` | libs/llama_cpp_wrapper/src/continuous_batch_scheduler.cpp:914-1186 | decode, capture, sampling, verification, rollback faults and completion keep the invariant |
| `SchedulerFinish.FinishOne` | libs/llama_cpp_wrapper/src/continuous_batch_scheduler.cpp:979-1135 | for one task: the loop-boundary invariant again, or the whole answer |
| `SchedulerPool.LoadIsComputed` | libs/llama_cpp_wrapper/src/continuous_batch_scheduler.cpp:462-472 | the slot-wise load is the sum of reservations plus the idle positions that reclaim computes |
| `SchedulerPool.AdmitKeepsSafe` | libs/llama_cpp_wrapper/src/continuous_batch_scheduler.cpp:505-548 | whatever the total of reservations and idle positions was, admission does not raise it above what it was or the capacity, and brings it within the capacity as soon as it admits a task |
| `SchedulerFifo.BeginFifo` | libs/llama_cpp_wrapper/src/continuous_batch_scheduler.cpp:505-619 | admission and rejection keep the live admitted tasks a prefix of the live list |
| `ContinuousBatchScheduler.ContinuousBatchScheduler.Submit` | libs/llama_cpp_wrapper/src/continuous_batch_scheduler.cpp:140-166 | the object's state becomes the machine's next state, and stays valid |
| `ContinuousBatchScheduler.ContinuousBatchScheduler.FailAll` | libs/llama_cpp_wrapper/src/continuous_batch_scheduler.cpp:188-207 | the loop over the swapped list retires every active task |
| `ContinuousBatchScheduler.ContinuousBatchScheduler.BeginTurn` | libs/llama_cpp_wrapper/src/continuous_batch_scheduler.cpp:557-619 | the loops at the top of a turn are the admission step |
| `ContinuousBatchScheduler.ContinuousBatchScheduler.PrepareTurn` | libs/llama_cpp_wrapper/src/continuous_batch_scheduler.cpp:621-726 | the loops that initialise, draft and order are the preparation step |
| `ContinuousBatchScheduler.ContinuousBatchScheduler.BuildTurn` | libs/llama_cpp_wrapper/src/continuous_batch_scheduler.cpp:727-912 | the batch loop and the retiring loops are the building step |
| `ContinuousBatchScheduler.ContinuousBatchScheduler.FinishTurn` | libs/llama_cpp_wrapper/src/continuous_batch_scheduler.cpp:947-1186 | the capture, sample, verify and completion loops are the sampling step |
| `ContinuousBatchScheduler.ContinuousBatchScheduler.Step` | libs/llama_cpp_wrapper/src/continuous_batch_scheduler.cpp:550-1199 | any step of the thread on the object is the machine's step and keeps it valid |
| `SchedulerLoops.RetireList` | libs/llama_cpp_wrapper/src/continuous_batch_scheduler.cpp:196-206 | freeing samplers and pushing done events in a loop retires exactly the listed tasks |
| `SchedulerLoops.EraseAll` | libs/llama_cpp_wrapper/src/continuous_batch_scheduler.cpp:1162-1164 | removing one by one removes exactly the listed tasks and keeps the order |
| `SchedulerLoops.OpenTurn` | libs/llama_cpp_wrapper/src/continuous_batch_scheduler.cpp:572-586 | the loop clears drafts and collects the live tasks in order |
| `SchedulerAdmitLoop.ReclaimCapacity` | libs/llama_cpp_wrapper/src/continuous_batch_scheduler.cpp:475-502 | the eviction loop computes the reclaim function |
| `SchedulerAdmitLoop.AdmitTasks` | libs/llama_cpp_wrapper/src/continuous_batch_scheduler.cpp:505-548 | the admission loop, with its break, computes the admission function; the list of rejected has no repetitions |
| `SchedulerAdmitLoop.HaltedStays` | libs/llama_cpp_wrapper/src/continuous_batch_scheduler.cpp:533 | once a waiter does not fit nothing behind it changes |
| `SchedulerPrepareLoop.CommonPrefix` | libs/llama_cpp_wrapper/src/continuous_batch_scheduler.cpp:241-248 | the loop finds the length of the longest common prefix |
| `SchedulerPrepareLoop.DecideReuse` | libs/llama_cpp_wrapper/src/continuous_batch_scheduler.cpp:238-438 | the early returns of init_task compute the reuse function |
| `SchedulerPrepareLoop.InitRunnable` | libs/llama_cpp_wrapper/src/continuous_batch_scheduler.cpp:629-646 | the loop initialises each new unflagged runnable task on its own sequence |
| `SchedulerPrepareLoop.OrderRunnable` | libs/llama_cpp_wrapper/src/continuous_batch_scheduler.cpp:718-719 | the in-place ordering gives the identifiers in planned order and the limit |
| `SchedulerBatchLoop.BuildBatch` | libs/llama_cpp_wrapper/src/continuous_batch_scheduler.cpp:735-868 | the batch loop computes the batching function, and its lists are the cancelled and stopped tasks in turn order |
| `SchedulerBatchLoop.AddPrompt` | libs/llama_cpp_wrapper/src/continuous_batch_scheduler.cpp:784-838 | the chunk computation and the row loop add exactly the prompt's contribution |
| `SchedulerBatchLoop.AddDecode` | libs/llama_cpp_wrapper/src/continuous_batch_scheduler.cpp:839-867 | the row loop adds the last token and the whole draft, or nothing |
| `SchedulerBatchLoop.ClearCaches` | libs/llama_cpp_wrapper/src/continuous_batch_scheduler.cpp:873-881 | exactly the cancelled tasks' sequences are emptied |
| `SchedulerFinishLoop.EmitTokens` | libs/llama_cpp_wrapper/src/continuous_batch_scheduler.cpp:1099-1124 | the push loop with its breaks computes the emit function |
| `SchedulerFinishLoop.SampleTurn` | libs/llama_cpp_wrapper/src/continuous_batch_scheduler.cpp:982-1058 | the sampling loop finishes exactly the tasks with plain rows |
| `SchedulerFinishLoop.VerifyTurn` | libs/llama_cpp_wrapper/src/continuous_batch_scheduler.cpp:1060-1135 | the verification loop finishes the drafted tasks up to the first rollback that fails |
| `SchedulerFinishLoop.CaptureCheckpoints` | libs/llama_cpp_wrapper/src/continuous_batch_scheduler.cpp:961-977 | the loop hands on the checkpoint of each task that reached its capture position |
| `Utf8Stream.IncompleteUtf8Suffix` | libs/gateway/src/streaming_sanitizer.cpp:21-38 | the backward scan finds where an unfinished character starts, or the end |
| `Utf8Stream.HeldIffBegun` | libs/gateway/src/streaming_sanitizer.cpp:11-38 | whatever the bytes, what is held back is a byte that announces a character with fewer continuation bytes behind it than it asks for, and such an end is always held back |
| `Utf8Stream.StreamConserves` | libs/gateway/src/streaming_sanitizer.cpp:42-60 | for every chunking of any bytes, emitted ++ held back is the input and at most three bytes are held back |
| `Utf8Stream.StreamEmitsWholeCharacters` | libs/gateway/src/streaming_sanitizer.cpp:42-60 | while the stream is well-formed UTF-8 (section 4 of RFC 3629), what was emitted is exactly its longest prefix of whole characters |
| `Utf8Stream.ChunkingIrrelevant` | libs/gateway/src/streaming_sanitizer.cpp:42-54 | hence output and held-back bytes depend on the bytes received only, not on how they were chunked |
| `Utf8Stream.Utf8StreamBuffer.OnChunk` | libs/gateway/src/streaming_sanitizer.cpp:42-54 | the object emits and keeps what the stream functions say |
| `Utf8Stream.Utf8StreamBuffer.Finish` | libs/gateway/src/streaming_sanitizer.cpp:56-60 | finish completes the input |
| `DeltaStream.EachFieldIsAStream` | libs/gateway/src/streaming_sanitizer.cpp:62-84 | content, reasoning and each of the four parts of each tool index of interleaved deltas run as separate streams |
| `DeltaStream.EachFieldStreams` | libs/gateway/src/streaming_sanitizer.cpp:62-84 | each of them conserves its bytes, holds back at most three, and emits whole characters |
| `DeltaStream.FinishCompletes` | libs/gateway/src/streaming_sanitizer.cpp:86-103 | finish completes every field, in whatever order the tool indices come |
| `DeltaStream.InferenceDeltaUtf8Buffer.OnDelta` | libs/gateway/src/streaming_sanitizer.cpp:62-84 | the object's output and buffers are those of the stream functions |
| `DeltaStream.InferenceDeltaUtf8Buffer.Finish` | libs/gateway/src/streaming_sanitizer.cpp:86-103 | finish empties every buffer into the output |
| `Sanitizer.ScanReads` | libs/gateway/src/streaming_sanitizer.cpp:131-209 | one flush reads its buffer by the grammar of text, tags and hidden blocks, loses and invents nothing, shows no < at which a tag stands, and leaves only a proper beginning of a tag outside blocks, a text without closer inside one, and nothing when forced |
| `Sanitizer.StreamingSanitizer.Flush` | libs/gateway/src/streaming_sanitizer.cpp:131-209 | the index loop terminates for every buffer and computes the scan; the early return keeps the whole buffer |
| `Sanitizer.StreamingSanitizer.FlushTag` | libs/gateway/src/streaming_sanitizer.cpp:173-204 | the two loops over the tag table find the first tag, hold back a possible tag, or show the character |
| `Sanitizer.StreamingSanitizer.OnToken` | libs/gateway/src/streaming_sanitizer.cpp:211-218 | at most one block is open, and outside blocks fewer characters than the longest tag are retained |
| `Sanitizer.StreamingSanitizer.Finish` | libs/gateway/src/streaming_sanitizer.cpp:220-228 | the forced flush shows what is left and resets the state |
| `SanitizerRun.OutputIsAReading` | libs/gateway/src/streaming_sanitizer.cpp:131-228 | for every stream in any tokens that never leaves a closer in the buffer of an open block, all output is the visible text of one reading of the whole input, in which no < is shown where a tag of the table stands and no block but the last is dropped unclosed |
| `SanitizerChunks.OutputIsOneScan` | libs/gateway/src/streaming_sanitizer.cpp:131-228 | and if no token ends inside, or right behind, text that starts with one tag and is a proper beginning of another, the output is that of the whole text scanned in one piece |
| `SanitizerChunks.CutsDoNotMatter` | libs/gateway/src/streaming_sanitizer.cpp:131-228 | so two such ways to cut a text into tokens give the same output |
| `SanitizerChunks.BoundaryIff` | libs/gateway/src/streaming_sanitizer.cpp:173-204 | at a < that is decided before a boundary, the text behind the boundary changes the reading if and only if it changes the first tag that matches |
| `SanitizerRun.BlockEndIffNotTrapped` | libs/gateway/src/streaming_sanitizer.cpp:137-147 | whatever comes next, the open block ends where the unread text says, if and only if the retained buffer holds no closer |
| `SanitizerBlocks.ThinkingIsHidden` | libs/gateway/src/streaming_sanitizer.cpp:105-209 | in the table of the source: whatever text a thinking block holds, of a text with one exactly what stands around it is shown |
| `SanitizerBlocks.AnalysisIsHidden` | libs/gateway/src/streaming_sanitizer.cpp:105-209 | and so it is with an analysis channel |
| `SanitizerRescan.TextRepeats` | libs/gateway/src/streaming_sanitizer.cpp:140 | a family of streams -- a token that closes one block and opens another with text in it, then a plain token -- whose text between the blocks comes out three times |
| `SanitizerRescan.TagsRepeat` | libs/gateway/src/streaming_sanitizer.cpp:109-140 | in the table of the source: a, a hidden h, b and an opened block with x in one token, then y, comes out as abbb |
| `SanitizerRescan.SplitTagDiffers` | libs/gateway/src/streaming_sanitizer.cpp:173-202 | a tag that extends another is stripped whole when it comes in one token and not when it is split there |
| `SanitizerRescan.ImStartSplit` | libs/gateway/src/streaming_sanitizer.cpp:109-112 | in particular the im_start tag followed by the role assistant |
| `SecretRoundTrip.RoundTrip` | libs/gateway/src/config_secrets.cpp:124-159 | masking and then restoring against the original takes the textual path and gives the original byte for byte, if and only if the text has no sentinel of its own and no secret field is empty with a comment right behind it |
| `SecretRoundTrip.RoundTripFails` | libs/gateway/src/config_secrets.cpp:35-61 | the text "auth:", "  token: # c" does not come back |
| `SecretRoundTrip.EditsPass` | libs/gateway/src/config_secrets.cpp:137-159 | a submitted text without sentinels is taken as it is |
| `SecretRoundTrip.RestoreKeepsEdits` | libs/gateway/src/config_secrets.cpp:137-159 | for every submitted and current text: the line of a field in which a sentinel stands gets the value that the current text has for that field, if it has it; every other line is as submitted; the textual path gives up exactly if a sentinel is left |
| `SecretRoundTrip.SecretsHidden` | libs/gateway/src/config_secrets.cpp:124-132 | after masking, each field that is there is found again, with the quoted sentinel as its value |
| `SecretRoundTrip.MaskLinesAt` | libs/gateway/src/config_secrets.cpp:124-132 | masking changes the line of each field, once, and no other line |
| `SecretLine.FindValue` | libs/gateway/src/config_secrets.cpp:35-61 | the three scanning loops find the value of a line: behind the blanks, before a comment outside quotes, without the space at its end |
| `SecretLine.UnmaskLine` | libs/gateway/src/config_secrets.cpp:35-61 | unless the value is empty before a comment, the sentinel is read back as the value and replacing it restores the line |
| `SecretLine.BareIsLost` | libs/gateway/src/config_secrets.cpp:49-55 | in that one case it is not |
| `ConfigSecrets.YamlScalarSpan` | libs/gateway/src/config_secrets.cpp:18-71 | the line loop finds the span of the field |
| `ConfigSecrets.FindByLines` | libs/gateway/src/config_secrets.cpp:18-71 | that span is the value in the first line of that key inside that section |
| `ConfigSecrets.MaskConfigSecrets` | libs/gateway/src/config_secrets.cpp:124-132 | the loop over the fields masks them all |
| `ConfigSecrets.RestoreConfigSecrets` | libs/gateway/src/config_secrets.cpp:137-159 | the loop over the fields restores them, or leaves the text to the fallback |
| `KeyStoreRun.RunCoherent` | libs/gateway/src/api_key_store.cpp:338-471 | across any calls with any failing statement, commit or reopening, the index equals the unrevoked rows and a stored lease belongs to an unrevoked key |
| `KeyStoreRun.RevokedForGood` | libs/gateway/src/api_key_store.cpp:567-648 | a key whose revocation was answered with success never authenticates, acquires or renews again |
| `KeyStoreRun.AuthenticateIsTable` | libs/gateway/src/api_key_store.cpp:852-869 | a key authenticates exactly if the table holds it unrevoked with that hash |
| `KeyStoreEffect.CreatedUntilRevoked` | libs/gateway/src/api_key_store.cpp:852-869 | a created key authenticates with its hash, and no other, in every run and whatever fails, until a revocation of it is answered with success or the store is unavailable |
| `KeyStoreEffect.CreateEffect` | libs/gateway/src/api_key_store.cpp:400-471 | create succeeds exactly if the arguments are valid and one of four attempts goes through; the key then authenticates with the name and priority asked for, and nothing else changes |
| `KeyStoreEffect.UpdateEffect` | libs/gateway/src/api_key_store.cpp:512-565 | update succeeds exactly if there is something valid to change, the key is live and the statement works; it changes what was asked for, in table and index, and no more |
| `KeyStore.RevokeEffect` | libs/gateway/src/api_key_store.cpp:567-648 | revoke succeeds exactly if the key is in the table and the statements it needs work; the key is then revoked in table and index, its lease is gone and nothing else changes; a failure changes nothing |
| `KeyStoreEffect.ReopenEffect` | libs/gateway/src/api_key_store.cpp:338-368 | opening again keeps table and lease, and makes exactly the unrevoked keys usable, if all of them can be read |
| `KeyStoreEffect.AcquireEffect` | libs/gateway/src/api_key_store.cpp:676-751 | acquire grants a free lease for the time asked for, tells who holds one that is not free, and fails exactly if the caller may not ask or a statement fails; a failure changes nothing |
| `KeyStoreEffect.RenewEffect` | libs/gateway/src/api_key_store.cpp:753-815 | renew succeeds exactly for the holder of an unexpired lease, and extends it |
| `KeyStoreEffect.ReleaseEffect` | libs/gateway/src/api_key_store.cpp:817-850 | release frees the lease of its holder, and no other |
| `KeyStoreEffect.InspectEffect` | libs/gateway/src/api_key_store.cpp:650-674 | inspection shows the lease that is held and removes one that has expired |
| `KeyStoreRun.RepliesAreTrue` | libs/gateway/src/api_key_store.cpp:650-850 | in every run, for each call whose time does not lie before an earlier one: a lease is granted only if the one callers know of has expired, was released or lost its owner; only the holder renews, and only an unexpired lease; existing and occupied name the current holder |
| `KeyStoreRun.UntrueIff` | libs/gateway/src/api_key_store.cpp:231-247 | with call times in any order, a reply about the lease is untrue if and only if it says that the lease is free while the one callers know of went from the table before the time of the call |
| `KeyStoreRun.SecondGrant` | libs/gateway/src/api_key_store.cpp:676-751 | if nothing ended the first lease and the second grant's time does not lie before an earlier one, the first had expired as last renewed |
| `KeyStoreRun.ClockBackBreaksExclusion` | libs/gateway/src/api_key_store.cpp:231-247 | an inspection with a later time, then a second owner is granted a lease that the first still holds |
| `KeyStore.CreateCoherent` | libs/gateway/src/api_key_store.cpp:400-471 | create adds one fresh row and its index entry, or nothing, within four attempts |
| `ApiKeyStore.Database.Finish` | libs/gateway/src/api_key_store.cpp:198-229 | what is not committed is rolled back |
| `ApiKeyStore.Database.ReadLease` | libs/gateway/src/api_key_store.cpp:231-275 | an expired lease is removed, and what is left is read |
| `ApiKeyStore.ApiKeyStore.LoadActive` | libs/gateway/src/api_key_store.cpp:338-368 | reading the unrevoked rows in any order fills the index with exactly them, or fails |
| `ApiKeyStore.ApiKeyStore.Create` | libs/gateway/src/api_key_store.cpp:400-471 | the attempts loop is the create step |
| `ApiKeyStore.ApiKeyStore.Update` | libs/gateway/src/api_key_store.cpp:512-565 | table and index change together or not at all |
| `ApiKeyStore.ApiKeyStore.Revoke` | libs/gateway/src/api_key_store.cpp:567-648 | revocation, lease removal and index change together or not at all |
| `ApiKeyStore.ApiKeyStore.AcquireLease` | libs/gateway/src/api_key_store.cpp:676-751 | the transaction with its failure paths is the acquire step |
| `ApiKeyStore.ApiKeyStore.RenewLease` | libs/gateway/src/api_key_store.cpp:753-815 | the transaction with its failure paths is the renew step |
| `ApiKeyStore.ApiKeyStore.ReleaseLease` | libs/gateway/src/api_key_store.cpp:817-850 | only the holder's own lease is deleted |
| `ApiKeyStore.ApiKeyStore.ActiveLease` | libs/gateway/src/api_key_store.cpp:650-674 | inspection removes only an expired lease |
| `ContextPoolFit.FitContextPool` | libs/llama_cpp_wrapper/src/context_pool_fit.cpp:191-437 | arguments are checked before any probe; an error is that of the last probe, or that the minimum does not fit; automatic mode selects the optimum below the largest number of sequences that may be tried, the other mode a capacity near the threshold; the size returned is the one that the selected capacity was measured with |
| `ContextPoolFit.FitSequences` | libs/llama_cpp_wrapper/src/context_pool_fit.cpp:336-388 | with steady, downward closed answers (those that leave the number of sequences open compare only with one another): the largest number of full requests, then the largest number of sequences in that pool |
| `ContextPoolFit.FitCapacity` | libs/llama_cpp_wrapper/src/context_pool_fit.cpp:390-433 | at most 14 probes; the capacity selected fits and is less than ceil((max - min) / 4096) below the true threshold; the size returned is that of the selected capacity |
| `ContextPoolFit.Gallop` | libs/llama_cpp_wrapper/src/context_pool_fit.cpp:347-353 | doubling brackets the first failure |
| `ContextPoolFit.Bisect` | libs/llama_cpp_wrapper/src/context_pool_fit.cpp:354-360 | bisection finds the largest number that fits |
| `ContextPoolFit.BracketHalves` | libs/llama_cpp_wrapper/src/context_pool_fit.cpp:409-425 | each probe halves the gap, rounded up |
| `ContextPoolFit.MaximumSequences` | libs/llama_cpp_wrapper/src/context_pool_fit.cpp:337-340 | the limit is the largest number of sequences that the library takes, that fit a batch with a row each, and whose product with the request capacity is an int |
| `ContextPoolFit.RequestsRepresentable` | libs/llama_cpp_wrapper/src/context_pool_fit.cpp:348 | no product of a candidate and the request capacity overflows |
| `ContextPoolFit.CheckAvailable` | libs/llama_cpp_wrapper/src/context_pool_fit.cpp:92-152 | a configuration fits if and only if every device fits; it errs if and only if some device errs, and then as the first such device does |
| `ContextPoolFit.FitIsDownwardClosed` | libs/llama_cpp_wrapper/src/context_pool_fit.cpp:128-144 | a device fits exactly if demand plus margin is within its total and within free plus reclaimed, and then fits every smaller demand |
| `ContextPoolFit.CheckedAdd` | libs/llama_cpp_wrapper/src/context_pool_fit.cpp:38-46 | the sum, or an error exactly when it overflows |
| `ChatFit.FitChatHistory` | libs/llama_cpp_wrapper/src/llama_chat_adapter.cpp:231-268 | kept and dropped messages add up; nothing is dropped exactly if all fits or there is no boundary; any cut is the leading messages plus a suffix from a user message, fits or is the last possible, and for a suffix-monotone oracle is the earliest that fits |
| `ChatFit.CollectBoundaries` | libs/llama_cpp_wrapper/src/llama_chat_adapter.cpp:243-247 | the loop collects all user messages behind the first turn, in order |
| `ChatFit.Search` | libs/llama_cpp_wrapper/src/llama_chat_adapter.cpp:250-266 | the binary search leaves the conversation cut at the boundary it returns |
| `ChatFit.FoundEarliest` | libs/llama_cpp_wrapper/src/llama_chat_adapter.cpp:258-267 | for a suffix-monotone oracle nothing to the left of the cut fits |
| `MediaRun.IndexIsBacked` | libs/gateway/src/media_routes.cpp:119-157 | at every point of every run, however threads interleave, whatever fails and whenever the process is killed and restarted, each output named by the index on disk is on disk -- if files that are committed, and stay named, have landed (they are on disk and the save under way will not delete them) and files that are taken back are named by nobody |
| `MediaRun.StoringOnceIsSafe` | libs/gateway/src/media_routes.cpp:119-304 | in every run in which no job that has stored begins to store again -- with no other condition on writes, aborts and commits -- each output named by the index or by a job is on disk |
| `MediaRun.FirstStoreIsFree` | libs/gateway/src/media_routes.cpp:213-304 | for a job that has not stored outputs before, both conditions hold by themselves |
| `MediaRun.OutputsCanBeServed` | libs/gateway/src/media_routes.cpp:213-304 | and so is each output of a job in memory |
| `MediaRun.StepInv` | libs/gateway/src/media_routes.cpp:119-304 | each single step -- begin, finish, snapshot, save, delete, write, take back, commit, restart -- keeps that |
| `MediaRun.RestartInv` | libs/gateway/src/media_routes.cpp:759-895 | a restart from what is on disk in any state starts from a good state |
| `MediaRun.RestartKeeps` | libs/gateway/src/media_routes.cpp:819-895 | a restart keeps the history: every job that is there has all the outputs that the index names, in their order, and is not running; every job of the index is there unless the limits demand otherwise, and then its files are retired |
| `MediaOrphans.NothingForgotten` | libs/gateway/src/media_routes.cpp:119-304 | in every run a file on disk is named by a job, waits to be deleted or is being stored, unless its own removal failed or a restart found it unnamed by the index |
| `MediaOrphans.FilesAreTheOutputs` | libs/gateway/src/media_routes.cpp:119-304 | a run that has come to rest and lost nothing has exactly the outputs of its jobs on disk |
| `MediaTwice.TakeBackIff` | libs/gateway/src/media_routes.cpp:234-242 | taking back what a store has written keeps the index backed after every number of removals if and only if nobody names any of the files |
| `MediaTwice.CommitIff` | libs/gateway/src/media_routes.cpp:119-304 | the commit of a store leaves every named file on disk in every allowed continuation if and only if its files have landed or its job is pruned at once |
| `MediaTwice.WriteIff` | libs/gateway/src/media_routes.cpp:119-304 | a file that a running job's store writes has landed whenever that store may be committed, in every allowed continuation, if and only if it was not waiting to be deleted, by the save under way or by the next one |
| `MediaTwice.CondemnedWriteBreaks` | libs/gateway/src/media_routes.cpp:119-304 | a file that waits to be deleted and is written can be gone, by saves alone, when the store is committed: the job then names a missing file |
| `MediaTwice.AbortedSecondStore` | libs/gateway/src/media_routes.cpp:213-304 | a run from the empty history in which a job stores, stores again and fails: the index names a file that is gone |
| `MediaTwice.CondemnedThirdStore` | libs/gateway/src/media_routes.cpp:119-304 | a run from the empty history in which no store fails and the index still comes to name a file that is gone |
| `MediaHistory.PruneKeepsTheNewest` | libs/gateway/src/media_routes.cpp:189-205 | a running job stays; whatever is dropped is older than any finished job that stays; at the end the limits hold or only running jobs are left |
| `MediaHistory.PruneCuts` | libs/gateway/src/media_routes.cpp:189-205 | what stays is told by one cut in the identifiers, and no later cut than the limits demand |
| `MediaHistory.PruneRetires` | libs/gateway/src/media_routes.cpp:182-205 | the files retired are exactly those named by the dropped jobs |
| `MediaHistory.HistoryBytes` | libs/gateway/src/media_routes.cpp:168-180 | the sum, saturated at the largest 64-bit number, in any order of iteration |
| `MediaHistory.FindOldest` | libs/gateway/src/media_routes.cpp:192-201 | the oldest job that is not running, in any order of iteration |
| `MediaNames.PathsDiffer` | libs/gateway/src/media_routes.cpp:248-251 | the path of an output determines the job, the place and the kind of file |
| `MediaStore.MediaStore.PruneJobs` | libs/gateway/src/media_routes.cpp:189-205 | the loop computes the pruning function and appends the retired files |
| `MediaStore.MediaStore.PersistJobs` | libs/gateway/src/media_routes.cpp:119-157 | a run of the machine's steps; the index is the snapshot or unchanged; a save that works deletes exactly the retired files that the snapshot does not name and that can be removed, and one that fails keeps them for later |
| `MediaStore.MediaStore.StoreJobOutputs` | libs/gateway/src/media_routes.cpp:213-304 | a run of the machine's possible steps, for any job and any failing write: all outputs are written and named, or job, index and retired list are unchanged, and the history then stays good if and only if no file was taken back that somebody names, which for a first store is always so |
| `MediaStore.MediaStore.BeginJob` | libs/gateway/src/media_routes.cpp:355-373 | a run of the machine's steps that adds one running job under a fresh identifier |
| `MediaStore.MediaStore.FinishJob` | libs/gateway/src/media_routes.cpp:384-396 | a run of the machine's steps that marks the given job finished and no other, and prunes: the limits hold or only running jobs are left |

## Left out

- Media (vision) chunks in prompts: they change positions and token counts but none of the properties; prompts are text,
  so the position count of a prompt is its length.
- llama.cpp, ggml, SQLite, yaml-cpp and the operating system: model and sampler are a deterministic function of the
  cached prefix and the accepted tokens, drafts are arbitrary but no longer than the draft margin, `seq_rm` of a part
  truncates or fails, and removal of a whole sequence in clearing and cancelling succeeds (in eviction it may fail).
- Contents of the draft context: only its length at initialisation, its idle count in eviction and the success of its
  calls are inputs; a rolled back SQLite transaction restores the tables.
- Durations, progress counters, probabilities, logging, and wrap-around of the turn counter.
- The batch buffer of n_batch entries is a sequence; that it is never exceeded is proved.
- The task whose rollback fails is failed with its position fields as before the verification; nobody reads them after.
- Threads inside one step: callers act between the steps of a turn, and flags are only ever raised.
- Overflow of `int` in the scheduler's position arithmetic: positions are unbounded integers.
- The YAML fallback of masking and restoring: `mask_config_secrets` may re-serialise when YAML sees a secret that the
  scanner does not, and `restore_config_secrets` when a sentinel is left; the model stops there (`None`).
- Key material, hashing, bearer parsing and listing of keys: identifiers, prefixes and hashes are inputs.
- In-memory databases across a reopening, and other processes on the same database file.
- Memory breakdown and context creation behind a probe: each probe's answer is an input. `ContextPoolFit` takes the
  library's bound on parallel sequences to be at most half the largest int, so that doubling does not overflow.
- Media outputs kept in memory when there is no history directory, changing the directory while running, content types
  and sizes re-read at a restart.
- BatchOrder.PrepareBatchOrder: rotation, partition and sort are computed on sequences and written back to the array.
- HTTP routes, request validation, the dashboard, the model registry and the coordinator: they check or pass on single
  values and keep no state that the properties above depend on.
