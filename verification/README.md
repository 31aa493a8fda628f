# A verified model of the RUDP scheduler

The repository is a job scheduler on its own reliable-UDP transport. A client
submits a range; the server splits it into chunks, workers compute them, an
aggregator merges the answers and logs what it counts, and a restarted server
rebuilds itself from that log. Tasks are cloned on purpose, handed back by dead
workers, delivered any number of times in any order, and the server may crash
at any moment. This project models those state machines and proves what they
keep.

Functions say what one event does to a value; lemmas about runs use the
functions. Where the source updates state in place, a class holds the same
fields and each method is proved to do exactly what the function says. What
the functions themselves do is said again without them, on the fields and in
plain arithmetic, for every step of every run.

| file | what it holds |
|---|---|
| `Base`, `Bytes` | machine integers, big-endian numbers, filling a buffer |
| `Workloads`, `Jobs` | the Merge laws, hash search, `split`, `feed`, folding chunk answers |
| `Journal`, `Honesty` | log records, replay, finalisation, compaction; records that tell the truth |
| `Aggregation`, `Workers`, `Scheduler` | one function per event, and the whole scheduler as a step system with crashes |
| `AggregatorRuns`, `SequentialAnswers`, `NoTaskLost`, `RecoveryRefines`, `Accounting`, `ClientTracking`, `WorkerBounds` | what holds in every state of every run |
| `Replies`, `WorkerSteps` | what the steps of the aggregator and of a worker loop do in a run, said on their fields; who is answered, and who is not |
| `Gaps`, `SizeChangeRun`, `SizeChange`, `SendGateRun`, `SendGate` | where the code falls short, and exactly when |
| `AggregatorLoop`, `Recovery`, `WorkerLoop`, `LoopSteps` | the imperative code of the aggregator, of `recover`, of a worker loop, and why its loops are steps of the system |
| `Connection`, `Link`, `Backoff`, `WorkerLink` | one endpoint, two endpoints over a hostile network, timers, a worker on its connection |
| `Transmissions`, `EndpointSteps`, `EndpointLife` | what an endpoint does in a run, said on its fields: transmissions, acks, heartbeats, silence, closing |
| `ConnLoop`, `ServerTable` | the imperative code of a connection's main loop and of the server's tables |
| `Codecs`, `WalCodec`, `WalLog`, `EndToEnd` | messages, datagrams, log records, log files, and the layers put together |

## Hypotheses

- Workers answer honestly and `Compute` is a pure function of its arguments: a worker step answers any chunk it was ever sent, any number of times, with the value of that function.
- The workload keeps the laws of its contract (`Workloads.Lawful`). For hash search they are proved, with SHA-256 as an arbitrary function.
- A job ID always names one request.
- For the answers only: within one server process an ID stands for one split (`SequentialAnswers.OneSplit`). This follows when no restart changes the chunk size, and `SizeChange.MisanswersIffSizesDiffer` shows that nothing weaker about the chunk sizes will do. No other theorem about runs needs it except where its row says so.
- For recovery and for lost tasks only: a condition on the log a crash finds, which its rows name and show to be exact.
- Fewer than 2^32 - 1 messages are written per connection; a sequence number would otherwise wrap onto the reserved 0.
- A crash keeps a prefix of the appended log and never cuts into the snapshot of the last rewrite. `WalLog` derives this from the bytes.
- Window, EpochLimit, MaxBackoff, Epoch and ChunkSize are positive.

A server without a log file is the special case in which every crash loses
everything.

## Where the code falls short of its comments

- `recover` keeps counted chunks per job ID and `forget` does not clear that list, so a job that is forgotten and started again in the same log is resumed with chunks left out that were never counted. The comment in `sched/recover.go:94` (the shortest history that yields this state) and the claim in `wal/wal.go:9-15` that a lost record never matters do not hold for such a log. `Journal` proves skip sets and compaction exact at every cut if and only if no counted ID is restarted; `Gaps` gives the four-record log, and over whole runs `Gaps.NothingLostIff` and `RecoveryRefines.LogReplaysIff` say exactly which crashes do harm.
- A recovered job keeps its old split, as `wal/wal.go:30-32` intends, but results are matched by task ID alone. Restart with a larger chunk size, let the recovered job's grace period end while one of its chunks is out, and resubmit: the late chunk is counted for a wider one. `SizeChangeRun` gives that run for every two chunk sizes, and proves that a wrong Result is possible if and only if two chunk sizes are in use.
- `send` says that a chunk goes straight into the transport's window (`sched/worker.go:128-130`). A task leaves the in-flight count with its result, a message leaves the window with its ack, and the result may arrive first. `SendGate` proves for every state of every run exactly when a write goes straight out, and gives for every window a run in which it does not although the gate is open; `WorkerLink` proves that it always does over a FIFO network without loss or RTO expiry.
- `maxBody` is said to be far above the largest record (`wal/wal.go:67`). A record reads back if and only if its message has at most 65497 bytes; messages from the wire have at most 1024.

## Model

| member | source | states |
|---|---|---|
| HashSearch.Compute | workload/hashsearch/hashsearch.go:38-53 | for every hash function: the result has the least hash of the range, at the least nonce that has it; the greatest pair of 64-bit numbers if the range is empty |
| HashSearch.ScanIsLeast | workload/hashsearch/hashsearch.go:36-53 | no hash in the range is smaller than the answer's and no smaller nonce has it; the answer is attained unless the range is empty |
| HashSearch.MergeIsLeast | workload/hashsearch/hashsearch.go:57-63 | Merge returns one of its arguments: the smaller hash, and on equal hashes the smaller nonce |
| HashSearch.ScanSplits | workload/hashsearch/hashsearch.go:38-63 | merging the answers of two adjacent ranges gives the answer of their union |
| HashSearch.InstanceIsLawful | workload/hashsearch/hashsearch.go:38-68 | hash search keeps every law: commutative, associative, idempotent, Zero as identity, empty ranges give Zero, ranges split |
| Jobs.SplitIsExact | sched/sched.go:234-251 | for every range and chunk size: at most 2^20 tasks, none exactly for an empty range, just enough of them to cover the span; the width is the chunk size if the span is below 2^20 chunks, and otherwise the least width of which 2^20 are more than the span |
| Jobs.ChunkBounds | sched/sched.go:216-220 | no intermediate uint64 value wraps; each task is non-empty, inside the range and at most `size` wide |
| Jobs.Adjacent | sched/sched.go:212-221 | tasks touch; the first starts at lo, the last ends at hi |
| Jobs.PartitionCovers | sched/sched.go:212-221 | every point of the range lies in a task |
| Jobs.PartitionIsDisjoint | sched/sched.go:212-221 | no two tasks overlap |
| Jobs.Feed | sched/sched.go:211-230 | the loop pushes the tasks of the specification function, for every spec and skip set |
| Jobs.UnfedIsExact | sched/sched.go:212-230 | what is pushed is exactly the tasks not skipped, in index order |
| Jobs.AccInsert | sched/aggregator.go:149-151 | merging the answer of an uncounted chunk gives the merge of the counted chunks and that one |
| Jobs.AccAbsorb | workload/workload.go:7-12 | merging the answer of a counted chunk again changes nothing |
| Jobs.AccComplete | sched/aggregator.go:159-162 | the merge of all chunks of a partition is Compute of the whole range |
| Jobs.AnyOrderAnyRepetition | workload/workload.go:4-16 | folding Merge over any arrival order with any repetition that mentions every chunk gives Compute of the whole range |
| Journal.ApplyAllKeepsWellFormed | sched/recover.go:52-84 | after any records: done mentions only in-range indices of running jobs, jobs and results share no ID, remaining is n minus the counted indices |
| Journal.RemainingIsUncounted | sched/recover.go:67-75 | remaining never underflows and is zero exactly when every chunk is counted |
| Journal.SkipExactIffRestartFree | sched/recover.go:96-103 | for every log: the skip sets are exactly the counted indices wherever the log is cut, if and only if no counted ID is started again |
| Journal.CompactionPreserves | sched/recover.go:94-112 | replaying the rewritten log gives the recovered state, in any order the maps are walked, when no counted ID is started again |
| Journal.CompactionExactIffRestartFree | sched/recover.go:94-126 | for every log: compaction keeps the meaning of every prefix if and only if no counted ID is started again |
| Journal.CompactedRepeats | sched/recover.go:94-106 | for every log: the rewritten one keeps the answers, the jobs and their splits, and has done exactly what the chunk lists name |
| Journal.CompactionCountsIffSkipIsExact | sched/recover.go:96-106 | for every log: the rewritten one has done exactly what was done if and only if the skip sets are exact |
| Honesty.HonestCompactionIffSkipIsExact | sched/recover.go:94-112 | for every truthful log: the rewritten one replays to the recovered state if and only if the skip sets are exact |
| Honesty.HonestApplyAll | sched/recover.go:52-84 | truthful records lead to states whose accumulators are the merge of exactly the counted chunks and whose answers are right |
| Honesty.CompletedIsExpected | sched/aggregator.go:159-162 | a job with nothing remaining has accumulated the sequential answer |
| Honesty.HonestFinalise | sched/recover.go:86-92 | finishing jobs whose last chunk was logged keeps every stored answer right |
| Aggregation.SubmitIsReplay | sched/aggregator.go:101-132 | a submission changes jobs, done and results exactly as replaying the records it logs does |
| Aggregation.TakeResultIsReplay | sched/aggregator.go:134-162 | so does a result, counted or dropped |
| Aggregation.FinishIsReplay | sched/aggregator.go:77-97 | so does finishing or dropping a job |
| Aggregation.ExpireIsReplay | sched/aggregator.go:180-186 | so does expiring an answer |
| Aggregation.SubmitKeepsSound | sched/aggregator.go:101-132 | cancel channels stay distinct, open and closed at most once; byConn and job.client stay inverses |
| Aggregation.TakeResultKeepsSound | sched/aggregator.go:134-162 | the same through a result that may finish its job |
| Aggregation.FinishKeepsCancels | sched/aggregator.go:77-97 | finishing closes the job's own channel, never one closed before |
| Aggregation.ClientGoneKeepsSound | sched/aggregator.go:164-171 | after a notice nobody is attached to that connection and byConn is still the inverse of job.client |
| Aggregation.DetachFrees | sched/aggregator.go:71-76 | after a detach nobody is attached to the job, byConn has no entry for it, everybody else stays attached, and detaching again does nothing |
| AggregatorRuns.AggregatorInvariant | sched/aggregator.go:99-198 | in every run, with no hypothesis: a running job has n minus its counted indices remaining, more than none; done mentions only in-range indices of running jobs; no ID is both running and answered |
| SequentialAnswers.StepIsTrue | sched/worker.go:76-120 | every step, crashes included, that splits a known ID as before keeps tasks, results in transit, log, state and replies truthful |
| SequentialAnswers.AccumulatorIsExact | sched/aggregator.go:149-151 | in every run with one split per ID the accumulator of a running job is the merge of exactly the counted chunks |
| SequentialAnswers.EveryAnswerIsSequential | sched/aggregator.go:101-163 | in every run with one split per ID, every Result sent equals Compute over the whole range of its job |
| SequentialAnswers.FixedSizeIsOneSplit | sched/sched.go:190-192 | a chunk size that no restart changes gives every ID one split per process |
| SequentialAnswers.HashSearchAnswers | workload/hashsearch/hashsearch.go:36-53 | in every run with one split per ID, every Result has the least hash of the whole requested range, at the least nonce that has it |
| SizeChange.SizeChangeMisanswers | sched/aggregator.go:135-150 | for every two chunk sizes and every configuration: a run of the whole system, restart included, that ends in a reply for part of the range |
| SizeChangeRun.ReplyIsWrong | sched/aggregator.go:149-162 | that reply is not the sequential answer |
| SizeChange.MisanswersIffSizesDiffer | sched/sched.go:190-192 | for every configuration: some lawful workload can be sent a wrong Result if and only if two different chunk sizes are in use |
| NoTaskLost.StepKeeps | sched/worker.go:76-143 | every step keeps every uncounted chunk somewhere it will be worked on from, through put-back with a full pq and hand-back of a dead worker |
| NoTaskLost.ExactSkipsLoseNothing | sched/recover.go:96-106 | feeders that skip exactly the counted chunks leave nothing out after a restart |
| NoTaskLost.NoTaskIsLost | sched/worker.go:48-143 | in every state of every run whose crashes find exact skip sets, each uncounted chunk of a running job is still to be fed, in nq, in pq, or held by a worker loop |
| NoTaskLost.CleanCrashesAreExact | sched/recover.go:96-103 | every crash finds exact skip sets when none finds a restarted counted ID |
| NoTaskLost.WaitingIsGenuine | sched/sched.go:216-221 | with one split per ID, what waits under the ID of a running job's chunk is exactly the task `feed` builds for it |
| Gaps.NothingLostIff | sched/recover.go:96-106 | for every run: nothing is ever lost if and only if every crash finds exact skip sets |
| RecoveryRefines.LogReplaysToLiveState | sched/aggregator.go:52-97 | in every state of every run with faithful rewrites the log replays to exactly the live jobs, done, accumulators, remaining and results |
| RecoveryRefines.LogReplaysIff | sched/recover.go:94-112 | with one split per ID: the log replays to the live state throughout the run if and only if every crash finds exact skip sets |
| RecoveryRefines.CleanCrashesAreFaithful | sched/recover.go:94-112 | for any workload and any splits, rewrites are faithful when no crash finds a restarted counted ID |
| RecoveryRefines.FaithfulIffExact | sched/recover.go:94-112 | with one split per ID, rewrites are faithful if and only if every crash finds exact skip sets |
| RecoveryRefines.AnyCutRecoversALiveState | sched/recover.go:31-92 | in every run with faithful rewrites the log cut anywhere behind its snapshot recovers to the state of an earlier moment of the run |
| RecoveryRefines.FinaliseIsJobDone | sched/recover.go:86-92 | finalisation does what the missing JobDone record would have done |
| RecoveryRefines.HistoryIsReal | sched/aggregator.go:99-198 | the states a cut may recover to are states the run was in |
| Accounting.CountedPlusMergedIsAll | sched/aggregator.go:149-162 | from any moment of a job's life, the chunks counted then and the chunks merged since are n when it completes |
| Accounting.RecoveredPlusMergedIsAll | sched/recover.go:98-105 | the chunks recovered at a restart and the chunks merged since add up to n when the job completes |
| ClientTracking.AttachedOrOrphaned | sched/aggregator.go:71-76 | in every run: a running job is attached or has an orphan time, byConn is the inverse of job.client, each cancel is closed at most once |
| ClientTracking.NoNoticeIsLost | sched/sched.go:146-176 | in every run a job attached to an ended connection has a notice still to come |
| Replies.RequestsAreTakenUp | sched/aggregator.go:101-132 | in every run, each request: a stored answer is sent to the asker; a running job passes to the asker with its count intact; an unknown job starts with nothing counted, or is answered at once if its range is empty; an asker that is over leaves the job orphaned from now on; no other job changes |
| Replies.ResultsAreCounted | sched/aggregator.go:134-162 | in every run, each result: counted once, dropped otherwise; the last chunk stores the answer under the present time, sends exactly one Result to the waiting client and none if nobody waits, closes exactly this job's cancel and forgets exactly its done entries |
| Replies.NoticesAreHeeded | sched/aggregator.go:164-171 | in every run a notice orphans exactly the job of its connection, from now on |
| Replies.JobsEndOnlySo | sched/aggregator.go:77-97 | in every run a job ends only with its last chunk and a stored answer, or by being abandoned; either way exactly its own cancel is closed |
| Replies.GivenUpOnlyAfterGrace | sched/aggregator.go:164-179 | in every run a job is dropped only if the step that left it without a client came more than the grace period ago and nobody was attached since; the orphan time is the time of that step |
| Replies.KeptForTheTTL | sched/aggregator.go:180-186 | in every run an answer expires only if it was stored, or recovered, more than the TTL ago, at the time it carries, and has been there since |
| Replies.OneAnswerPerStep | sched/aggregator.go:99-163 | in every run a step sends at most one Result, to the connection that asks or that waits, and it carries the stored answer |
| Replies.OnlyAskersAreAnswered | sched/aggregator.go:101-163 | in every run a Result goes only to a connection that asked for that very job |
| Replies.NobodyIsForgotten | sched/aggregator.go:101-179 | in every run, at every moment after a request until the next crash: the asker has been sent its Result, or its job is attached to it, or its connection is over, or another connection asked for the same job since |
| Replies.NobodyIsAnsweredTwice | sched/aggregator.go:101-163 | in every run no connection is sent two Results within one life of the server |
| WorkerBounds.BoundsHold | sched/worker.go:58-101 | in every run no worker exceeds its window, no entry is cloned twice, no queue exceeds its capacity |
| WorkerBounds.PaceOverRuns | sched/worker.go:181-187 | in every run a worker's smoothed pace lies between any bounds of the response times measured, and exists exactly once one was |
| WorkerSteps.SendsAreRecorded | sched/worker.go:131-151 | in every run a pulled task goes in flight with the present time, or, if it is the loop's own clone, back to pq if there is room, and pq is put on hold |
| WorkerSteps.HoldLastsUntilTheTick | sched/worker.go:61-73 | in every run a loop that met its own clone takes nothing from pq before its next tick |
| WorkerSteps.TickReleases | sched/worker.go:103-106 | a tick ends the hold and touches nothing in flight |
| WorkerSteps.EntriesWereSent | sched/worker.go:144-146 | in every run an entry in flight was sent by this loop at the time it carries and has been in flight since |
| WorkerSteps.AnswersArePassedOn | sched/worker.go:77-95 | in every run the first answer for a task in flight is passed on and every other is dropped; exactly the tasks never cloned are timed, and the pace moves one eighth of the way to the sample |
| WorkerSteps.SamplesAreResponseTimes | sched/worker.go:86-90 | in every run each sample is the time from the sending of a task to its answer, and the task had not been cloned |
| Gaps.RestartLosesNothingIff | sched/recover.go:96-106 | after a restart nothing is lost if and only if every skip set is exact |
| Gaps.UncleanCrashLoses | sched/recover.go:117-126 | a crash right behind a restarted ID always loses a task |
| Gaps.RestartedLogForgets | sched/recover.go:117-126 | the four-record log: chunk 0 is neither counted nor fed again |
| AggregatorLoop.Aggregator.FinishJob | sched/aggregator.go:77-97 | the job is gone with exactly its own done entries, its cancel is closed once more, and a completed job's answer is stored under the present time while a dropped one leaves only a JobDrop |
| AggregatorLoop.Aggregator.OnSubmit | sched/aggregator.go:101-132 | a stored answer is sent to the asker and nothing else changes; a running job passes to the asker, or is orphaned from now on if the asker is over; an unknown one starts, durably logged, and is fed; an empty one is answered at once |
| AggregatorLoop.Aggregator.OnResult | sched/aggregator.go:134-162 | a late copy or an orphan changes nothing; any other result is counted once; the last one stores the merged answer, closes the job's cancel and sends one Result to the client that waits, if one does |
| AggregatorLoop.Aggregator.OnClientGone | sched/aggregator.go:164-171 | the connection has no entry any more; its job is without a client from now on, and no other job changes |
| AggregatorLoop.Aggregator.DropAbandoned | sched/aggregator.go:174-179 | no job is left that was orphaned for more than the grace period, and every other job is untouched; the loop is a run of drop steps |
| AggregatorLoop.Aggregator.ExpireAnswers | sched/aggregator.go:180-186 | the loop is a run of expiry steps and keeps exactly the answers within the TTL |
| AggregatorLoop.Aggregator.SnapshotResults | sched/recover.go:129-135 | one JobDone per stored answer, each exactly once |
| AggregatorLoop.Aggregator.OnTick | sched/aggregator.go:173-192 | nothing past its grace or TTL is left and everything else stays; with no job running and a big log the log becomes its snapshot; every record is durable |
| LoopSteps.TickIsSteps | sched/aggregator.go:173-192 | a tick is a row of steps of the system that touch nothing but the aggregator |
| Recovery.Recoverer.ForgetJob | sched/recover.go:117-126 | the running job and exactly its own done entries go; the chunk list stays |
| Recovery.Recoverer.ReplayOne | sched/recover.go:53-83 | one record turns the replayed state of a prefix into that of the prefix and the record, chunk lists included |
| Recovery.Recoverer.ReplayAll | sched/recover.go:52-84 | the loop computes Replay of the whole log and the chunk lists |
| Recovery.Recoverer.FinishComplete | sched/recover.go:86-92 | the loop finishes every complete job, in any order |
| Recovery.Recoverer.RepeatChunks | sched/recover.go:98-102 | the chunk records to repeat and the indices to skip |
| Recovery.Recoverer.ResumeJobs | sched/recover.go:95-106 | every running job is repeated in the new log and gets its own feeder |
| Recovery.Recover | sched/recover.go:35-114 | the whole function hands over a state, a log and feeders that are a restart of the step system |
| WorkerLoop.Loop.TryPull | sched/worker.go:58-75 | something is pulled if and only if the window has room and pq, unless on hold, or nq has a task; pq goes first, and on hold it is not touched |
| LoopSteps.PullIsStep | sched/worker.go:58-75 | a pull is one step of the system, from pq exactly if there is no hold and pq is not empty |
| WorkerLoop.Loop.Send | sched/worker.go:131-151 | a task not in flight is; the loop's own clone goes back to pq or is dropped if pq is full, and pq is put on hold |
| LoopSteps.SendIsStep | sched/worker.go:131-151 | writing the pulled task, or putting the own clone back, is one step of the system |
| WorkerLoop.Loop.OnResult | sched/worker.go:77-95 | the result is handed on and forgotten, or dropped as a repeat; only an entry not cloned is sampled |
| WorkerLoop.Loop.Speculate | sched/worker.go:156-179 | nothing happens without a sample or when switched off; otherwise exactly the entries never cloned that are out for longer than the scaled pace and than the floor are cloned, once, and one is left only if pq is full |
| WorkerLoop.Loop.OnTick | sched/worker.go:103-106 | the hold on pq ends and the overdue entries are cloned as above |
| LoopSteps.SpeculationIsSteps | sched/worker.go:156-179 | a speculation scan is a row of clone steps of the system |
| LoopSteps.SpeculationEndsThere | sched/worker.go:156-179 | what the scan leaves behind is where those steps end |
| WorkerLoop.Loop.HandBack | sched/worker.go:108-118 | every entry is pushed to pq, once, or still in flight, and only a full pq stops it |
| LoopSteps.HandBackIsSteps | sched/worker.go:108-118 | handing back is a row of hand-back steps of the system |
| LoopSteps.HandBackEndsThere | sched/worker.go:108-118 | what handing back leaves behind is where those steps end |
| Link.RunIsSound | rudp/conn.go:135-344 | every run of two endpoints over a network that loses, repeats and reorders keeps both directions sound |
| Link.AtLeastOnce | rudp/conn.go:145-176 | the writes are the payloads of 1..nextSeq followed by pendingWrites; a number no longer in the window was accepted with its exact payload unless the peer had closed; nothing else is delivered |
| Link.OrderedIsFifo | rudp/ordered.go:15-32 | what is delivered is exactly the first next-1 writes, in order, once; what is held lies beyond the gap |
| Link.BacklogBeforeError | rudp/conn.go:298-311 | once Read is handed an error it was handed the whole backlog before it and nothing follows |
| Link.CloseIsABarrier | rudp/conn.go:313-344 | an endpoint told of a Close has accepted every message the closer wrote, and has queued all of them for Read |
| Link.SenderSteps | rudp/conn.go:204-273 | the direction out of an endpoint survives each of its steps |
| Link.ReceiverSteps | rudp/conn.go:145-176 | the direction into an endpoint survives each of its steps |
| Backoff.BackoffOverRuns | rudp/conn.go:253-273 | after k >= 1 resends the RTO is min(2^k * initial, MaxBackoff epochs), and the k-th resend came no earlier than the sum of the RTOs in force |
| Backoff.NoEarlyResend | rudp/conn.go:259-268 | in every step of every run a message that stays in the window is untouched or resent with its RTO run out |
| Backoff.ResendsAreSpaced | rudp/conn.go:253-273 | a number in the window at two moments of a run is the same message, and the time between covers every RTO in force at a resend |
| Backoff.EstimatorOverRuns | rudp/conn.go:204-224 | SRTT stays between any bounds of the samples; an ack adds a sample exactly when its message was never resent |
| Transmissions.TransmissionsAreCounted | rudp/conn.go:227-273 | in every run each message in the window has gone over the wire exactly once more than its retries |
| EndpointSteps.DueIsResent | rudp/conn.go:253-273 | at every epoch of every run: a message out for its RTO or longer goes over the wire once more, with its RTO doubled up to the limit; any other is untouched and not sent |
| EndpointSteps.MessagesStart | rudp/conn.go:227-251 | in every run a message enters the window sent once, now, with an RTO of two epochs before the first sample and of the larger of one epoch and twice the estimate after it |
| EndpointSteps.AckTakesItsMessage | rudp/conn.go:204-224 | in every run an ack removes exactly its own message; the estimate moves one eighth of the way to its round trip if the message was never resent, and not at all otherwise |
| EndpointSteps.DataIsAcknowledged | rudp/conn.go:154-161 | in every run each numbered data packet, repeated or not, is acknowledged by one ack of its own number; an open endpoint accepts it and in default mode delivers it, a flushing one delivers nothing |
| EndpointLife.IdleMeansHeartbeat | rudp/conn.go:275-283 | in every run an epoch sends one heartbeat exactly if nothing was sent since the epoch before and nothing is due |
| EndpointLife.SilenceIsCounted | rudp/conn.go:147-186 | in every run the silence count is the number of epochs since the last packet of this connection |
| EndpointLife.SilenceEndsIt | rudp/conn.go:178-186 | in every run a connection is given up at the epoch that makes that count reach the limit, and at no other; an open one hands Read its backlog and then the error |
| EndpointLife.CloseEndsIt | rudp/conn.go:162-165 | in every run the peer's Close ends the connection: behind the backlog if it is open, at once if it is flushing |
| EndpointLife.FlushEndsWithTheLastAck | rudp/conn.go:313-344 | in every run a flush ends, with one Close packet, at the Close call or at the ack that leaves nothing unacknowledged, and at no other ack |
| EndpointLife.FlushingOwes | rudp/conn.go:313-344 | in every run a flushing endpoint still has something unacknowledged |
| WorkerLink.PendingWritesStayEmpty | sched/worker.go:128-146 | over a FIFO network without loss or expiry no chunk ever waits in pendingWrites: unacknowledged chunks inject into the tasks in flight |
| SendGate.WriteGoesStraightOutIff | rudp/conn.go:227-240 | in every state of every run a write goes straight out if and only if fewer than a window of messages are unacknowledged |
| SendGate.GateIsNotTheWindow | sched/worker.go:58-74 | for every window: a run with fewer than a window of tasks in flight in which the next chunk waits |
| ConnLoop.Conn.FillTheWindow | rudp/conn.go:227-240 | the loop moves writes into the window, numbered in order, until one of the two is exhausted |
| ConnLoop.Conn.HandleAck | rudp/conn.go:204-215 | the new state is the ack event of the link: sample by Karn's rule, remove, refill |
| ConnLoop.Conn.Retransmit | rudp/conn.go:256-273 | every message out for its RTO or longer is sent once more now, with one more retry and its RTO doubled up to the limit; every other message is untouched |
| ConnLoop.Conn.AcceptInOrder | rudp/ordered.go:20-31 | the loop drains the reorder buffer up to the next gap |
| ConnLoop.Conn.HandlePacket | rudp/conn.go:146-165 | the new state is the receive event of the link, for every packet type and for packets of other connections |
| ConnLoop.Conn.HandleFlushPacket | rudp/conn.go:320-332 | the new state is the receive event of a flushing endpoint: data is acknowledged but not delivered |
| ConnLoop.Conn.HandleEpoch | rudp/conn.go:178-186 | the due messages are resent as above, a heartbeat goes out if nothing else did, and the silence limit ends the connection: one step of the link, open or flushing |
| ConnLoop.Conn.HandleWrite | rudp/conn.go:167-169 | the new state is the write event of the link: the write is queued and the window refilled |
| ConnLoop.Conn.HandleClose | rudp/conn.go:316-318 | the new state is the close event of the link: Close goes out at once exactly if nothing is owed |
| ConnLoop.Conn.HandOver | rudp/conn.go:174-176 | the new state is the take event of the link: Read gets the head of the queue |
| ConnLoop.Conn.Drain | rudp/conn.go:298-311 | the loop hands Read the whole backlog, in order |
| ServerTable.StepTracks | rudp/server.go:112-182 | every event keeps the two tables exact inverses, and IDs with the address they were issued to |
| ServerTable.ForgetTracks | rudp/server.go:93-98 | forgetting an ended connection frees its address and keeps the tables inverse and the IDs with their addresses |
| ServerTable.KnownAddressHasEntry | rudp/server.go:155-160 | in every run a known address finds a table entry of its own to test |
| ServerTable.RetryGetsSameID | rudp/server.go:149-170 | in every run a retried Connect to a connection that has not ended gets the same ID and changes nothing |
| ServerTable.ConnectIsServed | rudp/server.go:149-170 | in every run each Connect, unless closing, ends with the address and its ID in both tables: the live entry untouched, or the next number, issued for the first time; nobody else's entry changes |
| ServerTable.PacketsLeaveOthersAlone | rudp/server.go:172-181 | in every run a packet changes the tables only by removing the ended connection it names, and only if it comes from the address that ID was issued to |
| ServerTable.IDsAreNeverReused | rudp/server.go:161-166 | in every run, two Connects the second of which finds no live entry end with two different IDs in the table |
| ServerTable.ReadLoop.HandleConnect | rudp/server.go:149-170 | unless closing, the answered ID and the address are each other's entries; a live entry is answered as it is, any other Connect gets the next number, never issued before; while closing nothing changes and nobody is answered |
| ServerTable.ReadLoop.HandlePacket | rudp/server.go:172-181 | a packet is handed over if and only if the connection it names exists, belongs to its sender, and is alive or has room; an entry goes only if it is that of an ended connection and its own peer sends |
| ServerTable.ReadLoop.SweepDead | rudp/server.go:120-127 | the sweep keeps exactly the connections that have not ended, and the tables inverse |
| Wire.DecodeIsExact | wire/wire.go:137-183 | Decode accepts exactly the encodings, each as the message it encodes |
| Wire.RequestLayout | wire/wire.go:90-97 | kind 2, then job, lo and hi in 8 bytes each, the length in 2, the message; numbers most significant byte first |
| Wire.ChunkLayout | wire/wire.go:98-106 | kind 3, then job in 8 bytes, index in 4, lo and hi in 8 each, the length in 2, the message |
| Wire.AnswerLayout | wire/wire.go:107-120 | kinds 4 and 5: task or job, then hash, then nonce |
| Bytes.MostSignificantFirst | wire/wire.go:1-3 | a byte before k others counts 256^k times as much |
| Wire.EncodeBuffer | wire/wire.go:85-124 | filling the buffer field by field gives the specified layout |
| Datagrams.ParseIsExact | rudp/packet.go:31-64 | parse accepts exactly what marshal makes of payloads up to 1200 bytes, each as the packet it came from |
| Datagrams.PacketLayout | rudp/packet.go:9-39 | type 1 to 5, connection and sequence number in 4 bytes each, payload length in 2, the payload |
| Datagrams.MarshalBuffer | rudp/packet.go:31-39 | filling the buffer gives the specified layout |
| Datagrams.ReadBufferIsEnough | rudp/server.go:91-144 | cutting a datagram to the read buffer never changes how it parses |
| Datagrams.MessagesFit | rudp/conn.go:42-45 | no encoded message makes Write panic |
| Datagrams.StackIsExact | wire/wire.go:85-183 | a datagram reads as a given message if and only if it is that message encoded and marshalled |
| WalCodec.RecordIsExact | wal/wal.go:200-263 | decode accepts exactly the encodings of records whose length fits 16 bits |
| WalCodec.RecordLayout | wal/wal.go:200-234 | where every field of each record stands, and in how many bytes |
| WalCodec.FrameLayout | wal/wal.go:134-147 | length, checksum, body |
| WalCodec.FrameReads | wal/wal.go:110-129 | a frame reads back as its record whatever follows it |
| WalCodec.CutFrameReadsNothing | wal/wal.go:110-121 | a frame cut short reads as nothing |
| WalLog.ReadLog | wal/wal.go:103-131 | the loop computes the specified reading of the file |
| WalLog.GoodIsFrames | wal/wal.go:103-131 | for arbitrary bytes the first `good` of them are exactly the frames of the records returned, and no frame follows |
| WalLog.TornTail | wal/wal.go:76-131 | for every list of readable records and every cut of its bytes, the records whose frames fit come back with their exact length |
| WalLog.FittingIsLongest | wal/wal.go:76-131 | those records are the longest prefix whose frames fit |
| WalLog.AppendAfterTear | wal/wal.go:76-147 | truncating, appending and reopening yields that prefix plus the new record |
| WalLog.FrameReadsBackIff | wal/wal.go:64-68 | a record reads back if and only if its message has at most 65497 bytes |
| WalLog.Log.Append | wal/wal.go:134-147 | the file and its buffer hold the frames of one more record, however much of the buffer is flushed |
| WalLog.Log.Sync | wal/wal.go:150-155 | everything so far survives a crash |
| WalLog.Log.Rewrite | wal/wal.go:160-192 | the log is exactly the given records, all of them durable |
| WalLog.Log.CrashKeepsARecordPrefix | wal/wal.go:76-98 | a crash at any byte past the durable ones leaves a prefix of the records that holds all durable ones |
| EndToEnd.LogIsReadable | wal/wal.go:64-68 | in every run every record of the log can be read back |
| EndToEnd.TornFileRecoversALiveState | sched/recover.go:31-92 | in every run with faithful rewrites the log file cut at any byte behind its snapshot recovers to the state of an earlier moment of the run |
| EndToEnd.MessagesInOrder | rudp/ordered.go:15-32 | in ordered mode what Read yields decodes to the messages written, one by one, in order |
| EndToEnd.DeliveriesAreMessages | rudp/conn.go:197-202 | in default mode every delivery decodes to a message that was written |
| EndToEnd.AcknowledgedIsDelivered | rudp/conn.go:204-215 | in default mode a message the sender stopped resending was delivered, unless its receiver had closed |

## Left out

- Progress: everything here is safety. That a job finishes needs fairness of the network and of the schedule.
- Shutdown: the stop channel and the exits through it are not steps of the system.
- Sockets, tickers, goroutines and real time: their effects are nondeterministic steps with an explicit clock value.
- SHA-256, decimal formatting and CRC-32: arbitrary functions.
- I/O errors of the log: Append, Sync and Rewrite always succeed; the file is a byte sequence, a crash keeps a prefix, a rename is atomic.
- Stats, hooks, histograms, metrics, flags and parameter defaults: reporting and configuration.
- The straggler factor times the pace (a float product) is a parameter of `WorkerLoop.Loop.Speculate`; in the step system any entry not yet cloned may be cloned.
- The size above which an idle log is compacted is a flag of `OnTick`; in the step system an idle log may be compacted at any time.
- rudp/client.go and node: a client handshake and thin loops; a remote worker is one step that answers any chunk it was sent.
- transport/tcp.go, transport/dial.go and internal/lossy: a kernel TCP baseline and a test network.
- ServerTable.IDsAreNeverReused: does not cover the wrap-around of the 32-bit ID counter; runs end before it.
- Jobs and worker entries are values in maps rather than pointers to shared structures; no two parts of the source hold the same one across goroutines.
