/**
 Every Result ever sent is the sequential answer, in every run: whatever is
 cloned, handed back, repeated or reordered, whoever vanishes, and wherever the
 log is cut when the server dies.
 */
module SequentialAnswers {
  import opened Base
  import opened Workloads
  import HashSearch
  import opened Jobs
  import opened Journal
  import opened Honesty
  import opened Aggregation
  import opened Workers
  import opened Scheduler
  import opened AggregatorRuns

  /** A task that is exactly what `feed` builds for its ID in this process. */
  ghost predicate TrueTask(specs: map<u64, JobSpec>, t: Task) {
    && t.id.job in specs && t.id.idx < specs[t.id.job].n
    && t == TaskOf(specs[t.id.job], t.id.idx)
  }

  ghost predicate TrueResult(w: Workload, specs: map<u64, JobSpec>, tid: TaskID, p: Partial) {
    tid.job in specs && tid.idx < specs[tid.job].n && p == ChunkAnswer(w, specs[tid.job], tid.idx)
  }

  ghost predicate TrueWorker(w: Workload, specs: map<u64, JobSpec>, k: Worker) {
    && (forall tid :: tid in k.inflight ==> k.inflight[tid].task.id == tid && TrueTask(specs, k.inflight[tid].task))
    && (k.pulled.Some? ==> TrueTask(specs, k.pulled.value))
    && (k.hand.Some? ==> TrueResult(w, specs, k.hand.value.0, k.hand.value.1))
    && (forall t :: t in k.sent ==> TrueTask(specs, t))
  }

  /** Everything on its way between the goroutines is genuine. */
  ghost predicate TrueTasks(cfg: Config, s: Sys) {
    && (forall c :: c in s.feeders ==> var spec := s.feeders[c].spec; spec.id in s.specs && s.specs[spec.id] == spec)
    && (forall t :: t in s.nq ==> TrueTask(s.specs, t))
    && (forall t :: t in s.pq ==> TrueTask(s.specs, t))
    && (forall conn :: conn in s.workers ==> TrueWorker(cfg.w, s.specs, s.workers[conn]))
  }

  ghost predicate TrueReplies(cfg: Config, replies: seq<Reply>) {
    forall r :: r in replies ==> r.answer == Expected(cfg.w, cfg.names, r.job)
  }

  ghost predicate TrueAgg(cfg: Config, specs: map<u64, JobSpec>, a: Agg) {
    && HonestCore(cfg.w, cfg.names, specs, CoreOf(a))
    && Unfinished(a)
    && HonestLog(cfg.w, cfg.names, specs, a.log)
    && a.kept <= |a.log|
    && TrueReplies(cfg, a.replies)
  }

  ghost predicate Truth(cfg: Config, s: Sys) {
    && s.chunkSize > 0
    && HonestSpecs(cfg.names, s.specs)
    && TrueAgg(cfg, s.specs, s.agg)
    && TrueTasks(cfg, s)
  }

  // ------------------------------------------------------------ the aggregator

  lemma SpecForIsHonest(cfg: Config, chunkSize: u64, id: u64)
    requires chunkSize > 0
    ensures HonestSpecs(cfg.names, map[id := SpecFor(cfg, chunkSize, id)])
  {
    SplitIsExact(cfg.names(id).lo, cfg.names(id).hi, chunkSize);
  }

  /** A larger table of splits keeps every record and state honest. */
  lemma MoreSpecs(cfg: Config, specs: map<u64, JobSpec>, id: u64, spec: JobSpec, a: Agg)
    requires id in specs ==> specs[id] == spec
    requires TrueAgg(cfg, specs, a)
    ensures TrueAgg(cfg, specs[id := spec], a)
  {
    var more := specs[id := spec];
    forall r | r in a.log ensures HonestRecord(cfg.w, cfg.names, more, r) {}
  }

  /** Nothing is left to wait for exactly when the answer is known. */
  lemma ReplyIsTrue(cfg: Config, specs: map<u64, JobSpec>, a: Agg, id: u64)
    requires Lawful(cfg.w) && HonestSpecs(cfg.names, specs) && HonestCore(cfg.w, cfg.names, specs, CoreOf(a))
    requires id in a.jobs && a.jobs[id].core.remaining == 0
    ensures a.jobs[id].core.acc == Expected(cfg.w, cfg.names, id)
  {
    CompletedIsExpected(cfg.w, cfg.names, specs, CoreOf(a), id);
  }

  lemma CompletionIsTrue(cfg: Config, specs: map<u64, JobSpec>, a: Agg, id: u64, now: int)
    requires Lawful(cfg.w) && HonestSpecs(cfg.names, specs) && HonestCore(cfg.w, cfg.names, specs, CoreOf(a))
    requires id in a.jobs && (forall other :: other in a.jobs && other != id ==> a.jobs[other].core.remaining != 0)
    requires HonestLog(cfg.w, cfg.names, specs, a.log) && a.kept <= |a.log| && TrueReplies(cfg, a.replies)
    ensures TrueAgg(cfg, specs, FinishIfComplete(a, id, now))
  {
    hide HonestLog;
    if a.jobs[id].core.remaining == 0 {
      ReplyIsTrue(cfg, specs, a, id);
      FinishIfCompleteIsReplay(cfg.w, a, id, now);
      var acc := a.jobs[id].core.acc;
      HonestApply(cfg.w, cfg.names, specs, CoreOf(a), JobDone(id, acc.hash, acc.nonce));
      LogGrows(cfg.w, cfg.names, specs, a.log, [JobDone(id, acc.hash, acc.nonce)]);
    }
  }

  lemma TakeResultIsTrue(cfg: Config, specs: map<u64, JobSpec>, a: Agg, tid: TaskID, p: Partial, now: int)
    requires Lawful(cfg.w) && HonestSpecs(cfg.names, specs) && TrueAgg(cfg, specs, a)
    requires TrueResult(cfg.w, specs, tid, p)
    ensures TrueAgg(cfg, specs, TakeResult(cfg.w, a, tid, p, now))
  {
    if Accepts(a, tid) {
      var r := ChunkDone(tid.job, tid.idx, p.hash, p.nonce);
      CountIsReplay(cfg.w, a, tid, p);
      HonestApply(cfg.w, cfg.names, specs, CoreOf(a), r);
      LogGrows(cfg.w, cfg.names, specs, a.log, [r]);
      CompletionIsTrue(cfg, specs, Count(cfg.w, a, tid, p), tid.job, now);
    }
  }

  lemma SubmitIsTrue(cfg: Config, specs: map<u64, JobSpec>, a: Agg, conn: int, ended: bool, spec: JobSpec, now: int)
    requires Lawful(cfg.w) && HonestSpecs(cfg.names, specs) && TrueAgg(cfg, specs, a)
    requires Feeds(a, spec) ==> spec.id in specs && specs[spec.id] == spec
    ensures TrueAgg(cfg, specs, Submit(cfg.w, a, conn, ended, spec, now))
  {
    if spec.id in a.results {
      assert spec.id in CoreOf(a).results;
    } else {
      var b := Register(cfg.w, a, spec);
      if spec.id in a.jobs {
        DetachKeepsCore(a, spec.id);
      } else {
        RegisterIsReplay(cfg.w, a, spec);
        HonestApply(cfg.w, cfg.names, specs, CoreOf(a), StartOf(spec));
        LogGrows(cfg.w, cfg.names, specs, a.log, [StartOf(spec)]);
      }
      AttachKeepsCore(b, spec.id, conn, ended, now);
      CompletionIsTrue(cfg, specs, Attach(b, spec.id, conn, ended, now), spec.id, now);
    }
  }

  lemma EndIsTrue(cfg: Config, specs: map<u64, JobSpec>, a: Agg, id: u64, now: int)
    requires Lawful(cfg.w) && HonestSpecs(cfg.names, specs) && TrueAgg(cfg, specs, a)
    ensures id in a.jobs ==> TrueAgg(cfg, specs, Finish(a, id, false, now))
    ensures id in a.results ==> TrueAgg(cfg, specs, Expire(a, id))
  {
    HonestApply(cfg.w, cfg.names, specs, CoreOf(a), JobDrop(id));
    LogGrows(cfg.w, cfg.names, specs, a.log, [JobDrop(id)]);
    if id in a.jobs { FinishIsReplay(cfg.w, a, id, false, now); }
    if id in a.results { ExpireIsReplay(cfg.w, a, id); }
  }

  lemma ClientGoneIsTrue(cfg: Config, specs: map<u64, JobSpec>, a: Agg, conn: int, now: int)
    requires TrueAgg(cfg, specs, a)
    ensures TrueAgg(cfg, specs, ClientGone(a, conn, now))
  {
    ClientGoneKeepsCore(a, conn, now);
  }

  lemma CompactIdleIsTrue(cfg: Config, specs: map<u64, JobSpec>, a: Agg, order: seq<u64>)
    requires TrueAgg(cfg, specs, a) && Lists(order, a.results.Keys)
    ensures TrueAgg(cfg, specs, CompactIdle(a, order))
  {
    SnapshotIsHonest(cfg.w, cfg.names, specs, CoreOf(a).results, order);
  }

  // ------------------------------------------------------------------ recovery

  /** Only the splits of running jobs matter to a state. */
  lemma NarrowSpecs(cfg: Config, prior: map<u64, JobSpec>, c: Core, jobs: map<u64, Job>)
    requires HonestSpecs(cfg.names, prior) && HonestCore(cfg.w, cfg.names, prior, c) && Cores(jobs) == c.jobs
    ensures HonestSpecs(cfg.names, SpecsOf(jobs))
    ensures HonestCore(cfg.w, cfg.names, SpecsOf(jobs), c)
    ensures forall id :: id in c.jobs ==> id in SpecsOf(jobs) && SpecsOf(jobs)[id] == prior[id]
  {
    assert forall id :: id in jobs ==> id in Cores(jobs) && Cores(jobs)[id] == jobs[id].core;
  }

  /** Whatever prefix survives, the recovered state and the rewritten log are honest. */
  lemma RecoveredIsTrue(cfg: Config, prior: map<u64, JobSpec>, disk: seq<Record>, now: int,
                        answered: seq<u64>, running: seq<u64>, a: Agg)
    requires Lawful(cfg.w) && HonestSpecs(cfg.names, prior) && HonestLog(cfg.w, cfg.names, prior, disk)
    requires Recovered(cfg.w, disk, now, answered, running, a) && TrueReplies(cfg, a.replies)
    ensures HonestSpecs(cfg.names, SpecsOf(a.jobs))
    ensures TrueAgg(cfg, SpecsOf(a.jobs), a)
  {
    HonestApplyAll(cfg.w, cfg.names, prior, EMPTY, disk);
    HonestFinalise(cfg.w, cfg.names, prior, Replay(cfg.w, disk));
    NarrowSpecs(cfg, prior, CoreOf(a), a.jobs);
    CompactedIsHonest(cfg.w, cfg.names, SpecsOf(a.jobs), prior, disk, answered, running);
    RecoveredIsUnfinished(cfg.w, disk, now, answered, running, a);
  }

  lemma ResumedIsTrue(cfg: Config, disk: seq<Record>, s: Sys)
    requires Resumed(cfg.w, disk, s.agg, s.feeders) && s.specs == SpecsOf(s.agg.jobs)
    requires HonestSpecs(cfg.names, s.specs)
    requires s.nq == [] && s.pq == [] && s.workers == map[]
    ensures TrueTasks(cfg, s)
  {
    forall c | c in s.feeders
      ensures var spec := s.feeders[c].spec; spec.id in s.specs && s.specs[spec.id] == spec
    {
      var id :| id in s.agg.jobs && s.agg.jobs[id].cancel == c;
      assert s.specs[id] == s.agg.jobs[id].core.spec;
    }
  }

  lemma CrashIsTrue(cfg: Config, s: Sys, e: Event, s': Sys)
    requires Lawful(cfg.w) && Truth(cfg, s) && e.Crash? && CrashStep(cfg, s, e, s')
    ensures Truth(cfg, s')
  {
    var disk := s.agg.log[..e.cut];
    assert HonestLog(cfg.w, cfg.names, s.specs, disk);
    RecoveredIsTrue(cfg, s.specs, disk, e.now, e.answered, e.running, s'.agg);
    ResumedIsTrue(cfg, disk, s');
  }

  // ------------------------------------------------------------ the other steps

  function WithNewJob(s: Sys, id: u64, spec: JobSpec): Sys {
    s.(specs := s.specs[id := spec], feeders := s.feeders[s.agg.cancels := Feeder(spec, {}, 0)])
  }

  lemma SameTasks(cfg: Config, s: Sys, s': Sys)
    requires TrueTasks(cfg, s)
    requires s'.specs == s.specs && s'.feeders == s.feeders && s'.nq == s.nq && s'.pq == s.pq && s'.workers == s.workers
    ensures TrueTasks(cfg, s')
  {}

  lemma MoreHonestSpecs(cfg: Config, specs: map<u64, JobSpec>, id: u64, spec: JobSpec)
    requires HonestSpecs(cfg.names, specs) && HonestSpecs(cfg.names, map[id := spec])
    ensures HonestSpecs(cfg.names, specs[id := spec]) && spec.id == id
  {
    assert map[id := spec][id] == spec;
  }

  lemma MoreSpecsTasks(cfg: Config, s: Sys, id: u64, spec: JobSpec)
    requires TrueTasks(cfg, s) && (id in s.specs ==> s.specs[id] == spec) && spec.id == id
    ensures TrueTasks(cfg, WithNewJob(s, id, spec))
  {
    var more := s.specs[id := spec];
    forall conn | conn in s.workers ensures TrueWorker(cfg.w, more, s.workers[conn]) {}
  }

  /** A job this process starts again is split as before. */
  ghost predicate SplitAsBefore(cfg: Config, s: Sys, e: Event) {
    e.Submitted? && s.chunkSize > 0 && e.conn in s.front.handlers ==>
      var id := s.front.handlers[e.conn];
      var spec := SpecFor(cfg, s.chunkSize, id);
      Feeds(s.agg, spec) && id in s.specs ==> s.specs[id] == spec
  }

  lemma SubmitStepIsTrue(cfg: Config, s: Sys, conn: int, now: int, s': Sys)
    requires Lawful(cfg.w) && Truth(cfg, s) && SubmitStep(cfg, s, conn, now, s')
    requires SplitAsBefore(cfg, s, Submitted(conn, now))
    ensures Truth(cfg, s')
  {
    hide TrueAgg, TrueTasks, HonestSpecs, Submit, SpecFor;
    var id := s.front.handlers[conn];
    var spec := SpecFor(cfg, s.chunkSize, id);
    SpecForIsHonest(cfg, s.chunkSize, id);
    if Feeds(s.agg, spec) {
      MoreHonestSpecs(cfg, s.specs, id, spec);
      MoreSpecs(cfg, s.specs, id, spec, s.agg);
      MoreSpecsTasks(cfg, s, id, spec);
    }
    SubmitIsTrue(cfg, s'.specs, s.agg, conn, conn in s.front.ended, spec, now);
    SameTasks(cfg, if Feeds(s.agg, spec) then WithNewJob(s, id, spec) else s, s');
  }

  /** Changing one worker and the queues keeps everything genuine if the new parts are. */
  lemma WorkerUpdate(cfg: Config, s: Sys, conn: int, k: Worker, nq: seq<Task>, pq: seq<Task>)
    requires Truth(cfg, s) && TrueWorker(cfg.w, s.specs, k)
    requires forall t :: t in nq ==> TrueTask(s.specs, t)
    requires forall t :: t in pq ==> TrueTask(s.specs, t)
    ensures Truth(cfg, WithWorker(s, conn, k).(nq := nq, pq := pq))
  {
    assert TrueTasks(cfg, WithWorker(s, conn, k).(nq := nq, pq := pq));
  }

  lemma TrueTail(specs: map<u64, JobSpec>, q: seq<Task>)
    requires q != [] && forall t :: t in q ==> TrueTask(specs, t)
    ensures TrueTask(specs, q[0]) && forall t :: t in q[1..] ==> TrueTask(specs, t)
  {
    assert q[0] in q;
    assert forall t :: t in q[1..] ==> t in q;
  }

  lemma TrueAnswer(cfg: Config, specs: map<u64, JobSpec>, k: Worker, task: Task, now: int)
    requires TrueWorker(cfg.w, specs, k) && task in k.sent
    ensures TrueWorker(cfg.w, specs, TakeAnswer(k, task.id, ResultOf(cfg.w, task), now))
  {
    assert ResultOf(cfg.w, task) == ChunkAnswer(cfg.w, specs[task.id.job], task.id.idx);
  }

  lemma PullOrSendIsTrue(cfg: Config, s: Sys, e: Event, s': Sys)
    requires Truth(cfg, s) && WorkerStep(cfg, s, e, s') && (e.PullNq? || e.PullPq? || e.Sent?)
    ensures Truth(cfg, s')
  {
    assert TrueWorker(cfg.w, s.specs, s.workers[e.conn]);
    if e.PullNq? { TrueTail(s.specs, s.nq); }
    if e.PullPq? { TrueTail(s.specs, s.pq); }
    WorkerUpdate(cfg, s, e.conn, s'.workers[e.conn], s'.nq, s'.pq);
  }

  lemma LoopStepIsTrue(cfg: Config, s: Sys, e: Event, s': Sys)
    requires Truth(cfg, s) && WorkerStep(cfg, s, e, s')
    requires e.Answered? || e.Ticked? || e.Cloned? || e.Died? || e.HandedBack?
    ensures Truth(cfg, s')
  {
    hide TrueAgg, TrueTask, TrueResult, HonestSpecs;
    assert TrueWorker(cfg.w, s.specs, s.workers[e.conn]);
    if e.Answered? { TrueAnswer(cfg, s.specs, s.workers[e.conn], e.task, e.now); }
    WorkerUpdate(cfg, s, e.conn, s'.workers[e.conn], s'.nq, s'.pq);
  }

  lemma ForwardIsTrue(cfg: Config, s: Sys, e: Event, s': Sys)
    requires Lawful(cfg.w) && Truth(cfg, s) && e.Forwarded? && WorkerStep(cfg, s, e, s')
    ensures Truth(cfg, s')
  {
    hide TrueAgg, TrueTask, TrueResult, HonestSpecs, TakeResult;
    var k := s.workers[e.conn];
    assert TrueWorker(cfg.w, s.specs, k);
    TakeResultIsTrue(cfg, s.specs, s.agg, k.hand.value.0, k.hand.value.1, e.now);
    assert TrueWorker(cfg.w, s.specs, k.(hand := None));
    assert TrueTasks(cfg, s');
  }

  lemma JoinOrExitIsTrue(cfg: Config, s: Sys, e: Event, s': Sys)
    requires Truth(cfg, s) && (e.Join? || e.Exited?) && WorkerStep(cfg, s, e, s')
    ensures Truth(cfg, s')
  {
    hide TrueAgg, TrueTask, TrueResult, HonestSpecs;
    assert TrueTasks(cfg, s');
  }

  lemma WorkerStepIsTrue(cfg: Config, s: Sys, e: Event, s': Sys)
    requires Lawful(cfg.w) && Truth(cfg, s) && WorkerStep(cfg, s, e, s')
    ensures Truth(cfg, s')
  {
    hide Truth;
    match e
    case Join(_) => JoinOrExitIsTrue(cfg, s, e, s');
    case Exited(_) => JoinOrExitIsTrue(cfg, s, e, s');
    case Forwarded(_, _) => ForwardIsTrue(cfg, s, e, s');
    case _ =>
      if e.PullNq? || e.PullPq? || e.Sent? { PullOrSendIsTrue(cfg, s, e, s'); } else { LoopStepIsTrue(cfg, s, e, s'); }
  }

  lemma AggregatorStepIsTrue(cfg: Config, s: Sys, e: Event, s': Sys)
    requires Lawful(cfg.w) && Truth(cfg, s) && AggregatorStep(cfg, s, e, s')
    ensures Truth(cfg, s')
  {
    match e
    case Noticed(conn, now) => ClientGoneIsTrue(cfg, s.specs, s.agg, conn, now);
    case Dropped(id, now) => EndIsTrue(cfg, s.specs, s.agg, id, now);
    case Expired(id, now) => EndIsTrue(cfg, s.specs, s.agg, id, now);
    case Compacts(order) => CompactIdleIsTrue(cfg, s.specs, s.agg, order);
    assert TrueTasks(cfg, s');
  }

  lemma FeedStepIsTrue(cfg: Config, s: Sys, e: Event, s': Sys)
    requires Truth(cfg, s) && FeedStep(cfg, s, e, s')
    ensures Truth(cfg, s')
  {
    hide TrueAgg, TrueWorker, HonestSpecs;
    assert TrueTasks(cfg, s');
  }

  lemma FrontStepIsTrue(cfg: Config, s: Sys, e: Event, s': Sys)
    requires Truth(cfg, s) && FrontStep(s, e, s')
    ensures Truth(cfg, s')
  {
    assert TrueTasks(cfg, s');
  }

  /** What every step of the system keeps. */
  lemma StepIsTrue(cfg: Config, s: Sys, e: Event, s': Sys)
    requires Lawful(cfg.w) && Truth(cfg, s) && Next(cfg, s, e, s') && SplitAsBefore(cfg, s, e)
    ensures Truth(cfg, s')
  {
    if e.Request? || e.ConnEnds? || e.ConnError? {
      FrontStepIsTrue(cfg, s, e, s');
    } else if e.Submitted? {
      SubmitStepIsTrue(cfg, s, e.conn, e.now, s');
    } else if e.Noticed? || e.Dropped? || e.Expired? || e.Compacts? {
      AggregatorStepIsTrue(cfg, s, e, s');
    } else if e.Feed? || e.FeedStop? {
      FeedStepIsTrue(cfg, s, e, s');
    } else if e.Crash? {
      CrashIsTrue(cfg, s, e, s');
    } else {
      WorkerStepIsTrue(cfg, s, e, s');
    }
  }

  lemma InitIsTrue(cfg: Config, s: Sys)
    requires Init(s)
    ensures Truth(cfg, s)
  {}

  /** Within one server process a job ID stands for one split. */
  ghost predicate OneSplit(cfg: Config, states: seq<Sys>, events: seq<Event>)
    requires |states| == |events| + 1
  {
    forall i :: 0 <= i < |events| ==> SplitAsBefore(cfg, states[i], events[i])
  }

  lemma {:induction false} TruthHolds(cfg: Config, states: seq<Sys>, events: seq<Event>, i: nat)
    requires Lawful(cfg.w) && Run(cfg, states, events) && OneSplit(cfg, states, events) && i < |states|
    ensures Truth(cfg, states[i])
  {
    hide Truth, Next, SplitAsBefore;
    if i == 0 {
      InitIsTrue(cfg, states[0]);
    } else {
      TruthHolds(cfg, states, events, i - 1);
      assert Next(cfg, states[i - 1], events[i - 1], states[i]);
      assert SplitAsBefore(cfg, states[i - 1], events[i - 1]);
      StepIsTrue(cfg, states[i - 1], events[i - 1], states[i]);
    }
  }

  /** The accumulator of a running job is the merge of exactly the counted chunks. */
  lemma AccumulatorIsExact(cfg: Config, states: seq<Sys>, events: seq<Event>, i: nat, id: u64)
    requires Lawful(cfg.w) && Run(cfg, states, events) && OneSplit(cfg, states, events)
    requires i < |states| && id in states[i].agg.jobs
    ensures var a := states[i].agg;
            var j := a.jobs[id].core;
            j.acc == Acc(cfg.w, j.spec, Counted(a.done, id), j.spec.n)
  {
    TruthHolds(cfg, states, events, i);
    hide Run;
    assert CoreOf(states[i].agg).jobs[id] == states[i].agg.jobs[id].core;
  }

  /** Every Result is the answer of the sequential scan. */
  lemma EveryAnswerIsSequential(cfg: Config, states: seq<Sys>, events: seq<Event>, i: nat, r: Reply)
    requires Lawful(cfg.w) && Run(cfg, states, events) && OneSplit(cfg, states, events) && i < |states|
    requires r in states[i].agg.replies
    ensures r.answer == Expected(cfg.w, cfg.names, r.job)
  {
    TruthHolds(cfg, states, events, i);
  }

  /** For hash search: the least hash of the whole range, and the least nonce that has it. */
  lemma HashSearchAnswers(h: HashSearch.HashFn, cfg: Config, states: seq<Sys>, events: seq<Event>, i: nat, r: Reply)
    requires cfg.w == HashSearch.Instance(h) && Run(cfg, states, events) && OneSplit(cfg, states, events) && i < |states|
    requires r in states[i].agg.replies
    ensures var q := cfg.names(r.job);
            && (forall n: u64 | q.lo <= n < q.hi :: r.answer.hash <= h(q.msg, n) && (h(q.msg, n) == r.answer.hash ==> r.answer.nonce <= n))
            && (q.lo < q.hi ==> q.lo <= r.answer.nonce < q.hi && h(q.msg, r.answer.nonce) == r.answer.hash)
  {
    HashSearch.InstanceIsLawful(h);
    EveryAnswerIsSequential(cfg, states, events, i, r);
    HashSearch.ScanIsLeast(h, cfg.names(r.job).msg, cfg.names(r.job).lo, cfg.names(r.job).hi);
  }

  // ------------------------------------------------- a chunk size that never changes

  /** Every split of this process is the one its chunk size gives. */
  ghost predicate SplitsBySize(cfg: Config, s: Sys) {
    s.chunkSize > 0 && forall id :: id in s.specs ==> s.specs[id] == SpecFor(cfg, s.chunkSize, id)
  }

  lemma CrashKeepsSplits(cfg: Config, s: Sys, e: Event, s': Sys)
    requires Lawful(cfg.w) && Truth(cfg, s) && SplitsBySize(cfg, s)
    requires e.Crash? && CrashStep(cfg, s, e, s') && e.chunkSize == s.chunkSize
    ensures SplitsBySize(cfg, s')
  {
    hide SpecFor, HonestSpecs, TrueTasks, HonestLog, Resumed;
    var disk := s.agg.log[..e.cut];
    assert HonestLog(cfg.w, cfg.names, s.specs, disk) by { PrefixIsHonest(cfg, s.specs, s.agg.log, e.cut); }
    HonestApplyAll(cfg.w, cfg.names, s.specs, EMPTY, disk);
    HonestFinalise(cfg.w, cfg.names, s.specs, Replay(cfg.w, disk));
    NarrowSpecs(cfg, s.specs, CoreOf(s'.agg), s'.agg.jobs);
    assert forall id :: id in s'.specs ==> id in CoreOf(s'.agg).jobs;
  }

  lemma PrefixIsHonest(cfg: Config, specs: map<u64, JobSpec>, log: seq<Record>, cut: nat)
    requires HonestLog(cfg.w, cfg.names, specs, log) && cut <= |log|
    ensures HonestLog(cfg.w, cfg.names, specs, log[..cut])
  {}

  lemma OtherStepsKeepSplits(cfg: Config, s: Sys, e: Event, s': Sys)
    requires SplitsBySize(cfg, s) && Next(cfg, s, e, s') && !e.Crash?
    ensures SplitsBySize(cfg, s')
  {
    hide SpecFor, Submit, TakeResult, ClientGone, Finish, Expire, CompactIdle;
  }

  /** No restart changes the chunk size: something an operator decides. */
  ghost predicate FixedSize(states: seq<Sys>, events: seq<Event>)
    requires |states| == |events| + 1
  {
    forall i :: 0 <= i < |events| && events[i].Crash? ==> events[i].chunkSize == states[i].chunkSize
  }

  lemma {:induction false} FixedSizeHolds(cfg: Config, states: seq<Sys>, events: seq<Event>, i: nat)
    requires Lawful(cfg.w) && Run(cfg, states, events) && FixedSize(states, events) && i < |states|
    ensures Truth(cfg, states[i]) && SplitsBySize(cfg, states[i])
  {
    hide Truth, Next, SplitsBySize, SplitAsBefore;
    if i == 0 {
      InitIsTrue(cfg, states[0]);
      InitSplitsBySize(cfg, states[0]);
    } else {
      var s, e, s' := states[i - 1], events[i - 1], states[i];
      FixedSizeHolds(cfg, states, events, i - 1);
      assert Next(cfg, s, e, s');
      SizeSplitsAsBefore(cfg, s, e);
      StepIsTrue(cfg, s, e, s');
      if e.Crash? { CrashIsNext(cfg, s, e, s'); CrashKeepsSplits(cfg, s, e, s'); } else { OtherStepsKeepSplits(cfg, s, e, s'); }
    }
  }

  lemma CrashIsNext(cfg: Config, s: Sys, e: Event, s': Sys)
    requires e.Crash?
    ensures Next(cfg, s, e, s') <==> CrashStep(cfg, s, e, s')
  {}

  lemma InitSplitsBySize(cfg: Config, s: Sys)
    requires Init(s)
    ensures SplitsBySize(cfg, s)
  {}

  lemma SizeSplitsAsBefore(cfg: Config, s: Sys, e: Event)
    requires SplitsBySize(cfg, s)
    ensures SplitAsBefore(cfg, s, e)
  {}

  /** A chunk size that never changes gives every ID one split per process. */
  lemma FixedSizeIsOneSplit(cfg: Config, states: seq<Sys>, events: seq<Event>)
    requires Lawful(cfg.w) && Run(cfg, states, events) && FixedSize(states, events)
    ensures OneSplit(cfg, states, events)
  {
    hide Truth, Next, Init, SplitsBySize, SplitAsBefore, FixedSize;
    forall i | 0 <= i < |events| ensures SplitAsBefore(cfg, states[i], events[i]) {
      FixedSizeHolds(cfg, states, events, i);
      SizeSplitsAsBefore(cfg, states[i], events[i]);
    }
  }
}
