/**
 No task is ever lost: an uncounted chunk of a running job is always still to
 be fed, in a queue, in flight at some worker, or in a worker loop's hands.
 */
module NoTaskLost {
  import opened Base
  import opened Workloads
  import opened Jobs
  import opened Journal
  import opened Honesty
  import opened Aggregation
  import opened Workers
  import opened Scheduler
  import opened AggregatorRuns
  import opened SequentialAnswers

  predicate InHands(k: Worker, tid: TaskID) {
    || tid in k.inflight
    || (k.pulled.Some? && k.pulled.value.id == tid)
    || (k.hand.Some? && k.hand.value.0 == tid)
  }

  ghost predicate Held(workers: map<int, Worker>, tid: TaskID) {
    exists conn :: conn in workers && InHands(workers[conn], tid)
  }

  predicate ToFeed(feeders: map<nat, Feeder>, c: nat, i: u32) {
    c in feeders && feeders[c].next <= i && i !in feeders[c].skip
  }

  ghost predicate Queued(q: seq<Task>, tid: TaskID) { exists t :: t in q && t.id == tid }

  /** Chunk i of job id is somewhere it will be worked on from. */
  ghost predicate Safe(s: Sys, id: u64, i: u32)
    requires id in s.agg.jobs
  {
    || ToFeed(s.feeders, s.agg.jobs[id].cancel, i)
    || Queued(s.nq, TaskID(id, i))
    || Queued(s.pq, TaskID(id, i))
    || Held(s.workers, TaskID(id, i))
  }

  predicate Owed(a: Agg, id: u64, i: u32) {
    id in a.jobs && i < a.jobs[id].core.spec.n && TaskID(id, i) !in a.done
  }

  ghost predicate NoneLost(s: Sys) {
    forall id, i :: Owed(s.agg, id, i) ==> Safe(s, id, i)
  }

  /** Each job's feeder walks that job's own split. */
  ghost predicate FeedersSound(s: Sys) {
    && (forall c :: c in s.feeders ==> c < s.agg.cancels)
    && (forall id :: id in s.agg.jobs && s.agg.jobs[id].cancel in s.feeders ==>
          s.feeders[s.agg.jobs[id].cancel].spec == s.agg.jobs[id].core.spec)
  }

  /** In-flight entries are filed under their own ID. */
  ghost predicate Keyed(k: Worker) { forall tid :: tid in k.inflight ==> k.inflight[tid].task.id == tid }

  ghost predicate AllKeyed(s: Sys) { forall conn :: conn in s.workers ==> Keyed(s.workers[conn]) }

  ghost predicate Kept(s: Sys) { CancelsSound(s.agg) && FeedersSound(s) && AllKeyed(s) && NoneLost(s) }

  // ------------------------------------------------------------ the aggregator

  /** Running jobs stay the same jobs and only lose chunks to the count. */
  ghost predicate Continues(a: Agg, b: Agg) {
    && a.cancels <= b.cancels
    && forall id :: id in b.jobs ==>
         && id in a.jobs && b.jobs[id].cancel == a.jobs[id].cancel && b.jobs[id].core.spec == a.jobs[id].core.spec
         && forall i: u32 :: TaskID(id, i) in a.done ==> TaskID(id, i) in b.done
  }

  lemma ContinuesKeeps(s: Sys, b: Agg)
    requires FeedersSound(s) && NoneLost(s) && Continues(s.agg, b)
    ensures FeedersSound(s.(agg := b)) && NoneLost(s.(agg := b))
  {
    forall id, i | Owed(b, id, i) ensures Safe(s.(agg := b), id, i) {
      assert Owed(s.agg, id, i);
    }
  }

  lemma FinishContinues(a: Agg, id: u64, completed: bool, now: int)
    requires id in a.jobs
    ensures Continues(a, Finish(a, id, completed, now))
  {}

  lemma ContinuesChain(a: Agg, b: Agg, c: Agg)
    requires Continues(a, b) && Continues(b, c)
    ensures Continues(a, c)
  {}

  lemma FinishIfCompleteContinues(a: Agg, id: u64, now: int)
    requires id in a.jobs
    ensures Continues(a, FinishIfComplete(a, id, now)) && FinishIfComplete(a, id, now).cancels == a.cancels
  {
    var b := ReplyTo(a, a.jobs[id].client, id, a.jobs[id].core.acc);
    assert Continues(a, b);
    FinishContinues(b, id, true, now);
  }

  lemma TakeResultContinues(w: Workload, a: Agg, tid: TaskID, p: Partial, now: int)
    ensures Continues(a, TakeResult(w, a, tid, p, now))
    ensures !Owed(TakeResult(w, a, tid, p, now), tid.job, tid.idx)
  {
    if Accepts(a, tid) {
      var b := Count(w, a, tid, p);
      assert Continues(a, b);
      FinishIfCompleteContinues(b, tid.job, now);
      ContinuesChain(a, b, FinishIfComplete(b, tid.job, now));
    }
  }

  lemma ClientGoneContinues(a: Agg, conn: int, now: int)
    ensures Continues(a, ClientGone(a, conn, now))
  {}

  lemma SameJobsContinue(a: Agg, b: Agg)
    requires b.jobs == a.jobs && b.done == a.done && b.cancels == a.cancels && b.closed == a.closed
    ensures Continues(a, b) && (CancelsSound(a) ==> CancelsSound(b))
  {}

  lemma AggregatorContinues(cfg: Config, s: Sys, e: Event, s': Sys)
    requires CancelsSound(s.agg) && AggregatorStep(cfg, s, e, s')
    ensures CancelsSound(s'.agg) && Continues(s.agg, s'.agg)
  {
    match e
    case Noticed(conn, now) => ClientGoneKeepsCancels(s.agg, conn, now); ClientGoneContinues(s.agg, conn, now);
    case Dropped(id, now) => FinishContinues(s.agg, id, false, now); FinishKeepsCancels(s.agg, id, false, now);
    case Expired(_, _) => SameJobsContinue(s.agg, s'.agg);
    case Compacts(_) => SameJobsContinue(s.agg, s'.agg);
  }

  lemma AggregatorKeeps(cfg: Config, s: Sys, e: Event, s': Sys)
    requires Kept(s) && AggregatorStep(cfg, s, e, s')
    ensures Kept(s')
  {
    AggregatorContinues(cfg, s, e, s');
    ContinuesKeeps(s, s'.agg);
    SameWork(s.(agg := s'.agg), s');
  }

  /** Only the agreement on jobs, feeders, queues and workers matters. */
  lemma SameWork(s: Sys, s': Sys)
    requires FeedersSound(s) && NoneLost(s)
    requires s'.agg == s.agg && s'.feeders == s.feeders && s'.nq == s.nq && s'.pq == s.pq && s'.workers == s.workers
    ensures FeedersSound(s') && NoneLost(s')
  {
    forall id, i | Owed(s'.agg, id, i) ensures Safe(s', id, i) {
      assert Safe(s, id, i);
    }
  }

  // --------------------------------------------------------------- submissions

  /** A submission either continues the running jobs or adds the one it names. */
  lemma SubmitAdds(w: Workload, a: Agg, conn: int, ended: bool, spec: JobSpec, now: int)
    requires WellFormed(CoreOf(a))
    ensures var b := Submit(w, a, conn, ended, spec, now);
            && (!Feeds(a, spec) ==> Continues(a, b))
            && (Feeds(a, spec) ==> Continues(a, b.(jobs := b.jobs - {spec.id})) && b.cancels == a.cancels + 1)
            && (Feeds(a, spec) && spec.id in b.jobs ==> b.jobs[spec.id].cancel == a.cancels && b.jobs[spec.id].core.spec == spec)
  {
    hide FinishIfComplete, CoreOf;
    if spec.id !in a.results {
      var t := Attach(Register(w, a, spec), spec.id, conn, ended, now);
      FinishIfCompleteContinues(t, spec.id, now);
      if !Feeds(a, spec) {
        assert Continues(a, t);
        ContinuesChain(a, t, FinishIfComplete(t, spec.id, now));
      } else {
        assert a.done == t.done;
      }
    }
  }

  lemma SubmitKeeps(cfg: Config, s: Sys, conn: int, now: int, s': Sys)
    requires Sane(s) && Kept(s) && SubmitStep(cfg, s, conn, now, s')
    ensures Kept(s')
  {
    var spec := SpecFor(cfg, s.chunkSize, s.front.handlers[conn]);
    SubmitKeepsSound(cfg.w, s.agg, conn, conn in s.front.ended, spec, now);
    SubmitAdds(cfg.w, s.agg, conn, conn in s.front.ended, spec, now);
    if !Feeds(s.agg, spec) {
      ContinuesKeeps(s, s'.agg);
      SameWork(s.(agg := s'.agg), s');
    } else {
      NewJobKeeps(s, spec, s'.agg, s');
    }
  }

  /** The new job's feeder has everything of it still to feed. */
  ghost predicate AddsJob(s: Sys, spec: JobSpec, b: Agg, s': Sys) {
    && Continues(s.agg, b.(jobs := b.jobs - {spec.id})) && b.cancels == s.agg.cancels + 1 && b == s'.agg
    && (spec.id in b.jobs ==> b.jobs[spec.id].cancel == s.agg.cancels && b.jobs[spec.id].core.spec == spec)
    && s'.feeders == s.feeders[s.agg.cancels := Feeder(spec, {}, 0)]
    && s'.nq == s.nq && s'.pq == s.pq && s'.workers == s.workers
  }

  lemma OldJobStays(s: Sys, spec: JobSpec, b: Agg, s': Sys, id: u64)
    requires AddsJob(s, spec, b, s') && CancelsSound(s.agg) && id in b.jobs && id != spec.id
    ensures id in s.agg.jobs && b.jobs[id].cancel == s.agg.jobs[id].cancel < s.agg.cancels
    ensures b.jobs[id].core.spec == s.agg.jobs[id].core.spec
    ensures forall i :: Owed(b, id, i) ==> Owed(s.agg, id, i)
  {
    assert id in b.(jobs := b.jobs - {spec.id}).jobs;
  }

  lemma NewJobKeeps(s: Sys, spec: JobSpec, b: Agg, s': Sys)
    requires FeedersSound(s) && NoneLost(s) && CancelsSound(s.agg) && AddsJob(s, spec, b, s')
    ensures FeedersSound(s') && NoneLost(s')
  {
    hide CancelsSound, Continues;
    forall id | id in b.jobs && id != spec.id
      ensures id in s.agg.jobs && b.jobs[id].cancel == s.agg.jobs[id].cancel < s.agg.cancels && b.jobs[id].core.spec == s.agg.jobs[id].core.spec
    {
      OldJobStays(s, spec, b, s', id);
    }
    forall id, i | Owed(b, id, i) ensures Safe(s', id, i) {
      if id != spec.id {
        OldJobStays(s, spec, b, s', id);
        assert Safe(s, id, i);
      }
    }
  }

  // -------------------------------------------------------- feeders and workers

  /** With the jobs unchanged it is enough that no safe chunk becomes unsafe. */
  lemma StaysSafe(s: Sys, s': Sys)
    requires Kept(s) && s'.agg == s.agg && FeedersSound(s') && AllKeyed(s')
    requires forall id, i :: Owed(s.agg, id, i) && Safe(s, id, i) ==> Safe(s', id, i)
    ensures Kept(s')
  {}

  /** What a feeder passes it has pushed or was told to skip. */
  lemma FedIsQueued(cfg: Config, s: Sys, e: Event, s': Sys, id: u64, i: u32)
    requires Sane(s) && FeedersSound(s) && e.Feed? && FeedStep(cfg, s, e, s')
    requires id in s.agg.jobs && s.agg.jobs[id].cancel == e.cancel && ToFeed(s.feeders, e.cancel, i)
    ensures ToFeed(s'.feeders, e.cancel, i) || Queued(s'.nq, TaskID(id, i))
  {
    var f := s.feeders[e.cancel];
    assert CoreOf(s.agg).jobs[id] == s.agg.jobs[id].core;
    assert f.spec.id == id;
    if i == f.next { assert TaskOf(f.spec, i) in s'.nq; }
  }

  lemma FeedKeeps(cfg: Config, s: Sys, e: Event, s': Sys)
    requires Sane(s) && Kept(s) && CancelsDone(s) && FeedStep(cfg, s, e, s')
    ensures Kept(s')
  {
    hide Sane, CancelsSound, Keyed;
    assert FeedersSound(s');
    forall id, i | Owed(s.agg, id, i) && Safe(s, id, i) ensures Safe(s', id, i) {
      var c := s.agg.jobs[id].cancel;
      if ToFeed(s.feeders, c, i) && e.Feed? && c == e.cancel {
        FedIsQueued(cfg, s, e, s', id, i);
      } else if Queued(s.nq, TaskID(id, i)) {
        assert forall t :: t in s.nq ==> t in s'.nq;
      }
    }
    StaysSafe(s, s');
  }

  /** A running job's cancel channel is open, so its feeder is not stopped. */
  ghost predicate CancelsDone(s: Sys) { forall id :: id in s.agg.jobs ==> s.agg.jobs[id].cancel !in s.agg.closed }

  lemma SoundCancelsDone(s: Sys)
    requires CancelsSound(s.agg)
    ensures CancelsDone(s)
  {}

  /** What one worker step must not lose. */
  lemma WorkerStaysSafe(s: Sys, conn: int, s': Sys)
    requires Kept(s) && conn in s.workers && conn in s'.workers && s'.workers == s.workers[conn := s'.workers[conn]]
    requires s'.agg == s.agg && s'.feeders == s.feeders && Keyed(s'.workers[conn])
    requires forall tid :: InHands(s.workers[conn], tid) ==> InHands(s'.workers[conn], tid) || Queued(s'.pq, tid)
    requires forall t :: t in s.nq ==> t in s'.nq || InHands(s'.workers[conn], t.id)
    requires forall t :: t in s.pq ==> t in s'.pq || InHands(s'.workers[conn], t.id)
    ensures Kept(s')
  {
    hide InHands, Keyed, CancelsSound;
    forall id, i | Owed(s.agg, id, i) && Safe(s, id, i) ensures Safe(s', id, i) {
      var tid := TaskID(id, i);
      if InHands(s'.workers[conn], tid) {
      } else if Held(s.workers, tid) {
        var other :| other in s.workers && InHands(s.workers[other], tid);
        assert other != conn ==> s'.workers[other] == s.workers[other];
      }
    }
    StaysSafe(s, s');
  }

  lemma PullOrSendKeeps(cfg: Config, s: Sys, e: Event, s': Sys)
    requires Kept(s) && WorkerStep(cfg, s, e, s') && (e.PullNq? || e.PullPq? || e.Sent?)
    ensures Kept(s')
  {
    var k, k' := s.workers[e.conn], s'.workers[e.conn];
    forall t | t in s.nq ensures t in s'.nq || InHands(k', t.id) {}
    forall t | t in s.pq ensures t in s'.pq || InHands(k', t.id) {}
    assert Keyed(k) && Keyed(k');
    hide Kept;
    WorkerStaysSafe(s, e.conn, s');
  }

  lemma LoopStepKeeps(cfg: Config, s: Sys, e: Event, s': Sys)
    requires Kept(s) && WorkerStep(cfg, s, e, s')
    requires e.Answered? || e.Ticked? || e.Cloned? || e.Died?
    ensures Kept(s')
  {
    assert Keyed(s.workers[e.conn]);
    hide Kept;
    assert Keyed(s'.workers[e.conn]);
    WorkerStaysSafe(s, e.conn, s');
  }

  lemma HandBackKeeps(cfg: Config, s: Sys, e: Event, s': Sys)
    requires Kept(s) && e.HandedBack? && WorkerStep(cfg, s, e, s')
    ensures Kept(s')
  {
    assert Keyed(s.workers[e.conn]);
    hide Kept;
    var t := s.workers[e.conn].inflight[e.tid].task;
    assert t in s'.pq && t.id == e.tid;
    WorkerStaysSafe(s, e.conn, s');
  }

  lemma ForwardKeeps(cfg: Config, s: Sys, e: Event, s': Sys)
    requires Kept(s) && e.Forwarded? && WorkerStep(cfg, s, e, s')
    ensures Kept(s')
  {
    var (tid, p) := s.workers[e.conn].hand.value;
    hide TakeResult, CancelsSound, Safe, Owed, Continues;
    TakeResultContinues(cfg.w, s.agg, tid, p, e.now);
    TakeResultKeepsSound(cfg.w, s.agg, tid, p, e.now);
    ContinuesKeeps(s, s'.agg);
    forall id, i | Owed(s'.agg, id, i) ensures Safe(s', id, i) {
      OwedIsRunning(s'.agg, id, i);
      assert Safe(s.(agg := s'.agg), id, i);
      HandedOnStaysSafe(s.(agg := s'.agg), e.conn, s', id, i);
    }
    assert FeedersSound(s') && AllKeyed(s');
  }

  lemma OwedIsRunning(a: Agg, id: u64, i: u32)
    requires Owed(a, id, i)
    ensures id in a.jobs
  {}

  /** A loop that hands on the result of one task still holds every other. */
  lemma HandedOnStaysSafe(s: Sys, conn: int, s': Sys, id: u64, i: u32)
    requires id in s.agg.jobs && Safe(s, id, i) && s'.agg == s.agg && s'.feeders == s.feeders && s'.nq == s.nq && s'.pq == s.pq
    requires conn in s.workers && s.workers[conn].hand.Some? && s.workers[conn].hand.value.0 != TaskID(id, i)
    requires s'.workers == s.workers[conn := s.workers[conn].(hand := None)]
    ensures Safe(s', id, i)
  {
    if Held(s.workers, TaskID(id, i)) {
      var other :| other in s.workers && InHands(s.workers[other], TaskID(id, i));
      assert InHands(s'.workers[other], TaskID(id, i));
    }
  }

  lemma JoinOrExitKeeps(cfg: Config, s: Sys, e: Event, s': Sys)
    requires Kept(s) && (e.Join? || e.Exited?) && WorkerStep(cfg, s, e, s')
    ensures Kept(s')
  {
    forall id, i | Owed(s.agg, id, i) && Safe(s, id, i) ensures Safe(s', id, i) {
      if Held(s.workers, TaskID(id, i)) {
        var conn :| conn in s.workers && InHands(s.workers[conn], TaskID(id, i));
        assert conn in s'.workers && InHands(s'.workers[conn], TaskID(id, i));
      }
    }
    StaysSafe(s, s');
  }

  // --------------------------------------------------------------------- crash

  /** Feeders that skip exactly the counted chunks leave nothing out. */
  lemma ExactSkipsLoseNothing(w: Workload, disk: seq<Record>, s: Sys)
    requires CoreOf(s.agg) == Finalise(Replay(w, disk)) && Resumed(w, disk, s.agg, s.feeders)
    requires SkipIsExact(w, disk)
    ensures NoneLost(s)
  {
    var c := Finalise(Replay(w, disk));
    forall id, i | Owed(s.agg, id, i) ensures Safe(s, id, i) {
      assert id in CoreOf(s.agg).jobs && CoreOf(s.agg).jobs[id] == s.agg.jobs[id].core;
      CountedMember(c.done, id, i);
      assert i !in Skipped(w, disk, id, c.jobs[id].spec.n);
    }
  }

  /** After a restart every uncounted chunk of a recovered job is still to be fed. */
  lemma CrashKeeps(cfg: Config, s: Sys, e: Event, s': Sys)
    requires e.Crash? && CrashStep(cfg, s, e, s') && SkipIsExact(cfg.w, s.agg.log[..e.cut])
    ensures Kept(s')
  {
    ExactSkipsLoseNothing(cfg.w, s.agg.log[..e.cut], s');
    assert FeedersSound(s');
  }

  lemma StepKeeps(cfg: Config, s: Sys, e: Event, s': Sys)
    requires Sane(s) && Kept(s) && Next(cfg, s, e, s')
    requires e.Crash? ==> SkipIsExact(cfg.w, s.agg.log[..e.cut])
    ensures Kept(s')
  {
    hide Sane, Kept, SkipIsExact, SubmitStep, WorkerStep, AggregatorStep, FrontStep, FeedStep, CrashStep;
    if e.Request? || e.ConnEnds? || e.ConnError? {
      FrontKeeps(s, e, s');
    } else if e.Submitted? {
      SubmitKeeps(cfg, s, e.conn, e.now, s');
    } else if e.Noticed? || e.Dropped? || e.Expired? || e.Compacts? {
      AggregatorKeeps(cfg, s, e, s');
    } else if e.Feed? || e.FeedStop? {
      KeptCancels(s);
      FeedKeeps(cfg, s, e, s');
    } else if e.Crash? {
      CrashKeeps(cfg, s, e, s');
    } else if e.PullNq? || e.PullPq? || e.Sent? {
      PullOrSendKeeps(cfg, s, e, s');
    } else if e.Forwarded? {
      ForwardKeeps(cfg, s, e, s');
    } else if e.Join? || e.Exited? {
      JoinOrExitKeeps(cfg, s, e, s');
    } else if e.HandedBack? {
      HandBackKeeps(cfg, s, e, s');
    } else {
      LoopStepKeeps(cfg, s, e, s');
    }
  }

  lemma FrontKeeps(s: Sys, e: Event, s': Sys)
    requires Kept(s) && FrontStep(s, e, s')
    ensures Kept(s')
  {
    SameWork(s, s');
  }

  lemma KeptCancels(s: Sys)
    requires Kept(s)
    ensures CancelsDone(s)
  {
    SoundCancelsDone(s);
  }

  /** At every crash of the run the skip sets are exact. */
  ghost predicate ExactCrashes(cfg: Config, states: seq<Sys>, events: seq<Event>)
    requires |states| == |events| + 1
  {
    forall i :: 0 <= i < |events| && events[i].Crash? && events[i].cut <= |states[i].agg.log| ==>
      SkipIsExact(cfg.w, states[i].agg.log[..events[i].cut])
  }

  /** Every crash of the run finds a log in which no counted job was restarted. */
  ghost predicate CleanCrashes(cfg: Config, states: seq<Sys>, events: seq<Event>)
    requires |states| == |events| + 1
  {
    forall i :: 0 <= i < |events| && events[i].Crash? && events[i].cut <= |states[i].agg.log| ==>
      RestartFree(cfg.w, states[i].agg.log[..events[i].cut])
  }

  lemma CleanCrashesAreExact(cfg: Config, states: seq<Sys>, events: seq<Event>)
    requires |states| == |events| + 1 && CleanCrashes(cfg, states, events)
    ensures ExactCrashes(cfg, states, events)
  {
    forall i | 0 <= i < |events| && events[i].Crash? && events[i].cut <= |states[i].agg.log|
      ensures SkipIsExact(cfg.w, states[i].agg.log[..events[i].cut])
    {
      RestartFreeSkips(cfg.w, states[i].agg.log[..events[i].cut]);
    }
  }

  /** Step i of a run. */
  lemma RunStep(cfg: Config, states: seq<Sys>, events: seq<Event>, i: nat)
    requires Run(cfg, states, events) && i < |events|
    ensures Next(cfg, states[i], events[i], states[i + 1])
    ensures events[i].Crash? ==> CrashStep(cfg, states[i], events[i], states[i + 1]) && events[i].cut <= |states[i].agg.log|
  {}

  lemma InitKeeps(s: Sys)
    requires Init(s)
    ensures Kept(s)
  {}

  lemma {:induction false} KeptHolds(cfg: Config, states: seq<Sys>, events: seq<Event>, i: nat)
    requires Run(cfg, states, events) && ExactCrashes(cfg, states, events) && i < |states|
    ensures Kept(states[i])
  {
    hide Kept, Next, Init, CrashStep, SkipIsExact;
    if i == 0 {
      InitKeeps(states[0]);
    } else {
      SaneHolds(cfg, states, events, i - 1);
      KeptHolds(cfg, states, events, i - 1);
      RunStep(cfg, states, events, i - 1);
      StepKeeps(cfg, states[i - 1], events[i - 1], states[i]);
    }
  }

  /** In every state of every run each uncounted chunk of a running job is safe. */
  lemma NoTaskIsLost(cfg: Config, states: seq<Sys>, events: seq<Event>, k: nat, id: u64, i: u32)
    requires Run(cfg, states, events) && ExactCrashes(cfg, states, events) && k < |states|
    requires Owed(states[k].agg, id, i)
    ensures Safe(states[k], id, i)
  {
    hide Run;
    KeptHolds(cfg, states, events, k);
  }

  /** With one split per ID, whatever waits under a running job's ID is that job's own task. */
  lemma WaitingIsGenuine(cfg: Config, states: seq<Sys>, events: seq<Event>, k: nat, t: Task, conn: int)
    requires Lawful(cfg.w) && Run(cfg, states, events) && OneSplit(cfg, states, events) && k < |states|
    requires var s := states[k];
             && t.id.job in s.agg.jobs
             && (|| t in s.nq || t in s.pq
                 || (conn in s.workers && t.id in s.workers[conn].inflight && s.workers[conn].inflight[t.id].task == t)
                 || (conn in s.workers && s.workers[conn].pulled == Some(t)))
    ensures t == TaskOf(states[k].agg.jobs[t.id.job].core.spec, t.id.idx)
  {
    TruthHolds(cfg, states, events, k);
    hide Run;
    var s := states[k];
    assert CoreOf(s.agg).jobs[t.id.job] == s.agg.jobs[t.id.job].core;
    assert TrueTask(s.specs, t);
  }
}
