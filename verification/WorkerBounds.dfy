/** The bounds every worker loop and queue keeps. */
module WorkerBounds {
  import opened Base
  import opened Jobs
  import opened Aggregation
  import opened Workers
  import opened Scheduler

  /** At most a window of tasks in flight, each cloned at most once. */
  ghost predicate Bounded(k: Worker, window: nat) {
    && |k.inflight| <= window
    && (k.pulled.Some? ==> |k.inflight| < window)
    && (forall tid :: tid in k.inflight ==>
          k.inflight[tid].clones <= 1 && (k.inflight[tid].speculated <==> k.inflight[tid].clones == 1))
  }

  ghost predicate AllBounded(cfg: Config, s: Sys) {
    && |s.nq| <= cfg.nqCap && |s.pq| <= cfg.pqCap
    && forall conn :: conn in s.workers ==> Bounded(s.workers[conn], cfg.window)
  }

  lemma InsertSize<K, V>(m: map<K, V>, k: K, v: V)
    ensures |m[k := v]| == if k in m then |m| else |m| + 1
  {
    assert m[k := v].Keys == m.Keys + {k};
  }

  lemma RemoveSize<K, V>(m: map<K, V>, k: K)
    ensures |m - {k}| <= |m|
  {
    assert (m - {k}).Keys == m.Keys - {k};
  }

  lemma SentBounds(k: Worker, window: nat, now: int)
    requires Bounded(k, window) && k.pulled.Some?
    ensures Bounded(SendWorker(k, now), window)
  {
    InsertSize(k.inflight, k.pulled.value.id, Entry(k.pulled.value, now, false, 0));
  }

  lemma AnswerBounds(k: Worker, window: nat, tid: TaskID, p: Partial, now: int)
    requires Bounded(k, window)
    ensures Bounded(TakeAnswer(k, tid, p, now), window)
  {
    RemoveSize(k.inflight, tid);
  }

  lemma CloneBounds(k: Worker, window: nat, tid: TaskID)
    requires Bounded(k, window) && tid in k.inflight && !k.inflight[tid].speculated
    ensures Bounded(CloneWorker(k, tid), window)
  {
    InsertSize(k.inflight, tid, Marked(k.inflight[tid]));
  }

  lemma HandBackBounds(k: Worker, window: nat, tid: TaskID)
    requires Bounded(k, window) && tid in k.inflight && k.pulled.None?
    ensures Bounded(HandBackWorker(k, tid), window)
  {
    RemoveSize(k.inflight, tid);
  }

  /** The worker that moves stays within its bounds. */
  lemma OneStaysBounded(cfg: Config, s: Sys, e: Event, s': Sys)
    requires AllBounded(cfg, s) && WorkerStep(cfg, s, e, s') && !e.Exited?
    ensures Bounded(s'.workers[e.conn], cfg.window)
  {
    hide TakeResult, SendWorker, TakeAnswer, CloneWorker, HandBackWorker;
    match e
    case Sent(conn, now) => SentBounds(s.workers[conn], cfg.window, now);
    case Answered(conn, task, now) => AnswerBounds(s.workers[conn], cfg.window, task.id, ResultOf(cfg.w, task), now);
    case Cloned(conn, tid) => CloneBounds(s.workers[conn], cfg.window, tid);
    case HandedBack(conn, tid) => HandBackBounds(s.workers[conn], cfg.window, tid);
    case _ =>
  }

  lemma WorkerStepBounds(cfg: Config, s: Sys, e: Event, s': Sys)
    requires AllBounded(cfg, s) && WorkerStep(cfg, s, e, s')
    ensures AllBounded(cfg, s')
  {
    hide Bounded, TakeResult, SendWorker, TakeAnswer, CloneWorker, HandBackWorker;
    if !e.Exited? { OneStaysBounded(cfg, s, e, s'); }
  }

  lemma OtherStepsBound(cfg: Config, s: Sys, e: Event, s': Sys)
    requires AllBounded(cfg, s) && Next(cfg, s, e, s') && !WorkerStep(cfg, s, e, s')
    ensures AllBounded(cfg, s')
  {}

  /** In every state of every run no worker exceeds its window and no entry is cloned twice. */
  lemma {:induction false} BoundsHold(cfg: Config, states: seq<Sys>, events: seq<Event>, i: nat)
    requires Run(cfg, states, events) && i < |states|
    ensures AllBounded(cfg, states[i])
  {
    if i > 0 {
      var s, e, s' := states[i - 1], events[i - 1], states[i];
      BoundsHold(cfg, states, events, i - 1);
      assert Next(cfg, s, e, s');
      if WorkerStep(cfg, s, e, s') { WorkerStepBounds(cfg, s, e, s'); } else { OtherStepsBound(cfg, s, e, s'); }
    }
  }

  // ------------------------------------------------------------ the workers' pace

  ghost predicate AllPaced(s: Sys) {
    forall conn :: conn in s.workers ==> Smoothed(s.workers[conn].srtt, s.workers[conn].samples)
  }

  lemma AnswerIsPaced(k: Worker, tid: TaskID, p: Partial, now: int)
    requires Smoothed(k.srtt, k.samples)
    ensures var k' := TakeAnswer(k, tid, p, now); Smoothed(k'.srtt, k'.samples)
  {
    if tid in k.inflight { SmoothStaysWithin(k.srtt, k.samples, now - k.inflight[tid].sentAt); }
  }

  lemma WorkerStepIsPaced(cfg: Config, s: Sys, e: Event, s': Sys)
    requires AllPaced(s) && WorkerStep(cfg, s, e, s')
    ensures AllPaced(s')
  {
    hide TakeResult, TakeAnswer, Smoothed, ResultOf;
    if e.Answered? { AnswerIsPaced(s.workers[e.conn], e.task.id, ResultOf(cfg.w, e.task), e.now); }
    if e.Join? { NoSamplesYet(); }
  }

  lemma NoSamplesYet()
    ensures Smoothed(None, [])
  {}

  lemma OtherStepsLeaveThePace(cfg: Config, s: Sys, e: Event, s': Sys)
    requires AllPaced(s) && Next(cfg, s, e, s') && !WorkerStep(cfg, s, e, s')
    ensures AllPaced(s')
  {
    hide Smoothed;
  }

  /** In every run a worker's pace lies between the least and the greatest of the response times measured. */
  lemma {:induction false} PaceHolds(cfg: Config, states: seq<Sys>, events: seq<Event>, i: nat)
    requires Run(cfg, states, events) && i < |states|
    ensures AllPaced(states[i])
  {
    hide AllPaced, WorkerStep, Next;
    if i == 0 {
      InitIsPaced(states[0]);
    } else {
      var s, e, s' := states[i - 1], events[i - 1], states[i];
      PaceHolds(cfg, states, events, i - 1);
      assert Next(cfg, s, e, s');
      if WorkerStep(cfg, s, e, s') { WorkerStepIsPaced(cfg, s, e, s'); } else { OtherStepsLeaveThePace(cfg, s, e, s'); }
    }
  }

  lemma InitIsPaced(s: Sys)
    requires Init(s)
    ensures AllPaced(s)
  {}

  lemma PaceOverRuns(cfg: Config, states: seq<Sys>, events: seq<Event>, i: nat, conn: int, lo: int, hi: int)
    requires Run(cfg, states, events) && i < |states| && conn in states[i].workers
    ensures var k := states[i].workers[conn];
            && (k.srtt.Some? <==> k.samples != [])
            && (k.srtt.Some? && Within(k.samples, lo, hi) ==> lo <= k.srtt.value <= hi)
  {
    hide Run;
    PaceHolds(cfg, states, events, i);
  }
}
