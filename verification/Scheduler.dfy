/**
 The scheduler as one step system: dispatcher, client handlers, feeders, the
 two queues, the worker loops and the aggregator, with crashes and restarts.
 Everything that can interleave is a separate step.
 */
module Scheduler {
  import opened Base
  import opened Workloads
  import opened Jobs
  import opened Journal
  import opened Honesty
  import opened Aggregation
  import opened Workers

  datatype Config = Config(w: Workload, names: Naming, window: nat, nqCap: nat, pqCap: nat, grace: int, ttl: int)

  /** A feed loop that has reached index next. */
  datatype Feeder = Feeder(spec: JobSpec, skip: set<u32>, next: u32)

  /**
   The client side. clients is the dispatcher's table, handlers the requests
   not submitted yet, ended the connections that are over, gone those whose
   final error was read, notices the connection losses not yet taken by the
   aggregator.
   */
  datatype Front = Front(clients: set<int>, handlers: map<int, u64>, ended: set<int>, gone: set<int>, notices: set<int>)

  /**
   specs records how each ID was last split in this process, history the logged part
   of the state after every aggregator event of this process.
   */
  datatype Sys = Sys(
    agg: Agg, specs: map<u64, JobSpec>, chunkSize: u64, feeders: map<nat, Feeder>,
    nq: seq<Task>, pq: seq<Task>, workers: map<int, Worker>, front: Front, history: seq<Core>)

  datatype Event =
    | Request(conn: int, id: u64)
    | ConnEnds(conn: int)
    | ConnError(conn: int)
    | Submitted(conn: int, now: int)
    | Noticed(conn: int, now: int)
    | Feed(cancel: nat)
    | FeedStop(cancel: nat)
    | Join(conn: int)
    | PullNq(conn: int)
    | PullPq(conn: int)
    | Sent(conn: int, now: int)
    | Answered(conn: int, task: Task, now: int)
    | Forwarded(conn: int, now: int)
    | Ticked(conn: int)
    | Cloned(conn: int, tid: TaskID)
    | Died(conn: int)
    | HandedBack(conn: int, tid: TaskID)
    | Exited(conn: int)
    | Dropped(id: u64, now: int)
    | Expired(id: u64, now: int)
    | Compacts(order: seq<u64>)
    | Crash(cut: nat, chunkSize: u64, now: int, answered: seq<u64>, running: seq<u64>)

  const IDLE_FRONT := Front({}, map[], {}, {}, {})

  const FRESH_AGG := Agg(map[], {}, map[], map[], [], 0, 0, multiset{}, [])

  ghost predicate Init(s: Sys) {
    s.chunkSize > 0 && s == Sys(FRESH_AGG, map[], s.chunkSize, map[], [], [], map[], IDLE_FRONT, [EMPTY])
  }

  /** How the running process splits the request an ID names. */
  function SpecFor(cfg: Config, chunkSize: u64, id: u64): JobSpec
    requires chunkSize > 0
  {
    var r := cfg.names(id);
    var (n, size) := Split(r.lo, r.hi, chunkSize);
    JobSpec(id, r.lo, r.hi, size, n, r.msg)
  }

  /** The honest result for a task. */
  function ResultOf(w: Workload, t: Task): Partial { w.compute(t.msg, t.lo, t.hi) }

  function WithAgg(s: Sys, a: Agg): Sys { s.(agg := a, history := s.history + [CoreOf(a)]) }

  function WithWorker(s: Sys, conn: int, k: Worker): Sys { s.(workers := s.workers[conn := k]) }

  // -------------------------------------------------------------------- steps

  ghost predicate FrontStep(s: Sys, e: Event, s': Sys) {
    var f := s.front;
    match e
    case Request(conn, id) =>
      && conn !in f.clients && conn !in f.gone && conn !in s.workers
      && s' == s.(front := f.(clients := f.clients + {conn}, handlers := f.handlers[conn := id]))
    case ConnEnds(conn) =>
      s' == s.(front := f.(ended := f.ended + {conn}))
    case ConnError(conn) =>
      && conn in f.ended && conn !in f.gone && conn !in s.workers
      && s' == s.(front := f.(gone := f.gone + {conn}, clients := f.clients - {conn},
                              notices := if conn in f.clients then f.notices + {conn} else f.notices))
    case _ => false
  }

  /** A client handler reaches the aggregator; only a new job is given a feeder. */
  ghost predicate SubmitStep(cfg: Config, s: Sys, conn: int, now: int, s': Sys) {
    && s.chunkSize > 0 && conn in s.front.handlers
    && var id := s.front.handlers[conn];
       var spec := SpecFor(cfg, s.chunkSize, id);
       var a := Submit(cfg.w, s.agg, conn, conn in s.front.ended, spec, now);
       var t := WithAgg(s, a).(front := s.front.(handlers := s.front.handlers - {conn}));
       if !Feeds(s.agg, spec) then s' == t
       else s' == t.(specs := s.specs[id := spec], feeders := s.feeders[s.agg.cancels := Feeder(spec, {}, 0)])
  }

  ghost predicate FeedStep(cfg: Config, s: Sys, e: Event, s': Sys) {
    match e
    case Feed(c) =>
      && c in s.feeders && s.feeders[c].next < s.feeders[c].spec.n
      && var f := s.feeders[c];
         var t := s.(feeders := s.feeders[c := f.(next := f.next + 1)]);
         if f.next in f.skip then s' == t
         else |s.nq| < cfg.nqCap && s' == t.(nq := s.nq + [TaskOf(f.spec, f.next)])
    case FeedStop(c) =>
      c in s.feeders && c in s.agg.closed && s' == s.(feeders := s.feeders - {c})
    case _ => false
  }

  /** The steps of one workerLoop between the queues and the remote worker. */
  ghost predicate WorkerStep(cfg: Config, s: Sys, e: Event, s': Sys) {
    match e
    case Join(conn) =>
      conn !in s.workers && conn !in s.front.clients && s' == WithWorker(s, conn, FRESH)
    case PullNq(conn) =>
      && conn in s.workers && Idle(s.workers[conn]) && HasRoom(s.workers[conn], cfg.window) && s.nq != []
      && s' == WithWorker(s, conn, s.workers[conn].(pulled := Some(s.nq[0]))).(nq := s.nq[1..])
    case PullPq(conn) =>
      && conn in s.workers && Idle(s.workers[conn]) && HasRoom(s.workers[conn], cfg.window)
      && !s.workers[conn].hold && s.pq != []
      && s' == WithWorker(s, conn, s.workers[conn].(pulled := Some(s.pq[0]))).(pq := s.pq[1..])
    case Sent(conn, now) =>
      && conn in s.workers && s.workers[conn].pulled.Some?
      && s' == WithWorker(s, conn, SendWorker(s.workers[conn], now)).(pq := SendQueue(s.workers[conn], s.pq, cfg.pqCap))
    case Answered(conn, task, now) =>
      // The remote worker answers any chunk it was sent, any number of times.
      && conn in s.workers && Idle(s.workers[conn]) && task in s.workers[conn].sent
      && s' == WithWorker(s, conn, TakeAnswer(s.workers[conn], task.id, ResultOf(cfg.w, task), now))
    case Forwarded(conn, now) =>
      && conn in s.workers && s.workers[conn].hand.Some?
      && var (tid, p) := s.workers[conn].hand.value;
         s' == WithAgg(WithWorker(s, conn, s.workers[conn].(hand := None)), TakeResult(cfg.w, s.agg, tid, p, now))
    case Ticked(conn) =>
      && conn in s.workers && Idle(s.workers[conn])
      && s' == WithWorker(s, conn, s.workers[conn].(hold := false))
    case Cloned(conn, tid) =>
      && conn in s.workers && Idle(s.workers[conn]) && tid in s.workers[conn].inflight
      && !s.workers[conn].inflight[tid].speculated && |s.pq| < cfg.pqCap
      && s' == WithWorker(s, conn, CloneWorker(s.workers[conn], tid)).(pq := s.pq + [s.workers[conn].inflight[tid].task])
    case Died(conn) =>
      conn in s.workers && s' == WithWorker(s, conn, s.workers[conn].(dead := true))
    case HandedBack(conn, tid) =>
      && conn in s.workers && Idle(s.workers[conn]) && s.workers[conn].dead
      && tid in s.workers[conn].inflight && |s.pq| < cfg.pqCap
      && s' == WithWorker(s, conn, HandBackWorker(s.workers[conn], tid)).(pq := s.pq + [s.workers[conn].inflight[tid].task])
    case Exited(conn) =>
      && conn in s.workers && Idle(s.workers[conn]) && s.workers[conn].dead && s.workers[conn].inflight == map[]
      && s' == s.(workers := s.workers - {conn})
    case _ => false
  }

  /** The aggregator's own steps. */
  ghost predicate AggregatorStep(cfg: Config, s: Sys, e: Event, s': Sys) {
    match e
    case Noticed(conn, now) =>
      && conn in s.front.notices
      && s' == WithAgg(s, ClientGone(s.agg, conn, now)).(front := s.front.(notices := s.front.notices - {conn}))
    case Dropped(id, now) =>
      && id in s.agg.jobs && GraceOver(s.agg, id, now, cfg.grace)
      && s' == WithAgg(s, Finish(s.agg, id, false, now))
    case Expired(id, now) =>
      && id in s.agg.results && now - s.agg.results[id].at > cfg.ttl
      && s' == WithAgg(s, Expire(s.agg, id))
    case Compacts(order) =>
      && s.agg.jobs == map[] && Lists(order, s.agg.results.Keys)
      && s' == s.(agg := CompactIdle(s.agg, order))
    case _ => false
  }

  /** What `recover` hands to the aggregator, given the records found on disk. */
  ghost predicate Recovered(w: Workload, disk: seq<Record>, now: int, answered: seq<u64>, running: seq<u64>, a: Agg) {
    var c := Finalise(Replay(w, disk));
    && Lists(answered, c.results.Keys) && Lists(running, c.jobs.Keys)
    && CoreOf(a) == c
    && (forall id :: id in a.jobs ==> a.jobs[id].client == None && a.jobs[id].orphanedAt == Some(now))
    && (forall id :: id in a.results ==> a.results[id].at == now)
    && a.byConn == map[]
    && a.log == Compacted(w, disk, answered, running) && a.kept == |a.log|
    && a.closed == multiset{} && CancelsSound(a)
  }

  /** Every recovered job gets a feeder that leaves out what `chunks` lists for its ID. */
  ghost predicate Resumed(w: Workload, disk: seq<Record>, a: Agg, feeders: map<nat, Feeder>) {
    && (forall id :: id in a.jobs ==>
          && a.jobs[id].cancel in feeders
          && feeders[a.jobs[id].cancel] == Feeder(a.jobs[id].core.spec, Indices(Chunks(w, disk, id)), 0))
    && (forall c :: c in feeders ==> exists id :: id in a.jobs && a.jobs[id].cancel == c)
  }

  function SpecsOf(jobs: map<u64, Job>): map<u64, JobSpec> { map id | id in jobs :: jobs[id].core.spec }

  /** The process dies, keeping a prefix of its log, and a new one takes over. */
  ghost predicate CrashStep(cfg: Config, s: Sys, e: Event, s': Sys)
    requires e.Crash?
  {
    && s.agg.kept <= e.cut <= |s.agg.log| && e.chunkSize > 0
    && var disk := s.agg.log[..e.cut];
       && Recovered(cfg.w, disk, e.now, e.answered, e.running, s'.agg)
       && s'.agg.replies == s.agg.replies
       && Resumed(cfg.w, disk, s'.agg, s'.feeders)
       && s'.specs == SpecsOf(s'.agg.jobs)
       && s'.chunkSize == e.chunkSize
       && s'.nq == [] && s'.pq == [] && s'.workers == map[] && s'.front == IDLE_FRONT
       && s'.history == [CoreOf(s'.agg)]
  }

  ghost predicate Next(cfg: Config, s: Sys, e: Event, s': Sys) {
    match e
    case Request(_, _) => FrontStep(s, e, s')
    case ConnEnds(_) => FrontStep(s, e, s')
    case ConnError(_) => FrontStep(s, e, s')
    case Submitted(conn, now) => SubmitStep(cfg, s, conn, now, s')
    case Noticed(_, _) => AggregatorStep(cfg, s, e, s')
    case Dropped(_, _) => AggregatorStep(cfg, s, e, s')
    case Expired(_, _) => AggregatorStep(cfg, s, e, s')
    case Compacts(_) => AggregatorStep(cfg, s, e, s')
    case Feed(_) => FeedStep(cfg, s, e, s')
    case FeedStop(_) => FeedStep(cfg, s, e, s')
    case Crash(_, _, _, _, _) => CrashStep(cfg, s, e, s')
    case _ => WorkerStep(cfg, s, e, s')
  }

  /** Some steps in a row, from any state. */
  ghost predicate Steps(cfg: Config, states: seq<Sys>, events: seq<Event>) {
    && |states| == |events| + 1
    && forall i :: 0 <= i < |events| ==> Next(cfg, states[i], events[i], states[i + 1])
  }

  lemma StepsThenOne(cfg: Config, states: seq<Sys>, events: seq<Event>, e: Event, s: Sys)
    requires Steps(cfg, states, events) && Next(cfg, states[|states| - 1], e, s)
    ensures Steps(cfg, states + [s], events + [e])
  {
    hide Next;
    forall i | 0 <= i < |events + [e]| ensures Next(cfg, (states + [s])[i], (events + [e])[i], (states + [s])[i + 1]) {
      if i < |events| { assert Next(cfg, states[i], events[i], states[i + 1]); }
    }
  }

  /** A run: states[i] leads to states[i + 1] by events[i]. */
  ghost predicate Run(cfg: Config, states: seq<Sys>, events: seq<Event>) {
    && |states| == |events| + 1
    && Init(states[0])
    && forall i :: 0 <= i < |events| ==> Next(cfg, states[i], events[i], states[i + 1])
  }
}
