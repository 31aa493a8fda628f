/** What the loops of the goroutines do is a row of steps of the system. */
module LoopSteps {
  import opened Base
  import opened Jobs
  import opened Journal
  import opened Aggregation
  import opened Workers
  import opened Scheduler
  import AggregatorLoop
  import opened WorkerLoop

  // ------------------------------------------------------------- the aggregator's tick

  lemma TickStepIsNext(cfg: Config, s: Sys, b: Agg, now: int) returns (e: Event, s': Sys)
    requires AggregatorLoop.TickStep(s.agg, b, now, cfg.grace, cfg.ttl)
    ensures Next(cfg, s, e, s') && s' == s.(agg := b, history := s'.history)
  {
    hide Finish, Expire, CompactIdle, CoreOf, GraceOver, Lists, SubmitStep, WorkerStep, FrontStep, FeedStep, CrashStep;
    if id :| id in s.agg.jobs && GraceOver(s.agg, id, now, cfg.grace) && b == Finish(s.agg, id, false, now) {
      e, s' := Dropped(id, now), WithAgg(s, b);
    } else if id :| id in s.agg.results && now - s.agg.results[id].at > cfg.ttl && b == Expire(s.agg, id) {
      e, s' := Expired(id, now), WithAgg(s, b);
    } else {
      var order :| s.agg.jobs == map[] && Lists(order, s.agg.results.Keys) && b == CompactIdle(s.agg, order);
      e, s' := Compacts(order), s.(agg := b);
    }
  }

  /** A tick is a row of steps that touch nothing but the aggregator. */
  lemma {:induction false} TickIsSteps(cfg: Config, s: Sys, trail: seq<Agg>, now: int) returns (states: seq<Sys>, events: seq<Event>)
    requires AggregatorLoop.TickRun(trail, now, cfg.grace, cfg.ttl) && trail[0] == s.agg
    ensures Steps(cfg, states, events) && states[0] == s
    ensures var end := states[|states| - 1]; end == s.(agg := trail[|trail| - 1], history := end.history)
  {
    if |trail| == 1 {
      states, events := [s], [];
    } else {
      hide Next, AggregatorLoop.TickStep;
      var n := |trail| - 1;
      states, events := TickIsSteps(cfg, s, trail[..n], now);
      var last := states[|states| - 1];
      assert AggregatorLoop.TickStep(trail[n - 1], trail[n], now, cfg.grace, cfg.ttl);
      var e, s' := TickStepIsNext(cfg, last, trail[n], now);
      StepsThenOne(cfg, states, events, e, s');
      states, events := states + [s'], events + [e];
    }
  }

  // ------------------------------------------------------------------ a worker's loops

  /** What TryPull promises of the task it returns and of the queues it leaves. */
  predicate Pulled(k: Worker, window: nat, pq: seq<Task>, nq: seq<Task>, t: Task, pq': seq<Task>, nq': seq<Task>) {
    && |k.inflight| < window
    && if !k.hold && pq != [] then t == pq[0] && pq' == pq[1..] && nq' == nq
       else nq != [] && t == nq[0] && nq' == nq[1..] && pq' == pq
  }

  /** A pull is one step of the system, from pq only if there is no hold on it. */
  lemma PullIsStep(cfg: Config, s: Sys, conn: int, t: Task, pq: seq<Task>, nq: seq<Task>) returns (e: Event)
    requires conn in s.workers && Idle(s.workers[conn]) && Pulled(s.workers[conn], cfg.window, s.pq, s.nq, t, pq, nq)
    ensures Next(cfg, s, e, WithWorker(s, conn, s.workers[conn].(pulled := Some(t))).(pq := pq, nq := nq))
    ensures e == PullPq(conn) || e == PullNq(conn)
    ensures e == PullPq(conn) <==> !s.workers[conn].hold && s.pq != []
  {
    e := if !s.workers[conn].hold && s.pq != [] then PullPq(conn) else PullNq(conn);
  }

  /** Writing the pulled task, or putting the loop's own clone back, is one step of the system. */
  lemma SendIsStep(cfg: Config, s: Sys, conn: int, now: int)
    requires conn in s.workers && s.workers[conn].pulled.Some?
    ensures var k, t := s.workers[conn], s.workers[conn].pulled.value;
            var k' := if t.id in k.inflight then k.(pulled := None, hold := true)
                      else k.(pulled := None, inflight := k.inflight[t.id := Entry(t, now, false, 0)], sent := k.sent + {t});
            var pq := if t.id in k.inflight && |s.pq| < cfg.pqCap then s.pq + [t] else s.pq;
            Next(cfg, s, Sent(conn, now), WithWorker(s, conn, k').(pq := pq))
  {}

  ghost function MarkAll(inflight: map<TaskID, Entry>, ids: seq<TaskID>): map<TaskID, Entry> {
    map tid | tid in inflight :: if tid in ids then Marked(inflight[tid]) else inflight[tid]
  }

  lemma MarkAllSnoc(inflight: map<TaskID, Entry>, ids: seq<TaskID>, tid: TaskID)
    requires tid in inflight && tid !in ids
    ensures MarkAll(inflight, ids + [tid]) == MarkAll(inflight, ids)[tid := Marked(MarkAll(inflight, ids)[tid])]
    ensures MarkAll(inflight, ids)[tid] == inflight[tid]
  {
    assert forall x :: x in ids + [tid] <==> x in ids || x == tid;
  }

  /** The system after conn's loop has cloned the listed entries into pq. */
  ghost function AfterClones(s: Sys, conn: int, ids: seq<TaskID>): Sys
    requires conn in s.workers && forall tid :: tid in ids ==> tid in s.workers[conn].inflight
  {
    var k := s.workers[conn];
    WithWorker(s, conn, k.(inflight := MarkAll(k.inflight, ids))).(pq := s.pq + TasksOf(k.inflight, ids))
  }

  lemma ClonesGrow(s: Sys, conn: int, ids: seq<TaskID>, tid: TaskID)
    requires conn in s.workers && (forall x :: x in ids ==> x in s.workers[conn].inflight) && tid in s.workers[conn].inflight && tid !in ids
    ensures forall x :: x in ids + [tid] ==> x in s.workers[conn].inflight
    ensures var t := AfterClones(s, conn, ids);
            && AfterClones(s, conn, ids + [tid]) == WithWorker(t, conn, CloneWorker(t.workers[conn], tid)).(pq := t.pq + [t.workers[conn].inflight[tid].task])
            && t.workers[conn].inflight[tid] == s.workers[conn].inflight[tid] && |t.pq| == |s.pq| + |ids|
  {
    var before := s.workers[conn].inflight;
    TasksOfSnoc(before, ids, tid);
    TasksOfSize(before, ids);
    MarkAllSnoc(before, ids, tid);
    hide TasksOf, MarkAll;
    var t, u := AfterClones(s, conn, ids), AfterClones(s, conn, ids + [tid]);
    assert u.workers == t.workers[conn := CloneWorker(t.workers[conn], tid)];
  }

  lemma CloneOneMore(cfg: Config, s: Sys, conn: int, ids: seq<TaskID>, tid: TaskID)
    requires conn in s.workers && Idle(s.workers[conn]) && (forall x :: x in ids ==> x in s.workers[conn].inflight)
    requires tid in s.workers[conn].inflight && tid !in ids && !s.workers[conn].inflight[tid].speculated && |s.pq| + |ids| < cfg.pqCap
    ensures forall x :: x in ids + [tid] ==> x in s.workers[conn].inflight
    ensures Next(cfg, AfterClones(s, conn, ids), Cloned(conn, tid), AfterClones(s, conn, ids + [tid]))
  {
    ClonesGrow(s, conn, ids, tid);
    ClonesKeepIdle(s, conn, ids);
    hide AfterClones, CloneWorker;
  }

  lemma ClonesKeepIdle(s: Sys, conn: int, ids: seq<TaskID>)
    requires conn in s.workers && (forall x :: x in ids ==> x in s.workers[conn].inflight)
    ensures var t := AfterClones(s, conn, ids);
            conn in t.workers && t.workers[conn].inflight.Keys == s.workers[conn].inflight.Keys && Idle(t.workers[conn]) == Idle(s.workers[conn])
  {}

  lemma {:induction false} TasksOfSize(inflight: map<TaskID, Entry>, ids: seq<TaskID>)
    requires forall tid :: tid in ids ==> tid in inflight
    ensures |TasksOf(inflight, ids)| == |ids|
  {
    if ids != [] { TasksOfSize(inflight, ids[..|ids| - 1]); }
  }

  /** A speculation scan is a row of Cloned steps. */
  lemma {:induction false} SpeculationIsSteps(cfg: Config, s: Sys, conn: int, ids: seq<TaskID>) returns (states: seq<Sys>, events: seq<Event>)
    requires conn in s.workers && Idle(s.workers[conn]) && Distinct(ids) && |s.pq| + |ids| <= cfg.pqCap
    requires forall tid :: tid in ids ==> tid in s.workers[conn].inflight && !s.workers[conn].inflight[tid].speculated
    ensures Steps(cfg, states, events) && states[0] == s && states[|states| - 1] == AfterClones(s, conn, ids)
    ensures forall e :: e in events ==> e.Cloned? && e.conn == conn
  {
    if ids == [] {
      states, events := [s], [];
      var k := s.workers[conn];
      assert AfterClones(s, conn, ids).workers[conn].inflight == k.inflight;
      assert AfterClones(s, conn, ids).workers == s.workers;
    } else {
      hide Next;
      var front, tid := ids[..|ids| - 1], ids[|ids| - 1];
      assert ids == front + [tid];
      states, events := SpeculationIsSteps(cfg, s, conn, front);
      CloneOneMore(cfg, s, conn, front, tid);
      StepsThenOne(cfg, states, events, Cloned(conn, tid), AfterClones(s, conn, ids));
      states, events := states + [AfterClones(s, conn, ids)], events + [Cloned(conn, tid)];
    }
  }

  /** What Speculate leaves behind is that state. */
  lemma SpeculationEndsThere(s: Sys, conn: int, after: map<TaskID, Entry>, cloned: seq<TaskID>, now: int, threshold: int)
    requires conn in s.workers && MarkedExactly(s.workers[conn].inflight, after, cloned, now, threshold)
    ensures AfterClones(s, conn, cloned)
         == WithWorker(s, conn, s.workers[conn].(inflight := after)).(pq := s.pq + TasksOf(s.workers[conn].inflight, cloned))
  {
    assert AfterClones(s, conn, cloned).workers[conn].inflight == after;
  }

  /** The system after conn's loop has handed the listed entries back. */
  ghost function AfterHandBack(s: Sys, conn: int, ids: seq<TaskID>): Sys
    requires conn in s.workers && forall tid :: tid in ids ==> tid in s.workers[conn].inflight
  {
    var k := s.workers[conn];
    WithWorker(s, conn, k.(inflight := k.inflight - (set tid | tid in ids))).(pq := s.pq + TasksOf(k.inflight, ids))
  }

  lemma HandBackGrows(s: Sys, conn: int, ids: seq<TaskID>, tid: TaskID)
    requires conn in s.workers && (forall x :: x in ids ==> x in s.workers[conn].inflight) && tid in s.workers[conn].inflight && tid !in ids
    ensures forall x :: x in ids + [tid] ==> x in s.workers[conn].inflight
    ensures var t := AfterHandBack(s, conn, ids);
            && conn in t.workers && tid in t.workers[conn].inflight && |t.pq| == |s.pq| + |ids|
            && Idle(t.workers[conn]) == Idle(s.workers[conn]) && t.workers[conn].dead == s.workers[conn].dead
            && AfterHandBack(s, conn, ids + [tid]) == WithWorker(t, conn, HandBackWorker(t.workers[conn], tid)).(pq := t.pq + [t.workers[conn].inflight[tid].task])
  {
    var before := s.workers[conn].inflight;
    TasksOfSnoc(before, ids, tid);
    TasksOfSize(before, ids);
    hide TasksOf;
    var t, u := AfterHandBack(s, conn, ids), AfterHandBack(s, conn, ids + [tid]);
    assert (set x | x in ids + [tid]) == (set x | x in ids) + {tid};
    assert u.workers[conn].inflight == t.workers[conn].inflight - {tid};
    assert u.workers == t.workers[conn := HandBackWorker(t.workers[conn], tid)];
  }

  lemma HandBackOneMore(cfg: Config, s: Sys, conn: int, ids: seq<TaskID>, tid: TaskID)
    requires conn in s.workers && Idle(s.workers[conn]) && s.workers[conn].dead && (forall x :: x in ids ==> x in s.workers[conn].inflight)
    requires tid in s.workers[conn].inflight && tid !in ids && |s.pq| + |ids| < cfg.pqCap
    ensures forall x :: x in ids + [tid] ==> x in s.workers[conn].inflight
    ensures Next(cfg, AfterHandBack(s, conn, ids), HandedBack(conn, tid), AfterHandBack(s, conn, ids + [tid]))
  {
    HandBackGrows(s, conn, ids, tid);
    hide AfterHandBack, HandBackWorker;
  }

  /** Handing back is a row of HandedBack steps. */
  lemma {:induction false} HandBackIsSteps(cfg: Config, s: Sys, conn: int, ids: seq<TaskID>) returns (states: seq<Sys>, events: seq<Event>)
    requires conn in s.workers && Idle(s.workers[conn]) && s.workers[conn].dead && Distinct(ids) && |s.pq| + |ids| <= cfg.pqCap
    requires forall tid :: tid in ids ==> tid in s.workers[conn].inflight
    ensures Steps(cfg, states, events) && states[0] == s && states[|states| - 1] == AfterHandBack(s, conn, ids)
    ensures forall e :: e in events ==> e.HandedBack? && e.conn == conn
  {
    if ids == [] {
      states, events := [s], [];
      var k := s.workers[conn];
      assert k.inflight - (set tid | tid in ids) == k.inflight;
      assert AfterHandBack(s, conn, ids).workers == s.workers;
    } else {
      hide Next;
      var front, tid := ids[..|ids| - 1], ids[|ids| - 1];
      assert ids == front + [tid];
      states, events := HandBackIsSteps(cfg, s, conn, front);
      HandBackOneMore(cfg, s, conn, front, tid);
      StepsThenOne(cfg, states, events, HandedBack(conn, tid), AfterHandBack(s, conn, ids));
      states, events := states + [AfterHandBack(s, conn, ids)], events + [HandedBack(conn, tid)];
    }
  }

  /** What HandBack leaves behind is that state. */
  lemma HandBackEndsThere(s: Sys, conn: int, after: map<TaskID, Entry>, pushed: seq<TaskID>)
    requires conn in s.workers
    requires forall tid :: tid in s.workers[conn].inflight <==> tid in after || tid in pushed
    requires forall tid :: tid in after ==> tid !in pushed && after[tid] == s.workers[conn].inflight[tid]
    ensures AfterHandBack(s, conn, pushed)
         == WithWorker(s, conn, s.workers[conn].(inflight := after)).(pq := s.pq + TasksOf(s.workers[conn].inflight, pushed))
  {
    assert AfterHandBack(s, conn, pushed).workers[conn].inflight == after;
  }
}
