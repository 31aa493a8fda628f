/**
 No lost notice: as long as a job is attached to a connection that is over, the
 news of that is still on its way to the aggregator.
 */
module ClientTracking {
  import opened Base
  import opened Workloads
  import opened Jobs
  import opened Journal
  import opened Aggregation
  import opened Workers
  import opened Scheduler

  /** The end of connection c has not reached the aggregator yet, but will. */
  predicate NoticeToCome(f: Front, c: int) {
    (c in f.clients && c !in f.gone) || c in f.notices
  }

  ghost predicate Tracked(s: Sys) {
    var f := s.front;
    && CancelsSound(s.agg) && ClientsSound(s.agg)
    && f.notices <= f.gone <= f.ended && f.clients !! f.gone
    && (forall c :: c in f.handlers ==> c !in s.agg.byConn && (c in f.clients || c in f.gone))
    && (forall c :: c in s.agg.byConn ==> NoticeToCome(f, c))
  }

  /** Only a submission that finds its connection alive adds an entry to byConn. */
  lemma SubmitByConn(w: Workload, a: Agg, conn: int, ended: bool, spec: JobSpec, now: int, c: int)
    requires c in Submit(w, a, conn, ended, spec, now).byConn
    ensures c in a.byConn || (c == conn && !ended)
  {}

  lemma TakeResultByConn(w: Workload, a: Agg, tid: TaskID, p: Partial, now: int, c: int)
    requires c in TakeResult(w, a, tid, p, now).byConn
    ensures c in a.byConn
  {}

  lemma SubmitTracks(cfg: Config, s: Sys, conn: int, now: int, s': Sys)
    requires Tracked(s) && SubmitStep(cfg, s, conn, now, s')
    ensures Tracked(s')
  {
    var spec := SpecFor(cfg, s.chunkSize, s.front.handlers[conn]);
    var ended := conn in s.front.ended;
    SubmitKeepsSound(cfg.w, s.agg, conn, ended, spec, now);
    forall c | c in s'.agg.byConn ensures NoticeToCome(s'.front, c) && c !in s'.front.handlers {
      SubmitByConn(cfg.w, s.agg, conn, ended, spec, now, c);
    }
  }

  lemma NoticeTracks(cfg: Config, s: Sys, e: Event, s': Sys)
    requires Tracked(s) && e.Noticed? && AggregatorStep(cfg, s, e, s')
    ensures Tracked(s')
  {
    hide CancelsSound, ClientsSound;
    ClientGoneKeepsSound(s.agg, e.conn, e.now);
    ClientGoneKeepsCancels(s.agg, e.conn, e.now);
    assert forall c :: c in s'.agg.byConn ==> c in s.agg.byConn && c != e.conn;
  }

  lemma DropTracks(cfg: Config, s: Sys, e: Event, s': Sys)
    requires Tracked(s) && e.Dropped? && AggregatorStep(cfg, s, e, s')
    ensures Tracked(s')
  {
    FinishKeepsCancels(s.agg, e.id, false, e.now);
    FinishKeepsClients(s.agg, e.id, false, e.now);
    assert forall c :: c in s'.agg.byConn ==> c in s.agg.byConn;
  }

  lemma AnswersTrack(cfg: Config, s: Sys, e: Event, s': Sys)
    requires Tracked(s) && (e.Expired? || e.Compacts?) && AggregatorStep(cfg, s, e, s')
    ensures Tracked(s')
  {
    assert CancelsSound(s'.agg);
    assert ClientsSound(s'.agg);
  }

  lemma WorkerTracks(cfg: Config, s: Sys, e: Event, s': Sys)
    requires Tracked(s) && WorkerStep(cfg, s, e, s')
    ensures Tracked(s')
  {
    if e.Forwarded? {
      var (tid, p) := s.workers[e.conn].hand.value;
      TakeResultKeepsSound(cfg.w, s.agg, tid, p, e.now);
      forall c | c in s'.agg.byConn ensures c in s.agg.byConn {
        TakeResultByConn(cfg.w, s.agg, tid, p, e.now, c);
      }
    } else {
      assert s'.agg == s.agg && s'.front == s.front;
    }
  }

  lemma FrontTracks(cfg: Config, s: Sys, e: Event, s': Sys)
    requires Tracked(s) && FrontStep(s, e, s')
    ensures Tracked(s')
  {}

  lemma StepTracks(cfg: Config, s: Sys, e: Event, s': Sys)
    requires Tracked(s) && Next(cfg, s, e, s')
    ensures Tracked(s')
  {
    if e.Request? || e.ConnEnds? || e.ConnError? {
      FrontTracks(cfg, s, e, s');
    } else if e.Feed? || e.FeedStop? {
      assert s'.agg == s.agg && s'.front == s.front;
    } else if e.Submitted? {
      SubmitTracks(cfg, s, e.conn, e.now, s');
    } else if e.Noticed? {
      NoticeTracks(cfg, s, e, s');
    } else if e.Dropped? {
      DropTracks(cfg, s, e, s');
    } else if e.Expired? || e.Compacts? {
      AnswersTrack(cfg, s, e, s');
    } else if e.Crash? {
      assert ClientsSound(s'.agg);
    } else {
      WorkerTracks(cfg, s, e, s');
    }
  }

  lemma {:induction false} TrackedHolds(cfg: Config, states: seq<Sys>, events: seq<Event>, i: nat)
    requires Run(cfg, states, events) && i < |states|
    ensures Tracked(states[i])
  {
    if i > 0 {
      TrackedHolds(cfg, states, events, i - 1);
      StepTracks(cfg, states[i - 1], events[i - 1], states[i]);
    }
  }

  /** Every running job is attached or orphaned, never both; no cancel channel is closed twice. */
  lemma AttachedOrOrphaned(cfg: Config, states: seq<Sys>, events: seq<Event>, i: nat, id: u64)
    requires Run(cfg, states, events) && i < |states| && id in states[i].agg.jobs
    ensures var a := states[i].agg;
            && (a.jobs[id].client.Some? <==> a.jobs[id].orphanedAt.None?)
            && (forall c :: (c in a.byConn && a.byConn[c] == id) <==> a.jobs[id].client == Some(c))
            && (forall c :: a.closed[c] <= 1) && a.closed[a.jobs[id].cancel] == 0
  {
    TrackedHolds(cfg, states, events, i);
  }

  /** A job attached to a connection that is over always has a notice still to come. */
  lemma NoNoticeIsLost(cfg: Config, states: seq<Sys>, events: seq<Event>, i: nat, id: u64, c: int)
    requires Run(cfg, states, events) && i < |states|
    requires id in states[i].agg.jobs && states[i].agg.jobs[id].client == Some(c) && c in states[i].front.ended
    ensures NoticeToCome(states[i].front, c)
  {
    TrackedHolds(cfg, states, events, i);
  }
}
