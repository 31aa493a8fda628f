/**
 Recovery refines the live aggregator: the log always replays to the live
 state, and a log cut anywhere after the last snapshot recovers to a state the
 aggregator was really in.
 */
module RecoveryRefines {
  import opened Base
  import opened Workloads
  import opened Jobs
  import opened Journal
  import opened Honesty
  import opened Aggregation
  import opened Workers
  import opened Scheduler
  import opened AggregatorRuns
  import opened SequentialAnswers
  import opened NoTaskLost

  ghost predicate CutsAreLive(w: Workload, a: Agg, history: seq<Core>) {
    && a.kept <= |a.log|
    && forall k :: a.kept <= k <= |a.log| ==> Finalise(Replay(w, a.log[..k])) in history
  }

  ghost predicate Recoverable(cfg: Config, s: Sys) {
    && Replay(cfg.w, s.agg.log) == CoreOf(s.agg)
    && CutsAreLive(cfg.w, s.agg, s.history)
    && EndsLive(s)
  }

  ghost predicate EndsLive(s: Sys) {
    s.history != [] && s.history[|s.history| - 1] == CoreOf(s.agg)
  }

  /** Finishing the one job that is out of chunks is what its JobDone record does. */
  lemma FinaliseIsJobDone(w: Workload, c: Core, id: u64)
    requires WellFormed(c) && id in c.jobs && c.jobs[id].remaining == 0
    requires forall other :: other in c.jobs && other != id ==> c.jobs[other].remaining != 0
    ensures Finalise(c) == Apply(w, c, JobDone(id, c.jobs[id].acc.hash, c.jobs[id].acc.nonce))
  {
    var d := Apply(w, c, JobDone(id, c.jobs[id].acc.hash, c.jobs[id].acc.nonce));
    assert Finalise(c).jobs == d.jobs;
    assert Finalise(c).done == d.done;
    assert Finalise(c).results == d.results;
  }

  /** The records of one event: at most two, and the first alone recovers to the event's end. */
  ghost predicate OneEvent(w: Workload, c: Core, recs: seq<Record>, after: Core) {
    && |recs| <= 2
    && ApplyAll(w, c, recs) == after
    && (|recs| == 2 ==> Finalise(Apply(w, c, recs[0])) == after)
  }

  lemma EventExtends(cfg: Config, s: Sys, recs: seq<Record>, s': Sys)
    requires Recoverable(cfg, s) && Unfinished(s'.agg)
    requires s'.agg.log == s.agg.log + recs && s'.agg.kept == s.agg.kept
    requires OneEvent(cfg.w, CoreOf(s.agg), recs, CoreOf(s'.agg))
    requires s'.history == s.history + [CoreOf(s'.agg)]
    ensures Recoverable(cfg, s')
  {
    var w, log := cfg.w, s.agg.log;
    ApplyAllConcat(w, EMPTY, log, recs);
    UnfinishedIsFinal(s'.agg);
    forall k | s.agg.kept <= k <= |log + recs| ensures Finalise(Replay(w, (log + recs)[..k])) in s'.history {
      if k <= |log| {
        assert (log + recs)[..k] == log[..k];
      } else if k == |log + recs| {
        assert (log + recs)[..k] == log + recs;
      } else {
        assert (log + recs)[..k] == log + [recs[0]];
        ApplyAllConcat(w, EMPTY, log, [recs[0]]);
        ApplyOne(w, CoreOf(s.agg), recs[0]);
      }
    }
  }

  lemma UnfinishedIsFinal(a: Agg)
    requires Unfinished(a)
    ensures Finalise(CoreOf(a)) == CoreOf(a)
  {
    FinaliseIsIdentity(CoreOf(a));
  }

  lemma SubmitIsOneEvent(w: Workload, a: Agg, conn: int, ended: bool, spec: JobSpec, now: int)
    requires WellFormed(CoreOf(a)) && Unfinished(a)
    ensures OneEvent(w, CoreOf(a), SubmitRecords(w, a, spec), CoreOf(Submit(w, a, conn, ended, spec, now)))
  {
    SubmitIsReplay(w, a, conn, ended, spec, now);
    if Feeds(a, spec) && spec.n == 0 {
      var c := Apply(w, CoreOf(a), StartOf(spec));
      ApplyKeepsWellFormed(w, CoreOf(a), StartOf(spec));
      FinaliseIsJobDone(w, c, spec.id);
      ApplyTwo(w, CoreOf(a), StartOf(spec), JobDone(spec.id, w.zero.hash, w.zero.nonce));
    }
  }

  lemma ResultIsOneEvent(w: Workload, a: Agg, tid: TaskID, p: Partial, now: int)
    requires WellFormed(CoreOf(a)) && Unfinished(a)
    ensures OneEvent(w, CoreOf(a), ResultRecords(w, a, tid, p), CoreOf(TakeResult(w, a, tid, p, now)))
  {
    TakeResultIsReplay(w, a, tid, p, now);
    if Accepts(a, tid) && a.jobs[tid.job].core.remaining == 1 {
      var r := ChunkDone(tid.job, tid.idx, p.hash, p.nonce);
      var c := Apply(w, CoreOf(a), r);
      assert Counts(CoreOf(a), r);
      ApplyKeepsWellFormed(w, CoreOf(a), r);
      FinaliseIsJobDone(w, c, tid.job);
      ApplyTwo(w, CoreOf(a), r, JobDone(tid.job, c.jobs[tid.job].acc.hash, c.jobs[tid.job].acc.nonce));
    }
  }

  lemma SubmitKeepsSnapshot(w: Workload, a: Agg, conn: int, ended: bool, spec: JobSpec, now: int)
    ensures Submit(w, a, conn, ended, spec, now).kept == a.kept
  {}

  lemma SubmitRefines(cfg: Config, s: Sys, conn: int, now: int, s': Sys)
    requires Sane(s) && Sane(s') && Recoverable(cfg, s) && SubmitStep(cfg, s, conn, now, s')
    ensures Recoverable(cfg, s')
  {
    hide Submit, SpecFor, SubmitRecords, Recoverable, OneEvent;
    var spec := SpecFor(cfg, s.chunkSize, s.front.handlers[conn]);
    SubmitIsReplay(cfg.w, s.agg, conn, conn in s.front.ended, spec, now);
    SubmitIsOneEvent(cfg.w, s.agg, conn, conn in s.front.ended, spec, now);
    SubmitKeepsSnapshot(cfg.w, s.agg, conn, conn in s.front.ended, spec, now);
    EventExtends(cfg, s, SubmitRecords(cfg.w, s.agg, spec), s');
  }

  lemma ForwardRefines(cfg: Config, s: Sys, e: Event, s': Sys)
    requires Sane(s) && Sane(s') && Recoverable(cfg, s) && e.Forwarded? && WorkerStep(cfg, s, e, s')
    ensures Recoverable(cfg, s')
  {
    var (tid, p) := s.workers[e.conn].hand.value;
    TakeResultIsReplay(cfg.w, s.agg, tid, p, e.now);
    ResultIsOneEvent(cfg.w, s.agg, tid, p, e.now);
    EventExtends(cfg, s, ResultRecords(cfg.w, s.agg, tid, p), s');
  }

  lemma EndRefines(cfg: Config, s: Sys, e: Event, s': Sys)
    requires Sane(s) && Sane(s') && Recoverable(cfg, s) && AggregatorStep(cfg, s, e, s') && !e.Compacts?
    ensures Recoverable(cfg, s')
  {
    match e
    case Noticed(conn, now) =>
      ClientGoneKeepsCore(s.agg, conn, now);
      EventExtends(cfg, s, [], s');
    case Dropped(id, now) =>
      FinishIsReplay(cfg.w, s.agg, id, false, now);
      ApplyOne(cfg.w, CoreOf(s.agg), JobDrop(id));
      EventExtends(cfg, s, [JobDrop(id)], s');
    case Expired(id, _) =>
      ExpireIsReplay(cfg.w, s.agg, id);
      ApplyOne(cfg.w, CoreOf(s.agg), JobDrop(id));
      EventExtends(cfg, s, [JobDrop(id)], s');
  }

  /** A log that is nothing but its snapshot. */
  lemma SnapshotIsRecoverable(cfg: Config, s: Sys)
    requires Unfinished(s.agg) && s.agg.kept == |s.agg.log|
    requires Replay(cfg.w, s.agg.log) == CoreOf(s.agg) && EndsLive(s)
    ensures Recoverable(cfg, s)
  {
    UnfinishedIsFinal(s.agg);
    assert s.agg.log[..|s.agg.log|] == s.agg.log;
  }

  lemma CompactIdleRefines(cfg: Config, s: Sys, order: seq<u64>, s': Sys)
    requires Sane(s) && Recoverable(cfg, s) && AggregatorStep(cfg, s, Compacts(order), s')
    ensures Recoverable(cfg, s')
  {
    var c := CoreOf(s.agg);
    SnapshotBase(cfg.w, c, order);
    HasAll(Replay(cfg.w, s'.agg.log), c);
    SnapshotIsRecoverable(cfg, s');
  }

  lemma CrashRefines(cfg: Config, s: Sys, e: Event, s': Sys)
    requires e.Crash? && CrashStep(cfg, s, e, s') && CompactsExactly(cfg.w, s.agg.log[..e.cut])
    ensures Recoverable(cfg, s')
  {
    hide Finalise, Compacted, CancelsSound, Resumed;
    RecoveredIsUnfinished(cfg.w, s.agg.log[..e.cut], e.now, e.answered, e.running, s'.agg);
    SnapshotIsRecoverable(cfg, s');
  }

  lemma StepRefines(cfg: Config, s: Sys, e: Event, s': Sys)
    requires Sane(s) && Recoverable(cfg, s) && Next(cfg, s, e, s')
    requires e.Crash? ==> CompactsExactly(cfg.w, s.agg.log[..e.cut])
    ensures Recoverable(cfg, s')
  {
    hide Sane, Recoverable, CompactsExactly, SubmitStep, WorkerStep, AggregatorStep, FrontStep, FeedStep, CrashStep;
    StepIsSane(cfg, s, e, s');
    if e.Submitted? {
      SubmitRefines(cfg, s, e.conn, e.now, s');
    } else if e.Forwarded? {
      ForwardRefines(cfg, s, e, s');
    } else if e.Compacts? {
      CompactIdleRefines(cfg, s, e.order, s');
    } else if e.Noticed? || e.Dropped? || e.Expired? {
      EndRefines(cfg, s, e, s');
    } else if e.Crash? {
      CrashRefines(cfg, s, e, s');
    } else {
      OtherStepsLeaveTheAggregator(cfg, s, e, s');
      SameLogIsRecoverable(cfg, s, s');
    }
  }

  lemma SameLogIsRecoverable(cfg: Config, s: Sys, s': Sys)
    requires Recoverable(cfg, s) && s'.agg == s.agg && s'.history == s.history
    ensures Recoverable(cfg, s')
  {}

  lemma InitIsRecoverable(cfg: Config, s: Sys)
    requires Init(s)
    ensures Recoverable(cfg, s)
  {
    SnapshotIsRecoverable(cfg, s);
  }

  /** Every crash of the run rewrites its log to one that replays to the recovered state. */
  ghost predicate FaithfulRewrites(cfg: Config, states: seq<Sys>, events: seq<Event>)
    requires |states| == |events| + 1
  {
    forall i :: 0 <= i < |events| && events[i].Crash? && events[i].cut <= |states[i].agg.log| ==>
      CompactsExactly(cfg.w, states[i].agg.log[..events[i].cut])
  }

  /** For any workload and any splits: it is enough that no counted job was restarted. */
  lemma CleanCrashesAreFaithful(cfg: Config, states: seq<Sys>, events: seq<Event>)
    requires |states| == |events| + 1 && CleanCrashes(cfg, states, events)
    ensures FaithfulRewrites(cfg, states, events)
  {
    hide RestartFree, CompactsExactly;
    forall i | 0 <= i < |events| && events[i].Crash? && events[i].cut <= |states[i].agg.log|
      ensures CompactsExactly(cfg.w, states[i].agg.log[..events[i].cut])
    {
      var disk := states[i].agg.log[..events[i].cut];
      CompactionExactIffRestartFree(cfg.w, disk);
      assert disk[..|disk|] == disk;
    }
  }

  /** The disk a crash finds is truthful. */
  lemma DiskIsHonest(cfg: Config, states: seq<Sys>, events: seq<Event>, i: nat)
    requires Lawful(cfg.w) && Run(cfg, states, events) && OneSplit(cfg, states, events)
    requires i < |events| && events[i].Crash? && events[i].cut <= |states[i].agg.log|
    ensures HonestSpecs(cfg.names, states[i].specs)
    ensures HonestLog(cfg.w, cfg.names, states[i].specs, states[i].agg.log[..events[i].cut])
  {
    hide Next, Init, OneSplit, TrueTasks;
    TruthHolds(cfg, states, events, i);
    PrefixIsHonest(cfg, states[i].specs, states[i].agg.log, events[i].cut);
  }

  /** With one split per ID, exactly the runs whose skip sets are exact rewrite faithfully. */
  lemma FaithfulIffExact(cfg: Config, states: seq<Sys>, events: seq<Event>)
    requires Lawful(cfg.w) && Run(cfg, states, events) && OneSplit(cfg, states, events)
    ensures FaithfulRewrites(cfg, states, events) <==> ExactCrashes(cfg, states, events)
  {
    hide Next, Init, OneSplit, CompactsExactly, SkipIsExact, HonestSpecs, HonestLog;
    forall i | 0 <= i < |events| && events[i].Crash? && events[i].cut <= |states[i].agg.log|
      ensures var disk := states[i].agg.log[..events[i].cut]; CompactsExactly(cfg.w, disk) <==> SkipIsExact(cfg.w, disk)
    {
      DiskIsHonest(cfg, states, events, i);
      HonestlyCompactsIff(cfg.w, cfg.names, states[i].specs, states[i].agg.log[..events[i].cut]);
    }
  }

  lemma {:induction false} RecoverableHolds(cfg: Config, states: seq<Sys>, events: seq<Event>, i: nat)
    requires Run(cfg, states, events) && FaithfulRewrites(cfg, states, events) && i < |states|
    ensures Recoverable(cfg, states[i])
  {
    hide Recoverable, Next, Init, CrashStep, CompactsExactly;
    if i > 0 {
      SaneHolds(cfg, states, events, i - 1);
      RecoverableHolds(cfg, states, events, i - 1);
      RunStep(cfg, states, events, i - 1);
      StepRefines(cfg, states[i - 1], events[i - 1], states[i]);
    } else {
      InitIsRecoverable(cfg, states[0]);
    }
  }

  /** The history of a state lists states the run has really been in. */
  lemma {:induction false} HistoryIsReal(cfg: Config, states: seq<Sys>, events: seq<Event>, i: nat, c: Core)
    requires Run(cfg, states, events) && i < |states| && c in states[i].history
    ensures exists j :: 0 <= j <= i && CoreOf(states[j].agg) == c
  {
    if i == 0 {
      assert CoreOf(states[0].agg) == EMPTY;
    } else if c == CoreOf(states[i].agg) {
    } else {
      assert Next(cfg, states[i - 1], events[i - 1], states[i]);
      HistoryGrows(cfg, states[i - 1], events[i - 1], states[i], c);
      HistoryIsReal(cfg, states, events, i - 1, c);
    }
  }

  lemma HistoryGrows(cfg: Config, s: Sys, e: Event, s': Sys, c: Core)
    requires Next(cfg, s, e, s') && c in s'.history && c != CoreOf(s'.agg)
    ensures c in s.history
  {
    hide Submit, TakeResult, ClientGone, Finish, Expire, CompactIdle, Recovered, Resumed, CoreOf;
  }

  /** The whole log replays to the live state, in every state of every run. */
  lemma LogReplaysToLiveState(cfg: Config, states: seq<Sys>, events: seq<Event>, i: nat)
    requires Run(cfg, states, events) && FaithfulRewrites(cfg, states, events) && i < |states|
    ensures Replay(cfg.w, states[i].agg.log) == CoreOf(states[i].agg)
  {
    RecoverableHolds(cfg, states, events, i);
  }

  /** With one split per ID the log replays to the live state throughout if and only if every crash finds exact skip sets. */
  lemma LogReplaysIff(cfg: Config, states: seq<Sys>, events: seq<Event>)
    requires Lawful(cfg.w) && Run(cfg, states, events) && OneSplit(cfg, states, events)
    ensures (forall i :: 0 <= i < |states| ==> Replay(cfg.w, states[i].agg.log) == CoreOf(states[i].agg))
       <==> ExactCrashes(cfg, states, events)
  {
    hide Next, Init, OneSplit, CompactsExactly, SkipIsExact, Finalise, CrashStep, Replay, FaithfulRewrites, HonestSpecs, HonestLog;
    if ExactCrashes(cfg, states, events) {
      FaithfulIffExact(cfg, states, events);
      forall i | 0 <= i < |states| ensures Replay(cfg.w, states[i].agg.log) == CoreOf(states[i].agg) {
        LogReplaysToLiveState(cfg, states, events, i);
      }
    }
    if forall i :: 0 <= i < |states| ==> Replay(cfg.w, states[i].agg.log) == CoreOf(states[i].agg) {
      forall i | 0 <= i < |events| && events[i].Crash? && events[i].cut <= |states[i].agg.log|
        ensures SkipIsExact(cfg.w, states[i].agg.log[..events[i].cut])
      {
        RunStep(cfg, states, events, i);
        DiskIsHonest(cfg, states, events, i);
        CrashReplaysIff(cfg, states[i], events[i], states[i + 1]);
      }
    }
  }

  /** One crash on a truthful log: the new process's log replays to its state if and only if the skip sets are exact. */
  lemma CrashReplaysIff(cfg: Config, s: Sys, e: Event, s': Sys)
    requires Lawful(cfg.w) && e.Crash? && CrashStep(cfg, s, e, s') && HonestSpecs(cfg.names, s.specs)
    requires HonestLog(cfg.w, cfg.names, s.specs, s.agg.log[..e.cut])
    ensures Replay(cfg.w, s'.agg.log) == CoreOf(s'.agg) <==> SkipIsExact(cfg.w, s.agg.log[..e.cut])
  {
    hide HonestSpecs, HonestLog, Finalise, SkipIsExact, Resumed, CancelsSound, Compacted;
    HonestCompactionIffSkipIsExact(cfg.w, cfg.names, s.specs, s.agg.log[..e.cut], e.answered, e.running);
  }

  /** A log cut anywhere after its snapshot recovers to the state of an earlier moment of the run. */
  lemma AnyCutRecoversALiveState(cfg: Config, states: seq<Sys>, events: seq<Event>, i: nat, k: nat)
    requires Run(cfg, states, events) && FaithfulRewrites(cfg, states, events) && i < |states|
    requires states[i].agg.kept <= k <= |states[i].agg.log|
    ensures exists j :: 0 <= j <= i && CoreOf(states[j].agg) == Finalise(Replay(cfg.w, states[i].agg.log[..k]))
  {
    RecoverableHolds(cfg, states, events, i);
    HistoryIsReal(cfg, states, events, i, Finalise(Replay(cfg.w, states[i].agg.log[..k])));
  }
}
