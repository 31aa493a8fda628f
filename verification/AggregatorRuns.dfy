/**
 What every run keeps of the aggregator's state, whatever the workers answer and
 however the jobs are split.
 */
module AggregatorRuns {
  import opened Base
  import opened Workloads
  import opened Jobs
  import opened Journal
  import opened Aggregation
  import opened Scheduler

  ghost predicate Sane(s: Sys) { WellFormed(CoreOf(s.agg)) && Unfinished(s.agg) && s.agg.kept <= |s.agg.log| }

  /** Only these steps touch the aggregator. */
  predicate TouchesAggregator(e: Event) {
    e.Submitted? || e.Forwarded? || e.Compacts? || e.Noticed? || e.Dropped? || e.Expired? || e.Crash?
  }

  lemma OtherStepsLeaveTheAggregator(cfg: Config, s: Sys, e: Event, s': Sys)
    requires Next(cfg, s, e, s') && !TouchesAggregator(e)
    ensures s'.agg == s.agg && s'.history == s.history
  {}

  lemma CompletionIsSane(a: Agg, id: u64, now: int)
    requires id in a.jobs && forall other :: other in a.jobs && other != id ==> a.jobs[other].core.remaining != 0
    ensures Unfinished(FinishIfComplete(a, id, now)) && FinishIfComplete(a, id, now).kept == a.kept
  {}

  lemma SubmitIsSane(w: Workload, a: Agg, conn: int, ended: bool, spec: JobSpec, now: int)
    requires Unfinished(a)
    ensures var b := Submit(w, a, conn, ended, spec, now); Unfinished(b) && b.kept == a.kept
  {
    if spec.id !in a.results {
      hide FinishIfComplete;
      CompletionIsSane(Attach(Register(w, a, spec), spec.id, conn, ended, now), spec.id, now);
    }
  }

  lemma ResultIsSane(w: Workload, a: Agg, tid: TaskID, p: Partial, now: int)
    requires Unfinished(a)
    ensures var b := TakeResult(w, a, tid, p, now); Unfinished(b) && b.kept == a.kept
  {
    if Accepts(a, tid) {
      hide FinishIfComplete;
      CompletionIsSane(Count(w, a, tid, p), tid.job, now);
    }
  }

  lemma SubmitStepIsSane(cfg: Config, s: Sys, conn: int, now: int, s': Sys)
    requires Sane(s) && SubmitStep(cfg, s, conn, now, s')
    ensures Sane(s')
  {
    hide Submit, WellFormed, Unfinished, SpecFor, SubmitRecords;
    var spec, ended := SpecFor(cfg, s.chunkSize, s.front.handlers[conn]), conn in s.front.ended;
    SubmitIsReplay(cfg.w, s.agg, conn, ended, spec, now);
    ApplyAllKeepsWellFormed(cfg.w, CoreOf(s.agg), SubmitRecords(cfg.w, s.agg, spec));
    SubmitIsSane(cfg.w, s.agg, conn, ended, spec, now);
  }

  lemma ForwardIsSane(cfg: Config, s: Sys, e: Event, s': Sys)
    requires Sane(s) && e.Forwarded? && WorkerStep(cfg, s, e, s')
    ensures Sane(s')
  {
    hide TakeResult, WellFormed, Unfinished, ResultRecords;
    var (tid, p) := s.workers[e.conn].hand.value;
    TakeResultIsReplay(cfg.w, s.agg, tid, p, e.now);
    ApplyAllKeepsWellFormed(cfg.w, CoreOf(s.agg), ResultRecords(cfg.w, s.agg, tid, p));
    ResultIsSane(cfg.w, s.agg, tid, p, e.now);
  }

  lemma AggregatorStepIsSane(cfg: Config, s: Sys, e: Event, s': Sys)
    requires Sane(s) && AggregatorStep(cfg, s, e, s')
    ensures Sane(s')
  {
    match e
    case Noticed(conn, now) => ClientGoneKeepsCore(s.agg, conn, now);
    case Dropped(id, now) =>
      FinishIsReplay(cfg.w, s.agg, id, false, now);
      ApplyKeepsWellFormed(cfg.w, CoreOf(s.agg), JobDrop(id));
    case Expired(id, _) =>
      ExpireIsReplay(cfg.w, s.agg, id);
      ApplyKeepsWellFormed(cfg.w, CoreOf(s.agg), JobDrop(id));
    case Compacts(_) =>
  }

  lemma CrashIsSane(cfg: Config, s: Sys, e: Event, s': Sys)
    requires e.Crash? && CrashStep(cfg, s, e, s')
    ensures Sane(s')
  {
    hide WellFormed, Resumed, CancelsSound, Compacted;
    var disk := s.agg.log[..e.cut];
    ReplayKeepsWellFormed(cfg.w, disk);
    FinaliseKeepsWellFormed(Replay(cfg.w, disk));
    RecoveredIsUnfinished(cfg.w, disk, e.now, e.answered, e.running, s'.agg);
  }

  lemma RecoveredIsUnfinished(w: Workload, disk: seq<Record>, now: int, answered: seq<u64>, running: seq<u64>, a: Agg)
    requires Recovered(w, disk, now, answered, running, a)
    ensures Unfinished(a)
  {
    forall id | id in a.jobs ensures a.jobs[id].core.remaining != 0 {
      assert id in CoreOf(a).jobs;
    }
  }

  lemma StepIsSane(cfg: Config, s: Sys, e: Event, s': Sys)
    requires Sane(s) && Next(cfg, s, e, s')
    ensures Sane(s')
  {
    hide Sane, SubmitStep, WorkerStep, AggregatorStep, FrontStep, FeedStep, CrashStep;
    if e.Submitted? {
      SubmitStepIsSane(cfg, s, e.conn, e.now, s');
    } else if e.Forwarded? {
      ForwardIsSane(cfg, s, e, s');
    } else if e.Crash? {
      CrashIsSane(cfg, s, e, s');
    } else if TouchesAggregator(e) {
      AggregatorStepIsSane(cfg, s, e, s');
    } else {
      OtherStepsLeaveTheAggregator(cfg, s, e, s');
      SameIsSane(s, s');
    }
  }

  lemma SameIsSane(s: Sys, s': Sys)
    requires Sane(s) && s'.agg == s.agg
    ensures Sane(s')
  {}

  lemma InitIsSane(s: Sys)
    requires Init(s)
    ensures Sane(s)
  {}

  lemma {:induction false} SaneHolds(cfg: Config, states: seq<Sys>, events: seq<Event>, i: nat)
    requires Run(cfg, states, events) && i < |states|
    ensures Sane(states[i])
  {
    hide Sane, Next;
    if i == 0 {
      InitIsSane(states[0]);
    } else {
      SaneHolds(cfg, states, events, i - 1);
      StepIsSane(cfg, states[i - 1], events[i - 1], states[i]);
    }
  }

  /** The aggregator's own invariant, in every state of every run. */
  lemma AggregatorInvariant(cfg: Config, states: seq<Sys>, events: seq<Event>, i: nat, id: u64)
    requires Run(cfg, states, events) && i < |states|
    ensures var a := states[i].agg;
            && (forall t :: t in a.done ==> t.job in a.jobs && t.idx < a.jobs[t.job].core.spec.n)
            && !(id in a.jobs && id in a.results)
            && (id in a.jobs ==>
                  var j := a.jobs[id].core;
                  j.spec.id == id && j.remaining == j.spec.n - |Counted(a.done, id)| && j.remaining > 0)
  {
    SaneHolds(cfg, states, events, i);
    hide Run;
    var a := states[i].agg;
    var c := CoreOf(a);
    assert forall x :: x in a.jobs ==> x in c.jobs && c.jobs[x] == a.jobs[x].core;
    assert forall x :: x in a.results ==> x in c.results;
    if id in a.jobs { RemainingIsUncounted(c, id); }
  }
}
