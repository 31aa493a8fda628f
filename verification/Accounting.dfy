/**
 Conservation of chunks: what was recovered and what is merged afterwards add up
 to the job.
 */
module Accounting {
  import opened Base
  import opened Workloads
  import opened Jobs
  import opened Journal
  import opened Aggregation
  import opened Workers
  import opened Scheduler
  import opened AggregatorRuns
  import opened NoTaskLost

  /** This step merges a chunk of job id. */
  predicate Merges(s: Sys, e: Event, id: u64) {
    && e.Forwarded? && e.conn in s.workers && s.workers[e.conn].hand.Some?
    && s.workers[e.conn].hand.value.0.job == id && Accepts(s.agg, s.workers[e.conn].hand.value.0)
  }

  /** How many chunks of job id the steps from..till merge. */
  function Merged(states: seq<Sys>, events: seq<Event>, id: u64, from: nat, till: nat): nat
    requires from <= till <= |events| <= |states|
    decreases till
  {
    if from == till then 0
    else Merged(states, events, id, from, till - 1) + if Merges(states[till - 1], events[till - 1], id) then 1 else 0
  }

  /** What happens to a running job in one step. */
  ghost predicate Accounted(a: Agg, merges: bool, b: Agg, id: u64)
    requires id in a.jobs
  {
    && (id in b.jobs ==> b.jobs[id].core.spec == a.jobs[id].core.spec
                         && b.jobs[id].core.remaining == a.jobs[id].core.remaining - if merges then 1 else 0)
    && (id !in b.jobs && id in b.results ==> merges && a.jobs[id].core.remaining == 1)
  }

  lemma CompletionAccounts(a: Agg, other: u64, now: int, id: u64)
    requires id in a.jobs && other in a.jobs && id !in a.results
    ensures var b := FinishIfComplete(a, other, now);
            && (id in b.jobs ==> b.jobs[id].core == a.jobs[id].core)
            && (id !in b.jobs ==> other == id && a.jobs[id].core.remaining == 0)
            && (id in b.jobs ==> id !in b.results)
  {}

  lemma SubmitAccounts(w: Workload, a: Agg, conn: int, ended: bool, spec: JobSpec, now: int, id: u64)
    requires Unfinished(a) && id in a.jobs && id !in a.results
    ensures Accounted(a, false, Submit(w, a, conn, ended, spec, now), id)
  {
    if spec.id !in a.results {
      var t := Attach(Register(w, a, spec), spec.id, conn, ended, now);
      assert id in t.jobs && t.jobs[id].core == a.jobs[id].core && t.results == a.results;
      hide FinishIfComplete, Attach, Register;
      CompletionAccounts(t, spec.id, now, id);
    }
  }

  lemma ResultAccounts(w: Workload, a: Agg, tid: TaskID, p: Partial, now: int, id: u64)
    requires id in a.jobs && id !in a.results
    ensures Accounted(a, tid.job == id && Accepts(a, tid), TakeResult(w, a, tid, p, now), id)
  {
    if Accepts(a, tid) {
      var t := Count(w, a, tid, p);
      assert id in t.jobs && t.results == a.results && (tid.job != id ==> t.jobs[id] == a.jobs[id]);
      hide FinishIfComplete;
      CompletionAccounts(t, tid.job, now, id);
    }
  }

  lemma AggregatorAccounts(cfg: Config, s: Sys, e: Event, s': Sys, id: u64)
    requires id in s.agg.jobs && id !in s.agg.results && AggregatorStep(cfg, s, e, s')
    ensures Accounted(s.agg, false, s'.agg, id)
  {}

  lemma RunningIsNotAnswered(s: Sys, id: u64)
    requires Sane(s) && id in s.agg.jobs
    ensures id !in s.agg.results
  {
    assert id in CoreOf(s.agg).jobs;
    assert id in s.agg.results ==> id in CoreOf(s.agg).results;
  }

  lemma SubmitStepAccounts(cfg: Config, s: Sys, conn: int, now: int, s': Sys, id: u64)
    requires Sane(s) && id in s.agg.jobs && id !in s.agg.results && SubmitStep(cfg, s, conn, now, s')
    ensures Accounted(s.agg, false, s'.agg, id)
  {
    hide Submit, Accounted, SpecFor;
    SubmitAccounts(cfg.w, s.agg, conn, conn in s.front.ended, SpecFor(cfg, s.chunkSize, s.front.handlers[conn]), now, id);
  }

  lemma ForwardAccounts(cfg: Config, s: Sys, e: Event, s': Sys, id: u64)
    requires id in s.agg.jobs && id !in s.agg.results && e.Forwarded? && WorkerStep(cfg, s, e, s')
    ensures Accounted(s.agg, Merges(s, e, id), s'.agg, id)
  {
    hide TakeResult, Accounted;
    var (tid, p) := s.workers[e.conn].hand.value;
    ResultAccounts(cfg.w, s.agg, tid, p, e.now, id);
  }

  lemma StepAccounts(cfg: Config, s: Sys, e: Event, s': Sys, id: u64)
    requires Sane(s) && id in s.agg.jobs && Next(cfg, s, e, s') && !e.Crash?
    ensures Accounted(s.agg, Merges(s, e, id), s'.agg, id)
  {
    hide Sane, SubmitStep, WorkerStep, AggregatorStep, FrontStep, FeedStep, Accounted, Accepts;
    RunningIsNotAnswered(s, id);
    if e.Submitted? {
      SubmitStepAccounts(cfg, s, e.conn, e.now, s', id);
    } else if e.Forwarded? {
      ForwardAccounts(cfg, s, e, s', id);
    } else if TouchesAggregator(e) {
      AggregatorAccounts(cfg, s, e, s', id);
    } else {
      OtherStepsLeaveTheAggregator(cfg, s, e, s');
      SameAccounts(s.agg, id);
    }
  }

  lemma SameAccounts(a: Agg, id: u64)
    requires id in a.jobs && id !in a.results
    ensures Accounted(a, false, a, id)
  {}

  /** Job id runs from state from through state till, within one process. */
  ghost predicate RunsThrough(states: seq<Sys>, events: seq<Event>, id: u64, from: nat, till: nat)
    requires from <= till < |states| == |events| + 1
  {
    && (forall i :: from <= i <= till ==> id in states[i].agg.jobs)
    && (forall i :: from <= i < till ==> !events[i].Crash?)
  }

  lemma LivesAtFirst(states: seq<Sys>, events: seq<Event>, id: u64, from: nat, till: nat)
    requires from <= till < |states| == |events| + 1 && RunsThrough(states, events, id, from, till)
    ensures id in states[from].agg.jobs
  {}

  lemma {:induction false} RemainingFalls(cfg: Config, states: seq<Sys>, events: seq<Event>, id: u64, from: nat, till: nat)
    requires Run(cfg, states, events) && from <= till < |states| && RunsThrough(states, events, id, from, till)
    ensures var j, k := states[from].agg.jobs[id].core, states[till].agg.jobs[id].core;
            k.spec == j.spec && k.remaining == j.remaining - Merged(states, events, id, from, till)
  {
    hide Next, Init, Merges;
    if from < till {
      RemainingFalls(cfg, states, events, id, from, till - 1);
      SaneHolds(cfg, states, events, till - 1);
      StepAccounts(cfg, states[till - 1], events[till - 1], states[till], id);
    }
  }

  /** A job that completes has counted every chunk exactly once, from whatever moment of its life one looks. */
  lemma CountedPlusMergedIsAll(cfg: Config, states: seq<Sys>, events: seq<Event>, id: u64, from: nat, till: nat)
    requires Run(cfg, states, events) && from <= till < |events| && RunsThrough(states, events, id, from, till) && !events[till].Crash?
    requires id !in states[till + 1].agg.jobs && id in states[till + 1].agg.results
    ensures |Counted(states[from].agg.done, id)| + Merged(states, events, id, from, till + 1) == states[from].agg.jobs[id].core.spec.n
  {
    RemainingFalls(cfg, states, events, id, from, till);
    AggregatorInvariant(cfg, states, events, from, id);
    SaneHolds(cfg, states, events, till);
    assert Next(cfg, states[till], events[till], states[till + 1]);
    hide Run, Next, Merges;
    StepAccounts(cfg, states[till], events[till], states[till + 1], id);
  }

  /** After a restart with exact skip sets: the chunks recovered and the chunks merged since add up to the job when it completes. */
  lemma RecoveredPlusMergedIsAll(cfg: Config, states: seq<Sys>, events: seq<Event>, id: u64, crash: nat, till: nat)
    requires Run(cfg, states, events) && ExactCrashes(cfg, states, events)
    requires crash < till < |events| && events[crash].Crash? && RunsThrough(states, events, id, crash + 1, till) && !events[till].Crash?
    requires id !in states[till + 1].agg.jobs && id in states[till + 1].agg.results
    ensures events[crash].cut <= |states[crash].agg.log|
    ensures var n := states[crash + 1].agg.jobs[id].core.spec.n;
            |Skipped(cfg.w, states[crash].agg.log[..events[crash].cut], id, n)| + Merged(states, events, id, crash + 1, till + 1) == n
  {
    hide Next, Init, CrashStep, SkipIsExact, Skipped, Counted, Merged, RunsThrough;
    RunStep(cfg, states, events, crash);
    CountedPlusMergedIsAll(cfg, states, events, id, crash + 1, till);
    LivesAtFirst(states, events, id, crash + 1, till);
    RecoveredIsSkipped(cfg, states[crash], events[crash], states[crash + 1], id);
  }

  lemma RecoveredIsSkipped(cfg: Config, s: Sys, e: Event, s': Sys, id: u64)
    requires e.Crash? && CrashStep(cfg, s, e, s') && SkipIsExact(cfg.w, s.agg.log[..e.cut]) && id in s'.agg.jobs
    ensures Skipped(cfg.w, s.agg.log[..e.cut], id, s'.agg.jobs[id].core.spec.n) == Counted(s'.agg.done, id)
  {
    hide Skipped, Resumed, CancelsSound, Compacted;
    assert CoreOf(s'.agg).jobs[id] == s'.agg.jobs[id].core;
  }
}
