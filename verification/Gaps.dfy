/**
 `forget` does not clear the list of counted chunks kept for compaction, so a
 job that is started again may be resumed with chunks left out. Here is when.
 */
module Gaps {
  import opened Base
  import opened Workloads
  import opened Jobs
  import opened Journal
  import opened Honesty
  import opened Aggregation
  import opened Workers
  import opened Scheduler
  import opened NoTaskLost

  /** A chunk counted in the current life is always listed. */
  lemma {:induction false} CountedAreListed(w: Workload, log: seq<Record>, id: u64, i: u32)
    requires TaskID(id, i) in Replay(w, log).done
    ensures i in Indices(Chunks(w, log, id))
  {
    var front, last := log[..|log| - 1], log[|log| - 1];
    if TaskID(id, i) in Replay(w, front).done {
      CountedAreListed(w, front, id, i);
      if last.ChunkDone? { IndicesAppend(Chunks(w, front, id), last); }
    } else {
      IndicesAppend(Chunks(w, front, id), last);
    }
  }

  /** A chunk that is owed after a restart cannot be one that its feeder skips. */
  lemma OwedIsNotSkipped(w: Workload, disk: seq<Record>, s: Sys, id: u64, i: u32)
    requires NoneLost(s) && Owed(s.agg, id, i)
    requires Resumed(w, disk, s.agg, s.feeders) && s.nq == [] && s.pq == [] && s.workers == map[]
    ensures i !in Skipped(w, disk, id, s.agg.jobs[id].core.spec.n)
  {
    assert Safe(s, id, i);
  }

  lemma SkippedIffCounted(w: Workload, disk: seq<Record>, s: Sys, id: u64, i: u32)
    requires NoneLost(s) && s.agg.done == Finalise(Replay(w, disk)).done && WellFormed(CoreOf(s.agg))
    requires Resumed(w, disk, s.agg, s.feeders) && s.nq == [] && s.pq == [] && s.workers == map[]
    requires id in s.agg.jobs
    ensures i in Skipped(w, disk, id, s.agg.jobs[id].core.spec.n) <==> i in Counted(s.agg.done, id)
  {
    CountedMember(s.agg.done, id, i);
    assert CoreOf(s.agg).jobs[id] == s.agg.jobs[id].core;
    if TaskID(id, i) in s.agg.done {
      CountedAreListed(w, disk, id, i);
    } else if i < s.agg.jobs[id].core.spec.n {
      OwedIsNotSkipped(w, disk, s, id, i);
    }
  }

  lemma NothingLostSkipsExactly(w: Workload, disk: seq<Record>, s: Sys)
    requires NoneLost(s) && CoreOf(s.agg) == Finalise(Replay(w, disk))
    requires Resumed(w, disk, s.agg, s.feeders) && s.nq == [] && s.pq == [] && s.workers == map[]
    ensures SkipIsExact(w, disk)
  {
    hide NoneLost, Resumed, Chunks;
    var c := Finalise(Replay(w, disk));
    ApplyAllKeepsWellFormed(w, EMPTY, disk);
    FinaliseKeepsWellFormed(Replay(w, disk));
    forall id | id in c.jobs ensures Skipped(w, disk, id, c.jobs[id].spec.n) == Counted(c.done, id) {
      assert id in s.agg.jobs && c.jobs[id] == s.agg.jobs[id].core;
      forall i: u32 ensures i in Skipped(w, disk, id, c.jobs[id].spec.n) <==> i in Counted(c.done, id) {
        SkippedIffCounted(w, disk, s, id, i);
      }
    }
  }

  /** After a restart nothing is lost if and only if every skip set is exact. */
  lemma RestartLosesNothingIff(cfg: Config, s: Sys, e: Event, s': Sys)
    requires e.Crash? && CrashStep(cfg, s, e, s')
    ensures NoneLost(s') <==> SkipIsExact(cfg.w, s.agg.log[..e.cut])
  {
    var disk := s.agg.log[..e.cut];
    if SkipIsExact(cfg.w, disk) { ExactSkipsLoseNothing(cfg.w, disk, s'); }
    if NoneLost(s') { NothingLostSkipsExactly(cfg.w, disk, s'); }
  }

  /** A crash right after a record that restarts a counted job loses one of its chunks. */
  lemma UncleanCrashLoses(cfg: Config, s: Sys, e: Event, s': Sys)
    requires e.Crash? && CrashStep(cfg, s, e, s')
    requires e.cut > 0 && Restarts(cfg.w, s.agg.log, e.cut - 1)
    ensures !NoneLost(s')
  {
    RestartLosesNothingIff(cfg, s, e, s');
    RestartIsInexact(cfg.w, s.agg.log, e.cut - 1);
  }

  /** Started, one chunk counted, dropped, and started again. */
  function RestartedLog(s: JobSpec, p: Partial): seq<Record> {
    [StartOf(s), ChunkDone(s.id, 0, p.hash, p.nonce), JobDrop(s.id), StartOf(s)]
  }

  /** The shortest log that shows it: chunk 0 is neither counted nor fed again. */
  lemma RestartedLogForgets(w: Workload, s: JobSpec, p: Partial)
    requires s.n > 0
    ensures var log := RestartedLog(s, p);
            && Restarts(w, log, 3)
            && s.id in Finalise(Replay(w, log)).jobs
            && TaskID(s.id, 0) !in Finalise(Replay(w, log)).done
            && TaskOf(s, 0) !in Unfed(s, Indices(Chunks(w, log, s.id)), 0)
  {
    var log := RestartedLog(s, p);
    var id, chunk := s.id, log[1];
    assert Replay(w, []) == EMPTY && Chunks(w, [], id) == [];
    hide Replay, Chunks;
    var one := [log[0]];
    var two := one + [chunk];
    var three := two + [log[2]];
    assert log[..3] == three && log == three + [log[3]];
    ReplaySnoc(w, [], log[0], id);
    ReplaySnoc(w, one, chunk, id);
    ReplaySnoc(w, two, log[2], id);
    ReplaySnoc(w, three, log[3], id);
    assert Counts(Replay(w, one), chunk);
    assert chunk in Chunks(w, three, id) && chunk in Chunks(w, log, id);
    assert 0 in Indices(Chunks(w, three, id)) && 0 in Indices(Chunks(w, log, id));
    assert 0 in Skipped(w, three, id, s.n);
    assert Restarts(w, log, 3);
    RestartIsInexact(w, log, 3);
    assert log[..4] == log;
    CountedMember(Finalise(Replay(w, log)).done, id, 0);
    UnfedIsExact(s, Indices(Chunks(w, log, id)), 0);
  }

  lemma ReplaySnoc(w: Workload, log: seq<Record>, r: Record, id: u64)
    ensures Replay(w, log + [r]) == Apply(w, Replay(w, log), r)
    ensures Chunks(w, log + [r], id)
         == if r.ChunkDone? && r.job == id && Counts(Replay(w, log), r) then Chunks(w, log, id) + [r] else Chunks(w, log, id)
  {
    assert (log + [r])[..|log + [r]| - 1] == log;
  }

  /** Over whole runs: nothing is ever lost if and only if every crash finds exact skip sets. */
  lemma NothingLostIff(cfg: Config, states: seq<Sys>, events: seq<Event>)
    requires Run(cfg, states, events)
    ensures (forall k :: 0 <= k < |states| ==> NoneLost(states[k])) <==> ExactCrashes(cfg, states, events)
  {
    hide Next, Init, NoneLost, SkipIsExact, CrashStep;
    if ExactCrashes(cfg, states, events) {
      forall k | 0 <= k < |states| ensures NoneLost(states[k]) {
        KeptHolds(cfg, states, events, k);
        KeptLosesNothing(states[k]);
      }
    }
    if forall k :: 0 <= k < |states| ==> NoneLost(states[k]) {
      forall i | 0 <= i < |events| && events[i].Crash? && events[i].cut <= |states[i].agg.log|
        ensures SkipIsExact(cfg.w, states[i].agg.log[..events[i].cut])
      {
        RunStep(cfg, states, events, i);
        RestartLosesNothingIff(cfg, states[i], events[i], states[i + 1]);
      }
    }
  }

  lemma KeptLosesNothing(s: Sys)
    requires Kept(s)
    ensures NoneLost(s)
  {}
}
