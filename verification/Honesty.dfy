/**
 Records that tell the truth, and the states they lead to.

 A job ID names one request for good. Within one server process it also names
 one split, because a late result is matched by its task ID alone.
 */
module Honesty {
  import opened Base
  import opened Workloads
  import opened Jobs
  import opened Journal

  datatype Request = Request(lo: u64, hi: u64, msg: Message)

  type Naming = u64 -> Request

  /** The sequential answer to the request an ID names. */
  function Expected(w: Workload, names: Naming, id: u64): Partial {
    w.compute(names(id).msg, names(id).lo, names(id).hi)
  }

  ghost predicate HonestSpecs(names: Naming, specs: map<u64, JobSpec>) {
    forall id :: id in specs ==>
      && specs[id].id == id
      && names(id) == Request(specs[id].lo, specs[id].hi, specs[id].msg)
      && Partitioned(specs[id])
  }

  ghost predicate HonestRecord(w: Workload, names: Naming, specs: map<u64, JobSpec>, r: Record) {
    match r
    case JobStart(id, _, _, _, _, _) => id in specs && specs[id] == SpecOf(r)
    case ChunkDone(id, idx, hash, nonce) =>
      id in specs && idx < specs[id].n && Partial(hash, nonce) == ChunkAnswer(w, specs[id], idx)
    case JobDone(id, hash, nonce) => Partial(hash, nonce) == Expected(w, names, id)
    case JobDrop(_) => true
  }

  ghost predicate HonestLog(w: Workload, names: Naming, specs: map<u64, JobSpec>, log: seq<Record>) {
    forall r :: r in log ==> HonestRecord(w, names, specs, r)
  }

  /** Every accumulator is the merge of exactly the counted chunks; every stored answer is right. */
  ghost predicate HonestCore(w: Workload, names: Naming, specs: map<u64, JobSpec>, c: Core) {
    && WellFormed(c)
    && (forall id :: id in c.jobs ==>
          && id in specs && c.jobs[id].spec == specs[id]
          && c.jobs[id].acc == Acc(w, specs[id], Counted(c.done, id), specs[id].n))
    && (forall id :: id in c.results ==> c.results[id] == Expected(w, names, id))
  }

  lemma HonestStart(w: Workload, names: Naming, specs: map<u64, JobSpec>, c: Core, r: Record)
    requires HonestCore(w, names, specs, c) && HonestRecord(w, names, specs, r) && r.JobStart?
    ensures HonestCore(w, names, specs, Apply(w, c, r))
  {
    ApplyKeepsWellFormed(w, c, r);
    if r.job !in c.jobs {
      NotRunningNotCounted(c, r.job);
      AccEmpty(w, SpecOf(r), r.n);
    }
  }

  lemma HonestChunk(w: Workload, names: Naming, specs: map<u64, JobSpec>, c: Core, r: Record)
    requires Lawful(w)
    requires HonestCore(w, names, specs, c) && HonestRecord(w, names, specs, r) && Counts(c, r)
    ensures HonestCore(w, names, specs, Apply(w, c, r))
  {
    ApplyKeepsWellFormed(w, c, r);
    CountedInsert(c.done, r.job, r.idx);
    CountedMember(c.done, r.job, r.idx);
    AccInsert(w, specs[r.job], Counted(c.done, r.job), r.idx, specs[r.job].n);
  }

  lemma HonestApply(w: Workload, names: Naming, specs: map<u64, JobSpec>, c: Core, r: Record)
    requires Lawful(w)
    requires HonestCore(w, names, specs, c) && HonestRecord(w, names, specs, r)
    ensures HonestCore(w, names, specs, Apply(w, c, r))
  {
    match r
    case JobStart(_, _, _, _, _, _) => HonestStart(w, names, specs, c, r);
    case ChunkDone(_, _, _, _) => if Counts(c, r) { HonestChunk(w, names, specs, c, r); }
    case JobDone(id, _, _) => ApplyKeepsWellFormed(w, c, r); CountedForget(c, id);
    case JobDrop(id) => ApplyKeepsWellFormed(w, c, r); CountedForget(c, id);
  }

  lemma {:induction false} HonestApplyAll(w: Workload, names: Naming, specs: map<u64, JobSpec>, c: Core, recs: seq<Record>)
    requires Lawful(w)
    requires HonestCore(w, names, specs, c) && HonestLog(w, names, specs, recs)
    ensures HonestCore(w, names, specs, ApplyAll(w, c, recs))
  {
    if recs != [] {
      var front, last := recs[..|recs| - 1], recs[|recs| - 1];
      assert forall r :: r in front ==> r in recs;
      assert last in recs;
      HonestApplyAll(w, names, specs, c, front);
      HonestApply(w, names, specs, ApplyAll(w, c, front), last);
    }
  }

  /** A job with nothing remaining holds the sequential answer. */
  lemma CompletedIsExpected(w: Workload, names: Naming, specs: map<u64, JobSpec>, c: Core, id: u64)
    requires Lawful(w) && HonestSpecs(names, specs) && HonestCore(w, names, specs, c)
    requires id in c.jobs && c.jobs[id].remaining == 0
    ensures c.jobs[id].acc == Expected(w, names, id)
  {
    RemainingIsUncounted(c, id);
    AccComplete(w, specs[id], Counted(c.done, id));
  }

  lemma HonestFinalise(w: Workload, names: Naming, specs: map<u64, JobSpec>, c: Core)
    requires Lawful(w) && HonestSpecs(names, specs) && HonestCore(w, names, specs, c)
    ensures HonestCore(w, names, specs, Finalise(c))
  {
    FinaliseKeepsWellFormed(c);
    forall id | id in Finalise(c).jobs ensures Counted(Finalise(c).done, id) == Counted(c.done, id) {
      FinaliseKeepsCounted(c, id);
    }
    forall id | id in c.jobs && c.jobs[id].remaining == 0 ensures c.jobs[id].acc == Expected(w, names, id) {
      CompletedIsExpected(w, names, specs, c, id);
    }
  }

  lemma LogGrows(w: Workload, names: Naming, specs: map<u64, JobSpec>, log: seq<Record>, recs: seq<Record>)
    requires HonestLog(w, names, specs, log) && HonestLog(w, names, specs, recs)
    ensures HonestLog(w, names, specs, log + recs)
  {}

  lemma {:induction false} SnapshotIsHonest(w: Workload, names: Naming, specs: map<u64, JobSpec>, results: map<u64, Partial>, order: seq<u64>)
    requires forall id :: id in order ==> id in results
    requires forall id :: id in results ==> results[id] == Expected(w, names, id)
    ensures HonestLog(w, names, specs, Snapshot(results, order))
  {
    if order != [] {
      assert order[|order| - 1] in order;
      SnapshotIsHonest(w, names, specs, results, order[..|order| - 1]);
    }
  }

  lemma {:induction false} LivesAreHonest(w: Workload, names: Naming, specs: map<u64, JobSpec>, prior: map<u64, JobSpec>, disk: seq<Record>, c: Core, order: seq<u64>)
    requires forall id :: id in order ==> id in c.jobs
    requires forall id :: id in c.jobs ==> id in specs && id in prior && specs[id] == prior[id] == c.jobs[id].spec && specs[id].id == id
    requires HonestLog(w, names, prior, disk)
    ensures HonestLog(w, names, specs, Lives(w, disk, c, order))
  {
    if order != [] {
      var id := order[|order| - 1];
      assert id in order;
      LivesAreHonest(w, names, specs, prior, disk, c, order[..|order| - 1]);
      ChunksAreOfJob(w, disk, id);
    }
  }

  lemma CompactedIsHonest(w: Workload, names: Naming, specs: map<u64, JobSpec>, prior: map<u64, JobSpec>, disk: seq<Record>,
                          answered: seq<u64>, running: seq<u64>)
    requires HonestLog(w, names, prior, disk)
    requires var c := Finalise(Replay(w, disk));
             && Lists(answered, c.results.Keys) && Lists(running, c.jobs.Keys)
             && HonestCore(w, names, specs, c) && HonestCore(w, names, prior, c)
    ensures HonestLog(w, names, specs, Compacted(w, disk, answered, running))
  {
    var c := Finalise(Replay(w, disk));
    SnapshotIsHonest(w, names, specs, c.results, answered);
    LivesAreHonest(w, names, specs, prior, disk, c, running);
    LogGrows(w, names, specs, Snapshot(c.results, answered), Lives(w, disk, c, running));
  }

  /** On truthful logs the rewritten log replays to the recovered state if and only if the skip sets are exact. */
  lemma HonestCompactionIffSkipIsExact(w: Workload, names: Naming, specs: map<u64, JobSpec>, log: seq<Record>,
                                       answered: seq<u64>, running: seq<u64>)
    requires Lawful(w) && HonestSpecs(names, specs) && HonestLog(w, names, specs, log)
    requires Lists(answered, Finalise(Replay(w, log)).results.Keys)
    requires Lists(running, Finalise(Replay(w, log)).jobs.Keys)
    ensures Replay(w, Compacted(w, log, answered, running)) == Finalise(Replay(w, log)) <==> SkipIsExact(w, log)
  {
    hide Finalise, HonestLog, SkipIsExact;
    var c := Finalise(Replay(w, log));
    var short := Compacted(w, log, answered, running);
    HonestApplyAll(w, names, specs, EMPTY, log);
    HonestFinalise(w, names, specs, Replay(w, log));
    CompactedIsHonest(w, names, specs, specs, log, answered, running);
    HonestApplyAll(w, names, specs, EMPTY, short);
    CompactedRepeats(w, log, answered, running);
    CompactionCountsIffSkipIsExact(w, log, answered, running);
    if SkipIsExact(w, log) { DoneDecides(w, names, specs, Replay(w, short), c); }
  }

  /** Truthful states with the same splits, answers and done entries are the same. */
  lemma DoneDecides(w: Workload, names: Naming, specs: map<u64, JobSpec>, d: Core, c: Core)
    requires HonestCore(w, names, specs, c) && HonestCore(w, names, specs, d)
    requires d.jobs.Keys == c.jobs.Keys && d.done == c.done && d.results == c.results
    ensures d == c
  {
    assert d.jobs == c.jobs;
  }

  /** Whatever order the maps are walked in. */
  lemma HonestlyCompactsIff(w: Workload, names: Naming, specs: map<u64, JobSpec>, log: seq<Record>)
    requires Lawful(w) && HonestSpecs(names, specs) && HonestLog(w, names, specs, log)
    ensures CompactsExactly(w, log) <==> SkipIsExact(w, log)
  {
    hide HonestSpecs, HonestLog, SkipIsExact, Finalise;
    var c := Finalise(Replay(w, log));
    if SkipIsExact(w, log) {
      forall answered, running | Lists(answered, c.results.Keys) && Lists(running, c.jobs.Keys)
        ensures Replay(w, Compacted(w, log, answered, running)) == c
      {
        HonestCompactionIffSkipIsExact(w, names, specs, log, answered, running);
      }
    } else {
      InexactMiscompacts(w, log);
    }
  }
}
