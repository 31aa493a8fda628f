/**
 The record level of the write-ahead log: what a log means, and when the
 compacted log and the skip sets built from it mean the same.
 */
module Journal {
  import opened Base
  import opened Workloads
  import opened Jobs

  datatype Record =
    | JobStart(job: u64, lo: u64, hi: u64, size: u64, n: u32, msg: Message)
    | ChunkDone(job: u64, idx: u32, hash: u64, nonce: u64)
    | JobDone(job: u64, hash: u64, nonce: u64)
    | JobDrop(job: u64)

  /** The part of a job that the log determines. */
  datatype JobCore = JobCore(spec: JobSpec, remaining: int, acc: Partial)

  /** The part of the aggregator's state that the log determines. */
  datatype Core = Core(jobs: map<u64, JobCore>, done: set<TaskID>, results: map<u64, Partial>)

  const EMPTY := Core(map[], {}, map[])

  function SpecOf(r: Record): JobSpec
    requires r.JobStart?
  {
    JobSpec(r.job, r.lo, r.hi, r.size, r.n, r.msg)
  }

  function StartOf(s: JobSpec): Record {
    JobStart(s.id, s.lo, s.hi, s.size, s.n, s.msg)
  }

  // ------------------------------------------------------------------- replay

  /** Is this chunk record one that counts in state c? */
  predicate Counts(c: Core, r: Record) {
    r.ChunkDone? && r.job in c.jobs && r.idx < c.jobs[r.job].spec.n && TaskID(r.job, r.idx) !in c.done
  }

  /** Remove a running job and the done entries under it. */
  function Forget(c: Core, id: u64): Core {
    if id !in c.jobs then c
    else c.(jobs := c.jobs - {id}, done := c.done - Under(id, c.jobs[id].spec.n))
  }

  /** The done entries a job of n tasks can have. */
  function Under(id: u64, n: u32): set<TaskID> {
    set i: u32 | 0 <= i < n :: TaskID(id, i)
  }

  function Apply(w: Workload, c: Core, r: Record): Core {
    match r
    case JobStart(id, _, _, _, n, _) =>
      if id in c.jobs then c
      else Core(c.jobs[id := JobCore(SpecOf(r), n, w.zero)], c.done, c.results - {id})
    case ChunkDone(id, idx, hash, nonce) =>
      if !Counts(c, r) then c
      else
        var j := c.jobs[id];
        Core(c.jobs[id := JobCore(j.spec, j.remaining - 1, w.merge(j.acc, Partial(hash, nonce)))],
             c.done + {TaskID(id, idx)}, c.results)
    case JobDone(id, hash, nonce) =>
      var f := Forget(c, id);
      f.(results := f.results[id := Partial(hash, nonce)])
    case JobDrop(id) =>
      var f := Forget(c, id);
      f.(results := f.results - {id})
  }

  function ApplyAll(w: Workload, c: Core, recs: seq<Record>): Core {
    if recs == [] then c
    else Apply(w, ApplyAll(w, c, recs[..|recs| - 1]), recs[|recs| - 1])
  }

  function Replay(w: Workload, log: seq<Record>): Core { ApplyAll(w, EMPTY, log) }

  /** A job whose last chunk was logged but whose JobDone was not is finished. */
  function Finalise(c: Core): Core {
    Core((map id | id in c.jobs && c.jobs[id].remaining != 0 :: c.jobs[id]),
         (set t | t in c.done && !(t.job in c.jobs && c.jobs[t.job].remaining == 0 && t.idx < c.jobs[t.job].spec.n)),
         c.results + (map id | id in c.jobs && c.jobs[id].remaining == 0 :: c.jobs[id].acc))
  }

  /** The indices of job id among the done entries. */
  function Counted(done: set<TaskID>, id: u64): set<u32> {
    set t | t in done && t.job == id :: t.idx
  }

  /** What every replayed state satisfies, whatever the log holds. */
  ghost predicate WellFormed(c: Core) {
    && (forall t :: t in c.done ==> t.job in c.jobs && t.idx < c.jobs[t.job].spec.n)
    && (forall id :: id in c.jobs ==> id !in c.results)
    && (forall id :: id in c.jobs ==> c.jobs[id].spec.id == id)
    && (forall id :: id in c.jobs ==> c.jobs[id].remaining == c.jobs[id].spec.n - |Counted(c.done, id)|)
  }

  lemma CountedMember(done: set<TaskID>, id: u64, i: u32)
    ensures i in Counted(done, id) <==> TaskID(id, i) in done
  {
    assert TaskID(id, i) in done ==> TaskID(id, i).idx in Counted(done, id);
  }

  lemma CountedInsert(done: set<TaskID>, id: u64, idx: u32)
    ensures Counted(done + {TaskID(id, idx)}, id) == Counted(done, id) + {idx}
    ensures forall other | other != id :: Counted(done + {TaskID(id, idx)}, other) == Counted(done, other)
  {
    var bigger := done + {TaskID(id, idx)};
    assert forall i :: i in Counted(done, id) + {idx} ==> TaskID(id, i) in bigger;
    forall other | other != id ensures Counted(bigger, other) == Counted(done, other) {
      assert forall t :: t in bigger && t.job == other ==> t in done;
    }
  }

  lemma CountedForget(c: Core, id: u64)
    requires WellFormed(c)
    ensures Counted(Forget(c, id).done, id) == {}
    ensures forall other | other != id :: Counted(Forget(c, id).done, other) == Counted(c.done, other)
  {
    forall other | other != id ensures Counted(Forget(c, id).done, other) == Counted(c.done, other) {
      assert forall t :: t in c.done && t.job == other ==> t in Forget(c, id).done;
    }
  }

  lemma NotRunningNotCounted(c: Core, id: u64)
    requires WellFormed(c) && id !in c.jobs
    ensures Counted(c.done, id) == {}
  {}

  lemma StartKeepsWellFormed(w: Workload, c: Core, r: Record)
    requires WellFormed(c) && r.JobStart?
    ensures WellFormed(Apply(w, c, r))
  {
    if r.job !in c.jobs { NotRunningNotCounted(c, r.job); }
  }

  lemma ChunkKeepsWellFormed(w: Workload, c: Core, r: Record)
    requires WellFormed(c) && Counts(c, r)
    ensures WellFormed(Apply(w, c, r))
  {
    CountedInsert(c.done, r.job, r.idx);
    CountedMember(c.done, r.job, r.idx);
    hide Counted;
  }

  lemma ForgetKeepsWellFormed(c: Core, id: u64)
    requires WellFormed(c)
    ensures WellFormed(Forget(c, id))
    ensures forall t :: t in Forget(c, id).done ==> t.job != id
  {
    CountedForget(c, id);
  }

  lemma ApplyKeepsWellFormed(w: Workload, c: Core, r: Record)
    requires WellFormed(c)
    ensures WellFormed(Apply(w, c, r))
  {
    match r
    case JobStart(_, _, _, _, _, _) => StartKeepsWellFormed(w, c, r);
    case ChunkDone(_, _, _, _) => if Counts(c, r) { ChunkKeepsWellFormed(w, c, r); }
    case JobDone(id, _, _) => ForgetKeepsWellFormed(c, id);
    case JobDrop(id) => ForgetKeepsWellFormed(c, id);
  }

  lemma {:induction false} ApplyAllKeepsWellFormed(w: Workload, c: Core, recs: seq<Record>)
    requires WellFormed(c)
    ensures WellFormed(ApplyAll(w, c, recs))
  {
    if recs != [] {
      ApplyAllKeepsWellFormed(w, c, recs[..|recs| - 1]);
      ApplyKeepsWellFormed(w, ApplyAll(w, c, recs[..|recs| - 1]), recs[|recs| - 1]);
    }
  }

  lemma ReplayKeepsWellFormed(w: Workload, log: seq<Record>)
    ensures WellFormed(Replay(w, log))
  {
    ApplyAllKeepsWellFormed(w, EMPTY, log);
  }

  /** remaining never underflows, and is zero exactly when every chunk is counted. */
  lemma RemainingIsUncounted(c: Core, id: u64)
    requires WellFormed(c) && id in c.jobs
    ensures 0 <= c.jobs[id].remaining <= c.jobs[id].spec.n
    ensures c.jobs[id].remaining == 0 <==> forall i: u32 :: i < c.jobs[id].spec.n ==> i in Counted(c.done, id)
  {
    CountIsFull(Counted(c.done, id), c.jobs[id].spec.n);
  }

  lemma {:induction false} ApplyAllConcat(w: Workload, c: Core, a: seq<Record>, b: seq<Record>)
    ensures ApplyAll(w, c, a + b) == ApplyAll(w, ApplyAll(w, c, a), b)
  {
    if b == [] {
      assert a + b == a;
    } else {
      var front := b[..|b| - 1];
      assert (a + b)[..|a + b| - 1] == a + front;
      ApplyAllConcat(w, c, a, front);
    }
  }

  /** A state in which no job is out of chunks is its own finalisation. */
  lemma FinaliseIsIdentity(c: Core)
    requires forall id :: id in c.jobs ==> c.jobs[id].remaining != 0
    ensures Finalise(c) == c
  {
    assert Finalise(c).jobs == c.jobs;
    assert Finalise(c).results == c.results;
  }

  lemma FinaliseKeepsCounted(c: Core, id: u64)
    requires WellFormed(c) && id in Finalise(c).jobs
    ensures Counted(Finalise(c).done, id) == Counted(c.done, id)
  {
    assert forall t :: t in c.done && t.job == id ==> t in Finalise(c).done;
  }

  // --------------------------------------------------------------- compaction

  /** `chunks[id]` after replaying the log: never cleared, whatever is forgotten. */
  function Chunks(w: Workload, log: seq<Record>, id: u64): seq<Record> {
    if log == [] then []
    else
      var front, last := log[..|log| - 1], log[|log| - 1];
      if last.ChunkDone? && last.job == id && Counts(Replay(w, front), last) then Chunks(w, front, id) + [last]
      else Chunks(w, front, id)
  }

  function Indices(recs: seq<Record>): set<u32> {
    set r | r in recs && r.ChunkDone? :: r.idx
  }

  /** The indices below n that the feeder of a recovered job of n tasks leaves out. */
  function Skipped(w: Workload, log: seq<Record>, id: u64, n: u32): set<u32> {
    set i | i in Indices(Chunks(w, log, id)) && i < n
  }

  /** Record p starts an ID again that the log forgot after counting one of its chunks. */
  ghost predicate Restarts(w: Workload, log: seq<Record>, p: nat) {
    && p < |log|
    && log[p].JobStart?
    && log[p].job !in Replay(w, log[..p]).jobs
    && Skipped(w, log[..p], log[p].job, log[p].n) != {}
  }

  ghost predicate RestartFree(w: Workload, log: seq<Record>) {
    forall p: nat :: !Restarts(w, log, p)
  }

  lemma RestartFreePrefix(w: Workload, log: seq<Record>, k: nat)
    requires RestartFree(w, log) && k <= |log|
    ensures RestartFree(w, log[..k])
  {
    forall p: nat ensures !Restarts(w, log[..k], p) {
      if p < k {
        assert log[..k][..p] == log[..p];
        assert !Restarts(w, log, p);
      }
    }
  }

  /** The skip set of every running job is exactly its counted indices. */
  ghost predicate SkipIsExact(w: Workload, log: seq<Record>) {
    var c := Replay(w, log);
    forall id :: id in Finalise(c).jobs ==>
      Skipped(w, log, id, c.jobs[id].spec.n) == Counted(Finalise(c).done, id)
  }

  lemma IndicesAppend(recs: seq<Record>, r: Record)
    requires r.ChunkDone?
    ensures Indices(recs + [r]) == Indices(recs) + {r.idx}
  {
    assert forall x :: x in recs + [r] <==> x in recs || x == r;
    assert r in recs + [r];
  }

  lemma OtherRecordKeepsJob(w: Workload, c: Core, r: Record, id: u64)
    requires WellFormed(c) && id in c.jobs && id in Apply(w, c, r).jobs
    requires !(Counts(c, r) && r.job == id)
    ensures Apply(w, c, r).jobs[id] == c.jobs[id]
    ensures (set t | t in Apply(w, c, r).done && t.job == id) == (set t | t in c.done && t.job == id)
    ensures Counted(Apply(w, c, r).done, id) == Counted(c.done, id)
  {
    assert forall t: TaskID :: t.job == id ==> (t in Apply(w, c, r).done <==> t in c.done);
  }

  lemma {:induction false} ChunksOfReplay(w: Workload, log: seq<Record>, id: u64)
    requires RestartFree(w, log) && id in Replay(w, log).jobs
    ensures Skipped(w, log, id, Replay(w, log).jobs[id].spec.n) == Counted(Replay(w, log).done, id)
  {
    var front, last := log[..|log| - 1], log[|log| - 1];
    var c := Replay(w, front);
    RestartFreePrefix(w, log, |log| - 1);
    ApplyAllKeepsWellFormed(w, EMPTY, front);
    if id !in c.jobs {
      NotRunningNotCounted(c, id);
      assert !Restarts(w, log, |log| - 1);
    } else {
      ChunksOfReplay(w, front, id);
      if Counts(c, last) && last.job == id {
        CountedInsert(c.done, id, last.idx);
        IndicesAppend(Chunks(w, front, id), last);
      } else {
        OtherRecordKeepsJob(w, c, last, id);
      }
    }
  }

  lemma RestartFreeSkips(w: Workload, log: seq<Record>)
    requires RestartFree(w, log)
    ensures SkipIsExact(w, log)
  {
    var c := Replay(w, log);
    ApplyAllKeepsWellFormed(w, EMPTY, log);
    forall id | id in Finalise(c).jobs
      ensures Skipped(w, log, id, c.jobs[id].spec.n) == Counted(Finalise(c).done, id)
    {
      ChunksOfReplay(w, log, id);
      FinaliseKeepsCounted(c, id);
    }
  }

  /** Right after a restarting record the job has no done entry but a non-empty skip set. */
  lemma RestartIsInexact(w: Workload, log: seq<Record>, p: nat)
    requires Restarts(w, log, p)
    ensures var c := Replay(w, log[..p + 1]);
            var id := log[p].job;
            && id in Finalise(c).jobs
            && Counted(Finalise(c).done, id) == {}
            && Skipped(w, log[..p + 1], id, c.jobs[id].spec.n) != {}
  {
    var upto := log[..p + 1];
    assert upto[..|upto| - 1] == log[..p];
    var c := Replay(w, upto);
    var id := log[p].job;
    ApplyAllKeepsWellFormed(w, EMPTY, log[..p]);
    NotRunningNotCounted(Replay(w, log[..p]), id);
    ApplyAllKeepsWellFormed(w, EMPTY, upto);
    var i :| i in Skipped(w, log[..p], id, log[p].n);
    FinaliseKeepsCounted(c, id);
  }

  /**
   The feeders of a recovered scheduler leave out exactly the counted chunks,
   wherever the log was cut, if and only if no record restarts a counted job.
   */
  lemma SkipExactIffRestartFree(w: Workload, log: seq<Record>)
    ensures RestartFree(w, log) <==> forall k: nat | k <= |log| :: SkipIsExact(w, log[..k])
  {
    if RestartFree(w, log) {
      forall k: nat | k <= |log| ensures SkipIsExact(w, log[..k]) {
        RestartFreePrefix(w, log, k);
        RestartFreeSkips(w, log[..k]);
      }
    } else {
      var p: nat :| Restarts(w, log, p);
      RestartIsInexact(w, log, p);
      assert !SkipIsExact(w, log[..p + 1]);
    }
  }

  /** order lists every element of keys, once. */
  ghost predicate Lists(order: seq<u64>, keys: set<u64>) {
    && (forall id :: id in order <==> id in keys)
    && (forall a, b :: 0 <= a < b < |order| ==> order[a] != order[b])
  }

  function Snapshot(results: map<u64, Partial>, order: seq<u64>): seq<Record>
    requires forall id :: id in order ==> id in results
  {
    if order == [] then []
    else
      var id := order[|order| - 1];
      Snapshot(results, order[..|order| - 1]) + [JobDone(id, results[id].hash, results[id].nonce)]
  }

  /** The start and the counted chunks of each running job. */
  function Lives(w: Workload, log: seq<Record>, c: Core, order: seq<u64>): seq<Record>
    requires forall id :: id in order ==> id in c.jobs
  {
    if order == [] then []
    else
      var id := order[|order| - 1];
      Lives(w, log, c, order[..|order| - 1]) + ([StartOf(c.jobs[id].spec)] + Chunks(w, log, id))
  }

  /** The rewritten log; Go's map order makes any order of IDs possible. */
  function Compacted(w: Workload, log: seq<Record>, answered: seq<u64>, running: seq<u64>): seq<Record>
    requires Lists(answered, Finalise(Replay(w, log)).results.Keys)
    requires Lists(running, Finalise(Replay(w, log)).jobs.Keys)
  {
    var c := Finalise(Replay(w, log));
    Snapshot(c.results, answered) + Lives(w, log, c, running)
  }

  lemma ListsFront(order: seq<u64>, keys: set<u64>)
    requires Lists(order, keys) && order != []
    ensures Lists(order[..|order| - 1], keys - {order[|order| - 1]})
  {
    var front, last := order[..|order| - 1], order[|order| - 1];
    assert order == front + [last];
    forall id ensures id in front <==> id in keys - {last} {
      if id in front { assert id in order; }
    }
  }

  lemma {:induction false} SnapshotReplays(w: Workload, results: map<u64, Partial>, order: seq<u64>, keys: set<u64>)
    requires Lists(order, keys) && keys <= results.Keys
    ensures var c := ApplyAll(w, EMPTY, Snapshot(results, order));
            && c.jobs == map[] && c.done == {}
            && c.results.Keys == keys
            && forall id :: id in keys ==> c.results[id] == results[id]
  {
    if order == [] {
      assert forall id :: id in keys ==> id in order;
    } else {
      var front, last := order[..|order| - 1], order[|order| - 1];
      ListsFront(order, keys);
      assert last in order;
      SnapshotReplays(w, results, front, keys - {last});
      assert Snapshot(results, order)[..|Snapshot(results, order)| - 1] == Snapshot(results, front);
    }
  }

  /** Chunk records that are out of a fresh job's range are ignored. */
  lemma {:induction false} OutOfRangeIgnored(w: Workload, c: Core, recs: seq<Record>, id: u64)
    requires id in c.jobs
    requires forall r :: r in recs ==> r.ChunkDone? && r.job == id && r.idx >= c.jobs[id].spec.n
    ensures ApplyAll(w, c, recs) == c
  {
    if recs != [] {
      assert recs[|recs| - 1] in recs;
      OutOfRangeIgnored(w, c, recs[..|recs| - 1], id);
    }
  }

  lemma {:induction false} ChunksAreOfJob(w: Workload, log: seq<Record>, id: u64)
    ensures forall r :: r in Chunks(w, log, id) ==> r.ChunkDone? && r.job == id && r in log
  {
    if log != [] {
      var front := log[..|log| - 1];
      ChunksAreOfJob(w, front, id);
      assert forall r :: r in front ==> r in log;
      assert log[|log| - 1] in log;
    }
  }

  /** What replaying one job's life on top of a state without it gives. */
  function WithJob(base: Core, c: Core, id: u64): Core
    requires id in c.jobs
  {
    Core(base.jobs[id := c.jobs[id]], base.done + (set t | t in c.done && t.job == id), base.results)
  }

  lemma {:induction false} LifeReplays(w: Workload, log: seq<Record>, id: u64, base: Core)
    requires RestartFree(w, log) && id in Replay(w, log).jobs
    requires WellFormed(base) && id !in base.jobs && id !in base.results
    ensures ApplyAll(w, base, [StartOf(Replay(w, log).jobs[id].spec)] + Chunks(w, log, id))
         == WithJob(base, Replay(w, log), id)
  {
    var front, last := log[..|log| - 1], log[|log| - 1];
    var c := Replay(w, front);
    RestartFreePrefix(w, log, |log| - 1);
    ApplyAllKeepsWellFormed(w, EMPTY, front);
    if id !in c.jobs {
      LifeBegins(w, log, id, base);
    } else {
      LifeReplays(w, front, id, base);
      if Counts(c, last) && last.job == id {
        LifeCounts(w, base, c, last);
        var before := [StartOf(c.jobs[id].spec)] + Chunks(w, front, id);
        var after := [StartOf(c.jobs[id].spec)] + Chunks(w, log, id);
        assert after[|after| - 1] == last && after[..|after| - 1] == before;
      } else {
        OtherRecordKeepsJob(w, c, last, id);
      }
    }
  }

  lemma LifeBegins(w: Workload, log: seq<Record>, id: u64, base: Core)
    requires log != [] && RestartFree(w, log) && id in Replay(w, log).jobs
    requires id !in Replay(w, log[..|log| - 1]).jobs
    requires WellFormed(base) && id !in base.jobs && id !in base.results
    ensures ApplyAll(w, base, [StartOf(Replay(w, log).jobs[id].spec)] + Chunks(w, log, id))
         == WithJob(base, Replay(w, log), id)
  {
    var front, last := log[..|log| - 1], log[|log| - 1];
    var c := Replay(w, front);
    ApplyAllKeepsWellFormed(w, EMPTY, front);
    assert last.JobStart? && last.job == id;
    assert !Restarts(w, log, |log| - 1);
    var start := StartOf(SpecOf(last));
    var chunks := Chunks(w, front, id);
    ChunksAreOfJob(w, front, id);
    ApplyAllConcat(w, base, [start], chunks);
    assert [start][..0] == [];
    var born := ApplyAll(w, base, [start]);
    assert base.results - {id} == base.results;
    forall r | r in chunks ensures r.idx >= last.n {
      assert r.idx in Indices(chunks);
      assert r.idx !in Skipped(w, front, id, last.n);
    }
    OutOfRangeIgnored(w, born, chunks, id);
    assert (set t | t in c.done && t.job == id) == {};
  }

  lemma LifeCounts(w: Workload, base: Core, c: Core, r: Record)
    requires WellFormed(base) && WellFormed(c) && Counts(c, r) && r.job !in base.jobs
    ensures Apply(w, WithJob(base, c, r.job), r) == WithJob(base, Apply(w, c, r), r.job)
  {
    var id, tid := r.job, TaskID(r.job, r.idx);
    assert tid !in base.done;
    assert (set t | t in c.done + {tid} && t.job == id) == (set t | t in c.done && t.job == id) + {tid};
    assert Apply(w, WithJob(base, c, id), r).done == WithJob(base, Apply(w, c, r), id).done;
    assert Apply(w, WithJob(base, c, id), r).jobs == WithJob(base, Apply(w, c, r), id).jobs;
  }

  /** The state with the running jobs of keys only. */
  ghost predicate HasOnly(c: Core, whole: Core, keys: set<u64>)
    requires keys <= whole.jobs.Keys
  {
    && c.jobs.Keys == keys
    && (forall id :: id in keys ==> c.jobs[id] == whole.jobs[id])
    && (forall t :: t in c.done <==> t in whole.done && t.job in keys)
    && c.results == whole.results
  }

  lemma {:induction false} LivesReplay(w: Workload, log: seq<Record>, base: Core, order: seq<u64>, keys: set<u64>)
    requires RestartFree(w, log)
    requires var c := Finalise(Replay(w, log)); keys <= c.jobs.Keys && HasOnly(base, c, {})
    requires WellFormed(base) && Lists(order, keys)
    ensures var c := Finalise(Replay(w, log));
            var end := ApplyAll(w, base, Lives(w, log, c, order));
            HasOnly(end, c, keys) && WellFormed(end)
  {
    var c := Finalise(Replay(w, log));
    ApplyAllKeepsWellFormed(w, base, Lives(w, log, c, order));
    if order == [] {
      assert forall id :: id in keys ==> id in order;
      assert keys == {};
    } else {
      var front, id := order[..|order| - 1], order[|order| - 1];
      ListsFront(order, keys);
      assert id in order;
      LivesReplay(w, log, base, front, keys - {id});
      var life := [StartOf(c.jobs[id].spec)] + Chunks(w, log, id);
      ApplyAllConcat(w, base, Lives(w, log, c, front), life);
      ApplyAllKeepsWellFormed(w, EMPTY, log);
      LifeReplays(w, log, id, ApplyAll(w, base, Lives(w, log, c, front)));
      AddJob(Replay(w, log), ApplyAll(w, base, Lives(w, log, c, front)), keys, id);
    }
  }

  lemma AddJob(c: Core, base: Core, keys: set<u64>, id: u64)
    requires WellFormed(c) && keys <= Finalise(c).jobs.Keys && id in keys
    requires HasOnly(base, Finalise(c), keys - {id})
    ensures HasOnly(WithJob(base, c, id), Finalise(c), keys)
  {
    FinaliseKeepsCounted(c, id);
  }

  lemma FinaliseKeepsWellFormed(c: Core)
    requires WellFormed(c)
    ensures WellFormed(Finalise(c))
  {
    forall id | id in Finalise(c).jobs ensures Counted(Finalise(c).done, id) == Counted(c.done, id) {
      FinaliseKeepsCounted(c, id);
    }
  }

  lemma HasAll(c: Core, whole: Core)
    requires WellFormed(whole) && HasOnly(c, whole, whole.jobs.Keys)
    ensures c == whole
  {
    assert c.jobs == whole.jobs;
    assert c.done == whole.done;
  }

  lemma SnapshotBase(w: Workload, c: Core, answered: seq<u64>)
    requires Lists(answered, c.results.Keys)
    ensures var base := ApplyAll(w, EMPTY, Snapshot(c.results, answered));
            WellFormed(base) && HasOnly(base, c, {})
  {
    SnapshotReplays(w, c.results, answered, c.results.Keys);
    assert ApplyAll(w, EMPTY, Snapshot(c.results, answered)).results == c.results;
  }

  /** Compaction preserves meaning when no counted job was restarted. */
  lemma CompactionPreserves(w: Workload, log: seq<Record>, answered: seq<u64>, running: seq<u64>)
    requires RestartFree(w, log)
    requires Lists(answered, Finalise(Replay(w, log)).results.Keys)
    requires Lists(running, Finalise(Replay(w, log)).jobs.Keys)
    ensures Replay(w, Compacted(w, log, answered, running)) == Finalise(Replay(w, log))
  {
    var c := Finalise(Replay(w, log));
    ReplayKeepsWellFormed(w, log);
    FinaliseKeepsWellFormed(Replay(w, log));
    SnapshotBase(w, c, answered);
    var base := ApplyAll(w, EMPTY, Snapshot(c.results, answered));
    ApplyAllConcat(w, EMPTY, Snapshot(c.results, answered), Lives(w, log, c, running));
    LivesReplay(w, log, base, running, c.jobs.Keys);
    HasAll(ApplyAll(w, base, Lives(w, log, c, running)), c);
  }

  /** However the maps are walked, the rewritten log replays to the recovered state. */
  ghost predicate CompactsExactly(w: Workload, log: seq<Record>) {
    var c := Finalise(Replay(w, log));
    forall answered, running | Lists(answered, c.results.Keys) && Lists(running, c.jobs.Keys) ::
      Replay(w, Compacted(w, log, answered, running)) == c
  }

  /** One job started anew and given a list of chunks: exactly the listed indices in its range are done. */
  lemma {:induction false} LifeDone(w: Workload, base: Core, spec: JobSpec, recs: seq<Record>)
    requires WellFormed(base) && spec.id !in base.jobs && spec.id !in base.results
    requires forall r :: r in recs ==> r.ChunkDone? && r.job == spec.id
    ensures var d := ApplyAll(w, base, [StartOf(spec)] + recs);
            && d.results == base.results && d.jobs.Keys == base.jobs.Keys + {spec.id} && d.jobs[spec.id].spec == spec
            && (forall id :: id in base.jobs ==> d.jobs[id] == base.jobs[id])
            && (forall t :: t in d.done <==> t in base.done || (t.job == spec.id && t.idx < spec.n && t.idx in Indices(recs)))
  {
    var all := [StartOf(spec)] + recs;
    if recs == [] {
      assert all == [StartOf(spec)] && all[..0] == [];
      assert base.results - {spec.id} == base.results;
      assert SpecOf(StartOf(spec)) == spec;
    } else {
      var front, last := recs[..|recs| - 1], recs[|recs| - 1];
      assert recs == front + [last] && last in recs;
      LifeDone(w, base, spec, front);
      IndicesAppend(front, last);
      assert all[..|all| - 1] == [StartOf(spec)] + front && all[|all| - 1] == last;
    }
  }

  /** d runs the jobs of keys as c does, and has done exactly what their chunk lists name. */
  ghost predicate Repeats(w: Workload, log: seq<Record>, c: Core, d: Core, keys: set<u64>) {
    && d.jobs.Keys == keys <= c.jobs.Keys && d.results == c.results
    && (forall id :: id in keys ==> d.jobs[id].spec == c.jobs[id].spec)
    && (forall t :: t in d.done <==> t.job in keys && t.idx in Skipped(w, log, t.job, c.jobs[t.job].spec.n))
  }

  lemma RepeatsOneMore(w: Workload, log: seq<Record>, c: Core, d: Core, keys: set<u64>, id: u64)
    requires WellFormed(c) && WellFormed(d) && Repeats(w, log, c, d, keys) && id in c.jobs && id !in keys
    ensures Repeats(w, log, c, ApplyAll(w, d, [StartOf(c.jobs[id].spec)] + Chunks(w, log, id)), keys + {id})
  {
    ChunksAreOfJob(w, log, id);
    LifeDone(w, d, c.jobs[id].spec, Chunks(w, log, id));
  }

  lemma {:induction false} LivesRepeat(w: Workload, log: seq<Record>, c: Core, base: Core, order: seq<u64>, keys: set<u64>)
    requires WellFormed(c) && WellFormed(base) && Repeats(w, log, c, base, {}) && Lists(order, keys) && keys <= c.jobs.Keys
    ensures Repeats(w, log, c, ApplyAll(w, base, Lives(w, log, c, order)), keys)
  {
    hide WellFormed, Skipped;
    if order == [] {
      assert forall id :: id in keys ==> id in order;
      assert keys == {};
    } else {
      var front, id := order[..|order| - 1], order[|order| - 1];
      ListsFront(order, keys);
      assert id in order;
      LivesRepeat(w, log, c, base, front, keys - {id});
      ApplyAllKeepsWellFormed(w, base, Lives(w, log, c, front));
      ApplyAllConcat(w, base, Lives(w, log, c, front), [StartOf(c.jobs[id].spec)] + Chunks(w, log, id));
      RepeatsOneMore(w, log, c, ApplyAll(w, base, Lives(w, log, c, front)), keys - {id}, id);
      assert keys - {id} + {id} == keys;
    }
  }

  /** For every log: the rewritten one keeps the answers, the jobs and their splits, and has done what the chunk lists name. */
  lemma CompactedRepeats(w: Workload, log: seq<Record>, answered: seq<u64>, running: seq<u64>)
    requires Lists(answered, Finalise(Replay(w, log)).results.Keys)
    requires Lists(running, Finalise(Replay(w, log)).jobs.Keys)
    ensures var c := Finalise(Replay(w, log));
            Repeats(w, log, c, Replay(w, Compacted(w, log, answered, running)), c.jobs.Keys)
  {
    hide Finalise;
    var c := Finalise(Replay(w, log));
    ReplayKeepsWellFormed(w, log);
    FinaliseKeepsWellFormed(Replay(w, log));
    SnapshotBase(w, c, answered);
    var base := ApplyAll(w, EMPTY, Snapshot(c.results, answered));
    ApplyAllConcat(w, EMPTY, Snapshot(c.results, answered), Lives(w, log, c, running));
    LivesRepeat(w, log, c, base, running, c.jobs.Keys);
  }

  /** For every log: the rewritten one has done exactly what was done if and only if the skip sets are exact. */
  lemma CompactionCountsIffSkipIsExact(w: Workload, log: seq<Record>, answered: seq<u64>, running: seq<u64>)
    requires Lists(answered, Finalise(Replay(w, log)).results.Keys)
    requires Lists(running, Finalise(Replay(w, log)).jobs.Keys)
    ensures Replay(w, Compacted(w, log, answered, running)).done == Finalise(Replay(w, log)).done <==> SkipIsExact(w, log)
  {
    var c := Finalise(Replay(w, log));
    var d := Replay(w, Compacted(w, log, answered, running));
    ReplayKeepsWellFormed(w, log);
    FinaliseKeepsWellFormed(Replay(w, log));
    CompactedRepeats(w, log, answered, running);
    DoneIsSkipped(w, log, c, d);
  }

  lemma DoneIsSkipped(w: Workload, log: seq<Record>, c: Core, d: Core)
    requires WellFormed(c) && Repeats(w, log, c, d, c.jobs.Keys)
    ensures d.done == c.done <==> forall id :: id in c.jobs ==> Skipped(w, log, id, c.jobs[id].spec.n) == Counted(c.done, id)
  {
    hide Skipped, Counted;
    forall id, i: u32 | id in c.jobs
      ensures TaskID(id, i) in d.done <==> i in Skipped(w, log, id, c.jobs[id].spec.n)
      ensures TaskID(id, i) in c.done <==> i in Counted(c.done, id)
    {
      CountedMember(c.done, id, i);
    }
    if forall id :: id in c.jobs ==> Skipped(w, log, id, c.jobs[id].spec.n) == Counted(c.done, id) {
      forall t: TaskID ensures t in d.done <==> t in c.done {
        assert t == TaskID(t.job, t.idx);
      }
    }
    if d.done == c.done {
      forall id | id in c.jobs ensures Skipped(w, log, id, c.jobs[id].spec.n) == Counted(c.done, id) {
        forall i: u32 ensures i in Skipped(w, log, id, c.jobs[id].spec.n) <==> i in Counted(c.done, id) {
          assert TaskID(id, i) in d.done <==> TaskID(id, i) in c.done;
        }
      }
    }
  }

  lemma {:induction false} SomeOrder(keys: set<u64>) returns (order: seq<u64>)
    ensures Lists(order, keys)
  {
    if keys == {} {
      order := [];
    } else {
      var id :| id in keys;
      var rest := SomeOrder(keys - {id});
      order := rest + [id];
    }
  }

  lemma InexactMiscompacts(w: Workload, log: seq<Record>)
    requires !SkipIsExact(w, log)
    ensures !CompactsExactly(w, log)
  {
    var c := Finalise(Replay(w, log));
    var answered := SomeOrder(c.results.Keys);
    var running := SomeOrder(c.jobs.Keys);
    CompactionCountsIffSkipIsExact(w, log, answered, running);
  }

  /**
   Rewriting the log keeps its meaning, wherever it was cut and however the
   maps are walked, if and only if no record restarts a counted job.
   */
  lemma CompactionExactIffRestartFree(w: Workload, log: seq<Record>)
    ensures RestartFree(w, log) <==> forall k: nat | k <= |log| :: CompactsExactly(w, log[..k])
  {
    if RestartFree(w, log) {
      forall k: nat | k <= |log| ensures CompactsExactly(w, log[..k]) {
        RestartFreePrefix(w, log, k);
        var c := Finalise(Replay(w, log[..k]));
        forall answered, running | Lists(answered, c.results.Keys) && Lists(running, c.jobs.Keys)
          ensures Replay(w, Compacted(w, log[..k], answered, running)) == c
        {
          CompactionPreserves(w, log[..k], answered, running);
        }
      }
    } else {
      var p: nat :| Restarts(w, log, p);
      RestartIsInexact(w, log, p);
      InexactMiscompacts(w, log[..p + 1]);
    }
  }
}
