/** `recover`: the loops that turn the records on disk into a running aggregator. */
module Recovery {
  import opened Base
  import opened Workloads
  import opened Jobs
  import opened Journal
  import opened Aggregation
  import opened Scheduler

  /** Nobody is attached to a recovered job and its cancel channel is its own. */
  ghost predicate Unattached(jobs: map<u64, Job>, cancels: nat, now: int) {
    && (forall id :: id in jobs ==> jobs[id].client == None && jobs[id].orphanedAt == Some(now) && jobs[id].cancel < cancels)
    && (forall id, other :: id in jobs && other in jobs && id != other ==> jobs[id].cancel != jobs[other].cancel)
  }

  lemma UnattachedUpdate(jobs: map<u64, Job>, cancels: nat, now: int, id: u64, core: JobCore)
    requires Unattached(jobs, cancels, now) && id in jobs
    ensures Unattached(jobs[id := jobs[id].(core := core)], cancels, now)
  {}

  lemma LivesSnoc(w: Workload, disk: seq<Record>, c: Core, order: seq<u64>, id: u64)
    requires (forall x :: x in order ==> x in c.jobs) && id in c.jobs
    ensures Lives(w, disk, c, order + [id]) == Lives(w, disk, c, order) + ([StartOf(c.jobs[id].spec)] + Chunks(w, disk, id))
  {
    assert (order + [id])[..|order + [id]| - 1] == order;
  }

  lemma ListsSnoc(order: seq<u64>, keys: set<u64>, id: u64)
    requires Lists(order, keys) && id !in keys
    ensures Lists(order + [id], keys + {id})
  {}

  /** The jobs of ids have their feeders, and there are no others. */
  ghost predicate FeedersOf(w: Workload, disk: seq<Record>, jobs: map<u64, Job>, ids: set<u64>, feeders: map<nat, Feeder>) {
    && (forall id :: id in ids && id in jobs ==>
          && jobs[id].cancel in feeders
          && feeders[jobs[id].cancel] == Feeder(jobs[id].core.spec, Indices(Chunks(w, disk, id)), 0))
    && (forall c :: c in feeders ==> exists id :: id in jobs && jobs[id].cancel == c)
  }

  lemma FeederAdded(w: Workload, disk: seq<Record>, jobs: map<u64, Job>, cancels: nat, now: int, ids: set<u64>, feeders: map<nat, Feeder>, id: u64)
    requires Unattached(jobs, cancels, now) && FeedersOf(w, disk, jobs, ids, feeders) && id in jobs
    ensures FeedersOf(w, disk, jobs, ids + {id}, feeders[jobs[id].cancel := Feeder(jobs[id].core.spec, Indices(Chunks(w, disk, id)), 0)])
  {}

  /** The jobs of seen are listed and have their feeders. */
  ghost predicate Resuming(w: Workload, disk: seq<Record>, c: Core, jobs: map<u64, Job>, seen: set<u64>,
                           order: seq<u64>, recs: seq<Record>, feeders: map<nat, Feeder>) {
    && Lists(order, seen) && seen <= c.jobs.Keys && recs == Lives(w, disk, c, order)
    && FeedersOf(w, disk, jobs, seen, feeders)
  }

  lemma ResumingOne(w: Workload, disk: seq<Record>, c: Core, jobs: map<u64, Job>, cancels: nat, now: int, seen: set<u64>,
                    order: seq<u64>, recs: seq<Record>, feeders: map<nat, Feeder>, id: u64)
    requires Resuming(w, disk, c, jobs, seen, order, recs, feeders) && Unattached(jobs, cancels, now)
    requires id in jobs && id in c.jobs && id !in seen
    ensures Resuming(w, disk, c, jobs, seen + {id}, order + [id], recs + ([StartOf(c.jobs[id].spec)] + Chunks(w, disk, id)),
                     feeders[jobs[id].cancel := Feeder(jobs[id].core.spec, Indices(Chunks(w, disk, id)), 0)])
  {
    LivesSnoc(w, disk, c, order, id);
    ListsSnoc(order, seen, id);
    FeederAdded(w, disk, jobs, cancels, now, seen, feeders, id);
    hide Lists, FeedersOf, Lives, Chunks, Unattached;
  }

  lemma ResumingAll(w: Workload, disk: seq<Record>, c: Core, jobs: map<u64, Job>, order: seq<u64>, recs: seq<Record>, feeders: map<nat, Feeder>)
    requires Resuming(w, disk, c, jobs, jobs.Keys, order, recs, feeders) && c.jobs.Keys == jobs.Keys
    ensures Lists(order, c.jobs.Keys) && recs == Lives(w, disk, c, order) && FeedersOf(w, disk, jobs, jobs.Keys, feeders)
  {}

  class Recoverer {
    const w: Workload
    var jobs: map<u64, Job>
    var done: set<TaskID>
    var results: map<u64, Finished>
    var chunks: map<u64, seq<Record>>
    var cancels: nat

    function View(): Core
      reads this
    {
      Core(Cores(jobs), done, Answers(results))
    }

    function Listed(id: u64): seq<Record>
      reads this
    {
      if id in chunks then chunks[id] else []
    }

    ghost predicate Fresh(now: int)
      reads this
    {
      Unattached(jobs, cancels, now) && forall id :: id in results ==> results[id].at == now
    }

    constructor (w: Workload)
      ensures this.w == w && View() == EMPTY && (forall id :: Listed(id) == []) && jobs == map[]
    {
      this.w := w;
      jobs, done, results, chunks, cancels := map[], {}, map[], map[], 0;
    }

    /** forget: a running job and its done entries go; the chunk list stays. */
    method ForgetJob(id: u64)
      modifies this`jobs, this`done
      ensures View() == Forget(old(View()), id)
      ensures jobs == old(jobs) - {id}
    {
      if id !in jobs {
        assert jobs - {id} == jobs;
        return;
      }
      CoresRemove(jobs, id);
      var n := jobs[id].core.spec.n;
      var i: u32 := 0;
      while i < n
        invariant 0 <= i <= n
        invariant done == old(done) - Under(id, i)
        invariant jobs == old(jobs)
      {
        done := done - {TaskID(id, i)};
        i := i + 1;
      }
      jobs := jobs - {id};
    }

    method StartOne(rec: Record, now: int)
      requires rec.JobStart? && Fresh(now)
      modifies this`jobs, this`results, this`cancels
      ensures View() == Apply(w, old(View()), rec) && Fresh(now)
    {
      var id := rec.job;
      if id !in jobs {
        AnswersRemove(results, id);
        results := results - {id};
        var j := Job(JobCore(JobSpec(id, rec.lo, rec.hi, rec.size, rec.n, rec.msg), rec.n, w.zero), None, Some(now), cancels);
        CoresUpdate(jobs, id, j);
        jobs := jobs[id := j];
        cancels := cancels + 1;
      }
    }

    method CountOne(rec: Record)
      requires rec.ChunkDone?
      modifies this`jobs, this`done, this`chunks
      ensures View() == Apply(w, old(View()), rec)
      ensures !Counts(old(View()), rec) ==> jobs == old(jobs) && chunks == old(chunks)
      ensures Counts(old(View()), rec) ==>
                && rec.job in jobs && jobs == old(jobs)[rec.job := old(jobs)[rec.job].(core := jobs[rec.job].core)]
                && chunks == old(chunks)[rec.job := old(Listed(rec.job)) + [rec]]
    {
      var id, tid := rec.job, TaskID(rec.job, rec.idx);
      if id in jobs && rec.idx < jobs[id].core.spec.n && tid !in done {
        var j := jobs[id];
        var core := JobCore(j.core.spec, j.core.remaining - 1, w.merge(j.core.acc, Partial(rec.hash, rec.nonce)));
        CoresUpdate(jobs, id, j.(core := core));
        done := done + {tid};
        jobs := jobs[id := j.(core := core)];
        chunks := chunks[id := Listed(id) + [rec]];
      }
    }

    /** The job ends: with an answer to keep, or with nothing. */
    method EndOne(id: u64, answer: Option<Partial>, now: int)
      requires Fresh(now)
      modifies this`jobs, this`done, this`results
      ensures Fresh(now)
      ensures jobs == old(jobs) - {id}
      ensures var f := Forget(old(View()), id);
              View() == f.(results := if answer.Some? then f.results[id := answer.value] else f.results - {id})
    {
      ForgetJob(id);
      if answer.Some? {
        AnswersUpdate(results, id, Finished(answer.value, now));
        results := results[id := Finished(answer.value, now)];
      } else {
        AnswersRemove(results, id);
        results := results - {id};
      }
    }

    /** One turn of the replay loop. */
    method ReplayOne(rec: Record, now: int)
      requires Fresh(now)
      modifies this
      ensures View() == Apply(w, old(View()), rec)
      ensures Fresh(now)
      ensures forall id :: Listed(id) == if rec.ChunkDone? && rec.job == id && Counts(old(View()), rec)
                                         then old(Listed(id)) + [rec] else old(Listed(id))
    {
      match rec {
        case JobStart(_, _, _, _, _, _) => StartOne(rec, now);
        case ChunkDone(id, _, _, _) =>
          CountOne(rec);
          if Counts(old(View()), rec) { UnattachedUpdate(old(jobs), cancels, now, id, jobs[id].core); }
        case JobDone(id, hash, nonce) => EndOne(id, Some(Partial(hash, nonce)), now);
        case JobDrop(id) => EndOne(id, None, now);
      }
    }

    method ReplayAll(recs: seq<Record>, now: int)
      requires View() == EMPTY && jobs == map[] && (forall id :: Listed(id) == [])
      modifies this
      ensures View() == Replay(w, recs)
      ensures forall id :: Listed(id) == Chunks(w, recs, id)
      ensures Fresh(now)
    {
      assert forall id :: id in results ==> id in View().results;
      var i := 0;
      while i < |recs|
        invariant 0 <= i <= |recs|
        invariant View() == Replay(w, recs[..i])
        invariant forall id :: Listed(id) == Chunks(w, recs[..i], id)
        invariant Fresh(now)
      {
        assert recs[..i + 1][..|recs[..i + 1]| - 1] == recs[..i];
        ReplayOne(recs[i], now);
        i := i + 1;
      }
      assert recs[..|recs|] == recs;
    }

    /** A job whose last chunk was logged is finished. */
    method FinishComplete(now: int)
      requires Fresh(now) && WellFormed(View())
      modifies this`jobs, this`done, this`results
      ensures View() == Finalise(old(View())) && Fresh(now)
    {
      var ids := jobs.Keys;
      while ids != {}
        invariant ids <= jobs.Keys && Fresh(now) && WellFormed(View())
        invariant Finalise(View()) == Finalise(old(View()))
        invariant forall id :: id in jobs && id !in ids ==> jobs[id].core.remaining != 0
        decreases ids
      {
        var id :| id in ids;
        ids := ids - {id};
        var j := jobs[id];
        if j.core.remaining == 0 {
          assert View().jobs[id] == j.core;
          FinaliseOne(View(), id);
          ForgetKeepsWellFormed(View(), id);
          EndOne(id, Some(j.core.acc), now);
        }
      }
      FinaliseIsIdentity(View());
    }

    /** The JobDone records of the compacted log. */
    method SnapshotAnswers() returns (recs: seq<Record>, order: seq<u64>)
      ensures Lists(order, View().results.Keys) && recs == Snapshot(View().results, order)
    {
      recs, order := [], [];
      var ids := results.Keys;
      while ids != {}
        invariant ids <= results.Keys && Lists(order, results.Keys - ids)
        invariant recs == Snapshot(Answers(results), order)
        decreases ids
      {
        var id :| id in ids;
        ids := ids - {id};
        recs := recs + [JobDone(id, results[id].result.hash, results[id].result.nonce)];
        assert (order + [id])[..|order + [id]| - 1] == order;
        order := order + [id];
      }
      assert results.Keys - {} == results.Keys;
    }

    /** The list of one job's counted chunks, as records to repeat and indices to skip. */
    method RepeatChunks(id: u64) returns (recs: seq<Record>, skip: set<u32>)
      requires forall r :: r in Listed(id) ==> r.ChunkDone?
      ensures recs == Listed(id) && skip == Indices(Listed(id))
    {
      var list := if id in chunks then chunks[id] else [];
      recs, skip := [], {};
      var i := 0;
      while i < |list|
        invariant 0 <= i <= |list|
        invariant recs == list[..i] && skip == Indices(list[..i])
      {
        assert list[..i + 1] == list[..i] + [list[i]] && list[i] in list;
        IndicesAppend(list[..i], list[i]);
        recs := recs + [list[i]];
        skip := skip + {list[i].idx};
        i := i + 1;
      }
      assert list[..|list|] == list;
    }

    /** One running job: its start and chunks to repeat, and the feeder that resumes it. */
    method ResumeOne(ghost disk: seq<Record>, id: u64) returns (recs: seq<Record>, feeder: Feeder)
      requires id in jobs && Listed(id) == Chunks(w, disk, id)
      ensures recs == [StartOf(View().jobs[id].spec)] + Chunks(w, disk, id)
      ensures feeder == Feeder(jobs[id].core.spec, Indices(Chunks(w, disk, id)), 0)
    {
      ChunksAreOfJob(w, disk, id);
      var again, skip := RepeatChunks(id);
      var s := jobs[id].core.spec;
      recs := [JobStart(s.id, s.lo, s.hi, s.size, s.n, s.msg)] + again;
      feeder := Feeder(s, skip, 0);
    }

    /** The start and chunks of every running job, and the feeder that resumes it. */
    method ResumeJobs(ghost disk: seq<Record>, now: int) returns (recs: seq<Record>, order: seq<u64>, feeders: map<nat, Feeder>)
      requires Fresh(now) && WellFormed(View()) && (forall id :: Listed(id) == Chunks(w, disk, id))
      ensures Lists(order, View().jobs.Keys) && recs == Lives(w, disk, View(), order)
      ensures FeedersOf(w, disk, jobs, jobs.Keys, feeders)
    {
      recs, order, feeders := [], [], map[];
      var ids := jobs.Keys;
      ghost var seen: set<u64> := {};
      ghost var c := View();
      assert c.jobs.Keys == jobs.Keys && Resuming(w, disk, c, jobs, seen, order, recs, feeders);
      hide WellFormed, Unattached, Resuming, Chunks, Indices;
      while ids != {}
        invariant ids + seen == jobs.Keys && ids !! seen
        invariant Resuming(w, disk, c, jobs, seen, order, recs, feeders)
        decreases ids
      {
        var id :| id in ids;
        ids := ids - {id};
        var again, feeder := ResumeOne(disk, id);
        ResumingOne(w, disk, c, jobs, cancels, now, seen, order, recs, feeders, id);
        recs := recs + again;
        order := order + [id];
        feeders := feeders[jobs[id].cancel := feeder];
        seen := seen + {id};
      }
      assert seen == jobs.Keys;
      ResumingAll(w, disk, c, jobs, order, recs, feeders);
    }
  }

  lemma UnderMember(t: TaskID, id: u64, n: u32)
    ensures t in Under(id, n) <==> t.job == id && t.idx < n
  {
    if t.job == id && t.idx < n { assert TaskID(id, t.idx) == t; }
  }

  lemma FinaliseOneDone(c: Core, d: Core, id: u64, t: TaskID)
    requires WellFormed(c) && id in c.jobs && c.jobs[id].remaining == 0
    requires d.jobs == c.jobs - {id} && d.done == c.done - Under(id, c.jobs[id].spec.n)
    ensures t in Finalise(d).done <==> t in Finalise(c).done
  {
    UnderMember(t, id, c.jobs[id].spec.n);
  }

  lemma FinaliseOneResults(c: Core, d: Core, id: u64)
    requires id in c.jobs && c.jobs[id].remaining == 0
    requires d.jobs == c.jobs - {id} && d.results == c.results[id := c.jobs[id].acc]
    ensures Finalise(d).results == Finalise(c).results
  {}

  lemma FinaliseOneMaps(c: Core, d: Core, id: u64)
    requires WellFormed(c) && id in c.jobs && c.jobs[id].remaining == 0
    requires d.jobs == c.jobs - {id} && d.results == c.results[id := c.jobs[id].acc]
    ensures Finalise(d).jobs == Finalise(c).jobs && Finalise(d).results == Finalise(c).results
  {
    hide WellFormed;
    FinaliseOneResults(c, d, id);
    assert Finalise(d).jobs == Finalise(c).jobs;
  }

  /** Finishing one complete job early does not change where finalisation ends. */
  lemma FinaliseOne(c: Core, id: u64)
    requires WellFormed(c) && id in c.jobs && c.jobs[id].remaining == 0
    ensures var f := Forget(c, id);
            Finalise(f.(results := f.results[id := c.jobs[id].acc])) == Finalise(c)
  {
    var f := Forget(c, id);
    var d := f.(results := f.results[id := c.jobs[id].acc]);
    FinaliseOneMaps(c, d, id);
    forall t: TaskID ensures t in Finalise(d).done <==> t in Finalise(c).done {
      FinaliseOneDone(c, d, id, t);
    }
  }

  /** The whole of `recover`: what it hands over is what the step system assumes of a restart. */
  method Recover(w: Workload, disk: seq<Record>, now: int, replies: seq<Reply>)
    returns (a: Agg, feeders: map<nat, Feeder>, answered: seq<u64>, running: seq<u64>)
    ensures Recovered(w, disk, now, answered, running, a)
    ensures Resumed(w, disk, a, feeders)
    ensures a.replies == replies
  {
    var r := new Recoverer(w);
    r.ReplayAll(disk, now);
    ApplyAllKeepsWellFormed(w, EMPTY, disk);
    r.FinishComplete(now);
    FinaliseKeepsWellFormed(Replay(w, disk));
    ghost var c := Finalise(Replay(w, disk));
    assert r.View() == c;
    var snapshot, lives;
    snapshot, answered := r.SnapshotAnswers();
    lives, running, feeders := r.ResumeJobs(disk, now);
    var log := snapshot + lives;
    assert log == Compacted(w, disk, answered, running);
    a := Agg(r.jobs, r.done, r.results, map[], log, |log|, r.cancels, multiset{}, replies);
    assert CoreOf(a) == c;
    assert CancelsSound(a);
  }
}
