/** The aggregator goroutine's own code: the cases of its event loop. */
module AggregatorLoop {
  import opened Base
  import opened Workloads
  import opened Jobs
  import opened Journal
  import opened Aggregation

  /** One thing a tick can do: abandon a job, let an answer go, or rewrite the log. */
  ghost predicate TickStep(a: Agg, b: Agg, now: int, grace: int, ttl: int) {
    || (exists id :: id in a.jobs && GraceOver(a, id, now, grace) && b == Finish(a, id, false, now))
    || (exists id :: id in a.results && now - a.results[id].at > ttl && b == Expire(a, id))
    || (exists order :: a.jobs == map[] && Lists(order, a.results.Keys) && b == CompactIdle(a, order))
  }

  ghost predicate TickRun(trail: seq<Agg>, now: int, grace: int, ttl: int) {
    trail != [] && forall i :: 0 <= i < |trail| - 1 ==> TickStep(trail[i], trail[i + 1], now, grace, ttl)
  }

  lemma TickRunSnoc(trail: seq<Agg>, b: Agg, now: int, grace: int, ttl: int)
    requires TickRun(trail, now, grace, ttl) && TickStep(trail[|trail| - 1], b, now, grace, ttl)
    ensures TickRun(trail + [b], now, grace, ttl)
  {
    hide TickStep;
  }

  lemma TickRunJoin(trail: seq<Agg>, rest: seq<Agg>, now: int, grace: int, ttl: int)
    requires TickRun(trail, now, grace, ttl) && TickRun(rest, now, grace, ttl) && trail[|trail| - 1] == rest[0]
    ensures TickRun(trail + rest[1..], now, grace, ttl)
    ensures (trail + rest[1..])[|trail + rest[1..]| - 1] == rest[|rest| - 1]
  {
    hide TickStep;
    var all := trail + rest[1..];
    forall i | 0 <= i < |all| - 1 ensures TickStep(all[i], all[i + 1], now, grace, ttl) {
      if i >= |trail| - 1 {
        var j := i - (|trail| - 1);
        assert all[i] == rest[j] && all[i + 1] == rest[j + 1];
      }
    }
  }

  lemma CompactIsTick(a: Agg, order: seq<u64>, now: int, grace: int, ttl: int)
    requires a.jobs == map[] && Lists(order, a.results.Keys)
    ensures TickStep(a, CompactIdle(a, order), now, grace, ttl)
  {}

  lemma AttachKeepsJob(a: Agg, id: u64, conn: int, ended: bool, now: int)
    requires id in a.jobs
    ensures id in Attach(a, id, conn, ended, now).jobs && Attach(a, id, conn, ended, now).log == a.log
  {}

  class Aggregator {
    const w: Workload
    var jobs: map<u64, Job>
    var done: set<TaskID>
    var results: map<u64, Finished>
    var byConn: map<int, u64>
    var log: seq<Record>
    var kept: nat
    var cancels: nat
    var closed: multiset<nat>
    var replies: seq<Reply>
    var dirty: bool
    /** How many records have been forced to stable storage. */
    ghost var synced: nat

    /** The log is clean exactly as far as the flag says. */
    ghost predicate Durable()
      reads this
    {
      synced <= |log| && (!dirty ==> synced == |log|)
    }

    function View(): Agg
      reads this
    {
      Agg(jobs, done, results, byConn, log, kept, cancels, closed, replies)
    }

    /** The connection waits for the job, unless it is over: then the job is alone from now on. */
    ghost predicate Waits(id: u64, conn: int, ended: bool, now: int)
      reads this
    {
      && id in jobs
      && (ended ==> jobs[id].client.None? && jobs[id].orphanedAt == Some(now))
      && (!ended ==> jobs[id].client == Some(conn) && jobs[id].orphanedAt.None? && conn in byConn && byConn[conn] == id)
    }

    constructor (w: Workload, boot: Agg)
      ensures this.w == w && View() == boot && Durable()
    {
      this.w := w;
      jobs, done, results, byConn := boot.jobs, boot.done, boot.results, boot.byConn;
      log, kept, cancels, closed, replies := boot.log, boot.kept, boot.cancels, boot.closed, boot.replies;
      dirty, synced := false, |boot.log|;
    }

    /** record: some records are forced to stable storage at once, the others by the next tick. */
    method Record(r: Record, syncNow: bool)
      modifies this`log, this`dirty, this`synced
      requires Durable()
      ensures log == old(log) + [r] && Durable() && (syncNow ==> synced == |log|)
    {
      log := log + [r];
      if syncNow {
        synced, dirty := |log|, false;
      } else {
        dirty := true;
      }
    }

    method DetachJob(id: u64)
      requires id in jobs
      modifies this`jobs, this`byConn
      ensures View() == Detach(old(View()), id)
      ensures jobs == old(jobs)[id := old(jobs)[id].(client := None)]
    {
      var j := jobs[id];
      if j.client.Some? {
        byConn := byConn - {j.client.value};
        jobs := jobs[id := j.(client := None)];
      }
    }

    method SendReply(client: Option<int>, id: u64, p: Partial)
      modifies this`replies
      ensures View() == ReplyTo(old(View()), client, id, p)
    {
      if client.Some? {
        replies := replies + [Reply(client.value, id, p)];
      }
    }

    /** The done entries under a job that ends. */
    method ClearDone(id: u64, n: u32)
      modifies this`done
      ensures done == old(done) - Under(id, n)
    {
      var i: u32 := 0;
      while i < n
        invariant 0 <= i <= n
        invariant done == old(done) - Under(id, i)
      {
        done := done - {TaskID(id, i)};
        i := i + 1;
      }
    }

    /** finish: the job, its done entries and its cancel channel go; the log learns how it ended. */
    method FinishJob(id: u64, completed: bool, now: int)
      requires id in jobs && Durable()
      modifies this
      ensures View() == Finish(old(View()), id, completed, now)
      ensures jobs == old(jobs) - {id} && closed == old(closed) + multiset{old(jobs)[id].cancel} && replies == old(replies)
      ensures forall t :: t in done <==> t in old(done) && !(t.job == id && t.idx < old(jobs)[id].core.spec.n)
      ensures completed ==> results == old(results)[id := Finished(old(jobs)[id].core.acc, now)]
      ensures !completed ==> results == old(results) && log == old(log) + [JobDrop(id)]
      ensures Durable() && (completed ==> synced == |log|)
    {
      var j := jobs[id];
      DetachJob(id);
      jobs := jobs - {id};
      ClearDone(id, j.core.spec.n);
      closed := closed + multiset{j.cancel};
      if completed {
        results := results[id := Finished(j.core.acc, now)];
        Record(JobDone(id, j.core.acc.hash, j.core.acc.nonce), true);
      } else {
        Record(JobDrop(id), false);
      }
    }

    /** A job that is running is detached from whoever waited for it; any other is started and logged. */
    method RegisterJob(spec: JobSpec) returns (running: bool)
      requires Durable()
      modifies this`jobs, this`byConn, this`cancels, this`log, this`dirty, this`synced
      ensures View() == Register(w, old(View()), spec) && running == (spec.id in old(jobs))
      ensures spec.id in jobs && jobs[spec.id].client.None?
      ensures running ==> jobs[spec.id].core == old(jobs)[spec.id].core && log == old(log)
      ensures !running ==> jobs[spec.id].core == JobCore(spec, spec.n, w.zero) && log == old(log) + [StartOf(spec)]
      ensures Durable() && (!running ==> synced == |log|)
    {
      running := spec.id in jobs;
      if running {
        DetachJob(spec.id);
      } else {
        jobs := jobs[spec.id := Job(JobCore(spec, spec.n, w.zero), None, None, cancels)];
        cancels := cancels + 1;
        Record(JobStart(spec.id, spec.lo, spec.hi, spec.size, spec.n, spec.msg), true);
      }
    }

    /** The client is attached, unless its connection is over already. */
    method AttachJob(id: u64, conn: int, ended: bool, now: int)
      requires id in jobs && jobs[id].client.None?
      modifies this`jobs, this`byConn
      ensures View() == Attach(old(View()), id, conn, ended, now)
      ensures Waits(id, conn, ended, now) && jobs[id].core == old(jobs)[id].core
    {
      if ended {
        jobs := jobs[id := jobs[id].(orphanedAt := Some(now))];
      } else {
        jobs := jobs[id := jobs[id].(client := Some(conn), orphanedAt := None)];
        byConn := byConn[conn := id];
      }
    }

    /** The submit case. feed tells the client handler whether to push the job's tasks. */
    method OnSubmit(conn: int, ended: bool, spec: JobSpec, now: int) returns (feed: bool)
      requires Durable()
      modifies this
      ensures View() == Submit(w, old(View()), conn, ended, spec, now)
      ensures feed <==> spec.id !in old(results) && spec.id !in old(jobs)
      ensures spec.id in old(results) ==>
                replies == old(replies) + [Reply(conn, spec.id, old(results)[spec.id].result)]
                && jobs == old(jobs) && results == old(results) && byConn == old(byConn) && log == old(log)
      ensures spec.id !in old(results) && spec.id in old(jobs) && old(jobs)[spec.id].core.remaining != 0 ==>
                spec.id in jobs && jobs[spec.id].core == old(jobs)[spec.id].core && Waits(spec.id, conn, ended, now)
                && replies == old(replies) && results == old(results) && log == old(log)
      ensures feed && spec.n != 0 ==>
                spec.id in jobs && jobs[spec.id].core == JobCore(spec, spec.n, w.zero) && Waits(spec.id, conn, ended, now)
                && replies == old(replies) && results == old(results) && log == old(log) + [StartOf(spec)]
      ensures feed && spec.n == 0 ==>
                spec.id !in jobs && results == old(results)[spec.id := Finished(w.zero, now)]
                && replies == if ended then old(replies) else old(replies) + [Reply(conn, spec.id, w.zero)]
      ensures Durable() && (feed ==> synced == |log|)
    {
      hide Finish, Attach;
      var id := spec.id;
      if id in results {
        SendReply(Some(conn), id, results[id].result);
        return false;
      }
      var running := RegisterJob(spec);
      feed := !running;
      AttachKeepsJob(View(), id, conn, ended, now);
      AttachJob(id, conn, ended, now);
      if jobs[id].core.remaining == 0 {
        SendReply(jobs[id].client, id, jobs[id].core.acc);
        FinishJob(id, true, now);
      }
    }

    /** The result case: a late copy or an orphan changes nothing. */
    method OnResult(tid: TaskID, p: Partial, now: int)
      requires Durable()
      modifies this
      ensures View() == TakeResult(w, old(View()), tid, p, now) && Durable()
      ensures tid.job !in old(jobs) || tid.idx >= old(jobs)[tid.job].core.spec.n || tid in old(done) ==> View() == old(View())
      ensures tid.job in old(jobs) && tid.idx < old(jobs)[tid.job].core.spec.n && tid !in old(done) ==>
                var j := old(jobs)[tid.job];
                if j.core.remaining != 1 then
                  tid in done && tid.job in jobs && replies == old(replies) && results == old(results)
                  && jobs[tid.job] == j.(core := JobCore(j.core.spec, j.core.remaining - 1, w.merge(j.core.acc, p)))
                else
                  tid.job !in jobs && results == old(results)[tid.job := Finished(w.merge(j.core.acc, p), now)]
                  && closed == old(closed) + multiset{j.cancel}
                  && replies == (if j.client.None? then old(replies) else old(replies) + [Reply(j.client.value, tid.job, w.merge(j.core.acc, p))])
    {
      hide Finish;
      if tid.job !in jobs || tid.idx >= jobs[tid.job].core.spec.n || tid in done {
        return;
      }
      var j := jobs[tid.job];
      done := done + {tid};
      jobs := jobs[tid.job := j.(core := JobCore(j.core.spec, j.core.remaining - 1, w.merge(j.core.acc, p)))];
      Record(ChunkDone(tid.job, tid.idx, p.hash, p.nonce), false);
      if jobs[tid.job].core.remaining == 0 {
        SendReply(jobs[tid.job].client, tid.job, jobs[tid.job].core.acc);
        FinishJob(tid.job, true, now);
      }
    }

    /** The client-gone case; a connection without an entry reads as job 0. */
    method OnClientGone(conn: int, now: int)
      modifies this`jobs, this`byConn
      ensures View() == ClientGone(old(View()), conn, now)
      ensures conn !in byConn && jobs.Keys == old(jobs).Keys
      ensures forall id :: id in jobs && jobs[id] != old(jobs)[id] ==>
                old(jobs)[id].client == Some(conn) && jobs[id] == old(jobs)[id].(client := None, orphanedAt := Some(now))
      ensures conn in old(byConn) && old(byConn)[conn] in jobs && old(jobs)[old(byConn)[conn]].client == Some(conn) ==>
                jobs[old(byConn)[conn]].orphanedAt == Some(now) && jobs[old(byConn)[conn]].client.None?
    {
      var id := if conn in byConn then byConn[conn] else 0;
      if id in jobs && jobs[id].client == Some(conn) {
        DetachJob(id);
        jobs := jobs[id := jobs[id].(orphanedAt := Some(now))];
      }
      byConn := byConn - {conn};
    }

    /** The first loop of the tick case. */
    method DropAbandoned(now: int, grace: int, ttl: int) returns (ghost trail: seq<Agg>)
      requires Durable()
      modifies this
      ensures Durable()
      ensures TickRun(trail, now, grace, ttl) && trail[0] == old(View()) && trail[|trail| - 1] == View()
      ensures forall id :: id in jobs && jobs[id].orphanedAt.Some? ==> now - jobs[id].orphanedAt.value <= grace
      ensures forall id :: id in old(jobs) && (old(jobs)[id].orphanedAt.None? || now - old(jobs)[id].orphanedAt.value <= grace) ==>
                id in jobs && jobs[id] == old(jobs)[id]
      ensures results == old(results)
    {
      hide Finish;
      trail := [View()];
      var ids := jobs.Keys;
      while ids != {}
        invariant Durable()
        invariant TickRun(trail, now, grace, ttl) && trail[0] == old(View()) && trail[|trail| - 1] == View()
        invariant forall id :: id in ids ==> id in jobs && id in old(jobs) && jobs[id] == old(jobs[id])
        invariant forall id :: id in jobs && id !in ids && jobs[id].orphanedAt.Some? ==> now - jobs[id].orphanedAt.value <= grace
        invariant forall id :: id in old(jobs) && (old(jobs)[id].orphanedAt.None? || now - old(jobs)[id].orphanedAt.value <= grace) ==>
                    id in jobs && jobs[id] == old(jobs)[id]
        invariant results == old(results)
        decreases ids
      {
        var id :| id in ids;
        ids := ids - {id};
        var j := jobs[id];
        if j.orphanedAt.Some? && now - j.orphanedAt.value > grace {
          ghost var before := View();
          FinishJob(id, false, now);
          assert TickStep(before, View(), now, grace, ttl);
          trail := trail + [View()];
        }
      }
    }

    method ForgetAnswer(id: u64)
      requires Durable()
      modifies this`results, this`log, this`dirty, this`synced
      ensures View() == Expire(old(View()), id) && Durable()
    {
      results := results - {id};
      Record(JobDrop(id), false);
    }

    /** The second loop of the tick case. */
    method ExpireAnswers(now: int, grace: int, ttl: int) returns (ghost trail: seq<Agg>)
      requires Durable()
      modifies this
      ensures Durable()
      ensures TickRun(trail, now, grace, ttl) && trail[0] == old(View()) && trail[|trail| - 1] == View()
      ensures results == map id | id in old(results) && now - old(results[id]).at <= ttl :: old(results[id])
      ensures jobs == old(jobs)
    {
      trail := [View()];
      var ids := results.Keys;
      while ids != {}
        invariant Durable()
        invariant TickRun(trail, now, grace, ttl) && trail[0] == old(View()) && trail[|trail| - 1] == View()
        invariant ids <= results.Keys <= old(results.Keys)
        invariant forall id :: id in results ==> results[id] == old(results[id])
        invariant forall id :: id in results && id !in ids ==> now - results[id].at <= ttl
        invariant forall id :: id in old(results) && now - old(results[id]).at <= ttl ==> id in results
        invariant jobs == old(jobs)
        decreases ids
      {
        var id :| id in ids;
        ids := ids - {id};
        if now - results[id].at > ttl {
          ghost var before := View();
          ForgetAnswer(id);
          assert TickStep(before, View(), now, grace, ttl);
          trail := trail + [View()];
        }
      }
    }

    /** snapshotResults: one JobDone per stored answer. */
    method SnapshotResults() returns (recs: seq<Record>, order: seq<u64>)
      ensures Lists(order, results.Keys) && recs == Snapshot(Answers(results), order)
    {
      recs, order := [], [];
      var ids := results.Keys;
      while ids != {}
        invariant ids <= results.Keys && Lists(order, results.Keys - ids)
        invariant recs == Snapshot(Answers(results), order)
        decreases ids
      {
        var id :| id in ids;
        ids := ids - {id};
        recs := recs + [JobDone(id, results[id].result.hash, results[id].result.nonce)];
        assert (order + [id])[..|order + [id]| - 1] == order;
        order := order + [id];
      }
      assert results.Keys - {} == results.Keys;
    }

    /** The log becomes the list of stored answers. */
    method CompactLog() returns (ghost order: seq<u64>)
      requires jobs == map[]
      modifies this`log, this`kept, this`dirty, this`synced
      ensures Lists(order, results.Keys) && View() == CompactIdle(old(View()), order) && Durable()
    {
      var recs;
      recs, order := SnapshotResults();
      log, kept := recs, |recs|;
      dirty, synced := false, |log|;
    }

    /** The tick case. big says whether the log has outgrown the compaction threshold. */
    method OnTick(now: int, grace: int, ttl: int, big: bool) returns (ghost trail: seq<Agg>)
      requires Durable()
      modifies this
      ensures TickRun(trail, now, grace, ttl) && trail[0] == old(View()) && trail[|trail| - 1] == View()
      ensures forall id :: id in jobs && jobs[id].orphanedAt.Some? ==> now - jobs[id].orphanedAt.value <= grace
      ensures forall id :: id in old(jobs) && (old(jobs)[id].orphanedAt.None? || now - old(jobs)[id].orphanedAt.value <= grace) ==>
                id in jobs && jobs[id] == old(jobs)[id]
      ensures forall id :: id in old(results) && now - old(results)[id].at <= ttl ==> id in results && results[id] == old(results)[id]
      ensures forall id :: id in results ==> now - results[id].at <= ttl
      ensures jobs == map[] && big ==> kept == |log|
      ensures !dirty && synced == |log|
    {
      hide TickStep;
      trail := DropAbandoned(now, grace, ttl);
      ghost var rest := ExpireAnswers(now, grace, ttl);
      TickRunJoin(trail, rest, now, grace, ttl);
      trail := trail + rest[1..];
      if jobs == map[] && big {
        ghost var before := View();
        ghost var order := CompactLog();
        CompactIsTick(before, order, now, grace, ttl);
        TickRunSnoc(trail, View(), now, grace, ttl);
        trail := trail + [View()];
      }
      if dirty {
        dirty, synced := false, |log|;
      }
    }
  }
}
