/**
 The aggregator: one owner of the running jobs, the done entries, the stored
 answers and the log. The functions say what one event does to that state.
 */
module Aggregation {
  import opened Base
  import opened Workloads
  import opened Jobs
  import opened Journal

  /** client is None while nobody is attached; cancel numbers the job's cancel channel. */
  datatype Job = Job(core: JobCore, client: Option<int>, orphanedAt: Option<int>, cancel: nat)

  datatype Finished = Finished(result: Partial, at: int)

  datatype Reply = Reply(conn: int, job: u64, answer: Partial)

  /**
   The aggregator's state. kept is the length of the snapshot the last Rewrite
   made durable, cancels the number of cancel channels made so far, closed
   counts how often each was closed, replies lists every Result written.
   */
  datatype Agg = Agg(
    jobs: map<u64, Job>, done: set<TaskID>, results: map<u64, Finished>, byConn: map<int, u64>,
    log: seq<Record>, kept: nat, cancels: nat, closed: multiset<nat>, replies: seq<Reply>)

  function Cores(jobs: map<u64, Job>): map<u64, JobCore> { map id | id in jobs :: jobs[id].core }

  function Answers(results: map<u64, Finished>): map<u64, Partial> { map id | id in results :: results[id].result }

  /** What the log is meant to rebuild. */
  function CoreOf(a: Agg): Core { Core(Cores(a.jobs), a.done, Answers(a.results)) }

  // ------------------------------------------------------------------- events

  function Detach(a: Agg, id: u64): Agg
    requires id in a.jobs
  {
    if a.jobs[id].client.None? then a
    else a.(byConn := a.byConn - {a.jobs[id].client.value}, jobs := a.jobs[id := a.jobs[id].(client := None)])
  }

  /** The record with which a job ends. */
  function EndRecord(id: u64, acc: Partial, completed: bool): Record {
    if completed then JobDone(id, acc.hash, acc.nonce) else JobDrop(id)
  }

  function Finish(a: Agg, id: u64, completed: bool, now: int): Agg
    requires id in a.jobs
  {
    var j, b := a.jobs[id], Detach(a, id);
    b.(jobs := b.jobs - {id},
       done := b.done - Under(id, j.core.spec.n),
       closed := b.closed + multiset{j.cancel},
       results := if completed then b.results[id := Finished(j.core.acc, now)] else b.results,
       log := b.log + [EndRecord(id, j.core.acc, completed)])
  }

  function ReplyTo(a: Agg, client: Option<int>, id: u64, p: Partial): Agg {
    if client.None? then a else a.(replies := a.replies + [Reply(client.value, id, p)])
  }

  /** A job with nothing remaining answers its client and ends. */
  function FinishIfComplete(a: Agg, id: u64, now: int): Agg
    requires id in a.jobs
  {
    if a.jobs[id].core.remaining != 0 then a
    else Finish(ReplyTo(a, a.jobs[id].client, id, a.jobs[id].core.acc), id, true, now)
  }

  /** The job is registered: found running, or started and logged. */
  function Register(w: Workload, a: Agg, spec: JobSpec): Agg {
    if spec.id in a.jobs then Detach(a, spec.id)
    else a.(jobs := a.jobs[spec.id := Job(JobCore(spec, spec.n, w.zero), None, None, a.cancels)],
            cancels := a.cancels + 1,
            log := a.log + [StartOf(spec)])
  }

  function Attach(a: Agg, id: u64, conn: int, ended: bool, now: int): Agg
    requires id in a.jobs
  {
    if ended then a.(jobs := a.jobs[id := a.jobs[id].(orphanedAt := Some(now))])
    else a.(jobs := a.jobs[id := a.jobs[id].(client := Some(conn), orphanedAt := None)], byConn := a.byConn[conn := id])
  }

  /** A Request arrives; ended says whether its connection is already over. */
  function Submit(w: Workload, a: Agg, conn: int, ended: bool, spec: JobSpec, now: int): Agg {
    if spec.id in a.results then ReplyTo(a, Some(conn), spec.id, a.results[spec.id].result)
    else FinishIfComplete(Attach(Register(w, a, spec), spec.id, conn, ended, now), spec.id, now)
  }

  /** Only a job that was not known before is fed. */
  predicate Feeds(a: Agg, spec: JobSpec) { spec.id !in a.results && spec.id !in a.jobs }

  predicate Accepts(a: Agg, tid: TaskID) {
    tid.job in a.jobs && tid.idx < a.jobs[tid.job].core.spec.n && tid !in a.done
  }

  function Count(w: Workload, a: Agg, tid: TaskID, p: Partial): Agg
    requires tid.job in a.jobs
  {
    var j := a.jobs[tid.job];
    a.(done := a.done + {tid},
       jobs := a.jobs[tid.job := j.(core := JobCore(j.core.spec, j.core.remaining - 1, w.merge(j.core.acc, p)))],
       log := a.log + [ChunkDone(tid.job, tid.idx, p.hash, p.nonce)])
  }

  /** A chunk result arrives, any number of times, in any order. */
  function TakeResult(w: Workload, a: Agg, tid: TaskID, p: Partial, now: int): Agg {
    if !Accepts(a, tid) then a else FinishIfComplete(Count(w, a, tid, p), tid.job, now)
  }

  /** A missing map entry reads as job 0, as in the source. */
  function ClientGone(a: Agg, conn: int, now: int): Agg {
    var id := if conn in a.byConn then a.byConn[conn] else 0;
    var b := if id in a.jobs && a.jobs[id].client == Some(conn)
             then var d := Detach(a, id); d.(jobs := d.jobs[id := d.jobs[id].(orphanedAt := Some(now))])
             else a;
    b.(byConn := b.byConn - {conn})
  }

  predicate GraceOver(a: Agg, id: u64, now: int, grace: int)
    requires id in a.jobs
  {
    a.jobs[id].orphanedAt.Some? && now - a.jobs[id].orphanedAt.value > grace
  }

  function Expire(a: Agg, id: u64): Agg {
    a.(results := a.results - {id}, log := a.log + [JobDrop(id)])
  }

  /** An idle aggregator rewrites its log as the list of stored answers. */
  function CompactIdle(a: Agg, order: seq<u64>): Agg
    requires Lists(order, a.results.Keys)
  {
    var snap := Snapshot(Answers(a.results), order);
    a.(log := snap, kept := |snap|)
  }

  // ----------------------------------------- every event is replay of its records

  function SubmitRecords(w: Workload, a: Agg, spec: JobSpec): seq<Record> {
    if !Feeds(a, spec) then []
    else if spec.n != 0 then [StartOf(spec)]
    else [StartOf(spec), JobDone(spec.id, w.zero.hash, w.zero.nonce)]
  }

  function ResultRecords(w: Workload, a: Agg, tid: TaskID, p: Partial): seq<Record> {
    if !Accepts(a, tid) then []
    else
      var chunk := ChunkDone(tid.job, tid.idx, p.hash, p.nonce);
      var j := a.jobs[tid.job].core;
      var acc := w.merge(j.acc, p);
      if j.remaining != 1 then [chunk] else [chunk, JobDone(tid.job, acc.hash, acc.nonce)]
  }

  /** Every running job still waits for a chunk. */
  ghost predicate Unfinished(a: Agg) {
    forall id :: id in a.jobs ==> a.jobs[id].core.remaining != 0
  }

  lemma CoresUpdate(jobs: map<u64, Job>, id: u64, j: Job)
    ensures Cores(jobs[id := j]) == Cores(jobs)[id := j.core]
  {}

  lemma CoresRemove(jobs: map<u64, Job>, id: u64)
    ensures Cores(jobs - {id}) == Cores(jobs) - {id}
  {}

  lemma AnswersUpdate(results: map<u64, Finished>, id: u64, f: Finished)
    ensures Answers(results[id := f]) == Answers(results)[id := f.result]
  {}

  lemma AnswersRemove(results: map<u64, Finished>, id: u64)
    ensures Answers(results - {id}) == Answers(results) - {id}
  {}

  lemma DetachKeepsCore(a: Agg, id: u64)
    requires id in a.jobs
    ensures CoreOf(Detach(a, id)) == CoreOf(a)
  {
    assert Cores(Detach(a, id).jobs) == Cores(a.jobs);
  }

  lemma ApplyOne(w: Workload, c: Core, r: Record)
    ensures ApplyAll(w, c, [r]) == Apply(w, c, r)
  {
    assert [r][..0] == [];
  }

  lemma ApplyTwo(w: Workload, c: Core, r: Record, r': Record)
    ensures ApplyAll(w, c, [r, r']) == Apply(w, Apply(w, c, r), r')
  {
    assert [r, r'][..1] == [r];
    ApplyOne(w, c, r);
  }

  lemma FinishIsReplay(w: Workload, a: Agg, id: u64, completed: bool, now: int)
    requires id in a.jobs && WellFormed(CoreOf(a))
    ensures Finish(a, id, completed, now).log == a.log + [EndRecord(id, a.jobs[id].core.acc, completed)]
    ensures CoreOf(Finish(a, id, completed, now)) == Apply(w, CoreOf(a), EndRecord(id, a.jobs[id].core.acc, completed))
  {
    var b := Detach(a, id);
    DetachKeepsCore(a, id);
    CoresRemove(b.jobs, id);
    assert id in CoreOf(a).jobs;
    if completed {
      AnswersUpdate(b.results, id, Finished(a.jobs[id].core.acc, now));
    } else {
      assert Answers(a.results) - {id} == Answers(a.results);
    }
  }

  lemma FinishIfCompleteIsReplay(w: Workload, a: Agg, id: u64, now: int)
    requires id in a.jobs && WellFormed(CoreOf(a))
    ensures var b, acc := FinishIfComplete(a, id, now), a.jobs[id].core.acc;
            var r := JobDone(id, acc.hash, acc.nonce);
            if a.jobs[id].core.remaining != 0 then b == a
            else b.log == a.log + [r] && CoreOf(b) == Apply(w, CoreOf(a), r)
  {
    if a.jobs[id].core.remaining == 0 {
      FinishIsReplay(w, ReplyTo(a, a.jobs[id].client, id, a.jobs[id].core.acc), id, true, now);
    }
  }

  lemma RegisterIsReplay(w: Workload, a: Agg, spec: JobSpec)
    requires Feeds(a, spec)
    ensures Register(w, a, spec).log == a.log + [StartOf(spec)]
    ensures CoreOf(Register(w, a, spec)) == Apply(w, CoreOf(a), StartOf(spec))
  {
    CoresUpdate(a.jobs, spec.id, Job(JobCore(spec, spec.n, w.zero), None, None, a.cancels));
    assert Answers(a.results) - {spec.id} == Answers(a.results);
    assert SpecOf(StartOf(spec)) == spec;
  }

  lemma AttachKeepsCore(a: Agg, id: u64, conn: int, ended: bool, now: int)
    requires id in a.jobs
    ensures CoreOf(Attach(a, id, conn, ended, now)) == CoreOf(a)
    ensures Attach(a, id, conn, ended, now).log == a.log
  {
    assert Cores(Attach(a, id, conn, ended, now).jobs) == Cores(a.jobs);
  }

  lemma SubmitIsReplay(w: Workload, a: Agg, conn: int, ended: bool, spec: JobSpec, now: int)
    requires WellFormed(CoreOf(a)) && Unfinished(a)
    ensures var b, recs := Submit(w, a, conn, ended, spec, now), SubmitRecords(w, a, spec);
            b.log == a.log + recs && CoreOf(b) == ApplyAll(w, CoreOf(a), recs)
  {
    hide WellFormed, Finish;
    if spec.id in a.results {
    } else if spec.id in a.jobs {
      DetachKeepsCore(a, spec.id);
      AttachKeepsCore(Register(w, a, spec), spec.id, conn, ended, now);
    } else {
      var r := Register(w, a, spec);
      var t := Attach(r, spec.id, conn, ended, now);
      RegisterIsReplay(w, a, spec);
      AttachKeepsCore(r, spec.id, conn, ended, now);
      ApplyOne(w, CoreOf(a), StartOf(spec));
      if spec.n == 0 {
        ApplyKeepsWellFormed(w, CoreOf(a), StartOf(spec));
        FinishIfCompleteIsReplay(w, t, spec.id, now);
        ApplyTwo(w, CoreOf(a), StartOf(spec), JobDone(spec.id, w.zero.hash, w.zero.nonce));
      }
    }
  }

  lemma CountIsReplay(w: Workload, a: Agg, tid: TaskID, p: Partial)
    requires Accepts(a, tid)
    ensures CoreOf(Count(w, a, tid, p)) == Apply(w, CoreOf(a), ChunkDone(tid.job, tid.idx, p.hash, p.nonce))
  {
    CoresUpdate(a.jobs, tid.job, Count(w, a, tid, p).jobs[tid.job]);
    assert Counts(CoreOf(a), ChunkDone(tid.job, tid.idx, p.hash, p.nonce));
  }

  lemma TakeResultIsReplay(w: Workload, a: Agg, tid: TaskID, p: Partial, now: int)
    requires WellFormed(CoreOf(a)) && Unfinished(a)
    ensures var b, recs := TakeResult(w, a, tid, p, now), ResultRecords(w, a, tid, p);
            b.log == a.log + recs && CoreOf(b) == ApplyAll(w, CoreOf(a), recs)
  {
    if Accepts(a, tid) {
      var b := Count(w, a, tid, p);
      var r := ChunkDone(tid.job, tid.idx, p.hash, p.nonce);
      CountIsReplay(w, a, tid, p);
      ApplyKeepsWellFormed(w, CoreOf(a), r);
      FinishIfCompleteIsReplay(w, b, tid.job, now);
      ApplyOne(w, CoreOf(a), r);
      var acc := b.jobs[tid.job].core.acc;
      ApplyTwo(w, CoreOf(a), r, JobDone(tid.job, acc.hash, acc.nonce));
    }
  }

  lemma ExpireIsReplay(w: Workload, a: Agg, id: u64)
    requires WellFormed(CoreOf(a)) && id in a.results
    ensures CoreOf(Expire(a, id)) == Apply(w, CoreOf(a), JobDrop(id))
  {
    AnswersRemove(a.results, id);
    assert id in CoreOf(a).results;
  }

  lemma ClientGoneKeepsCore(a: Agg, conn: int, now: int)
    ensures CoreOf(ClientGone(a, conn, now)) == CoreOf(a)
    ensures ClientGone(a, conn, now).log == a.log
  {
    assert Cores(ClientGone(a, conn, now).jobs) == Cores(a.jobs);
  }

  // ------------------------------------------------------- cancels and clients

  /** A running job's cancel channel is its own and open; no channel is closed twice. */
  ghost predicate CancelsSound(a: Agg) {
    && (forall id :: id in a.jobs ==> a.jobs[id].cancel < a.cancels && a.closed[a.jobs[id].cancel] == 0)
    && (forall id, other :: id in a.jobs && other in a.jobs && id != other ==> a.jobs[id].cancel != a.jobs[other].cancel)
    && (forall c :: a.closed[c] <= 1)
    && (forall c :: c in a.closed ==> c < a.cancels)
  }

  /** byConn and job.client are inverses; a job without a client has an orphan time. */
  ghost predicate ClientsSound(a: Agg) {
    && (forall c :: c in a.byConn ==> a.byConn[c] in a.jobs && a.jobs[a.byConn[c]].client == Some(c))
    && (forall id :: id in a.jobs && a.jobs[id].client.Some? ==>
          a.jobs[id].client.value in a.byConn && a.byConn[a.jobs[id].client.value] == id)
    && (forall id :: id in a.jobs ==> (a.jobs[id].client.Some? <==> a.jobs[id].orphanedAt.None?))
  }

  /** After a detach nobody is attached to the job, everybody else still is to theirs, and detaching again does nothing. */
  lemma DetachFrees(a: Agg, id: u64)
    requires id in a.jobs && ClientsSound(a)
    ensures var b := Detach(a, id);
            && b.jobs[id].client == None && (forall c :: c in b.byConn ==> b.byConn[c] != id)
            && (forall other :: other in a.jobs && other != id ==> b.jobs[other] == a.jobs[other])
            && (forall c :: c in a.byConn && a.byConn[c] != id ==> c in b.byConn && b.byConn[c] == a.byConn[c])
            && Detach(b, id) == b
  {}

  lemma DetachKeepsCancels(a: Agg, id: u64)
    requires id in a.jobs && CancelsSound(a)
    ensures CancelsSound(Detach(a, id))
  {}

  lemma FinishKeepsCancels(a: Agg, id: u64, completed: bool, now: int)
    requires id in a.jobs && CancelsSound(a)
    ensures CancelsSound(Finish(a, id, completed, now))
  {
    DetachKeepsCancels(a, id);
  }

  lemma FinishKeepsClients(a: Agg, id: u64, completed: bool, now: int)
    requires id in a.jobs && ClientsSound(a)
    ensures ClientsSound(Finish(a, id, completed, now))
  {}

  lemma FinishIfCompleteKeepsSound(a: Agg, id: u64, now: int)
    requires id in a.jobs && CancelsSound(a)
    ensures CancelsSound(FinishIfComplete(a, id, now))
    ensures ClientsSound(a) ==> ClientsSound(FinishIfComplete(a, id, now))
  {
    hide Finish;
    var b := ReplyTo(a, a.jobs[id].client, id, a.jobs[id].core.acc);
    assert CancelsSound(b);
    FinishKeepsCancels(b, id, true, now);
    if ClientsSound(a) {
      assert ClientsSound(b);
      FinishKeepsClients(b, id, true, now);
    }
  }

  lemma RegisterKeepsCancels(w: Workload, a: Agg, spec: JobSpec)
    requires CancelsSound(a)
    ensures CancelsSound(Register(w, a, spec))
  {
    if spec.id in a.jobs { DetachKeepsCancels(a, spec.id); }
  }

  lemma AttachKeepsCancels(a: Agg, id: u64, conn: int, ended: bool, now: int)
    requires id in a.jobs && CancelsSound(a)
    ensures CancelsSound(Attach(a, id, conn, ended, now))
  {}

  lemma RegisterAndAttachClients(w: Workload, a: Agg, conn: int, ended: bool, spec: JobSpec, now: int)
    requires ClientsSound(a) && conn !in a.byConn
    ensures ClientsSound(Attach(Register(w, a, spec), spec.id, conn, ended, now))
  {}

  /** Attaching a connection that waits for no other job keeps the two maps inverse. */
  lemma SubmitKeepsSound(w: Workload, a: Agg, conn: int, ended: bool, spec: JobSpec, now: int)
    requires CancelsSound(a)
    ensures CancelsSound(Submit(w, a, conn, ended, spec, now))
    ensures ClientsSound(a) && conn !in a.byConn ==> ClientsSound(Submit(w, a, conn, ended, spec, now))
  {
    if spec.id !in a.results {
      RegisterKeepsCancels(w, a, spec);
      AttachKeepsCancels(Register(w, a, spec), spec.id, conn, ended, now);
      if ClientsSound(a) && conn !in a.byConn { RegisterAndAttachClients(w, a, conn, ended, spec, now); }
      FinishIfCompleteKeepsSound(Attach(Register(w, a, spec), spec.id, conn, ended, now), spec.id, now);
    }
  }

  lemma CountKeepsSound(w: Workload, a: Agg, tid: TaskID, p: Partial)
    requires tid.job in a.jobs
    ensures CancelsSound(a) ==> CancelsSound(Count(w, a, tid, p))
    ensures ClientsSound(a) ==> ClientsSound(Count(w, a, tid, p))
  {}

  lemma TakeResultKeepsSound(w: Workload, a: Agg, tid: TaskID, p: Partial, now: int)
    requires CancelsSound(a)
    ensures CancelsSound(TakeResult(w, a, tid, p, now))
    ensures ClientsSound(a) ==> ClientsSound(TakeResult(w, a, tid, p, now))
  {
    if Accepts(a, tid) {
      CountKeepsSound(w, a, tid, p);
      FinishIfCompleteKeepsSound(Count(w, a, tid, p), tid.job, now);
    }
  }

  lemma ClientGoneKeepsSound(a: Agg, conn: int, now: int)
    requires ClientsSound(a)
    ensures ClientsSound(ClientGone(a, conn, now))
    ensures conn !in ClientGone(a, conn, now).byConn
    ensures forall id :: id in a.jobs && a.jobs[id].client == Some(conn) ==>
              ClientGone(a, conn, now).jobs[id].client == None
  {}

  lemma ClientGoneKeepsCancels(a: Agg, conn: int, now: int)
    requires CancelsSound(a)
    ensures CancelsSound(ClientGone(a, conn, now))
  {}
}
