/**
 Who is answered, and when. The aggregator's steps in a run, said on its fields:
 what a request does, what a result does, how a job ends and since when it was
 abandoned. Over runs: nobody who asked is forgotten, nobody else is answered,
 nobody is answered twice.
 */
module Replies {
  import opened Base
  import opened Workloads
  import opened Jobs
  import opened Journal
  import opened Aggregation
  import opened Scheduler
  import opened ClientTracking
  import opened AggregatorRuns

  /** Every other job and every other stored answer is as it was. */
  ghost predicate OthersKept(a: Agg, b: Agg, id: u64) {
    && (forall x :: x != id ==> (x in a.jobs <==> x in b.jobs) && (x in a.results <==> x in b.results))
    && (forall x :: x != id && x in a.jobs ==> b.jobs[x] == a.jobs[x])
    && (forall x :: x != id && x in a.results ==> b.results[x] == a.results[x])
  }

  /** conn waits for the job; if it is over, the job is abandoned from now on. */
  ghost predicate WaitsFor(b: Agg, id: u64, conn: int, ended: bool, now: int) {
    && id in b.jobs
    && (ended ==> b.jobs[id].client.None? && b.jobs[id].orphanedAt == Some(now) && conn !in b.byConn)
    && (!ended ==> b.jobs[id].client == Some(conn) && b.jobs[id].orphanedAt.None? && conn in b.byConn && b.byConn[conn] == id)
  }

  /** A request for an answered job: the stored answer goes out, nothing else happens. */
  ghost predicate AnsweredAgain(a: Agg, b: Agg, id: u64, conn: int) {
    && id in a.results
    && b.replies == a.replies + [Reply(conn, id, a.results[id].result)]
    && b.jobs == a.jobs && b.results == a.results && b.done == a.done && b.log == a.log && b.byConn == a.byConn && b.closed == a.closed
  }

  /** A request for a running job: whoever waited before is let go. */
  ghost predicate TakenOver(a: Agg, b: Agg, id: u64, conn: int, ended: bool, now: int) {
    && id in a.jobs && WaitsFor(b, id, conn, ended, now)
    && b.jobs[id].core == a.jobs[id].core && b.jobs[id].cancel == a.jobs[id].cancel
    && (forall c :: c != conn && c in b.byConn ==> c in a.byConn && b.byConn[c] == a.byConn[c] != id)
    && b.replies == a.replies && b.done == a.done && b.log == a.log && b.closed == a.closed
  }

  /** A request for an unknown job with something to search: it starts with nothing counted. */
  ghost predicate Started(w: Workload, a: Agg, b: Agg, spec: JobSpec, conn: int, ended: bool, now: int) {
    && WaitsFor(b, spec.id, conn, ended, now)
    && b.jobs[spec.id].core.spec == spec && b.jobs[spec.id].core.remaining == spec.n && b.jobs[spec.id].core.acc == w.zero
    && b.log == a.log + [JobStart(spec.id, spec.lo, spec.hi, spec.size, spec.n, spec.msg)]
    && b.replies == a.replies && b.done == a.done && b.closed == a.closed
  }

  /** A request for an unknown job with nothing to search: it is answered and stored on the spot. */
  ghost predicate AnsweredAtOnce(w: Workload, a: Agg, b: Agg, spec: JobSpec, conn: int, ended: bool, now: int) {
    && spec.id !in b.jobs && spec.id in b.results && b.results[spec.id].result == w.zero && b.results[spec.id].at == now
    && b.replies == (if ended then a.replies else a.replies + [Reply(conn, spec.id, w.zero)])
    && b.log == a.log + [JobStart(spec.id, spec.lo, spec.hi, spec.size, spec.n, spec.msg), JobDone(spec.id, w.zero.hash, w.zero.nonce)]
    && b.byConn == a.byConn && b.done == a.done
  }

  lemma StoredIsAnswered(w: Workload, a: Agg, conn: int, ended: bool, spec: JobSpec, now: int)
    requires spec.id in a.results
    ensures AnsweredAgain(a, Submit(w, a, conn, ended, spec, now), spec.id, conn)
  {}

  lemma RunningIsTakenOver(w: Workload, a: Agg, conn: int, ended: bool, spec: JobSpec, now: int)
    requires ClientsSound(a) && Unfinished(a) && conn !in a.byConn && spec.id in a.jobs && spec.id !in a.results
    ensures var b := Submit(w, a, conn, ended, spec, now);
            TakenOver(a, b, spec.id, conn, ended, now) && OthersKept(a, b, spec.id)
  {
    hide Finish, ReplyTo;
  }

  lemma UnknownIsStarted(w: Workload, a: Agg, conn: int, ended: bool, spec: JobSpec, now: int)
    requires conn !in a.byConn && spec.id !in a.jobs && spec.id !in a.results && spec.n != 0
    ensures var b := Submit(w, a, conn, ended, spec, now);
            Started(w, a, b, spec, conn, ended, now) && OthersKept(a, b, spec.id)
  {
    hide Finish, ReplyTo;
  }

  lemma EmptyIsAnswered(w: Workload, a: Agg, conn: int, ended: bool, spec: JobSpec, now: int)
    requires conn !in a.byConn && spec.id !in a.jobs && spec.id !in a.results && spec.n == 0
    ensures var b := Submit(w, a, conn, ended, spec, now);
            AnsweredAtOnce(w, a, b, spec, conn, ended, now) && OthersKept(a, b, spec.id)
  {
    var b := Submit(w, a, conn, ended, spec, now);
    assert Under(spec.id, 0) == {};
    assert a.log + [StartOf(spec)] + [JobDone(spec.id, w.zero.hash, w.zero.nonce)]
        == a.log + [StartOf(spec), JobDone(spec.id, w.zero.hash, w.zero.nonce)];
    assert b.byConn == a.byConn;
  }

  /** What a request does, by what the aggregator knows of its job. */
  lemma RequestsAreTakenUp(cfg: Config, states: seq<Sys>, events: seq<Event>, i: nat, conn: int, now: int)
    requires Run(cfg, states, events) && i < |events| && events[i] == Submitted(conn, now)
    ensures conn in states[i].front.handlers && states[i].chunkSize > 0
    ensures var a, b, id, ended := states[i].agg, states[i + 1].agg, states[i].front.handlers[conn], conn in states[i].front.ended;
            var spec := SpecFor(cfg, states[i].chunkSize, id);
            && OthersKept(a, b, id)
            && (id in a.results ==> AnsweredAgain(a, b, id, conn))
            && (id in a.jobs ==> TakenOver(a, b, id, conn, ended, now))
            && (id !in a.results && id !in a.jobs && cfg.names(id).lo < cfg.names(id).hi ==> Started(cfg.w, a, b, spec, conn, ended, now))
            && (id !in a.results && id !in a.jobs && cfg.names(id).hi <= cfg.names(id).lo ==> AnsweredAtOnce(cfg.w, a, b, spec, conn, ended, now))
  {
    TrackedHolds(cfg, states, events, i);
    SaneHolds(cfg, states, events, i);
    assert Next(cfg, states[i], events[i], states[i + 1]);
    AggregatorInvariant(cfg, states, events, i, states[i].front.handlers[conn]);
    SubmissionIsTakenUp(cfg, states[i], conn, now, states[i + 1]);
  }

  lemma SubmissionIsTakenUp(cfg: Config, s: Sys, conn: int, now: int, s': Sys)
    requires Tracked(s) && Sane(s) && SubmitStep(cfg, s, conn, now, s')
    requires !(s.front.handlers[conn] in s.agg.jobs && s.front.handlers[conn] in s.agg.results)
    ensures var a, b, id, ended := s.agg, s'.agg, s.front.handlers[conn], conn in s.front.ended;
            var spec := SpecFor(cfg, s.chunkSize, id);
            && OthersKept(a, b, id)
            && (id in a.results ==> AnsweredAgain(a, b, id, conn))
            && (id in a.jobs ==> TakenOver(a, b, id, conn, ended, now))
            && (id !in a.results && id !in a.jobs && cfg.names(id).lo < cfg.names(id).hi ==> Started(cfg.w, a, b, spec, conn, ended, now))
            && (id !in a.results && id !in a.jobs && cfg.names(id).hi <= cfg.names(id).lo ==> AnsweredAtOnce(cfg.w, a, b, spec, conn, ended, now))
  {
    var a, id, ended := s.agg, s.front.handlers[conn], conn in s.front.ended;
    var spec := SpecFor(cfg, s.chunkSize, id);
    SplitIsExact(cfg.names(id).lo, cfg.names(id).hi, s.chunkSize);
    hide Submit, AnsweredAgain, TakenOver, Started, AnsweredAtOnce;
    if id in a.results {
      StoredIsAnswered(cfg.w, a, conn, ended, spec, now);
      assert OthersKept(a, s'.agg, id) by { KeptWhenAnswered(a, s'.agg, id, conn); }
    } else if id in a.jobs {
      RunningIsTakenOver(cfg.w, a, conn, ended, spec, now);
    } else if spec.n == 0 {
      EmptyIsAnswered(cfg.w, a, conn, ended, spec, now);
    } else {
      UnknownIsStarted(cfg.w, a, conn, ended, spec, now);
    }
  }

  lemma KeptWhenAnswered(a: Agg, b: Agg, id: u64, conn: int)
    requires AnsweredAgain(a, b, id, conn)
    ensures OthersKept(a, b, id)
  {}

  // --------------------------------------------------------------- a result arrives

  /** One more chunk is counted, and the job goes on. */
  ghost predicate OneMore(w: Workload, a: Agg, b: Agg, tid: TaskID, p: Partial) {
    && tid.job in a.jobs && tid.job in b.jobs
    && b.done == a.done + {tid} && b.log == a.log + [ChunkDone(tid.job, tid.idx, p.hash, p.nonce)]
    && b.replies == a.replies && b.byConn == a.byConn && b.closed == a.closed
    && var j, k := a.jobs[tid.job], b.jobs[tid.job];
       && k.core.spec == j.core.spec && k.core.remaining == j.core.remaining - 1 && k.core.acc == w.merge(j.core.acc, p)
       && k.client == j.client && k.orphanedAt == j.orphanedAt && k.cancel == j.cancel
  }

  /** The last chunk: the answer is stored under the present time and sent to whoever waits, once. */
  ghost predicate Completed(w: Workload, a: Agg, b: Agg, tid: TaskID, p: Partial, now: int) {
    && tid.job in a.jobs && tid.job !in b.jobs && tid.job in b.results
    && (forall t :: t in b.done <==> t in a.done && t.job != tid.job)
    && var j, answer := a.jobs[tid.job], w.merge(a.jobs[tid.job].core.acc, p);
       && b.results[tid.job].result == answer && b.results[tid.job].at == now
       && b.replies == (if j.client.Some? then a.replies + [Reply(j.client.value, tid.job, answer)] else a.replies)
       && b.closed == a.closed + multiset{j.cancel}
       && b.log == a.log + [ChunkDone(tid.job, tid.idx, p.hash, p.nonce), JobDone(tid.job, answer.hash, answer.nonce)]
       && (forall c :: c in b.byConn <==> c in a.byConn && j.client != Some(c))
  }

  lemma CountGoesOn(w: Workload, a: Agg, tid: TaskID, p: Partial, now: int)
    requires Accepts(a, tid) && a.jobs[tid.job].core.remaining != 1
    ensures var b := TakeResult(w, a, tid, p, now); OneMore(w, a, b, tid, p) && OthersKept(a, b, tid.job)
  {}

  lemma CountCompletes(w: Workload, a: Agg, tid: TaskID, p: Partial, now: int)
    requires Accepts(a, tid) && a.jobs[tid.job].core.remaining == 1 && WellFormed(CoreOf(a))
    ensures var b := TakeResult(w, a, tid, p, now); Completed(w, a, b, tid, p, now) && OthersKept(a, b, tid.job)
  {
    var c, b := Count(w, a, tid, p), TakeResult(w, a, tid, p, now);
    var j := a.jobs[tid.job].core;
    assert tid.job in CoreOf(a).jobs;
    forall t ensures t in b.done <==> t in a.done && t.job != tid.job {
      assert t in a.done && t.job == tid.job ==> t in Under(tid.job, j.spec.n);
      assert tid in Under(tid.job, j.spec.n);
    }
  }

  /** What a forwarded result does. */
  lemma ResultsAreCounted(cfg: Config, states: seq<Sys>, events: seq<Event>, i: nat)
    requires Run(cfg, states, events) && i < |events| && events[i].Forwarded?
    ensures events[i].conn in states[i].workers && states[i].workers[events[i].conn].hand.Some?
    ensures var a, b, (tid, p) := states[i].agg, states[i + 1].agg, states[i].workers[events[i].conn].hand.value;
            && OthersKept(a, b, tid.job)
            && (tid.job in a.jobs && tid.idx < a.jobs[tid.job].core.spec.n && tid !in a.done ==>
                  if a.jobs[tid.job].core.remaining == 1 then Completed(cfg.w, a, b, tid, p, events[i].now) else OneMore(cfg.w, a, b, tid, p))
            && (!(tid.job in a.jobs && tid.idx < a.jobs[tid.job].core.spec.n && tid !in a.done) ==> b == a)
  {
    SaneHolds(cfg, states, events, i);
    assert Next(cfg, states[i], events[i], states[i + 1]);
    ForwardIsCounted(cfg, states[i], events[i], states[i + 1]);
  }

  lemma ForwardIsCounted(cfg: Config, s: Sys, e: Event, s': Sys)
    requires Sane(s) && e.Forwarded? && WorkerStep(cfg, s, e, s')
    ensures var a, b, (tid, p) := s.agg, s'.agg, s.workers[e.conn].hand.value;
            && OthersKept(a, b, tid.job)
            && (tid.job in a.jobs && tid.idx < a.jobs[tid.job].core.spec.n && tid !in a.done ==>
                  if a.jobs[tid.job].core.remaining == 1 then Completed(cfg.w, a, b, tid, p, e.now) else OneMore(cfg.w, a, b, tid, p))
            && (!(tid.job in a.jobs && tid.idx < a.jobs[tid.job].core.spec.n && tid !in a.done) ==> b == a)
  {
    hide WellFormed, Completed, OneMore;
    var (tid, p) := s.workers[e.conn].hand.value;
    if Accepts(s.agg, tid) {
      hide TakeResult;
      if s.agg.jobs[tid.job].core.remaining == 1 {
        CountCompletes(cfg.w, s.agg, tid, p, e.now);
      } else {
        CountGoesOn(cfg.w, s.agg, tid, p, e.now);
      }
    }
  }

  // ------------------------------------------------------------------ how a job ends

  /** Nobody had waited for the job for longer than the grace period; it goes without an answer. */
  ghost predicate Abandoned(a: Agg, b: Agg, id: u64, now: int, grace: int) {
    && id in a.jobs && id !in b.jobs && id !in b.results
    && a.jobs[id].client.None? && a.jobs[id].orphanedAt.Some? && now - a.jobs[id].orphanedAt.value > grace
    && (forall t :: t in b.done <==> t in a.done && t.job != id)
    && b.replies == a.replies && b.byConn == a.byConn && b.log == a.log + [JobDrop(id)]
    && b.closed == a.closed + multiset{a.jobs[id].cancel}
  }

  lemma DropIsAbandonment(cfg: Config, s: Sys, id: u64, now: int, s': Sys)
    requires Tracked(s) && Sane(s) && AggregatorStep(cfg, s, Dropped(id, now), s')
    ensures Abandoned(s.agg, s'.agg, id, now, cfg.grace) && OthersKept(s.agg, s'.agg, id)
  {
    var a, b := s.agg, s'.agg;
    var j := a.jobs[id].core;
    assert id in CoreOf(a).jobs;
    assert id !in CoreOf(a).results;
    forall t ensures t in b.done <==> t in a.done && t.job != id {
      assert t in a.done && t.job == id ==> t in Under(id, j.spec.n);
    }
  }

  /** A notice lets go of the job its connection waited for, from now on. */
  ghost predicate LetGo(a: Agg, b: Agg, conn: int, now: int) {
    && b.jobs.Keys == a.jobs.Keys && b.results == a.results && b.replies == a.replies && b.done == a.done && b.log == a.log && b.closed == a.closed
    && (forall c :: c in b.byConn <==> c in a.byConn && c != conn)
    && (forall id :: id in a.jobs && a.jobs[id].client != Some(conn) ==> b.jobs[id] == a.jobs[id])
    && (forall id :: id in a.jobs && a.jobs[id].client == Some(conn) ==>
          b.jobs[id].client.None? && b.jobs[id].orphanedAt == Some(now) && b.jobs[id].core == a.jobs[id].core && b.jobs[id].cancel == a.jobs[id].cancel)
  }

  lemma NoticeLetsGo(a: Agg, conn: int, now: int)
    requires ClientsSound(a)
    ensures LetGo(a, ClientGone(a, conn, now), conn, now)
  {}

  /** A lost connection frees its job and no other. */
  lemma NoticesAreHeeded(cfg: Config, states: seq<Sys>, events: seq<Event>, i: nat, conn: int, now: int)
    requires Run(cfg, states, events) && i < |events| && events[i] == Noticed(conn, now)
    ensures LetGo(states[i].agg, states[i + 1].agg, conn, now)
  {
    TrackedHolds(cfg, states, events, i);
    assert Next(cfg, states[i], events[i], states[i + 1]);
    NoticeLetsGo(states[i].agg, conn, now);
  }

  /** What the steps that leave the aggregator's jobs alone have in common. */
  lemma QuietForJobs(cfg: Config, s: Sys, e: Event, s': Sys)
    requires Next(cfg, s, e, s') && !e.Submitted? && !e.Forwarded? && !e.Noticed? && !e.Dropped? && !e.Crash?
    ensures s'.agg.jobs == s.agg.jobs && s'.agg.replies == s.agg.replies && s'.agg.byConn == s.agg.byConn
  {
    if !TouchesAggregator(e) { OtherStepsLeaveTheAggregator(cfg, s, e, s'); }
  }

  lemma QuietStep(cfg: Config, states: seq<Sys>, events: seq<Event>, i: nat)
    requires Run(cfg, states, events) && i < |events|
    requires !events[i].Submitted? && !events[i].Forwarded? && !events[i].Noticed? && !events[i].Dropped? && !events[i].Crash?
    ensures var a, b := states[i].agg, states[i + 1].agg; b.jobs == a.jobs && b.replies == a.replies && b.byConn == a.byConn
  {
    QuietForJobs(cfg, states[i], events[i], states[i + 1]);
  }

  /** A job the tick gives up. */
  lemma DropsAbandon(cfg: Config, states: seq<Sys>, events: seq<Event>, i: nat)
    requires Run(cfg, states, events) && i < |events| && events[i].Dropped?
    ensures Abandoned(states[i].agg, states[i + 1].agg, events[i].id, events[i].now, cfg.grace)
    ensures OthersKept(states[i].agg, states[i + 1].agg, events[i].id)
  {
    TrackedHolds(cfg, states, events, i);
    SaneHolds(cfg, states, events, i);
    assert Next(cfg, states[i], events[i], states[i + 1]);
    DropIsAbandonment(cfg, states[i], events[i].id, events[i].now, states[i + 1]);
  }

  /** A job ends with its answer stored, or abandoned; its cancel channel is closed, and no other. */
  lemma JobsEndOnlySo(cfg: Config, states: seq<Sys>, events: seq<Event>, i: nat, id: u64)
    requires Run(cfg, states, events) && i < |events| && !events[i].Crash?
    requires id in states[i].agg.jobs && id !in states[i + 1].agg.jobs
    ensures var a, b := states[i].agg, states[i + 1].agg;
            && b.closed == a.closed + multiset{a.jobs[id].cancel}
            && (|| (events[i].Forwarded? && a.jobs[id].core.remaining == 1 && id in b.results && b.results[id].at == events[i].now)
                || (events[i].Dropped? && Abandoned(a, b, id, events[i].now, cfg.grace)))
  {
    var e := events[i];
    hide Run, SpecFor;
    if e.Submitted? {
      RequestsAreTakenUp(cfg, states, events, i, e.conn, e.now);
    } else if e.Forwarded? {
      ResultsAreCounted(cfg, states, events, i);
    } else if e.Noticed? {
      NoticesAreHeeded(cfg, states, events, i, e.conn, e.now);
    } else if e.Dropped? {
      DropsAbandon(cfg, states, events, i);
    } else {
      QuietStep(cfg, states, events, i);
    }
  }

  // ------------------------------------------------------------- since when abandoned

  /** The step leaves the job without a client at time t. */
  predicate OrphanedBy(s: Sys, e: Event, id: u64, t: int) {
    || (e.Noticed? && e.now == t && id in s.agg.jobs && s.agg.jobs[id].client == Some(e.conn))
    || (e.Submitted? && e.now == t && e.conn in s.front.ended && e.conn in s.front.handlers && s.front.handlers[e.conn] == id)
    || (e.Crash? && e.now == t)
  }

  predicate NobodyWaits(s: Sys, id: u64, t: int) {
    id in s.agg.jobs && s.agg.jobs[id].client.None? && s.agg.jobs[id].orphanedAt == Some(t)
  }

  lemma OrphanedByRequest(cfg: Config, states: seq<Sys>, events: seq<Event>, i: nat, id: u64, t: int)
    requires Run(cfg, states, events) && i < |events| && events[i].Submitted? && NobodyWaits(states[i + 1], id, t)
    ensures OrphanedBy(states[i], events[i], id, t) || NobodyWaits(states[i], id, t)
  {
    hide Run;
    RequestsAreTakenUp(cfg, states, events, i, events[i].conn, events[i].now);
    hide SpecFor;
  }

  lemma OrphanedBeforeResult(cfg: Config, states: seq<Sys>, events: seq<Event>, i: nat, id: u64, t: int)
    requires Run(cfg, states, events) && i < |events| && events[i].Forwarded? && NobodyWaits(states[i + 1], id, t)
    ensures NobodyWaits(states[i], id, t)
  {
    hide Run;
    ResultsAreCounted(cfg, states, events, i);
  }

  /** After a crash every job starts alone, at the time of the restart. */
  lemma CrashOrphans(cfg: Config, states: seq<Sys>, events: seq<Event>, i: nat, id: u64)
    requires Run(cfg, states, events) && i < |events| && events[i].Crash? && id in states[i + 1].agg.jobs
    ensures NobodyWaits(states[i + 1], id, events[i].now)
  {
    assert Next(cfg, states[i], events[i], states[i + 1]);
  }

  lemma OrphanedOnce(cfg: Config, states: seq<Sys>, events: seq<Event>, i: nat, id: u64, t: int)
    requires Run(cfg, states, events) && i < |events| && NobodyWaits(states[i + 1], id, t)
    ensures OrphanedBy(states[i], events[i], id, t) || NobodyWaits(states[i], id, t)
  {
    var e := events[i];
    hide Run, SpecFor;
    if e.Submitted? {
      OrphanedByRequest(cfg, states, events, i, id, t);
    } else if e.Forwarded? {
      OrphanedBeforeResult(cfg, states, events, i, id, t);
    } else if e.Noticed? {
      NoticesAreHeeded(cfg, states, events, i, e.conn, e.now);
    } else if e.Dropped? {
      DropsAbandon(cfg, states, events, i);
    } else if e.Crash? {
      CrashOrphans(cfg, states, events, i, id);
    } else {
      QuietStep(cfg, states, events, i);
    }
  }

  /** The time a job carries is that of the step that left it alone, and nobody has waited for it since. */
  lemma {:induction false} AloneSince(cfg: Config, states: seq<Sys>, events: seq<Event>, i: nat, id: u64, t: int) returns (k: nat)
    requires Run(cfg, states, events) && i < |states| && NobodyWaits(states[i], id, t)
    ensures k < i && OrphanedBy(states[k], events[k], id, t)
    ensures forall m :: k < m <= i ==> NobodyWaits(states[m], id, t)
  {
    hide Next;
    if i == 0 {
      assert false;
    } else {
      OrphanedOnce(cfg, states, events, i - 1, id, t);
      hide OrphanedBy, NobodyWaits;
      if OrphanedBy(states[i - 1], events[i - 1], id, t) {
        k := i - 1;
      } else {
        k := AloneSince(cfg, states, events, i - 1, id, t);
      }
    }
  }

  /** A job is given up only after nobody has waited for it for more than the grace period. */
  lemma GivenUpOnlyAfterGrace(cfg: Config, states: seq<Sys>, events: seq<Event>, i: nat, id: u64, now: int) returns (k: nat, t: int)
    requires Run(cfg, states, events) && i < |events| && events[i] == Dropped(id, now)
    ensures now - t > cfg.grace && k < i && OrphanedBy(states[k], events[k], id, t)
    ensures forall m :: k < m <= i ==> NobodyWaits(states[m], id, t)
    ensures Abandoned(states[i].agg, states[i + 1].agg, id, now, cfg.grace)
  {
    DropsAbandon(cfg, states, events, i);
    t := states[i].agg.jobs[id].orphanedAt.value;
    k := AloneSince(cfg, states, events, i, id, t);
  }

  // ------------------------------------------------------------- how long an answer is kept

  predicate Stored(s: Sys, id: u64, f: Finished) { id in s.agg.results && s.agg.results[id] == f }

  /** The step puts an answer in the table, or brings it back from the log, at the time it then carries. */
  predicate Stores(e: Event, t: int) { (e.Submitted? || e.Forwarded? || e.Crash?) && e.now == t }

  lemma StoredOneStepBack(cfg: Config, states: seq<Sys>, events: seq<Event>, i: nat, id: u64, f: Finished)
    requires Run(cfg, states, events) && i < |events| && Stored(states[i + 1], id, f)
    ensures Stored(states[i], id, f) || Stores(events[i], f.at)
  {
    var e := events[i];
    hide Run, SpecFor;
    if e.Submitted? {
      RequestsAreTakenUp(cfg, states, events, i, e.conn, e.now);
    } else if e.Forwarded? {
      ResultsAreCounted(cfg, states, events, i);
    } else if e.Noticed? {
      NoticesAreHeeded(cfg, states, events, i, e.conn, e.now);
    } else if e.Dropped? {
      DropsAbandon(cfg, states, events, i);
    } else {
      QuietForAnswers(cfg, states, events, i, id, f);
    }
  }

  lemma QuietForAnswers(cfg: Config, states: seq<Sys>, events: seq<Event>, i: nat, id: u64, f: Finished)
    requires Run(cfg, states, events) && i < |events| && Stored(states[i + 1], id, f)
    requires !events[i].Submitted? && !events[i].Forwarded? && !events[i].Noticed? && !events[i].Dropped?
    ensures Stored(states[i], id, f) || Stores(events[i], f.at)
  {
    var s, e, s' := states[i], events[i], states[i + 1];
    assert Next(cfg, s, e, s');
    hide Run, SubmitStep, WorkerStep, FrontStep, FeedStep, Resumed, CancelsSound;
    if !TouchesAggregator(e) {
      OtherStepsLeaveTheAggregator(cfg, s, e, s');
      hide Next;
    }
  }

  /** The time an answer carries is that of the step that stored it, and it has been there since. */
  lemma {:induction false} StoredSince(cfg: Config, states: seq<Sys>, events: seq<Event>, i: nat, id: u64, f: Finished) returns (k: nat)
    requires Run(cfg, states, events) && i < |states| && Stored(states[i], id, f)
    ensures k < i && Stores(events[k], f.at)
    ensures forall m :: k < m <= i ==> Stored(states[m], id, f)
  {
    hide Next;
    if i == 0 {
      assert false;
    } else {
      StoredOneStepBack(cfg, states, events, i - 1, id, f);
      hide Stored, Stores;
      if Stores(events[i - 1], f.at) {
        k := i - 1;
      } else {
        k := StoredSince(cfg, states, events, i - 1, id, f);
      }
    }
  }

  /** An answer is let go only after it has been there for longer than the time to live. */
  lemma KeptForTheTTL(cfg: Config, states: seq<Sys>, events: seq<Event>, i: nat, id: u64, now: int) returns (k: nat, f: Finished)
    requires Run(cfg, states, events) && i < |events| && events[i] == Expired(id, now)
    ensures now - f.at > cfg.ttl && k < i && Stores(events[k], f.at)
    ensures forall m :: k < m <= i ==> Stored(states[m], id, f)
    ensures var a, b := states[i].agg, states[i + 1].agg; b.results == a.results - {id} && b.jobs == a.jobs && b.log == a.log + [JobDrop(id)] && b.replies == a.replies
  {
    assert Next(cfg, states[i], events[i], states[i + 1]);
    f := states[i].agg.results[id];
    k := StoredSince(cfg, states, events, i, id, f);
  }

  // ------------------------------------------------------------------ who is answered

  /** One step answers at most one connection: the one that asks, or the one that waits. */
  ghost predicate AnswersAtMostOne(s: Sys, e: Event, s': Sys) {
    || s'.agg.replies == s.agg.replies
    || (&& |s'.agg.replies| == |s.agg.replies| + 1 && s'.agg.replies[..|s.agg.replies|] == s.agg.replies
        && var r := s'.agg.replies[|s.agg.replies|];
           && r.job in s'.agg.results && s'.agg.results[r.job].result == r.answer
           && (|| (e.Submitted? && e.conn == r.conn && r.conn in s.front.handlers && s.front.handlers[r.conn] == r.job)
               || (e.Forwarded? && r.job in s.agg.jobs && s.agg.jobs[r.job].client == Some(r.conn) && r.conn in s.agg.byConn && r.conn !in s'.agg.byConn)))
  }

  lemma RequestAnswersOne(cfg: Config, states: seq<Sys>, events: seq<Event>, i: nat)
    requires Run(cfg, states, events) && i < |events| && events[i].Submitted?
    ensures AnswersAtMostOne(states[i], events[i], states[i + 1])
  {
    hide Run;
    RequestsAreTakenUp(cfg, states, events, i, events[i].conn, events[i].now);
    hide SpecFor, OthersKept;
  }

  lemma ResultAnswersOne(cfg: Config, states: seq<Sys>, events: seq<Event>, i: nat)
    requires Run(cfg, states, events) && i < |events| && events[i].Forwarded?
    ensures AnswersAtMostOne(states[i], events[i], states[i + 1])
  {
    TrackedHolds(cfg, states, events, i);
    hide Run;
    ResultsAreCounted(cfg, states, events, i);
    hide OthersKept, CancelsSound, NoticeToCome;
  }

  /** In every step of every run. */
  lemma OneAnswerPerStep(cfg: Config, states: seq<Sys>, events: seq<Event>, i: nat)
    requires Run(cfg, states, events) && i < |events|
    ensures AnswersAtMostOne(states[i], events[i], states[i + 1])
  {
    var s, e, s' := states[i], events[i], states[i + 1];
    assert Next(cfg, s, e, s');
    hide Run;
    if e.Submitted? {
      RequestAnswersOne(cfg, states, events, i);
    } else if e.Forwarded? {
      ResultAnswersOne(cfg, states, events, i);
    } else if !e.Noticed? && !e.Dropped? && !e.Crash? {
      QuietForJobs(cfg, s, e, s');
    }
  }

  /** By now, connection c has made a request for job id. */
  ghost predicate HasAsked(states: seq<Sys>, events: seq<Event>, i: nat, c: int, id: u64)
    requires |states| == |events| + 1 && i < |states|
  {
    exists k :: 0 <= k < i && events[k].Submitted? && events[k].conn == c && c in states[k].front.handlers && states[k].front.handlers[c] == id
  }

  lemma StillHasAsked(states: seq<Sys>, events: seq<Event>, i: nat, j: nat, c: int, id: u64)
    requires |states| == |events| + 1 && i <= j < |states| && HasAsked(states, events, i, c, id)
    ensures HasAsked(states, events, j, c, id)
  {}

  lemma AsksNow(states: seq<Sys>, events: seq<Event>, i: nat, c: int, id: u64)
    requires |states| == |events| + 1 && i < |events|
    requires events[i].Submitted? && events[i].conn == c && c in states[i].front.handlers && states[i].front.handlers[c] == id
    ensures HasAsked(states, events, i + 1, c, id)
  {}

  /** A job's client changes only to a connection that asks for it in this very step. */
  lemma ClientAsked(cfg: Config, states: seq<Sys>, events: seq<Event>, i: nat, id: u64, c: int)
    requires Run(cfg, states, events) && i < |events| && id in states[i + 1].agg.jobs && states[i + 1].agg.jobs[id].client == Some(c)
    ensures || (id in states[i].agg.jobs && states[i].agg.jobs[id].client == Some(c))
            || (events[i].Submitted? && events[i].conn == c && c in states[i].front.handlers && states[i].front.handlers[c] == id)
  {
    var e := events[i];
    hide Run, SpecFor;
    if e.Submitted? {
      RequestsAreTakenUp(cfg, states, events, i, e.conn, e.now);
    } else if e.Forwarded? {
      ResultsAreCounted(cfg, states, events, i);
    } else if e.Noticed? {
      NoticesAreHeeded(cfg, states, events, i, e.conn, e.now);
    } else if e.Dropped? {
      DropsAbandon(cfg, states, events, i);
    } else if e.Crash? {
      CrashOrphans(cfg, states, events, i, id);
    } else {
      QuietStep(cfg, states, events, i);
    }
  }

  lemma {:induction false} ClientsHaveAsked(cfg: Config, states: seq<Sys>, events: seq<Event>, i: nat, id: u64, c: int)
    requires Run(cfg, states, events) && i < |states| && id in states[i].agg.jobs && states[i].agg.jobs[id].client == Some(c)
    ensures HasAsked(states, events, i, c, id)
  {
    hide Next;
    if i > 0 {
      ClientAsked(cfg, states, events, i - 1, id, c);
      if id in states[i - 1].agg.jobs && states[i - 1].agg.jobs[id].client == Some(c) {
        ClientsHaveAsked(cfg, states, events, i - 1, id, c);
      }
    }
  }

  /** Nobody is answered who did not ask, and nothing but what was asked for. */
  lemma {:induction false} OnlyAskersAreAnswered(cfg: Config, states: seq<Sys>, events: seq<Event>, i: nat, r: Reply)
    requires Run(cfg, states, events) && i < |states| && r in states[i].agg.replies
    ensures HasAsked(states, events, i, r.conn, r.job)
  {
    hide Next;
    if i > 0 {
      OneAnswerPerStep(cfg, states, events, i - 1);
      var was := states[i - 1].agg.replies;
      if r in was {
        hide AnswersAtMostOne;
        OnlyAskersAreAnswered(cfg, states, events, i - 1, r);
        StillHasAsked(states, events, i - 1, i, r.conn, r.job);
      } else {
        assert states[i].agg.replies == was + [r];
        if events[i - 1].Submitted? {
          AsksNow(states, events, i - 1, r.conn, r.job);
        } else {
          ClientsHaveAsked(cfg, states, events, i - 1, r.job, r.conn);
          StillHasAsked(states, events, i - 1, i, r.conn, r.job);
        }
      }
    }
  }

  // ------------------------------------------------------------- nobody is forgotten

  /** Somebody else asked for the same job between steps i and j, and took it over. */
  ghost predicate TakenOverSince(states: seq<Sys>, events: seq<Event>, i: nat, j: nat, id: u64)
    requires |states| == |events| + 1 && i <= j < |states|
  {
    exists k :: i < k < j && events[k].Submitted? && events[k].conn in states[k].front.handlers && states[k].front.handlers[events[k].conn] == id
  }

  ghost predicate AnsweredSince(s: Sys, s': Sys, c: int, id: u64) {
    exists k :: |s.agg.replies| <= k < |s'.agg.replies| && s'.agg.replies[k].conn == c && s'.agg.replies[k].job == id
  }

  predicate Attached(s: Sys, c: int, id: u64) { id in s.agg.jobs && s.agg.jobs[id].client == Some(c) }

  /** A client stays attached until it is answered, it is over, or another asks for its job. */
  lemma AttachedStays(cfg: Config, states: seq<Sys>, events: seq<Event>, i: nat, c: int, id: u64)
    requires Run(cfg, states, events) && i < |events| && !events[i].Crash? && Attached(states[i], c, id)
    ensures || Attached(states[i + 1], c, id)
            || (|states[i + 1].agg.replies| == |states[i].agg.replies| + 1
                && var r := states[i + 1].agg.replies[|states[i].agg.replies|]; r.conn == c && r.job == id)
            || c in states[i].front.ended
            || (events[i].Submitted? && events[i].conn in states[i].front.handlers && states[i].front.handlers[events[i].conn] == id)
  {
    TrackedHolds(cfg, states, events, i);
    assert events[i].Noticed? ==> events[i].conn in states[i].front.ended by {
      assert Next(cfg, states[i], events[i], states[i + 1]);
    }
    var e := events[i];
    hide Run, SpecFor;
    if e.Submitted? {
      RequestsAreTakenUp(cfg, states, events, i, e.conn, e.now);
    } else if e.Forwarded? {
      ResultsAreCounted(cfg, states, events, i);
    } else if e.Noticed? {
      NoticesAreHeeded(cfg, states, events, i, e.conn, e.now);
    } else if e.Dropped? {
      DropsAbandon(cfg, states, events, i);
    } else {
      QuietStep(cfg, states, events, i);
    }
  }

  lemma RepliesStay(cfg: Config, states: seq<Sys>, events: seq<Event>, i: nat)
    requires Run(cfg, states, events) && i < |events|
    ensures states[i].agg.replies <= states[i + 1].agg.replies
  {
    OneAnswerPerStep(cfg, states, events, i);
  }

  lemma EndedStays(cfg: Config, states: seq<Sys>, events: seq<Event>, i: nat)
    requires Run(cfg, states, events) && i < |events| && !events[i].Crash?
    ensures states[i].front.ended <= states[i + 1].front.ended
  {
    assert Next(cfg, states[i], events[i], states[i + 1]);
  }

  lemma {:induction false} AnsweredStays(cfg: Config, states: seq<Sys>, events: seq<Event>, i: nat, j: nat)
    requires Run(cfg, states, events) && i <= j < |states|
    ensures states[i].agg.replies <= states[j].agg.replies
    decreases j
  {
    hide Next;
    if i < j {
      AnsweredStays(cfg, states, events, i, j - 1);
      RepliesStay(cfg, states, events, j - 1);
    }
  }

  /**
   Who has asked is answered, or is still waited for by its job, or is over, or
   has lost the job to a later request for it: at every later moment of the process.
   */
  lemma {:induction false} NobodyIsForgotten(cfg: Config, states: seq<Sys>, events: seq<Event>, i: nat, j: nat, c: int, id: u64)
    requires Run(cfg, states, events) && i < j < |states| && (forall k :: i <= k < j ==> !events[k].Crash?)
    requires events[i].Submitted? && events[i].conn == c && c in states[i].front.handlers && states[i].front.handlers[c] == id
    ensures || AnsweredSince(states[i], states[j], c, id) || Attached(states[j], c, id)
            || c in states[j].front.ended || TakenOverSince(states, events, i, j, id)
    decreases j
  {
    hide Next;
    if j == i + 1 {
      AskedNow(cfg, states, events, i);
    } else {
      NobodyIsForgotten(cfg, states, events, i, j - 1, c, id);
      AnsweredStays(cfg, states, events, i, j - 1);
      RepliesStay(cfg, states, events, j - 1);
      EndedStays(cfg, states, events, j - 1);
      if Attached(states[j - 1], c, id) {
        AttachedStays(cfg, states, events, j - 1, c, id);
      }
    }
  }

  lemma AskedNow(cfg: Config, states: seq<Sys>, events: seq<Event>, i: nat)
    requires Run(cfg, states, events) && i < |events| && events[i].Submitted?
    ensures events[i].conn in states[i].front.handlers
    ensures var c, id := events[i].conn, states[i].front.handlers[events[i].conn];
            AnsweredSince(states[i], states[i + 1], c, id) || Attached(states[i + 1], c, id) || c in states[i + 1].front.ended
  {
    RequestsAreTakenUp(cfg, states, events, i, events[i].conn, events[i].now);
    EndedStays(cfg, states, events, i);
    hide Run, SpecFor;
    var c, a, b := events[i].conn, states[i].agg, states[i + 1].agg;
    var id := states[i].front.handlers[c];
    if |b.replies| == |a.replies| + 1 {
      var r := b.replies[|a.replies|];
      assert r.conn == c && r.job == id;
    }
  }

  // ------------------------------------------------------------ nobody is answered twice

  /** The connection has had its answer: no request of it is open, no job waits for it. */
  predicate Settled(s: Sys, c: int) {
    c !in s.front.handlers && c !in s.agg.byConn && (c in s.front.clients || c in s.front.gone)
  }

  /** The step answers connection c. */
  predicate RepliesTo(s: Sys, s': Sys, c: int) {
    |s'.agg.replies| == |s.agg.replies| + 1 && s'.agg.replies[|s.agg.replies|].conn == c
  }

  lemma AnsweredIsSettled(cfg: Config, states: seq<Sys>, events: seq<Event>, i: nat, c: int)
    requires Run(cfg, states, events) && i < |events| && RepliesTo(states[i], states[i + 1], c)
    ensures Settled(states[i + 1], c) && !Settled(states[i], c)
  {
    OneAnswerPerStep(cfg, states, events, i);
    TrackedHolds(cfg, states, events, i);
    TrackedHolds(cfg, states, events, i + 1);
    var s, e, s' := states[i], events[i], states[i + 1];
    assert Next(cfg, s, e, s');
    hide Run, CancelsSound, ClientsSound;
    if e.Submitted? {
      AnsweredRequestIsSettled(cfg, states, events, i, c);
    } else {
      hide AnswersAtMostOne, TakeResult;
      assert s'.front == s.front;
    }
  }

  lemma AnsweredRequestIsSettled(cfg: Config, states: seq<Sys>, events: seq<Event>, i: nat, c: int)
    requires Run(cfg, states, events) && i < |events| && events[i].Submitted? && events[i].conn == c && RepliesTo(states[i], states[i + 1], c)
    ensures Settled(states[i + 1], c)
  {
    var s, s' := states[i], states[i + 1];
    assert Next(cfg, s, events[i], s');
    TrackedHolds(cfg, states, events, i);
    RequestsAreTakenUp(cfg, states, events, i, c, events[i].now);
    hide Run, CancelsSound, ClientsSound, Submit, SpecFor, OthersKept;
    assert s'.agg.byConn == s.agg.byConn;
  }

  lemma SubmittedAddsOnlyItself(cfg: Config, s: Sys, e: Event, s': Sys, c: int)
    requires e.Submitted? && SubmitStep(cfg, s, e.conn, e.now, s')
    ensures c in s'.agg.byConn ==> c in s.agg.byConn || c == e.conn
    ensures s'.front == s.front.(handlers := s.front.handlers - {e.conn})
  {
    if c in s'.agg.byConn {
      SubmitByConn(cfg.w, s.agg, e.conn, e.conn in s.front.ended, SpecFor(cfg, s.chunkSize, s.front.handlers[e.conn]), e.now, c);
    }
    hide Submit, SpecFor;
  }

  lemma ForwardedAddsNobody(cfg: Config, s: Sys, e: Event, s': Sys, c: int)
    requires e.Forwarded? && WorkerStep(cfg, s, e, s')
    ensures c in s'.agg.byConn ==> c in s.agg.byConn
    ensures s'.front == s.front
  {
    var (tid, p) := s.workers[e.conn].hand.value;
    if c in s'.agg.byConn { TakeResultByConn(cfg.w, s.agg, tid, p, e.now, c); }
    hide TakeResult;
  }

  lemma SettledStays(cfg: Config, states: seq<Sys>, events: seq<Event>, i: nat, c: int)
    requires Run(cfg, states, events) && i < |events| && !events[i].Crash? && Settled(states[i], c)
    ensures Settled(states[i + 1], c)
  {
    var s, e, s' := states[i], events[i], states[i + 1];
    assert Next(cfg, s, e, s');
    hide Run;
    if e.Submitted? {
      hide SubmitStep;
      SubmittedAddsOnlyItself(cfg, s, e, s', c);
    } else if e.Forwarded? {
      hide WorkerStep;
      ForwardedAddsNobody(cfg, s, e, s', c);
    } else if !e.Noticed? && !e.Dropped? {
      QuietForJobs(cfg, s, e, s');
    }
  }

  lemma {:induction false} SettledFrom(cfg: Config, states: seq<Sys>, events: seq<Event>, i: nat, j: nat, c: int)
    requires Run(cfg, states, events) && i <= j < |states| && (forall k :: i <= k < j ==> !events[k].Crash?) && Settled(states[i], c)
    ensures Settled(states[j], c)
    decreases j
  {
    hide Next, Settled;
    if i < j {
      SettledFrom(cfg, states, events, i, j - 1, c);
      SettledStays(cfg, states, events, j - 1, c);
    }
  }

  /** Within one life of the server no connection is answered twice. */
  lemma NobodyIsAnsweredTwice(cfg: Config, states: seq<Sys>, events: seq<Event>, i: nat, j: nat, c: int)
    requires Run(cfg, states, events) && i < j < |events| && (forall k :: i <= k < j ==> !events[k].Crash?)
    requires RepliesTo(states[i], states[i + 1], c)
    ensures !RepliesTo(states[j], states[j + 1], c)
  {
    AnsweredIsSettled(cfg, states, events, i, c);
    SettledFrom(cfg, states, events, i + 1, j, c);
    if RepliesTo(states[j], states[j + 1], c) {
      AnsweredIsSettled(cfg, states, events, j, c);
      assert false;
    }
  }
}
