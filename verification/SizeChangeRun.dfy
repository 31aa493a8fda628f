/**
 The steps of one run: results are matched by task ID alone, so after a restart
 with a wider chunk size a late result of the old split is counted for a chunk
 of the new one.
 */
module SizeChangeRun {
  import opened Base
  import opened Workloads
  import HashSearch
  import opened Jobs
  import opened Journal
  import opened Honesty
  import opened Aggregation
  import opened Workers
  import opened Scheduler
  import opened SequentialAnswers

  const JOB: u64 := 1
  const CLIENT := 1
  const WORKER := 2
  const AGAIN := 3

  /** Nonce c is the best one, and the only good one. */
  function Needle(c: u64): HashSearch.HashFn { (m: Message, n: u64) => if n == c then 0 else 1 }

  /** What the server is configured with apart from its chunk size. */
  datatype Setup = Setup(window: nat, nqCap: nat, pqCap: nat, grace: int, ttl: int)

  function ConfigOf(u: Setup, w: Workload, names: Naming): Config { Config(w, names, u.window, u.nqCap, u.pqCap, u.grace, u.ttl) }

  function NeedleConfig(u: Setup, c: u64): Config
    requires c < TWO_64 - 1
  {
    ConfigOf(u, HashSearch.Instance(Needle(c)), (id: u64) => Honesty.Request(0, c + 1, []))
  }

  /** [0, c] in chunks of c, and in one chunk. */
  function Narrow(c: u64): JobSpec
    requires c < TWO_64 - 1
  {
    JobSpec(JOB, 0, c + 1, c, 2, [])
  }

  function Wide(c: u64, wider: u64): JobSpec
    requires c < TWO_64 - 1
  {
    JobSpec(JOB, 0, c + 1, wider, 1, [])
  }

  lemma NarrowIsTheSplit(u: Setup, c: u64)
    requires 0 < c < TWO_64 - 1
    ensures SpecFor(NeedleConfig(u, c), c, JOB) == Narrow(c)
  {
    var (n, size) := Split(0, c + 1, c);
    SplitIsExact(0, c + 1, c);
    assert (c + 1) / c <= 2 by { DivisionBounds(c + 1, c); if (c + 1) / c >= 3 { MulMono(3, (c + 1) / c, c); } }
    assert size == c;
    if n >= 3 { MulMono(2, n - 1, c); }
    assert n == 2;
  }

  lemma WideIsTheSplit(u: Setup, c: u64, wider: u64)
    requires 0 < c < wider
    ensures SpecFor(NeedleConfig(u, c), wider, JOB) == Wide(c, wider)
  {
    var (n, size) := Split(0, c + 1, wider);
    SplitIsExact(0, c + 1, wider);
    assert (c + 1) / wider <= 1 by { DivisionBounds(c + 1, wider); if (c + 1) / wider >= 2 { MulMono(2, (c + 1) / wider, wider); } }
    assert size == wider;
    if n >= 2 { MulMono(1, n - 1, wider); }
    assert n == 1;
  }

  // ---------------------------------------------------------------- the run

  datatype Case = Case(u: Setup, c: u64, wider: u64) {
    predicate Valid() { 0 < c < wider && u.window > 0 && u.nqCap > 0 }

    function Cfg(): Config
      requires Valid()
    {
      NeedleConfig(u, c)
    }

    function Old(): JobSpec
      requires Valid()
    {
      Narrow(c)
    }

    function New(): JobSpec
      requires Valid()
    {
      Wide(c, wider)
    }

    /** The first chunk of the old split. */
    function Late(): Task
      requires Valid()
    {
      TaskOf(Old(), 0)
    }

    function Partial(): Base.Partial
      requires Valid()
    {
      ResultOf(Cfg().w, Late())
    }

    /** When the grace period of the recovered job is over. */
    function Then(): int { u.grace + 1 }
  }

  function Fresh(k: Case): Sys { Sys(FRESH_AGG, map[], k.c, map[], [], [], map[], IDLE_FRONT, [EMPTY]) }

  function Asked(k: Case): Sys { Fresh(k).(front := Front({CLIENT}, map[CLIENT := JOB], {}, {}, {})) }

  function Started(k: Case): Sys
    requires k.Valid()
  {
    var job := Job(JobCore(k.Old(), 2, HashSearch.ZERO), Some(CLIENT), None, 0);
    WithAgg(Asked(k), Agg(map[JOB := job], {}, map[], map[CLIENT := JOB], [StartOf(k.Old())], 0, 1, multiset{}, []))
    .(front := Front({CLIENT}, map[], {}, {}, {}), specs := map[JOB := k.Old()], feeders := map[0 := Feeder(k.Old(), {}, 0)])
  }

  /** A new process with the wider chunk size resumes the job as it was split. */
  function Restarted(k: Case): Sys
    requires k.Valid()
  {
    var job := Job(JobCore(k.Old(), 2, HashSearch.ZERO), None, Some(0), 0);
    var a := Agg(map[JOB := job], {}, map[], map[], [StartOf(k.Old())], 1, 1, multiset{}, []);
    Sys(a, map[JOB := k.Old()], k.wider, map[0 := Feeder(k.Old(), {}, 0)], [], [], map[], IDLE_FRONT, [CoreOf(a)])
  }

  function Joined(k: Case): Sys
    requires k.Valid()
  {
    Restarted(k).(workers := map[WORKER := FRESH])
  }

  function Fed(k: Case): Sys
    requires k.Valid()
  {
    Joined(k).(feeders := map[0 := Feeder(k.Old(), {}, 1)], nq := [k.Late()])
  }

  function Pulled(k: Case): Sys
    requires k.Valid()
  {
    Fed(k).(nq := [], workers := map[WORKER := FRESH.(pulled := Some(k.Late()))])
  }

  function InFlight(k: Case): Sys
    requires k.Valid()
  {
    Pulled(k).(workers := map[WORKER := FRESH.(inflight := map[k.Late().id := Entry(k.Late(), 0, false, 0)], sent := {k.Late()})])
  }

  function Abandoned(k: Case): Sys
    requires k.Valid()
  {
    WithAgg(InFlight(k), Agg(map[], {}, map[], map[], [StartOf(k.Old()), JobDrop(JOB)], 1, 1, multiset{0}, []))
  }

  function AskedAgain(k: Case): Sys
    requires k.Valid()
  {
    Abandoned(k).(front := Front({AGAIN}, map[AGAIN := JOB], {}, {}, {}))
  }

  /** The client is back, and its job is split anew. */
  function Resubmitted(k: Case): Sys
    requires k.Valid()
  {
    var job := Job(JobCore(k.New(), 1, HashSearch.ZERO), Some(AGAIN), None, 1);
    var log := [StartOf(k.Old()), JobDrop(JOB), StartOf(k.New())];
    WithAgg(AskedAgain(k), Agg(map[JOB := job], {}, map[], map[AGAIN := JOB], log, 1, 2, multiset{0}, []))
    .(front := Front({AGAIN}, map[], {}, {}, {}), specs := map[JOB := k.New()],
      feeders := map[0 := Feeder(k.Old(), {}, 1), 1 := Feeder(k.New(), {}, 0)])
  }

  function LateAnswer(k: Case): Sys
    requires k.Valid()
  {
    var s := Resubmitted(k);
    s.(workers := map[WORKER := TakeAnswer(s.workers[WORKER], k.Late().id, k.Partial(), k.Then())])
  }

  function Replied(k: Case): Sys
    requires k.Valid()
  {
    var s := LateAnswer(k);
    WithAgg(s.(workers := map[WORKER := s.workers[WORKER].(hand := None)]),
            TakeResult(k.Cfg().w, s.agg, k.Late().id, k.Partial(), k.Then()))
  }

  lemma StartSteps(k: Case)
    requires k.Valid()
    ensures Init(Fresh(k))
    ensures Next(k.Cfg(), Fresh(k), Event.Request(CLIENT, JOB), Asked(k))
    ensures Next(k.Cfg(), Asked(k), Submitted(CLIENT, 0), Started(k))
  {
    NarrowIsTheSplit(k.u, k.c);
    hide SpecFor;
    var a := Submit(k.Cfg().w, FRESH_AGG, CLIENT, false, k.Old(), 0);
    assert a == Started(k).agg;
    assert Asked(k).front.handlers - {CLIENT} == map[];
  }

  function OldCore(k: Case): Core
    requires k.Valid()
  {
    Core(map[JOB := JobCore(k.Old(), 2, HashSearch.ZERO)], {}, map[])
  }

  lemma DiskReplays(k: Case)
    requires k.Valid()
    ensures Finalise(Replay(k.Cfg().w, [StartOf(k.Old())])) == OldCore(k)
    ensures Chunks(k.Cfg().w, [StartOf(k.Old())], JOB) == []
  {
    var w, disk := k.Cfg().w, [StartOf(k.Old())];
    assert disk[..0] == [];
    assert Replay(w, disk) == OldCore(k) by {
      ApplyOne(w, EMPTY, disk[0]);
      assert SpecOf(disk[0]) == k.Old();
      assert map[] - {JOB} == EMPTY.results;
    }
  }

  lemma DiskCompacts(k: Case)
    requires k.Valid()
    ensures Lists([], Finalise(Replay(k.Cfg().w, [StartOf(k.Old())])).results.Keys)
    ensures Lists([JOB], Finalise(Replay(k.Cfg().w, [StartOf(k.Old())])).jobs.Keys)
    ensures Compacted(k.Cfg().w, [StartOf(k.Old())], [], [JOB]) == [StartOf(k.Old())]
  {
    DiskReplays(k);
    hide Replay, Finalise, Chunks;
    var w, disk, c := k.Cfg().w, [StartOf(k.Old())], OldCore(k);
    assert [JOB][..0] == [];
    assert Lives(w, disk, c, [JOB]) == Lives(w, disk, c, []) + ([StartOf(c.jobs[JOB].spec)] + Chunks(w, disk, JOB));
    assert Snapshot(c.results, []) == [];
  }

  lemma RestartRecovers(k: Case)
    requires k.Valid()
    ensures Recovered(k.Cfg().w, [StartOf(k.Old())], 0, [], [JOB], Restarted(k).agg)
  {
    DiskReplays(k);
    DiskCompacts(k);
    hide Replay, Finalise, Compacted, Lists;
    assert CoreOf(Restarted(k).agg) == OldCore(k);
  }

  lemma RestartResumes(k: Case)
    requires k.Valid()
    ensures Resumed(k.Cfg().w, [StartOf(k.Old())], Restarted(k).agg, Restarted(k).feeders)
  {
    DiskReplays(k);
    hide Replay, Finalise, Chunks;
    assert Indices([]) == {};
    assert JOB in Restarted(k).agg.jobs && Restarted(k).agg.jobs[JOB].cancel == 0;
  }

  lemma StartedLog(k: Case)
    requires k.Valid()
    ensures Started(k).agg.log == [StartOf(k.Old())] && Started(k).agg.kept == 0 && Started(k).agg.replies == []
  {}

  lemma RestartedRest(k: Case)
    requires k.Valid()
    ensures var s := Restarted(k);
            && s.specs == SpecsOf(s.agg.jobs) && s.chunkSize == k.wider && s.agg.replies == []
            && s.nq == [] && s.pq == [] && s.workers == map[] && s.front == IDLE_FRONT && s.history == [CoreOf(s.agg)]
  {}

  lemma RestartStep(k: Case)
    requires k.Valid()
    ensures Next(k.Cfg(), Started(k), Crash(1, k.wider, 0, [], [JOB]), Restarted(k))
  {
    hide Next, CrashStep, Started, Restarted;
    RestartIsCrash(k);
    CrashIsNext(k.Cfg(), Started(k), Crash(1, k.wider, 0, [], [JOB]), Restarted(k));
  }

  lemma RestartIsCrash(k: Case)
    requires k.Valid()
    ensures CrashStep(k.Cfg(), Started(k), Crash(1, k.wider, 0, [], [JOB]), Restarted(k))
  {
    RestartRecovers(k);
    RestartResumes(k);
    StartedLog(k);
    RestartedRest(k);
    hide Recovered, Resumed, CoreOf, StartOf, Started, Restarted, SpecsOf, Narrow, NeedleConfig;
    assert Started(k).agg.log[..1] == [StartOf(k.Old())];
  }

  lemma FeedSteps(k: Case)
    requires k.Valid()
    ensures Next(k.Cfg(), Restarted(k), Join(WORKER), Joined(k))
    ensures Next(k.Cfg(), Joined(k), Feed(0), Fed(k))
  {
    hide TaskOf, CoreOf;
  }

  lemma PullStep(k: Case)
    requires k.Valid()
    ensures Next(k.Cfg(), Fed(k), PullNq(WORKER), Pulled(k))
  {
    hide TaskOf, CoreOf;
    assert [k.Late()][1..] == [];
    assert Fed(k).workers[WORKER := Pulled(k).workers[WORKER]] == Pulled(k).workers;
  }

  lemma SendStep(k: Case)
    requires k.Valid()
    ensures Next(k.Cfg(), Pulled(k), Sent(WORKER, 0), InFlight(k))
  {
    hide TaskOf, CoreOf;
    assert SendWorker(Pulled(k).workers[WORKER], 0) == InFlight(k).workers[WORKER] by { assert {} + {k.Late()} == {k.Late()}; }
    assert Pulled(k).workers[WORKER := InFlight(k).workers[WORKER]] == InFlight(k).workers;
  }

  lemma DropSteps(k: Case)
    requires k.Valid()
    ensures Next(k.Cfg(), InFlight(k), Dropped(JOB, k.Then()), Abandoned(k))
    ensures Next(k.Cfg(), Abandoned(k), Event.Request(AGAIN, JOB), AskedAgain(k))
  {
    hide TaskOf, CoreOf;
    assert Finish(InFlight(k).agg, JOB, false, k.Then()) == Abandoned(k).agg;
  }

  lemma AgainStep(k: Case)
    requires k.Valid()
    ensures Next(k.Cfg(), AskedAgain(k), Submitted(AGAIN, k.Then()), Resubmitted(k))
  {
    WideIsTheSplit(k.u, k.c, k.wider);
    hide SpecFor, TaskOf, CoreOf;
    assert Submit(k.Cfg().w, AskedAgain(k).agg, AGAIN, false, k.New(), k.Then()) == Resubmitted(k).agg;
    assert AskedAgain(k).front.handlers - {AGAIN} == map[];
  }

  lemma AnswerStep(k: Case)
    requires k.Valid()
    ensures Next(k.Cfg(), Resubmitted(k), Answered(WORKER, k.Late(), k.Then()), LateAnswer(k))
  {
    hide TaskOf, CoreOf, ResultOf, TakeAnswer;
    assert Resubmitted(k).workers[WORKER := LateAnswer(k).workers[WORKER]] == LateAnswer(k).workers;
  }

  lemma ForwardStep(k: Case)
    requires k.Valid()
    ensures Next(k.Cfg(), LateAnswer(k), Forwarded(WORKER, k.Then()), Replied(k))
  {
    hide TaskOf, CoreOf, TakeResult, ResultOf;
    var s := LateAnswer(k);
    assert s.workers[WORKER := s.workers[WORKER].(hand := None)] == map[WORKER := s.workers[WORKER].(hand := None)];
  }

  // ------------------------------------------------------------ the wrong answer

  lemma {:induction false} NeedleMissed(c: u64, hi: u64)
    requires hi <= c
    ensures HashSearch.Scan(Needle(c), [], 0, hi).hash != 0
  {
    if hi > 0 { NeedleMissed(c, hi - 1); }
  }

  lemma NeedleFound(c: u64)
    requires c < TWO_64 - 1
    ensures HashSearch.Scan(Needle(c), [], 0, c + 1).hash == 0
  {
    NeedleMissed(c, c);
  }

  lemma LatePartial(k: Case)
    requires k.Valid()
    ensures k.Partial() == HashSearch.Scan(Needle(k.c), [], 0, k.c)
  {
    NarrowIsPartitioned(k);
    LateBounds(k.Old());
    hide HashSearch.Scan, ChunkLo, ChunkHi, Needle;
    assert k.Late().lo == 0 && k.Late().hi == k.c && k.Late().msg == [];
  }

  lemma LateBounds(spec: JobSpec)
    requires Partitioned(spec) && spec.n > 1 && spec.lo == 0
    ensures ChunkLo(spec, 0) == 0 && ChunkHi(spec, 0) == spec.size
  {
    ChunkBounds(spec, 0);
  }

  lemma ExpectedIsFound(k: Case)
    requires k.Valid()
    ensures Expected(k.Cfg().w, k.Cfg().names, JOB) == HashSearch.Scan(Needle(k.c), [], 0, k.c + 1)
  {
    hide HashSearch.Scan;
  }

  /** The reply is the answer for [0, c) and misses the best nonce, which is c. */
  lemma ReplyIsWrong(k: Case)
    requires k.Valid()
    ensures Replied(k).agg.replies == [Reply(AGAIN, JOB, k.Partial())]
    ensures k.Partial() != Expected(k.Cfg().w, k.Cfg().names, JOB)
  {
    LatePartial(k);
    ExpectedIsFound(k);
    NeedleMissed(k.c, k.c);
    NeedleFound(k.c);
    HashSearch.InstanceIsLawful(Needle(k.c));
    assert HasIdentity(k.Cfg().w, k.Partial());
    hide HashSearch.Scan, Replied, Needle, Lawful, ResultOf;
    LateIsCounted(k);
  }

  lemma NarrowIsPartitioned(k: Case)
    requires k.Valid()
    ensures Partitioned(k.Old())
  {}

  lemma LateIsCounted(k: Case)
    requires k.Valid()
    requires k.Cfg().w.merge(HashSearch.ZERO, k.Partial()) == k.Partial()
    ensures Replied(k).agg.replies == [Reply(AGAIN, JOB, k.Partial())]
  {
    hide TaskOf, CoreOf, ResultOf;
    assert k.Late().id == TaskID(JOB, 0) by { LateID(k); }
  }

  lemma LateID(k: Case)
    requires k.Valid()
    ensures k.Late().id == TaskID(JOB, 0)
  {}
}
