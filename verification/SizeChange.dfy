/** Exactly when a change of the chunk size can make an answer wrong. */
module SizeChange {
  import opened Base
  import opened Workloads
  import HashSearch
  import opened Honesty
  import opened Aggregation
  import opened Workers
  import opened Scheduler
  import opened SequentialAnswers
  import opened SizeChangeRun

  /** All chunk sizes the run's processes use are among sizes. */
  ghost predicate UsesSizes(states: seq<Sys>, sizes: set<u64>) { forall i :: 0 <= i < |states| ==> states[i].chunkSize in sizes }

  ghost predicate Reached(cfg: Config, sizes: set<u64>, s: Sys) {
    exists states, events :: ReachedBy(cfg, sizes, s, states, events)
  }

  ghost predicate ReachedBy(cfg: Config, sizes: set<u64>, s: Sys, states: seq<Sys>, events: seq<Event>) {
    Run(cfg, states, events) && UsesSizes(states, sizes) && states[|states| - 1] == s
  }

  lemma ReachedFirst(cfg: Config, sizes: set<u64>, s: Sys)
    requires Init(s) && s.chunkSize in sizes
    ensures Reached(cfg, sizes, s)
  {
    hide Init;
    assert ReachedBy(cfg, sizes, s, [s], []);
  }

  lemma ReachedNext(cfg: Config, sizes: set<u64>, s: Sys, e: Event, s': Sys)
    requires Reached(cfg, sizes, s) && Next(cfg, s, e, s') && s'.chunkSize in sizes
    ensures Reached(cfg, sizes, s')
  {
    hide Init, Next;
    var states, events :| ReachedBy(cfg, sizes, s, states, events);
    var more, later := states + [s'], events + [e];
    forall i | 0 <= i < |later| ensures Next(cfg, more[i], later[i], more[i + 1]) {
      if i == |events| { assert more[i] == s && later[i] == e && more[i + 1] == s'; }
    }
    assert ReachedBy(cfg, sizes, s', more, later);
  }

  /** The run that ends in the wrong reply. */
  lemma SizeChangeMisanswers(k: Case, sizes: set<u64>)
    requires k.Valid() && k.c in sizes && k.wider in sizes
    ensures Reached(k.Cfg(), sizes, Replied(k))
  {
    var cfg := k.Cfg();
    StartSteps(k); RestartStep(k); FeedSteps(k); PullStep(k); SendStep(k); DropSteps(k); AgainStep(k); AnswerStep(k); ForwardStep(k);
    hide Init, Next, Reached, NeedleConfig, TakeResult, TakeAnswer;
    ReachedFirst(cfg, sizes, Fresh(k));
    ReachedNext(cfg, sizes, Fresh(k), Event.Request(CLIENT, JOB), Asked(k));
    ReachedNext(cfg, sizes, Asked(k), Submitted(CLIENT, 0), Started(k));
    ReachedNext(cfg, sizes, Started(k), Crash(1, k.wider, 0, [], [JOB]), Restarted(k));
    ReachedNext(cfg, sizes, Restarted(k), Join(WORKER), Joined(k));
    ReachedNext(cfg, sizes, Joined(k), Feed(0), Fed(k));
    ReachedNext(cfg, sizes, Fed(k), PullNq(WORKER), Pulled(k));
    ReachedNext(cfg, sizes, Pulled(k), Sent(WORKER, 0), InFlight(k));
    ReachedNext(cfg, sizes, InFlight(k), Dropped(JOB, k.Then()), Abandoned(k));
    ReachedNext(cfg, sizes, Abandoned(k), Event.Request(AGAIN, JOB), AskedAgain(k));
    ReachedNext(cfg, sizes, AskedAgain(k), Submitted(AGAIN, k.Then()), Resubmitted(k));
    ReachedNext(cfg, sizes, Resubmitted(k), Answered(WORKER, k.Late(), k.Then()), LateAnswer(k));
    ReachedNext(cfg, sizes, LateAnswer(k), Forwarded(WORKER, k.Then()), Replied(k));
  }

  /** Some run of servers with these chunk sizes sends a Result that is not the sequential answer. */
  ghost predicate Misanswers(cfg: Config, sizes: set<u64>) {
    exists s, r :: Reached(cfg, sizes, s) && WrongReply(cfg, s, r)
  }

  ghost predicate WrongReply(cfg: Config, s: Sys, r: Reply) {
    r in s.agg.replies && r.answer != Expected(cfg.w, cfg.names, r.job)
  }

  /** With one chunk size every Result is right, for every lawful workload and every naming. */
  lemma OneSizeNeverMisanswers(cfg: Config, sizes: set<u64>)
    requires Lawful(cfg.w) && forall c, d :: c in sizes && d in sizes ==> c == d
    ensures !Misanswers(cfg, sizes)
  {
    hide Init, Next;
    forall s, r | Reached(cfg, sizes, s) ensures !WrongReply(cfg, s, r) {
      var states, events :| ReachedBy(cfg, sizes, s, states, events);
      OneSizeIsFixed(cfg, sizes, states, events);
      FixedSizeIsOneSplit(cfg, states, events);
      if r in s.agg.replies { EveryAnswerIsSequential(cfg, states, events, |states| - 1, r); }
    }
  }

  lemma OneSizeIsFixed(cfg: Config, sizes: set<u64>, states: seq<Sys>, events: seq<Event>)
    requires Run(cfg, states, events) && UsesSizes(states, sizes) && forall c, d :: c in sizes && d in sizes ==> c == d
    ensures FixedSize(states, events)
  {
    hide Init, Next;
    forall i | 0 <= i < |events| && events[i].Crash? ensures events[i].chunkSize == states[i].chunkSize {
      assert Next(cfg, states[i], events[i], states[i + 1]);
      CrashIsNext(cfg, states[i], events[i], states[i + 1]);
    }
  }

  /**
   Exactly when the answers are right: whatever else the server is configured
   with, some lawful workload can be answered wrongly if and only if two
   different chunk sizes are ever in use.
   */
  lemma MisanswersIffSizesDiffer(u: Setup, sizes: set<u64>)
    requires u.window > 0 && u.nqCap > 0 && 0 !in sizes
    ensures (exists w, names :: Lawful(w) && Misanswers(ConfigOf(u, w, names), sizes))
       <==> (exists c, d :: c in sizes && d in sizes && c != d)
  {
    hide Reached;
    if c, d :| c in sizes && d in sizes && c != d {
      var k := if c < d then Case(u, c, d) else Case(u, d, c);
      SizeChangeMisanswers(k, sizes);
      ReplyIsWrong(k);
      HashSearch.InstanceIsLawful(Needle(k.c));
      assert WrongReply(k.Cfg(), Replied(k), Reply(AGAIN, JOB, k.Partial()));
      assert Lawful(k.Cfg().w) && Misanswers(ConfigOf(u, k.Cfg().w, k.Cfg().names), sizes);
    } else {
      forall w, names | Lawful(w) ensures !Misanswers(ConfigOf(u, w, names), sizes) {
        OneSizeNeverMisanswers(ConfigOf(u, w, names), sizes);
      }
    }
  }
}
