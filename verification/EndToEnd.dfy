/** The layers put together: records down to bytes, messages through a connection. */
module EndToEnd {
  import opened Base
  import opened Workloads
  import opened Jobs
  import opened Journal
  import opened Honesty
  import opened Aggregation
  import opened Scheduler
  import opened AggregatorRuns
  import opened RecoveryRefines
  import opened WalCodec
  import opened WalLog
  import Connection
  import Link
  import Wire

  /** Requests come off the wire, which bounds their messages. */
  ghost predicate FromTheWire(names: Naming) { forall id :: |names(id).msg| <= Wire.MAX_MSG_LEN }

  /** Every logged start carries the message of the request its ID names. */
  ghost predicate NamedLog(names: Naming, log: seq<Record>) {
    forall r :: r in log && r.JobStart? ==> r.msg == names(r.job).msg
  }

  lemma {:induction false} RunningIsLogged(w: Workload, log: seq<Record>, id: u64)
    requires id in Replay(w, log).jobs
    ensures StartOf(Replay(w, log).jobs[id].spec) in log
  {
    var front, last := log[..|log| - 1], log[|log| - 1];
    assert log == front + [last];
    if id in Replay(w, front).jobs {
      RunningIsLogged(w, front, id);
    } else {
      assert last.JobStart? && StartOf(SpecOf(last)) == last;
    }
  }

  lemma {:induction false} SnapshotHasNoStart(results: map<u64, Partial>, order: seq<u64>)
    requires forall id :: id in order ==> id in results
    ensures forall r :: r in Snapshot(results, order) ==> r.JobDone?
  {
    if order != [] {
      assert order[|order| - 1] in order;
      SnapshotHasNoStart(results, order[..|order| - 1]);
    }
  }

  lemma {:induction false} LivesAreNamed(w: Workload, names: Naming, log: seq<Record>, c: Core, order: seq<u64>)
    requires NamedLog(names, log) && c == Finalise(Replay(w, log)) && forall id :: id in order ==> id in c.jobs
    ensures NamedLog(names, Lives(w, log, c, order))
  {
    if order != [] {
      var id := order[|order| - 1];
      assert id in order;
      LivesAreNamed(w, names, log, c, order[..|order| - 1]);
      RunningIsLogged(w, log, id);
      ChunksAreOfJob(w, log, id);
    }
  }

  lemma CrashIsNamed(cfg: Config, s: Sys, e: Event, s': Sys)
    requires NamedLog(cfg.names, s.agg.log) && e.Crash? && CrashStep(cfg, s, e, s')
    ensures NamedLog(cfg.names, s'.agg.log)
  {
    hide Resumed, CancelsSound;
    var disk := s.agg.log[..e.cut];
    var c := Finalise(Replay(cfg.w, disk));
    SnapshotHasNoStart(c.results, e.answered);
    LivesAreNamed(cfg.w, cfg.names, disk, c, e.running);
  }

  lemma SubmitIsNamed(cfg: Config, s: Sys, conn: int, now: int, s': Sys)
    requires Sane(s) && NamedLog(cfg.names, s.agg.log) && SubmitStep(cfg, s, conn, now, s')
    ensures NamedLog(cfg.names, s'.agg.log)
  {
    hide Submit;
    var spec := SpecFor(cfg, s.chunkSize, s.front.handlers[conn]);
    SubmitIsReplay(cfg.w, s.agg, conn, conn in s.front.ended, spec, now);
  }

  lemma ForwardIsNamed(cfg: Config, s: Sys, e: Event, s': Sys)
    requires Sane(s) && NamedLog(cfg.names, s.agg.log) && e.Forwarded? && WorkerStep(cfg, s, e, s')
    ensures NamedLog(cfg.names, s'.agg.log)
  {
    hide TakeResult;
    var (tid, p) := s.workers[e.conn].hand.value;
    TakeResultIsReplay(cfg.w, s.agg, tid, p, e.now);
  }

  lemma AggregatorIsNamed(cfg: Config, s: Sys, e: Event, s': Sys)
    requires NamedLog(cfg.names, s.agg.log) && AggregatorStep(cfg, s, e, s')
    ensures NamedLog(cfg.names, s'.agg.log)
  {
    if e.Compacts? { SnapshotHasNoStart(Answers(s.agg.results), e.order); }
  }

  lemma StepIsNamed(cfg: Config, s: Sys, e: Event, s': Sys)
    requires Sane(s) && NamedLog(cfg.names, s.agg.log) && Next(cfg, s, e, s')
    ensures NamedLog(cfg.names, s'.agg.log)
  {
    hide Sane, NamedLog, SubmitStep, WorkerStep, AggregatorStep, FrontStep, FeedStep, CrashStep;
    if e.Submitted? {
      SubmitIsNamed(cfg, s, e.conn, e.now, s');
    } else if e.Forwarded? {
      ForwardIsNamed(cfg, s, e, s');
    } else if e.Crash? {
      CrashIsNamed(cfg, s, e, s');
    } else if TouchesAggregator(e) {
      AggregatorIsNamed(cfg, s, e, s');
    } else {
      OtherStepsLeaveTheAggregator(cfg, s, e, s');
    }
  }

  lemma {:induction false} LogIsNamed(cfg: Config, states: seq<Sys>, events: seq<Event>, i: nat)
    requires Run(cfg, states, events) && i < |states|
    ensures NamedLog(cfg.names, states[i].agg.log)
  {
    hide Next;
    if i > 0 {
      LogIsNamed(cfg, states, events, i - 1);
      SaneHolds(cfg, states, events, i - 1);
      StepIsNamed(cfg, states[i - 1], events[i - 1], states[i]);
    }
  }

  /** So every record a server ever logs can be read back. */
  lemma LogIsReadable(cfg: Config, states: seq<Sys>, events: seq<Event>, i: nat)
    requires Run(cfg, states, events) && FromTheWire(cfg.names) && i < |states|
    ensures AllReadable(states[i].agg.log)
  {
    hide Run;
    LogIsNamed(cfg, states, events, i);
  }

  /**
   The log file, cut at any byte behind the snapshot of the last rewrite,
   recovers to the state of an earlier moment of the run.
   */
  lemma TornFileRecoversALiveState(crc: Checksum, cfg: Config, states: seq<Sys>, events: seq<Event>, i: nat, cut: nat)
    requires Run(cfg, states, events) && FaithfulRewrites(cfg, states, events) && i < |states|
    requires FromTheWire(cfg.names) && states[i].agg.kept <= |states[i].agg.log|
    requires |Frames(crc, states[i].agg.log[..states[i].agg.kept])| <= cut <= |Frames(crc, states[i].agg.log)|
    ensures var recs := ReadAll(crc, Frames(crc, states[i].agg.log)[..cut]).recs;
            exists j :: 0 <= j <= i && CoreOf(states[j].agg) == Finalise(Replay(cfg.w, recs))
  {
    hide Frame, Next, Init, Finalise, CompactsExactly;
    var log := states[i].agg.log;
    LogIsReadable(cfg, states, events, i);
    TornTail(crc, log, cut);
    FittingIsLongest(crc, log, cut);
    AnyCutRecoversALiveState(cfg, states, events, i, Fitting(crc, log, cut));
  }

  // ------------------------------------------------- messages over a connection

  /** The application writes nothing but messages. */
  ghost predicate Carries(written: seq<Connection.Bytes>, msgs: seq<Wire.Msg>) {
    |written| == |msgs| && forall j :: 0 <= j < |msgs| ==> Wire.Encodable(msgs[j]) && written[j] == Wire.Encode(msgs[j])
  }

  /** Ordered mode: what Read yields decodes to the messages written, one by one, in order. */
  lemma MessagesInOrder(p: Connection.Params, states: seq<Link.Pair>, moves: seq<Link.Move>, i: nat, msgs: seq<Wire.Msg>, j: nat)
    requires Link.LinkRun(p, states, moves) && i < |states| && p.ordered
    requires Carries(states[i].a.written, msgs) && j < |states[i].b.delivered|
    ensures j < |msgs| && Wire.Decode(states[i].b.delivered[j]) == Some(msgs[j])
  {
    Link.OrderedIsFifo(p, states, moves, i);
    Wire.DecodeIsExact(states[i].b.delivered[j], msgs[j]);
  }

  /** Default mode: every delivery decodes to a message that was written. */
  lemma DeliveriesAreMessages(p: Connection.Params, states: seq<Link.Pair>, moves: seq<Link.Move>, i: nat, msgs: seq<Wire.Msg>, d: Connection.Bytes)
    requires Link.LinkRun(p, states, moves) && i < |states|
    requires Carries(states[i].a.written, msgs) && d in states[i].b.delivered
    ensures exists m :: m in msgs && Wire.Decode(d) == Some(m)
  {
    Link.AtLeastOnce(p, states, moves, i);
    var j :| 0 <= j < |msgs| && states[i].a.written[j] == d;
    Wire.DecodeIsExact(d, msgs[j]);
  }

  /** Default mode: a message the sender stopped resending was delivered, unless its receiver had closed. */
  lemma AcknowledgedIsDelivered(p: Connection.Params, states: seq<Link.Pair>, moves: seq<Link.Move>, i: nat, msgs: seq<Wire.Msg>, s: u32)
    requires Link.LinkRun(p, states, moves) && i < |states| && !p.ordered && !states[i].b.appClosed
    requires Carries(states[i].a.written, msgs)
    requires 1 <= s <= states[i].a.nextSeq && s !in states[i].a.sendBuffer
    ensures s <= |msgs| && exists d :: d in states[i].b.delivered && Wire.Decode(d) == Some(msgs[s - 1])
  {
    Link.AtLeastOnce(p, states, moves, i);
    var d := states[i].a.written[s - 1];
    Wire.DecodeIsExact(d, msgs[s - 1]);
  }
}
