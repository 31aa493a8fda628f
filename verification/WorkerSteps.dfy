/**
 The proxy of a remote worker over every run, on its fields: what sending and
 answering do, where an entry comes from, what a sample measures, and how long
 the loop leaves pq alone after it met its own clone.
 */
module WorkerSteps {
  import opened Base
  import opened Jobs
  import opened Aggregation
  import opened Workers
  import opened Scheduler

  /** A pulled task goes in flight, unless it already is: then it goes back to pq, if there is room, and pq is left alone. */
  ghost predicate SentOrPutBack(s: Sys, s': Sys, conn: int, now: int, cap: nat) {
    && conn in s.workers && conn in s'.workers && s.workers[conn].pulled.Some?
    && var k, k', t := s.workers[conn], s'.workers[conn], s.workers[conn].pulled.value;
       && k'.pulled.None?
       && (t.id in k.inflight ==>
             && k'.hold && k'.inflight == k.inflight && k'.sent == k.sent
             && s'.pq == if |s.pq| < cap then s.pq + [t] else s.pq)
       && (t.id !in k.inflight ==>
             && k'.hold == k.hold && k'.inflight == k.inflight[t.id := Entry(t, now, false, 0)] && k'.sent == k.sent + {t}
             && s'.pq == s.pq)
  }

  lemma SendsAreRecorded(cfg: Config, states: seq<Sys>, events: seq<Event>, i: nat, conn: int, now: int)
    requires Run(cfg, states, events) && i < |events| && events[i] == Sent(conn, now)
    ensures SentOrPutBack(states[i], states[i + 1], conn, now, cfg.pqCap)
  {
    assert Next(cfg, states[i], events[i], states[i + 1]);
  }

  /** The estimate moves one eighth of the way to the sample, rounded down. */
  predicate Eased(before: Option<int>, after: Option<int>, sample: int) {
    && after.Some?
    && (before.None? ==> after.value == sample)
    && (before.Some? ==> 8 * after.value <= 7 * before.value + sample < 8 * after.value + 8)
  }

  /** An answer for a task in flight is passed on, and timed unless the task was cloned; any other is dropped. */
  ghost predicate PassedOn(s: Sys, s': Sys, conn: int, tid: TaskID, p: Partial, now: int) {
    && conn in s.workers && conn in s'.workers
    && var k, k' := s.workers[conn], s'.workers[conn];
       && (tid !in k.inflight ==> k' == k)
       && (tid in k.inflight ==> k'.hand == Some((tid, p)) && k'.inflight == k.inflight - {tid})
       && (tid in k.inflight && k.inflight[tid].speculated ==> k'.samples == k.samples && k'.srtt == k.srtt)
       && (tid in k.inflight && !k.inflight[tid].speculated ==>
             && k'.samples == k.samples + [now - k.inflight[tid].sentAt]
             && Eased(k.srtt, k'.srtt, now - k.inflight[tid].sentAt))
  }

  lemma AnswersArePassedOn(cfg: Config, states: seq<Sys>, events: seq<Event>, i: nat, conn: int, task: Task, now: int)
    requires Run(cfg, states, events) && i < |events| && events[i] == Answered(conn, task, now)
    ensures PassedOn(states[i], states[i + 1], conn, task.id, ResultOf(cfg.w, task), now)
  {
    assert Next(cfg, states[i], events[i], states[i + 1]);
  }

  // ------------------------------------------------------------ where an entry comes from

  /** The steps of the worker loops. */
  predicate IsLoopStep(e: Event) {
    || e.Join? || e.PullNq? || e.PullPq? || e.Sent? || e.Answered? || e.Forwarded?
    || e.Ticked? || e.Cloned? || e.Died? || e.HandedBack? || e.Exited?
  }

  lemma OtherStepsLeaveTheWorkers(cfg: Config, s: Sys, e: Event, s': Sys)
    requires Next(cfg, s, e, s') && !IsLoopStep(e)
    ensures s'.workers == if e.Crash? then map[] else s.workers
  {}

  lemma LoopStepIsWorkerStep(cfg: Config, s: Sys, e: Event, s': Sys)
    requires Next(cfg, s, e, s') && IsLoopStep(e)
    ensures WorkerStep(cfg, s, e, s')
  {
    hide WorkerStep;
  }

  lemma OtherLoopsStay(cfg: Config, s: Sys, e: Event, s': Sys, conn: int)
    requires WorkerStep(cfg, s, e, s') && e.conn != conn
    ensures (conn in s'.workers <==> conn in s.workers) && (conn in s.workers ==> s'.workers[conn] == s.workers[conn])
  {}

  predicate InFlight(s: Sys, conn: int, tid: TaskID, task: Task, at: int) {
    conn in s.workers && tid in s.workers[conn].inflight && s.workers[conn].inflight[tid].task == task && s.workers[conn].inflight[tid].sentAt == at
  }

  predicate SendsIt(s: Sys, e: Event, conn: int, tid: TaskID, task: Task, at: int) {
    e == Sent(conn, at) && task.id == tid && conn in s.workers && s.workers[conn].pulled == Some(task) && tid !in s.workers[conn].inflight
  }

  lemma EntryOneStepBack(cfg: Config, s: Sys, e: Event, s': Sys, conn: int, tid: TaskID, task: Task, at: int)
    requires Next(cfg, s, e, s') && InFlight(s', conn, tid, task, at)
    ensures InFlight(s, conn, tid, task, at) || SendsIt(s, e, conn, tid, task, at)
  {
    hide Next;
    if !IsLoopStep(e) {
      OtherStepsLeaveTheWorkers(cfg, s, e, s');
    } else {
      LoopStepIsWorkerStep(cfg, s, e, s');
      if e.conn != conn {
        OtherLoopsStay(cfg, s, e, s', conn);
        hide WorkerStep;
      }
    }
  }

  /** An entry stands for a task this loop sent at the time it carries, and has stood there since. */
  lemma {:induction false} EntriesWereSent(cfg: Config, states: seq<Sys>, events: seq<Event>, i: nat, conn: int, tid: TaskID, task: Task, at: int)
    returns (k: nat)
    requires Run(cfg, states, events) && i < |states| && InFlight(states[i], conn, tid, task, at)
    ensures k < i && SendsIt(states[k], events[k], conn, tid, task, at)
    ensures forall m :: k < m <= i ==> InFlight(states[m], conn, tid, task, at)
  {
    hide Next;
    if i == 0 {
      assert false;
    } else {
      EntryOneStepBack(cfg, states[i - 1], events[i - 1], states[i], conn, tid, task, at);
      hide InFlight, SendsIt;
      if SendsIt(states[i - 1], events[i - 1], conn, tid, task, at) {
        k := i - 1;
      } else {
        k := EntriesWereSent(cfg, states, events, i - 1, conn, tid, task, at);
      }
    }
  }

  // ------------------------------------------------------------------- what is measured

  predicate HasSample(s: Sys, conn: int, x: int) { conn in s.workers && x in s.workers[conn].samples }

  /** The step answers a task that was never cloned, sent at time at. */
  predicate Measures(s: Sys, e: Event, conn: int, at: int) {
    && e.Answered? && e.conn == conn && conn in s.workers && e.task.id in s.workers[conn].inflight
    && !s.workers[conn].inflight[e.task.id].speculated && s.workers[conn].inflight[e.task.id].sentAt == at
  }

  lemma SampleOneStepBack(cfg: Config, s: Sys, e: Event, s': Sys, conn: int, x: int)
    requires Next(cfg, s, e, s') && HasSample(s', conn, x)
    ensures HasSample(s, conn, x) || (e.Answered? && Measures(s, e, conn, e.now - x))
  {
    hide Next;
    if !IsLoopStep(e) {
      OtherStepsLeaveTheWorkers(cfg, s, e, s');
    } else {
      LoopStepIsWorkerStep(cfg, s, e, s');
      if e.conn != conn {
        OtherLoopsStay(cfg, s, e, s', conn);
        hide WorkerStep;
      }
    }
  }

  /** Every sample is the time from sending a task to its first answer, and the task was not cloned meanwhile. */
  lemma {:induction false} SamplesAreResponseTimes(cfg: Config, states: seq<Sys>, events: seq<Event>, i: nat, conn: int, x: int)
    returns (k: nat, l: nat)
    requires Run(cfg, states, events) && i < |states| && HasSample(states[i], conn, x)
    ensures k < l < i && events[l].Answered? && Measures(states[l], events[l], conn, events[l].now - x)
    ensures SendsIt(states[k], events[k], conn, events[l].task.id, states[l].workers[conn].inflight[events[l].task.id].task, events[l].now - x)
  {
    hide Next;
    if i == 0 {
      assert false;
    } else {
      var s, e := states[i - 1], events[i - 1];
      SampleOneStepBack(cfg, s, e, states[i], conn, x);
      if HasSample(s, conn, x) {
        hide HasSample, Measures, SendsIt;
        k, l := SamplesAreResponseTimes(cfg, states, events, i - 1, conn, x);
      } else {
        l := i - 1;
        k := EntriesWereSent(cfg, states, events, l, conn, e.task.id, s.workers[conn].inflight[e.task.id].task, e.now - x);
      }
    }
  }

  // ----------------------------------------------------------------- the hold on pq

  predicate OnHold(s: Sys, conn: int) { conn in s.workers && s.workers[conn].hold }

  /** A tick lets the loop look at pq again and touches nothing else. */
  lemma TickReleases(cfg: Config, states: seq<Sys>, events: seq<Event>, i: nat, conn: int)
    requires Run(cfg, states, events) && i < |events| && events[i] == Ticked(conn)
    ensures var s, s' := states[i], states[i + 1];
            && conn in s.workers && conn in s'.workers && !s'.workers[conn].hold
            && s'.workers[conn].inflight == s.workers[conn].inflight && s'.pq == s.pq && s'.nq == s.nq && s'.agg == s.agg
  {
    assert Next(cfg, states[i], events[i], states[i + 1]);
  }

  lemma HoldStays(cfg: Config, s: Sys, e: Event, s': Sys, conn: int)
    requires Next(cfg, s, e, s') && OnHold(s, conn) && e != Ticked(conn) && e != Exited(conn) && !e.Crash?
    ensures OnHold(s', conn) && e != PullPq(conn)
  {
    hide Next;
    if !IsLoopStep(e) {
      OtherStepsLeaveTheWorkers(cfg, s, e, s');
    } else {
      LoopStepIsWorkerStep(cfg, s, e, s');
      if e.conn != conn {
        OtherLoopsStay(cfg, s, e, s', conn);
        hide WorkerStep;
      }
    }
  }

  /** A loop that put its own clone back takes nothing from pq before its next tick. */
  lemma {:induction false} HoldLastsUntilTheTick(cfg: Config, states: seq<Sys>, events: seq<Event>, i: nat, j: nat, conn: int)
    requires Run(cfg, states, events) && i < j <= |events|
    requires events[i].Sent? && events[i].conn == conn && conn in states[i].workers && states[i].workers[conn].pulled.Some?
    requires states[i].workers[conn].pulled.value.id in states[i].workers[conn].inflight
    requires forall k :: i < k < j ==> events[k] != Ticked(conn) && events[k] != Exited(conn) && !events[k].Crash?
    ensures OnHold(states[j], conn) && (j < |events| ==> events[j] != PullPq(conn))
    decreases j
  {
    if j == i + 1 {
      SendsAreRecorded(cfg, states, events, i, conn, events[i].now);
    } else {
      HoldLastsUntilTheTick(cfg, states, events, i, j - 1, conn);
      HoldStays(cfg, states[j - 1], events[j - 1], states[j], conn);
    }
    if j < |events| && events[j] == PullPq(conn) {
      HoldStays(cfg, states[j], events[j], states[j + 1], conn);
      assert false;
    }
  }
}
