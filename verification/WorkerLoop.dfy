/** The workerLoop goroutine's own code. */
module WorkerLoop {
  import opened Base
  import opened Jobs
  import opened Workers

  /** A bounded channel of tasks. */
  class TaskQueue {
    const cap: nat
    var items: seq<Task>

    constructor (cap: nat)
      ensures this.cap == cap && items == []
    {
      this.cap := cap;
      items := [];
    }
  }

  /** The tasks of the listed entries, in order. */
  ghost function TasksOf(inflight: map<TaskID, Entry>, ids: seq<TaskID>): seq<Task>
    requires forall tid :: tid in ids ==> tid in inflight
  {
    if ids == [] then [] else TasksOf(inflight, ids[..|ids| - 1]) + [inflight[ids[|ids| - 1]].task]
  }

  lemma TasksOfSnoc(inflight: map<TaskID, Entry>, ids: seq<TaskID>, tid: TaskID)
    requires (forall x :: x in ids ==> x in inflight) && tid in inflight
    ensures TasksOf(inflight, ids + [tid]) == TasksOf(inflight, ids) + [inflight[tid].task]
  {
    assert (ids + [tid])[..|ids + [tid]| - 1] == ids;
  }

  ghost predicate Distinct(ids: seq<TaskID>) { forall a, b :: 0 <= a < b < |ids| ==> ids[a] != ids[b] }

  lemma DistinctSnoc(ids: seq<TaskID>, tid: TaskID)
    requires Distinct(ids) && tid !in ids
    ensures Distinct(ids + [tid])
  {}

  /** Exactly the listed entries, all overdue and none listed twice, were marked. */
  ghost predicate MarkedExactly(before: map<TaskID, Entry>, after: map<TaskID, Entry>, cloned: seq<TaskID>, now: int, threshold: int) {
    && after.Keys == before.Keys
    && (forall tid :: tid in after ==>
          after[tid] == if tid in cloned then before[tid].(speculated := true, clones := before[tid].clones + 1) else before[tid])
    && (forall tid :: tid in cloned ==> tid in before && !before[tid].speculated && now - before[tid].sentAt > threshold)
    && Distinct(cloned)
  }

  lemma MarkOne(before: map<TaskID, Entry>, after: map<TaskID, Entry>, cloned: seq<TaskID>, now: int, threshold: int, tid: TaskID)
    requires MarkedExactly(before, after, cloned, now, threshold)
    requires tid in after && !after[tid].speculated && now - after[tid].sentAt > threshold
    ensures MarkedExactly(before, after[tid := Marked(after[tid])], cloned + [tid], now, threshold)
  {
    assert tid !in cloned;
    assert forall x :: x in cloned + [tid] <==> x in cloned || x == tid;
  }

  class Loop {
    const window: nat
    const nq: TaskQueue
    const pq: TaskQueue
    var inflight: map<TaskID, Entry>
    var srtt: Option<int>
    var hold: bool
    var dead: bool
    var sent: set<Task>
    ghost var samples: seq<int>

    /** The loop's state, given what it holds in its hands. */
    ghost function View(pulled: Option<Task>, hand: Option<(TaskID, Partial)>): Worker
      reads this
    {
      Worker(inflight, srtt, hold, dead, pulled, hand, sent, samples)
    }

    constructor (window: nat, nq: TaskQueue, pq: TaskQueue)
      requires nq != pq
      ensures this.window == window && this.nq == nq && this.pq == pq && View(None, None) == FRESH
    {
      this.window, this.nq, this.pq := window, nq, pq;
      inflight, srtt, hold, dead, sent, samples := map[], None, false, false, {}, [];
    }

    /** Nothing is pulled without room in the window, and pq is always tried first. */
    method TryPull() returns (t: Option<Task>)
      requires nq != pq
      modifies nq`items, pq`items
      ensures t.Some? <==> |inflight| < window && ((!hold && old(pq.items) != []) || old(nq.items) != [])
      ensures t.Some? && !hold && old(pq.items) != [] ==>
                t == Some(old(pq.items)[0]) && pq.items == old(pq.items)[1..] && nq.items == old(nq.items)
      ensures t.Some? && (hold || old(pq.items) == []) ==>
                t == Some(old(nq.items)[0]) && nq.items == old(nq.items)[1..] && pq.items == old(pq.items)
      ensures t.None? ==> nq.items == old(nq.items) && pq.items == old(pq.items)
    {
      t := None;
      if |inflight| < window {
        if !hold && |pq.items| > 0 {
          t := Some(pq.items[0]);
          pq.items := pq.items[1..];
        } else if |nq.items| > 0 {
          t := Some(nq.items[0]);
          nq.items := nq.items[1..];
        }
      }
    }

    method Send(t: Task, now: int)
      modifies this, pq`items
      ensures View(None, None) == SendWorker(old(View(Some(t), None)), now)
      ensures pq.items == SendQueue(old(View(Some(t), None)), old(pq.items), pq.cap)
      ensures t.id in old(inflight) ==> hold && inflight == old(inflight) && sent == old(sent)
                                        && pq.items == if |old(pq.items)| < pq.cap then old(pq.items) + [t] else old(pq.items)
      ensures t.id !in old(inflight) ==> hold == old(hold) && inflight == old(inflight)[t.id := Entry(t, now, false, 0)]
                                         && sent == old(sent) + {t} && pq.items == old(pq.items)
    {
      if t.id in inflight {
        if |pq.items| < pq.cap {
          pq.items := pq.items + [t];
        }
        hold := true;
        return;
      }
      inflight := inflight[t.id := Entry(t, now, false, 0)];
      sent := sent + {t};
    }

    /** updateSRTT, with the first sample taken as it is. */
    method UpdateSRTT(sample: int)
      modifies this`srtt, this`samples
      ensures srtt == Some(Smooth(old(srtt), sample)) && samples == old(samples) + [sample]
      ensures Smoothed(old(srtt), old(samples)) ==> Smoothed(srtt, samples)
    {
      if Smoothed(srtt, samples) { SmoothStaysWithin(srtt, samples, sample); }
      if srtt.None? {
        srtt := Some(sample);
      } else {
        srtt := Some((7 * srtt.value + sample) / 8);
      }
      samples := samples + [sample];
    }

    /** A forwarded result: what it returns goes to the aggregator. */
    method OnResult(tid: TaskID, p: Partial, now: int) returns (hand: Option<(TaskID, Partial)>)
      modifies this
      ensures View(None, hand) == TakeAnswer(old(View(None, None)), tid, p, now)
      ensures tid !in old(inflight) ==> hand == None && inflight == old(inflight) && samples == old(samples)
      ensures tid in old(inflight) ==> hand == Some((tid, p)) && inflight == old(inflight) - {tid}
      ensures tid in old(inflight) && old(inflight)[tid].speculated ==> srtt == old(srtt) && samples == old(samples)
      ensures tid in old(inflight) && !old(inflight)[tid].speculated ==> samples == old(samples) + [now - old(inflight)[tid].sentAt]
    {
      if tid !in inflight {
        return None;
      }
      var e := inflight[tid];
      inflight := inflight - {tid};
      if !e.speculated {
        UpdateSRTT(now - e.sentAt);
      }
      hand := Some((tid, p));
    }

    /**
     Clone every overdue task into pq, as long as there is room in it. scaled is
     the straggler factor times srtt; without a sample there is nothing to scale.
     */
    method Speculate(now: int, noSpeculate: bool, scaled: int, floor: int) returns (ghost cloned: seq<TaskID>)
      modifies this`inflight, pq`items
      ensures MarkedExactly(old(inflight), inflight, cloned, now, if scaled < floor then floor else scaled)
      ensures pq.items == old(pq.items) + TasksOf(old(inflight), cloned)
      ensures cloned != [] ==> !noSpeculate && srtt.Some? && |pq.items| <= pq.cap
      ensures forall tid :: tid in cloned ==>
                tid in old(inflight) && !old(inflight)[tid].speculated && now - old(inflight)[tid].sentAt > scaled && now - old(inflight)[tid].sentAt > floor
      ensures !noSpeculate && srtt.Some? && |pq.items| < pq.cap ==>
                forall tid :: tid in inflight && !inflight[tid].speculated ==> now - inflight[tid].sentAt <= scaled || now - inflight[tid].sentAt <= floor
    {
      cloned := [];
      if noSpeculate || srtt.None? {
        return;
      }
      var threshold := if scaled < floor then floor else scaled;
      var ids := inflight.Keys;
      while ids != {}
        invariant ids <= inflight.Keys && (cloned != [] ==> |pq.items| <= pq.cap)
        invariant MarkedExactly(old(inflight), inflight, cloned, now, threshold)
        invariant pq.items == old(pq.items) + TasksOf(old(inflight), cloned)
        invariant forall tid :: tid in inflight && tid !in ids && !inflight[tid].speculated && now - inflight[tid].sentAt > threshold ==> |pq.items| >= pq.cap
        decreases ids
      {
        var tid :| tid in ids;
        ids := ids - {tid};
        var e := inflight[tid];
        if !e.speculated && now - e.sentAt > threshold && |pq.items| < pq.cap {
          TasksOfSnoc(old(inflight), cloned, tid);
          MarkOne(old(inflight), inflight, cloned, now, threshold, tid);
          pq.items := pq.items + [e.task];
          inflight := inflight[tid := Marked(e)];
          cloned := cloned + [tid];
        }
      }
    }

    /** The tick case: pq may be looked at again, and overdue tasks are cloned. */
    method OnTick(now: int, noSpeculate: bool, scaled: int, floor: int) returns (ghost cloned: seq<TaskID>)
      modifies this`hold, this`inflight, pq`items
      ensures !hold
      ensures MarkedExactly(old(inflight), inflight, cloned, now, if scaled < floor then floor else scaled)
      ensures pq.items == old(pq.items) + TasksOf(old(inflight), cloned)
      ensures cloned != [] ==> !noSpeculate && srtt.Some? && |pq.items| <= pq.cap
      ensures !noSpeculate && srtt.Some? && |pq.items| < pq.cap ==>
                forall tid :: tid in inflight && !inflight[tid].speculated ==> now - inflight[tid].sentAt <= scaled || now - inflight[tid].sentAt <= floor
    {
      hold := false;
      cloned := Speculate(now, noSpeculate, scaled, floor);
    }

    /** The worker is gone: push back as much as pq takes; the loop ends when nothing is left. */
    method HandBack() returns (ghost pushed: seq<TaskID>)
      modifies this`inflight, pq`items
      ensures forall tid :: tid in old(inflight) <==> tid in inflight || tid in pushed
      ensures forall tid :: tid in inflight ==> tid !in pushed && inflight[tid] == old(inflight)[tid]
      ensures pq.items == old(pq.items) + TasksOf(old(inflight), pushed)
      ensures inflight != map[] ==> |pq.items| >= pq.cap
      ensures pushed != [] ==> |pq.items| <= pq.cap
      ensures Distinct(pushed)
    {
      pushed := [];
      assert TasksOf(inflight, pushed) == [] && Distinct(pushed);
      hide TasksOf, Distinct;
      while inflight != map[] && |pq.items| < pq.cap
        invariant forall tid :: tid in old(inflight) <==> tid in inflight || tid in pushed
        invariant forall tid :: tid in inflight ==> tid !in pushed && inflight[tid] == old(inflight)[tid]
        invariant pq.items == old(pq.items) + TasksOf(old(inflight), pushed)
        invariant pushed != [] ==> |pq.items| <= pq.cap
        invariant Distinct(pushed)
        decreases |inflight|
      {
        var tid :| tid in inflight;
        assert inflight.Keys - {tid} < inflight.Keys && (inflight - {tid}).Keys == inflight.Keys - {tid};
        pq.items := pq.items + [inflight[tid].task];
        inflight := inflight - {tid};
        TasksOfSnoc(old(inflight), pushed, tid);
        DistinctSnoc(pushed, tid);
        pushed := pushed + [tid];
      }
    }
  }
}
