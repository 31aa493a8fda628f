/**
 The server-side proxy of one remote worker: what it pulls, what it has in
 flight, what it clones and what it hands back.
 */
module Workers {
  import opened Base
  import opened Jobs

  /** clones counts how often this entry was pushed to pq by speculation. */
  datatype Entry = Entry(task: Task, sentAt: int, speculated: bool, clones: nat)

  /**
   One workerLoop. pulled is a task taken from a queue and not yet sent, hand a
   result on its way to the aggregator, sent every task ever written to the
   remote worker, samples every response time measured.
   */
  datatype Worker = Worker(
    inflight: map<TaskID, Entry>, srtt: Option<int>, hold: bool, dead: bool,
    pulled: Option<Task>, hand: Option<(TaskID, Partial)>, sent: set<Task>, samples: seq<int>)

  const FRESH := Worker(map[], None, false, false, None, None, {}, [])

  /** The loop is back at its select: nothing in its hands. */
  predicate Idle(k: Worker) { k.pulled.None? && k.hand.None? }

  predicate HasRoom(k: Worker, window: nat) { |k.inflight| < window }

  /** Pushing to a bounded queue without waiting. */
  function Offer(q: seq<Task>, cap: nat, t: Task): seq<Task> {
    if |q| < cap then q + [t] else q
  }

  /** `send`: the loop's own clone goes back for somebody else, or is dropped. */
  function SendWorker(k: Worker, now: int): Worker
    requires k.pulled.Some?
  {
    var t := k.pulled.value;
    if t.id in k.inflight then k.(pulled := None, hold := true)
    else k.(pulled := None, inflight := k.inflight[t.id := Entry(t, now, false, 0)], sent := k.sent + {t})
  }

  function SendQueue(k: Worker, pq: seq<Task>, cap: nat): seq<Task>
    requires k.pulled.Some?
  {
    if k.pulled.value.id in k.inflight then Offer(pq, cap, k.pulled.value) else pq
  }

  /** A forwarded result; one for a task no longer in flight is dropped. */
  function TakeAnswer(k: Worker, tid: TaskID, p: Partial, now: int): Worker {
    if tid !in k.inflight then k
    else
      var e := k.inflight[tid];
      var t := k.(inflight := k.inflight - {tid}, hand := Some((tid, p)));
      if e.speculated then t
      else t.(srtt := Some(Smooth(k.srtt, now - e.sentAt)), samples := k.samples + [now - e.sentAt])
  }

  /** Speculation marks the entry whose clone it pushed. */
  function Marked(e: Entry): Entry { e.(speculated := true, clones := e.clones + 1) }

  function CloneWorker(k: Worker, tid: TaskID): Worker
    requires tid in k.inflight
  {
    k.(inflight := k.inflight[tid := Marked(k.inflight[tid])])
  }

  function HandBackWorker(k: Worker, tid: TaskID): Worker { k.(inflight := k.inflight - {tid}) }
}
