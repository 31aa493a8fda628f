/**
 A worker loop on top of its connection, when the network is a FIFO that loses
 nothing and no RTO runs out: the in-flight gate stops the scheduler before the
 send window would, so no chunk ever waits in pendingWrites.
 */
module WorkerLink {
  import opened Base
  import opened Connection
  import opened Link

  datatype Up = AckOf(s: u32) | ResultOf(s: u32)

  /**
   tasks[s - 1] is the task written with sequence number s. down and up are the
   two directions of the network, todo the chunks the worker still computes, got
   the results on their way to the loop, open the sequence numbers whose result
   the loop has not taken.
   */
  datatype Lane = Lane(
    conn: Ep, inflight: set<TaskID>, tasks: seq<TaskID>,
    down: seq<u32>, todo: set<u32>, up: seq<Up>, got: seq<u32>, open: set<u32>)

  datatype LaneStep =
    | SendTask(tid: TaskID, data: Bytes)
    | WorkerReceives
    | WorkerAnswers(s: u32)
    | ServerGets
    | LoopTakes
    | Tick

  /** The sequence numbers after a, up to b. */
  function NewlySent(a: u32, b: u32): seq<u32>
    requires a <= b
    decreases b - a
  {
    if a == b then [] else NewlySent(a, b - 1) + [b]
  }

  ghost predicate Next(p: Params, l: Lane, step: LaneStep, now: int, l': Lane) {
    && l.conn.clock <= now
    && var c := l.conn.(clock := now);
       match step
       case SendTask(tid, data) =>
         && |l.inflight| < p.window && tid !in l.inflight && |c.written| < MAX_MESSAGES
         && var c' := OnWrite(p, c, data, now);
            && c.nextSeq <= c'.nextSeq
            && l' == l.(conn := c', inflight := l.inflight + {tid}, tasks := l.tasks + [tid],
                        down := l.down + NewlySent(c.nextSeq, c'.nextSeq), open := l.open + {|c.written| + 1})
       case WorkerReceives =>
         l.down != [] && l' == l.(conn := c, down := l.down[1..], todo := l.todo + {l.down[0]}, up := l.up + [AckOf(l.down[0])])
       case WorkerAnswers(s) =>
         s in l.todo && l' == l.(conn := c, todo := l.todo - {s}, up := l.up + [ResultOf(s)])
       case ServerGets =>
         && l.up != []
         && (match l.up[0]
             case AckOf(s) =>
               var c' := OnAck(p, c, s, now);
               c.nextSeq <= c'.nextSeq && l' == l.(conn := c', up := l.up[1..], down := l.down + NewlySent(c.nextSeq, c'.nextSeq))
             case ResultOf(s) => l' == l.(conn := c, up := l.up[1..], got := l.got + [s]))
       case LoopTakes =>
         && l.got != [] && 1 <= l.got[0] <= |l.tasks|
         && l' == l.(conn := c, got := l.got[1..], inflight := l.inflight - {At(l.tasks, l.got[0])}, open := l.open - {l.got[0]})
       case Tick =>
         && (forall s :: s in c.sendBuffer ==> !Expired(c.sendBuffer[s], now))
         && OnEpoch(p, c, now).phase.Open? && l' == l.(conn := OnEpoch(p, c, now))
  }

  function Results(up: seq<Up>): seq<u32> {
    if up == [] then []
    else if up[0].ResultOf? then [up[0].s] + Results(up[1..])
    else Results(up[1..])
  }

  /** Where the chunks are: each open one in exactly one place. */
  ghost function Places(l: Lane): multiset<u32> {
    multiset(l.down) + multiset(l.todo) + multiset(Results(l.up)) + multiset(l.got)
  }

  /** The ack of s arrives before any result for s. */
  ghost predicate AckFirst(up: seq<Up>, s: u32) {
    exists i :: 0 <= i < |up| && up[i] == AckOf(s) && forall j :: 0 <= j < i ==> up[j] != ResultOf(s)
  }

  /** The task of the s-th write. */
  function At(tasks: seq<TaskID>, s: int): TaskID
    requires 1 <= s <= |tasks|
  {
    tasks[s - 1]
  }

  ghost function Tids(tasks: seq<TaskID>, ss: set<u32>): set<TaskID>
    requires forall s :: s in ss ==> 1 <= s <= |tasks|
  {
    set s | s in ss :: At(tasks, s)
  }

  ghost predicate InFlightIsOpen(l: Lane) {
    && (forall s :: s in l.open ==> 1 <= s <= |l.tasks|)
    && l.inflight == Tids(l.tasks, l.open)
    && (forall s, r :: s in l.open && r in l.open && s != r ==> At(l.tasks, s) != At(l.tasks, r))
  }

  ghost predicate Unacked(l: Lane) {
    forall s :: s in l.conn.sendBuffer ==> s in l.open && (s in l.down || AckFirst(l.up, s)) && s !in l.got
  }

  ghost predicate Flowing(p: Params, l: Lane) {
    && l.conn.phase.Open? && l.conn.pendingWrites == []
    && l.conn.nextSeq == |l.conn.written| == |l.tasks| <= MAX_MESSAGES
    && InFlightIsOpen(l)
    && Places(l) == multiset(l.open)
    && Unacked(l)
  }

  // -------------------------------------------------------------------- counting

  lemma {:induction false} ImageSize(tasks: seq<TaskID>, ss: set<u32>)
    requires forall s :: s in ss ==> 1 <= s <= |tasks|
    requires forall s, r :: s in ss && r in ss && s != r ==> At(tasks, s) != At(tasks, r)
    ensures |Tids(tasks, ss)| == |ss|
  {
    if ss != {} {
      var s :| s in ss;
      ImageSize(tasks, ss - {s});
      assert Tids(tasks, ss) == Tids(tasks, ss - {s}) + {At(tasks, s)};
      assert At(tasks, s) !in Tids(tasks, ss - {s});
    } else {
      assert Tids(tasks, ss) == {};
    }
  }

  lemma SubsetSize(a: set<u32>, b: set<u32>)
    requires a <= b
    ensures |a| <= |b|
  {
    assert b == a + (b - a);
  }

  /** Unacknowledged chunks inject into the tasks in flight. */
  lemma WindowHasRoom(p: Params, l: Lane)
    requires Flowing(p, l)
    ensures |l.conn.sendBuffer| <= |l.inflight|
  {
    ImageSize(l.tasks, l.open);
    SubsetSize(l.conn.sendBuffer.Keys, l.open);
  }

  lemma {:induction false} ResultsAppend(a: seq<Up>, u: Up)
    ensures Results(a + [u]) == if u.ResultOf? then Results(a) + [u.s] else Results(a)
  {
    if a == [] {
      assert a + [u] == [u];
    } else {
      ResultsAppend(a[1..], u);
      assert (a + [u])[1..] == a[1..] + [u];
    }
  }

  lemma AckFirstGrows(up: seq<Up>, u: Up, s: u32)
    requires AckFirst(up, s)
    ensures AckFirst(up + [u], s)
  {
    var i :| 0 <= i < |up| && up[i] == AckOf(s) && forall j :: 0 <= j < i ==> up[j] != ResultOf(s);
    assert (up + [u])[i] == AckOf(s);
  }

  lemma {:induction false} ResultsMember(up: seq<Up>, j: nat)
    requires j < |up| && up[j].ResultOf?
    ensures up[j].s in Results(up)
  {
    if j > 0 { ResultsMember(up[1..], j - 1); }
  }

  // ----------------------------------------------------------------------- steps

  lemma FillOne(p: Params, e: Ep, now: int)
    requires |e.pendingWrites| == 1 && |e.sendBuffer| < p.window
    ensures FillWindow(p, e, now) == Admit(p, e, now)
  {
    assert Admit(p, e, now).pendingWrites == [];
  }

  /** With room in the window a write goes straight out. */
  lemma WriteGoesOut(p: Params, c: Ep, data: Bytes, now: int)
    requires c.pendingWrites == [] && |c.sendBuffer| < p.window && c.nextSeq == |c.written| < MAX_MESSAGES
    ensures var c' := OnWrite(p, c, data, now);
            && c'.phase == c.phase && c'.pendingWrites == [] && c'.nextSeq == c.nextSeq + 1 && c'.written == c.written + [data]
            && c'.sendBuffer.Keys == c.sendBuffer.Keys + {c.nextSeq + 1}
            && NewlySent(c.nextSeq, c'.nextSeq) == [c.nextSeq + 1]
  {
    var t := c.(pendingWrites := c.pendingWrites + [data], written := c.written + [data]);
    SuccIsNext(c.nextSeq);
    FillOne(p, t, now);
    assert NewlySent(c.nextSeq, c.nextSeq) == [];
  }

  /** With nothing pending an ack only takes its message out. */
  lemma AckOnlyRemoves(p: Params, c: Ep, s: u32, now: int)
    requires c.pendingWrites == []
    ensures var c' := OnAck(p, c, s, now);
            && c'.phase == c.phase && c'.pendingWrites == [] && c'.nextSeq == c.nextSeq && c'.written == c.written
            && c'.sendBuffer.Keys == c.sendBuffer.Keys - {s}
  {}

  lemma SendPlaces(l: Lane, s: u32, l': Lane)
    requires Places(l) == multiset(l.open) && s !in l.open
    requires l'.down == l.down + [s] && l'.todo == l.todo && l'.up == l.up && l'.got == l.got && l'.open == l.open + {s}
    ensures Places(l') == multiset(l'.open) && s !in l.got
  {
    InPlace(l, s);
    assert multiset(l'.open) == multiset(l.open) + multiset{s};
    assert Places(l') == Places(l) + multiset{s};
  }

  lemma SendUnacked(l: Lane, s: u32, l': Lane)
    requires Unacked(l) && s !in l.got && l'.conn.sendBuffer.Keys == l.conn.sendBuffer.Keys + {s}
    requires l'.down == l.down + [s] && l'.up == l.up && l'.got == l.got && l'.open == l.open + {s}
    ensures Unacked(l')
  {}

  /** A task was written and its packet is on its way. */
  ghost predicate JustSent(l: Lane, tid: TaskID, s: u32, l': Lane) {
    && tid !in l.inflight && s == |l.tasks| + 1 && s <= MAX_MESSAGES
    && l'.conn.phase.Open? && l'.conn.pendingWrites == [] && l'.conn.nextSeq == |l'.conn.written| == s
    && l'.conn.sendBuffer.Keys == l.conn.sendBuffer.Keys + {s}
    && l'.inflight == l.inflight + {tid} && l'.tasks == l.tasks + [tid] && l'.down == l.down + [s] && l'.open == l.open + {s}
    && l'.todo == l.todo && l'.up == l.up && l'.got == l.got
  }

  lemma SentFlows(p: Params, l: Lane, tid: TaskID, s: u32, l': Lane)
    requires Flowing(p, l) && JustSent(l, tid, s, l')
    ensures Flowing(p, l')
  {
    assert s !in l.open;
    OpenGrows(l, tid, l');
    SendPlaces(l, s, l');
    SendUnacked(l, s, l');
  }

  lemma SendIsJustSent(p: Params, l: Lane, tid: TaskID, data: Bytes, now: int, l': Lane)
    requires Flowing(p, l) && |l.conn.sendBuffer| <= |l.inflight| && Next(p, l, SendTask(tid, data), now, l')
    ensures |l.conn.written| + 1 <= MAX_MESSAGES && JustSent(l, tid, |l.conn.written| + 1, l')
  {
    hide InFlightIsOpen, Places, Unacked, OnWrite, NewlySent;
    WriteGoesOut(p, l.conn.(clock := now), data, now);
  }

  lemma SendFlows(p: Params, l: Lane, tid: TaskID, data: Bytes, now: int, l': Lane)
    requires Flowing(p, l) && Next(p, l, SendTask(tid, data), now, l')
    ensures Flowing(p, l')
  {
    WindowHasRoom(p, l);
    SendIsJustSent(p, l, tid, data, now, l');
    SentFlows(p, l, tid, |l.conn.written| + 1, l');
  }

  lemma OpenGrows(l: Lane, tid: TaskID, l': Lane)
    requires InFlightIsOpen(l) && tid !in l.inflight
    requires l'.tasks == l.tasks + [tid] && |l'.tasks| < TWO_32
    requires l'.open == l.open + {|l'.tasks|} && l'.inflight == l.inflight + {tid}
    ensures InFlightIsOpen(l')
  {
    forall s | s in l.open ensures At(l'.tasks, s) == At(l.tasks, s) && At(l.tasks, s) in l.inflight {}
    assert At(l'.tasks, |l'.tasks|) == tid;
    assert Tids(l'.tasks, l'.open) == Tids(l.tasks, l.open) + {tid};
  }

  /** Anything in a place is open, and in no other place. */
  lemma InPlace(l: Lane, s: u32)
    requires Places(l) == multiset(l.open)
    ensures s in l.down || s in l.todo || s in Results(l.up) || s in l.got ==> s in l.open
    ensures s in l.down ==> s !in l.todo && s !in Results(l.up) && s !in l.got
  {
    assert multiset(l.open)[s] <= 1 && (multiset(l.open)[s] > 0 ==> s in l.open);
    assert Places(l)[s] == multiset(l.down)[s] + multiset(l.todo)[s] + multiset(Results(l.up))[s] + multiset(l.got)[s];
    assert s in l.down ==> multiset(l.down)[s] > 0;
    assert s in l.todo ==> multiset(l.todo)[s] > 0;
    assert s in Results(l.up) ==> multiset(Results(l.up))[s] > 0;
    assert s in l.got ==> multiset(l.got)[s] > 0;
  }

  lemma ReceiveFlows(p: Params, l: Lane, now: int, l': Lane)
    requires Flowing(p, l) && Next(p, l, WorkerReceives, now, l')
    ensures Flowing(p, l')
  {
    var s := l.down[0];
    InPlace(l, s);
    assert l.down == [s] + l.down[1..];
    assert multiset(l.down) == multiset{s} + multiset(l.down[1..]);
    assert s !in l.todo;
    assert multiset(l'.todo) == multiset(l.todo) + multiset{s};
    ResultsAppend(l.up, AckOf(s));
    forall r | r in l'.conn.sendBuffer ensures r in l'.down || AckFirst(l'.up, r) {
      if r == s {
        AckArrivesFirst(l, s);
      } else if AckFirst(l.up, r) {
        AckFirstGrows(l.up, AckOf(s), r);
      }
    }
  }

  /** A chunk that is only now received has no result under way. */
  lemma AckArrivesFirst(l: Lane, s: u32)
    requires Places(l) == multiset(l.open) && s in l.down
    ensures AckFirst(l.up + [AckOf(s)], s)
  {
    InPlace(l, s);
    var up := l.up + [AckOf(s)];
    assert up[|l.up|] == AckOf(s);
    forall j | 0 <= j < |l.up| ensures up[j] != ResultOf(s) {
      if l.up[j].ResultOf? { ResultsMember(l.up, j); }
    }
  }

  lemma AnswerFlows(p: Params, l: Lane, s: u32, now: int, l': Lane)
    requires Flowing(p, l) && Next(p, l, WorkerAnswers(s), now, l')
    ensures Flowing(p, l')
  {
    ResultsAppend(l.up, ResultOf(s));
    assert multiset(l.todo) == multiset(l'.todo) + multiset{s};
    forall r | r in l'.conn.sendBuffer ensures r in l'.down || AckFirst(l'.up, r) {
      if AckFirst(l.up, r) { AckFirstGrows(l.up, ResultOf(s), r); }
    }
  }

  lemma AckFirstShrinks(up: seq<Up>, s: u32)
    requires AckFirst(up, s) && up[0] != AckOf(s)
    ensures AckFirst(up[1..], s)
  {
    var i :| 0 <= i < |up| && up[i] == AckOf(s) && forall j :: 0 <= j < i ==> up[j] != ResultOf(s);
    assert up[1..][i - 1] == AckOf(s);
    forall j | 0 <= j < i - 1 ensures up[1..][j] != ResultOf(s) {
      assert up[j + 1] != ResultOf(s);
    }
  }

  lemma ServerFlows(p: Params, l: Lane, now: int, l': Lane)
    requires Flowing(p, l) && Next(p, l, ServerGets, now, l')
    ensures Flowing(p, l')
  {
    var c, u := l.conn.(clock := now), l.up[0];
    assert l.up == [u] + l.up[1..];
    if u.AckOf? {
      AckOnlyRemoves(p, c, u.s, now);
      var c' := OnAck(p, c, u.s, now);
      assert l'.conn == c' && l'.down == l.down;
      assert Results(l.up) == Results(l'.up);
    } else {
      assert Results(l.up) == [u.s] + Results(l'.up);
      assert multiset(l'.got) == multiset(l.got) + multiset{u.s};
      assert multiset(Results(l.up)) == multiset{u.s} + multiset(Results(l'.up));
      NotYetAcked(l, u.s);
    }
    forall r | r in l'.conn.sendBuffer ensures r in l'.down || AckFirst(l'.up, r) {
      if AckFirst(l.up, r) { AckFirstShrinks(l.up, r); }
    }
  }

  /** A result at the head of the FIFO: its chunk was acknowledged before. */
  lemma NotYetAcked(l: Lane, s: u32)
    requires Places(l) == multiset(l.open) && Unacked(l) && l.up != [] && l.up[0] == ResultOf(s)
    ensures s !in l.conn.sendBuffer
  {
    InPlace(l, s);
    ResultsMember(l.up, 0);
  }

  lemma Cancel(a: multiset<u32>, b: multiset<u32>, s: u32)
    requires a + multiset{s} == b + multiset{s}
    ensures a == b
  {
    assert a == a + multiset{s} - multiset{s};
    assert b == b + multiset{s} - multiset{s};
  }

  lemma TakeFlows(p: Params, l: Lane, now: int, l': Lane)
    requires Flowing(p, l) && Next(p, l, LoopTakes, now, l')
    ensures Flowing(p, l')
  {
    var s := l.got[0];
    assert l.got == [s] + l.got[1..];
    InPlace(l, s);
    assert s in l.got;
    assert multiset(l.got) == multiset{s} + multiset(l'.got);
    assert multiset(l.open) == multiset(l'.open) + multiset{s};
    assert Places(l) == Places(l') + multiset{s};
    Cancel(Places(l'), multiset(l'.open), s);
    assert Tids(l.tasks, l'.open) == l.inflight - {At(l.tasks, s)};
  }

  lemma QuietEpoch(p: Params, c: Ep, now: int)
    ensures var c' := OnEpoch(p, c, now);
            && c'.pendingWrites == c.pendingWrites && c'.nextSeq == c.nextSeq && c'.written == c.written
            && c'.sendBuffer.Keys == c.sendBuffer.Keys
  {
    var t := RetransmitExpired(p, c, now);
    assert t.sendBuffer.Keys == c.sendBuffer.Keys;
    assert OnEpoch(p, c, now) == CountSilence(p, Heartbeat(t));
  }

  lemma TickFlows(p: Params, l: Lane, now: int, l': Lane)
    requires Flowing(p, l) && Next(p, l, Tick, now, l')
    ensures Flowing(p, l')
  {
    var c := l.conn.(clock := now);
    QuietEpoch(p, c, now);
    assert l'.conn == OnEpoch(p, c, now);
  }

  ghost predicate LaneRun(p: Params, lanes: seq<Lane>, steps: seq<LaneStep>, times: seq<int>) {
    && |lanes| == |steps| + 1 == |times| + 1
    && lanes[0] == Lane(NewEp(lanes[0].conn.id, lanes[0].conn.clock), {}, [], [], {}, [], [], {})
    && forall i :: 0 <= i < |steps| ==> Next(p, lanes[i], steps[i], times[i], lanes[i + 1])
  }

  lemma StepFlows(p: Params, l: Lane, step: LaneStep, now: int, l': Lane)
    requires Flowing(p, l) && Next(p, l, step, now, l')
    ensures Flowing(p, l')
  {
    match step
    case SendTask(tid, data) => SendFlows(p, l, tid, data, now, l');
    case WorkerReceives => ReceiveFlows(p, l, now, l');
    case WorkerAnswers(s) => AnswerFlows(p, l, s, now, l');
    case ServerGets => ServerFlows(p, l, now, l');
    case LoopTakes => TakeFlows(p, l, now, l');
    case Tick => TickFlows(p, l, now, l');
  }

  lemma {:induction false} LaneFlows(p: Params, lanes: seq<Lane>, steps: seq<LaneStep>, times: seq<int>, i: nat)
    requires LaneRun(p, lanes, steps, times) && i < |lanes|
    ensures Flowing(p, lanes[i])
  {
    if i > 0 {
      LaneFlows(p, lanes, steps, times, i - 1);
      StepFlows(p, lanes[i - 1], steps[i - 1], times[i - 1], lanes[i]);
    }
  }

  /** No write of a worker connection ever waits: what is unacknowledged is in flight, and the gate is the window. */
  lemma PendingWritesStayEmpty(p: Params, lanes: seq<Lane>, steps: seq<LaneStep>, times: seq<int>, i: nat)
    requires LaneRun(p, lanes, steps, times) && i < |lanes|
    ensures lanes[i].conn.pendingWrites == []
    ensures var l := lanes[i]; var unacked := l.conn.sendBuffer;
            && (forall s :: s in unacked ==> 1 <= s <= |l.tasks| && At(l.tasks, s) in l.inflight)
            && (forall s, r :: s in unacked && r in unacked && s != r ==> At(l.tasks, s) != At(l.tasks, r))
            && |unacked| <= |l.inflight|
  {
    LaneFlows(p, lanes, steps, times, i);
    WindowHasRoom(p, lanes[i]);
  }
}
