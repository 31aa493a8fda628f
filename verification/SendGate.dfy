/**
 A worker loop sends while fewer than a window of its tasks are in flight. That
 is not what the transport's window counts: a task leaves the count with its
 result, a message leaves the window with its ack, and the result may win.
 */
module SendGate {
  import opened Base
  import opened Connection
  import opened Link
  import opened SendGateRun
  import WorkerLink

  /** Exactly when a write goes straight into the window, in every state of every run. */
  lemma WriteGoesStraightOutIff(p: Params, states: seq<Pair>, moves: seq<Move>, i: nat, data: Bytes, now: int)
    requires LinkRun(p, states, moves) && i < |states|
    requires states[i].a.phase.Open? && |states[i].a.written| < MAX_MESSAGES
    ensures OnWrite(p, states[i].a, data, now).pendingWrites == [] <==> |states[i].a.sendBuffer| < p.window
  {
    RunIsSound(p, states, moves, i);
    hide LinkRun;
    var a := states[i].a;
    if |a.sendBuffer| < p.window {
      WorkerLink.WriteGoesOut(p, a, data, now);
    } else {
      assert OnWrite(p, a, data, now).pendingWrites == a.pendingWrites + [data];
    }
  }

  /**
   For every window and either receive mode: a full window of chunks written, one
   result read before its ack, so one task fewer in flight than the window, and
   yet the next chunk waits.
   */
  lemma GateIsNotTheWindow(p: Params, d: Bytes, r: Bytes, next: Bytes)
    requires 0 < p.window < MAX_MESSAGES
    ensures exists l :: Reached(p, l) && ResultBeforeAck(p, l, r) && OnWrite(p, l.a, next, l.a.clock).pendingWrites == [next]
  {
    var l := WriteMany(p, p.window, d);
    AnswerIsOnWire(p, l, p.window, d, r);
    ResultComesFirst(p, l.a, r);
    var answer := Packet(Data, 0, 1, r);
    var t := l.(b := Answering(p, d, r));
    var end := t.(a := OnPacketOpen(p, l.a, answer, l.a.clock));
    assert l.a.(clock := l.a.clock) == l.a;
    ReachedNext(p, t, Move(A, Receive(answer), l.a.clock), end);
    assert ResultBeforeAck(p, end, r);
    assert OnWrite(p, end.a, next, end.a.clock).pendingWrites == [next];
  }

  /** One result back, nothing acknowledged: a window of messages, one task fewer in flight. */
  ghost predicate ResultBeforeAck(p: Params, l: Pair, r: Bytes) {
    && l.a.phase.Open? && l.a.pendingWrites == [] && l.a.delivered == [r]
    && |l.a.written| - |l.a.delivered| == p.window - 1 && |l.a.sendBuffer| == p.window
  }
}
