/** The steps of one run: a full window of messages, and the answer to the first of them before its ack. */
module SendGateRun {
  import opened Base
  import opened Connection
  import opened Link
  import WorkerLink

  ghost predicate Reached(p: Params, l: Pair) { exists states, moves :: ReachedBy(p, l, states, moves) }

  ghost predicate ReachedBy(p: Params, l: Pair, states: seq<Pair>, moves: seq<Move>) {
    LinkRun(p, states, moves) && states[|states| - 1] == l
  }

  lemma ReachedNext(p: Params, l: Pair, m: Move, l': Pair)
    requires Reached(p, l) && LinkStep(p, l, m, l')
    ensures Reached(p, l')
  {
    hide LinkStep, NewEp;
    var states, moves :| ReachedBy(p, l, states, moves);
    var more, later := states + [l'], moves + [m];
    forall i | 0 <= i < |later| ensures LinkStep(p, more[i], later[i], more[i + 1]) {
      if i == |moves| { assert more[i] == l && later[i] == m && more[i + 1] == l'; }
    }
    assert ReachedBy(p, l', more, later);
  }

  lemma ReachedIsSound(p: Params, l: Pair)
    requires Reached(p, l)
    ensures Sound(p, l)
  {
    var states, moves :| ReachedBy(p, l, states, moves);
    RunIsSound(p, states, moves, |states| - 1);
  }

  /** a has written k messages, d first, and heard nothing; b has done nothing. */
  ghost predicate OnlyWrote(l: Pair, k: nat, d: Bytes) {
    && l.b == NewEp(0, 0) && l.a.id == 0 && l.a.phase.Open? && l.a.next == 1 && l.a.held == map[] && l.a.delivered == []
    && l.a.pendingWrites == [] && l.a.nextSeq == |l.a.written| == |l.a.sendBuffer| == k
    && (k > 0 ==> Packet(Data, 0, 1, d) in l.a.wire)
  }

  lemma WriteOne(p: Params, l: Pair, k: nat, d: Bytes)
    requires Reached(p, l) && OnlyWrote(l, k, d) && k < p.window && k < MAX_MESSAGES
    ensures var l' := l.(a := OnWrite(p, l.a, d, l.a.clock)); Reached(p, l') && OnlyWrote(l', k + 1, d)
  {
    ReachedIsSound(p, l);
    WorkerLink.WriteGoesOut(p, l.a, d, l.a.clock);
    WriteSends(p, l.a, d, l.a.clock);
    var l' := l.(a := OnWrite(p, l.a, d, l.a.clock));
    assert l.a.(clock := l.a.clock) == l.a;
    ReachedNext(p, l, Move(A, Write(d), l.a.clock), l');
    assert k + 1 !in l.a.sendBuffer;
    assert |l.a.sendBuffer.Keys + {k + 1}| == k + 1;
    if k == 0 {
      FirstIsOnWire(p, l.a, d, l.a.clock);
    }
  }

  lemma FirstIsOnWire(p: Params, e: Ep, d: Bytes, now: int)
    requires e.pendingWrites == [] && e.nextSeq == 0 && |e.sendBuffer| < p.window
    ensures Packet(Data, e.id, 1, d) in OnWrite(p, e, d, now).wire
  {
    var t := e.(pendingWrites := e.pendingWrites + [d], written := e.written + [d]);
    WorkerLink.FillOne(p, t, now);
  }

  lemma {:induction false} WriteMany(p: Params, k: nat, d: Bytes) returns (l: Pair)
    requires k <= p.window && k <= MAX_MESSAGES
    ensures Reached(p, l) && OnlyWrote(l, k, d)
  {
    if k == 0 {
      l := Pair(NewEp(0, 0), NewEp(0, 0));
      assert ReachedBy(p, l, [l], []);
    } else {
      var before := WriteMany(p, k - 1, d);
      WriteOne(p, before, k - 1, d);
      l := before.(a := OnWrite(p, before.a, d, before.a.clock));
    }
  }

  /** b takes the first message and answers it. */
  function Answering(p: Params, d: Bytes, r: Bytes): Ep {
    OnWrite(p, OnPacketOpen(p, NewEp(0, 0), Packet(Data, 0, 1, d), 0), r, 0)
  }

  lemma AnswerIsOnWire(p: Params, l: Pair, k: nat, d: Bytes, r: Bytes)
    requires Reached(p, l) && OnlyWrote(l, k, d) && k > 0 && p.window > 0
    ensures Reached(p, l.(b := Answering(p, d, r))) && Packet(Data, 0, 1, r) in Answering(p, d, r).wire
  {
    var b, first := NewEp(0, 0), Packet(Data, 0, 1, d);
    var b' := OnPacketOpen(p, b, first, 0);
    AcceptKeepsSender(p, b.(epochsSilent := 0), 1, d);
    hide Accept;
    assert b.(clock := 0) == b && b'.(clock := 0) == b';
    ReachedNext(p, l, Move(B, Receive(first), 0), l.(b := b'));
    FirstIsOnWire(p, b', r, 0);
    ReachedNext(p, l.(b := b'), Move(B, Write(r), 0), l.(b := Answering(p, d, r)));
  }

  lemma ResultComesFirst(p: Params, e: Ep, r: Bytes)
    requires e.next == 1 && e.held == map[] && e.delivered == [] && e.id == 0
    ensures var e' := OnPacketOpen(p, e, Packet(Data, 0, 1, r), e.clock);
            && e'.delivered == [r] && e'.sendBuffer == e.sendBuffer && e'.pendingWrites == e.pendingWrites
            && e'.written == e.written && e'.phase == e.phase && e'.clock == e.clock
  {
    var t := e.(epochsSilent := 0);
    AcceptKeepsSender(p, t, 1, r);
    var once := Queue(t.(held := map[1 := r]), r).(held := map[], next := 2);
    assert map[1 := r] - {1} == map[];
    assert DrainHeld(once) == once;
    assert DrainHeld(t.(held := map[1 := r])) == once;
  }
}
