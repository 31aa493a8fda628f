/**
 What an endpoint does on the wire and with its timers, in every step of every
 run, said in terms of clocks, counts and packets.
 */
module Transmissions {
  import opened Base
  import opened Connection
  import opened Link
  import opened Backoff

  function DataPacket(e: Ep, s: u32): Packet
    requires s in e.sendBuffer
  {
    Packet(Data, e.id, s, e.sendBuffer[s].payload)
  }

  /** A move of endpoint a is a step of it; a move of b leaves it alone. */
  lemma MovesOfA(p: Params, states: seq<Pair>, moves: seq<Move>, i: nat)
    requires LinkRun(p, states, moves) && i < |moves|
    ensures moves[i].side == A ==> Step(p, states[i].a, states[i].b.wire, moves[i].act, moves[i].now, states[i + 1].a)
    ensures moves[i].side == A && moves[i].act.Write? ==> |states[i].a.written| < MAX_MESSAGES
    ensures moves[i].side == B ==> states[i + 1].a == states[i].a
  {
    hide Step;
    assert LinkStep(p, states[i], moves[i], states[i + 1]);
  }

  // ------------------------------------------------------- how often a message was sent

  /** Every message in the window was transmitted once, and once more for each retry. */
  ghost predicate Tallied(e: Ep) {
    forall s :: s in e.sendBuffer ==> e.wire[DataPacket(e, s)] == e.sendBuffer[s].retries + 1
  }

  lemma QuietTallied(e: Ep, e': Ep)
    requires Tallied(e) && e'.sendBuffer == e.sendBuffer && e'.id == e.id
    requires forall k: Packet :: k.kind == Data ==> e'.wire[k] == e.wire[k]
    ensures Tallied(e')
  {
    forall s | s in e'.sendBuffer ensures e'.wire[DataPacket(e', s)] == e'.sendBuffer[s].retries + 1 {
      assert DataPacket(e', s) == DataPacket(e, s);
    }
  }

  lemma AdmitTallied(p: Params, e: Ep, now: int)
    requires Sends(p, e) && Tallied(e) && e.pendingWrites != []
    ensures Tallied(Admit(p, e, now))
  {
    AdmitLedger(p, e, now);
    var e' := Admit(p, e, now);
    var first := Packet(Data, e.id, e'.nextSeq, e.pendingWrites[0]);
    assert first !in e.wire;
    forall s | s in e'.sendBuffer ensures e'.wire[DataPacket(e', s)] == e'.sendBuffer[s].retries + 1 {
      if s != e'.nextSeq {
        assert DataPacket(e', s) == DataPacket(e, s) != first;
      }
    }
  }

  lemma {:induction false} FillTallied(p: Params, e: Ep, now: int)
    requires Sends(p, e) && Tallied(e) && !e.phase.Ended?
    ensures Tallied(FillWindow(p, e, now))
    decreases |e.pendingWrites|
  {
    if e.pendingWrites != [] && |e.sendBuffer| < p.window {
      AdmitTallied(p, e, now);
      AdmitSends(p, e, now);
      hide Tallied, Sends;
      FillTallied(p, Admit(p, e, now), now);
    }
  }

  lemma SameSends(p: Params, e: Ep, e': Ep)
    requires Sends(p, e) && e'.sendBuffer == e.sendBuffer && e'.pendingWrites == e.pendingWrites && e'.nextSeq == e.nextSeq
    requires e'.written == e.written && e'.wire == e.wire && e'.phase == e.phase
    ensures Sends(p, e')
  {}

  lemma FewerTallied(e: Ep, s: u32)
    requires Tallied(e)
    ensures Tallied(e.(sendBuffer := e.sendBuffer - {s}))
  {
    var e' := e.(sendBuffer := e.sendBuffer - {s});
    forall r | r in e'.sendBuffer ensures e'.wire[DataPacket(e', r)] == e'.sendBuffer[r].retries + 1 {
      assert DataPacket(e', r) == DataPacket(e, r);
    }
  }

  lemma SettleTallied(p: Params, e: Ep, s: u32, now: int)
    requires Sends(p, e) && Tallied(e) && !e.phase.Ended?
    ensures Tallied(Settle(p, e, s, now))
  {
    hide Sends, Tallied, FillWindow;
    RemoveAcked(p, e, s);
    FewerTallied(e, s);
    FillTallied(p, e.(sendBuffer := e.sendBuffer - {s}), now);
  }

  lemma AckTallied(p: Params, e: Ep, s: u32, now: int)
    requires Sends(p, e) && Tallied(e) && !e.phase.Ended?
    ensures Tallied(OnAck(p, e, s, now))
  {
    hide Sends, Tallied, Settle;
    if s in e.sendBuffer {
      var t := Sample(e, now - e.sendBuffer[s].firstSent);
      SameSends(p, e, t);
      QuietTallied(e, t);
      SettleTallied(p, e, s, now);
      SettleTallied(p, t, s, now);
    }
  }

  /** The scan transmits exactly the messages that are due, once each. */
  lemma ScanSends(p: Params, e: Ep, now: int, s: u32)
    requires s in e.sendBuffer
    ensures var e' := RetransmitExpired(p, e, now);
            && s in e'.sendBuffer && DataPacket(e', s) == DataPacket(e, s)
            && e'.wire[DataPacket(e, s)] == e.wire[DataPacket(e, s)] + if now - e.sendBuffer[s].lastSent >= e.sendBuffer[s].rto then 1 else 0
  {
    assert Expired(e.sendBuffer[s], now) <==> DataPacket(e, s) in Resent(e, now);
  }

  lemma ScanTallied(p: Params, e: Ep, now: int)
    requires Tallied(e)
    ensures Tallied(RetransmitExpired(p, e, now))
  {
    var e' := RetransmitExpired(p, e, now);
    forall s | s in e'.sendBuffer ensures e'.wire[DataPacket(e', s)] == e'.sendBuffer[s].retries + 1 {
      ScanSends(p, e, now, s);
    }
  }

  /** Sending something other than data. */
  lemma EmitTallied(e: Ep, kind: Kind, sn: u32)
    requires Tallied(e) && kind != Data
    ensures Tallied(Emit(e, kind, sn, []))
  {
    QuietTallied(e, Emit(e, kind, sn, []));
  }

  lemma HeartbeatTallied(e: Ep)
    requires Tallied(e)
    ensures Tallied(Heartbeat(e))
  {
    hide Tallied, Emit;
    EmitTallied(e, Ack, 0);
    var t := if e.sentThisEpoch then e else Emit(e, Ack, 0, []);
    QuietTallied(t, Heartbeat(e));
  }

  lemma EpochTallied(p: Params, e: Ep, now: int)
    requires Tallied(e)
    ensures Tallied(OnEpoch(p, e, now))
  {
    hide Tallied, RetransmitExpired, Heartbeat;
    ScanTallied(p, e, now);
    var u := Heartbeat(RetransmitExpired(p, e, now));
    HeartbeatTallied(RetransmitExpired(p, e, now));
    QuietTallied(u, CountSilence(p, u));
  }

  lemma FlushTallied(e: Ep)
    requires Tallied(e)
    ensures Tallied(FlushCheck(e))
  {
    hide Tallied, Emit;
    EmitTallied(e, Close, 0);
    QuietTallied(Emit(e, Close, 0, []), Emit(e, Close, 0, []).(phase := Ended));
  }

  lemma DataTallied(p: Params, e: Ep, s: u32, payload: Bytes)
    requires Tallied(e)
    ensures Tallied(Emit(Accept(p, e, s, payload), Ack, s, []))
  {
    AcceptKeepsSender(p, e, s, payload);
    hide Tallied, Accept, Emit;
    QuietTallied(e, Accept(p, e, s, payload));
    EmitTallied(Accept(p, e, s, payload), Ack, s);
  }

  lemma PacketTallied(p: Params, e: Ep, k: Packet, now: int)
    requires Sends(p, e) && Tallied(e) && !e.phase.Ended?
    ensures Tallied(OnPacketOpen(p, e, k, now)) && Tallied(OnPacketFlushing(p, e, k, now))
  {
    hide Sends, Tallied, Accept, Emit, OnAck, FlushCheck;
    var t := e.(epochsSilent := 0);
    SameSends(p, e, t);
    QuietTallied(e, t);
    if k.connID == e.id {
      match k.kind
      case Ack =>
        AckTallied(p, t, k.sn, now);
        FlushTallied(OnAck(p, t, k.sn, now));
      case Data =>
        DataTallied(p, t, k.sn, k.payload);
        EmitTallied(t, Ack, k.sn);
      case Close =>
        QuietTallied(t, StartDraining(t, Closed));
        QuietTallied(t, t.(phase := Ended));
      case _ =>
    }
  }

  lemma StepTallied(p: Params, e: Ep, inbox: multiset<Packet>, act: Act, now: int, e': Ep)
    requires Sends(p, e) && Tallied(e) && Step(p, e, inbox, act, now, e') && (act.Write? ==> |e.written| < MAX_MESSAGES)
    ensures Tallied(e')
  {
    hide Sends, Tallied, OnPacketOpen, OnPacketFlushing, OnEpoch, FillWindow, FlushCheck;
    var t := e.(clock := now);
    SameSends(p, e, t);
    QuietTallied(e, t);
    match act
    case Write(data) =>
      MoreWritten(p, t, data);
      var u := t.(pendingWrites := t.pendingWrites + [data], written := t.written + [data]);
      QuietTallied(t, u);
      FillTallied(p, u, now);
    case Receive(k) => PacketTallied(p, t, k, now);
    case Epoch => EpochTallied(p, t, now);
    case AppClose =>
      var u := t.(phase := Flushing, appClosed := true);
      FlushingSends(p, t, u);
      QuietTallied(t, u);
      FillTallied(p, u, now);
      FlushTallied(FillWindow(p, u, now));
    case Take => QuietTallied(t, e');
    case StopDraining => QuietTallied(t, e');
  }

  lemma FlushingSends(p: Params, e: Ep, e': Ep)
    requires Sends(p, e) && e.phase.Open? && e' == e.(phase := Flushing, appClosed := true)
    ensures Sends(p, e')
  {}

  /** In every run a message in the window was transmitted exactly once plus once per retry. */
  lemma {:induction false} TransmissionsAreCounted(p: Params, states: seq<Pair>, moves: seq<Move>, i: nat, s: u32)
    requires LinkRun(p, states, moves) && i < |states| && s in states[i].a.sendBuffer
    ensures var a := states[i].a; a.wire[Packet(Data, a.id, s, a.sendBuffer[s].payload)] == a.sendBuffer[s].retries + 1
  {
    TalliedHolds(p, states, moves, i);
    hide LinkRun;
    assert DataPacket(states[i].a, s) == Packet(Data, states[i].a.id, s, states[i].a.sendBuffer[s].payload);
  }

  lemma {:induction false} TalliedHolds(p: Params, states: seq<Pair>, moves: seq<Move>, i: nat)
    requires LinkRun(p, states, moves) && i < |states|
    ensures Tallied(states[i].a)
  {
    hide LinkStep, Step, Tallied;
    if i == 0 {
      FreshTallied(states[0].a.id, states[0].a.clock);
    } else {
      TalliedHolds(p, states, moves, i - 1);
      RunIsSound(p, states, moves, i - 1);
      MovesOfA(p, states, moves, i - 1);
      if moves[i - 1].side == A {
        StepTallied(p, states[i - 1].a, states[i - 1].b.wire, moves[i - 1].act, moves[i - 1].now, states[i].a);
      }
    }
  }

  lemma FreshTallied(id: u32, now: int)
    ensures Tallied(NewEp(id, now))
  {}
}
