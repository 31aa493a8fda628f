/**
 The steps of an endpoint, over every run, in plain terms: what is resent and
 when, how a message starts, what an ack and a data packet do, when a heartbeat
 goes out, when silence ends the connection, and when a flush is over.
 */
module EndpointSteps {
  import opened Base
  import opened Connection
  import opened Link
  import opened Backoff
  import opened Transmissions

  predicate Moves(moves: seq<Move>, i: nat, act: Act) { i < |moves| && moves[i].side == A && moves[i].act == act }

  // ------------------------------------------------------------------ resending

  /** An epoch leaves the window and the data on the wire as the scan does. */
  lemma EpochIsScan(p: Params, e: Ep, now: int)
    ensures var t, e' := RetransmitExpired(p, e, now), OnEpoch(p, e, now);
            e'.sendBuffer == t.sendBuffer && forall k: Packet :: k.kind == Data ==> e'.wire[k] == t.wire[k]
  {
    hide RetransmitExpired;
    var t := RetransmitExpired(p, e, now);
    var u := Heartbeat(t);
    assert u.sendBuffer == t.sendBuffer && forall k: Packet :: k.kind == Data ==> u.wire[k] == t.wire[k];
    hide Heartbeat;
    assert OnEpoch(p, e, now) == CountSilence(p, u);
  }

  lemma EpochResends(p: Params, e: Ep, now: int, s: u32)
    requires s in e.sendBuffer
    ensures var e' := OnEpoch(p, e, now);
            && e'.sendBuffer.Keys == e.sendBuffer.Keys
            && var m, m', k := e.sendBuffer[s], e'.sendBuffer[s], Packet(Data, e.id, s, e.sendBuffer[s].payload);
               if now - m.lastSent < m.rto then m' == m && e'.wire[k] == e.wire[k]
               else
                 && m'.lastSent == now && m'.retries == m.retries + 1 && m'.retransmitted
                 && (2 * m.rto <= p.maxBackoff * p.epoch ==> m'.rto == 2 * m.rto)
                 && (2 * m.rto > p.maxBackoff * p.epoch ==> m'.rto == p.maxBackoff * p.epoch)
                 && m'.payload == m.payload && m'.firstSent == m.firstSent && m'.initial == m.initial
                 && e'.wire[k] == e.wire[k] + 1
  {
    ScanSends(p, e, now, s);
    EpochIsScan(p, e, now);
    hide OnEpoch;
    assert RetransmitExpired(p, e, now).sendBuffer.Keys == e.sendBuffer.Keys;
  }

  /** Every message whose RTO has run out is sent again at the epoch, its RTO doubled up to the limit; no other is. */
  lemma DueIsResent(p: Params, states: seq<Pair>, moves: seq<Move>, i: nat, s: u32)
    requires LinkRun(p, states, moves) && Moves(moves, i, Epoch) && s in states[i].a.sendBuffer
    ensures var a, a', now := states[i].a, states[i + 1].a, moves[i].now;
            && a'.sendBuffer.Keys == a.sendBuffer.Keys
            && var m, m', k := a.sendBuffer[s], a'.sendBuffer[s], Packet(Data, a.id, s, a.sendBuffer[s].payload);
               if now - m.lastSent < m.rto then m' == m && a'.wire[k] == a.wire[k]
               else
                 && m'.lastSent == now && m'.retries == m.retries + 1 && m'.retransmitted
                 && (2 * m.rto <= p.maxBackoff * p.epoch ==> m'.rto == 2 * m.rto)
                 && (2 * m.rto > p.maxBackoff * p.epoch ==> m'.rto == p.maxBackoff * p.epoch)
                 && m'.payload == m.payload && m'.firstSent == m.firstSent && m'.initial == m.initial
                 && a'.wire[k] == a.wire[k] + 1
  {
    MovesOfA(p, states, moves, i);
    hide LinkRun, OnEpoch;
    EpochResends(p, states[i].a.(clock := moves[i].now), moves[i].now, s);
  }

  // ------------------------------------------------------------ entering the window

  /** A message that has just gone out for the first time, given the estimate. */
  predicate Starts(p: Params, srtt: Option<int>, m: OutMsg, now: int) {
    && m.firstSent == now && m.lastSent == now && m.retries == 0 && !m.retransmitted && m.rto == m.initial
    && (srtt.None? ==> m.rto == 2 * p.epoch)
    && (srtt.Some? ==> m.rto >= p.epoch && m.rto >= 2 * srtt.value && (m.rto == p.epoch || m.rto == 2 * srtt.value))
  }

  lemma {:induction false} FillStarts(p: Params, e: Ep, now: int)
    requires e.nextSeq + |e.pendingWrites| < TWO_32
    ensures var e' := FillWindow(p, e, now);
            e'.srtt == e.srtt && forall s :: s in e'.sendBuffer && s > e.nextSeq && s !in e.sendBuffer ==> Starts(p, e'.srtt, e'.sendBuffer[s], now)
    decreases |e.pendingWrites|
  {
    if e.pendingWrites != [] && |e.sendBuffer| < p.window {
      SuccIsNext(e.nextSeq);
      FillStarts(p, Admit(p, e, now), now);
      FillOnlyAdds(p, Admit(p, e, now), now);
    }
  }

  ghost predicate NewOnesStart(p: Params, e: Ep, e': Ep, now: int) {
    forall s :: s in e'.sendBuffer && s > e.nextSeq ==> Starts(p, e'.srtt, e'.sendBuffer[s], now)
  }

  /** A step that fills the window from t, which has e's messages or fewer. */
  lemma FillsNewOnes(p: Params, e: Ep, t: Ep, e': Ep, now: int)
    requires Sends(p, e) && t.nextSeq == e.nextSeq && t.sendBuffer.Keys <= e.sendBuffer.Keys && t.nextSeq + |t.pendingWrites| < TWO_32
    requires var f := FillWindow(p, t, now); e'.sendBuffer == f.sendBuffer && e'.srtt == f.srtt
    ensures NewOnesStart(p, e, e', now)
  {
    FillStarts(p, t, now);
    assert forall s :: s in e.sendBuffer ==> s <= e.nextSeq;
  }

  lemma NoNewOnes(p: Params, e: Ep, e': Ep, now: int)
    requires Sends(p, e) && e'.sendBuffer.Keys <= e.sendBuffer.Keys
    ensures NewOnesStart(p, e, e', now)
  {
    assert forall s :: s in e.sendBuffer ==> s <= e.nextSeq;
  }

  /** An ack of a message in the window settles it, with or without a sample. */
  lemma AckIsSettle(p: Params, e: Ep, s: u32, now: int) returns (t: Ep)
    requires s in e.sendBuffer
    ensures OnAck(p, e, s, now) == Settle(p, t, s, now)
    ensures t == if e.sendBuffer[s].retransmitted then e else Sample(e, now - e.sendBuffer[s].firstSent)
  {
    hide Settle;
    t := if e.sendBuffer[s].retransmitted then e else Sample(e, now - e.sendBuffer[s].firstSent);
  }

  lemma AckOfNothing(p: Params, e: Ep, s: u32, now: int)
    requires s !in e.sendBuffer
    ensures OnAck(p, e, s, now) == e
  {}

  lemma AckStarts(p: Params, e: Ep, s: u32, now: int, e': Ep)
    requires Sends(p, e) && var u := OnAck(p, e, s, now); e'.sendBuffer == u.sendBuffer && e'.srtt == u.srtt
    ensures NewOnesStart(p, e, e', now)
  {
    LedgerFits(p, e);
    hide Sends, Settle, OnAck, NewOnesStart;
    if s !in e.sendBuffer {
      AckOfNothing(p, e, s, now);
      NoNewOnes(p, e, e', now);
    } else {
      var t := AckIsSettle(p, e, s, now);
      SettleStarts(p, e, t, s, now, e');
    }
  }

  lemma SettleStarts(p: Params, e: Ep, t: Ep, s: u32, now: int, e': Ep)
    requires Sends(p, e) && t.nextSeq == e.nextSeq && t.sendBuffer == e.sendBuffer && t.nextSeq + |t.pendingWrites| < TWO_32
    requires var f := Settle(p, t, s, now); e'.sendBuffer == f.sendBuffer && e'.srtt == f.srtt
    ensures NewOnesStart(p, e, e', now)
  {
    hide Sends, FillWindow, NewOnesStart;
    FillsNewOnes(p, e, t.(sendBuffer := t.sendBuffer - {s}), e', now);
  }

  lemma PacketStarts(p: Params, e: Ep, k: Packet, now: int, e': Ep)
    requires Sends(p, e) && (e' == OnPacketOpen(p, e, k, now) || e' == OnPacketFlushing(p, e, k, now))
    ensures NewOnesStart(p, e, e', now)
  {
    hide Sends, NewOnesStart, OnAck;
    var t := e.(epochsSilent := 0);
    SameSends(p, e, t);
    if k.connID == e.id && k.kind == Ack {
      AckStarts(p, t, k.sn, now, e');
      SameNewOnes(p, t, e, e', now);
    } else {
      AcceptKeepsSender(p, t, k.sn, k.payload);
      hide Accept;
      NoNewOnes(p, e, e', now);
    }
  }

  lemma SameNewOnes(p: Params, t: Ep, e: Ep, e': Ep, now: int)
    requires NewOnesStart(p, t, e', now) && t.nextSeq == e.nextSeq
    ensures NewOnesStart(p, e, e', now)
  {}

  lemma EpochKeepsKeys(p: Params, e: Ep, now: int)
    ensures OnEpoch(p, e, now).sendBuffer.Keys == e.sendBuffer.Keys
  {
    EpochIsScan(p, e, now);
    hide OnEpoch;
    assert RetransmitExpired(p, e, now).sendBuffer.Keys == e.sendBuffer.Keys;
  }

  lemma StepStarts(p: Params, e: Ep, inbox: multiset<Packet>, act: Act, now: int, e': Ep)
    requires Sends(p, e) && Step(p, e, inbox, act, now, e') && (act.Write? ==> |e.written| < MAX_MESSAGES)
    ensures NewOnesStart(p, e, e', now)
  {
    LedgerFits(p, e);
    hide Sends, NewOnesStart, OnPacketOpen, OnPacketFlushing, OnEpoch, FillWindow;
    var t := e.(clock := now);
    SameSends(p, e, t);
    match act
    case Write(data) => FillsNewOnes(p, e, t.(pendingWrites := t.pendingWrites + [data], written := t.written + [data]), e', now);
    case Receive(k) => PacketStarts(p, t, k, now, e'); SameNewOnes(p, t, e, e', now);
    case Epoch => EpochKeepsKeys(p, t, now); NoNewOnes(p, e, e', now);
    case AppClose => FillsNewOnes(p, e, t.(phase := Flushing, appClosed := true), e', now);
    case Take => NoNewOnes(p, e, e', now);
    case StopDraining => NoNewOnes(p, e, e', now);
  }

  /** A new number in the window is a first transmission of the write it numbers, its RTO the larger of two SRTTs and one epoch, or two epochs. */
  lemma MessagesStart(p: Params, states: seq<Pair>, moves: seq<Move>, i: nat, s: u32)
    requires LinkRun(p, states, moves) && i < |moves| && s in states[i + 1].a.sendBuffer && s > states[i].a.nextSeq
    ensures var a' := states[i + 1].a;
            && Starts(p, a'.srtt, a'.sendBuffer[s], moves[i].now)
            && s <= |a'.written| && a'.sendBuffer[s].payload == a'.written[s - 1]
            && a'.wire[Packet(Data, a'.id, s, a'.written[s - 1])] == 1
  {
    RunIsSound(p, states, moves, i);
    RunIsSound(p, states, moves, i + 1);
    MovesOfA(p, states, moves, i);
    TransmissionsAreCounted(p, states, moves, i + 1, s);
    hide LinkRun, Step;
    var a, a' := states[i].a, states[i + 1].a;
    assert Numbered(a'.written, s, a'.sendBuffer[s].payload);
    assert s in a.sendBuffer ==> s <= a.nextSeq;
    if moves[i].side == A { StepStarts(p, a, states[i].b.wire, moves[i].act, moves[i].now, a'); }
  }

  // ------------------------------------------------------------------- receiving

  /** The estimate after one more sample, or after none. */
  predicate Updated(srtt: Option<int>, sampled: bool, sample: int, srtt': Option<int>) {
    if !sampled then srtt' == srtt
    else srtt'.Some? && (if srtt.None? then srtt'.value == sample else 8 * srtt'.value <= 7 * srtt.value + sample < 8 * srtt'.value + 8)
  }

  lemma SettleTakes(p: Params, e: Ep, s: u32, now: int)
    requires Sends(p, e) && !e.phase.Ended? && s in e.sendBuffer
    ensures var e' := Settle(p, e, s, now);
            && s !in e'.sendBuffer && e'.srtt == e.srtt && e'.id == e.id
            && (forall r :: r in e.sendBuffer && r != s ==> r in e'.sendBuffer && e'.sendBuffer[r] == e.sendBuffer[r])
  {
    LedgerFits(p, e);
    RemoveAcked(p, e, s);
    var t := e.(sendBuffer := e.sendBuffer - {s});
    FillSends(p, t, now);
    FillOnlyAdds(p, t, now);
    FillStarts(p, t, now);
    hide FillWindow;
    forall r | r in e.sendBuffer && r != s ensures r in FillWindow(p, t, now).sendBuffer {
      assert Numbered(e.written, r, e.sendBuffer[r].payload) && r <= e.nextSeq && r in t.sendBuffer;
    }
  }

  /** What an ack of s does to the window and the estimate. */
  ghost predicate AckEffect(a: Ep, a': Ep, s: u32, now: int) {
    if s !in a.sendBuffer then a'.sendBuffer == a.sendBuffer && a'.srtt == a.srtt
    else
      && s !in a'.sendBuffer && Updated(a.srtt, !a.sendBuffer[s].retransmitted, now - a.sendBuffer[s].firstSent, a'.srtt)
      && forall r :: r in a.sendBuffer && r != s ==> r in a'.sendBuffer && a'.sendBuffer[r] == a.sendBuffer[r]
  }

  lemma AckTakes(p: Params, e: Ep, s: u32, now: int)
    requires Sends(p, e) && !e.phase.Ended?
    ensures AckEffect(e, OnAck(p, e, s, now), s, now)
  {
    hide Sends, Settle, OnAck;
    if s !in e.sendBuffer {
      AckOfNothing(p, e, s, now);
    } else {
      var t := AckIsSettle(p, e, s, now);
      SameSends(p, e, t);
      SettleTakes(p, t, s, now);
    }
  }

  lemma SameEffect(e: Ep, t: Ep, u: Ep, e': Ep, s: u32, now: int)
    requires AckEffect(t, u, s, now) && t.sendBuffer == e.sendBuffer && t.srtt == e.srtt && e'.sendBuffer == u.sendBuffer && e'.srtt == u.srtt
    ensures AckEffect(e, e', s, now)
  {}

  lemma AckPacketTakes(p: Params, e: Ep, k: Packet, now: int, e': Ep)
    requires Sends(p, e) && !e.phase.Ended? && k.kind == Ack && k.connID == e.id
    requires e' == OnPacketOpen(p, e, k, now) || e' == OnPacketFlushing(p, e, k, now)
    ensures AckEffect(e, e', k.sn, now)
  {
    hide Sends, OnAck, AckEffect;
    var t := e.(epochsSilent := 0);
    SameSends(p, e, t);
    AckTakes(p, t, k.sn, now);
    SameEffect(e, t, OnAck(p, t, k.sn, now), e', k.sn, now);
  }

  /**
   An ack takes exactly its own message out of the window, and weighs the round
   trip into the estimate by one eighth unless the message was ever resent; an
   ack of anything else changes neither.
   */
  lemma AckTakesItsMessage(p: Params, states: seq<Pair>, moves: seq<Move>, i: nat, k: Packet)
    requires LinkRun(p, states, moves) && Moves(moves, i, Receive(k)) && k.kind == Ack && k.connID == states[i].a.id
    ensures AckEffect(states[i].a, states[i + 1].a, k.sn, moves[i].now)
  {
    RunIsSound(p, states, moves, i);
    MovesOfA(p, states, moves, i);
    hide LinkRun, Sends, AckEffect, OnPacketOpen, OnPacketFlushing;
    var a, t := states[i].a, states[i].a.(clock := moves[i].now);
    SameSends(p, a, t);
    AckPacketTakes(p, t, k, moves[i].now, states[i + 1].a);
    SameEffect(a, t, states[i + 1].a, states[i + 1].a, k.sn, moves[i].now);
  }

  /** What a data packet of this connection does. */
  ghost predicate DataEffect(p: Params, a: Ep, a': Ep, k: Packet) {
    && a'.sendBuffer == a.sendBuffer
    && (k.sn > 0 || a.phase.Flushing? ==> a'.wire == a.wire + multiset{Packet(Ack, a.id, k.sn, [])})
    && (k.sn == 0 && a.phase.Open? ==> a'.wire == a.wire)
    && (k.sn > 0 && a.phase.Open? ==> k.sn in a'.accepted && a'.accepted[k.sn] == k.payload)
    && (k.sn > 0 && a.phase.Open? && !p.ordered ==> a'.delivered == a.delivered + [k.payload] && a'.deliverQ == a.deliverQ + [Got(k.payload)])
    && (a.phase.Flushing? || k.sn == 0 || (p.ordered && (k.sn < a.next || k.sn in a.held)) ==>
          a'.delivered == a.delivered && a'.deliverQ == a.deliverQ)
  }

  lemma OpenData(p: Params, e: Ep, k: Packet, now: int)
    requires e.phase.Open? && k.kind == Data && k.connID == e.id
    ensures DataEffect(p, e, OnPacketOpen(p, e, k, now), k)
  {
    AcceptKeepsSender(p, e.(epochsSilent := 0), k.sn, k.payload);
    hide DrainHeld;
  }

  lemma FlushingData(p: Params, e: Ep, k: Packet, now: int)
    requires e.phase.Flushing? && k.kind == Data && k.connID == e.id
    ensures DataEffect(p, e, OnPacketFlushing(p, e, k, now), k)
  {}

  /**
   Every data packet is acknowledged, repeats included. In the default mode it is
   queued for Read as often as it comes; in ordered mode a repeat is not; a
   connection that is flushing only acknowledges.
   */
  lemma DataIsAcknowledged(p: Params, states: seq<Pair>, moves: seq<Move>, i: nat, k: Packet)
    requires LinkRun(p, states, moves) && Moves(moves, i, Receive(k)) && k.kind == Data && k.connID == states[i].a.id
    ensures DataEffect(p, states[i].a, states[i + 1].a, k)
  {
    MovesOfA(p, states, moves, i);
    hide LinkRun, OnPacketOpen, OnPacketFlushing;
    var t := states[i].a.(clock := moves[i].now);
    if t.phase.Open? { OpenData(p, t, k, moves[i].now); } else { FlushingData(p, t, k, moves[i].now); }
  }
}
