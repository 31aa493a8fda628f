/**
 Timers over whole runs: exponential backoff, Karn's rule (section 3 of RFC
 6298) and the smoothed round trip (the 1/8 weight of section 2). There is no
 RTTVAR here, so this is not the estimator of that document.
 */
module Backoff {
  import opened Base
  import opened Connection
  import opened Link

  ghost predicate Positive(p: Params) { p.window > 0 && p.epochLimit > 0 && p.maxBackoff > 0 && p.epoch > 0 }

  function Limit(p: Params): int { p.maxBackoff * p.epoch }

  /** initial * 2^k */
  function Doubled(initial: int, k: nat): int {
    if k == 0 then initial else 2 * Doubled(initial, k - 1)
  }

  /** The RTO in force after k resends. */
  function RtoAfter(p: Params, initial: int, k: nat): int {
    if k == 0 then initial
    else if Doubled(initial, k) > Limit(p) then Limit(p)
    else Doubled(initial, k)
  }

  /** The least time between the first transmission and the k-th resend. */
  function WaitFor(p: Params, initial: int, k: nat): int {
    if k == 0 then 0 else WaitFor(p, initial, k - 1) + RtoAfter(p, initial, k - 1)
  }

  /** One unacknowledged message at time clock. */
  ghost predicate Timed(p: Params, m: OutMsg, clock: int) {
    && m.initial >= p.epoch
    && m.rto == RtoAfter(p, m.initial, m.retries)
    && (m.retransmitted <==> m.retries > 0)
    && m.lastSent <= clock
    && m.lastSent - m.firstSent >= WaitFor(p, m.initial, m.retries)
    && (m.retries == 0 ==> m.lastSent == m.firstSent)
  }

  ghost predicate WellTimed(p: Params, e: Ep) {
    && Smoothed(e.srtt, e.samples)
    && (forall s :: s in e.sendBuffer ==> Timed(p, e.sendBuffer[s], e.clock))
  }

  lemma DoublingStep(p: Params, initial: int, k: nat)
    requires Positive(p) && initial > 0
    ensures Doubled(initial, k) > 0
    ensures var r := RtoAfter(p, initial, k);
            (if 2 * r > Limit(p) then Limit(p) else 2 * r) == RtoAfter(p, initial, k + 1)
  {
    DoubledIsPositive(initial, k);
    assert Limit(p) > 0 by { LimitIsPositive(p); }
    assert Doubled(initial, k + 1) == 2 * Doubled(initial, k);
  }

  lemma {:induction false} DoubledIsPositive(initial: int, k: nat)
    requires initial > 0
    ensures Doubled(initial, k) > 0
  {
    if k > 0 { DoubledIsPositive(initial, k - 1); }
  }

  lemma LimitIsPositive(p: Params)
    requires Positive(p)
    ensures Limit(p) > 0
  {}

  /** A scan resends a message only when its RTO has run out, and then doubles it up to the limit. */
  lemma ResendIsTimed(p: Params, m: OutMsg, now: int)
    requires Positive(p) && Timed(p, m, now)
    ensures Timed(p, ResendIfExpired(p, m, now), now)
  {
    DoublingStep(p, m.initial, m.retries);
  }

  lemma {:induction false} FillIsTimed(p: Params, e: Ep, now: int)
    requires Positive(p) && WellTimed(p, e) && e.clock == now
    ensures WellTimed(p, FillWindow(p, e, now)) && FillWindow(p, e, now).clock == now
    ensures FillWindow(p, e, now).samples == e.samples && FillWindow(p, e, now).srtt == e.srtt
    decreases |e.pendingWrites|
  {
    if e.pendingWrites != [] && |e.sendBuffer| < p.window {
      var t := Admit(p, e, now);
      assert WellTimed(p, t);
      FillIsTimed(p, t, now);
    }
  }

  lemma AckIsTimed(p: Params, e: Ep, s: u32, now: int)
    requires Positive(p) && WellTimed(p, e) && e.clock == now
    ensures WellTimed(p, OnAck(p, e, s, now)) && OnAck(p, e, s, now).clock == now
    ensures OnAck(p, e, s, now).samples
         == if s in e.sendBuffer && e.sendBuffer[s].retries == 0 then e.samples + [now - e.sendBuffer[s].firstSent] else e.samples
  {
    if s in e.sendBuffer {
      var m := e.sendBuffer[s];
      SmoothStaysWithin(e.srtt, e.samples, now - m.firstSent);
      var t := if m.retransmitted then e else Sample(e, now - m.firstSent);
      assert Timed(p, m, now);
      assert OnAck(p, e, s, now) == Settle(p, t, s, now);
      FillIsTimed(p, t.(sendBuffer := t.sendBuffer - {s}), now);
    }
  }

  /** Steps that leave the send buffer and the estimator alone. */
  lemma QuietIsTimed(p: Params, e: Ep, e': Ep)
    requires WellTimed(p, e) && e'.sendBuffer == e.sendBuffer && e'.srtt == e.srtt && e'.samples == e.samples && e.clock <= e'.clock
    ensures WellTimed(p, e')
  {}

  lemma RetransmitIsTimed(p: Params, e: Ep, now: int)
    requires Positive(p) && WellTimed(p, e) && e.clock == now
    ensures WellTimed(p, RetransmitExpired(p, e, now))
  {
    forall s | s in e.sendBuffer ensures Timed(p, ResendIfExpired(p, e.sendBuffer[s], now), now) {
      ResendIsTimed(p, e.sendBuffer[s], now);
    }
  }

  lemma FlushIsTimed(p: Params, e: Ep)
    requires WellTimed(p, e)
    ensures WellTimed(p, FlushCheck(e))
  {
    QuietIsTimed(p, e, FlushCheck(e));
  }

  lemma HeartbeatIsTimed(p: Params, e: Ep)
    requires WellTimed(p, e)
    ensures WellTimed(p, Heartbeat(e))
  {
    QuietIsTimed(p, e, Heartbeat(e));
  }

  lemma SilenceIsTimed(p: Params, e: Ep)
    requires WellTimed(p, e)
    ensures WellTimed(p, CountSilence(p, e))
  {
    QuietIsTimed(p, e, CountSilence(p, e));
  }

  lemma DataIsTimed(p: Params, e: Ep, s: u32, payload: Bytes)
    requires WellTimed(p, e)
    ensures WellTimed(p, Emit(Accept(p, e, s, payload), Ack, s, []))
  {
    AcceptKeepsSender(p, e, s, payload);
    QuietIsTimed(p, e, Emit(Accept(p, e, s, payload), Ack, s, []));
  }

  lemma OpenPacketIsTimed(p: Params, e: Ep, k: Packet, now: int)
    requires Positive(p) && WellTimed(p, e) && e.clock == now
    ensures WellTimed(p, OnPacketOpen(p, e, k, now))
  {
    var t := e.(epochsSilent := 0);
    QuietIsTimed(p, e, t);
    if k.connID == e.id {
      match k.kind
      case Ack => AckIsTimed(p, t, k.sn, now);
      case Data => DataIsTimed(p, t, k.sn, k.payload);
      case Close => QuietIsTimed(p, t, StartDraining(t, Closed));
      case _ =>
    }
  }

  lemma FlushingPacketIsTimed(p: Params, e: Ep, k: Packet, now: int)
    requires Positive(p) && WellTimed(p, e) && e.clock == now
    ensures WellTimed(p, OnPacketFlushing(p, e, k, now))
  {
    var t := e.(epochsSilent := 0);
    QuietIsTimed(p, e, t);
    if k.connID == e.id {
      match k.kind
      case Ack => AckIsTimed(p, t, k.sn, now); FlushIsTimed(p, OnAck(p, t, k.sn, now));
      case Data => QuietIsTimed(p, t, Emit(t, Ack, k.sn, []));
      case Close => QuietIsTimed(p, t, t.(phase := Ended));
      case _ =>
    }
  }

  lemma EpochIsTimed(p: Params, e: Ep, now: int)
    requires Positive(p) && WellTimed(p, e) && e.clock == now
    ensures WellTimed(p, OnEpoch(p, e, now))
  {
    RetransmitIsTimed(p, e, now);
    var t := RetransmitExpired(p, e, now);
    HeartbeatIsTimed(p, t);
    SilenceIsTimed(p, Heartbeat(t));
    assert OnEpoch(p, e, now) == CountSilence(p, Heartbeat(t));
  }

  lemma CloseIsTimed(p: Params, e: Ep, now: int)
    requires Positive(p) && WellTimed(p, e) && e.clock == now
    ensures WellTimed(p, OnClose(p, e, now))
  {
    var t := e.(phase := Flushing, appClosed := true);
    QuietIsTimed(p, e, t);
    FillIsTimed(p, t, now);
    var u := FillWindow(p, t, now);
    QuietIsTimed(p, u, FlushCheck(u));
  }

  lemma WriteIsTimed(p: Params, e: Ep, data: Bytes, now: int)
    requires Positive(p) && WellTimed(p, e) && e.clock == now
    ensures WellTimed(p, OnWrite(p, e, data, now))
  {
    var t := e.(pendingWrites := e.pendingWrites + [data], written := e.written + [data]);
    QuietIsTimed(p, e, t);
    FillIsTimed(p, t, now);
  }

  lemma StepIsTimed(p: Params, e: Ep, inbox: multiset<Packet>, act: Act, now: int, e': Ep)
    requires Positive(p) && WellTimed(p, e) && Step(p, e, inbox, act, now, e')
    ensures WellTimed(p, e')
  {
    var t := e.(clock := now);
    QuietIsTimed(p, e, t);
    match act
    case Write(data) => WriteIsTimed(p, t, data, now);
    case Receive(k) => if e.phase.Open? { OpenPacketIsTimed(p, t, k, now); } else { FlushingPacketIsTimed(p, t, k, now); }
    case Take => QuietIsTimed(p, t, e');
    case Epoch => EpochIsTimed(p, t, now);
    case AppClose => CloseIsTimed(p, t, now);
    case StopDraining => QuietIsTimed(p, t, e');
  }

  /** In every state of every run each endpoint's timers are as promised. */
  lemma {:induction false} TimersHold(p: Params, states: seq<Pair>, moves: seq<Move>, i: nat)
    requires Positive(p) && LinkRun(p, states, moves) && i < |states|
    ensures WellTimed(p, states[i].a) && WellTimed(p, states[i].b)
  {
    if i > 0 {
      TimersHold(p, states, moves, i - 1);
      var l, m, l' := states[i - 1], moves[i - 1], states[i];
      assert LinkStep(p, l, m, l');
      if m.side == A {
        StepIsTimed(p, l.a, l.b.wire, m.act, m.now, l'.a);
      } else {
        StepIsTimed(p, l.b, l.a.wire, m.act, m.now, l'.b);
      }
    }
  }

  /** After k resends the RTO is min(2^k * initial, limit), and at least the sum of the earlier RTOs has passed. */
  lemma BackoffOverRuns(p: Params, states: seq<Pair>, moves: seq<Move>, i: nat, s: u32)
    requires Positive(p) && LinkRun(p, states, moves) && i < |states| && s in states[i].a.sendBuffer
    ensures var m := states[i].a.sendBuffer[s];
            && (m.retries >= 1 ==> m.rto == if Doubled(m.initial, m.retries) > Limit(p) then Limit(p) else Doubled(m.initial, m.retries))
            && m.lastSent >= m.firstSent + WaitFor(p, m.initial, m.retries)
  {
    TimersHold(p, states, moves, i);
  }

  // ------------------------------------------------------------ gaps between resends

  /** What one step may do to a message that stays in the window. */
  predicate Follows(p: Params, m: OutMsg, m': OutMsg, now: int) {
    m' == m || (Expired(m, now) && m' == Resend(p, m, now))
  }

  /** A number in the window was there before, left alone or resent when due, or is new. */
  ghost predicate Passes(p: Params, e: Ep, e': Ep, now: int) {
    && e.nextSeq <= e'.nextSeq
    && forall s :: s in e'.sendBuffer ==>
         s > e.nextSeq || (s in e.sendBuffer && Follows(p, e.sendBuffer[s], e'.sendBuffer[s], now))
  }

  /** As Passes, with nothing resent. */
  ghost predicate OnlyAdds(e: Ep, e': Ep) {
    && e.nextSeq <= e'.nextSeq
    && forall s :: s in e'.sendBuffer ==> s > e.nextSeq || (s in e.sendBuffer && e'.sendBuffer[s] == e.sendBuffer[s])
  }

  lemma {:induction false} FillOnlyAdds(p: Params, e: Ep, now: int)
    requires e.nextSeq + |e.pendingWrites| < TWO_32
    ensures OnlyAdds(e, FillWindow(p, e, now))
    decreases |e.pendingWrites|
  {
    if e.pendingWrites != [] && |e.sendBuffer| < p.window {
      SuccIsNext(e.nextSeq);
      FillOnlyAdds(p, Admit(p, e, now), now);
    }
  }

  lemma LedgerFits(p: Params, e: Ep)
    requires Sends(p, e)
    ensures e.nextSeq + |e.pendingWrites| == |e.written| <= MAX_MESSAGES
  {}

  lemma AckPasses(p: Params, e: Ep, s: u32, now: int)
    requires e.nextSeq + |e.pendingWrites| < TWO_32
    ensures Passes(p, e, OnAck(p, e, s, now), now)
  {
    if s in e.sendBuffer {
      var m := e.sendBuffer[s];
      var t := if m.retransmitted then e else Sample(e, now - m.firstSent);
      var u := t.(sendBuffer := t.sendBuffer - {s});
      FillOnlyAdds(p, u, now);
      assert OnAck(p, e, s, now) == FillWindow(p, u, now);
    }
  }

  lemma SamePasses(p: Params, e: Ep, e': Ep, now: int)
    requires e'.sendBuffer == e.sendBuffer && e'.nextSeq == e.nextSeq
    ensures Passes(p, e, e', now)
  {}

  /** Steps before and after that leave the window alone. */
  lemma Around(p: Params, e: Ep, t: Ep, u: Ep, e': Ep, now: int)
    requires t.sendBuffer == e.sendBuffer && t.nextSeq == e.nextSeq && Passes(p, t, u, now)
    requires e'.sendBuffer == u.sendBuffer && e'.nextSeq == u.nextSeq
    ensures Passes(p, e, e', now)
  {}

  lemma PacketPasses(p: Params, e: Ep, k: Packet, now: int)
    requires e.nextSeq + |e.pendingWrites| < TWO_32
    ensures Passes(p, e, OnPacketOpen(p, e, k, now), now) && Passes(p, e, OnPacketFlushing(p, e, k, now), now)
  {
    hide Passes;
    var t := e.(epochsSilent := 0);
    if k.connID == e.id && k.kind == Ack {
      AckPasses(p, t, k.sn, now);
      var u := OnAck(p, t, k.sn, now);
      Around(p, e, t, u, u, now);
      Around(p, e, t, u, FlushCheck(u), now);
    } else {
      AcceptKeepsSender(p, t, k.sn, k.payload);
      hide Accept;
      SamePasses(p, e, OnPacketOpen(p, e, k, now), now);
      SamePasses(p, e, OnPacketFlushing(p, e, k, now), now);
    }
  }

  lemma FillPasses(p: Params, e: Ep, t: Ep, e': Ep, now: int)
    requires t.sendBuffer == e.sendBuffer && t.nextSeq == e.nextSeq && t.nextSeq + |t.pendingWrites| < TWO_32
    requires e'.sendBuffer == FillWindow(p, t, now).sendBuffer && e'.nextSeq == FillWindow(p, t, now).nextSeq
    ensures Passes(p, e, e', now)
  {
    FillOnlyAdds(p, t, now);
  }

  lemma ScanPasses(p: Params, e: Ep, now: int)
    ensures Passes(p, e, RetransmitExpired(p, e, now), now)
  {}

  lemma EpochPasses(p: Params, e: Ep, now: int)
    ensures Passes(p, e, OnEpoch(p, e, now), now)
  {
    ScanPasses(p, e, now);
    hide Passes, RetransmitExpired;
    var t := RetransmitExpired(p, e, now);
    var u := Heartbeat(t);
    Around(p, e, e, t, u, now);
    hide Heartbeat;
    Around(p, e, e, u, CountSilence(p, u), now);
  }

  lemma StepPasses(p: Params, e: Ep, inbox: multiset<Packet>, act: Act, now: int, e': Ep)
    requires Sends(p, e) && Step(p, e, inbox, act, now, e') && (act.Write? ==> |e.written| < MAX_MESSAGES)
    ensures Passes(p, e, e', now)
  {
    LedgerFits(p, e);
    hide Passes, Sends, OnPacketOpen, OnPacketFlushing, OnEpoch, FillWindow;
    var t := e.(clock := now);
    match act
    case Write(data) =>
      FillPasses(p, e, t.(pendingWrites := t.pendingWrites + [data], written := t.written + [data]), e', now);
    case Receive(k) => PacketPasses(p, t, k, now); Around(p, e, t, e', e', now);
    case Epoch => EpochPasses(p, t, now); Around(p, e, t, e', e', now);
    case AppClose => FillPasses(p, e, t.(phase := Flushing, appClosed := true), e', now);
    case Take => SamePasses(p, e, e', now);
    case StopDraining => SamePasses(p, e, e', now);
  }

  /** Between two moments of one message: the time passed covers every RTO that was in force at a resend. */
  ghost predicate Spaced(p: Params, m: OutMsg, m': OutMsg) {
    && m'.payload == m.payload && m'.firstSent == m.firstSent && m'.initial == m.initial && m.retries <= m'.retries
    && m'.lastSent - m.lastSent >= WaitFor(p, m.initial, m'.retries) - WaitFor(p, m.initial, m.retries)
  }

  lemma SpacedFollows(p: Params, m: OutMsg, m': OutMsg, m'': OutMsg, clock: int, now: int)
    requires Spaced(p, m, m') && Timed(p, m', clock) && Follows(p, m', m'', now)
    ensures Spaced(p, m, m'')
  {}

  /** Step i of a run, seen from endpoint a. */
  lemma StepOfA(p: Params, states: seq<Pair>, moves: seq<Move>, i: nat)
    requires LinkRun(p, states, moves) && i < |moves|
    ensures Passes(p, states[i].a, states[i + 1].a, moves[i].now)
  {
    RunIsSound(p, states, moves, i);
    var l, m, l' := states[i], moves[i], states[i + 1];
    assert LinkStep(p, l, m, l');
    hide LinkRun;
    if m.side == A { StepPasses(p, l.a, l.b.wire, m.act, m.now, l'.a); } else { SamePasses(p, l.a, l'.a, m.now); }
  }

  /** No message is resent before the RTO then in force has run out. */
  lemma NoEarlyResend(p: Params, states: seq<Pair>, moves: seq<Move>, i: nat, s: u32)
    requires LinkRun(p, states, moves) && i < |moves|
    requires s in states[i].a.sendBuffer && s in states[i + 1].a.sendBuffer
    ensures var m, m' := states[i].a.sendBuffer[s], states[i + 1].a.sendBuffer[s];
            m' == m || (moves[i].now - m.lastSent >= m.rto && m' == Resend(p, m, moves[i].now))
  {
    StepOfA(p, states, moves, i);
    StaysNumbered(p, states, moves, i, s);
  }

  lemma StaysNumbered(p: Params, states: seq<Pair>, moves: seq<Move>, i: nat, s: u32)
    requires LinkRun(p, states, moves) && i < |states| && s in states[i].a.sendBuffer
    ensures s <= states[i].a.nextSeq
  {
    RunIsSound(p, states, moves, i);
  }

  /** A number that is in the window at two moments was there in between, as the same message, and its resends kept their distance. */
  lemma {:induction false} ResendsAreSpaced(p: Params, states: seq<Pair>, moves: seq<Move>, i: nat, j: nat, s: u32)
    requires Positive(p) && LinkRun(p, states, moves) && i <= j < |states|
    requires s in states[i].a.sendBuffer && s in states[j].a.sendBuffer
    ensures Spaced(p, states[i].a.sendBuffer[s], states[j].a.sendBuffer[s]) && states[i].a.nextSeq <= states[j].a.nextSeq
  {
    hide LinkStep, Spaced, Timed;
    if i == j {
      SpacedFromStart(p, states[i].a.sendBuffer[s]);
    } else {
      NumbersGrow(p, states, moves, i, j - 1);
      StepOfA(p, states, moves, j - 1);
      StaysNumbered(p, states, moves, i, s);
      ResendsAreSpaced(p, states, moves, i, j - 1, s);
      TimersHold(p, states, moves, j - 1);
      var m, m', m'' := states[i].a.sendBuffer[s], states[j - 1].a.sendBuffer[s], states[j].a.sendBuffer[s];
      SpacedFollows(p, m, m', m'', states[j - 1].a.clock, moves[j - 1].now);
    }
  }

  lemma SpacedFromStart(p: Params, m: OutMsg)
    ensures Spaced(p, m, m)
  {}

  lemma {:induction false} NumbersGrow(p: Params, states: seq<Pair>, moves: seq<Move>, i: nat, j: nat)
    requires LinkRun(p, states, moves) && i <= j < |states|
    ensures states[i].a.nextSeq <= states[j].a.nextSeq
  {
    hide LinkStep;
    if i < j {
      NumbersGrow(p, states, moves, i, j - 1);
      StepOfA(p, states, moves, j - 1);
    }
  }

  /** SRTT never leaves the range of the samples, and Karn's rule decides what is sampled. */
  lemma EstimatorOverRuns(p: Params, states: seq<Pair>, moves: seq<Move>, i: nat, lo: int, hi: int, s: u32, now: int)
    requires Positive(p) && LinkRun(p, states, moves) && i < |states| && now == states[i].a.clock
    ensures var a := states[i].a;
            && (a.srtt.Some? <==> a.samples != [])
            && (a.srtt.Some? && Within(a.samples, lo, hi) ==> lo <= a.srtt.value <= hi)
            && OnAck(p, a, s, now).samples
               == if s in a.sendBuffer && a.sendBuffer[s].retries == 0 then a.samples + [now - a.sendBuffer[s].firstSent] else a.samples
  {
    TimersHold(p, states, moves, i);
    AckIsTimed(p, states[i].a, s, now);
  }
}
