/**
 Two endpoints over a network that loses, repeats and reorders: whatever was
 ever sent may arrive at any time, any number of times, or never.
 */
module Link {
  import opened Base
  import opened Connection

  /** With more messages a uint32 sequence number would wrap around. */
  const MAX_MESSAGES := TWO_32 - 2

  /** The message with sequence number s is the s-th write. */
  predicate Numbered(written: seq<Bytes>, s: int, payload: Bytes) {
    1 <= s <= |written| && written[s - 1] == payload
  }

  // ---------------------------------------------------------- the sending side

  /** The writes are the payloads of sequence numbers 1..nextSeq followed by pendingWrites. */
  ghost predicate Ledger(x: Ep) {
    |x.written| <= MAX_MESSAGES && x.nextSeq <= |x.written| && x.pendingWrites == x.written[x.nextSeq..]
  }

  ghost predicate Buffered(p: Params, x: Ep) {
    && |x.sendBuffer| <= p.window
    && (forall s :: s in x.sendBuffer ==> s <= x.nextSeq && Numbered(x.written, s, x.sendBuffer[s].payload))
  }

  ghost predicate OnWire(x: Ep) {
    && (forall k :: k in x.wire && k.kind == Data ==> k.sn <= x.nextSeq && Numbered(x.written, k.sn, k.payload))
    && (forall k :: k in x.wire && k.kind == Close ==> x.phase.Ended? && x.sendBuffer == map[] && x.pendingWrites == [])
  }

  ghost predicate Sends(p: Params, x: Ep) { Ledger(x) && Buffered(p, x) && OnWire(x) }

  /** A write waits only while the window is full. */
  ghost predicate Eager(p: Params, x: Ep) { x.pendingWrites != [] ==> |x.sendBuffer| == p.window }

  /** The fields that moving writes into the window leaves alone. */
  predicate SameReceiver(x: Ep, x': Ep) {
    && x'.id == x.id && x'.phase == x.phase && x'.deliverQ == x.deliverQ && x'.next == x.next && x'.held == x.held
    && x'.accepted == x.accepted && x'.delivered == x.delivered && x'.handed == x.handed
    && x'.appClosed == x.appClosed && x'.verdict == x.verdict
  }

  /** Of the window only the messages in acked may leave, and only data packets are added. */
  ghost predicate OnlyLoses(x: Ep, x': Ep, acked: set<u32>) {
    && SameReceiver(x, x') && x'.written == x.written
    && x.nextSeq <= x'.nextSeq
    && (forall s: u32 :: 1 <= s <= x'.nextSeq && s !in x'.sendBuffer ==> s <= x.nextSeq && (s in x.sendBuffer ==> s in acked))
    && x.wire <= x'.wire
    && (forall k :: k in x'.wire && k !in x.wire ==> k.kind == Data)
  }

  /** What a step may do to the sending side. */
  ghost predicate Advances(x: Ep, x': Ep, acked: set<u32>) {
    && x.nextSeq <= x'.nextSeq
    && x.written <= x'.written
    && (forall s: u32 :: 1 <= s <= x'.nextSeq && s !in x'.sendBuffer ==> s <= x.nextSeq && (s in x.sendBuffer ==> s in acked))
    && x.wire <= x'.wire
  }

  /** Steps that do not touch the window or the writes and send nothing but acks. */
  lemma QuietSends(p: Params, x: Ep, x': Ep)
    requires Sends(p, x) && Eager(p, x)
    requires x'.sendBuffer == x.sendBuffer && x'.pendingWrites == x.pendingWrites && x'.nextSeq == x.nextSeq && x'.written == x.written
    requires x.wire <= x'.wire && (forall k :: k in x'.wire && k !in x.wire ==> k.kind == Ack)
    requires x.phase.Ended? ==> x'.phase.Ended?
    ensures Sends(p, x') && Eager(p, x') && Advances(x, x', {})
  {}

  lemma SuccIsNext(s: u32)
    requires s < TWO_32 - 1
    ensures Succ32(s) == s + 1
  {}

  lemma BufferGrows(sb: map<u32, OutMsg>, s: u32, m: OutMsg)
    ensures |sb[s := m]| <= |sb| + 1
  {
    assert sb[s := m].Keys == sb.Keys + {s};
  }

  lemma AdmitLedger(p: Params, x: Ep, now: int)
    requires Ledger(x) && x.pendingWrites != []
    ensures var x' := Admit(p, x, now);
            && Ledger(x') && x'.nextSeq == x.nextSeq + 1
            && Numbered(x.written, x'.nextSeq, x.pendingWrites[0])
  {
    SuccIsNext(x.nextSeq);
    assert x.written[x.nextSeq..][1..] == x.written[x.nextSeq + 1..];
  }

  lemma AdmitSends(p: Params, x: Ep, now: int)
    requires Sends(p, x) && !x.phase.Ended? && x.pendingWrites != [] && |x.sendBuffer| < p.window
    ensures Sends(p, Admit(p, x, now)) && OnlyLoses(x, Admit(p, x, now), {})
  {
    AdmitLedger(p, x, now);
    BufferGrows(x.sendBuffer, Succ32(x.nextSeq), Admit(p, x, now).sendBuffer[Succ32(x.nextSeq)]);
  }

  lemma {:induction false} FillSends(p: Params, x: Ep, now: int)
    requires Sends(p, x) && !x.phase.Ended?
    ensures Sends(p, FillWindow(p, x, now)) && OnlyLoses(x, FillWindow(p, x, now), {})
    ensures Eager(p, FillWindow(p, x, now))
    decreases |x.pendingWrites|
  {
    if x.pendingWrites != [] && |x.sendBuffer| < p.window {
      AdmitSends(p, x, now);
      FillSends(p, Admit(p, x, now), now);
    }
  }

  lemma MoreWritten(p: Params, x: Ep, data: Bytes)
    requires Sends(p, x) && x.phase.Open? && |x.written| < MAX_MESSAGES
    ensures Sends(p, x.(pendingWrites := x.pendingWrites + [data], written := x.written + [data]))
  {
    assert (x.written + [data])[x.nextSeq..] == x.pendingWrites + [data];
  }

  lemma WriteSends(p: Params, x: Ep, data: Bytes, now: int)
    requires Sends(p, x) && x.phase.Open? && |x.written| < MAX_MESSAGES
    ensures Sends(p, OnWrite(p, x, data, now)) && Eager(p, OnWrite(p, x, data, now))
    ensures OnlyLoses(x.(written := x.written + [data]), OnWrite(p, x, data, now), {})
  {
    MoreWritten(p, x, data);
    FillSends(p, x.(pendingWrites := x.pendingWrites + [data], written := x.written + [data]), now);
  }

  lemma RemoveAcked(p: Params, x: Ep, s: u32)
    requires Sends(p, x) && !x.phase.Ended?
    ensures Sends(p, x.(sendBuffer := x.sendBuffer - {s}))
  {
    assert (x.sendBuffer - {s}).Keys == x.sendBuffer.Keys - {s};
    assert |x.sendBuffer.Keys - {s}| <= |x.sendBuffer|;
  }

  /** An ack takes exactly its own message out of the window. */
  lemma AckFills(p: Params, x: Ep, t: Ep, s: u32, now: int)
    requires Sends(p, x) && Eager(p, x) && !x.phase.Ended?
    requires t == x.(srtt := t.srtt, samples := t.samples)
    ensures var x' := Settle(p, t, s, now);
            Sends(p, x') && Eager(p, x') && OnlyLoses(x, x', {s})
  {
    QuietSends(p, x, t);
    RemoveAcked(p, t, s);
    FillSends(p, t.(sendBuffer := t.sendBuffer - {s}), now);
  }

  lemma AckSends(p: Params, x: Ep, s: u32, now: int)
    requires Sends(p, x) && Eager(p, x) && !x.phase.Ended?
    ensures Sends(p, OnAck(p, x, s, now)) && Eager(p, OnAck(p, x, s, now))
    ensures OnlyLoses(x, OnAck(p, x, s, now), {s})
  {
    if s in x.sendBuffer {
      var m := x.sendBuffer[s];
      var t := if m.retransmitted then x else Sample(x, now - m.firstSent);
      assert OnAck(p, x, s, now) == Settle(p, t, s, now);
      assert t == x.(srtt := t.srtt, samples := t.samples);
      AckFills(p, x, t, s, now);
    }
  }

  lemma RetransmitSends(p: Params, x: Ep, now: int)
    requires Sends(p, x)
    ensures Sends(p, RetransmitExpired(p, x, now))
    ensures OnlyLoses(x, RetransmitExpired(p, x, now), {})
    ensures Eager(p, x) ==> Eager(p, RetransmitExpired(p, x, now))
  {
    var x' := RetransmitExpired(p, x, now);
    assert x'.sendBuffer.Keys == x.sendBuffer.Keys;
    forall k | k in Resent(x, now) ensures k.kind == Data && k.sn <= x.nextSeq && Numbered(x.written, k.sn, k.payload) {}
  }

  // ------------------------------------------------------ between the two sides

  /** Every message that left x's window was accepted by y, unless y was already closing. */
  ghost predicate Arrived(x: Ep, y: Ep) {
    && (forall s: u32 :: 1 <= s <= x.nextSeq && s !in x.sendBuffer ==> s in y.accepted || y.appClosed)
    && (forall k :: k in y.wire && k.kind == Ack && k.sn > 0 ==> k.sn in y.accepted || y.appClosed)
    && (forall s :: s in y.accepted ==> s <= x.nextSeq && Numbered(x.written, s, y.accepted[s]))
  }

  /** What Read was and will be handed: the delivered payloads, then the error if there is one. */
  function Wrapped(payloads: seq<Bytes>): seq<Delivery> {
    if payloads == [] then [] else Wrapped(payloads[..|payloads| - 1]) + [Got(payloads[|payloads| - 1])]
  }

  function Outcome(y: Ep): seq<Delivery> {
    Wrapped(y.delivered) + if y.verdict.None? then [] else [Failed(y.verdict.value)]
  }

  /** The hand-off to Read loses and reorders nothing. */
  ghost predicate Hands(y: Ep) {
    && y.handed + y.deliverQ == Outcome(y)
    && (y.phase.Open? || y.phase.Flushing? ==> y.verdict.None?)
    && (y.phase.Draining? ==> y.verdict.Some?)
    && (y.appClosed <==> y.phase.Flushing? || (y.phase.Ended? && y.verdict.None?))
  }

  /** The default receive path: an at-least-once bag. */
  ghost predicate Bag(y: Ep) {
    && (forall s :: s in y.accepted ==> y.accepted[s] in y.delivered)
    && (forall d :: d in y.delivered ==> exists s :: s in y.accepted && y.accepted[s] == d)
  }

  /** Message s was delivered, or waits for the gap before it to close. */
  predicate Seen(y: Ep, s: u32) { 1 <= s < y.next || s in y.held }

  /** The ordered receive path: a FIFO, with every held message strictly beyond the gap. */
  ghost predicate Fifo(x: Ep, y: Ep) {
    && 1 <= y.next <= |x.written| + 1 && y.next <= x.nextSeq + 1
    && y.delivered == x.written[..y.next - 1]
    && (forall s: u32 :: s in y.accepted <==> Seen(y, s))
    && (forall s :: s in y.held ==> s > y.next && s in y.accepted && y.held[s] == y.accepted[s])
  }

  ghost predicate Receives(p: Params, x: Ep, y: Ep) { if p.ordered then Fifo(x, y) else Bag(y) }

  /** A Close that was received had been sent. */
  ghost predicate ClosesLast(x: Ep, y: Ep) {
    y.verdict == Some(Closed) ==> exists k :: k in x.wire && k.kind == Close
  }

  /** The direction from x to y. */
  ghost predicate Flows(p: Params, x: Ep, y: Ep) {
    Sends(p, x) && Eager(p, x) && Arrived(x, y) && Hands(y) && Receives(p, x, y) && ClosesLast(x, y)
  }

  // ------------------------------------------------------------ a sender's step

  lemma SenderAdvances(p: Params, x: Ep, x': Ep, y: Ep, acked: set<u32>)
    requires Flows(p, x, y) && Sends(p, x') && Eager(p, x') && Advances(x, x', acked)
    requires forall s :: s in acked ==> s in y.accepted || y.appClosed
    ensures Flows(p, x', y)
  {
    forall s | s in y.accepted ensures s <= x'.nextSeq && Numbered(x'.written, s, y.accepted[s]) {
      assert Numbered(x.written, s, y.accepted[s]);
    }
    if p.ordered {
      assert x'.written[..y.next - 1] == x.written[..y.next - 1];
    }
  }

  lemma FlushSends(p: Params, x: Ep)
    requires Sends(p, x) && Eager(p, x) && !x.phase.Ended?
    ensures Sends(p, FlushCheck(x)) && Eager(p, FlushCheck(x))
    ensures Advances(x, FlushCheck(x), {})
  {}

  lemma AdvancesChain(x: Ep, t: Ep, x': Ep, acked: set<u32>)
    requires (Advances(x, t, acked) && Advances(t, x', {}))
    ensures Advances(x, x', acked)
  {}

  lemma HeartbeatSends(p: Params, x: Ep)
    requires Sends(p, x) && Eager(p, x)
    ensures Sends(p, Heartbeat(x)) && Eager(p, Heartbeat(x)) && Advances(x, Heartbeat(x), {})
  {
    hide Sends, Eager, Advances;
    QuietSends(p, x, Heartbeat(x));
  }

  lemma SilenceSends(p: Params, x: Ep)
    requires Sends(p, x) && Eager(p, x)
    ensures Sends(p, CountSilence(p, x)) && Eager(p, CountSilence(p, x)) && Advances(x, CountSilence(p, x), {})
  {
    hide Sends, Eager, Advances;
    QuietSends(p, x, CountSilence(p, x));
  }

  lemma LosesIsAdvance(x: Ep, x': Ep)
    requires OnlyLoses(x, x', {})
    ensures Advances(x, x', {})
  {}

  lemma EpochSends(p: Params, x: Ep, now: int)
    requires Sends(p, x) && Eager(p, x) && !x.phase.Ended?
    ensures Sends(p, OnEpoch(p, x, now)) && Eager(p, OnEpoch(p, x, now))
    ensures Advances(x, OnEpoch(p, x, now), {})
  {
    hide Sends, Eager, Advances, OnlyLoses, RetransmitExpired, Heartbeat, CountSilence;
    var t := RetransmitExpired(p, x, now);
    RetransmitSends(p, x, now);
    LosesIsAdvance(x, t);
    HeartbeatSends(p, t);
    SilenceSends(p, Heartbeat(t));
    AdvancesChain(x, t, Heartbeat(t), {});
    AdvancesChain(x, Heartbeat(t), CountSilence(p, Heartbeat(t)), {});
  }

  lemma AckPacketSends(p: Params, x: Ep, k: Packet, now: int)
    requires Sends(p, x) && Eager(p, x) && (x.phase.Open? || x.phase.Flushing?) && k.kind == Ack && k.connID == x.id
    ensures var x' := if x.phase.Open? then OnPacketOpen(p, x, k, now) else OnPacketFlushing(p, x, k, now);
            Sends(p, x') && Eager(p, x') && Advances(x, x', {k.sn})
  {
    var t := x.(epochsSilent := 0);
    QuietSends(p, x, t);
    AckSends(p, t, k.sn, now);
    var u := OnAck(p, t, k.sn, now);
    assert Advances(x, u, {k.sn});
    if x.phase.Flushing? {
      FlushSends(p, u);
      AdvancesChain(x, u, FlushCheck(u), {k.sn});
    }
  }

  /** Receiving anything but an ack leaves the sending side alone. */
  lemma OtherPacketSends(p: Params, x: Ep, k: Packet, now: int)
    requires Sends(p, x) && Eager(p, x) && (x.phase.Open? || x.phase.Flushing?) && !(k.kind == Ack && k.connID == x.id)
    ensures var x' := if x.phase.Open? then OnPacketOpen(p, x, k, now) else OnPacketFlushing(p, x, k, now);
            Sends(p, x') && Eager(p, x') && Advances(x, x', {})
  {
    hide Sends, Eager, Advances, Accept;
    AcceptKeepsSender(p, x.(epochsSilent := 0), k.sn, k.payload);
    QuietSends(p, x, if x.phase.Open? then OnPacketOpen(p, x, k, now) else OnPacketFlushing(p, x, k, now));
  }

  lemma {:induction false} DrainSends(e: Ep)
    ensures var e' := DrainHeld(e);
            e' == e.(deliverQ := e'.deliverQ, delivered := e'.delivered, held := e'.held, next := e'.next)
    decreases |e.held|
  {
    if e.next in e.held {
      assert |e.held.Keys - {e.next}| < |e.held.Keys| && (e.held - {e.next}).Keys == e.held.Keys - {e.next};
      DrainSends(Queue(e, e.held[e.next]).(held := e.held - {e.next}, next := Succ32(e.next)));
    }
  }

  lemma AcceptKeepsSender(p: Params, x: Ep, s: u32, payload: Bytes)
    ensures var x' := Accept(p, x, s, payload);
            x' == x.(deliverQ := x'.deliverQ, delivered := x'.delivered, held := x'.held, next := x'.next, accepted := x.accepted[s := payload])
  {
    DrainSends(x.(held := x.held[s := payload]));
  }

  lemma CloseSends(p: Params, x: Ep, now: int)
    requires Sends(p, x) && Eager(p, x) && x.phase.Open?
    ensures Sends(p, OnClose(p, x, now)) && Eager(p, OnClose(p, x, now))
    ensures Advances(x, OnClose(p, x, now), {})
  {
    var t := x.(phase := Flushing, appClosed := true);
    QuietSends(p, x, t);
    FillSends(p, t, now);
    var u := FillWindow(p, t, now);
    FlushSends(p, u);
    AdvancesChain(x, u, FlushCheck(u), {});
  }

  lemma ReceiveSends(p: Params, x: Ep, y: Ep, k: Packet, now: int, x': Ep)
    requires Flows(p, x, y) && (k in y.wire || k.connID != x.id) && (x.phase.Open? || x.phase.Flushing?)
    requires x' == if x.phase.Open? then OnPacketOpen(p, x, k, now) else OnPacketFlushing(p, x, k, now)
    ensures Flows(p, x', y)
  {
    if k.kind == Ack && k.connID == x.id {
      AckPacketSends(p, x, k, now);
      AckArrived(p, x, x', y, k);
    } else {
      OtherPacketSends(p, x, k, now);
      SenderAdvances(p, x, x', y, {});
    }
  }

  /** The direction out of an endpoint survives each of its steps. */
  lemma SenderSteps(p: Params, x: Ep, y: Ep, act: Act, now: int, x': Ep)
    requires Flows(p, x, y) && Step(p, x, y.wire, act, now, x')
    requires act.Write? ==> |x.written| < MAX_MESSAGES
    ensures Flows(p, x', y)
  {
    var t := x.(clock := now);
    QuietSends(p, x, t);
    SenderAdvances(p, x, t, y, {});
    match act
    case Write(data) =>
      WriteSends(p, t, data, now);
      SenderAdvances(p, t, x', y, {});
    case Receive(k) => ReceiveSends(p, t, y, k, now, x');
    case Epoch =>
      EpochSends(p, t, now);
      SenderAdvances(p, t, x', y, {});
    case AppClose =>
      CloseSends(p, t, now);
      SenderAdvances(p, t, x', y, {});
    case Take => QuietSends(p, t, x'); SenderAdvances(p, t, x', y, {});
    case StopDraining => QuietSends(p, t, x'); SenderAdvances(p, t, x', y, {});
  }

  /** An ack the peer really sent, for a message or as a heartbeat. */
  lemma AckArrived(p: Params, x: Ep, x': Ep, y: Ep, k: Packet)
    requires Flows(p, x, y) && k in y.wire && k.kind == Ack
    requires Sends(p, x') && Eager(p, x') && Advances(x, x', {k.sn})
    ensures Flows(p, x', y)
  {
    if k.sn > 0 {
      SenderAdvances(p, x, x', y, {k.sn});
    } else {
      assert forall s :: s in x.sendBuffer ==> s >= 1;
      SenderAdvances(p, x, x', y, {});
    }
  }

  // --------------------------------------------------------- a receiver's step

  /** Steps that leave the receiving side alone and acknowledge nothing. */
  lemma QuietReceives(p: Params, x: Ep, y: Ep, y': Ep)
    requires Flows(p, x, y) && SameReceiver(y, y')
    requires forall k :: k in y'.wire && k !in y.wire ==> k.kind != Ack || k.sn == 0
    ensures Flows(p, x, y')
  {
    assert Arrived(x, y');
    assert Outcome(y') == Outcome(y);
  }

  lemma WrappedSnoc(payloads: seq<Bytes>, payload: Bytes)
    ensures Wrapped(payloads + [payload]) == Wrapped(payloads) + [Got(payload)]
  {
    assert (payloads + [payload])[..|payloads + [payload]| - 1] == payloads;
  }

  lemma QueueHands(y: Ep, payload: Bytes)
    requires Hands(y) && y.phase.Open?
    ensures Hands(Queue(y, payload))
  {
    WrappedSnoc(y.delivered, payload);
    assert y.handed + (y.deliverQ + [Got(payload)]) == (y.handed + y.deliverQ) + [Got(payload)];
  }

  // The default path.

  lemma AcceptBag(y: Ep, s: u32, payload: Bytes)
    requires Hands(y) && Bag(y) && y.phase.Open? && (s in y.accepted ==> y.accepted[s] == payload)
    ensures var y' := Queue(y, payload).(accepted := y.accepted[s := payload]); Hands(y') && Bag(y')
  {
    QueueHands(y, payload);
    var y' := Queue(y, payload).(accepted := y.accepted[s := payload]);
    assert Outcome(y') == Outcome(Queue(y, payload));
    forall d | d in y'.delivered ensures exists r :: r in y'.accepted && y'.accepted[r] == d {
      if d == payload {
        assert y'.accepted[s] == d;
      } else {
        var r :| r in y.accepted && y.accepted[r] == d;
        assert y'.accepted[r] == d;
      }
    }
  }

  // The ordered path: while held messages are being delivered the next one may be held itself.

  ghost predicate FifoLoose(x: Ep, y: Ep) {
    && 1 <= y.next <= |x.written| + 1 && y.next <= x.nextSeq + 1
    && y.delivered == x.written[..y.next - 1]
    && (forall s :: s in y.held ==> s >= y.next && s <= x.nextSeq && Numbered(x.written, s, y.held[s]))
  }

  /** One held message moves to the queue. */
  function DrainOne(y: Ep): Ep
    requires y.next in y.held
  {
    Queue(y, y.held[y.next]).(held := y.held - {y.next}, next := Succ32(y.next))
  }

  lemma DrainOneFifo(x: Ep, y: Ep)
    requires Ledger(x) && Hands(y) && y.phase.Open? && FifoLoose(x, y) && y.next in y.held
    ensures Hands(DrainOne(y)) && FifoLoose(x, DrainOne(y)) && |DrainOne(y).held| < |y.held|
    ensures DrainOne(y).next == y.next + 1
  {
    assert |y.held.Keys - {y.next}| < |y.held.Keys| && (y.held - {y.next}).Keys == y.held.Keys - {y.next};
    var t := DrainOne(y);
    assert Numbered(x.written, y.next, y.held[y.next]);
    SuccIsNext(y.next);
    QueueHands(y, y.held[y.next]);
    assert Outcome(t) == Outcome(Queue(y, y.held[y.next]));
    assert x.written[..y.next] == x.written[..y.next - 1] + [y.held[y.next]];
  }

  /** Delivering the run of held messages keeps the set of messages seen. */
  lemma {:induction false} DrainFifo(x: Ep, y: Ep)
    requires Ledger(x) && Hands(y) && y.phase.Open? && FifoLoose(x, y)
    ensures var y' := DrainHeld(y);
            && Hands(y') && FifoLoose(x, y') && y'.next !in y'.held
            && (forall s: u32 :: Seen(y', s) <==> Seen(y, s))
            && (forall s :: s in y'.held ==> s in y.held && y'.held[s] == y.held[s])
    decreases |y.held|
  {
    if y.next in y.held {
      var t := DrainOne(y);
      DrainOneFifo(x, y);
      assert DrainHeld(y) == DrainHeld(t);
      assert forall s: u32 :: Seen(t, s) <==> Seen(y, s);
      DrainFifo(x, t);
    }
  }

  /** A message that was seen before changes nothing. */
  lemma AcceptAgain(x: Ep, y: Ep, s: u32, payload: Bytes)
    requires Hands(y) && Fifo(x, y) && s > 0 && Seen(y, s) && y.accepted[s] == payload
    ensures var t := AcceptOrdered(y, s, payload); t.(accepted := t.accepted[s := payload]) == y
  {
    assert y.accepted[s := payload] == y.accepted;
  }

  lemma HoldNew(x: Ep, y: Ep, s: u32, payload: Bytes)
    requires Ledger(x) && Hands(y) && Fifo(x, y) && y.phase.Open? && !Seen(y, s)
    requires forall r :: r in y.accepted ==> r <= x.nextSeq && Numbered(x.written, r, y.accepted[r])
    requires s <= x.nextSeq && Numbered(x.written, s, payload)
    ensures var h := y.(held := y.held[s := payload]);
            Hands(h) && FifoLoose(x, h) && forall r: u32 :: Seen(h, r) <==> Seen(y, r) || r == s
  {
    var h := y.(held := y.held[s := payload]);
    assert Outcome(h) == Outcome(y);
    assert forall r: u32 :: Seen(h, r) <==> Seen(y, r) || r == s;
  }

  /** Draining after a new message was held closes the gap as far as possible. */
  lemma DrainNew(x: Ep, y: Ep, h: Ep, s: u32)
    requires Ledger(x) && Fifo(x, y) && Hands(h) && FifoLoose(x, h) && h.phase.Open? && h.accepted == y.accepted
    requires s !in y.accepted && s in h.held && forall r: u32 :: Seen(h, r) <==> Seen(y, r) || r == s
    requires forall r :: r in h.held && r != s ==> r in y.held && h.held[r] == y.held[r]
    ensures var t := DrainHeld(h);
            Hands(t.(accepted := t.accepted[s := h.held[s]])) && Fifo(x, t.(accepted := t.accepted[s := h.held[s]]))
  {
    DrainSends(h);
    DrainFifo(x, h);
    AddAccepted(x, y, h, DrainHeld(h), s);
  }

  lemma AddAccepted(x: Ep, y: Ep, h: Ep, t: Ep, s: u32)
    requires Fifo(x, y) && Hands(t) && FifoLoose(x, t) && t.next !in t.held && t.accepted == y.accepted
    requires s !in y.accepted && s in h.held && forall r: u32 :: Seen(h, r) <==> Seen(y, r) || r == s
    requires forall r :: r in h.held && r != s ==> r in y.held && h.held[r] == y.held[r]
    requires forall r: u32 :: Seen(t, r) <==> Seen(h, r)
    requires forall r :: r in t.held ==> r in h.held && t.held[r] == h.held[r]
    ensures var y' := t.(accepted := t.accepted[s := h.held[s]]); Hands(y') && Fifo(x, y')
  {
    var y' := t.(accepted := t.accepted[s := h.held[s]]);
    assert Outcome(y') == Outcome(t);
    forall r: u32 ensures r in y'.accepted <==> Seen(y', r) {
      assert Seen(t, r) <==> Seen(h, r);
    }
  }

  lemma AcceptNew(x: Ep, y: Ep, s: u32, payload: Bytes)
    requires Ledger(x) && Hands(y) && Fifo(x, y) && y.phase.Open? && !Seen(y, s)
    requires forall r :: r in y.accepted ==> r <= x.nextSeq && Numbered(x.written, r, y.accepted[r])
    requires s <= x.nextSeq && Numbered(x.written, s, payload)
    ensures var t := AcceptOrdered(y, s, payload);
            var y' := t.(accepted := t.accepted[s := payload]);
            Hands(y') && Fifo(x, y')
  {
    var h := y.(held := y.held[s := payload]);
    HoldNew(x, y, s, payload);
    DrainNew(x, y, h, s);
    assert AcceptOrdered(y, s, payload) == DrainHeld(h);
  }

  lemma AcceptFifo(x: Ep, y: Ep, s: u32, payload: Bytes)
    requires Ledger(x) && Hands(y) && Fifo(x, y) && y.phase.Open?
    requires forall r :: r in y.accepted ==> r <= x.nextSeq && Numbered(x.written, r, y.accepted[r])
    requires s <= x.nextSeq && Numbered(x.written, s, payload)
    ensures var t := AcceptOrdered(y, s, payload);
            var y' := t.(accepted := t.accepted[s := payload]);
            Hands(y') && Fifo(x, y')
  {
    if Seen(y, s) {
      assert Numbered(x.written, s, y.accepted[s]);
      AcceptAgain(x, y, s, payload);
    } else {
      AcceptNew(x, y, s, payload);
    }
  }

  /** A data packet the peer really sent is accepted and acknowledged. */
  lemma DataReceives(p: Params, x: Ep, y: Ep, k: Packet)
    requires Flows(p, x, y) && y.phase.Open? && k in x.wire && k.kind == Data && k.sn > 0
    ensures Flows(p, x, Emit(Accept(p, y, k.sn, k.payload), Ack, k.sn, []))
  {
    hide Eager, Ledger, Buffered, Hands, Bag, Fifo;
    AcceptKeepsSender(p, y, k.sn, k.payload);
    var t := Accept(p, y, k.sn, k.payload);
    if k.sn in y.accepted { assert Numbered(x.written, k.sn, y.accepted[k.sn]); }
    if p.ordered {
      AcceptFifo(x, y, k.sn, k.payload);
    } else {
      AcceptBag(y, k.sn, k.payload);
    }
    EmitAck(p, x, y, t, k.sn);
  }

  lemma EmitReceives(p: Params, x: Ep, t: Ep, kind: Kind, s: u32)
    requires Hands(t) && Receives(p, x, t)
    ensures Hands(Emit(t, kind, s, [])) && Receives(p, x, Emit(t, kind, s, []))
  {
    var y' := Emit(t, kind, s, []);
    assert Outcome(y') == Outcome(t);
    if p.ordered { assert forall r: u32 :: Seen(y', r) <==> Seen(t, r); }
  }

  lemma EmitAck(p: Params, x: Ep, y: Ep, t: Ep, s: u32)
    requires Flows(p, x, y) && Hands(t) && Receives(p, x, t) && s <= x.nextSeq
    requires t.accepted.Keys == y.accepted.Keys + {s} && t.wire == y.wire && t.appClosed == y.appClosed && t.verdict == y.verdict
    requires forall r :: r in t.accepted ==> r <= x.nextSeq && Numbered(x.written, r, t.accepted[r])
    ensures Flows(p, x, Emit(t, Ack, s, []))
  {
    hide Sends, Eager, Receives, Hands, Numbered;
    EmitReceives(p, x, t, Ack, s);
    assert Arrived(x, Emit(t, Ack, s, []));
  }

  lemma DrainingReceives(p: Params, x: Ep, y: Ep, err: Err)
    requires Flows(p, x, y) && y.phase.Open?
    requires err == Closed ==> exists k :: k in x.wire && k.kind == Close
    ensures Flows(p, x, StartDraining(y, err))
  {
    var y' := StartDraining(y, err);
    assert y.handed + (y.deliverQ + [Failed(err)]) == (y.handed + y.deliverQ) + [Failed(err)];
    assert Arrived(x, y');
  }

  lemma HandOffReceives(p: Params, x: Ep, y: Ep)
    requires Flows(p, x, y) && y.deliverQ != []
    ensures Flows(p, x, HandOff(y))
  {
    var y' := HandOff(y);
    assert y'.handed + y'.deliverQ == y.handed + y.deliverQ;
    assert Outcome(y') == Outcome(y);
    assert Arrived(x, y');
  }

  /** The application closes: from here on nothing more is delivered. */
  lemma ClosingReceives(p: Params, x: Ep, y: Ep, y': Ep)
    requires Flows(p, x, y) && (y.phase.Open? || y.phase.Flushing?)
    requires y'.appClosed && (y'.phase.Flushing? || y'.phase.Ended?)
    requires SameReceiver(y.(phase := y'.phase, appClosed := true), y')
    ensures Flows(p, x, y')
  {
    assert Outcome(y') == Outcome(y);
    assert Arrived(x, y');
  }

  lemma StopReceives(p: Params, x: Ep, y: Ep)
    requires Flows(p, x, y) && y.phase.Draining?
    ensures Flows(p, x, y.(phase := Ended))
  {
    assert Outcome(y.(phase := Ended)) == Outcome(y);
    assert Arrived(x, y.(phase := Ended));
  }

  lemma OpenPacketReceives(p: Params, x: Ep, y: Ep, k: Packet, now: int)
    requires Flows(p, x, y) && Sends(p, y) && Eager(p, y) && y.phase.Open? && (k in x.wire || k.connID != y.id)
    ensures Flows(p, x, OnPacketOpen(p, y, k, now))
  {
    var t := y.(epochsSilent := 0);
    QuietReceives(p, x, y, t);
    if k.connID == y.id {
      match k.kind
      case Ack =>
        QuietSends(p, y, t);
        AckSends(p, t, k.sn, now);
        QuietReceives(p, x, t, OnAck(p, t, k.sn, now));
      case Data => if k.sn != 0 { DataReceives(p, x, t, k); }
      case Close => DrainingReceives(p, x, t, Closed);
      case _ =>
    }
  }

  lemma FlushingAckReceives(p: Params, x: Ep, y: Ep, s: u32, now: int)
    requires Flows(p, x, y) && Sends(p, y) && Eager(p, y) && y.phase.Flushing?
    ensures Flows(p, x, FlushCheck(OnAck(p, y, s, now)))
  {
    AckSends(p, y, s, now);
    var u := OnAck(p, y, s, now);
    var v := FlushCheck(u);
    assert SameReceiver(u.(phase := v.phase), v);
    ClosingReceives(p, x, y, v);
  }

  lemma FlushingPacketReceives(p: Params, x: Ep, y: Ep, k: Packet, now: int)
    requires Flows(p, x, y) && Sends(p, y) && Eager(p, y) && y.phase.Flushing?
    ensures Flows(p, x, OnPacketFlushing(p, y, k, now))
  {
    var t := y.(epochsSilent := 0);
    QuietSends(p, y, t);
    QuietReceives(p, x, y, t);
    if k.connID == y.id {
      match k.kind
      case Ack => FlushingAckReceives(p, x, t, k.sn, now);
      case Data => ClosingReceives(p, x, t, Emit(t, Ack, k.sn, []));
      case Close => ClosingReceives(p, x, t, t.(phase := Ended));
      case _ =>
    }
  }

  lemma FlushingIsClosed(p: Params, x: Ep, y: Ep)
    requires Flows(p, x, y) && y.phase.Flushing?
    ensures y.appClosed
  {}

  lemma SilenceReceives(p: Params, x: Ep, y: Ep)
    requires Flows(p, x, y) && (y.phase.Open? || y.phase.Flushing?)
    ensures Flows(p, x, CountSilence(p, y))
  {
    hide Flows;
    if y.phase.Flushing? { FlushingIsClosed(p, x, y); }
    var u := y.(epochsSilent := y.epochsSilent + 1);
    QuietReceives(p, x, y, u);
    if u.epochsSilent >= p.epochLimit {
      if u.phase.Open? { DrainingReceives(p, x, u, Lost); } else { ClosingReceives(p, x, u, u.(phase := Ended)); }
    }
  }

  lemma EpochReceives(p: Params, x: Ep, y: Ep, now: int)
    requires Flows(p, x, y) && Sends(p, y) && (y.phase.Open? || y.phase.Flushing?)
    ensures Flows(p, x, OnEpoch(p, y, now))
  {
    RetransmitSends(p, y, now);
    var t := RetransmitExpired(p, y, now);
    QuietReceives(p, x, y, t);
    var u := Heartbeat(t);
    QuietReceives(p, x, t, u);
    SilenceReceives(p, x, u);
    assert OnEpoch(p, y, now) == CountSilence(p, u);
  }

  lemma CloseReceives(p: Params, x: Ep, y: Ep, now: int)
    requires Flows(p, x, y) && Sends(p, y) && Eager(p, y) && y.phase.Open?
    ensures Flows(p, x, OnClose(p, y, now))
  {
    var t := y.(phase := Flushing, appClosed := true);
    QuietSends(p, y, t);
    FillSends(p, t, now);
    ClosingReceives(p, x, y, OnClose(p, y, now));
  }

  /** The direction into an endpoint survives each of its steps. */
  lemma ReceiverSteps(p: Params, x: Ep, y: Ep, act: Act, now: int, y': Ep)
    requires Flows(p, x, y) && Sends(p, y) && Eager(p, y) && Step(p, y, x.wire, act, now, y')
    requires act.Write? ==> |y.written| < MAX_MESSAGES
    ensures Flows(p, x, y')
  {
    var t := y.(clock := now);
    QuietReceives(p, x, y, t);
    QuietSends(p, y, t);
    match act
    case Write(data) => WriteSends(p, t, data, now); QuietReceives(p, x, t, y');
    case Receive(k) =>
      if y.phase.Open? { OpenPacketReceives(p, x, t, k, now); } else { FlushingPacketReceives(p, x, t, k, now); }
    case Take => HandOffReceives(p, x, t);
    case Epoch => EpochReceives(p, x, t, now);
    case AppClose => CloseReceives(p, x, t, now);
    case StopDraining => StopReceives(p, x, t);
  }

  // ------------------------------------------------------------------- the link

  /** Side tells which endpoint moves. */
  datatype Side = A | B

  datatype Pair = Pair(a: Ep, b: Ep)

  datatype Move = Move(side: Side, act: Act, now: int)

  /** One endpoint moves; what it may receive is everything the other ever sent. */
  ghost predicate LinkStep(p: Params, l: Pair, m: Move, l': Pair) {
    match m.side
    case A => l'.b == l.b && (m.act.Write? ==> |l.a.written| < MAX_MESSAGES) && Step(p, l.a, l.b.wire, m.act, m.now, l'.a)
    case B => l'.a == l.a && (m.act.Write? ==> |l.b.written| < MAX_MESSAGES) && Step(p, l.b, l.a.wire, m.act, m.now, l'.b)
  }

  ghost predicate LinkRun(p: Params, states: seq<Pair>, moves: seq<Move>) {
    && |states| == |moves| + 1
    && states[0] == Pair(NewEp(states[0].a.id, states[0].a.clock), NewEp(states[0].a.id, states[0].b.clock))
    && forall i :: 0 <= i < |moves| ==> LinkStep(p, states[i], moves[i], states[i + 1])
  }

  ghost predicate Sound(p: Params, l: Pair) { Flows(p, l.a, l.b) && Flows(p, l.b, l.a) }

  lemma StepIsSound(p: Params, l: Pair, m: Move, l': Pair)
    requires Sound(p, l) && LinkStep(p, l, m, l')
    ensures Sound(p, l')
  {
    if m.side == A {
      SenderSteps(p, l.a, l.b, m.act, m.now, l'.a);
      ReceiverSteps(p, l.b, l.a, m.act, m.now, l'.a);
    } else {
      SenderSteps(p, l.b, l.a, m.act, m.now, l'.b);
      ReceiverSteps(p, l.a, l.b, m.act, m.now, l'.b);
    }
  }

  lemma {:induction false} RunIsSound(p: Params, states: seq<Pair>, moves: seq<Move>, i: nat)
    requires LinkRun(p, states, moves) && i < |states|
    ensures Sound(p, states[i])
  {
    if i == 0 {
      assert Flows(p, states[0].a, states[0].b) && Flows(p, states[0].b, states[0].a);
    } else {
      RunIsSound(p, states, moves, i - 1);
      StepIsSound(p, states[i - 1], moves[i - 1], states[i]);
    }
  }

  /** At least once: a message the sender stopped resending was accepted, bit for bit, by a peer that was not closing. */
  lemma AtLeastOnce(p: Params, states: seq<Pair>, moves: seq<Move>, i: nat)
    requires LinkRun(p, states, moves) && i < |states|
    ensures var a, b := states[i].a, states[i].b;
            && |a.sendBuffer| <= p.window
            && a.nextSeq <= |a.written| && a.pendingWrites == a.written[a.nextSeq..]
            && (a.pendingWrites != [] ==> |a.sendBuffer| == p.window)
            && (forall s: u32 :: 1 <= s <= a.nextSeq && s !in a.sendBuffer && !b.appClosed ==>
                  s in b.accepted && b.accepted[s] == a.written[s - 1])
            && (!p.ordered && !b.appClosed ==>
                  forall s: u32 :: 1 <= s <= a.nextSeq && s !in a.sendBuffer ==> a.written[s - 1] in b.delivered)
            && (forall d :: d in b.delivered ==> d in a.written)
  {
    RunIsSound(p, states, moves, i);
    var a, b := states[i].a, states[i].b;
    forall s: u32 | 1 <= s <= a.nextSeq && s !in a.sendBuffer && !b.appClosed
      ensures s in b.accepted && b.accepted[s] == a.written[s - 1]
    {
      assert s in b.accepted;
      assert Numbered(a.written, s, b.accepted[s]);
    }
    forall d | d in b.delivered ensures d in a.written {
      if !p.ordered {
        var s :| s in b.accepted && b.accepted[s] == d;
        assert Numbered(a.written, s, d);
      }
    }
  }

  /** Ordered mode is a FIFO channel. */
  lemma OrderedIsFifo(p: Params, states: seq<Pair>, moves: seq<Move>, i: nat)
    requires LinkRun(p, states, moves) && i < |states| && p.ordered
    ensures var a, b := states[i].a, states[i].b;
            && 1 <= b.next <= |a.written| + 1
            && b.delivered == a.written[..b.next - 1]
            && (forall s :: s in b.held ==> s > b.next)
  {
    RunIsSound(p, states, moves, i);
  }

  lemma {:induction false} WrappedShape(payloads: seq<Bytes>)
    ensures |Wrapped(payloads)| == |payloads|
    ensures forall n :: 0 <= n < |payloads| ==> Wrapped(payloads)[n] == Got(payloads[n])
  {
    if payloads != [] { WrappedShape(payloads[..|payloads| - 1]); }
  }

  lemma ErrorIsLast(b: Ep, n: nat)
    requires Hands(b) && n < |b.handed| && b.handed[n].Failed?
    ensures b.deliverQ == [] && b.handed == Wrapped(b.delivered) + [b.handed[n]]
  {
    WrappedShape(b.delivered);
    assert (b.handed + b.deliverQ)[n] == b.handed[n];
    assert n == |b.delivered|;
  }

  /** Read is handed the deliveries in order, and the error only after all of them. */
  lemma BacklogBeforeError(p: Params, states: seq<Pair>, moves: seq<Move>, i: nat, n: nat)
    requires LinkRun(p, states, moves) && i < |states|
    requires n < |states[i].b.handed| && states[i].b.handed[n].Failed?
    ensures var b := states[i].b; b.deliverQ == [] && b.handed == Wrapped(b.delivered) + [b.handed[n]]
  {
    RunIsSound(p, states, moves, i);
    ErrorIsLast(states[i].b, n);
  }

  /** Close is a flush barrier: whoever is told of it has accepted everything written before it. */
  lemma CloseIsABarrier(p: Params, states: seq<Pair>, moves: seq<Move>, i: nat)
    requires LinkRun(p, states, moves) && i < |states|
    requires states[i].b.verdict == Some(Closed)
    ensures var a, b := states[i].a, states[i].b;
            && (forall s: u32 :: 1 <= s <= |a.written| ==> s in b.accepted && b.accepted[s] == a.written[s - 1])
            && (!p.ordered ==> forall d :: d in a.written ==> d in b.delivered)
            && (p.ordered ==> b.delivered == a.written)
  {
    RunIsSound(p, states, moves, i);
    var a, b := states[i].a, states[i].b;
    assert a.nextSeq == |a.written| && a.sendBuffer == map[];
    forall s: u32 | 1 <= s <= |a.written| ensures s in b.accepted && b.accepted[s] == a.written[s - 1] {
      assert s in b.accepted;
      assert Numbered(a.written, s, b.accepted[s]);
    }
    if p.ordered {
      if b.next <= |a.written| { GapIsSeen(b, a); }
    } else {
      forall d | d in a.written ensures d in b.delivered {
        var n :| 0 <= n < |a.written| && a.written[n] == d;
        var s: u32 := n + 1;
        assert s in b.accepted && b.accepted[s] == d;
      }
    }
  }

  /** In ordered mode the next number to deliver has not been accepted. */
  lemma GapIsSeen(b: Ep, a: Ep)
    requires Fifo(a, b) && b.next <= |a.written| && |a.written| <= MAX_MESSAGES
    ensures b.next !in b.accepted
  {
    assert !Seen(b, b.next);
  }
}
