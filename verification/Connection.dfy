/**
 One endpoint of a reliable-UDP connection: send window, pending writes, acks,
 retransmission, delivery and the two ways to end. The functions say what one
 event of the main loop does.
 */
module Connection {
  import opened Base

  type Bytes = seq<byte>

  datatype Kind = Connect | ConnAck | Data | Ack | Close

  datatype Packet = Packet(kind: Kind, connID: u32, sn: u32, payload: Bytes)

  datatype Params = Params(window: nat, epochLimit: nat, maxBackoff: nat, epoch: int, ordered: bool)

  /** A sent but unacknowledged message; initial is the RTO it started with. */
  datatype OutMsg = OutMsg(payload: Bytes, firstSent: int, lastSent: int, rto: int, retries: nat, retransmitted: bool, initial: int)

  datatype Err = Lost | Closed

  datatype Delivery = Got(payload: Bytes) | Failed(err: Err)

  /** Draining hands the backlog to Read; Flushing waits for the last acks before Close. */
  datatype Phase = Open | Flushing | Draining | Ended

  /**
   The connection's state, the reorder buffer of ordered mode (next, held), and
   its past: every transmission (wire), every write taken (written), every
   message accepted by sequence number, everything queued for Read (delivered),
   everything Read was handed, the RTT samples, whether the application closed
   it and how it ended otherwise.
   */
  datatype Ep = Ep(
    id: u32, phase: Phase, sendBuffer: map<u32, OutMsg>, pendingWrites: seq<Bytes>, deliverQ: seq<Delivery>,
    nextSeq: u32, srtt: Option<int>, epochsSilent: nat, sentThisEpoch: bool, next: u32, held: map<u32, Bytes>,
    clock: int, wire: multiset<Packet>, written: seq<Bytes>, accepted: map<u32, Bytes>, delivered: seq<Bytes>,
    handed: seq<Delivery>, samples: seq<int>, appClosed: bool, verdict: Option<Err>)

  function NewEp(id: u32, now: int): Ep {
    Ep(id, Open, map[], [], [], 0, None, 0, false, 1, map[], now, multiset{}, [], map[], [], [], [], false, None)
  }

  /** Sequence numbers are uint32. */
  function Succ32(s: u32): u32 { (s + 1) % TWO_32 }

  function Emit(e: Ep, kind: Kind, sn: u32, payload: Bytes): Ep {
    e.(wire := e.wire + multiset{Packet(kind, e.id, sn, payload)}, sentThisEpoch := true)
  }

  // ---------------------------------------------------------------- send side

  /** max(2 * srtt, 1 epoch), or 2 epochs before the first sample. */
  function InitialRTO(p: Params, e: Ep): int {
    if e.srtt.None? then 2 * p.epoch
    else if 2 * e.srtt.value > p.epoch then 2 * e.srtt.value
    else p.epoch
  }

  /** The head of pendingWrites enters the window. */
  function Admit(p: Params, e: Ep, now: int): Ep
    requires e.pendingWrites != []
  {
    var payload, s, rto := e.pendingWrites[0], Succ32(e.nextSeq), InitialRTO(p, e);
    Emit(e.(pendingWrites := e.pendingWrites[1..], nextSeq := s,
            sendBuffer := e.sendBuffer[s := OutMsg(payload, now, now, rto, 0, false, rto)]),
         Data, s, payload)
  }

  function FillWindow(p: Params, e: Ep, now: int): Ep
    decreases |e.pendingWrites|
  {
    if e.pendingWrites == [] || |e.sendBuffer| >= p.window then e
    else FillWindow(p, Admit(p, e, now), now)
  }

  function Sample(e: Ep, sample: int): Ep {
    e.(srtt := Some(Smooth(e.srtt, sample)), samples := e.samples + [sample])
  }

  /** Message s is acknowledged: its place in the window is free. */
  function Settle(p: Params, e: Ep, s: u32, now: int): Ep {
    FillWindow(p, e.(sendBuffer := e.sendBuffer - {s}), now)
  }

  /** Karn: the ack of a retransmitted message is not sampled. */
  function OnAck(p: Params, e: Ep, s: u32, now: int): Ep {
    if s !in e.sendBuffer then e
    else
      var m := e.sendBuffer[s];
      Settle(p, if m.retransmitted then e else Sample(e, now - m.firstSent), s, now)
  }

  predicate Expired(m: OutMsg, now: int) { now - m.lastSent >= m.rto }

  function Resend(p: Params, m: OutMsg, now: int): OutMsg {
    var limit := p.maxBackoff * p.epoch;
    m.(lastSent := now, retries := m.retries + 1, retransmitted := true, rto := if 2 * m.rto > limit then limit else 2 * m.rto)
  }

  function ResendIfExpired(p: Params, m: OutMsg, now: int): OutMsg {
    if Expired(m, now) then Resend(p, m, now) else m
  }

  /** The packets a scan resends. */
  function Resent(e: Ep, now: int): set<Packet> {
    set s | s in e.sendBuffer && Expired(e.sendBuffer[s], now) :: Packet(Data, e.id, s, e.sendBuffer[s].payload)
  }

  function RetransmitExpired(p: Params, e: Ep, now: int): Ep {
    e.(sendBuffer := map s | s in e.sendBuffer :: ResendIfExpired(p, e.sendBuffer[s], now),
       wire := e.wire + multiset(Resent(e, now)),
       sentThisEpoch := e.sentThisEpoch || Resent(e, now) != {})
  }

  function Heartbeat(e: Ep): Ep {
    (if e.sentThisEpoch then e else Emit(e, Ack, 0, [])).(sentThisEpoch := false)
  }

  // ------------------------------------------------------------- receive side

  /** Hand the payload up right away. */
  function Queue(e: Ep, payload: Bytes): Ep {
    e.(deliverQ := e.deliverQ + [Got(payload)], delivered := e.delivered + [payload])
  }

  /** Deliver from the reorder buffer until the next gap. */
  function DrainHeld(e: Ep): Ep
    decreases |e.held|
  {
    if e.next !in e.held then e
    else
      assert |e.held.Keys - {e.next}| < |e.held.Keys| && (e.held - {e.next}).Keys == e.held.Keys - {e.next};
      DrainHeld(Queue(e, e.held[e.next]).(held := e.held - {e.next}, next := Succ32(e.next)))
  }

  function AcceptOrdered(e: Ep, s: u32, payload: Bytes): Ep {
    if s < e.next || s in e.held then e
    else DrainHeld(e.(held := e.held[s := payload]))
  }

  function Accept(p: Params, e: Ep, s: u32, payload: Bytes): Ep {
    var t := if p.ordered then AcceptOrdered(e, s, payload) else Queue(e, payload);
    t.(accepted := t.accepted[s := payload])
  }

  // --------------------------------------------------------------- life cycle

  function StartDraining(e: Ep, err: Err): Ep {
    e.(phase := Draining, verdict := Some(err), deliverQ := e.deliverQ + [Failed(err)])
  }

  /** A packet of this connection while it is open. */
  function OnPacketOpen(p: Params, e: Ep, k: Packet, now: int): Ep {
    if k.connID != e.id then e
    else
      var t := e.(epochsSilent := 0);
      match k.kind
      case Ack => OnAck(p, t, k.sn, now)
      case Data => if k.sn == 0 then t else Emit(Accept(p, t, k.sn, k.payload), Ack, k.sn, [])
      case Close => StartDraining(t, Closed)
      case _ => t
  }

  /** Everything acknowledged: say goodbye and end. */
  function FlushCheck(e: Ep): Ep {
    if e.sendBuffer == map[] && e.pendingWrites == [] then Emit(e, Close, 0, []).(phase := Ended) else e
  }

  /** While flushing, data is acknowledged but no longer delivered. */
  function OnPacketFlushing(p: Params, e: Ep, k: Packet, now: int): Ep {
    if k.connID != e.id then e
    else
      var t := e.(epochsSilent := 0);
      match k.kind
      case Ack => FlushCheck(OnAck(p, t, k.sn, now))
      case Data => Emit(t, Ack, k.sn, [])
      case Close => t.(phase := Ended)
      case _ => t
  }

  /** Count the silence and give up at the limit. */
  function CountSilence(p: Params, e: Ep): Ep {
    var u := e.(epochsSilent := e.epochsSilent + 1);
    if u.epochsSilent < p.epochLimit then u
    else if u.phase.Open? then StartDraining(u, Lost)
    else u.(phase := Ended)
  }

  function OnEpoch(p: Params, e: Ep, now: int): Ep {
    CountSilence(p, Heartbeat(RetransmitExpired(p, e, now)))
  }

  /** The main loop takes a write from the application. */
  function OnWrite(p: Params, e: Ep, data: Bytes, now: int): Ep {
    FillWindow(p, e.(pendingWrites := e.pendingWrites + [data], written := e.written + [data]), now)
  }

  function OnClose(p: Params, e: Ep, now: int): Ep {
    FlushCheck(FillWindow(p, e.(phase := Flushing, appClosed := true), now))
  }

  /** Read takes the head of the queue. */
  function HandOff(e: Ep): Ep
    requires e.deliverQ != []
  {
    e.(deliverQ := e.deliverQ[1..], handed := e.handed + [e.deliverQ[0]])
  }

  datatype Act =
    | Write(data: Bytes)
    | Receive(packet: Packet)
    | Take
    | Epoch
    | AppClose
    | StopDraining

  /** One step of an endpoint at time now, on a network that may deliver any packet of inbox. */
  ghost predicate Step(p: Params, e: Ep, inbox: multiset<Packet>, act: Act, now: int, e': Ep) {
    && e.clock <= now
    && var t := e.(clock := now);
       match act
       case Write(data) => e.phase.Open? && e' == OnWrite(p, t, data, now)
       case Receive(k) =>
         && (k in inbox || k.connID != e.id)
         && ((e.phase.Open? && e' == OnPacketOpen(p, t, k, now)) || (e.phase.Flushing? && e' == OnPacketFlushing(p, t, k, now)))
       case Take => (e.phase.Open? || e.phase.Draining?) && e.deliverQ != [] && e' == HandOff(t)
       case Epoch => (e.phase.Open? || e.phase.Flushing?) && e' == OnEpoch(p, t, now)
       case AppClose => e.phase.Open? && e' == OnClose(p, t, now)
       case StopDraining => e.phase.Draining? && e' == t.(phase := Ended)
  }
}
