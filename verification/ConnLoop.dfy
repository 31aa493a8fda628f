/** The connection goroutine's own code: the handlers of its main loop and of the flush loop. */
module ConnLoop {
  import opened Base
  import opened Connection

  /** What a scan that still has to look at todo has resent. */
  ghost function ResentSoFar(e: Ep, now: int, todo: set<u32>): set<Packet> {
    set k | k in Resent(e, now) && k.sn !in todo
  }

  /** The state in the middle of a scan. */
  ghost function Scanning(p: Params, e: Ep, now: int, todo: set<u32>): Ep {
    e.(sendBuffer := map s | s in e.sendBuffer :: if s in todo then e.sendBuffer[s] else ResendIfExpired(p, e.sendBuffer[s], now),
       wire := e.wire + multiset(ResentSoFar(e, now, todo)),
       sentThisEpoch := e.sentThisEpoch || ResentSoFar(e, now, todo) != {})
  }

  /** What is due is sent at now, its RTO doubled up to the limit; the rest of the window is left alone. */
  ghost predicate ResentWhenDue(p: Params, before: map<u32, OutMsg>, after: map<u32, OutMsg>, now: int) {
    && after.Keys == before.Keys
    && forall s :: s in before ==>
         var m, limit := before[s], p.maxBackoff * p.epoch;
         after[s] == if now - m.lastSent < m.rto then m
                     else m.(lastSent := now, retries := m.retries + 1, retransmitted := true, rto := if 2 * m.rto > limit then limit else 2 * m.rto)
  }

  /** One more copy of every due message is on the wire. */
  ghost predicate CopiedWhenDue(id: u32, window: map<u32, OutMsg>, before: multiset<Packet>, after: multiset<Packet>, now: int) {
    forall s :: s in window ==>
      var m, k := window[s], Packet(Data, id, s, window[s].payload);
      after[k] == before[k] + if now - m.lastSent < m.rto then 0 else 1
  }

  lemma ScanIsDue(p: Params, e: Ep, now: int)
    ensures ResentWhenDue(p, e.sendBuffer, RetransmitExpired(p, e, now).sendBuffer, now)
    ensures CopiedWhenDue(e.id, e.sendBuffer, e.wire, RetransmitExpired(p, e, now).wire, now)
  {
    assert forall s :: s in e.sendBuffer ==> (Expired(e.sendBuffer[s], now) <==> Packet(Data, e.id, s, e.sendBuffer[s].payload) in Resent(e, now));
  }

  lemma SentOne(e: Ep, now: int, todo: set<u32>, s: u32)
    requires s in todo && s in e.sendBuffer
    ensures var m, was, more := e.sendBuffer[s], ResentSoFar(e, now, todo), ResentSoFar(e, now, todo - {s});
            if !Expired(m, now) then more == was
            else more != {} && multiset(more) == multiset(was) + multiset{Packet(Data, e.id, s, m.payload)}
  {
    var m, was, more := e.sendBuffer[s], ResentSoFar(e, now, todo), ResentSoFar(e, now, todo - {s});
    var k := Packet(Data, e.id, s, m.payload);
    if Expired(m, now) {
      assert k in Resent(e, now);
      assert more == was + {k} && k !in was;
    }
  }

  lemma ScanOne(p: Params, e: Ep, now: int, todo: set<u32>, s: u32)
    requires s in todo && s in e.sendBuffer
    ensures var m, t, u := e.sendBuffer[s], Scanning(p, e, now, todo), Scanning(p, e, now, todo - {s});
            if !Expired(m, now) then u == t
            else u == Emit(t.(sendBuffer := t.sendBuffer[s := Resend(p, m, now)]), Data, s, m.payload)
  {
    var m, t, u := e.sendBuffer[s], Scanning(p, e, now, todo), Scanning(p, e, now, todo - {s});
    SentOne(e, now, todo, s);
    hide ResentSoFar, Resend, Expired;
    if Expired(m, now) {
      assert u.wire == t.wire + multiset{Packet(Data, e.id, s, m.payload)};
      assert u.sendBuffer == t.sendBuffer[s := Resend(p, m, now)];
    } else {
      assert u.sendBuffer == t.sendBuffer;
    }
  }

  lemma ScanEnds(p: Params, e: Ep, now: int)
    ensures Scanning(p, e, now, e.sendBuffer.Keys) == e
    ensures Scanning(p, e, now, {}) == RetransmitExpired(p, e, now)
  {
    assert ResentSoFar(e, now, e.sendBuffer.Keys) == {};
    assert Scanning(p, e, now, e.sendBuffer.Keys).sendBuffer == e.sendBuffer;
    assert ResentSoFar(e, now, {}) == Resent(e, now);
    assert Scanning(p, e, now, {}).sendBuffer == RetransmitExpired(p, e, now).sendBuffer;
  }

  class Conn {
    const p: Params
    const id: u32
    var phase: Phase
    var sendBuffer: map<u32, OutMsg>
    var pendingWrites: seq<Bytes>
    var deliverQ: seq<Delivery>
    var nextSeq: u32
    var srtt: Option<int>
    var epochsSilent: nat
    var sentThisEpoch: bool
    var next: u32
    var held: map<u32, Bytes>
    var wire: multiset<Packet>
    ghost var written: seq<Bytes>
    ghost var accepted: map<u32, Bytes>
    ghost var delivered: seq<Bytes>
    ghost var handed: seq<Delivery>
    ghost var samples: seq<int>
    ghost var appClosed: bool
    ghost var verdict: Option<Err>

    /** The state at time clock. */
    ghost function View(clock: int): Ep
      reads this
    {
      Ep(id, phase, sendBuffer, pendingWrites, deliverQ, nextSeq, srtt, epochsSilent, sentThisEpoch, next, held,
         clock, wire, written, accepted, delivered, handed, samples, appClosed, verdict)
    }

    constructor (p: Params, id: u32, now: int)
      ensures this.p == p && View(now) == NewEp(id, now)
    {
      this.p, this.id := p, id;
      phase, sendBuffer, pendingWrites, deliverQ, nextSeq := Open, map[], [], [], 0;
      srtt, epochsSilent, sentThisEpoch, next, held, wire := None, 0, false, 1, map[], multiset{};
      written, accepted, delivered, handed, samples, appClosed, verdict := [], map[], [], [], [], false, None;
    }

    method Send(kind: Kind, sn: u32, payload: Bytes, ghost now: int)
      modifies this`wire, this`sentThisEpoch
      ensures View(now) == Emit(old(View(now)), kind, sn, payload)
    {
      wire := wire + multiset{Packet(kind, id, sn, payload)};
      sentThisEpoch := true;
    }

    /** The head of pendingWrites goes out. */
    method AdmitOne(now: int)
      requires pendingWrites != []
      modifies this`wire, this`sentThisEpoch, this`pendingWrites, this`nextSeq, this`sendBuffer
      ensures View(now) == Admit(p, old(View(now)), now)
    {
      hide Emit;
      var payload := pendingWrites[0];
      pendingWrites := pendingWrites[1..];
      nextSeq := Succ32(nextSeq);
      var rto := if srtt.None? then 2 * p.epoch else if 2 * srtt.value > p.epoch then 2 * srtt.value else p.epoch;
      sendBuffer := sendBuffer[nextSeq := OutMsg(payload, now, now, rto, 0, false, rto)];
      Send(Data, nextSeq, payload, now);
    }

    method FillTheWindow(now: int)
      modifies this`wire, this`sentThisEpoch, this`pendingWrites, this`nextSeq, this`sendBuffer
      ensures View(now) == FillWindow(p, old(View(now)), now)
    {
      while |pendingWrites| > 0 && |sendBuffer| < p.window
        invariant FillWindow(p, View(now), now) == FillWindow(p, old(View(now)), now)
        decreases |pendingWrites|
      {
        AdmitOne(now);
      }
    }

    method SampleRTT(sample: int, ghost now: int)
      modifies this`srtt, this`samples
      ensures View(now) == Sample(old(View(now)), sample)
    {
      srtt := Some(if srtt.None? then sample else (7 * srtt.value + sample) / 8);
      samples := samples + [sample];
    }

    method HandleAck(s: u32, now: int)
      modifies this
      ensures View(now) == OnAck(p, old(View(now)), s, now)
    {
      if s !in sendBuffer {
        return;
      }
      var m := sendBuffer[s];
      if !m.retransmitted {
        SampleRTT(now - m.firstSent, now);
      }
      ghost var t := View(now);
      sendBuffer := sendBuffer - {s};
      FillTheWindow(now);
      assert View(now) == Settle(p, t, s, now);
    }

    method ResendOne(s: u32, now: int)
      requires s in sendBuffer
      modifies this`sendBuffer, this`wire, this`sentThisEpoch
      ensures var e, m := old(View(now)), old(sendBuffer)[s];
              View(now) == if !Expired(m, now) then e
                           else Emit(e.(sendBuffer := e.sendBuffer[s := Resend(p, m, now)]), Data, s, m.payload)
    {
      var m := sendBuffer[s];
      var limit := p.maxBackoff * p.epoch;
      if now - m.lastSent >= m.rto {
        var doubled := if 2 * m.rto > limit then limit else 2 * m.rto;
        sendBuffer := sendBuffer[s := m.(lastSent := now, retries := m.retries + 1, retransmitted := true, rto := doubled)];
        Send(Data, s, m.payload, now);
      }
    }

    /** Resend every message whose RTO has run out and double it, up to the limit. */
    method Retransmit(now: int)
      modifies this`sendBuffer, this`wire, this`sentThisEpoch
      ensures View(now) == RetransmitExpired(p, old(View(now)), now)
      ensures ResentWhenDue(p, old(sendBuffer), sendBuffer, now)
      ensures CopiedWhenDue(id, old(sendBuffer), old(wire), wire, now)
    {
      ghost var e := old(View(now));
      ScanEnds(p, e, now);
      var todo := sendBuffer.Keys;
      while todo != {}
        invariant todo <= e.sendBuffer.Keys
        invariant View(now) == Scanning(p, e, now, todo)
        decreases todo
      {
        var s :| s in todo;
        ScanOne(p, e, now, todo, s);
        ResendOne(s, now);
        todo := todo - {s};
      }
      ScanIsDue(p, e, now);
    }

    method SendHeartbeat(ghost now: int)
      modifies this`wire, this`sentThisEpoch
      ensures View(now) == Heartbeat(old(View(now)))
      ensures wire == old(wire) + if old(sentThisEpoch) then multiset{} else multiset{Packet(Ack, id, 0, [])}
    {
      if !sentThisEpoch {
        Send(Ack, 0, [], now);
      }
      sentThisEpoch := false;
    }

    method Enqueue(payload: Bytes, ghost now: int)
      modifies this`deliverQ, this`delivered
      ensures View(now) == Queue(old(View(now)), payload)
    {
      deliverQ := deliverQ + [Got(payload)];
      delivered := delivered + [payload];
    }

    /** The reorder buffer: hold the message, then deliver until the next gap. */
    method AcceptInOrder(s: u32, payload: Bytes, ghost now: int)
      modifies this`deliverQ, this`delivered, this`held, this`next
      ensures View(now) == AcceptOrdered(old(View(now)), s, payload)
    {
      if s < next || s in held {
        return;
      }
      held := held[s := payload];
      ghost var e := View(now);
      while next in held
        invariant DrainHeld(View(now)) == DrainHeld(e)
        decreases |held|
      {
        assert |held.Keys - {next}| < |held.Keys| && (held - {next}).Keys == held.Keys - {next};
        Enqueue(held[next], now);
        held := held - {next};
        next := Succ32(next);
      }
    }

    method AcceptData(s: u32, payload: Bytes, ghost now: int)
      modifies this
      ensures View(now) == Accept(p, old(View(now)), s, payload)
    {
      if p.ordered {
        AcceptInOrder(s, payload, now);
      } else {
        Enqueue(payload, now);
      }
      accepted := accepted[s := payload];
    }

    method BeginDraining(err: Err, ghost now: int)
      modifies this
      ensures View(now) == StartDraining(old(View(now)), err)
    {
      phase, verdict := Draining, Some(err);
      deliverQ := deliverQ + [Failed(err)];
    }

    /** A packet routed here while the connection is open. */
    method HandlePacket(k: Packet, now: int, ghost clock: int)
      modifies this
      ensures View(now) == OnPacketOpen(p, old(View(now)), k, now)
      ensures old(phase).Open? && clock <= now ==> Step(p, old(View(clock)), multiset{k}, Receive(k), now, View(now))
    {
      if k.connID != id {
        return;
      }
      epochsSilent := 0;
      match k.kind
      case Ack => HandleAck(k.sn, now);
      case Data =>
        if k.sn != 0 {
          AcceptData(k.sn, k.payload, now);
          Send(Ack, k.sn, [], now);
        }
      case Close => BeginDraining(Closed, now);
      case _ =>
    }

    /** The flush loop's exit: everything acknowledged, say goodbye. */
    method EndIfFlushed(ghost now: int)
      modifies this
      ensures View(now) == FlushCheck(old(View(now)))
    {
      if sendBuffer == map[] && pendingWrites == [] {
        Send(Close, 0, [], now);
        phase := Ended;
      }
    }

    /** A packet routed here while flushing. */
    method HandleFlushPacket(k: Packet, now: int, ghost clock: int)
      modifies this
      ensures View(now) == OnPacketFlushing(p, old(View(now)), k, now)
      ensures old(phase).Flushing? && clock <= now ==> Step(p, old(View(clock)), multiset{k}, Receive(k), now, View(now))
    {
      if k.connID != id {
        return;
      }
      epochsSilent := 0;
      match k.kind
      case Ack =>
        HandleAck(k.sn, now);
        EndIfFlushed(now);
      case Data => Send(Ack, k.sn, [], now);
      case Close => phase := Ended;
      case _ =>
    }

    /** One epoch passed. */
    method HandleEpoch(now: int, ghost clock: int)
      modifies this
      ensures View(now) == OnEpoch(p, old(View(now)), now)
      ensures ResentWhenDue(p, old(sendBuffer), sendBuffer, now)
      ensures (old(phase).Open? || old(phase).Flushing?) && clock <= now ==> Step(p, old(View(clock)), multiset{}, Epoch, now, View(now))
    {
      hide RetransmitExpired, ResentWhenDue;
      Retransmit(now);
      SendHeartbeat(now);
      epochsSilent := epochsSilent + 1;
      if epochsSilent >= p.epochLimit {
        if phase.Open? {
          BeginDraining(Lost, now);
        } else {
          phase := Ended;
        }
      }
    }

    method HandleWrite(data: Bytes, now: int, ghost clock: int)
      modifies this
      ensures View(now) == OnWrite(p, old(View(now)), data, now)
      ensures old(phase).Open? && clock <= now ==> Step(p, old(View(clock)), multiset{}, Write(data), now, View(now))
    {
      written := written + [data];
      pendingWrites := pendingWrites + [data];
      FillTheWindow(now);
    }

    method HandleClose(now: int, ghost clock: int)
      modifies this
      ensures View(now) == OnClose(p, old(View(now)), now)
      ensures old(phase).Open? && clock <= now ==> Step(p, old(View(clock)), multiset{}, AppClose, now, View(now))
    {
      phase, appClosed := Flushing, true;
      FillTheWindow(now);
      EndIfFlushed(now);
    }

    /** Read takes the head of the queue. */
    method HandOver(ghost now: int, ghost clock: int)
      requires deliverQ != []
      modifies this`deliverQ, this`handed
      ensures View(now) == HandOff(old(View(now)))
      ensures (phase.Open? || phase.Draining?) && clock <= now ==> Step(p, old(View(clock)), multiset{}, Take, now, View(now))
    {
      handed := handed + [deliverQ[0]];
      deliverQ := deliverQ[1..];
    }

    /** drainAndExit hands out the whole backlog and the error, in order. */
    method Drain(ghost now: int)
      requires phase.Draining?
      modifies this`deliverQ, this`handed
      ensures deliverQ == [] && handed == old(handed) + old(deliverQ)
    {
      while deliverQ != []
        invariant handed + deliverQ == old(handed) + old(deliverQ)
        decreases |deliverQ|
      {
        HandOver(now, now);
      }
    }
  }
}
