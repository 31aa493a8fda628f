/** Heartbeats, silence and the end of a flush, over every run. */
module EndpointLife {
  import opened Base
  import opened Connection
  import opened Link
  import opened Transmissions
  import opened EndpointSteps

  // ------------------------------------------------------------------ heartbeats

  /** The flag is raised exactly by transmitting. */
  ghost predicate Marks(e: Ep, e': Ep) {
    |e.wire| <= |e'.wire| && (e'.sentThisEpoch <==> e.sentThisEpoch || |e.wire| < |e'.wire|)
  }

  lemma MarksChain(e: Ep, t: Ep, e': Ep)
    requires Marks(e, t) && Marks(t, e')
    ensures Marks(e, e')
  {}

  lemma QuietMarks(e: Ep, e': Ep)
    requires e'.wire == e.wire && e'.sentThisEpoch == e.sentThisEpoch
    ensures Marks(e, e')
  {}

  lemma EmitMarks(e: Ep, kind: Kind, sn: u32, payload: Bytes)
    ensures Marks(e, Emit(e, kind, sn, payload))
  {}

  lemma {:induction false} FillMarks(p: Params, e: Ep, now: int)
    ensures Marks(e, FillWindow(p, e, now))
    decreases |e.pendingWrites|
  {
    if e.pendingWrites != [] && |e.sendBuffer| < p.window {
      assert Marks(e, Admit(p, e, now));
      hide Marks;
      FillMarks(p, Admit(p, e, now), now);
      MarksChain(e, Admit(p, e, now), FillWindow(p, Admit(p, e, now), now));
    }
  }

  lemma AckMarks(p: Params, e: Ep, s: u32, now: int)
    ensures Marks(e, OnAck(p, e, s, now))
  {
    hide Marks, FillWindow, OnAck;
    if s !in e.sendBuffer {
      AckOfNothing(p, e, s, now);
      QuietMarks(e, e);
    } else {
      var t := AckIsSettle(p, e, s, now);
      var u := t.(sendBuffer := t.sendBuffer - {s});
      QuietMarks(e, u);
      FillMarks(p, u, now);
      MarksChain(e, u, FillWindow(p, u, now));
    }
  }

  lemma FlushMarks(e: Ep)
    ensures Marks(e, FlushCheck(e))
  {}

  lemma PacketMarks(p: Params, e: Ep, k: Packet, now: int)
    ensures Marks(e, OnPacketOpen(p, e, k, now)) && Marks(e, OnPacketFlushing(p, e, k, now))
  {
    hide Marks, OnAck, FlushCheck, Accept, Emit;
    var t := e.(epochsSilent := 0);
    QuietMarks(e, e);
    QuietMarks(e, t);
    if k.connID == e.id {
      match k.kind
      case Ack =>
        AckMarks(p, t, k.sn, now);
        var u := OnAck(p, t, k.sn, now);
        FlushMarks(u);
        MarksChain(e, t, u);
        MarksChain(e, u, FlushCheck(u));
      case Data =>
        AcceptKeepsSender(p, t, k.sn, k.payload);
        var u := Accept(p, t, k.sn, k.payload);
        QuietMarks(e, u);
        EmitMarks(u, Ack, k.sn, []);
        MarksChain(e, u, Emit(u, Ack, k.sn, []));
        EmitMarks(t, Ack, k.sn, []);
        MarksChain(e, t, Emit(t, Ack, k.sn, []));
      case Close =>
        QuietMarks(e, StartDraining(t, Closed));
        QuietMarks(e, t.(phase := Ended));
      case _ =>
    }
  }

  lemma StepMarks(p: Params, e: Ep, inbox: multiset<Packet>, act: Act, now: int, e': Ep)
    requires Step(p, e, inbox, act, now, e') && !act.Epoch?
    ensures Marks(e, e')
  {
    hide Marks, OnPacketOpen, OnPacketFlushing, FillWindow, FlushCheck;
    var t := e.(clock := now);
    QuietMarks(e, t);
    match act
    case Write(data) =>
      var u := t.(pendingWrites := t.pendingWrites + [data], written := t.written + [data]);
      QuietMarks(e, u);
      FillMarks(p, u, now);
      MarksChain(e, u, e');
    case Receive(k) => PacketMarks(p, t, k, now); MarksChain(e, t, e');
    case AppClose =>
      var u := t.(phase := Flushing, appClosed := true);
      var f := FillWindow(p, u, now);
      QuietMarks(e, u);
      FillMarks(p, u, now);
      MarksChain(e, u, f);
      FlushMarks(f);
      MarksChain(e, f, e');
    case Take => QuietMarks(e, e');
    case StopDraining => QuietMarks(e, e');
  }

  ghost predicate NothingDue(e: Ep, now: int) { forall s :: s in e.sendBuffer ==> now - e.sendBuffer[s].lastSent < e.sendBuffer[s].rto }

  /** At an epoch a heartbeat goes out exactly if nothing else did since the last one, the scan included. */
  lemma EpochBeats(p: Params, e: Ep, now: int)
    ensures var e', beat := OnEpoch(p, e, now), Packet(Ack, e.id, 0, []);
            && !e'.sentThisEpoch && |e.wire| <= |e'.wire| && (e.sentThisEpoch || |e.wire| < |e'.wire|)
            && e'.wire[beat] == e.wire[beat] + if !e.sentThisEpoch && NothingDue(e, now) then 1 else 0
  {
    var t := RetransmitExpired(p, e, now);
    ScanMarks(p, e, now);
    hide RetransmitExpired;
    var u := Heartbeat(t);
    assert !u.sentThisEpoch && |t.wire| <= |u.wire| && (t.sentThisEpoch || |t.wire| < |u.wire|);
    assert u.wire[Packet(Ack, e.id, 0, [])] == t.wire[Packet(Ack, e.id, 0, [])] + if t.sentThisEpoch then 0 else 1;
    hide Heartbeat;
    assert OnEpoch(p, e, now).wire == u.wire && OnEpoch(p, e, now).sentThisEpoch == u.sentThisEpoch;
  }

  lemma ScanMarks(p: Params, e: Ep, now: int)
    ensures var t := RetransmitExpired(p, e, now);
            && t.id == e.id && t.wire[Packet(Ack, e.id, 0, [])] == e.wire[Packet(Ack, e.id, 0, [])] && |e.wire| <= |t.wire|
            && (t.sentThisEpoch <==> e.sentThisEpoch || !NothingDue(e, now)) && (!NothingDue(e, now) ==> |e.wire| < |t.wire|)
  {
    var r := Resent(e, now);
    assert Packet(Ack, e.id, 0, []) !in r;
    if r == {} {
      forall s | s in e.sendBuffer ensures now - e.sendBuffer[s].lastSent < e.sendBuffer[s].rto {
        assert Packet(Data, e.id, s, e.sendBuffer[s].payload) !in r;
      }
    } else {
      var k :| k in r;
      assert Expired(e.sendBuffer[k.sn], now);
      assert |multiset(r)| > 0 by { assert multiset(r)[k] == 1; }
    }
  }

  /** Endpoint a sees no epoch between states from and till. */
  predicate NoEpoch(moves: seq<Move>, from: nat, till: nat) {
    till <= |moves| && forall i :: from <= i < till ==> !(moves[i].side == A && moves[i].act.Epoch?)
  }

  lemma {:induction false} SentSinceEpoch(p: Params, states: seq<Pair>, moves: seq<Move>, from: nat, j: nat)
    requires LinkRun(p, states, moves) && from <= j < |states| && NoEpoch(moves, from, j) && !states[from].a.sentThisEpoch
    ensures |states[from].a.wire| <= |states[j].a.wire|
    ensures states[j].a.sentThisEpoch <==> |states[from].a.wire| < |states[j].a.wire|
  {
    hide LinkStep, Step;
    if from < j {
      SentSinceEpoch(p, states, moves, from, j - 1);
      MovesOfA(p, states, moves, j - 1);
      if moves[j - 1].side == A {
        StepMarks(p, states[j - 1].a, states[j - 1].b.wire, moves[j - 1].act, moves[j - 1].now, states[j].a);
      }
    }
  }

  lemma EpochStepBeats(p: Params, states: seq<Pair>, moves: seq<Move>, i: nat)
    requires LinkRun(p, states, moves) && Moves(moves, i, Epoch)
    ensures var a, a', beat := states[i].a, states[i + 1].a, Packet(Ack, states[i].a.id, 0, []);
            && !a'.sentThisEpoch && |a.wire| <= |a'.wire| && (a.sentThisEpoch || |a.wire| < |a'.wire|)
            && a'.wire[beat] == a.wire[beat] + if !a.sentThisEpoch && NothingDue(a, moves[i].now) then 1 else 0
  {
    MovesOfA(p, states, moves, i);
    hide LinkRun, OnEpoch;
    EpochBeats(p, states[i].a.(clock := moves[i].now), moves[i].now);
  }

  /**
   From one epoch to the next (or from the start to the first) something is
   always transmitted, and it is a heartbeat exactly if there was nothing else.
   */
  lemma IdleMeansHeartbeat(p: Params, states: seq<Pair>, moves: seq<Move>, from: nat, i: nat)
    requires LinkRun(p, states, moves) && Moves(moves, i, Epoch) && from <= i && NoEpoch(moves, from, i)
    requires from == 0 || Moves(moves, from - 1, Epoch)
    ensures var a, a', beat := states[i].a, states[i + 1].a, Packet(Ack, states[i].a.id, 0, []);
            && |states[from].a.wire| < |a'.wire|
            && a'.wire[beat] == a.wire[beat] + if |a.wire| == |states[from].a.wire| && NothingDue(a, moves[i].now) then 1 else 0
  {
    hide LinkStep, NothingDue, NoEpoch;
    if from > 0 { EpochStepBeats(p, states, moves, from - 1); }
    SentSinceEpoch(p, states, moves, from, i);
    EpochStepBeats(p, states, moves, i);
  }

  // --------------------------------------------------------------------- silence

  /** Epochs endpoint a has seen since it last received a packet of its connection. */
  function SilentEpochs(id: u32, moves: seq<Move>, j: nat): nat
    requires j <= |moves|
  {
    if j == 0 then 0
    else
      var m := moves[j - 1];
      if m.side == A && m.act.Epoch? then SilentEpochs(id, moves, j - 1) + 1
      else if m.side == A && m.act.Receive? && m.act.packet.connID == id then 0
      else SilentEpochs(id, moves, j - 1)
  }

  predicate Alive(e: Ep) { e.phase.Open? || e.phase.Flushing? }

  lemma {:induction false} FillKeepsLife(p: Params, e: Ep, now: int)
    ensures var e' := FillWindow(p, e, now); e'.id == e.id && e'.epochsSilent == e.epochsSilent && e'.phase == e.phase
    decreases |e.pendingWrites|
  {
    if e.pendingWrites != [] && |e.sendBuffer| < p.window { FillKeepsLife(p, Admit(p, e, now), now); }
  }

  lemma AckKeepsLife(p: Params, e: Ep, s: u32, now: int)
    ensures var e' := OnAck(p, e, s, now); e'.id == e.id && e'.epochsSilent == e.epochsSilent && e'.phase == e.phase
  {
    hide OnAck, FillWindow;
    if s !in e.sendBuffer {
      AckOfNothing(p, e, s, now);
    } else {
      var t := AckIsSettle(p, e, s, now);
      FillKeepsLife(p, t.(sendBuffer := t.sendBuffer - {s}), now);
    }
  }

  ghost predicate Heard(e: Ep, k: Packet, e': Ep) {
    e'.id == e.id && e'.epochsSilent == if k.connID == e.id then 0 else e.epochsSilent
  }

  lemma AcceptKeepsLife(p: Params, e: Ep, s: u32, payload: Bytes)
    ensures var e' := Emit(Accept(p, e, s, payload), Ack, s, []); e'.id == e.id && e'.epochsSilent == e.epochsSilent && e'.phase == e.phase
  {
    AcceptKeepsSender(p, e, s, payload);
    hide Accept;
  }

  lemma OpenPacketIsHeard(p: Params, e: Ep, k: Packet, now: int)
    ensures Heard(e, k, OnPacketOpen(p, e, k, now))
  {
    hide OnAck, Accept, Emit, StartDraining;
    if k.connID == e.id {
      var t := e.(epochsSilent := 0);
      match k.kind
      case Ack => AckKeepsLife(p, t, k.sn, now);
      case Data => AcceptKeepsLife(p, t, k.sn, k.payload);
      case Close => DrainingKeepsCount(t);
      case _ =>
    }
  }

  lemma DrainingKeepsCount(e: Ep)
    ensures var e' := StartDraining(e, Closed); e'.id == e.id && e'.epochsSilent == e.epochsSilent && e'.phase.Draining?
  {}

  lemma FlushCheckKeepsCount(e: Ep)
    ensures FlushCheck(e).id == e.id && FlushCheck(e).epochsSilent == e.epochsSilent
  {}

  lemma FlushingPacketIsHeard(p: Params, e: Ep, k: Packet, now: int)
    ensures Heard(e, k, OnPacketFlushing(p, e, k, now))
  {
    hide OnAck, FlushCheck;
    if k.connID == e.id && k.kind == Ack {
      var t := e.(epochsSilent := 0);
      AckKeepsLife(p, t, k.sn, now);
      FlushCheckKeepsCount(OnAck(p, t, k.sn, now));
    }
  }

  lemma EpochCountsSilence(p: Params, e: Ep, now: int)
    ensures var e' := OnEpoch(p, e, now);
            && e'.id == e.id && e'.epochsSilent == e.epochsSilent + 1
            && (e.epochsSilent + 1 < p.epochLimit ==> e'.phase == e.phase && e'.verdict == e.verdict && e'.deliverQ == e.deliverQ)
            && (e.epochsSilent + 1 >= p.epochLimit && e.phase.Open? ==>
                  e'.phase.Draining? && e'.verdict == Some(Lost) && e'.deliverQ == e.deliverQ + [Failed(Lost)])
            && (e.epochsSilent + 1 >= p.epochLimit && e.phase.Flushing? ==> e'.phase.Ended? && e'.verdict == e.verdict && e'.deliverQ == e.deliverQ)
  {
    var t := RetransmitExpired(p, e, now);
    assert t == e.(sendBuffer := t.sendBuffer, wire := t.wire, sentThisEpoch := t.sentThisEpoch);
    hide RetransmitExpired;
    var u := Heartbeat(t);
    assert u == t.(wire := u.wire, sentThisEpoch := false);
    hide Heartbeat;
  }

  lemma StepCountsSilence(p: Params, e: Ep, inbox: multiset<Packet>, act: Act, now: int, e': Ep)
    requires Step(p, e, inbox, act, now, e')
    ensures e'.id == e.id
    ensures e'.epochsSilent == if act.Epoch? then e.epochsSilent + 1
                               else if act.Receive? && act.packet.connID == e.id then 0
                               else e.epochsSilent
  {
    hide OnPacketOpen, OnPacketFlushing, FillWindow, OnEpoch;
    var t := e.(clock := now);
    match act
    case Write(data) => FillKeepsLife(p, t.(pendingWrites := t.pendingWrites + [data], written := t.written + [data]), now);
    case Receive(k) => OpenPacketIsHeard(p, t, k, now); FlushingPacketIsHeard(p, t, k, now);
    case Epoch => EpochCountsSilence(p, t, now);
    case AppClose => FillKeepsLife(p, t.(phase := Flushing, appClosed := true), now);
    case Take =>
    case StopDraining =>
  }

  /** The silence count is the number of epochs since a packet of the connection came. */
  lemma {:induction false} SilenceIsCounted(p: Params, states: seq<Pair>, moves: seq<Move>, j: nat)
    requires LinkRun(p, states, moves) && j < |states|
    ensures states[j].a.id == states[0].a.id && states[j].a.epochsSilent == SilentEpochs(states[0].a.id, moves, j)
  {
    hide LinkStep, Step;
    if j > 0 {
      SilenceIsCounted(p, states, moves, j - 1);
      MovesOfA(p, states, moves, j - 1);
      if moves[j - 1].side == A {
        StepCountsSilence(p, states[j - 1].a, states[j - 1].b.wire, moves[j - 1].act, moves[j - 1].now, states[j].a);
      }
    }
  }

  /** A connection is given up at the epoch that makes the silence reach its limit, and at no other. */
  lemma SilenceEndsIt(p: Params, states: seq<Pair>, moves: seq<Move>, i: nat)
    requires LinkRun(p, states, moves) && Moves(moves, i, Epoch)
    ensures var a, a', silent := states[i].a, states[i + 1].a, SilentEpochs(states[0].a.id, moves, i) + 1;
            && (silent < p.epochLimit ==> a'.phase == a.phase && a'.verdict == a.verdict)
            && (silent >= p.epochLimit && a.phase.Open? ==> a'.phase.Draining? && a'.verdict == Some(Lost) && a'.deliverQ == a.deliverQ + [Failed(Lost)])
            && (silent >= p.epochLimit && a.phase.Flushing? ==> a'.phase.Ended?)
  {
    SilenceIsCounted(p, states, moves, i);
    MovesOfA(p, states, moves, i);
    hide LinkRun, OnEpoch, SilentEpochs;
    EpochCountsSilence(p, states[i].a.(clock := moves[i].now), moves[i].now);
  }

  /** The peer's Close ends the connection: behind what is still to be read if it is open, at once if it is flushing. */
  lemma CloseEndsIt(p: Params, states: seq<Pair>, moves: seq<Move>, i: nat, k: Packet)
    requires LinkRun(p, states, moves) && Moves(moves, i, Receive(k)) && k.kind == Close && k.connID == states[i].a.id
    ensures var a, a' := states[i].a, states[i + 1].a;
            && a'.sendBuffer == a.sendBuffer && a'.wire == a.wire && a'.delivered == a.delivered
            && (a.phase.Open? ==> a'.phase.Draining? && a'.verdict == Some(Closed) && a'.deliverQ == a.deliverQ + [Failed(Closed)])
            && (a.phase.Flushing? ==> a'.phase.Ended? && a'.deliverQ == a.deliverQ)
  {
    MovesOfA(p, states, moves, i);
    hide LinkRun;
  }

  /** Only an open connection takes a Write, behind everything written before it. */
  lemma WritesAreQueued(p: Params, states: seq<Pair>, moves: seq<Move>, i: nat, data: Bytes)
    requires LinkRun(p, states, moves) && Moves(moves, i, Write(data))
    ensures states[i].a.phase.Open? && states[i + 1].a.written == states[i].a.written + [data]
  {
    MovesOfA(p, states, moves, i);
    hide LinkRun;
    var t := states[i].a.(clock := moves[i].now);
    FillKeepsWritten(p, t.(pendingWrites := t.pendingWrites + [data], written := t.written + [data]), moves[i].now);
  }

  lemma {:induction false} FillKeepsWritten(p: Params, e: Ep, now: int)
    ensures FillWindow(p, e, now).written == e.written
    decreases |e.pendingWrites|
  {
    if e.pendingWrites != [] && |e.sendBuffer| < p.window { FillKeepsWritten(p, Admit(p, e, now), now); }
  }

  // ------------------------------------------------------------------ the flush

  predicate Owes(e: Ep) { e.sendBuffer != map[] || e.pendingWrites != [] }

  lemma FlushEnds(e: Ep)
    requires e.phase.Flushing?
    ensures var e', bye := FlushCheck(e), Packet(Close, e.id, 0, []);
            && e'.sendBuffer == e.sendBuffer && e'.pendingWrites == e.pendingWrites
            && (Owes(e) ==> e'.phase.Flushing? && e'.wire == e.wire)
            && (!Owes(e) ==> e'.phase.Ended? && e'.wire == e.wire + multiset{bye})
  {}

  /** Flushing goes on only while something is owed; when nothing is, Close has been sent. */
  ghost predicate FlushSettled(e: Ep, e': Ep) {
    && (Owes(e') ==> e'.phase.Flushing? && e'.wire[Packet(Close, e.id, 0, [])] == e.wire[Packet(Close, e.id, 0, [])])
    && (!Owes(e') ==> e'.phase.Ended? && e'.wire[Packet(Close, e.id, 0, [])] == e.wire[Packet(Close, e.id, 0, [])] + 1)
  }

  lemma {:induction false} FillSendsNoClose(p: Params, e: Ep, now: int)
    ensures var e' := FillWindow(p, e, now); e'.wire[Packet(Close, e.id, 0, [])] == e.wire[Packet(Close, e.id, 0, [])]
    decreases |e.pendingWrites|
  {
    if e.pendingWrites != [] && |e.sendBuffer| < p.window { FillSendsNoClose(p, Admit(p, e, now), now); }
  }

  lemma AckSendsNoClose(p: Params, e: Ep, s: u32, now: int)
    ensures var e' := OnAck(p, e, s, now); e'.wire[Packet(Close, e.id, 0, [])] == e.wire[Packet(Close, e.id, 0, [])]
  {
    hide OnAck, FillWindow;
    if s !in e.sendBuffer {
      AckOfNothing(p, e, s, now);
    } else {
      var t := AckIsSettle(p, e, s, now);
      FillSendsNoClose(p, t.(sendBuffer := t.sendBuffer - {s}), now);
    }
  }

  lemma CloseSettles(p: Params, e: Ep, now: int)
    ensures FlushSettled(e, OnClose(p, e, now))
  {
    hide FillWindow, FlushCheck;
    var u := e.(phase := Flushing, appClosed := true);
    FillKeepsLife(p, u, now);
    FillSendsNoClose(p, u, now);
    FlushEnds(FillWindow(p, u, now));
  }

  lemma AckSettles(p: Params, e: Ep, k: Packet, now: int)
    requires e.phase.Flushing? && k.kind == Ack && k.connID == e.id
    ensures FlushSettled(e, OnPacketFlushing(p, e, k, now))
  {
    hide OnAck, FlushCheck;
    var t := e.(epochsSilent := 0);
    AckKeepsLife(p, t, k.sn, now);
    AckSendsNoClose(p, t, k.sn, now);
    FlushEnds(OnAck(p, t, k.sn, now));
  }

  /** Close, and every ack while flushing, ends the flush with a Close packet exactly if nothing is owed any more. */
  lemma FlushEndsWithTheLastAck(p: Params, states: seq<Pair>, moves: seq<Move>, i: nat)
    requires LinkRun(p, states, moves) && i < |moves| && moves[i].side == A
    requires var act := moves[i].act;
             || act.AppClose?
             || (act.Receive? && states[i].a.phase.Flushing? && act.packet.kind == Ack && act.packet.connID == states[i].a.id)
    ensures FlushSettled(states[i].a, states[i + 1].a)
  {
    MovesOfA(p, states, moves, i);
    hide LinkRun, OnClose, OnPacketFlushing, OnPacketOpen;
    var t := states[i].a.(clock := moves[i].now);
    if moves[i].act.AppClose? { CloseSettles(p, t, moves[i].now); } else { AckSettles(p, t, moves[i].act.packet, moves[i].now); }
  }

  lemma StepKeepsOwing(p: Params, e: Ep, inbox: multiset<Packet>, act: Act, now: int, e': Ep)
    requires Step(p, e, inbox, act, now, e') && (e.phase.Flushing? ==> Owes(e))
    ensures e'.phase.Flushing? ==> Owes(e')
  {
    hide OnPacketOpen, OnPacketFlushing, FillWindow, OnEpoch, FlushCheck;
    var t := e.(clock := now);
    match act
    case Write(data) => FillKeepsLife(p, t.(pendingWrites := t.pendingWrites + [data], written := t.written + [data]), now);
    case Receive(k) => if t.phase.Open? { OpenPacketNeverFlushes(p, t, k, now); } else { FlushingPacketOwes(p, t, k, now); }
    case Epoch => EpochKeepsKeys(p, t, now); EpochKeepsWrites(p, t, now); EpochCountsSilence(p, t, now);
    case AppClose => CloseSettles(p, t, now);
    case Take =>
    case StopDraining =>
  }

  lemma OpenPacketNeverFlushes(p: Params, e: Ep, k: Packet, now: int)
    requires e.phase.Open?
    ensures !OnPacketOpen(p, e, k, now).phase.Flushing?
  {
    hide OnAck, Accept, Emit, StartDraining;
    var t := e.(epochsSilent := 0);
    if k.connID == e.id {
      match k.kind
      case Ack => AckKeepsLife(p, t, k.sn, now);
      case Data => AcceptKeepsLife(p, t, k.sn, k.payload);
      case Close => DrainingKeepsCount(t);
      case _ =>
    }
  }

  lemma FlushingPacketOwes(p: Params, e: Ep, k: Packet, now: int)
    requires e.phase.Flushing? && Owes(e)
    ensures OnPacketFlushing(p, e, k, now).phase.Flushing? ==> Owes(OnPacketFlushing(p, e, k, now))
  {
    if k.connID == e.id && k.kind == Ack { AckSettles(p, e, k, now); }
    hide OnAck, FlushCheck;
  }

  lemma EpochKeepsWrites(p: Params, e: Ep, now: int)
    ensures OnEpoch(p, e, now).pendingWrites == e.pendingWrites
  {
    var t := RetransmitExpired(p, e, now);
    assert t.pendingWrites == e.pendingWrites;
    hide RetransmitExpired;
    assert Heartbeat(t).pendingWrites == t.pendingWrites;
    hide Heartbeat;
  }

  /** In every run a connection that is still flushing owes its peer something. */
  lemma {:induction false} FlushingOwes(p: Params, states: seq<Pair>, moves: seq<Move>, j: nat)
    requires LinkRun(p, states, moves) && j < |states|
    ensures states[j].a.phase.Flushing? ==> states[j].a.sendBuffer != map[] || states[j].a.pendingWrites != []
  {
    hide LinkStep, Step;
    if j > 0 {
      FlushingOwes(p, states, moves, j - 1);
      MovesOfA(p, states, moves, j - 1);
      if moves[j - 1].side == A {
        StepKeepsOwing(p, states[j - 1].a, states[j - 1].b.wire, moves[j - 1].act, moves[j - 1].now, states[j].a);
      }
    }
  }
}
