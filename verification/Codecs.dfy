/** The application messages: fixed big-endian layouts. */
module Wire {
  import opened Base
  import opened Bytes

  const MAX_MSG_LEN := 1024

  datatype Msg =
    | Join
    | Request(job: u64, lo: u64, hi: u64, msg: Message)
    | Chunk(id: TaskID, lo: u64, hi: u64, msg: Message)
    | ChunkResult(id: TaskID, hash: u64, nonce: u64)
    | Result(job: u64, hash: u64, nonce: u64)

  /** What Encode accepts without panicking. */
  predicate Encodable(m: Msg) { m.Request? || m.Chunk? ==> |m.msg| <= MAX_MSG_LEN }

  function Encode(m: Msg): seq<byte>
    requires Encodable(m)
  {
    match m
    case Join => [1]
    case Request(job, lo, hi, msg) => [2] + Put64(job) + Put64(lo) + Put64(hi) + Put16(|msg|) + msg
    case Chunk(id, lo, hi, msg) => [3] + Put64(id.job) + Put32(id.idx) + Put64(lo) + Put64(hi) + Put16(|msg|) + msg
    case ChunkResult(id, hash, nonce) => [4] + Put64(id.job) + Put32(id.idx) + Put64(hash) + Put64(nonce)
    case Result(job, hash, nonce) => [5] + Put64(job) + Put64(hash) + Put64(nonce)
  }

  /** The string whose length sits at b[at..], if it ends exactly where b does. */
  function Tail(b: seq<byte>, at: nat): Option<Message> {
    if |b| < at + 2 then None
    else
      var n := Get16(b, at);
      if n > MAX_MSG_LEN || |b| != at + 2 + n then None else Some(b[at + 2..])
  }

  function Decode(b: seq<byte>): Option<Msg> {
    if b == [] then None
    else if b[0] == 1 then
      if |b| == 1 then Some(Join) else None
    else if b[0] == 2 then
      var s := Tail(b, 25);
      if s.None? then None else Some(Request(Get64(b, 1), Get64(b, 9), Get64(b, 17), s.value))
    else if b[0] == 3 then
      var s := Tail(b, 29);
      if s.None? then None else Some(Chunk(TaskID(Get64(b, 1), Get32(b, 9)), Get64(b, 13), Get64(b, 21), s.value))
    else if b[0] == 4 then
      if |b| == 29 then Some(ChunkResult(TaskID(Get64(b, 1), Get32(b, 9)), Get64(b, 13), Get64(b, 21))) else None
    else if b[0] == 5 then
      if |b| == 25 then Some(Result(Get64(b, 1), Get64(b, 9), Get64(b, 17))) else None
    else None
  }

  lemma TailIs(b: seq<byte>, at: nat, msg: Message)
    ensures Tail(b, at) == Some(msg) <==> |msg| <= MAX_MSG_LEN && |b| == at + 2 + |msg| && b[at..] == Put16(|msg|) + msg
  {
    if |b| >= at + 2 {
      assert b[at..] == b[at..at + 2] + b[at + 2..];
      if |msg| <= MAX_MSG_LEN {
        Get16Is(b, at, |msg|);
        var whole := Put16(|msg|) + msg;
        assert whole[..2] == Put16(|msg|) && whole[2..] == msg;
        assert b[at..][..2] == b[at..at + 2] && b[at..][2..] == b[at + 2..];
      }
    }
  }

  lemma RequestDecodes(b: seq<byte>, m: Msg)
    requires b != [] && b[0] == 2 && m.Request?
    ensures Decode(b) == Some(m) <==> Encodable(m) && b == Encode(m)
  {
    TailIs(b, 25, m.msg);
    if |b| >= 27 {
      Get64Is(b, 1, m.job);
      Get64Is(b, 9, m.lo);
      Get64Is(b, 17, m.hi);
      assert b == [b[0]] + b[1..9] + b[9..17] + b[17..25] + b[25..];
    }
  }

  lemma ChunkDecodes(b: seq<byte>, m: Msg)
    requires b != [] && b[0] == 3 && m.Chunk?
    ensures Decode(b) == Some(m) <==> Encodable(m) && b == Encode(m)
  {
    TailIs(b, 29, m.msg);
    if |b| >= 31 {
      Get64Is(b, 1, m.id.job);
      Get32Is(b, 9, m.id.idx);
      Get64Is(b, 13, m.lo);
      Get64Is(b, 21, m.hi);
      assert b == [b[0]] + b[1..9] + b[9..13] + b[13..21] + b[21..29] + b[29..];
    }
  }

  lemma AnswerDecodes(b: seq<byte>, m: Msg)
    requires b != [] && ((b[0] == 4 && m.ChunkResult?) || (b[0] == 5 && m.Result?))
    ensures Decode(b) == Some(m) <==> Encodable(m) && b == Encode(m)
  {
    hide Num, BE;
    if b[0] == 4 && |b| == 29 {
      Get64Is(b, 1, m.id.job);
      Get32Is(b, 9, m.id.idx);
      Get64Is(b, 13, m.hash);
      Get64Is(b, 21, m.nonce);
      assert b == [b[0]] + b[1..9] + b[9..13] + b[13..21] + b[21..];
    } else if b[0] == 5 && |b| == 25 {
      Get64Is(b, 1, m.job);
      Get64Is(b, 9, m.hash);
      Get64Is(b, 17, m.nonce);
      assert b == [b[0]] + b[1..9] + b[9..17] + b[17..];
    }
  }

  /** Decode accepts exactly the encodings, each as the message it encodes. */
  lemma DecodeIsExact(b: seq<byte>, m: Msg)
    ensures Decode(b) == Some(m) <==> Encodable(m) && b == Encode(m)
  {
    if b != [] {
      if b[0] == 2 && m.Request? {
        RequestDecodes(b, m);
      } else if b[0] == 3 && m.Chunk? {
        ChunkDecodes(b, m);
      } else if (b[0] == 4 && m.ChunkResult?) || (b[0] == 5 && m.Result?) {
        AnswerDecodes(b, m);
      } else {
        KindsDiffer(b, m);
      }
    }
  }

  lemma KindsDiffer(b: seq<byte>, m: Msg)
    requires b != [] && !(b[0] == 2 && m.Request?) && !(b[0] == 3 && m.Chunk?)
    requires !(b[0] == 4 && m.ChunkResult?) && !(b[0] == 5 && m.Result?)
    ensures Decode(b) == Some(m) <==> Encodable(m) && b == Encode(m)
  {
    assert Encodable(m) ==> Encode(m)[0] == match m { case Join => 1 case Request(_, _, _, _) => 2 case Chunk(_, _, _, _) => 3 case ChunkResult(_, _, _) => 4 case Result(_, _, _) => 5 };
  }

  /** Where everything is: the kind, the fields in order, and the message behind its length. */
  lemma RequestLayout(m: Msg)
    requires Encodable(m) && m.Request?
    ensures var b := Encode(m);
            && |b| == 27 + |m.msg| && b[0] == 2 && b[27..] == m.msg
            && Holds(b, 1, 9, m.job) && Holds(b, 9, 17, m.lo) && Holds(b, 17, 25, m.hi) && Holds(b, 25, 27, |m.msg|)
  {
    Widths();
    hide BE, Num, Power;
    var b := Encode(m);
    HoldsNumber(b, 1, 8, m.job);
    HoldsNumber(b, 9, 8, m.lo);
    HoldsNumber(b, 17, 8, m.hi);
    HoldsNumber(b, 25, 2, |m.msg|);
  }

  lemma ChunkLayout(m: Msg)
    requires Encodable(m) && m.Chunk?
    ensures var b := Encode(m);
            && |b| == 31 + |m.msg| && b[0] == 3 && b[31..] == m.msg
            && Holds(b, 1, 9, m.id.job) && Holds(b, 9, 13, m.id.idx) && Holds(b, 13, 21, m.lo) && Holds(b, 21, 29, m.hi) && Holds(b, 29, 31, |m.msg|)
  {
    Widths();
    hide BE, Num, Power;
    var b := Encode(m);
    HoldsNumber(b, 1, 8, m.id.job);
    HoldsNumber(b, 9, 4, m.id.idx);
    HoldsNumber(b, 13, 8, m.lo);
    HoldsNumber(b, 21, 8, m.hi);
    HoldsNumber(b, 29, 2, |m.msg|);
  }

  lemma AnswerLayout(m: Msg)
    requires m.ChunkResult? || m.Result?
    ensures var b := Encode(m);
            && (m.ChunkResult? ==> |b| == 29 && b[0] == 4 && Holds(b, 1, 9, m.id.job) && Holds(b, 9, 13, m.id.idx) && Holds(b, 13, 21, m.hash) && Holds(b, 21, 29, m.nonce))
            && (m.Result? ==> |b| == 25 && b[0] == 5 && Holds(b, 1, 9, m.job) && Holds(b, 9, 17, m.hash) && Holds(b, 17, 25, m.nonce))
  {
    Widths();
    hide BE, Num, Power;
    var b := Encode(m);
    if m.ChunkResult? {
      HoldsNumber(b, 1, 8, m.id.job);
      HoldsNumber(b, 9, 4, m.id.idx);
      HoldsNumber(b, 13, 8, m.hash);
      HoldsNumber(b, 21, 8, m.nonce);
    } else {
      HoldsNumber(b, 1, 8, m.job);
      HoldsNumber(b, 9, 8, m.hash);
      HoldsNumber(b, 17, 8, m.nonce);
    }
  }

  /** Encode's own buffer filling. */
  method EncodeBuffer(m: Msg) returns (b: array<byte>)
    requires Encodable(m)
    ensures fresh(b) && b[..] == Encode(m)
  {
    match m
    case Join =>
      b := new byte[] [1];
    case Request(job, lo, hi, msg) =>
      b := new byte[27 + |msg|];
      var at := Fill(b, 0, [2], []);
      at := Fill(b, at, Put64(job), [2]);
      at := Fill(b, at, Put64(lo), [2] + Put64(job));
      at := Fill(b, at, Put64(hi), [2] + Put64(job) + Put64(lo));
      at := Fill(b, at, Put16(|msg|), [2] + Put64(job) + Put64(lo) + Put64(hi));
      at := Fill(b, at, msg, [2] + Put64(job) + Put64(lo) + Put64(hi) + Put16(|msg|));
      assert b[..] == b[..at];
    case Chunk(id, lo, hi, msg) =>
      b := new byte[31 + |msg|];
      var at := Fill(b, 0, [3], []);
      at := Fill(b, at, Put64(id.job), [3]);
      at := Fill(b, at, Put32(id.idx), [3] + Put64(id.job));
      at := Fill(b, at, Put64(lo), [3] + Put64(id.job) + Put32(id.idx));
      at := Fill(b, at, Put64(hi), [3] + Put64(id.job) + Put32(id.idx) + Put64(lo));
      at := Fill(b, at, Put16(|msg|), [3] + Put64(id.job) + Put32(id.idx) + Put64(lo) + Put64(hi));
      at := Fill(b, at, msg, [3] + Put64(id.job) + Put32(id.idx) + Put64(lo) + Put64(hi) + Put16(|msg|));
      assert b[..] == b[..at];
    case ChunkResult(id, hash, nonce) =>
      b := new byte[29];
      var at := Fill(b, 0, [4], []);
      at := Fill(b, at, Put64(id.job), [4]);
      at := Fill(b, at, Put32(id.idx), [4] + Put64(id.job));
      at := Fill(b, at, Put64(hash), [4] + Put64(id.job) + Put32(id.idx));
      at := Fill(b, at, Put64(nonce), [4] + Put64(id.job) + Put32(id.idx) + Put64(hash));
      assert b[..] == b[..at];
    case Result(job, hash, nonce) =>
      b := new byte[25];
      var at := Fill(b, 0, [5], []);
      at := Fill(b, at, Put64(job), [5]);
      at := Fill(b, at, Put64(hash), [5] + Put64(job));
      at := Fill(b, at, Put64(nonce), [5] + Put64(job) + Put64(hash));
      assert b[..] == b[..at];
  }
}

/** Datagrams: an 11-byte header and a payload. */
module Datagrams {
  import opened Base
  import opened Bytes
  import opened Connection
  import Wire

  const HEADER_LEN := 11
  const MAX_PAYLOAD := 1200
  const MAX_PACKET := HEADER_LEN + MAX_PAYLOAD

  function TypeOf(kind: Kind): byte {
    match kind
    case Connect => 1
    case ConnAck => 2
    case Data => 3
    case Ack => 4
    case Close => 5
  }

  function KindOf(t: byte): Option<Kind> {
    match t
    case 1 => Some(Connect)
    case 2 => Some(ConnAck)
    case 3 => Some(Data)
    case 4 => Some(Ack)
    case 5 => Some(Close)
    case _ => None
  }

  function Marshal(p: Packet): seq<byte> {
    [TypeOf(p.kind)] + Put32(p.connID) + Put32(p.sn) + Put16(|p.payload| % TWO_16) + p.payload
  }

  function Parse(b: seq<byte>): Option<Packet> {
    if |b| < HEADER_LEN then None
    else if b[0] < 1 || b[0] > 5 then None
    else
      var n := Get16(b, 9);
      if n != |b| - HEADER_LEN || n > MAX_PAYLOAD then None
      else Some(Packet(KindOf(b[0]).value, Get32(b, 1), Get32(b, 5), b[HEADER_LEN..]))
  }

  /** Parse accepts exactly the packets Marshal makes of payloads that fit. */
  lemma ParseIsExact(b: seq<byte>, p: Packet)
    ensures Parse(b) == Some(p) <==> |p.payload| <= MAX_PAYLOAD && b == Marshal(p)
  {
    if |b| >= HEADER_LEN {
      Get32Is(b, 1, p.connID);
      Get32Is(b, 5, p.sn);
      Get16Is(b, 9, |p.payload| % TWO_16);
      assert b == [b[0]] + b[1..5] + b[5..9] + b[9..11] + b[11..];
      var m := Marshal(p);
      assert m[0] == TypeOf(p.kind) && m[1..5] == Put32(p.connID) && m[5..9] == Put32(p.sn);
      assert m[9..11] == Put16(|p.payload| % TWO_16) && m[11..] == p.payload;
    }
  }

  /** The header: type, connection, sequence number, payload length; then the payload. */
  lemma PacketLayout(p: Packet)
    requires |p.payload| <= MAX_PAYLOAD
    ensures var b := Marshal(p);
            && |b| == 11 + |p.payload| && b[11..] == p.payload
            && Holds(b, 1, 5, p.connID) && Holds(b, 5, 9, p.sn) && Holds(b, 9, 11, |p.payload|)
            && b[0] == match p.kind { case Connect => 1 case ConnAck => 2 case Data => 3 case Ack => 4 case Close => 5 }
  {
    Widths();
    hide BE, Num, Power;
    var b := Marshal(p);
    HoldsNumber(b, 1, 4, p.connID);
    HoldsNumber(b, 5, 4, p.sn);
    HoldsNumber(b, 9, 2, |p.payload|);
  }

  /** The read buffer holds one byte more than the largest packet, so cutting a datagram to it never invents a packet. */
  lemma ReadBufferIsEnough(d: seq<byte>)
    ensures Parse(d[..if |d| <= MAX_PACKET + 1 then |d| else MAX_PACKET + 1]) == Parse(d)
  {
    if |d| <= MAX_PACKET + 1 {
      assert d[..|d|] == d;
    }
  }

  /** No encoded message makes Write panic. */
  lemma MessagesFit(m: Wire.Msg)
    requires Wire.Encodable(m)
    ensures 1 <= |Wire.Encode(m)| <= 31 + 1024 < MAX_PAYLOAD == 1200
  {}

  /** The two layers together: what is written is what is read, and nothing else reads as a message. */
  lemma StackIsExact(b: seq<byte>, connID: u32, sn: u32, m: Wire.Msg)
    ensures (exists p :: Parse(b) == Some(p) && p.kind == Data && p.connID == connID && p.sn == sn && Wire.Decode(p.payload) == Some(m))
       <==> Wire.Encodable(m) && b == Marshal(Packet(Data, connID, sn, Wire.Encode(m)))
  {
    if Wire.Encodable(m) {
      var q := Packet(Data, connID, sn, Wire.Encode(m));
      MessagesFit(m);
      ParseIsExact(b, q);
      Wire.DecodeIsExact(q.payload, m);
    }
    forall p | Parse(b) == Some(p) && p.kind == Data && p.connID == connID && p.sn == sn && Wire.Decode(p.payload) == Some(m)
      ensures Wire.Encodable(m) && b == Marshal(Packet(Data, connID, sn, Wire.Encode(m)))
    {
      ParseIsExact(b, p);
      Wire.DecodeIsExact(p.payload, m);
      assert p == Packet(Data, connID, sn, Wire.Encode(m));
    }
  }

  /** Marshal's own buffer filling. */
  method MarshalBuffer(p: Packet) returns (b: array<byte>)
    ensures fresh(b) && b[..] == Marshal(p)
  {
    b := new byte[HEADER_LEN + |p.payload|];
    var head: seq<byte> := [TypeOf(p.kind)];
    var at := Fill(b, 0, head, []);
    at := Fill(b, at, Put32(p.connID), head);
    at := Fill(b, at, Put32(p.sn), head + Put32(p.connID));
    at := Fill(b, at, Put16(|p.payload| % TWO_16), head + Put32(p.connID) + Put32(p.sn));
    at := Fill(b, at, p.payload, head + Put32(p.connID) + Put32(p.sn) + Put16(|p.payload| % TWO_16));
    assert b[..] == b[..at];
  }
}
