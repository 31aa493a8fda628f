/** The bytes of one log record and of one frame. */
module WalCodec {
  import opened Base
  import opened Bytes
  import opened Journal

  const FRAME_HEADER := 8
  const MAX_BODY := 0x1_0000

  /** CRC-32 is any function of the body. */
  type Checksum = seq<byte> -> u32

  function EncodeRecord(r: Record): (b: seq<byte>)
    ensures b != []
  {
    match r
    case JobStart(job, lo, hi, size, n, msg) =>
      [1] + Put64(job) + Put64(lo) + Put64(hi) + Put64(size) + Put32(n) + Put16(|msg| % TWO_16) + msg
    case ChunkDone(job, idx, hash, nonce) => [2] + Put64(job) + Put32(idx) + Put64(hash) + Put64(nonce)
    case JobDone(job, hash, nonce) => [3] + Put64(job) + Put64(hash) + Put64(nonce)
    case JobDrop(job) => [4] + Put64(job)
  }

  function DecodeRecord(b: seq<byte>): Option<Record>
    requires b != []
  {
    if b[0] == 1 then
      if |b| < 39 || |b| != 39 + Get16(b, 37) then None
      else Some(JobStart(Get64(b, 1), Get64(b, 9), Get64(b, 17), Get64(b, 25), Get32(b, 33), b[39..]))
    else if b[0] == 2 then
      if |b| != 29 then None else Some(ChunkDone(Get64(b, 1), Get32(b, 9), Get64(b, 13), Get64(b, 21)))
    else if b[0] == 3 then
      if |b| != 25 then None else Some(JobDone(Get64(b, 1), Get64(b, 9), Get64(b, 17)))
    else if b[0] == 4 then
      if |b| != 9 then None else Some(JobDrop(Get64(b, 1)))
    else None
  }

  /** The 16-bit length field can say how long the message is. */
  predicate Counted16(r: Record) { r.JobStart? ==> |r.msg| < TWO_16 }

  /** The largest message a readable JobStart can carry is 65497 bytes. */
  predicate Readable(r: Record) { r.JobStart? ==> 39 + |r.msg| <= MAX_BODY }

  lemma JobStartDecodes(b: seq<byte>, r: Record)
    requires b != [] && b[0] == 1 && r.JobStart?
    ensures DecodeRecord(b) == Some(r) <==> Counted16(r) && b == EncodeRecord(r)
  {
    hide Num, BE;
    if |b| >= 39 {
      Get64Is(b, 1, r.job);
      Get64Is(b, 9, r.lo);
      Get64Is(b, 17, r.hi);
      Get64Is(b, 25, r.size);
      Get32Is(b, 33, r.n);
      Get16Is(b, 37, |r.msg| % TWO_16);
      assert b == [b[0]] + b[1..9] + b[9..17] + b[17..25] + b[25..33] + b[33..37] + b[37..39] + b[39..];
      JobStartParts(r);
    }
  }

  lemma JobStartParts(r: Record)
    requires r.JobStart?
    ensures var e := EncodeRecord(r);
            && |e| == 39 + |r.msg| && e[0] == 1 && e[1..9] == Put64(r.job) && e[9..17] == Put64(r.lo) && e[17..25] == Put64(r.hi)
            && e[25..33] == Put64(r.size) && e[33..37] == Put32(r.n) && e[37..39] == Put16(|r.msg| % TWO_16) && e[39..] == r.msg
  {}

  lemma OtherParts(r: Record)
    ensures var e := EncodeRecord(r);
            && (r.ChunkDone? ==> |e| == 29 && e[0] == 2 && e[1..9] == Put64(r.job) && e[9..13] == Put32(r.idx) && e[13..21] == Put64(r.hash) && e[21..29] == Put64(r.nonce))
            && (r.JobDone? ==> |e| == 25 && e[0] == 3 && e[1..9] == Put64(r.job) && e[9..17] == Put64(r.hash) && e[17..25] == Put64(r.nonce))
            && (r.JobDrop? ==> |e| == 9 && e[0] == 4 && e[1..9] == Put64(r.job))
  {}

  lemma ChunkDoneDecodes(b: seq<byte>, r: Record)
    requires b != [] && b[0] == 2 && r.ChunkDone?
    ensures DecodeRecord(b) == Some(r) <==> b == EncodeRecord(r)
  {
    if |b| == 29 {
      Get64Is(b, 1, r.job);
      Get32Is(b, 9, r.idx);
      Get64Is(b, 13, r.hash);
      Get64Is(b, 21, r.nonce);
      assert b == [b[0]] + b[1..9] + b[9..13] + b[13..21] + b[21..];
    }
  }

  lemma EndDecodes(b: seq<byte>, r: Record)
    requires b != [] && ((b[0] == 3 && r.JobDone?) || (b[0] == 4 && r.JobDrop?))
    ensures DecodeRecord(b) == Some(r) <==> b == EncodeRecord(r)
  {
    if b[0] == 3 && |b| == 25 {
      Get64Is(b, 1, r.job);
      Get64Is(b, 9, r.hash);
      Get64Is(b, 17, r.nonce);
      assert b == [b[0]] + b[1..9] + b[9..17] + b[17..];
    } else if b[0] == 4 && |b| == 9 {
      Get64Is(b, 1, r.job);
      assert b == [b[0]] + b[1..];
    }
  }

  lemma TypesDiffer(b: seq<byte>, r: Record)
    requires b != [] && !(b[0] == 1 && r.JobStart?) && !(b[0] == 2 && r.ChunkDone?)
    requires !(b[0] == 3 && r.JobDone?) && !(b[0] == 4 && r.JobDrop?)
    ensures DecodeRecord(b) != Some(r) && b != EncodeRecord(r)
  {
    assert EncodeRecord(r)[0] == match r { case JobStart(_, _, _, _, _, _) => 1 case ChunkDone(_, _, _, _) => 2 case JobDone(_, _, _) => 3 case JobDrop(_) => 4 };
  }

  /** The record codec is exact as far as the 16-bit length reaches. */
  lemma RecordIsExact(b: seq<byte>, r: Record)
    requires b != []
    ensures DecodeRecord(b) == Some(r) <==> Counted16(r) && b == EncodeRecord(r)
  {
    if b[0] == 1 && r.JobStart? {
      JobStartDecodes(b, r);
    } else if b[0] == 2 && r.ChunkDone? {
      ChunkDoneDecodes(b, r);
    } else if (b[0] == 3 && r.JobDone?) || (b[0] == 4 && r.JobDrop?) {
      EndDecodes(b, r);
    } else {
      TypesDiffer(b, r);
    }
  }

  lemma BodyFits(r: Record)
    ensures Readable(r) <==> Counted16(r) && |EncodeRecord(r)| <= MAX_BODY
  {
    if r.JobStart? {
      JobStartParts(r);
    }
  }

  /** Where everything is in a record that fits its length field. */
  lemma RecordLayout(r: Record)
    requires Counted16(r)
    ensures var b := EncodeRecord(r);
            match r
            case JobStart(job, lo, hi, size, n, msg) =>
              && |b| == 39 + |msg| && b[0] == 1 && b[39..] == msg && Holds(b, 1, 9, job) && Holds(b, 9, 17, lo) && Holds(b, 17, 25, hi)
              && Holds(b, 25, 33, size) && Holds(b, 33, 37, n) && Holds(b, 37, 39, |msg|)
            case ChunkDone(job, idx, hash, nonce) =>
              |b| == 29 && b[0] == 2 && Holds(b, 1, 9, job) && Holds(b, 9, 13, idx) && Holds(b, 13, 21, hash) && Holds(b, 21, 29, nonce)
            case JobDone(job, hash, nonce) =>
              |b| == 25 && b[0] == 3 && Holds(b, 1, 9, job) && Holds(b, 9, 17, hash) && Holds(b, 17, 25, nonce)
            case JobDrop(job) =>
              |b| == 9 && b[0] == 4 && Holds(b, 1, 9, job)
  {
    Widths();
    hide BE, Num, Power, EncodeRecord;
    var b := EncodeRecord(r);
    OtherParts(r);
    match r
    case JobStart(job, lo, hi, size, n, msg) =>
      JobStartParts(r);
      HoldsNumber(b, 1, 8, job);
      HoldsNumber(b, 9, 8, lo);
      HoldsNumber(b, 17, 8, hi);
      HoldsNumber(b, 25, 8, size);
      HoldsNumber(b, 33, 4, n);
      HoldsNumber(b, 37, 2, |msg|);
    case ChunkDone(job, idx, hash, nonce) =>
      HoldsNumber(b, 1, 8, job);
      HoldsNumber(b, 9, 4, idx);
      HoldsNumber(b, 13, 8, hash);
      HoldsNumber(b, 21, 8, nonce);
    case JobDone(job, hash, nonce) =>
      HoldsNumber(b, 1, 8, job);
      HoldsNumber(b, 9, 8, hash);
      HoldsNumber(b, 17, 8, nonce);
    case JobDrop(job) =>
      HoldsNumber(b, 1, 8, job);
  }

  // ---------------------------------------------------------------- frames

  function Enclose(crc: Checksum, body: seq<byte>): seq<byte> { Put32(|body| % TWO_32) + Put32(crc(body)) + body }

  function Frame(crc: Checksum, r: Record): seq<byte> { Enclose(crc, EncodeRecord(r)) }

  /** A frame: the length of the body, its checksum, the body. */
  lemma FrameLayout(crc: Checksum, body: seq<byte>)
    requires |body| <= MAX_BODY
    ensures var f := Enclose(crc, body);
            |f| == 8 + |body| && Holds(f, 0, 4, |body|) && Holds(f, 4, 8, crc(body)) && f[8..] == body
  {
    Widths();
    hide BE, Num, Power;
    var f := Enclose(crc, body);
    HoldsNumber(f, 0, 4, |body|);
    HoldsNumber(f, 4, 4, crc(body));
  }

  function Frames(crc: Checksum, rs: seq<Record>): seq<byte> {
    if rs == [] then [] else Frame(crc, rs[0]) + Frames(crc, rs[1..])
  }

  /** The record at the front of b, if its frame is whole and intact. */
  function ReadFrame(crc: Checksum, b: seq<byte>): Option<Record> {
    if |b| < FRAME_HEADER then None
    else
      var n := Get32(b, 0);
      if n == 0 || n > MAX_BODY || |b| < FRAME_HEADER + n then None
      else
        var body := b[FRAME_HEADER..FRAME_HEADER + n];
        if crc(body) != Get32(b, 4) then None else DecodeRecord(body)
  }

  function FrameLen(b: seq<byte>): nat
    requires |b| >= FRAME_HEADER
  {
    FRAME_HEADER + Get32(b, 0)
  }

  /** A frame of a readable record reads back, whatever follows it. */
  lemma FrameReads(crc: Checksum, r: Record, rest: seq<byte>)
    requires Readable(r)
    ensures var b := Frame(crc, r) + rest; ReadFrame(crc, b) == Some(r) && FrameLen(b) == |Frame(crc, r)|
  {
    hide EncodeRecord, DecodeRecord, Num, BE;
    BodyFits(r);
    var body := EncodeRecord(r);
    var b := Frame(crc, r) + rest;
    assert b[0..4] == Put32(|body|) && b[4..8] == Put32(crc(body)) && b[8..8 + |body|] == body;
    Get32Is(b, 0, |body|);
    Get32Is(b, 4, crc(body));
    RecordIsExact(body, r);
  }

  /** A frame that is cut short reads as nothing. */
  lemma CutFrameReadsNothing(crc: Checksum, r: Record, cut: nat)
    requires Readable(r) && cut < |Frame(crc, r)|
    ensures ReadFrame(crc, Frame(crc, r)[..cut]).None?
  {
    hide EncodeRecord, DecodeRecord, Num, BE;
    BodyFits(r);
    var body := EncodeRecord(r);
    var b := Frame(crc, r)[..cut];
    if cut >= FRAME_HEADER {
      assert b[0..4] == Put32(|body|);
      Get32Is(b, 0, |body|);
    }
  }

  lemma CheckedIsEnclosed(crc: Checksum, b: seq<byte>, n: nat)
    requires n <= MAX_BODY && FRAME_HEADER + n <= |b| && Get32(b, 0) == n
    requires crc(b[FRAME_HEADER..FRAME_HEADER + n]) == Get32(b, 4)
    ensures b[..FRAME_HEADER + n] == Enclose(crc, b[FRAME_HEADER..FRAME_HEADER + n])
  {
    hide Num, BE;
    Get32Is(b, 0, n);
    Get32Is(b, 4, Get32(b, 4));
    assert b[..FRAME_HEADER + n] == b[0..4] + b[4..8] + b[FRAME_HEADER..FRAME_HEADER + n];
  }

  /** What reads as a record is that record's frame. */
  lemma ReadIsAFrame(crc: Checksum, b: seq<byte>, r: Record)
    requires ReadFrame(crc, b) == Some(r)
    ensures Readable(r) && FrameLen(b) <= |b| && b[..FrameLen(b)] == Frame(crc, r)
  {
    hide EncodeRecord, DecodeRecord;
    var n := Get32(b, 0);
    CheckedIsEnclosed(crc, b, n);
    RecordIsExact(b[FRAME_HEADER..FRAME_HEADER + n], r);
    BodyFits(r);
  }
}
