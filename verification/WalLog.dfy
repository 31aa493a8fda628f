/** The log file: reading back, torn tails, appending, and atomic rewriting. */
module WalLog {
  import opened Base
  import opened Bytes
  import opened Journal
  import opened WalCodec

  /** The intact records and the offset just past the last of them. */
  datatype Reading = Reading(recs: seq<Record>, good: nat)

  function ReadAll(crc: Checksum, b: seq<byte>): Reading
    decreases |b|
  {
    var r := ReadFrame(crc, b);
    if r.None? then Reading([], 0)
    else
      Onto([r.value], FrameLen(b), ReadAll(crc, b[FrameLen(b)..]))
  }

  /** One turn of the reading loop: the frame at offset at, and how long it is. */
  method ReadNext(crc: Checksum, b: seq<byte>, at: nat) returns (rec: Option<Record>, n: nat)
    requires at <= |b|
    ensures rec == ReadFrame(crc, b[at..])
    ensures rec.None? ==> ReadAll(crc, b[at..]) == Reading([], 0)
    ensures rec.Some? ==> 0 < n <= |b| - at && ReadAll(crc, b[at..]) == Onto([rec.value], n, ReadAll(crc, b[at + n..]))
  {
    hide DecodeRecord, Num;
    rec, n := None, 0;
    if |b| - at < FRAME_HEADER { return; }
    var head := b[at..at + FRAME_HEADER];
    WithinTail(b, at, 0, 4);
    WithinTail(b, at, 4, 8);
    assert head[0..4] == b[at..at + 4] && head[4..8] == b[at + 4..at + 8];
    var len := Get32(head, 0);
    if len == 0 || len > MAX_BODY { return; }
    n := FRAME_HEADER + len;
    if |b| - at < n { return; }
    var body := b[at + FRAME_HEADER..at + n];
    WithinTail(b, at, FRAME_HEADER, n);
    if crc(body) != Get32(head, 4) { return; }
    rec := DecodeRecord(body);
  }

  /** The reading loop. */
  method ReadLog(crc: Checksum, b: seq<byte>) returns (recs: seq<Record>, good: nat)
    ensures Reading(recs, good) == ReadAll(crc, b)
  {
    hide ReadFrame, FrameLen;
    recs, good := [], 0;
    assert b[0..] == b;
    while true
      invariant good <= |b|
      invariant ReadAll(crc, b) == Onto(recs, good, ReadAll(crc, b[good..]))
      decreases |b| - good
    {
      var rec, n := ReadNext(crc, b, good);
      if rec.None? {
        assert recs + [] == recs;
        return;
      }
      OntoNext(recs, good, rec.value, n, ReadAll(crc, b[good + n..]));
      recs := recs + [rec.value];
      good := good + n;
    }
  }

  /** What was read so far, followed by a reading of the rest. */
  function Onto(recs: seq<Record>, good: nat, rest: Reading): Reading { Reading(recs + rest.recs, good + rest.good) }

  lemma OntoNext(recs: seq<Record>, good: nat, r: Record, n: nat, rest: Reading)
    ensures Onto(recs, good, Onto([r], n, rest)) == Onto(recs + [r], good + n, rest)
  {}

  ghost predicate AllReadable(rs: seq<Record>) { forall r :: r in rs ==> Readable(r) }

  lemma {:induction false} FramesJoin(crc: Checksum, rs: seq<Record>, more: seq<Record>)
    ensures Frames(crc, rs + more) == Frames(crc, rs) + Frames(crc, more)
  {
    hide Frame;
    if rs == [] {
      assert rs + more == more;
    } else {
      FramesJoin(crc, rs[1..], more);
      assert (rs + more)[1..] == rs[1..] + more;
    }
  }

  lemma FramesGrow(crc: Checksum, rs: seq<Record>, r: Record)
    ensures Frames(crc, rs + [r]) == Frames(crc, rs) + Frame(crc, r)
  {
    hide Frame;
    FramesJoin(crc, rs, [r]);
    assert [r][1..] == [];
    assert Frames(crc, [r]) == Frame(crc, r) + [];
  }

  lemma FirstReads(crc: Checksum, r: Record, rest: seq<byte>)
    requires Readable(r)
    ensures ReadAll(crc, Frame(crc, r) + rest) == Onto([r], |Frame(crc, r)|, ReadAll(crc, rest))
  {
    hide Frame, DecodeRecord;
    FrameReads(crc, r, rest);
    Behind(Frame(crc, r), rest);
  }

  lemma OntoFirst(rs: seq<Record>, n: nat, m: nat, rest: Reading)
    requires rs != []
    ensures Onto([rs[0]], n, Onto(rs[1..], m, rest)) == Onto(rs, n + m, rest)
  {}

  /** Reading goes through a run of frames and on into whatever follows. */
  lemma {:induction false} ReadsOn(crc: Checksum, rs: seq<Record>, rest: seq<byte>)
    requires AllReadable(rs)
    ensures ReadAll(crc, Frames(crc, rs) + rest) == Onto(rs, |Frames(crc, rs)|, ReadAll(crc, rest))
  {
    hide Frame, ReadFrame;
    if rs == [] {
      assert Frames(crc, rs) + rest == rest;
    } else {
      var f, more := Frame(crc, rs[0]), Frames(crc, rs[1..]);
      Regroup(f, more, rest);
      FirstReads(crc, rs[0], more + rest);
      ReadsOn(crc, rs[1..], rest);
      OntoFirst(rs, |f|, |more|, ReadAll(crc, rest));
    }
  }

  lemma Split(b: seq<byte>, n: nat, m: nat)
    requires n + m <= |b|
    ensures b[..n + m] == b[..n] + b[n..][..m] && b[n + m..] == b[n..][m..]
  {}

  /** Whatever the bytes are, the first `good` of them are exactly the frames of the records returned. */
  lemma {:induction false} GoodIsFrames(crc: Checksum, b: seq<byte>)
    ensures var out := ReadAll(crc, b);
            && out.good <= |b| && b[..out.good] == Frames(crc, out.recs)
            && AllReadable(out.recs) && ReadFrame(crc, b[out.good..]).None?
    decreases |b|
  {
    hide Frame, DecodeRecord;
    var r := ReadFrame(crc, b);
    if r.None? {
      assert b[0..] == b;
    } else {
      var n := FrameLen(b);
      ReadIsAFrame(crc, b, r.value);
      GoodIsFrames(crc, b[n..]);
      var rest := ReadAll(crc, b[n..]);
      Split(b, n, rest.good);
      assert ([r.value] + rest.recs)[1..] == rest.recs;
    }
  }

  /** A record comes back from its frame exactly when its message is at most 65497 bytes long. */
  lemma FrameReadsBackIff(crc: Checksum, r: Record)
    ensures ReadAll(crc, Frame(crc, r)).recs == [r] <==> (r.JobStart? ==> |r.msg| <= 65497)
  {
    hide Frame, ReadFrame;
    var f := Frame(crc, r);
    GoodIsFrames(crc, f);
    if Readable(r) {
      assert Frames(crc, [r]) == f;
      assert f + [] == f;
      ReadsOn(crc, [r], []);
    }
    assert ReadAll(crc, f).recs == [r] ==> r in ReadAll(crc, f).recs;
  }

  /** How many of the records have their whole frame within the first cut bytes. */
  function Fitting(crc: Checksum, rs: seq<Record>, cut: nat): (k: nat)
    ensures k <= |rs|
  {
    if rs == [] || cut < |Frame(crc, rs[0])| then 0 else 1 + Fitting(crc, rs[1..], cut - |Frame(crc, rs[0])|)
  }

  lemma {:induction false} FittingIsLongest(crc: Checksum, rs: seq<Record>, cut: nat)
    ensures var k := Fitting(crc, rs, cut);
            |Frames(crc, rs[..k])| <= cut && forall j :: k < j <= |rs| ==> |Frames(crc, rs[..j])| > cut
  {
    if rs != [] {
      var n := |Frame(crc, rs[0])|;
      if cut < n {
        forall j | 0 < j <= |rs| ensures |Frames(crc, rs[..j])| > cut {
          assert rs[..j][0] == rs[0];
        }
      } else {
        FittingIsLongest(crc, rs[1..], cut - n);
        forall j | 0 < j <= |rs| ensures |Frames(crc, rs[..j])| == n + |Frames(crc, rs[1..][..j - 1])| {
          assert rs[..j][1..] == rs[1..][..j - 1];
        }
      }
    }
  }

  /** A torn tail: whatever byte the file is cut at, the records whose frames are whole come back and the rest is cut off. */
  lemma {:induction false} TornTail(crc: Checksum, rs: seq<Record>, cut: nat)
    requires AllReadable(rs) && cut <= |Frames(crc, rs)|
    ensures var k := Fitting(crc, rs, cut);
            ReadAll(crc, Frames(crc, rs)[..cut]) == Reading(rs[..k], |Frames(crc, rs[..k])|)
  {
    hide Frame, DecodeRecord;
    if rs == [] {
      assert Frames(crc, rs)[..cut] == [];
    } else {
      var f, more := Frame(crc, rs[0]), Frames(crc, rs[1..]);
      CutAcross(f, more, cut);
      if cut < |f| {
        CutFrameReadsNothing(crc, rs[0], cut);
      } else {
        TornTail(crc, rs[1..], cut - |f|);
        FirstReads(crc, rs[0], more[..cut - |f|]);
        OntoPrefix(crc, rs, Fitting(crc, rs[1..], cut - |f|));
      }
    }
  }

  lemma OntoPrefix(crc: Checksum, rs: seq<Record>, k: nat)
    requires k < |rs|
    ensures Onto([rs[0]], |Frame(crc, rs[0])|, Reading(rs[1..][..k], |Frames(crc, rs[1..][..k])|))
         == Reading(rs[..k + 1], |Frames(crc, rs[..k + 1])|)
  {
    assert rs[..k + 1][1..] == rs[1..][..k];
    assert [rs[0]] + rs[1..][..k] == rs[..k + 1];
  }

  /** Truncating to the good part and appending continues the log from the last intact record. */
  lemma AppendAfterTear(crc: Checksum, rs: seq<Record>, cut: nat, r: Record)
    requires AllReadable(rs) && cut <= |Frames(crc, rs)| && Readable(r)
    ensures var torn := Frames(crc, rs)[..cut]; var good := ReadAll(crc, torn).good;
            && good <= cut
            && ReadAll(crc, torn[..good] + Frame(crc, r)).recs == rs[..Fitting(crc, rs, cut)] + [r]
  {
    hide Fitting, EncodeRecord;
    var torn := Frames(crc, rs)[..cut];
    var k := Fitting(crc, rs, cut);
    TornTail(crc, rs, cut);
    GoodIsFrames(crc, torn);
    FramesGrow(crc, rs[..k], r);
    var all := rs[..k] + [r];
    assert Frames(crc, all) + [] == Frames(crc, all);
    ReadsOn(crc, all, []);
  }

  /** The file as the process sees it: bytes handed to the system, bytes still buffered. */
  class Log {
    const crc: Checksum
    var file: seq<byte>
    var buffered: seq<byte>
    var size: nat
    /** Every record in the log, and how many of them a crash cannot take. */
    ghost var records: seq<Record>
    ghost var kept: nat

    ghost predicate Valid()
      reads this
    {
      && file + buffered == Frames(crc, records) && size == |file| + |buffered|
      && AllReadable(records)
      && kept <= |records| && |Frames(crc, records[..kept])| <= |file|
    }

    constructor (crc: Checksum)
      ensures Valid() && records == [] && this.crc == crc
    {
      this.crc := crc;
      file, buffered, size, records, kept := [], [], 0, [], 0;
    }

    /** Cut the file behind its last intact record and continue there. */
    constructor Open(crc: Checksum, bytes: seq<byte>)
      ensures Valid() && this.crc == crc
      ensures records == ReadAll(crc, bytes).recs && kept == |records| && size == ReadAll(crc, bytes).good
    {
      var recs, good := ReadLog(crc, bytes);
      GoodIsFrames(crc, bytes);
      this.crc := crc;
      file, buffered, size := bytes[..good], [], good;
      records, kept := recs, |recs|;
      assert recs[..|recs|] == recs;
    }

    /** `flushed` bytes of the buffer may reach the file, as the buffer sees fit. */
    method Append(r: Record, flushed: nat)
      requires Valid() && Readable(r) && flushed <= |buffered| + |Frame(crc, r)|
      modifies this
      ensures Valid() && records == old(records) + [r] && kept == old(kept)
      ensures size == old(size) + |Frame(crc, r)|
    {
      hide EncodeRecord;
      var body := EncodeRecord(r);
      var head := Put32(|body| % TWO_32) + Put32(crc(body));
      FramesGrow(crc, records, r);
      Regroup(file, buffered, Frame(crc, r));
      var all := buffered + (head + body);
      size := size + FRAME_HEADER + |body|;
      Regroup(file, all[..flushed], all[flushed..]);
      file, buffered := file + all[..flushed], all[flushed..];
      records := records + [r];
      assert records[..kept] == old(records)[..kept];
    }

    method Sync()
      requires Valid()
      modifies this
      ensures Valid() && records == old(records) && kept == |records| && buffered == [] && size == old(size)
    {
      file, buffered := file + buffered, [];
      kept := |records|;
      assert records[..kept] == records;
      assert file + buffered == file;
    }

    /** A whole new file replaces the old one at once. */
    method Rewrite(recs: seq<Record>)
      requires Valid() && AllReadable(recs)
      modifies this
      ensures Valid() && records == recs && kept == |recs| && buffered == [] && size == |Frames(crc, recs)|
    {
      hide Frame;
      var next := new Log(crc);
      for i := 0 to |recs|
        invariant next.Valid() && next.records == recs[..i] && next.crc == crc && fresh(next)
      {
        assert recs[i] in recs;
        next.Append(recs[i], 0);
        assert recs[..i] + [recs[i]] == recs[..i + 1];
      }
      assert recs[..|recs|] == recs;
      next.Sync();
      file, buffered, size := next.file, next.buffered, next.size;
      records, kept := next.records, next.kept;
      assert file + buffered == file;
    }

    /**
     A crash leaves some prefix of the bytes, at least what was durable. What
     is then read is a prefix of the records that holds all the kept ones.
     */
    lemma CrashKeepsARecordPrefix(cut: nat)
      requires Valid() && |Frames(crc, records[..kept])| <= cut <= size
      ensures var out := ReadAll(crc, (file + buffered)[..cut]);
              kept <= |out.recs| <= |records| && out.recs == records[..|out.recs|]
    {
      TornTail(crc, records, cut);
      FittingIsLongest(crc, records, cut);
    }
  }
}
