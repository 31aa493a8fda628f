/** Big-endian numbers, and filling a buffer from the front. */
module Bytes {
  import opened Base

  function Power(k: nat): (p: nat)
    ensures p > 0
  {
    if k == 0 then 1 else 256 * Power(k - 1)
  }

  /** The k low bytes of x, most significant first. */
  function BE(k: nat, x: nat): (s: seq<byte>)
    ensures |s| == k
  {
    if k == 0 then [] else BE(k - 1, x / 256) + [x % 256]
  }

  function Num(s: seq<byte>): nat {
    if s == [] then 0 else 256 * Num(s[..|s| - 1]) + s[|s| - 1]
  }

  /** Most significant first: whatever stands before k bytes counts 256^k times as much. */
  lemma {:induction false} MostSignificantFirst(a: seq<byte>, b: seq<byte>)
    ensures Num(a + b) == Num(a) * Power(|b|) + Num(b)
  {
    if b == [] {
      assert a + b == a;
    } else {
      var front, last := b[..|b| - 1], b[|b| - 1];
      MostSignificantFirst(a, front);
      assert (a + b)[..|a + b| - 1] == a + front;
      assert Num(a) * Power(|b|) == 256 * (Num(a) * Power(|front|));
    }
  }

  lemma {:induction false} NumOfBE(k: nat, x: nat)
    requires x < Power(k)
    ensures Num(BE(k, x)) == x
  {
    if k > 0 {
      NumOfBE(k - 1, x / 256);
      assert BE(k, x)[..k - 1] == BE(k - 1, x / 256);
    }
  }

  lemma {:induction false} BEOfNum(s: seq<byte>)
    ensures Num(s) < Power(|s|) && BE(|s|, Num(s)) == s
  {
    if s != [] {
      BEOfNum(s[..|s| - 1]);
    }
  }

  lemma Widths()
    ensures Power(2) == TWO_16 && Power(4) == TWO_32 && Power(8) == TWO_64
  {
    assert Power(2) == 256 * Power(1);
    assert Power(4) == 256 * (256 * Power(2));
    assert Power(6) == 256 * (256 * Power(4));
    assert Power(8) == 256 * (256 * Power(6));
  }

  function Get16(b: seq<byte>, at: nat): u16
    requires at + 2 <= |b|
  {
    BEOfNum(b[at..at + 2]);
    Widths();
    Num(b[at..at + 2])
  }

  function Get32(b: seq<byte>, at: nat): u32
    requires at + 4 <= |b|
  {
    BEOfNum(b[at..at + 4]);
    Widths();
    Num(b[at..at + 4])
  }

  function Get64(b: seq<byte>, at: nat): u64
    requires at + 8 <= |b|
  {
    BEOfNum(b[at..at + 8]);
    Widths();
    Num(b[at..at + 8])
  }

  function Put16(x: u16): (s: seq<byte>) { BE(2, x) }

  function Put32(x: u32): (s: seq<byte>) { BE(4, x) }

  function Put64(x: u64): (s: seq<byte>) { BE(8, x) }

  lemma Get16Is(b: seq<byte>, at: nat, x: u16)
    requires at + 2 <= |b|
    ensures Get16(b, at) == x <==> b[at..at + 2] == Put16(x)
  {
    Widths();
    NumOfBE(2, x);
    BEOfNum(b[at..at + 2]);
  }

  lemma Get32Is(b: seq<byte>, at: nat, x: u32)
    requires at + 4 <= |b|
    ensures Get32(b, at) == x <==> b[at..at + 4] == Put32(x)
  {
    Widths();
    NumOfBE(4, x);
    BEOfNum(b[at..at + 4]);
  }

  lemma Get64Is(b: seq<byte>, at: nat, x: u64)
    requires at + 8 <= |b|
    ensures Get64(b, at) == x <==> b[at..at + 8] == Put64(x)
  {
    Widths();
    NumOfBE(8, x);
    BEOfNum(b[at..at + 8]);
  }

  /** The number in bytes at to end of b, most significant byte first. */
  predicate Holds(b: seq<byte>, at: nat, end: nat, x: nat) { at <= end <= |b| && Num(b[at..end]) == x }

  lemma HoldsNumber(b: seq<byte>, at: nat, k: nat, x: nat)
    requires x < Power(k) && at + k <= |b| && b[at..at + k] == BE(k, x)
    ensures Holds(b, at, at + k, x)
  {
    NumOfBE(k, x);
  }

  lemma Regroup(a: seq<byte>, b: seq<byte>, c: seq<byte>)
    ensures a + (b + c) == (a + b) + c
  {}

  lemma Behind(a: seq<byte>, b: seq<byte>)
    ensures (a + b)[..|a|] == a && (a + b)[|a|..] == b
  {}

  lemma CutAcross(a: seq<byte>, b: seq<byte>, cut: nat)
    requires cut <= |a| + |b|
    ensures (a + b)[..cut] == if cut < |a| then a[..cut] else a + b[..cut - |a|]
  {}

  /** A window of a window. */
  lemma WithinTail(b: seq<byte>, at: nat, lo: nat, hi: nat)
    requires lo <= hi && at + hi <= |b|
    ensures b[at..][lo..hi] == b[at + lo..at + hi] && b[at..][hi..] == b[at + hi..]
  {}

  /** The buffer holds `before` up to at; part is copied in behind it. */
  method Fill(a: array<byte>, at: nat, part: seq<byte>, ghost before: seq<byte>) returns (end: nat)
    requires at + |part| <= a.Length && a[..at] == before
    modifies a
    ensures end == at + |part| && a[..end] == before + part
  {
    forall i | 0 <= i < |part| {
      a[at + i] := part[i];
    }
    end := at + |part|;
    assert a[..at] == before;
    assert a[..end] == a[..at] + a[at..end];
  }
}
