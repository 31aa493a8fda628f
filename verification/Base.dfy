/** Machine integers and the small values every other module shares. */
module Base {
  const TWO_16 := 0x1_0000
  const TWO_32 := 0x1_0000_0000
  const TWO_64 := 0x1_0000_0000_0000_0000

  type byte = x: int | 0 <= x < 0x100
  type u16 = x: int | 0 <= x < TWO_16
  type u32 = x: int | 0 <= x < TWO_32
  type u64 = x: int | 0 <= x < TWO_64

  /** uint64 arithmetic wraps around. */
  function Wrap64(x: int): u64 { x % TWO_64 }

  type Message = seq<byte>

  datatype Option<+T> = None | Some(value: T)

  /** The answer for one range of a job. */
  datatype Partial = Partial(hash: u64, nonce: u64)

  /** One chunk of one job: the idempotency key of the whole system. */
  datatype TaskID = TaskID(job: u64, idx: u32)

  /** Smoothed round trip: weight 1/8 for a new sample, the first one taken as it is. */
  function Smooth(srtt: Option<int>, sample: int): int {
    if srtt.None? then sample else (7 * srtt.value + sample) / 8
  }

  ghost predicate Within(samples: seq<int>, lo: int, hi: int) { forall x :: x in samples ==> lo <= x <= hi }

  /** The smoothed value lies between any bounds of its samples. */
  ghost predicate Smoothed(srtt: Option<int>, samples: seq<int>) {
    && (srtt.Some? <==> samples != [])
    && (forall lo, hi :: Within(samples, lo, hi) && samples != [] ==> lo <= srtt.value <= hi)
  }

  lemma SmoothStaysWithin(srtt: Option<int>, samples: seq<int>, sample: int)
    requires Smoothed(srtt, samples)
    ensures Smoothed(Some(Smooth(srtt, sample)), samples + [sample])
  {
    forall lo, hi | Within(samples + [sample], lo, hi) ensures lo <= Smooth(srtt, sample) <= hi {
      assert sample in samples + [sample] && forall x :: x in samples ==> x in samples + [sample];
      assert Within(samples, lo, hi);
    }
  }
}
