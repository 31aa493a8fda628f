/**
 The contract a job's workload must keep, and the scan of the default one.

 Each law is a predicate over named arguments. A proof that needs an instance
 asserts it by name, so the solver never rewrites with a law on its own.
 */
module Workloads {
  import opened Base

  datatype Workload = Workload(
    compute: (Message, u64, u64) -> Partial,
    merge: (Partial, Partial) -> Partial,
    zero: Partial)

  predicate Commutes(w: Workload, a: Partial, b: Partial) {
    w.merge(a, b) == w.merge(b, a)
  }

  predicate Associates(w: Workload, a: Partial, b: Partial, c: Partial) {
    w.merge(w.merge(a, b), c) == w.merge(a, w.merge(b, c))
  }

  predicate Idempotent(w: Workload, a: Partial) {
    w.merge(a, a) == a
  }

  predicate HasIdentity(w: Workload, a: Partial) {
    w.merge(w.zero, a) == a
  }

  /** Zero is the answer for an empty range. */
  predicate EmptyIsZero(w: Workload, msg: Message, lo: u64, hi: u64) {
    hi <= lo ==> w.compute(msg, lo, hi) == w.zero
  }

  /** A job splits into independent ranges. */
  predicate Splits(w: Workload, msg: Message, lo: u64, mid: u64, hi: u64) {
    lo <= mid <= hi ==> w.merge(w.compute(msg, lo, mid), w.compute(msg, mid, hi)) == w.compute(msg, lo, hi)
  }

  ghost predicate Lawful(w: Workload) {
    && (forall a, b :: Commutes(w, a, b))
    && (forall a, b, c :: Associates(w, a, b, c))
    && (forall a :: Idempotent(w, a))
    && (forall a :: HasIdentity(w, a))
    && (forall msg, lo, hi :: EmptyIsZero(w, msg, lo, hi))
    && (forall msg, lo, mid, hi :: Splits(w, msg, lo, mid, hi))
  }
}

/** The hash search workload, for every hash function. */
module HashSearch {
  import opened Base
  import opened Workloads

  /** SHA-256 of the message and the nonce, cut to 8 bytes, is a parameter. */
  type HashFn = (Message, u64) -> u64

  const ZERO := Partial(TWO_64 - 1, TWO_64 - 1)

  predicate Before(a: Partial, b: Partial) {
    a.hash < b.hash || (a.hash == b.hash && a.nonce < b.nonce)
  }

  function Merge(a: Partial, b: Partial): Partial {
    if Before(b, a) then b else a
  }

  /** The scan of [lo, hi), front to back. */
  function Scan(h: HashFn, msg: Message, lo: u64, hi: u64): Partial
    decreases hi - lo
  {
    if hi <= lo then ZERO
    else Merge(Scan(h, msg, lo, hi - 1), Partial(h(msg, hi - 1), hi - 1))
  }

  function Instance(h: HashFn): Workload {
    Workload((msg: Message, lo: u64, hi: u64) => Scan(h, msg, lo, hi), Merge, ZERO)
  }

  /** The loop of Compute: the least (hash, nonce) pair of the range. */
  method Compute(h: HashFn, msg: Message, lo: u64, hi: u64) returns (best: Partial)
    ensures best == Scan(h, msg, lo, hi) && Least(h, msg, lo, hi, best)
  {
    best := ZERO;
    var nonce := lo;
    while nonce < hi
      invariant lo <= nonce && (nonce <= hi || nonce == lo)
      invariant best == Scan(h, msg, lo, nonce)
      invariant Least(h, msg, lo, nonce, best)
    {
      var candidate := h(msg, nonce);
      if candidate < best.hash || (candidate == best.hash && nonce < best.nonce) {
        best := Partial(candidate, nonce);
      }
      nonce := nonce + 1;
    }
  }

  lemma {:induction false} ScanSplits(h: HashFn, msg: Message, lo: u64, mid: u64, hi: u64)
    requires lo <= mid <= hi
    ensures Merge(Scan(h, msg, lo, mid), Scan(h, msg, mid, hi)) == Scan(h, msg, lo, hi)
    decreases hi
  {
    if mid < hi {
      ScanSplits(h, msg, lo, mid, hi - 1);
    }
  }

  /** best has the least hash of the range, at the least nonce that has it; an empty range gives the greatest pair there is. */
  ghost predicate Least(h: HashFn, msg: Message, lo: u64, hi: u64, best: Partial) {
    && (forall n: u64 | lo <= n < hi :: best.hash <= h(msg, n) && (h(msg, n) == best.hash ==> best.nonce <= n))
    && (lo < hi ==> lo <= best.nonce < hi && h(msg, best.nonce) == best.hash)
    && (hi <= lo ==> best.hash == TWO_64 - 1 && best.nonce == TWO_64 - 1)
  }

  /** Merge keeps the smaller hash, and on equal hashes the smaller nonce. */
  lemma MergeIsLeast(a: Partial, b: Partial)
    ensures var m := Merge(a, b);
            && (m == a || m == b) && m.hash <= a.hash && m.hash <= b.hash
            && (m.hash == a.hash ==> m.nonce <= a.nonce) && (m.hash == b.hash ==> m.nonce <= b.nonce)
  {}

  lemma {:induction false} ScanIsLeast(h: HashFn, msg: Message, lo: u64, hi: u64)
    ensures Least(h, msg, lo, hi, Scan(h, msg, lo, hi))
    decreases hi
  {
    if lo < hi {
      ScanIsLeast(h, msg, lo, hi - 1);
      MergeIsLeast(Scan(h, msg, lo, hi - 1), Partial(h(msg, hi - 1), hi - 1));
    }
  }

  /** Hash search keeps every law of the contract. */
  lemma InstanceIsLawful(h: HashFn)
    ensures Lawful(Instance(h))
  {
    var w := Instance(h);
    forall msg, lo, mid, hi ensures Splits(w, msg, lo, mid, hi) {
      if lo <= mid <= hi { ScanSplits(h, msg, lo, mid, hi); }
    }
  }
}
