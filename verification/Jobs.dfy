/**
 Cutting a job into tasks and folding their results back together: `split` and
 `feed` of the scheduler, and the algebra that makes order and repetition
 harmless.
 */
module Jobs {
  import opened Base
  import opened Workloads

  const MAX_CHUNKS_PER_JOB := 0x10_0000

  datatype JobSpec = JobSpec(id: u64, lo: u64, hi: u64, size: u64, n: u32, msg: Message)

  datatype Task = Task(id: TaskID, msg: Message, lo: u64, hi: u64)

  // ---------------------------------------------------------------- splitting

  /** The chunk width: chunkSize unless that would make too many tasks. */
  function ChunkWidth(span: u64, chunkSize: u64): (size: u64)
    requires chunkSize > 0
    ensures size > 0
  {
    DivisionBounds(span, MAX_CHUNKS_PER_JOB);
    if span / chunkSize >= MAX_CHUNKS_PER_JOB then span / MAX_CHUNKS_PER_JOB + 1 else chunkSize
  }

  function ChunkCount(span: u64, size: u64): (count: u64)
    requires size > 0
    ensures (count - 1) * size < span <= count * size
  {
    DivisionBounds(span, size);
    assert (span / size + 1) * size == span / size * size + size;
    assert (span / size - 1) * size == span / size * size - size;
    if span % size != 0 then span / size + 1 else span / size
  }

  /** How many tasks cover [lo, hi) and how wide each one is. */
  function Split(lo: u64, hi: u64, chunkSize: u64): (u32, u64)
    requires chunkSize > 0
  {
    if hi <= lo then (0, chunkSize)
    else
      var size := ChunkWidth(hi - lo, chunkSize);
      var count := ChunkCount(hi - lo, size);
      (if count > TWO_32 - 1 then TWO_32 - 1 else count, size)
  }

  /** At most 2^20 tasks, just enough of them; wider than chunkSize only if it must be, and then by as little as it takes. */
  lemma SplitIsExact(lo: u64, hi: u64, chunkSize: u64)
    requires chunkSize > 0
    ensures var (n, size) := Split(lo, hi, chunkSize);
            && n <= 1_048_576
            && (n == 0 <==> hi <= lo)
            && (lo < hi ==> (n - 1) * size < hi - lo <= n * size)
            && size >= chunkSize
            && (hi - lo < 1_048_576 * chunkSize ==> size == chunkSize)
            && (hi - lo >= 1_048_576 * chunkSize ==> (size - 1) * 1_048_576 <= hi - lo < size * 1_048_576)
  {
    if lo < hi {
      var span := hi - lo;
      var size := ChunkWidth(span, chunkSize);
      SizeBoundsCount(span, chunkSize, size);
      DivisionBounds(span, size);
      assert span / size + 1 <= MAX_CHUNKS_PER_JOB;
      DivisionThreshold(span, chunkSize);
      DivisionBounds(span, MAX_CHUNKS_PER_JOB);
    }
  }

  lemma DivisionBounds(a: int, d: int)
    requires 0 <= a && 0 < d
    ensures 0 <= a / d <= a
    ensures d * (a / d) <= a < d * (a / d) + d
    ensures a % d == a - d * (a / d)
  {
    if a / d > a {
      MulMono(1, d, a / d);
    }
  }

  lemma DivisionThreshold(span: int, d: int)
    requires 0 <= span && 0 < d
    ensures span / d >= MAX_CHUNKS_PER_JOB <==> span >= MAX_CHUNKS_PER_JOB * d
  {
    DivisionBounds(span, d);
    if span / d >= MAX_CHUNKS_PER_JOB {
      MulMono(MAX_CHUNKS_PER_JOB, span / d, d);
    } else {
      MulMono(span / d + 1, MAX_CHUNKS_PER_JOB, d);
    }
  }

  lemma SizeBoundsCount(span: int, chunkSize: int, size: int)
    requires 0 < span && 0 < chunkSize
    requires size == if span / chunkSize >= MAX_CHUNKS_PER_JOB then span / MAX_CHUNKS_PER_JOB + 1 else chunkSize
    ensures span / size < MAX_CHUNKS_PER_JOB
    ensures size >= chunkSize
  {
    if span / chunkSize >= MAX_CHUNKS_PER_JOB {
      DivisionBounds(span, size);
      if span / size >= MAX_CHUNKS_PER_JOB {
        MulMono(MAX_CHUNKS_PER_JOB, span / size, size);
      }
      DivisionBounds(span, chunkSize);
      MulMono(MAX_CHUNKS_PER_JOB, span / chunkSize, chunkSize);
    }
  }

  lemma MulMono(a: int, b: int, c: int)
    requires a <= b && 0 <= c
    ensures a * c <= b * c
  {}

  /** What `split` establishes and a recovered spec still satisfies. */
  ghost predicate Partitioned(s: JobSpec) {
    if s.hi <= s.lo then s.n == 0
    else s.size > 0 && 1 <= s.n && (s.n - 1) * s.size < s.hi - s.lo <= s.n * s.size
  }

  /** The bounds `feed` computes, in uint64 arithmetic. */
  function ChunkLo(s: JobSpec, i: u32): u64 { Wrap64(s.lo + Wrap64(i * s.size)) }

  function ChunkHi(s: JobSpec, i: u32): u64 {
    var lo := ChunkLo(s, i);
    if Wrap64(s.hi - lo) > s.size then Wrap64(lo + s.size) else s.hi
  }

  function TaskOf(s: JobSpec, i: u32): Task {
    Task(TaskID(s.id, i), s.msg, ChunkLo(s, i), ChunkHi(s, i))
  }

  lemma ChunkOffset(s: JobSpec, i: int)
    requires Partitioned(s) && 0 <= i < s.n
    ensures 0 <= i * s.size < s.hi - s.lo
    ensures (i + 1) * s.size == i * s.size + s.size
    ensures i + 1 < s.n ==> (i + 1) * s.size < s.hi - s.lo
    ensures i + 1 == s.n ==> s.hi - s.lo <= i * s.size + s.size
  {
    MulMono(0, i, s.size);
    MulMono(i, s.n - 1, s.size);
    assert (i + 1) * s.size == i * s.size + s.size;
    if i + 1 < s.n {
      MulMono(i + 1, s.n - 1, s.size);
    }
  }

  lemma WrapIsIdentity(x: int)
    requires 0 <= x < TWO_64
    ensures Wrap64(x) == x
  {}

  /** No intermediate value of `feed` wraps around. */
  lemma ChunkBounds(s: JobSpec, i: u32)
    requires Partitioned(s) && i < s.n
    ensures 0 <= i * s.size < TWO_64 && s.lo + i * s.size < s.hi
    ensures ChunkLo(s, i) == s.lo + i * s.size
    ensures ChunkHi(s, i) == if i + 1 < s.n then s.lo + (i + 1) * s.size else s.hi
    ensures ChunkLo(s, i) < ChunkHi(s, i) <= s.hi && ChunkHi(s, i) - ChunkLo(s, i) <= s.size
  {
    ChunkOffset(s, i);
    var offset := i * s.size;
    WrapIsIdentity(offset);
    WrapIsIdentity(s.lo + offset);
    WrapIsIdentity(s.hi - (s.lo + offset));
    if s.hi - (s.lo + offset) > s.size {
      WrapIsIdentity(s.lo + offset + s.size);
    }
  }

  /** Consecutive tasks touch, the first starts at lo and the last ends at hi. */
  lemma Adjacent(s: JobSpec, i: u32)
    requires Partitioned(s) && i < s.n
    ensures i == 0 ==> ChunkLo(s, i) == s.lo
    ensures i + 1 == s.n ==> ChunkHi(s, i) == s.hi
    ensures i + 1 < s.n ==> ChunkHi(s, i) == ChunkLo(s, i + 1)
  {
    ChunkBounds(s, i);
    if i + 1 < s.n { ChunkBounds(s, i + 1); }
  }

  /** Every point of the range lies in some task ... */
  lemma {:induction false} PartitionCovers(s: JobSpec, x: u64, k: u32) returns (i: u32)
    requires Partitioned(s) && 1 <= k <= s.n && s.lo <= x < ChunkHi(s, k - 1)
    ensures i < k && ChunkLo(s, i) <= x < ChunkHi(s, i)
  {
    Adjacent(s, k - 1);
    if ChunkLo(s, k - 1) <= x {
      i := k - 1;
    } else {
      Adjacent(s, k - 2);
      i := PartitionCovers(s, x, k - 1);
    }
  }

  /** ... and no two tasks overlap. */
  lemma PartitionIsDisjoint(s: JobSpec, i: u32, j: u32)
    requires Partitioned(s) && i < j < s.n
    ensures ChunkHi(s, i) <= ChunkLo(s, j)
  {
    ChunkBounds(s, i);
    ChunkBounds(s, j);
    MulMono(i + 1, j, s.size);
  }

  // ------------------------------------------------------------------ feeding

  /** The tasks a feeder still has to push once it has reached index i. */
  function Unfed(s: JobSpec, skip: set<u32>, i: u32): seq<Task>
    requires i <= s.n
    decreases s.n - i
  {
    if i == s.n then []
    else if i in skip then Unfed(s, skip, i + 1)
    else [TaskOf(s, i)] + Unfed(s, skip, i + 1)
  }

  /** The loop of `feed` when nothing cancels it. */
  method Feed(s: JobSpec, skip: set<u32>) returns (pushed: seq<Task>)
    ensures pushed == Unfed(s, skip, 0)
  {
    hide Wrap64;
    pushed := [];
    var i: u32 := 0;
    while i < s.n
      invariant i <= s.n
      invariant pushed + Unfed(s, skip, i) == Unfed(s, skip, 0)
    {
      if i !in skip {
        var lo := Wrap64(s.lo + Wrap64(i * s.size));
        var hi := s.hi;
        if Wrap64(hi - lo) > s.size {
          hi := Wrap64(lo + s.size);
        }
        pushed := pushed + [Task(TaskID(s.id, i), s.msg, lo, hi)];
      }
      i := i + 1;
    }
  }

  /** A feeder pushes exactly the tasks that are not skipped, in index order. */
  lemma {:induction false} UnfedIsExact(s: JobSpec, skip: set<u32>, i: u32)
    requires i <= s.n
    ensures forall t :: t in Unfed(s, skip, i) <==> i <= t.id.idx < s.n && t.id.idx !in skip && t == TaskOf(s, t.id.idx)
    ensures forall a, b :: 0 <= a < b < |Unfed(s, skip, i)| ==> Unfed(s, skip, i)[a].id.idx < Unfed(s, skip, i)[b].id.idx
    decreases s.n - i
  {
    if i < s.n {
      UnfedIsExact(s, skip, i + 1);
    }
  }

  // ------------------------------------------------------------------ folding

  /** The honest result of task i. */
  function ChunkAnswer(w: Workload, s: JobSpec, i: u32): Partial {
    w.compute(s.msg, ChunkLo(s, i), ChunkHi(s, i))
  }

  /** The sequential answer to a whole job. */
  function JobAnswer(w: Workload, s: JobSpec): Partial {
    w.compute(s.msg, s.lo, s.hi)
  }

  /** The merge of exactly the counted tasks below k. */
  function Acc(w: Workload, s: JobSpec, counted: set<u32>, k: nat): Partial
    requires k <= s.n
  {
    if k == 0 then w.zero
    else if k - 1 in counted then w.merge(Acc(w, s, counted, k - 1), ChunkAnswer(w, s, k - 1))
    else Acc(w, s, counted, k - 1)
  }

  lemma {:induction false} AccFrame(w: Workload, s: JobSpec, counted: set<u32>, i: u32, k: nat)
    requires k <= s.n && k <= i
    ensures Acc(w, s, counted + {i}, k) == Acc(w, s, counted, k)
  {
    if k > 0 { AccFrame(w, s, counted, i, k - 1); }
  }

  lemma {:induction false} AccEmpty(w: Workload, s: JobSpec, k: nat)
    requires k <= s.n
    ensures Acc(w, s, {}, k) == w.zero
  {
    if k > 0 { AccEmpty(w, s, k - 1); }
  }

  /** Counting one more task is one more merge, whatever its place in the order. */
  lemma {:induction false} AccInsert(w: Workload, s: JobSpec, counted: set<u32>, i: u32, k: nat)
    requires Lawful(w) && i < k <= s.n && i !in counted
    ensures Acc(w, s, counted + {i}, k) == w.merge(Acc(w, s, counted, k), ChunkAnswer(w, s, i))
  {
    if i == k - 1 {
      AccFrame(w, s, counted, i, k - 1);
    } else {
      AccInsert(w, s, counted, i, k - 1);
      var a, b, c := Acc(w, s, counted, k - 1), ChunkAnswer(w, s, i), ChunkAnswer(w, s, k - 1);
      assert Associates(w, a, b, c) && Commutes(w, b, c) && Associates(w, a, c, b);
    }
  }

  /** Merging a counted task again changes nothing. */
  lemma {:induction false} AccAbsorb(w: Workload, s: JobSpec, counted: set<u32>, i: u32, k: nat)
    requires Lawful(w) && i < k <= s.n && i in counted
    ensures w.merge(Acc(w, s, counted, k), ChunkAnswer(w, s, i)) == Acc(w, s, counted, k)
  {
    var a, b, c := Acc(w, s, counted, k - 1), ChunkAnswer(w, s, i), ChunkAnswer(w, s, k - 1);
    if i == k - 1 {
      assert Associates(w, a, b, b) && Idempotent(w, b);
    } else {
      AccAbsorb(w, s, counted, i, k - 1);
      assert Associates(w, a, b, c) && Commutes(w, b, c) && Associates(w, a, c, b);
    }
  }

  lemma ChunkJoins(w: Workload, s: JobSpec, i: u32)
    requires Lawful(w) && Partitioned(s) && 0 < i < s.n
    ensures w.merge(w.compute(s.msg, s.lo, ChunkHi(s, i - 1)), ChunkAnswer(w, s, i)) == w.compute(s.msg, s.lo, ChunkHi(s, i))
  {
    Adjacent(s, i - 1);
    ChunkBounds(s, i - 1);
    ChunkBounds(s, i);
    assert Splits(w, s.msg, s.lo, ChunkLo(s, i), ChunkHi(s, i));
  }

  /** Once every task is counted the accumulator is the sequential answer. */
  lemma {:induction false} AccFull(w: Workload, s: JobSpec, counted: set<u32>, k: nat)
    requires Lawful(w) && Partitioned(s) && k <= s.n
    requires forall i: u32 :: i < k ==> i in counted
    ensures k == 0 ==> Acc(w, s, counted, k) == w.zero
    ensures k > 0 ==> Acc(w, s, counted, k) == w.compute(s.msg, s.lo, ChunkHi(s, k - 1))
  {
    if k > 0 {
      AccFull(w, s, counted, k - 1);
      if k == 1 {
        Adjacent(s, 0);
        assert HasIdentity(w, ChunkAnswer(w, s, 0));
      } else {
        ChunkJoins(w, s, k - 1);
      }
    }
  }

  lemma AccComplete(w: Workload, s: JobSpec, counted: set<u32>)
    requires Lawful(w) && Partitioned(s)
    requires forall i: u32 :: i < s.n ==> i in counted
    ensures Acc(w, s, counted, s.n) == JobAnswer(w, s)
  {
    AccFull(w, s, counted, s.n);
    if s.n == 0 {
      assert EmptyIsZero(w, s.msg, s.lo, s.hi);
    } else {
      Adjacent(s, s.n - 1);
    }
  }

  /** Merge, from Zero, the results of a list of deliveries. */
  function FoldDeliveries(w: Workload, s: JobSpec, arrivals: seq<u32>): Partial {
    if arrivals == [] then w.zero
    else w.merge(FoldDeliveries(w, s, arrivals[..|arrivals| - 1]), ChunkAnswer(w, s, arrivals[|arrivals| - 1]))
  }

  function Seen(arrivals: seq<u32>): set<u32> { set i | i in arrivals }

  lemma {:induction false} FoldIsAcc(w: Workload, s: JobSpec, arrivals: seq<u32>)
    requires Lawful(w) && forall i :: i in arrivals ==> i < s.n
    ensures FoldDeliveries(w, s, arrivals) == Acc(w, s, Seen(arrivals), s.n)
  {
    if arrivals == [] {
      AccEmpty(w, s, s.n);
      assert Seen(arrivals) == {};
    } else {
      var front, last := arrivals[..|arrivals| - 1], arrivals[|arrivals| - 1];
      assert arrivals == front + [last] && forall i :: i in front ==> i in arrivals;
      FoldIsAcc(w, s, front);
      var before := Seen(front);
      assert Seen(arrivals) == before + {last};
      if last in before {
        assert before + {last} == before;
        AccAbsorb(w, s, before, last, s.n);
      } else {
        AccInsert(w, s, before, last, s.n);
      }
    }
  }

  /** Order and repetition do not matter. */
  lemma AnyOrderAnyRepetition(w: Workload, s: JobSpec, arrivals: seq<u32>)
    requires Lawful(w) && Partitioned(s)
    requires forall i :: i in arrivals ==> i < s.n
    requires forall i: u32 :: i < s.n ==> i in arrivals
    ensures FoldDeliveries(w, s, arrivals) == JobAnswer(w, s)
  {
    FoldIsAcc(w, s, arrivals);
    AccComplete(w, s, Seen(arrivals));
  }

  /** A set of n indices below n is all of them. */
  lemma {:induction false} CountIsFull(counted: set<u32>, n: u32)
    requires forall i :: i in counted ==> i < n
    ensures |counted| <= n
    ensures |counted| == n <==> forall i: u32 :: i < n ==> i in counted
  {
    if n > 0 {
      var rest := counted - {n - 1};
      CountIsFull(rest, n - 1);
    } else {
      assert counted == {};
    }
  }
}
