/**
 * The statistics the container code gathers from the processes of a job: the
 * memory counters of each process still running and the job's processor times,
 * with the 64-bit arithmetic the code does on them.
 */
module ProcessStatistics {
  import opened Wrappers
  import opened Faults

  /** 2^64, the number of 64-bit values. */
  const Modulus64: int := 0x1_0000_0000_0000_0000
  /** 2^63, the first value above the signed 64-bit range. */
  const Half64: int := 0x8000_0000_0000_0000

  predicate IsInt64(x: int)
  {
    -Half64 <= x < Half64
  }

  /** Unchecked conversion of an integer to a signed 64-bit value (two's complement wrap-around). */
  function WrapInt64(x: int): (r: int)
    ensures IsInt64(r) && (r - x) % Modulus64 == 0
    ensures IsInt64(x) ==> r == x
  {
    var m := x % Modulus64;
    if m >= Half64 then m - Modulus64 else m
  }

  /** Unchecked conversion of an integer to an unsigned 64-bit value. */
  function WrapUInt64(x: int): (r: int)
    ensures 0 <= r < Modulus64 && (r - x) % Modulus64 == 0
    ensures 0 <= x < Modulus64 ==> r == x
  {
    x % Modulus64
  }

  /** Wrapping the running total at each step wraps the total once. */
  lemma WrapInt64Add(total: int, x: int)
    ensures WrapInt64(WrapInt64(total) + x) == WrapInt64(total + x)
  {
    var w := WrapInt64(total);
    var j := (w - total) / Modulus64;
    assert w - total == j * Modulus64;
    AddMultiple(total + x, j);
    assert w + x == (total + x) + j * Modulus64;
  }

  /** Adding a multiple of 2^64 leaves the remainder unchanged. */
  lemma AddMultiple(y: int, j: int)
    ensures (y + j * Modulus64) % Modulus64 == y % Modulus64
  {
    var q := y / Modulus64;
    var m := y % Modulus64;
    assert y + j * Modulus64 == (q + j) * Modulus64 + m;
  }

  /** The same for unsigned totals of wrapped terms. */
  lemma WrapUInt64Add(total: int, x: int)
    ensures WrapUInt64(WrapUInt64(total) + WrapUInt64(x)) == WrapUInt64(total + x)
  {
  }

  /** The memory counters of one process, as the 64-bit values the system reports. */
  datatype ProcessSample = ProcessSample(privateMemoryBytes: int, pagedMemoryBytes: int, workingSet: int)

  /** The processor times a job reports, in ticks of 100 ns. */
  datatype CpuStatistics = CpuStatistics(totalKernelTime: int, totalUserTime: int)

  /** The counters a total is taken of. */
  datatype Counter = PrivateMemory | PagedMemory | WorkingSet

  function CounterOf(p: ProcessSample, c: Counter): int
  {
    match c
    case PrivateMemory => p.privateMemoryBytes
    case PagedMemory => p.pagedMemoryBytes
    case WorkingSet => p.workingSet
  }

  /** The exact total of a counter over some processes. */
  function Total(ps: seq<ProcessSample>, c: Counter): int
  {
    if |ps| == 0 then 0 else Total(ps[..|ps| - 1], c) + CounterOf(ps[|ps| - 1], c)
  }

  /**
   * The processes of `ids` that are still running, in order: looking an id up
   * finds nothing once its process is gone, and those are skipped.
   */
  function Found(ids: seq<int>, running: map<int, ProcessSample>): (r: seq<ProcessSample>)
    ensures |r| <= |ids|
    ensures forall p :: p in r ==> exists i :: 0 <= i < |ids| && ids[i] in running && running[ids[i]] == p
    ensures forall i :: 0 <= i < |ids| && ids[i] in running ==> running[ids[i]] in r
  {
    if |ids| == 0 then []
    else
      var rest := Found(ids[1..], running);
      assert forall i :: 1 <= i < |ids| ==> ids[i] == ids[1..][i - 1];
      if ids[0] in running then [running[ids[0]]] + rest else rest
  }

  /** `TimeSpan + TimeSpan`: the sum, or OverflowException when it leaves the 64-bit tick range. */
  function AddTimes(a: int, b: int): (r: Result<int, Exception>)
    ensures r.Success? <==> IsInt64(a + b)
    ensures r.Success? ==> r.value == a + b
    ensures r.Failure? ==> r.error == Overflow
  {
    if IsInt64(a + b) then Success(a + b) else Failure(Overflow)
  }
}
