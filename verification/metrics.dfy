/** The transfer counters and running averages that the relay keeps (src/copy.c). */
module MetricsCounters {
  import opened Bytes

  function Sum(xs: seq<nat>): nat {
    if xs == [] then 0 else Sum(xs[..|xs| - 1]) + xs[|xs| - 1]
  }

  /** The average after one more transfer of n octets, with C's truncating division. */
  function Update(average: nat, total: nat, n: nat): nat {
    if total == 0 then n else (average * total + n) / (total + 1)
  }

  /** The running average after the transfers xs. */
  function Average(xs: seq<nat>): nat {
    if xs == [] then 0 else Update(Average(xs[..|xs| - 1]), |xs| - 1, xs[|xs| - 1])
  }

  lemma MulMono(a: nat, b: nat, c: nat)
    requires a <= b
    ensures a * c <= b * c
  {
  }

  lemma DivBounds(num: nat, den: nat)
    requires den > 0
    ensures den * (num / den) <= num < den * (num / den) + den
  {
  }

  lemma QuotientBetween(num: nat, den: nat, q: nat, lo: nat, hi: nat)
    requires q * den <= num < (q + 1) * den && lo * den <= num <= hi * den
    ensures lo <= q <= hi
  {
  }

  /** One update loses less than the new count of transfers: the drift s - k*a grows by at most k. */
  lemma UpdateDrift(a: nat, k: nat, x: nat, s: int)
    requires k > 0 && k * a <= s && 2 * (s - k * a) <= k * (k - 1)
    ensures (k + 1) * Update(a, k, x) <= s + x
    ensures 2 * (s + x - (k + 1) * Update(a, k, x)) <= (k + 1) * k
  {
  }

  /** The truncated average never exceeds the mean, and drifts from k times it by at most k(k-1)/2. */
  lemma {:induction false} AverageDrift(xs: seq<nat>)
    ensures |xs| * Average(xs) <= Sum(xs)
    ensures 2 * (Sum(xs) - |xs| * Average(xs)) <= |xs| * (|xs| - 1)
    decreases |xs|
  {
    if |xs| > 1 {
      var k := |xs| - 1;
      AverageDrift(xs[..k]);
      UpdateDrift(Average(xs[..k]), k, xs[k], Sum(xs[..k]));
    } else if |xs| == 1 {
      assert xs[..0] == [];
      assert Sum(xs) == Sum(xs[..0]) + xs[0] == xs[0];
    }
  }

  lemma UpdateBetween(a: nat, k: nat, x: nat, lo: nat, hi: nat)
    requires k > 0 && lo <= a <= hi && lo <= x <= hi
    ensures lo <= Update(a, k, x) <= hi
  {
    MulMono(lo, a, k);
    MulMono(a, hi, k);
    assert lo * (k + 1) == lo * k + lo && hi * (k + 1) == hi * k + hi;
    var q := Update(a, k, x);
    DivBounds(a * k + x, k + 1);
    assert (q + 1) * (k + 1) == (k + 1) * q + (k + 1);
    QuotientBetween(a * k + x, k + 1, q, lo, hi);
  }

  /** The running average lies between the smallest and the largest transfer. */
  lemma {:induction false} AverageBetween(xs: seq<nat>, lo: nat, hi: nat)
    requires xs != [] && forall k :: 0 <= k < |xs| ==> lo <= xs[k] <= hi
    ensures lo <= Average(xs) <= hi
    decreases |xs|
  {
    var k := |xs| - 1;
    if k > 0 {
      AverageBetween(xs[..k], lo, hi);
      UpdateBetween(Average(xs[..k]), k, xs[k], lo, hi);
    }
  }

  const SIZE_T_VALUES := 0x1_0000_0000_0000_0000

  /** The conversion to a 64-bit size_t. */
  function SizeT(x: int): nat {
    x % SIZE_T_VALUES
  }

  function Quotient(x: nat, d: nat): nat
    requires d > 0
  {
    x / d
  }

  /** The same update computed in a 64-bit size_t. */
  function Update64(average: nat, total: nat, n: nat): nat
    requires total + 1 < SIZE_T_VALUES
  {
    var product: nat := average * total;
    if total == 0 then SizeT(n) else Quotient(SizeT(SizeT(product) + n), total + 1)
  }

  lemma SizeTFits(x: nat)
    requires x < SIZE_T_VALUES
    ensures SizeT(x) == x
  {
  }

  /** While transfers fit the relay's 2048-octet buffers, size_t does not wrap before 2^53 - 1 transfers. */
  lemma UpdateFitsSizeT(average: nat, total: nat, n: nat)
    requires average <= 2048 && n <= 2048 && total + 1 < 0x20_0000_0000_0000
    ensures Update64(average, total, n) == Update(average, total, n)
  {
    hide SizeT;
    MulMono(average, 2048, total);
    SizeTFits(n);
    SizeTFits(average * total);
    SizeTFits(average * total + n);
  }

  /** The running average as the 64-bit code computes it. */
  function Average64(xs: seq<nat>): nat
    requires |xs| < SIZE_T_VALUES
  {
    if xs == [] then 0 else Update64(Average64(xs[..|xs| - 1]), |xs| - 1, xs[|xs| - 1])
  }

  /** Of fewer than 2^53 transfers that fit the relay's buffers, the 64-bit code computes the ideal average. */
  lemma {:induction false} AverageFitsSizeT(xs: seq<nat>)
    requires |xs| < 0x20_0000_0000_0000 && forall k :: 0 <= k < |xs| ==> xs[k] <= 2048
    ensures Average64(xs) == Average(xs)
    decreases |xs|
  {
    hide Update, Update64;
    if xs != [] {
      var k := |xs| - 1;
      AverageFitsSizeT(xs[..k]);
      if k > 0 {
        AverageBetween(xs[..k], 0, 2048);
      }
      UpdateFitsSizeT(Average(xs[..k]), k, xs[k]);
    }
  }

  /** The eight counters that management connections may ask for. */
  datatype Counters = Counters(
    historicConnections: nat,
    concurrentConnections: nat,
    maxConcurrentConnections: nat,
    historicBytesTransferred: nat,
    historicAuthAttempts: nat,
    historicConnectionAttempts: nat,
    averageBytesPerRead: nat,
    averageBytesPerWrite: nat)

  /** The greatest of the numbers of connections there have been at a time, or none. */
  ghost predicate IsPeak(levels: seq<int>, max: int) {
    max >= 0 && (max == 0 || max in levels) && forall k :: 0 <= k < |levels| ==> levels[k] <= max
  }

  class Metrics {
    var historicByteTransfer: nat
    var averageBytesPerRead: nat
    var totalReads: nat
    var averageBytesPerWrite: nat
    var totalWrites: nat
    var historicConnections: nat
    var concurrentConnections: int
    var maxConcurrentConnections: nat
    var historicAuthAttempts: nat
    var historicConnectionsAttempts: nat

    /** Every transfer so far, oldest first; and every number of connections there has been at a time. */
    ghost var readLog: seq<nat>
    ghost var writeLog: seq<nat>
    ghost var levels: seq<int>

    ghost predicate Valid()
      reads this
    {
      && totalReads == |readLog| && averageBytesPerRead == Average(readLog)
      && totalWrites == |writeLog| && averageBytesPerWrite == Average(writeLog)
      && historicByteTransfer == Sum(readLog) + Sum(writeLog)
      && IsPeak(levels, maxConcurrentConnections)
    }

    ghost function Value(): Counters
      reads this
    {
      Counters(historicConnections, SizeT(concurrentConnections), maxConcurrentConnections, historicByteTransfer,
               historicAuthAttempts, historicConnectionsAttempts, averageBytesPerRead, averageBytesPerWrite)
    }

    constructor ()
      ensures Valid() && readLog == [] && writeLog == [] && levels == []
      ensures Value() == Counters(0, 0, 0, 0, 0, 0, 0, 0) && concurrentConnections == 0
    {
      historicByteTransfer, averageBytesPerRead, totalReads := 0, 0, 0;
      averageBytesPerWrite, totalWrites := 0, 0;
      historicConnections, concurrentConnections, maxConcurrentConnections := 0, 0, 0;
      historicAuthAttempts, historicConnectionsAttempts := 0, 0;
      readLog, writeLog, levels := [], [], [];
    }

    method AddRead(n: nat)
      requires Valid()
      modifies this`historicByteTransfer, this`averageBytesPerRead, this`totalReads, this`readLog
      ensures Valid() && readLog == old(readLog) + [n]
    {
      if totalReads == 0 {
        averageBytesPerRead := n;
      } else {
        averageBytesPerRead := (averageBytesPerRead * totalReads + n) / (totalReads + 1);
      }
      totalReads := totalReads + 1;
      historicByteTransfer := historicByteTransfer + n;
      readLog := readLog + [n];
      assert readLog[..|readLog| - 1] == old(readLog);
    }

    method AddWrite(n: nat)
      requires Valid()
      modifies this`historicByteTransfer, this`averageBytesPerWrite, this`totalWrites, this`writeLog
      ensures Valid() && writeLog == old(writeLog) + [n]
    {
      historicByteTransfer := historicByteTransfer + n;
      if totalWrites == 0 {
        averageBytesPerWrite := n;
      } else {
        averageBytesPerWrite := (averageBytesPerWrite * totalWrites + n) / (totalWrites + 1);
      }
      totalWrites := totalWrites + 1;
      writeLog := writeLog + [n];
      assert writeLog[..|writeLog| - 1] == old(writeLog);
    }

    /** connecting_write, on a connected descriptor. */
    method BeginConnection()
      requires Valid()
      modifies this`historicConnections, this`concurrentConnections, this`maxConcurrentConnections, this`levels
      ensures Valid() && historicConnections == old(historicConnections) + 1
      ensures concurrentConnections == old(concurrentConnections) + 1
      ensures levels == old(levels) + [concurrentConnections]
    {
      historicConnections := historicConnections + 1;
      concurrentConnections := concurrentConnections + 1;
      if concurrentConnections > maxConcurrentConnections {
        maxConcurrentConnections := concurrentConnections;
      }
      levels := levels + [concurrentConnections];
    }

    /** The end of copy_read and copy_write, when they end the relay. */
    method EndConnection()
      requires Valid()
      modifies this`concurrentConnections
      ensures Valid() && concurrentConnections == old(concurrentConnections) - 1
    {
      concurrentConnections := concurrentConnections - 1;
    }

    /** auth_process. */
    method CountAuthentication()
      requires Valid()
      modifies this`historicAuthAttempts
      ensures Valid() && historicAuthAttempts == old(historicAuthAttempts) + 1
    {
      historicAuthAttempts := historicAuthAttempts + 1;
    }

    /** connection. */
    method CountAttempt()
      requires Valid()
      modifies this`historicConnectionsAttempts
      ensures Valid() && historicConnectionsAttempts == old(historicConnectionsAttempts) + 1
    {
      historicConnectionsAttempts := historicConnectionsAttempts + 1;
    }
  }
}
