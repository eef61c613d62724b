/** The size of the network estimated from how full the buckets are, in 64-bit arithmetic. */
module NetworkSize {
  import opened Ids
  import RoutingSpec
  import RoutingInvariant

  const ULLONG_BITS := 64
  const BUCKET_BITS := 5
  const MAX_SHIFT := ULLONG_BITS - BUCKET_BITS - 1

  /** The first bucket that is not cut off as too big. */
  const FIRST_COUNTED := KEY_BITS - MAX_SHIFT

  /** Every value of this type fits in an unsigned 64-bit word. */
  type U64 = n: int | 0 <= n < 0x1_0000_0000_0000_0000

  /** The last empty bucket ends what was counted so far. */
  function RunStart(sizes: seq<nat>, i: nat): (r: nat)
    requires i <= |sizes|
    ensures r <= i && (r == 0 || sizes[r - 1] == 0)
    ensures forall j :: r <= j < i ==> sizes[j] != 0
  {
    if i == 0 then 0 else if sizes[i - 1] == 0 then i else RunStart(sizes, i - 1)
  }

  /** The first full bucket of those that count is the last one counted. */
  function RunEnd(sizes: seq<nat>, full: nat, i: nat): (e: nat)
    requires i <= |sizes|
    ensures e <= i
    ensures forall j :: FIRST_COUNTED <= j < e - 1 ==> sizes[j] != full
    ensures e < i ==> FIRST_COUNTED < e && sizes[e - 1] == full
  {
    if i == 0 then 0
    else
      var e := RunEnd(sizes, full, i - 1);
      if e < i - 1 || (FIRST_COUNTED < e && sizes[e - 1] == full) then e else i
  }

  function Max(a: nat, b: nat): nat {
    if a < b then b else a
  }

  /** Bucket `i` covers one part in 2^(160 - i) of the network. */
  function Peers(sizes: seq<nat>, lo: nat, hi: nat): nat
    requires hi <= |sizes| == KEY_BITS
  {
    if hi <= lo then 0 else Peers(sizes, lo, hi - 1) + Pow2(KEY_BITS - (hi - 1)) * sizes[hi - 1]
  }

  function Average(sizes: seq<nat>, lo: nat, hi: nat): nat
    requires hi <= |sizes| == KEY_BITS
  {
    if hi <= lo then 0 else Quotient(Peers(sizes, lo, hi), hi - lo)
  }

  function Quotient(a: nat, b: nat): nat
    requires b > 0
  {
    a / b
  }

  /**
   * The average over the unbroken run of non-empty buckets between the last
   * empty and the first full one; zero if there is no such bucket.
   */
  function Estimate(sizes: seq<nat>, full: nat): nat
    requires |sizes| == KEY_BITS
  {
    Average(sizes, Max(FIRST_COUNTED, RunStart(sizes, |sizes|)), RunEnd(sizes, full, |sizes|))
  }

  // ---------------------------------------------------------------- no overflow

  lemma Pow2At58()
    ensures Pow2(58) == 0x0400_0000_0000_0000
  {
    assert Pow2(2) == 4;
    Pow2Byte(2);
    Pow2Byte(10);
    Pow2Byte(18);
    Pow2Byte(26);
    Pow2Byte(34);
    Pow2Byte(42);
    Pow2Byte(50);
  }

  lemma {:induction false} Pow2Monotone(m: nat, n: nat)
    requires m <= n
    ensures Pow2(m) <= Pow2(n)
  {
    if m < n {
      Pow2Monotone(m, n - 1);
    }
  }

  lemma MulBound(p: nat, size: nat)
    requires size < 32
    ensures p * size <= 31 * p
    ensures p > 0 ==> (p * size != 0 <==> size != 0)
  {
    if size != 0 {
      assert p * size >= p;
    }
  }

  lemma PowBound(shift: nat)
    requires shift <= MAX_SHIFT
    ensures 0 < Pow2(shift) <= 0x0400_0000_0000_0000
  {
    Pow2At58();
    Pow2Monotone(shift, MAX_SHIFT);
  }

  lemma ProductFits(shift: nat, size: nat)
    requires shift <= MAX_SHIFT && size < 32
    ensures Pow2(shift) * size < 0x1_0000_0000_0000_0000
    ensures Pow2(shift) * size != 0 <==> size != 0
  {
    PowBound(shift);
    MulBound(Pow2(shift), size);
  }

  lemma Pow2Double(n: nat)
    ensures Pow2(n + 1) == 2 * Pow2(n)
  {
  }

  /** The sum of a geometric series bounds the peers counted. */
  lemma {:induction false} PeersBound(sizes: seq<nat>, lo: nat, hi: nat, top: nat)
    requires lo <= hi <= |sizes| == KEY_BITS && top == KEY_BITS + 1 - hi
    requires forall j :: 0 <= j < KEY_BITS ==> sizes[j] < 32
    ensures Peers(sizes, lo, hi) + 31 * Pow2(top) <= 31 * Pow2(KEY_BITS + 1 - lo)
  {
    if lo < hi {
      PeersBound(sizes, lo, hi - 1, top + 1);
      Pow2Double(top);
      MulBound(Pow2(top), sizes[hi - 1]);
    }
  }

  lemma SumFits(sizes: seq<nat>, lo: nat, hi: nat)
    requires FIRST_COUNTED <= lo && hi <= |sizes| == KEY_BITS
    requires forall j :: 0 <= j < KEY_BITS ==> sizes[j] < 32
    ensures Peers(sizes, lo, hi) < 0x1_0000_0000_0000_0000
  {
    if lo < hi {
      PeersBound(sizes, lo, hi, KEY_BITS + 1 - hi);
      Pow2Monotone(KEY_BITS + 1 - lo, MAX_SHIFT + 1);
      Pow2Double(MAX_SHIFT);
      Pow2At58();
    }
  }

  /** The buckets counted among the first `i`. */
  predicate Counted(sizes: seq<nat>, full: nat, i: nat, sum: nat, count: nat)
    requires i <= |sizes| == KEY_BITS
  {
    var lo, hi := Max(FIRST_COUNTED, RunStart(sizes, i)), RunEnd(sizes, full, i);
    sum == Peers(sizes, lo, hi) && count == if hi <= lo then 0 else hi - lo
  }

  /** Full bucket seen: nothing more is counted. */
  predicate Stopped(sizes: seq<nat>, full: nat, i: nat)
    requires i <= |sizes|
  {
    exists j :: FIRST_COUNTED <= j < i && sizes[j] == full
  }

  /** How the counted range grows by one bucket. */
  lemma CountNext(sizes: seq<nat>, full: nat, i: nat, sum: nat, count: nat)
    requires i < |sizes| == KEY_BITS && full > 0 && Counted(sizes, full, i, sum, count)
    ensures sizes[i] == 0 ==> Counted(sizes, full, i + 1, 0, 0)
    ensures sizes[i] != 0 && (i < FIRST_COUNTED || Stopped(sizes, full, i)) ==> Counted(sizes, full, i + 1, sum, count)
    ensures sizes[i] != 0 && FIRST_COUNTED <= i && !Stopped(sizes, full, i) ==>
              Counted(sizes, full, i + 1, sum + Pow2(KEY_BITS - i) * sizes[i], count + 1)
  {
    var lo, hi := Max(FIRST_COUNTED, RunStart(sizes, i)), RunEnd(sizes, full, i);
    assert hi < i ==> sizes[hi - 1] == full;
    assert Stopped(sizes, full, i) <==> (FIRST_COUNTED < hi && sizes[hi - 1] == full);
  }

  /**
   * The averaging loop over the buckets.  The variables are 64-bit words: with
   * fewer than 32 entries in every bucket nothing in it can overflow.
   */
  method CalcNetworkSize(sizes: seq<nat>, nodesPerBucket: nat) returns (netSize: nat)
    requires |sizes| == KEY_BITS && nodesPerBucket > 0
    requires forall j :: 0 <= j < KEY_BITS ==> sizes[j] < 32
    ensures netSize == Estimate(sizes, nodesPerBucket) % 0x1_0000_0000
  {
    var sum: U64, noPeers: U64, count: nat := 0, 0, 0;
    var doPrint, doAvg := false, false;
    for i := 0 to KEY_BITS
      invariant 0 <= count <= i && Counted(sizes, nodesPerBucket, i, sum, count)
      invariant !doPrint ==> forall j :: 0 <= j < i ==> sizes[j] == 0
      invariant doAvg <==> doPrint && !Stopped(sizes, nodesPerBucket, i)
    {
      sum, noPeers, count, doPrint, doAvg := CountBucket(sizes, nodesPerBucket, i, sum, noPeers, count, doPrint, doAvg);
    }
    netSize := 0;
    if count != 0 {
      netSize := Quotient(sum, count) % 0x1_0000_0000;
    }
  }

  lemma StoppedNext(sizes: seq<nat>, full: nat, i: nat)
    requires i < |sizes|
    ensures Stopped(sizes, full, i + 1) <==> Stopped(sizes, full, i) || (FIRST_COUNTED <= i && sizes[i] == full)
  {
  }

  /** One turn of the loop. */
  method CountBucket(sizes: seq<nat>, nodesPerBucket: nat, i: nat, sum0: U64, noPeers0: U64, count0: nat,
                     doPrint0: bool, doAvg0: bool)
    returns (sum: U64, noPeers: U64, count: nat, doPrint: bool, doAvg: bool)
    requires i < |sizes| == KEY_BITS && nodesPerBucket > 0
    requires forall j :: 0 <= j < KEY_BITS ==> sizes[j] < 32
    requires Counted(sizes, nodesPerBucket, i, sum0, count0)
    requires !doPrint0 ==> forall j :: 0 <= j < i ==> sizes[j] == 0
    requires doAvg0 <==> doPrint0 && !Stopped(sizes, nodesPerBucket, i)
    ensures doPrint <==> doPrint0 || sizes[i] != 0
    ensures doAvg <==> doPrint && !Stopped(sizes, nodesPerBucket, i + 1)
    ensures Counted(sizes, nodesPerBucket, i + 1, sum, count) && count <= count0 + 1
  {
    ghost var lo, hi := Max(FIRST_COUNTED, RunStart(sizes, i + 1)), RunEnd(sizes, nodesPerBucket, i + 1);
    SumFits(sizes, lo, hi);
    CountNext(sizes, nodesPerBucket, i, sum0, count0);
    StoppedNext(sizes, nodesPerBucket, i);
    sum, noPeers, count, doPrint, doAvg := sum0, noPeers0, count0, doPrint0, doAvg0;
    var size := sizes[i];
    if size != 0 && !doAvg && !doPrint {
      doAvg := true;
    }
    if size != 0 && !doPrint {
      doPrint := true;
    }
    if size == 0 {
      sum, noPeers, count := 0, 0, 0;
    }
    var toBig: bool;
    noPeers, toBig := Estimated(size, i, noPeers);
    if doPrint && doAvg && !toBig {
      if size == nodesPerBucket {
        doAvg := false;
      }
      if noPeers != 0 {
        sum := sum + noPeers;
        count := count + 1;
      }
    }
  }

  /** The peers that a bucket stands for, unless it is cut off as too big. */
  method Estimated(size: nat, i: nat, noPeers0: U64) returns (noPeers: U64, toBig: bool)
    requires size < 32 && i < KEY_BITS
    ensures toBig == (i < FIRST_COUNTED)
    ensures noPeers == if toBig then noPeers0 else Pow2(KEY_BITS - i) * size
    ensures !toBig ==> (noPeers != 0 <==> size != 0)
  {
    noPeers := noPeers0;
    var shift: int := KEY_BITS - i;
    toBig := false;
    if shift > ULLONG_BITS - BUCKET_BITS - 1 {
      toBig := true;
      shift := ULLONG_BITS - BUCKET_BITS - 1;
    }
    ProductFits(shift, size);
    PowBound(shift);
    var noNets: U64 := Pow2(shift);
    if !toBig {
      noPeers := noNets * size;
    }
  }

  /** The routing table meets what the estimate needs if a bucket holds fewer than 32 nodes. */
  lemma TableSizesFit(t: RoutingSpec.Table, now: int)
    requires RoutingInvariant.TableOk(t, now) && t.nodesPerBucket < 32
    ensures forall i :: 0 <= i < |t.buckets| ==> |t.buckets[i]| < 32
  {
    forall i | 0 <= i < |t.buckets|
      ensures |t.buckets[i]| < 32
    {
      assert RoutingInvariant.BucketOk(t.buckets[i], t.own, i, t.nodesPerBucket, now);
    }
  }
}
