/** Node ids, peer addresses and the XOR metric of the DHT. */
module Ids {

  const KEY_LEN: nat := 20
  const KEY_BITS: nat := 160

  /** The bytes of an id, most significant first. */
  datatype Key = Key(data: seq<bv8>)

  type NodeId = k: Key | |k.data| == KEY_LEN
    witness Key([0, 0, 0, 0, 0, 0, 0, 0, 0, 0, 0, 0, 0, 0, 0, 0, 0, 0, 0, 0])

  /** A distance has the same layout as an id. */
  type Metric = NodeId

  /** An IPv4 address and a port, as the bytes lie in memory (network order). */
  datatype Ip = Ip(a: bv8, b: bv8, c: bv8, d: bv8)
  datatype Port = Port(hi: bv8, lo: bv8)
  datatype Addr = Addr(ip: Ip, port: Port)

  datatype BdId = BdId(id: NodeId, addr: Addr)

  const ZERO_IP := Ip(0, 0, 0, 0)
  const NO_ADDR := Addr(ZERO_IP, Port(0, 0))

  // ------------------------------------------------------------------ order

  /** Reference order: the first differing byte decides. */
  predicate LexLess(a: seq<bv8>, b: seq<bv8>)
    requires |a| == |b|
  {
    a != [] && (a[0] < b[0] || (a[0] == b[0] && LexLess(a[1..], b[1..])))
  }

  predicate Less(a: NodeId, b: NodeId) {
    LexLess(a.data, b.data)
  }

  /** The byte-wise comparison loop. */
  method LessThan(a: NodeId, b: NodeId) returns (r: bool)
    ensures r == Less(a, b)
  {
    var i := 0;
    while i < KEY_LEN
      invariant 0 <= i <= KEY_LEN
      invariant Less(a, b) == LexLess(a.data[i..], b.data[i..])
    {
      if a.data[i] < b.data[i] {
        return true;
      } else if a.data[i] > b.data[i] {
        return false;
      }
      i := i + 1;
    }
    return false;
  }

  // ------------------------------------------------------- numeric reading

  function Bit(b: bv8, mask: bv8, weight: nat): nat {
    if b & mask != 0 then weight else 0
  }

  function ByteValue(b: bv8): nat {
    Bit(b, 128, 128) + Bit(b, 64, 64) + Bit(b, 32, 32) + Bit(b, 16, 16)
    + Bit(b, 8, 8) + Bit(b, 4, 4) + Bit(b, 2, 2) + Bit(b, 1, 1)
  }

  /** The id read as one big-endian number. */
  function Value(s: seq<bv8>): nat {
    if s == [] then 0 else Value(s[..|s| - 1]) * 256 + ByteValue(s[|s| - 1])
  }

  lemma ByteOrder(x: bv8, y: bv8)
    ensures x < y <==> ByteValue(x) < ByteValue(y)
    ensures x == y <==> ByteValue(x) == ByteValue(y)
  {
  }

  lemma BitXor(x: bv8, y: bv8, mask: bv8)
    ensures (x ^ y) & mask != 0 ==> x & mask != 0 || y & mask != 0
  {
  }

  lemma BitOfXor(x: bv8, y: bv8, mask: bv8, weight: nat)
    ensures Bit(x ^ y, mask, weight) <= Bit(x, mask, weight) + Bit(y, mask, weight)
  {
    BitXor(x, y, mask);
  }

  lemma ByteXor(x: bv8, y: bv8)
    ensures ByteValue(XorByte(x, y)) <= ByteValue(x) + ByteValue(y)
  {
    hide Bit;
    BitOfXor(x, y, 128, 128);
    BitOfXor(x, y, 64, 64);
    BitOfXor(x, y, 32, 32);
    BitOfXor(x, y, 16, 16);
    BitOfXor(x, y, 8, 8);
    BitOfXor(x, y, 4, 4);
    BitOfXor(x, y, 2, 2);
    BitOfXor(x, y, 1, 1);
  }

  lemma ByteBound(x: bv8)
    ensures ByteValue(x) < 256
  {
  }

  /** The byte-wise order is the order of the numbers. */
  lemma {:induction false} LessIsNumeric(a: seq<bv8>, b: seq<bv8>)
    requires |a| == |b|
    ensures LexLess(a, b) <==> Value(a) < Value(b)
    ensures a == b <==> Value(a) == Value(b)
  {
    if a != [] {
      var n := |a| - 1;
      LessIsNumeric(a[..n], b[..n]);
      LexLast(a[..n], b[..n], a[n], b[n]);
      ByteOrder(a[n], b[n]);
      ByteBound(a[n]);
      ByteBound(b[n]);
      assert a == a[..n] + [a[n]] && b == b[..n] + [b[n]];
    }
  }

  lemma {:induction false} LexLast(a: seq<bv8>, b: seq<bv8>, x: bv8, y: bv8)
    requires |a| == |b|
    ensures LexLess(a + [x], b + [y]) <==> LexLess(a, b) || (a == b && x < y)
  {
    if a != [] {
      LexLast(a[1..], b[1..], x, y);
      assert (a + [x])[1..] == a[1..] + [x] && (b + [y])[1..] == b[1..] + [y];
      assert a == [a[0]] + a[1..] && b == [b[0]] + b[1..];
    } else {
      assert a + [x] == [x] && b + [y] == [y];
    }
  }

  /** The order on ids is a strict total order. */
  lemma LessIsStrictTotal(a: NodeId, b: NodeId, c: NodeId)
    ensures !Less(a, a)
    ensures Less(a, b) && Less(b, c) ==> Less(a, c)
    ensures a == b || Less(a, b) || Less(b, a)
    ensures !(Less(a, b) && Less(b, a))
  {
    LessIsNumeric(a.data, a.data);
    LessIsNumeric(a.data, b.data);
    LessIsNumeric(b.data, c.data);
    LessIsNumeric(a.data, c.data);
    LessIsNumeric(b.data, a.data);
  }

  // ----------------------------------------------------------- XOR distance

  function Xor(a: seq<bv8>, b: seq<bv8>): (r: seq<bv8>)
    requires |a| == |b|
    ensures |r| == |a|
  {
    seq(|a|, i requires 0 <= i < |a| => XorByte(a[i], b[i]))
  }

  function XorByte(x: bv8, y: bv8): bv8 {
    x ^ y
  }

  function Dist(a: NodeId, b: NodeId): Metric {
    Key(Xor(a.data, b.data))
  }

  /** The in-place XOR loop over the key. */
  method Distance(a: NodeId, b: NodeId, r: array<bv8>)
    requires r.Length == KEY_LEN
    modifies r
    ensures r[..] == Dist(a, b).data
  {
    for i := 0 to KEY_LEN
      invariant forall k :: 0 <= k < i ==> r[k] == a.data[k] ^ b.data[k]
    {
      r[i] := a.data[i] ^ b.data[i];
    }
  }

  lemma ValueZero(s: seq<bv8>)
    ensures Value(s) == 0 <==> forall i :: 0 <= i < |s| ==> s[i] == 0
  {
    if s != [] {
      var n := |s| - 1;
      ValueZero(s[..n]);
      ByteOrder(0, s[n]);
      assert forall i :: 0 <= i < n ==> s[..n][i] == s[i];
    }
  }

  /** Symmetric, and zero exactly between equal ids. */
  lemma DistIdentity(a: NodeId, b: NodeId)
    ensures Dist(a, b) == Dist(b, a)
    ensures Value(Dist(a, b).data) == 0 <==> a == b
  {
    assert Dist(a, b).data == Dist(b, a).data;
    ValueZero(Dist(a, b).data);
    XorZero(a, b);
  }

  lemma XorZero(a: NodeId, b: NodeId)
    ensures (forall i :: 0 <= i < KEY_LEN ==> Dist(a, b).data[i] == 0) <==> a == b
  {
    assert forall i :: 0 <= i < KEY_LEN ==> (Dist(a, b).data[i] == 0 <==> a.data[i] == b.data[i]);
    if forall i :: 0 <= i < KEY_LEN ==> a.data[i] == b.data[i] {
      assert a.data == b.data;
    }
  }

  lemma XorByteTwice(t: bv8, x: bv8)
    ensures XorByte(t, XorByte(t, x)) == x
  {
  }

  lemma XorTwice(t: seq<bv8>, a: seq<bv8>)
    requires |t| == |a|
    ensures Xor(t, Xor(t, a)) == a
  {
    forall i | 0 <= i < |a|
      ensures XorByte(t[i], XorByte(t[i], a[i])) == a[i]
    {
      XorByteTwice(t[i], a[i]);
    }
  }

  /** For a fixed target the distance determines the id. */
  lemma DistInjective(t: NodeId, a: NodeId, b: NodeId)
    requires Dist(t, a) == Dist(t, b)
    ensures a == b
  {
    XorTwice(t.data, a.data);
    XorTwice(t.data, b.data);
  }

  lemma XorPrefix(a: seq<bv8>, b: seq<bv8>, n: nat)
    requires n <= |a| == |b|
    ensures Xor(a, b)[..n] == Xor(a[..n], b[..n])
  {
  }

  lemma ByteTriangle(a: bv8, b: bv8, c: bv8)
    ensures ByteValue(XorByte(a, c)) <= ByteValue(XorByte(a, b)) + ByteValue(XorByte(b, c))
  {
    hide ByteValue, XorByte;
    XorChain(a, b, c);
    ByteXor(XorByte(a, b), XorByte(b, c));
  }

  lemma XorChain(a: bv8, b: bv8, c: bv8)
    ensures XorByte(XorByte(a, b), XorByte(b, c)) == XorByte(a, c)
  {
    hide ByteValue;
  }

  lemma {:induction false} XorTriangle(a: seq<bv8>, b: seq<bv8>, c: seq<bv8>)
    requires |a| == |b| == |c|
    ensures Value(Xor(a, c)) <= Value(Xor(a, b)) + Value(Xor(b, c))
  {
    if a != [] {
      var n := |a| - 1;
      XorTriangle(a[..n], b[..n], c[..n]);
      XorPrefix(a, c, n);
      XorPrefix(a, b, n);
      XorPrefix(b, c, n);
      ByteTriangle(a[n], b[n], c[n]);
    }
  }

  /** The triangle inequality of the metric. */
  lemma Triangle(a: NodeId, b: NodeId, c: NodeId)
    ensures Value(Dist(a, c).data) <= Value(Dist(a, b).data) + Value(Dist(b, c).data)
  {
    XorTriangle(a.data, b.data, c.data);
  }

  // ------------------------------------------------------------- the bucket

  function Pow2(n: nat): (p: nat)
    ensures p > 0
  {
    if n == 0 then 1 else 2 * Pow2(n - 1)
  }

  lemma Pow2Byte(n: nat)
    ensures Pow2(n + 8) == 256 * Pow2(n)
  {
    assert Pow2(n + 8) == 2 * Pow2(n + 7) == 4 * Pow2(n + 6) == 8 * Pow2(n + 5) == 16 * Pow2(n + 4);
    assert Pow2(n + 4) == 2 * Pow2(n + 3) == 4 * Pow2(n + 2) == 8 * Pow2(n + 1) == 16 * Pow2(n);
  }

  /** `1 << bit` in an unsigned char. */
  function Mask(bit: nat): bv8
    requires bit < 8
  {
    if bit == 7 then 128 else if bit == 6 then 64 else if bit == 5 then 32 else if bit == 4 then 16
    else if bit == 3 then 8 else if bit == 2 then 4 else if bit == 1 then 2 else 1
  }

  /** Bit `i` of an id, counted from the most significant one. */
  predicate BitSet(s: seq<bv8>, i: nat)
    requires i < 8 * |s|
  {
    Mask(7 - i % 8) & s[i / 8] != 0
  }

  /** The bucket of a distance by its size: it lies in [2^b, 2^(b+1)). */
  predicate InBucket(m: Metric, b: nat) {
    if Value(m.data) == 0 then b == 0 else Pow2(b) <= Value(m.data) < Pow2(b + 1)
  }

  /** Scans the bits from the top; yields the index of the highest set one. */
  method BucketDistance(m: Metric) returns (b: nat)
    ensures b < KEY_BITS && InBucket(m, b)
    ensures b == BucketOf(m)
  {
    for i := 0 to KEY_BITS
      invariant forall k :: 0 <= k < i ==> !BitSet(m.data, k)
    {
      var bit := KEY_BITS - i - 1;
      if BitSet(m.data, i) {
        TopBit(m.data, i);
        BucketUnique(m, bit, BucketOf(m));
        return bit;
      }
    }
    NoBit(m.data);
    BucketUnique(m, 0, BucketOf(m));
    return 0;
  }

  lemma NoBit(s: seq<bv8>)
    requires forall k :: 0 <= k < 8 * |s| ==> !BitSet(s, k)
    ensures Value(s) == 0
  {
    forall j | 0 <= j < |s|
      ensures s[j] == 0
    {
      ByteClear(s, j, 8);
      AllClear(s[j]);
    }
    ValueZero(s);
  }

  lemma BitIndex(s: seq<bv8>, j: nat, d: nat)
    requires j < |s| && d < 8
    ensures 8 * j + d < 8 * |s|
    ensures BitSet(s, 8 * j + d) <==> Mask(7 - d) & s[j] != 0
  {
  }

  /** The top `n` bits of byte `j` are clear. */
  lemma ByteClear(s: seq<bv8>, j: nat, n: nat)
    requires j < |s| && n <= 8
    requires forall k :: 8 * j <= k < 8 * j + n ==> !BitSet(s, k)
    ensures TopClear(s[j], n)
  {
    BitIndex(s, j, 0); BitIndex(s, j, 1); BitIndex(s, j, 2); BitIndex(s, j, 3);
    BitIndex(s, j, 4); BitIndex(s, j, 5); BitIndex(s, j, 6); BitIndex(s, j, 7);
  }

  predicate TopClear(b: bv8, n: nat) {
    && (n >= 1 ==> 128 & b == 0)
    && (n >= 2 ==> 64 & b == 0)
    && (n >= 3 ==> 32 & b == 0)
    && (n >= 4 ==> 16 & b == 0)
    && (n >= 5 ==> 8 & b == 0)
    && (n >= 6 ==> 4 & b == 0)
    && (n >= 7 ==> 2 & b == 0)
    && (n >= 8 ==> 1 & b == 0)
  }

  lemma AllClear(b: bv8)
    requires TopClear(b, 8)
    ensures b == 0
  {
  }

  /** The first set bit locates the number between two powers of two. */
  lemma {:induction false} TopBit(s: seq<bv8>, i: nat)
    requires i < 8 * |s| && BitSet(s, i)
    requires forall k :: 0 <= k < i ==> !BitSet(s, k)
    ensures Pow2(8 * |s| - i - 1) <= Value(s) < Pow2(8 * |s| - i)
  {
    hide ByteValue, Mask, Pow2;
    var n := |s| - 1;
    SameBits(s, n);
    if i < 8 * n {
      TopBit(s[..n], i);
      AppendByte(Value(s[..n]), s[n], 8 * n - i - 1);
    } else {
      NoBit(s[..n]);
      TopBitLast(s, i - 8 * n);
    }
  }

  lemma AppendByte(v: nat, b: bv8, p: nat)
    requires Pow2(p) <= v < Pow2(p + 1)
    ensures Pow2(p + 8) <= v * 256 + ByteValue(b) < Pow2(p + 9)
  {
    ByteBound(b);
    Pow2Byte(p);
    Pow2Byte(p + 1);
  }

  lemma TopBitLast(s: seq<bv8>, d: nat)
    requires s != [] && d < 8 && BitSet(s, 8 * (|s| - 1) + d)
    requires forall k :: 8 * (|s| - 1) <= k < 8 * (|s| - 1) + d ==> !BitSet(s, k)
    requires Value(s[..|s| - 1]) == 0
    ensures Pow2(7 - d) <= Value(s) < Pow2(8 - d)
  {
    ByteClear(s, |s| - 1, d);
    BitIndex(s, |s| - 1, d);
    TopBitOfByte(s[|s| - 1], d);
  }

  lemma SameBits(s: seq<bv8>, n: nat)
    requires n <= |s|
    ensures forall k :: 0 <= k < 8 * n ==> BitSet(s[..n], k) == BitSet(s, k)
  {
    forall k | 0 <= k < 8 * n
      ensures BitSet(s[..n], k) == BitSet(s, k)
    {
      assert s[..n][k / 8] == s[k / 8];
    }
  }

  lemma TopBitOfByte(b: bv8, d: nat)
    requires d < 8 && Mask(7 - d) & b != 0
    requires TopClear(b, d)
    ensures Pow2(7 - d) <= ByteValue(b) < Pow2(8 - d)
  {
    assert Pow2(1) == 2 && Pow2(2) == 4 && Pow2(3) == 8 && Pow2(4) == 16;
    assert Pow2(5) == 2 * Pow2(4) && Pow2(6) == 2 * Pow2(5) && Pow2(7) == 2 * Pow2(6) && Pow2(8) == 2 * Pow2(7);
  }

  lemma Pow2Grows(m: nat, n: nat)
    requires m < n
    ensures 2 * Pow2(m) <= Pow2(n)
  {
  }

  /** A distance has one bucket, so the bucket index is a function of it. */
  lemma BucketUnique(m: Metric, b: nat, c: nat)
    requires InBucket(m, b) && InBucket(m, c)
    ensures b == c
  {
    if b < c {
      Pow2Grows(b, c);
    } else if c < b {
      Pow2Grows(c, b);
    }
  }

  lemma {:induction false} ValueBelow(s: seq<bv8>)
    ensures Value(s) < Pow2(8 * |s|)
  {
    if s != [] {
      var n := |s| - 1;
      ValueBelow(s[..n]);
      ByteBound(s[n]);
      Pow2Byte(8 * n);
    }
  }

  lemma {:induction false} Log(v: nat, n: nat) returns (b: nat)
    requires 0 < v < Pow2(n)
    ensures b < n && Pow2(b) <= v < Pow2(b + 1)
  {
    if Pow2(n - 1) <= v {
      b := n - 1;
    } else {
      b := Log(v, n - 1);
    }
  }

  lemma BucketExists(m: Metric)
    ensures exists b: nat :: b < KEY_BITS && InBucket(m, b)
  {
    if Value(m.data) == 0 {
      assert InBucket(m, 0);
    } else {
      ValueBelow(m.data);
      var b := Log(Value(m.data), 8 * |m.data|);
      assert InBucket(m, b);
    }
  }

  /** The bucket of a distance. */
  ghost function BucketOf(m: Metric): (b: nat)
    ensures b < KEY_BITS && InBucket(m, b)
  {
    BucketExists(m);
    var b: nat :| b < KEY_BITS && InBucket(m, b);
    b
  }

  lemma BucketZero(m: Metric)
    ensures BucketOf(m) == 0 <==> Value(m.data) <= 1
  {
    if BucketOf(m) > 0 {
      Pow2Grows(0, BucketOf(m));
    }
  }

  /** The id that differs from `target` in its last bit only. */
  function Neighbour(target: NodeId): NodeId {
    Key(target.data[..KEY_LEN - 1] + [FlipLast(target.data[KEY_LEN - 1])])
  }

  function FlipLast(b: bv8): bv8 {
    b ^ 1
  }

  lemma FlippedByte(b: bv8)
    ensures FlipLast(b) != b && ByteValue(XorByte(b, FlipLast(b))) == 1 && XorByte(b, b) == 0
  {
  }

  lemma NeighbourAtOne(target: NodeId)
    ensures Neighbour(target) != target && Value(Dist(target, Neighbour(target)).data) == 1
  {
    var n := KEY_LEN - 1;
    var s := Dist(target, Neighbour(target)).data;
    FlippedByte(target.data[n]);
    forall i | 0 <= i < n
      ensures s[..n][i] == 0
    {
      FlippedByte(target.data[i]);
    }
    ValueZero(s[..n]);
  }

  /** Bucket 0 holds the target itself and one id besides. */
  lemma TakenForTarget(target: NodeId, id: NodeId)
    ensures BucketOf(Dist(target, id)) == 0 <==> id == target || id == Neighbour(target)
    ensures Neighbour(target) != target
  {
    var next := Neighbour(target);
    BucketZero(Dist(target, id));
    DistIdentity(target, id);
    NeighbourAtOne(target);
    LessIsNumeric(Dist(target, id).data, Dist(target, next).data);
    if Value(Dist(target, id).data) == 1 {
      DistInjective(target, id, next);
    }
  }

  // --------------------------------------------------------- disguised target

  /**
   * The random id `rnd` overwritten by the target up to and including the
   * first byte in which the target and the queried peer differ.
   */
  method RandomMidId(target: NodeId, other: NodeId, rnd: NodeId) returns (mid: NodeId)
    ensures other == target ==> mid == target
    ensures other != target ==> Less(Dist(mid, target), Dist(other, target))
    ensures exists n :: 0 < n <= KEY_LEN && IsMid(target, other, rnd, mid, n)
  {
    mid := rnd;
    for i := 0 to KEY_LEN
      invariant IsMid(target, other, rnd, mid, i)
      invariant forall k :: 0 <= k < i ==> target.data[k] == other.data[k]
    {
      mid := Key(mid.data[i := target.data[i]]);
      if Dist(target, other).data[i] != 0 {
        FirstDifference(mid, other, target, i);
        assert IsMid(target, other, rnd, mid, i + 1);
        return;
      }
    }
    assert target.data == other.data;
    assert mid.data == target.data;
  }

  /** The first `n` bytes are the target's, the others the random ones. */
  predicate IsMid(target: NodeId, other: NodeId, rnd: NodeId, mid: NodeId, n: nat) {
    n <= KEY_LEN && mid.data == target.data[..n] + rnd.data[n..]
  }

  lemma FirstDifference(x: NodeId, y: NodeId, target: NodeId, i: nat)
    requires i < KEY_LEN
    requires forall k :: 0 <= k <= i ==> x.data[k] == target.data[k]
    requires forall k :: 0 <= k < i ==> y.data[k] == target.data[k]
    requires y.data[i] != target.data[i]
    ensures Less(Dist(x, target), Dist(y, target))
  {
    var a, b := Dist(x, target).data, Dist(y, target).data;
    assert a[i] == 0 && b[i] != 0;
    LexLessAt(a, b, i);
  }

  lemma {:induction false} LexLessAt(a: seq<bv8>, b: seq<bv8>, i: nat)
    requires |a| == |b| && i < |a|
    requires forall k :: 0 <= k < i ==> a[k] == b[k]
    requires a[i] < b[i]
    ensures LexLess(a, b)
  {
    if i > 0 {
      LexLessAt(a[1..], b[1..], i - 1);
    }
  }

  // ------------------------------------------------------------- similar ids

  /** Same id and same IP; the port may differ. */
  predicate Similar(a: BdId, b: BdId) {
    a.id == b.id && a.addr.ip == b.addr.ip
  }

  /** Takes over the port; tells whether it changed. */
  function UpdateSimilar(dest: BdId, src: BdId): (r: (BdId, bool))
    ensures Similar(r.0, dest)
    ensures r.0.addr.port == src.addr.port
    ensures r.1 <==> r.0 != dest
  {
    if dest.addr.port == src.addr.port then (dest, false)
    else (BdId(dest.id, Addr(dest.addr.ip, src.addr.port)), true)
  }
}
