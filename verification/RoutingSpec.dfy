/** The routing table: what its operations do to a bucket and to the whole table. */
module RoutingSpec {
  import opened Ids

  const MAX_RESPONSE_PERIOD := 15
  const MAX_SEND_PERIOD := 300
  const MAX_RECV_PERIOD := 315
  const DISCARD_PERIOD := 615
  const ATTACHED_SEND_PERIOD := 17
  const ATTACH_UPDATE_PERIOD := 600

  const RECV_PONG: bv32 := 2
  const EX_UNSTABLE: bv32 := 1
  const EX_ATTACHED: bv32 := 2

  datatype Peer = Peer(id: BdId, flags: bv32, lastSend: int, lastRecv: int, found: int, extra: bv32)

  /** Least recently heard first. */
  type Bucket = seq<Peer>

  datatype Table = Table(own: NodeId, nodesPerBucket: nat, buckets: seq<Bucket>,
                         attachTS: int, attachedFlags: bv32, attachedCount: nat)

  // ------------------------------------------------------------- bit helpers

  predicate HasAll(flags: bv32, wanted: bv32) {
    wanted & flags == wanted
  }

  predicate HasAny(flags: bv32, mask: bv32) {
    mask & flags != 0
  }

  function Join(flags: bv32, more: bv32): bv32 {
    flags | more
  }

  function Without(flags: bv32, mask: bv32): bv32 {
    flags & !mask
  }

  // ------------------------------------------------------------------ adding

  /** The first entry similar to `id`; the length of the bucket if there is none. */
  function FindSimilar(b: Bucket, id: BdId): (i: nat)
    ensures i <= |b|
    ensures i < |b| ==> Similar(id, b[i].id)
    ensures forall j :: 0 <= j < i ==> !Similar(id, b[j].id)
  {
    if b == [] then 0 else if Similar(id, b[0].id) then 0 else 1 + FindSimilar(b[1..], id)
  }

  /** The entry that has just been heard of again. */
  function Refresh(p: Peer, id: BdId, flags: bv32, ts: int): Peer {
    var (newId, moved) := UpdateSimilar(p.id, id);
    p.(id := newId, lastRecv := ts, flags := Join(p.flags, flags),
       extra := if moved then Join(p.extra, EX_UNSTABLE) else p.extra)
  }

  function NewPeer(id: BdId, flags: bv32, ts: int): Peer {
    Peer(id, flags, 0, ts, ts, 0)
  }

  /** The flags as the unsigned number that the program compares. */
  function Num(flags: bv32): nat {
    flags as nat
  }

  function Smaller(a: bv32, b: bv32): bv32 {
    if Num(a) < Num(b) then a else b
  }

  /** The lowest of the flags, taken as numbers, of the bucket and the newcomer. */
  function MinFlags(b: Bucket, start: bv32): bv32 {
    if b == [] then start else Smaller(b[|b| - 1].flags, MinFlags(b[..|b| - 1], start))
  }

  lemma SmallerIsLess(a: bv32, b: bv32)
    ensures Smaller(a, b) == a || Smaller(a, b) == b
    ensures Num(Smaller(a, b)) <= Num(a) && Num(Smaller(a, b)) <= Num(b)
  {
    hide Num;
  }

  lemma {:induction false} MinFlagsIsLeast(b: Bucket, start: bv32)
    ensures var m := MinFlags(b, start);
            && Num(m) <= Num(start)
            && (forall i :: 0 <= i < |b| ==> Num(m) <= Num(b[i].flags))
            && (m == start || exists i :: 0 <= i < |b| && b[i].flags == m)
  {
    hide Num, Smaller;
    if b != [] {
      var n := |b| - 1;
      MinFlagsIsLeast(b[..n], start);
      var m := MinFlags(b[..n], start);
      SmallerIsLess(b[n].flags, m);
      assert forall i :: 0 <= i < n ==> b[..n][i] == b[i];
      if m != start {
        var i :| 0 <= i < n && b[..n][i].flags == m;
        assert b[i].flags == m;
      }
    }
  }

  /** The first entry with these flags; the length of the bucket if there is none. */
  function FindFlags(b: Bucket, flags: bv32): (i: nat)
    ensures i <= |b|
    ensures i < |b| ==> b[i].flags == flags
    ensures forall j :: 0 <= j < i ==> b[j].flags != flags
  {
    if b == [] then 0 else if b[0].flags == flags then 0 else 1 + FindFlags(b[1..], flags)
  }

  function RemoveAt(b: Bucket, i: nat): Bucket
    requires i < |b|
  {
    b[..i] + b[i + 1..]
  }

  lemma RemoveAtIndex(b: Bucket, i: nat)
    requires i < |b|
    ensures forall j :: 0 <= j < |b| - 1 ==> RemoveAt(b, i)[j] == b[if j < i then j else j + 1]
  {
  }

  /** The entry that makes room for a newcomer, if there is one. */
  function Victim(b: Bucket, flags: bv32, ts: int): (i: nat)
    requires b != []
    ensures i <= |b|
  {
    if ts - b[0].lastRecv > MAX_RECV_PERIOD then 0
    else
      var m := MinFlags(b, flags);
      if Num(flags) > Num(m) then FindFlags(b, m) else |b|
  }

  function AddToBucket(b: Bucket, size: nat, id: BdId, flags: bv32, ts: int): (Bucket, bool)
    requires size > 0
  {
    var i := FindSimilar(b, id);
    if i < |b| then (RemoveAt(b, i) + [Refresh(b[i], id, flags, ts)], true)
    else if |b| < size then (b + [NewPeer(id, flags, ts)], true)
    else
      var v := Victim(b, flags, ts);
      if v < |b| then (RemoveAt(b, v) + [NewPeer(id, flags, ts)], true) else (b, false)
  }

  // ---------------------------------------------------------------- flagging

  function FlagBucket(b: Bucket, id: BdId, flags: bv32, extra: bv32): Bucket {
    seq(|b|, i requires 0 <= i < |b| =>
      if Similar(id, b[i].id) then b[i].(flags := Join(b[i].flags, flags), extra := Join(b[i].extra, extra)) else b[i])
  }

  function ClearBucket(b: Bucket, flags: bv32): Bucket {
    seq(|b|, i requires 0 <= i < |b| => b[i].(flags := Without(b[i].flags, flags)))
  }

  // ---------------------------------------------------------------- scanning

  predicate AttachedDue(p: Peer, ts: int) {
    HasAny(p.extra, EX_ATTACHED) && ts - p.lastSend > ATTACHED_SEND_PERIOD && ts - p.lastRecv > ATTACHED_SEND_PERIOD
  }

  predicate SendDue(p: Peer, ts: int) {
    ts - p.lastSend > MAX_SEND_PERIOD && (ts - p.lastRecv > MAX_SEND_PERIOD || !HasAny(p.flags, RECV_PONG))
  }

  predicate PingDue(p: Peer, attach: bool, ts: int) {
    (attach && AttachedDue(p, ts)) || SendDue(p, ts)
  }

  predicate Dead(p: Peer, ts: int) {
    || ts - p.lastRecv > DISCARD_PERIOD
    || (ts - p.found > MAX_RESPONSE_PERIOD && !HasAny(p.flags, RECV_PONG))
  }

  /** What a scan keeps of a bucket, whom it pings, and how many entries are attached. */
  datatype Scan = Scan(kept: Bucket, pings: seq<BdId>, attached: nat)

  function ScanPeer(sc: Scan, p: Peer, attach: bool, ts: int): Scan {
    var q := if PingDue(p, attach, ts) then p.(lastSend := ts) else p;
    Scan(if Dead(p, ts) then sc.kept else sc.kept + [q],
         if PingDue(p, attach, ts) then sc.pings + [p.id] else sc.pings,
         if attach && HasAny(p.extra, EX_ATTACHED) then sc.attached + 1 else sc.attached)
  }

  function ScanBucket(b: Bucket, sc: Scan, attach: bool, ts: int): Scan {
    if b == [] then sc else ScanPeer(ScanBucket(b[..|b| - 1], sc, attach, ts), b[|b| - 1], attach, ts)
  }

  datatype TableScan = TableScan(buckets: seq<Bucket>, pings: seq<BdId>, attached: nat)

  function ScanBuckets(bs: seq<Bucket>, attach: bool, ts: int): (r: TableScan)
    ensures |r.buckets| == |bs|
  {
    if bs == [] then TableScan([], [], 0)
    else
      var n := |bs| - 1;
      var before := ScanBuckets(bs[..n], attach, ts);
      var sc := ScanBucket(bs[n], Scan([], before.pings, before.attached), attach, ts);
      TableScan(before.buckets + [sc.kept], sc.pings, sc.attached)
  }

  // --------------------------------------------------------------- attaching

  function Mark(p: Peer, attached: bool): Peer {
    p.(extra := if attached then Join(p.extra, EX_ATTACHED) else Without(p.extra, EX_ATTACHED))
  }

  /** Marks up to `left` entries with the flags, most recently heard first. */
  function MarkBucket(b: Bucket, wanted: bv32, left: nat): (r: (Bucket, nat))
    ensures |r.0| == |b|
    decreases |b|
  {
    if b == [] then ([], left)
    else
      var n := |b| - 1;
      var hit := left > 0 && HasAll(b[n].flags, wanted);
      var (rest, l) := MarkBucket(b[..n], wanted, if hit then left - 1 else left);
      (rest + [Mark(b[n], hit)], l)
  }

  function MarkBuckets(bs: seq<Bucket>, wanted: bv32, left: nat): (r: (seq<Bucket>, nat))
    ensures |r.0| == |bs|
  {
    if bs == [] then ([], left)
    else
      var n := |bs| - 1;
      var (done, l) := MarkBuckets(bs[..n], wanted, left);
      var (b, l') := MarkBucket(bs[n], wanted, l);
      (done + [b], l')
  }

  // --------------------------------------------------------- the whole table

  function AddPeer(t: Table, i: nat, id: BdId, flags: bv32, ts: int): (Table, bool)
    requires t.nodesPerBucket > 0 && i < |t.buckets|
  {
    var (b, added) := AddToBucket(t.buckets[i], t.nodesPerBucket, id, flags, ts);
    (t.(buckets := t.buckets[i := b]), added)
  }

  function FlagPeer(t: Table, i: nat, id: BdId, flags: bv32, extra: bv32): Table
    requires i < |t.buckets|
  {
    t.(buckets := t.buckets[i := FlagBucket(t.buckets[i], id, flags, extra)])
  }

  /** The entries of a bucket that have any of the flags. */
  ghost function WithAny(b: Bucket, flags: bv32): set<int> {
    set j | 0 <= j < |b| && HasAny(b[j].flags, flags)
  }

  /** How many entries of the buckets have any of the flags. */
  ghost function CountWithAny(bs: seq<Bucket>, flags: bv32): nat {
    if bs == [] then 0
    else CountWithAny(bs[..|bs| - 1], flags) + |WithAny(bs[|bs| - 1], flags)|
  }

  function CleanFlags(t: Table, flags: bv32): Table {
    t.(buckets := seq(|t.buckets|, i requires 0 <= i < |t.buckets| => ClearBucket(t.buckets[i], flags)))
  }

  /** The first bucket, where this node itself would be, is left alone. */
  function UpdateAttached(t: Table): Table {
    if t.buckets == [] then t
    else t.(buckets := [t.buckets[0]] + MarkBuckets(t.buckets[1..], t.attachedFlags, t.attachedCount).0)
  }

  function ScanTable(t: Table, ts: int): (Table, seq<BdId>) {
    var sc := ScanBuckets(t.buckets, t.attachedCount > 0, ts);
    var t1 := t.(buckets := sc.buckets);
    (if ts - t.attachTS > ATTACH_UPDATE_PERIOD || sc.attached != t.attachedCount
     then UpdateAttached(t1).(attachTS := ts) else t1, sc.pings)
  }

  function SetAttached(t: Table, flags: bv32, count: nat): Table {
    t.(attachedFlags := flags, attachedCount := count, attachTS := 0)
  }

  function EmptyTable(t: Table): Table {
    t.(buckets := seq(|t.buckets|, i requires 0 <= i < |t.buckets| => []))
  }
}
