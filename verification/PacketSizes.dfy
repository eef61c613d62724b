/** How long the packets of a node can get. */
module PacketSizes {
  import opened Collections
  import opened Ids
  import opened Messages
  import B = Bencode

  function Pow10(k: nat): (p: nat)
    ensures p > 0
  {
    if k == 0 then 1 else 10 * Pow10(k - 1)
  }

  lemma {:induction false} DecimalLength(n: nat, k: nat)
    requires k >= 1 && n < Pow10(k)
    ensures |B.Decimal(n)| <= k
  {
    if n >= 10 {
      assert Pow10(k) == 10 * Pow10(k - 1);
      assert k != 1;
      DecimalLength(n / 10, k - 1);
    }
  }

  lemma PrefixedLength(t: Text)
    requires |t| < 1000
    ensures |B.Prefixed(t)| <= |t| + 4
  {
    assert Pow10(1) == 10 && Pow10(2) == 100 && Pow10(3) == 1000;
    DecimalLength(|t|, 3);
  }

  lemma Int32Length(i: Int32)
    ensures |B.Encode(B.Int(i))| <= 13
  {
    assert Pow10(2) == 100 && Pow10(4) == 10000 && Pow10(6) == 1000000 && Pow10(8) == 100000000;
    assert Pow10(9) == 10 * Pow10(8) && Pow10(10) == 10 * Pow10(9);
    var n: int := i;
    DecimalLength(if n < 0 then -n else n, 10);
  }

  function EntryLength(e: B.Entry): nat {
    |B.Prefixed(B.CString(e.key))| + |B.Encode(e.val)|
  }

  lemma OneMore(n: int, size: nat)
    ensures (n + 1) * size == n * size + size
  {
  }

  lemma NoEntries()
    ensures B.EncodeEntries([]) == []
  {
  }

  lemma FirstEntry(es: seq<B.Entry>)
    requires es != []
    ensures |B.EncodeEntries(es)| == EntryLength(es[0]) + |B.EncodeEntries(es[1..])|
  {
  }

  /** All entries but the `k`-th are at most `small` long. */
  lemma {:induction false} EntriesLength(es: seq<B.Entry>, small: nat, large: nat, k: nat)
    requires k < |es| && EntryLength(es[k]) <= large && small <= large
    requires forall i :: 0 <= i < |es| && i != k ==> EntryLength(es[i]) <= small
    ensures |B.EncodeEntries(es)| <= (|es| - 1) * small + large
  {
    hide B.EncodeEntries, EntryLength;
    FirstEntry(es);
    if |es| == 1 {
      NoEntries();
      assert es[1..] == [];
    } else {
      OneMore(|es| - 2, small);
      if k > 0 {
        EntriesLength(es[1..], small, large, k - 1);
      } else {
        EntriesLength(es[1..], small, small, 0);
      }
    }
  }

  lemma StrLength(key: Text, t: Text, n: nat)
    requires |key| < 10 && |t| <= n < 996
    ensures EntryLength(B.Entry(key, StrNode(t))) <= |key| + 4 + n + 4
  {
    PrefixedLength(B.CString(key));
    PrefixedLength(t);
  }

  lemma IntLength(key: Text, i: Int32)
    requires |key| < 10
    ensures EntryLength(B.Entry(key, B.Int(i))) <= |key| + 17
  {
    PrefixedLength(B.CString(key));
    Int32Length(i);
  }

  lemma DictLength(key: Text, es: seq<B.Entry>, n: nat)
    requires |key| < 10 && |B.EncodeEntries(es)| <= n
    ensures EntryLength(B.Entry(key, B.Dict(es))) <= |key| + 4 + n + 2
  {
    PrefixedLength(B.CString(key));
  }

  /** The answer to a search with up to `n` nodes. */
  lemma ReplyNodeLength(m: Msg, n: nat)
    requires m.ReplyNode? && |m.nodes| <= n && COMPACT_NODE_ID_LEN * n < 996
    ensures |B.Encode(Build(m))| <= 130 + COMPACT_NODE_ID_LEN * n
  {
    var size := COMPACT_NODE_ID_LEN * n;
    hide B.Prefixed, B.EncodeEntries, B.CString;
    ReplyDataLength(m, size);
    DictLength(R, Data(m), 60 + size);
    StrLength(T, m.tid, TOKEN_MAX_LEN);
    StrLength(Y, R, 1);
    EntriesLength(Entries(m), 29, 67 + size, 2);
  }

  lemma ReplyDataLength(m: Msg, size: nat)
    requires m.ReplyNode? && COMPACT_NODE_ID_LEN * |m.nodes| <= size < 996
    ensures |B.EncodeEntries(Data(m))| <= 60 + size
  {
    StrLength(ID, IdText(m.id), KEY_LEN);
    StrLength(NODES, CompactNodeIds(m.nodes), size);
    EntriesLength(Data(m), 30, 30 + size, 1);
  }

  lemma SevenEntries(a: B.Entry, b: B.Entry, c: B.Entry, d: B.Entry, e: B.Entry, f: B.Entry, g: B.Entry, n: nat)
    requires EntryLength(a) <= n && EntryLength(b) <= n && EntryLength(c) <= n && EntryLength(d) <= n
    requires EntryLength(e) <= n && EntryLength(f) <= n && EntryLength(g) <= n
    ensures |B.EncodeEntries([a, b, c, d, e, f, g])| <= 7 * n
  {
    EntriesLength([a, b, c, d, e, f, g], n, n, 0);
  }

  lemma ConnectDataLength(m: Msg)
    requires m.Connect?
    ensures |B.EncodeEntries(Data(m))| <= 7 * 38
  {
    hide EntryLength, B.EncodeEntries;
    StrLength(ID, IdText(m.id), KEY_LEN);
    StrLength(SRC, CompactNodeId(m.src), COMPACT_NODE_ID_LEN);
    StrLength(DEST, CompactNodeId(m.dest), COMPACT_NODE_ID_LEN);
    IntLength(MODE, m.mode);
    IntLength(PARAM, m.param);
    IntLength(STATUS, m.status);
    IntLength(TYPE, m.kind);
    SevenEntries(IdEntry(m.id), B.Entry(SRC, StrNode(CompactNodeId(m.src))),
                 B.Entry(DEST, StrNode(CompactNodeId(m.dest))),
                 B.Entry(MODE, B.Int(m.mode)), B.Entry(PARAM, B.Int(m.param)), B.Entry(STATUS, B.Int(m.status)),
                 B.Entry(TYPE, B.Int(m.kind)), 38);
  }

  lemma ConnectLength(m: Msg)
    requires m.Connect?
    ensures |B.Encode(Build(m))| <= 400
  {
    hide EntryLength, B.EncodeEntries, B.Prefixed;
    ConnectDataLength(m);
    DictLength(A, Data(m), 266);
    StrLength(T, m.tid, TOKEN_MAX_LEN);
    StrLength(Y, Q, 1);
    StrLength(Q, CONNECT, 7);
    EntriesLength(Entries(m), 29, 273, 0);
  }
}
