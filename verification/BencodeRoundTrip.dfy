/** Decoding undoes encoding, whatever follows: bencoding is a prefix code. */
module BencodeRoundTrip {
  import opened Collections
  import opened Bencode

  /** The bytes `s` stand in the buffer at `p`. */
  predicate At(buf: Text, p: nat, s: Text) {
    p + |s| <= |buf| && buf[p..p + |s|] == s
  }

  lemma AtSplit(buf: Text, p: nat, a: Text, b: Text)
    requires At(buf, p, a + b)
    ensures At(buf, p, a) && At(buf, p + |a|, b)
  {
    assert buf[p..p + |a + b|][..|a|] == a && buf[p..p + |a + b|][|a|..] == b;
  }

  lemma AtIndex(buf: Text, p: nat, s: Text, i: nat)
    requires At(buf, p, s) && i < |s|
    ensures buf[p + i] == s[i]
  {
    assert buf[p..p + |s|][i] == buf[p + i];
  }

  // ------------------------------------------------------------------ numbers

  lemma DigitIsNoSign(b: Byte)
    requires IsDigit(b)
    ensures !IsSpace(b) && b != MINUS && b != PLUS && b != LETTER_D && b != LETTER_E && b != LETTER_I && b != LETTER_L
    ensures b != NUL
  {
  }

  predicate AllDigits(s: Text) {
    forall i :: 0 <= i < |s| ==> IsDigit(s[i])
  }

  lemma {:induction false} DecimalDigits(n: nat)
    ensures AllDigits(Decimal(n)) && Number(Decimal(n)) == n
  {
    if n >= 10 {
      DecimalDigits(n / 10);
    } else {
      assert Decimal(n)[..0] == [];
    }
  }

  lemma {:induction false} DigitsEndAt(buf: Text, p: nat, end: nat)
    requires Terminated(buf) && p <= end < |buf| && !IsDigit(buf[end])
    requires forall i :: p <= i < end ==> IsDigit(buf[i])
    ensures DigitsEnd(buf, p) == end
    decreases end - p
  {
    if p < end {
      DigitsEndAt(buf, p + 1, end);
    }
  }

  lemma DecimalAt(buf: Text, p: nat, n: nat)
    requires Terminated(buf) && At(buf, p, Decimal(n)) && p + |Decimal(n)| < |buf| && !IsDigit(buf[p + |Decimal(n)|])
    ensures DigitsEnd(buf, p) == p + |Decimal(n)| && Number(buf[p..p + |Decimal(n)|]) == n
    ensures IsDigit(buf[p])
  {
    DecimalDigits(n);
    var end := p + |Decimal(n)|;
    forall i | p <= i < end
      ensures IsDigit(buf[i])
    {
      AtIndex(buf, p, Decimal(n), i - p);
    }
    DigitsEndAt(buf, p, end);
  }

  lemma StrtollPositive(buf: Text, p: nat, n: nat, end: nat)
    requires Terminated(buf) && p < end < |buf| && IsDigit(buf[p]) && DigitsEnd(buf, p) == end
    requires Number(buf[p..end]) == n <= LLONG_MAX
    ensures Strtoll(buf, p) == (n, end)
  {
    DigitIsNoSign(buf[p]);
  }

  lemma StrtollNegative(buf: Text, p: nat, n: nat, end: nat)
    requires Terminated(buf) && p + 1 < end < |buf| && buf[p] == MINUS && DigitsEnd(buf, p + 1) == end
    requires Number(buf[p + 1..end]) == n <= -LLONG_MIN
    ensures Strtoll(buf, p) == (0 - n, end)
  {
    assert SkipSpace(buf, p) == p;
  }

  /** The number reader reads back what was printed. */
  lemma StrtollSigned(buf: Text, p: nat, i: int, end: nat)
    requires Terminated(buf) && At(buf, p, Signed(i)) && end == p + |Signed(i)| < |buf| && !IsDigit(buf[end])
    requires LLONG_MIN <= i <= LLONG_MAX
    ensures Strtoll(buf, p) == (i, end)
  {
    if i < 0 {
      AtSplit(buf, p, [MINUS], Decimal(-i));
      AtIndex(buf, p, [MINUS], 0);
      DecimalAt(buf, p + 1, -i);
      StrtollNegative(buf, p, -i, end);
    } else {
      DecimalAt(buf, p, i);
      StrtollPositive(buf, p, i, end);
    }
  }

  lemma AtMiddle(buf: Text, p: nat, a: Text, c: Byte, b: Text)
    requires At(buf, p, a + [c] + b)
    ensures At(buf, p, a) && buf[p + |a|] == c && At(buf, p + |a| + 1, b)
  {
    assert a + [c] + b == a + ([c] + b);
    AtSplit(buf, p, a, [c] + b);
    AtSplit(buf, p + |a|, [c], b);
    AtIndex(buf, p + |a|, [c], 0);
  }

  lemma StrAtIs(buf: Text, p: nat, n: nat, q: nat, s: Text)
    requires Terminated(buf) && p < |buf| && Strtoll(buf, p) == (n, q) && |s| == n
    requires q + 1 + n < |buf| && buf[q] == COLON && At(buf, q + 1, s)
    ensures StrAt(buf, p) == (Some(s), q + 1 + n)
  {
  }

  lemma StrAtPrefixed(buf: Text, p: nat, s: Text, end: nat)
    requires Terminated(buf) && At(buf, p, Prefixed(s)) && end == p + |Prefixed(s)| < |buf| && |s| <= LLONG_MAX
    ensures StrAt(buf, p) == (Some(s), end)
    ensures IsDigit(buf[p])
  {
    hide At, Strtoll, StrAt, Decimal;
    var d := Decimal(|s|);
    AtMiddle(buf, p, d, COLON, s);
    DecimalAt(buf, p, |s|);
    StrtollPositive(buf, p, |s|, p + |d|);
    StrAtIs(buf, p, |s|, p + |d|, s);
  }

  // -------------------------------------------------------------------- trees

  /** The values a tree can hold in memory: 64-bit numbers, lengths that fit their types. */
  predicate Sized(t: Node) {
    match t
    case Str(s) => s.Some? ==> |s.value| <= LLONG_MAX
    case Int(i) => LLONG_MIN <= i <= LLONG_MAX
    case List(items) => forall i :: 0 <= i < |items| ==> Sized(items[i])
    case Dict(entries) =>
      forall i :: 0 <= i < |entries| ==> |CString(entries[i].key)| <= INT_MAX && Sized(entries[i].val)
  }

  /** What the encoder can see of a tree: a missing string is empty, a key ends at a NUL. */
  function Canon(t: Node): Node {
    match t
    case Str(s) => Str(Some(if s.Some? then s.value else []))
    case Int(i) => t
    case List(items) => List(CanonItems(items))
    case Dict(entries) => Dict(CanonEntries(entries))
  }

  function CanonItems(items: seq<Node>): seq<Node> {
    if items == [] then [] else [Canon(items[0])] + CanonItems(items[1..])
  }

  function CanonEntries(entries: seq<Entry>): seq<Entry> {
    if entries == [] then [] else [Entry(CString(entries[0].key), Canon(entries[0].val))] + CanonEntries(entries[1..])
  }

  lemma {:induction false} EncodeStart(t: Node)
    ensures Encode(t) != [] && Encode(t)[0] != LETTER_E && Encode(t)[0] != NUL
  {
    if t.Str? {
      var s := if t.str.Some? then t.str.value else [];
      DecimalDigits(|s|);
      assert Encode(t)[0] == Decimal(|s|)[0];
      DigitIsNoSign(Decimal(|s|)[0]);
    }
  }

  /** A bracketed encoding: its first byte, its inside and its end. */
  lemma BracketLayout(buf: Text, p: nat, open: Byte, inside: Text)
    requires At(buf, p, [open] + inside + [LETTER_E])
    ensures buf[p] == open && At(buf, p + 1, inside + [LETTER_E]) && At(buf, p + 1, inside)
    ensures buf[p + 1 + |inside|] == LETTER_E
  {
    assert [open] + inside + [LETTER_E] == [open] + (inside + [LETTER_E]);
    AtSplit(buf, p, [open], inside + [LETTER_E]);
    AtSplit(buf, p + 1, inside, [LETTER_E]);
    AtIndex(buf, p, [open], 0);
    AtIndex(buf, p + 1 + |inside|, [LETTER_E], 0);
  }

  lemma StrStep(buf: Text, p: nat, s: Text, end: nat)
    requires Terminated(buf) && p < |buf| && IsDigit(buf[p]) && StrAt(buf, p) == (Some(s), end)
    ensures DecodeAt(buf, p) == (Some(Str(Some(s))), end)
  {
    DigitIsNoSign(buf[p]);
  }

  lemma IntStep(buf: Text, p: nat, i: int, q: nat)
    requires Terminated(buf) && p < q && q + 1 < |buf| && buf[p] == LETTER_I && buf[q] == LETTER_E
    requires Strtoll(buf, p + 1) == (i, q)
    ensures DecodeAt(buf, p) == (Some(Int(i)), q + 1)
  {
  }

  lemma ListStep(buf: Text, p: nat, items: seq<Node>, end: nat)
    requires Terminated(buf) && p + 1 < |buf| && buf[p] == LETTER_L && ItemsAt(buf, p + 1) == (Some(items), end)
    ensures DecodeAt(buf, p) == (Some(List(items)), end)
  {
  }

  lemma DictStep(buf: Text, p: nat, entries: seq<Entry>, end: nat)
    requires Terminated(buf) && p + 1 < |buf| && buf[p] == LETTER_D && EntriesAt(buf, p + 1) == (Some(entries), end)
    ensures DecodeAt(buf, p) == (Some(Dict(entries)), end)
  {
  }

  lemma DecodeStr(buf: Text, p: nat, t: Node, end: nat)
    requires t.Str? && Terminated(buf) && Sized(t) && At(buf, p, Encode(t)) && end == p + |Encode(t)| < |buf|
    ensures DecodeAt(buf, p) == (Some(Canon(t)), end)
  {
    var text := if t.str.Some? then t.str.value else [];
    StrAtPrefixed(buf, p, text, end);
    StrStep(buf, p, text, end);
  }

  lemma DecodeInt(buf: Text, p: nat, i: int, end: nat)
    requires Terminated(buf) && Sized(Int(i)) && At(buf, p, Encode(Int(i))) && end == p + |Encode(Int(i))| < |buf|
    ensures DecodeAt(buf, p) == (Some(Int(i)), end)
  {
    hide Strtoll, DecodeAt, Signed;
    var q := p + 1 + |Signed(i)|;
    assert end == q + 1;
    BracketLayout(buf, p, LETTER_I, Signed(i));
    StrtollSigned(buf, p + 1, i, q);
    IntStep(buf, p, i, q);
  }

  lemma {:induction false} DecodeEncode(buf: Text, p: nat, t: Node, end: nat)
    requires Terminated(buf) && Sized(t) && At(buf, p, Encode(t)) && end == p + |Encode(t)| < |buf|
    ensures DecodeAt(buf, p) == (Some(Canon(t)), end)
    decreases t, 1
  {
    match t {
      case Str(s) => DecodeStr(buf, p, t, end);
      case Int(i) => DecodeInt(buf, p, i, end);
      case List(items) => DecodeList(buf, p, items, end);
      case Dict(entries) => DecodeDict(buf, p, entries, end);
    }
  }

  lemma {:induction false} DecodeList(buf: Text, p: nat, items: seq<Node>, end: nat)
    requires Terminated(buf) && (forall i :: 0 <= i < |items| ==> Sized(items[i]))
    requires At(buf, p, [LETTER_L] + EncodeItems(items) + [LETTER_E]) && end == p + |EncodeItems(items)| + 2 < |buf|
    ensures DecodeAt(buf, p) == (Some(List(CanonItems(items))), end)
    decreases items, 1
  {
    BracketLayout(buf, p, LETTER_L, EncodeItems(items));
    DecodeItems(buf, p + 1, items, end);
    ListStep(buf, p, CanonItems(items), end);
  }

  lemma {:induction false} DecodeDict(buf: Text, p: nat, entries: seq<Entry>, end: nat)
    requires Terminated(buf)
    requires forall i :: 0 <= i < |entries| ==> |CString(entries[i].key)| <= INT_MAX && Sized(entries[i].val)
    requires At(buf, p, [LETTER_D] + EncodeEntries(entries) + [LETTER_E])
    requires end == p + |EncodeEntries(entries)| + 2 < |buf|
    ensures DecodeAt(buf, p) == (Some(Dict(CanonEntries(entries))), end)
    decreases entries, 1
  {
    BracketLayout(buf, p, LETTER_D, EncodeEntries(entries));
    DecodeEntries(buf, p + 1, entries, end);
    DictStep(buf, p, CanonEntries(entries), end);
  }

  lemma AtFirst(buf: Text, p: nat, a: Text, b: Text)
    requires At(buf, p, a + b + [LETTER_E]) && a != []
    ensures At(buf, p, a) && At(buf, p + |a|, b + [LETTER_E]) && buf[p] == a[0]
  {
    assert a + b + [LETTER_E] == a + (b + [LETTER_E]);
    AtSplit(buf, p, a, b + [LETTER_E]);
    AtIndex(buf, p, a, 0);
  }

  lemma ItemsStep(buf: Text, p: nat, item: Node, q: nat, rest: seq<Node>, end: nat)
    requires Terminated(buf) && p < |buf| && q < |buf| && buf[p] != LETTER_E
    requires DecodeAt(buf, p) == (Some(item), q) && ItemsAt(buf, q) == (Some(rest), end)
    ensures ItemsAt(buf, p) == (Some([item] + rest), end)
  {
  }

  lemma {:induction false} DecodeItems(buf: Text, p: nat, items: seq<Node>, end: nat)
    requires Terminated(buf) && (forall i :: 0 <= i < |items| ==> Sized(items[i]))
    requires At(buf, p, EncodeItems(items) + [LETTER_E]) && end == p + |EncodeItems(items)| + 1 < |buf|
    ensures ItemsAt(buf, p) == (Some(CanonItems(items)), end)
    decreases items, 0
  {
    if items == [] {
      AtIndex(buf, p, [LETTER_E], 0);
    } else {
      var q := p + |Encode(items[0])|;
      EncodeStart(items[0]);
      AtFirst(buf, p, Encode(items[0]), EncodeItems(items[1..]));
      DecodeEncode(buf, p, items[0], q);
      DecodeItems(buf, q, items[1..], end);
      ItemsStep(buf, p, Canon(items[0]), q, CanonItems(items[1..]), end);
    }
  }

  lemma EntriesLayout(buf: Text, p: nat, entries: seq<Entry>, k: Text, a: Text)
    requires entries != [] && At(buf, p, EncodeEntries(entries) + [LETTER_E])
    requires k == Prefixed(CString(entries[0].key)) && a == Encode(entries[0].val)
    ensures |EncodeEntries(entries)| == |k| + |a| + |EncodeEntries(entries[1..])|
    ensures At(buf, p, k) && At(buf, p + |k|, a) && At(buf, p + |k| + |a|, EncodeEntries(entries[1..]) + [LETTER_E])
  {
    var b := EncodeEntries(entries[1..]);
    assert EncodeEntries(entries) == k + a + b;
    AtThree(buf, p, k, a, b);
  }

  lemma AtThree(buf: Text, p: nat, k: Text, a: Text, b: Text)
    requires At(buf, p, k + a + b + [LETTER_E])
    ensures At(buf, p, k) && At(buf, p + |k|, a) && At(buf, p + |k| + |a|, b + [LETTER_E])
  {
    assert k + a + b + [LETTER_E] == k + (a + (b + [LETTER_E]));
    AtSplit(buf, p, k, a + (b + [LETTER_E]));
    AtSplit(buf, p + |k|, a, b + [LETTER_E]);
  }

  lemma EntriesStep(buf: Text, p: nat, key: Text, k: nat, val: Node, q: nat, rest: seq<Entry>, end: nat)
    requires Terminated(buf) && p < |buf| && k < |buf| && q < |buf| && IsDigit(buf[p])
    requires StrAt(buf, p) == (Some(key), k) && DecodeAt(buf, k) == (Some(val), q)
    requires EntriesAt(buf, q) == (Some(rest), end)
    ensures EntriesAt(buf, p) == (Some([Entry(key, val)] + rest), end)
  {
  }

  lemma DecodeNoEntries(buf: Text, p: nat)
    requires Terminated(buf) && At(buf, p, EncodeEntries([]) + [LETTER_E])
    ensures EntriesAt(buf, p) == (Some([]), p + 1)
  {
    assert EncodeEntries([]) + [LETTER_E] == [LETTER_E];
    AtIndex(buf, p, [LETTER_E], 0);
  }

  lemma {:induction false} DecodeEntries(buf: Text, p: nat, entries: seq<Entry>, end: nat)
    requires Terminated(buf)
    requires forall i :: 0 <= i < |entries| ==> |CString(entries[i].key)| <= INT_MAX && Sized(entries[i].val)
    requires At(buf, p, EncodeEntries(entries) + [LETTER_E]) && end == p + |EncodeEntries(entries)| + 1 < |buf|
    ensures EntriesAt(buf, p) == (Some(CanonEntries(entries)), end)
    decreases entries, 0
  {
    hide At, Encode, EntriesAt, Canon, DecodeAt, StrAt, Prefixed, Sized;
    if entries == [] {
      DecodeNoEntries(buf, p);
    } else {
      var key, val := CString(entries[0].key), entries[0].val;
      EntriesLayout(buf, p, entries, Prefixed(key), Encode(val));
      var k := p + |Prefixed(key)|;
      var q := k + |Encode(val)|;
      StrAtPrefixed(buf, p, key, k);
      DecodeEncode(buf, k, val, q);
      DecodeEntries(buf, q, entries[1..], end);
      EntriesStep(buf, p, key, k, Canon(val), q, CanonEntries(entries[1..]), end);
    }
  }

  // ----------------------------------------------------------------- theorems

  /** No string is missing and no key holds a NUL. */
  predicate Canonical(t: Node) {
    match t
    case Str(s) => s.Some?
    case Int(i) => true
    case List(items) => forall i :: 0 <= i < |items| ==> Canonical(items[i])
    case Dict(entries) => forall i :: 0 <= i < |entries| ==> NUL !in entries[i].key && Canonical(entries[i].val)
  }

  lemma {:induction false} CStringWhole(s: Text)
    ensures CString(s) == s <==> NUL !in s
  {
    if s != [] && s[0] != NUL {
      CStringWhole(s[1..]);
    }
  }

  lemma {:induction false} CanonIsSame(t: Node)
    ensures Canon(t) == t <==> Canonical(t)
    decreases t
  {
    match t {
      case Str(s) =>
      case Int(i) =>
      case List(items) => CanonItemsSame(items);
      case Dict(entries) => CanonEntriesSame(entries);
    }
  }

  lemma {:induction false} CanonItemsSame(items: seq<Node>)
    ensures CanonItems(items) == items <==> forall i :: 0 <= i < |items| ==> Canonical(items[i])
    decreases items
  {
    if items != [] {
      CanonIsSame(items[0]);
      CanonItemsSame(items[1..]);
      assert items == [items[0]] + items[1..];
      assert CanonItems(items)[0] == Canon(items[0]) && CanonItems(items)[1..] == CanonItems(items[1..]);
      assert (forall i :: 0 <= i < |items| ==> Canonical(items[i]))
        <==> Canonical(items[0]) && forall i :: 0 <= i < |items[1..]| ==> Canonical(items[1..][i]) by {
        assert forall i :: 0 <= i < |items[1..]| ==> items[1..][i] == items[i + 1];
      }
    }
  }

  lemma {:induction false} CanonEntriesSame(entries: seq<Entry>)
    ensures CanonEntries(entries) == entries <==>
              forall i :: 0 <= i < |entries| ==> NUL !in entries[i].key && Canonical(entries[i].val)
    decreases entries
  {
    if entries != [] {
      var e := entries[0];
      CStringWhole(e.key);
      CanonIsSame(e.val);
      CanonEntriesSame(entries[1..]);
      assert entries == [e] + entries[1..];
      assert CanonEntries(entries)[0] == Entry(CString(e.key), Canon(e.val));
      assert CanonEntries(entries)[1..] == CanonEntries(entries[1..]);
      assert forall i :: 0 <= i < |entries[1..]| ==> entries[1..][i] == entries[i + 1];
    }
  }

  /**
   * The round trip: a tree encoded into a buffer and followed by anything is
   * decoded to the tree, and exactly its encoding is consumed, if and only if
   * no string of it is missing and no key holds a NUL.
   */
  lemma RoundTrip(t: Node, rest: Text)
    requires Sized(t)
    ensures DecodeAt(Encode(t) + rest + [NUL], 0) == (Some(t), |Encode(t)|) <==> Canonical(t)
  {
    var buf := Encode(t) + rest + [NUL];
    assert buf[0..|Encode(t)|] == Encode(t);
    DecodeEncode(buf, 0, t, |Encode(t)|);
    CanonIsSame(t);
  }

  /** Encoding is injective; no encoding is a proper prefix of another. */
  lemma PrefixFree(a: Node, b: Node)
    requires Sized(a) && Sized(b) && Canonical(a) && Canonical(b)
    requires Encode(a) <= Encode(b)
    ensures a == b
  {
    RoundTrip(a, Encode(b)[|Encode(a)|..]);
    RoundTrip(b, []);
    assert Encode(a) + Encode(b)[|Encode(a)|..] + [NUL] == Encode(b) + [] + [NUL];
  }
}
