/**
 * What the decoder accepts: exactly the texts of a small grammar, which is wider
 * than what the encoder writes.  A numeral may have white space, a sign and
 * leading zeros, or no digits at all.
 */
module BencodeGrammar {
  import opened Collections
  import opened Bencode

  // ------------------------------------------------------------------ numerals

  predicate Spaces(s: Text) {
    forall i :: 0 <= i < |s| ==> s[i] == 32 || 9 <= s[i] <= 13
  }

  predicate Digits(s: Text) {
    s != [] && forall i :: 0 <= i < |s| ==> 48 <= s[i] < 58
  }

  /** White space up to `a`, a sign or none up to `b`, and digits: the number, held in 64 bits. */
  predicate Spells(s: Text, a: nat, b: nat, v: int) {
    && a <= b < |s| && Spaces(s[..a]) && s[a..b] in [[], [45], [43]] && Digits(s[b..])
    && v == Held(s[a..b], s[b..])
  }

  /** The number as 64 bits can hold it. */
  function Held(sign: Text, digits: Text): int
    requires Digits(digits)
  {
    var n: int := Number(digits);
    var v := if sign == [45] then -n else n;
    if v < -0x8000_0000_0000_0000 then -0x8000_0000_0000_0000
    else if v > 0x7fff_ffff_ffff_ffff then 0x7fff_ffff_ffff_ffff else v
  }

  /** The empty numeral stands for 0. */
  ghost predicate Numeral(s: Text, v: int) {
    (s == [] && v == 0) || exists a: nat, b: nat :: Spells(s, a, b, v)
  }

  lemma {:induction false} SkipsSpaces(buf: Text, p: nat)
    requires Terminated(buf) && p < |buf|
    ensures Spaces(buf[p..SkipSpace(buf, p)])
    decreases |buf| - p
  {
    if IsSpace(buf[p]) {
      SkipsSpaces(buf, p + 1);
      assert buf[p..SkipSpace(buf, p)] == [buf[p]] + buf[p + 1..SkipSpace(buf, p + 1)];
    }
  }

  lemma SignOf(buf: Text, q: nat)
    requires q < |buf|
    ensures var start := if buf[q] == MINUS || buf[q] == PLUS then q + 1 else q;
            && buf[q..start] in [[], [45], [43]] && (buf[q..start] == [45] <==> buf[q] == MINUS)
  {
    var start := if buf[q] == MINUS || buf[q] == PLUS then q + 1 else q;
    assert buf[q..start] == if start == q then [] else [buf[q]];
  }

  lemma StrtollHolds(buf: Text, p: nat, q: nat, start: nat, end: nat)
    requires Terminated(buf) && p < |buf| && q == SkipSpace(buf, p)
    requires start == if buf[q] == MINUS || buf[q] == PLUS then q + 1 else q
    requires start < |buf| && end == DigitsEnd(buf, start) && start < end
    ensures Digits(buf[start..end]) && Strtoll(buf, p) == (Held(buf[q..start], buf[start..end]), end)
  {
    hide SkipSpace, DigitsEnd, Number;
    SignOf(buf, q);
  }

  /** What the number reader consumes is a numeral of what it returns. */
  lemma ReadsNumeral(buf: Text, p: nat)
    requires Terminated(buf) && p < |buf|
    ensures var (v, q) := Strtoll(buf, p); Numeral(buf[p..q], v)
  {
    var q := SkipSpace(buf, p);
    var start := if buf[q] == MINUS || buf[q] == PLUS then q + 1 else q;
    var end := DigitsEnd(buf, start);
    if end > start {
      StrtollHolds(buf, p, q, start, end);
      SkipsSpaces(buf, p);
      SignOf(buf, q);
      SpellsSlice(buf, p, q, start, end, Strtoll(buf, p).0);
    }
  }

  lemma SliceOf(buf: Text, p: nat, end: nat, i: nat, j: nat)
    requires p <= end <= |buf| && i <= j <= end - p
    ensures buf[p..end][i..j] == buf[p + i..p + j]
  {
    var a, b := buf[p..end][i..j], buf[p + i..p + j];
    assert |a| == |b| && forall m :: 0 <= m < |a| ==> a[m] == b[m];
  }

  lemma SpellsSlice(buf: Text, p: nat, q: nat, start: nat, end: nat, v: int)
    requires p <= q <= start < end <= |buf| && Spaces(buf[p..q]) && buf[q..start] in [[], [45], [43]]
    requires Digits(buf[start..end]) && v == Held(buf[q..start], buf[start..end])
    ensures Spells(buf[p..end], q - p, start - p, v)
  {
    hide Held, Digits, Spaces;
    SliceOf(buf, p, end, 0, q - p);
    SliceOf(buf, p, end, q - p, start - p);
    SliceOf(buf, p, end, start - p, end - p);
    assert buf[p..end][..q - p] == buf[p..end][0..q - p];
    assert buf[p..end][start - p..] == buf[p..end][start - p..end - p];
  }

  lemma {:induction false} SpacesEnd(buf: Text, p: nat, q: nat)
    requires Terminated(buf) && p <= q < |buf| && Spaces(buf[p..q]) && !IsSpace(buf[q])
    ensures SkipSpace(buf, p) == q
    decreases q - p
  {
    if p < q {
      assert buf[p] == buf[p..q][0] && buf[p + 1..q] == buf[p..q][1..];
      SpacesEnd(buf, p + 1, q);
    }
  }

  lemma {:induction false} DigitsStop(buf: Text, p: nat, q: nat)
    requires Terminated(buf) && p < q < |buf| && Digits(buf[p..q]) && !IsDigit(buf[q])
    ensures DigitsEnd(buf, p) == q
    decreases q - p
  {
    assert buf[p] == buf[p..q][0];
    if p + 1 < q {
      assert buf[p + 1..q] == buf[p..q][1..];
      DigitsStop(buf, p + 1, q);
    }
  }

  /** A byte with which no numeral begins or goes on. */
  predicate Stops(b: Byte) {
    !IsSpace(b) && !IsDigit(b) && b != MINUS && b != PLUS
  }

  /** A numeral in front of such a byte is read whole. */
  lemma NumeralIsRead(buf: Text, p: nat, q: nat, v: int)
    requires Terminated(buf) && p <= q < |buf| && Stops(buf[q]) && Numeral(buf[p..q], v)
    ensures Strtoll(buf, p) == (v, q)
  {
    if p < q {
      var s := buf[p..q];
      var a: nat, b: nat :| Spells(s, a, b, v);
      SpelledIsRead(buf, p, q, a, b, v);
    }
  }

  lemma SpelledIsRead(buf: Text, p: nat, q: nat, a: nat, b: nat, v: int)
    requires Terminated(buf) && p < q < |buf| && Stops(buf[q]) && Spells(buf[p..q], a, b, v)
    ensures Strtoll(buf, p) == (v, q)
  {
    hide Held, SkipSpace, DigitsEnd;
    var s := buf[p..q];
    SliceOf(buf, p, q, 0, a);
    SliceOf(buf, p, q, a, b);
    SliceOf(buf, p, q, b, q - p);
    assert s[..a] == s[0..a] && s[b..] == s[b..q - p];
    assert buf[p + b] == s[b..][0];
    if a < b {
      assert buf[p + a] == s[a..b][0];
    }
    SpacesEnd(buf, p, p + a);
    DigitsStop(buf, p + b, q);
    StrtollHolds(buf, p, p + a, p + b, q);
  }

  // ------------------------------------------------------------------- the grammar

  /** A numeral, a colon and as many bytes as the numeral says. */
  ghost predicate Counted(s: Text, bytes: Text) {
    exists k: nat :: CountedAt(s, bytes, k)
  }

  ghost predicate CountedAt(s: Text, bytes: Text, k: nat) {
    k < |s| && s[k] == 58 && s[k + 1..] == bytes && Numeral(s[..k], |bytes|)
  }

  /** What stands between a letter and an `e`. */
  ghost predicate Bracketed(s: Text, letter: Byte, inside: Text) {
    s == [letter] + inside + [101]
  }

  /** The text `s` is read as the tree `t`, which has no missing string in it. */
  ghost predicate Denotes(s: Text, t: Node)
    decreases t, 0
  {
    match t
    case Int(i) => exists n :: Bracketed(s, 105, n) && Numeral(n, i)
    case Str(b) => b.Some? && s != [] && 48 <= s[0] < 58 && Counted(s, b.value)
    case List(items) => exists n :: Bracketed(s, 108, n) && AreItems(n, items)
    case Dict(entries) => exists n :: Bracketed(s, 100, n) && AreEntries(n, entries)
  }

  ghost predicate AreItems(s: Text, items: seq<Node>)
    decreases items, 1
  {
    if items == [] then s == []
    else exists k: nat :: k <= |s| && Denotes(s[..k], items[0]) && AreItems(s[k..], items[1..])
  }

  /** The key of an entry may be any counted text, also one that begins with a sign or a space. */
  ghost predicate AreEntries(s: Text, entries: seq<Entry>)
    decreases entries, 1
  {
    if entries == [] then s == []
    else exists k: nat, m: nat ::
        && k <= m <= |s| && Counted(s[..k], entries[0].key) && Denotes(s[k..m], entries[0].val)
        && AreEntries(s[m..], entries[1..])
  }

  /** Nowhere in the tree a string is missing. */
  predicate Whole(t: Node) {
    match t
    case Int(_) => true
    case Str(b) => b.Some?
    case List(items) => AllWhole(items)
    case Dict(entries) => EntriesWhole(entries)
  }

  predicate AllWhole(items: seq<Node>) {
    forall i :: 0 <= i < |items| ==> Whole(items[i])
  }

  lemma WholeParts(item: Node, rest: seq<Node>)
    requires AllWhole([item] + rest)
    ensures Whole(item) && AllWhole(rest)
  {
    var all := [item] + rest;
    assert all[0] == item && forall i :: 0 <= i < |rest| ==> rest[i] == all[i + 1];
  }

  predicate EntriesWhole(entries: seq<Entry>) {
    forall i :: 0 <= i < |entries| ==> Whole(entries[i].val)
  }

  lemma WholeEntries(entry: Entry, rest: seq<Entry>)
    requires EntriesWhole([entry] + rest)
    ensures Whole(entry.val) && EntriesWhole(rest)
  {
    var all := [entry] + rest;
    assert all[0] == entry && forall i :: 0 <= i < |rest| ==> rest[i] == all[i + 1];
  }

  // ------------------------------------------------------ what is read is grammatical

  lemma StrIsCounted(buf: Text, p: nat)
    requires Terminated(buf) && p < |buf|
    ensures var (s, q) := StrAt(buf, p); s.Some? ==> Counted(buf[p..q], s.value)
  {
    hide Numeral;
    ReadsNumeral(buf, p);
    var (s, end) := StrAt(buf, p);
    if s.Some? {
      var (n, q) := Strtoll(buf, p);
      SliceOf(buf, p, end, 0, q - p);
      SliceOf(buf, p, end, q - p + 1, end - p);
      assert buf[p..end][..q - p] == buf[p..end][0..q - p];
      assert buf[p..end][q - p + 1..] == buf[p..end][q - p + 1..end - p];
      assert CountedAt(buf[p..end], s.value, q - p);
    }
  }

  lemma InBrackets(buf: Text, p: nat, q: nat)
    requires p + 2 <= q <= |buf| && buf[q - 1] == 101
    ensures Bracketed(buf[p..q], buf[p], buf[p + 1..q - 1])
  {
  }

  lemma {:induction false} DecodedDenotes(buf: Text, p: nat)
    requires Terminated(buf) && p < |buf|
    ensures var (t, q) := DecodeAt(buf, p); t.Some? && Whole(t.value) ==> Denotes(buf[p..q], t.value)
    decreases |buf| - p, 0
  {
    hide Numeral, Counted, AreItems, AreEntries, Strtoll, StrAt;
    var (t, q) := DecodeAt(buf, p);
    if t.Some? && Whole(t.value) {
      match t.value {
        case Int(i) =>
          ReadsNumeral(buf, p + 1);
          InBrackets(buf, p, q);
        case Str(_) =>
          StrIsCounted(buf, p);
        case List(items) =>
          ItemsDenote(buf, p + 1);
          InBrackets(buf, p, q);
        case Dict(entries) =>
          EntriesDenote(buf, p + 1);
          InBrackets(buf, p, q);
      }
    }
  }

  lemma ItemBefore(buf: Text, p: nat, m: nat, q: nat, item: Node, rest: seq<Node>)
    requires p <= m <= q <= |buf| && Denotes(buf[p..m], item) && AreItems(buf[m..q], rest)
    ensures AreItems(buf[p..q], [item] + rest)
  {
    hide Denotes;
    var s := buf[p..q];
    SliceOf(buf, p, q, 0, m - p);
    SliceOf(buf, p, q, m - p, q - p);
    assert s[..m - p] == s[0..m - p] && s[m - p..] == s[m - p..q - p];
    assert ([item] + rest)[1..] == rest;
  }

  lemma {:induction false} ItemsDenote(buf: Text, p: nat)
    requires Terminated(buf) && p < |buf|
    ensures var (items, q) := ItemsAt(buf, p);
            items.Some? && AllWhole(items.value) ==>
              buf[q - 1] == 101 && p <= q - 1 && AreItems(buf[p..q - 1], items.value)
    decreases |buf| - p, 1
  {
    hide Denotes, AllWhole, AreItems, DecodeAt;
    var (items, end) := ItemsAt(buf, p);
    if buf[p] == LETTER_E {
      NoItems(buf, p);
    } else if items.Some? && AllWhole(items.value) {
      var (item, q) := DecodeAt(buf, p);
      var (rest, _) := ItemsAt(buf, q);
      WholeParts(item.value, rest.value);
      DecodedDenotes(buf, p);
      ItemsDenote(buf, q);
      ItemBefore(buf, p, q, end - 1, item.value, rest.value);
    }
  }

  lemma NoItems(buf: Text, p: nat)
    requires p <= |buf|
    ensures AreItems(buf[p..p], []) && AreEntries(buf[p..p], [])
  {
  }

  lemma EntryBefore(buf: Text, p: nat, k: nat, m: nat, q: nat, entry: Entry, rest: seq<Entry>)
    requires p <= k <= m <= q <= |buf| && Counted(buf[p..k], entry.key)
    requires Denotes(buf[k..m], entry.val) && AreEntries(buf[m..q], rest)
    ensures AreEntries(buf[p..q], [entry] + rest)
  {
    hide Denotes, Counted;
    var s := buf[p..q];
    SliceOf(buf, p, q, 0, k - p);
    SliceOf(buf, p, q, k - p, m - p);
    SliceOf(buf, p, q, m - p, q - p);
    assert s[..k - p] == s[0..k - p] && s[m - p..] == s[m - p..q - p];
    assert ([entry] + rest)[1..] == rest;
  }

  lemma {:induction false} EntriesDenote(buf: Text, p: nat)
    requires Terminated(buf) && p < |buf|
    ensures var (entries, q) := EntriesAt(buf, p);
            entries.Some? && EntriesWhole(entries.value) ==>
              buf[q - 1] == 101 && p <= q - 1 && AreEntries(buf[p..q - 1], entries.value)
    decreases |buf| - p, 1
  {
    hide Denotes, Counted, EntriesWhole, AreEntries, StrAt, DecodeAt;
    var (entries, end) := EntriesAt(buf, p);
    if buf[p] == LETTER_E {
      NoItems(buf, p);
    } else if entries.Some? && EntriesWhole(entries.value) {
      var (key, k) := StrAt(buf, p);
      var (val, q) := DecodeAt(buf, k);
      var (rest, _) := EntriesAt(buf, q);
      WholeEntries(Entry(key.value, val.value), rest.value);
      StrIsCounted(buf, p);
      DecodedDenotes(buf, k);
      EntriesDenote(buf, q);
      EntryBefore(buf, p, k, q, end - 1, Entry(key.value, val.value), rest.value);
    }
  }

  // ------------------------------------------------------ what is grammatical is read

  lemma CountedIsRead(buf: Text, p: nat, q: nat, bytes: Text)
    requires Terminated(buf) && p <= q < |buf| && Counted(buf[p..q], bytes)
    ensures StrAt(buf, p) == (Some(bytes), q)
    ensures p < q && buf[p] != 101
  {
    hide Strtoll, Numeral;
    var s := buf[p..q];
    var k: nat :| CountedAt(s, bytes, k);
    SliceOf(buf, p, q, 0, k);
    SliceOf(buf, p, q, k + 1, q - p);
    assert s[..k] == s[0..k] && s[k + 1..] == s[k + 1..q - p] && buf[p + k] == 58;
    NumeralIsRead(buf, p, p + k, |bytes|);
    if k > 0 {
      NumeralStart(s[..k], |bytes|);
      assert s[..k][0] == buf[p];
    }
  }

  lemma NumeralStart(s: Text, v: int)
    requires Numeral(s, v) && s != []
    ensures s[0] < 58
  {
    var a: nat, b: nat :| Spells(s, a, b, v);
    if a > 0 {
      assert s[0] == s[..a][0];
    } else if b > 0 {
      assert s[0] == s[a..b][0];
    } else {
      assert s[0] == s[b..][0];
    }
  }

  lemma FromBrackets(buf: Text, p: nat, q: nat, letter: Byte, inside: Text)
    requires p <= q <= |buf| && Bracketed(buf[p..q], letter, inside)
    ensures p + 2 <= q && buf[p] == letter && buf[q - 1] == 101 && inside == buf[p + 1..q - 1]
  {
    var s := buf[p..q];
    assert |s| == |inside| + 2;
    assert s[0] == buf[p] && s[|s| - 1] == buf[q - 1];
    SliceOf(buf, p, q, 1, q - p - 1);
    assert s[1..|s| - 1] == inside;
  }

  lemma Starts(s: Text, t: Node)
    requires Denotes(s, t)
    ensures s != [] && s[0] != 101
  {
    hide Numeral, Counted, AreItems, AreEntries;
  }

  /** A text of the grammar is read to its end as its tree, whatever follows. */
  lemma {:induction false} GrammarIsRead(buf: Text, p: nat, q: nat, t: Node)
    requires Terminated(buf) && p <= q < |buf| && Denotes(buf[p..q], t)
    ensures DecodeAt(buf, p) == (Some(t), q)
    decreases t, 0
  {
    hide Numeral, Counted, AreItems, AreEntries, Bracketed, Strtoll, StrAt;
    match t {
      case Int(i) =>
        var n :| Bracketed(buf[p..q], 105, n) && Numeral(n, i);
        FromBrackets(buf, p, q, 105, n);
        NumeralIsRead(buf, p + 1, q - 1, i);
      case Str(b) =>
        assert buf[p] == buf[p..q][0];
        CountedIsRead(buf, p, q, b.value);
      case List(items) =>
        var n :| Bracketed(buf[p..q], 108, n) && AreItems(n, items);
        FromBrackets(buf, p, q, 108, n);
        ItemsAreRead(buf, p + 1, q - 1, items);
      case Dict(entries) =>
        var n :| Bracketed(buf[p..q], 100, n) && AreEntries(n, entries);
        FromBrackets(buf, p, q, 100, n);
        EntriesAreRead(buf, p + 1, q - 1, entries);
    }
  }

  lemma {:induction false} ItemsAreRead(buf: Text, p: nat, q: nat, items: seq<Node>)
    requires Terminated(buf) && p <= q < |buf| && buf[q] == 101 && AreItems(buf[p..q], items)
    ensures ItemsAt(buf, p) == (Some(items), q + 1)
    decreases items, 1
  {
    hide Denotes, DecodeAt;
    if items != [] {
      var s := buf[p..q];
      var k: nat :| k <= |s| && Denotes(s[..k], items[0]) && AreItems(s[k..], items[1..]);
      SliceOf(buf, p, q, 0, k);
      SliceOf(buf, p, q, k, q - p);
      assert s[..k] == s[0..k] && s[k..] == s[k..q - p];
      Starts(s[..k], items[0]);
      assert buf[p] == s[..k][0];
      hide AreItems;
      GrammarIsRead(buf, p, p + k, items[0]);
      ItemsAreRead(buf, p + k, q, items[1..]);
      assert items == [items[0]] + items[1..];
    }
  }

  lemma {:induction false} EntriesAreRead(buf: Text, p: nat, q: nat, entries: seq<Entry>)
    requires Terminated(buf) && p <= q < |buf| && buf[q] == 101 && AreEntries(buf[p..q], entries)
    ensures EntriesAt(buf, p) == (Some(entries), q + 1)
    decreases entries, 1
  {
    hide Denotes, DecodeAt, Counted, StrAt;
    if entries == [] {
      assert p == q;
    } else {
      var s := buf[p..q];
      var k: nat, m: nat :| k <= m <= |s| && Counted(s[..k], entries[0].key) && Denotes(s[k..m], entries[0].val)
                            && AreEntries(s[m..], entries[1..]);
      SliceOf(buf, p, q, 0, k);
      SliceOf(buf, p, q, k, m);
      SliceOf(buf, p, q, m, q - p);
      assert s[..k] == s[0..k] && s[m..] == s[m..q - p];
      hide AreEntries;
      CountedIsRead(buf, p, p + k, entries[0].key);
      GrammarIsRead(buf, p + k, p + m, entries[0].val);
      EntriesAreRead(buf, p + m, q, entries[1..]);
      assert entries == [Entry(entries[0].key, entries[0].val)] + entries[1..];
    }
  }

  /** A tree without a missing string is decoded from a text exactly if the grammar has it so. */
  lemma DecodesGrammar(buf: Text, p: nat, q: nat, t: Node)
    requires Terminated(buf) && p < |buf| && Whole(t)
    ensures DecodeAt(buf, p) == (Some(t), q) <==> p <= q < |buf| && Denotes(buf[p..q], t)
  {
    hide Denotes, DecodeAt;
    DecodedDenotes(buf, p);
    if p <= q < |buf| && Denotes(buf[p..q], t) {
      GrammarIsRead(buf, p, q, t);
    }
  }
}
