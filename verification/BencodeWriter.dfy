/** The encoder, which writes a tree into a buffer piece by piece. */
module BencodeWriter {
  import opened Collections
  import opened Bencode

  lemma Assoc(a: Text, b: Text, c: Text)
    ensures a + (b + c) == a + b + c
  {
  }

  lemma {:induction false} ItemsSnoc(items: seq<Node>, x: Node)
    ensures EncodeItems(items + [x]) == EncodeItems(items) + Encode(x)
  {
    if items == [] {
      assert [x][1..] == [] && items + [x] == [x];
    } else {
      assert (items + [x])[1..] == items[1..] + [x];
      ItemsSnoc(items[1..], x);
      Assoc(Encode(items[0]), EncodeItems(items[1..]), Encode(x));
    }
  }

  /** A front part of the items takes no more room than all. */
  lemma {:induction false} ItemsGrow(items: seq<Node>, i: nat)
    requires i <= |items|
    ensures |EncodeItems(items[..i])| <= |EncodeItems(items)|
    decreases |items| - i
  {
    if i < |items| {
      ItemsGrow(items, i + 1);
      ItemsSnoc(items[..i], items[i]);
      assert items[..i + 1] == items[..i] + [items[i]];
    } else {
      assert items[..i] == items;
    }
  }

  lemma ItemsSplit(items: seq<Node>, i: nat)
    requires i < |items|
    ensures EncodeItems(items[..i + 1]) == EncodeItems(items[..i]) + Encode(items[i])
    ensures |EncodeItems(items)| >= |EncodeItems(items[..i])| + |Encode(items[i])|
  {
    assert items[..i + 1] == items[..i] + [items[i]];
    ItemsSnoc(items[..i], items[i]);
    ItemsGrow(items, i + 1);
  }

  lemma {:induction false} EntriesSnoc(entries: seq<Entry>, x: Entry, key: Text, val: Text)
    requires key == Prefixed(CString(x.key)) && val == Encode(x.val)
    ensures EncodeEntries(entries + [x]) == EncodeEntries(entries) + (key + val)
  {
    if entries == [] {
      assert [x][1..] == [] && entries + [x] == [x];
      assert EncodeEntries([x]) == key + val + EncodeEntries([]);
    } else {
      assert (entries + [x])[1..] == entries[1..] + [x];
      EntriesSnoc(entries[1..], x, key, val);
      Assoc(Prefixed(CString(entries[0].key)) + Encode(entries[0].val), EncodeEntries(entries[1..]), key + val);
    }
  }

  lemma {:induction false} EntriesGrow(entries: seq<Entry>, i: nat)
    requires i <= |entries|
    ensures |EncodeEntries(entries[..i])| <= |EncodeEntries(entries)|
    decreases |entries| - i
  {
    if i < |entries| {
      EntriesGrow(entries, i + 1);
      EntriesSnoc(entries[..i], entries[i], Prefixed(CString(entries[i].key)), Encode(entries[i].val));
      assert entries[..i + 1] == entries[..i] + [entries[i]];
    } else {
      assert entries[..i] == entries;
    }
  }

  lemma EntriesSplit(entries: seq<Entry>, i: nat, key: Text, val: Text)
    requires i < |entries| && key == Prefixed(CString(entries[i].key)) && val == Encode(entries[i].val)
    ensures EncodeEntries(entries[..i + 1]) == EncodeEntries(entries[..i]) + (key + val)
    ensures |EncodeEntries(entries)| >= |EncodeEntries(entries[..i])| + |key| + |val|
  {
    assert entries[..i + 1] == entries[..i] + [entries[i]];
    EntriesSnoc(entries[..i], entries[i], key, val);
    EntriesGrow(entries, i + 1);
  }

  /** Bounded printing: what does not fit is cut off, and a NUL always ends what is printed. */
  method Print(buf: array<Byte>, at: nat, room: nat, text: Text)
    requires 0 < room && at + room <= buf.Length
    modifies buf
    ensures var n := if |text| < room then |text| else room - 1;
            && buf[at..at + n] == text[..n] && buf[at + n] == NUL
            && buf[..at] == old(buf[..at]) && buf[at + n + 1..] == old(buf[at + n + 1..])
  {
    var n := if |text| < room then |text| else room - 1;
    for i := 0 to n
      invariant buf[at..at + i] == text[..i]
      invariant buf[..at] == old(buf[..at])
      invariant buf[at + i..] == old(buf[at + i..])
    {
      buf[at + i] := text[i];
    }
    buf[at + n] := NUL;
  }

  /** Copies bytes without a bound of its own. */
  method Copy(buf: array<Byte>, at: nat, text: Text)
    requires at + |text| <= buf.Length
    modifies buf
    ensures buf[at..at + |text|] == text
    ensures buf[..at] == old(buf[..at]) && buf[at + |text|..] == old(buf[at + |text|..])
  {
    for i := 0 to |text|
      invariant buf[at..at + i] == text[..i]
      invariant buf[..at] == old(buf[..at])
      invariant buf[at + i..] == old(buf[at + i..])
    {
      buf[at + i] := text[i];
    }
  }

  /** Written piece after piece. */
  lemma Joined(buf: Text, at: nat, a: Text, b: Text)
    requires at + |a| + |b| <= |buf| && buf[at..at + |a|] == a && buf[at + |a|..at + |a| + |b|] == b
    ensures buf[at..at + |a| + |b|] == a + b
  {
    assert buf[at..at + |a| + |b|] == buf[at..at + |a|] + buf[at + |a|..at + |a| + |b|];
  }

  lemma Kept(was: Text, now: Text, at: nat, n: nat, to: nat)
    requires at + n <= to <= |was| == |now| && was[..to] == now[..to]
    ensures was[at..at + n] == now[at..at + n]
  {
    assert was[..to][at..at + n] == was[at..at + n] && now[..to][at..at + n] == now[at..at + n];
  }

  lemma PrefixKept(was: Text, now: Text, at: nat, to: nat)
    requires at <= to <= |was| == |now| && was[..to] == now[..to]
    ensures was[..at] == now[..at]
  {
    assert was[..to][..at] == was[..at] && now[..to][..at] == now[..at];
  }

  lemma SuffixKept(was: Text, now: Text, from: nat, to: nat)
    requires from <= to <= |was| == |now| && was[from..] == now[from..]
    ensures was[to..] == now[to..]
  {
    assert was[from..][to - from..] == was[to..] && now[from..][to - from..] == now[to..];
  }

  /**
   * Writes the encoding of a tree at `at` and returns its length.  With room
   * for it and a NUL nothing is cut off, and no other byte changes.
   */
  method EncodeInto(node: Node, buf: array<Byte>, at: nat, room: nat) returns (loc: nat)
    requires |Encode(node)| < room && at + room <= buf.Length
    modifies buf
    ensures loc == |Encode(node)| && buf[at..at + loc] == Encode(node)
    ensures buf[..at] == old(buf[..at]) && buf[at + loc + 1..] == old(buf[at + loc + 1..])
    decreases node, 1
  {
    match node {
      case Str(s) => loc := EncodeStr(if s.Some? then s.value else [], buf, at, room);
      case Int(i) =>
        Print(buf, at, room, Encode(node));
        loc := |Encode(node)|;
      case List(items) => loc := EncodeList(node, buf, at, room);
      case Dict(entries) => loc := EncodeDict(node, buf, at, room);
    }
  }

  method EncodeStr(text: Text, buf: array<Byte>, at: nat, room: nat) returns (loc: nat)
    requires |Prefixed(text)| < room && at + room <= buf.Length
    modifies buf
    ensures loc == |Prefixed(text)| && buf[at..at + loc] == Prefixed(text)
    ensures buf[..at] == old(buf[..at]) && buf[at + loc + 1..] == old(buf[at + loc + 1..])
  {
    hide Decimal;
    ghost var was := buf[..];
    var head := Decimal(|text|) + [COLON];
    assert Prefixed(text) == head + text;
    hide Prefixed;
    Print(buf, at, room, head);
    assert head[..|head|] == head;
    ghost var mid := buf[..];
    Copy(buf, at + |head|, text);
    Kept(mid, buf[..], at, |head|, at + |head|);
    Joined(buf[..], at, head, text);
    loc := |head| + |text|;
    PrefixKept(mid, buf[..], at, at + |head|);
    SuffixKept(was, mid, at + |head| + 1, at + loc + 1);
    SuffixKept(mid, buf[..], at + loc, at + loc + 1);
  }

  /** Prints a piece behind what was written already. */
  method Append(ghost done: Text, text: Text, buf: array<Byte>, at: nat, loc: nat, room: nat)
    requires loc == |done| && loc + |text| < room && at + room <= buf.Length && buf[at..at + loc] == done
    modifies buf
    ensures buf[at..at + (loc + |text|)] == done + text
    ensures buf[..at] == old(buf[..at]) && buf[at + loc + |text| + 1..] == old(buf[at + loc + |text| + 1..])
  {
    ghost var was := buf[..];
    Print(buf, at + loc, room - loc, text);
    assert text[..|text|] == text;
    Kept(was, buf[..], at, loc, at + loc);
    Joined(buf[..], at, done, text);
    PrefixKept(was, buf[..], at, at + loc);
  }

  /** Writes a node behind what was written already. */
  method AppendNode(ghost done: Text, node: Node, buf: array<Byte>, at: nat, loc: nat, room: nat) returns (n: nat)
    requires loc == |done| && loc + |Encode(node)| < room && at + room <= buf.Length && buf[at..at + loc] == done
    modifies buf
    ensures n == loc + |Encode(node)| && buf[at..at + n] == done + Encode(node)
    ensures buf[..at] == old(buf[..at]) && buf[at + n + 1..] == old(buf[at + n + 1..])
    decreases node, 2
  {
    ghost var was := buf[..];
    n := EncodeInto(node, buf, at + loc, room - loc);
    Kept(was, buf[..], at, loc, at + loc);
    Joined(buf[..], at, done, Encode(node));
    PrefixKept(was, buf[..], at, at + loc);
    n := loc + n;
  }

  lemma ListShape(node: Node)
    requires node.List?
    ensures Encode(node) == [LETTER_L] + EncodeItems(node.items) + [LETTER_E]
    ensures EncodeItems(node.items[..0]) == []
  {
  }

  method EncodeList(node: Node, buf: array<Byte>, at: nat, room: nat) returns (loc: nat)
    requires node.List? && |Encode(node)| < room && at + room <= buf.Length
    modifies buf
    ensures loc == |Encode(node)| && buf[at..at + loc] == Encode(node)
    ensures buf[..at] == old(buf[..at]) && buf[at + loc + 1..] == old(buf[at + loc + 1..])
    decreases node, 0
  {
    hide Encode, EncodeItems;
    var items := node.items;
    ListShape(node);
    Print(buf, at, room, [LETTER_L]);
    loc := 1;
    ghost var done := [LETTER_L];
    for i := 0 to |items|
      invariant done == [LETTER_L] + EncodeItems(items[..i]) && loc == |done| && at + loc < buf.Length
      invariant buf[at..at + loc] == done
      invariant buf[..at] == old(buf[..at]) && buf[at + loc + 1..] == old(buf[at + loc + 1..])
    {
      ItemsSplit(items, i);
      Assoc([LETTER_L], EncodeItems(items[..i]), Encode(items[i]));
      ghost var was, start := buf[..], at + loc + 1;
      loc := AppendNode(done, items[i], buf, at, loc, room);
      done := done + Encode(items[i]);
      SuffixKept(old(buf[..]), was, start, at + loc + 1);
    }
    assert items[..|items|] == items;
    ghost var was := buf[..];
    Append(done, [LETTER_E], buf, at, loc, room);
    SuffixKept(old(buf[..]), was, at + loc + 1, at + loc + 2);
    loc := loc + 1;
  }

  lemma DictShape(node: Node)
    requires node.Dict?
    ensures Encode(node) == [LETTER_D] + EncodeEntries(node.entries) + [LETTER_E]
    ensures EncodeEntries(node.entries[..0]) == []
  {
  }

  method EncodeDict(node: Node, buf: array<Byte>, at: nat, room: nat) returns (loc: nat)
    requires node.Dict? && |Encode(node)| < room && at + room <= buf.Length
    modifies buf
    ensures loc == |Encode(node)| && buf[at..at + loc] == Encode(node)
    ensures buf[..at] == old(buf[..at]) && buf[at + loc + 1..] == old(buf[at + loc + 1..])
    decreases node, 0
  {
    hide CString, Prefixed, Encode, EncodeEntries;
    var entries := node.entries;
    DictShape(node);
    Print(buf, at, room, [LETTER_D]);
    loc := 1;
    ghost var done := [LETTER_D];
    for i := 0 to |entries|
      invariant done == [LETTER_D] + EncodeEntries(entries[..i]) && loc == |done| && at + loc < buf.Length
      invariant buf[at..at + loc] == done
      invariant buf[..at] == old(buf[..at]) && buf[at + loc + 1..] == old(buf[at + loc + 1..])
    {
      ghost var was, start := buf[..], at + loc + 1;
      loc := AppendEntry(done, entries, i, buf, at, loc, room);
      done := [LETTER_D] + EncodeEntries(entries[..i + 1]);
      SuffixKept(old(buf[..]), was, start, at + loc + 1);
    }
    assert entries[..|entries|] == entries;
    ghost var was := buf[..];
    Append(done, [LETTER_E], buf, at, loc, room);
    SuffixKept(old(buf[..]), was, at + loc + 1, at + loc + 2);
    loc := loc + 1;
  }

  /** One turn of the loop over a dictionary: the key, then the value. */
  method AppendEntry(ghost done: Text, entries: seq<Entry>, i: nat, buf: array<Byte>, at: nat, loc: nat, room: nat)
    returns (n: nat)
    requires i < |entries| && done == [LETTER_D] + EncodeEntries(entries[..i]) && loc == |done|
    requires |EncodeEntries(entries)| + 2 < room && at + room <= buf.Length
    requires at + loc <= buf.Length && buf[at..at + loc] == done
    modifies buf
    ensures n == |[LETTER_D] + EncodeEntries(entries[..i + 1])| && at + n < buf.Length && loc <= n
    ensures buf[at..at + n] == [LETTER_D] + EncodeEntries(entries[..i + 1])
    ensures buf[..at] == old(buf[..at]) && buf[at + n + 1..] == old(buf[at + n + 1..])
    decreases entries, 3
  {
    hide Prefixed, CString, Encode, EncodeEntries;
    var key := Prefixed(CString(entries[i].key));
    ghost var val := Encode(entries[i].val);
    EntriesSplit(entries, i, key, val);
    Append(done, key, buf, at, loc, room);
    ghost var was, start := buf[..], at + loc + |key| + 1;
    n := AppendNode(done + key, entries[i].val, buf, at, loc + |key|, room);
    Assoc(done, key, val);
    Assoc([LETTER_D], EncodeEntries(entries[..i]), key + val);
    SuffixKept(old(buf[..]), was, start, at + n + 1);
  }
}
