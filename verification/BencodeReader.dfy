/** The decoder with its moving cursor. */
module BencodeReader {
  import opened Collections
  import opened Bencode
  import opened BencodeRoundTrip

  /** What is read in the end if `list` was read before. */
  function After<T>(list: seq<T>, r: (Option<seq<T>>, nat)): (Option<seq<T>>, nat) {
    (if r.0.Some? then Some(list + r.0.value) else None, r.1)
  }

  lemma AfterNothing<T>(r: (Option<seq<T>>, nat))
    ensures After([], r) == r
  {
    assert r.0.Some? ==> [] + r.0.value == r.0.value;
  }

  lemma AfterOne<T>(list: seq<T>, x: T, r: (Option<seq<T>>, nat))
    ensures After(list, After([x], r)) == After(list + [x], r)
  {
    assert r.0.Some? ==> list + ([x] + r.0.value) == list + [x] + r.0.value;
  }

  class Reader {
    const buf: Text
    var data: nat
    var remaining: int

    /** The cursor and the remaining length always add up to the end of the input, where a NUL stands. */
    predicate Valid()
      reads this
    {
      Terminated(buf) && 0 <= remaining && data + remaining == |buf| - 1
    }

    constructor (text: Text)
      ensures Valid() && buf == text + [NUL] && data == 0 && remaining == |text|
    {
      buf, data, remaining := text + [NUL], 0, |text|;
    }

    method DecodeInt() returns (num: int)
      requires Valid()
      modifies this
      ensures Valid() && (num, data) == Strtoll(buf, old(data)) && remaining <= old(remaining)
    {
      var (value, endp) := Strtoll(buf, data);
      remaining := remaining - (endp - data);
      data := endp;
      num := value;
    }

    method DecodeStr() returns (s: Option<Text>)
      requires Valid()
      modifies this
      ensures Valid() && (s, data) == StrAt(buf, old(data)) && remaining <= old(remaining)
    {
      var len := DecodeInt();
      if len < 0 {
        return None;
      }
      if len > remaining - 1 {
        return None;
      }
      if buf[data] == COLON {
        s := Some(buf[data + 1..data + 1 + len]);
        data := data + (len + 1);
        remaining := remaining - (len + 1);
      } else {
        s := None;
      }
    }

    /** Decodes one node; a node that is found has used up at least one byte. */
    method Decode() returns (node: Option<Node>)
      requires Valid()
      modifies this
      ensures Valid() && (node, data) == DecodeAt(buf, old(data)) && remaining <= old(remaining)
      ensures node.Some? ==> remaining < old(remaining)
      decreases remaining, 0
    {
      if remaining == 0 {
        return None;
      }
      var c := buf[data];
      if c == LETTER_L {
        Skip();
        var items := DecodeItems();
        node := if items.Some? then Some(List(items.value)) else None;
      } else if c == LETTER_D {
        Skip();
        var entries := DecodeEntries();
        node := if entries.Some? then Some(Dict(entries.value)) else None;
      } else if c == LETTER_I {
        node := DecodeIntNode();
      } else if IsDigit(c) {
        StrtollMoves(buf, data);
        var s := DecodeStr();
        node := Some(Str(s));
      } else {
        node := None;
      }
    }

    /** A number between its marks. */
    method DecodeIntNode() returns (node: Option<Node>)
      requires Valid() && buf[data] == LETTER_I
      modifies this
      ensures Valid() && (node, data) == DecodeAt(buf, old(data)) && remaining <= old(remaining)
      ensures node.Some? ==> remaining < old(remaining)
    {
      Skip();
      var num := DecodeInt();
      if buf[data] != LETTER_E {
        return None;
      }
      Skip();
      node := Some(Int(num));
    }

    method Skip()
      requires Valid() && remaining > 0
      modifies this
      ensures Valid() && data == old(data) + 1 && remaining == old(remaining) - 1
    {
      remaining := remaining - 1;
      data := data + 1;
    }

    /** The loop over the items of a list, up to and including its end mark. */
    method DecodeItems() returns (items: Option<seq<Node>>)
      requires Valid()
      modifies this
      ensures Valid() && (items, data) == ItemsAt(buf, old(data)) && remaining <= old(remaining)
      ensures items.Some? ==> remaining < old(remaining)
      decreases remaining, 1
    {
      var list: seq<Node> := [];
      AfterNothing(ItemsAt(buf, data));
      while buf[data] != LETTER_E
        invariant Valid() && remaining <= old(remaining)
        invariant ItemsAt(buf, old(data)) == After(list, ItemsAt(buf, data))
        decreases remaining
      {
        var item := Decode();
        if item.None? {
          return None;
        }
        AfterOne(list, item.value, ItemsAt(buf, data));
        list := list + [item.value];
      }
      Skip();
      items := Some(list);
      assert list + [] == list;
    }

    /** The loop over the entries of a dictionary: a key, then a value, even if the key is malformed. */
    method DecodeEntries() returns (entries: Option<seq<Entry>>)
      requires Valid()
      modifies this
      ensures Valid() && (entries, data) == EntriesAt(buf, old(data)) && remaining <= old(remaining)
      ensures entries.Some? ==> remaining < old(remaining)
      decreases remaining, 1
    {
      hide DecodeAt, StrAt;
      var list: seq<Entry> := [];
      AfterNothing(EntriesAt(buf, data));
      while buf[data] != LETTER_E
        invariant Valid() && remaining <= old(remaining)
        invariant EntriesAt(buf, old(data)) == After(list, EntriesAt(buf, data))
        decreases remaining
      {
        var key := DecodeStr();
        var val := Decode();
        if key.None? || val.None? {
          return None;
        }
        var entry := Entry(key.value, val.value);
        AfterOne(list, entry, EntriesAt(buf, data));
        list := list + [entry];
      }
      Skip();
      entries := Some(list);
      assert list + [] == list;
    }
  }
}
