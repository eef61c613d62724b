/** Bencoded values: what the decoder reads and the encoder writes, and that they are inverse. */
module Bencode {
  import opened Collections

  /** An unsigned byte. */
  type Byte = b: int | 0 <= b < 256
  type Text = seq<Byte>

  /** A string node may hold no string: the decoder leaves one after a malformed string. */
  datatype Node =
    | Str(str: Option<Text>)
    | Int(num: int)
    | List(items: seq<Node>)
    | Dict(entries: seq<Entry>)

  datatype Entry = Entry(key: Text, val: Node)

  const NUL: Byte := 0
  const COLON: Byte := 58
  const LETTER_D: Byte := 100
  const LETTER_E: Byte := 101
  const LETTER_I: Byte := 105
  const LETTER_L: Byte := 108
  const MINUS: Byte := 45
  const PLUS: Byte := 43

  const LLONG_MAX := 0x7fff_ffff_ffff_ffff
  const LLONG_MIN := -0x8000_0000_0000_0000
  const INT_MAX := 0x7fff_ffff

  // ------------------------------------------------------------------ numbers

  const ZERO: Byte := 48

  predicate IsDigit(b: Byte) {
    ZERO <= b < ZERO + 10
  }

  predicate IsSpace(b: Byte) {
    b == 32 || 9 <= b <= 13
  }

  function Decimal(n: nat): (s: Text)
    ensures s != []
  {
    if n < 10 then [ZERO + n] else Decimal(n / 10) + [ZERO + n % 10]
  }

  function Signed(i: int): (s: Text)
    ensures s != []
  {
    if i < 0 then [MINUS] + Decimal(-i) else Decimal(i)
  }

  /** A buffer that ends in a NUL, as the decoder needs it. */
  predicate Terminated(buf: Text) {
    buf != [] && buf[|buf| - 1] == NUL
  }

  function SkipSpace(buf: Text, p: nat): (q: nat)
    requires Terminated(buf) && p < |buf|
    ensures p <= q < |buf| && !IsSpace(buf[q])
    decreases |buf| - p
  {
    if IsSpace(buf[p]) then SkipSpace(buf, p + 1) else p
  }

  function DigitsEnd(buf: Text, p: nat): (q: nat)
    requires Terminated(buf) && p < |buf|
    ensures p <= q < |buf| && !IsDigit(buf[q])
    ensures forall i :: p <= i < q ==> IsDigit(buf[i])
    decreases |buf| - p
  {
    if IsDigit(buf[p]) then DigitsEnd(buf, p + 1) else p
  }

  function Number(digits: Text): nat
    requires forall i :: 0 <= i < |digits| ==> IsDigit(digits[i])
  {
    if digits == [] then 0
    else
      assert IsDigit(digits[|digits| - 1]);
      Number(digits[..|digits| - 1]) * 10 + (digits[|digits| - 1] - ZERO)
  }

  function Clamp(i: int): int {
    if i > LLONG_MAX then LLONG_MAX else if i < LLONG_MIN then LLONG_MIN else i
  }

  /** The library's number reader: the value and where it stops; it stays put without digits. */
  function Strtoll(buf: Text, p: nat): (r: (int, nat))
    requires Terminated(buf) && p < |buf|
    ensures p <= r.1 < |buf| && LLONG_MIN <= r.0 <= LLONG_MAX
  {
    var q := SkipSpace(buf, p);
    var start := if buf[q] == MINUS || buf[q] == PLUS then q + 1 else q;
    var end := DigitsEnd(buf, start);
    if end == start then (0, p)
    else
      var n: int := Number(buf[start..end]);
      (Clamp(if buf[q] == MINUS then -n else n), end)
  }

  // ----------------------------------------------------------------- decoding

  /** A length, a colon and that many bytes; whatever was read of the length is consumed in any case. */
  function StrAt(buf: Text, p: nat): (r: (Option<Text>, nat))
    requires Terminated(buf) && p < |buf|
    ensures p <= r.1 < |buf|
    ensures r.0.Some? ==> p < r.1
  {
    var (n, q) := Strtoll(buf, p);
    if n < 0 || n > |buf| - 1 - q - 1 || buf[q] != COLON then (None, q)
    else (Some(buf[q + 1..q + 1 + n]), q + 1 + n)
  }

  /** The node at `p`, if there is a well-formed one, and where reading stops. */
  function DecodeAt(buf: Text, p: nat): (r: (Option<Node>, nat))
    requires Terminated(buf) && p < |buf|
    ensures p <= r.1 < |buf|
    ensures r.0.Some? ==> p < r.1
    decreases |buf| - p, 0
  {
    if p == |buf| - 1 then (None, p)
    else if buf[p] == LETTER_L then
      var (items, q) := ItemsAt(buf, p + 1);
      (if items.Some? then Some(List(items.value)) else None, q)
    else if buf[p] == LETTER_D then
      var (entries, q) := EntriesAt(buf, p + 1);
      (if entries.Some? then Some(Dict(entries.value)) else None, q)
    else if buf[p] == LETTER_I then
      var (n, q) := Strtoll(buf, p + 1);
      if buf[q] != LETTER_E then (None, q) else (Some(Int(n)), q + 1)
    else if IsDigit(buf[p]) then
      StrtollMoves(buf, p);
      var (s, q) := StrAt(buf, p);
      (Some(Str(s)), q)
    else (None, p)
  }

  function ItemsAt(buf: Text, p: nat): (r: (Option<seq<Node>>, nat))
    requires Terminated(buf) && p < |buf|
    ensures p <= r.1 < |buf|
    ensures r.0.Some? ==> p < r.1
    decreases |buf| - p, 1
  {
    if buf[p] == LETTER_E then (Some([]), p + 1)
    else
      var (item, q) := DecodeAt(buf, p);
      if item.None? then (None, q)
      else
        var (rest, end) := ItemsAt(buf, q);
        (if rest.Some? then Some([item.value] + rest.value) else None, end)
  }

  function EntriesAt(buf: Text, p: nat): (r: (Option<seq<Entry>>, nat))
    requires Terminated(buf) && p < |buf|
    ensures p <= r.1 < |buf|
    ensures r.0.Some? ==> p < r.1
    decreases |buf| - p, 1
  {
    if buf[p] == LETTER_E then (Some([]), p + 1)
    else
      var (key, k) := StrAt(buf, p);
      var (val, q) := DecodeAt(buf, k);
      if key.None? || val.None? then (None, q)
      else
        var (rest, end) := EntriesAt(buf, q);
        (if rest.Some? then Some([Entry(key.value, val.value)] + rest.value) else None, end)
  }

  lemma StrtollMoves(buf: Text, p: nat)
    requires Terminated(buf) && p < |buf| && IsDigit(buf[p])
    ensures p < StrAt(buf, p).1
  {
  }

  // ----------------------------------------------------------------- encoding

  /** The bytes in front of the first NUL, which is what the encoder sees of a key. */
  function CString(s: Text): (c: Text)
    ensures |c| <= |s| && forall i :: 0 <= i < |c| ==> c[i] != NUL
  {
    if s == [] || s[0] == NUL then [] else [s[0]] + CString(s[1..])
  }

  function Prefixed(s: Text): Text {
    Decimal(|s|) + [COLON] + s
  }

  function Encode(t: Node): Text {
    match t
    case Str(s) => Prefixed(if s.Some? then s.value else [])
    case Int(i) => [LETTER_I] + Signed(i) + [LETTER_E]
    case List(items) => [LETTER_L] + EncodeItems(items) + [LETTER_E]
    case Dict(entries) => [LETTER_D] + EncodeEntries(entries) + [LETTER_E]
  }

  function EncodeItems(items: seq<Node>): Text {
    if items == [] then [] else Encode(items[0]) + EncodeItems(items[1..])
  }

  function EncodeEntries(entries: seq<Entry>): Text {
    if entries == [] then []
    else Prefixed(CString(entries[0].key)) + Encode(entries[0].val) + EncodeEntries(entries[1..])
  }
}
