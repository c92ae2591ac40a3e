/**
 The grammar of bencoding (the "bencoding" section of BEP 3), with the
 engine's limits, and the reading of a document by one cursor as a function.
 */
module Bencode {
  import opened Basics
  import opened Decimals

  const MAX_BENCODE_DEPTH := 64
  const MAX_BENCODE_VALUES := 200_000
  const LENGTH_LIMIT := 0x1_0000_0000

  const INTEGER: Byte := 105
  const LIST: Byte := 108
  const DICTIONARY: Byte := 100
  const END: Byte := 101
  const COLON: Byte := 58

  // ---------------------------------------------------------------------
  // Trees and their spelling

  /** A document as a tree. An integer keeps its text, because the engine accepts more than one for a number. */
  datatype Node = Integer(text: Bytes) | Text(content: Bytes) | List(items: seq<Node>) | Dictionary(entries: seq<Entry>)

  datatype Entry = Entry(key: Bytes, value: Node)

  function SpellText(content: Bytes): Bytes {
    DecimalNat(|content|) + [COLON] + content
  }

  function Spell(node: Node): Bytes
    decreases node
  {
    match node
    case Integer(text) => [INTEGER] + text + [END]
    case Text(content) => SpellText(content)
    case List(items) => [LIST] + SpellItems(items) + [END]
    case Dictionary(entries) => [DICTIONARY] + SpellEntries(entries) + [END]
  }

  function SpellItems(items: seq<Node>): Bytes
    decreases items
  {
    if items == [] then [] else Spell(items[0]) + SpellItems(items[1..])
  }

  function SpellEntries(entries: seq<Entry>): Bytes
    decreases entries
  {
    if entries == [] then [] else SpellText(entries[0].key) + Spell(entries[0].value) + SpellEntries(entries[1..])
  }

  // ---------------------------------------------------------------------
  // What the engine accepts

  /** A 64-bit number written in decimal, or a non-negative one after a plus sign with any number of zeros. */
  ghost predicate IsIntegerText(text: Bytes) {
    || (exists n :: INT64_MIN <= n <= INT64_MAX && text == Decimal(n))
    || IsPlusText(text)
  }

  predicate IsPlusText(text: Bytes) {
    2 <= |text| && text[0] == PLUS && AllDigits(text[1..]) && DigitsValue(text[1..]) <= INT64_MAX
  }

  predicate DistinctKeys(entries: seq<Entry>) {
    forall i, j :: 0 <= i < j < |entries| ==> entries[i].key != entries[j].key
  }

  /** Well-formed, and with nothing nested more than `room` levels deep. */
  ghost predicate Fits(node: Node, room: int)
    decreases node
  {
    && 0 <= room
    && match node
       case Integer(text) => IsIntegerText(text)
       case Text(content) => |content| < LENGTH_LIMIT
       case List(items) => forall i :: 0 <= i < |items| ==> Fits(items[i], room - 1)
       case Dictionary(entries) =>
         && DistinctKeys(entries)
         && forall i :: 0 <= i < |entries| ==> |entries[i].key| < LENGTH_LIMIT && Fits(entries[i].value, room - 1)
  }

  /** How many values a document holds, keys not counted. */
  function Count(node: Node): nat
    decreases node
  {
    match node
    case Integer(_) => 1
    case Text(_) => 1
    case List(items) => 1 + CountItems(items)
    case Dictionary(entries) => 1 + CountEntries(entries)
  }

  function CountItems(items: seq<Node>): nat
    decreases items
  {
    if items == [] then 0 else Count(items[0]) + CountItems(items[1..])
  }

  function CountEntries(entries: seq<Entry>): nat
    decreases entries
  {
    if entries == [] then 0 else Count(entries[0].value) + CountEntries(entries[1..])
  }

  ghost predicate Acceptable(node: Node) {
    Fits(node, MAX_BENCODE_DEPTH) && Count(node) <= MAX_BENCODE_VALUES
  }

  // ---------------------------------------------------------------------
  // Reading

  /** What was read, where the cursor stands, and how many values were seen so far. */
  datatype Read<T> = Read(what: T, next: nat, values: nat)

  /** The first position at or after `i` that holds the end token, or the end of the data. */
  function FindEnd(data: Bytes, i: nat): (end: nat)
    requires i <= |data|
    ensures i <= end <= |data|
    ensures forall j :: i <= j < end ==> data[j] != END
    ensures end < |data| ==> data[end] == END
    decreases |data| - i
  {
    if i == |data| || data[i] == END then i else FindEnd(data, i + 1)
  }

  function SkipDigits(data: Bytes, i: nat): (end: nat)
    requires i <= |data|
    ensures i <= end <= |data|
    ensures AllDigits(data[i..end])
    ensures end < |data| ==> !IsDigit(data[end])
    decreases |data| - i
  {
    if i == |data| || !IsDigit(data[i]) then i
    else
      var end := SkipDigits(data, i + 1);
      assert data[i..end] == [data[i]] + data[i + 1..end];
      end
  }

  /** The engine's check of an integer's text. */
  predicate AcceptsIntegerText(text: Bytes) {
    && text != []
    && !(1 < |text| && text[0] == ZERO)
    && !([MINUS, ZERO] <= text)
    && ParseInt(text).Some?
  }

  function ReadInteger(data: Bytes, i: nat): (r: Option<Read<Node>>)
    requires i < |data|
    ensures r.Some? ==> i < r.value.next <= |data|
  {
    var end := FindEnd(data, i + 1);
    if end == |data| || !AcceptsIntegerText(data[i + 1..end]) then None
    else Some(Read(Integer(data[i + 1..end]), end + 1, 0))
  }

  /** A string: its length in decimal, a colon, and that many bytes. */
  function ReadText(data: Bytes, i: nat): (r: Option<Read<Bytes>>)
    requires i <= |data|
    ensures r.Some? ==> i < r.value.next <= |data|
  {
    var end := SkipDigits(data, i);
    if end == i || end == |data| || data[end] != COLON then None
    else if 1 < end - i && data[i] == ZERO then None
    else
      var length := DigitsValue(data[i..end]);
      if LENGTH_LIMIT <= length || |data| - (end + 1) < length then None
      else Some(Read(data[end + 1..end + 1 + length], end + 1 + length, 0))
  }

  function ReadValue(data: Bytes, i: nat, depth: nat, values: nat): (r: Option<Read<Node>>)
    requires i <= |data|
    ensures r.Some? ==> i < r.value.next <= |data|
    decreases |data| - i, 0
  {
    if MAX_BENCODE_DEPTH < depth || i == |data| || MAX_BENCODE_VALUES < values + 1 then None
    else if data[i] == INTEGER then
      var integer := ReadInteger(data, i);
      if integer.None? then None else Some(integer.value.(values := values + 1))
    else if data[i] == LIST then
      var items := ReadItems(data, i + 1, depth + 1, values + 1);
      if items.None? then None else Some(Read(List(items.value.what), items.value.next, items.value.values))
    else if data[i] == DICTIONARY then
      var entries := ReadEntries(data, i + 1, depth + 1, values + 1, {});
      if entries.None? then None
      else Some(Read(Dictionary(entries.value.what), entries.value.next, entries.value.values))
    else if IsDigit(data[i]) then
      var text := ReadText(data, i);
      if text.None? then None else Some(Read(Text(text.value.what), text.value.next, values + 1))
    else None
  }

  /** The values up to the end token, and the token. */
  function ReadItems(data: Bytes, i: nat, depth: nat, values: nat): (r: Option<Read<seq<Node>>>)
    requires i <= |data|
    ensures r.Some? ==> i < r.value.next <= |data|
    decreases |data| - i, 1
  {
    if i == |data| then None
    else if data[i] == END then Some(Read([], i + 1, values))
    else
      var first := ReadValue(data, i, depth, values);
      if first.None? then None
      else
        var rest := ReadItems(data, first.value.next, depth, first.value.values);
        if rest.None? then None else Some(rest.value.(what := [first.value.what] + rest.value.what))
  }

  /** The entries up to the end token, and the token; `keys` were seen before. */
  function ReadEntries(data: Bytes, i: nat, depth: nat, values: nat, keys: set<Bytes>): (r: Option<Read<seq<Entry>>>)
    requires i <= |data|
    ensures r.Some? ==> i < r.value.next <= |data|
    decreases |data| - i, 1
  {
    if i == |data| then None
    else if data[i] == END then Some(Read([], i + 1, values))
    else
      var key := ReadText(data, i);
      if key.None? || key.value.what in keys then None
      else
        var first := ReadValue(data, key.value.next, depth, values);
        if first.None? then None
        else
          var rest := ReadEntries(data, first.value.next, depth, first.value.values, keys + {key.value.what});
          if rest.None? then None
          else Some(rest.value.(what := [Entry(key.value.what, first.value.what)] + rest.value.what))
  }

  /** The whole document: one value and nothing after it. */
  function ReadDocument(data: Bytes): Option<Node> {
    var read := ReadValue(data, 0, 0, 0);
    if read.None? || read.value.next != |data| then None else Some(read.value.what)
  }
}
