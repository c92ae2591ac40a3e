/** The cursor accepts exactly the spellings of acceptable trees, and reads back the tree that was spelled. */
module BencodeProofs {
  import opened Basics
  import opened Decimals
  import opened Bencode

  // ---------------------------------------------------------------------
  // Integers

  /** The engine's check of an integer text accepts exactly the texts of the grammar. */
  lemma IntegerTexts(text: Bytes)
    ensures AcceptsIntegerText(text) <==> IsIntegerText(text)
  {
    if AcceptsIntegerText(text) {
      AcceptedIsIntegerText(text);
    }
    if n :| INT64_MIN <= n <= INT64_MAX && text == Decimal(n) {
      DecimalIsAccepted(n);
    } else if IsPlusText(text) {
      assert text[1..] != [];
    }
  }

  lemma AcceptedIsIntegerText(text: Bytes)
    requires AcceptsIntegerText(text)
    ensures IsIntegerText(text)
  {
    if text[0] == MINUS {
      var digits: Bytes := text[1..];
      assert digits[0] == ZERO ==> [MINUS, ZERO] <= text;
      NumeralIsDecimal(digits);
      assert text == [MINUS] + digits == Decimal(-(DigitsValue(digits) as int));
    } else if text[0] != PLUS {
      NumeralIsDecimal(text);
      assert text == Decimal(DigitsValue(text));
    }
  }

  /** Every 64-bit number written in decimal is accepted, and denotes that number. */
  lemma DecimalIsAccepted(n: int)
    requires INT64_MIN <= n <= INT64_MAX
    ensures AcceptsIntegerText(Decimal(n)) && ParseInt(Decimal(n)) == Some(n)
    ensures Decimal(n)[0] != PLUS
  {
    if n < 0 {
      DecimalNatReads(-n);
      var text := Decimal(n);
      assert text[1..] == DecimalNat(-n);
      assert text[1] != ZERO;
    } else {
      DecimalNatReads(n);
      assert IsDigit(Decimal(n)[0]);
    }
  }

  /** Writing the number of an accepted text again gives the same text exactly when it has no plus sign. */
  lemma ReencodedInteger(text: Bytes)
    requires IsIntegerText(text)
    ensures ParseInt(text).Some? && INT64_MIN <= ParseInt(text).value <= INT64_MAX
    ensures Decimal(ParseInt(text).value) == text <==> text[0] != PLUS
  {
    IntegerTexts(text);
    DecimalIsAccepted(ParseInt(text).value);
    if n :| INT64_MIN <= n <= INT64_MAX && text == Decimal(n) {
      DecimalIsAccepted(n);
    }
  }

  // ---------------------------------------------------------------------
  // Pieces of the data

  /** `piece` stands in the data at position `i`. */
  predicate HasAt(data: Bytes, i: nat, piece: Bytes) {
    i + |piece| <= |data| && data[i..i + |piece|] == piece
  }

  lemma HasBoth(data: Bytes, i: nat, a: Bytes, b: Bytes)
    ensures HasAt(data, i, a + b) <==> HasAt(data, i, a) && HasAt(data, i + |a|, b)
  {
    if i + |a| + |b| <= |data| {
      assert data[i..i + |a + b|] == data[i..i + |a|] + data[i + |a|..i + |a| + |b|];
      assert (a + b)[..|a|] == a && (a + b)[|a|..] == b;
    }
  }

  lemma HasHead(data: Bytes, i: nat, piece: Bytes)
    requires HasAt(data, i, piece) && piece != []
    ensures i + |piece| <= |data| && data[i] == piece[0]
  {
    assert data[i..i + |piece|][0] == data[i];
  }

  lemma HasNothing(data: Bytes, i: nat)
    requires i <= |data|
    ensures HasAt(data, i, [])
  {
  }

  lemma HasSlice(data: Bytes, i: nat, j: nat)
    requires i <= j <= |data|
    ensures HasAt(data, i, data[i..j])
  {
  }

  lemma HasElements(data: Bytes, i: nat, piece: Bytes)
    requires HasAt(data, i, piece)
    ensures i + |piece| <= |data| && data[i..i + |piece|] == piece
    ensures forall k :: i <= k < i + |piece| ==> data[k] == piece[k - i]
  {
    var slice := data[i..i + |piece|];
    assert forall k :: i <= k < i + |piece| ==> data[k] == slice[k - i];
  }

  lemma HasOne(data: Bytes, i: nat, c: Byte)
    ensures HasAt(data, i, [c]) <==> i < |data| && data[i] == c
  {
  }

  lemma HasThree(data: Bytes, i: nat, c: Byte, middle: Bytes, d: Byte)
    ensures HasAt(data, i, [c] + middle + [d]) <==>
              && i < |data| && data[i] == c && HasAt(data, i + 1, middle)
              && i + 1 + |middle| < |data| && data[i + 1 + |middle|] == d
  {
    HasBoth(data, i, [c] + middle, [d]);
    HasBoth(data, i, [c], middle);
    HasOne(data, i, c);
    HasOne(data, i + 1 + |middle|, d);
  }

  // ---------------------------------------------------------------------
  // Integers and strings, both directions

  lemma IntegerTextHasNoEnd(text: Bytes)
    requires AcceptsIntegerText(text)
    ensures forall k :: 0 <= k < |text| ==> text[k] != END
  {
    var digits: Bytes := if text[0] == PLUS || text[0] == MINUS then text[1..] else text;
    forall k | 0 <= k < |text| ensures text[k] != END {
      if digits != text && k > 0 {
        assert IsDigit(digits[k - 1]);
      }
    }
  }

  lemma ReadIntegerComplete(data: Bytes, i: nat, text: Bytes)
    requires HasAt(data, i, Spell(Integer(text))) && IsIntegerText(text)
    ensures ReadInteger(data, i) == Some(Read(Integer(text), i + |Spell(Integer(text))|, 0))
  {
    hide HasAt, IsIntegerText, AcceptsIntegerText;
    IntegerTexts(text);
    IntegerTextHasNoEnd(text);
    HasThree(data, i, INTEGER, text, END);
    HasElements(data, i + 1, text);
    assert FindEnd(data, i + 1) == i + 1 + |text|;
  }

  lemma ReadIntegerSound(data: Bytes, i: nat)
    requires i < |data| && data[i] == INTEGER && ReadInteger(data, i).Some?
    ensures var read := ReadInteger(data, i).value;
            read.what.Integer? && IsIntegerText(read.what.text) && HasAt(data, i, Spell(read.what))
            && read.next == i + |Spell(read.what)|
  {
    hide AcceptsIntegerText, IsIntegerText, HasAt;
    var text := ReadInteger(data, i).value.what.text;
    IntegerTexts(text);
    HasSlice(data, i + 1, FindEnd(data, i + 1));
    HasThree(data, i, INTEGER, text, END);
  }

  lemma ReadTextComplete(data: Bytes, i: nat, content: Bytes)
    requires HasAt(data, i, SpellText(content)) && |content| < LENGTH_LIMIT
    ensures ReadText(data, i) == Some(Read(content, i + |SpellText(content)|, 0))
  {
    hide HasAt, DecimalNat;
    var length := DecimalNat(|content|);
    DecimalNatReads(|content|);
    HasBoth(data, i, length + [COLON], content);
    HasBoth(data, i, length, [COLON]);
    HasOne(data, i + |length|, COLON);
    HasElements(data, i, length);
    HasElements(data, i + |length| + 1, content);
    SkipsExactly(data, i, i + |length|);
  }

  lemma SkipsExactly(data: Bytes, i: nat, end: nat)
    requires i <= end < |data| && !IsDigit(data[end])
    requires forall k :: i <= k < end ==> IsDigit(data[k])
    ensures SkipDigits(data, i) == end
  {
    var found := SkipDigits(data, i);
    assert forall k :: i <= k < found ==> data[k] == data[i..found][k - i];
  }

  lemma ReadTextSound(data: Bytes, i: nat)
    requires i <= |data| && ReadText(data, i).Some?
    ensures var read := ReadText(data, i).value;
            |read.what| < LENGTH_LIMIT && HasAt(data, i, SpellText(read.what))
              && read.next == i + |SpellText(read.what)|
  {
    hide HasAt, DecimalNat, DigitsValue;
    var read := ReadText(data, i).value;
    var end := SkipDigits(data, i);
    var length := data[i..end];
    NumeralIsDecimal(length);
    assert DecimalNat(|read.what|) == length;
    HasSlice(data, i, end);
    HasSlice(data, end + 1, read.next);
    HasOne(data, end, COLON);
    HasBoth(data, i, length, [COLON]);
    HasBoth(data, i, length + [COLON], read.what);
  }

  /** A value never begins with the end token, so a collection ends where its end token stands. */
  lemma SpellingStarts(node: Node)
    ensures var spelled := Spell(node);
            spelled != [] && spelled[0] == match node
                             case Integer(_) => INTEGER
                             case Text(content) => DecimalNat(|content|)[0]
                             case List(_) => LIST
                             case Dictionary(_) => DICTIONARY
    ensures node.Text? ==> IsDigit(Spell(node)[0])
  {
    if node.Text? {
      DecimalNatReads(|node.content|);
    }
  }

  lemma SpellingDoesNotEnd(node: Node)
    ensures Spell(node) != [] && Spell(node)[0] != END
  {
    SpellingStarts(node);
  }

  lemma KeyStarts(key: Bytes)
    ensures SpellText(key) != [] && IsDigit(SpellText(key)[0])
  {
    DecimalNatReads(|key|);
  }

  // ---------------------------------------------------------------------
  // Completeness: what was spelled is read back

  /** Wherever a fitting tree is spelled in the data, the cursor reads that tree and stops right after it. */
  lemma {:induction false} ReadValueComplete(data: Bytes, i: nat, depth: nat, values: nat, node: Node)
    requires HasAt(data, i, Spell(node))
    requires Fits(node, MAX_BENCODE_DEPTH - depth) && values + Count(node) <= MAX_BENCODE_VALUES
    ensures ReadValue(data, i, depth, values) == Some(Read(node, i + |Spell(node)|, values + Count(node)))
    decreases node
  {
    hide HasAt, ReadText, ReadInteger, SpellText, DecimalNat, IsIntegerText, ReadItems, ReadEntries, SpellItems,
         SpellEntries, CountItems, CountEntries;
    SpellingStarts(node);
    HasHead(data, i, Spell(node));
    match node {
      case Integer(text) => ReadIntegerComplete(data, i, text);
      case Text(content) => ReadTextComplete(data, i, content);
      case List(items) =>
        HasThree(data, i, LIST, SpellItems(items), END);
        ReadItemsComplete(data, i + 1, depth + 1, values + 1, items);
      case Dictionary(entries) =>
        HasThree(data, i, DICTIONARY, SpellEntries(entries), END);
        ReadEntriesComplete(data, i + 1, depth + 1, values + 1, entries, {});
    }
  }

  lemma {:induction false} ReadItemsComplete(data: Bytes, i: nat, depth: nat, values: nat, items: seq<Node>)
    requires HasAt(data, i, SpellItems(items)) && i + |SpellItems(items)| < |data|
    requires data[i + |SpellItems(items)|] == END
    requires forall k :: 0 <= k < |items| ==> Fits(items[k], MAX_BENCODE_DEPTH - depth)
    requires values + CountItems(items) <= MAX_BENCODE_VALUES
    ensures ReadItems(data, i, depth, values)
            == Some(Read(items, i + |SpellItems(items)| + 1, values + CountItems(items)))
    decreases items
  {
    hide HasAt, ReadText, ReadInteger, SpellText, DecimalNat, IsIntegerText, Spell, Fits, Count, ReadValue;
    if items != [] {
      var first := items[0];
      HasBoth(data, i, Spell(first), SpellItems(items[1..]));
      SpellingDoesNotEnd(first);
      HasHead(data, i, Spell(first));
      ReadValueComplete(data, i, depth, values, first);
      ReadItemsComplete(data, i + |Spell(first)|, depth, values + Count(first), items[1..]);
      assert [first] + items[1..] == items;
    }
  }

  lemma {:induction false} ReadEntriesComplete(data: Bytes, i: nat, depth: nat, values: nat, entries: seq<Entry>,
                                               keys: set<Bytes>)
    requires HasAt(data, i, SpellEntries(entries))
    requires i + |SpellEntries(entries)| < |data| && data[i + |SpellEntries(entries)|] == END
    requires DistinctKeys(entries) && forall k :: 0 <= k < |entries| ==> entries[k].key !in keys
    requires forall k :: 0 <= k < |entries| ==>
                           |entries[k].key| < LENGTH_LIMIT && Fits(entries[k].value, MAX_BENCODE_DEPTH - depth)
    requires values + CountEntries(entries) <= MAX_BENCODE_VALUES
    ensures ReadEntries(data, i, depth, values, keys)
            == Some(Read(entries, i + |SpellEntries(entries)| + 1, values + CountEntries(entries)))
    decreases entries
  {
    hide HasAt, ReadText, ReadInteger, SpellText, DecimalNat, IsIntegerText, Spell, Fits, Count, ReadValue;
    if entries != [] {
      var key, value, rest := entries[0].key, entries[0].value, entries[1..];
      HasBoth(data, i, SpellText(key) + Spell(value), SpellEntries(rest));
      HasBoth(data, i, SpellText(key), Spell(value));
      KeyStarts(key);
      HasHead(data, i, SpellText(key));
      ReadTextComplete(data, i, key);
      ReadValueComplete(data, i + |SpellText(key)|, depth, values, value);
      assert forall k :: 0 <= k < |rest| ==> rest[k] == entries[k + 1];
      ReadEntriesComplete(data, i + |SpellText(key)| + |Spell(value)|, depth, values + Count(value), rest,
                          keys + {key});
      assert [Entry(key, value)] + rest == entries;
    }
  }

  // ---------------------------------------------------------------------
  // Soundness: what was read is spelled there

  /** Whatever the cursor reads stands spelled in the data, fits the limits, and was counted right. */
  lemma {:induction false} ReadValueSound(data: Bytes, i: nat, depth: nat, values: nat)
    requires i <= |data| && ReadValue(data, i, depth, values).Some?
    ensures var read := ReadValue(data, i, depth, values).value;
            && HasAt(data, i, Spell(read.what)) && read.next == i + |Spell(read.what)|
            && Fits(read.what, MAX_BENCODE_DEPTH - depth)
            && read.values == values + Count(read.what) <= MAX_BENCODE_VALUES
    decreases |data| - i, 0
  {
    hide HasAt, ReadText, ReadInteger, SpellText, DecimalNat, IsIntegerText, ReadItems, ReadEntries, SpellItems,
         SpellEntries, CountItems, CountEntries;
    var read := ReadValue(data, i, depth, values).value;
    if data[i] == INTEGER {
      ReadIntegerSound(data, i);
    } else if data[i] == LIST {
      ReadItemsSound(data, i + 1, depth + 1, values + 1);
      HasThree(data, i, LIST, SpellItems(read.what.items), END);
    } else if data[i] == DICTIONARY {
      ReadEntriesSound(data, i + 1, depth + 1, values + 1, {});
      HasThree(data, i, DICTIONARY, SpellEntries(read.what.entries), END);
    } else {
      ReadTextSound(data, i);
    }
  }

  lemma {:induction false} ReadItemsSound(data: Bytes, i: nat, depth: nat, values: nat)
    requires i <= |data| && values <= MAX_BENCODE_VALUES && ReadItems(data, i, depth, values).Some?
    ensures var read := ReadItems(data, i, depth, values).value;
            && HasAt(data, i, SpellItems(read.what)) && read.next == i + |SpellItems(read.what)| + 1
            && data[read.next - 1] == END
            && (forall k :: 0 <= k < |read.what| ==> Fits(read.what[k], MAX_BENCODE_DEPTH - depth))
            && read.values == values + CountItems(read.what) <= MAX_BENCODE_VALUES
    decreases |data| - i, 1
  {
    hide HasAt, ReadText, ReadInteger, SpellText, DecimalNat, IsIntegerText, Spell, Fits, Count, ReadValue;
    if data[i] != END {
      var first := ReadValue(data, i, depth, values).value;
      ReadValueSound(data, i, depth, values);
      ReadItemsSound(data, first.next, depth, first.values);
      var rest := ReadItems(data, first.next, depth, first.values).value.what;
      HasBoth(data, i, Spell(first.what), SpellItems(rest));
      assert ([first.what] + rest)[1..] == rest;
    } else {
      HasNothing(data, i);
    }
  }

  lemma {:induction false} ReadEntriesSound(data: Bytes, i: nat, depth: nat, values: nat, keys: set<Bytes>)
    requires i <= |data| && values <= MAX_BENCODE_VALUES && ReadEntries(data, i, depth, values, keys).Some?
    ensures var read := ReadEntries(data, i, depth, values, keys).value;
            && HasAt(data, i, SpellEntries(read.what)) && read.next == i + |SpellEntries(read.what)| + 1
            && data[read.next - 1] == END
            && DistinctKeys(read.what)
            && (forall k :: 0 <= k < |read.what| ==>
                  && read.what[k].key !in keys && |read.what[k].key| < LENGTH_LIMIT
                  && Fits(read.what[k].value, MAX_BENCODE_DEPTH - depth))
            && read.values == values + CountEntries(read.what) <= MAX_BENCODE_VALUES
    decreases |data| - i, 1
  {
    hide HasAt, ReadText, ReadInteger, SpellText, DecimalNat, IsIntegerText, Spell, Fits, Count, ReadValue;
    if data[i] != END {
      var key := ReadText(data, i).value;
      ReadTextSound(data, i);
      var first := ReadValue(data, key.next, depth, values).value;
      ReadValueSound(data, key.next, depth, values);
      ReadEntriesSound(data, first.next, depth, first.values, keys + {key.what});
      var rest := ReadEntries(data, first.next, depth, first.values, keys + {key.what}).value.what;
      HasBoth(data, i, SpellText(key.what) + Spell(first.what), SpellEntries(rest));
      HasBoth(data, i, SpellText(key.what), Spell(first.what));
      assert ([Entry(key.what, first.what)] + rest)[1..] == rest;
    } else {
      HasNothing(data, i);
    }
  }

  // ---------------------------------------------------------------------
  // Main results

  /** The document read from a spelling is the tree that was spelled, whatever follows it. */
  lemma RoundTrip(node: Node, rest: Bytes)
    requires Acceptable(node)
    ensures ReadValue(Spell(node) + rest, 0, 0, 0) == Some(Read(node, |Spell(node)|, Count(node)))
    ensures ReadDocument(Spell(node)) == Some(node)
  {
    hide Spell, Fits, Count, ReadValue;
    var data := Spell(node) + rest;
    assert data[0..|Spell(node)|] == Spell(node);
    ReadValueComplete(data, 0, 0, 0, node);
    assert Spell(node)[0..|Spell(node)|] == Spell(node);
    ReadValueComplete(Spell(node), 0, 0, 0, node);
  }

  /** No spelling is a prefix of another tree's spelling; in particular different trees never share one. */
  lemma SpellingsArePrefixFree(a: Node, b: Node)
    requires Acceptable(a) && Acceptable(b) && Spell(a) <= Spell(b)
    ensures a == b
  {
    assert Spell(b) == Spell(a) + Spell(b)[|Spell(a)|..];
    RoundTrip(a, Spell(b)[|Spell(a)|..]);
    assert Spell(b) + [] == Spell(b);
    RoundTrip(b, []);
  }

  /**
   A document is accepted exactly when it spells an acceptable tree, and then it spells only the tree that is read.
   */
  lemma AcceptedDocuments(data: Bytes)
    ensures ReadDocument(data).Some? <==> exists node :: Acceptable(node) && data == Spell(node)
    ensures forall node :: Acceptable(node) && data == Spell(node) ==> ReadDocument(data) == Some(node)
  {
    hide Spell, Fits, Count, ReadValue;
    if ReadDocument(data).Some? {
      ReadValueSound(data, 0, 0, 0);
      var node := ReadDocument(data).value;
      assert data[0..|data|] == data;
      assert Acceptable(node) && data == Spell(node);
    }
    forall node | Acceptable(node) && data == Spell(node) ensures ReadDocument(data) == Some(node) {
      RoundTrip(node, []);
    }
  }

  // ---------------------------------------------------------------------
  // Writing a document again

  /** The tree with every number written in decimal: what an encoder makes of the values that were read. */
  function Reencoded(node: Node): Node
    decreases node
  {
    match node
    case Integer(text) => if ParseInt(text).Some? then Integer(Decimal(ParseInt(text).value)) else node
    case Text(_) => node
    case List(items) => List(ReencodedItems(items))
    case Dictionary(entries) => Dictionary(ReencodedEntries(entries))
  }

  function ReencodedItems(items: seq<Node>): (r: seq<Node>)
    ensures |r| == |items| && forall i :: 0 <= i < |items| ==> r[i] == Reencoded(items[i])
    decreases items
  {
    if items == [] then [] else [Reencoded(items[0])] + ReencodedItems(items[1..])
  }

  function ReencodedEntries(entries: seq<Entry>): (r: seq<Entry>)
    ensures |r| == |entries|
    ensures forall i :: 0 <= i < |entries| ==> r[i] == Entry(entries[i].key, Reencoded(entries[i].value))
    decreases entries
  {
    if entries == [] then []
    else [Entry(entries[0].key, Reencoded(entries[0].value))] + ReencodedEntries(entries[1..])
  }

  /** Some integer of the document is written with a plus sign. */
  predicate HasPlus(node: Node)
    decreases node
  {
    match node
    case Integer(text) => text != [] && text[0] == PLUS
    case Text(_) => false
    case List(items) => exists i :: 0 <= i < |items| && HasPlus(items[i])
    case Dictionary(entries) => exists i :: 0 <= i < |entries| && HasPlus(entries[i].value)
  }

  /** Encoding again stays within the limits, and changes the tree exactly if it has a plus sign. */
  ghost predicate ReencodesWell(node: Node, room: int) {
    && Fits(Reencoded(node), room) && Count(Reencoded(node)) == Count(node)
    && (Reencoded(node) == node <==> !HasPlus(node))
  }

  lemma {:induction false} Reencoding(node: Node, room: int)
    requires Fits(node, room)
    ensures ReencodesWell(node, room)
    decreases node
  {
    hide ReencodesWell;
    match node {
      case Integer(_) => LeafReencodesWell(node, room);
      case Text(_) => LeafReencodesWell(node, room);
      case List(items) =>
        forall i | 0 <= i < |items| ensures ReencodesWell(items[i], room - 1) {
          Reencoding(items[i], room - 1);
        }
        ListReencodesWell(items, room);
      case Dictionary(entries) =>
        forall i | 0 <= i < |entries| ensures ReencodesWell(entries[i].value, room - 1) {
          Reencoding(entries[i].value, room - 1);
        }
        DictionaryReencodesWell(entries, room);
    }
  }

  lemma LeafReencodesWell(node: Node, room: int)
    requires Fits(node, room) && (node.Integer? || node.Text?)
    ensures ReencodesWell(node, room)
  {
    if node.Integer? {
      ReencodedInteger(node.text);
      IntegerTexts(node.text);
      var n := ParseInt(node.text).value;
      assert Integer(Decimal(n)) == Reencoded(node);
    }
  }

  lemma ListReencodesWell(items: seq<Node>, room: int)
    requires 0 <= room && forall i :: 0 <= i < |items| ==> ReencodesWell(items[i], room - 1)
    ensures ReencodesWell(List(items), room)
  {
    var after := ReencodedItems(items);
    SameItemCount(items, after);
    assert after == items <==> forall i :: 0 <= i < |items| ==> after[i] == items[i];
  }

  lemma DictionaryReencodesWell(entries: seq<Entry>, room: int)
    requires Fits(Dictionary(entries), room)
    requires forall i :: 0 <= i < |entries| ==> ReencodesWell(entries[i].value, room - 1)
    ensures ReencodesWell(Dictionary(entries), room)
  {
    var after := ReencodedEntries(entries);
    SameEntryCount(entries, after);
    assert after == entries <==> forall i :: 0 <= i < |entries| ==> after[i] == entries[i];
  }

  lemma {:induction false} SameItemCount(a: seq<Node>, b: seq<Node>)
    requires |a| == |b| && forall i :: 0 <= i < |a| ==> Count(a[i]) == Count(b[i])
    ensures CountItems(a) == CountItems(b)
  {
    if a != [] {
      SameItemCount(a[1..], b[1..]);
    }
  }

  lemma {:induction false} SameEntryCount(a: seq<Entry>, b: seq<Entry>)
    requires |a| == |b| && forall i :: 0 <= i < |a| ==> Count(a[i].value) == Count(b[i].value)
    ensures CountEntries(a) == CountEntries(b)
  {
    if a != [] {
      SameEntryCount(a[1..], b[1..]);
    }
  }

  /**
   Encoding an accepted document again is accepted, and gives back its bytes exactly if no integer has a plus sign.
   */
  lemma ReencodingGivesTheBytesBack(data: Bytes)
    requires ReadDocument(data).Some?
    ensures var node := ReadDocument(data).value;
            && ReadDocument(Spell(Reencoded(node))).Some?
            && (Spell(Reencoded(node)) == data <==> !HasPlus(node))
  {
    hide Spell, Fits, Count, Reencoded, HasPlus;
    AcceptedDocuments(data);
    var node := ReadDocument(data).value;
    var spelled :| Acceptable(spelled) && data == Spell(spelled);
    Reencoding(node, MAX_BENCODE_DEPTH);
    RoundTrip(Reencoded(node), []);
    if Spell(Reencoded(node)) == data {
      SpellingsArePrefixFree(Reencoded(node), node);
    }
  }
}
