/** The validator: one cursor over the data and a count of values, moved by recursive methods. */
module BencodeValidator {
  import opened Basics
  import opened Decimals
  import opened Bencode
  import opened BencodeProofs

  class Validator {
    const data: Bytes
    var index: nat
    var values: nat

    ghost predicate Valid()
      reads this
    {
      index <= |data|
    }

    constructor (data: Bytes)
      ensures this.data == data && index == 0 && values == 0
    {
      this.data := data;
      index, values := 0, 0;
    }

    /** Reads one value; the cursor ends right after it, and never leaves the data. */
    method Value(depth: nat) returns (ok: bool)
      requires Valid()
      modifies this
      ensures Valid() && old(index) <= index
      ensures var read := ReadValue(data, old(index), depth, old(values));
              ok == read.Some? && (ok ==> index == read.value.next && values == read.value.values)
      decreases |data| - index, 1
    {
      if depth > MAX_BENCODE_DEPTH || index >= |data| {
        return false;
      }
      values := values + 1;
      if values > MAX_BENCODE_VALUES {
        return false;
      }
      if data[index] == INTEGER {
        ok := IntegerValue();
      } else if data[index] == LIST {
        ok := Items(depth);
      } else if data[index] == DICTIONARY {
        ok := Entries(depth);
      } else if IsDigit(data[index]) {
        var key: Bytes;
        ok, key := StringValue();
      } else {
        ok := false;
      }
    }

    method Items(depth: nat) returns (ok: bool)
      requires Valid() && index < |data|
      modifies this
      ensures Valid() && old(index) < index
      ensures var read := ReadItems(data, old(index) + 1, depth + 1, old(values));
              ok == read.Some? && (ok ==> index == read.value.next && values == read.value.values)
      decreases |data| - index, 0
    {
      index := index + 1;
      ghost var whole := ReadItems(data, index, depth + 1, values);
      while index < |data| && data[index] != END
        invariant Valid() && old(index) < index
        invariant SameEnd(whole, ReadItems(data, index, depth + 1, values))
        decreases |data| - index
      {
        var read := Value(depth + 1);
        if !read {
          return false;
        }
      }
      ok := End();
    }

    method Entries(depth: nat) returns (ok: bool)
      requires Valid() && index < |data|
      modifies this
      ensures Valid() && old(index) < index
      ensures var read := ReadEntries(data, old(index) + 1, depth + 1, old(values), {});
              ok == read.Some? && (ok ==> index == read.value.next && values == read.value.values)
      decreases |data| - index, 0
    {
      index := index + 1;
      var keys: set<Bytes> := {};
      ghost var whole := ReadEntries(data, index, depth + 1, values, keys);
      while index < |data| && data[index] != END
        invariant Valid() && old(index) < index
        invariant SameEnd(whole, ReadEntries(data, index, depth + 1, values, keys))
        decreases |data| - index
      {
        var isText, key := StringValue();
        if !isText {
          return false;
        }
        if key in keys {
          return false;
        }
        keys := keys + {key};
        var read := Value(depth + 1);
        if !read {
          return false;
        }
      }
      ok := End();
    }

    method IntegerValue() returns (ok: bool)
      requires Valid() && index < |data|
      modifies this`index
      ensures Valid() && old(index) < index
      ensures var read := ReadInteger(data, old(index)); ok == read.Some? && (ok ==> index == read.value.next)
    {
      hide ParseInt, DigitsValue, AllDigits;
      index := index + 1;
      var start := index;
      while index < |data| && data[index] != END
        invariant start <= index <= |data|
        invariant FindEnd(data, start) == FindEnd(data, index)
      {
        index := index + 1;
      }
      if index >= |data| || start == index {
        return false;
      }
      var value := data[start..index];
      if (|value| > 1 && value[0] == ZERO) || [MINUS, ZERO] <= value {
        return false;
      }
      if ParseInt(value).None? {
        return false;
      }
      index := index + 1;
      return true;
    }

    method StringValue() returns (ok: bool, value: Bytes)
      requires Valid()
      modifies this`index
      ensures Valid() && old(index) <= index
      ensures var read := ReadText(data, old(index));
              ok == read.Some? && (ok ==> index == read.value.next && value == read.value.what)
    {
      value := [];
      var start := index;
      while index < |data| && IsDigit(data[index])
        invariant start <= index <= |data|
        invariant SkipDigits(data, start) == SkipDigits(data, index)
      {
        index := index + 1;
      }
      if start == index || index >= |data| || data[index] != COLON {
        return false, value;
      }
      var lengthText := data[start..index];
      if |lengthText| > 1 && lengthText[0] == ZERO {
        return false, value;
      }
      var length := DigitsValue(lengthText);
      if length >= LENGTH_LIMIT {
        return false, value;
      }
      index := index + 1;
      if |data| - index < length {
        return false, value;
      }
      value := data[index..index + length];
      index := index + length;
      return true, value;
    }

    method End() returns (ok: bool)
      requires Valid()
      modifies this`index
      ensures Valid()
      ensures ok == (old(index) < |data| && data[old(index)] == END)
      ensures index == if ok then old(index) + 1 else old(index)
    {
      if index >= |data| || data[index] != END {
        return false;
      }
      index := index + 1;
      return true;
    }
  }

  /** Both readings fail, or end at the same place with the same count. */
  ghost predicate SameEnd<T>(a: Option<Read<T>>, b: Option<Read<T>>) {
    a.Some? == b.Some? && (a.Some? ==> a.value.next == b.value.next && a.value.values == b.value.values)
  }

  /** Accepts exactly the documents of the grammar within the limits. */
  method ValidateBencode(data: Bytes) returns (ok: bool)
    ensures ok == ReadDocument(data).Some?
    ensures ok <==> exists node :: Acceptable(node) && data == Spell(node)
  {
    AcceptedDocuments(data);
    var validator := new Validator(data);
    ok := validator.Value(0);
    if !ok {
      return;
    }
    ok := validator.index == |data|;
  }
}
