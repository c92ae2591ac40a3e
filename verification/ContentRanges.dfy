/**
 The Content-Range header as it is read from the wire (section 14.4 of RFC
 9110), and its agreement with the ranges the transfer protocol works on.
 */
module ContentRanges {
  import opened Basics
  import opened Decimals
  import opened TransferProtocol

  const SPACE: Byte := 32
  const SLASH: Byte := 47
  const STAR: Byte := 42
  /** "bytes" in ASCII. */
  const UNIT: Bytes := [98, 121, 116, 101, 115]

  predicate IsSpace(c: Byte) {
    c == SPACE || 9 <= c <= 13
  }

  function TrimLeft(text: Bytes): Bytes {
    if text != [] && IsSpace(text[0]) then TrimLeft(text[1..]) else text
  }

  function TrimRight(text: Bytes): Bytes {
    if text != [] && IsSpace(text[|text| - 1]) then TrimRight(text[..|text| - 1]) else text
  }

  function TrimSpace(text: Bytes): Bytes {
    TrimRight(TrimLeft(text))
  }

  /** The text before and after the first separator. */
  function Cut(text: Bytes, separator: Byte): (cut: Option<(Bytes, Bytes)>)
    ensures cut.Some? ==> text == cut.value.0 + [separator] + cut.value.1 && separator !in cut.value.0
    ensures cut.None? ==> separator !in text
  {
    if text == [] then None
    else if text[0] == separator then Some(([], text[1..]))
    else
      var rest := Cut(text[1..], separator);
      if rest.None? then None else Some(([text[0]] + rest.value.0, rest.value.1))
  }

  /** The total and length a header promises for a resume at `offset`; a total of -1 is unknown. */
  function ParseHeader(value: Bytes, offset: int): Option<(int, int)> {
    var unit := Cut(TrimSpace(value), SPACE);
    if unit.None? || ToLower(unit.value.0) != UNIT then None
    else
      var spec := Cut(TrimSpace(unit.value.1), SLASH);
      if spec.None? then None
      else
        var bounds := Cut(spec.value.0, MINUS);
        if bounds.None? then None
        else
          var start, end := ParseInt(bounds.value.0), ParseInt(bounds.value.1);
          if start.None? || end.None? || start.value != offset || end.value < start.value then None
          else if spec.value.1 == [STAR] then Some((-1, Wrap64(end.value - start.value + 1)))
          else
            var total := ParseInt(spec.value.1);
            if total.None? || total.value <= end.value then None
            else Some((total.value, Wrap64(end.value - start.value + 1)))
  }

  /** The header a server writes for a range. */
  function Format(range: ContentRange): Bytes
    requires 0 <= range.start && 0 <= range.end && -1 <= range.total
  {
    UNIT + [SPACE] + (DecimalNat(range.start) + [MINUS] + DecimalNat(range.end) + [SLASH]
                      + if range.total == -1 then [STAR] else DecimalNat(range.total))
  }

  predicate FitsMachine(range: ContentRange) {
    0 <= range.start <= INT64_MAX && 0 <= range.end <= INT64_MAX && -1 <= range.total <= INT64_MAX
  }

  lemma {:induction false} CutAtFirst(before: Bytes, separator: Byte, after: Bytes)
    requires separator !in before
    ensures Cut(before + [separator] + after, separator) == Some((before, after))
  {
    var text := before + [separator] + after;
    if before == [] {
      assert text[1..] == after;
    } else {
      assert text[0] == before[0] && before[0] in before;
      assert text[1..] == before[1..] + [separator] + after;
      CutAtFirst(before[1..], separator, after);
      assert [before[0]] + before[1..] == before;
    }
  }

  lemma NothingToTrim(text: Bytes)
    requires text != [] && !IsSpace(text[0]) && !IsSpace(text[|text| - 1])
    ensures TrimSpace(text) == text
  {
  }

  lemma NumeralFacts(n: nat)
    requires n <= INT64_MAX
    ensures var text := DecimalNat(n);
            && text != [] && IsDigit(text[0]) && IsDigit(text[|text| - 1])
            && (forall c :: c in text ==> IsDigit(c)) && ParseInt(text) == Some(n)
  {
    DecimalNatReads(n);
    DecimalParses(n);
  }

  /** A header written by a server is read as the range it was written for. */
  lemma WrittenHeadersAreRead(range: ContentRange, offset: int)
    requires FitsMachine(range) && (range.total == -1 || range.end < range.total)
    ensures ParseHeader(Format(range), offset)
            == if range.start == offset && range.start <= range.end
               then Some((range.total, Wrap64(range.end - range.start + 1))) else None
  {
    hide DecimalNat, ParseInt, TrimSpace, ToLower, Cut;
    var bounds := DecimalNat(range.start) + [MINUS] + DecimalNat(range.end);
    var total := if range.total == -1 then [STAR] else DecimalNat(range.total);
    var spec := bounds + [SLASH] + total;
    NumeralFacts(range.start);
    NumeralFacts(range.end);
    if range.total != -1 {
      NumeralFacts(range.total);
    }
    assert Format(range) == UNIT + [SPACE] + spec;
    HeaderIsTrimmed(bounds, total);
    CutAtFirst(UNIT, SPACE, spec);
    LowerUnit();
    CutAtFirst(bounds, SLASH, total);
    CutAtFirst(DecimalNat(range.start), MINUS, DecimalNat(range.end));
    NumeralIsNotStar(total);
  }

  lemma HeaderIsTrimmed(bounds: Bytes, total: Bytes)
    requires bounds != [] && total != [] && !IsSpace(bounds[0]) && !IsSpace(total[|total| - 1])
    ensures var spec := bounds + [SLASH] + total;
            TrimSpace(UNIT + [SPACE] + spec) == UNIT + [SPACE] + spec && TrimSpace(spec) == spec
  {
    var spec := bounds + [SLASH] + total;
    NothingToTrim(spec);
    NothingToTrim(UNIT + [SPACE] + spec);
  }

  lemma LowerUnit()
    ensures ToLower(UNIT) == UNIT && SPACE !in UNIT
  {
  }

  lemma NumeralIsNotStar(total: Bytes)
    ensures (forall c :: c in total ==> IsDigit(c)) ==> total != [STAR]
  {
    if total == [STAR] {
      assert STAR in total;
    }
  }

  /**
   Whatever header is accepted means a range the transfer protocol accepts, with the same total and, unless
   the range covers every non-negative machine integer, the same length.
   */
  lemma AcceptedHeadersMeanRanges(value: Bytes, offset: int)
    requires ParseHeader(value, offset).Some?
    ensures exists range: ContentRange ::
              && FitsMachine(range)
              && ParseResumeContentRange(Some(range), offset).Some?
              && var (total, length) := ParseResumeContentRange(Some(range), offset).value;
                 ParseHeader(value, offset) == Some((total, Wrap64(length)))
                 && (Wrap64(length) != length <==> range.start == 0 && range.end == INT64_MAX)
  {
    hide Wrap64, TrimSpace, ToLower, Cut;
    var unit := Cut(TrimSpace(value), SPACE);
    var spec := Cut(TrimSpace(unit.value.1), SLASH);
    var bounds := Cut(spec.value.0, MINUS);
    var start, end := ParseInt(bounds.value.0).value, ParseInt(bounds.value.1).value;
    assert bounds.value.0 != [] && bounds.value.0[0] in bounds.value.0;
    WrapIsExact(end - start + 1);
    var range := ContentRange(start, end, ParseHeader(value, offset).value.0);
    assert FitsMachine(range);
  }

  /** A length that wrapped around is negative, so the comparison with the bytes that are missing refuses it. */
  lemma WrappedLengthIsRefused(value: Bytes, offset: int, remaining: int)
    requires ParseHeader(value, offset).Some? && 0 < remaining <= INT64_MAX
    ensures ParseHeader(value, offset).value.1 == remaining ==>
              exists range: ContentRange ::
                FitsMachine(range)
                  && ParseResumeContentRange(Some(range), offset)
                    == Some((ParseHeader(value, offset).value.0, remaining))
  {
    AcceptedHeadersMeanRanges(value, offset);
  }
}
