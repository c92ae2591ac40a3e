/** Small definitions every component of the model shares. */
module Basics {

  datatype Option<+T> = None | Some(value: T)

  /** A file byte. */
  type Byte = x: int | 0 <= x < 256

  type Bytes = seq<Byte>

  /** The text with its ASCII letters in lower case. */
  function ToLower(text: Bytes): Bytes {
    seq(|text|, i requires 0 <= i < |text| => if 65 <= text[i] <= 90 then text[i] + 32 else text[i])
  }

  const INT64_MAX: int := 0x7fff_ffff_ffff_ffff
  const INT64_MIN: int := -0x8000_0000_0000_0000

  /** The machine integer the engine computes file sizes with: assigning to it is checked for overflow. */
  type int64 = x: int | INT64_MIN <= x <= INT64_MAX

  /** The machine integer a sum wraps around to. */
  function Wrap64(n: int): int64 {
    (n + 0x8000_0000_0000_0000) % 0x1_0000_0000_0000_0000 - 0x8000_0000_0000_0000
  }

  /** Wrapping every partial sum is wrapping the sum once. */
  lemma WrapSum(a: int, b: int)
    ensures Wrap64(Wrap64(a) + b) == Wrap64(a + b)
  {
    var m := 0x1_0000_0000_0000_0000;
    var turns := (a + 0x8000_0000_0000_0000) / m;
    assert Wrap64(a) == a - turns * m;
    assert (a + b + 0x8000_0000_0000_0000 - turns * m) % m == (a + b + 0x8000_0000_0000_0000) % m;
  }

  lemma WrapIsExact(n: int)
    ensures Wrap64(n) == n <==> INT64_MIN <= n <= INT64_MAX
  {
  }

  /** Clock readings and durations, in nanoseconds. */
  type Time = int

  function Min(a: int, b: int): int {
    if a <= b then a else b
  }

  function Max(a: int, b: int): int {
    if a <= b then b else a
  }

  /** The elements of a sequence that satisfy a predicate, in order. */
  function Filter<T>(s: seq<T>, p: T -> bool): seq<T> {
    if s == [] then [] else (if p(s[0]) then [s[0]] else []) + Filter(s[1..], p)
  }

  ghost predicate NoDuplicates<T>(s: seq<T>) {
    forall i, j :: 0 <= i < j < |s| ==> s[i] != s[j]
  }
}
