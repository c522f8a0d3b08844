/**
 * The part of PHP 7's value model and standard library that the generated
 * fixture calls: values (zvals), `stripos`, `array_shift` and `array_unshift`.
 * A PHP array is modelled as a list of values with consecutive integer keys.
 */
module PhpValues {
  import opened Wrappers

  /** A PHP value as far as the fixture can observe one. */
  datatype Value = Null | Bool(b: bool) | Int(i: int) | Str(s: string) | Arr(elems: seq<Value>)

  // ---------------------------------------------------------------------
  // Text conversion, as PHP 7 performs it for a string parameter
  // ---------------------------------------------------------------------

  function DigitChar(d: nat): char
    requires d < 10
  {
    "0123456789"[d]
  }

  /** Decimal text of a natural number, without leading zeros. */
  function NatText(n: nat): string
    decreases n
  {
    if n < 10 then [DigitChar(n)] else NatText(n / 10) + [DigitChar(n % 10)]
  }

  /** Decimal text of an integer, with a leading minus sign when negative. */
  function IntText(n: int): string
  {
    if n < 0 then "-" + NatText(-n) else NatText(n)
  }

  /** Characters that may appear in the decimal text of an integer. */
  predicate IsNumeral(c: char)
  {
    c == '-' || '0' <= c <= '9'
  }

  lemma {:induction false} NatTextIsNumeral(n: nat)
    ensures forall k :: 0 <= k < |NatText(n)| ==> '0' <= NatText(n)[k] <= '9'
    decreases n
  {
    if n >= 10 {
      NatTextIsNumeral(n / 10);
    }
  }

  lemma IntTextIsNumeral(n: int)
    ensures forall k :: 0 <= k < |IntText(n)| ==> IsNumeral(IntText(n)[k])
  {
    if n < 0 {
      NatTextIsNumeral(-n);
    } else {
      NatTextIsNumeral(n);
    }
  }

  /**
   * The string a parameter declared as a string receives for `v`, or None
   * when PHP 7 refuses the value (an array) and the call returns NULL.
   */
  function Text(v: Value): (r: Option<string>)
    ensures r.None? <==> v.Arr?
    ensures v.Str? ==> r == Some(v.s)
    ensures v.Null? || v == Bool(false) ==> r == Some("")
    ensures v == Bool(true) ==> r == Some("1")
    ensures v.Int? ==> r.Some? && |r.value| > 0 && forall k :: 0 <= k < |r.value| ==> IsNumeral(r.value[k])
  {
    match v
    case Null => Some("")
    case Bool(b) => Some(if b then "1" else "")
    case Int(n) => IntTextIsNumeral(n); Some(IntText(n))
    case Str(s) => Some(s)
    case Arr(_) => None
  }

  // ---------------------------------------------------------------------
  // stripos
  // ---------------------------------------------------------------------

  /** ASCII lower-casing, as `tolower` does in the C locale. */
  function LowerChar(c: char): char
  {
    if 'A' <= c <= 'Z' then (c as int + 32) as char else c
  }

  function Lower(s: string): string
  {
    seq(|s|, k requires 0 <= k < |s| => LowerChar(s[k]))
  }

  /** `needle` occurs in `haystack` starting at position `p`. */
  predicate OccursAt(haystack: string, needle: string, p: nat)
  {
    p + |needle| <= |haystack| && haystack[p..p + |needle|] == needle
  }

  /** The first position at or after `from` where `needle` occurs in `haystack`. */
  function FindFrom(haystack: string, needle: string, from: nat): (r: Option<nat>)
    requires from <= |haystack|
    ensures r.Some? ==> from <= r.value && OccursAt(haystack, needle, r.value)
    ensures r.Some? ==> forall q: nat :: from <= q < r.value ==> !OccursAt(haystack, needle, q)
    ensures r.None? ==> forall q: nat :: from <= q ==> !OccursAt(haystack, needle, q)
    decreases |haystack| - from
  {
    if from + |needle| > |haystack| then None
    else if haystack[from..from + |needle|] == needle then Some(from)
    else FindFrom(haystack, needle, from + 1)
  }

  /**
   * PHP 7 `stripos(haystack, needle)` with a string needle: the first
   * position of `needle` in the haystack ignoring case, `false` when there
   * is none or the needle is empty, and NULL when the haystack is an array.
   */
  function Stripos(haystack: Value, needle: string): (r: Value)
    ensures r == Null <==> haystack.Arr?
    ensures r.Null? || r.Int? || r == Bool(false)
    ensures !haystack.Arr? && |needle| == 0 ==> r == Bool(false)
    ensures r.Int? ==> Text(haystack).Some? && 0 <= r.i && r.i + |needle| <= |Text(haystack).value|
  {
    match Text(haystack)
    case None => Null
    case Some(h) =>
      if |needle| == 0 || |needle| > |h| then Bool(false)
      else
        match FindFrom(Lower(h), Lower(needle), 0)
        case None => Bool(false)
        case Some(p) => Int(p)
  }

  /**
   * What `stripos` returns, stated against occurrences: a position is the
   * first case-insensitive occurrence, and `false` means the needle is empty
   * or occurs nowhere.
   */
  lemma StriposSpec(haystack: Value, needle: string)
    ensures Stripos(haystack, needle).Int? ==> Text(haystack).Some? && Stripos(haystack, needle).i >= 0
    ensures Stripos(haystack, needle).Int? ==>
      OccursAt(Lower(Text(haystack).value), Lower(needle), Stripos(haystack, needle).i)
    ensures Stripos(haystack, needle).Int? ==> forall q: nat :: q < Stripos(haystack, needle).i ==>
      !OccursAt(Lower(Text(haystack).value), Lower(needle), q)
    ensures Stripos(haystack, needle) == Bool(false) <==>
      Text(haystack).Some? &&
      (|needle| == 0 || forall q: nat :: !OccursAt(Lower(Text(haystack).value), Lower(needle), q))
  {
  }

  // ---------------------------------------------------------------------
  // array_shift and array_unshift
  // ---------------------------------------------------------------------

  /**
   * PHP 7 `array_shift(&v)`: the removed first element and the new value of
   * the array. An empty array yields NULL and stays empty; a value that is
   * not an array yields NULL and is left as it is.
   */
  function ArrayShift(v: Value): (r: (Value, Value))
    ensures r.1.Arr? <==> v.Arr?
    ensures v.Arr? && |v.elems| > 0 ==> [r.0] + r.1.elems == v.elems
    ensures !(v.Arr? && |v.elems| > 0) ==> r == (Null, v)
  {
    if v.Arr? && |v.elems| > 0 then (v.elems[0], Arr(v.elems[1..])) else (Null, v)
  }

  /**
   * PHP 7 `array_unshift(&v, x)`: the new value of `v`, with `x` in front.
   * A value that is not an array is left as it is.
   */
  function ArrayUnshift(v: Value, x: Value): (r: Value)
    ensures r.Arr? <==> v.Arr?
    ensures v.Arr? ==> |r.elems| == |v.elems| + 1 && r.elems[0] == x && r.elems[1..] == v.elems
    ensures !v.Arr? ==> r == v
  {
    if v.Arr? then Arr([x] + v.elems) else v
  }

  /** Shifting a non-empty array and unshifting what came out restores it. */
  lemma ShiftUnshiftRoundTrip(v: Value)
    requires v.Arr? && |v.elems| > 0
    ensures ArrayShift(v).1.Arr?
    ensures ArrayUnshift(ArrayShift(v).1, ArrayShift(v).0) == v
  {
    assert [v.elems[0]] + v.elems[1..] == v.elems;
  }

  /** On an empty array the round trip does not restore it: a NULL is left behind. */
  lemma ShiftUnshiftEmpty()
    ensures ArrayShift(Arr([])).0 == Null
    ensures ArrayUnshift(ArrayShift(Arr([])).1, ArrayShift(Arr([])).0) == Arr([Null])
  {
  }
}
