/**
 * The `Test\Properties\PropertyArray` fixture class: three array properties
 * that object creation defaults, a constructor that overrides one of them,
 * an accessor pair for `otherArray`, and the issue-1831 routine that shifts
 * the leading "header" entries off `otherArray`.
 */
module PropertyArrayFixture {
  import opened PhpValues

  /** The needle the issue-1831 routine searches for. */
  const HeaderNeedle: string := "header"

  /** The default of `someArray` at object creation. */
  const SomeArrayDefault: Value := Arr([Int(1), Int(2), Int(3), Int(4)])

  /** `stripos(v, "header") !== false`: the test the issue-1831 routine applies. */
  predicate ContainsHeader(v: Value)
  {
    Stripos(v, HeaderNeedle) != Bool(false)
  }

  // ---------------------------------------------------------------------
  // Specification of testIssues1831
  // ---------------------------------------------------------------------

  /** The maximal leading run of elements of `s` that pass `test`. */
  function LeadingRun<T>(s: seq<T>, test: T -> bool): (r: seq<T>)
    ensures |r| <= |s| && r == s[..|r|]
    ensures forall k :: 0 <= k < |r| ==> test(r[k])
    ensures |r| < |s| ==> !test(s[|r|])
  {
    if s == [] || !test(s[0]) then [] else [s[0]] + LeadingRun(s[1..], test)
  }

  /** The leading run is the only prefix that all passes and ends at a failure or at the end. */
  lemma LeadingRunUnique<T>(s: seq<T>, test: T -> bool, n: nat)
    requires n <= |s|
    ensures n == |LeadingRun(s, test)| <==>
      (forall k :: 0 <= k < n ==> test(s[k])) && (n < |s| ==> !test(s[n]))
  {
    var r := LeadingRun(s, test);
    if n < |r| {
      assert r[n] == s[n];
    } else if n > |r| {
      assert r == s[..|r|];
    }
  }

  /**
   * What testIssues1831 returns and the value it leaves in `otherArray`,
   * given the value `other` that `otherArray` held before the call.
   */
  function Issue1831(other: Value): (seq<Value>, Value)
  {
    if !other.Arr? then ([], other)
    else
      var h := LeadingRun(other.elems, ContainsHeader);
      if |h| < |other.elems| then (h, Arr(other.elems[|h|..])) else (h, Arr([Null]))
  }

  /** The leading run ends at or before any element that fails the test. */
  lemma LeadingRunStopsBefore<T>(s: seq<T>, test: T -> bool, i: nat)
    requires i < |s| && !test(s[i])
    ensures |LeadingRun(s, test)| <= i
  {
    var r := LeadingRun(s, test);
    assert forall k :: 0 <= k < |r| ==> test(s[k]) by {
      assert r == s[..|r|];
    }
  }

  /**
   * When some element of `otherArray` fails the test, the returned headers
   * followed by the new `otherArray` are exactly the old `otherArray`.
   */
  lemma Issue1831Decomposes(s: seq<Value>, i: nat)
    requires i < |s| && !ContainsHeader(s[i])
    ensures Issue1831(Arr(s)).1.Arr?
    ensures Issue1831(Arr(s)).0 + Issue1831(Arr(s)).1.elems == s
    ensures i >= |Issue1831(Arr(s)).0|
  {
    var h := LeadingRun(s, ContainsHeader);
    LeadingRunStopsBefore(s, ContainsHeader, i);
    assert h + s[|h|..] == s;
  }

  /**
   * When every element passes (an empty array included), all of them are
   * returned and the final shift's NULL is left behind in `otherArray`.
   */
  lemma Issue1831AllMatch(s: seq<Value>)
    requires forall k :: 0 <= k < |s| ==> ContainsHeader(s[k])
    ensures Issue1831(Arr(s)) == (s, Arr([Null]))
  {
    LeadingRunUnique(s, ContainsHeader, |s|);
    assert LeadingRun(s, ContainsHeader) == s[..|s|] == s;
  }

  /** A value that is not an array is left alone and nothing is returned. */
  lemma Issue1831NotArray(other: Value)
    requires !other.Arr?
    ensures Issue1831(other) == ([], other)
  {
  }

  // ---------------------------------------------------------------------
  // Which values pass the test
  // ---------------------------------------------------------------------

  /** A match at position 0 still passes: the test is `!== false`, not truthiness. */
  lemma HeaderAtStartMatches(t: string)
    requires |t| >= 6 && Lower(t[..6]) == HeaderNeedle
    ensures Stripos(Str(t), HeaderNeedle) == Int(0)
    ensures ContainsHeader(Str(t))
  {
    var lt := Lower(t);
    assert Lower(HeaderNeedle) == HeaderNeedle;
    assert lt[..6] == Lower(t[..6]);
    assert OccursAt(lt, Lower(HeaderNeedle), 0);
  }

  /** A text without the letter 'h' in either case never passes. */
  lemma WithoutLetterHNeverMatches(v: Value)
    requires Text(v).Some?
    requires 'h' !in Text(v).value && 'H' !in Text(v).value
    ensures !ContainsHeader(v)
  {
    var t := Text(v).value;
    var needle := Lower(HeaderNeedle);
    assert needle[0] == 'h';
    forall q: nat
      ensures !OccursAt(Lower(t), needle, q)
    {
      if q < |t| {
        assert t[q] in t;
        assert Lower(t)[q] == LowerChar(t[q]);
      }
    }
  }

  /** NULL, booleans and integers never pass: their text has no letter 'h'. */
  lemma ScalarNeverMatches(v: Value)
    requires v.Null? || v.Bool? || v.Int?
    ensures !ContainsHeader(v)
  {
    var t := Text(v).value;
    if v.Int? {
      IntTextIsNumeral(v.i);
    }
    assert forall k :: 0 <= k < |t| ==> IsNumeral(t[k]);
    assert 'h' !in t && 'H' !in t;
    WithoutLetterHNeverMatches(v);
  }

  /** "header" anywhere in the text, in any case, passes. */
  lemma HeaderInsideMatches(t: string, p: nat)
    requires p + 6 <= |t|
    requires forall k :: 0 <= k < 6 ==> LowerChar(t[p + k]) == HeaderNeedle[k]
    ensures ContainsHeader(Str(t))
  {
    assert Lower(HeaderNeedle) == HeaderNeedle;
    assert Lower(t)[p..p + 6] == HeaderNeedle;
    assert OccursAt(Lower(t), Lower(HeaderNeedle), p);
  }

  /** A single line without the letter 'h' is put back as it was and nothing is returned. */
  lemma Issue1831NoHeaderLine(line: string)
    requires 'h' !in line && 'H' !in line
    ensures Issue1831(Arr([Str(line)])) == ([], Arr([Str(line)]))
  {
    WithoutLetterHNeverMatches(Str(line));
    Issue1831StopsAt([Str(line)], 0);
  }

  /**
   * A header line is taken; "Content-Type" is not a header and stops the
   * loop, and it and whatever follows it stay in `otherArray`.
   */
  lemma Issue1831Example(header: string, contentType: string, rest: Value)
    requires header == "X-Header: 1" && contentType == "Content-Type: text"
    ensures Issue1831(Arr([Str(header), Str(contentType), rest])) ==
      ([Str(header)], Arr([Str(contentType), rest]))
  {
    ExampleLinesClassified(header, contentType);
    var s := [Str(header), Str(contentType), rest];
    Issue1831StopsAt(s, 1);
    assert s[..1] == [Str(header)];
    assert s[1..] == [Str(contentType), rest];
  }

  lemma ExampleLinesClassified(header: string, contentType: string)
    requires header == "X-Header: 1" && contentType == "Content-Type: text"
    ensures ContainsHeader(Str(header)) && !ContainsHeader(Str(contentType))
  {
    assert header[2..8] == "Header";
    HeaderInsideMatches(header, 2);
    assert 'h' !in contentType && 'H' !in contentType;
    WithoutLetterHNeverMatches(Str(contentType));
  }

  /** An array element passes: `stripos` refuses it and returns NULL, which is not false. */
  lemma ArrayElementMatches(elems: seq<Value>)
    ensures Stripos(Arr(elems), HeaderNeedle) == Null
    ensures ContainsHeader(Arr(elems))
  {
  }

  /** The loop of testIssues1831 stops after `n` matches: what it has returned and left behind. */
  lemma Issue1831StopsAt(s: seq<Value>, n: nat)
    requires n <= |s|
    requires forall k :: 0 <= k < n ==> ContainsHeader(s[k])
    requires n < |s| ==> !ContainsHeader(s[n])
    ensures Issue1831(Arr(s)) == (s[..n], if n < |s| then Arr(s[n..]) else Arr([Null]))
  {
    LeadingRunUnique(s, ContainsHeader, n);
  }

  /** A value that passes the test cannot be the NULL an empty or non-array shift yields. */
  lemma ShiftedMatchCameFromArray(v: Value)
    requires ContainsHeader(ArrayShift(v).0)
    ensures v.Arr? && |v.elems| > 0
  {
    if !(v.Arr? && |v.elems| > 0) {
      ScalarNeverMatches(Null);
    }
  }

  /** How far testIssues1831's loop can still run: it stops at the latest once `v` is empty. */
  function Pending(v: Value): nat
  {
    if v.Arr? then |v.elems| else 0
  }

  // ---------------------------------------------------------------------
  // The class
  // ---------------------------------------------------------------------

  class PropertyArray {
    var someEmptyArray: Value
    var someArray: Value
    /** A protected property. */
    var otherArray: Value

    /**
     * `new PropertyArray()`: the three properties are declared NULL, object
     * creation defaults them, then the constructor body runs.
     */
    constructor ()
      ensures someEmptyArray == Arr([])
      ensures someArray == Arr([Int(1)])
      ensures otherArray == Arr([])
    {
      someEmptyArray, someArray, otherArray := Null, Null, Null;
      new;
      InitProperties();
      Construct();
    }

    /** The create_object hook: every property that is still NULL gets its default. */
    method InitProperties()
      modifies this
      ensures otherArray == if old(otherArray).Null? then Arr([]) else old(otherArray)
      ensures someArray == if old(someArray).Null? then SomeArrayDefault else old(someArray)
      ensures someEmptyArray == if old(someEmptyArray).Null? then Arr([]) else old(someEmptyArray)
    {
      if otherArray.Null? {
        otherArray := Arr([]);
      }
      if someArray.Null? {
        someArray := SomeArrayDefault;
      }
      if someEmptyArray.Null? {
        someEmptyArray := Arr([]);
      }
    }

    /** The body of `__construct`: `someArray` becomes `[1]`. */
    method Construct()
      modifies this
      ensures someArray == Arr([Int(1)])
      ensures otherArray == old(otherArray) && someEmptyArray == old(someEmptyArray)
    {
      someArray := Arr([Int(1)]);
    }

    method SetOtherArray(arr: Value)
      modifies this
      ensures otherArray == arr
      ensures someArray == old(someArray) && someEmptyArray == old(someEmptyArray)
    {
      otherArray := arr;
    }

    method GetOtherArray() returns (r: Value)
      ensures r == otherArray
    {
      r := otherArray;
    }

    /**
     * Shifts elements off `otherArray` while they contain "header" (ignoring
     * case) and returns them; the first one that does not is put back in
     * front.
     */
    method TestIssues1831() returns (headers: seq<Value>)
      modifies this
      ensures (headers, otherArray) == Issue1831(old(otherArray))
      ensures someArray == old(someArray) && someEmptyArray == old(someEmptyArray)
    {
      ghost var before := otherArray;
      headers := [];
      while true
        invariant someArray == old(someArray) && someEmptyArray == old(someEmptyArray)
        invariant !before.Arr? ==> headers == [] && otherArray == before
        invariant before.Arr? ==> |headers| <= |before.elems|
        invariant before.Arr? ==> headers == before.elems[..|headers|]
        invariant before.Arr? ==> otherArray == Arr(before.elems[|headers|..])
        invariant forall k :: 0 <= k < |headers| ==> ContainsHeader(headers[k])
        decreases Pending(otherArray)
      {
        ghost var from := otherArray;
        var shifted := ArrayShift(otherArray);
        var info := shifted.0;
        otherArray := shifted.1;
        if ContainsHeader(info) {
          ShiftedMatchCameFromArray(from);
          headers := headers + [info];
          continue;
        } else {
          otherArray := ArrayUnshift(otherArray, info);
          if before.Arr? {
            var n := |headers|;
            if n < |before.elems| {
              assert info == before.elems[n];
              ShiftUnshiftRoundTrip(from);
            }
            Issue1831StopsAt(before.elems, n);
            assert n < |before.elems| ==> otherArray == Arr(before.elems[n..]);
            assert n == |before.elems| ==> otherArray == Arr([Null]);
          }
          assert (headers, otherArray) == Issue1831(before);
          break;
        }
      }
    }
  }

  /** `getOtherArray()` after `setOtherArray(a)` returns `a`; the other properties are untouched. */
  method SetThenGet(p: PropertyArray, a: Value) returns (r: Value)
    modifies p
    ensures r == a
    ensures p.someArray == old(p.someArray) && p.someEmptyArray == old(p.someEmptyArray)
  {
    p.SetOtherArray(a);
    r := p.GetOtherArray();
  }
}
