/**
 * The few pieces of ECMAScript semantics the game page relies on, written out over
 * unbounded integers and `seq<char>`: the ToInt32 conversion, the `<<` operator
 * and `String.prototype.toLowerCase` on the characters that occur in addresses.
 */
module Js {

  const TWO_31: int := 0x8000_0000
  const TWO_32: int := 0x1_0000_0000

  /**
   * ToInt32 of an integral number: the unique value in [-2^31, 2^31) that is
   * congruent to `x` modulo 2^32.
   */
  function ToInt32(x: int): (r: int)
    ensures -TWO_31 <= r < TWO_31
    ensures (x - r) % TWO_32 == 0
  {
    var m := x % TWO_32;
    if m >= TWO_31 then m - TWO_32 else m
  }

  /** The two postconditions of ToInt32 determine its result. */
  lemma ToInt32Unique(x: int, y: int)
    requires -TWO_31 <= y < TWO_31
    requires (x - y) % TWO_32 == 0
    ensures ToInt32(x) == y
  {
  }

  /** ToInt32 leaves every value already in the signed 32-bit range unchanged. */
  lemma ToInt32Identity(x: int)
    requires -TWO_31 <= x < TWO_31
    ensures ToInt32(x) == x
  {
  }

  /**
   * `x << 5`: the left operand goes through ToInt32, its 32 bits are shifted
   * left by five places and the result is read back as a signed 32-bit value.
   */
  function ShiftLeft5(x: int): (r: int)
    ensures -TWO_31 <= r < TWO_31
    ensures (32 * x - r) % TWO_32 == 0
  {
    var shifted := ToInt32(x) * 32;
    assert (32 * x - shifted) % TWO_32 == 0 by {
      var k := (x - ToInt32(x)) / TWO_32;
      assert x - ToInt32(x) == k * TWO_32;
      assert 32 * x - shifted == (32 * k) * TWO_32;
    }
    var r := ToInt32(shifted);
    assert (32 * x - r) % TWO_32 == 0 by {
      SumMultiples(32 * x - shifted, shifted - r);
    }
    r
  }

  /** The sum of two multiples of 2^32 is a multiple of 2^32. */
  lemma SumMultiples(a: int, b: int)
    requires a % TWO_32 == 0 && b % TWO_32 == 0
    ensures (a + b) % TWO_32 == 0
  {
    var qa, qb := a / TWO_32, b / TWO_32;
    assert a == qa * TWO_32;
    assert b == qb * TWO_32;
    assert a + b == (qa + qb) * TWO_32;
  }

  /** The lower-case form of one character; only 'A'..'Z' are mapped. */
  function LowerChar(c: char): (r: char)
    ensures 'A' <= c <= 'Z' ==> 'a' <= r <= 'z' && r as int - c as int == 32
    ensures !('A' <= c <= 'Z') ==> r == c
  {
    if 'A' <= c <= 'Z' then (c as int + 32) as char else c
  }

  /** `s.toLowerCase()`, character by character. */
  function ToLower(s: string): (r: string)
    ensures |r| == |s|
    ensures forall i :: 0 <= i < |s| ==> r[i] == LowerChar(s[i])
  {
    if s == [] then [] else [LowerChar(s[0])] + ToLower(s[1..])
  }

  /** Lower-casing twice is lower-casing once. */
  lemma ToLowerIdempotent(s: string)
    ensures ToLower(ToLower(s)) == ToLower(s)
  {
  }

  /** Two addresses name the same account: equal after `toLowerCase()`. */
  predicate SameAddress(a: string, b: string)
  {
    ToLower(a) == ToLower(b)
  }

  /** Case-insensitive comparison ignores the case of ASCII letters and nothing else. */
  lemma SameAddressCharwise(a: string, b: string)
    ensures SameAddress(a, b) <==>
      |a| == |b| && forall i :: 0 <= i < |a| ==> LowerChar(a[i]) == LowerChar(b[i])
  {
  }
}
