/**
 * The seeded placeholder score that the game page shows for every player other
 * than the local one: a 31-multiplier string hash folded into [1000, 3999].
 */
module MockScore {
  import Js

  const MIN_SCORE: int := 1000
  const SCORE_SPAN: int := 3000

  /** One round of the hash loop: `charCode + ((hash << 5) - hash)`, with no wrap on `-` and `+`. */
  function HashStep(hash: int, c: char): int
  {
    c as int + (Js.ShiftLeft5(hash) - hash)
  }

  /** The value of `hash` after the loop has consumed all of `s`, starting from 0. */
  function Hash(s: string): int
    decreases |s|
  {
    if s == [] then 0 else HashStep(Hash(s[..|s| - 1]), s[|s| - 1])
  }

  function Abs(x: int): nat
  {
    if x < 0 then -x else x
  }

  /** `1000 + Math.abs(hash) % 3000` for the seed `seed`. */
  function DeterministicScore(seed: string): (r: int)
    ensures MIN_SCORE <= r < MIN_SCORE + SCORE_SPAN
    ensures (r - MIN_SCORE) % SCORE_SPAN == Abs(Hash(seed)) % SCORE_SPAN
  {
    MIN_SCORE + Abs(Hash(seed)) % SCORE_SPAN
  }

  /** The hash loop, as the source runs it over the characters of the seed. */
  method GetDeterministicScore(seed: string) returns (score: int)
    ensures score == DeterministicScore(seed)
    ensures MIN_SCORE <= score <= 3999
  {
    var hash := 0;
    var i := 0;
    while i < |seed|
      invariant 0 <= i <= |seed|
      invariant hash == Hash(seed[..i])
    {
      assert seed[..i + 1][..i] == seed[..i];
      hash := seed[i] as int + (Js.ShiftLeft5(hash) - hash);
      i := i + 1;
    }
    assert seed[..|seed|] == seed;
    var normalized := Abs(hash) % SCORE_SPAN;
    score := MIN_SCORE + normalized;
  }

  /**
   * Reference definition of the hash: the polynomial
   * `s[0]*31^(n-1) + ... + s[n-1]`, computed without any wrap-around.
   */
  function Poly31(s: string): int
    decreases |s|
  {
    if s == [] then 0 else 31 * Poly31(s[..|s| - 1]) + s[|s| - 1] as int
  }

  /** A multiple of 2^32 scaled by any integer is still a multiple of 2^32. */
  lemma ScaleMultiple(a: int, c: int)
    requires a % Js.TWO_32 == 0
    ensures (c * a) % Js.TWO_32 == 0
  {
    var q := a / Js.TWO_32;
    assert a == q * Js.TWO_32;
    assert c * a == (c * q) * Js.TWO_32;
  }

  /**
   * `(hash << 5) - hash` multiplies by 31 modulo 2^32, so the loop computes the
   * 31-multiplier polynomial hash of the seed up to a multiple of 2^32.
   */
  lemma {:induction false} HashIsPoly31(s: string)
    ensures (Hash(s) - Poly31(s)) % Js.TWO_32 == 0
    decreases |s|
  {
    if s != [] {
      var prefix, c := s[..|s| - 1], s[|s| - 1];
      var h := Hash(prefix);
      HashIsPoly31(prefix);
      // Hash(s) - Poly31(s) == (ShiftLeft5(h) - 32 * h) + 31 * (h - Poly31(prefix))
      ScaleMultiple(32 * h - Js.ShiftLeft5(h), -1);
      ScaleMultiple(h - Poly31(prefix), 31);
      Js.SumMultiples(-1 * (32 * h - Js.ShiftLeft5(h)), 31 * (h - Poly31(prefix)));
      assert Hash(s) - Poly31(s) ==
        -1 * (32 * h - Js.ShiftLeft5(h)) + 31 * (h - Poly31(prefix));
    }
  }

  /** Each round of the loop grows the hash's magnitude by at most 2^31 + 0x110000. */
  lemma {:induction false} HashBound(s: string)
    ensures Abs(Hash(s)) <= |s| * (Js.TWO_31 + 0x11_0000)
  {
    if s != [] {
      var prefix := s[..|s| - 1];
      HashBound(prefix);
      var h := Hash(prefix);
      assert Hash(s) == s[|s| - 1] as int + (Js.ShiftLeft5(h) - h);
      assert s[|s| - 1] as int < 0x11_0000;
      assert |prefix| == |s| - 1;
    }
  }

  /**
   * For every seed shorter than 2^21 characters the hash stays below 2^53 in
   * magnitude, so the source's double arithmetic on it is exact.
   */
  lemma HashFitsDouble(s: string)
    requires |s| < 0x20_0000
    ensures Abs(Hash(s)) < 0x20_0000_0000_0000
  {
    HashBound(s);
    assert |s| * (Js.TWO_31 + 0x11_0000) < 0x20_0000 * Js.TWO_32;
  }
}
