// The string hash that drives every piece of generated demo data. The same loop
// appears in assessments.ts (seeded), grades.ts (seededIndex) and
// attendance.ts (seededValue): starting from 0, each UTF-16 code unit c turns
// hash into ((hash << 5) - hash) + c, truncated to a signed 32-bit integer.

module Hashing {

  const TWO_31: int := 0x8000_0000
  const TWO_32: int := 0x1_0000_0000

  predicate IsInt32(x: int) { -TWO_31 <= x < TWO_31 }

  /** ECMAScript ToInt32: the conversion behind `x | 0` and the operands of `<<`. */
  function Wrap32(x: int): (r: int)
    ensures IsInt32(r)
    ensures (x - r) % TWO_32 == 0
    ensures IsInt32(x) ==> r == x
  {
    (x + TWO_31) % TWO_32 - TWO_31
  }

  /** Two integers that agree modulo 2^32 wrap to the same int32. */
  lemma Wrap32Congruent(x: int, y: int)
    requires (x - y) % TWO_32 == 0
    ensures Wrap32(x) == Wrap32(y)
  {
    var k := (x - y) / TWO_32;
    assert x + TWO_31 == (y + TWO_31) + k * TWO_32;
    ModShift(y + TWO_31, k);
  }

  lemma ModShift(a: int, k: int)
    ensures (a + k * TWO_32) % TWO_32 == a % TWO_32
  {
    var q := a / TWO_32;
    assert a + k * TWO_32 == (q + k) * TWO_32 + a % TWO_32;
  }

  /** The loop body as the source writes it: `(hash << 5)` is ToInt32(hash * 32),
      the subtraction and addition are exact, and `hash |= 0` wraps the sum. */
  function HashStep(h: int, c: char): (r: int)
    ensures IsInt32(r)
  {
    Wrap32(Wrap32(h * 32) - h + c as int)
  }

  /** The shift-and-subtract step is a multiplication by 31 modulo 2^32. */
  lemma HashStepIsTimes31(h: int, c: char)
    ensures HashStep(h, c) == Wrap32(31 * h + c as int)
  {
    var w := Wrap32(h * 32);
    assert (Wrap32(h * 32) - h + c as int) - (31 * h + c as int) == w - h * 32;
    assert (h * 32 - w) % TWO_32 == 0;
    var k := (h * 32 - w) / TWO_32;
    assert w - h * 32 == (-k) * TWO_32;
    ModShift(0, -k);
    Wrap32Congruent(w - h + c as int, 31 * h + c as int);
  }

  /** The hash of a string: the value the loop leaves in `hash`. */
  function HashOf(s: string): (r: int)
    ensures IsInt32(r)
  {
    if s == [] then 0 else HashStep(HashOf(s[..|s| - 1]), s[|s| - 1])
  }

  /** The exact polynomial sum of c_i * 31^(n-1-i), without truncation. */
  function Polynomial(s: string): int
  {
    if s == [] then 0 else 31 * Polynomial(s[..|s| - 1]) + s[|s| - 1] as int
  }

  /** The truncated loop computes Java's String.hashCode: the polynomial hash
      of the code units, reduced to a signed 32-bit integer. */
  lemma {:induction false} HashOfIsPolynomial(s: string)
    ensures HashOf(s) == Wrap32(Polynomial(s))
  {
    if s != [] {
      var t, c := s[..|s| - 1], s[|s| - 1];
      HashOfIsPolynomial(t);
      var h := HashOf(t);
      HashStepIsTimes31(h, c);
      assert (Polynomial(t) - h) % TWO_32 == 0;
      var k := (Polynomial(t) - h) / TWO_32;
      assert (31 * Polynomial(t) + c as int) - (31 * h + c as int) == (31 * k) * TWO_32;
      ModShift(0, 31 * k);
      Wrap32Congruent(31 * Polynomial(t) + c as int, 31 * h + c as int);
    }
  }

  /** The loop over the string's characters. */
  method StringHash(s: string) returns (hash: int)
    ensures hash == HashOf(s)
    ensures IsInt32(hash)
  {
    hash := 0;
    var i := 0;
    while i < |s|
      invariant 0 <= i <= |s|
      invariant hash == HashOf(s[..i])
    {
      assert s[..i + 1][..i] == s[..i];
      hash := Wrap32(Wrap32(hash * 32) - hash + s[i] as int);
      i := i + 1;
    }
    assert s[..i] == s;
  }

  /** `Math.abs(hash) % 1000`: the position of the seed in [0, 1000). */
  function Bucket(s: string): (r: int)
    ensures 0 <= r < 1000
  {
    var h := HashOf(s);
    (if h < 0 then -h else h) % 1000
  }
}
