/**
 * Fixed-width integer ranges of C, as subset types of the unbounded `int`,
 * and the small Option wrapper used for optional results.
 */
module Ints {

  type byte = x: int | 0 <= x < 0x100
  type uint16 = x: int | 0 <= x < 0x1_0000
  type uint32 = x: int | 0 <= x < 0x1_0000_0000
  type uint64 = x: int | 0 <= x < 0x1_0000_0000_0000_0000

  const TwoTo32: int := 0x1_0000_0000
  const TwoTo64: int := 0x1_0000_0000_0000_0000

  datatype Option<T> = None | Some(value: T)

  /** The bytes of `x` in little-endian order, truncated to `n` bytes as a C store of each `x >> 8k` into an unsigned char does. */
  function LittleEndian(x: nat, n: nat): (r: seq<byte>)
    ensures |r| == n
    decreases n
  {
    if n == 0 then [] else [x % 0x100] + LittleEndian(x / 0x100, n - 1)
  }

  /** The number whose little-endian bytes are `s`. */
  function FromLittleEndian(s: seq<byte>): (r: nat)
    ensures r < Pow256(|s|)
  {
    if s == [] then 0 else s[0] + 0x100 * FromLittleEndian(s[1..])
  }

  function Pow256(n: nat): (r: nat)
    ensures r >= 1
  {
    if n == 0 then 1 else 0x100 * Pow256(n - 1)
  }

  /** Reading back the little-endian bytes of `x` gives `x` modulo 256^n: the store keeps the low `n` bytes. */
  lemma {:induction false} LittleEndianRoundTrip(x: nat, n: nat)
    ensures FromLittleEndian(LittleEndian(x, n)) == x % Pow256(n)
    decreases n
  {
    if n > 0 {
      LittleEndianRoundTrip(x / 0x100, n - 1);
      var p := Pow256(n - 1);
      assert LittleEndian(x, n)[1..] == LittleEndian(x / 0x100, n - 1);
      DivModStep(x, p);
    }
  }

  /** x % (256 * p) splits into the low byte and the rest. */
  lemma DivModStep(x: nat, p: nat)
    requires p >= 1
    ensures x % 0x100 + 0x100 * ((x / 0x100) % p) == x % (0x100 * p)
  {
    var q := x / 0x100;
    var b := x % 0x100;
    assert x == 0x100 * q + b;
    var q2 := q / p;
    var r2 := q % p;
    assert q == p * q2 + r2;
    assert x == (0x100 * p) * q2 + (0x100 * r2 + b);
    assert 0 <= 0x100 * r2 + b < 0x100 * p;
    ModUnique(x, 0x100 * p, q2, 0x100 * r2 + b);
  }

  /** The quotient/remainder pair of a division is unique. */
  lemma ModUnique(x: int, d: int, q: int, r: int)
    requires d > 0 && 0 <= r < d && x == d * q + r
    ensures x % d == r && x / d == q
  {
    var q0 := x / d;
    var r0 := x % d;
    assert x == d * q0 + r0;
    var k := q - q0;
    assert d * q - d * q0 == d * k;
    assert d * k == r0 - r;
  }

  /** Unsigned 64-bit addition: the sum wraps at most once. */
  function Add64(a: uint64, b: uint64): uint64
  {
    if a + b >= TwoTo64 then a + b - TwoTo64 else a + b
  }

  /** Unsigned 64-bit subtraction: adding the difference back to `b` gives `a`. */
  function Sub64(a: uint64, b: uint64): (r: uint64)
    ensures Add64(b, r) == a
    ensures r == 0 <==> a == b
  {
    if a >= b then a - b else a - b + TwoTo64
  }

  /** `Add64` is addition modulo 2^64, which is what C's `uint64_t` does. */
  lemma Add64IsModular(a: uint64, b: uint64)
    ensures Add64(a, b) == (a + b) % TwoTo64
  {
    ModUnique(a + b, TwoTo64, if a + b >= TwoTo64 then 1 else 0, Add64(a, b));
  }

  /** The sum wraps exactly when it comes out smaller than the first operand: the usual carry test. */
  lemma Add64Carry(a: uint64, b: uint64)
    ensures Add64(a, b) < a <==> a + b >= TwoTo64
  {
  }

  /** `Sub64` is subtraction modulo 2^64. */
  lemma Sub64IsModular(a: uint64, b: uint64)
    ensures Sub64(a, b) == (a - b) % TwoTo64
  {
    ModUnique(a - b, TwoTo64, if a >= b then 0 else -1, Sub64(a, b));
  }
}
