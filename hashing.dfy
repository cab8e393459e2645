/**
 * The hash family of `count-min-sketch.js`.
 *
 * `createHashFunction(seed)` returns a closure that starts from the FNV-1a
 * offset basis XOR-ed with the seed, folds in the characters of the item and
 * applies an avalanche mix. Only the first step is exact 32-bit arithmetic:
 * the products in the character loop and in the mix are JavaScript doubles
 * that can exceed 2^53 and are rounded before they are truncated. So the
 * model keeps the seed step exactly and treats everything after it as one
 * deterministic function `Mixer` of the 32-bit start state and the item.
 */
module Hashing {

  const TwoTo32: int := 0x1_0000_0000

  /** The result of `>>> 0`: an unsigned 32-bit integer. */
  type Uint32 = x: int | 0 <= x < TwoTo32

  /**
   * What a hash closure does after the seed XOR: fold the characters and mix.
   * Deterministic and total; its bits are not modelled. The start state is the
   * 32-bit pattern of `hash` after line 8.
   */
  type Mixer = (Uint32, string) -> Uint32

  /** The FNV-1a 32-bit offset basis. */
  const OffsetBasis: Uint32 := 0x811c9dc5

  /** Seed of row `i` is `SeedBase + i * SeedStride`. */
  const SeedBase: int := 0x1_0000_0000
  const SeedStride: int := 0x2000_0000

  function Seed(row: nat): int
  {
    SeedBase + row * SeedStride
  }

  /** The low 32 bits of an integer-valued number, as JavaScript's ToUint32. */
  function ToUint32(x: int): Uint32
  {
    x % TwoTo32
  }

  function Pow2(n: nat): (p: nat)
    ensures p > 0
  {
    if n == 0 then 1 else 2 * Pow2(n - 1)
  }

  lemma {:induction false} Pow2Add(m: nat, n: nat)
    ensures Pow2(m + n) == Pow2(m) * Pow2(n)
  {
    if n > 0 {
      Pow2Add(m, n - 1);
      assert Pow2(m + n) == 2 * Pow2(m + n - 1);
    }
  }

  lemma Pow2ThirtyTwo()
    ensures Pow2(32) == TwoTo32
  {
    assert Pow2(2) == 4;
    Pow2Add(2, 2);
    Pow2Add(4, 4);
    Pow2Add(8, 8);
    Pow2Add(16, 16);
  }

  /** Bitwise exclusive or of the low `n` bits of `a` and `b`. */
  function XorBits(a: nat, b: nat, n: nat): nat
  {
    if n == 0 then 0 else 2 * XorBits(a / 2, b / 2, n - 1) + (a + b) % 2
  }

  /** The exclusive or of `n` bits fits in `n` bits. */
  lemma {:induction false} XorBitsBound(a: nat, b: nat, n: nat)
    ensures XorBits(a, b, n) < Pow2(n)
  {
    if n > 0 {
      XorBitsBound(a / 2, b / 2, n - 1);
    }
  }

  /** XOR-ing twice with the same value gives back the original bits. */
  lemma {:induction false} XorBitsCancel(c: nat, a: nat, n: nat)
    requires a < Pow2(n)
    ensures XorBits(c, XorBits(c, a, n), n) == a
  {
    if n > 0 {
      var x' := XorBits(c / 2, a / 2, n - 1);
      var bit := (c + a) % 2;
      var x := 2 * x' + bit;
      assert XorBits(c, a, n) == x;
      assert x / 2 == x' && x % 2 == bit by { DivModTwo(x', bit); }
      assert a / 2 < Pow2(n - 1);
      XorBitsCancel(c / 2, a / 2, n - 1);
      assert (c + x) % 2 == a % 2 by { ParityCancel(c, a, x); }
      assert XorBits(c, x, n) == 2 * (a / 2) + (c + x) % 2;
    }
  }

  lemma DivModTwo(q: nat, bit: nat)
    requires bit < 2
    ensures (2 * q + bit) / 2 == q && (2 * q + bit) % 2 == bit
  {
  }

  lemma ParityCancel(c: nat, a: nat, x: nat)
    requires x % 2 == (c + a) % 2
    ensures (c + x) % 2 == a % 2
  {
  }

  /** 32-bit exclusive or: `^` on the bit patterns of two 32-bit values. */
  function Xor32(a: Uint32, b: Uint32): Uint32
  {
    XorBitsBound(a, b, 32);
    Pow2ThirtyTwo();
    XorBits(a, b, 32)
  }

  lemma Xor32Injective(c: Uint32, a: Uint32, b: Uint32)
    ensures Xor32(c, a) == Xor32(c, b) <==> a == b
  {
    Pow2ThirtyTwo();
    XorBitsCancel(c, a, 32);
    XorBitsCancel(c, b, 32);
  }

  /**
   * The hash state after `hash = hash ^ seed`. JavaScript's `^` converts both
   * operands with ToInt32, which keeps exactly the low 32 bits, so the state
   * is the bit pattern of the basis XOR-ed with the seed modulo 2^32.
   */
  function InitialBasis(seed: int): Uint32
  {
    Xor32(OffsetBasis, ToUint32(seed))
  }

  /** The closure `createHashFunction(seed)` applied to `item`. */
  function Hash(mix: Mixer, seed: int, item: string): Uint32
  {
    mix(InitialBasis(seed), item)
  }

  /** The hash function the sketch builds for row `row`. */
  function RowHash(mix: Mixer, row: nat, item: string): Uint32
  {
    Hash(mix, Seed(row), item)
  }

  /** The seed of row `i` keeps, modulo 2^32, only `(i mod 8) * 2^29`. */
  lemma EffectiveSeed(row: nat)
    ensures ToUint32(Seed(row)) == (row % 8) * SeedStride
  {
    var q, r := row / 8, row % 8;
    assert row == 8 * q + r;
    assert Seed(row) == (q + 1) * TwoTo32 + r * SeedStride;
    assert 0 <= r * SeedStride < TwoTo32;
  }

  /**
   * Two rows start from the same hash state exactly when their indices agree
   * modulo 8: the eight first rows are distinct, and row `i + 8` repeats row `i`.
   */
  lemma SameStartIffSameResidue(i: nat, j: nat)
    ensures InitialBasis(Seed(i)) == InitialBasis(Seed(j)) <==> i % 8 == j % 8
  {
    EffectiveSeed(i);
    EffectiveSeed(j);
    Xor32Injective(OffsetBasis, ToUint32(Seed(i)), ToUint32(Seed(j)));
  }

  /** Rows `i` and `i + 8` are the same hash function. */
  lemma RowsRepeatWithPeriodEight(mix: Mixer, row: nat, item: string)
    ensures RowHash(mix, row + 8, item) == RowHash(mix, row, item)
  {
    EffectiveSeed(row);
    EffectiveSeed(row + 8);
    assert (row + 8) % 8 == row % 8;
    assert ToUint32(Seed(row + 8)) == ToUint32(Seed(row));
  }

  /**
   * `this.hashFunctions`: the hash function of every row, as one value. Row
   * `row` uses `hashes(row, _)`.
   */
  type HashFamily = (nat, string) -> Uint32

  /** The family a sketch builds: row `i` gets `createHashFunction(Seed(i))`. */
  function HashFunctions(mix: Mixer): HashFamily
  {
    (row: nat, item: string) => RowHash(mix, row, item)
  }

  /**
   * The family's rows repeat with period 8. The second clause is the definition
   * of row `row`, the hash of its seed, restated for callers.
   */
  lemma FamilyRepeats(mix: Mixer, row: nat, item: string)
    ensures HashFunctions(mix)(row + 8, item) == HashFunctions(mix)(row, item)
    ensures HashFunctions(mix)(row, item) == Hash(mix, SeedBase + row * SeedStride, item)
  {
    RowsRepeatWithPeriodEight(mix, row, item);
  }
}
