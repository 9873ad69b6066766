/** The random number generator of benchmark/tsx/kmeans/random.adb, against the recurrence of
    `std::mt19937` (ISO/IEC 14882:2011, sections 26.5.3.2 and 26.5.5). */
module MersenneTwister {
  const N: nat := 624
  const M: nat := 397
  const TWO_TO_THE_32: nat := 0x1_0000_0000

  const UPPER_MASK: bv32 := 0x8000_0000
  const LOWER_MASK: bv32 := 0x7fff_ffff

  function Mag01(bit: bv32): bv32 { if bit == 0 then 0 else 0x9908_b0df }

  // ------------------------------------------------------------ the definition

  function Twist(upper: bv32, lower: bv32, far: bv32): bv32 {
    var y := (upper & UPPER_MASK) | (lower & LOWER_MASK);
    far ^ (y >> 1) ^ Mag01(y & 1)
  }

  /** A number as an unsigned word. */
  function Word(i: nat): bv32 { if i == 0 then 0 else Word(i - 1) + 1 }

  function Next(x: bv32, i: bv32): bv32 { 1812433253 * (x ^ (x >> 30)) + i }

  /** The linear recurrence: N terms from the seed, and then each from three before it. */
  function X(seed: bv32, k: nat): bv32 {
    if k == 0 then seed
    else if k < N then Next(X(seed, k - 1), Word(k))
    else Twist(X(seed, k - N), X(seed, k - N + 1), X(seed, k - N + M))
  }

  function Temper11(x: bv32): bv32 { x ^ (x >> 11) }

  function Temper7(x: bv32): bv32 { x ^ ((x << 7) & 0x9d2c_5680) }

  function Temper15(x: bv32): bv32 { x ^ ((x << 15) & 0xefc6_0000) }

  function Temper18(x: bv32): bv32 { x ^ (x >> 18) }

  function Temper(x: bv32): bv32 { Temper18(Temper15(Temper7(Temper11(x)))) }

  // ------------------------------------------------------------ the generator

  /** The term for the slot after that of `prev`; `mti` counts from 1. */
  function Grow(prev: bv32, mti: bv32): bv32 {
    (1812433253 * (prev ^ (prev >> 30)) + mti - 1) & 0xffff_ffff
  }

  class Random {
    /** `Mt (i)` is mt[i - 1]. */
    const mt: array<bv32>
    var mti: nat
    ghost var seed: bv32
    /** The number of the term in mt[0]. */
    ghost var base: nat

    ghost predicate Seeded()
      reads this, mt
    {
      && mt.Length == N && 1 <= mti <= N + 1 && (mti <= N ==> base >= N)
      && forall i | 0 <= i < N :: mt[i] == X(seed, base + i)
    }

    ghost predicate Valid()
      reads this, mt
    {
      mt.Length == N && (mti == N + 2 || Seeded())
    }

    /** How many numbers have been drawn since the seed. */
    ghost function Drawn(): int
      reads this
    {
      base + mti - 1 - N
    }

    /** Not seeded yet, which `Mti = N + 2` marks. */
    constructor ()
      ensures Valid() && mti == N + 2 && fresh(mt)
    {
      mt := new bv32[N];
      mti := N + 2;
      seed := 0;
      base := 0;
    }

    /** `Random_Seed`. */
    method Seed(s: bv32)
      requires mt.Length == N
      modifies this, mt
      ensures Seeded() && seed == s && Drawn() == 0 && mti == N + 1 && base == 0
    {
      hide X, Twist, Word, Grow;
      FirstTerm(s);
      mt[0] := s & 0xffff_ffff;
      var w: bv32 := 2;
      for i := 2 to N + 1
        invariant w == Word(i)
        invariant forall j | 0 <= j < i - 1 :: mt[j] == X(s, j)
      {
        SeedTerm(s, i - 1);
        NextWord(i, w);
        mt[i - 1] := Grow(mt[i - 2], w);
        w := w + 1;
      }
      mti := N + 1;
      seed := s;
      base := 0;
    }

    /** The refresh in `Random_Generate`: the next N terms overwrite the last, each computed from slots that
        are still old or already new.  `kk + (M - N)` wraps around modulo 2^32. */
    method Refresh()
      requires Seeded()
      modifies mt, this`base
      ensures mt.Length == N && base == old(base) + N
      ensures forall i | 0 <= i < N :: mt[i] == X(seed, base + i)
    {
      hide X, Twist, Word, Grow;
      ghost var b := base;
      for kk := 1 to N - M + 1
        invariant forall i | 0 <= i < N :: mt[i] == X(seed, if i < kk - 1 then b + N + i else b + i)
      {
        TwistTerm(seed, b + kk - 1);
        mt[kk - 1] := Twist(mt[kk - 1], mt[kk], mt[kk + M - 1]);
      }
      for kk := N - M + 1 to N
        invariant forall i | 0 <= i < N :: mt[i] == X(seed, if i < kk - 1 then b + N + i else b + i)
      {
        TwistTerm(seed, b + kk - 1);
        var far := (kk + (M - N) % TWO_TO_THE_32) % TWO_TO_THE_32;
        mt[kk - 1] := Twist(mt[kk - 1], mt[kk], mt[far - 1]);
      }
      TwistTerm(seed, b + N - 1);
      mt[N - 1] := Twist(mt[N - 1], mt[0], mt[M - 1]);
      base := b + N;
    }

    /** `Random_Generate`. */
    method Generate() returns (y: bv32)
      requires Valid()
      modifies this, mt
      ensures Seeded() && seed == (if old(mti) == N + 2 then 5489 else old(seed))
      ensures Drawn() == (if old(mti) == N + 2 then 0 else old(Drawn())) + 1
      ensures y == Temper(X(seed, N + Drawn() - 1))
    {
      if mti >= N + 1 {
        if mti == N + 2 {
          Seed(5489);
        }
        Refresh();
        mti := 1;
      }
      y := mt[mti - 1];
      y := Temper11(y);
      y := Temper7(y);
      y := Temper15(y);
      y := Temper18(y);
      mti := mti + 1;
    }
  }

  /** The recurrence, `k` terms on. */
  lemma TwistTerm(seed: bv32, k: nat)
    ensures X(seed, k + N) == Twist(X(seed, k), X(seed, k + 1), X(seed, k + M))
  {
    hide Twist, Next;
  }

  lemma FirstTerm(s: bv32)
    ensures s & 0xffff_ffff == X(s, 0) && Word(2) == 2
  {
    assert Word(1) == Word(0) + 1 && Word(2) == Word(1) + 1;
  }

  lemma NextWord(i: nat, w: bv32)
    requires w == Word(i)
    ensures w + 1 == Word(i + 1)
  {
  }

  lemma GrowIsNext(x: bv32, i: bv32)
    ensures Grow(x, i + 1) == Next(x, i)
  {
  }

  lemma SeedTerm(s: bv32, k: nat)
    requires 0 < k < N
    ensures Grow(X(s, k - 1), Word(k + 1)) == X(s, k)
  {
    hide Next, Grow, Twist;
    GrowIsNext(X(s, k - 1), Word(k));
  }

  /** The first `k` numbers after a seed, for every seed and every k: the tempered terms N, N + 1, and so on
      of the recurrence. */
  method Draw(s: bv32, k: nat) returns (ys: seq<bv32>)
    ensures |ys| == k
    ensures forall i | 0 <= i < k :: ys[i] == Temper(X(s, N + i))
  {
    hide X, Temper, Twist;
    var r := new Random();
    r.Seed(s);
    ys := [];
    for i := 0 to k
      invariant fresh(r) && fresh(r.mt) && r.Seeded() && r.seed == s && r.Drawn() == i == |ys|
      invariant forall j | 0 <= j < i :: ys[j] == Temper(X(s, N + j))
    {
      var y := r.Generate();
      ys := ys + [y];
    }
  }

  // ------------------------------------------------------------ tempering loses nothing

  function Untemper7(y: bv32): bv32 {
    var a := Temper7With(y, y);
    var b := Temper7With(y, a);
    var c := Temper7With(y, b);
    Temper7With(y, c)
  }

  function Temper7With(y: bv32, z: bv32): bv32 { y ^ ((z << 7) & 0x9d2c_5680) }

  function Untemper11(y: bv32): bv32 { y ^ (y >> 11) ^ (y >> 22) }

  function Untemper18(y: bv32): bv32 { y ^ (y >> 18) }

  function Untemper(y: bv32): bv32 { Untemper11(Untemper7(Temper15(Untemper18(y)))) }

  lemma Shift18(x: bv32)
    ensures Untemper18(x ^ (x >> 18)) == x
  {
  }

  lemma Invert18(x: bv32)
    ensures Untemper18(Temper18(x)) == x
  {
    hide Untemper18;
    Shift18(x);
  }

  lemma Invert15(x: bv32)
    ensures Temper15(Temper15(x)) == x
  {
  }

  lemma Invert7(x: bv32)
    ensures Untemper7(Temper7(x)) == x
  {
  }

  lemma Shift11(x: bv32)
    ensures Untemper11(x ^ (x >> 11)) == x
  {
  }

  lemma Invert11(x: bv32)
    ensures Untemper11(Temper11(x)) == x
  {
    hide Untemper11;
    Shift11(x);
  }

  /** Tempering is a bijection on words: no two terms give the same number. */
  lemma TemperInvertible(x: bv32)
    ensures Untemper(Temper(x)) == x
  {
    hide Temper7, Temper11, Temper15, Temper18, Untemper7, Untemper11, Untemper18;
    Invert18(Temper15(Temper7(Temper11(x))));
    Invert15(Temper7(Temper11(x)));
    Invert7(Temper11(x));
    Invert11(x);
  }
}
