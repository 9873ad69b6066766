/** What fixes the generator: the numbers of `std::mt19937` (ISO/IEC 14882:2011, sections 26.5.3.2 and 26.5.5) as
    values of the functions that `MersenneTwister` is proved against. */
module MersenneStandard {
  import opened MersenneTwister

  /** The recurrence: a word is made from those 624, 623 and 227 before it, after 624 words made from the seed. */
  lemma Recurrence(seed: bv32, k: nat)
    ensures X(seed, 0) == seed
    ensures 0 < k < 624 ==> X(seed, k) == Next(X(seed, k - 1), Word(k))
    ensures X(seed, k + 624) == Twist(X(seed, k), X(seed, k + 1), X(seed, k + 397))
  {
    hide Twist, Next;
  }

  /** The seeding step multiplies by 0x6c07_8965, after the top two bits have flipped the last two, and counts. */
  lemma SeedingStep(x: bv32, i: bv32)
    ensures Next(x, i) == 0x6c07_8965 * ((x & 0xffff_fffc) | ((x & 3) ^ (x >> 30))) + i
  {
    assert x ^ (x >> 30) == (x & 0xffff_fffc) | ((x & 3) ^ (x >> 30));
  }

  /** The first words after the default seed. */
  lemma DefaultSeed()
    ensures Next(5489, 1) == 1301868182 && Next(1301868182, 2) == 2938499221 && Next(2938499221, 3) == 2950281878
  {
  }

  lemma MixShifted(a: bv32, b: bv32)
    ensures ((a & 0x8000_0000) | (b & 0x7fff_ffff)) >> 1
            == (if a < 0x8000_0000 then 0 else 0x4000_0000) | ((b & 0x7fff_fffe) >> 1)
    ensures ((a & 0x8000_0000) | (b & 0x7fff_ffff)) & 1 == b & 1
  {
  }

  lemma TwistFar(a: bv32, b: bv32, c: bv32)
    ensures Twist(a, b, c) == c ^ Twist(a, b, 0)
  {
  }

  lemma TwistEven(a: bv32, b: bv32)
    requires b & 1 == 0
    ensures Twist(a, b, 0) == (if a < 0x8000_0000 then 0 else 0x4000_0000) | ((b & 0x7fff_fffe) >> 1)
  {
    MixShifted(a, b);
  }

  lemma TwistOdd(a: bv32, b: bv32)
    requires b & 1 == 1
    ensures Twist(a, b, 0) == ((if a < 0x8000_0000 then 0 else 0x4000_0000) | ((b & 0x7fff_fffe) >> 1)) ^ 0x9908_b0df
  {
    MixShifted(a, b);
  }

  /** The step of the recurrence flips its third word by this: the top bit of the first and the lower bits of the
      second, shifted by one, and the constant of the standard if the second is odd. */
  lemma TwistIs(a: bv32, b: bv32, c: bv32)
    ensures Twist(a, b, c) == c ^ Twist(a, b, 0)
    ensures var y := (if a < 0x8000_0000 then 0 else 0x4000_0000) | ((b & 0x7fff_fffe) >> 1);
            Twist(a, b, 0) == if b & 1 == 0 then y else y ^ 0x9908_b0df
  {
    TwistFar(a, b, c);
    hide Twist;
    if b & 1 == 0 {
      TwistEven(a, b);
    } else {
      TwistOdd(a, b);
    }
  }

  /** Its values where two of the words are 0. */
  lemma TwistBits(x: bv32)
    ensures Twist(0, 0, x) == x && Twist(x & 0x7fff_ffff, 0, 0) == 0
    ensures Twist(0x8000_0000, 0, 0) == 0x4000_0000
    ensures Twist(0, 1, 0) == 0x9908_b0df && Twist(0, 2, 0) == 1 && Twist(0, 0x4000_0000, 0) == 0x2000_0000
    ensures Twist(0, 0x8000_0000, 0) == 0
  {
  }

  /** What tempering makes of each bit. */
  lemma TemperBits()
    ensures Temper(0x1) == 0x400091 && Temper(0x2) == 0x2
    ensures Temper(0x4) == 0x1020244 && Temper(0x8) == 0x2040489
    ensures Temper(0x10) == 0x10 && Temper(0x20) == 0x8001220
    ensures Temper(0x40) == 0x40 && Temper(0x80) == 0x20404890
    ensures Temper(0x100) == 0x800120 && Temper(0x200) == 0x1000240
    ensures Temper(0x400) == 0x2000480 && Temper(0x800) == 0x4440990
    ensures Temper(0x1000) == 0x8081200 && Temper(0x2000) == 0x1022244
    ensures Temper(0x4000) == 0x22244c81 && Temper(0x8000) == 0x40009010
    ensures Temper(0x10000) == 0x88013220 && Temper(0x20000) == 0x1020000
    ensures Temper(0x40000) == 0x20444891 && Temper(0x80000) == 0x4880022
    ensures Temper(0x100000) == 0x9100044 && Temper(0x200000) == 0x12200088
    ensures Temper(0x400000) == 0x4440911 && Temper(0x800000) == 0x8881222
    ensures Temper(0x1000000) == 0x81000040 && Temper(0x2000000) == 0x22204888
    ensures Temper(0x4000000) == 0x44009100 && Temper(0x8000000) == 0x88012200
    ensures Temper(0x10000000) == 0x11020440 && Temper(0x20000000) == 0x20040801
    ensures Temper(0x40000000) == 0x44081102 && Temper(0x80000000) == 0x88102204
  {
  }
}
