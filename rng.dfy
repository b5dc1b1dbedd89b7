/** Seeding of the process-wide pseudo-random generator (`rand_init`).
    The fields of `struct timespec` are 64-bit words (`time_t` and `long` on an
    LP64 system) held as `bv64`; the monotonic clock itself is outside the
    model, so a clock read is a parameter. `srandom` is represented by the seed
    it was last given. */
module Rng {

  /** Mask of the 29 low-order bits of a 32-bit word. */
  const Low29: bv32 := 0x1FFF_FFFF

  /** One billion: `tv_nsec` of a valid `struct timespec` is below it. */
  const NanosPerSecond: bv64 := 1_000_000_000

  /** C's conversion `(unsigned) x` of a 64-bit word: keep its low 32 bits. */
  function ToUnsigned(x: bv64): (u: bv32)
    ensures u as bv64 == x % 0x1_0000_0000
  {
    (x & 0xFFFF_FFFF) as bv32
  }

  /** The seed `((unsigned) sec << 29) ^ (unsigned) nsec`. The shift is a plain
      left shift: the bits of the seconds above bit 2 fall off the 32-bit word.
      The result is fully described by its two bit fields: bits 0..28 are the
      nanoseconds' own, bits 29..31 are the three low bits of the seconds XOR
      bits 29..31 of the nanoseconds. */
  function Seed(sec: bv64, nsec: bv64): (r: bv32)
    ensures r & Low29 == ToUnsigned(nsec) & Low29
    ensures r >> 29 == ToUnsigned(sec & 7) ^ (ToUnsigned(nsec) >> 29)
  {
    (ToUnsigned(sec) << 29) ^ ToUnsigned(nsec)
  }

  /** For a valid nanosecond count, the low 29 bits of the seed equal the low
      29 bits of the nanoseconds, and bits 30 and 31 are the seconds' bits 1 and 2. */
  lemma SeedOfValidTimespec(sec: bv64, nsec: bv64)
    requires nsec < NanosPerSecond
    ensures Seed(sec, nsec) & Low29 == (nsec & 0x1FFF_FFFF) as bv32
    ensures Seed(sec, nsec) >> 30 == ToUnsigned((sec & 7) >> 1)
  {
  }

  /** Two processes that read the same second get different seeds whenever
      their nanosecond counts differ. */
  lemma SeedSeparatesNanoseconds(sec: bv64, nsec1: bv64, nsec2: bv64)
    requires nsec1 < NanosPerSecond && nsec2 < NanosPerSecond
    requires nsec1 != nsec2
    ensures Seed(sec, nsec1) != Seed(sec, nsec2)
  {
  }

  /** Because the shift truncates rather than rotates, seconds eight apart give
      the same seed: only the seconds modulo 8 reach the generator. */
  lemma SeedRepeatsEveryEightSeconds(sec: bv64, nsec: bv64)
    requires sec <= 0x7FFF_FFFF_FFFF_FFF7
    ensures Seed(sec + 8, nsec) == Seed(sec, nsec)
  {
  }

  /** The result of reading `CLOCK_MONOTONIC`: the two fields of a
      `struct timespec`, or a failed call. */
  datatype ClockRead = Read(sec: bv64, nsec: bv64) | Failed

  /** The process-wide generator behind `srandom`/`random`, represented by the
      seed it was last given. Before any `srandom` call it behaves as if seeded
      with 1 (POSIX, `random`). */
  class Generator {
    var seed: bv32

    constructor ()
      ensures seed == 1
    {
      seed := 1;
    }

    /** `rand_init`: re-seed from the clock when the read succeeded; otherwise
        leave the generator alone and report that a warning is logged. */
    method Init(clock: ClockRead) returns (warned: bool)
      modifies this
      ensures warned <==> clock.Failed?
      ensures clock.Read? ==> seed == Seed(clock.sec, clock.nsec)
      ensures clock.Failed? ==> seed == old(seed)
    {
      if clock.Read? {
        seed := Seed(clock.sec, clock.nsec);
        warned := false;
      } else {
        warned := true;
      }
    }
  }
}
