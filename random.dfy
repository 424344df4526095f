/** The generator's random source (`rand::rngs::SmallRng`) as an abstract stream of
    words. The PRNG algorithm itself is not modelled: a stream is any function from
    positions to words, and every `gen_range` call reads exactly one word and
    advances the position by one. What the model keeps is the order of the draws
    and the range each one falls in. */
module Random {

  /** One word of the stream, seen as an integer (for integer draws) and as a
      fraction of the unit interval (for float draws). How the generator derives
      both from its state is not modelled. */
  datatype Word = Word(bits: nat, unit: real)

  /** The unit-interval value of the word at `pos` (a value outside `[0, 1)`
      reads as 0). */
  function UnitAt(words: nat -> Word, pos: nat): (u: real)
    ensures 0.0 <= u < 1.0
  {
    var w := words(pos).unit;
    if 0.0 <= w < 1.0 then w else 0.0
  }

  /** `gen_range(lo..=hi)` or `gen_range(lo..hi)` on floats, read at `pos`.
      The source panics on an empty range, so callers must supply `lo <= hi`. */
  function RealIn(words: nat -> Word, pos: nat, lo: real, hi: real): (r: real)
    requires lo <= hi
    ensures lo <= r <= hi
    ensures lo < hi ==> r < hi
  {
    Lerp(lo, hi, UnitAt(words, pos))
  }

  /** The point a fraction `u` of the way from `lo` to `hi`. */
  function Lerp(lo: real, hi: real, u: real): (r: real)
    requires lo <= hi && 0.0 <= u < 1.0
    ensures lo <= r <= hi
    ensures lo < hi ==> r < hi
  {
    var d := hi - lo;
    assert 0.0 <= u * d;
    assert u * d <= 1.0 * d;
    assert 0.0 < d ==> u * d < 1.0 * d;
    lo + u * d
  }

  /** `gen_range(lo..=hi)` on unsigned integers, read at `pos`. */
  function IntIn(words: nat -> Word, pos: nat, lo: nat, hi: nat): (r: nat)
    requires lo <= hi
    ensures lo <= r <= hi
  {
    lo + words(pos).bits % (hi - lo + 1)
  }

  /** The mutable generator handle threaded through every stage by reference. */
  class Rng {
    const words: nat -> Word
    var pos: nat

    constructor (stream: nat -> Word)
      ensures words == stream && pos == 0
    {
      words := stream;
      pos := 0;
    }

    /** One float draw from `[lo, hi]` (or `[lo, hi)` for a half-open range). */
    method GenRange(lo: real, hi: real) returns (r: real)
      requires lo <= hi
      modifies this
      ensures r == RealIn(words, old(pos), lo, hi)
      ensures pos == old(pos) + 1
    {
      r := RealIn(words, pos, lo, hi);
      pos := pos + 1;
    }

    /** One integer draw from `[lo, hi]`. */
    method GenRangeInt(lo: nat, hi: nat) returns (r: nat)
      requires lo <= hi
      modifies this
      ensures r == IntIn(words, old(pos), lo, hi)
      ensures pos == old(pos) + 1
    {
      r := IntIn(words, pos, lo, hi);
      pos := pos + 1;
    }
  }
}
