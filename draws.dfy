/** The random source the battle engine reads.

    The engine asks a process-wide generator for `random_value(min, max)`, an
    inclusive-range draw. The generator itself is not modelled: it is an
    arbitrary stream `raw` of values, and the n-th draw is the n-th value of
    the stream placed into the requested range. Every value of the range can
    come out and nothing outside it can, which is all the engine relies on.
    `cursor` counts the draws taken so far, so contracts can say exactly how
    many draws an operation consumes. */
module Draws {

  /** The value a draw delivers for raw stream value `r` and range [lo, hi]. */
  function Pick(r: int, lo: int, hi: int): (d: int)
    requires lo <= hi
    ensures lo <= d <= hi
    ensures lo <= r <= hi ==> d == r
  {
    if r < lo then lo else if r > hi then hi else r
  }

  class DrawSource {
    /** The raw stream of the generator. */
    const raw: nat -> int
    /** Number of draws consumed so far. */
    var cursor: nat

    constructor (raw: nat -> int)
      ensures this.raw == raw && cursor == 0
    {
      this.raw := raw;
      cursor := 0;
    }

    /** `random_value(lo, hi)`: the next draw, in [lo, hi]. */
    method Value(lo: int, hi: int) returns (d: int)
      requires lo <= hi
      modifies this
      ensures cursor == old(cursor) + 1
      ensures d == Pick(raw(old(cursor)), lo, hi)
      ensures lo <= d <= hi
    {
      d := Pick(raw(cursor), lo, hi);
      cursor := cursor + 1;
    }
  }
}
