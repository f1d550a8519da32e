/** The shared random value source: a seeded engine read through a uniform
    distribution on [1, 999). The engine's output, once seeded, is a fixed
    infinite stream of draws; the source remembers how far it has been read. */
module Random {
  /** One value of the distribution: a real in [1, 999). */
  type Draw = d: real | 1.0 <= d < 999.0 witness 1.0

  /** `(int)` applied to a draw: truncation toward zero, which for a
      positive value is the floor. */
  function Trunc(d: Draw): (r: int)
    ensures 1 <= r <= 998
    ensures r as real <= d < r as real + 1.0
  {
    d.Floor
  }

  /** The `n` draws of `stream` that start at position `from`. */
  function Window(stream: nat -> Draw, from: nat, n: nat): seq<Draw>
  {
    seq(n, i requires 0 <= i < n => stream(from + i))
  }

  class RandomSource {
    /** The draws the seeded engine yields, in order. */
    const stream: nat -> Draw
    /** How many draws have been taken so far. */
    var pos: nat

    constructor (stream: nat -> Draw)
      ensures this.stream == stream && pos == 0
    {
      this.stream := stream;
      pos := 0;
    }

    /** `distribution(twister)`: the next draw; advances the engine. */
    method Next() returns (d: Draw)
      modifies this
      ensures pos == old(pos) + 1
      ensures d == stream(old(pos))
    {
      d := stream(pos);
      pos := pos + 1;
    }
  }
}
