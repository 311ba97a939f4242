/** Python's process-wide generator behind `random.random()`.
    The values it yields after `random.seed(42)` are not computed here: a generator is an
    input stream of draws, and the model tracks how many of them each operation consumes. */
module Randomness {

  /** One result of `random.random()`: a real in [0, 1). */
  type Draw = u: real | 0.0 <= u < 1.0

  class Random {
    /** The n-th value the generator yields. */
    const stream: nat -> Draw
    /** How many values have been drawn so far. */
    var cursor: nat

    constructor (stream: nat -> Draw)
      ensures this.stream == stream && cursor == 0
    {
      this.stream := stream;
      cursor := 0;
    }

    /** `random.random()`. */
    method Next() returns (u: Draw)
      modifies this
      ensures u == stream(old(cursor))
      ensures cursor == old(cursor) + 1
    {
      u := stream(cursor);
      cursor := cursor + 1;
    }
  }
}
