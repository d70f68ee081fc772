/**
 * The engine-owned pseudorandom source. The generator itself is out of the
 * model: a stream is an infinite sequence of draws in [0, 1) with a cursor,
 * and every consumer says how many draws it takes.
 */
module Rng {
  /** What `random()` returns. */
  type UnitDraw = r: real | 0.0 <= r < 1.0

  datatype Stream = Stream(draws: nat -> UnitDraw, pos: nat) {
    /** The next draw. */
    function Peek(): UnitDraw { draws(pos) }

    /** The stream after one draw. */
    function Advance(): (s: Stream)
      ensures s.draws == draws && s.pos == pos + 1
    {
      Stream(draws, pos + 1)
    }
  }

  /** An index into a list of `n` elements chosen by a draw, as `choice` and
      `randint(0, n - 1)` do. */
  function Pick(u: UnitDraw, n: nat): (i: nat)
    requires n > 0
    ensures i < n
  {
    var x := u * (n as real);
    assert 0.0 <= x < n as real by {
      assert u * (n as real) < 1.0 * (n as real);
    }
    x.Floor
  }
}
