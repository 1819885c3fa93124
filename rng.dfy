/**
 * The game's random decision source. The generator behind it is replaced by
 * the sequence of uniform draws in [0, 1) it would produce; each decision
 * consumes the next draw.
 */
module Rng {

  /** The decision rule of `rng(probability)`: the draw lies below probability/100. */
  function Decide(u: real, probability: real): (b: bool)
    ensures 0.0 <= u < 1.0 && probability <= 0.0 ==> !b
    ensures 0.0 <= u < 1.0 && probability >= 100.0 ==> b
  {
    u < probability / 100.0
  }

  /** A larger probability never turns a successful roll into a failed one. */
  lemma DecideMonotone(u: real, p: real, q: real)
    requires p <= q
    ensures Decide(u, p) ==> Decide(u, q)
  {
  }

  /** A draw is a uniform sample in [0, 1). */
  predicate IsDraw(u: real) { 0.0 <= u < 1.0 }

  /** The engine: the draws it has not handed out yet, in order. */
  class RngEngine {
    var draws: seq<real>

    constructor (draws: seq<real>)
      ensures this.draws == draws
    {
      this.draws := draws;
    }

    /** `rng(probability)`: consumes exactly one draw. */
    method Roll(probability: real) returns (b: bool)
      requires |draws| > 0
      modifies this
      ensures draws == old(draws)[1..]
      ensures b == Decide(old(draws)[0], probability)
    {
      b := Decide(draws[0], probability);
      draws := draws[1..];
    }
  }

}
