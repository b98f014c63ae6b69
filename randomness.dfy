/**
 * The competition's source of chance. The seeded `java.util.Random` is replaced by an
 * oracle: `draws(i)` is the i-th value `nextDouble()` returns, and a cursor counts the
 * draws consumed so far.
 */
module Randomness {
  import opened Numbers
  import opened Wrappers
  import opened Failures

  type Draws = nat -> Unit

  /** `checkProbability(p)`: the draw, read as a percentage, is at most `p`. */
  predicate Hit(draw: Unit, percent: real)
  {
    draw * 100.0 <= percent
  }

  /** A probability of 100 or more always succeeds, a negative one never does. */
  lemma HitBounds(draw: Unit, percent: real)
    ensures percent >= 100.0 ==> Hit(draw, percent)
    ensures percent < 0.0 ==> !Hit(draw, percent)
    ensures draw == 0.0 ==> (Hit(draw, percent) <==> percent >= 0.0)
  {
  }

  /**
   * `getRandomInt(min, max)` = `min + nextInt(max - min + 1)`; `nextInt` rejects a
   * non-positive bound, so an empty range is an `IllegalArgumentException`.
   */
  function RandomInt(draw: Unit, min: int, max: int): (r: Result<int, Failure>)
    ensures r.Ok? <==> min <= max
    ensures r.Ok? ==> min <= r.value <= max
    ensures r.Err? ==> r.error == IllegalArgument
  {
    if max - min + 1 <= 0 then Err(IllegalArgument)
    else
      var offset := (draw * (max - min + 1) as real).Floor;
      assert 0 <= offset <= max - min by {
        assert 0.0 <= draw * (max - min + 1) as real < (max - min + 1) as real;
      }
      Ok(min + offset)
  }

  /** The competition's generator: a fixed oracle and the number of draws used so far. */
  class RandomSource {
    const draws: Draws
    var used: nat

    constructor (draws: Draws)
      ensures this.draws == draws && used == 0
    {
      this.draws := draws;
      used := 0;
    }

    /** `random.nextDouble()` */
    method NextDouble() returns (d: Unit)
      modifies this
      ensures d == draws(old(used)) && used == old(used) + 1
    {
      d := draws(used);
      used := used + 1;
    }

    /** `Competition.checkProbability(context, p)` outside debug mode. */
    method CheckProbability(percent: real) returns (yes: bool)
      modifies this
      ensures yes == Hit(draws(old(used)), percent) && used == old(used) + 1
    {
      var d := NextDouble();
      yes := d * 100.0 <= percent;
    }

    /** `Competition.getRandomInt(min, max)` outside debug mode; an empty range consumes no draw. */
    method GetRandomInt(min: int, max: int) returns (r: Result<int, Failure>)
      modifies this
      ensures r == RandomInt(draws(old(used)), min, max)
      ensures used == if r.Ok? then old(used) + 1 else old(used)
    {
      if max - min + 1 <= 0 {
        return Err(IllegalArgument);
      }
      var d := NextDouble();
      r := RandomInt(d, min, max);
    }
  }
}
