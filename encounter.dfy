/**
 * What both snapshots share about one action in progress: where the user and the chosen target
 * sit in the roster, and the damage formula of `calculateBaseDamage`.
 */
module Encounter {
  import opened Numbers
  import Elements

  /**
   * The fixed circumstances of one action: the roster's elements, the acting monster's
   * position, the chosen target's position (possibly the same), and the action's element.
   */
  datatype Arena = Arena(elements: seq<Elements.Element>, user: nat, target: nat, actionElement: Elements.Element)
  {
    predicate Fits<S>(w: seq<S>)
    {
      |elements| == |w| && user < |w| && target < |w|
    }
  }

  /** The hit chance of `executeEffect` against another monster: a percentage scaled by PRC(user)/AGL(target); it keeps its sign. */
  function Scale(percent: real, precision: real, agility: real): (r: real)
    requires precision >= 1.0 && agility >= 1.0
    ensures percent >= 0.0 ==> r >= 0.0
    ensures percent <= 0.0 ==> r <= 0.0
    ensures precision == agility ==> r == percent
  {
    var ratio := precision / agility;
    assert ratio > 0.0;
    percent * ratio
  }

  /** The five multipliers of `calculateBaseDamage`. */
  datatype Factors = Factors(element: real, stat: real, critical: real, same: real, random: real)
  {
    predicate Positive()
    {
      element > 0.0 && stat > 0.0 && critical > 0.0 && same > 0.0 && random > 0.0
    }
  }

  /** `calculateBaseDamage`: the product of the value and the factors, normalised by 3, rounded up. */
  function BaseDamage(value: int, f: Factors): int
  {
    Ceil(value as real * f.element * f.stat * f.critical * f.same * f.random / 3.0)
  }

  /** With positive factors, a positive value always deals at least 1, zero deals 0, and a negative value deals at most 0. */
  lemma BaseDamageSign(value: int, f: Factors)
    requires f.Positive()
    ensures value >= 1 ==> BaseDamage(value, f) >= 1
    ensures value == 0 ==> BaseDamage(value, f) == 0
    ensures value < 0 ==> BaseDamage(value, f) <= 0
  {
    var p := f.element * f.stat;
    assert p > 0.0;
    var q := p * f.critical;
    assert q > 0.0;
    var s := q * f.same;
    assert s > 0.0;
    var m := s * f.random;
    assert m > 0.0;
    assert value as real * f.element * f.stat * f.critical * f.same * f.random == value as real * m;
    if value >= 1 {
      assert value as real * m > 0.0;
    } else if value < 0 {
      assert value as real * m < 0.0;
    }
  }
}
