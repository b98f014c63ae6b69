/** The four elements and their cyclic advantage relation (identical in both snapshots). */
module Elements {
  import opened Wrappers

  datatype Element = NORMAL | WATER | FIRE | EARTH

  const AllElements: seq<Element> := [NORMAL, WATER, FIRE, EARTH]

  function Name(e: Element): string
  {
    match e
    case NORMAL => "NORMAL"
    case WATER => "WATER"
    case FIRE => "FIRE"
    case EARTH => "EARTH"
  }

  /** `isVeryEffectiveAgainst`: WATER beats FIRE, FIRE beats EARTH, EARTH beats WATER. */
  predicate VeryEffective(attacker: Element, target: Element)
  {
    (attacker == WATER && target == FIRE)
    || (attacker == FIRE && target == EARTH)
    || (attacker == EARTH && target == WATER)
  }

  /** `isNotVeryEffectiveAgainst`: the converse of very-effective. */
  predicate NotVeryEffective(attacker: Element, target: Element)
  {
    VeryEffective(target, attacker)
  }

  /** `isNormalEffectiveAgainst`: either side NORMAL, or both the same element. */
  predicate NormalEffective(attacker: Element, target: Element)
  {
    attacker == NORMAL || target == NORMAL || attacker == target
  }

  /** Exactly one of the three effectiveness relations holds for every pair. */
  lemma EffectivenessTrichotomy(a: Element, t: Element)
    ensures VeryEffective(a, t) ==> !NotVeryEffective(a, t) && !NormalEffective(a, t)
    ensures NotVeryEffective(a, t) ==> !VeryEffective(a, t) && !NormalEffective(a, t)
    ensures VeryEffective(a, t) || NotVeryEffective(a, t) || NormalEffective(a, t)
  {
  }

  /** The advantage relation is a three-cycle: following it three times returns to the start. */
  lemma AdvantageIsACycle(a: Element, b: Element)
    requires VeryEffective(a, b)
    ensures exists c :: VeryEffective(b, c) && VeryEffective(c, a)
  {
    match a
    case WATER => assert VeryEffective(FIRE, EARTH) && VeryEffective(EARTH, WATER);
    case FIRE => assert VeryEffective(EARTH, WATER) && VeryEffective(WATER, FIRE);
    case EARTH => assert VeryEffective(WATER, FIRE) && VeryEffective(FIRE, EARTH);
  }

  /** `getEffectivenessMultiplier`: 2.0 very effective, 0.5 not very effective, 1.0 otherwise. */
  function Multiplier(attacker: Element, target: Element): (r: real)
    ensures r == 2.0 <==> VeryEffective(attacker, target)
    ensures r == 0.5 <==> NotVeryEffective(attacker, target)
    ensures r == 1.0 <==> NormalEffective(attacker, target)
  {
    if VeryEffective(attacker, target) then 2.0
    else if NotVeryEffective(attacker, target) then 0.5
    else 1.0
  }

  /** `Element.fromString`: the element with that representation, else null. */
  function FromString(s: string): (r: Option<Element>)
    ensures r.Some? ==> Name(r.value) == s
    ensures r.None? ==> forall e: Element :: Name(e) != s
  {
    FindByName(AllElements, s)
  }

  function FindByName(candidates: seq<Element>, s: string): (r: Option<Element>)
    ensures r.Some? ==> r.value in candidates && Name(r.value) == s
    ensures r.None? ==> forall c :: c in candidates ==> Name(c) != s
  {
    if candidates == [] then None
    else if Name(candidates[0]) == s then Some(candidates[0])
    else FindByName(candidates[1..], s)
  }

  lemma FromStringName(e: Element)
    ensures FromString(Name(e)) == Some(e)
  {
    var r := FromString(Name(e));
    assert r.Some?;
    assert Name(r.value) == Name(e);
  }
}
