/** The newer snapshot's status conditions (it adds FAINTED) and their stat penalties. */
module EduConditions {
  import opened Stats

  datatype Condition = NONE | WET | BURN | QUICKSAND | SLEEP | FAINTED

  const AllConditions: seq<Condition> := [NONE, WET, BURN, QUICKSAND, SLEEP, FAINTED]

  function Name(c: Condition): string
  {
    match c
    case NONE => "NONE"
    case WET => "WET"
    case BURN => "BURN"
    case QUICKSAND => "QUICKSAND"
    case SLEEP => "SLEEP"
    case FAINTED => "FAINTED"
  }

  /** `getStatusConditionMultiplier(stat)`: WET weakens DEF, BURN weakens ATK, QUICKSAND weakens SPD, by a quarter. */
  function Multiplier(c: Condition, stat: Stat): (r: real)
    ensures r == 0.75 <==> (c == WET && stat == DEF) || (c == BURN && stat == ATK) || (c == QUICKSAND && stat == SPD)
    ensures r == 0.75 || r == 1.0
  {
    match c
    case WET => if stat == DEF then 0.75 else 1.0
    case BURN => if stat == ATK then 0.75 else 1.0
    case QUICKSAND => if stat == SPD then 0.75 else 1.0
    case _ => 1.0
  }

  /** `preventsActions()` */
  predicate PreventsActions(c: Condition)
    ensures PreventsActions(c) <==> c in {SLEEP, FAINTED}
  {
    c == SLEEP || c == FAINTED
  }

  /** `StatusCondition.fromString`: the condition with that representation, or NONE when there is none. */
  function FromString(s: string): (r: Condition)
    ensures (exists c: Condition :: Name(c) == s) ==> Name(r) == s
    ensures (forall c: Condition :: Name(c) != s) ==> r == NONE
  {
    FindByName(AllConditions, s)
  }

  function FindByName(candidates: seq<Condition>, s: string): (r: Condition)
    ensures (exists c :: c in candidates && Name(c) == s) ==> Name(r) == s
    ensures (forall c :: c in candidates ==> Name(c) != s) ==> r == NONE
  {
    if candidates == [] then NONE
    else if Name(candidates[0]) == s then candidates[0]
    else FindByName(candidates[1..], s)
  }

  lemma FromStringName(c: Condition)
    ensures FromString(Name(c)) == c
  {
    assert Name(FromString(Name(c))) == Name(c);
  }
}
