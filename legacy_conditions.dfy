/**
 * The older snapshot's status conditions: four real conditions and NONE, each with the texts
 * the battle log prints, and the stat penalties `Monster.getEffectiveStat` applies for them.
 */
module LegacyConditions {
  import opened Stats

  datatype Condition = WET | BURN | QUICKSAND | SLEEP | NONE

  /** `values()`, in declaration order. */
  const AllConditions: seq<Condition> := [WET, BURN, QUICKSAND, SLEEP, NONE]

  /** `toString()`: the representation. */
  function Name(c: Condition): string
  {
    match c
    case WET => "WET"
    case BURN => "BURN"
    case QUICKSAND => "QUICKSAND"
    case SLEEP => "SLEEP"
    case NONE => "NONE"
  }

  /** `getActiveMessage()` */
  function ActiveMessage(c: Condition): string
  {
    match c
    case WET => "soaking wet"
    case BURN => "burning"
    case QUICKSAND => "caught in quicksand"
    case SLEEP => "asleep"
    case NONE => "OK"
  }

  /** `getEndMessage()` */
  function EndMessage(c: Condition): string
  {
    match c
    case WET => "dried up"
    case BURN => "burning has faded"
    case QUICKSAND => "escaped the quicksand"
    case SLEEP => "woke up"
    case NONE => ""
  }

  /** `getInflictedMessage()`: the phrase for a newly inflicted condition; NONE has none. */
  function InflictedMessage(c: Condition): string
  {
    match c
    case WET => "becomes soaking wet"
    case BURN => "caught on fire"
    case QUICKSAND => "gets caught by quicksand"
    case SLEEP => "falls asleep"
    case NONE => ""
  }

  /**
   * Only NONE has an empty end or inflicted text; its active text is "OK". The real conditions
   * are told apart by every one of their texts.
   */
  lemma MessagesDistinguish(c: Condition, d: Condition)
    ensures InflictedMessage(c) == "" <==> c == NONE
    ensures EndMessage(c) == "" <==> c == NONE
    ensures ActiveMessage(c) == "OK" <==> c == NONE
    ensures c != d ==> ActiveMessage(c) != ActiveMessage(d) && InflictedMessage(c) != InflictedMessage(d)
    ensures c != d && c != NONE ==> EndMessage(c) != EndMessage(d)
  {
    match c
    case WET => assert ActiveMessage(c)[0] == 's' && InflictedMessage(c)[0] == 'b' && EndMessage(c)[0] == 'd';
    case BURN => assert ActiveMessage(c)[0] == 'b' && InflictedMessage(c)[0] == 'c' && EndMessage(c)[0] == 'b';
    case QUICKSAND => assert ActiveMessage(c)[0] == 'c' && InflictedMessage(c)[0] == 'g' && EndMessage(c)[0] == 'e';
    case SLEEP => assert ActiveMessage(c)[0] == 'a' && InflictedMessage(c)[0] == 'f' && EndMessage(c)[0] == 'w';
    case NONE =>
  }

  /** The status factor of `getEffectiveStat`: WET weakens DEF, BURN weakens ATK, QUICKSAND weakens SPD, by a quarter. */
  function Multiplier(c: Condition, stat: Stat): (r: real)
    ensures r == 0.75 <==> (c == WET && stat == DEF) || (c == BURN && stat == ATK) || (c == QUICKSAND && stat == SPD)
    ensures r == 0.75 || r == 1.0
  {
    if c == WET && stat == DEF then 0.75
    else if c == BURN && stat == ATK then 0.75
    else if c == QUICKSAND && stat == SPD then 0.75
    else 1.0
  }

  /** `fromString(representation)`: the condition with that representation, or NONE when there is none. */
  function FromString(s: string): (r: Condition)
    ensures (exists c: Condition :: Name(c) == s) ==> Name(r) == s
    ensures (forall c: Condition :: Name(c) != s) ==> r == NONE
  {
    FindByName(AllConditions, s)
  }

  function FindByName(candidates: seq<Condition>, s: string): (r: Condition)
    ensures (exists c :: c in candidates && Name(c) == s) ==> Name(r) == s
    ensures (forall c :: c in candidates ==> Name(c) != s) ==> r == NONE
  {
    if candidates == [] then NONE
    else if Name(candidates[0]) == s then candidates[0]
    else FindByName(candidates[1..], s)
  }

  /** Every condition is read back from its own representation. */
  lemma FromStringName(c: Condition)
    ensures FromString(Name(c)) == c
  {
    assert Name(FromString(Name(c))) == Name(c);
  }
}
