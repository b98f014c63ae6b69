/**
 * What one effect does when it lands (`execute` of each effect class in the newer snapshot),
 * first as a function of the roster's states, then as the dispatch method that changes
 * the monsters.
 */
module EduExecution {
  import opened Numbers
  import opened Stats
  import Elements
  import opened Randomness
  import opened Encounter
  import Combatant
  import opened EduConditions
  import opened EduState
  import opened EduEffect
  import opened EduModel

  /** The outcome of trying an effect: `execute`'s boolean, the new states, the draws consumed so far. */
  datatype Step = Step(ok: bool, world: seq<State>, pos: nat)

  /** The multipliers for the user hitting the target, given the critical-hit draw and the random-factor draw. */
  function DamageFactors(w: seq<State>, a: Arena, crit: Unit, roll: Unit): (f: Factors)
    requires a.Fits(w)
    ensures f.Positive()
    ensures f.element == Elements.Multiplier(a.actionElement, a.elements[a.target])
    ensures f.stat == Effective(w[a.user], ATK) / Effective(w[a.target], DEF)
    ensures f.critical == 2.0 <==> Hit(crit, 10.0 * (Effective(w[a.user], SPD) / Effective(w[a.target], SPD)))
    ensures f.critical == 1.0 || f.critical == 2.0
    ensures f.same == 1.5 <==> a.actionElement == a.elements[a.user]
    ensures f.same == 1.0 || f.same == 1.5
    ensures 0.85 <= f.random < 1.0 && f.random == 0.85 + roll * 0.15
  {
    var atk, def := Effective(w[a.user], ATK), Effective(w[a.target], DEF);
    var critChance := 10.0 * (Effective(w[a.user], SPD) / Effective(w[a.target], SPD));
    Factors(
      Elements.Multiplier(a.actionElement, a.elements[a.target]),
      atk / def,
      if Hit(crit, critChance) then 2.0 else 1.0,
      if a.actionElement == a.elements[a.user] then 1.5 else 1.0,
      0.85 + roll * 0.15)
  }

  /** The damage a damage effect deals before protection: ABSOLUTE, RELATIVE to the target's maximum, or BASE. */
  function DamageAmount(e: Effect, w: seq<State>, a: Arena, draws: Draws, pos: nat): int
    requires e.Damage? && a.Fits(w)
  {
    match e.kind
    case ABSOLUTE => e.value
    case RELATIVE => Combatant.Relative(w[a.target].maxHp, e.value)
    case BASE => BaseDamage(e.value, DamageFactors(w, a, draws(pos), draws(pos + 1)))
  }

  /** RELATIVE damage of 0..100 percent stays within the target's maximum; BASE damage has the sign of its value. */
  lemma DamageAmountBounds(e: Effect, w: seq<State>, a: Arena, draws: Draws, pos: nat)
    requires e.Damage? && a.Fits(w)
    ensures e.kind == RELATIVE && w[a.target].maxHp >= 0 && 0 <= e.value <= 100 ==>
              0 <= DamageAmount(e, w, a, draws, pos) <= w[a.target].maxHp
    ensures e.kind == BASE && e.value >= 1 ==> DamageAmount(e, w, a, draws, pos) >= 1
    ensures e.kind == BASE && e.value == 0 ==> DamageAmount(e, w, a, draws, pos) == 0
  {
    if e.kind == RELATIVE && w[a.target].maxHp >= 0 && 0 <= e.value <= 100 {
      Combatant.RelativeBounds(w[a.target].maxHp, e.value);
    }
    if e.kind == BASE {
      BaseDamageSign(e.value, DamageFactors(w, a, draws(pos), draws(pos + 1)));
    }
  }

  /** `EffectDamage.execute`: the chosen target takes the damage unless it is already defeated. */
  function DamageExec(e: Effect, w: seq<State>, a: Arena, draws: Draws, pos: nat): (r: Step)
    requires e.Damage? && a.Fits(w)
    ensures r.ok <==> !Defeated(w[a.target])
    ensures !r.ok ==> r == Step(false, w, pos)
    ensures r.ok ==> r.world == w[a.target := Combatant.TakeDamage(w[a.target], DamageAmount(e, w, a, draws, pos)).after]
    ensures r.ok && w[a.target].guardHealth ==> r.world == w
    ensures r.pos == if r.ok && e.kind == BASE then pos + 2 else pos
  {
    if Defeated(w[a.target]) then Step(false, w, pos)
    else
      var amount := DamageAmount(e, w, a, draws, pos);
      Step(true, w[a.target := Combatant.TakeDamage(w[a.target], amount).after],
           if e.kind == BASE then pos + 2 else pos)
  }

  /** The amount a healing effect restores before the cap: ABSOLUTE, RELATIVE to the maximum, or BASE (a third of the value, rounded up). */
  function HealAmount(e: Effect, v: State): (r: int)
    requires e.Healing?
    ensures e.kind == BASE ==> 3 * r - 3 < e.value <= 3 * r
  {
    match e.kind
    case ABSOLUTE => e.value
    case RELATIVE => Combatant.Relative(v.maxHp, e.value)
    case BASE => Ceil(e.value as real / 3.0)
  }

  /** `EffectHealing.execute`: the chosen target (whatever the effect's own target type) heals unless defeated, never above its maximum. */
  function HealExec(e: Effect, w: seq<State>, a: Arena, pos: nat): (r: Step)
    requires e.Healing? && a.Fits(w)
    ensures r.ok <==> !Defeated(w[a.target])
    ensures !r.ok ==> r == Step(false, w, pos)
    ensures r.ok ==> r.world == w[a.target := Combatant.Heal(w[a.target], HealAmount(e, w[a.target])).after]
    ensures r.ok ==> r.world[a.target].hp <= w[a.target].maxHp
    ensures r.pos == pos
  {
    if Defeated(w[a.target]) then Step(false, w, pos)
    else Step(true, w[a.target := Combatant.Heal(w[a.target], HealAmount(e, w[a.target])).after], pos)
  }

  /** The stat-protection check: a decrease aimed at a stat-protected other monster. */
  predicate StatChangeBlocked(e: Effect, w: seq<State>, a: Arena)
    requires e.StatChange? && a.Fits(w)
  {
    w[a.target].guardStats && a.target != a.user && e.stages < 0
  }

  /** `EffectStatChange.execute` */
  function StatChangeExec(e: Effect, w: seq<State>, a: Arena, pos: nat): (r: Step)
    requires e.StatChange? && a.Fits(w)
    ensures r.ok <==> !Defeated(w[a.target])
    ensures !r.ok || StatChangeBlocked(e, w, a) ==> r.world == w
    ensures r.ok && !StatChangeBlocked(e, w, a) ==> r.world == w[a.target := Combatant.WithStage(w[a.target], e.stat, e.stages)]
    ensures r.pos == pos
  {
    if Defeated(w[a.target]) then Step(false, w, pos)
    else if StatChangeBlocked(e, w, a) then Step(true, w, pos)
    else Step(true, w[a.target := Combatant.WithStage(w[a.target], e.stat, e.stages)], pos)
  }

  /** Increases, and decreases a monster applies to itself, are never blocked by protection. */
  lemma StatChangeNeverBlocked(e: Effect, w: seq<State>, a: Arena, pos: nat)
    requires e.StatChange? && a.Fits(w) && !Defeated(w[a.target])
    requires e.stages >= 0 || a.target == a.user
    ensures StatChangeExec(e, w, a, pos).world == w[a.target := Combatant.WithStage(w[a.target], e.stat, e.stages)]
  {
  }

  /** `EffectStatusCondition.execute` */
  function InflictExec(e: Effect, w: seq<State>, a: Arena, pos: nat): (r: Step)
    requires e.Inflict? && a.Fits(w)
    ensures r.ok <==> !Defeated(w[a.target])
    ensures r.world == if r.ok && w[a.target].status == NONE then w[a.target := w[a.target].(status := e.condition)] else w
    ensures w[a.target].status != NONE ==> r.world[a.target].status == w[a.target].status
    ensures r.pos == pos
  {
    if Defeated(w[a.target]) then Step(false, w, pos)
    else if w[a.target].status != NONE then Step(true, w, pos)
    else Step(true, w[a.target := w[a.target].(status := e.condition)], pos)
  }

  /** `EffectDefense.execute`: the user, never the target parameter, gets the protection. */
  function DefenseExec(e: Effect, w: seq<State>, a: Arena, pos: nat): (r: Step)
    requires e.Defense? && a.Fits(w)
    ensures r.ok <==> !Defeated(w[a.user])
    ensures !r.ok ==> r.world == w
    ensures r.ok ==> r.world == w[a.user := Combatant.WithProtection(w[a.user], e.guard == HEALTH, e.guard == STATS, e.duration)]
    ensures r.ok ==> r.world[a.user].guardHealth != r.world[a.user].guardStats
    ensures r.pos == pos
  {
    if Defeated(w[a.user]) then Step(false, w, pos)
    else Step(true, w[a.user := Combatant.WithProtection(w[a.user], e.guard == HEALTH, e.guard == STATS, e.duration)], pos)
  }

  /** `execute` of any effect; repeat and continue succeed and change nothing, even for defeated monsters. */
  function Apply(e: Effect, w: seq<State>, a: Arena, draws: Draws, pos: nat): (r: Step)
    requires a.Fits(w)
    ensures |r.world| == |w|
    ensures forall i :: 0 <= i < |w| && i != a.user && i != a.target ==> r.world[i] == w[i]
    ensures pos <= r.pos <= pos + 2
    ensures !r.ok ==> r.world == w && r.pos == pos
    ensures (e.Repeat? || e.Continue?) ==> r == Step(true, w, pos)
  {
    match e
    case Damage(_, _, _, _, _) => DamageExec(e, w, a, draws, pos)
    case Healing(_, _, _, _) => HealExec(e, w, a, pos)
    case StatChange(_, _, _, _) => StatChangeExec(e, w, a, pos)
    case Inflict(_, _, _) => InflictExec(e, w, a, pos)
    case Defense(_, _, _) => DefenseExec(e, w, a, pos)
    case Repeat(_, _) => Step(true, w, pos)
    case Continue(_) => Step(true, w, pos)
  }

  /** The roster agrees with the arena. */
  predicate Matches(roster: seq<Monster>, a: Arena)
    reads States(roster)
  {
    a.Fits(World(roster)) && a.elements == ElementsOf(roster) && Separate(roster)
  }

  /** `calculateBaseDamage`: draws the critical roll, then the random factor, and combines the five factors. */
  method CalculateBaseDamage(value: int, roster: seq<Monster>, a: Arena, rng: RandomSource) returns (damage: int)
    requires Matches(roster, a)
    modifies rng
    ensures rng.used == old(rng.used) + 2
    ensures damage == BaseDamage(value, DamageFactors(World(roster), a, rng.draws(old(rng.used)), rng.draws(old(rng.used) + 1)))
  {
    var crit := rng.NextDouble();
    var roll := rng.NextDouble();
    damage := BaseDamage(value, DamageFactors(World(roster), a, crit, roll));
  }

  /** `EffectDamage.execute`: nothing against a defeated target, otherwise the computed damage. */
  method ExecuteDamage(e: Effect, roster: seq<Monster>, a: Arena, rng: RandomSource) returns (ok: bool)
    requires e.Damage? && Matches(roster, a)
    modifies roster[a.target].state, rng
    ensures var r := DamageExec(e, old(World(roster)), a, rng.draws, old(rng.used));
            ok == r.ok && World(roster) == r.world && rng.used == r.pos
  {
    ghost var w := World(roster);
    var target := roster[a.target];
    if target.IsDefeated() {
      return false;
    }
    var amount;
    if e.kind == ABSOLUTE {
      amount := e.value;
    } else if e.kind == RELATIVE {
      amount := Combatant.Relative(target.state.maxHp, e.value);
    } else {
      amount := CalculateBaseDamage(e.value, roster, a, rng);
    }
    assert amount == DamageAmount(e, w, a, rng.draws, old(rng.used));
    var dealt := target.TakeDamage(amount);
    ok := true;
    assert forall i :: 0 <= i < |roster| && i != a.target ==> roster[i].state.Value() == w[i];
    assert World(roster) == w[a.target := roster[a.target].state.Value()];
  }

  /** `EffectHealing.execute`: nothing for a defeated target, otherwise the computed healing. */
  method ExecuteHealing(e: Effect, roster: seq<Monster>, a: Arena) returns (ok: bool)
    requires e.Healing? && Matches(roster, a)
    modifies roster[a.target].state
    ensures var r := HealExec(e, old(World(roster)), a, 0);
            ok == r.ok && World(roster) == r.world
  {
    ghost var w := World(roster);
    var target := roster[a.target];
    if target.IsDefeated() {
      return false;
    }
    var amount := HealAmount(e, target.state.Value());
    var gained := target.Heal(amount);
    ok := true;
    assert forall i :: 0 <= i < |roster| && i != a.target ==> roster[i].state.Value() == w[i];
    assert World(roster) == w[a.target := roster[a.target].state.Value()];
  }

  /** `EffectStatChange.execute`: nothing for a defeated target; a stats guard blocks a lowering from someone else. */
  method ExecuteStatChange(e: Effect, roster: seq<Monster>, a: Arena) returns (ok: bool)
    requires e.StatChange? && Matches(roster, a)
    modifies roster[a.target].state
    ensures var r := StatChangeExec(e, old(World(roster)), a, 0);
            ok == r.ok && World(roster) == r.world
  {
    ghost var w := World(roster);
    var user, target := roster[a.user], roster[a.target];
    if target.IsDefeated() {
      return false;
    }
    if target.state.guardStats && target != user && e.stages < 0 {
      return true;
    }
    target.SetStatChange(e.stat, e.stages);
    ok := true;
    assert forall i :: 0 <= i < |roster| && i != a.target ==> roster[i].state.Value() == w[i];
    assert World(roster) == w[a.target := roster[a.target].state.Value()];
  }

  /** `EffectStatusCondition.execute`: nothing for a defeated target; an existing condition is never replaced. */
  method ExecuteInflict(e: Effect, roster: seq<Monster>, a: Arena) returns (ok: bool)
    requires e.Inflict? && Matches(roster, a)
    modifies roster[a.target].state
    ensures var r := InflictExec(e, old(World(roster)), a, 0);
            ok == r.ok && World(roster) == r.world
  {
    ghost var w := World(roster);
    var target := roster[a.target];
    if target.IsDefeated() {
      return false;
    }
    if target.state.status != NONE {
      return true;
    }
    target.SetStatusCondition(e.condition);
    ok := true;
    assert forall i :: 0 <= i < |roster| && i != a.target ==> roster[i].state.Value() == w[i];
    assert World(roster) == w[a.target := roster[a.target].state.Value()];
  }

  /** `EffectDefense.execute`: nothing for a defeated user, otherwise the user's protection is set. */
  method ExecuteDefense(e: Effect, roster: seq<Monster>, a: Arena) returns (ok: bool)
    requires e.Defense? && Matches(roster, a)
    modifies roster[a.user].state
    ensures var r := DefenseExec(e, old(World(roster)), a, 0);
            ok == r.ok && World(roster) == r.world
  {
    ghost var w := World(roster);
    var user := roster[a.user];
    if user.IsDefeated() {
      return false;
    }
    user.SetProtection(e.guard == HEALTH, e.guard == STATS, e.duration);
    ok := true;
    assert forall i :: 0 <= i < |roster| && i != a.user ==> roster[i].state.Value() == w[i];
    assert World(roster) == w[a.user := roster[a.user].state.Value()];
  }

  /** The single dispatch of `execute(user, target, isFirstEffect)` over the effect kinds. */
  method Execute(e: Effect, roster: seq<Monster>, a: Arena, rng: RandomSource) returns (ok: bool)
    requires Matches(roster, a)
    modifies roster[a.user].state, roster[a.target].state, rng
    ensures var r := Apply(e, old(World(roster)), a, rng.draws, old(rng.used));
            ok == r.ok && World(roster) == r.world && rng.used == r.pos
  {
    match e {
      case Damage(_, _, _, _, _) => ok := ExecuteDamage(e, roster, a, rng);
      case Healing(_, _, _, _) => ok := ExecuteHealing(e, roster, a);
      case StatChange(_, _, _, _) => ok := ExecuteStatChange(e, roster, a);
      case Inflict(_, _, _) => ok := ExecuteInflict(e, roster, a);
      case Defense(_, _, _) => ok := ExecuteDefense(e, roster, a);
      case Repeat(_, _) => ok := true;
      case Continue(_) => ok := true;
    }
  }
}
