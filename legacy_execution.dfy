/**
 * What one effect of the older snapshot does when it lands (`execute` of each effect class),
 * first as a function of the roster's states, then as the dispatch method that changes the
 * monsters. Damage, healing, stat and status effects act on `targetIsUser ? user : target`.
 */
module LegacyExecution {
  import opened Numbers
  import opened Stats
  import Elements
  import opened Randomness
  import opened Encounter
  import Combatant
  import EduEffect
  import opened LegacyConditions
  import opened LegacyEffect
  import opened LegacyModel

  /** The outcome of trying an effect: `execute`'s boolean, the new states, the draws consumed so far. */
  datatype Step = Step(ok: bool, world: seq<State>, pos: nat)

  /** The position `execute` acts on. */
  function Aim(e: Effect, a: Arena): (t: nat)
    requires Aimed(e)
    ensures t == a.user || t == a.target
  {
    ActualTarget(e, a.user, a.target)
  }

  /**
   * The multipliers of `calculateBaseDamage(user, victim, value)`, given the critical-hit draw and
   * the random-factor draw; the element factor looks at the victim's element.
   */
  function DamageFactors(w: seq<State>, a: Arena, victim: nat, crit: Unit, roll: Unit): (f: Factors)
    requires a.Fits(w) && victim < |w|
    ensures f.Positive()
    ensures f.element == Elements.Multiplier(a.actionElement, a.elements[victim])
    ensures f.stat == Effective(w[a.user], ATK) / Effective(w[victim], DEF)
    ensures f.critical == 2.0 <==> Hit(crit, 10.0 * (Effective(w[a.user], SPD) / Effective(w[victim], SPD)))
    ensures f.critical == 1.0 || f.critical == 2.0
    ensures f.same == 1.5 <==> a.actionElement == a.elements[a.user]
    ensures f.same == 1.0 || f.same == 1.5
    ensures 0.85 <= f.random < 1.0 && f.random == 0.85 + roll * 0.15
  {
    var atk, def := Effective(w[a.user], ATK), Effective(w[victim], DEF);
    var critChance := 10.0 * (Effective(w[a.user], SPD) / Effective(w[victim], SPD));
    Factors(
      Elements.Multiplier(a.actionElement, a.elements[victim]),
      atk / def,
      if Hit(crit, critChance) then 2.0 else 1.0,
      if a.actionElement == a.elements[a.user] then 1.5 else 1.0,
      0.85 + roll * 0.15)
  }

  /** The damage a damage effect deals to its victim before protection: ABSOLUTE, RELATIVE to the victim's maximum, or BASE. */
  function DamageAmount(e: Effect, w: seq<State>, a: Arena, draws: Draws, pos: nat): int
    requires e.Damage? && a.Fits(w)
  {
    var t := Aim(e, a);
    if e.kind == EduEffect.ABSOLUTE then e.value
    else if e.kind == EduEffect.RELATIVE then Combatant.Relative(w[t].maxHp, e.value)
    else BaseDamage(e.value, DamageFactors(w, a, t, draws(pos), draws(pos + 1)))
  }

  /** RELATIVE damage of 0..100 percent stays within the victim's maximum; BASE damage has the sign of its value. */
  lemma DamageAmountBounds(e: Effect, w: seq<State>, a: Arena, draws: Draws, pos: nat)
    requires e.Damage? && a.Fits(w)
    ensures var t := Aim(e, a);
            e.kind == EduEffect.RELATIVE && w[t].maxHp >= 0 && 0 <= e.value <= 100 ==>
              0 <= DamageAmount(e, w, a, draws, pos) <= w[t].maxHp
    ensures e.kind == EduEffect.BASE && e.value >= 1 ==> DamageAmount(e, w, a, draws, pos) >= 1
    ensures e.kind == EduEffect.BASE && e.value == 0 ==> DamageAmount(e, w, a, draws, pos) == 0
  {
    var t := Aim(e, a);
    if e.kind == EduEffect.RELATIVE && w[t].maxHp >= 0 && 0 <= e.value <= 100 {
      Combatant.RelativeBounds(w[t].maxHp, e.value);
    }
    if e.kind == EduEffect.BASE {
      BaseDamageSign(e.value, DamageFactors(w, a, t, draws(pos), draws(pos + 1)));
    }
  }

  /** `EffectDamage.execute`: the victim takes the damage unless it is already fainted. */
  function DamageExec(e: Effect, w: seq<State>, a: Arena, draws: Draws, pos: nat): (r: Step)
    requires e.Damage? && a.Fits(w)
    ensures var t := Aim(e, a);
            (r.ok <==> !Fainted(w[t]))
            && (!r.ok ==> r == Step(false, w, pos))
            && (r.ok ==> r.world == w[t := Combatant.TakeDamage(w[t], DamageAmount(e, w, a, draws, pos)).after])
            && (r.ok && w[t].guardHealth ==> r.world == w)
    ensures r.pos == if r.ok && e.kind == EduEffect.BASE then pos + 2 else pos
  {
    var t := Aim(e, a);
    if Fainted(w[t]) then Step(false, w, pos)
    else
      var amount := DamageAmount(e, w, a, draws, pos);
      Step(true, w[t := Combatant.TakeDamage(w[t], amount).after], if e.kind == EduEffect.BASE then pos + 2 else pos)
  }

  /** The amount a healing effect restores before the cap: ABSOLUTE, RELATIVE to the maximum, or BASE (the value itself). */
  function HealAmount(e: Effect, v: State): (r: int)
    requires e.Healing?
    ensures e.kind == EduEffect.BASE ==> r == e.value
  {
    if e.kind == EduEffect.ABSOLUTE then e.value
    else if e.kind == EduEffect.RELATIVE then Combatant.Relative(v.maxHp, e.value)
    else Ceil(e.value as real)
  }

  /** `EffectHealing.execute`: the victim heals unless fainted, never above its maximum. */
  function HealExec(e: Effect, w: seq<State>, a: Arena, pos: nat): (r: Step)
    requires e.Healing? && a.Fits(w)
    ensures var t := Aim(e, a);
            (r.ok <==> !Fainted(w[t]))
            && (!r.ok ==> r == Step(false, w, pos))
            && (r.ok ==> r.world == w[t := Combatant.Heal(w[t], HealAmount(e, w[t])).after])
            && (r.ok ==> r.world[t].hp <= w[t].maxHp)
    ensures r.pos == pos
  {
    var t := Aim(e, a);
    if Fainted(w[t]) then Step(false, w, pos)
    else Step(true, w[t := Combatant.Heal(w[t], HealAmount(e, w[t])).after], pos)
  }

  /** The stat-protection check: a decrease not flagged for the user, against a stat-protected victim. */
  predicate StatChangeBlocked(e: Effect, w: seq<State>, a: Arena)
    requires e.StatChange? && a.Fits(w)
  {
    !e.toUser && e.stages < 0 && w[Aim(e, a)].guardStats
  }

  /** `EffectStatChange.execute` */
  function StatChangeExec(e: Effect, w: seq<State>, a: Arena, pos: nat): (r: Step)
    requires e.StatChange? && a.Fits(w)
    ensures var t := Aim(e, a);
            (r.ok <==> !Fainted(w[t]))
            && (!r.ok || StatChangeBlocked(e, w, a) ==> r.world == w)
            && (r.ok && !StatChangeBlocked(e, w, a) ==> r.world == w[t := Combatant.WithStage(w[t], e.stat, e.stages)])
    ensures r.pos == pos
  {
    var t := Aim(e, a);
    if Fainted(w[t]) then Step(false, w, pos)
    else if StatChangeBlocked(e, w, a) then Step(true, w, pos)
    else Step(true, w[t := Combatant.WithStage(w[t], e.stat, e.stages)], pos)
  }

  /**
   * The check looks at the flag, not at who is hit: a decrease flagged for the target that
   * lands on its own stat-protected user is blocked, while one flagged for the user never is.
   */
  lemma StatChangeCheckUsesFlag(e: Effect, w: seq<State>, a: Arena, pos: nat)
    requires e.StatChange? && a.Fits(w) && !Fainted(w[a.user]) && e.stages < 0
    ensures !e.toUser && a.target == a.user && w[a.user].guardStats ==> StatChangeExec(e, w, a, pos) == Step(true, w, pos)
    ensures e.toUser ==> StatChangeExec(e, w, a, pos).world == w[a.user := Combatant.WithStage(w[a.user], e.stat, e.stages)]
  {
  }

  /** `EffectStatusCondition.execute`: an existing condition other than NONE is never replaced. */
  function InflictExec(e: Effect, w: seq<State>, a: Arena, pos: nat): (r: Step)
    requires e.Inflict? && a.Fits(w)
    ensures var t := Aim(e, a);
            (r.ok <==> !Fainted(w[t]))
            && r.world == (if r.ok && w[t].status == NONE then w[t := w[t].(status := e.condition)] else w)
            && (w[t].status != NONE ==> r.world[t].status == w[t].status)
    ensures r.pos == pos
  {
    var t := Aim(e, a);
    if Fainted(w[t]) then Step(false, w, pos)
    else if w[t].status != NONE then Step(true, w, pos)
    else Step(true, w[t := w[t].(status := e.condition)], pos)
  }

  /** `EffectDefense.execute`: the user, never the target, gets the protection, for the stored count of rounds. */
  function DefenseExec(e: Effect, w: seq<State>, a: Arena, pos: nat): (r: Step)
    requires e.Defense? && a.Fits(w)
    ensures r.ok <==> !Fainted(w[a.user])
    ensures !r.ok ==> r.world == w
    ensures r.ok ==> r.world == w[a.user := Combatant.WithProtection(w[a.user], e.guard == EduEffect.HEALTH, e.guard == EduEffect.STATS, e.count)]
    ensures r.ok ==> r.world[a.user].guardHealth != r.world[a.user].guardStats
    ensures r.pos == pos
  {
    if Fainted(w[a.user]) then Step(false, w, pos)
    else Step(true, w[a.user := Combatant.WithProtection(w[a.user], e.guard == EduEffect.HEALTH, e.guard == EduEffect.STATS, e.count)], pos)
  }

  /** `execute` of any effect; repeat and continue succeed and change nothing, even for fainted monsters. */
  function Apply(e: Effect, w: seq<State>, a: Arena, draws: Draws, pos: nat): (r: Step)
    requires a.Fits(w)
    ensures |r.world| == |w|
    ensures forall i :: 0 <= i < |w| && i != a.user && i != a.target ==> r.world[i] == w[i]
    ensures pos <= r.pos <= pos + 2
    ensures !r.ok ==> r.world == w && r.pos == pos
    ensures (e.Repeat? || e.Continue?) ==> r == Step(true, w, pos)
  {
    match e
    case Damage(_, _, _, _, _) => DamageExec(e, w, a, draws, pos)
    case Healing(_, _, _, _) => HealExec(e, w, a, pos)
    case StatChange(_, _, _, _) => StatChangeExec(e, w, a, pos)
    case Inflict(_, _, _) => InflictExec(e, w, a, pos)
    case Defense(_, _, _) => DefenseExec(e, w, a, pos)
    case Repeat(_, _) => Step(true, w, pos)
    case Continue(_) => Step(true, w, pos)
  }

  /** The roster agrees with the arena. */
  predicate Matches(roster: seq<Monster>, a: Arena)
    reads Members(roster)
  {
    a.Fits(World(roster)) && a.elements == ElementsOf(roster) && Separate(roster)
  }

  /** `calculateBaseDamage(user, victim, value)`: draws the critical roll, then the random factor. */
  method CalculateBaseDamage(value: int, roster: seq<Monster>, a: Arena, victim: nat, rng: RandomSource) returns (damage: int)
    requires Matches(roster, a) && victim < |roster|
    modifies rng
    ensures rng.used == old(rng.used) + 2
    ensures damage == BaseDamage(value, DamageFactors(World(roster), a, victim, rng.draws(old(rng.used)), rng.draws(old(rng.used) + 1)))
  {
    var crit := rng.NextDouble();
    var roll := rng.NextDouble();
    damage := BaseDamage(value, DamageFactors(World(roster), a, victim, crit, roll));
  }

  /** `EffectDamage.execute` */
  method ExecuteDamage(e: Effect, roster: seq<Monster>, a: Arena, rng: RandomSource) returns (ok: bool)
    requires e.Damage? && Matches(roster, a)
    modifies roster[a.user], roster[a.target], rng
    ensures var r := DamageExec(e, old(World(roster)), a, rng.draws, old(rng.used));
            ok == r.ok && World(roster) == r.world && rng.used == r.pos
  {
    ghost var w := World(roster);
    var t := if e.toUser then a.user else a.target;
    var victim := roster[t];
    if victim.IsFainted() {
      return false;
    }
    var amount;
    if e.kind == EduEffect.ABSOLUTE {
      amount := e.value;
    } else if e.kind == EduEffect.RELATIVE {
      amount := Combatant.Relative(victim.maxHp, e.value);
    } else {
      amount := CalculateBaseDamage(e.value, roster, a, t, rng);
    }
    assert amount == DamageAmount(e, w, a, rng.draws, old(rng.used));
    var dealt := victim.TakeDamage(amount);
    ok := true;
    assert forall i :: 0 <= i < |roster| && i != t ==> roster[i].Value() == w[i];
    assert World(roster) == w[t := roster[t].Value()];
  }

  /** `EffectHealing.execute` */
  method ExecuteHealing(e: Effect, roster: seq<Monster>, a: Arena) returns (ok: bool)
    requires e.Healing? && Matches(roster, a)
    modifies roster[a.user], roster[a.target]
    ensures var r := HealExec(e, old(World(roster)), a, 0);
            ok == r.ok && World(roster) == r.world
  {
    ghost var w := World(roster);
    var t := if e.toUser then a.user else a.target;
    var victim := roster[t];
    if victim.IsFainted() {
      return false;
    }
    var amount := HealAmount(e, victim.Value());
    var gained := victim.Heal(amount);
    ok := true;
    assert forall i :: 0 <= i < |roster| && i != t ==> roster[i].Value() == w[i];
    assert World(roster) == w[t := roster[t].Value()];
  }

  /** `EffectStatChange.execute` */
  method ExecuteStatChange(e: Effect, roster: seq<Monster>, a: Arena) returns (ok: bool)
    requires e.StatChange? && Matches(roster, a)
    modifies roster[a.user], roster[a.target]
    ensures var r := StatChangeExec(e, old(World(roster)), a, 0);
            ok == r.ok && World(roster) == r.world
  {
    ghost var w := World(roster);
    var t := if e.toUser then a.user else a.target;
    var victim := roster[t];
    if victim.IsFainted() {
      return false;
    }
    if !e.toUser && e.stages < 0 && victim.guardStats {
      return true;
    }
    victim.ChangeStatBy(e.stat, e.stages);
    ok := true;
    assert forall i :: 0 <= i < |roster| && i != t ==> roster[i].Value() == w[i];
    assert World(roster) == w[t := roster[t].Value()];
  }

  /** `EffectStatusCondition.execute` */
  method ExecuteInflict(e: Effect, roster: seq<Monster>, a: Arena) returns (ok: bool)
    requires e.Inflict? && Matches(roster, a)
    modifies roster[a.user], roster[a.target]
    ensures var r := InflictExec(e, old(World(roster)), a, 0);
            ok == r.ok && World(roster) == r.world
  {
    ghost var w := World(roster);
    var t := if e.toUser then a.user else a.target;
    var victim := roster[t];
    if victim.IsFainted() {
      return false;
    }
    if victim.status != NONE {
      return true;
    }
    victim.SetStatusCondition(e.condition);
    ok := true;
    assert forall i :: 0 <= i < |roster| && i != t ==> roster[i].Value() == w[i];
    assert World(roster) == w[t := roster[t].Value()];
  }

  /** `EffectDefense.execute` */
  method ExecuteDefense(e: Effect, roster: seq<Monster>, a: Arena) returns (ok: bool)
    requires e.Defense? && Matches(roster, a)
    modifies roster[a.user]
    ensures var r := DefenseExec(e, old(World(roster)), a, 0);
            ok == r.ok && World(roster) == r.world
  {
    ghost var w := World(roster);
    var user := roster[a.user];
    if user.IsFainted() {
      return false;
    }
    user.SetProtection(e.count, e.guard == EduEffect.HEALTH, e.guard == EduEffect.STATS);
    ok := true;
    assert forall i :: 0 <= i < |roster| && i != a.user ==> roster[i].Value() == w[i];
    assert World(roster) == w[a.user := roster[a.user].Value()];
  }

  /** The dynamic dispatch of `execute(user, target, isFirstEffect)` over the effect kinds. */
  method Execute(e: Effect, roster: seq<Monster>, a: Arena, rng: RandomSource) returns (ok: bool)
    requires Matches(roster, a)
    modifies roster[a.user], roster[a.target], rng
    ensures var r := Apply(e, old(World(roster)), a, rng.draws, old(rng.used));
            ok == r.ok && World(roster) == r.world && rng.used == r.pos
  {
    match e {
      case Damage(_, _, _, _, _) => ok := ExecuteDamage(e, roster, a, rng);
      case Healing(_, _, _, _) => ok := ExecuteHealing(e, roster, a);
      case StatChange(_, _, _, _) => ok := ExecuteStatChange(e, roster, a);
      case Inflict(_, _, _) => ok := ExecuteInflict(e, roster, a);
      case Defense(_, _, _) => ok := ExecuteDefense(e, roster, a);
      case Repeat(_, _) => ok := true;
      case Continue(_) => ok := true;
    }
  }
}
