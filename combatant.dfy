/**
 * The combat state of one monster: hit points, stat stages, a status condition and a
 * protection window. Both snapshots keep exactly these fields (the newer one in
 * `MonsterState`, the older one directly in `Monster`); only the status-condition type
 * differs, so it is the type parameter `S`.
 */
module Combatant {
  import opened Numbers
  import opened Stats

  datatype Vitals<S> = Vitals(
    maxHp: int,
    attack: int,
    defense: int,
    speed: int,
    hp: int,
    stages: map<Stat, int>,
    status: S,
    duration: int,
    guardHealth: bool,
    guardStats: bool)

  /** The result of `takeDamage` / `heal`: the amount actually applied and the new state. */
  datatype Applied<S> = Applied(amount: int, after: Vitals<S>)

  /** The result of the end-of-round countdown: whether a protection just ran out, and the new state. */
  datatype Countdown<S> = Countdown(expired: bool, after: Vitals<S>)

  const NoStages: map<Stat, int> := map[HP := 0, ATK := 0, DEF := 0, SPD := 0, PRC := 0, AGL := 0]

  /** `statChanges.getOrDefault(stat, 0)` */
  function Stage<S>(v: Vitals<S>, stat: Stat): int
  {
    if stat in v.stages then v.stages[stat] else 0
  }

  /** `baseStats.getOrDefault(stat, 0)`: HP is the maximum, PRC and AGL are fixed at 1. */
  function BaseStat<S>(v: Vitals<S>, stat: Stat): int
  {
    match stat
    case HP => v.maxHp
    case ATK => v.attack
    case DEF => v.defense
    case SPD => v.speed
    case PRC | AGL => 1
  }

  /** Every stage lies in the window [-5, 5]. */
  predicate StagesInRange<S>(v: Vitals<S>)
  {
    forall stat: Stat :: -5 <= Stage(v, stat) <= 5
  }

  /** A freshly built combatant: full HP, all stages 0, the neutral status, no protection. */
  function Fresh<S>(maxHp: int, attack: int, defense: int, speed: int, neutral: S): (v: Vitals<S>)
    ensures v.maxHp == maxHp && v.hp == maxHp
    ensures BaseStat(v, ATK) == attack && BaseStat(v, DEF) == defense && BaseStat(v, SPD) == speed
    ensures BaseStat(v, PRC) == 1 && BaseStat(v, AGL) == 1
    ensures forall stat: Stat :: stat in v.stages && Stage(v, stat) == 0
    ensures v.status == neutral && v.duration == 0 && !v.guardHealth && !v.guardStats
  {
    NoStagesCoversEveryStat();
    Vitals(maxHp, attack, defense, speed, maxHp, NoStages, neutral, 0, false, false)
  }

  lemma NoStagesCoversEveryStat()
    ensures forall stat: Stat :: stat in NoStages && NoStages[stat] == 0
  {
    forall stat: Stat ensures stat in NoStages && NoStages[stat] == 0 {
      match stat
      case HP => case ATK => case DEF => case SPD => case PRC => case AGL =>
    }
  }

  /** The effective stat before the floor: base value times stage factor times status multiplier. */
  function Scaled<S>(v: Vitals<S>, stat: Stat, multiplier: real): real
    requires stat != HP
  {
    BaseStat(v, stat) as real * StageFactor(stat, Stage(v, stat)) * multiplier
  }

  /**
   * `getEffectiveStat`: base value times the stage factor times the status multiplier,
   * never below 1.0. HP has no stage factor (its base factor is 0), so it is excluded.
   */
  function EffectiveStat<S>(v: Vitals<S>, stat: Stat, multiplier: real): (r: real)
    requires stat != HP
    ensures r >= 1.0 && r >= Scaled(v, stat, multiplier)
    ensures r == 1.0 || r == Scaled(v, stat, multiplier)
  {
    AtLeastOne(Scaled(v, stat, multiplier))
  }

  /**
   * `takeDamage(amount)`: nothing when protected against damage; otherwise HP drops by
   * `amount` but not below 0 (the applied amount is `min(hp, amount)`).
   */
  function TakeDamage<S>(v: Vitals<S>, amount: int): (r: Applied<S>)
    ensures v.guardHealth ==> r.amount == 0 && r.after == v
    ensures !v.guardHealth ==> r.after == v.(hp := if amount <= v.hp then v.hp - amount else 0)
    ensures r.amount == v.hp - r.after.hp
  {
    if v.guardHealth then Applied(0, v)
    else
      var actual := Min(v.hp, amount);
      Applied(actual, v.(hp := v.hp - actual))
  }

  /** `heal(amount)`: HP rises by `amount` but not above the maximum (the applied amount is `min(maxHp - hp, amount)`). */
  function Heal<S>(v: Vitals<S>, amount: int): (r: Applied<S>)
    ensures r.after == v.(hp := if amount <= v.maxHp - v.hp then v.hp + amount else v.maxHp)
    ensures r.amount == r.after.hp - v.hp
  {
    var actual := Min(v.maxHp - v.hp, amount);
    Applied(actual, v.(hp := v.hp + actual))
  }

  /** HP within [0, maxHp] survives any non-negative damage or healing. */
  lemma HpStaysInRange<S>(v: Vitals<S>, amount: int)
    requires 0 <= v.hp <= v.maxHp && amount >= 0
    ensures 0 <= TakeDamage(v, amount).after.hp <= v.maxHp
    ensures 0 <= TakeDamage(v, amount).amount <= amount
    ensures 0 <= Heal(v, amount).after.hp <= v.maxHp
    ensures 0 <= Heal(v, amount).amount <= amount
  {
  }

  /** Healing by the maximum from any non-negative HP restores full HP (used by `reset`). */
  lemma HealByMaxRestores<S>(v: Vitals<S>)
    requires 0 <= v.hp
    ensures Heal(v, v.maxHp).after.hp == v.maxHp
  {
  }

  /** `setStatChange(stat, delta)`: the stage becomes clamp(old + delta) and nothing else changes. */
  function WithStage<S>(v: Vitals<S>, stat: Stat, delta: int): (r: Vitals<S>)
    ensures -5 <= Stage(r, stat) <= 5
    ensures -5 <= Stage(v, stat) + delta <= 5 ==> Stage(r, stat) == Stage(v, stat) + delta
    ensures Stage(v, stat) + delta < -5 ==> Stage(r, stat) == -5
    ensures Stage(v, stat) + delta > 5 ==> Stage(r, stat) == 5
    ensures forall other: Stat :: other != stat ==> Stage(r, other) == Stage(v, other)
    ensures r == v.(stages := r.stages)
  {
    v.(stages := v.stages[stat := ClampStage(Stage(v, stat) + delta)])
  }

  lemma WithStageKeepsRange<S>(v: Vitals<S>, stat: Stat, delta: int)
    requires StagesInRange(v)
    ensures StagesInRange(WithStage(v, stat, delta))
  {
    var r := WithStage(v, stat, delta);
    forall other: Stat ensures -5 <= Stage(r, other) <= 5 {
      if other != stat {
        assert Stage(r, other) == Stage(v, other);
      }
    }
  }

  /** Undoing the current stage (`setStatChange(stat, -stage)`) always lands on 0, for any stored stage. */
  lemma WithStageUndo<S>(v: Vitals<S>, stat: Stat)
    ensures Stage(WithStage(v, stat, -Stage(v, stat)), stat) == 0
  {
  }

  /** `setStatChange(stat, -stage)` for each listed stat other than HP, in order: the reset loop over `Stat.values()`. */
  function ZeroStages<S>(v: Vitals<S>, stats: seq<Stat>): (r: Vitals<S>)
    ensures r == v.(stages := r.stages)
  {
    if stats == [] then v
    else
      var u := ZeroStages(v, stats[..|stats| - 1]);
      var last := stats[|stats| - 1];
      if last == HP then u else WithStage(u, last, -Stage(u, last))
  }

  /** After the reset loop every listed non-HP stage is 0; HP and unlisted stages keep their value. */
  lemma {:induction false} ZeroStagesClears<S>(v: Vitals<S>, stats: seq<Stat>)
    ensures forall stat: Stat :: stat in stats && stat != HP ==> Stage(ZeroStages(v, stats), stat) == 0
    ensures forall stat: Stat :: stat !in stats || stat == HP ==> Stage(ZeroStages(v, stats), stat) == Stage(v, stat)
  {
    if stats != [] {
      var init := stats[..|stats| - 1];
      ZeroStagesClears(v, init);
      var u := ZeroStages(v, init);
      var last := stats[|stats| - 1];
      assert stats == init + [last];
      if last != HP {
        WithStageUndo(u, last);
      }
    }
  }

  /** `setProtection`: both flags and the duration are overwritten, nothing else changes. */
  function WithProtection<S>(v: Vitals<S>, health: bool, stats: bool, duration: int): (r: Vitals<S>)
  {
    v.(guardHealth := health, guardStats := stats, duration := duration)
  }

  /**
   * `decreaseProtectionDuration`: a positive duration counts down; when it reaches 0 both
   * flags are cleared and the result says whether either was set. A duration already at or
   * below 0 is left alone and the result is false.
   */
  function DecreaseProtection<S>(v: Vitals<S>): (r: Countdown<S>)
    ensures v.duration <= 0 ==> r == Countdown(false, v)
    ensures v.duration > 1 ==> r == Countdown(false, v.(duration := v.duration - 1))
    ensures v.duration == 1 ==> r.expired == (v.guardHealth || v.guardStats)
    ensures v.duration == 1 ==> r.after == WithProtection(v, false, false, 0)
    ensures r.after.hp == v.hp && r.after.stages == v.stages && r.after.status == v.status
  {
    if v.duration > 0 then
      var d := v.duration - 1;
      if d == 0 then Countdown(v.guardHealth || v.guardStats, v.(duration := 0, guardHealth := false, guardStats := false))
      else Countdown(false, v.(duration := d))
    else Countdown(false, v)
  }

  /** The state after `n` end-of-round countdowns. */
  function CountDown<S>(v: Vitals<S>, n: nat): Vitals<S>
    decreases n
  {
    if n == 0 then v else CountDown(DecreaseProtection(v).after, n - 1)
  }

  /** A protection set for `d` rounds is still in force, unchanged, after `k < d` countdowns. */
  lemma {:induction false} ProtectionHolds<S>(v: Vitals<S>, health: bool, stats: bool, d: int, k: nat)
    requires k < d
    ensures var w := CountDown(WithProtection(v, health, stats, d), k);
      w.guardHealth == health && w.guardStats == stats && w.duration == d - k
    decreases k
  {
    if k > 0 {
      ProtectionHolds(v, health, stats, d, k - 1);
      CountDownStep(WithProtection(v, health, stats, d), k - 1);
    }
  }

  /** The `d`-th countdown of a protection set for `d >= 1` rounds clears both flags and reports whether one was set. */
  lemma ProtectionExpiresOnTime<S>(v: Vitals<S>, health: bool, stats: bool, d: int)
    requires d >= 1
    ensures var w := CountDown(WithProtection(v, health, stats, d), d - 1);
      DecreaseProtection(w).expired == (health || stats)
      && !DecreaseProtection(w).after.guardHealth && !DecreaseProtection(w).after.guardStats
      && DecreaseProtection(w).after.duration == 0
  {
    ProtectionHolds(v, health, stats, d, d - 1);
  }

  lemma {:induction false} CountDownStep<S>(v: Vitals<S>, n: nat)
    ensures CountDown(v, n + 1) == DecreaseProtection(CountDown(v, n)).after
    decreases n
  {
    if n > 0 {
      CountDownStep(DecreaseProtection(v).after, n - 1);
    }
  }

  /** `Math.ceil(maxHp * value / 100.0)`: a percentage of the maximum HP, rounded up. */
  function Relative(maxHp: int, percent: int): (r: int)
    ensures (maxHp * percent) as real / 100.0 <= r as real < (maxHp * percent) as real / 100.0 + 1.0
  {
    Ceil((maxHp * percent) as real / 100.0)
  }

  /** A percentage between 0 and 100 of a non-negative maximum lies between 0 and that maximum. */
  lemma RelativeBounds(maxHp: int, percent: int)
    requires maxHp >= 0 && 0 <= percent <= 100
    ensures 0 <= Relative(maxHp, percent) <= maxHp
    ensures maxHp >= 1 && percent >= 1 ==> Relative(maxHp, percent) >= 1
  {
    var x := (maxHp * percent) as real / 100.0;
    assert maxHp * percent <= maxHp * 100 by {
      assert maxHp * (100 - percent) >= 0;
    }
    assert x <= maxHp as real;
    assert maxHp >= 1 && percent >= 1 ==> maxHp * percent >= 1;
  }
}
