/** `MonsterState`: the newer snapshot's mutable combat state of one monster. */
module EduState {
  import opened Stats
  import Combatant
  import opened EduConditions

  type State = Combatant.Vitals<Condition>

  /** `isDefeated()`: no HP left, or the FAINTED condition. */
  predicate Defeated(v: State)
  {
    v.hp <= 0 || v.status == FAINTED
  }

  /** `getEffectiveStat(stat)` of a state value; HP is excluded (its stage factor divides by zero). */
  function Effective(v: State, stat: Stat): (r: real)
    requires stat != HP
    ensures r >= 1.0 && r >= Combatant.Scaled(v, stat, Multiplier(v.status, stat))
    ensures r == 1.0 || r == Combatant.Scaled(v, stat, Multiplier(v.status, stat))
  {
    Combatant.EffectiveStat(v, stat, Multiplier(v.status, stat))
  }

  class MonsterState {
    const maxHp: int
    const attack: int
    const defense: int
    const speed: int
    var hp: int
    var stages: map<Stat, int>
    var status: Condition
    var duration: int
    var guardHealth: bool
    var guardStats: bool

    /** The abstract value of this state. */
    function Value(): State
      reads this
    {
      Combatant.Vitals(maxHp, attack, defense, speed, hp, stages, status, duration, guardHealth, guardStats)
    }

    constructor (maxHp: int, attack: int, defense: int, speed: int)
      ensures Value() == Combatant.Fresh(maxHp, attack, defense, speed, NONE)
    {
      this.maxHp, this.attack, this.defense, this.speed := maxHp, attack, defense, speed;
      hp := maxHp;
      stages := Combatant.NoStages;
      status := NONE;
      duration := 0;
      guardHealth, guardStats := false, false;
    }

    /** `getEffectiveStat(stat)` */
    function EffectiveStat(stat: Stat): (r: real)
      requires stat != HP
      reads this
      ensures r >= 1.0 && r >= Combatant.Scaled(Value(), stat, Multiplier(Value().status, stat))
      ensures r == 1.0 || r == Combatant.Scaled(Value(), stat, Multiplier(Value().status, stat))
    {
      Effective(Value(), stat)
    }

    /** `isDefeated()` */
    predicate IsDefeated()
      reads this
      ensures IsDefeated() <==> Value().hp <= 0 || Value().status == FAINTED
    {
      Defeated(Value())
    }

    /** `setStatusCondition(condition)` */
    method SetStatusCondition(condition: Condition)
      modifies this
      ensures Value() == old(Value()).(status := condition)
    {
      status := condition;
    }

    /** `setStatChange(stat, delta)` */
    method SetStatChange(stat: Stat, delta: int)
      modifies this
      ensures Value() == Combatant.WithStage(old(Value()), stat, delta)
    {
      var current := if stat in stages then stages[stat] else 0;
      stages := stages[stat := if current + delta < -5 then -5 else if current + delta > 5 then 5 else current + delta];
    }

    /** `takeDamage(amount)` */
    method TakeDamage(amount: int) returns (actual: int)
      modifies this
      ensures Combatant.Applied(actual, Value()) == Combatant.TakeDamage(old(Value()), amount)
    {
      if guardHealth {
        return 0;
      }
      actual := if hp <= amount then hp else amount;
      hp := hp - actual;
    }

    /** `heal(amount)` */
    method Heal(amount: int) returns (actual: int)
      modifies this
      ensures Combatant.Applied(actual, Value()) == Combatant.Heal(old(Value()), amount)
    {
      var room := maxHp - hp;
      actual := if room <= amount then room else amount;
      hp := hp + actual;
    }

    /** `setProtection(health, stats, duration)` */
    method SetProtection(health: bool, stats: bool, duration: int)
      modifies this
      ensures Value() == Combatant.WithProtection(old(Value()), health, stats, duration)
    {
      guardHealth, guardStats, this.duration := health, stats, duration;
    }

    /** `decreaseProtectionDuration()` */
    method DecreaseProtectionDuration() returns (expired: bool)
      modifies this
      ensures Combatant.Countdown(expired, Value()) == Combatant.DecreaseProtection(old(Value()))
    {
      expired := false;
      if duration > 0 {
        duration := duration - 1;
        if duration == 0 {
          expired := guardHealth || guardStats;
          guardHealth, guardStats := false, false;
        }
      }
    }
  }
}
