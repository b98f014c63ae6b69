/**
 * The older snapshot's `Action` and `Monster` objects. Unlike the newer snapshot, a monster keeps
 * its combat fields itself, and it is fainted exactly when its HP is at or below 0.
 */
module LegacyModel {
  import opened Stats
  import Elements
  import Combatant
  import opened LegacyConditions
  import opened LegacyEffect

  type State = Combatant.Vitals<Condition>

  /** `isFainted()` of a state value. */
  predicate Fainted(v: State)
  {
    v.hp <= 0
  }

  /** `getEffectiveStat(stat)` of a state value; HP is excluded (its stage factor divides by zero). */
  function Effective(v: State, stat: Stat): (r: real)
    requires stat != HP
    ensures r >= 1.0 && r >= Combatant.Scaled(v, stat, Multiplier(v.status, stat))
    ensures r == 1.0 || r == Combatant.Scaled(v, stat, Multiplier(v.status, stat))
  {
    Combatant.EffectiveStat(v, stat, Multiplier(v.status, stat))
  }

  class Action {
    const name: string
    const element: Elements.Element
    var effects: seq<Effect>

    constructor (name: string, element: Elements.Element)
      ensures this.name == name && this.element == element && effects == []
    {
      this.name, this.element := name, element;
      effects := [];
    }

    /** `addEffect(effect)` */
    method AddEffect(effect: Effect)
      modifies this
      ensures effects == old(effects) + [effect]
    {
      effects := effects + [effect];
    }

    /** `getEffects()`: a copy of the list. */
    method GetEffects() returns (r: seq<Effect>)
      ensures r == effects
    {
      r := effects;
    }

    /** `getFirstEffectHitRate()`: 0 without effects; a leading repeat reports 100. */
    function FirstEffectHitRate(): (r: int)
      reads this
      ensures effects == [] ==> r == 0
      ensures effects != [] && effects[0].Repeat? ==> r == 100
      ensures effects != [] && !effects[0].Repeat? ==> r == effects[0].hitRate
    {
      if effects == [] then 0 else HitRate(effects[0])
    }
  }

  class Monster {
    const name: string
    const element: Elements.Element
    const maxHp: int
    const attack: int
    const defense: int
    const speed: int
    var hp: int
    var stages: map<Stat, int>
    var status: Condition
    var duration: int
    var guardHealth: bool
    var guardStats: bool
    var actions: seq<Action>
    var displayName: string

    /** The combat state held in this monster's fields. */
    function Value(): State
      reads this
    {
      Combatant.Vitals(maxHp, attack, defense, speed, hp, stages, status, duration, guardHealth, guardStats)
    }

    /** The constructor: full HP, every stage 0, NONE, no protection, no actions, the display name is the name. */
    constructor (name: string, element: Elements.Element, maxHp: int, attack: int, defense: int, speed: int)
      ensures this.name == name && this.element == element && displayName == name && actions == []
      ensures Value() == Combatant.Fresh(maxHp, attack, defense, speed, NONE)
    {
      this.name, this.element := name, element;
      this.maxHp, this.attack, this.defense, this.speed := maxHp, attack, defense, speed;
      hp := maxHp;
      stages := Combatant.NoStages;
      status := NONE;
      duration := 0;
      guardHealth, guardStats := false, false;
      actions := [];
      displayName := name;
    }

    /** `setDisplayName(displayName)` */
    method SetDisplayName(displayName: string)
      modifies this
      ensures this.displayName == displayName && actions == old(actions) && Value() == old(Value())
    {
      this.displayName := displayName;
    }

    /** `getEffectiveStat(stat)` */
    function EffectiveStat(stat: Stat): (r: real)
      requires stat != HP
      reads this
      ensures r >= 1.0 && r >= Combatant.Scaled(Value(), stat, Multiplier(Value().status, stat))
      ensures r == 1.0 || r == Combatant.Scaled(Value(), stat, Multiplier(Value().status, stat))
    {
      Effective(Value(), stat)
    }

    /** `isFainted()` */
    predicate IsFainted()
      reads this
      ensures IsFainted() <==> Value().hp <= 0
    {
      Fainted(Value())
    }

    /** `setStatusCondition(condition)` */
    method SetStatusCondition(condition: Condition)
      modifies this
      ensures Value() == old(Value()).(status := condition)
      ensures actions == old(actions) && displayName == old(displayName)
    {
      status := condition;
    }

    /** `changeStatBy(stat, stages)`: the stage becomes the clamped sum. */
    method ChangeStatBy(stat: Stat, delta: int)
      modifies this
      ensures Value() == Combatant.WithStage(old(Value()), stat, delta)
      ensures actions == old(actions) && displayName == old(displayName)
    {
      var current := if stat in stages then stages[stat] else 0;
      var sum := current + delta;
      stages := stages[stat := if sum > 5 then 5 else if sum < -5 then -5 else sum];
    }

    /** `addAction(action)` */
    method AddAction(action: Action)
      modifies this
      ensures actions == old(actions) + [action] && displayName == old(displayName) && Value() == old(Value())
    {
      actions := actions + [action];
    }

    /** `getActions()`: a copy in insertion order. */
    method GetActions() returns (r: seq<Action>)
      ensures r == actions
    {
      r := actions;
    }

    /** `getAction(actionName)`: the first action with that name, or null. */
    method GetAction(actionName: string) returns (r: Action?)
      ensures r == null <==> forall a :: a in actions ==> a.name != actionName
      ensures r != null ==> exists k :: 0 <= k < |actions| && actions[k] == r && r.name == actionName
                                       && forall j :: 0 <= j < k ==> actions[j].name != actionName
    {
      var i := 0;
      while i < |actions|
        invariant 0 <= i <= |actions|
        invariant forall j :: 0 <= j < i ==> actions[j].name != actionName
      {
        if actions[i].name == actionName {
          return actions[i];
        }
        i := i + 1;
      }
      return null;
    }

    /** `takeDamage(amount)`: nothing while health-protected, else at most the current HP. */
    method TakeDamage(amount: int) returns (actual: int)
      modifies this
      ensures Combatant.Applied(actual, Value()) == Combatant.TakeDamage(old(Value()), amount)
      ensures actions == old(actions) && displayName == old(displayName)
    {
      if guardHealth {
        return 0;
      }
      actual := if hp <= amount then hp else amount;
      hp := hp - actual;
    }

    /** `heal(amount)`: at most up to the maximum. */
    method Heal(amount: int) returns (actual: int)
      modifies this
      ensures Combatant.Applied(actual, Value()) == Combatant.Heal(old(Value()), amount)
      ensures actions == old(actions) && displayName == old(displayName)
    {
      var room := maxHp - hp;
      actual := if room <= amount then room else amount;
      hp := hp + actual;
    }

    /** `setProtection(rounds, protectHealth, protectStats)` */
    method SetProtection(rounds: int, protectHealth: bool, protectStats: bool)
      modifies this
      ensures Value() == Combatant.WithProtection(old(Value()), protectHealth, protectStats, rounds)
      ensures actions == old(actions) && displayName == old(displayName)
    {
      duration, guardHealth, guardStats := rounds, protectHealth, protectStats;
    }

    /** `decreaseProtection()`: counts down and reports a protection that has just run out. */
    method DecreaseProtection() returns (expired: bool)
      modifies this
      ensures Combatant.Countdown(expired, Value()) == Combatant.DecreaseProtection(old(Value()))
      ensures actions == old(actions) && displayName == old(displayName)
    {
      expired := false;
      if duration > 0 {
        duration := duration - 1;
        if duration == 0 {
          expired := guardHealth || guardStats;
          guardHealth, guardStats := false, false;
        }
      }
    }
  }

  /** The monsters of a roster, as a frame. */
  function Members(roster: seq<Monster>): set<Monster>
  {
    set m | m in roster
  }

  /** The states of the roster, position by position. */
  function World(roster: seq<Monster>): (w: seq<State>)
    reads Members(roster)
    ensures |w| == |roster|
  {
    seq(|roster|, i requires 0 <= i < |roster| reads Members(roster) => roster[i].Value())
  }

  /** The elements of the roster, position by position. */
  function ElementsOf(roster: seq<Monster>): (e: seq<Elements.Element>)
    ensures |e| == |roster|
    ensures forall i :: 0 <= i < |roster| ==> e[i] == roster[i].element
  {
    seq(|roster|, i requires 0 <= i < |roster| => roster[i].element)
  }

  /** No monster appears twice in the roster. */
  predicate Separate(roster: seq<Monster>)
  {
    forall i, j :: 0 <= i < j < |roster| ==> roster[i] != roster[j]
  }
}
