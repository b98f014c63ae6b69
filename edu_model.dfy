/** The newer snapshot's `Action` and `Monster` objects, and the roster view the battle works on. */
module EduModel {
  import opened Stats
  import opened Elements
  import opened EduConditions
  import opened EduEffect
  import opened EduState
  import Combatant

  class Action {
    const name: string
    const element: Element
    var effects: seq<Effect>

    constructor (name: string, element: Element)
      ensures this.name == name && this.element == element && effects == []
    {
      this.name, this.element := name, element;
      effects := [];
    }

    /** `addEffect(effect)` */
    method AddEffect(effect: Effect)
      modifies this
      ensures effects == old(effects) + [effect]
    {
      effects := effects + [effect];
    }

    /** `getEffects()`: a copy, so the caller cannot change the stored list. */
    method GetEffects() returns (r: seq<Effect>)
      ensures r == effects
    {
      r := effects;
    }

    /** `getFirstEffectHitRate()` */
    function FirstEffectHitRate(): (r: int)
      reads this
      ensures effects == [] ==> r == 0
      ensures effects != [] && effects[0].Repeat? ==> r == 100
      ensures effects != [] && !effects[0].Repeat? ==> r == effects[0].hitRate
    {
      if effects == [] then 0 else HitRate(effects[0])
    }
  }

  class Monster {
    const name: string
    const element: Element
    const state: MonsterState
    var actions: seq<Action>
    var displayName: string

    constructor (name: string, element: Element, maxHp: int, attack: int, defense: int, speed: int)
      ensures this.name == name && this.element == element && displayName == name && actions == []
      ensures fresh(state) && state.Value() == Combatant.Fresh(maxHp, attack, defense, speed, NONE)
    {
      this.name, this.element := name, element;
      state := new MonsterState(maxHp, attack, defense, speed);
      actions := [];
      displayName := name;
    }

    /** `setDisplayName(displayName)` */
    method SetDisplayName(displayName: string)
      modifies this
      ensures this.displayName == displayName && actions == old(actions)
    {
      this.displayName := displayName;
    }

    /** `addAction(action)` */
    method AddAction(action: Action)
      modifies this
      ensures actions == old(actions) + [action] && displayName == old(displayName)
    {
      actions := actions + [action];
    }

    /** `getActions()`: a copy in insertion order. */
    method GetActions() returns (r: seq<Action>)
      ensures r == actions
    {
      r := actions;
    }

    /** `getAction(actionName)`: the first action with that name, or null. */
    method GetAction(actionName: string) returns (r: Action?)
      ensures r == null <==> forall a :: a in actions ==> a.name != actionName
      ensures r != null ==> exists k :: 0 <= k < |actions| && actions[k] == r && r.name == actionName
                                       && forall j :: 0 <= j < k ==> actions[j].name != actionName
    {
      var i := 0;
      while i < |actions|
        invariant 0 <= i <= |actions|
        invariant forall j :: 0 <= j < i ==> actions[j].name != actionName
      {
        if actions[i].name == actionName {
          return actions[i];
        }
        i := i + 1;
      }
      return null;
    }

    /** `getEffectiveStat(stat)`, answered by the state. */
    function EffectiveStat(stat: Stat): (r: real)
      requires stat != HP
      reads state
      ensures r >= 1.0 && r >= Combatant.Scaled(state.Value(), stat, EduConditions.Multiplier(state.Value().status, stat))
      ensures r == 1.0 || r == Combatant.Scaled(state.Value(), stat, EduConditions.Multiplier(state.Value().status, stat))
    {
      state.EffectiveStat(stat)
    }

    /** `isDefeated()`, answered by the state. */
    predicate IsDefeated()
      reads state
      ensures IsDefeated() <==> state.Value().hp <= 0 || state.Value().status == FAINTED
    {
      state.IsDefeated()
    }

    /** `setStatusCondition(condition)`, delegated. */
    method SetStatusCondition(condition: Condition)
      modifies state
      ensures state.Value() == old(state.Value()).(status := condition)
    {
      state.SetStatusCondition(condition);
    }

    /** `setStatChange(stat, delta)`, delegated. */
    method SetStatChange(stat: Stat, delta: int)
      modifies state
      ensures state.Value() == Combatant.WithStage(old(state.Value()), stat, delta)
    {
      state.SetStatChange(stat, delta);
    }

    /** `takeDamage(amount)`, delegated. */
    method TakeDamage(amount: int) returns (actual: int)
      modifies state
      ensures Combatant.Applied(actual, state.Value()) == Combatant.TakeDamage(old(state.Value()), amount)
    {
      actual := state.TakeDamage(amount);
    }

    /** `heal(amount)`, delegated. */
    method Heal(amount: int) returns (actual: int)
      modifies state
      ensures Combatant.Applied(actual, state.Value()) == Combatant.Heal(old(state.Value()), amount)
    {
      actual := state.Heal(amount);
    }

    /** `setProtection(health, stats, duration)`, delegated. */
    method SetProtection(health: bool, stats: bool, duration: int)
      modifies state
      ensures state.Value() == Combatant.WithProtection(old(state.Value()), health, stats, duration)
    {
      state.SetProtection(health, stats, duration);
    }

    /** `decreaseProtectionDuration()`, delegated. */
    method DecreaseProtectionDuration() returns (expired: bool)
      modifies state
      ensures Combatant.Countdown(expired, state.Value()) == Combatant.DecreaseProtection(old(state.Value()))
    {
      expired := state.DecreaseProtectionDuration();
    }
  }

  /** The states of the roster, position by position. */
  function World(roster: seq<Monster>): (w: seq<State>)
    reads States(roster)
    ensures |w| == |roster|
  {
    seq(|roster|, i requires 0 <= i < |roster| reads States(roster) => roster[i].state.Value())
  }

  /** The elements of the roster, position by position. */
  function ElementsOf(roster: seq<Monster>): (e: seq<Element>)
    ensures |e| == |roster|
    ensures forall i :: 0 <= i < |roster| ==> e[i] == roster[i].element
  {
    seq(|roster|, i requires 0 <= i < |roster| => roster[i].element)
  }

  /** No two roster positions share a state object. */
  predicate Separate(roster: seq<Monster>)
  {
    forall i, j :: 0 <= i < j < |roster| ==> roster[i].state != roster[j].state
  }

  /** The states of the roster, as a frame. */
  function States(roster: seq<Monster>): set<MonsterState>
  {
    set m | m in roster :: m.state
  }
}
