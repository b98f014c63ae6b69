/** `BattleManager` of the newer snapshot: one monster's turn, from the effect queue to the end-of-turn status. */
module EduBattle {
  import opened Wrappers
  import opened Stats
  import opened Randomness
  import opened Failures
  import Combatant
  import opened EduConditions
  import opened EduState
  import opened EduEffect
  import opened EduModel
  import opened EduExecution
  import opened Encounter

  /** The chance, in percent, that sleep or another condition ends on a roll. */
  const END_CHANCE: real := 33.33

  /** `executeEffect`'s hit chance: the hit rate, scaled by PRC(user)/AGL(target) when the target is another monster. */
  function HitChance(e: Effect, w: seq<State>, a: Arena): (r: real)
    requires a.Fits(w)
    ensures a.target == a.user ==> r == HitRate(e) as real
    ensures HitRate(e) >= 0 ==> r >= 0.0
  {
    if a.target != a.user then Scale(HitRate(e) as real, Effective(w[a.user], PRC), Effective(w[a.target], AGL))
    else HitRate(e) as real
  }

  /** `executeEffect`: one draw decides the hit; a miss changes nothing. */
  function TryEffect(e: Effect, w: seq<State>, a: Arena, draws: Draws, pos: nat): (r: Step)
    requires a.Fits(w)
    ensures r.ok ==> Hit(draws(pos), HitChance(e, w, a))
    ensures !Hit(draws(pos), HitChance(e, w, a)) ==> r == Step(false, w, pos + 1)
    ensures !r.ok ==> r.world == w
    ensures pos + 1 <= r.pos <= pos + 3
    ensures |r.world| == |w|
  {
    if Hit(draws(pos), HitChance(e, w, a)) then Apply(e, w, a, draws, pos + 1)
    else Step(false, w, pos + 1)
  }

  /** On a hit the effect lands as `Apply` says, one draw later. */
  lemma TryEffectHit(e: Effect, w: seq<State>, a: Arena, draws: Draws, pos: nat)
    requires a.Fits(w) && Hit(draws(pos), HitChance(e, w, a))
    ensures TryEffect(e, w, a, draws, pos) == Apply(e, w, a, draws, pos + 1)
  {
  }

  /** The entries after the first: each is tried once, in order, whatever the others did. */
  function RunRest(queue: seq<Effect>, w: seq<State>, a: Arena, draws: Draws, pos: nat): (r: Step)
    requires a.Fits(w)
    ensures r.ok && |r.world| == |w|
    ensures pos + |queue| <= r.pos <= pos + 3 * |queue|
    decreases |queue|
  {
    if queue == [] then Step(true, w, pos)
    else
      var s := TryEffect(queue[0], w, a, draws, pos);
      RunRest(queue[1..], s.world, a, draws, s.pos)
  }

  /** `executeEffectQueue`: nothing for an empty queue; the first entry gates all the others. */
  function RunQueue(queue: seq<Effect>, w: seq<State>, a: Arena, draws: Draws, pos: nat): (r: Step)
    requires a.Fits(w)
    ensures queue == [] ==> r == Step(true, w, pos)
    ensures !r.ok ==> r.world == w && r.pos == pos + 1
    ensures |r.world| == |w|
  {
    if queue == [] then Step(true, w, pos)
    else
      var first := TryEffect(queue[0], w, a, draws, pos);
      if !first.ok then Step(false, w, pos + 1)
      else RunRest(queue[1..], first.world, a, draws, first.pos)
  }

  /**
   * `processStatusConditions`, as intended: for a condition other than NONE and SLEEP one roll
   * may end it; otherwise a burning monster takes the 10% burn tick itself.
   */
  function EndOfTurn(w: seq<State>, a: Arena, draws: Draws, pos: nat): (r: Step)
    requires a.Fits(w)
    ensures |r.world| == |w|
    ensures w[a.user].status == NONE || w[a.user].status == SLEEP ==> r == Step(true, w, pos)
    ensures forall i :: 0 <= i < |w| && i != a.user ==> r.world[i] == w[i]
  {
    var v := w[a.user];
    if v.status == NONE || v.status == SLEEP then Step(true, w, pos)
    else if Hit(draws(pos), END_CHANCE) then Step(true, w[a.user := v.(status := NONE)], pos + 1)
    else if v.status == BURN then
      var tick := DamageExec(BurnDamage(), w, a.(target := a.user), draws, pos + 1);
      Step(true, tick.world, tick.pos)
    else Step(true, w, pos + 1)
  }

  /**
   * `processStatusConditions` as written: the burn tick runs `execute(monster, null)`, whose first
   * act is to ask the null target whether it is defeated.
   */
  function EndOfTurnAsWritten(w: seq<State>, a: Arena, draws: Draws, pos: nat): (r: Result<Step, Failure>)
    requires a.Fits(w)
  {
    var v := w[a.user];
    if v.status == NONE || v.status == SLEEP then Ok(Step(true, w, pos))
    else if Hit(draws(pos), END_CHANCE) then Ok(Step(true, w[a.user := v.(status := NONE)], pos + 1))
    else if v.status == BURN then Err(NullPointer)
    else Ok(Step(true, w, pos + 1))
  }

  /** As written, every burn tick that is not cured by the roll throws; in every other case it agrees with `EndOfTurn`. */
  lemma BurnTickThrows(w: seq<State>, a: Arena, draws: Draws, pos: nat)
    requires a.Fits(w)
    ensures w[a.user].status == BURN && !Hit(draws(pos), END_CHANCE) ==> EndOfTurnAsWritten(w, a, draws, pos) == Err(NullPointer)
    ensures !(w[a.user].status == BURN && !Hit(draws(pos), END_CHANCE)) ==> EndOfTurnAsWritten(w, a, draws, pos) == Ok(EndOfTurn(w, a, draws, pos))
  {
  }

  /** A concrete burning monster whose roll fails: the source's end of turn throws. */
  lemma BurnTickThrowsExample()
    ensures var v := Combatant.Fresh(100, 10, 10, 10, NONE).(status := BURN);
            EndOfTurnAsWritten([v], Arena([Elements.FIRE], 0, 0, Elements.FIRE), _ => 0.9, 0) == Err(NullPointer)
  {
  }

  /**
   * Corrected burn tick: unless the roll cures it, a burning monster loses ceil(maxHp / 10)
   * HP (never below 0), or nothing while damage-protected; its other fields stay.
   */
  lemma BurnTickDamages(w: seq<State>, a: Arena, draws: Draws, pos: nat)
    requires a.Fits(w) && w[a.user].status == BURN && !Hit(draws(pos), END_CHANCE)
    requires 1 <= w[a.user].hp
    ensures var after := EndOfTurn(w, a, draws, pos).world[a.user];
            after == w[a.user].(hp := after.hp)
            && (w[a.user].guardHealth ==> after.hp == w[a.user].hp)
            && (!w[a.user].guardHealth ==> after.hp == if Combatant.Relative(w[a.user].maxHp, 10) <= w[a.user].hp
                                                          then w[a.user].hp - Combatant.Relative(w[a.user].maxHp, 10) else 0)
  {
    var b := a.(target := a.user);
    assert !Defeated(w[a.user]);
    assert DamageAmount(BurnDamage(), w, b, draws, pos + 1) == Combatant.Relative(w[a.user].maxHp, 10);
  }

  /** `executeAction`: a sleeping monster only rolls to wake; any other runs its queue, then its end of turn, even after a failed action. */
  function ActionSpec(effects: seq<Effect>, w: seq<State>, a: Arena, draws: Draws, pos: nat): (r: Step)
    requires a.Fits(w)
    ensures |r.world| == |w|
    ensures w[a.user].status == SLEEP ==> r.pos == pos + 1 && forall i :: 0 <= i < |w| && i != a.user ==> r.world[i] == w[i]
    ensures w[a.user].status == SLEEP ==> r.world[a.user] == w[a.user].(status := if Hit(draws(pos), END_CHANCE) then NONE else SLEEP)
  {
    if w[a.user].status == SLEEP then
      Step(true, if Hit(draws(pos), END_CHANCE) then w[a.user := w[a.user].(status := NONE)] else w, pos + 1)
    else
      var run := RunQueue(Flatten(effects), w, a, draws, pos);
      EndOfTurn(run.world, a, draws, run.pos)
  }

  /** A monster's turn with an empty action and no condition changes nothing and draws nothing. */
  lemma EmptyActionIsNoOp(w: seq<State>, a: Arena, draws: Draws, pos: nat)
    requires a.Fits(w) && w[a.user].status == NONE
    ensures ActionSpec([], w, a, draws, pos) == Step(true, w, pos)
  {
  }

  /** The hit roll of `executeEffect`: one draw against the effect's hit chance. */
  method RollHit(e: Effect, roster: seq<Monster>, a: Arena, rng: RandomSource) returns (hits: bool)
    requires Matches(roster, a)
    modifies rng
    ensures World(roster) == old(World(roster))
    ensures hits == Hit(rng.draws(old(rng.used)), HitChance(e, World(roster), a)) && rng.used == old(rng.used) + 1
  {
    hits := rng.CheckProbability(HitChance(e, World(roster), a));
  }

  /** The body of `executeEffect`: one draw against the hit chance, then the effect if it hit. */
  method TryExecute(e: Effect, roster: seq<Monster>, a: Arena, rng: RandomSource) returns (ok: bool)
    requires Matches(roster, a)
    modifies roster[a.user].state, roster[a.target].state, rng
    ensures Step(ok, World(roster), rng.used) == TryEffect(e, old(World(roster)), a, rng.draws, old(rng.used))
  {
    ghost var w0, p0 := World(roster), rng.used;
    var hits := RollHit(e, roster, a, rng);
    if hits {
      TryEffectHit(e, w0, a, rng.draws, p0);
      ok := Execute(e, roster, a, rng);
    } else {
      ok := false;
    }
  }

  class BattleManager {
    const random: RandomSource

    constructor (random: RandomSource)
      ensures this.random == random
    {
      this.random := random;
    }

    /** `createEffectQueue(action)` */
    method CreateEffectQueue(action: Action) returns (queue: seq<Effect>)
      ensures queue == Flatten(action.effects)
    {
      var effects := action.GetEffects();
      queue := [];
      var i := 0;
      while i < |effects|
        invariant 0 <= i <= |effects|
        invariant queue == Flatten(effects[..i])
      {
        FlattenAppend(effects[..i], effects[i]);
        assert effects[..i + 1] == effects[..i] + [effects[i]];
        queue := AddToQueue(effects[i], queue);
        i := i + 1;
      }
      assert effects[..i] == effects;
    }

    /** `executeEffect(user, target, effect)` */
    method ExecuteEffect(roster: seq<Monster>, a: Arena, e: Effect) returns (ok: bool)
      requires Matches(roster, a)
      modifies roster[a.user].state, roster[a.target].state, random
      ensures var r := TryEffect(e, old(World(roster)), a, random.draws, old(random.used));
              ok == r.ok && World(roster) == r.world && random.used == r.pos
    {
      ok := TryExecute(e, roster, a, random);
    }

    /** `executeEffectQueue(user, target, queue)` */
    method ExecuteEffectQueue(roster: seq<Monster>, a: Arena, queue: seq<Effect>)
      requires Matches(roster, a)
      modifies roster[a.user].state, roster[a.target].state, random
      ensures var r := RunQueue(queue, old(World(roster)), a, random.draws, old(random.used));
              World(roster) == r.world && random.used == r.pos
    {
      if queue == [] {
        return;
      }
      var firstHit := ExecuteEffect(roster, a, queue[0]);
      if !firstHit {
        return;
      }
      ghost var w1, p1 := World(roster), random.used;
      var i := 1;
      while i < |queue|
        invariant 1 <= i <= |queue|
        invariant Matches(roster, a)
        invariant RunRest(queue[i..], World(roster), a, random.draws, random.used) == RunRest(queue[1..], w1, a, random.draws, p1)
      {
        assert queue[i..][1..] == queue[i + 1..];
        var hit := ExecuteEffect(roster, a, queue[i]);
        i := i + 1;
      }
    }

    /** `processStatusConditions(monster)`, with the burn tick aimed at the monster itself. */
    method ProcessStatusConditions(roster: seq<Monster>, a: Arena)
      requires Matches(roster, a)
      modifies roster[a.user].state, random
      ensures var r := EndOfTurn(old(World(roster)), a, random.draws, old(random.used));
              World(roster) == r.world && random.used == r.pos
    {
      var monster := roster[a.user];
      var condition := monster.state.status;
      if condition == NONE || condition == SLEEP {
        return;
      }
      var ends := random.CheckProbability(END_CHANCE);
      if ends {
        monster.SetStatusCondition(NONE);
        assert forall i :: 0 <= i < |roster| && i != a.user ==> roster[i].state.Value() == old(World(roster))[i];
        assert World(roster) == old(World(roster))[a.user := roster[a.user].state.Value()];
      } else if condition == BURN {
        var burned := Execute(BurnDamage(), roster, a.(target := a.user), random);
      }
    }

    /** `executeAction(user, action, target)` */
    method ExecuteAction(roster: seq<Monster>, user: nat, action: Action, target: nat)
      requires user < |roster| && target < |roster| && Separate(roster)
      modifies roster[user].state, roster[target].state, random
      ensures var r := ActionSpec(action.effects, old(World(roster)), Arena(ElementsOf(roster), user, target, action.element),
                                  random.draws, old(random.used));
              World(roster) == r.world && random.used == r.pos
    {
      var a := Arena(ElementsOf(roster), user, target, action.element);
      ghost var w0, p0 := World(roster), random.used;
      var actor := roster[user];
      if actor.state.status == SLEEP {
        var wakes := random.CheckProbability(END_CHANCE);
        if wakes {
          actor.SetStatusCondition(NONE);
          assert forall i :: 0 <= i < |roster| && i != user ==> roster[i].state.Value() == old(World(roster))[i];
          assert World(roster) == old(World(roster))[user := roster[user].state.Value()];
        }
        return;
      }
      var queue := CreateEffectQueue(action);
      assert World(roster) == w0 && random.used == p0;
      assert Matches(roster, a);
      ExecuteEffectQueue(roster, a, queue);
      assert Matches(roster, a);
      ghost var run := RunQueue(queue, w0, a, random.draws, p0);
      assert World(roster) == run.world && random.used == run.pos;
      ProcessStatusConditions(roster, a);
      assert World(roster) == EndOfTurn(run.world, a, random.draws, run.pos).world;
    }
  }
}
