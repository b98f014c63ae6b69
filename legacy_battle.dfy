/**
 * One monster's turn in the older snapshot (`Competition.executeAction` and `executeEffect`):
 * the effect queue, the hit roll against the chosen target, and the end-of-turn status roll.
 */
module LegacyBattle {
  import opened Wrappers
  import opened Stats
  import opened Randomness
  import opened Failures
  import opened Encounter
  import opened Repetition
  import Combatant
  import Elements
  import opened LegacyConditions
  import opened LegacyEffect
  import opened LegacyModel
  import opened LegacyExecution

  /** The chance, in percent, that sleep or another condition ends on a roll. */
  const END_CHANCE: real := 33.33

  /** `executeEffect`'s hit chance: the hit rate, scaled by PRC(user)/AGL(target) when the chosen target is another monster. */
  function HitChance(e: Effect, w: seq<State>, a: Arena): (r: real)
    requires a.Fits(w)
    ensures a.target == a.user ==> r == HitRate(e) as real
    ensures HitRate(e) >= 0 ==> r >= 0.0
  {
    if a.target != a.user then Scale(HitRate(e) as real, Effective(w[a.user], PRC), Effective(w[a.target], AGL))
    else HitRate(e) as real
  }

  /** `executeEffect`: one draw decides the hit; a miss changes nothing. */
  function TryEffect(e: Effect, w: seq<State>, a: Arena, draws: Draws, pos: nat): (r: Step)
    requires a.Fits(w)
    ensures r.ok ==> Hit(draws(pos), HitChance(e, w, a))
    ensures !Hit(draws(pos), HitChance(e, w, a)) ==> r == Step(false, w, pos + 1)
    ensures !r.ok ==> r.world == w
    ensures pos + 1 <= r.pos <= pos + 3
    ensures |r.world| == |w|
  {
    if Hit(draws(pos), HitChance(e, w, a)) then Apply(e, w, a, draws, pos + 1)
    else Step(false, w, pos + 1)
  }

  /** On a hit the effect lands as `Apply` says, one draw later. */
  lemma TryEffectHit(e: Effect, w: seq<State>, a: Arena, draws: Draws, pos: nat)
    requires a.Fits(w) && Hit(draws(pos), HitChance(e, w, a))
    ensures TryEffect(e, w, a, draws, pos) == Apply(e, w, a, draws, pos + 1)
  {
  }

  /** The entries after the first: each is tried once, in order, whatever the others did. */
  function RunRest(queue: seq<Effect>, w: seq<State>, a: Arena, draws: Draws, pos: nat): (r: Step)
    requires a.Fits(w)
    ensures r.ok && |r.world| == |w|
    ensures pos + |queue| <= r.pos <= pos + 3 * |queue|
    decreases |queue|
  {
    if queue == [] then Step(true, w, pos)
    else
      var s := TryEffect(queue[0], w, a, draws, pos);
      RunRest(queue[1..], s.world, a, draws, s.pos)
  }

  /** The effect part of `executeAction`: nothing for an empty queue; a miss of the first entry ends the action. */
  function RunQueue(queue: seq<Effect>, w: seq<State>, a: Arena, draws: Draws, pos: nat): (r: Step)
    requires a.Fits(w)
    ensures queue == [] ==> r == Step(true, w, pos)
    ensures !r.ok <==> queue != [] && !TryEffect(queue[0], w, a, draws, pos).ok
    ensures !r.ok ==> r.world == w && r.pos == pos + 1
    ensures |r.world| == |w|
  {
    if queue == [] then Step(true, w, pos)
    else
      var first := TryEffect(queue[0], w, a, draws, pos);
      if !first.ok then Step(false, w, pos + 1)
      else RunRest(queue[1..], first.world, a, draws, first.pos)
  }

  /**
   * The end-of-turn status handling, as intended: for a condition other than NONE and SLEEP one
   * roll may end it; otherwise a burning monster takes the 10% burn tick itself.
   */
  function EndOfTurn(w: seq<State>, a: Arena, draws: Draws, pos: nat): (r: Step)
    requires a.Fits(w)
    ensures |r.world| == |w|
    ensures w[a.user].status == NONE || w[a.user].status == SLEEP ==> r == Step(true, w, pos)
    ensures forall i :: 0 <= i < |w| && i != a.user ==> r.world[i] == w[i]
  {
    var v := w[a.user];
    if v.status == NONE || v.status == SLEEP then Step(true, w, pos)
    else if Hit(draws(pos), END_CHANCE) then Step(true, w[a.user := v.(status := NONE)], pos + 1)
    else if v.status == BURN then
      var tick := DamageExec(BurnDamage(), w, a.(target := a.user), draws, pos + 1);
      Step(true, tick.world, tick.pos)
    else Step(true, w, pos + 1)
  }

  /**
   * The end-of-turn status handling as written: the burn tick is `execute(user, null, false)` on
   * an effect whose `targetIsUser` is false, so it asks the null target whether it has fainted.
   */
  function EndOfTurnAsWritten(w: seq<State>, a: Arena, draws: Draws, pos: nat): (r: Result<Step, Failure>)
    requires a.Fits(w)
  {
    var v := w[a.user];
    if v.status == NONE || v.status == SLEEP then Ok(Step(true, w, pos))
    else if Hit(draws(pos), END_CHANCE) then Ok(Step(true, w[a.user := v.(status := NONE)], pos + 1))
    else if v.status == BURN then Err(NullPointer)
    else Ok(Step(true, w, pos + 1))
  }

  /** As written, every burn tick the roll does not cure throws; in every other case it agrees with `EndOfTurn`. */
  lemma BurnTickThrows(w: seq<State>, a: Arena, draws: Draws, pos: nat)
    requires a.Fits(w)
    ensures w[a.user].status == BURN && !Hit(draws(pos), END_CHANCE) ==> EndOfTurnAsWritten(w, a, draws, pos) == Err(NullPointer)
    ensures !(w[a.user].status == BURN && !Hit(draws(pos), END_CHANCE)) ==> EndOfTurnAsWritten(w, a, draws, pos) == Ok(EndOfTurn(w, a, draws, pos))
  {
  }

  /** A concrete burning monster whose roll fails: the source's end of turn throws. */
  lemma BurnTickThrowsExample()
    ensures var v := Combatant.Fresh(100, 10, 10, 10, NONE).(status := BURN);
            EndOfTurnAsWritten([v], Arena([Elements.FIRE], 0, 0, Elements.FIRE), _ => 0.9, 0) == Err(NullPointer)
  {
  }

  /**
   * Corrected burn tick: unless the roll cures it, a burning monster that has not fainted loses
   * ceil(maxHp / 10) HP (never below 0), or nothing while damage-protected; its other fields stay.
   */
  lemma BurnTickDamages(w: seq<State>, a: Arena, draws: Draws, pos: nat)
    requires a.Fits(w) && w[a.user].status == BURN && !Hit(draws(pos), END_CHANCE)
    requires 1 <= w[a.user].hp
    ensures var after := EndOfTurn(w, a, draws, pos).world[a.user];
            after == w[a.user].(hp := after.hp)
            && (w[a.user].guardHealth ==> after.hp == w[a.user].hp)
            && (!w[a.user].guardHealth ==> after.hp == if Combatant.Relative(w[a.user].maxHp, 10) <= w[a.user].hp
                                                          then w[a.user].hp - Combatant.Relative(w[a.user].maxHp, 10) else 0)
  {
    var b := a.(target := a.user);
    assert !Fainted(w[a.user]);
    assert Aim(BurnDamage(), b) == a.user;
    assert DamageAmount(BurnDamage(), w, b, draws, pos + 1) == Combatant.Relative(w[a.user].maxHp, 10);
  }

  /**
   * `executeAction`: a sleeping monster only rolls to wake. Any other runs its queue; when the
   * first entry misses the action fails and its end-of-turn handling is skipped.
   */
  function ActionSpec(effects: seq<Effect>, w: seq<State>, a: Arena, draws: Draws, pos: nat): (r: Step)
    requires a.Fits(w)
    ensures |r.world| == |w|
    ensures w[a.user].status == SLEEP ==> r.pos == pos + 1 && forall i :: 0 <= i < |w| && i != a.user ==> r.world[i] == w[i]
    ensures w[a.user].status == SLEEP ==> r.world[a.user] == w[a.user].(status := if Hit(draws(pos), END_CHANCE) then NONE else SLEEP)
  {
    if w[a.user].status == SLEEP then
      Step(true, if Hit(draws(pos), END_CHANCE) then w[a.user := w[a.user].(status := NONE)] else w, pos + 1)
    else
      var run := RunQueue(Flatten(effects), w, a, draws, pos);
      if !run.ok then run else EndOfTurn(run.world, a, draws, run.pos)
  }

  /**
   * When the first queued effect misses, the turn changes nobody and uses one draw: in
   * particular a burning user takes no burn tick and keeps its condition.
   */
  lemma FailedActionSkipsStatus(effects: seq<Effect>, w: seq<State>, a: Arena, draws: Draws, pos: nat)
    requires a.Fits(w) && w[a.user].status != SLEEP
    requires Flatten(effects) != [] && !Hit(draws(pos), HitChance(Flatten(effects)[0], w, a))
    ensures ActionSpec(effects, w, a, draws, pos) == Step(false, w, pos + 1)
  {
  }

  /** With an empty queue the action goes straight to the end-of-turn handling. */
  lemma EmptyQueueGoesToStatus(effects: seq<Effect>, w: seq<State>, a: Arena, draws: Draws, pos: nat)
    requires a.Fits(w) && w[a.user].status != SLEEP && Flatten(effects) == []
    ensures ActionSpec(effects, w, a, draws, pos) == EndOfTurn(w, a, draws, pos)
  {
  }

  /** The queue loop of `executeAction`: a repeat adds its list `count` times, any other effect adds itself. */
  method BuildQueue(effects: seq<Effect>) returns (queue: seq<Effect>)
    ensures queue == Flatten(effects)
  {
    queue := [];
    var k := 0;
    while k < |effects|
      invariant 0 <= k <= |effects|
      invariant queue == Flatten(effects[..k])
    {
      var e := effects[k];
      FlattenAppend(effects[..k], e);
      assert effects[..k + 1] == effects[..k] + [e];
      if e.Repeat? {
        queue := AppendCopies(queue, e.body, e.count);
      } else {
        queue := queue + [e];
      }
      k := k + 1;
    }
    assert effects[..k] == effects;
  }

  /** The hit roll of `executeEffect`: one draw against the effect's hit chance. */
  method RollHit(e: Effect, roster: seq<Monster>, a: Arena, rng: RandomSource) returns (hits: bool)
    requires Matches(roster, a)
    modifies rng
    ensures World(roster) == old(World(roster))
    ensures hits == Hit(rng.draws(old(rng.used)), HitChance(e, World(roster), a)) && rng.used == old(rng.used) + 1
  {
    hits := rng.CheckProbability(HitChance(e, World(roster), a));
  }

  /** `executeEffect(user, target, effect, isFirstEffect)`: the hit roll, then `execute` on a hit. */
  method TryExecute(e: Effect, roster: seq<Monster>, a: Arena, rng: RandomSource) returns (ok: bool)
    requires Matches(roster, a)
    modifies roster[a.user], roster[a.target], rng
    ensures Step(ok, World(roster), rng.used) == TryEffect(e, old(World(roster)), a, rng.draws, old(rng.used))
  {
    ghost var w0, p0 := World(roster), rng.used;
    var hits := RollHit(e, roster, a, rng);
    if hits {
      TryEffectHit(e, w0, a, rng.draws, p0);
      ok := Execute(e, roster, a, rng);
    } else {
      ok := false;
    }
  }

  /** The effect part of `executeAction`: the first entry, then, if it hit, every other entry once. */
  method RunEffects(queue: seq<Effect>, roster: seq<Monster>, a: Arena, rng: RandomSource) returns (ok: bool)
    requires Matches(roster, a)
    modifies roster[a.user], roster[a.target], rng
    ensures var r := RunQueue(queue, old(World(roster)), a, rng.draws, old(rng.used));
            ok == r.ok && World(roster) == r.world && rng.used == r.pos
  {
    if queue == [] {
      return true;
    }
    var firstHit := TryExecute(queue[0], roster, a, rng);
    if !firstHit {
      return false;
    }
    ghost var w1, p1 := World(roster), rng.used;
    var i := 1;
    while i < |queue|
      invariant 1 <= i <= |queue|
      invariant Matches(roster, a)
      invariant RunRest(queue[i..], World(roster), a, rng.draws, rng.used) == RunRest(queue[1..], w1, a, rng.draws, p1)
    {
      assert queue[i..][1..] == queue[i + 1..];
      var hit := TryExecute(queue[i], roster, a, rng);
      i := i + 1;
    }
    ok := true;
  }

  /** The end-of-turn status handling, with the burn tick aimed at the monster itself. */
  method ProcessStatus(roster: seq<Monster>, a: Arena, rng: RandomSource)
    requires Matches(roster, a)
    modifies roster[a.user], rng
    ensures var r := EndOfTurn(old(World(roster)), a, rng.draws, old(rng.used));
            World(roster) == r.world && rng.used == r.pos
  {
    var user := roster[a.user];
    var condition := user.status;
    if condition == NONE || condition == SLEEP {
      return;
    }
    var ends := rng.CheckProbability(END_CHANCE);
    if ends {
      user.SetStatusCondition(NONE);
      assert forall i :: 0 <= i < |roster| && i != a.user ==> roster[i].Value() == old(World(roster))[i];
      assert World(roster) == old(World(roster))[a.user := roster[a.user].Value()];
    } else if condition == BURN {
      var burned := Execute(BurnDamage(), roster, a.(target := a.user), rng);
    }
  }

  /** The sleeping branch of `executeAction`: one roll decides whether the user wakes up; nothing else happens. */
  method WakeRoll(effects: seq<Effect>, roster: seq<Monster>, a: Arena, rng: RandomSource)
    requires Matches(roster, a) && roster[a.user].status == SLEEP
    modifies roster[a.user], rng
    ensures var r := ActionSpec(effects, old(World(roster)), a, rng.draws, old(rng.used));
            World(roster) == r.world && rng.used == r.pos
  {
    var wakes := rng.CheckProbability(END_CHANCE);
    if wakes {
      roster[a.user].SetStatusCondition(NONE);
      assert forall i :: 0 <= i < |roster| && i != a.user ==> roster[i].Value() == old(World(roster))[i];
      assert World(roster) == old(World(roster))[a.user := roster[a.user].Value()];
    }
  }

  /** The waking branch of `executeAction`: the queue, then, if the first effect hit, the status check. */
  method RunAction(effects: seq<Effect>, roster: seq<Monster>, a: Arena, rng: RandomSource)
    requires Matches(roster, a) && roster[a.user].status != SLEEP
    modifies roster[a.user], roster[a.target], rng
    ensures var r := ActionSpec(effects, old(World(roster)), a, rng.draws, old(rng.used));
            World(roster) == r.world && rng.used == r.pos
  {
    ghost var w0, p0 := World(roster), rng.used;
    var queue := BuildQueue(effects);
    assert World(roster) == w0 && rng.used == p0;
    var ran := RunEffects(queue, roster, a, rng);
    ghost var run := RunQueue(queue, w0, a, rng.draws, p0);
    assert World(roster) == run.world && rng.used == run.pos;
    if ran {
      ProcessStatus(roster, a, rng);
      assert World(roster) == EndOfTurn(run.world, a, rng.draws, run.pos).world;
    }
  }

  /** `executeAction(user, action, target)` over roster positions. */
  method ExecuteAction(effects: seq<Effect>, roster: seq<Monster>, a: Arena, rng: RandomSource)
    requires Matches(roster, a)
    modifies roster[a.user], roster[a.target], rng
    ensures var r := ActionSpec(effects, old(World(roster)), a, rng.draws, old(rng.used));
            World(roster) == r.world && rng.used == r.pos
  {
    if roster[a.user].status == SLEEP {
      WakeRoll(effects, roster, a, rng);
    } else {
      RunAction(effects, roster, a, rng);
    }
  }
}
