/**
 * `Competition` of the older snapshot: the roster and its names, the execute phase of a round
 * with the turn of each monster, the win check, the protection countdown, reset and clear.
 */
module LegacyCompetition {
  import opened Stats
  import Elements
  import opened Randomness
  import opened Encounter
  import Combatant
  import opened Ordering
  import opened Naming
  import opened LegacyConditions
  import opened LegacyEffect
  import opened LegacyModel
  import opened LegacyExecution
  import opened LegacyBattle

  /** Positions of the monsters that have not fainted, in roster order. */
  function Survivors(w: seq<State>): (r: seq<nat>)
    ensures |r| <= |w| && forall k :: 0 <= k < |r| ==> r[k] < |w|
  {
    if w == [] then []
    else
      var init := Survivors(w[..|w| - 1]);
      if Fainted(w[|w| - 1]) then init else init + [|w| - 1]
  }

  /** The survivors are exactly the positions with HP above 0, in increasing order. */
  lemma {:induction false} SurvivorsExact(w: seq<State>)
    ensures var r := Survivors(w);
            (forall k :: 0 <= k < |r| ==> r[k] < |w| && !Fainted(w[r[k]]))
            && (forall i :: 0 <= i < |w| && !Fainted(w[i]) ==> i in r)
            && (forall j, k :: 0 <= j < k < |r| ==> r[j] < r[k])
  {
    if w != [] {
      SurvivorsExact(w[..|w| - 1]);
    }
  }

  /** The contest is decided when at most one monster is still conscious. */
  predicate Decided(w: seq<State>)
  {
    |Survivors(w)| <= 1
  }

  /** The winner `checkDecided` names for the states `w` of `roster`: the one monster not fainted, or nobody. */
  function Champion(roster: seq<Monster>, w: seq<State>): Monster?
    requires |w| == |roster|
  {
    var s := Survivors(w);
    if |s| == 1 then roster[s[0]] else null
  }

  /** With exactly one survivor, every other monster has fainted. */
  lemma SoleSurvivor(w: seq<State>)
    requires |Survivors(w)| == 1
    ensures Survivors(w)[0] < |w| && !Fainted(w[Survivors(w)[0]])
    ensures forall i :: 0 <= i < |w| && i != Survivors(w)[0] ==> Fainted(w[i])
  {
    SurvivorsExact(w);
  }

  /** The key the execute phase sorts by: each monster's effective speed. */
  function SpeedKeys(w: seq<State>): (keys: seq<real>)
    ensures |keys| == |w|
    ensures forall i :: 0 <= i < |w| ==> keys[i] == Effective(w[i], SPD)
  {
    seq(|w|, i requires 0 <= i < |w| => Effective(w[i], SPD))
  }

  /** The outcome of the execute phase: the states, the draws used, and whether a turn decided the contest. */
  datatype Phase = Phase(world: seq<State>, pos: nat, decided: bool)

  /**
   * What every turn of one execute phase shares: whether there is no current action (every
   * monster then passes), the action's effects and element, the roster's elements, and the
   * current target's position.
   */
  datatype Plan = Plan(passes: bool, effects: seq<Effect>, element: Elements.Element, elements: seq<Elements.Element>, target: nat)
  {
    predicate Fits(w: seq<State>)
    {
      |elements| == |w| && target < |w|
    }
  }

  /** The plan of a phase whose current action is `action` (null: none) and whose current target sits at `target`. */
  ghost function PlanOf(action: Action?, roster: seq<Monster>, target: nat): (plan: Plan)
    reads action
    ensures plan.passes <==> action == null
    ensures plan.elements == ElementsOf(roster) && plan.target == target
  {
    if action == null then Plan(true, [], Elements.NORMAL, ElementsOf(roster), target)
    else Plan(false, action.effects, action.element, ElementsOf(roster), target)
  }

  /**
   * One turn of the execute phase for the monster at position i: a fainted monster is skipped
   * and without an action it passes; otherwise it uses the action on the target, after which
   * the contest is checked.
   */
  function Turn(plan: Plan, i: nat, w: seq<State>, draws: Draws, pos: nat): (t: Phase)
    requires plan.Fits(w) && i < |w|
    ensures |t.world| == |w|
    ensures plan.passes || Fainted(w[i]) ==> t == Phase(w, pos, false)
    ensures t.decided <==> !plan.passes && !Fainted(w[i]) && Decided(t.world)
  {
    if plan.passes || Fainted(w[i]) then Phase(w, pos, false)
    else
      var r := ActionSpec(plan.effects, w, Arena(plan.elements, i, plan.target, plan.element), draws, pos);
      Phase(r.world, r.pos, Decided(r.world))
  }

  /** The execute phase from position k of the order on; it stops right after the turn that decides the contest. */
  function Turns(order: seq<nat>, k: nat, plan: Plan, w: seq<State>, draws: Draws, pos: nat): (p: Phase)
    requires k <= |order| && forall j :: 0 <= j < |order| ==> order[j] < |w|
    requires plan.Fits(w)
    ensures |p.world| == |w|
    decreases |order| - k
  {
    if k == |order| then Phase(w, pos, false)
    else
      var t := Turn(plan, order[k], w, draws, pos);
      if t.decided then t else Turns(order, k + 1, plan, t.world, draws, t.pos)
  }

  /** One step of `Turns`: the turn at position k of the order, then the rest unless it decided the contest. */
  lemma TurnsStep(order: seq<nat>, k: nat, plan: Plan, w: seq<State>, draws: Draws, pos: nat)
    requires k < |order| && forall j :: 0 <= j < |order| ==> order[j] < |w|
    requires plan.Fits(w)
    ensures var t := Turn(plan, order[k], w, draws, pos);
            Turns(order, k, plan, w, draws, pos) == if t.decided then t else Turns(order, k + 1, plan, t.world, draws, t.pos)
  {
  }

  /** Phase II of `runRound`: the turns in the order of effective speed, fastest first, ties in roster order. */
  function ExecutePhase(plan: Plan, w: seq<State>, draws: Draws, pos: nat): (p: Phase)
    requires plan.Fits(w)
    ensures |p.world| == |w|
  {
    Turns(SpeedOrder(SpeedKeys(w)), 0, plan, w, draws, pos)
  }

  /** If every monster from position k of the order on has fainted or passes, the phase changes nothing. */
  lemma {:induction false} NobodyActs(order: seq<nat>, k: nat, plan: Plan, w: seq<State>, draws: Draws, pos: nat)
    requires k <= |order| && forall j :: 0 <= j < |order| ==> order[j] < |w|
    requires forall j :: k <= j < |order| ==> plan.passes || Fainted(w[order[j]])
    requires plan.Fits(w)
    ensures Turns(order, k, plan, w, draws, pos) == Phase(w, pos, false)
    decreases |order| - k
  {
    if k < |order| {
      NobodyActs(order, k + 1, plan, w, draws, pos);
    }
  }

  /** Without a current action, or with every monster fainted, the execute phase changes nothing and draws nothing. */
  lemma PassingPhase(plan: Plan, w: seq<State>, draws: Draws, pos: nat)
    requires plan.Fits(w)
    requires plan.passes || forall i :: 0 <= i < |w| ==> Fainted(w[i])
    ensures ExecutePhase(plan, w, draws, pos) == Phase(w, pos, false)
  {
    NobodyActs(SpeedOrder(SpeedKeys(w)), 0, plan, w, draws, pos);
  }

  /** The end of a round: every monster's protection counts down, fainted ones included. */
  function EndRound(w: seq<State>): (r: seq<State>)
    ensures |r| == |w|
    ensures forall i :: 0 <= i < |w| ==> r[i] == Combatant.DecreaseProtection(w[i]).after
  {
    seq(|w|, i requires 0 <= i < |w| => Combatant.DecreaseProtection(w[i]).after)
  }

  /** The countdown touches only protection, so it never changes who is conscious. */
  lemma EndRoundKeepsStanding(w: seq<State>)
    ensures forall i :: 0 <= i < |w| ==> (Fainted(EndRound(w)[i]) <==> Fainted(w[i]))
    ensures Survivors(EndRound(w)) == Survivors(w)
  {
    var r := EndRound(w);
    assert forall i :: 0 <= i < |w| ==> r[i].hp == w[i].hp;
    SurvivorsAgree(w, r);
  }

  lemma {:induction false} SurvivorsAgree(w: seq<State>, r: seq<State>)
    requires |w| == |r|
    requires forall i :: 0 <= i < |w| ==> (Fainted(r[i]) <==> Fainted(w[i]))
    ensures Survivors(r) == Survivors(w)
    decreases |w|
  {
    if w != [] {
      SurvivorsAgree(w[..|w| - 1], r[..|r| - 1]);
    }
  }

  /** `reset` of one monster: heal by the maximum, status NONE, every non-HP stage changed by minus itself. */
  function ResetState(v: State): State
  {
    Combatant.ZeroStages(Combatant.Heal(v, v.maxHp).after.(status := NONE), AllStats)
  }

  /** `reset` applied to every monster. */
  function ResetAll(w: seq<State>): (r: seq<State>)
    ensures |r| == |w| && forall i :: 0 <= i < |w| ==> r[i] == ResetState(w[i])
  {
    seq(|w|, i requires 0 <= i < |w| => ResetState(w[i]))
  }

  /**
   * After `reset` a monster with HP >= 0 is at full HP; its status is NONE, every non-HP stage
   * is 0, and its protection is untouched.
   */
  lemma ResetRestores(v: State)
    ensures var r := ResetState(v);
            r.status == NONE && (v.hp >= 0 ==> r.hp == v.maxHp)
            && (forall stat: Stat :: stat != HP ==> Combatant.Stage(r, stat) == 0)
            && Combatant.Stage(r, HP) == Combatant.Stage(v, HP)
            && r.duration == v.duration && r.guardHealth == v.guardHealth && r.guardStats == v.guardStats
  {
    var healed := Combatant.Heal(v, v.maxHp).after.(status := NONE);
    Combatant.ZeroStagesClears(healed, AllStats);
    forall stat: Stat ensures stat in AllStats {
      AllStatsListsEveryStat(stat);
    }
    if v.hp >= 0 {
      Combatant.HealByMaxRestores(v);
    }
  }

  /** Position of a roster monster. */
  function PositionOf(roster: seq<Monster>, m: Monster): (i: nat)
    requires m in roster
    ensures i < |roster| && roster[i] == m
  {
    if roster[0] == m then 0 else 1 + PositionOf(roster[1..], m)
  }

  /** The body of `reset`'s loop for one monster: full heal, status NONE, then every non-HP stat change undone in turn. */
  method ResetMonster(monster: Monster)
    modifies monster
    ensures monster.Value() == ResetState(old(monster.Value()))
  {
    var healed := monster.Heal(monster.maxHp);
    monster.SetStatusCondition(NONE);
    ghost var start := monster.Value();
    var s := 0;
    while s < |AllStats|
      invariant 0 <= s <= |AllStats|
      invariant monster.Value() == Combatant.ZeroStages(start, AllStats[..s])
    {
      var stat := AllStats[s];
      assert AllStats[..s + 1][..s] == AllStats[..s];
      if stat != HP {
        monster.ChangeStatBy(stat, -Combatant.Stage(monster.Value(), stat));
      }
      s := s + 1;
    }
    assert AllStats[..s] == AllStats;
  }

  /** The counting loop of `checkDecided`: how many monsters have not fainted and, when there is exactly one, which. */
  method CountConscious(roster: seq<Monster>) returns (conscious: nat, last: Monster?)
    ensures var s := Survivors(World(roster));
            conscious == |s| && (conscious == 1 ==> last == roster[s[0]]) && (conscious == 0 ==> last == null)
  {
    ghost var w := World(roster);
    conscious, last := 0, null;
    var i := 0;
    while i < |roster|
      invariant 0 <= i <= |roster|
      invariant conscious == |Survivors(w[..i])|
      invariant conscious > 0 ==> last == roster[Survivors(w[..i])[conscious - 1]]
      invariant conscious == 0 ==> last == null
    {
      assert w[..i + 1][..i] == w[..i];
      if !roster[i].IsFainted() {
        conscious := conscious + 1;
        last := roster[i];
      }
      i := i + 1;
    }
    assert w[..i] == w;
  }

  class Competition {
    const random: RandomSource
    var monsters: seq<Monster>
    var names: map<string, Monster>
    var currentMonster: Monster?
    var currentAction: Action?
    var currentTarget: Monster?
    var round: int
    var decided: bool
    var winner: Monster?

    /** No monster is in the roster twice, and every name maps into the roster. */
    ghost predicate Valid()
      reads this
    {
      Separate(monsters) && forall key :: key in names ==> names[key] in monsters
    }

    constructor (random: RandomSource)
      ensures Valid() && this.random == random
      ensures monsters == [] && names == map[] && round == 0 && !decided && winner == null
      ensures currentMonster == null && currentAction == null && currentTarget == null
    {
      this.random := random;
      monsters, names := [], map[];
      currentMonster, currentAction, currentTarget := null, null, null;
      round, decided, winner := 0, false, null;
    }

    /** `addMonster`: the first use of a name keeps it, later ones get name#n with the smallest free n. */
    method AddMonster(monster: Monster)
      requires Valid() && monster !in monsters
      modifies this, monster
      ensures Valid()
      ensures monsters == old(monsters) + [monster]
      ensures monster.name !in old(names) ==> names == old(names)[monster.name := monster] && monster.displayName == old(monster.displayName)
      ensures monster.name in old(names) ==> monster.displayName !in old(names) && names == old(names)[monster.displayName := monster]
      ensures monster.name in old(names) ==>
                exists n: nat :: 1 <= n && monster.displayName == Tagged(monster.name, n)
                                 && forall m: nat :: 1 <= m < n ==> Tagged(monster.name, m) in old(names)
      ensures monster.actions == old(monster.actions) && monster.Value() == old(monster.Value())
      ensures decided == old(decided) && winner == old(winner) && round == old(round)
      ensures currentMonster == old(currentMonster) && currentAction == old(currentAction) && currentTarget == old(currentTarget)
    {
      monsters := monsters + [monster];
      var base := monster.name;
      if base in names {
        var displayName := DisplayName(names.Keys, base);
        monster.SetDisplayName(displayName);
        names := names[displayName := monster];
      } else {
        names := names[base := monster];
      }
    }

    /** `checkDecided`: with at most one monster conscious, the contest is decided and that one (or nobody) wins. */
    method CheckDecided()
      modifies this`decided, this`winner
      ensures var s := Survivors(World(monsters));
              (|s| <= 1 ==> decided && winner == if |s| == 1 then monsters[s[0]] else null)
              && (|s| > 1 ==> decided == old(decided) && winner == old(winner))
    {
      ghost var w := World(monsters);
      var conscious, last := CountConscious(monsters);
      assert conscious == |Survivors(World(monsters))|;
      assert World(monsters) == w;
      if conscious <= 1 {
        decided := true;
        winner := last;
      }
      assert World(monsters) == w;
    }

    /** `executeEffect(user, target, effect, isFirstEffect)` */
    method ExecuteEffect(roster: seq<Monster>, a: Arena, e: Effect) returns (ok: bool)
      requires Matches(roster, a)
      modifies roster[a.user], roster[a.target], random
      ensures var r := TryEffect(e, old(World(roster)), a, random.draws, old(random.used));
              ok == r.ok && World(roster) == r.world && random.used == r.pos
    {
      ok := TryExecute(e, roster, a, random);
    }

    /** `executeAction(user, action, target)` */
    method ExecuteAction(roster: seq<Monster>, user: nat, action: Action, target: nat)
      requires user < |roster| && target < |roster| && Separate(roster)
      modifies roster[user], roster[target], random
      ensures var r := ActionSpec(action.effects, old(World(roster)), Arena(ElementsOf(roster), user, target, action.element),
                                  random.draws, old(random.used));
              World(roster) == r.world && random.used == r.pos
    {
      var a := Arena(ElementsOf(roster), user, target, action.element);
      ghost var w0, p0 := World(roster), random.used;
      var effects := action.GetEffects();
      assert World(roster) == w0 && random.used == p0 && effects == old(action.effects);
      assert Matches(roster, a);
      LegacyBattle.ExecuteAction(effects, roster, a, random);
      assert World(roster) == ActionSpec(effects, w0, a, random.draws, p0).world;
    }

    /**
     * One turn of phase II: a fainted monster is skipped; otherwise it becomes the current
     * monster and, unless there is no action (it passes), uses the action on the target, after
     * which the contest is checked. `stop` reports that the turn decided the contest.
     */
    method TakeTurn(i: nat, action: Action?, target: nat, ghost plan: Plan) returns (stop: bool)
      requires Valid() && !decided && i < |monsters| && target < |monsters|
      requires plan == PlanOf(action, monsters, target)
      modifies this`currentMonster, this`decided, this`winner, Members(monsters), random
      ensures var t := Turn(plan, i, old(World(monsters)), random.draws, old(random.used));
              World(monsters) == t.world && random.used == t.pos && stop == decided == t.decided
      ensures !stop ==> winner == old(winner)
      ensures stop ==> winner == Champion(monsters, World(monsters))
      ensures monsters == old(monsters) && names == old(names)
    {
      var monster := monsters[i];
      stop := false;
      if monster.IsFainted() {
        return;
      }
      currentMonster := monster;
      if action == null {
        return;
      }
      ExecuteAction(monsters, i, action, target);
      CheckDecided();
      stop := decided;
    }

    /** Phase II of `runRound`: the order is fixed once, by effective speed; then each monster takes its turn until one decides the contest. */
    method ExecuteActionsPhase()
      requires Valid() && !decided && currentTarget != null && currentTarget in monsters
      modifies this`currentMonster, this`decided, this`winner, Members(monsters), random
      ensures var p := ExecutePhase(old(PlanOf(currentAction, monsters, PositionOf(monsters, currentTarget))),
                                    old(World(monsters)), random.draws, old(random.used));
              World(monsters) == p.world && random.used == p.pos && decided == p.decided
      ensures !decided ==> winner == old(winner)
      ensures decided ==> winner == Champion(monsters, World(monsters))
      ensures unchanged(this`round, this`currentAction, this`currentTarget, this`monsters, this`names)
    {
      var order := SpeedOrder(SpeedKeys(World(monsters)));
      var action := currentAction;
      var target := PositionOf(monsters, currentTarget);
      RunTurns(order, action, target, PlanOf(action, monsters, target));
    }

    /** The loop of the execute phase: the monsters take their turns in `order` until one decides the contest. */
    method RunTurns(order: seq<nat>, action: Action?, target: nat, ghost plan: Plan)
      requires Valid() && !decided && target < |monsters|
      requires forall j :: 0 <= j < |order| ==> order[j] < |monsters|
      requires plan == PlanOf(action, monsters, target)
      modifies this`currentMonster, this`decided, this`winner, Members(monsters), random
      ensures var p := Turns(order, 0, plan, old(World(monsters)), random.draws, old(random.used));
              World(monsters) == p.world && random.used == p.pos && decided == p.decided
      ensures !decided ==> winner == old(winner)
      ensures decided ==> winner == Champion(monsters, World(monsters))
    {
      ghost var goal := Turns(order, 0, plan, World(monsters), random.draws, random.used);
      var k := 0;
      while k < |order|
        invariant k <= |order| && !decided && winner == old(winner)
        invariant Valid() && plan == PlanOf(action, monsters, target)
        invariant Turns(order, k, plan, World(monsters), random.draws, random.used) == goal
      {
        TurnsStep(order, k, plan, World(monsters), random.draws, random.used);
        var stop := TakeTurn(order[k], action, target, plan);
        if stop {
          return;
        }
        k := k + 1;
      }
    }

    /** The end of `runRound`: every monster's protection counts down. */
    method DecreaseAllProtection()
      requires Separate(monsters)
      modifies Members(monsters)
      ensures World(monsters) == EndRound(old(World(monsters))) && unchanged(this) && unchanged(random)
    {
      ghost var w0 := World(monsters);
      var i := 0;
      while i < |monsters|
        invariant 0 <= i <= |monsters|
        invariant forall j :: 0 <= j < i ==> monsters[j].Value() == Combatant.DecreaseProtection(w0[j]).after
        invariant forall j :: i <= j < |monsters| ==> monsters[j].Value() == w0[j]
      {
        var expired := monsters[i].DecreaseProtection();
        i := i + 1;
      }
    }

    /** `reset`: every monster restored, round 0, not decided, no winner; roster, names and protection untouched. */
    method Reset()
      requires Separate(monsters)
      modifies this`round, this`decided, this`winner, Members(monsters)
      ensures World(monsters) == ResetAll(old(World(monsters)))
      ensures round == 0 && !decided && winner == null
    {
      ghost var w0 := World(monsters);
      var i := 0;
      while i < |monsters|
        invariant 0 <= i <= |monsters|
        invariant forall j :: 0 <= j < i ==> monsters[j].Value() == ResetState(w0[j])
        invariant forall j :: i <= j < |monsters| ==> monsters[j].Value() == w0[j]
      {
        ResetMonster(monsters[i]);
        i := i + 1;
      }
      round, decided, winner := 0, false, null;
    }

    /** `clear`: empty roster and names, every current reference null, round 0, not decided. */
    method Clear()
      modifies this
      ensures Valid()
      ensures monsters == [] && names == map[]
      ensures currentMonster == null && currentAction == null && currentTarget == null && winner == null
      ensures round == 0 && !decided
    {
      monsters, names := [], map[];
      currentMonster, currentAction, currentTarget := null, null, null;
      round, decided, winner := 0, false, null;
    }

    /** Phase II and, if it leaves the contest open, the protection countdown. */
    method PlayRound(action: Action?, target: Monster)
      requires Valid() && !decided && target in monsters
      modifies this`decided, this`winner, this`currentMonster, this`currentAction, this`currentTarget
      modifies Members(monsters), random
      ensures var p := ExecutePhase(old(PlanOf(action, monsters, PositionOf(monsters, target))),
                                    old(World(monsters)), random.draws, old(random.used));
              random.used == p.pos && decided == p.decided
              && World(monsters) == if p.decided then p.world else EndRound(p.world)
      ensures currentAction == action && currentTarget == target && unchanged(this`round)
      ensures decided ==> winner == Champion(monsters, World(monsters))
      ensures !decided ==> winner == old(winner)
    {
      ghost var plan := PlanOf(action, monsters, PositionOf(monsters, target));
      ghost var w0, p0 := World(monsters), random.used;
      currentAction, currentTarget := action, target;
      assert PlanOf(currentAction, monsters, PositionOf(monsters, currentTarget)) == plan;
      ExecuteActionsPhase();
      ghost var p := ExecutePhase(plan, w0, random.draws, p0);
      assert World(monsters) == p.world && random.used == p.pos && decided == p.decided;
      if decided {
        return;
      }
      DecreaseAllProtection();
    }

    /**
     * `runRound` with the choice phase replaced by its outcome: the round counter goes up; an
     * already decided contest stops there; otherwise the chosen action is executed on the chosen
     * target, and only if that leaves the contest open does every protection count down.
     */
    method RunRound(action: Action?, target: Monster)
      requires Valid() && target in monsters
      modifies this`round, this`decided, this`winner, this`currentMonster, this`currentAction, this`currentTarget
      modifies Members(monsters), random
      ensures round == old(round) + 1
      ensures Decided(old(World(monsters))) ==> winner == Champion(monsters, World(monsters))
      ensures old(decided) && !Decided(old(World(monsters))) ==> winner == old(winner)
      ensures !old(decided) && !Decided(old(World(monsters))) ==>
                (decided ==> winner == Champion(monsters, World(monsters))) && (!decided ==> winner == old(winner))
      ensures old(decided) || Decided(old(World(monsters))) ==>
                decided && World(monsters) == old(World(monsters)) && random.used == old(random.used)
      ensures !old(decided) && !Decided(old(World(monsters))) ==>
                var p := ExecutePhase(old(PlanOf(action, monsters, PositionOf(monsters, target))),
                                      old(World(monsters)), random.draws, old(random.used));
                currentAction == action && currentTarget == target && random.used == p.pos && decided == p.decided
                && World(monsters) == if p.decided then p.world else EndRound(p.world)
    {
      ghost var w0 := World(monsters);
      round := round + 1;
      CheckDecided();
      assert World(monsters) == w0;
      if decided {
        return;
      }
      PlayRound(action, target);
    }
  }
}
