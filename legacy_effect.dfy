/**
 * The older snapshot's effect hierarchy as one tagged value. Damage, healing, stat and status
 * effects carry a `targetIsUser` flag instead of a target type; a repeat holds the list of
 * effects it repeats.
 */
module LegacyEffect {
  import opened Stats
  import opened Repetition
  import EduEffect
  import opened LegacyConditions

  /** `DamageType` / `HealingType` (the same three modes as the newer snapshot). */
  type Amount = EduEffect.Amount
  /** `ProtectionTarget` (the same two targets as the newer snapshot). */
  type Guard = EduEffect.Guard

  datatype Effect =
    | Damage(toUser: bool, kind: Amount, value: int, hitRate: int, burn: bool)
    | Healing(toUser: bool, kind: Amount, value: int, hitRate: int)
    | StatChange(toUser: bool, stat: Stat, stages: int, hitRate: int)
    | Inflict(toUser: bool, condition: Condition, hitRate: int)
    | Defense(guard: Guard, count: int, hitRate: int)
    | Repeat(count: int, body: seq<Effect>)
    | Continue(hitRate: int)

  /** `new EffectDamage(monster)`: the burn tick, 10% of the maximum HP, always hitting, aimed at the target parameter. */
  function BurnDamage(): (e: Effect)
    ensures e.Damage? && e.kind == EduEffect.RELATIVE && e.value == 10 && e.burn && !e.toUser
    ensures HitRate(e) == 100
  {
    Damage(false, EduEffect.RELATIVE, 10, 100, true)
  }

  /** `getHitRate()`: both repeat constructors pass 100, every other effect keeps its argument. */
  function HitRate(e: Effect): int
  {
    match e
    case Repeat(_, _) => 100
    case Damage(_, _, _, h, _) => h
    case Healing(_, _, _, h) => h
    case StatChange(_, _, _, h) => h
    case Inflict(_, _, h) => h
    case Defense(_, _, h) => h
    case Continue(h) => h
  }

  /** The effects that pick their monster with `targetIsUser ? user : target`. */
  predicate Aimed(e: Effect)
  {
    e.Damage? || e.Healing? || e.StatChange? || e.Inflict?
  }

  /** `targetIsUser ? user : target`, over roster positions. */
  function ActualTarget(e: Effect, user: nat, selected: nat): (r: nat)
    requires Aimed(e)
    ensures e.toUser ==> r == user
    ensures !e.toUser ==> r == selected
  {
    if e.toUser then user else selected
  }

  /** What the queue of `executeAction` receives for one effect: `count` copies of a repeat's list, or the effect itself. */
  function Expansion(e: Effect): seq<Effect>
  {
    if e.Repeat? then Copies(e.body, e.count) else [e]
  }

  /** The queue `executeAction` builds: each effect's expansion, in order. */
  function Flatten(effects: seq<Effect>): seq<Effect>
  {
    if effects == [] then [] else Expansion(effects[0]) + Flatten(effects[1..])
  }

  lemma {:induction false} FlattenAppend(effects: seq<Effect>, e: Effect)
    ensures Flatten(effects + [e]) == Flatten(effects) + Expansion(e)
  {
    if effects != [] {
      assert (effects + [e])[1..] == effects[1..] + [e];
      FlattenAppend(effects[1..], e);
    } else {
      assert [e][1..] == [];
    }
  }

  /** No repeat inside any repeat's list: the shape every loaded action has. */
  predicate Shallow(effects: seq<Effect>)
  {
    forall i :: 0 <= i < |effects| && effects[i].Repeat? ==> forall x :: x in effects[i].body ==> !x.Repeat?
  }

  /**
   * For a shallow action the queue holds no repeat, and every entry is either a top-level
   * effect of the action or an entry of one of its repeats.
   */
  lemma {:induction false} FlattenOfShallow(effects: seq<Effect>)
    requires Shallow(effects)
    ensures forall x :: x in Flatten(effects) ==> !x.Repeat?
    ensures forall x :: x in Flatten(effects) ==>
              x in effects || exists i :: 0 <= i < |effects| && effects[i].Repeat? && x in effects[i].body
  {
    if effects != [] {
      var e := effects[0];
      assert Shallow(effects[1..]) by {
        forall i | 0 <= i < |effects[1..]| && effects[1..][i].Repeat?
          ensures forall x :: x in effects[1..][i].body ==> !x.Repeat?
        {
          assert effects[1..][i] == effects[i + 1];
        }
      }
      FlattenOfShallow(effects[1..]);
      if e.Repeat? {
        CopiesShape(e.body, e.count);
      }
      forall x | x in Flatten(effects)
        ensures !x.Repeat?
        ensures x in effects || exists i :: 0 <= i < |effects| && effects[i].Repeat? && x in effects[i].body
      {
        if x in Expansion(e) {
          if e.Repeat? {
            assert x in e.body;
          } else {
            assert x == e;
            assert !e.Repeat?;
          }
        } else {
          assert x in Flatten(effects[1..]);
          if x !in effects[1..] {
            var i :| 0 <= i < |effects[1..]| && effects[1..][i].Repeat? && x in effects[1..][i].body;
            assert effects[i + 1] == effects[1..][i];
          }
        }
      }
    }
  }
}
