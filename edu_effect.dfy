/** The newer snapshot's effect hierarchy as one tagged value, and how an effect enters the queue. */
module EduEffect {
  import opened Stats
  import opened EduConditions
  import opened Repetition

  datatype TargetType = USER | TARGET
  /** `DamageType` / `HealingType` */
  datatype Amount = BASE | RELATIVE | ABSOLUTE
  /** `ProtectionType` */
  datatype Guard = HEALTH | STATS

  datatype Effect =
    | Damage(targetType: TargetType, kind: Amount, value: int, hitRate: int, fire: bool)
    | Healing(targetType: TargetType, kind: Amount, value: int, hitRate: int)
    | StatChange(targetType: TargetType, stat: Stat, stages: int, hitRate: int)
    | Inflict(targetType: TargetType, condition: Condition, hitRate: int)
    | Defense(guard: Guard, duration: int, hitRate: int)
    | Repeat(count: int, body: seq<Effect>)
    | Continue(hitRate: int)

  /** `new EffectDamage(monster)`: the burn tick, 10% of the maximum HP, always hitting. */
  function BurnDamage(): (e: Effect)
    ensures e.Damage? && e.kind == RELATIVE && e.value == 10 && e.fire
    ensures HitRate(e) == 100 && TargetOf(e) == TARGET
  {
    Damage(TARGET, RELATIVE, 10, 100, true)
  }

  /** `getHitRate()`: a repeat is built with 100, every other effect keeps its constructor argument. */
  function HitRate(e: Effect): int
  {
    match e
    case Repeat(_, _) => 100
    case Damage(_, _, _, h, _) => h
    case Healing(_, _, _, h) => h
    case StatChange(_, _, _, h) => h
    case Inflict(_, _, h) => h
    case Defense(_, _, h) => h
    case Continue(h) => h
  }

  /** `getTargetType()`: defense, repeat and continue are built with USER. */
  function TargetOf(e: Effect): TargetType
  {
    match e
    case Damage(tt, _, _, _, _) => tt
    case Healing(tt, _, _, _) => tt
    case StatChange(tt, _, _, _) => tt
    case Inflict(tt, _, _) => tt
    case _ => USER
  }

  /** Defense, repeat and continue effects always aim at the user; a repeat always reports a hit rate of 100. */
  lemma FixedAtConstruction(g: Guard, d: int, h: int, count: int, body: seq<Effect>)
    ensures TargetOf(Defense(g, d, h)) == USER && HitRate(Defense(g, d, h)) == h
    ensures TargetOf(Repeat(count, body)) == USER && HitRate(Repeat(count, body)) == 100
    ensures TargetOf(Continue(h)) == USER && HitRate(Continue(h)) == h
  {
  }

  /** `getActualTarget(user, selected)` over roster positions. */
  function ActualTarget(e: Effect, user: nat, selected: nat): (r: nat)
    ensures TargetOf(e) == USER ==> r == user
    ensures TargetOf(e) == TARGET ==> r == selected
  {
    if TargetOf(e) == USER then user else selected
  }

  /** `getValue()`: the damage value for a damage effect, the default 0 otherwise. */
  function ReportedValue(e: Effect): (r: int)
    ensures !e.Damage? ==> r == 0
    ensures e.Damage? ==> r == e.value
  {
    if e.Damage? then e.value else 0
  }

  /** What `addToQueue` appends: the effect itself, or for a repeat `count` copies of its body, one level deep. */
  function Expansion(e: Effect): seq<Effect>
  {
    if e.Repeat? then Copies(e.body, e.count) else [e]
  }

  /** A repeat's expansion contains only entries of its own body; nested repeats stay unexpanded. */
  lemma ExpansionOfRepeat(count: int, body: seq<Effect>, x: Effect)
    requires x in Expansion(Repeat(count, body))
    ensures x in body
  {
    CopiesShape(body, count);
    var k :| 0 <= k < |Copies(body, count)| && Copies(body, count)[k] == x;
  }

  /** `addToQueue(queue)` */
  method AddToQueue(e: Effect, queue: seq<Effect>) returns (r: seq<Effect>)
    ensures r == queue + Expansion(e)
  {
    if !e.Repeat? {
      return queue + [e];
    }
    r := queue;
    if e.count <= 0 {
      return;
    }
    var i := 0;
    while i < e.count
      invariant 0 <= i <= e.count
      invariant r == queue + Copies(e.body, i)
    {
      CopiesAppend(e.body, i);
      r := r + e.body;
      i := i + 1;
    }
  }

  /** The queue `createEffectQueue` builds: each effect's expansion, in order. */
  function Flatten(effects: seq<Effect>): seq<Effect>
  {
    if effects == [] then [] else Expansion(effects[0]) + Flatten(effects[1..])
  }

  lemma {:induction false} FlattenAppend(effects: seq<Effect>, e: Effect)
    ensures Flatten(effects + [e]) == Flatten(effects) + Expansion(e)
  {
    if effects != [] {
      assert (effects + [e])[1..] == effects[1..] + [e];
      FlattenAppend(effects[1..], e);
    } else {
      assert [e][1..] == [];
    }
  }
}
