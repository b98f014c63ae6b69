/**
 * The newer snapshot's `EffectParser`: one configuration line, split on single spaces, becomes
 * one effect or the exception the parser would throw. The random defense form is the one line
 * that consumes a draw, because its constructor picks the duration at once.
 */
module EduEffectParser {
  import opened Wrappers
  import opened Failures
  import opened Text
  import opened Stats
  import opened EduConditions
  import opened EduEffect
  import opened Randomness
  import opened Loading

  /** An effect (or the failure) and the cursor of the random source afterwards. */
  datatype Parsed = Parsed(result: Result<Effect, Failure>, pos: nat)

  /** `parseTargetType`: "user" or "target", anything else is an IllegalArgumentException. */
  function ParseTargetType(word: string): (r: Result<TargetType, Failure>)
    ensures r == Ok(USER) <==> word == "user"
    ensures r == Ok(TARGET) <==> word == "target"
    ensures r.Err? ==> r.error == IllegalArgument
  {
    if word == "user" then Ok(USER)
    else if word == "target" then Ok(TARGET)
    else Err(IllegalArgument)
  }

  /** The mode words of damage and heal lines. */
  function ParseAmount(word: string): (r: Option<Amount>)
    ensures r == Some(BASE) <==> word == "base"
    ensures r == Some(RELATIVE) <==> word == "rel"
    ensures r == Some(ABSOLUTE) <==> word == "abs"
  {
    if word == "base" then Some(BASE)
    else if word == "rel" then Some(RELATIVE)
    else if word == "abs" then Some(ABSOLUTE)
    else None
  }

  /**
   * `parseDamageEffect` and `parseHealingEffect` share their shape: at least four tokens, a
   * target word, a mode word, the value from token 3 and the hit rate from token 4.
   */
  function ParseAmountLine(parts: seq<string>): (r: Result<(TargetType, Amount, int, int), Failure>)
    ensures |parts| < 4 ==> r == Err(Malformed)
    ensures r.Ok? ==> |parts| >= 5 && ParseTargetType(parts[1]) == Ok(r.value.0)
                      && ParseAmount(parts[2]) == Some(r.value.1)
                      && ParseInt(parts[3]) == Some(r.value.2) && ParseInt(parts[4]) == Some(r.value.3)
  {
    if |parts| < 4 then Err(Malformed)
    else match ParseTargetType(parts[1])
      case Err(f) => Err(f)
      case Ok(tt) =>
        match ParseAmount(parts[2])
        case None => Err(Malformed)
        case Some(kind) =>
          match IntAt(parts, 3)
          case Err(f) => Err(f)
          case Ok(value) =>
            match IntAt(parts, 4)
            case Err(f) => Err(f)
            case Ok(hit) => Ok((tt, kind, value, hit))
  }

  /** `parseDamageEffect(parts)` */
  function ParseDamageEffect(parts: seq<string>): (r: Result<Effect, Failure>)
  {
    match ParseAmountLine(parts)
    case Err(f) => Err(f)
    case Ok((tt, kind, value, hit)) => Ok(Damage(tt, kind, value, hit, false))
  }

  /** `parseHealingEffect(parts)` */
  function ParseHealingEffect(parts: seq<string>): (r: Result<Effect, Failure>)
  {
    match ParseAmountLine(parts)
    case Err(f) => Err(f)
    case Ok((tt, kind, value, hit)) => Ok(Healing(tt, kind, value, hit))
  }

  /** `parseStatusConditionEffect(parts)`: an unknown condition reads as NONE and is refused with it. */
  function ParseStatusConditionEffect(parts: seq<string>): (r: Result<Effect, Failure>)
    ensures r.Ok? ==> |parts| >= 4 && r.value.Inflict? && r.value.condition != NONE
                      && EduConditions.Name(r.value.condition) == parts[2]
    ensures |parts| < 4 ==> r == Err(Malformed)
  {
    if |parts| < 4 then Err(Malformed)
    else match ParseTargetType(parts[1])
      case Err(f) => Err(f)
      case Ok(tt) =>
        var condition := EduConditions.FromString(parts[2]);
        if condition == NONE then Err(Malformed)
        else match IntAt(parts, 3)
          case Err(f) => Err(f)
          case Ok(hit) => Ok(Inflict(tt, condition, hit))
  }

  /** `parseStatChangeEffect(parts)` */
  function ParseStatChangeEffect(parts: seq<string>): (r: Result<Effect, Failure>)
    ensures r.Ok? ==> |parts| >= 5 && r.value.StatChange? && Stats.Name(r.value.stat) == parts[2]
    ensures |parts| < 5 ==> r == Err(Malformed)
  {
    if |parts| < 5 then Err(Malformed)
    else match ParseTargetType(parts[1])
      case Err(f) => Err(f)
      case Ok(tt) =>
        match Stats.FromString(parts[2])
        case None => Err(Malformed)
        case Some(stat) =>
          match IntAt(parts, 3)
          case Err(f) => Err(f)
          case Ok(stages) =>
            match IntAt(parts, 4)
            case Err(f) => Err(f)
            case Ok(hit) => Ok(StatChange(tt, stat, stages, hit))
  }

  /**
   * `parseDefenseEffect(parts)`: "health" or "stats", then either "random min max hit" (at least
   * six tokens; the duration is drawn on construction) or "count hit".
   */
  function ParseDefenseEffect(parts: seq<string>, draws: Draws, pos: nat): (r: Parsed)
    ensures |parts| < 4 ==> r == Parsed(Err(Malformed), pos)
    ensures r.pos == pos || (r.pos == pos + 1 && r.result.Ok? && parts[2] == "random")
    ensures r.result.Ok? ==> |parts| >= 4 && r.result.value.Defense?
    ensures r.result.Ok? && parts[2] == "random" ==>
              |parts| >= 6 && r.pos == pos + 1 && ParseInt(parts[3]).Some? && ParseInt(parts[4]).Some?
              && ParseInt(parts[3]).value <= r.result.value.duration <= ParseInt(parts[4]).value
  {
    if |parts| < 4 then Parsed(Err(Malformed), pos)
    else
      var guard := if parts[1] == "health" then Some(HEALTH) else if parts[1] == "stats" then Some(STATS) else None;
      if guard.None? then Parsed(Err(Malformed), pos)
      else if parts[2] == "random" then
        if |parts| < 6 then Parsed(Err(Malformed), pos)
        else match (IntAt(parts, 3), IntAt(parts, 4), IntAt(parts, 5))
          case (Err(f), _, _) => Parsed(Err(f), pos)
          case (Ok(_), Err(f), _) => Parsed(Err(f), pos)
          case (Ok(_), Ok(_), Err(f)) => Parsed(Err(f), pos)
          case (Ok(min), Ok(max), Ok(hit)) =>
            match RandomInt(draws(pos), min, max)
            case Err(f) => Parsed(Err(f), pos)
            case Ok(duration) => Parsed(Ok(Defense(guard.value, duration, hit)), pos + 1)
      else
        match IntAt(parts, 2)
        case Err(f) => Parsed(Err(f), pos)
        case Ok(count) =>
          match IntAt(parts, 3)
          case Err(f) => Parsed(Err(f), pos)
          case Ok(hit) => Parsed(Ok(Defense(guard.value, count, hit)), pos)
  }

  /** `parseContinueEffect(parts)`: the hit rate is token 1. */
  function ParseContinueEffect(parts: seq<string>): (r: Result<Effect, Failure>)
    ensures r.Ok? ==> |parts| >= 2 && Some(HitRate(r.value)) == ParseInt(parts[1])
    ensures |parts| < 2 ==> r == Err(Malformed)
  {
    if |parts| < 2 then Err(Malformed)
    else match IntAt(parts, 1)
      case Err(f) => Err(f)
      case Ok(hit) => Ok(Continue(hit))
  }

  /** The six keywords `parseEffect` dispatches on. */
  predicate IsKeyword(word: string)
  {
    word in {"damage", "inflictStatusCondition", "inflictStatChange", "protectStat", "heal", "continue"}
  }

  /** `parseEffect(line)` */
  function ParseEffect(line: string, draws: Draws, pos: nat): (r: Parsed)
    ensures |Split(line)| < 2 || !IsKeyword(Split(line)[0]) ==> r == Parsed(Err(Malformed), pos)
    ensures r.pos == pos || (r.pos == pos + 1 && r.result.Ok? && r.result.value.Defense?)
    ensures r.result.Ok? ==> !r.result.value.Repeat? && !(r.result.value.Damage? && r.result.value.fire)
  {
    var parts := Split(line);
    if |parts| < 2 then Parsed(Err(Malformed), pos)
    else if parts[0] == "damage" then Parsed(ParseDamageEffect(parts), pos)
    else if parts[0] == "inflictStatusCondition" then Parsed(ParseStatusConditionEffect(parts), pos)
    else if parts[0] == "inflictStatChange" then Parsed(ParseStatChangeEffect(parts), pos)
    else if parts[0] == "protectStat" then ParseDefenseEffect(parts, draws, pos)
    else if parts[0] == "heal" then Parsed(ParseHealingEffect(parts), pos)
    else if parts[0] == "continue" then Parsed(ParseContinueEffect(parts), pos)
    else Parsed(Err(Malformed), pos)
  }

  /**
   * `parseDefenseEffect(parts)` as it runs: the random form asks the competition's generator for
   * the duration once every token has been read.
   */
  method ParseDefenseLine(parts: seq<string>, rng: RandomSource) returns (r: Result<Effect, Failure>)
    modifies rng
    ensures var p := ParseDefenseEffect(parts, rng.draws, old(rng.used));
            r == p.result && rng.used == p.pos
  {
    if |parts| < 4 || (parts[1] != "health" && parts[1] != "stats") || parts[2] != "random" || |parts| < 6 {
      return ParseDefenseEffect(parts, rng.draws, rng.used).result;
    }
    var guard := if parts[1] == "health" then HEALTH else STATS;
    var min := IntAt(parts, 3);
    var max := IntAt(parts, 4);
    var hit := IntAt(parts, 5);
    if min.Err? || max.Err? || hit.Err? {
      return ParseDefenseEffect(parts, rng.draws, rng.used).result;
    }
    var duration := rng.GetRandomInt(min.value, max.value);
    match duration
    case Err(f) => r := Err(f);
    case Ok(d) => r := Ok(Defense(guard, d, hit.value));
  }

  /** `parseEffect(line)` as the loader calls it, drawing from the competition's generator when needed. */
  method ParseEffectLine(line: string, rng: RandomSource) returns (r: Result<Effect, Failure>)
    modifies rng
    ensures var p := ParseEffect(line, rng.draws, old(rng.used));
            r == p.result && rng.used == p.pos
  {
    var parts := Split(line);
    if |parts| >= 2 && parts[0] == "protectStat" {
      r := ParseDefenseLine(parts, rng);
    } else {
      r := ParseEffect(line, rng.draws, rng.used).result;
    }
  }

  // ---------------------------------------------------------------------------------------------
  // The configuration syntax of every effect the parser can build, and the round trip.

  function TargetWord(tt: TargetType): string
  {
    if tt == USER then "user" else "target"
  }

  function AmountWord(kind: Amount): string
  {
    match kind
    case BASE => "base"
    case RELATIVE => "rel"
    case ABSOLUTE => "abs"
  }

  function GuardWord(g: Guard): string
  {
    if g == HEALTH then "health" else "stats"
  }

  predicate Int32(i: int)
  {
    INT_MIN <= i <= INT_MAX
  }

  /** The effects a configuration line can describe with a fixed duration. */
  predicate Writable(e: Effect)
  {
    match e
    case Damage(_, _, value, hit, fire) => !fire && Int32(value) && Int32(hit)
    case Healing(_, _, value, hit) => Int32(value) && Int32(hit)
    case StatChange(_, _, stages, hit) => Int32(stages) && Int32(hit)
    case Inflict(_, condition, hit) => condition != NONE && Int32(hit)
    case Defense(_, duration, hit) => Int32(duration) && Int32(hit)
    case Repeat(_, _) => false
    case Continue(hit) => Int32(hit)
  }

  /** The tokens of the configuration line that describes `e`. */
  function Tokens(e: Effect): (r: seq<string>)
    requires Writable(e)
    ensures |r| >= 2 && r[|r| - 1] != ""
  {
    match e
    case Damage(tt, kind, value, hit, _) => ["damage", TargetWord(tt), AmountWord(kind), IntToString(value), IntToString(hit)]
    case Healing(tt, kind, value, hit) => ["heal", TargetWord(tt), AmountWord(kind), IntToString(value), IntToString(hit)]
    case StatChange(tt, stat, stages, hit) => ["inflictStatChange", TargetWord(tt), Stats.Name(stat), IntToString(stages), IntToString(hit)]
    case Inflict(tt, condition, hit) => ["inflictStatusCondition", TargetWord(tt), EduConditions.Name(condition), IntToString(hit)]
    case Defense(g, duration, hit) => ["protectStat", GuardWord(g), IntToString(duration), IntToString(hit)]
    case Continue(hit) => ["continue", IntToString(hit)]
  }

  /** The configuration line that describes `e`. */
  function Render(e: Effect): string
    requires Writable(e)
  {
    Join(Tokens(e))
  }

  /** The tokens of a describable effect hold no space, so the line splits back into them. */
  lemma SplitRender(e: Effect)
    requires Writable(e)
    ensures Split(Render(e)) == Tokens(e)
  {
    var parts := Tokens(e);
    assert forall i :: 0 <= i < |parts| ==> ' ' !in parts[i] by {
      match e
      case StatChange(_, stat, _, _) =>
        match stat {
          case HP => case ATK => case DEF => case SPD => case PRC => case AGL =>
        }
      case Inflict(_, c, _) =>
        match c {
          case NONE => case WET => case BURN => case QUICKSAND => case SLEEP => case FAINTED =>
        }
      case _ =>
    }
    SplitOfJoin(parts);
  }

  /** Every effect a line can describe is parsed back from its own line, without a draw. */
  lemma ParseRender(e: Effect, draws: Draws, pos: nat)
    requires Writable(e)
    ensures ParseEffect(Render(e), draws, pos) == Parsed(Ok(e), pos)
  {
    match e
    case Damage(_, _, _, _, _) => ParseRenderDamage(e, draws, pos);
    case Healing(_, _, _, _) => ParseRenderHealing(e, draws, pos);
    case StatChange(_, _, _, _) => ParseRenderStatChange(e, draws, pos);
    case Inflict(_, _, _) => ParseRenderInflict(e, draws, pos);
    case Defense(_, _, _) => ParseRenderDefense(e, draws, pos);
    case Continue(_) => ParseRenderContinue(e, draws, pos);
  }

  lemma ParseRenderDamage(e: Effect, draws: Draws, pos: nat)
    requires e.Damage? && Writable(e)
    ensures ParseEffect(Render(e), draws, pos) == Parsed(Ok(e), pos)
  {
    var parts := Tokens(e);
    SplitRender(e);
    AmountWords(parts[0], e.targetType, e.kind, e.value, e.hitRate);
    assert ParseDamageEffect(parts) == Ok(e);
    assert parts[0] == "damage";
  }

  /** The amount part of a damage or heal line parses back to the values it was written from. */
  lemma AmountWords(keyword: string, tt: TargetType, kind: Amount, value: int, hit: int)
    requires Int32(value) && Int32(hit)
    ensures ParseAmountLine([keyword, TargetWord(tt), AmountWord(kind), IntToString(value), IntToString(hit)])
            == Ok((tt, kind, value, hit))
  {
    var parts := [keyword, TargetWord(tt), AmountWord(kind), IntToString(value), IntToString(hit)];
    ParseIntOfIntToString(value);
    ParseIntOfIntToString(hit);
    assert ParseTargetType(parts[1]) == Ok(tt);
    assert ParseAmount(parts[2]) == Some(kind);
    assert IntAt(parts, 3) == Ok(value) && IntAt(parts, 4) == Ok(hit);
  }

  lemma ParseRenderHealing(e: Effect, draws: Draws, pos: nat)
    requires e.Healing? && Writable(e)
    ensures ParseEffect(Render(e), draws, pos) == Parsed(Ok(e), pos)
  {
    var parts := Tokens(e);
    SplitRender(e);
    AmountWords(parts[0], e.targetType, e.kind, e.value, e.hitRate);
    assert ParseHealingEffect(parts) == Ok(e);
    assert parts[0] == "heal";
  }

  lemma ParseRenderStatChange(e: Effect, draws: Draws, pos: nat)
    requires e.StatChange? && Writable(e)
    ensures ParseEffect(Render(e), draws, pos) == Parsed(Ok(e), pos)
  {
    var parts := Tokens(e);
    SplitRender(e);
    Stats.FromStringName(e.stat);
    ParseIntOfIntToString(e.stages);
    ParseIntOfIntToString(e.hitRate);
    assert ParseTargetType(parts[1]) == Ok(e.targetType);
    assert Stats.FromString(parts[2]) == Some(e.stat);
    assert IntAt(parts, 3) == Ok(e.stages) && IntAt(parts, 4) == Ok(e.hitRate);
    assert ParseStatChangeEffect(parts) == Ok(e);
    assert parts[0] == "inflictStatChange";
  }

  lemma ParseRenderInflict(e: Effect, draws: Draws, pos: nat)
    requires e.Inflict? && Writable(e)
    ensures ParseEffect(Render(e), draws, pos) == Parsed(Ok(e), pos)
  {
    var parts := Tokens(e);
    SplitRender(e);
    EduConditions.FromStringName(e.condition);
    ParseIntOfIntToString(e.hitRate);
    assert ParseTargetType(parts[1]) == Ok(e.targetType);
    assert IntAt(parts, 3) == Ok(e.hitRate);
    assert ParseStatusConditionEffect(parts) == Ok(e);
    assert parts[0] == "inflictStatusCondition";
  }

  lemma ParseRenderDefense(e: Effect, draws: Draws, pos: nat)
    requires e.Defense? && Writable(e)
    ensures ParseEffect(Render(e), draws, pos) == Parsed(Ok(e), pos)
  {
    SplitRender(e);
    var parts := Tokens(e);
    ParseIntOfIntToString(e.duration);
    ParseIntOfIntToString(e.hitRate);
    assert parts[2] != "random" by {
      if e.duration < 0 {
        assert parts[2][0] == '-';
      } else {
        assert IsDigit(parts[2][0]);
      }
    }
  }

  lemma ParseRenderContinue(e: Effect, draws: Draws, pos: nat)
    requires e.Continue? && Writable(e)
    ensures ParseEffect(Render(e), draws, pos) == Parsed(Ok(e), pos)
  {
    var parts := Tokens(e);
    SplitRender(e);
    ParseIntOfIntToString(e.hitRate);
    assert IntAt(parts, 1) == Ok(e.hitRate);
    assert ParseContinueEffect(parts) == Ok(e);
    assert parts[0] == "continue";
  }

  /**
   * A damage or heal line with exactly four tokens passes the length check and then reads a fifth
   * token that is not there.
   */
  lemma FourTokenAmountLine(parts: seq<string>)
    requires |parts| == 4 && ParseTargetType(parts[1]).Ok? && ParseAmount(parts[2]).Some?
    requires ParseInt(parts[3]).Some?
    ensures ParseDamageEffect(parts) == Err(IndexOutOfBounds)
    ensures ParseHealingEffect(parts) == Err(IndexOutOfBounds)
  {
  }

  /** An unknown target word is refused before any mode or number is read. */
  lemma TargetWordFirst(parts: seq<string>)
    requires |parts| >= 5 && parts[1] != "user" && parts[1] != "target"
    ensures ParseDamageEffect(parts) == Err(IllegalArgument)
    ensures ParseHealingEffect(parts) == Err(IllegalArgument)
    ensures ParseStatusConditionEffect(parts) == Err(IllegalArgument)
    ensures ParseStatChangeEffect(parts) == Err(IllegalArgument)
  {
  }

  /** "NONE" and unknown condition names are both refused as malformed. */
  lemma NoneConditionRefused(parts: seq<string>)
    requires |parts| >= 4 && ParseTargetType(parts[1]).Ok?
    requires parts[2] == "NONE" || forall c: Condition :: EduConditions.Name(c) != parts[2]
    ensures ParseStatusConditionEffect(parts) == Err(Malformed)
  {
  }
}
