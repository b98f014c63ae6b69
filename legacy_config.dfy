/**
 * The older snapshot's `ConfigurationLoader`. Its effect parsing is its own: a target word other
 * than "user" means the target, and an effect line read while a repeat is open goes into that
 * repeat, which has already been added to the action.
 */
module LegacyConfig {
  import opened Wrappers
  import opened Failures
  import opened Text
  import opened Stats
  import Elements
  import EduEffect
  import EduEffectParser
  import opened Randomness
  import opened Loading
  import opened LegacyConditions
  import opened LegacyEffect

  /** An effect (or the failure) and the cursor of the random source afterwards. */
  datatype Parsed = Parsed(result: Result<Effect, Failure>, pos: nat)

  /** What `new Action(name, element)` and its `addEffect` calls describe. */
  datatype ActionDef = ActionDef(name: string, element: Elements.Element, effects: seq<Effect>)

  // ---------------------------------------------------------------------------------------------
  // Effect lines.

  /**
   * `parseDamageEffect` and `parseHealingEffect` share their shape: at least four tokens, the
   * target flag from token 1, a mode word, the value from token 3 and the hit rate from token 4.
   */
  function AmountLine(parts: seq<string>): (r: Result<(bool, Amount, int, int), Failure>)
    ensures |parts| < 4 ==> r == Err(Malformed)
    ensures r.Ok? ==> |parts| >= 5 && r.value.0 == (parts[1] == "user")
                      && EduEffectParser.ParseAmount(parts[2]) == Some(r.value.1)
                      && ParseInt(parts[3]) == Some(r.value.2) && ParseInt(parts[4]) == Some(r.value.3)
  {
    if |parts| < 4 then Err(Malformed)
    else match EduEffectParser.ParseAmount(parts[2])
      case None => Err(Malformed)
      case Some(kind) =>
        match IntAt(parts, 3)
        case Err(f) => Err(f)
        case Ok(value) =>
          match IntAt(parts, 4)
          case Err(f) => Err(f)
          case Ok(hit) => Ok((parts[1] == "user", kind, value, hit))
  }

  /** `parseDamageEffect(parts)` */
  function ParseDamageEffect(parts: seq<string>): (r: Result<Effect, Failure>)
  {
    match AmountLine(parts)
    case Err(f) => Err(f)
    case Ok((toUser, kind, value, hit)) => Ok(Damage(toUser, kind, value, hit, false))
  }

  /** `parseHealingEffect(parts)` */
  function ParseHealingEffect(parts: seq<string>): (r: Result<Effect, Failure>)
  {
    match AmountLine(parts)
    case Err(f) => Err(f)
    case Ok((toUser, kind, value, hit)) => Ok(Healing(toUser, kind, value, hit))
  }

  /** `parseStatusConditionEffect(parts)`: an unknown condition reads as NONE and is refused with it. */
  function ParseStatusConditionEffect(parts: seq<string>): (r: Result<Effect, Failure>)
    ensures |parts| < 4 ==> r == Err(Malformed)
    ensures r.Ok? ==> |parts| >= 4 && r.value.Inflict? && r.value.condition != NONE
                      && LegacyConditions.Name(r.value.condition) == parts[2] && r.value.toUser == (parts[1] == "user")
  {
    if |parts| < 4 then Err(Malformed)
    else
      var condition := LegacyConditions.FromString(parts[2]);
      if condition == NONE then Err(Malformed)
      else match IntAt(parts, 3)
        case Err(f) => Err(f)
        case Ok(hit) => Ok(Inflict(parts[1] == "user", condition, hit))
  }

  /** `parseStatChangeEffect(parts)` */
  function ParseStatChangeEffect(parts: seq<string>): (r: Result<Effect, Failure>)
    ensures |parts| < 5 ==> r == Err(Malformed)
    ensures r.Ok? ==> |parts| >= 5 && r.value.StatChange? && Stats.Name(r.value.stat) == parts[2]
                      && Some(r.value.stages) == ParseInt(parts[3]) && Some(r.value.hitRate) == ParseInt(parts[4])
  {
    if |parts| < 5 then Err(Malformed)
    else match Stats.FromString(parts[2])
      case None => Err(Malformed)
      case Some(stat) =>
        match IntAt(parts, 3)
        case Err(f) => Err(f)
        case Ok(stages) =>
          match IntAt(parts, 4)
          case Err(f) => Err(f)
          case Ok(hit) => Ok(StatChange(parts[1] == "user", stat, stages, hit))
  }

  /** The protection words of a defense line. */
  function ParseGuard(word: string): (r: Option<Guard>)
    ensures r == Some(EduEffect.HEALTH) <==> word == "health"
    ensures r == Some(EduEffect.STATS) <==> word == "stats"
  {
    if word == "health" then Some(EduEffect.HEALTH)
    else if word == "stats" then Some(EduEffect.STATS)
    else None
  }

  /**
   * `parseDefenseEffect(parts)`: "health" or "stats"; token 3 is read as the hit rate first; then
   * either "random min max hit" (at least six tokens, the count drawn on construction) or "count hit".
   */
  function ParseDefenseEffect(parts: seq<string>, draws: Draws, pos: nat): (r: Parsed)
    ensures |parts| < 4 ==> r == Parsed(Err(Malformed), pos)
    ensures r.pos == pos || (r.pos == pos + 1 && r.result.Ok? && parts[2] == "random")
    ensures r.result.Ok? ==> |parts| >= 4 && r.result.value.Defense? && ParseInt(parts[3]).Some?
    ensures r.result.Ok? && parts[2] == "random" ==>
              |parts| >= 6 && r.pos == pos + 1 && ParseInt(parts[4]).Some?
              && ParseInt(parts[3]).value <= r.result.value.count <= ParseInt(parts[4]).value
  {
    if |parts| < 4 then Parsed(Err(Malformed), pos)
    else match ParseGuard(parts[1])
      case None => Parsed(Err(Malformed), pos)
      case Some(guard) =>
        match IntAt(parts, 3)
        case Err(f) => Parsed(Err(f), pos)
        case Ok(hitRate) =>
          if parts[2] == "random" then
            if |parts| < 6 then Parsed(Err(Malformed), pos)
            else match (IntAt(parts, 4), IntAt(parts, 5))
              case (Err(f), _) => Parsed(Err(f), pos)
              case (Ok(_), Err(f)) => Parsed(Err(f), pos)
              case (Ok(max), Ok(hit)) =>
                match RandomInt(draws(pos), hitRate, max)
                case Err(f) => Parsed(Err(f), pos)
                case Ok(count) => Parsed(Ok(Defense(guard, count, hit)), pos + 1)
          else match IntAt(parts, 2)
            case Err(f) => Parsed(Err(f), pos)
            case Ok(count) => Parsed(Ok(Defense(guard, count, hitRate)), pos)
  }

  /** `parseContinueEffect(parts)`: the hit rate is token 1. */
  function ParseContinueEffect(parts: seq<string>): (r: Result<Effect, Failure>)
    ensures |parts| < 2 ==> r == Err(Malformed)
    ensures r.Ok? ==> |parts| >= 2 && r.value.Continue? && Some(r.value.hitRate) == ParseInt(parts[1])
  {
    if |parts| < 2 then Err(Malformed)
    else match IntAt(parts, 1)
      case Err(f) => Err(f)
      case Ok(hit) => Ok(Continue(hit))
  }

  /** `parseEffect(line)` */
  function ParseEffect(line: string, draws: Draws, pos: nat): (r: Parsed)
    ensures |Split(line)| < 2 || !EduEffectParser.IsKeyword(Split(line)[0]) ==> r == Parsed(Err(Malformed), pos)
    ensures r.pos == pos || (r.pos == pos + 1 && r.result.Ok? && r.result.value.Defense?)
    ensures r.result.Ok? ==> !r.result.value.Repeat? && !(r.result.value.Damage? && r.result.value.burn)
  {
    var parts := Split(line);
    if |parts| < 2 then Parsed(Err(Malformed), pos)
    else if parts[0] == "damage" then Parsed(ParseDamageEffect(parts), pos)
    else if parts[0] == "inflictStatusCondition" then Parsed(ParseStatusConditionEffect(parts), pos)
    else if parts[0] == "inflictStatChange" then Parsed(ParseStatChangeEffect(parts), pos)
    else if parts[0] == "protectStat" then ParseDefenseEffect(parts, draws, pos)
    else if parts[0] == "heal" then Parsed(ParseHealingEffect(parts), pos)
    else if parts[0] == "continue" then Parsed(ParseContinueEffect(parts), pos)
    else Parsed(Err(Malformed), pos)
  }

  /** Any target word but "user" aims the effect at the target; nothing is refused for it. */
  lemma TargetWordLenient(parts: seq<string>, word: string)
    requires |parts| >= 5 && word != "user"
    ensures ParseDamageEffect(parts[1 := word]).Ok? <==> ParseDamageEffect(parts[1 := "target"]).Ok?
    ensures ParseDamageEffect(parts[1 := word]) == ParseDamageEffect(parts[1 := "target"])
    ensures ParseHealingEffect(parts[1 := word]) == ParseHealingEffect(parts[1 := "target"])
    ensures ParseStatusConditionEffect(parts[1 := word]) == ParseStatusConditionEffect(parts[1 := "target"])
    ensures ParseStatChangeEffect(parts[1 := word]) == ParseStatChangeEffect(parts[1 := "target"])
  {
  }

  /**
   * A damage or heal line with exactly four tokens passes the length check and then reads a fifth
   * token that is not there.
   */
  lemma FourTokenAmountLine(parts: seq<string>)
    requires |parts| == 4 && EduEffectParser.ParseAmount(parts[2]).Some? && ParseInt(parts[3]).Some?
    ensures ParseDamageEffect(parts) == Err(IndexOutOfBounds)
    ensures ParseHealingEffect(parts) == Err(IndexOutOfBounds)
  {
  }

  /**
   * Token 3 of a defense line is read as a number before the form is chosen: a fixed-count line
   * whose hit rate is not a number fails even when its count is one.
   */
  lemma DefenseHitRateFirst(parts: seq<string>, draws: Draws, pos: nat)
    requires |parts| >= 4 && ParseGuard(parts[1]).Some? && ParseInt(parts[3]).None?
    ensures ParseDefenseEffect(parts, draws, pos) == Parsed(Err(NumberFormat), pos)
  {
  }

  // ---------------------------------------------------------------------------------------------
  // The configuration syntax of every effect the parser can build, and the round trip.

  function TargetWord(toUser: bool): string
  {
    if toUser then "user" else "target"
  }

  /** The effects a configuration line can describe with a fixed count. */
  predicate Writable(e: Effect)
  {
    match e
    case Damage(_, _, value, hit, burn) => !burn && EduEffectParser.Int32(value) && EduEffectParser.Int32(hit)
    case Healing(_, _, value, hit) => EduEffectParser.Int32(value) && EduEffectParser.Int32(hit)
    case StatChange(_, _, stages, hit) => EduEffectParser.Int32(stages) && EduEffectParser.Int32(hit)
    case Inflict(_, condition, hit) => condition != NONE && EduEffectParser.Int32(hit)
    case Defense(_, count, hit) => EduEffectParser.Int32(count) && EduEffectParser.Int32(hit)
    case Repeat(_, _) => false
    case Continue(hit) => EduEffectParser.Int32(hit)
  }

  /** The tokens of the configuration line that describes `e`. */
  function Tokens(e: Effect): (r: seq<string>)
    requires Writable(e)
    ensures |r| >= 2 && r[|r| - 1] != ""
  {
    match e
    case Damage(toUser, kind, value, hit, _) =>
      ["damage", TargetWord(toUser), EduEffectParser.AmountWord(kind), IntToString(value), IntToString(hit)]
    case Healing(toUser, kind, value, hit) =>
      ["heal", TargetWord(toUser), EduEffectParser.AmountWord(kind), IntToString(value), IntToString(hit)]
    case StatChange(toUser, stat, stages, hit) =>
      ["inflictStatChange", TargetWord(toUser), Stats.Name(stat), IntToString(stages), IntToString(hit)]
    case Inflict(toUser, condition, hit) => ["inflictStatusCondition", TargetWord(toUser), LegacyConditions.Name(condition), IntToString(hit)]
    case Defense(g, count, hit) => ["protectStat", EduEffectParser.GuardWord(g), IntToString(count), IntToString(hit)]
    case Continue(hit) => ["continue", IntToString(hit)]
  }

  /** The configuration line that describes `e`. */
  function Render(e: Effect): string
    requires Writable(e)
  {
    Join(Tokens(e))
  }

  /** The tokens of a describable effect hold no space, so the line splits back into them. */
  lemma SplitRender(e: Effect)
    requires Writable(e)
    ensures Split(Render(e)) == Tokens(e)
  {
    var parts := Tokens(e);
    assert forall i :: 0 <= i < |parts| ==> ' ' !in parts[i] by {
      match e
      case StatChange(_, stat, _, _) =>
        match stat {
          case HP => case ATK => case DEF => case SPD => case PRC => case AGL =>
        }
      case Inflict(_, c, _) =>
        match c {
          case NONE => case WET => case BURN => case QUICKSAND => case SLEEP =>
        }
      case _ =>
    }
    SplitOfJoin(parts);
  }

  /** Every effect a line can describe is parsed back from its own line, without a draw. */
  lemma ParseRender(e: Effect, draws: Draws, pos: nat)
    requires Writable(e)
    ensures ParseEffect(Render(e), draws, pos) == Parsed(Ok(e), pos)
  {
    match e
    case Damage(_, _, _, _, _) => ParseRenderDamage(e, draws, pos);
    case Healing(_, _, _, _) => ParseRenderHealing(e, draws, pos);
    case StatChange(_, _, _, _) => ParseRenderStatChange(e, draws, pos);
    case Inflict(_, _, _) => ParseRenderInflict(e, draws, pos);
    case Defense(_, _, _) => ParseRenderDefense(e, draws, pos);
    case Continue(_) => ParseRenderContinue(e, draws, pos);
  }

  lemma ParseRenderDamage(e: Effect, draws: Draws, pos: nat)
    requires e.Damage? && Writable(e)
    ensures ParseEffect(Render(e), draws, pos) == Parsed(Ok(e), pos)
  {
    var parts := Tokens(e);
    SplitRender(e);
    AmountWords(parts[0], e.toUser, e.kind, e.value, e.hitRate);
    assert ParseDamageEffect(parts) == Ok(e);
    assert parts[0] == "damage";
  }

  /** The amount part of a damage or heal line parses back to the values it was written from. */
  lemma AmountWords(keyword: string, toUser: bool, kind: Amount, value: int, hit: int)
    requires EduEffectParser.Int32(value) && EduEffectParser.Int32(hit)
    ensures AmountLine([keyword, TargetWord(toUser), EduEffectParser.AmountWord(kind), IntToString(value), IntToString(hit)])
            == Ok((toUser, kind, value, hit))
  {
    var parts := [keyword, TargetWord(toUser), EduEffectParser.AmountWord(kind), IntToString(value), IntToString(hit)];
    ParseIntOfIntToString(value);
    ParseIntOfIntToString(hit);
    assert parts[1] == "user" <==> toUser;
    assert EduEffectParser.ParseAmount(parts[2]) == Some(kind);
    assert IntAt(parts, 3) == Ok(value) && IntAt(parts, 4) == Ok(hit);
  }

  lemma ParseRenderHealing(e: Effect, draws: Draws, pos: nat)
    requires e.Healing? && Writable(e)
    ensures ParseEffect(Render(e), draws, pos) == Parsed(Ok(e), pos)
  {
    var parts := Tokens(e);
    SplitRender(e);
    AmountWords(parts[0], e.toUser, e.kind, e.value, e.hitRate);
    assert ParseHealingEffect(parts) == Ok(e);
    assert parts[0] == "heal";
  }

  lemma ParseRenderStatChange(e: Effect, draws: Draws, pos: nat)
    requires e.StatChange? && Writable(e)
    ensures ParseEffect(Render(e), draws, pos) == Parsed(Ok(e), pos)
  {
    var parts := Tokens(e);
    SplitRender(e);
    Stats.FromStringName(e.stat);
    ParseIntOfIntToString(e.stages);
    ParseIntOfIntToString(e.hitRate);
    assert parts[1] == "user" <==> e.toUser;
    assert Stats.FromString(parts[2]) == Some(e.stat);
    assert IntAt(parts, 3) == Ok(e.stages) && IntAt(parts, 4) == Ok(e.hitRate);
    assert ParseStatChangeEffect(parts) == Ok(e);
    assert parts[0] == "inflictStatChange";
  }

  lemma ParseRenderInflict(e: Effect, draws: Draws, pos: nat)
    requires e.Inflict? && Writable(e)
    ensures ParseEffect(Render(e), draws, pos) == Parsed(Ok(e), pos)
  {
    var parts := Tokens(e);
    SplitRender(e);
    LegacyConditions.FromStringName(e.condition);
    ParseIntOfIntToString(e.hitRate);
    assert parts[1] == "user" <==> e.toUser;
    assert IntAt(parts, 3) == Ok(e.hitRate);
    assert ParseStatusConditionEffect(parts) == Ok(e);
    assert parts[0] == "inflictStatusCondition";
  }

  lemma ParseRenderContinue(e: Effect, draws: Draws, pos: nat)
    requires e.Continue? && Writable(e)
    ensures ParseEffect(Render(e), draws, pos) == Parsed(Ok(e), pos)
  {
    var parts := Tokens(e);
    SplitRender(e);
    ParseIntOfIntToString(e.hitRate);
    assert IntAt(parts, 1) == Ok(e.hitRate);
    assert ParseContinueEffect(parts) == Ok(e);
    assert parts[0] == "continue";
  }

  lemma ParseRenderDefense(e: Effect, draws: Draws, pos: nat)
    requires e.Defense? && Writable(e)
    ensures ParseEffect(Render(e), draws, pos) == Parsed(Ok(e), pos)
  {
    SplitRender(e);
    var parts := Tokens(e);
    ParseIntOfIntToString(e.count);
    ParseIntOfIntToString(e.hitRate);
    assert parts[2] != "random" by {
      if e.count < 0 {
        assert parts[2][0] == '-';
      } else {
        assert IsDigit(parts[2][0]);
      }
    }
  }

  // ---------------------------------------------------------------------------------------------
  // Repeat lines and action blocks.

  /** `parseAction`'s repeat branch: "repeat n" or "repeat random min max", always with an empty list. */
  function RepeatLine(line: string, draws: Draws, pos: nat): (r: Parsed)
    ensures r.pos == pos || (r.pos == pos + 1 && r.result.Ok?)
    ensures r.result.Ok? ==> r.result.value.Repeat? && r.result.value.body == []
    ensures |Split(line)| < 2 ==> r == Parsed(Err(Malformed), pos)
  {
    var parts := Split(line);
    if |parts| < 2 then Parsed(Err(Malformed), pos)
    else if parts[1] == "random" then
      if |parts| < 4 then Parsed(Err(Malformed), pos)
      else match (IntAt(parts, 2), IntAt(parts, 3))
        case (Err(f), _) => Parsed(Err(f), pos)
        case (Ok(_), Err(f)) => Parsed(Err(f), pos)
        case (Ok(min), Ok(max)) =>
          match RandomInt(draws(pos), min, max)
          case Err(f) => Parsed(Err(f), pos)
          case Ok(count) => Parsed(Ok(Repeat(count, [])), pos + 1)
    else match IntAt(parts, 1)
      case Err(f) => Parsed(Err(f), pos)
      case Ok(count) => Parsed(Ok(Repeat(count, [])), pos)
  }

  /** The last effect of the action is a repeat: the one an open repeat list belongs to. */
  predicate EndsInRepeat(effects: seq<Effect>)
  {
    effects != [] && effects[|effects| - 1].Repeat?
  }

  /** `repeatedEffects.add(effect)`: the list is the one held by the repeat last added to the action. */
  function AddToOpenRepeat(effects: seq<Effect>, e: Effect): (r: seq<Effect>)
    requires EndsInRepeat(effects)
    ensures |r| == |effects| && r[..|r| - 1] == effects[..|effects| - 1]
    ensures r[|r| - 1] == Repeat(effects[|effects| - 1].count, effects[|effects| - 1].body + [e])
  {
    var last := effects[|effects| - 1];
    effects[..|effects| - 1] + [Repeat(last.count, last.body + [e])]
  }

  /** Neither a block end nor a repeat: `parseAction` hands the line to the effect parser. */
  predicate EffectLine(line: string)
  {
    line != "end action" && line != "end repeat" && !StartsWith(line, "repeat ")
  }

  /** Where one line of an action body leaves the block: closed, failed, or still open (with or without a repeat open). */
  datatype Progress =
    | Finished(action: ActionDef)
    | Failed(error: Failure)
    | Open(action: ActionDef, repeating: bool)

  datatype Stepped = Stepped(progress: Progress, pos: nat)

  /** An open repeat is the last effect of the action under construction. */
  predicate RepeatIsLast(action: ActionDef, repeating: bool)
  {
    repeating ==> EndsInRepeat(action.effects)
  }

  /** The shape every action under construction keeps: no nested repeats, and an open repeat is the last effect. */
  predicate Building(action: ActionDef, repeating: bool)
  {
    Shallow(action.effects) && RepeatIsLast(action, repeating)
  }

  /** Adding an effect that is no repeat to an open repeat keeps the action shallow. */
  lemma AddToOpenRepeatShallow(effects: seq<Effect>, e: Effect)
    requires Shallow(effects) && EndsInRepeat(effects) && !e.Repeat?
    ensures Shallow(AddToOpenRepeat(effects, e)) && EndsInRepeat(AddToOpenRepeat(effects, e))
  {
    var r := AddToOpenRepeat(effects, e);
    forall i | 0 <= i < |r| && r[i].Repeat?
      ensures forall x :: x in r[i].body ==> !x.Repeat?
    {
      if i < |r| - 1 {
        assert r[i] == r[..|r| - 1][i] == effects[i];
      }
    }
  }

  /** Appending an effect that is no repeat, or a repeat with an empty list, keeps the action shallow. */
  lemma AppendShallow(effects: seq<Effect>, e: Effect)
    requires Shallow(effects) && (!e.Repeat? || e.body == [])
    ensures Shallow(effects + [e])
  {
    var r := effects + [e];
    forall i | 0 <= i < |r| && r[i].Repeat?
      ensures forall x :: x in r[i].body ==> !x.Repeat?
    {
      if i < |effects| {
        assert r[i] == effects[i];
      }
    }
  }

  /**
   * One pass of the effect loop of `parseAction` over `line`, with the action built so far and
   * whether a repeat is open.
   */
  function BodyStep(line: string, action: ActionDef, repeating: bool, draws: Draws, pos: nat): (r: Stepped)
    requires RepeatIsLast(action, repeating)
    ensures r.progress.Finished? <==> line == "end action"
    ensures r.progress.Finished? ==> r.progress.action == action
    ensures r.progress.Open? ==> r.progress.action.name == action.name
                                 && r.progress.action.element == action.element
                                 && RepeatIsLast(r.progress.action, r.progress.repeating)
    ensures r.pos >= pos
  {
    if line == "end action" then Stepped(Finished(action), pos)
    else if line == "end repeat" then
      if !repeating then Stepped(Failed(Malformed), pos)
      else Stepped(Open(action, false), pos)
    else if StartsWith(line, "repeat ") then
      var rep := RepeatLine(line, draws, pos);
      match rep.result
      case Err(f) => Stepped(Failed(f), rep.pos)
      case Ok(e) => Stepped(Open(action.(effects := action.effects + [e]), true), rep.pos)
    else
      var p := ParseEffect(line, draws, pos);
      match p.result
      case Err(f) => Stepped(Failed(f), p.pos)
      case Ok(e) =>
        if repeating then Stepped(Open(action.(effects := AddToOpenRepeat(action.effects, e)), true), p.pos)
        else Stepped(Open(action.(effects := action.effects + [e]), false), p.pos)
  }

  /** One line of an action body keeps the action under construction free of nested repeats. */
  lemma BodyStepShallow(line: string, action: ActionDef, repeating: bool, draws: Draws, pos: nat)
    requires Building(action, repeating)
    ensures var r := BodyStep(line, action, repeating, draws, pos);
            r.progress.Open? ==> Building(r.progress.action, r.progress.repeating)
  {
    if line != "end action" && line != "end repeat" {
      if StartsWith(line, "repeat ") {
        var rep := RepeatLine(line, draws, pos);
        if rep.result.Ok? {
          AppendShallow(action.effects, rep.result.value);
        }
      } else {
        var p := ParseEffect(line, draws, pos);
        if p.result.Ok? {
          if repeating {
            AddToOpenRepeatShallow(action.effects, p.result.value);
          } else {
            AppendShallow(action.effects, p.result.value);
          }
        }
      }
    }
  }

  /** A finished action block: the action and the index after its "end action" line. */
  datatype Block = Block(action: ActionDef, next: nat)

  datatype Scan = Scan(result: Result<Block, Failure>, pos: nat)

  /** The effect loop of `parseAction` from line `index` on; running out of lines is malformed. */
  function ActionBody(lines: seq<string>, index: nat, action: ActionDef, repeating: bool,
                      draws: Draws, pos: nat): (r: Scan)
    requires RepeatIsLast(action, repeating)
    ensures r.result.Ok? ==> index < r.result.value.next <= |lines|
    ensures r.result.Ok? ==> r.result.value.action.name == action.name
                             && r.result.value.action.element == action.element
    ensures r.pos >= pos
    decreases |lines| - index
  {
    if index >= |lines| then Scan(Err(Malformed), pos)
    else
      var s := BodyStep(lines[index], action, repeating, draws, pos);
      match s.progress
      case Finished(a) => Scan(Ok(Block(a, index + 1)), s.pos)
      case Failed(f) => Scan(Err(f), s.pos)
      case Open(a, open) => ActionBody(lines, index + 1, a, open, draws, s.pos)
  }

  /** A block read by the effect loop ends at its "end action" line. */
  lemma {:induction false} ActionBodyEndsAtEnd(lines: seq<string>, index: nat, action: ActionDef, repeating: bool,
                                               draws: Draws, pos: nat)
    requires RepeatIsLast(action, repeating)
    ensures var r := ActionBody(lines, index, action, repeating, draws, pos);
            r.result.Ok? ==> lines[r.result.value.next - 1] == "end action"
    decreases |lines| - index
  {
    if index < |lines| {
      ActionBodyUnfolds(lines, index, action, repeating, draws, pos);
      var s := BodyStep(lines[index], action, repeating, draws, pos);
      if s.progress.Finished? {
        assert lines[index] == "end action";
      } else if s.progress.Open? {
        ActionBodyEndsAtEnd(lines, index + 1, s.progress.action, s.progress.repeating, draws, s.pos);
      }
    }
  }

  /**
   * `parseAction(lines, start)`: the header "action <name> <element>" (split into at most three
   * parts), then the body.
   */
  function ActionBlock(lines: seq<string>, start: nat, draws: Draws, pos: nat): (r: Scan)
    requires start < |lines|
    ensures r.result.Ok? ==> start < r.result.value.next <= |lines|
    ensures r.result.Ok? ==> var header := SplitLimit(lines[start], 3);
                             |header| == 3 && r.result.value.action.name == header[1]
                             && Elements.FromString(header[2]) == Some(r.result.value.action.element)
    ensures r.pos >= pos
  {
    var header := SplitLimit(lines[start], 3);
    if |header| < 3 then Scan(Err(Malformed), pos)
    else match Elements.FromString(header[2])
      case None => Scan(Err(Malformed), pos)
      case Some(element) => ActionBody(lines, start + 1, ActionDef(header[1], element, []), false, draws, pos)
  }

  /** The effect loop keeps the action free of nested repeats, so the action it finishes has none. */
  lemma {:induction false} ActionBodyShallow(lines: seq<string>, index: nat, action: ActionDef, repeating: bool,
                                             draws: Draws, pos: nat)
    requires Building(action, repeating)
    ensures var r := ActionBody(lines, index, action, repeating, draws, pos);
            r.result.Ok? ==> Shallow(r.result.value.action.effects)
    decreases |lines| - index
  {
    if index < |lines| {
      var s := BodyStep(lines[index], action, repeating, draws, pos);
      BodyStepShallow(lines[index], action, repeating, draws, pos);
      if s.progress.Open? {
        ActionBodyShallow(lines, index + 1, s.progress.action, s.progress.repeating, draws, s.pos);
      }
    }
  }

  /** Every action block read has no repeat nested in a repeat. */
  lemma ActionBlockShallow(lines: seq<string>, start: nat, draws: Draws, pos: nat)
    requires start < |lines|
    ensures var r := ActionBlock(lines, start, draws, pos);
            r.result.Ok? ==> Shallow(r.result.value.action.effects)
  {
    var header := SplitLimit(lines[start], 3);
    if |header| == 3 && Elements.FromString(header[2]).Some? {
      ActionBodyShallow(lines, start + 1, ActionDef(header[1], Elements.FromString(header[2]).value, []), false, draws, pos);
    }
  }

  /** "end repeat" with no repeat open is refused; with one open it closes it and leaves the action alone. */
  lemma EndRepeatNeedsRepeat(action: ActionDef, repeating: bool, draws: Draws, pos: nat)
    requires Building(action, repeating)
    ensures BodyStep("end repeat", action, repeating, draws, pos)
            == if repeating then Stepped(Open(action, false), pos) else Stepped(Failed(Malformed), pos)
  {
  }

  /**
   * An effect line read while a repeat is open ends up in that repeat's list: the earlier effects
   * and the repeat's count stay as they were, and the repeat stays open.
   */
  lemma OpenRepeatCollects(line: string, action: ActionDef, draws: Draws, pos: nat)
    requires Building(action, true) && EffectLine(line) && ParseEffect(line, draws, pos).result.Ok?
    ensures var p := ParseEffect(line, draws, pos);
            var last := action.effects[|action.effects| - 1];
            var s := BodyStep(line, action, true, draws, pos);
            s.progress.Open? && s.progress.repeating && s.pos == p.pos
            && |s.progress.action.effects| == |action.effects|
            && s.progress.action.effects[..|action.effects| - 1] == action.effects[..|action.effects| - 1]
            && s.progress.action.effects[|action.effects| - 1] == Repeat(last.count, last.body + [p.result.value])
  {
  }

  /** With no repeat open, an effect line is appended to the action's own effects. */
  lemma DirectEffectAppended(line: string, action: ActionDef, draws: Draws, pos: nat)
    requires Building(action, false) && EffectLine(line) && ParseEffect(line, draws, pos).result.Ok?
    ensures var p := ParseEffect(line, draws, pos);
            BodyStep(line, action, false, draws, pos)
            == Stepped(Open(action.(effects := action.effects + [p.result.value]), false), p.pos)
  {
  }

  /** A repeat line adds a repeat with an empty list to the action at once and opens it, even over an open one. */
  lemma RepeatAddedAtOnce(line: string, action: ActionDef, repeating: bool, draws: Draws, pos: nat)
    requires Building(action, repeating) && line != "end action" && line != "end repeat" && StartsWith(line, "repeat ")
    requires RepeatLine(line, draws, pos).result.Ok?
    ensures var rep := RepeatLine(line, draws, pos);
            BodyStep(line, action, repeating, draws, pos)
            == Stepped(Open(action.(effects := action.effects + [Repeat(rep.result.value.count, [])]), true), rep.pos)
  {
  }

  // ---------------------------------------------------------------------------------------------
  // The whole file.

  /** The loader's map and list after parsing, the failure that stopped it (if any) and the draws used. */
  datatype Loaded = Loaded(actions: map<string, ActionDef>, monsters: seq<MonsterDef<ActionDef>>, failure: Option<Failure>,
                           pos: nat)

  /** What one section of the file (an action block or a monster line) leaves behind. */
  datatype Section = Section(outcome: Result<nat, Failure>, actions: map<string, ActionDef>,
                             monsters: seq<MonsterDef<ActionDef>>, pos: nat)

  /** Every stored action is stored under its own name and holds no nested repeat. */
  predicate WellStored(actions: map<string, ActionDef>)
  {
    forall key :: key in actions ==> actions[key].name == key && Shallow(actions[key].effects)
  }

  /**
   * One pass of the top-level loop of `parseConfiguration` at line `index`: an action block is
   * stored under its name (a later block of the same name replaces it), a monster line appended; on
   * success the index of the next section.
   */
  function SectionStep(lines: seq<string>, index: nat, actions: map<string, ActionDef>,
                       monsters: seq<MonsterDef<ActionDef>>, draws: Draws, pos: nat): (r: Section)
    requires index < |lines|
    ensures r.outcome.Ok? ==> index < r.outcome.value <= |lines|
    ensures r.outcome.Err? ==> r.actions == actions && r.monsters == monsters
    ensures actions.Keys <= r.actions.Keys
    ensures r.monsters == monsters || (|r.monsters| == |monsters| + 1 && r.monsters[..|monsters|] == monsters)
    ensures r.pos >= pos
  {
    if StartsWith(lines[index], "action ") then
      var s := ActionBlock(lines, index, draws, pos);
      match s.result
      case Err(f) => Section(Err(f), actions, monsters, s.pos)
      case Ok(block) => Section(Ok(block.next), actions[block.action.name := block.action], monsters, s.pos)
    else if StartsWith(lines[index], "monster ") then
      match MonsterLine(lines[index], actions)
      case Err(f) => Section(Err(f), actions, monsters, pos)
      case Ok(m) =>
        assert (monsters + [m])[..|monsters|] == monsters;
        Section(Ok(index + 1), actions, monsters + [m], pos)
    else Section(Err(Malformed), actions, monsters, pos)
  }

  /** The top-level loop of `parseConfiguration` over the kept lines, from `index` on. */
  function Configure(lines: seq<string>, index: nat, actions: map<string, ActionDef>,
                     monsters: seq<MonsterDef<ActionDef>>, draws: Draws, pos: nat): (r: Loaded)
    ensures r.pos >= pos
    decreases |lines| - index
  {
    if index >= |lines| then Loaded(actions, monsters, None, pos)
    else
      var s := SectionStep(lines, index, actions, monsters, draws, pos);
      match s.outcome
      case Err(f) => Loaded(s.actions, s.monsters, Some(f), s.pos)
      case Ok(next) => Configure(lines, next, s.actions, s.monsters, draws, s.pos)
  }

  /**
   * Every action the loader holds, before or after a failure, is stored under its own name and
   * has no repeat nested in a repeat, so the queue built from it holds no repeat.
   */
  lemma {:induction false} ConfigureStoresShallow(lines: seq<string>, index: nat, actions: map<string, ActionDef>,
                                                  monsters: seq<MonsterDef<ActionDef>>, draws: Draws, pos: nat)
    requires WellStored(actions)
    ensures WellStored(Configure(lines, index, actions, monsters, draws, pos).actions)
    decreases |lines| - index
  {
    if index < |lines| {
      var s := SectionStep(lines, index, actions, monsters, draws, pos);
      if StartsWith(lines[index], "action ") {
        ActionBlockShallow(lines, index, draws, pos);
      }
      assert WellStored(s.actions);
      if s.outcome.Ok? {
        ConfigureStoresShallow(lines, s.outcome.value, s.actions, s.monsters, draws, s.pos);
      }
    }
  }

  /** A kept line that opens neither an action nor a monster stops the load. */
  lemma StrayLineRefused(lines: seq<string>, index: nat, actions: map<string, ActionDef>,
                         monsters: seq<MonsterDef<ActionDef>>, draws: Draws, pos: nat)
    requires index < |lines| && !StartsWith(lines[index], "action ") && !StartsWith(lines[index], "monster ")
    ensures Configure(lines, index, actions, monsters, draws, pos) == Loaded(actions, monsters, Some(Malformed), pos)
  {
  }

  // ---------------------------------------------------------------------------------------------
  // The loader's steps as they run, drawing from the competition's generator.

  /** `parseDefenseEffect(parts)` as it runs: the random form draws the count once every token has been read. */
  method ParseDefenseLine(parts: seq<string>, rng: RandomSource) returns (r: Result<Effect, Failure>)
    modifies rng
    ensures var p := ParseDefenseEffect(parts, rng.draws, old(rng.used));
            r == p.result && rng.used == p.pos
  {
    if |parts| < 4 || ParseGuard(parts[1]).None? || IntAt(parts, 3).Err? || parts[2] != "random" || |parts| < 6 {
      return ParseDefenseEffect(parts, rng.draws, rng.used).result;
    }
    var guard := ParseGuard(parts[1]).value;
    var min := IntAt(parts, 3);
    var max := IntAt(parts, 4);
    var hit := IntAt(parts, 5);
    if max.Err? || hit.Err? {
      return ParseDefenseEffect(parts, rng.draws, rng.used).result;
    }
    var count := rng.GetRandomInt(min.value, max.value);
    match count
    case Err(f) => r := Err(f);
    case Ok(c) => r := Ok(Defense(guard, c, hit.value));
  }

  /** `parseEffect(line)` as the loader calls it. */
  method ParseEffectLine(line: string, rng: RandomSource) returns (r: Result<Effect, Failure>)
    modifies rng
    ensures var p := ParseEffect(line, rng.draws, old(rng.used));
            r == p.result && rng.used == p.pos
  {
    var parts := Split(line);
    if |parts| >= 2 && parts[0] == "protectStat" {
      assert ParseEffect(line, rng.draws, rng.used) == ParseDefenseEffect(parts, rng.draws, rng.used);
      r := ParseDefenseLine(parts, rng);
    } else {
      assert ParseEffect(line, rng.draws, rng.used).pos == rng.used;
      r := ParseEffect(line, rng.draws, rng.used).result;
    }
  }

  /** The repeat branch of `parseAction` as it runs: the random form draws the count. */
  method ParseRepeatLine(line: string, rng: RandomSource) returns (r: Result<Effect, Failure>)
    modifies rng
    ensures var p := RepeatLine(line, rng.draws, old(rng.used));
            r == p.result && rng.used == p.pos
  {
    var parts := Split(line);
    if |parts| < 2 {
      return Err(Malformed);
    }
    if parts[1] == "random" {
      if |parts| < 4 {
        return Err(Malformed);
      }
      var min := IntAt(parts, 2);
      if min.Err? {
        return Err(min.error);
      }
      var max := IntAt(parts, 3);
      if max.Err? {
        return Err(max.error);
      }
      var count := rng.GetRandomInt(min.value, max.value);
      if count.Err? {
        return Err(count.error);
      }
      return Ok(Repeat(count.value, []));
    }
    var count := IntAt(parts, 1);
    if count.Err? {
      return Err(count.error);
    }
    return Ok(Repeat(count.value, []));
  }

  /** One pass of the effect loop of `parseAction`, drawing from `rng`. */
  method StepAction(line: string, action: ActionDef, repeating: bool, rng: RandomSource)
    returns (progress: Progress)
    requires RepeatIsLast(action, repeating)
    modifies rng
    ensures var s := BodyStep(line, action, repeating, rng.draws, old(rng.used));
            progress == s.progress && rng.used == s.pos
  {
    if line == "end action" {
      return Finished(action);
    } else if line == "end repeat" {
      if !repeating {
        return Failed(Malformed);
      }
      return Open(action, false);
    } else if StartsWith(line, "repeat ") {
      var repeat := ParseRepeatLine(line, rng);
      if repeat.Err? {
        return Failed(repeat.error);
      }
      return Open(action.(effects := action.effects + [repeat.value]), true);
    }
    var effect := ParseEffectLine(line, rng);
    if effect.Err? {
      return Failed(effect.error);
    }
    if repeating {
      return Open(action.(effects := AddToOpenRepeat(action.effects, effect.value)), true);
    }
    return Open(action.(effects := action.effects + [effect.value]), false);
  }

  /** One step of `ActionBody`: where the line at `index` leaves the block. */
  lemma ActionBodyUnfolds(lines: seq<string>, index: nat, action: ActionDef, repeating: bool, draws: Draws, pos: nat)
    requires RepeatIsLast(action, repeating) && index < |lines|
    ensures var s := BodyStep(lines[index], action, repeating, draws, pos);
            ActionBody(lines, index, action, repeating, draws, pos)
            == if s.progress.Finished? then Scan(Ok(Block(s.progress.action, index + 1)), s.pos)
               else if s.progress.Failed? then Scan(Err(s.progress.error), s.pos)
               else ActionBody(lines, index + 1, s.progress.action, s.progress.repeating, draws, s.pos)
  {
  }

  /** One pass of the effect loop, stated as the step it takes through `ActionBody`. */
  method ScanLine(lines: seq<string>, index: nat, action: ActionDef, repeating: bool, rng: RandomSource)
    returns (progress: Progress)
    requires RepeatIsLast(action, repeating) && index < |lines|
    modifies rng
    ensures progress.Open? ==> RepeatIsLast(progress.action, progress.repeating)
    ensures ActionBody(lines, index, action, repeating, rng.draws, old(rng.used))
            == if progress.Finished? then Scan(Ok(Block(progress.action, index + 1)), rng.used)
               else if progress.Failed? then Scan(Err(progress.error), rng.used)
               else ActionBody(lines, index + 1, progress.action, progress.repeating, rng.draws, rng.used)
  {
    ActionBodyUnfolds(lines, index, action, repeating, rng.draws, rng.used);
    progress := StepAction(lines[index], action, repeating, rng);
  }

  /** The effect loop of `parseAction` from line `index` on, drawing from `rng`. */
  method ScanBody(lines: seq<string>, index: nat, action: ActionDef, repeating: bool, rng: RandomSource)
    returns (block: Result<Block, Failure>)
    requires RepeatIsLast(action, repeating)
    modifies rng
    ensures var s := ActionBody(lines, index, action, repeating, rng.draws, old(rng.used));
            block == s.result && rng.used == s.pos
  {
    var current, open, at := action, repeating, index;
    ghost var goal := ActionBody(lines, index, action, repeating, rng.draws, rng.used);
    while at < |lines|
      invariant RepeatIsLast(current, open)
      invariant ActionBody(lines, at, current, open, rng.draws, rng.used) == goal
      decreases |lines| - at
    {
      var step := ScanLine(lines, at, current, open, rng);
      match step {
        case Finished(a) => return Ok(Block(a, at + 1));
        case Failed(f) => return Err(f);
        case Open(a, o) => current, open := a, o;
      }
      at := at + 1;
    }
    return Err(Malformed);
  }

  /** The reading part of `parseAction`: header, then the effect loop up to "end action", drawing from `rng`. */
  method ScanAction(lines: seq<string>, start: nat, rng: RandomSource) returns (block: Result<Block, Failure>)
    requires start < |lines|
    modifies rng
    ensures var s := ActionBlock(lines, start, rng.draws, old(rng.used));
            block == s.result && rng.used == s.pos
  {
    var header := SplitLimit(lines[start], 3);
    if |header| < 3 {
      return Err(Malformed);
    }
    var element := Elements.FromString(header[2]);
    if element.None? {
      return Err(Malformed);
    }
    block := ScanBody(lines, start + 1, ActionDef(header[1], element.value, []), false, rng);
  }

  class ConfigurationLoader {
    var actions: map<string, ActionDef>
    var monsters: seq<MonsterDef<ActionDef>>
    const random: RandomSource

    constructor (random: RandomSource)
      ensures actions == map[] && monsters == [] && this.random == random
    {
      actions := map[];
      monsters := [];
      this.random := random;
    }

    /** `loadConfiguration` once the file's lines are read: the previous data is cleared, then the lines parsed. */
    method Load(lines: seq<string>) returns (failure: Option<Failure>)
      modifies this, random
      ensures var r := Configure(Filtered(lines), 0, map[], [], random.draws, old(random.used));
              actions == r.actions && monsters == r.monsters && failure == r.failure && random.used == r.pos
    {
      actions, monsters := map[], [];
      failure := ParseConfiguration(lines);
    }

    /** `parseConfiguration(lines)` */
    method ParseConfiguration(lines: seq<string>) returns (failure: Option<Failure>)
      modifies this, random
      ensures var r := Configure(Filtered(lines), 0, old(actions), old(monsters), random.draws, old(random.used));
              actions == r.actions && monsters == r.monsters && failure == r.failure && random.used == r.pos
    {
      var filtered := FilterLines(lines);
      ghost var goal := Configure(filtered, 0, actions, monsters, random.draws, random.used);
      var index := 0;
      while index < |filtered|
        invariant 0 <= index <= |filtered|
        invariant Configure(filtered, index, actions, monsters, random.draws, random.used) == goal
        decreases |filtered| - index
      {
        var outcome := ParseSection(filtered, index);
        if outcome.Err? {
          return Some(outcome.error);
        }
        index := outcome.value;
      }
      return None;
    }

    /** One pass of the top-level loop of `parseConfiguration`: an action block or a monster line. */
    method ParseSection(lines: seq<string>, index: nat) returns (outcome: Result<nat, Failure>)
      requires index < |lines|
      modifies this, random
      ensures var s := SectionStep(lines, index, old(actions), old(monsters), random.draws, old(random.used));
              outcome == s.outcome && actions == s.actions && monsters == s.monsters && random.used == s.pos
    {
      if StartsWith(lines[index], "action ") {
        outcome := ParseAction(lines, index);
      } else if StartsWith(lines[index], "monster ") {
        var failed := ParseMonster(lines, index);
        outcome := if failed.Some? then Err(failed.value) else Ok(index + 1);
      } else {
        outcome := Err(Malformed);
      }
    }

    /** `parseAction(lines, startIndex)`: the block is stored under its name at "end action"; the index after it, or the failure. */
    method ParseAction(lines: seq<string>, start: nat) returns (next: Result<nat, Failure>)
      requires start < |lines|
      modifies this`actions, random
      ensures var s := ActionBlock(lines, start, random.draws, old(random.used));
              random.used == s.pos
              && (s.result.Ok? ==> next == Ok(s.result.value.next)
                                   && actions == old(actions)[s.result.value.action.name := s.result.value.action])
              && (s.result.Err? ==> next == Err(s.result.error) && actions == old(actions))
    {
      var block := ScanAction(lines, start, random);
      if block.Err? {
        return Err(block.error);
      }
      actions := actions[block.value.action.name := block.value.action];
      next := Ok(block.value.next);
    }

    /** `parseMonster(lines, startIndex)`: the monster is added, or the failure is reported. */
    method ParseMonster(lines: seq<string>, start: nat) returns (failure: Option<Failure>)
      requires start < |lines|
      modifies this`monsters
      ensures var r := MonsterLine(lines[start], actions);
              (r.Ok? ==> failure == None && monsters == old(monsters) + [r.value])
              && (r.Err? ==> failure == Some(r.error) && monsters == old(monsters))
    {
      var read := ReadMonster(lines[start], actions);
      if read.Err? {
        return Some(read.error);
      }
      monsters := monsters + [read.value];
      return None;
    }
  }
}
