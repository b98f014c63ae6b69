/**
 * The newer snapshot's `ConfigurationLoader`, from the lines of a file onwards: blank lines are
 * dropped, the rest trimmed, and the lines are read as action blocks and monster lines. Actions
 * and monsters are kept as values; the loader's map and list are fields it reassigns.
 */
module EduConfig {
  import opened Wrappers
  import opened Failures
  import opened Text
  import Elements
  import opened EduEffect
  import opened Randomness
  import opened EduEffectParser
  import opened Loading

  /** What `new Action(name, element)` and its `addEffect` calls describe. */
  datatype ActionDef = ActionDef(name: string, element: Elements.Element, effects: seq<Effect>)

  // ---------------------------------------------------------------------------------------------
  // Repeat lines and action blocks.

  /**
   * `parseRepeatEffect`: "repeat n" or "repeat random min max". The repeat is built on the list
   * passed in, which is a fresh empty one when no repeat is pending.
   */
  function RepeatLine(line: string, pending: Option<seq<Effect>>, draws: Draws, pos: nat): (r: Parsed)
    ensures r.pos == pos || (r.pos == pos + 1 && r.result.Ok?)
    ensures r.result.Ok? ==> r.result.value.Repeat?
                             && r.result.value.body == (if pending.Some? then pending.value else [])
    ensures |Split(line)| < 2 ==> r == Parsed(Err(Malformed), pos)
  {
    var parts := Split(line);
    var body := if pending.Some? then pending.value else [];
    if |parts| < 2 then Parsed(Err(Malformed), pos)
    else if parts[1] == "random" then
      if |parts| < 4 then Parsed(Err(Malformed), pos)
      else match (IntAt(parts, 2), IntAt(parts, 3))
        case (Err(f), _) => Parsed(Err(f), pos)
        case (Ok(_), Err(f)) => Parsed(Err(f), pos)
        case (Ok(min), Ok(max)) =>
          match RandomInt(draws(pos), min, max)
          case Err(f) => Parsed(Err(f), pos)
          case Ok(count) => Parsed(Ok(Repeat(count, body)), pos + 1)
    else match IntAt(parts, 1)
      case Err(f) => Parsed(Err(f), pos)
      case Ok(count) => Parsed(Ok(Repeat(count, body)), pos)
  }

  /** Neither a block end nor a repeat: `parseAction` hands the line to the effect parser. */
  predicate EffectLine(line: string)
  {
    line != "end action" && line != "end repeat" && !StartsWith(line, "repeat ")
  }

  /** Where one line of an action body leaves the block: closed, failed, or still open. */
  datatype Progress =
    | Finished(action: ActionDef)
    | Failed(error: Failure)
    | Open(action: ActionDef, pending: Option<seq<Effect>>)

  datatype Stepped = Stepped(progress: Progress, pos: nat)

  /**
   * One pass of the effect loop of `parseAction` over `line`, with the action built so far and the
   * pending repeat list (None while no repeat is open).
   */
  function BodyStep(line: string, action: ActionDef, pending: Option<seq<Effect>>, draws: Draws, pos: nat): (r: Stepped)
    ensures r.progress.Finished? <==> line == "end action"
    ensures r.progress.Finished? ==> r.progress.action == action
    ensures r.progress.Open? ==> r.progress.action.name == action.name
                                     && r.progress.action.element == action.element
    ensures r.pos >= pos
  {
    if line == "end action" then Stepped(Finished(action), pos)
    else if line == "end repeat" then
      if pending.None? then Stepped(Failed(Malformed), pos)
      else Stepped(Open(action, None), pos)
    else if StartsWith(line, "repeat ") then
      var rep := RepeatLine(line, pending, draws, pos);
      match rep.result
      case Err(f) => Stepped(Failed(f), rep.pos)
      case Ok(e) => Stepped(Open(action.(effects := action.effects + [e]), Some([])), rep.pos)
    else
      var p := ParseEffect(line, draws, pos);
      match p.result
      case Err(f) => Stepped(Failed(f), p.pos)
      case Ok(e) =>
        if pending.Some? then Stepped(Open(action, Some(pending.value + [e])), p.pos)
        else Stepped(Open(action.(effects := action.effects + [e]), None), p.pos)
  }

  /** A finished action block: the action and the index after its "end action" line. */
  datatype Block = Block(action: ActionDef, next: nat)

  datatype Scan = Scan(result: Result<Block, Failure>, pos: nat)

  /** The effect loop of `parseAction` from line `index` on; running out of lines is malformed. */
  function ActionBody(lines: seq<string>, index: nat, action: ActionDef, pending: Option<seq<Effect>>,
                      draws: Draws, pos: nat): (r: Scan)
    ensures r.result.Ok? ==> index < r.result.value.next <= |lines| && lines[r.result.value.next - 1] == "end action"
    ensures r.result.Ok? ==> r.result.value.action.name == action.name
                             && r.result.value.action.element == action.element
    ensures r.pos >= pos
    decreases |lines| - index
  {
    if index >= |lines| then Scan(Err(Malformed), pos)
    else
      var s := BodyStep(lines[index], action, pending, draws, pos);
      match s.progress
      case Finished(a) => Scan(Ok(Block(a, index + 1)), s.pos)
      case Failed(f) => Scan(Err(f), s.pos)
      case Open(a, p) => ActionBody(lines, index + 1, a, p, draws, s.pos)
  }

  /** `parseAction(lines, start)`: the header "action <name> <element>" (split into at most three parts), then the body. */
  function ActionBlock(lines: seq<string>, start: nat, draws: Draws, pos: nat): (r: Scan)
    requires start < |lines|
    ensures r.result.Ok? ==> start < r.result.value.next <= |lines|
    ensures r.result.Ok? ==> var header := SplitLimit(lines[start], 3);
                             |header| == 3 && r.result.value.action.name == header[1]
                             && Elements.FromString(header[2]) == Some(r.result.value.action.element)
    ensures r.pos >= pos
  {
    var header := SplitLimit(lines[start], 3);
    if |header| < 3 then Scan(Err(Malformed), pos)
    else match Elements.FromString(header[2])
      case None => Scan(Err(Malformed), pos)
      case Some(element) => ActionBody(lines, start + 1, ActionDef(header[1], element, []), None, draws, pos)
  }

  /** "end repeat" with no repeat open is refused; with one open it closes it and leaves the action alone. */
  lemma EndRepeatNeedsRepeat(action: ActionDef, pending: Option<seq<Effect>>, draws: Draws, pos: nat)
    ensures BodyStep("end repeat", action, pending, draws, pos)
            == if pending.None? then Stepped(Failed(Malformed), pos) else Stepped(Open(action, None), pos)
  {
  }

  /**
   * A repeat line is appended to the action at once, built on the list that was pending (an empty
   * one if none was), and a fresh empty list becomes the pending one.
   */
  lemma RepeatOpensFreshList(line: string, action: ActionDef, pending: Option<seq<Effect>>, draws: Draws, pos: nat)
    requires line != "end repeat" && StartsWith(line, "repeat ")
    requires RepeatLine(line, pending, draws, pos).result.Ok?
    ensures var s := BodyStep(line, action, pending, draws, pos);
            var rep := RepeatLine(line, pending, draws, pos).result.value;
            s.progress == Open(action.(effects := action.effects + [rep]), Some([]))
            && rep.Repeat? && rep.body == (if pending.Some? then pending.value else [])
  {
  }

  /**
   * An effect line read while a repeat is open goes to the pending list and not to the action; as
   * the stored repeat was built on a different list, these effects never reach the action.
   */
  lemma PendingEffectDetached(line: string, action: ActionDef, pending: seq<Effect>, draws: Draws, pos: nat)
    requires EffectLine(line) && ParseEffect(line, draws, pos).result.Ok?
    ensures var p := ParseEffect(line, draws, pos);
            BodyStep(line, action, Some(pending), draws, pos)
            == Stepped(Open(action, Some(pending + [p.result.value])), p.pos)
  {
  }

  /** With no repeat open, an effect line is appended to the action's own effects. */
  lemma DirectEffectAppended(line: string, action: ActionDef, draws: Draws, pos: nat)
    requires EffectLine(line) && ParseEffect(line, draws, pos).result.Ok?
    ensures var p := ParseEffect(line, draws, pos);
            BodyStep(line, action, None, draws, pos)
            == Stepped(Open(action.(effects := action.effects + [p.result.value]), None), p.pos)
  {
  }

  // ---------------------------------------------------------------------------------------------
  // The whole file.

  /** The loader's map and list after parsing, the failure that stopped it (if any) and the draws used. */
  datatype Loaded = Loaded(actions: map<string, ActionDef>, monsters: seq<MonsterDef<ActionDef>>, failure: Option<Failure>, pos: nat)

  /** What one section of the file (an action block or a monster line) leaves behind. */
  datatype Section = Section(outcome: Result<nat, Failure>, actions: map<string, ActionDef>, monsters: seq<MonsterDef<ActionDef>>,
                             pos: nat)

  /**
   * One pass of the top-level loop of `parseConfiguration` at line `index`: an action block is
   * stored under its name (a later block of the same name replaces it), a monster line appended; on
   * success the index of the next section.
   */
  function SectionStep(lines: seq<string>, index: nat, actions: map<string, ActionDef>, monsters: seq<MonsterDef<ActionDef>>,
                       draws: Draws, pos: nat): (r: Section)
    requires index < |lines|
    ensures r.outcome.Ok? ==> index < r.outcome.value <= |lines|
    ensures r.outcome.Err? ==> r.actions == actions && r.monsters == monsters
    ensures actions.Keys <= r.actions.Keys
    ensures r.monsters == monsters || (|r.monsters| == |monsters| + 1 && r.monsters[..|monsters|] == monsters)
    ensures r.pos >= pos
  {
    if StartsWith(lines[index], "action ") then
      var s := ActionBlock(lines, index, draws, pos);
      match s.result
      case Err(f) => Section(Err(f), actions, monsters, s.pos)
      case Ok(block) => Section(Ok(block.next), actions[block.action.name := block.action], monsters, s.pos)
    else if StartsWith(lines[index], "monster ") then
      match MonsterLine(lines[index], actions)
      case Err(f) => Section(Err(f), actions, monsters, pos)
      case Ok(m) =>
        assert (monsters + [m])[..|monsters|] == monsters;
        Section(Ok(index + 1), actions, monsters + [m], pos)
    else Section(Err(Malformed), actions, monsters, pos)
  }

  /** The top-level loop of `parseConfiguration` over the kept lines, from `index` on. */
  function Configure(lines: seq<string>, index: nat, actions: map<string, ActionDef>, monsters: seq<MonsterDef<ActionDef>>,
                     draws: Draws, pos: nat): (r: Loaded)
    ensures r.pos >= pos
    decreases |lines| - index
  {
    if index >= |lines| then Loaded(actions, monsters, None, pos)
    else
      var s := SectionStep(lines, index, actions, monsters, draws, pos);
      match s.outcome
      case Err(f) => Loaded(s.actions, s.monsters, Some(f), s.pos)
      case Ok(next) => Configure(lines, next, s.actions, s.monsters, draws, s.pos)
  }

  /** A kept line that opens neither an action nor a monster stops the load. */
  lemma StrayLineRefused(lines: seq<string>, index: nat, actions: map<string, ActionDef>, monsters: seq<MonsterDef<ActionDef>>,
                         draws: Draws, pos: nat)
    requires index < |lines| && !StartsWith(lines[index], "action ") && !StartsWith(lines[index], "monster ")
    ensures Configure(lines, index, actions, monsters, draws, pos) == Loaded(actions, monsters, Some(Malformed), pos)
  {
  }

  /**
   * Nothing read is ever taken back: the monsters read before a failure stay in the list, in order,
   * and every action name defined stays defined.
   */
  lemma {:induction false} ConfigureKeepsEarlier(lines: seq<string>, index: nat, actions: map<string, ActionDef>,
                                                 monsters: seq<MonsterDef<ActionDef>>, draws: Draws, pos: nat)
    ensures var r := Configure(lines, index, actions, monsters, draws, pos);
            |monsters| <= |r.monsters| && r.monsters[..|monsters|] == monsters && actions.Keys <= r.actions.Keys
    decreases |lines| - index
  {
    if index < |lines| {
      var s := SectionStep(lines, index, actions, monsters, draws, pos);
      if s.outcome.Ok? {
        ConfigureKeepsEarlier(lines, s.outcome.value, s.actions, s.monsters, draws, s.pos);
        var r := Configure(lines, index, actions, monsters, draws, pos);
        assert r == Configure(lines, s.outcome.value, s.actions, s.monsters, draws, s.pos);
        assert r.monsters[..|monsters|] == r.monsters[..|s.monsters|][..|monsters|];
      }
    }
  }

  /** `parseRepeatEffect(lines, index, action, repeatedEffects)`: the action with the repeat appended, drawing from the loader's generator `rng`. */
  method ParseRepeatEffect(line: string, action: ActionDef, pending: Option<seq<Effect>>,
                           rng: RandomSource)
    returns (r: Result<ActionDef, Failure>)
    modifies rng
    ensures var p := RepeatLine(line, pending, rng.draws, old(rng.used));
            rng.used == p.pos
            && (p.result.Ok? ==> r == Ok(action.(effects := action.effects + [p.result.value])))
            && (p.result.Err? ==> r == Err(p.result.error))
  {
    var parts := Split(line);
    if |parts| < 2 {
      return Err(Malformed);
    }
    var body := if pending.Some? then pending.value else [];
    var count: int;
    if parts[1] == "random" {
      if |parts| < 4 {
        return Err(Malformed);
      }
      var min := IntAt(parts, 2);
      if min.Err? {
        return Err(min.error);
      }
      var max := IntAt(parts, 3);
      if max.Err? {
        return Err(max.error);
      }
      var drawn := rng.GetRandomInt(min.value, max.value);
      if drawn.Err? {
        return Err(drawn.error);
      }
      count := drawn.value;
    } else {
      var fixed := IntAt(parts, 1);
      if fixed.Err? {
        return Err(fixed.error);
      }
      count := fixed.value;
    }
    r := Ok(action.(effects := action.effects + [Repeat(count, body)]));
  }

  /** One pass of the effect loop of `parseAction`, drawing from `rng`. */
  method StepAction(line: string, action: ActionDef, pending: Option<seq<Effect>>, rng: RandomSource)
    returns (progress: Progress)
    modifies rng
    ensures var s := BodyStep(line, action, pending, rng.draws, old(rng.used));
            progress == s.progress && rng.used == s.pos
  {
    if line == "end action" {
      return Finished(action);
    } else if line == "end repeat" {
      if pending.None? {
        return Failed(Malformed);
      }
      return Open(action, None);
    } else if StartsWith(line, "repeat ") {
      var added := ParseRepeatEffect(line, action, pending, rng);
      if added.Err? {
        return Failed(added.error);
      }
      return Open(added.value, Some([]));
    }
    var effect := ParseEffectLine(line, rng);
    if effect.Err? {
      return Failed(effect.error);
    }
    if pending.Some? {
      return Open(action, Some(pending.value + [effect.value]));
    }
    return Open(action.(effects := action.effects + [effect.value]), None);
  }

  /** One step of `ActionBody`: where the line at `index` leaves the block. */
  lemma ActionBodyUnfolds(lines: seq<string>, index: nat, action: ActionDef, pending: Option<seq<Effect>>,
                          draws: Draws, pos: nat)
    requires index < |lines|
    ensures var s := BodyStep(lines[index], action, pending, draws, pos);
            ActionBody(lines, index, action, pending, draws, pos)
            == if s.progress.Finished? then Scan(Ok(Block(s.progress.action, index + 1)), s.pos)
               else if s.progress.Failed? then Scan(Err(s.progress.error), s.pos)
               else ActionBody(lines, index + 1, s.progress.action, s.progress.pending, draws, s.pos)
  {
  }

  /** One pass of the effect loop, stated as the step it takes through `ActionBody`. */
  method ScanLine(lines: seq<string>, index: nat, action: ActionDef, pending: Option<seq<Effect>>, rng: RandomSource)
    returns (progress: Progress)
    requires index < |lines|
    modifies rng
    ensures ActionBody(lines, index, action, pending, rng.draws, old(rng.used))
            == if progress.Finished? then Scan(Ok(Block(progress.action, index + 1)), rng.used)
               else if progress.Failed? then Scan(Err(progress.error), rng.used)
               else ActionBody(lines, index + 1, progress.action, progress.pending, rng.draws, rng.used)
  {
    ActionBodyUnfolds(lines, index, action, pending, rng.draws, rng.used);
    progress := StepAction(lines[index], action, pending, rng);
  }

  /** The effect loop of `parseAction` from line `index` on, drawing from `rng`. */
  method ScanBody(lines: seq<string>, index: nat, action: ActionDef, pending: Option<seq<Effect>>, rng: RandomSource)
    returns (block: Result<Block, Failure>)
    modifies rng
    ensures var s := ActionBody(lines, index, action, pending, rng.draws, old(rng.used));
            block == s.result && rng.used == s.pos
  {
    var current, open, at := action, pending, index;
    ghost var goal := ActionBody(lines, index, action, pending, rng.draws, rng.used);
    while at < |lines|
      invariant ActionBody(lines, at, current, open, rng.draws, rng.used) == goal
      decreases |lines| - at
    {
      var step := ScanLine(lines, at, current, open, rng);
      match step {
        case Finished(a) => return Ok(Block(a, at + 1));
        case Failed(f) => return Err(f);
        case Open(a, p) => current, open := a, p;
      }
      at := at + 1;
    }
    return Err(Malformed);
  }

  /** The reading part of `parseAction`: header, then the effect loop up to "end action", drawing from `rng`. */
  method ScanAction(lines: seq<string>, start: nat, rng: RandomSource) returns (block: Result<Block, Failure>)
    requires start < |lines|
    modifies rng
    ensures var s := ActionBlock(lines, start, rng.draws, old(rng.used));
            block == s.result && rng.used == s.pos
  {
    var header := SplitLimit(lines[start], 3);
    if |header| < 3 {
      return Err(Malformed);
    }
    var element := Elements.FromString(header[2]);
    if element.None? {
      return Err(Malformed);
    }
    block := ScanBody(lines, start + 1, ActionDef(header[1], element.value, []), None, rng);
  }

  // ---------------------------------------------------------------------------------------------
  // The loader.

  class ConfigurationLoader {
    var actions: map<string, ActionDef>
    var monsters: seq<MonsterDef<ActionDef>>
    const random: RandomSource

    constructor (random: RandomSource)
      ensures actions == map[] && monsters == [] && this.random == random
    {
      actions := map[];
      monsters := [];
      this.random := random;
    }

    /** `loadConfiguration` once the file's lines are read: the previous data is cleared, then the lines parsed. */
    method Load(lines: seq<string>) returns (failure: Option<Failure>)
      modifies this, random
      ensures var r := Configure(Filtered(lines), 0, map[], [], random.draws, old(random.used));
              actions == r.actions && monsters == r.monsters && failure == r.failure && random.used == r.pos
    {
      actions, monsters := map[], [];
      failure := ParseConfiguration(lines);
    }

    /** `parseConfiguration(lines)` */
    method ParseConfiguration(lines: seq<string>) returns (failure: Option<Failure>)
      modifies this, random
      ensures var r := Configure(Filtered(lines), 0, old(actions), old(monsters), random.draws, old(random.used));
              actions == r.actions && monsters == r.monsters && failure == r.failure && random.used == r.pos
    {
      var filtered := FilterLines(lines);
      ghost var goal := Configure(filtered, 0, actions, monsters, random.draws, random.used);
      var index := 0;
      while index < |filtered|
        invariant 0 <= index <= |filtered|
        invariant Configure(filtered, index, actions, monsters, random.draws, random.used) == goal
        decreases |filtered| - index
      {
        var outcome := ParseSection(filtered, index);
        if outcome.Err? {
          return Some(outcome.error);
        }
        index := outcome.value;
      }
      return None;
    }

    /** One pass of the top-level loop of `parseConfiguration`: an action block or a monster line. */
    method ParseSection(lines: seq<string>, index: nat) returns (outcome: Result<nat, Failure>)
      requires index < |lines|
      modifies this, random
      ensures var s := SectionStep(lines, index, old(actions), old(monsters), random.draws, old(random.used));
              outcome == s.outcome && actions == s.actions && monsters == s.monsters && random.used == s.pos
    {
      if StartsWith(lines[index], "action ") {
        outcome := ParseAction(lines, index);
      } else if StartsWith(lines[index], "monster ") {
        var failed := ParseMonster(lines, index);
        outcome := if failed.Some? then Err(failed.value) else Ok(index + 1);
      } else {
        outcome := Err(Malformed);
      }
    }

    /** `parseAction(lines, startIndex)`: the block is stored under its name at "end action"; the index after it, or the failure. */
    method ParseAction(lines: seq<string>, start: nat) returns (next: Result<nat, Failure>)
      requires start < |lines|
      modifies this`actions, random
      ensures var s := ActionBlock(lines, start, random.draws, old(random.used));
              random.used == s.pos
              && (s.result.Ok? ==> next == Ok(s.result.value.next)
                                   && actions == old(actions)[s.result.value.action.name := s.result.value.action])
              && (s.result.Err? ==> next == Err(s.result.error) && actions == old(actions))
    {
      var block := ScanAction(lines, start, random);
      if block.Err? {
        return Err(block.error);
      }
      actions := actions[block.value.action.name := block.value.action];
      next := Ok(block.value.next);
    }

    /** `parseMonster(lines, startIndex)`: the monster is added, or the failure is reported. */
    method ParseMonster(lines: seq<string>, start: nat) returns (failure: Option<Failure>)
      requires start < |lines|
      modifies this`monsters
      ensures var r := MonsterLine(lines[start], actions);
              (r.Ok? ==> failure == None && monsters == old(monsters) + [r.value])
              && (r.Err? ==> failure == Some(r.error) && monsters == old(monsters))
    {
      var read := ReadMonster(lines[start], actions);
      if read.Err? {
        return Some(read.error);
      }
      monsters := monsters + [read.value];
      return None;
    }
  }
}
