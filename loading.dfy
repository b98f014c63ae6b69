/**
 * What both snapshots' `ConfigurationLoader` do alike: the first pass over the file's lines, which
 * trims them and drops the blank ones, and the monster lines, whose actions are looked up by name
 * in the actions read so far.
 */
module Loading {
  import opened Wrappers
  import opened Failures
  import opened Text
  import Elements

  /** What `new Monster(name, element, maxHp, attack, defense, speed)` and its `addAction` calls describe, over the loader's action values `A`. */
  datatype MonsterDef<A> = MonsterDef(name: string, element: Elements.Element, maxHp: int, attack: int,
                                   defense: int, speed: int, actions: seq<A>)

  // ---------------------------------------------------------------------------------------------
  // Tokens and lines.

  /** `Integer.parseInt(parts[i])`: a missing token is an index error, a bad one a number format error. */
  function IntAt(parts: seq<string>, i: nat): (r: Result<int, Failure>)
    ensures i >= |parts| ==> r == Err(IndexOutOfBounds)
    ensures i < |parts| ==> (r.Ok? <==> ParseInt(parts[i]).Some?)
    ensures i < |parts| && r.Ok? ==> Some(r.value) == ParseInt(parts[i])
    ensures i < |parts| && r.Err? ==> r.error == NumberFormat
  {
    if i >= |parts| then Err(IndexOutOfBounds)
    else match ParseInt(parts[i])
      case Some(v) => Ok(v)
      case None => Err(NumberFormat)
  }

  /** One input line as the parser keeps it: trimmed, or nothing when it is blank. */
  function Kept(line: string): seq<string>
  {
    if Trim(line) == [] then [] else [Trim(line)]
  }

  /** The filtering loop of `parseConfiguration`, in input order. */
  function Filtered(lines: seq<string>): (r: seq<string>)
    ensures |r| <= |lines|
    ensures forall l :: l in r ==> l != []
  {
    if lines == [] then [] else Filtered(lines[..|lines| - 1]) + Kept(lines[|lines| - 1])
  }

  /** Every kept line is the trimmed form of an input line. */
  lemma {:induction false} FilteredFromInput(lines: seq<string>)
    ensures forall l :: l in Filtered(lines) ==> exists j :: 0 <= j < |lines| && l == Trim(lines[j])
  {
    if lines != [] {
      var init, last := lines[..|lines| - 1], lines[|lines| - 1];
      FilteredFromInput(init);
      assert Filtered(lines) == Filtered(init) + Kept(last);
      forall l | l in Filtered(lines)
        ensures exists j :: 0 <= j < |lines| && l == Trim(lines[j])
      {
        if l in Filtered(init) {
          var j :| 0 <= j < |init| && l == Trim(init[j]);
          assert lines[j] == init[j];
        } else {
          assert l == Trim(lines[|lines| - 1]);
        }
      }
    }
  }

  /** No input line that is not blank is lost. */
  lemma {:induction false} FilteredKeepsLine(lines: seq<string>, j: nat)
    requires j < |lines| && Trim(lines[j]) != []
    ensures Trim(lines[j]) in Filtered(lines)
  {
    var init, last := lines[..|lines| - 1], lines[|lines| - 1];
    assert Filtered(lines) == Filtered(init) + Kept(last);
    if j < |init| {
      assert lines[j] == init[j];
      FilteredKeepsLine(init, j);
    } else {
      assert Kept(last) == [Trim(lines[j])];
    }
  }

  /** The first loop of `parseConfiguration`: every line trimmed, the empty ones dropped. */
  method FilterLines(lines: seq<string>) returns (filtered: seq<string>)
    ensures filtered == Filtered(lines)
  {
    filtered := [];
    var i := 0;
    while i < |lines|
      invariant 0 <= i <= |lines|
      invariant filtered == Filtered(lines[..i])
    {
      assert lines[..i + 1][..i] == lines[..i];
      var line := Trim(lines[i]);
      if line != [] {
        filtered := filtered + [line];
      }
      i := i + 1;
    }
    assert lines[..i] == lines;
  }

  // ---------------------------------------------------------------------------------------------
  // Monster lines.

  /** The action names of a monster line, looked up in order; an unknown name is refused. */
  function LookUp<A>(names: seq<string>, actions: map<string, A>): (r: Result<seq<A>, Failure>)
    ensures r.Ok? <==> forall i :: 0 <= i < |names| ==> names[i] in actions
    ensures r.Ok? ==> |r.value| == |names| && forall i :: 0 <= i < |names| ==> r.value[i] == actions[names[i]]
    ensures r.Err? ==> r.error == Malformed
  {
    if names == [] then Ok([])
    else
      var last := names[|names| - 1];
      match LookUp(names[..|names| - 1], actions)
      case Err(f) => Err(f)
      case Ok(found) => if last in actions then Ok(found + [actions[last]]) else Err(Malformed)
  }

  /**
   * `parseMonster(lines, start)`: "monster <name> <element> <hp> <atk> <def> <spd> <action>..." with
   * at least eight tokens; every action must already be defined.
   */
  function MonsterLine<A>(line: string, actions: map<string, A>): (r: Result<MonsterDef<A>, Failure>)
    ensures |Split(line)| < 8 ==> r == Err(Malformed)
    ensures r.Ok? ==> var parts := Split(line);
                      |parts| >= 8 && r.value.name == parts[1]
                      && Elements.FromString(parts[2]) == Some(r.value.element)
                      && ParseInt(parts[3]) == Some(r.value.maxHp) && ParseInt(parts[4]) == Some(r.value.attack)
                      && ParseInt(parts[5]) == Some(r.value.defense) && ParseInt(parts[6]) == Some(r.value.speed)
                      && |r.value.actions| == |parts| - 7
                      && forall i :: 7 <= i < |parts| ==> parts[i] in actions && r.value.actions[i - 7] == actions[parts[i]]
  {
    var parts := Split(line);
    if |parts| < 8 then Err(Malformed)
    else match Elements.FromString(parts[2])
      case None => Err(Malformed)
      case Some(element) =>
        match (IntAt(parts, 3), IntAt(parts, 4), IntAt(parts, 5), IntAt(parts, 6))
        case (Err(f), _, _, _) => Err(f)
        case (Ok(_), Err(f), _, _) => Err(f)
        case (Ok(_), Ok(_), Err(f), _) => Err(f)
        case (Ok(_), Ok(_), Ok(_), Err(f)) => Err(f)
        case (Ok(hp), Ok(atk), Ok(def), Ok(spd)) =>
          match LookUp(parts[7..], actions)
          case Err(f) => Err(f)
          case Ok(list) => Ok(MonsterDef(parts[1], element, hp, atk, def, spd, list))
  }

  /** The loop of `parseMonster` over the action names, each looked up in the loader's map. */
  method LookUpActions<A>(names: seq<string>, actions: map<string, A>) returns (r: Result<seq<A>, Failure>)
    ensures r == LookUp(names, actions)
  {
    var list: seq<A> := [];
    var i := 0;
    while i < |names|
      invariant 0 <= i <= |names|
      invariant LookUp(names[..i], actions) == Ok(list)
    {
      assert names[..i + 1][..i] == names[..i];
      if names[i] !in actions {
        return Err(Malformed);
      }
      list := list + [actions[names[i]]];
      i := i + 1;
    }
    assert names[..i] == names;
    return Ok(list);
  }

  /** A monster line naming an action that is not (yet) defined is refused. */
  lemma UnknownActionRefused<A>(line: string, actions: map<string, A>, i: nat)
    requires 7 <= i < |Split(line)| && Split(line)[i] !in actions
    ensures MonsterLine(line, actions).Err?
  {
  }

  /** `parseMonster` up to `monsters.add`: the line read into a monster, or the failure it raises. */
  method ReadMonster<A>(line: string, actions: map<string, A>) returns (r: Result<MonsterDef<A>, Failure>)
    ensures r == MonsterLine(line, actions)
  {
    var parts := Split(line);
    if |parts| < 8 {
      return Err(Malformed);
    }
    var element := Elements.FromString(parts[2]);
    if element.None? {
      return Err(Malformed);
    }
    var hp := IntAt(parts, 3);
    var attack := IntAt(parts, 4);
    var defense := IntAt(parts, 5);
    var speed := IntAt(parts, 6);
    if hp.Err? {
      return Err(hp.error);
    } else if attack.Err? {
      return Err(attack.error);
    } else if defense.Err? {
      return Err(defense.error);
    } else if speed.Err? {
      return Err(speed.error);
    }
    var list := LookUpActions(parts[7..], actions);
    if list.Err? {
      return Err(list.error);
    }
    return Ok(MonsterDef(parts[1], element.value, hp.value, attack.value, defense.value, speed.value, list.value));
  }
}
