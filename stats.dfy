/** The six stat channels, their base factors and the stage-to-factor formula (identical in both snapshots). */
module Stats {
  import opened Wrappers

  datatype Stat = HP | ATK | DEF | SPD | PRC | AGL

  /** `Stat.values()`, in declaration order. */
  const AllStats: seq<Stat> := [HP, ATK, DEF, SPD, PRC, AGL]

  lemma AllStatsListsEveryStat(s: Stat)
    ensures s in AllStats
  {
  }

  /** The base factor of a stat; HP has none (0). */
  function BaseFactor(s: Stat): (b: nat)
    ensures b == 0 <==> s == HP
    ensures s in {ATK, DEF, SPD} ==> b == 2
    ensures s in {PRC, AGL} ==> b == 3
  {
    match s
    case HP => 0
    case ATK | DEF | SPD => 2
    case PRC | AGL => 3
  }

  /** `toString()`: the representation used in configuration files and messages. */
  function Name(s: Stat): string
  {
    match s
    case HP => "HP"
    case ATK => "ATK"
    case DEF => "DEF"
    case SPD => "SPD"
    case PRC => "PRC"
    case AGL => "AGL"
  }

  /**
   * `calculateStatChangeFactor(stage)`: (b + s) / b for s >= 0 and b / (b - s) for s < 0.
   * HP's base factor is 0, so the formula is only defined for the other five stats.
   */
  function StageFactor(stat: Stat, stage: int): (r: real)
    requires stat != HP
    ensures r > 0.0
    ensures stage >= 0 ==> r * BaseFactor(stat) as real == (BaseFactor(stat) + stage) as real
    ensures stage < 0 ==> r * (BaseFactor(stat) - stage) as real == BaseFactor(stat) as real
  {
    var b := BaseFactor(stat) as real;
    if stage >= 0 then (b + stage as real) / b else b / (b - stage as real)
  }

  /** Stage 0 is neutral; positive stages boost and negative stages weaken. */
  lemma StageFactorAroundOne(stat: Stat, stage: int)
    requires stat != HP
    ensures stage == 0 ==> StageFactor(stat, stage) == 1.0
    ensures stage > 0 ==> StageFactor(stat, stage) > 1.0
    ensures stage < 0 ==> StageFactor(stat, stage) < 1.0
  {
    var b := BaseFactor(stat) as real;
    var r := StageFactor(stat, stage);
    if stage > 0 {
      assert r * b == b + stage as real;
    } else if stage < 0 {
      assert r * (b - stage as real) == b;
      assert b - stage as real > b;
    }
  }

  /** The factor grows strictly with the stage. */
  lemma StageFactorIncreasing(stat: Stat, s1: int, s2: int)
    requires stat != HP
    requires s1 < s2
    ensures StageFactor(stat, s1) < StageFactor(stat, s2)
  {
    var b := BaseFactor(stat) as real;
    if s1 >= 0 {
      QuotientIncreasing(b + s1 as real, b + s2 as real, b);
    } else if s2 < 0 {
      QuotientDecreasing(b, b - s2 as real, b - s1 as real);
    } else {
      StageFactorAroundOne(stat, s1);
      StageFactorAroundOne(stat, s2);
    }
  }

  lemma QuotientIncreasing(x: real, y: real, d: real)
    requires d > 0.0 && x < y
    ensures x / d < y / d
  {
    assert y / d - x / d == (y - x) / d;
  }

  lemma QuotientDecreasing(n: real, d: real, e: real)
    requires n > 0.0 && 0.0 < d < e
    ensures n / e < n / d
  {
    var p, q := n / e, n / d;
    assert p * e == n && q * d == n;
    assert q * e - q * d == q * (e - d) > 0.0;
    assert (q - p) * e == q * e - n;
  }

  /** `Stat.fromString`: the first stat of `values()` whose representation equals `s`, else null. */
  function FromString(s: string): (r: Option<Stat>)
    ensures r.Some? ==> Name(r.value) == s
    ensures r.None? ==> forall st: Stat :: Name(st) != s
  {
    FindByName(AllStats, s)
  }

  function FindByName(candidates: seq<Stat>, s: string): (r: Option<Stat>)
    ensures r.Some? ==> r.value in candidates && Name(r.value) == s
    ensures r.None? ==> forall c :: c in candidates ==> Name(c) != s
  {
    if candidates == [] then None
    else if Name(candidates[0]) == s then Some(candidates[0])
    else FindByName(candidates[1..], s)
  }

  /** Every stat survives printing and parsing back. */
  lemma FromStringName(st: Stat)
    ensures FromString(Name(st)) == Some(st)
  {
    var r := FromString(Name(st));
    assert r.Some?;
    assert Name(r.value) == Name(st);
  }
}
