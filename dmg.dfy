/** The older calculator variant: a stats record of plain numbers and two
    option tags, an aggregation that adds a fixed 15 for the chosen core
    attribute 2 and a fixed 10 for the chosen attribute, one unrounded
    per-bullet formula, and three DPS figures derived from it. */
module Dmg {
  import opened Numbers

  /** The option tags of the two selects ("None", "AWP", ..., "Magazine size"). */
  datatype Choice =
    | NoChoice | AWP | SWP | HSD | CritChance | CritDamage | DTTOOC | DTA | DTH
    | RateOfFire | ReloadSpeed | MagazineSize

  const Core2Options: seq<Choice> := [NoChoice, AWP, SWP, HSD, CritChance, CritDamage, DTTOOC, DTA, DTH]

  const AttributeOptions: seq<Choice> :=
    [NoChoice, DTTOOC, DTA, DTH, HSD, CritDamage, CritChance, RateOfFire, ReloadSpeed, MagazineSize]

  /** The SHD watch bonuses (reload speed is listed but never read). */
  datatype ShdRecord = ShdRecord(awp: real, hsd: real, critChance: real, critDamage: real, reloadSpeed: real)

  const Shd := ShdRecord(10.0, 20.0, 10.0, 20.0, 10.0)

  /** What a core attribute 2 choice adds to the stat it names. */
  const Core2Value := 15.0

  /** What an attribute choice adds to the stat it names. */
  const AttributeValue := 10.0

  datatype Stats = Stats(
    base: real,
    rpm: real,
    mag: real,
    expertise: real,
    core1: real,
    core2: Choice,
    attribute: Choice)

  const InitialStats := Stats(0.0, 600.0, 30.0, 0.0, 0.0, NoChoice, NoChoice)

  // ---------------------------------------------------------------------------
  // update

  datatype NumericField = BaseField | RpmField | MagField | ExpertiseField | Core1Field

  /** The values the inputs hand to update: a number for a numeric field, or
      a tag for one of the two selects. */
  datatype StatsChange =
    | NumberChange(field: NumericField, value: real)
    | Core2Change(core2: Choice)
    | AttributeChange(attribute: Choice)

  function Get(s: Stats, f: NumericField): real
  {
    match f
    case BaseField => s.base
    case RpmField => s.rpm
    case MagField => s.mag
    case ExpertiseField => s.expertise
    case Core1Field => s.core1
  }

  /** "{ ...s, [name]: value }": only the named field changes. */
  function Updated(s: Stats, change: StatsChange): (r: Stats)
    ensures change.NumberChange? ==>
      && Get(r, change.field) == change.value
      && (forall g :: g != change.field ==> Get(r, g) == Get(s, g))
      && r.core2 == s.core2 && r.attribute == s.attribute
    ensures change.Core2Change? ==> r == s.(core2 := r.core2) && r.core2 == change.core2
    ensures change.AttributeChange? ==> r == s.(attribute := r.attribute) && r.attribute == change.attribute
  {
    match change
    case NumberChange(f, x) =>
      (match f
       case BaseField => s.(base := x)
       case RpmField => s.(rpm := x)
       case MagField => s.(mag := x)
       case ExpertiseField => s.(expertise := x)
       case Core1Field => s.(core1 := x))
    case Core2Change(c) => s.(core2 := c)
    case AttributeChange(a) => s.(attribute := a)
  }

  // ---------------------------------------------------------------------------
  // full

  /** The stats a core attribute 2 choice can name (every option but "None"). */
  predicate IsCore2Stat(t: Choice)
  {
    t == AWP || t == SWP || t == HSD || t == CritChance || t == CritDamage || t == DTTOOC || t == DTA || t == DTH
  }

  /** The stats an attribute choice adds to: the aggregation has no branch for
      "Rate of fire", "Reload speed" or "Magazine size". */
  predicate IsAttributeStat(t: Choice)
  {
    t == HSD || t == CritChance || t == CritDamage || t == DTTOOC || t == DTA || t == DTH
  }

  /** The starting value of each aggregated stat. */
  function StatBase(s: Stats, t: Choice): real
  {
    match t
    case AWP => Shd.awp + s.expertise
    case SWP => s.core1
    case HSD => Shd.hsd
    case CritChance => Shd.critChance
    case CritDamage => Shd.critDamage
    case _ => 0.0
  }

  /** The aggregated total of stat t: its base, plus 15 when core attribute 2
      names it, plus 10 when the attribute names it and the aggregation reads
      that attribute. */
  function Total(s: Stats, t: Choice): real
  {
    StatBase(s, t)
      + (if s.core2 == t && IsCore2Stat(t) then Core2Value else 0.0)
      + (if s.attribute == t && IsAttributeStat(t) then AttributeValue else 0.0)
  }

  /** The record full returns (TWD is always 0). */
  datatype Full = Full(
    base: real,
    rpm: real,
    mag: real,
    awd: real,
    swd: real,
    twd: real,
    chd: real,
    hsd: real,
    dttooc: real,
    dmgToTarget: real)

  /** The aggregation, stat by stat; DTA and DTH are folded into their larger one. */
  function Aggregated(s: Stats): Full
  {
    Full(s.base, s.rpm, s.mag, Total(s, AWP), Total(s, SWP), 0.0, Total(s, CritDamage), Total(s, HSD),
      Total(s, DTTOOC), Max(Total(s, DTA), Total(s, DTH)))
  }

  /** full, step by step as the source accumulates it. The critical hit
      chance is summed like the others and then dropped. */
  method Aggregate(s: Stats) returns (f: Full)
    ensures f == Aggregated(s)
  {
    var awd := Shd.awp + s.expertise;
    if s.core2 == AWP { awd := awd + 15.0; }

    var swd := s.core1;
    if s.core2 == SWP { swd := swd + 15.0; }

    var chd := Shd.critDamage;
    if s.core2 == CritDamage { chd := chd + 15.0; }
    if s.attribute == CritDamage { chd := chd + 10.0; }

    var hsd := Shd.hsd;
    if s.core2 == HSD { hsd := hsd + 15.0; }
    if s.attribute == HSD { hsd := hsd + 10.0; }

    var critChance := Shd.critChance;
    if s.core2 == CritChance { critChance := critChance + 15.0; }
    if s.attribute == CritChance { critChance := critChance + 10.0; }

    var dttooc := 0.0;
    if s.core2 == DTTOOC { dttooc := dttooc + 15.0; }
    if s.attribute == DTTOOC { dttooc := dttooc + 10.0; }

    var dta := 0.0;
    var dth := 0.0;
    if s.core2 == DTA { dta := dta + 15.0; }
    if s.core2 == DTH { dth := dth + 15.0; }
    if s.attribute == DTA { dta := dta + 10.0; }
    if s.attribute == DTH { dth := dth + 10.0; }

    var dmgToTarget := Max(dta, dth);

    f := Full(s.base, s.rpm, s.mag, awd, swd, 0.0, chd, hsd, dttooc, dmgToTarget);
  }

  /** The critical hit chance full computes and never returns. */
  function CritChanceOf(s: Stats): (r: real)
    ensures Shd.critChance <= r <= Shd.critChance + Core2Value + AttributeValue
  {
    Total(s, CritChance)
  }

  // ---------------------------------------------------------------------------
  // The damage formula and the DPS figures

  /** The multiplier chain of one bullet: every bullet carries the combined
      crit-and-headshot factor, and nothing is rounded. */
  function BulletFormula(f: Full): real
  {
    f.base * Factor(f.awd + f.swd) * Factor(f.twd) * Factor(f.chd + f.hsd) * Factor(f.dmgToTarget) * Factor(f.dttooc)
  }

  /** damagePerBullet: 0 when the base damage is 0, the chain otherwise. */
  function DamagePerBullet(f: Full): (r: real)
    ensures f.base == 0.0 ==> r == 0.0
  {
    if f.base == 0.0 then 0.0 else BulletFormula(f)
  }

  function Dps(f: Full): real
  {
    (DamagePerBullet(f) * f.rpm) / 60.0
  }

  function CritDps(f: Full): real
  {
    Dps(f) * Factor(f.chd)
  }

  function HeadshotDps(f: Full): real
  {
    Dps(f) * Factor(f.hsd)
  }

  // ---------------------------------------------------------------------------
  // The state of the component

  class WeaponDamageCalculator {
    var stats: Stats

    constructor ()
      ensures stats == InitialStats
    {
      stats := InitialStats;
    }

    /** update(name, value): replaces one field of the stats record. */
    method Update(change: StatsChange)
      modifies this
      ensures stats == Updated(old(stats), change)
    {
      match change {
        case NumberChange(f, x) =>
          match f {
            case BaseField => stats := stats.(base := x);
            case RpmField => stats := stats.(rpm := x);
            case MagField => stats := stats.(mag := x);
            case ExpertiseField => stats := stats.(expertise := x);
            case Core1Field => stats := stats.(core1 := x);
          }
        case Core2Change(c) => stats := stats.(core2 := c);
        case AttributeChange(a) => stats := stats.(attribute := a);
      }
    }

    /** The four results the component shows for its current stats. */
    method Results() returns (perBullet: real, dps: real, critDps: real, headshotDps: real)
      ensures perBullet == DamagePerBullet(Aggregated(stats))
      ensures dps == Dps(Aggregated(stats))
      ensures critDps == CritDps(Aggregated(stats)) && headshotDps == HeadshotDps(Aggregated(stats))
    {
      var full := Aggregate(stats);
      perBullet := if full.base == 0.0 then 0.0 else BulletFormula(full);
      dps := (perBullet * full.rpm) / 60.0;
      critDps := dps * (1.0 + full.chd / 100.0);
      headshotDps := dps * (1.0 + full.hsd / 100.0);
    }
  }

  // ---------------------------------------------------------------------------
  // Properties of the aggregation

  /** The totals with an empty build: the SHD bonuses, expertise and core 1. */
  lemma BaseTotals(s: Stats)
    requires s.core2 == NoChoice && s.attribute == NoChoice
    ensures Aggregated(s) == Full(s.base, s.rpm, s.mag, Shd.awp + s.expertise, s.core1, 0.0, Shd.critDamage, Shd.hsd, 0.0, 0.0)
    ensures CritChanceOf(s) == Shd.critChance
  {
  }

  /** Each core attribute 2 option adds exactly 15 to the one stat it names
      and nothing to any other; "None" adds nothing. */
  lemma Core2AddsFifteen(s: Stats, c: Choice)
    requires c in Core2Options
    ensures forall t :: Total(s.(core2 := c), t) == Total(s.(core2 := NoChoice), t) + (if t == c && c != NoChoice then 15.0 else 0.0)
  {
    assert c == NoChoice || IsCore2Stat(c);
  }

  /** Each attribute option that the aggregation reads adds exactly 10 to the
      one stat it names; "None", "Rate of fire", "Reload speed" and "Magazine
      size" add nothing to anything. */
  lemma AttributeAddsTen(s: Stats, a: Choice)
    requires a in AttributeOptions
    ensures forall t :: Total(s.(attribute := a), t) == Total(s.(attribute := NoChoice), t) + (if t == a && IsAttributeStat(a) then 10.0 else 0.0)
    ensures IsAttributeStat(a) <==> a != NoChoice && a != RateOfFire && a != ReloadSpeed && a != MagazineSize
  {
  }

  /** The three options that no branch reads leave the whole aggregation as
      with "None". */
  lemma UnreadAttributesInert(s: Stats, a: Choice)
    requires a == RateOfFire || a == ReloadSpeed || a == MagazineSize
    ensures Aggregated(s.(attribute := a)) == Aggregated(s.(attribute := NoChoice))
  {
    assert forall t :: Total(s.(attribute := a), t) == Total(s.(attribute := NoChoice), t);
  }

  /** The critical hit chance is at most 35 and never reaches the result:
      choosing it in either slot leaves the aggregation as with "None". */
  lemma CritChanceInert(s: Stats)
    ensures CritChanceOf(s) <= 35.0
    ensures Aggregated(s.(core2 := CritChance)) == Aggregated(s.(core2 := NoChoice))
    ensures Aggregated(s.(attribute := CritChance)) == Aggregated(s.(attribute := NoChoice))
  {
    Core2AddsFifteen(s, CritChance);
    AttributeAddsTen(s, CritChance);
  }

  /** DTA and DTH do not add up: the target multiplier is the larger of the
      two totals, whatever the target is. */
  lemma TargetMultiplierIsLarger(s: Stats)
    ensures Aggregated(s).dmgToTarget >= Total(s, DTA) && Aggregated(s).dmgToTarget >= Total(s, DTH)
    ensures Aggregated(s).dmgToTarget == Total(s, DTA) || Aggregated(s).dmgToTarget == Total(s, DTH)
    ensures s.core2 == DTA && s.attribute == DTH ==> Aggregated(s).dmgToTarget == 15.0
  {
  }

  // ---------------------------------------------------------------------------
  // Properties of the damage formula

  /** The zero-base guard changes nothing: the chain is 0 at base 0 anyway. */
  lemma GuardAgreesWithFormula(f: Full)
    ensures DamagePerBullet(f) == BulletFormula(f)
  {
    if f.base == 0.0 {
      assert BulletFormula(f) == 0.0 * (Factor(f.awd + f.swd) * Factor(f.twd) * Factor(f.chd + f.hsd) * Factor(f.dmgToTarget) * Factor(f.dttooc));
    }
  }

  /** With no base damage every figure is 0. */
  lemma ZeroBaseZeroDps(f: Full)
    requires f.base == 0.0
    ensures DamagePerBullet(f) == 0.0 && Dps(f) == 0.0 && CritDps(f) == 0.0 && HeadshotDps(f) == 0.0
  {
  }

  /** The aggregation feeds a zero TWD, so its factor is 1 and the chain is
      the product of the other four factors with the base. */
  lemma FormulaWithoutTwd(s: Stats)
    ensures Aggregated(s).twd == 0.0
    ensures BulletFormula(Aggregated(s))
         == s.base * Factor(Total(s, AWP) + Total(s, SWP)) * Factor(Total(s, CritDamage) + Total(s, HSD))
            * Factor(Max(Total(s, DTA), Total(s, DTH))) * Factor(Total(s, DTTOOC))
  {
    var f := Aggregated(s);
    assert Factor(f.twd) == 1.0;
  }

  /** Every bullet already carries the crit damage (in the combined factor),
      and crit DPS multiplies by it once more: the crit damage is counted
      twice, and the crit and headshot factors are applied to the same DPS. */
  lemma CritDpsCountsCritTwice(f: Full)
    requires f.base != 0.0
    ensures CritDps(f)
         == (f.base * Factor(f.awd + f.swd) * Factor(f.twd) * Factor(f.dmgToTarget) * Factor(f.dttooc) * f.rpm / 60.0)
            * Factor(f.chd + f.hsd) * Factor(f.chd)
    ensures CritDps(f) * Factor(f.hsd) == HeadshotDps(f) * Factor(f.chd)
  {
    var rest := f.base * Factor(f.awd + f.swd) * Factor(f.twd) * Factor(f.dmgToTarget) * Factor(f.dttooc);
    var both := Factor(f.chd + f.hsd);
    assert BulletFormula(f) == rest * both;
    assert Dps(f) == (rest * f.rpm / 60.0) * both;
  }

  /** With a positive DPS, crit DPS and headshot DPS exceed it: the
      aggregated crit damage and headshot damage are at least 20. */
  lemma BonusDpsAboveDps(s: Stats)
    requires Dps(Aggregated(s)) > 0.0
    ensures CritDps(Aggregated(s)) > Dps(Aggregated(s))
    ensures HeadshotDps(Aggregated(s)) > Dps(Aggregated(s))
  {
    var f := Aggregated(s);
    var d := Dps(f);
    assert f.chd >= 20.0 && f.hsd >= 20.0;
    assert Factor(f.chd) > 1.0 && Factor(f.hsd) > 1.0;
    assert d * Factor(f.chd) > d * 1.0;
    assert d * Factor(f.hsd) > d * 1.0;
  }

  /** The initial stats: base damage 0, so every figure is 0. */
  lemma InitialFigures()
    ensures Dps(Aggregated(InitialStats)) == 0.0 && CritDps(Aggregated(InitialStats)) == 0.0
    ensures HeadshotDps(Aggregated(InitialStats)) == 0.0
    ensures Aggregated(InitialStats).awd == 10.0 && Aggregated(InitialStats).chd == 20.0
  {
    BaseTotals(InitialStats);
    ZeroBaseZeroDps(Aggregated(InitialStats));
  }
}
