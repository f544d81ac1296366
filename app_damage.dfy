/** The damage engine of the full calculator: the stats a weapon's slots add
    up to, the per-bullet damage of the four hit types, and the sustained DPS
    over a magazine-plus-reload cycle.

    Each stat is first given by one generic rule (Bonus: what core attribute 2
    and the secondary attribute add to a stat tag); the methods then follow the
    source's own step-by-step accumulation and are proved equal to it. */
module AppDamage {
  import opened Numbers
  import opened AppTables
  import opened AppWeapon

  datatype HitType = Body | BodyCrit | Headshot | HeadshotCrit

  /** What the secondary attribute adds to stat t. */
  function AttributeBonus(w: Weapon, t: StatType): real
  {
    if w.attribute.statType == t then w.attribute.value else 0.0
  }

  /** Everything the two configurable slots add to stat t: core attribute 2
      when t is the fixed type of the weapon's category, and the secondary
      attribute when t is its type. */
  function Bonus(w: Weapon, t: StatType): real
  {
    (if Core2ByCategory(w.category).statType == t then w.coreAttribute2 else 0.0) + AttributeBonus(w, t)
  }

  function AllWeaponDamage(w: Weapon): real
  {
    BaseStats.awd + w.expertise
  }

  function SpecificWeaponDamage(w: Weapon): real
  {
    w.coreAttribute1
  }

  function CritHitDamage(w: Weapon): real
  {
    BaseStats.chd + Bonus(w, CHD)
  }

  function HeadshotDamage(w: Weapon): real
  {
    BaseStats.hsd + w.baseHSD + Bonus(w, HSD)
  }

  /** Damage to armor or to health, whichever the target presents. */
  function TargetDamage(w: Weapon, sc: Scenario): real
  {
    match sc.targetType
    case Armor => Bonus(w, DTA)
    case Health => Bonus(w, DTH)
  }

  /** Damage to targets out of cover; a target in cover gets none. */
  function OutOfCoverDamage(w: Weapon, sc: Scenario): real
  {
    if sc.targetInCover then 0.0 else Bonus(w, DTTOOC)
  }

  /** The hit-type stage of the chain: nothing for a body shot, the critical
      or the headshot bonus alone, or one factor of their sum. */
  function HitFactor(chd: real, hsd: real, h: HitType): real
  {
    match h
    case Body => 1.0
    case BodyCrit => Factor(chd)
    case Headshot => Factor(hsd)
    case HeadshotCrit => Factor(chd + hsd)
  }

  /** The chain of factors on aggregated stats: weapon damage, then the hit
      type (a body shot is left as it is), then the armor or health bonus,
      then the out-of-cover bonus. */
  function Chain(base: real, weaponDamage: real, chd: real, hsd: real, target: real, cover: real, h: HitType): real
  {
    var d := base * Factor(weaponDamage);
    (if h == Body then d else d * HitFactor(chd, hsd, h)) * Factor(target) * Factor(cover)
  }

  /** The damage of one bullet before rounding. */
  function RawDamage(w: Weapon, sc: Scenario, h: HitType): real
  {
    Chain(w.baseDamage, AllWeaponDamage(w) + SpecificWeaponDamage(w), CritHitDamage(w), HeadshotDamage(w),
      TargetDamage(w, sc), OutOfCoverDamage(w, sc), h)
  }

  function BulletDamage(w: Weapon, sc: Scenario, h: HitType): int
  {
    Round(RawDamage(w, sc, h))
  }

  /** The two checks the source repeats for every stat: add core attribute 2
      when its category's type is t, and the secondary attribute when its type is t. */
  method AddSlotBonuses(w: Weapon, t: StatType, start: real) returns (total: real)
    ensures total == start + Bonus(w, t)
  {
    total := start;
    if Core2ByCategory(w.category).statType == t {
      total := total + w.coreAttribute2;
    }
    if w.attribute.statType == t {
      total := total + w.attribute.value;
    }
  }

  /** The damage chain of calculateBulletDamage on the aggregated stats, factor by factor, rounded. */
  method ApplyChain(base: real, weaponDamage: real, chd: real, hsd: real, target: real, cover: real, h: HitType)
    returns (damage: int)
    ensures damage == Round(Chain(base, weaponDamage, chd, hsd, target, cover, h))
  {
    var d := base * (1.0 + weaponDamage / 100.0);
    if h == BodyCrit {
      d := d * (1.0 + chd / 100.0);
    } else if h == Headshot {
      d := d * (1.0 + hsd / 100.0);
    } else if h == HeadshotCrit {
      d := d * (1.0 + (chd + hsd) / 100.0);
    }
    d := d * (1.0 + target / 100.0);
    d := d * (1.0 + cover / 100.0);
    damage := Round(d);
  }

  /** calculateBulletDamage: aggregates the stats as the source does, then
      applies the chain. */
  method CalculateBulletDamage(w: Weapon, sc: Scenario, h: HitType) returns (damage: int)
    ensures damage == BulletDamage(w, sc, h)
  {
    var awd := BaseStats.awd + w.expertise;
    var swd := w.coreAttribute1;
    var chd := AddSlotBonuses(w, CHD, BaseStats.chd);
    var hsd := AddSlotBonuses(w, HSD, BaseStats.hsd + w.baseHSD);

    var dtaOrDth := 0.0;
    if sc.targetType == Armor {
      dtaOrDth := AddSlotBonuses(w, DTA, dtaOrDth);
    } else {
      dtaOrDth := AddSlotBonuses(w, DTH, dtaOrDth);
    }

    var dttooc := 0.0;
    if !sc.targetInCover {
      dttooc := AddSlotBonuses(w, DTTOOC, dttooc);
    }

    damage := ApplyChain(w.baseDamage, awd + swd, chd, hsd, dtaOrDth, dttooc, h);
  }

  /** The weapon with every source of stat t set to 0. */
  function WithoutSources(w: Weapon, t: StatType): (r: Weapon)
    ensures Bonus(r, t) == 0.0
    ensures forall u :: u != t ==> Bonus(r, u) == Bonus(w, u)
    ensures r.category == w.category && r.attribute.statType == w.attribute.statType
    ensures forall f :: f != CoreAttribute2Field ==> Get(r, f) == Get(w, f)
  {
    w.(coreAttribute2 := if Core2ByCategory(w.category).statType == t then 0.0 else w.coreAttribute2,
       attribute := if w.attribute.statType == t then w.attribute.(value := 0.0) else w.attribute)
  }

  /** Removing the sources of a stat the chain does not read (unlike the
      chain's own stats) leaves every bullet's damage as it was. */
  lemma UnreadSourcesIrrelevant(w: Weapon, sc: Scenario, h: HitType, t: StatType)
    requires t != CHD && t != HSD
    requires sc.targetType == Armor ==> t != DTA
    requires sc.targetType == Health ==> t != DTH
    requires !sc.targetInCover ==> t != DTTOOC
    ensures RawDamage(WithoutSources(w, t), sc, h) == RawDamage(w, sc, h)
  {
    var v := WithoutSources(w, t);
    assert CritHitDamage(v) == CritHitDamage(w) && HeadshotDamage(v) == HeadshotDamage(w);
    assert TargetDamage(v, sc) == TargetDamage(w, sc) && OutOfCoverDamage(v, sc) == OutOfCoverDamage(w, sc);
  }

  /** Against a target in cover, DTTOOC sources make no difference. */
  lemma CoverSuppressesOutOfCover(w: Weapon, sc: Scenario, h: HitType)
    requires sc.targetInCover
    ensures OutOfCoverDamage(w, sc) == 0.0
    ensures BulletDamage(WithoutSources(w, DTTOOC), sc, h) == BulletDamage(w, sc, h)
  {
    UnreadSourcesIrrelevant(w, sc, h, DTTOOC);
  }

  /** Against armor DTH sources make no difference, against health DTA sources. */
  lemma TargetIgnoresOtherStat(w: Weapon, sc: Scenario, h: HitType)
    ensures sc.targetType == Armor ==> BulletDamage(WithoutSources(w, DTH), sc, h) == BulletDamage(w, sc, h)
    ensures sc.targetType == Health ==> BulletDamage(WithoutSources(w, DTA), sc, h) == BulletDamage(w, sc, h)
  {
    UnreadSourcesIrrelevant(w, sc, h, if sc.targetType == Armor then DTH else DTA);
  }

  /** Out of cover, the damage is the in-cover damage times the DTTOOC factor. */
  lemma CoverScalesDamage(w: Weapon, t: TargetType, h: HitType)
    ensures RawDamage(w, Scenario(t, false), h) == RawDamage(w, Scenario(t, true), h) * Factor(Bonus(w, DTTOOC))
  {
  }

  /** Core attribute 2 adds only to the stat its category fixes. */
  lemma Core2FeedsOnlyItsType(w: Weapon, x: real, t: StatType)
    requires t != Core2ByCategory(w.category).statType
    ensures Bonus(w.(coreAttribute2 := x), t) == Bonus(w, t)
  {
  }

  /** The hit types differ only in their hit-type factor: a critical hit
      multiplies the body damage by the CHD factor, a headshot by the HSD
      factor, and a critical headshot by one factor of CHD + HSD. */
  lemma ChainByHitType(base: real, weaponDamage: real, chd: real, hsd: real, target: real, cover: real, h: HitType)
    ensures Chain(base, weaponDamage, chd, hsd, target, cover, h)
         == Chain(base, weaponDamage, chd, hsd, target, cover, Body) * HitFactor(chd, hsd, h)
  {
  }

  /** A critical headshot does not compound the two bonuses: with positive
      CHD, HSD and body damage it deals strictly less than applying the CHD
      factor and then the HSD factor would. */
  lemma HeadshotCritNotCompounded(w: Weapon, sc: Scenario)
    requires CritHitDamage(w) > 0.0 && HeadshotDamage(w) > 0.0
    requires RawDamage(w, sc, Body) > 0.0
    ensures RawDamage(w, sc, HeadshotCrit) < RawDamage(w, sc, Body) * Factor(CritHitDamage(w)) * Factor(HeadshotDamage(w))
  {
    var c, s, b := CritHitDamage(w), HeadshotDamage(w), RawDamage(w, sc, Body);
    ChainByHitType(w.baseDamage, AllWeaponDamage(w) + SpecificWeaponDamage(w), c, s,
      TargetDamage(w, sc), OutOfCoverDamage(w, sc), HeadshotCrit);
    FactorsCompound(c, s);
    assert c * s / 10000.0 > 0.0;
    assert Factor(c + s) < Factor(c) * Factor(s);
    assert b * Factor(c + s) < b * (Factor(c) * Factor(s));
  }

  /** A base damage of 0 gives 0 for every hit type. */
  lemma ZeroBaseDamage(w: Weapon, sc: Scenario, h: HitType)
    requires w.baseDamage == 0.0
    ensures BulletDamage(w, sc, h) == 0
  {
  }

  /** With a non-negative base damage and no factor below 0, more weapon
      damage never gives a smaller chain. */
  lemma ChainMonotone(base: real, weaponDamage: real, weaponDamage': real, chd: real, hsd: real, target: real, cover: real, h: HitType)
    requires base >= 0.0 && weaponDamage <= weaponDamage'
    requires HitFactor(chd, hsd, h) >= 0.0 && Factor(target) >= 0.0 && Factor(cover) >= 0.0
    ensures Chain(base, weaponDamage, chd, hsd, target, cover, h) <= Chain(base, weaponDamage', chd, hsd, target, cover, h)
  {
    var d, d' := base * Factor(weaponDamage), base * Factor(weaponDamage');
    assert d <= d';
    var b, b' := d * Factor(target), d' * Factor(target);
    assert b <= b';
    assert b * Factor(cover) <= b' * Factor(cover);
    ChainByHitType(base, weaponDamage, chd, hsd, target, cover, h);
    ChainByHitType(base, weaponDamage', chd, hsd, target, cover, h);
    assert Chain(base, weaponDamage, chd, hsd, target, cover, Body) * HitFactor(chd, hsd, h)
        <= Chain(base, weaponDamage', chd, hsd, target, cover, Body) * HitFactor(chd, hsd, h);
  }

  /** Raising expertise, with everything else fixed, never lowers the damage
      of a bullet of non-negative base damage whose factors are not below 0. */
  lemma ExpertiseNeverLowersDamage(w: Weapon, sc: Scenario, h: HitType, x: real)
    requires w.baseDamage >= 0.0 && x >= w.expertise
    requires HitFactor(CritHitDamage(w), HeadshotDamage(w), h) >= 0.0
    requires Factor(TargetDamage(w, sc)) >= 0.0 && Factor(OutOfCoverDamage(w, sc)) >= 0.0
    ensures BulletDamage(w, sc, h) <= BulletDamage(w.(expertise := x), sc, h)
  {
    var v := w.(expertise := x);
    assert CritHitDamage(v) == CritHitDamage(w) && HeadshotDamage(v) == HeadshotDamage(w);
    assert TargetDamage(v, sc) == TargetDamage(w, sc) && OutOfCoverDamage(v, sc) == OutOfCoverDamage(w, sc);
    ChainMonotone(w.baseDamage, AllWeaponDamage(w) + SpecificWeaponDamage(w), AllWeaponDamage(v) + SpecificWeaponDamage(v),
      CritHitDamage(w), HeadshotDamage(w), TargetDamage(w, sc), OutOfCoverDamage(w, sc), h);
    RoundProperties(0, RawDamage(w, sc, h), RawDamage(v, sc, h));
  }

  /** Raising core attribute 1 (specific weapon damage) never lowers the
      damage either. */
  lemma Core1NeverLowersDamage(w: Weapon, sc: Scenario, h: HitType, x: real)
    requires w.baseDamage >= 0.0 && x >= w.coreAttribute1
    requires HitFactor(CritHitDamage(w), HeadshotDamage(w), h) >= 0.0
    requires Factor(TargetDamage(w, sc)) >= 0.0 && Factor(OutOfCoverDamage(w, sc)) >= 0.0
    ensures BulletDamage(w, sc, h) <= BulletDamage(w.(coreAttribute1 := x), sc, h)
  {
    var v := w.(coreAttribute1 := x);
    assert CritHitDamage(v) == CritHitDamage(w) && HeadshotDamage(v) == HeadshotDamage(w);
    assert TargetDamage(v, sc) == TargetDamage(w, sc) && OutOfCoverDamage(v, sc) == OutOfCoverDamage(w, sc);
    ChainMonotone(w.baseDamage, AllWeaponDamage(w) + SpecificWeaponDamage(w), AllWeaponDamage(v) + SpecificWeaponDamage(v),
      CritHitDamage(w), HeadshotDamage(w), TargetDamage(w, sc), OutOfCoverDamage(w, sc), h);
    RoundProperties(0, RawDamage(w, sc, h), RawDamage(v, sc, h));
  }

  /** A product of two non-negative factors grows when either factor does. */
  lemma ProductMonotone(a: real, a': real, b: real, b': real)
    requires 0.0 <= a <= a' && 0.0 <= b <= b'
    ensures a * b <= a' * b'
  {
    assert a * b <= a' * b;
    assert a' * b <= a' * b';
  }

  /** The same for a chain of four non-negative factors of which the last
      three grow. */
  lemma ChainOfProductsMonotone(d: real, a: real, a': real, b: real, b': real, c: real, c': real)
    requires 0.0 <= d && 0.0 <= a <= a' && 0.0 <= b <= b' && 0.0 <= c <= c'
    ensures d * a * b * c <= d * a' * b' * c'
  {
    ProductMonotone(d, d, a, a');
    ProductMonotone(0.0, d, 0.0, a);
    ProductMonotone(d * a, d * a', b, b');
    ProductMonotone(0.0, d * a, 0.0, b);
    ProductMonotone(d * a * b, d * a' * b', c, c');
  }

  /** With a non-negative base, a weapon-damage factor not below 0 and no
      hit, target or cover factor below 0, larger critical, headshot, target
      and out-of-cover bonuses never give a smaller chain. */
  lemma ChainMonotoneInSlots(base: real, weaponDamage: real, chd: real, hsd: real, target: real, cover: real,
                             chd': real, hsd': real, target': real, cover': real, h: HitType)
    requires base >= 0.0 && Factor(weaponDamage) >= 0.0
    requires chd <= chd' && hsd <= hsd' && target <= target' && cover <= cover'
    requires HitFactor(chd, hsd, h) >= 0.0 && Factor(target) >= 0.0 && Factor(cover) >= 0.0
    ensures Chain(base, weaponDamage, chd, hsd, target, cover, h) <= Chain(base, weaponDamage, chd', hsd', target', cover', h)
  {
    var d := base * Factor(weaponDamage);
    ProductMonotone(0.0, base, 0.0, Factor(weaponDamage));
    var hf := if h == Body then 1.0 else HitFactor(chd, hsd, h);
    var hf' := if h == Body then 1.0 else HitFactor(chd', hsd', h);
    assert hf <= hf';
    ChainOfProductsMonotone(d, hf, hf', Factor(target), Factor(target'), Factor(cover), Factor(cover'));
  }

  /** Raising core attribute 2's value, with everything else fixed, never
      lowers the damage of a bullet of non-negative base damage whose factors
      are not below 0, whichever stat the category feeds. */
  lemma Core2NeverLowersDamage(w: Weapon, sc: Scenario, h: HitType, x: real)
    requires w.baseDamage >= 0.0 && x >= w.coreAttribute2
    requires Factor(AllWeaponDamage(w) + SpecificWeaponDamage(w)) >= 0.0
    requires HitFactor(CritHitDamage(w), HeadshotDamage(w), h) >= 0.0
    requires Factor(TargetDamage(w, sc)) >= 0.0 && Factor(OutOfCoverDamage(w, sc)) >= 0.0
    ensures BulletDamage(w, sc, h) <= BulletDamage(w.(coreAttribute2 := x), sc, h)
  {
    var v := w.(coreAttribute2 := x);
    assert CritHitDamage(w) <= CritHitDamage(v) && HeadshotDamage(w) <= HeadshotDamage(v);
    assert TargetDamage(w, sc) <= TargetDamage(v, sc) && OutOfCoverDamage(w, sc) <= OutOfCoverDamage(v, sc);
    ChainMonotoneInSlots(w.baseDamage, AllWeaponDamage(w) + SpecificWeaponDamage(w), CritHitDamage(w), HeadshotDamage(w),
      TargetDamage(w, sc), OutOfCoverDamage(w, sc), CritHitDamage(v), HeadshotDamage(v), TargetDamage(v, sc), OutOfCoverDamage(v, sc), h);
    RoundProperties(0, RawDamage(w, sc, h), RawDamage(v, sc, h));
  }

  /** Raising the secondary attribute's value never lowers the damage either,
      under the same conditions, whichever stat the attribute is. */
  lemma AttributeValueNeverLowersDamage(w: Weapon, sc: Scenario, h: HitType, x: real)
    requires w.baseDamage >= 0.0 && x >= w.attribute.value
    requires Factor(AllWeaponDamage(w) + SpecificWeaponDamage(w)) >= 0.0
    requires HitFactor(CritHitDamage(w), HeadshotDamage(w), h) >= 0.0
    requires Factor(TargetDamage(w, sc)) >= 0.0 && Factor(OutOfCoverDamage(w, sc)) >= 0.0
    ensures BulletDamage(w, sc, h) <= BulletDamage(w.(attribute := w.attribute.(value := x)), sc, h)
  {
    var v := w.(attribute := w.attribute.(value := x));
    assert CritHitDamage(w) <= CritHitDamage(v) && HeadshotDamage(w) <= HeadshotDamage(v);
    assert TargetDamage(w, sc) <= TargetDamage(v, sc) && OutOfCoverDamage(w, sc) <= OutOfCoverDamage(v, sc);
    ChainMonotoneInSlots(w.baseDamage, AllWeaponDamage(w) + SpecificWeaponDamage(w), CritHitDamage(w), HeadshotDamage(w),
      TargetDamage(w, sc), OutOfCoverDamage(w, sc), CritHitDamage(v), HeadshotDamage(v), TargetDamage(v, sc), OutOfCoverDamage(v, sc), h);
    RoundProperties(0, RawDamage(w, sc, h), RawDamage(v, sc, h));
  }

  // ---------------------------------------------------------------------------
  // Sustained fire

  /** Critical hit chance: the base 10 plus what the slots add to CHC, capped
      at 60 after the summation. */
  function CritChance(w: Weapon): (r: real)
    ensures r <= 60.0
    ensures BaseStats.chc + Bonus(w, CHC) >= 60.0 ==> r == 60.0
    ensures BaseStats.chc + Bonus(w, CHC) < 60.0 ==> r == BaseStats.chc + Bonus(w, CHC)
  {
    Min(BaseStats.chc + Bonus(w, CHC), 60.0)
  }

  /** Rounds per minute while firing: only a Rate of Fire attribute changes it. */
  function FireRate(w: Weapon): real
  {
    w.rpm * Factor(AttributeBonus(w, RateOfFire))
  }

  /** Rounds per magazine: only a Mag Size attribute changes it, then it is rounded. */
  function MagazineSize(w: Weapon): int
  {
    Round(w.magSize * Factor(AttributeBonus(w, MagSize)))
  }

  /** Reload speed bonus: the base 10 plus a Reload Speed attribute. */
  function ReloadSpeedBonus(w: Weapon): real
  {
    BaseStats.reloadSpeed + AttributeBonus(w, ReloadSpeed)
  }

  /** A reload time shortened by a reload speed bonus in percent. */
  function ReducedReloadTime(reloadTime: real, reloadSpeed: real): real
  {
    reloadTime * (1.0 - reloadSpeed / 100.0)
  }

  /** Seconds to empty a magazine at rpm rounds per minute and reload it. */
  function CycleTime(magSize: int, rpm: real, reloadTime: real): real
    requires rpm != 0.0
  {
    (magSize as real / rpm) * 60.0 + reloadTime
  }

  /** Rounds per minute averaged over a magazine-plus-reload cycle. */
  function CycleRpm(magSize: int, rpm: real, reloadTime: real): real
    requires rpm != 0.0 && CycleTime(magSize, rpm, reloadTime) != 0.0
  {
    (magSize as real / CycleTime(magSize, rpm, reloadTime)) * 60.0
  }

  /** Body-shot damage and critical body-shot damage weighted by a crit chance in percent. */
  function Weighted(body: int, crit: int, critChance: real): real
  {
    body as real * (1.0 - critChance / 100.0) + crit as real * (critChance / 100.0)
  }

  function EffectiveReloadTime(w: Weapon): real
  {
    ReducedReloadTime(w.reloadTime, ReloadSpeedBonus(w))
  }

  /** calculateDPS yields finite figures for the weapon. At a fire rate of 0
      the time to empty the magazine is infinite in the source, so the
      effective rate is 0, as long as the magazine is not empty (0 / 0 is NaN).
      At any other fire rate the cycle must not take 0 seconds. */
  predicate Computable(w: Weapon)
  {
    if FireRate(w) == 0.0 then MagazineSize(w) != 0
    else CycleTime(MagazineSize(w), FireRate(w), EffectiveReloadTime(w)) != 0.0
  }

  /** What calculateDPS reads of a loadout: the four rounded bullet damages,
      the capped crit chance and the three stats of the reload cycle. */
  datatype Sheet = Sheet(
    body: int,
    bodyCrit: int,
    headshot: int,
    headshotCrit: int,
    critChance: real,
    fireRate: real,
    magSize: int,
    reloadTime: real)

  function WeaponSheet(w: Weapon, sc: Scenario): (s: Sheet)
    ensures Computable(w) <==> Cyclable(s)
  {
    Sheet(BulletDamage(w, sc, Body), BulletDamage(w, sc, BodyCrit), BulletDamage(w, sc, Headshot),
      BulletDamage(w, sc, HeadshotCrit), CritChance(w), FireRate(w), MagazineSize(w), EffectiveReloadTime(w))
  }

  /** calculateDPS yields finite figures for the sheet (as Computable). */
  predicate Cyclable(s: Sheet)
  {
    if s.fireRate == 0.0 then s.magSize != 0
    else CycleTime(s.magSize, s.fireRate, s.reloadTime) != 0.0
  }

  /** The figures calculateDPS returns (the effective reload time and the
      critical hit chance as numbers; their two- and one-decimal formatting is
      presentation). */
  datatype DpsReport = DpsReport(
    dps: int,
    bodyDamage: int,
    bodyCritDamage: int,
    headshotDamage: int,
    headshotCritDamage: int,
    avgDamage: int,
    effectiveRpm: int,
    effectiveMagSize: int,
    effectiveReloadTime: real,
    critChance: real)

  /** The figures of a sheet: the crit-weighted average, the rate over the
      cycle (0 when the weapon does not fire), and the damage per second from
      the two. */
  function Figures(s: Sheet): DpsReport
    requires Cyclable(s)
  {
    var avg := Weighted(s.body, s.bodyCrit, s.critChance);
    var rpm := if s.fireRate == 0.0 then 0.0 else CycleRpm(s.magSize, s.fireRate, s.reloadTime);
    DpsReport(Round((avg * rpm) / 60.0), s.body, s.bodyCrit, s.headshot, s.headshotCrit,
      Round(avg), Round(rpm), s.magSize, s.reloadTime, s.critChance)
  }

  function Report(w: Weapon, sc: Scenario): DpsReport
    requires Computable(w)
  {
    Figures(WeaponSheet(w, sc))
  }

  /** The check the source repeats for rpm and magazine size: scale x by the
      secondary attribute when its type is t. */
  method ScaleByAttribute(w: Weapon, t: StatType, x: real) returns (scaled: real)
    ensures scaled == x * Factor(AttributeBonus(w, t))
  {
    scaled := x;
    if w.attribute.statType == t {
      scaled := scaled * (1.0 + w.attribute.value / 100.0);
    }
  }

  /** The second half of calculateDPS, from the sheet of a loadout: the
      seconds per magazine and the rounds per minute over the cycle, the
      crit-weighted average damage, the damage per second, and the rounded
      figures. A fire rate of 0 makes the seconds per magazine infinite in the
      source and the rounds per minute over the cycle 0. */
  method SheetDps(s: Sheet) returns (r: DpsReport)
    requires Cyclable(s)
    ensures r == Figures(s)
  {
    var effectiveRpm;
    if s.fireRate == 0.0 {
      effectiveRpm := 0.0;
    } else {
      var timePerMag := (s.magSize as real / s.fireRate) * 60.0 + s.reloadTime;
      effectiveRpm := (s.magSize as real / timePerMag) * 60.0;
      assert effectiveRpm == CycleRpm(s.magSize, s.fireRate, s.reloadTime);
    }

    var avgDamage := s.body as real * (1.0 - s.critChance / 100.0) + s.bodyCrit as real * (s.critChance / 100.0);
    assert avgDamage == Weighted(s.body, s.bodyCrit, s.critChance);
    var dps := (avgDamage * effectiveRpm) / 60.0;

    r := DpsReport(
      Round(dps),
      s.body,
      s.bodyCrit,
      s.headshot,
      s.headshotCrit,
      Round(avgDamage),
      Round(effectiveRpm),
      s.magSize,
      s.reloadTime,
      s.critChance);
  }

  /** calculateDPS, step by step as the source computes it: the capped crit
      chance, the scaled rate of fire and magazine, the shortened reload, the
      four bullets, and then the figures of SheetDps. */
  method CalculateDps(w: Weapon, sc: Scenario) returns (r: DpsReport)
    requires Computable(w)
    ensures r == Report(w, sc)
  {
    var chc := AddSlotBonuses(w, CHC, BaseStats.chc);
    chc := Min(chc, 60.0);

    var rpm := ScaleByAttribute(w, RateOfFire, w.rpm);
    var magSize := ScaleByAttribute(w, MagSize, w.magSize);
    var roundedMagSize := Round(magSize);
    assert chc == CritChance(w) && rpm == FireRate(w) && roundedMagSize == MagazineSize(w);

    var reloadSpeed := BaseStats.reloadSpeed;
    if w.attribute.statType == ReloadSpeed {
      reloadSpeed := reloadSpeed + w.attribute.value;
    }
    var effectiveReloadTime := w.reloadTime * (1.0 - reloadSpeed / 100.0);
    assert effectiveReloadTime == EffectiveReloadTime(w);

    var bodyDamage := CalculateBulletDamage(w, sc, Body);
    var bodyCritDamage := CalculateBulletDamage(w, sc, BodyCrit);
    var headshotDamage := CalculateBulletDamage(w, sc, Headshot);
    var headshotCritDamage := CalculateBulletDamage(w, sc, HeadshotCrit);

    var s := Sheet(bodyDamage, bodyCritDamage, headshotDamage, headshotCritDamage,
      chc, rpm, roundedMagSize, effectiveReloadTime);
    assert s == WeaponSheet(w, sc);
    r := SheetDps(s);
  }

  // ---------------------------------------------------------------------------
  // Properties of sustained fire

  /** Core attribute 2 never reaches the rate of fire, the magazine or the
      reload; each of those is changed only by its own attribute type. */
  lemma CycleStatsFromAttributeOnly(w: Weapon, x: real)
    ensures FireRate(w.(coreAttribute2 := x)) == FireRate(w)
    ensures MagazineSize(w.(coreAttribute2 := x)) == MagazineSize(w)
    ensures EffectiveReloadTime(w.(coreAttribute2 := x)) == EffectiveReloadTime(w)
    ensures w.attribute.statType != RateOfFire ==> FireRate(w) == w.rpm
    ensures w.attribute.statType != MagSize ==> MagazineSize(w) == Round(w.magSize)
    ensures w.attribute.statType != ReloadSpeed ==> ReloadSpeedBonus(w) == BaseStats.reloadSpeed
  {
  }

  /** With a positive magazine and fire rate and a reload time not below 0,
      the cycle takes positive time and its average rate is positive and at
      most the fire rate, equal to it exactly when the reload takes no time. */
  lemma CycleRpmBounds(magSize: int, rpm: real, reloadTime: real)
    requires magSize > 0 && rpm > 0.0 && reloadTime >= 0.0
    ensures CycleTime(magSize, rpm, reloadTime) > 0.0
    ensures 0.0 < CycleRpm(magSize, rpm, reloadTime) <= rpm
    ensures CycleRpm(magSize, rpm, reloadTime) == rpm <==> reloadTime == 0.0
  {
    var m := magSize as real;
    var firing := (m / rpm) * 60.0;
    assert firing > 0.0;
    var t := CycleTime(magSize, rpm, reloadTime);
    assert t == firing + reloadTime;
    assert t >= firing;
    var r := CycleRpm(magSize, rpm, reloadTime);
    assert r == (m / t) * 60.0;
    assert r * t == m * 60.0;
    assert rpm * firing == m * 60.0;
    if reloadTime == 0.0 {
      assert t == firing;
    } else {
      assert t > firing;
      assert r * t == rpm * firing;
      assert r < rpm;
    }
  }

  /** Reload time makes the effective rate lower than the fire rate. */
  lemma EffectiveRpmBelowFireRate(w: Weapon)
    requires FireRate(w) > 0.0 && MagazineSize(w) > 0 && EffectiveReloadTime(w) > 0.0
    ensures Computable(w)
    ensures 0.0 < CycleRpm(MagazineSize(w), FireRate(w), EffectiveReloadTime(w)) < FireRate(w)
  {
    CycleRpmBounds(MagazineSize(w), FireRate(w), EffectiveReloadTime(w));
  }

  /** A crit-weighted average lies between the body and the critical damage,
      and is one of them at a chance of 0 or 100. */
  lemma WeightedBetween(body: int, crit: int, critChance: real)
    requires 0.0 <= critChance <= 100.0
    ensures Min(body as real, crit as real) <= Weighted(body, crit, critChance) <= Max(body as real, crit as real)
    ensures critChance == 0.0 ==> Weighted(body, crit, critChance) == body as real
    ensures critChance == 100.0 ==> Weighted(body, crit, critChance) == crit as real
  {
    var p := critChance / 100.0;
    assert Weighted(body, crit, critChance) == body as real + (crit - body) as real * p;
    if body <= crit {
      assert 0.0 <= (crit - body) as real * p <= (crit - body) as real;
    } else {
      assert (crit - body) as real <= (crit - body) as real * p <= 0.0;
    }
  }

  /** The reported average damage lies between the body and the critical
      body-shot damage (the chance is at most 60 by the cap). */
  lemma AverageDamageBetween(s: Sheet)
    requires Cyclable(s) && 0.0 <= s.critChance <= 100.0
    ensures Min(s.body as real, s.bodyCrit as real) <= Figures(s).avgDamage as real
    ensures Figures(s).avgDamage as real <= Max(s.body as real, s.bodyCrit as real)
  {
    var avg := Weighted(s.body, s.bodyCrit, s.critChance);
    WeightedBetween(s.body, s.bodyCrit, s.critChance);
    RoundProperties(s.body, Min(s.body as real, s.bodyCrit as real), avg);
    RoundProperties(s.bodyCrit, avg, Max(s.body as real, s.bodyCrit as real));
  }

  /** The figures never read the two headshot damages except to report them. */
  lemma FiguresIgnoreHeadshots(s: Sheet, headshot: int, headshotCrit: int)
    requires Cyclable(s)
    ensures Cyclable(s.(headshot := headshot, headshotCrit := headshotCrit))
    ensures Figures(s.(headshot := headshot, headshotCrit := headshotCrit))
         == Figures(s).(headshotDamage := headshot, headshotCritDamage := headshotCrit)
  {
  }

  /** A sheet that does not fire (fire rate 0, as after clearing the RPM
      field) but has rounds in its magazine shows an effective RPM of 0 and a
      DPS of 0, and still reports its average damage. */
  lemma StalledSheetShowsZero(s: Sheet)
    requires s.fireRate == 0.0 && s.magSize != 0
    ensures Cyclable(s)
    ensures Figures(s).dps == 0 && Figures(s).effectiveRpm == 0
    ensures Figures(s).avgDamage == Round(Weighted(s.body, s.bodyCrit, s.critChance))
  {
  }

  /** A weapon with an RPM of 0 and a non-empty magazine has figures, and they
      show 0 DPS and 0 effective RPM. */
  lemma ZeroRpmShowsZeroDps(w: Weapon, sc: Scenario)
    requires w.rpm == 0.0 && MagazineSize(w) != 0
    ensures Computable(w)
    ensures Report(w, sc).dps == 0 && Report(w, sc).effectiveRpm == 0
  {
    assert FireRate(w) == 0.0;
    StalledSheetShowsZero(WeaponSheet(w, sc));
  }

  /** With no damage per bullet there is no damage per second. */
  lemma FiguresOfZeroDamage(s: Sheet)
    requires Cyclable(s) && s.body == 0 && s.bodyCrit == 0
    ensures Figures(s).dps == 0 && Figures(s).avgDamage == 0
  {
    assert Weighted(s.body, s.bodyCrit, s.critChance) == 0.0;
  }

  /** Body and critical body shots do not read the HSD stat. */
  lemma ChainIgnoresHsd(base: real, weaponDamage: real, chd: real, hsd: real, hsd': real, target: real, cover: real, h: HitType)
    requires h == Body || h == BodyCrit
    ensures Chain(base, weaponDamage, chd, hsd, target, cover, h) == Chain(base, weaponDamage, chd, hsd', target, cover, h)
  {
  }

  /** Two weapons that agree on everything but their headshot damage have
      the same body-shot damages and cycle stats, hence (by
      FiguresIgnoreHeadshots) the same DPS and average damage. */
  lemma SheetIgnoresHeadshots(w: Weapon, v: Weapon, sc: Scenario)
    requires v.baseDamage == w.baseDamage
    requires AllWeaponDamage(v) + SpecificWeaponDamage(v) == AllWeaponDamage(w) + SpecificWeaponDamage(w)
    requires CritHitDamage(v) == CritHitDamage(w)
    requires TargetDamage(v, sc) == TargetDamage(w, sc) && OutOfCoverDamage(v, sc) == OutOfCoverDamage(w, sc)
    requires CritChance(v) == CritChance(w)
    requires FireRate(v) == FireRate(w) && MagazineSize(v) == MagazineSize(w) && EffectiveReloadTime(v) == EffectiveReloadTime(w)
    ensures WeaponSheet(v, sc)
         == WeaponSheet(w, sc).(headshot := BulletDamage(v, sc, Headshot), headshotCrit := BulletDamage(v, sc, HeadshotCrit))
  {
    var wd, chd, t, c := AllWeaponDamage(w) + SpecificWeaponDamage(w), CritHitDamage(w), TargetDamage(w, sc), OutOfCoverDamage(w, sc);
    ChainIgnoresHsd(w.baseDamage, wd, chd, HeadshotDamage(w), HeadshotDamage(v), t, c, Body);
    ChainIgnoresHsd(w.baseDamage, wd, chd, HeadshotDamage(w), HeadshotDamage(v), t, c, BodyCrit);
  }

  /** Two loadouts whose sheets differ at most in the headshot damages have
      the same DPS and average damage. */
  lemma ReportIgnoresHeadshots(w: Weapon, v: Weapon, sc: Scenario)
    requires Computable(w)
    requires WeaponSheet(v, sc)
          == WeaponSheet(w, sc).(headshot := WeaponSheet(v, sc).headshot, headshotCrit := WeaponSheet(v, sc).headshotCrit)
    ensures Computable(v)
    ensures Report(v, sc).dps == Report(w, sc).dps && Report(v, sc).avgDamage == Report(w, sc).avgDamage
  {
    FiguresIgnoreHeadshots(WeaponSheet(w, sc), WeaponSheet(v, sc).headshot, WeaponSheet(v, sc).headshotCrit);
  }

  /** The weapon's own headshot bonus does not change the DPS. */
  lemma DpsIgnoresBaseHsd(w: Weapon, sc: Scenario, x: real)
    requires Computable(w)
    ensures Computable(w.(baseHSD := x))
    ensures Report(w.(baseHSD := x), sc).dps == Report(w, sc).dps
    ensures Report(w.(baseHSD := x), sc).avgDamage == Report(w, sc).avgDamage
  {
    var v := w.(baseHSD := x);
    CycleStatsFromAttributeOnly(w, w.coreAttribute2);
    assert CritHitDamage(v) == CritHitDamage(w) && CritChance(v) == CritChance(w);
    assert FireRate(v) == FireRate(w) && MagazineSize(v) == MagazineSize(w) && EffectiveReloadTime(v) == EffectiveReloadTime(w);
    assert TargetDamage(v, sc) == TargetDamage(w, sc) && OutOfCoverDamage(v, sc) == OutOfCoverDamage(w, sc);
    SheetIgnoresHeadshots(w, v, sc);
    ReportIgnoresHeadshots(w, v, sc);
  }

  /** A marksman rifle's core attribute 2 (HSD) does not change the DPS. */
  lemma DpsIgnoresMarksmanCore2(w: Weapon, sc: Scenario, x: real)
    requires w.category == MarksmanRifle && Computable(w)
    ensures Computable(w.(coreAttribute2 := x))
    ensures Report(w.(coreAttribute2 := x), sc).dps == Report(w, sc).dps
    ensures Report(w.(coreAttribute2 := x), sc).avgDamage == Report(w, sc).avgDamage
  {
    var v := w.(coreAttribute2 := x);
    CycleStatsFromAttributeOnly(w, x);
    assert Bonus(v, CHD) == Bonus(w, CHD) && Bonus(v, CHC) == Bonus(w, CHC);
    assert Bonus(v, DTA) == Bonus(w, DTA) && Bonus(v, DTH) == Bonus(w, DTH) && Bonus(v, DTTOOC) == Bonus(w, DTTOOC);
    SheetIgnoresHeadshots(w, v, sc);
    ReportIgnoresHeadshots(w, v, sc);
  }

  /** A pistol has no core attribute 2: its value changes no figure at all. */
  lemma PistolCore2Inert(w: Weapon, sc: Scenario, x: real)
    requires w.category == Pistol
    ensures forall t :: t != NoType ==> Bonus(w.(coreAttribute2 := x), t) == Bonus(w, t)
    ensures WeaponSheet(w.(coreAttribute2 := x), sc) == WeaponSheet(w, sc)
    ensures Computable(w) ==> Computable(w.(coreAttribute2 := x)) && Report(w.(coreAttribute2 := x), sc) == Report(w, sc)
  {
    var v := w.(coreAttribute2 := x);
    CycleStatsFromAttributeOnly(w, x);
    assert CritHitDamage(v) == CritHitDamage(w) && HeadshotDamage(v) == HeadshotDamage(w);
    assert TargetDamage(v, sc) == TargetDamage(w, sc) && OutOfCoverDamage(v, sc) == OutOfCoverDamage(w, sc);
    assert CritChance(v) == CritChance(w);
    forall h ensures BulletDamage(v, sc, h) == BulletDamage(w, sc, h) {
      assert RawDamage(v, sc, h) == RawDamage(w, sc, h);
    }
  }

  /** The stats of the default loadout (LMG, 49480 base damage, 750 rpm, 200
      rounds, 3.63 s reload, SWD 15, DTTOOC 12, CHC 9.5) against armor out of
      cover. */
  lemma DefaultLoadoutStats()
    ensures AllWeaponDamage(DefaultWeapon) + SpecificWeaponDamage(DefaultWeapon) == 25.0
    ensures CritHitDamage(DefaultWeapon) == 45.0 && HeadshotDamage(DefaultWeapon) == 85.0
    ensures TargetDamage(DefaultWeapon, DefaultScenario) == 0.0
    ensures OutOfCoverDamage(DefaultWeapon, DefaultScenario) == 12.0
    ensures CritChance(DefaultWeapon) == 19.5
    ensures FireRate(DefaultWeapon) == 750.0 && MagazineSize(DefaultWeapon) == 200
    ensures EffectiveReloadTime(DefaultWeapon) == 3.267
  {
    assert Bonus(DefaultWeapon, CHC) == 9.5;
  }

  /** The damage chain at the default loadout's stats, per hit type. */
  lemma DefaultLoadoutChain()
    ensures Round(Chain(49480.0, 25.0, 45.0, 85.0, 0.0, 12.0, Body)) == 69272
    ensures Round(Chain(49480.0, 25.0, 45.0, 85.0, 0.0, 12.0, BodyCrit)) == 100444
    ensures Round(Chain(49480.0, 25.0, 45.0, 85.0, 0.0, 12.0, Headshot)) == 128153
    ensures Round(Chain(49480.0, 25.0, 45.0, 85.0, 0.0, 12.0, HeadshotCrit)) == 159326
  {
    assert Chain(49480.0, 25.0, 45.0, 85.0, 0.0, 12.0, Body) == 69272.0;
    assert Chain(49480.0, 25.0, 45.0, 85.0, 0.0, 12.0, BodyCrit) == 100444.4;
    assert Chain(49480.0, 25.0, 45.0, 85.0, 0.0, 12.0, Headshot) == 128153.2;
    assert Chain(49480.0, 25.0, 45.0, 85.0, 0.0, 12.0, HeadshotCrit) == 159325.6;
  }

  /** The sheet of the default loadout. */
  lemma DefaultLoadoutSheet()
    ensures WeaponSheet(DefaultWeapon, DefaultScenario) == Sheet(69272, 100444, 128153, 159326, 19.5, 750.0, 200, 3.267)
  {
    DefaultLoadoutStats();
    DefaultLoadoutChain();
  }

  /** The figures the default loadout is reported with. */
  lemma DefaultLoadoutReport()
    ensures Computable(DefaultWeapon)
    ensures Report(DefaultWeapon, DefaultScenario)
         == DpsReport(782172, 69272, 100444, 128153, 159326, 75351, 623, 200, 3.267, 19.5)
  {
    DefaultLoadoutSheet();
    var s := Sheet(69272, 100444, 128153, 159326, 19.5, 750.0, 200, 3.267);
    assert CycleTime(s.magSize, s.fireRate, s.reloadTime) == 19.267;
    assert Weighted(s.body, s.bodyCrit, s.critChance) == 75350.54;
  }
}
