# dmg-div2 damage calculator in Dafny

This project models the two damage calculators of the dmg-div2 game tool. Both are
React components that turn a weapon build into damage-per-bullet and
damage-per-second figures.

- **The full calculator (`src/App.jsx`)**
  - It keeps a weapon record and a combat scenario as state.
  - It updates the weapon when the form changes.
  - It aggregates the stats of the weapon's slots:
    - all weapon damage and specific weapon damage;
    - critical hit damage and headshot damage;
    - damage to armor or to health;
    - damage to targets out of cover.
  - It rounds the damage of the four hit types: body, critical body, headshot and critical headshot.
  - It derives the sustained DPS over a magazine-plus-reload cycle.
  - It filters the attribute list offered for the weapon's category.
- **The older variant (`src/dmg.jsx`)**
  - It keeps a record of numbers and two option tags.
  - Its aggregation adds a fixed 15 for the core attribute 2 choice and a fixed 10 for the attribute choice.
  - It applies one unrounded per-bullet formula.
  - It derives DPS, critical DPS and headshot DPS from that formula.

## Modules

| module | file | contents |
|---|---|---|
| `Wrappers` | `wrappers.dfy` | `Option` |
| `Numbers` | `numbers.dfy` | `Math.round`, `Math.min` and `Math.max` on exact reals; the `(1 + x/100)` factor |
| `ParseFloat` | `parse_float.dfy` | JavaScript `parseFloat` on form text, and the `parseFloat(value) \|\| 0` idiom |
| `AppTables` | `app_tables.dfy` | the three static tables; `find` and `filter` on the attribute table |
| `AppWeapon` | `app_weapon.dfy` | the weapon record, the scenario, and the change handler as a function on records |
| `AppDamage` | `app_damage.dfy` | the stat aggregation, `calculateBulletDamage` and `calculateDPS` |
| `AppState` | `app_state.dfy` | class `Calculator`: the component's state, its change handler, and the two values derived on every render |
| `Dmg` | `dmg.dfy` | the older variant; class `WeaponDamageCalculator` holds its `stats` state |

### How the model is built

- **Numbers are exact reals.**
  - `Math.round(x)` is `(x + 1/2).Floor`.
  - Every division has a precondition that its divisor is not 0.
- **Straight-line code becomes methods.** The source accumulates `let` variables step by step; the model does the same:
  - `CalculateBulletDamage`, `CalculateDps`, `SheetDps` and `Dmg.Aggregate` are methods with the same conditional updates;
  - each method is proved equal to a specification function (`BulletDamage`, `Report`, `Figures`, `Aggregated`);
  - the lemmas then state the calculators' properties about those functions.
- **State is a class.**
  - The full calculator's state is the class `AppState.Calculator`. Its `HandleWeaponChange` is proved against the record function `AppWeapon.WeaponChange`.
  - The older variant's state is `Dmg.WeaponDamageCalculator`. Its `Update` is proved against `Dmg.Updated`.

### What the code does and does not do

The model follows the code.

- No input is clamped. A value outside a slider's range, such as an attribute value above its table maximum, flows into the formulas unchanged. The only bound the code applies is the cap of 60 on crit chance.
- Neither calculator has weapon mods, gear, set bonuses or any source of total weapon damage. `src/App.jsx`'s chain has no TWD factor at all. `src/dmg.jsx` multiplies by a TWD factor whose value is always 0.
- `calculateDPS` returns the effective reload time and the crit chance formatted with `toFixed(2)` and `toFixed(1)`. The model reports both as exact numbers.

## Model

| member | source | states |
|---|---|---|
| Numbers.Round | src/App.jsx:147 | Math.round of x is the integer r with r − 0.5 ≤ x < r + 0.5, so a half rounds up |
| Numbers.RoundProperties | src/App.jsx:169 | rounding returns an integer unchanged and is monotone |
| Numbers.Min | src/App.jsx:158 | Math.min is a lower bound of both arguments and equals one of them |
| Numbers.Max | src/dmg.jsx:122 | Math.max is an upper bound of both arguments and equals one of them |
| Numbers.FactorsCompound | src/App.jsx:141 | two percentage factors applied one after the other exceed the single factor of their sum by a·b/10000 |
| ParseFloat.DigitValue | src/App.jsx:98 | a digit's value is at most 9 |
| ParseFloat.DigitChar | src/App.jsx:98 | every value 0-9 has a digit whose value it is |
| ParseFloat.TrimStart | src/App.jsx:98 | parseFloat's leading white-space skip never lengthens the text and leaves none at its head |
| ParseFloat.TrimStartSkipsSpaces | src/App.jsx:98 | the skip returns a suffix of the text, and everything it removed is white space |
| ParseFloat.DigitRun | src/App.jsx:98 | the digit run is empty exactly when the text does not start with a digit |
| ParseFloat.FractionValue | src/App.jsx:98 | digits after the point have a value in [0, 1) |
| ParseFloat.ApplyExponent | src/App.jsx:98 | scaling a positive mantissa by a power of ten keeps it positive |
| ParseFloat.Unsigned | src/App.jsx:98 | dropping the sign never lengthens the text |
| ParseFloat.ParseUnsigned | src/App.jsx:98 | an unsigned literal is recognised exactly when the text starts with a digit, or with a point followed by a digit |
| ParseFloat.ParseFloat | src/App.jsx:98 | parseFloat gives a number (not NaN) exactly when a digit, or a point followed by a digit, follows the white space and the sign |
| ParseFloat.NonNumericBecomesZero | src/App.jsx:98 | `parseFloat(value) \|\| 0` is 0 exactly when the text does not parse or parses to 0, and is the parsed number otherwise |
| ParseFloat.NatToString | src/App.jsx:101 | the decimal text of a natural number is a non-empty digit string |
| ParseFloat.NatToStringValue | src/App.jsx:101 | the decimal text of n has value n |
| ParseFloat.DigitRunOfDigits | src/App.jsx:101 | a digit string followed by a non-digit is read as a digit run of exactly its length |
| ParseFloat.ParseFloatOfDigitStart | src/App.jsx:101 | text starting with a digit parses to its unsigned value |
| ParseFloat.ParseFloatOfNegatedDigitStart | src/App.jsx:101 | a leading minus negates the parsed value |
| ParseFloat.ParseUnsignedInteger | src/App.jsx:101 | a digit string followed by text that is neither a point nor an exponent reads as its integer value |
| ParseFloat.ParseNatToString | src/App.jsx:101 | the decimal text of any natural number n, followed by text that cannot continue a literal, parses to n, and with a leading minus to −n |
| ParseFloat.ParseRejects | src/App.jsx:98 | "", "abc", "." and "-" are not numbers, so the handler stores 0 for them |
| ParseFloat.ParseUnsignedDecimal | src/App.jsx:98 | the unsigned literal of digits, a point and digits reads as the integer part plus the fraction |
| ParseFloat.ParseDecimal | src/App.jsx:98 | digits, a point and digits, followed by text that cannot continue a literal, parse to the integer part plus the fraction |
| ParseFloat.ParseFraction | src/App.jsx:98 | "9.5" parses to 9.5 |
| ParseFloat.ParseIgnoresTrailingText | src/App.jsx:101 | "3.63s" parses to 3.63: trailing text is ignored |
| ParseFloat.ParseExponent | src/App.jsx:101 | "1e2" parses to 100 |
| AppTables.CategoriesListed | src/App.jsx:19-27 | the category select offers every category, each once |
| AppTables.Core2ByCategory | src/App.jsx:37-45 | the core attribute 2 type is "None" exactly for a Pistol, and its maximum is then 0 |
| AppTables.Core2TypesDistinct | src/App.jsx:37-45 | different categories feed different stats through core attribute 2 |
| AppTables.TableIndexed | src/App.jsx:47-58 | the attribute table lists every stat type except "None" exactly once |
| AppTables.Find | src/App.jsx:90 | `find` by type fails exactly when no entry has the type, and otherwise returns an entry of the table with that type |
| AppTables.FindFirst | src/App.jsx:90 | `find` returns the first entry of the type |
| AppTables.AttributeLookup | src/App.jsx:47-58 | looking up a type in the attribute table fails exactly for "None" |
| AppTables.Without | src/App.jsx:206-208 | `filter` keeps exactly the entries of other types |
| AppTables.WithoutAbsent | src/App.jsx:206-208 | filtering out a type no entry has returns the list unchanged |
| AppTables.WithoutRemovesOne | src/App.jsx:206-208 | filtering out a type that exactly one entry has removes just that entry and keeps the order of the rest |
| AppTables.ListedOnceAt | src/App.jsx:47-58 | a type the table lists is at its table index and at no other index |
| AppTables.WithoutListedType | src/App.jsx:206-208 | filtering out a listed type removes exactly the entry at its index, keeps the rest in order and leaves 9 entries |
| AppTables.WithoutNoType | src/App.jsx:206-208 | filtering out "None" keeps the whole table |
| AppTables.SelectableAttributesShape | src/App.jsx:204-208 | a Pistol is offered the whole table; any other category is offered the table minus exactly the entry of its core attribute 2 type, at that type's table index, in order, leaving 9 entries |
| AppWeapon.Set | src/App.jsx:101 | `{ ...prev, [field]: x }` sets the named field to x and leaves every other field as it was |
| AppWeapon.CategoryChanged | src/App.jsx:81-88 | a category change sets the category, sets core attribute 2 to the category's maximum and the attribute to CHC 9.5, and keeps every other field |
| AppWeapon.AttributeTypeChanged | src/App.jsx:89-94 | an attribute type change fails exactly for a type with no table entry; otherwise it sets the attribute to that type with the table's value and changes nothing else |
| AppWeapon.WeaponChange | src/App.jsx:80-103 | the change handler fails only for a missing attribute type. Each branch sets the fields it names: the category and core attribute 2 maximum with CHC 9.5; the type with its table maximum; the parsed attribute value or 0; or the parsed numeric field or 0. Everything else is kept |
| AppWeapon.AttributeTypeChangeUsesMax | src/App.jsx:89-94 | the attribute value installed is the maximum of the table's first entry of that type |
| AppWeapon.SmgCategoryChangeKeepsChc | src/App.jsx:87 | switching to SMG installs a CHC attribute, the type of SMG's core attribute 2, although the SMG's selectable list has no CHC entry |
| AppState.Calculator.constructor | src/App.jsx:61-78 | the state starts with the default LMG loadout against armor out of cover |
| AppState.Calculator.HandleWeaponChange | src/App.jsx:80-103 | the weapon state becomes the changed record when the change applies and stays as it was when the type lookup fails; the scenario is untouched |
| AppState.Calculator.Stats | src/App.jsx:203 | the figures shown are `calculateDPS` of the current weapon and scenario |
| AppState.Calculator.AvailableAttributesList | src/App.jsx:204-208 | the offered list is the selectable list of the category: table entries of types other than core attribute 2's |
| AppState.SmgCategoryChangeFromStart | src/App.jsx:81-88 | from the initial state, a change to SMG leaves an attribute type that the offered list does not contain |
| AppDamage.AddSlotBonuses | src/App.jsx:112-131 | each stat's accumulation adds core attribute 2 when its category's type is that stat, and the attribute when its type is that stat |
| AppDamage.ApplyChain | src/App.jsx:134-147 | the factor-by-factor multiplication rounds to the chain of factors for the hit type |
| AppDamage.CalculateBulletDamage | src/App.jsx:105-148 | calculateBulletDamage equals the rounded chain over the aggregated stats for each hit type |
| AppDamage.WithoutSources | src/App.jsx:112-131 | removing the sources of one stat zeroes that stat's bonus and leaves every other stat's bonus and every other field unchanged |
| AppDamage.UnreadSourcesIrrelevant | src/App.jsx:119-132 | the sources of a stat the chain does not read for the scenario do not change the damage |
| AppDamage.CoverSuppressesOutOfCover | src/App.jsx:128-132 | against a target in cover DTTOOC is 0, and the damage is as with no DTTOOC sources at all |
| AppDamage.TargetIgnoresOtherStat | src/App.jsx:119-126 | against armor, DTH sources change nothing; against health, DTA sources change nothing |
| AppDamage.CoverScalesDamage | src/App.jsx:128-132 | out of cover the damage is the in-cover damage times the DTTOOC factor |
| AppDamage.Core2FeedsOnlyItsType | src/App.jsx:106-131 | core attribute 2 changes no stat other than its category's type |
| AppDamage.ChainByHitType | src/App.jsx:134-147 | each hit type is the body damage times its own factor: 1, the CHD factor, the HSD factor, or one factor of CHD + HSD |
| AppDamage.HeadshotCritNotCompounded | src/App.jsx:140-141 | with positive CHD, HSD and body damage, a critical headshot deals strictly less than the CHD and HSD factors compounded |
| AppDamage.ZeroBaseDamage | src/App.jsx:134 | a base damage of 0 gives 0 for every hit type |
| AppDamage.ChainMonotone | src/App.jsx:134-145 | with a non-negative base and no factor below 0, more weapon damage never gives a smaller chain |
| AppDamage.ExpertiseNeverLowersDamage | src/App.jsx:108-147 | raising expertise, all else fixed, never lowers a bullet's rounded damage (non-negative base, no factor below 0) |
| AppDamage.Core1NeverLowersDamage | src/App.jsx:109-147 | raising core attribute 1, all else fixed, never lowers a bullet's rounded damage (same conditions) |
| AppDamage.ChainMonotoneInSlots | src/App.jsx:134-145 | with a non-negative base, a weapon-damage factor not below 0 and no hit, target or cover factor below 0, larger CHD, HSD, target and out-of-cover bonuses never give a smaller chain |
| AppDamage.Core2NeverLowersDamage | src/App.jsx:111-147 | raising core attribute 2's value, all else fixed, never lowers a bullet's rounded damage, whichever stat the category feeds (non-negative base, no factor below 0) |
| AppDamage.AttributeValueNeverLowersDamage | src/App.jsx:111-147 | raising the secondary attribute's value, all else fixed, never lowers a bullet's rounded damage, whichever stat it is (same conditions) |
| AppDamage.CritChance | src/App.jsx:151-158 | the crit chance is never above 60; it is 10 plus the CHC bonuses of both slots when that sum is below 60, and 60 otherwise |
| AppDamage.ScaleByAttribute | src/App.jsx:160-168 | rate of fire and magazine size are scaled only by an attribute of their own type |
| AppDamage.WeaponSheet | src/App.jsx:176-178 | the cycle's divisions are defined for the weapon exactly when they are defined for its sheet |
| AppDamage.SheetDps | src/App.jsx:177-200 | the time per magazine, the effective RPM (0 at a fire rate of 0), the crit-weighted average and the DPS, each computed step by step, give the figures of the sheet |
| AppDamage.CalculateDps | src/App.jsx:150-201 | calculateDPS equals the report of the weapon: the capped crit chance, the scaled rate of fire, the rounded magazine, the shortened reload, the four bullets, and the cycle figures |
| AppDamage.CycleStatsFromAttributeOnly | src/App.jsx:160-174 | core attribute 2 never reaches rate of fire, magazine or reload; without an attribute of their own type they are the weapon's rpm, its rounded magazine and the base reload speed 10 |
| AppDamage.CycleRpmBounds | src/App.jsx:177-178 | with a positive magazine and fire rate and a non-negative reload time, the cycle takes positive time; the effective RPM is positive and at most the fire rate, and equals it exactly when the reload takes no time |
| AppDamage.EffectiveRpmBelowFireRate | src/App.jsx:176-178 | a positive reload time puts the effective RPM strictly between 0 and the fire rate |
| AppDamage.WeightedBetween | src/App.jsx:185-186 | the crit-weighted damage lies between body and critical damage; it is the body damage at 0 % and the critical damage at 100 % |
| AppDamage.AverageDamageBetween | src/App.jsx:185-195 | the reported average damage lies between the body and the critical body damage |
| AppDamage.FiguresIgnoreHeadshots | src/App.jsx:185-194 | the headshot damages are only reported; no other figure reads them |
| AppDamage.StalledSheetShowsZero | src/App.jsx:177-196 | at a fire rate of 0 with a magazine size other than 0 the figures exist and show effective RPM 0 and DPS 0, with the average damage still reported |
| AppDamage.ZeroRpmShowsZeroDps | src/App.jsx:160-196 | a weapon whose RPM is 0 (as after clearing the field) and whose magazine size is not 0 shows DPS 0 and effective RPM 0 |
| AppDamage.FiguresOfZeroDamage | src/App.jsx:185-190 | with zero body and critical body damage, DPS and average damage are 0 |
| AppDamage.ChainIgnoresHsd | src/App.jsx:134-143 | body and critical body shots do not read HSD |
| AppDamage.SheetIgnoresHeadshots | src/App.jsx:180-183 | weapons that agree on everything but headshot damage have the same sheet apart from the two headshot entries |
| AppDamage.ReportIgnoresHeadshots | src/App.jsx:185-190 | sheets that differ only in headshot damages give the same DPS and average damage |
| AppDamage.DpsIgnoresBaseHsd | src/App.jsx:180-190 | the weapon's headshot damage stat (line 115) does not change the DPS or the average damage |
| AppDamage.DpsIgnoresMarksmanCore2 | src/App.jsx:180-190 | a marksman rifle's core attribute 2 (HSD) does not change the DPS or the average damage |
| AppDamage.PistolCore2Inert | src/App.jsx:106-158 | a pistol's core attribute 2 changes no stat bonus, no bullet, no cycle stat and no figure |
| AppDamage.DefaultLoadoutStats | src/App.jsx:61-78 | the default loadout has weapon damage 25, CHD 45, HSD 85, no damage-to-armor bonus, DTTOOC 12, crit chance 19.5, 750 rpm, 200 rounds and a 3.267 s reload |
| AppDamage.DefaultLoadoutChain | src/App.jsx:134-147 | at those stats the four hit types round to 69272, 100444, 128153 and 159326 |
| AppDamage.DefaultLoadoutSheet | src/App.jsx:180-183 | the default loadout's sheet holds those four damages and its cycle stats |
| AppDamage.DefaultLoadoutReport | src/App.jsx:185-200 | the default loadout is reported with DPS 782172, average 75351, effective RPM 623, magazine 200, reload 3.267 and crit chance 19.5 |
| Dmg.Updated | src/dmg.jsx:64-69 | `update` sets the named field to the given value and leaves every other field as it was |
| Dmg.WeaponDamageCalculator.constructor | src/dmg.jsx:53-62 | the state starts at base 0, 600 rpm, 30 rounds and no choices |
| Dmg.WeaponDamageCalculator.Update | src/dmg.jsx:64-69 | the stats state becomes the updated record |
| Dmg.Aggregate | src/dmg.jsx:74-136 | the step-by-step aggregation equals the totals: each stat's base plus 15 for a matching core 2 choice and 10 for a matching attribute; DTA and DTH are folded into their maximum; TWD is 0 |
| Dmg.CritChanceOf | src/dmg.jsx:104-107 | the computed crit chance lies between 10 and 35 |
| Dmg.DamagePerBullet | src/dmg.jsx:141-163 | damage per bullet is 0 when the base damage is 0 |
| Dmg.WeaponDamageCalculator.Results | src/dmg.jsx:141-173 | the four figures are damage per bullet, DPS, crit DPS and headshot DPS of the aggregated stats |
| Dmg.BaseTotals | src/dmg.jsx:85-122 | with no choices the totals are the SHD bonuses, expertise and core 1, and the crit chance is 10 |
| Dmg.Core2AddsFifteen | src/dmg.jsx:85-120 | each core 2 option adds exactly 15 to the stat it names and nothing to any other; "None" adds nothing |
| Dmg.AttributeAddsTen | src/dmg.jsx:94-120 | each attribute option adds exactly 10 to the stat it names when the aggregation reads it; "None", rate of fire, reload speed and magazine size add nothing |
| Dmg.UnreadAttributesInert | src/dmg.jsx:94-120 | the rate of fire, reload speed and magazine size attributes leave the aggregation as with "None" |
| Dmg.CritChanceInert | src/dmg.jsx:104-135 | the crit chance is at most 35, and choosing it in either slot leaves every aggregated value as with "None" |
| Dmg.TargetMultiplierIsLarger | src/dmg.jsx:114-122 | the target multiplier is the larger of the DTA and DTH totals, not their sum, whatever the target |
| Dmg.GuardAgreesWithFormula | src/dmg.jsx:153-162 | the zero-base guard agrees with the formula, which is 0 at base 0 anyway |
| Dmg.ZeroBaseZeroDps | src/dmg.jsx:153-173 | with base 0, damage per bullet, DPS, crit DPS and headshot DPS are all 0 |
| Dmg.FormulaWithoutTwd | src/dmg.jsx:130-162 | TWD is 0, and the bullet is the base times the weapon damage, combined CHD+HSD, target and DTTOOC factors |
| Dmg.CritDpsCountsCritTwice | src/dmg.jsx:159-169 | crit DPS multiplies by the CHD factor on top of the combined CHD+HSD factor every bullet carries; crit DPS and headshot DPS are the same DPS times their own factor |
| Dmg.BonusDpsAboveDps | src/dmg.jsx:165-173 | whenever the DPS is positive, crit DPS and headshot DPS exceed it |
| Dmg.InitialFigures | src/dmg.jsx:53-62 | the initial stats give AWD 10, CHD 20, and 0 for DPS, crit DPS and headshot DPS |

## Left out

- Rendering: all JSX and MUI components, and the `toLocaleString` and `toFixed` display strings, are presentation.
- The scenario select handlers (`setCombatScenario`, including the string-to-boolean conversion of `targetInCover`) are presentation. The scenario starts as `DefaultScenario`, and no member of the model changes it.
- `src/ModSelect.jsx` and `src/Slider.jsx` are display components without calculation logic and are not part of this model.
- `useState` and `useMemo` scheduling and re-rendering are not modelled. A state update takes effect at once, and a memoised value is recomputed from the current state.
- Floating point is not modelled. Numbers are exact reals, so the model can differ from IEEE-754 results in the last digits. NaN and Infinity are not values.
- ParseFloat.ParseFloat: does not recognise the literal "Infinity", because there is no infinite real.
- AppDamage.CalculateDps: requires Computable, so it has no figures in two cases where the source shows NaN or Infinity, which are not reals. The first is a fire rate of 0 with an empty magazine, where 0 / 0 is NaN. The second is a fire rate other than 0 with a cycle of 0 seconds, where the effective RPM is Infinity or NaN. A fire rate of 0 with a magazine size other than 0 is modelled: the source's infinite time per magazine gives an effective RPM of 0 and a DPS of 0, as in the model.
- AppState.Calculator.Stats: requires Computable for the same reason.
- AppWeapon.WeaponChange: a category outside the seven known categories cannot be expressed, because Category is an enumeration. The source would crash on reading the maximum of such a category.
- AppWeapon.WeaponChange: a type with no table entry ("None") is modelled as a change that does not apply (None). The source throws a TypeError when it reads the maximum of the missing entry, and the error itself is not modelled.
- Dmg.Updated: receives numbers for the numeric fields. The `Number(...)` conversion of the input text at the call sites in the rendering code is not modelled.
