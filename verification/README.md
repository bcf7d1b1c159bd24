# Build stat derivation — a Dafny model

This project models the build analyzer of a content site for a competitive
team game: `buildStats` in `app/modules/analyzer/stats.ts`. It takes a gear
build and a main weapon id and returns an analyzed build. The result holds the
weapon's sub and special ids and four stats:

- **special point**: the special-gauge cost after Special Charge Up, rounded up;
- **special saved after death**: the percentage of gauge kept on respawn after Special Saver;
- **full ink tank options**: for every number of sub-weapon uses a full tank allows,
  how many actions of each supported ink-consume type the rest of the tank pays for;
- **sub weapon white-ink frames**: copied from the sub weapon.

Numbers are exact rationals (`real`). `Math.floor` and `Math.ceil` are
`Numeric.Floor` and `Numeric.Ceil`. `Number(x.toFixed(2))` is `Numeric.ToFixed2`:
the hundredth nearest to `x`, with a tie going away from zero.

Modules:

- `Wrappers` (`wrappers.dfy`): `Option`, which stands for an optional field, and `Result`.
- `Numeric` (`numeric.dfy`): floor, ceiling and rounding to hundredths.
- `AnalyzerTypes` (`analyzer_types.dfy`): the records, the ink-consume types in their fixed
  order, and `Env`. `Env` holds the three utilities the stats call but whose code is
  not part of this model: the ability-point aggregator, the per-ability lookup and
  the effect-curve evaluator.
- `Stats` (`stats.dfy`): special point, special saved after death, sub-weapon
  consumption, main-weapon consumption by type, and the parameter keys of each type.
- `InkTank` (`ink_tank.dfy`): the full-ink-tank options, with lemmas on their order,
  contents, counts and monotonicity, and a worked case.
- `Analyzer` (`analyzer.dfy`): `buildStats` and its two failed lookups.

The weapon parameter table is an explicit `WeaponTable` argument. The optional
main-weapon ink parameters are a `map<ParamKey, real>`, and a missing key stands
for an undefined field. `ParamKey` lists the 13 parameter names that the type-to-key
switch mentions. The source calls `invariant(...)`, which throws; the model
returns `Failure(WeaponNotFound(id))` or `Failure(SubWeaponNotFound(id))` instead.

The code probes a list of candidate fields for each ink-consume type and takes
the first one defined. The model does the same. It does not turn those fields
into one tagged variant per type. `Stats.ExclusiveFieldDecides` shows that the
fallback order does not matter when the data keeps the fields exclusive.

## Model

| member | source | states |
|---|---|---|
| Numeric.Floor | app/modules/analyzer/stats.ts:164 | `Math.floor`: the result is the integer `n` with `n <= x < n + 1` |
| Numeric.Ceil | app/modules/analyzer/stats.ts:76 | `Math.ceil`: the result is the integer `n` with `x <= n < x + 1` |
| Numeric.ToFixed2 | app/modules/analyzer/stats.ts:138-140 | `Number(x.toFixed(2))`: a whole number of hundredths within 0.005 of `x`, a tie resolved away from zero; these determine the result uniquely |
| Numeric.ToFixed2Monotone | app/modules/analyzer/stats.ts:138-140 | rounding to two places never reverses the order of two values |
| Stats.SpecialPoint | app/modules/analyzer/stats.ts:58-78 | `baseValue` is the weapon's `SpecialPoint`, `modifiedBy` is SCU, and `value` is an integer `v` with `q <= v < q + 1` for `q = SpecialPoint / effect` of the `IncreaseRt_Special` curve at the build's SCU points |
| Stats.SpecialPointNotBelowBase | app/modules/analyzer/stats.ts:73-77 | with an effect of at most 1 and a non-negative base cost, the displayed cost is at least the base cost rounded up |
| Stats.SavedForDisplay | app/modules/analyzer/stats.ts:85-86 | the display transform yields the whole number of hundredths nearest to `(1 - e) * 100`, a tie going away from zero, which fixes the value uniquely |
| Stats.SavedForDisplayAntitone | app/modules/analyzer/stats.ts:85-86 | a larger effect never displays a larger percentage saved |
| Stats.SpecialSavedAfterDeath | app/modules/analyzer/stats.ts:80-102 | `modifiedBy` is SS; `baseValue` and `value` are the same display transform of `baseEffect` and `effect` of the `SpecialGaugeRt_Restart` curve |
| Stats.SpecialSavedAfterDeathComparable | app/modules/analyzer/stats.ts:97-100 | baseline and value share one scale: equal effects give equal values, and a smaller effect gives a value at least as large as the other, in both directions |
| Stats.SubWeaponConsume | app/modules/analyzer/stats.ts:142-166 | the sub cost per use is `InkConsume` (0.6 when undefined) times the `ConsumeRt_Sub_Lv{SubInkSaveLv ?? 0}` effect at the build's ISS points. It is non-zero. For a positive cost `c` and `n = maxSubs`: `n >= 0`, `n * c <= 1 < (n + 1) * c`. A negative cost gives `n < 0` |
| Stats.TankUses | app/modules/analyzer/stats.ts:160-165 | `floor(1 / c)` uses of a positive cost `c` fit in a full tank, and one more does not |
| Stats.InkConsumeTypeToParamsKeys | app/modules/analyzer/stats.ts:199-227 | every one of the 10 types has one or two candidate parameters, none listed twice |
| Stats.ParamsKeysDisjoint | app/modules/analyzer/stats.ts:202-222 | no parameter is a candidate for two different types |
| Stats.FirstNumericField | app/modules/analyzer/stats.ts:186-196 | the loop over the keys finds nothing exactly when no key is defined. Otherwise it returns the value of a defined key whose earlier keys are all undefined |
| Stats.FirstNumericFieldDefined | app/modules/analyzer/stats.ts:186-192 | when some candidate is defined, the loop returns the value of a defined candidate |
| Stats.MainWeaponInkConsumeByType | app/modules/analyzer/stats.ts:168-197 | the result is present exactly when the weapon defines a candidate parameter for the type. It is then the first defined candidate in fallback order, every earlier candidate undefined, times the `ConsumeRt_Main` effect at the build's ISM points |
| Stats.MainCostDependsOnlyOnInkSaverMain | app/modules/analyzer/stats.ts:175-182 | two inputs with the same main weapon and the same ISM points give every type the same cost, whatever their other abilities and sub weapon |
| Stats.MainCostSign | app/modules/analyzer/stats.ts:186-191 | a supported type's cost is non-zero when the parameter the fallback picks is non-zero for every type, and positive when the parameter picked for that type is positive |
| Stats.ExclusiveFieldDecides | app/modules/analyzer/stats.ts:184-192 | when exactly one candidate for the type is defined, as the weapon data promises, that parameter decides the cost whatever the fallback order |
| InkTank.SupportedTypes | app/modules/analyzer/stats.ts:117-123 | a type is kept exactly when it is in the list and the weapon defines a parameter for it |
| InkTank.OptionFor | app/modules/analyzer/stats.ts:125-130 | the pushed record has the given sub-weapon count and type, the type's cost is non-zero, and its value is the whole number of hundredths nearest to `(1 - subCost * subsUsed) / cost`, a tie going away from zero |
| InkTank.RowsFor | app/modules/analyzer/stats.ts:117-132 | the inner loop emits one option per supported type, in list order, each for the given sub-weapon count, and skips the others |
| InkTank.Groups | app/modules/analyzer/stats.ts:112-116 | the outer loop's options all have a sub-weapon count in `[from, maxSubs]` |
| InkTank.FullInkTankOptions | app/modules/analyzer/stats.ts:104-136 | every option's sub-weapon count lies in `[0, maxSubs]`, and the ink it leaves, `1 - subCost * subsUsed`, is never negative |
| InkTank.RemainingInkNonNegative | app/modules/analyzer/stats.ts:129 | `k` sub-weapon uses with `0 <= k <= floor(1 / c)` leave a non-negative fraction of the tank |
| InkTank.FullInkTankOptionsOrdered | app/modules/analyzer/stats.ts:112-133 | options are sorted by ascending sub-weapon count, then by position in the ink-consume type list, strictly |
| InkTank.FullInkTankOptionsMembership | app/modules/analyzer/stats.ts:112-133 | an option is listed exactly when its count is in `[0, maxSubs]`, the weapon supports its type, and its value is `round2((1 - subCost * count) / mainCost)` |
| InkTank.FullInkTankOptionsCounts | app/modules/analyzer/stats.ts:112-133 | a supported type appears `maxSubs + 1` times, an unsupported type zero times |
| InkTank.InkLeftAntitone | app/modules/analyzer/stats.ts:129 | the numerator `1 - subCost * subsUsed` is a full tank at zero uses and, for a non-negative cost, never grows with more uses |
| InkTank.OptionValueAntitone | app/modules/analyzer/stats.ts:125-130 | for one type whose picked parameter is positive, and a non-negative sub cost, more sub-weapon uses never give a larger value |
| InkTank.FullInkTankOptionsValueAntitone | app/modules/analyzer/stats.ts:125-130 | in the output, of two options of one type, the one with more sub-weapon uses never has the larger value, whenever the parameter picked for their type is positive |
| InkTank.FullInkTankOptionsExample | app/modules/analyzer/stats.ts:104-166 | main `InkConsume` 0.1, sub `InkConsume` 0.6 at level 0, both Ink Saver effects 1: exactly the options (0, NORMAL, 10) and (1, NORMAL, 4) |
| Analyzer.BuildStats | app/modules/analyzer/stats.ts:21-56 | an unknown main weapon or an unknown sub weapon fails with that id and never yields a partial report. Otherwise the report copies `subWeaponId`, `specialWeaponId` and `InkRecoverStop` and holds the three stats for the aggregated ability points |

## Left out

- `abilityPointsToEffects`, `apFromMap` and `buildToAbilityPoints` are in `./utils`, which is not part of this model. They are the fields of `Env`, and their results are arbitrary. The one assumption is that every effect multiplier is positive: `Effect`'s fields have the type `Positive`.
- `abilityPointsToEffects` may fail when a weapon has no table entry for a curve key. `Env`'s evaluator is total, so this failure is not modelled.
- `weaponParams()` and the weapon data tables are not part of this model. The table is the `WeaponTable` argument of `Analyzer.BuildStats`.
- Floating point is not modelled. Division, `toFixed(2)` and `Math.floor`/`Math.ceil` act on exact rationals. Results near a rounding boundary may differ from IEEE-754 results.
- Stats.SubWeaponConsume, InkTank.OptionFor, InkTank.RowsFor, InkTank.Groups, InkTank.FullInkTankOptions, Analyzer.BuildStats: zero ink costs are excluded by their requires (`Stats.WellFormedSub`, `Stats.InkFieldsNonZero`, and `Analyzer.LookupWellFormed`, which combines them). A zero sub-weapon `InkConsume` makes `1 / inkConsume` infinite and the outer loop unbounded. A zero main-weapon parameter, when the fallback picks it, makes the option a division by zero. The model requires the sub cost and every picked main-weapon parameter to be non-zero; a zero in a later candidate the fallback never reads is allowed.
- InkTank.FullInkTankOptionsValueAntitone: the order is stated only for a type whose picked parameter is positive. With a negative parameter the division reverses the order.
- `INK_CONSUME_TYPES` comes from `./types`, which is not part of this model. `AnalyzerTypes.InkConsumeTypes` assumes it lists the ten types of the switch in `inkConsumeTypeToParamsKeys`, in that switch's order. `InkTank.FullInkTankOptionsOrdered` states the order relative to this assumed list.
- The "ISS" sub-level key fallback and the 0.6 default sub cost are provisional values in the source. They are kept as the named constants `Stats.DefaultSubInkSaveLv` and `Stats.DefaultSubInkConsume`.
- The web routes, root layout, auth re-exports, the HTTP client in `app/core/lanista.ts`, the GraphQL query and the front-end type declarations are I/O, UI or declarations only. None are modelled.
