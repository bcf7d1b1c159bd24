/**
 * The records the build analyzer consumes and produces, and the collaborators
 * it calls but whose code is not part of this model (gathered in `Env`).
 */
module AnalyzerTypes {
  import opened Wrappers
  import opened Numeric

  /** The action categories a main weapon may spend ink on. */
  datatype InkConsumeType =
    | Normal
    | Swing
    | TapShot
    | FullCharge
    | HorizontalSwing
    | VerticalSwing
    | DualieRoll
    | ShieldLaunch
    | RollMax
    | RollMin

  /** INK_CONSUME_TYPES: the fixed order in which the ink-tank options are listed. */
  const InkConsumeTypes: seq<InkConsumeType> :=
    [Normal, Swing, TapShot, FullCharge, HorizontalSwing, VerticalSwing,
     DualieRoll, ShieldLaunch, RollMax, RollMin]

  /** Position of `t` in `InkConsumeTypes`. */
  function TypeIndex(t: InkConsumeType): (i: nat)
    ensures i < |InkConsumeTypes| && InkConsumeTypes[i] == t
  {
    match t
    case Normal => 0
    case Swing => 1
    case TapShot => 2
    case FullCharge => 3
    case HorizontalSwing => 4
    case VerticalSwing => 5
    case DualieRoll => 6
    case ShieldLaunch => 7
    case RollMax => 8
    case RollMin => 9
  }

  /** Gear abilities; only the four the stats read are named. */
  datatype Ability = ISM | ISS | SCU | SS | OtherAbility(code: string) | Unknown

  /** Abilities per gear piece, per slot. */
  type Build = seq<seq<Ability>>

  /** Total ability points per ability. */
  type AbilityPoints = map<Ability, real>

  /** The effect curves the stats evaluate. */
  datatype CurveKey =
    | IncreaseRtSpecial       // "IncreaseRt_Special"
    | SpecialGaugeRtRestart   // "SpecialGaugeRt_Restart"
    | ConsumeRtMain           // "ConsumeRt_Main"
    | ConsumeRtSub(level: int) // "ConsumeRt_Sub_Lv{level}"

  /** The optional ink-consumption parameters of a main weapon, named as in the weapon data. */
  datatype ParamKey =
    | InkConsume
    | InkConsume_SwingParam
    | InkConsume_WeaponSwingParam
    | InkConsumeMinCharge
    | InkConsumeMinCharge_ChargeParam
    | InkConsumeFullCharge
    | InkConsumeFullCharge_ChargeParam
    | InkConsume_WeaponWideSwingParam
    | InkConsume_WeaponVerticalSwingParam
    | InkConsume_SideStepParam
    | InkConsumeUmbrella_WeaponShelterCanopyParam
    | InkConsumeMaxPerFrame_WeaponRollParam
    | InkConsumeMinPerFrame_WeaponRollParam

  /**
   * A main weapon's parameters. `fields` holds the optional ink-consumption
   * parameters; a missing key is an undefined field.
   */
  datatype MainWeaponParams = MainWeaponParams(
    subWeaponId: int,
    specialWeaponId: int,
    specialPoint: real,
    fields: map<ParamKey, real>)

  /** A sub weapon's parameters; `None` is an undefined optional field. */
  datatype SubWeaponParams = SubWeaponParams(
    inkConsume: Option<real>,
    subInkSaveLv: Option<int>,
    inkRecoverStop: int)

  /** The read-only weapon parameter table, keyed by weapon id. */
  datatype WeaponTable = WeaponTable(
    mainWeapons: map<int, MainWeaponParams>,
    subWeapons: map<int, SubWeaponParams>)

  /** A curve's value at zero ability points and at the build's points. */
  datatype Effect = Effect(baseEffect: Positive, effect: Positive)

  /**
   * The collaborators from the analyzer's utilities: the ability-point
   * aggregator, the per-ability lookup and the curve evaluator.
   */
  datatype Env = Env(
    buildToAbilityPoints: Build -> AbilityPoints,
    apFromMap: (AbilityPoints, Ability) -> real,
    abilityPointsToEffects: (real, CurveKey, MainWeaponParams) -> Effect)

  /** What every stat function is given. */
  datatype StatFunctionInput = StatFunctionInput(
    mainWeaponParams: MainWeaponParams,
    subWeaponParams: SubWeaponParams,
    abilityPoints: AbilityPoints)

  /** A displayed stat: its unmodified value, the ability that changes it, and its value. */
  datatype Stat = Stat(baseValue: real, modifiedBy: Ability, value: real)

  /** How many `consumeType` actions a full tank allows after `subsUsed` sub-weapon uses. */
  datatype InkTankOption = InkTankOption(subsUsed: int, consumeType: InkConsumeType, value: real)

  datatype WeaponIds = WeaponIds(subWeaponSplId: int, specialWeaponSplId: int)

  /** The four stats of an analyzed build. */
  datatype BuildStatValues = BuildStatValues(
    specialPoint: Stat,
    specialSavedAfterDeath: Stat,
    fullInkTankOptions: seq<InkTankOption>,
    subWeaponWhiteInkFrames: int)

  datatype AnalyzedBuild = AnalyzedBuild(weapon: WeaponIds, stats: BuildStatValues)

  /** The two failed invariants of `buildStats`. */
  datatype BuildError = WeaponNotFound(weaponSplId: int) | SubWeaponNotFound(subWeaponId: int)
}
