/**
 * The per-stat derivations of the build analyzer: special-point cost, special
 * saved after death, the sub-weapon cost of a full tank, and the main-weapon
 * ink cost of one action type.
 */
module Stats {
  import opened Wrappers
  import opened Numeric
  import opened AnalyzerTypes

  const SpecialPointAbility: Ability := SCU
  const SpecialSavedAfterDeathAbility: Ability := SS

  /** Sub-weapon ink consumption assumed when the sub weapon leaves it undefined. */
  const DefaultSubInkConsume: real := 0.6

  /** Sub ink save level assumed when the sub weapon leaves it undefined. */
  const DefaultSubInkSaveLv: int := 0

  /** The curve `key` evaluated at the build's points for `ability`, against the main weapon. */
  function EffectOf(env: Env, input: StatFunctionInput, ability: Ability, key: CurveKey): Effect {
    env.abilityPointsToEffects(
      env.apFromMap(input.abilityPoints, ability), key, input.mainWeaponParams)
  }

  // ---------------------------------------------------------------------------
  // Special point

  /** Special points needed to fill the gauge: the base cost divided by the effect, rounded up. */
  function SpecialPoint(env: Env, input: StatFunctionInput): (r: Stat)
    ensures r.baseValue == input.mainWeaponParams.specialPoint
    ensures r.modifiedBy == SpecialPointAbility
    ensures r.value.Floor as real == r.value
    ensures var q := input.mainWeaponParams.specialPoint
                       / EffectOf(env, input, SpecialPointAbility, IncreaseRtSpecial).effect;
            q <= r.value < q + 1.0
  {
    var e := EffectOf(env, input, SpecialPointAbility, IncreaseRtSpecial);
    Stat(input.mainWeaponParams.specialPoint, SpecialPointAbility,
         Ceil(input.mainWeaponParams.specialPoint / e.effect) as real)
  }

  /** With an effect of at most 1 the cost is never shown below the rounded-up base cost. */
  lemma SpecialPointNotBelowBase(env: Env, input: StatFunctionInput)
    requires input.mainWeaponParams.specialPoint >= 0.0
    requires EffectOf(env, input, SpecialPointAbility, IncreaseRtSpecial).effect <= 1.0
    ensures SpecialPoint(env, input).value >= Ceil(input.mainWeaponParams.specialPoint) as real
  {
    var p := input.mainWeaponParams.specialPoint;
    var e := EffectOf(env, input, SpecialPointAbility, IncreaseRtSpecial).effect;
    assert p <= p / e by {
      assert p / e - p == p * (1.0 - e) / e;
    }
    CeilMonotone(p, p / e);
  }

  // ---------------------------------------------------------------------------
  // Special saved after death

  /** The displayed percentage of special kept for an effect `e`: (1 - e) * 100 to two places. */
  function SavedForDisplay(e: real): (r: real)
    ensures IsHundredth(r)
    ensures (1.0 - e) * 100.0 - 0.005 <= r <= (1.0 - e) * 100.0 + 0.005
    ensures r - (1.0 - e) * 100.0 == 0.005 ==> (1.0 - e) * 100.0 >= 0.0
    ensures (1.0 - e) * 100.0 - r == 0.005 ==> (1.0 - e) * 100.0 < 0.0
  {
    ToFixed2((1.0 - e) * 100.0)
  }

  /** A larger effect never displays a larger percentage saved. */
  lemma SavedForDisplayAntitone(e1: real, e2: real)
    requires e1 <= e2
    ensures SavedForDisplay(e2) <= SavedForDisplay(e1)
  {
    ToFixed2Monotone((1.0 - e2) * 100.0, (1.0 - e1) * 100.0);
  }

  /** The same display transform applied to the baseline and to the build's effect. */
  function SpecialSavedAfterDeath(env: Env, input: StatFunctionInput): (r: Stat)
    ensures r.modifiedBy == SpecialSavedAfterDeathAbility
    ensures var e := EffectOf(env, input, SpecialSavedAfterDeathAbility, SpecialGaugeRtRestart);
            r.baseValue == SavedForDisplay(e.baseEffect) && r.value == SavedForDisplay(e.effect)
  {
    var e := EffectOf(env, input, SpecialSavedAfterDeathAbility, SpecialGaugeRtRestart);
    Stat(SavedForDisplay(e.baseEffect), SpecialSavedAfterDeathAbility, SavedForDisplay(e.effect))
  }

  /**
   * Baseline and value are on one scale: equal effects show equal values, and an
   * effect no larger than the baseline shows at least the baseline percentage.
   */
  lemma SpecialSavedAfterDeathComparable(env: Env, input: StatFunctionInput)
    ensures var e := EffectOf(env, input, SpecialSavedAfterDeathAbility, SpecialGaugeRtRestart);
            var r := SpecialSavedAfterDeath(env, input);
            && (e.baseEffect == e.effect ==> r.baseValue == r.value)
            && (e.effect <= e.baseEffect ==> r.baseValue <= r.value)
            && (e.baseEffect <= e.effect ==> r.value <= r.baseValue)
  {
    var e := EffectOf(env, input, SpecialSavedAfterDeathAbility, SpecialGaugeRtRestart);
    if e.effect <= e.baseEffect {
      SavedForDisplayAntitone(e.effect, e.baseEffect);
    }
    if e.baseEffect <= e.effect {
      SavedForDisplayAntitone(e.baseEffect, e.effect);
    }
  }

  // ---------------------------------------------------------------------------
  // Sub-weapon consumption

  /** The sub weapon's ink cost per use after Ink Saver (Sub), and how many uses fill a tank. */
  datatype SubConsume = SubConsume(inkConsume: real, maxSubsFromFullInkTank: int)

  /** A sub weapon whose ink cost per use is not zero (a zero cost would allow unboundedly many uses). */
  predicate WellFormedSub(sub: SubWeaponParams) {
    sub.inkConsume != Some(0.0)
  }

  function SubWeaponConsume(env: Env, input: StatFunctionInput): (r: SubConsume)
    requires WellFormedSub(input.subWeaponParams)
    ensures r.inkConsume
            == input.subWeaponParams.inkConsume.GetOr(DefaultSubInkConsume)
               * EffectOf(env, input, ISS,
                          ConsumeRtSub(input.subWeaponParams.subInkSaveLv.GetOr(DefaultSubInkSaveLv))).effect
    ensures r.inkConsume != 0.0
    ensures r.inkConsume > 0.0 ==>
              && 0 <= r.maxSubsFromFullInkTank
              && r.maxSubsFromFullInkTank as real * r.inkConsume <= 1.0
              && 1.0 < (r.maxSubsFromFullInkTank as real + 1.0) * r.inkConsume
    ensures r.inkConsume < 0.0 ==> r.maxSubsFromFullInkTank < 0
  {
    var sub := input.subWeaponParams;
    var e := EffectOf(env, input, ISS, ConsumeRtSub(sub.subInkSaveLv.GetOr(DefaultSubInkSaveLv)));
    var v := sub.inkConsume.GetOr(DefaultSubInkConsume);
    var c := v * e.effect;
    assert c != 0.0 by { NonZeroProduct(v, e.effect); }
    var n := Floor(1.0 / c);
    assert c > 0.0 ==> 0 <= n && n as real * c <= 1.0 && 1.0 < (n as real + 1.0) * c by {
      if c > 0.0 { TankUses(c, 1.0 / c, n); }
    }
    assert c < 0.0 ==> n < 0 by {
      if c < 0.0 { assert 1.0 / c < 0.0; }
    }
    SubConsume(c, n)
  }

  lemma NonZeroProduct(v: real, e: Positive)
    requires v != 0.0
    ensures v * e != 0.0
  {
    if v > 0.0 { assert v * e > 0.0; } else { assert v * e < 0.0; }
  }

  /**
   * With `n = floor(x)` for `x = 1 / c` and a positive per-use cost `c`, `n` uses
   * fit in a full tank and `n + 1` do not.
   */
  lemma TankUses(c: real, x: real, n: int)
    requires c > 0.0 && x * c == 1.0
    requires n as real <= x < n as real + 1.0
    ensures 0 <= n
    ensures n as real * c <= 1.0 < (n as real + 1.0) * c
  {
    var m := n as real;
    MulLeq(m, x, c);
    MulLt(x, m + 1.0, c);
    assert x * c < (m + 1.0) * c;
    assert 1.0 < (m + 1.0) * c;
    assert x > 0.0;
  }

  lemma MulLeq(a: real, b: real, c: real)
    requires a <= b && c > 0.0
    ensures a * c <= b * c
  {
    assert b * c - a * c == (b - a) * c;
  }

  lemma MulLt(a: real, b: real, c: real)
    requires a < b && c > 0.0
    ensures a * c < b * c
  {
    assert b * c - a * c == (b - a) * c;
  }

  // ---------------------------------------------------------------------------
  // Main-weapon consumption by type

  /** The main-weapon parameters that may hold the ink cost of each action type, in fallback order. */
  function InkConsumeTypeToParamsKeys(t: InkConsumeType): (keys: seq<ParamKey>)
    ensures 1 <= |keys| <= 2
    ensures forall i, j :: 0 <= i < j < |keys| ==> keys[i] != keys[j]
  {
    match t
    case Normal => [InkConsume]
    case Swing => [InkConsume_SwingParam, InkConsume_WeaponSwingParam]
    case TapShot => [InkConsumeMinCharge, InkConsumeMinCharge_ChargeParam]
    case FullCharge => [InkConsumeFullCharge, InkConsumeFullCharge_ChargeParam]
    case HorizontalSwing => [InkConsume_WeaponWideSwingParam]
    case VerticalSwing => [InkConsume_WeaponVerticalSwingParam]
    case DualieRoll => [InkConsume_SideStepParam]
    case ShieldLaunch => [InkConsumeUmbrella_WeaponShelterCanopyParam]
    case RollMax => [InkConsumeMaxPerFrame_WeaponRollParam]
    case RollMin => [InkConsumeMinPerFrame_WeaponRollParam]
  }

  /** No parameter feeds two action types. */
  lemma ParamsKeysDisjoint(s: InkConsumeType, t: InkConsumeType)
    requires s != t
    ensures forall k :: k in InkConsumeTypeToParamsKeys(s) ==> k !in InkConsumeTypeToParamsKeys(t)
  {
  }

  /** The value of the first of `keys` that `fields` defines, if any. */
  function FirstNumericField(fields: map<ParamKey, real>, keys: seq<ParamKey>): (r: Option<real>)
    ensures r.None? <==> forall k :: k in keys ==> k !in fields
    ensures r.Some? ==>
              exists i :: 0 <= i < |keys| && keys[i] in fields && r.value == fields[keys[i]]
                          && forall j :: 0 <= j < i ==> keys[j] !in fields
  {
    if |keys| == 0 then None
    else if keys[0] in fields then Some(fields[keys[0]])
    else
      var r := FirstNumericField(fields, keys[1..]);
      assert forall k :: k in keys ==> k == keys[0] || k in keys[1..];
      if r.Some? then
        var i :| 0 <= i < |keys[1..]| && keys[1..][i] in fields && r.value == fields[keys[1..][i]]
                 && forall j :: 0 <= j < i ==> keys[1..][j] !in fields;
        assert keys[i + 1] in fields && r.value == fields[keys[i + 1]]
               && forall j :: 0 <= j < i + 1 ==> keys[j] !in fields;
        r
      else r
  }

  /** The weapon defines some parameter for action type `t`. */
  predicate Supports(main: MainWeaponParams, t: InkConsumeType) {
    exists k :: k in InkConsumeTypeToParamsKeys(t) && k in main.fields
  }

  /**
   * For every action type, the parameter the fallback picks is not zero (the
   * options divide by it); a later candidate the fallback never reads may be zero.
   */
  predicate InkFieldsNonZero(main: MainWeaponParams) {
    forall t: InkConsumeType :: FirstNumericField(main.fields, InkConsumeTypeToParamsKeys(t)) != Some(0.0)
  }

  /** The Ink Saver (Main) effect every main-weapon ink cost is multiplied by. */
  function MainInkEffect(env: Env, input: StatFunctionInput): Positive {
    EffectOf(env, input, ISM, ConsumeRtMain).effect
  }

  /** The build enters a main-weapon ink cost only through its Ink Saver (Main) points. */
  lemma MainCostDependsOnlyOnInkSaverMain(
    env: Env, input1: StatFunctionInput, input2: StatFunctionInput, t: InkConsumeType)
    requires input1.mainWeaponParams == input2.mainWeaponParams
    requires env.apFromMap(input1.abilityPoints, ISM) == env.apFromMap(input2.abilityPoints, ISM)
    ensures MainWeaponInkConsumeByType(env, input1, t) == MainWeaponInkConsumeByType(env, input2, t)
  {
    var keys := InkConsumeTypeToParamsKeys(t);
    assert MainInkEffect(env, input1) == MainInkEffect(env, input2);
    var f := FirstNumericField(input1.mainWeaponParams.fields, keys);
    assert f == FirstNumericField(input2.mainWeaponParams.fields, keys);
    var r1 := MainWeaponInkConsumeByType(env, input1, t);
    var r2 := MainWeaponInkConsumeByType(env, input2, t);
    assert r1.Some? == f.Some? == r2.Some?;
    if f.Some? {
      assert r1.value == f.value * MainInkEffect(env, input1);
      assert r2.value == f.value * MainInkEffect(env, input2);
      assert r1.value == r2.value;
    }
  }

  /**
   * The ink one `t` action costs: the first defined parameter for `t` times the
   * Ink Saver (Main) effect, or nothing when the weapon has no such action.
   */
  function MainWeaponInkConsumeByType(env: Env, input: StatFunctionInput, t: InkConsumeType): (r: Option<real>)
    ensures r.Some? <==> Supports(input.mainWeaponParams, t)
    ensures r.Some? ==>
              var keys := InkConsumeTypeToParamsKeys(t);
              var fields := input.mainWeaponParams.fields;
              exists i :: 0 <= i < |keys| && keys[i] in fields
                          && r.value == fields[keys[i]] * MainInkEffect(env, input)
                          && forall j :: 0 <= j < i ==> keys[j] !in fields
  {
    var main := input.mainWeaponParams;
    match FirstNumericField(main.fields, InkConsumeTypeToParamsKeys(t))
    case None => None
    case Some(v) => Some(v * MainInkEffect(env, input))
  }

  /** The candidate `FirstNumericField` picks, when the weapon defines any. */
  lemma {:induction false} FirstNumericFieldDefined(fields: map<ParamKey, real>, keys: seq<ParamKey>) returns (k: ParamKey)
    requires exists k :: k in keys && k in fields
    ensures k in keys && k in fields && FirstNumericField(fields, keys) == Some(fields[k])
  {
    if keys[0] in fields {
      k := keys[0];
    } else {
      assert exists k :: k in keys[1..] && k in fields by {
        var k0 :| k0 in keys && k0 in fields;
        assert k0 != keys[0];
      }
      k := FirstNumericFieldDefined(fields, keys[1..]);
    }
  }

  /** The weapon supports action type `t`, and the parameter the fallback picks for it is positive. */
  predicate PickedPositive(main: MainWeaponParams, t: InkConsumeType) {
    var f := FirstNumericField(main.fields, InkConsumeTypeToParamsKeys(t));
    f.Some? && f.value > 0.0
  }

  /** The sign of a supported type's cost follows the sign of the parameter the fallback picks. */
  lemma MainCostSign(env: Env, input: StatFunctionInput, t: InkConsumeType)
    requires Supports(input.mainWeaponParams, t)
    ensures InkFieldsNonZero(input.mainWeaponParams) ==> MainWeaponInkConsumeByType(env, input, t).value != 0.0
    ensures PickedPositive(input.mainWeaponParams, t) ==> MainWeaponInkConsumeByType(env, input, t).value > 0.0
  {
    var f := FirstNumericField(input.mainWeaponParams.fields, InkConsumeTypeToParamsKeys(t));
    assert f.Some?;
    var e := MainInkEffect(env, input);
    assert MainWeaponInkConsumeByType(env, input, t).value == f.value * e;
    if InkFieldsNonZero(input.mainWeaponParams) {
      assert f != Some(0.0);
      NonZeroProduct(f.value, e);
    }
    if PickedPositive(input.mainWeaponParams, t) {
      assert f.value * e > 0.0;
    }
  }

  /**
   * When exactly one of `t`'s parameters is defined, as the weapon data promises,
   * that one parameter decides the cost whatever the fallback order.
   */
  lemma ExclusiveFieldDecides(env: Env, input: StatFunctionInput, t: InkConsumeType, k: ParamKey)
    requires k in InkConsumeTypeToParamsKeys(t) && k in input.mainWeaponParams.fields
    requires forall k' :: k' in InkConsumeTypeToParamsKeys(t) && k' in input.mainWeaponParams.fields ==> k' == k
    ensures var r := MainWeaponInkConsumeByType(env, input, t);
            r.Some? && r.value == input.mainWeaponParams.fields[k] * MainInkEffect(env, input)
  {
    var fields := input.mainWeaponParams.fields;
    var k' := FirstNumericFieldDefined(fields, InkConsumeTypeToParamsKeys(t));
    assert k' == k;
    assert FirstNumericField(fields, InkConsumeTypeToParamsKeys(t)) == Some(fields[k]);
  }
}
