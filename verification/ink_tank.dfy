/**
 * The full-ink-tank options: for every number of sub-weapon uses a full tank
 * allows, how many actions of each supported type the remaining ink pays for.
 */
module InkTank {
  import opened Wrappers
  import opened Numeric
  import opened AnalyzerTypes
  import opened Stats

  /** The action types among `types` the weapon supports, in the same order. */
  function SupportedTypes(main: MainWeaponParams, types: seq<InkConsumeType>): (s: seq<InkConsumeType>)
    ensures forall t :: t in s <==> t in types && Supports(main, t)
    ensures forall j :: 0 <= j < |s| ==> Supports(main, s[j])
  {
    if |types| == 0 then []
    else if Supports(main, types[0]) then [types[0]] + SupportedTypes(main, types[1..])
    else SupportedTypes(main, types[1..])
  }

  /** The fraction of a full tank left after `subsUsed` sub-weapon uses of cost `subCost` each. */
  function InkLeft(subCost: real, subsUsed: int): real {
    1.0 - subCost * subsUsed as real
  }

  /** The option for `subsUsed` sub-weapon uses of cost `subCost` and a supported type `t`. */
  function OptionFor(env: Env, input: StatFunctionInput, subCost: real, subsUsed: int, t: InkConsumeType): (o: InkTankOption)
    requires Supports(input.mainWeaponParams, t) && InkFieldsNonZero(input.mainWeaponParams)
    ensures o.subsUsed == subsUsed && o.consumeType == t
    ensures MainWeaponInkConsumeByType(env, input, t).value != 0.0
    ensures var q := InkLeft(subCost, subsUsed) / MainWeaponInkConsumeByType(env, input, t).value;
            && IsHundredth(o.value)
            && q - 0.005 <= o.value <= q + 0.005
            && (o.value - q == 0.005 ==> q >= 0.0)
            && (q - o.value == 0.005 ==> q < 0.0)
  {
    MainCostSign(env, input, t);
    var m := MainWeaponInkConsumeByType(env, input, t).value;
    InkTankOption(subsUsed, t, ToFixed2(InkLeft(subCost, subsUsed) / m))
  }

  /** The inner loop: one option per type of `types` the weapon supports, skipping the rest. */
  function RowsFor(env: Env, input: StatFunctionInput, subCost: real, subsUsed: int, types: seq<InkConsumeType>)
    : (r: seq<InkTankOption>)
    requires InkFieldsNonZero(input.mainWeaponParams)
    ensures |r| == |SupportedTypes(input.mainWeaponParams, types)|
    ensures forall j :: 0 <= j < |r| ==>
              r[j] == OptionFor(env, input, subCost, subsUsed, SupportedTypes(input.mainWeaponParams, types)[j])
  {
    if |types| == 0 then []
    else
      var rest := RowsFor(env, input, subCost, subsUsed, types[1..]);
      match MainWeaponInkConsumeByType(env, input, types[0])
      case None => rest
      case Some(_) => [OptionFor(env, input, subCost, subsUsed, types[0])] + rest
  }

  /** The outer loop: the options for `from`, `from + 1`, ..., `maxSubs` sub-weapon uses. */
  function Groups(env: Env, input: StatFunctionInput, subCost: real, from: int, maxSubs: int)
    : (r: seq<InkTankOption>)
    requires InkFieldsNonZero(input.mainWeaponParams)
    ensures forall x :: x in r ==> from <= x.subsUsed <= maxSubs
    decreases maxSubs - from
  {
    if from > maxSubs then []
    else
      RowsFor(env, input, subCost, from, InkConsumeTypes)
      + Groups(env, input, subCost, from + 1, maxSubs)
  }

  /**
   * fullInkTankOptions. Every listed sub-weapon count lies between 0 and the
   * maximum a full tank allows, so the ink left for the main weapon is never negative.
   */
  function FullInkTankOptions(env: Env, input: StatFunctionInput): (r: seq<InkTankOption>)
    requires InkFieldsNonZero(input.mainWeaponParams) && WellFormedSub(input.subWeaponParams)
    ensures var sc := SubWeaponConsume(env, input);
            forall x :: x in r ==>
              && 0 <= x.subsUsed <= sc.maxSubsFromFullInkTank
              && InkLeft(sc.inkConsume, x.subsUsed) >= 0.0
  {
    var sc := SubWeaponConsume(env, input);
    GroupsRemainingInk(env, input, sc.inkConsume, sc.maxSubsFromFullInkTank);
    Groups(env, input, sc.inkConsume, 0, sc.maxSubsFromFullInkTank)
  }

  lemma GroupsRemainingInk(env: Env, input: StatFunctionInput, c: real, n: int)
    requires InkFieldsNonZero(input.mainWeaponParams)
    requires c > 0.0 ==> n as real * c <= 1.0
    requires c < 0.0 ==> n < 0
    ensures forall x :: x in Groups(env, input, c, 0, n) ==> InkLeft(c, x.subsUsed) >= 0.0
  {
    forall x | x in Groups(env, input, c, 0, n)
      ensures InkLeft(c, x.subsUsed) >= 0.0
    {
      RemainingInkNonNegative(c, n, x.subsUsed);
    }
  }

  /** `k` uses of cost `c`, with `k` at most the number `n` a full tank allows, leave no negative ink. */
  lemma RemainingInkNonNegative(c: real, n: int, k: int)
    requires c > 0.0 ==> n as real * c <= 1.0
    requires c < 0.0 ==> n < 0
    requires 0 <= k <= n
    ensures InkLeft(c, k) >= 0.0
  {
    if c > 0.0 {
      MulLeqLeft(c, k as real, n as real);
      assert c * n as real == n as real * c;
    } else {
      assert c == 0.0;
    }
  }

  // ---------------------------------------------------------------------------
  // Order

  /** `a` is listed before `b`: fewer sub-weapon uses, or as many and an earlier type. */
  predicate Precedes(a: InkTankOption, b: InkTankOption) {
    || a.subsUsed < b.subsUsed
    || (a.subsUsed == b.subsUsed && TypeIndex(a.consumeType) < TypeIndex(b.consumeType))
  }

  predicate OrderedTypes(types: seq<InkConsumeType>) {
    forall i, j :: 0 <= i < j < |types| ==> TypeIndex(types[i]) < TypeIndex(types[j])
  }

  predicate OrderedOptions(r: seq<InkTankOption>) {
    forall i, j :: 0 <= i < j < |r| ==> Precedes(r[i], r[j])
  }

  lemma InkConsumeTypesOrdered()
    ensures OrderedTypes(InkConsumeTypes)
    ensures forall t :: t in InkConsumeTypes
  {
    forall i | 0 <= i < |InkConsumeTypes|
      ensures TypeIndex(InkConsumeTypes[i]) == i
    {
    }
    forall t
      ensures t in InkConsumeTypes
    {
      assert InkConsumeTypes[TypeIndex(t)] == t;
    }
  }

  lemma {:induction false} SupportedTypesOrdered(main: MainWeaponParams, types: seq<InkConsumeType>)
    requires OrderedTypes(types)
    ensures OrderedTypes(SupportedTypes(main, types))
  {
    if |types| > 0 {
      var tail := types[1..];
      assert OrderedTypes(tail) by {
        forall i, j | 0 <= i < j < |tail|
          ensures TypeIndex(tail[i]) < TypeIndex(tail[j])
        {
          assert tail[i] == types[i + 1] && tail[j] == types[j + 1];
        }
      }
      SupportedTypesOrdered(main, tail);
      var s := SupportedTypes(main, tail);
      forall t | t in s
        ensures TypeIndex(types[0]) < TypeIndex(t)
      {
        var j :| 0 <= j < |tail| && tail[j] == t;
        assert types[j + 1] == t;
      }
    }
  }

  /** Within one group the options follow the order of the type list. */
  lemma RowsForOrdered(env: Env, input: StatFunctionInput, subCost: real, subsUsed: int)
    requires InkFieldsNonZero(input.mainWeaponParams)
    ensures OrderedOptions(RowsFor(env, input, subCost, subsUsed, InkConsumeTypes))
  {
    InkConsumeTypesOrdered();
    SupportedTypesOrdered(input.mainWeaponParams, InkConsumeTypes);
  }

  lemma {:induction false} GroupsOrdered(env: Env, input: StatFunctionInput, subCost: real, from: int, maxSubs: int)
    requires InkFieldsNonZero(input.mainWeaponParams)
    ensures OrderedOptions(Groups(env, input, subCost, from, maxSubs))
    decreases maxSubs - from
  {
    if from <= maxSubs {
      var a := RowsFor(env, input, subCost, from, InkConsumeTypes);
      var b := Groups(env, input, subCost, from + 1, maxSubs);
      RowsForOrdered(env, input, subCost, from);
      GroupsOrdered(env, input, subCost, from + 1, maxSubs);
      var r := a + b;
      forall i, j | 0 <= i < j < |r|
        ensures Precedes(r[i], r[j])
      {
        if j < |a| {
          assert r[i] == a[i] && r[j] == a[j];
        } else if i >= |a| {
          assert r[i] == b[i - |a|] && r[j] == b[j - |a|];
        } else {
          assert r[i] == a[i] && r[j] == b[j - |a|];
          assert r[j] in b;
        }
      }
    }
  }

  /**
   * The options are listed by ascending sub-weapon uses and, within one count,
   * in the order of the ink-consume type list.
   */
  lemma FullInkTankOptionsOrdered(env: Env, input: StatFunctionInput)
    requires InkFieldsNonZero(input.mainWeaponParams) && WellFormedSub(input.subWeaponParams)
    ensures OrderedOptions(FullInkTankOptions(env, input))
  {
    var sc := SubWeaponConsume(env, input);
    GroupsOrdered(env, input, sc.inkConsume, 0, sc.maxSubsFromFullInkTank);
  }

  // ---------------------------------------------------------------------------
  // Contents

  lemma RowsForMembership(env: Env, input: StatFunctionInput, subCost: real, subsUsed: int, x: InkTankOption)
    requires InkFieldsNonZero(input.mainWeaponParams)
    ensures x in RowsFor(env, input, subCost, subsUsed, InkConsumeTypes)
            <==> && Supports(input.mainWeaponParams, x.consumeType)
                 && x == OptionFor(env, input, subCost, subsUsed, x.consumeType)
  {
    InkConsumeTypesOrdered();
    var s := SupportedTypes(input.mainWeaponParams, InkConsumeTypes);
    var r := RowsFor(env, input, subCost, subsUsed, InkConsumeTypes);
    if Supports(input.mainWeaponParams, x.consumeType)
       && x == OptionFor(env, input, subCost, subsUsed, x.consumeType) {
      assert x.consumeType in s;
      var j :| 0 <= j < |s| && s[j] == x.consumeType;
      assert r[j] == x;
    }
  }

  lemma {:induction false} GroupsMembership(
    env: Env, input: StatFunctionInput, subCost: real, from: int, maxSubs: int, x: InkTankOption)
    requires InkFieldsNonZero(input.mainWeaponParams)
    ensures x in Groups(env, input, subCost, from, maxSubs)
            <==> && from <= x.subsUsed <= maxSubs
                 && Supports(input.mainWeaponParams, x.consumeType)
                 && x == OptionFor(env, input, subCost, x.subsUsed, x.consumeType)
    decreases maxSubs - from
  {
    if from <= maxSubs {
      RowsForMembership(env, input, subCost, from, x);
      GroupsMembership(env, input, subCost, from + 1, maxSubs, x);
    }
  }

  /**
   * An option is listed exactly when its sub-weapon count is between 0 and the
   * maximum, the weapon supports its type, and its value is the remaining ink
   * divided by the type's cost, rounded to hundredths.
   */
  lemma FullInkTankOptionsMembership(env: Env, input: StatFunctionInput, x: InkTankOption)
    requires InkFieldsNonZero(input.mainWeaponParams) && WellFormedSub(input.subWeaponParams)
    ensures var sc := SubWeaponConsume(env, input);
            x in FullInkTankOptions(env, input)
            <==> && 0 <= x.subsUsed <= sc.maxSubsFromFullInkTank
                 && Supports(input.mainWeaponParams, x.consumeType)
                 && x == OptionFor(env, input, sc.inkConsume, x.subsUsed, x.consumeType)
  {
    var sc := SubWeaponConsume(env, input);
    GroupsMembership(env, input, sc.inkConsume, 0, sc.maxSubsFromFullInkTank, x);
  }

  // ---------------------------------------------------------------------------
  // Counts

  /** How many options of type `t` `r` lists. */
  function CountType(r: seq<InkTankOption>, t: InkConsumeType): nat {
    if |r| == 0 then 0
    else (if r[0].consumeType == t then 1 else 0) + CountType(r[1..], t)
  }

  lemma {:induction false} CountTypeAppend(a: seq<InkTankOption>, b: seq<InkTankOption>, t: InkConsumeType)
    ensures CountType(a + b, t) == CountType(a, t) + CountType(b, t)
  {
    if |a| > 0 {
      assert (a + b)[1..] == a[1..] + b;
      CountTypeAppend(a[1..], b, t);
    } else {
      assert a + b == b;
    }
  }

  lemma {:induction false} RowsForCount(
    env: Env, input: StatFunctionInput, subCost: real, subsUsed: int, types: seq<InkConsumeType>, t: InkConsumeType)
    requires InkFieldsNonZero(input.mainWeaponParams)
    requires OrderedTypes(types)
    ensures CountType(RowsFor(env, input, subCost, subsUsed, types), t)
            == if t in types && Supports(input.mainWeaponParams, t) then 1 else 0
  {
    if |types| > 0 {
      var tail := types[1..];
      assert OrderedTypes(tail) by {
        forall i, j | 0 <= i < j < |tail|
          ensures TypeIndex(tail[i]) < TypeIndex(tail[j])
        {
          assert tail[i] == types[i + 1] && tail[j] == types[j + 1];
        }
      }
      assert types[0] !in tail;
      RowsForCount(env, input, subCost, subsUsed, tail, t);
      var rest := RowsFor(env, input, subCost, subsUsed, tail);
      var head := RowsForHead(env, input, subCost, subsUsed, types);
      CountTypeAppend(head, rest, t);
    }
  }

  /** One step of the inner loop: the option for the first type, if supported, then the rest. */
  lemma RowsForHead(env: Env, input: StatFunctionInput, subCost: real, subsUsed: int, types: seq<InkConsumeType>)
    returns (head: seq<InkTankOption>)
    requires InkFieldsNonZero(input.mainWeaponParams)
    requires |types| > 0
    ensures RowsFor(env, input, subCost, subsUsed, types)
            == head + RowsFor(env, input, subCost, subsUsed, types[1..])
    ensures CountType(head, types[0]) == if Supports(input.mainWeaponParams, types[0]) then 1 else 0
    ensures forall t :: t != types[0] ==> CountType(head, t) == 0
  {
    var rest := RowsFor(env, input, subCost, subsUsed, types[1..]);
    if Supports(input.mainWeaponParams, types[0]) {
      head := [OptionFor(env, input, subCost, subsUsed, types[0])];
      assert MainWeaponInkConsumeByType(env, input, types[0]).Some?;
      assert RowsFor(env, input, subCost, subsUsed, types) == head + rest;
      assert head[1..] == [];
    } else {
      head := [];
      assert MainWeaponInkConsumeByType(env, input, types[0]).None?;
      assert RowsFor(env, input, subCost, subsUsed, types) == rest;
      assert head + rest == rest;
    }
  }

  lemma {:induction false} GroupsCount(
    env: Env, input: StatFunctionInput, subCost: real, from: int, maxSubs: int, t: InkConsumeType)
    requires InkFieldsNonZero(input.mainWeaponParams)
    ensures CountType(Groups(env, input, subCost, from, maxSubs), t)
            == if Supports(input.mainWeaponParams, t) && from <= maxSubs then maxSubs - from + 1 else 0
    decreases maxSubs - from
  {
    if from <= maxSubs {
      InkConsumeTypesOrdered();
      var a := RowsFor(env, input, subCost, from, InkConsumeTypes);
      var b := Groups(env, input, subCost, from + 1, maxSubs);
      CountTypeAppend(a, b, t);
      RowsForCount(env, input, subCost, from, InkConsumeTypes, t);
      GroupsCount(env, input, subCost, from + 1, maxSubs, t);
    }
  }

  /**
   * A supported type is listed once for every sub-weapon count from 0 to the
   * maximum, an unsupported type never.
   */
  lemma FullInkTankOptionsCounts(env: Env, input: StatFunctionInput, t: InkConsumeType)
    requires InkFieldsNonZero(input.mainWeaponParams) && WellFormedSub(input.subWeaponParams)
    ensures var sc := SubWeaponConsume(env, input);
            CountType(FullInkTankOptions(env, input), t)
            == if Supports(input.mainWeaponParams, t) && 0 <= sc.maxSubsFromFullInkTank
               then sc.maxSubsFromFullInkTank + 1 else 0
  {
    var sc := SubWeaponConsume(env, input);
    GroupsCount(env, input, sc.inkConsume, 0, sc.maxSubsFromFullInkTank, t);
  }

  // ---------------------------------------------------------------------------
  // Monotonicity

  lemma DivMonotone(a: real, b: real, m: real)
    requires a <= b && m > 0.0
    ensures a / m <= b / m
  {
    assert b / m - a / m == (b - a) / m;
  }

  /**
   * For one type whose picked parameter is positive, using more sub weapons never
   * leaves more main-weapon actions.
   */
  lemma OptionValueAntitone(
    env: Env, input: StatFunctionInput, subCost: real, k1: int, k2: int, t: InkConsumeType)
    requires InkFieldsNonZero(input.mainWeaponParams)
    requires PickedPositive(input.mainWeaponParams, t)
    requires subCost >= 0.0 && k1 <= k2
    ensures OptionFor(env, input, subCost, k2, t).value <= OptionFor(env, input, subCost, k1, t).value
  {
    assert Supports(input.mainWeaponParams, t);
    MainCostSign(env, input, t);
    RemainingUsesAntitone(subCost, k1, k2, MainWeaponInkConsumeByType(env, input, t).value);
  }

  /** The rounded uses left after `k` sub-weapon uses of cost `c` do not grow with `k`. */
  lemma RemainingUsesAntitone(c: real, k1: int, k2: int, m: real)
    requires c >= 0.0 && k1 <= k2 && m > 0.0
    ensures ToFixed2(InkLeft(c, k2) / m) <= ToFixed2(InkLeft(c, k1) / m)
  {
    var n1 := InkLeft(c, k1);
    var n2 := InkLeft(c, k2);
    InkLeftAntitone(c, k1, k2);
    DivMonotone(n2, n1, m);
    ToFixed2Monotone(n2 / m, n1 / m);
  }

  /** A full tank before any sub-weapon use; more uses of a non-negative cost never leave more ink. */
  lemma InkLeftAntitone(c: real, k1: int, k2: int)
    requires c >= 0.0 && k1 <= k2
    ensures InkLeft(c, 0) == 1.0
    ensures InkLeft(c, k2) <= InkLeft(c, k1)
  {
    MulLeqLeft(c, k1 as real, k2 as real);
  }

  lemma MulLeqLeft(c: real, a: real, b: real)
    requires c >= 0.0 && a <= b
    ensures c * a <= c * b
  {
    assert c * b - c * a == c * (b - a);
  }

  /**
   * Of two options of one type whose picked parameter is positive, the one with
   * more sub-weapon uses never shows the larger value.
   */
  lemma FullInkTankOptionsValueAntitone(env: Env, input: StatFunctionInput, i: int, j: int)
    requires InkFieldsNonZero(input.mainWeaponParams) && WellFormedSub(input.subWeaponParams)
    ensures var r := FullInkTankOptions(env, input);
            0 <= i < |r| && 0 <= j < |r| && r[i].consumeType == r[j].consumeType
            && PickedPositive(input.mainWeaponParams, r[i].consumeType)
            && r[i].subsUsed <= r[j].subsUsed
            ==> r[j].value <= r[i].value
  {
    var r := FullInkTankOptions(env, input);
    if && 0 <= i < |r| && 0 <= j < |r| && r[i].consumeType == r[j].consumeType
       && PickedPositive(input.mainWeaponParams, r[i].consumeType)
       && r[i].subsUsed <= r[j].subsUsed
    {
      var sc := SubWeaponConsume(env, input);
      FullInkTankOptionsMembership(env, input, r[i]);
      FullInkTankOptionsMembership(env, input, r[j]);
      assert sc.inkConsume > 0.0;
      OptionValueAntitone(env, input, sc.inkConsume, r[i].subsUsed, r[j].subsUsed, r[i].consumeType);
    }
  }

  // ---------------------------------------------------------------------------
  // A worked case

  /**
   * A weapon whose only ink parameter is InkConsume = 0.1, with a sub weapon
   * costing 0.6 per use and both Ink Saver effects at 1: one sub-weapon use fits
   * in a full tank, and the options are 10 normal shots with no sub-weapon use
   * and 4 after one.
   */
  lemma FullInkTankOptionsExample(env: Env, input: StatFunctionInput)
    requires input.mainWeaponParams.fields == map[InkConsume := 0.1]
    requires input.subWeaponParams.inkConsume == Some(0.6)
    requires input.subWeaponParams.subInkSaveLv == Some(0)
    requires EffectOf(env, input, ISS, ConsumeRtSub(0)).effect == 1.0
    requires EffectOf(env, input, ISM, ConsumeRtMain).effect == 1.0
    ensures InkFieldsNonZero(input.mainWeaponParams) && WellFormedSub(input.subWeaponParams)
    ensures FullInkTankOptions(env, input)
            == [InkTankOption(0, Normal, 10.0), InkTankOption(1, Normal, 4.0)]
  {
    var sc := SubWeaponConsume(env, input);
    assert sc.inkConsume == 0.6;
    assert sc.maxSubsFromFullInkTank == 1 by {
      assert 1.0 <= 1.0 / 0.6 < 2.0;
    }
    var o0 := ExampleOption(env, input, 0);
    var o1 := ExampleOption(env, input, 1);
    assert o0.value == 10.0 by {
      assert InkLeft(0.6, 0) / 0.1 == 10.0;
      assert (1000.5).Floor == 1000;
    }
    assert o1.value == 4.0 by {
      assert InkLeft(0.6, 1) / 0.1 == 4.0;
      assert (400.5).Floor == 400;
    }
    assert Groups(env, input, 0.6, 2, 1) == [];
    assert Groups(env, input, 0.6, 0, 1) == [o0] + ([o1] + []);
  }

  /** For the worked case, the only option of each group is a normal shot. */
  lemma ExampleOption(env: Env, input: StatFunctionInput, k: int) returns (o: InkTankOption)
    requires input.mainWeaponParams.fields == map[InkConsume := 0.1]
    requires EffectOf(env, input, ISM, ConsumeRtMain).effect == 1.0
    ensures InkFieldsNonZero(input.mainWeaponParams)
    ensures RowsFor(env, input, 0.6, k, InkConsumeTypes) == [o]
    ensures o == InkTankOption(k, Normal, ToFixed2(InkLeft(0.6, k) / 0.1))
  {
    ExampleSupported(input.mainWeaponParams);
    assert MainWeaponInkConsumeByType(env, input, Normal).value == 0.1;
    o := OptionFor(env, input, 0.6, k, Normal);
    var r := RowsFor(env, input, 0.6, k, InkConsumeTypes);
    assert |r| == 1 && r[0] == o;
  }

  /** A weapon with only the InkConsume parameter supports normal shots and nothing else. */
  lemma ExampleSupported(main: MainWeaponParams)
    requires main.fields == map[InkConsume := 0.1]
    ensures InkFieldsNonZero(main)
    ensures SupportedTypes(main, InkConsumeTypes) == [Normal]
  {
    assert InkConsume in InkConsumeTypeToParamsKeys(Normal) && InkConsume in main.fields;
    var tail := InkConsumeTypes[1..];
    forall j | 0 <= j < |tail|
      ensures !Supports(main, tail[j])
    {
      assert TypeIndex(InkConsumeTypes[j + 1]) == j + 1;
    }
    NoneSupported(main, tail);
  }

  lemma {:induction false} NoneSupported(main: MainWeaponParams, types: seq<InkConsumeType>)
    requires forall j :: 0 <= j < |types| ==> !Supports(main, types[j])
    ensures SupportedTypes(main, types) == []
  {
    if |types| > 0 {
      NoneSupported(main, types[1..]);
    }
  }
}
