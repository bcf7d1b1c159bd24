/** buildStats: looks the weapon up, then assembles the three stats into one report. */
module Analyzer {
  import opened Wrappers
  import opened AnalyzerTypes
  import opened Stats
  import opened InkTank

  /**
   * The parameters `buildStats` would look up, when both lookups succeed, are
   * ones the stats can be computed from without dividing by zero.
   */
  predicate LookupWellFormed(table: WeaponTable, weaponSplId: int) {
    weaponSplId in table.mainWeapons
    && table.mainWeapons[weaponSplId].subWeaponId in table.subWeapons
    ==> && InkFieldsNonZero(table.mainWeapons[weaponSplId])
        && WellFormedSub(table.subWeapons[table.mainWeapons[weaponSplId].subWeaponId])
  }

  /**
   * A missing main weapon or a missing sub weapon fails the whole call; otherwise
   * the report copies the weapon ids and the sub weapon's white-ink frames and
   * holds the three derived stats for the build's ability points.
   */
  function BuildStats(env: Env, table: WeaponTable, build: Build, weaponSplId: int)
    : (r: Result<AnalyzedBuild, BuildError>)
    requires LookupWellFormed(table, weaponSplId)
    ensures weaponSplId !in table.mainWeapons ==> r == Failure(WeaponNotFound(weaponSplId))
    ensures weaponSplId in table.mainWeapons
            && table.mainWeapons[weaponSplId].subWeaponId !in table.subWeapons
            ==> r == Failure(SubWeaponNotFound(table.mainWeapons[weaponSplId].subWeaponId))
    ensures r.Success? <==>
              weaponSplId in table.mainWeapons
              && table.mainWeapons[weaponSplId].subWeaponId in table.subWeapons
    ensures r.Success? ==>
              var main := table.mainWeapons[weaponSplId];
              var sub := table.subWeapons[main.subWeaponId];
              var input := StatFunctionInput(main, sub, env.buildToAbilityPoints(build));
              && r.value.weapon.subWeaponSplId == main.subWeaponId
              && r.value.weapon.specialWeaponSplId == main.specialWeaponId
              && r.value.stats.subWeaponWhiteInkFrames == sub.inkRecoverStop
              && r.value.stats.specialPoint == SpecialPoint(env, input)
              && r.value.stats.specialSavedAfterDeath == SpecialSavedAfterDeath(env, input)
              && r.value.stats.fullInkTankOptions == FullInkTankOptions(env, input)
  {
    if weaponSplId !in table.mainWeapons then
      Failure(WeaponNotFound(weaponSplId))
    else
      var main := table.mainWeapons[weaponSplId];
      if main.subWeaponId !in table.subWeapons then
        Failure(SubWeaponNotFound(main.subWeaponId))
      else
        var sub := table.subWeapons[main.subWeaponId];
        var input := StatFunctionInput(main, sub, env.buildToAbilityPoints(build));
        Success(AnalyzedBuild(
          WeaponIds(main.subWeaponId, main.specialWeaponId),
          BuildStatValues(
            SpecialPoint(env, input),
            SpecialSavedAfterDeath(env, input),
            FullInkTankOptions(env, input),
            sub.inkRecoverStop)))
  }
}
