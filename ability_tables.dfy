/**
 * The static tables saying which abilities profit from which weather or
 * field status (src/battle_ai_field_effects.c:27-82).
 */
module AbilityTables {
  import opened FieldEffectTypes

  /** The abilities listed in the weather table. */
  const WeatherTableAbilities: set<Ability> :=
    {Forecast, MagicGuard, Overcoat, SandForce, SandRush, SandVeil,
     IceBody, IceFace, SnowCloak, SlushRush, DrySkin, Hydration, RainDish, SwiftSwim,
     Chlorophyll, FlowerGift, Harvest, LeafGuard, OrichalcumPulse, Protosynthesis, SolarPower}

  /** The abilities listed in the field-status table. */
  const FieldTableAbilities: set<Ability> :=
    {Mimicry, HadronEngine, QuarkDrive, SurgeSurfer, GrassPelt}

  /**
   * Does `ability` profit from the weather bits in `weather`?  `damagingAny` is
   * the mask of damaging weather, whose exact membership is left open.
   */
  function DoesAbilityBenefitFromWeather(ability: Ability, weather: set<WeatherFlag>,
                                         damagingAny: set<WeatherFlag>): (r: bool)
    ensures r ==> ability in WeatherTableAbilities
    ensures ability == Forecast ==> (r <==> Rain in weather || Sun in weather || Hail in weather || Snow in weather)
    ensures ability in {MagicGuard, Overcoat} ==> (r <==> Overlaps(weather, damagingAny))
    ensures ability in {SandForce, SandRush, SandVeil} ==> (r <==> Sandstorm in weather)
    ensures ability in {IceBody, IceFace, SnowCloak} ==> (r <==> Hail in weather || Snow in weather)
    ensures ability == SlushRush ==> (r <==> Snow in weather)
    ensures ability in {DrySkin, Hydration, RainDish, SwiftSwim} ==> (r <==> Rain in weather)
    ensures ability in {Chlorophyll, FlowerGift, Harvest, LeafGuard, OrichalcumPulse, Protosynthesis, SolarPower} ==>
              (r <==> Sun in weather)
  {
    match ability
    case Forecast => Overlaps(weather, WeatherRain + WeatherSun + WeatherIcyAny)
    case MagicGuard | Overcoat => Overlaps(weather, damagingAny)
    case SandForce | SandRush | SandVeil =>
      assert Sandstorm in weather ==> Sandstorm in weather * WeatherSandstorm;
      Overlaps(weather, WeatherSandstorm)
    case IceBody | IceFace | SnowCloak =>
      assert Hail in weather ==> Hail in weather * WeatherIcyAny;
      assert Snow in weather ==> Snow in weather * WeatherIcyAny;
      Overlaps(weather, WeatherIcyAny)
    case SlushRush =>
      assert Snow in weather ==> Snow in weather * WeatherSnow;
      Overlaps(weather, WeatherSnow)
    case DrySkin | Hydration | RainDish | SwiftSwim =>
      assert Rain in weather ==> Rain in weather * WeatherRain;
      Overlaps(weather, WeatherRain)
    case Chlorophyll | FlowerGift | Harvest | LeafGuard
       | OrichalcumPulse | Protosynthesis | SolarPower =>
      assert Sun in weather ==> Sun in weather * WeatherSun;
      Overlaps(weather, WeatherSun)
    case _ => false
  }

  /**
   * Does `ability` profit from the field-status bits in `fieldStatus`?  Only
   * Mimicry profits from Misty or Psychic Terrain; no ability profits from
   * Trick Room.
   */
  function DoesAbilityBenefitFromFieldStatus(ability: Ability, fieldStatus: set<FieldFlag>): (r: bool)
    ensures r ==> ability in FieldTableAbilities
    ensures r ==> Overlaps(fieldStatus, FieldTerrainAny)
    ensures ability == Mimicry ==> (r <==> Overlaps(fieldStatus, FieldTerrainAny))
    ensures ability in {HadronEngine, QuarkDrive, SurgeSurfer} ==> (r <==> ElectricTerrain in fieldStatus)
    ensures ability == GrassPelt ==> (r <==> GrassyTerrain in fieldStatus)
    ensures !Overlaps(fieldStatus, FieldElectricTerrain + FieldGrassyTerrain) ==>
              (r <==> ability == Mimicry && Overlaps(fieldStatus, FieldTerrainAny))
  {
    match ability
    case Mimicry => Overlaps(fieldStatus, FieldTerrainAny)
    case HadronEngine | QuarkDrive | SurgeSurfer =>
      assert ElectricTerrain in fieldStatus ==> ElectricTerrain in fieldStatus * FieldElectricTerrain;
      Overlaps(fieldStatus, FieldElectricTerrain)
    case GrassPelt =>
      assert GrassyTerrain in fieldStatus ==> GrassyTerrain in fieldStatus * FieldGrassyTerrain;
      Overlaps(fieldStatus, FieldGrassyTerrain)
    case _ => false
  }

  /** Forecast profits from rain, sun, hail and snow, and never from sandstorm alone. */
  lemma ForecastWeathers(damagingAny: set<WeatherFlag>)
    ensures DoesAbilityBenefitFromWeather(Forecast, WeatherRain, damagingAny)
    ensures DoesAbilityBenefitFromWeather(Forecast, WeatherSun, damagingAny)
    ensures DoesAbilityBenefitFromWeather(Forecast, {Hail}, damagingAny)
    ensures DoesAbilityBenefitFromWeather(Forecast, WeatherSnow, damagingAny)
    ensures !DoesAbilityBenefitFromWeather(Forecast, WeatherSandstorm, damagingAny)
  {
  }

  /** Misty and Psychic Terrain profit Mimicry and no other ability. */
  lemma MistyAndPsychicOnlyMimicry(ability: Ability)
    ensures DoesAbilityBenefitFromFieldStatus(ability, FieldMistyTerrain) <==> ability == Mimicry
    ensures DoesAbilityBenefitFromFieldStatus(ability, FieldPsychicTerrain) <==> ability == Mimicry
  {
    assert MistyTerrain in FieldMistyTerrain * FieldTerrainAny;
    assert PsychicTerrain in FieldPsychicTerrain * FieldTerrainAny;
  }
}
