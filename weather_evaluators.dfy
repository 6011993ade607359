/**
 * One battler's verdict on sun, sandstorm, hail or snow, and rain
 * (src/battle_ai_field_effects.c:113-189).  Each evaluator looks only at the
 * battler and its foe; combining the two battlers of a side is left to the
 * checkers.
 */
module WeatherEvaluators {
  import opened FieldEffectTypes
  import opened AbilityTables
  import opened LightSensitive

  predicate HoldsUmbrella(ctx: BattleContext, b: Battler)
  {
    ctx.mons(b).holdEffect == UtilityUmbrella
  }

  predicate HoldsGoggles(ctx: BattleContext, b: Battler)
  {
    ctx.mons(b).holdEffect == SafetyGoggles
  }

  predicate AbilityLikes(ctx: BattleContext, b: Battler, weather: set<WeatherFlag>)
  {
    DoesAbilityBenefitFromWeather(ctx.mons(b).ability, weather, ctx.weatherDamagingAny)
  }

  // ---------------------------------------------------------------- Sun

  /** What makes sun good for the battler. */
  predicate SunHelps(ctx: BattleContext, b: Battler)
  {
    AbilityLikes(ctx, b, WeatherSun) || AnyLightSensitiveMove(ctx, b) || ctx.HasDamagingMoveOfType(b, Fire)
  }

  /** What makes sun bad for the battler. */
  predicate SunHurts(ctx: BattleContext, b: Battler)
  {
    ctx.HasMoveWithFlag(b, Has50AccuracyInSun) || ctx.HasDamagingMoveOfType(b, Water)
    || ctx.mons(b).ability == DrySkin
  }

  /**
   * Utility Umbrella makes sun irrelevant whatever else holds; otherwise any
   * reason for Positive wins over every reason for Negative.
   */
  function BenefitsFromSun(ctx: BattleContext, battler: Battler): (v: Verdict)
    ensures HoldsUmbrella(ctx, battler) ==> v == Neutral
    ensures v == Positive <==> !HoldsUmbrella(ctx, battler) && SunHelps(ctx, battler)
    ensures v == Negative <==> !HoldsUmbrella(ctx, battler) && !SunHelps(ctx, battler) && SunHurts(ctx, battler)
    ensures v != Blocked
  {
    var mon := ctx.mons(battler);
    if mon.holdEffect == UtilityUmbrella then Neutral
    else if DoesAbilityBenefitFromWeather(mon.ability, WeatherSun, ctx.weatherDamagingAny)
         || AnyLightSensitiveMove(ctx, battler) || ctx.HasDamagingMoveOfType(battler, Fire) then Positive
    else if ctx.HasMoveWithFlag(battler, Has50AccuracyInSun) || ctx.HasDamagingMoveOfType(battler, Water)
         || mon.ability == DrySkin then Negative
    else Neutral
  }

  // ---------------------------------------------------------------- Sandstorm

  /** The battler profits from sandstorm by itself: a sand ability, Rock type, or Shore Up on its side. */
  predicate SandAffinity(ctx: BattleContext, b: Battler)
  {
    AbilityLikes(ctx, b, WeatherSandstorm) || ctx.IsOfType(b, Rock) || ctx.HasSideMoveWithEffect(b, ShoreUp)
  }

  /** The battler is not hurt by sandstorm: Safety Goggles, or Rock, Ground or Steel type. */
  predicate SandShielded(ctx: BattleContext, b: Battler)
  {
    HoldsGoggles(ctx, b) || ctx.IsRockGroundOrSteel(b)
  }

  /**
   * The test the code applies to the foe of a shielded battler: the foe is not
   * Rock, Ground or Steel, or it holds Safety Goggles, or it has a sand ability.
   */
  predicate FoeTestPasses(ctx: BattleContext, b: Battler)
  {
    var f := ctx.foe(b);
    !ctx.IsRockGroundOrSteel(f) || HoldsGoggles(ctx, f) || AbilityLikes(ctx, f, WeatherSandstorm)
  }

  /**
   * Positive for a battler with sand affinity; for a shielded battler, Neutral
   * exactly when its foe is Rock, Ground or Steel with neither goggles nor a
   * sand ability, Positive otherwise; Negative for everyone else.
   */
  function BenefitsFromSandstorm(ctx: BattleContext, battler: Battler): (v: Verdict)
    ensures v == Positive <==> SandAffinity(ctx, battler) || (SandShielded(ctx, battler) && FoeTestPasses(ctx, battler))
    ensures v == Neutral <==> !SandAffinity(ctx, battler) && SandShielded(ctx, battler) && !FoeTestPasses(ctx, battler)
    ensures v == Negative <==> !SandAffinity(ctx, battler) && !SandShielded(ctx, battler)
    ensures v != Blocked
  {
    var mon := ctx.mons(battler);
    var foe := ctx.foe(battler);
    if DoesAbilityBenefitFromWeather(mon.ability, WeatherSandstorm, ctx.weatherDamagingAny)
       || ctx.IsOfType(battler, Rock)
       || ctx.HasSideMoveWithEffect(battler, ShoreUp) then Positive
    else if mon.holdEffect == SafetyGoggles || ctx.IsRockGroundOrSteel(battler) then
      if !ctx.IsRockGroundOrSteel(foe)
         || ctx.mons(foe).holdEffect == SafetyGoggles
         || DoesAbilityBenefitFromWeather(ctx.mons(foe).ability, WeatherSandstorm, ctx.weatherDamagingAny)
      then Positive
      else Neutral
    else Negative
  }

  /**
   * The comment above the sandstorm evaluator asks for a foe that takes sand
   * damage, but a shielded battler facing a foe that holds Safety Goggles
   * still gets Positive.
   */
  lemma SandstormPositiveAgainstGoggledFoe(ctx: BattleContext, battler: Battler)
    requires ctx.IsOfType(battler, Steel)
    requires HoldsGoggles(ctx, ctx.foe(battler))
    ensures BenefitsFromSandstorm(ctx, battler) == Positive
  {
  }

  // ---------------------------------------------------------------- Hail or snow

  /** What makes the icy weather in `weather` good for the battler. */
  predicate IcyHelps(ctx: BattleContext, b: Battler, weather: set<WeatherFlag>)
  {
    AbilityLikes(ctx, b, weather) || ctx.IsOfType(b, Ice)
    || ctx.HasMoveWithFlag(b, AlwaysHitsInHailSnow) || ctx.HasSideMoveWithEffect(b, AuroraVeil)
  }

  /** What makes the icy weather in `weather` bad for the battler. */
  predicate IcyHurts(ctx: BattleContext, b: Battler, weather: set<WeatherFlag>)
  {
    (Overlaps(weather, ctx.weatherDamagingAny) && !HoldsGoggles(ctx, b))
    || AnyLightSensitiveMove(ctx, b)
    || ctx.HasMoveWithFlag(ctx.foe(b), AlwaysHitsInHailSnow)
  }

  /**
   * Any reason for Positive wins; otherwise damaging weather without goggles,
   * a light-sensitive move, or a foe whose move always hits in hail or snow
   * gives Negative.  Never Blocked.
   */
  function BenefitsFromHailOrSnow(ctx: BattleContext, battler: Battler, weather: set<WeatherFlag>): (v: Verdict)
    ensures v == Positive <==> IcyHelps(ctx, battler, weather)
    ensures v == Negative <==> !IcyHelps(ctx, battler, weather) && IcyHurts(ctx, battler, weather)
    ensures v != Blocked
  {
    var mon := ctx.mons(battler);
    if DoesAbilityBenefitFromWeather(mon.ability, weather, ctx.weatherDamagingAny)
       || ctx.IsOfType(battler, Ice)
       || ctx.HasMoveWithFlag(battler, AlwaysHitsInHailSnow)
       || ctx.HasSideMoveWithEffect(battler, AuroraVeil) then Positive
    else if Overlaps(weather, ctx.weatherDamagingAny) && mon.holdEffect != SafetyGoggles then Negative
    else if AnyLightSensitiveMove(ctx, battler) then Negative
    else if ctx.HasMoveWithFlag(ctx.foe(battler), AlwaysHitsInHailSnow) then Negative
    else Neutral
  }

  // ---------------------------------------------------------------- Rain

  /** What makes rain good for the battler. */
  predicate RainHelps(ctx: BattleContext, b: Battler)
  {
    AbilityLikes(ctx, b, WeatherRain) || ctx.HasMoveWithFlag(b, AlwaysHitsInRain)
    || ctx.HasDamagingMoveOfType(b, Water)
  }

  /** What makes rain bad for the battler, including a foe's move that always hits in rain. */
  predicate RainHurts(ctx: BattleContext, b: Battler)
  {
    AnyLightSensitiveMove(ctx, b) || ctx.HasDamagingMoveOfType(b, Fire)
    || ctx.HasMoveWithFlag(ctx.foe(b), AlwaysHitsInRain)
  }

  /**
   * Utility Umbrella makes rain irrelevant whatever else holds; otherwise any
   * reason for Positive wins over every reason for Negative.
   */
  function BenefitsFromRain(ctx: BattleContext, battler: Battler): (v: Verdict)
    ensures HoldsUmbrella(ctx, battler) ==> v == Neutral
    ensures v == Positive <==> !HoldsUmbrella(ctx, battler) && RainHelps(ctx, battler)
    ensures v == Negative <==> !HoldsUmbrella(ctx, battler) && !RainHelps(ctx, battler) && RainHurts(ctx, battler)
    ensures v != Blocked
  {
    var mon := ctx.mons(battler);
    if mon.holdEffect == UtilityUmbrella then Neutral
    else if DoesAbilityBenefitFromWeather(mon.ability, WeatherRain, ctx.weatherDamagingAny)
         || ctx.HasMoveWithFlag(battler, AlwaysHitsInRain)
         || ctx.HasDamagingMoveOfType(battler, Water) then Positive
    else if AnyLightSensitiveMove(ctx, battler) || ctx.HasDamagingMoveOfType(battler, Fire) then Negative
    else if ctx.HasMoveWithFlag(ctx.foe(battler), AlwaysHitsInRain) then Negative
    else Neutral
  }
}
