/**
 * The two public entry points, WeatherChecker and FieldStatusChecker
 * (src/battle_ai_field_effects.c:341-418).  Each evaluates one or two
 * battlers of a side in a loop and reports whether the side's verdict is the
 * one the caller asked about.
 *
 * Each checker is proved against a loop-free reference: a dispatch function
 * that picks the evaluator for the given mask, and a side verdict that
 * combines the verdicts of the battler and of its partner.
 */
module FieldEffectCheckers {
  import opened FieldEffectTypes
  import opened WeatherEvaluators
  import opened FieldEvaluators

  /** The outcome of combining a side: one verdict, or two that disagree and so match nothing. */
  datatype SideVerdict = Decided(verdict: Verdict) | Split

  /**
   * One battler's verdict on a weather mask.  Rain takes precedence over sun,
   * sun over sandstorm, sandstorm over hail and snow; a mask with none of
   * these bits leaves the verdict Neutral.
   */
  function WeatherVerdict(ctx: BattleContext, b: Battler, weather: set<WeatherFlag>): (v: Verdict)
    ensures v != Blocked
    ensures !Overlaps(weather, WeatherRain + WeatherSun + WeatherSandstorm + WeatherIcyAny) ==> v == Neutral
  {
    if Overlaps(weather, WeatherRain) then BenefitsFromRain(ctx, b)
    else if Overlaps(weather, WeatherSun) then BenefitsFromSun(ctx, b)
    else if Overlaps(weather, WeatherSandstorm) then BenefitsFromSandstorm(ctx, b)
    else if Overlaps(weather, WeatherIcyAny) then BenefitsFromHailOrSnow(ctx, b, weather)
    else Neutral
  }

  /**
   * One battler's verdict on a field-status mask.  Every matching bit is
   * evaluated in turn and the last one wins, so Trick Room overrides any
   * terrain, Psychic overrides Misty, Misty overrides Grassy, Grassy overrides
   * Electric; a mask with none of these bits leaves the verdict Neutral.
   */
  function FieldStatusVerdict(ctx: BattleContext, b: Battler, fieldStatus: set<FieldFlag>): (v: Verdict)
    ensures v != Blocked
    ensures !Overlaps(fieldStatus, FieldTerrainAny + FieldTrickRoom) ==> v == Neutral
  {
    if Overlaps(fieldStatus, FieldTrickRoom) then TrickRoomVerdict(ctx, b)
    else if Overlaps(fieldStatus, FieldPsychicTerrain) then BenefitsFromPsychicTerrain(ctx, b)
    else if Overlaps(fieldStatus, FieldMistyTerrain) then BenefitsFromMistyTerrain(ctx, b)
    else if Overlaps(fieldStatus, FieldGrassyTerrain) then BenefitsFromGrassyTerrain(ctx, b)
    else if Overlaps(fieldStatus, FieldElectricTerrain) then BenefitsFromElectricTerrain(ctx, b)
    else Neutral
  }

  /**
   * How a side's verdicts are combined.  With one battler on the side its own
   * verdict stands.  With two, the partner's (the last computed) stands, except
   * that when both must agree and the first battler's verdict is not Neutral,
   * a disagreement matches nothing.
   */
  function CombineSide(twoOnSide: bool, mustAgree: bool, first: Verdict, last: Verdict): SideVerdict
  {
    if !twoOnSide then Decided(first)
    else if mustAgree && first != Neutral && first != last then Split
    else Decided(last)
  }

  /** The side verdict WeatherChecker compares: Blocked under any primal weather. */
  function WeatherSideVerdict(ctx: BattleContext, b: Battler, weather: set<WeatherFlag>): SideVerdict
  {
    if ctx.primalWeatherActive then Decided(Blocked)
    else CombineSide(ctx.HasLivingPartner(b), Overlaps(weather, ctx.weatherDamagingAny),
                     WeatherVerdict(ctx, b, weather), WeatherVerdict(ctx, ctx.partner(b), weather))
  }

  /** The side verdict FieldStatusChecker compares; only Trick Room needs both battlers to agree. */
  function FieldStatusSideVerdict(ctx: BattleContext, b: Battler, fieldStatus: set<FieldFlag>): SideVerdict
  {
    CombineSide(ctx.HasLivingPartner(b), Overlaps(fieldStatus, FieldTrickRoom),
                FieldStatusVerdict(ctx, b, fieldStatus), FieldStatusVerdict(ctx, ctx.partner(b), fieldStatus))
  }

  /** Does the side's verdict on `weather` equal `desiredResult`? */
  method WeatherChecker(ctx: BattleContext, battler: Battler, weather: set<WeatherFlag>, desiredResult: Verdict)
    returns (r: bool)
    ensures r <==> WeatherSideVerdict(ctx, battler, weather) == Decided(desiredResult)
  {
    if ctx.primalWeatherActive {
      return desiredResult == Blocked;
    }

    var result := Neutral;
    var firstResult := Neutral;
    var battlersOnSide := 1;
    if ctx.isDoubleBattle && ctx.mons(ctx.partner(battler)).alive {
      battlersOnSide := 2;
    }

    ghost var mustAgree := Overlaps(weather, ctx.weatherDamagingAny);
    ghost var first := WeatherVerdict(ctx, battler, weather);
    var current := battler;
    for i := 0 to battlersOnSide
      invariant i == 0 ==> current == battler && result == Neutral
      invariant i == 1 ==> current == ctx.partner(battler) && result == first
      invariant i == 2 ==> result == WeatherVerdict(ctx, ctx.partner(battler), weather)
      invariant firstResult == if i >= 1 && battlersOnSide == 2 && mustAgree then first else Neutral
    {
      if Overlaps(weather, WeatherRain) {
        result := BenefitsFromRain(ctx, current);
      } else if Overlaps(weather, WeatherSun) {
        result := BenefitsFromSun(ctx, current);
      } else if Overlaps(weather, WeatherSandstorm) {
        result := BenefitsFromSandstorm(ctx, current);
      } else if Overlaps(weather, WeatherIcyAny) {
        result := BenefitsFromHailOrSnow(ctx, current, weather);
      }

      current := ctx.partner(current);

      if result != Neutral {
        if Overlaps(weather, ctx.weatherDamagingAny) && i == 0 && battlersOnSide == 2 {
          firstResult := result;
        }
      }
    }

    if firstResult != Neutral {
      return firstResult == result && result == desiredResult;
    }
    return result == desiredResult;
  }

  /** Does the side's verdict on `fieldStatus` equal `desiredResult`? */
  method FieldStatusChecker(ctx: BattleContext, battler: Battler, fieldStatus: set<FieldFlag>, desiredResult: Verdict)
    returns (r: bool)
    ensures r <==> FieldStatusSideVerdict(ctx, battler, fieldStatus) == Decided(desiredResult)
    ensures desiredResult == Blocked ==> !r
  {
    var result := Neutral;
    var firstResult := Neutral;
    var battlersOnSide := 1;
    if ctx.isDoubleBattle && ctx.mons(ctx.partner(battler)).alive {
      battlersOnSide := 2;
    }

    ghost var mustAgree := Overlaps(fieldStatus, FieldTrickRoom);
    ghost var first := FieldStatusVerdict(ctx, battler, fieldStatus);
    var current := battler;
    for i := 0 to battlersOnSide
      invariant i == 0 ==> current == battler && result == Neutral
      invariant i == 1 ==> current == ctx.partner(battler) && result == first
      invariant i == 2 ==> result == FieldStatusVerdict(ctx, ctx.partner(battler), fieldStatus)
      invariant firstResult == if i >= 1 && battlersOnSide == 2 && mustAgree then first else Neutral
    {
      if Overlaps(fieldStatus, FieldElectricTerrain) {
        result := BenefitsFromElectricTerrain(ctx, current);
      }
      if Overlaps(fieldStatus, FieldGrassyTerrain) {
        result := BenefitsFromGrassyTerrain(ctx, current);
      }
      if Overlaps(fieldStatus, FieldMistyTerrain) {
        result := BenefitsFromMistyTerrain(ctx, current);
      }
      if Overlaps(fieldStatus, FieldPsychicTerrain) {
        result := BenefitsFromPsychicTerrain(ctx, current);
      }
      if Overlaps(fieldStatus, FieldTrickRoom) {
        result := BenefitsFromTrickRoom(ctx, current);
      }

      current := ctx.partner(current);

      if result != Neutral {
        if Overlaps(fieldStatus, FieldTrickRoom) && i == 0 && battlersOnSide == 2 {
          firstResult := result;
        }
      }
    }

    if firstResult != Neutral {
      return firstResult == result && result == desiredResult;
    }
    return result == desiredResult;
  }

  // ---------------------------------------------------------------- Properties of the side verdicts

  /** Under a primal weather every weather argument matches Blocked and nothing else. */
  lemma PrimalWeatherOnlyMatchesBlocked(ctx: BattleContext, b: Battler, weather: set<WeatherFlag>, desiredResult: Verdict)
    requires ctx.primalWeatherActive
    ensures WeatherSideVerdict(ctx, b, weather) == Decided(desiredResult) <==> desiredResult == Blocked
  {
  }

  /** Without a primal weather, WeatherChecker never matches Blocked. */
  lemma WeatherBlockedOnlyUnderPrimal(ctx: BattleContext, b: Battler, weather: set<WeatherFlag>)
    requires !ctx.primalWeatherActive
    ensures WeatherSideVerdict(ctx, b, weather) != Decided(Blocked)
  {
  }

  /** FieldStatusChecker never matches Blocked. */
  lemma FieldStatusNeverBlocked(ctx: BattleContext, b: Battler, fieldStatus: set<FieldFlag>)
    ensures FieldStatusSideVerdict(ctx, b, fieldStatus) != Decided(Blocked)
  {
  }

  /** In singles, or with a fainted partner, each checker compares the battler's own verdict. */
  lemma LoneBattlerComparesOwnVerdict(ctx: BattleContext, b: Battler, weather: set<WeatherFlag>,
                                      fieldStatus: set<FieldFlag>)
    requires !ctx.HasLivingPartner(b)
    ensures !ctx.primalWeatherActive ==> WeatherSideVerdict(ctx, b, weather) == Decided(WeatherVerdict(ctx, b, weather))
    ensures FieldStatusSideVerdict(ctx, b, fieldStatus) == Decided(FieldStatusVerdict(ctx, b, fieldStatus))
  {
  }

  /**
   * With a living partner in doubles, whatever a checker matches is the
   * partner's verdict, the last one computed.
   */
  lemma DoublesCompareLastVerdict(ctx: BattleContext, b: Battler, weather: set<WeatherFlag>,
                                  fieldStatus: set<FieldFlag>, desiredResult: Verdict)
    requires ctx.HasLivingPartner(b)
    ensures !ctx.primalWeatherActive && WeatherSideVerdict(ctx, b, weather) == Decided(desiredResult) ==>
              desiredResult == WeatherVerdict(ctx, ctx.partner(b), weather)
    ensures FieldStatusSideVerdict(ctx, b, fieldStatus) == Decided(desiredResult) ==>
              desiredResult == FieldStatusVerdict(ctx, ctx.partner(b), fieldStatus)
  {
  }

  /**
   * With a living partner and a weather or field status that is neither
   * damaging weather nor Trick Room, the partner's verdict alone decides.
   */
  lemma DoublesFollowPartner(ctx: BattleContext, b: Battler, weather: set<WeatherFlag>, fieldStatus: set<FieldFlag>)
    requires ctx.HasLivingPartner(b)
    ensures !ctx.primalWeatherActive && !Overlaps(weather, ctx.weatherDamagingAny) ==>
              WeatherSideVerdict(ctx, b, weather) == Decided(WeatherVerdict(ctx, ctx.partner(b), weather))
    ensures !Overlaps(fieldStatus, FieldTrickRoom) ==>
              FieldStatusSideVerdict(ctx, b, fieldStatus) == Decided(FieldStatusVerdict(ctx, ctx.partner(b), fieldStatus))
  {
  }

  /**
   * For damaging weather or Trick Room with a living partner, a non-Neutral
   * first verdict that the partner does not share matches no desired result.
   */
  lemma DisagreementMatchesNothing(ctx: BattleContext, b: Battler, weather: set<WeatherFlag>,
                                   fieldStatus: set<FieldFlag>, desiredResult: Verdict)
    requires ctx.HasLivingPartner(b)
    ensures !ctx.primalWeatherActive && Overlaps(weather, ctx.weatherDamagingAny)
            && WeatherVerdict(ctx, b, weather) != Neutral
            && WeatherVerdict(ctx, b, weather) != WeatherVerdict(ctx, ctx.partner(b), weather) ==>
              WeatherSideVerdict(ctx, b, weather) != Decided(desiredResult)
    ensures Overlaps(fieldStatus, FieldTrickRoom)
            && FieldStatusVerdict(ctx, b, fieldStatus) != Neutral
            && FieldStatusVerdict(ctx, b, fieldStatus) != FieldStatusVerdict(ctx, ctx.partner(b), fieldStatus) ==>
              FieldStatusSideVerdict(ctx, b, fieldStatus) != Decided(desiredResult)
  {
  }

  /** Trick Room in the mask overrides every terrain bit. */
  lemma TrickRoomOverridesTerrain(ctx: BattleContext, b: Battler, fieldStatus: set<FieldFlag>)
    requires TrickRoom in fieldStatus
    ensures FieldStatusVerdict(ctx, b, fieldStatus) == TrickRoomVerdict(ctx, b)
  {
  }

  /** Rain in the mask overrides every other weather bit. */
  lemma RainOverridesOtherWeather(ctx: BattleContext, b: Battler, weather: set<WeatherFlag>)
    requires Rain in weather
    ensures WeatherVerdict(ctx, b, weather) == BenefitsFromRain(ctx, b)
  {
  }

  /**
   * A mask made only of bits the classifier never tests (fog, strong winds and
   * the like), or no bits at all, leaves both verdicts at Neutral.
   */
  lemma UnrecognisedMaskIsNeutral(ctx: BattleContext, b: Battler,
                                  weather: set<WeatherFlag>, fieldStatus: set<FieldFlag>)
    requires forall w :: w in weather ==> w.OtherWeather?
    requires forall f :: f in fieldStatus ==> f.OtherFieldStatus?
    ensures WeatherVerdict(ctx, b, weather) == Neutral
    ensures FieldStatusVerdict(ctx, b, fieldStatus) == Neutral
  {
  }

  /**
   * A lone battler holding Utility Umbrella answers Neutral to sun and rain,
   * whatever its ability, moves or foe.
   */
  lemma UmbrellaNeutralisesSunAndRain(ctx: BattleContext, b: Battler, desiredResult: Verdict)
    requires !ctx.primalWeatherActive && !ctx.HasLivingPartner(b) && HoldsUmbrella(ctx, b)
    ensures WeatherSideVerdict(ctx, b, WeatherSun) == Decided(desiredResult) <==> desiredResult == Neutral
    ensures WeatherSideVerdict(ctx, b, WeatherRain) == Decided(desiredResult) <==> desiredResult == Neutral
  {
  }

  /**
   * A lone battler whose ability profits from sun, without an umbrella, is
   * Positive on sun; the same ability alone does not make rain Positive.
   */
  lemma SunAbilityScenario(ctx: BattleContext, b: Battler)
    requires !ctx.primalWeatherActive && !ctx.HasLivingPartner(b) && !HoldsUmbrella(ctx, b)
    requires ctx.mons(b).ability == Chlorophyll
    requires !ctx.HasMoveWithFlag(b, AlwaysHitsInRain) && !ctx.HasDamagingMoveOfType(b, Water)
    ensures WeatherSideVerdict(ctx, b, WeatherSun) == Decided(Positive)
    ensures WeatherSideVerdict(ctx, b, WeatherRain) != Decided(Positive)
  {
  }

  /**
   * In doubles, a partner with a Rising Voltage move makes Electric Terrain
   * Positive for the side, whatever the battler itself has.
   */
  lemma PartnerRisingVoltageScenario(ctx: BattleContext, b: Battler)
    requires ctx.HasLivingPartner(b) && ctx.HasMoveWithEffect(ctx.partner(b), RisingVoltage)
    ensures FieldStatusSideVerdict(ctx, b, FieldElectricTerrain) == Decided(Positive)
  {
  }
}
