/**
 * The read-only battle facts the AI field-effect classifier consults.
 *
 * The classifier reads the AI's cached view of the battle (abilities, held-item
 * effects, speed stats), the battlers' status words and the active field
 * statuses, and calls a family of query helpers.  Here all of that becomes one
 * immutable BattleContext value: plain facts become fields, and each query
 * helper becomes either a set of facts per battler (for the `Has...` queries)
 * or a function-typed field (for the per-move lookups).
 */
module FieldEffectTypes {

  /** The four verdicts of enum BattlerBenefitsFromFieldEffect. */
  datatype Verdict = Positive | Neutral | Negative | Blocked

  /** A battler slot index. */
  type Battler = nat

  /** The abilities the classifier names; every other ability is OtherAbility. */
  datatype Ability =
    | Forecast | MagicGuard | Overcoat
    | SandForce | SandRush | SandVeil
    | IceBody | IceFace | SnowCloak | SlushRush
    | DrySkin | Hydration | RainDish | SwiftSwim
    | Chlorophyll | FlowerGift | Harvest | LeafGuard
    | OrichalcumPulse | Protosynthesis | SolarPower
    | Mimicry | HadronEngine | QuarkDrive | SurgeSurfer | GrassPelt
    | GaleWings | Triage | Prankster
    | OtherAbility(id: nat)

  /** Held-item effect categories the classifier tests for. */
  datatype HoldEffect = UtilityUmbrella | SafetyGoggles | OtherHoldEffect(id: nat)

  /** Elemental types the classifier tests for. */
  datatype PokemonType =
    | Fire | Water | Rock | Ground | Steel | Ice | Electric | Grass | Dragon | Psychic
    | OtherType(id: nat)

  /** Move effects the classifier tests for. */
  datatype MoveEffect =
    | SolarBeam | MorningSun | Synthesis | Moonlight | Growth
    | ShoreUp | AuroraVeil | RisingVoltage | Rest | GrassyGlide
    | Earthquake | Magnitude | MistyExplosion | ExpandingForce
    | OtherEffect(id: nat)

  /** Additional (secondary) move effects the classifier tests for. */
  datatype AdditionalEffect = SleepEffect | FloralHealing | OtherAdditionalEffect(id: nat)

  /** Per-move predicates passed to HasMoveWithFlag. */
  datatype MoveFlag = Has50AccuracyInSun | AlwaysHitsInHailSnow | AlwaysHitsInRain

  /** One slot of a battler's move array: empty, unavailable, or a move id. */
  datatype MoveSlot = NoMove | UnavailableMove | Known(id: nat)

  /** MAX_MON_MOVES: the fixed length of every move array. */
  const MaxMonMoves: nat := 4

  type MoveArray = s: seq<MoveSlot> | |s| == MaxMonMoves
    witness [NoMove, NoMove, NoMove, NoMove]

  /**
   * Weather bits.  A weather argument is a mask: a set of these bits.
   * OtherWeather stands for every bit the classifier never tests.
   */
  datatype WeatherFlag = Rain | Sun | Sandstorm | Hail | Snow | OtherWeather(id: nat)

  const WeatherRain: set<WeatherFlag> := {Rain}
  const WeatherSun: set<WeatherFlag> := {Sun}
  const WeatherSandstorm: set<WeatherFlag> := {Sandstorm}
  const WeatherSnow: set<WeatherFlag> := {Snow}
  const WeatherIcyAny: set<WeatherFlag> := {Hail, Snow}

  /**
   * Field-status bits.  A field-status argument is a mask of these bits.
   * OtherFieldStatus stands for every bit the classifier never tests.
   */
  datatype FieldFlag =
    | ElectricTerrain | GrassyTerrain | MistyTerrain | PsychicTerrain | TrickRoom
    | OtherFieldStatus(id: nat)

  const FieldElectricTerrain: set<FieldFlag> := {ElectricTerrain}
  const FieldGrassyTerrain: set<FieldFlag> := {GrassyTerrain}
  const FieldMistyTerrain: set<FieldFlag> := {MistyTerrain}
  const FieldPsychicTerrain: set<FieldFlag> := {PsychicTerrain}
  const FieldTerrainAny: set<FieldFlag> := {ElectricTerrain, GrassyTerrain, MistyTerrain, PsychicTerrain}
  const FieldTrickRoom: set<FieldFlag> := {TrickRoom}

  /** The bitwise test `mask & bits` is non-zero. */
  predicate Overlaps<T>(mask: set<T>, bits: set<T>)
  {
    mask * bits != {}
  }

  /** What the classifier may learn about one battler. */
  datatype BattlerFacts = BattlerFacts(
    ability: Ability,                                  // the AI's cached ability
    holdEffect: HoldEffect,                            // the AI's cached held-item effect
    types: set<PokemonType>,                           // its current types
    moves: MoveArray,                                  // its move array
    speed: nat,                                        // the AI's cached speed stat
    sideSpeedAverage: nat,                             // integer speed average of its side
    alive: bool,
    grounded: bool,
    asleep: bool,                                      // sleep bit of its primary status
    drowsy: bool,                                      // yawn bit of its volatile status
    damagingMoveTypes: set<PokemonType>,               // types of its damaging moves
    moveFlags: set<MoveFlag>,                          // flags some move of it carries
    moveEffects: set<MoveEffect>,                      // effects of its own moves
    sideMoveEffects: set<MoveEffect>,                  // effects of moves known on its side
    sideUsedEffects: set<MoveEffect>,                  // effects its side has used this battle
    sideUsedAdditionalEffects: set<AdditionalEffect>,  // additional effects its side has used
    sideAbilities: set<Ability>                        // abilities present on its side
  )

  /** The whole read-only view of the battle at one AI decision point. */
  datatype BattleContext = BattleContext(
    mons: Battler -> BattlerFacts,
    foe: Battler -> Battler,                           // the opposing battler
    partner: Battler -> Battler,                       // the battler in the other slot of the side
    isDoubleBattle: bool,
    primalWeatherActive: bool,                         // some primal weather is in force
    fieldStatuses: set<FieldFlag>,                     // the field statuses now in force
    weatherDamagingAny: set<WeatherFlag>,              // the weather bits that deal damage
    moveEffect: MoveSlot -> MoveEffect,                // effect of a move
    movePriority: MoveSlot -> int,                     // base priority of a move
    isStatusMove: MoveSlot -> bool,                    // the move is a status move
    battleMovePriority: (Battler, Ability, MoveSlot) -> int  // priority as used now in battle
  )
  {
    predicate IsOfType(b: Battler, t: PokemonType) { t in mons(b).types }

    /** The battler is Rock, Ground or Steel type. */
    predicate IsRockGroundOrSteel(b: Battler)
    {
      IsOfType(b, Rock) || IsOfType(b, Ground) || IsOfType(b, Steel)
    }

    predicate HasDamagingMoveOfType(b: Battler, t: PokemonType) { t in mons(b).damagingMoveTypes }

    predicate HasMoveWithFlag(b: Battler, f: MoveFlag) { f in mons(b).moveFlags }

    predicate HasMoveWithEffect(b: Battler, e: MoveEffect) { e in mons(b).moveEffects }

    predicate HasSideMoveWithEffect(b: Battler, e: MoveEffect) { e in mons(b).sideMoveEffects }

    predicate HasSideUsedMoveWithEffect(b: Battler, e: MoveEffect) { e in mons(b).sideUsedEffects }

    predicate HasSideUsedAdditionalEffect(b: Battler, e: AdditionalEffect)
    {
      e in mons(b).sideUsedAdditionalEffects
    }

    predicate HasSideAbility(b: Battler, a: Ability) { a in mons(b).sideAbilities }

    /** The battle is a double battle and the battler's partner is alive. */
    predicate HasLivingPartner(b: Battler)
    {
      isDoubleBattle && mons(partner(b)).alive
    }
  }
}
