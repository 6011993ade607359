# AI field-effect classifier

This project models the battle AI's field-effect classifier in
`src/battle_ai_field_effects.c`. The AI asks it whether a weather or a field
status is good, neutral or bad for a battler's side. The classifier answers
with one of four verdicts: Positive, Neutral, Negative, or Blocked (Blocked
means a primal weather overrides everything). It then reports whether that
verdict is the one the caller asked about.

The model follows the source's three layers:

- `AbilityTables` (`ability_tables.dfy`): the static tables of abilities that
  profit from a weather or from a field status.
- `LightSensitive` (`light_sensitive.dfy`): the light-sensitive move effects
  and the slot-by-slot scan of a battler's move array.
- `WeatherEvaluators` and `FieldEvaluators` (`weather_evaluators.dfy`,
  `field_evaluators.dfy`): one verdict per battler for sun, sandstorm, hail or
  snow, rain, the four terrains and Trick Room.
- `FieldEffectCheckers` (`checkers.dfy`): the two entry points,
  `WeatherChecker` and `FieldStatusChecker`. Each loops over one or two
  battlers of the side and combines their verdicts.

`FieldEffectTypes` (`field_effect_types.dfy`) holds the data. The AI's cached
battle data, the battlers' status words and the active field statuses are
global state in the source, and the classifier only reads them. In the model
they become one immutable `BattleContext` value. Each query helper the source
calls is a per-battler fact or a function-typed field of that context, for
example "has a damaging move of type T", "its side has used an effect" or
"the priority of a move". The context fields `foe` and `partner` are arbitrary
functions, and nothing is assumed about them. Weather and field-status
bitmasks are sets of flags, and `mask & bits` becomes `Overlaps(mask, bits)`.
Bits the classifier never tests (fog, strong winds and the like) are the
flags `OtherWeather(id)` and `OtherFieldStatus(id)`.

The evaluators are pure functions, as in the source. Two of them are loops in
the source: the light-sensitive move scan and the Trick Room priority scan.
Each of these is a method proved equal to a loop-free predicate or function
(`AnyLightSensitiveMove`, `TrickRoomVerdict`). The evaluators use those
predicates. Each checker is a method whose loop reassigns the current battler,
`result` and `firstResult` as the source does. It is proved against a
loop-free side verdict: `WeatherSideVerdict` or `FieldStatusSideVerdict`. A
side verdict is either one verdict or `Split`, two disagreeing verdicts that
match nothing.

Where the code does something a reader may not expect, the model follows the
code:

- No evaluator computes the partner's verdict. The evaluators read facts
  about the battler and its foe, and a few read one more fact: the Misty and
  Psychic Terrain evaluators read whether a living partner is grounded
  (`src/battle_ai_field_effects.c:250-251`, `:282-283`), the Misty Terrain
  evaluator reads the foe partner's Dragon moves (`:258`), and the Trick Room
  evaluator reads the foe partner's speed (`:335`). The verdicts of the two
  battlers of a side are combined only in the checker loops. With a living partner in
  doubles, the partner's verdict is the last one computed, and it is the one
  compared. For damaging weather and for Trick Room, a non-Neutral first
  verdict must also equal the partner's.
- In doubles, while Psychic Terrain is inactive, a move that bypasses the
  speed order makes the Trick Room evaluator return Positive
  (`src/battle_ai_field_effects.c:320-332`).
- A foe's move that always hits in the weather makes Hail/Snow and Rain
  Negative for the battler (`src/battle_ai_field_effects.c:165-166`,
  `:185-186`).
- Mimicry profits from every terrain, Misty and Psychic included, although
  the comment at `src/battle_ai_field_effects.c:75-77` says that no ability
  profits from those two.
- Under any primal weather, `WeatherChecker` answers
  `desiredResult == Blocked`.
- `WeatherChecker` tests its bits with `else if` (rain, then sun, then
  sandstorm, then hail or snow). `FieldStatusChecker` tests each bit with its
  own `if`, so the last matching bit wins and Trick Room overrides any
  terrain.
- The comment above the sandstorm evaluator (`src/battle_ai_field_effects.c:128`)
  asks for a foe that takes sand damage. The code at line 138 gives Positive to
  a shielded battler whose foe holds Safety Goggles or has a sand ability, and
  neither kind of foe takes sand damage. The model keeps the code's test, and
  the lemma `WeatherEvaluators.SandstormPositiveAgainstGoggledFoe` shows it.

## Model

| member | source | states |
|---|---|---|
| AbilityTables.DoesAbilityBenefitFromWeather | src/battle_ai_field_effects.c:27-61 | true only for abilities listed in the weather table; Forecast profits iff the mask holds rain, sun, hail or snow; Magic Guard and Overcoat iff the mask overlaps the damaging mask; the sand abilities iff it holds sandstorm; Ice Body, Ice Face and Snow Cloak iff hail or snow; Slush Rush iff snow; the rain abilities iff rain; the sun abilities iff sun |
| AbilityTables.DoesAbilityBenefitFromFieldStatus | src/battle_ai_field_effects.c:63-82 | true only for abilities listed in the field table and only for a terrain bit; Mimicry profits iff the mask holds any terrain; Hadron Engine, Quark Drive and Surge Surfer iff it holds Electric Terrain; Grass Pelt iff it holds Grassy Terrain; for a mask with neither Electric nor Grassy Terrain only Mimicry profits |
| AbilityTables.ForecastWeathers | src/battle_ai_field_effects.c:31-32 | Forecast profits from rain, sun, hail and snow, and not from sandstorm |
| AbilityTables.MistyAndPsychicOnlyMimicry | src/battle_ai_field_effects.c:63-82 | for Misty or for Psychic Terrain, an ability profits if and only if it is Mimicry |
| LightSensitive.IsLightSensitiveMove | src/battle_ai_field_effects.c:84-97 | a move is light-sensitive exactly when its effect is Solar Beam, Morning Sun, Synthesis, Moonlight or Growth |
| LightSensitive.HasLightSensitiveMove | src/battle_ai_field_effects.c:99-111 | true iff some one of the MAX_MON_MOVES slots holds a move that is neither empty nor unavailable and is light-sensitive |
| WeatherEvaluators.BenefitsFromSun | src/battle_ai_field_effects.c:113-126 | Neutral whenever Utility Umbrella is held; otherwise Positive iff a sun ability, a light-sensitive move or a damaging Fire move, and Negative iff none of those but a move at 50% accuracy in sun, a damaging Water move or Dry Skin; never Blocked |
| WeatherEvaluators.BenefitsFromSandstorm | src/battle_ai_field_effects.c:128-147 | Positive for a sand ability, Rock type or Shore Up on the side; a Rock/Ground/Steel or goggled battler gets Neutral exactly when its foe is Rock/Ground/Steel without goggles or sand ability, Positive otherwise; everyone else Negative |
| WeatherEvaluators.SandstormPositiveAgainstGoggledFoe | src/battle_ai_field_effects.c:128-144 | a Steel battler facing a foe with Safety Goggles gets Positive, although that foe takes no sand damage |
| WeatherEvaluators.BenefitsFromHailOrSnow | src/battle_ai_field_effects.c:149-169 | Positive iff an ability profiting from the mask, Ice type, a move that always hits in hail or snow, or Aurora Veil on the side; otherwise Negative iff damaging weather without goggles, a light-sensitive move, or a foe with an always-hit move; never Blocked |
| WeatherEvaluators.BenefitsFromRain | src/battle_ai_field_effects.c:171-189 | Neutral whenever Utility Umbrella is held; otherwise Positive iff a rain ability, an always-hit-in-rain move or a damaging Water move, and Negative iff none of those but a light-sensitive move, a damaging Fire move, or a foe with an always-hit-in-rain move; never Blocked |
| FieldEvaluators.BenefitsFromElectricTerrain | src/battle_ai_field_effects.c:191-213 | Positive iff one of its reasons holds (ability, Rising Voltage, grounded foe with Rest, grounded and foe side used sleep, grounded and asleep, drowsy or with a damaging Electric move); never Negative or Blocked |
| FieldEvaluators.BenefitsFromGrassyTerrain | src/battle_ai_field_effects.c:215-237 | Positive iff one of its reasons holds (ability, Grassy Glide on the side, floral healing used by the side, grounded against Earthquake or Magnitude used by the foe side, grounded with a damaging Grass move); never Negative or Blocked |
| FieldEvaluators.BenefitsFromMistyTerrain | src/battle_ai_field_effects.c:239-269 | Positive iff one of its reasons holds (Mimicry, Misty Explosion on the side, grounded foe with Rest, self or living ally grounded against a foe-side Dragon move or foe-side sleep, grounded and asleep or drowsy); never Negative or Blocked |
| FieldEvaluators.BenefitsFromPsychicTerrain | src/battle_ai_field_effects.c:271-304 | Positive iff one of its reasons holds; otherwise Negative iff the battler's own side has Gale Wings, Triage or Prankster; never Blocked |
| FieldEvaluators.TrickRoomVerdict | src/battle_ai_field_effects.c:306-339 | singles: Positive, Neutral or Negative as the side speed average is below, equal to or above the foe's; doubles: never Neutral, Positive when a move bypasses speed order and Psychic Terrain is inactive, otherwise Negative iff the battler's speed is at least the foe's or the foe partner's |
| FieldEvaluators.BenefitsFromTrickRoom | src/battle_ai_field_effects.c:306-339 | the priority scan over the move array computes exactly TrickRoomVerdict |
| FieldEffectCheckers.WeatherVerdict | src/battle_ai_field_effects.c:357-364 | the weather dispatch never yields Blocked, and a mask with no rain, sun, sandstorm or icy bit (only untested bits, or none) yields Neutral |
| FieldEffectCheckers.FieldStatusVerdict | src/battle_ai_field_effects.c:393-404 | the field-status dispatch never yields Blocked, and a mask with no terrain or Trick Room bit (only untested bits, or none) yields Neutral |
| FieldEffectCheckers.WeatherChecker | src/battle_ai_field_effects.c:341-377 | the loop's answer is exactly whether the side verdict (Blocked under primal weather, otherwise the combined verdicts of battler and living partner) is the desired one |
| FieldEffectCheckers.FieldStatusChecker | src/battle_ai_field_effects.c:379-418 | the loop's answer is exactly whether the combined side verdict is the desired one, and it is never true for Blocked |
| FieldEffectCheckers.PrimalWeatherOnlyMatchesBlocked | src/battle_ai_field_effects.c:343-344 | under any primal weather, every weather argument matches Blocked and nothing else |
| FieldEffectCheckers.WeatherBlockedOnlyUnderPrimal | src/battle_ai_field_effects.c:346-376 | without primal weather, the weather checker never matches Blocked |
| FieldEffectCheckers.FieldStatusNeverBlocked | src/battle_ai_field_effects.c:379-418 | the field-status checker never matches Blocked |
| FieldEffectCheckers.LoneBattlerComparesOwnVerdict | src/battle_ai_field_effects.c:350-353 | in singles or with a fainted partner, both checkers compare the battler's own verdict |
| FieldEffectCheckers.DoublesCompareLastVerdict | src/battle_ai_field_effects.c:355-376 | with a living partner, whatever a checker matches is the partner's verdict, the last computed |
| FieldEffectCheckers.DoublesFollowPartner | src/battle_ai_field_effects.c:390-417 | with a living partner and neither damaging weather nor Trick Room, the partner's verdict alone decides |
| FieldEffectCheckers.DisagreementMatchesNothing | src/battle_ai_field_effects.c:368-375 | for damaging weather or Trick Room, a non-Neutral first verdict that the partner does not share matches no desired result |
| FieldEffectCheckers.TrickRoomOverridesTerrain | src/battle_ai_field_effects.c:393-404 | with the Trick Room bit set, the field verdict is the Trick Room verdict whatever terrain bits are also set |
| FieldEffectCheckers.RainOverridesOtherWeather | src/battle_ai_field_effects.c:357-358 | with the rain bit set, the weather verdict is the rain verdict whatever other bits are set |
| FieldEffectCheckers.UnrecognisedMaskIsNeutral | src/battle_ai_field_effects.c:346-347 | a mask holding no bit other than those the classifier never tests (the empty mask included) leaves both verdicts at their initial Neutral |
| FieldEffectCheckers.UmbrellaNeutralisesSunAndRain | src/battle_ai_field_effects.c:116-117 | a lone battler holding Utility Umbrella matches only Neutral for sun and for rain, whatever its ability, moves or foe |
| FieldEffectCheckers.SunAbilityScenario | src/battle_ai_field_effects.c:119-120 | a lone battler with Chlorophyll and no umbrella is Positive on sun, and its ability alone does not make rain Positive |
| FieldEffectCheckers.PartnerRisingVoltageScenario | src/battle_ai_field_effects.c:197-198 | in doubles, a living partner with Rising Voltage makes Electric Terrain Positive for the side, whatever the battler has |

## Left out

- The query helpers live in files outside this model. These are
  `GetMoveEffect`, `HasDamagingMoveOfType`, `HasMoveWithFlag`,
  `HasMoveWithEffect`, the `HasBattlerSideUsedMove*` family,
  `HasBattlerSideMoveWithEffect`, `HasBattlerSideAbility`,
  `IsBattlerGrounded`, `GetBattleMovePriority`, `GetMovePriority`,
  `IsBattleMoveStatus`, `GetBattlerSideSpeedAverage`, `IsWeatherActive`,
  `IsDoubleBattle`, `IsBattlerAlive`, `GetMovesArray`, and the foe, partner
  and type macros. Each one is a context field with no further constraint.
  In particular, the "has a move" facts are not derived from the move array.
- The global battle state becomes a read-only parameter. The classifier never
  writes it, so nothing about in-place update is lost.
- The numeric values of the weather and field-status bits, `MOVE_NONE` and
  `MOVE_UNAVAILABLE` are defined in headers that are not part of this model.
  Bits are abstract flags grouped as the code groups them. The members of the
  damaging-weather mask are a context parameter. The two move sentinels are
  distinct slot constructors. `MAX_MON_MOVES` is taken to be 4.
- Integer widths are not modelled. Speeds and speed averages are naturals, and
  priorities are integers. The classifier only compares them and does no
  arithmetic that could wrap.
- Outside the classifier: the action-selection search that calls the
  checkers, random numbers, and the headers included at
  `src/battle_ai_field_effects.c:1-25`.
