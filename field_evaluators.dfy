/**
 * One battler's verdict on the four terrains and on Trick Room
 * (src/battle_ai_field_effects.c:191-339).  No terrain evaluator ever
 * answers Negative except Psychic Terrain, and none answers Blocked.
 */
module FieldEvaluators {
  import opened FieldEffectTypes
  import opened AbilityTables

  predicate AbilityLikesField(ctx: BattleContext, b: Battler, fieldStatus: set<FieldFlag>)
  {
    DoesAbilityBenefitFromFieldStatus(ctx.mons(b).ability, fieldStatus)
  }

  /** The battler is asleep or about to fall asleep. */
  predicate SleepingOrDrowsy(ctx: BattleContext, b: Battler)
  {
    ctx.mons(b).asleep || ctx.mons(b).drowsy
  }

  /** The foe knows Rest and is grounded, so the terrain spoils its sleep. */
  predicate FoeRestsGrounded(ctx: BattleContext, b: Battler)
  {
    ctx.HasMoveWithEffect(ctx.foe(b), Rest) && ctx.mons(ctx.foe(b)).grounded
  }

  /** In a double battle, the battler's living partner is grounded. */
  predicate AllyGrounded(ctx: BattleContext, b: Battler)
  {
    ctx.HasLivingPartner(b) && ctx.mons(ctx.partner(b)).grounded
  }

  // ---------------------------------------------------------------- Electric Terrain

  /** Every reason Electric Terrain is good for the battler. */
  predicate ElectricTerrainHelps(ctx: BattleContext, b: Battler)
  {
    var grounded := ctx.mons(b).grounded;
    AbilityLikesField(ctx, b, FieldElectricTerrain)
    || ctx.HasMoveWithEffect(b, RisingVoltage)
    || FoeRestsGrounded(ctx, b)
    || (grounded && ctx.HasSideUsedAdditionalEffect(ctx.foe(b), SleepEffect))
    || (grounded && (SleepingOrDrowsy(ctx, b) || ctx.HasDamagingMoveOfType(b, Electric)))
  }

  /** Positive exactly when some reason holds, Neutral otherwise: never Negative. */
  function BenefitsFromElectricTerrain(ctx: BattleContext, battler: Battler): (v: Verdict)
    ensures v == Positive <==> ElectricTerrainHelps(ctx, battler)
    ensures v == Positive || v == Neutral
  {
    var mon := ctx.mons(battler);
    var foe := ctx.foe(battler);
    if DoesAbilityBenefitFromFieldStatus(mon.ability, FieldElectricTerrain) then Positive
    else if ctx.HasMoveWithEffect(battler, RisingVoltage) then Positive
    else if ctx.HasMoveWithEffect(foe, Rest) && ctx.mons(foe).grounded then Positive
    else
      var grounded := mon.grounded;
      if grounded && ctx.HasSideUsedAdditionalEffect(foe, SleepEffect) then Positive
      else if grounded && (mon.asleep || mon.drowsy || ctx.HasDamagingMoveOfType(battler, Electric)) then Positive
      else Neutral
  }

  // ---------------------------------------------------------------- Grassy Terrain

  /** Every reason Grassy Terrain is good for the battler. */
  predicate GrassyTerrainHelps(ctx: BattleContext, b: Battler)
  {
    var grounded := ctx.mons(b).grounded;
    AbilityLikesField(ctx, b, FieldGrassyTerrain)
    || ctx.HasSideMoveWithEffect(b, GrassyGlide)
    || ctx.HasSideUsedAdditionalEffect(b, FloralHealing)
    || (grounded && (ctx.HasSideUsedMoveWithEffect(ctx.foe(b), Earthquake)
                     || ctx.HasSideUsedMoveWithEffect(ctx.foe(b), Magnitude)))
    || (grounded && ctx.HasDamagingMoveOfType(b, Grass))
  }

  /** Positive exactly when some reason holds, Neutral otherwise: never Negative. */
  function BenefitsFromGrassyTerrain(ctx: BattleContext, battler: Battler): (v: Verdict)
    ensures v == Positive <==> GrassyTerrainHelps(ctx, battler)
    ensures v == Positive || v == Neutral
  {
    var mon := ctx.mons(battler);
    if DoesAbilityBenefitFromFieldStatus(mon.ability, FieldGrassyTerrain) then Positive
    else if ctx.HasSideMoveWithEffect(battler, GrassyGlide) then Positive
    else if ctx.HasSideUsedAdditionalEffect(battler, FloralHealing) then Positive
    else
      var grounded := mon.grounded;
      if grounded && (ctx.HasSideUsedMoveWithEffect(ctx.foe(battler), Earthquake)
                      || ctx.HasSideUsedMoveWithEffect(ctx.foe(battler), Magnitude)) then Positive
      else if grounded && ctx.HasDamagingMoveOfType(battler, Grass) then Positive
      else Neutral
  }

  // ---------------------------------------------------------------- Misty Terrain

  /** Every reason Misty Terrain is good for the battler. */
  predicate MistyTerrainHelps(ctx: BattleContext, b: Battler)
  {
    var grounded := ctx.mons(b).grounded;
    var foe := ctx.foe(b);
    AbilityLikesField(ctx, b, FieldMistyTerrain)
    || ctx.HasSideMoveWithEffect(b, MistyExplosion)
    || FoeRestsGrounded(ctx, b)
    || ((grounded || AllyGrounded(ctx, b))
        && (ctx.HasDamagingMoveOfType(foe, Dragon) || ctx.HasDamagingMoveOfType(ctx.partner(foe), Dragon)))
    || ((grounded || AllyGrounded(ctx, b)) && ctx.HasSideUsedAdditionalEffect(foe, SleepEffect))
    || (grounded && SleepingOrDrowsy(ctx, b))
  }

  /** Positive exactly when some reason holds, Neutral otherwise: never Negative. */
  function BenefitsFromMistyTerrain(ctx: BattleContext, battler: Battler): (v: Verdict)
    ensures v == Positive <==> MistyTerrainHelps(ctx, battler)
    ensures v == Positive || v == Neutral
  {
    var mon := ctx.mons(battler);
    var foe := ctx.foe(battler);
    if DoesAbilityBenefitFromFieldStatus(mon.ability, FieldMistyTerrain) then Positive
    else if ctx.HasSideMoveWithEffect(battler, MistyExplosion) then Positive
    else
      var grounded := mon.grounded;
      var allyGrounded := if ctx.isDoubleBattle && ctx.mons(ctx.partner(battler)).alive
                          then ctx.mons(ctx.partner(battler)).grounded else false;
      if ctx.HasMoveWithEffect(foe, Rest) && ctx.mons(foe).grounded then Positive
      else if (grounded || allyGrounded)
              && (ctx.HasDamagingMoveOfType(foe, Dragon) || ctx.HasDamagingMoveOfType(ctx.partner(foe), Dragon))
      then Positive
      else if (grounded || allyGrounded) && ctx.HasSideUsedAdditionalEffect(foe, SleepEffect) then Positive
      else if grounded && (mon.asleep || mon.drowsy) then Positive
      else Neutral
  }

  // ---------------------------------------------------------------- Psychic Terrain

  /** The side of `b` has an ability that grants priority. */
  predicate SideHasPriorityAbility(ctx: BattleContext, b: Battler)
  {
    ctx.HasSideAbility(b, GaleWings) || ctx.HasSideAbility(b, Triage) || ctx.HasSideAbility(b, Prankster)
  }

  /** Every reason Psychic Terrain is good for the battler. */
  predicate PsychicTerrainHelps(ctx: BattleContext, b: Battler)
  {
    var grounded := ctx.mons(b).grounded;
    AbilityLikesField(ctx, b, FieldPsychicTerrain)
    || ctx.HasSideMoveWithEffect(b, ExpandingForce)
    || ((grounded || AllyGrounded(ctx, b)) && SideHasPriorityAbility(ctx, ctx.foe(b)))
    || (grounded && ctx.HasDamagingMoveOfType(b, Psychic))
  }

  /**
   * Positive when some reason holds; otherwise Negative exactly when the
   * battler's own side has a priority ability, which the terrain would stop.
   */
  function BenefitsFromPsychicTerrain(ctx: BattleContext, battler: Battler): (v: Verdict)
    ensures v == Positive <==> PsychicTerrainHelps(ctx, battler)
    ensures v == Negative <==> !PsychicTerrainHelps(ctx, battler) && SideHasPriorityAbility(ctx, battler)
    ensures v != Blocked
  {
    var mon := ctx.mons(battler);
    if DoesAbilityBenefitFromFieldStatus(mon.ability, FieldPsychicTerrain) then Positive
    else if ctx.HasSideMoveWithEffect(battler, ExpandingForce) then Positive
    else
      var grounded := mon.grounded;
      var allyGrounded := if ctx.isDoubleBattle && ctx.mons(ctx.partner(battler)).alive
                          then ctx.mons(ctx.partner(battler)).grounded else false;
      var foe := ctx.foe(battler);
      if (grounded || allyGrounded)
         && (ctx.HasSideAbility(foe, GaleWings) || ctx.HasSideAbility(foe, Triage)
             || ctx.HasSideAbility(foe, Prankster)) then Positive
      else if grounded && ctx.HasDamagingMoveOfType(battler, Psychic) then Positive
      else if ctx.HasSideAbility(battler, GaleWings) || ctx.HasSideAbility(battler, Triage)
              || ctx.HasSideAbility(battler, Prankster) then Negative
      else Neutral
  }

  // ---------------------------------------------------------------- Trick Room

  /**
   * The move in this slot would act with positive priority now, and is not a
   * status move whose own priority is positive.
   */
  predicate BypassesSpeedOrder(ctx: BattleContext, b: Battler, move: MoveSlot)
  {
    ctx.battleMovePriority(b, ctx.mons(b).ability, move) > 0
    && !(ctx.movePriority(move) > 0 && ctx.isStatusMove(move))
  }

  /** Some slot of the battler's move array bypasses speed order. */
  predicate HasPriorityBypass(ctx: BattleContext, b: Battler)
  {
    exists i :: 0 <= i < MaxMonMoves && BypassesSpeedOrder(ctx, b, ctx.mons(b).moves[i])
  }

  /** The battler is at least as fast as its foe or as its foe's partner. */
  predicate OutspeedsAFoe(ctx: BattleContext, b: Battler)
  {
    var foe := ctx.foe(b);
    ctx.mons(b).speed >= ctx.mons(foe).speed || ctx.mons(b).speed >= ctx.mons(ctx.partner(foe)).speed
  }

  /**
   * In singles, a three-way comparison of the side speed averages (slower
   * wants Trick Room).  In doubles, never Neutral: a priority move that
   * bypasses speed order (unless Psychic Terrain is up) gives Positive;
   * otherwise matching or beating either foe's speed gives Negative.
   */
  function TrickRoomVerdict(ctx: BattleContext, battler: Battler): (v: Verdict)
    ensures !ctx.isDoubleBattle ==>
      var mine := ctx.mons(battler).sideSpeedAverage;
      var theirs := ctx.mons(ctx.foe(battler)).sideSpeedAverage;
      && (v == Positive <==> mine < theirs)
      && (v == Neutral <==> mine == theirs)
      && (v == Negative <==> mine > theirs)
    ensures ctx.isDoubleBattle ==> v == Positive || v == Negative
    ensures (ctx.isDoubleBattle && !Overlaps(ctx.fieldStatuses, FieldPsychicTerrain)
             && HasPriorityBypass(ctx, battler)) ==> v == Positive
    ensures ctx.isDoubleBattle ==>
      (v == Negative <==> (Overlaps(ctx.fieldStatuses, FieldPsychicTerrain) || !HasPriorityBypass(ctx, battler))
                          && OutspeedsAFoe(ctx, battler))
  {
    if !ctx.isDoubleBattle then
      var mine := ctx.mons(battler).sideSpeedAverage;
      var theirs := ctx.mons(ctx.foe(battler)).sideSpeedAverage;
      if mine < theirs then Positive
      else if mine == theirs then Neutral
      else Negative
    else if !Overlaps(ctx.fieldStatuses, FieldPsychicTerrain) && HasPriorityBypass(ctx, battler) then Positive
    else if OutspeedsAFoe(ctx, battler) then Negative
    else Positive
  }

  /** Trick Room evaluated the way the source does it: a scan of the move array for priority. */
  method BenefitsFromTrickRoom(ctx: BattleContext, battler: Battler) returns (v: Verdict)
    ensures v == TrickRoomVerdict(ctx, battler)
  {
    if !ctx.isDoubleBattle {
      var mine := ctx.mons(battler).sideSpeedAverage;
      var theirs := ctx.mons(ctx.foe(battler)).sideSpeedAverage;
      if mine < theirs {
        return Positive;
      } else if mine == theirs {
        return Neutral;
      } else {
        return Negative;
      }
    }

    if !Overlaps(ctx.fieldStatuses, FieldPsychicTerrain) {
      var moves := ctx.mons(battler).moves;
      var ability := ctx.mons(battler).ability;
      for i := 0 to MaxMonMoves
        invariant forall k :: 0 <= k < i ==> !BypassesSpeedOrder(ctx, battler, moves[k])
      {
        var move := moves[i];
        if ctx.battleMovePriority(battler, ability, move) > 0
           && !(ctx.movePriority(move) > 0 && ctx.isStatusMove(move)) {
          return Positive;
        }
      }
    }

    var foe := ctx.foe(battler);
    var speed := ctx.mons(battler).speed;
    if speed >= ctx.mons(foe).speed || speed >= ctx.mons(ctx.partner(foe)).speed {
      return Negative;
    }
    return Positive;
  }
}
