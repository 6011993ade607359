/**
 * Moves whose strength depends on sunlight, and the scan of a battler's move
 * array for one (src/battle_ai_field_effects.c:84-111).
 */
module LightSensitive {
  import opened FieldEffectTypes

  /** The move effects that sunlight strengthens and other weather weakens. */
  const LightSensitiveEffects: set<MoveEffect> := {SolarBeam, MorningSun, Synthesis, Moonlight, Growth}

  function IsLightSensitiveMove(ctx: BattleContext, move: MoveSlot): (r: bool)
    ensures r <==> ctx.moveEffect(move) in LightSensitiveEffects
  {
    match ctx.moveEffect(move)
    case SolarBeam | MorningSun | Synthesis | Moonlight | Growth => true
    case _ => false
  }

  /** A slot that holds a real move that is light-sensitive. */
  predicate IsLightSensitiveSlot(ctx: BattleContext, slot: MoveSlot)
  {
    slot != NoMove && slot != UnavailableMove && IsLightSensitiveMove(ctx, slot)
  }

  /** Some slot of the battler's move array is light-sensitive. */
  predicate AnyLightSensitiveMove(ctx: BattleContext, battler: Battler)
  {
    exists i :: 0 <= i < MaxMonMoves && IsLightSensitiveSlot(ctx, ctx.mons(battler).moves[i])
  }

  /** Scans the move array slot by slot and stops at the first light-sensitive move. */
  method HasLightSensitiveMove(ctx: BattleContext, battler: Battler) returns (found: bool)
    ensures found <==> AnyLightSensitiveMove(ctx, battler)
  {
    var moves := ctx.mons(battler).moves;
    var i := 0;
    while i < MaxMonMoves
      invariant 0 <= i <= MaxMonMoves
      invariant forall k :: 0 <= k < i ==> !IsLightSensitiveSlot(ctx, moves[k])
    {
      if moves[i] != NoMove && moves[i] != UnavailableMove && IsLightSensitiveMove(ctx, moves[i]) {
        return true;
      }
      i := i + 1;
    }
    return false;
  }
}
