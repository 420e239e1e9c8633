/** Sprite-sheet layout (src/modules/physics/sprite_change/consts.rs).
    The general sheet is one row of three frames; the mob sheet is five
    columns by three rows, one row per side (bottom, side, top), each row an
    idle range followed by a walk range. */
module SpriteConsts {

  const GENERAL_SPRITE_SHEET_COLS: nat := 3
  const GENERAL_SPRITE_SHEET_ROWS: nat := 1
  const GENERAL_TOP: nat := 2
  const GENERAL_SIDE: nat := 1
  const GENERAL_BOTTOM: nat := 0

  const MOB_SPRITE_SHEET_COLS: nat := 5
  const MOB_SPRITE_SHEET_ROWS: nat := 3

  const MOB_BOTTOM_IDLE_START: nat := 0
  const MOB_BOTTOM_IDLE_END: nat := MOB_BOTTOM_IDLE_START + 2

  const MOB_BOTTOM_WALK_START: nat := MOB_BOTTOM_IDLE_END + 1
  const MOB_BOTTOM_WALK_END: nat := MOB_BOTTOM_WALK_START

  const MOB_TOP_IDLE_START: nat := MOB_SPRITE_SHEET_COLS * 2
  const MOB_TOP_IDLE_END: nat := MOB_TOP_IDLE_START + 2

  const MOB_TOP_WALK_START: nat := MOB_TOP_IDLE_END + 1
  const MOB_TOP_WALK_END: nat := MOB_TOP_WALK_START

  const MOB_SIDE_IDLE_START: nat := MOB_SPRITE_SHEET_COLS
  const MOB_SIDE_IDLE_END: nat := MOB_SIDE_IDLE_START + 2

  const MOB_SIDE_WALK_START: nat := MOB_SIDE_IDLE_END + 1
  const MOB_SIDE_WALK_END: nat := MOB_SIDE_WALK_START + 1

  /** Frame i belongs to the row whose animations run from idleStart to walkEnd. */
  predicate InRow(i: nat, idleStart: nat, walkEnd: nat)
  {
    idleStart <= i <= walkEnd
  }

  /** In every row the walk range follows the idle range directly. */
  lemma WalkFollowsIdle()
    ensures MOB_BOTTOM_WALK_START == MOB_BOTTOM_IDLE_END + 1
    ensures MOB_SIDE_WALK_START == MOB_SIDE_IDLE_END + 1
    ensures MOB_TOP_WALK_START == MOB_TOP_IDLE_END + 1
  {
  }

  /** Top and bottom walks are one frame; the side walk is two. */
  lemma WalkRangeWidths()
    ensures MOB_TOP_WALK_START == MOB_TOP_WALK_END
    ensures MOB_BOTTOM_WALK_START == MOB_BOTTOM_WALK_END
    ensures MOB_SIDE_WALK_END == MOB_SIDE_WALK_START + 1
  {
  }

  /** The bottom, side and top idle ranges begin at the starts of rows 0, 1 and 2. */
  lemma IdleStartsAtRowStarts()
    ensures MOB_BOTTOM_IDLE_START == 0 * MOB_SPRITE_SHEET_COLS
    ensures MOB_SIDE_IDLE_START == 1 * MOB_SPRITE_SHEET_COLS
    ensures MOB_TOP_IDLE_START == 2 * MOB_SPRITE_SHEET_COLS
  {
  }

  /** The three rows' frames, and hence their idle and walk ranges, are pairwise disjoint. */
  lemma RowsDisjoint()
    ensures forall i: nat :: InRow(i, MOB_BOTTOM_IDLE_START, MOB_BOTTOM_WALK_END) ==> !InRow(i, MOB_SIDE_IDLE_START, MOB_SIDE_WALK_END)
    ensures forall i: nat :: InRow(i, MOB_BOTTOM_IDLE_START, MOB_BOTTOM_WALK_END) ==> !InRow(i, MOB_TOP_IDLE_START, MOB_TOP_WALK_END)
    ensures forall i: nat :: InRow(i, MOB_SIDE_IDLE_START, MOB_SIDE_WALK_END) ==> !InRow(i, MOB_TOP_IDLE_START, MOB_TOP_WALK_END)
  {
  }

  /** Every frame of a row lies in that row of the mob sheet; the highest is 13, below 15 frames. */
  lemma MobFramesOnSheet()
    ensures forall i: nat :: InRow(i, MOB_BOTTOM_IDLE_START, MOB_BOTTOM_WALK_END) ==> i < MOB_SPRITE_SHEET_COLS
    ensures forall i: nat :: InRow(i, MOB_SIDE_IDLE_START, MOB_SIDE_WALK_END) ==>
      MOB_SPRITE_SHEET_COLS <= i < 2 * MOB_SPRITE_SHEET_COLS
    ensures forall i: nat :: InRow(i, MOB_TOP_IDLE_START, MOB_TOP_WALK_END) ==>
      2 * MOB_SPRITE_SHEET_COLS <= i <= 13 < MOB_SPRITE_SHEET_COLS * MOB_SPRITE_SHEET_ROWS
  {
  }

  /** The general sheet's frames are distinct and on the sheet. */
  lemma GeneralFramesOnSheet()
    ensures GENERAL_TOP != GENERAL_SIDE && GENERAL_SIDE != GENERAL_BOTTOM && GENERAL_TOP != GENERAL_BOTTOM
    ensures GENERAL_TOP < GENERAL_SPRITE_SHEET_COLS * GENERAL_SPRITE_SHEET_ROWS
    ensures GENERAL_SIDE < GENERAL_SPRITE_SHEET_COLS * GENERAL_SPRITE_SHEET_ROWS
    ensures GENERAL_BOTTOM < GENERAL_SPRITE_SHEET_COLS * GENERAL_SPRITE_SHEET_ROWS
  {
  }
}
