/** The arithmetic of a mouse drag: where a moved window's top-left corner
    goes, computed in C `int` arithmetic before it is stored into the
    `uint32_t` values array. */
module DragGeometry {

  /** One coordinate of the new top-left corner of a window being moved:
      `pointer` is the pointer's root coordinate, `size` the window's extent
      on that axis, `screen` the screen's extent and `border` the border width.
      The window is centred under the pointer, pushed back from the far edge
      when its centre-plus-half passes it, and pinned to 0 when the pointer is
      within half a window of the near edge (that test wins). */
  function MoveCoord(pointer: int, size: nat, screen: int, border: int): (r: int)
    // pinned to the near edge
    ensures pointer < size / 2 ==> r == 0
    // pinned to the far edge
    ensures size / 2 <= pointer && pointer + size / 2 > screen - 2 * border ==> r + size + 2 * border == screen
    // otherwise centred under the pointer
    ensures size / 2 <= pointer && pointer + size / 2 <= screen - 2 * border ==> r + size / 2 == pointer
    // a window that fits stays on screen, up to one pixel for an odd size
    ensures size + 2 * border <= screen ==> 0 <= r && r + size + 2 * border <= screen + size % 2
  {
    var clamped :=
      if pointer + size / 2 > screen - border * 2 then screen - size - border * 2
      else pointer - size / 2;
    if pointer < size / 2 then 0 else clamped
  }

  /** The move computation as the handler performs it on one axis: the
      centred-or-far-edge choice first, then the near-edge override. */
  method PlaceCoord(pointer: int, size: nat, screen: int, border: int) returns (c: int)
    ensures c == MoveCoord(pointer, size, screen, border)
  {
    c := if pointer + size / 2 > screen - border * 2 then screen - size - border * 2
         else pointer - size / 2;
    if pointer < size / 2 {
      c := 0;
    }
  }

  /** For an even size the window never passes the far edge. */
  lemma MoveCoordEvenSizeStaysOnScreen(pointer: int, size: nat, screen: int, border: int)
    requires size % 2 == 0 && size + 2 * border <= screen
    ensures 0 <= MoveCoord(pointer, size, screen, border) <= screen - size - 2 * border
  {
  }

  /** For an odd size the far edge can be passed by one pixel: an 11-pixel
      window on a 100-pixel screen with a 1-pixel border, pointer at 93, is
      placed at 88, so its outer edge ends at 101. */
  lemma MoveCoordOddSizeOverhangs()
    ensures MoveCoord(93, 11, 100, 1) == 88
    ensures MoveCoord(93, 11, 100, 1) + 11 + 2 * 1 == 101
  {
  }

  /** A window wider than the screen can be moved to a negative position. */
  lemma MoveCoordOversizeGoesNegative()
    ensures MoveCoord(60, 110, 100, 1) == -12
  {
  }

  /** The worked drag on a 1920x1080 screen with a 2-pixel border and an
      800x600 window: pointer at (10, 10) gives (0, 0), pointer at
      (1915, 1075) gives (1116, 476). */
  lemma MoveCoordScreenExample()
    ensures MoveCoord(10, 800, 1920, 2) == 0 && MoveCoord(10, 600, 1080, 2) == 0
    ensures MoveCoord(1915, 800, 1920, 2) == 1116 && MoveCoord(1075, 600, 1080, 2) == 476
  {
  }
}
