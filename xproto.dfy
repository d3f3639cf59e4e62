/** The part of the X11 core protocol, as seen through XCB, that the window
    manager touches: integer widths, the constants it passes, the events it
    reads, the replies it waits for and the requests it issues. The server
    itself is not modelled: a request is a log entry, a reply is an input. */
module XProto {

  type U8 = x: int | 0 <= x < 0x100
  type U16 = x: int | 0 <= x < 0x1_0000
  type I16 = x: int | -0x8000 <= x < 0x8000
  type U32 = x: int | 0 <= x < 0x1_0000_0000

  /** xcb_window_t; the value 0 is XCB_NONE. */
  type Window = U32
  const NONE: Window := 0

  datatype Option<+T> = None | Some(value: T)

  /** C's conversion of an `int` into a `uint32_t` slot: reduction modulo 2^32. */
  function ToU32(v: int): (r: U32)
    ensures 0 <= v < 0x1_0000_0000 ==> r == v
    ensures -0x1_0000_0000 <= v < 0 ==> r == v + 0x1_0000_0000
  {
    v % 0x1_0000_0000
  }

  // Event codes (response_type with the synthetic bit clear).
  const BUTTON_PRESS: U8 := 4
  const BUTTON_RELEASE: U8 := 5
  const MOTION_NOTIFY: U8 := 6
  const ENTER_NOTIFY: U8 := 7
  const CREATE_NOTIFY: U8 := 16
  const DESTROY_NOTIFY: U8 := 17
  const MAP_NOTIFY: U8 := 19
  const CONFIGURE_NOTIFY: U8 := 22
  /** XCB_NO_OPERATION, also the number of slots in the handler table. */
  const NO_OPERATION: U8 := 127

  // Window-attribute value-mask bits.
  const CW_BORDER_PIXEL: U32 := 8
  const CW_EVENT_MASK: U32 := 2048

  // Event-mask bits.
  const EVENT_MASK_ENTER_WINDOW: U32 := 16
  const EVENT_MASK_SUBSTRUCTURE_NOTIFY: U32 := 0x8_0000

  // Configure-window value-mask bits.
  const CONFIG_WINDOW_X: U32 := 1
  const CONFIG_WINDOW_Y: U32 := 2
  const CONFIG_WINDOW_WIDTH: U32 := 4
  const CONFIG_WINDOW_HEIGHT: U32 := 8
  const CONFIG_WINDOW_BORDER_WIDTH: U32 := 16
  const CONFIG_WINDOW_STACK_MODE: U32 := 64

  const STACK_MODE_ABOVE: U32 := 0
  const INPUT_FOCUS_POINTER_ROOT: U8 := 1

  /** Number of bits set in a value mask. */
  function PopCount(mask: nat): nat
  {
    if mask == 0 then 0 else mask % 2 + PopCount(mask / 2)
  }

  /** How many values each value mask used here takes. */
  lemma MaskSizes()
    ensures PopCount(CW_BORDER_PIXEL) == 1 && PopCount(CW_EVENT_MASK) == 1
    ensures PopCount(CONFIG_WINDOW_BORDER_WIDTH) == 1 && PopCount(CONFIG_WINDOW_STACK_MODE) == 1
    ensures PopCount(CONFIG_WINDOW_X + CONFIG_WINDOW_Y) == 2
    ensures PopCount(CONFIG_WINDOW_WIDTH + CONFIG_WINDOW_HEIGHT) == 2
  {
    assert PopCount(1) == 1;
    assert PopCount(2) == 1;
    assert PopCount(4) == 1;
    assert PopCount(8) == 1;
    assert PopCount(16) == 1;
    assert PopCount(32) == 1;
    assert PopCount(64) == 1;
    assert PopCount(128) == 1;
    assert PopCount(256) == 1;
    assert PopCount(512) == 1;
    assert PopCount(1024) == 1;
    assert PopCount(2048) == 1;
    assert PopCount(3) == 2;
    assert PopCount(6) == 2;
    assert PopCount(12) == 2;
  }

  /** The values XCB actually sends for a value mask: one per set bit, taken
      from the front of the caller's array; the rest of the array is not read. */
  function ValueList(mask: U32, values: seq<U32>): seq<U32>
    requires PopCount(mask) <= |values|
  {
    values[..PopCount(mask)]
  }

  /** The requests the window manager issues, as they reach the server.
      Warp, grab and ungrab are recorded without their remaining arguments. */
  datatype Request =
    | ChangeWindowAttributes(window: Window, valueMask: U32, valueList: seq<U32>)
    | ConfigureWindow(window: Window, valueMask: U32, valueList: seq<U32>)
    | SetInputFocus(revertTo: U8, focus: Window)
    | MapWindow(window: Window)
    | KillClient(resource: U32)
    | GetGeometry(drawable: Window)
    | QueryPointer(window: Window)
    | WarpPointer(dstWindow: Window, dstX: int, dstY: int)
    | GrabPointer(grabWindow: Window)
    | UngrabPointer
    | GrabButton(grabWindow: Window, button: U8)

  /** The fields of an event that the handlers read, once XCB's generic event
      has been cast to the structure its response type names. */
  datatype Event = Event(
    responseType: bv8,
    window: Window,
    overrideRedirect: bool,
    child: Window,
    detail: U8)

  /** Reply to GetGeometry. */
  datatype Geometry = Geometry(x: I16, y: I16, width: U16, height: U16)

  /** Reply to QueryPointer on the root window. */
  datatype PointerReply = PointerReply(rootX: I16, rootY: I16)

  /** The one screen the window manager manages. */
  datatype Screen = Screen(root: Window, widthInPixels: U16, heightInPixels: U16)

  /** The replies a handler receives to its round trips, None where the
      server answered with an error (a null reply in XCB). */
  datatype Replies = Replies(geometry: Option<Geometry>, pointer: Option<PointerReply>)
}

/** The compile-time configuration the window manager is built with. */
module Config {
  import opened XProto

  /** Full border width in pixels. */
  const BORDERWIDTH: U32 := 1
  /** Border pixel of the focused window. */
  const FOCUSCOL: U32 := 0x18191A
  /** Border pixel of every other managed window. */
  const UNFOCUSCOL: U32 := 0x111213
  /** Mouse move/resize support is compiled in. */
  const ENABLE_MOUSE: bool := true
}
