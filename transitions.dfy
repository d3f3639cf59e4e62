/** The window manager's state and what each event does to it, as functions
    from the state before to the state after. The state is the three globals
    the handlers write: the focused window, the `uint32_t values[3]` array
    (whose element 2 doubles as the drag mode) and the requests sent to the
    server so far. */
module Transitions {
  import opened XProto
  import opened Config
  import opened EventTable
  import opened DragGeometry

  datatype Mode = Inactive | Active

  /** values[2] while no drag has started, while moving and while resizing. */
  const DRAG_IDLE: U32 := 0
  const DRAG_MOVE: U32 := 1
  const DRAG_RESIZE: U32 := 3

  datatype WmState = WmState(focuswin: Window, values: seq<U32>, log: seq<Request>)
  {
    predicate Valid() {
      |values| == 3
    }

    function DragMode(): U32
      requires Valid()
    {
      values[2]
    }
  }

  /** What a handler receives from its caller: the event (None when waiting
      for it failed) and the server's replies to the handler's queries. */
  datatype Input = Input(event: Option<Event>, replies: Replies)

  function BorderPixel(w: Window, pixel: U32): Request
  {
    MaskSizes();
    ChangeWindowAttributes(w, CW_BORDER_PIXEL, ValueList(CW_BORDER_PIXEL, [pixel]))
  }

  /** Whether a request sets the border pixel of `w`. */
  predicate SetsBorder(req: Request, w: Window)
  {
    req.ChangeWindowAttributes? && req.window == w && req.valueMask == CW_BORDER_PIXEL
    && |req.valueList| == 1
  }

  /** The border pixel `w` shows after the requests of `log`: the one the last
      border request for `w` set, None if there was none. */
  function BorderOf(log: seq<Request>, w: Window): Option<U32>
  {
    if log == [] then None
    else if SetsBorder(log[|log| - 1], w) then Some(log[|log| - 1].valueList[0])
    else BorderOf(log[..|log| - 1], w)
  }

  /** BorderOf is the value of the last border request for `w`, and None
      exactly when the log holds no border request for `w`. */
  lemma {:induction false} BorderOfIsLastBorderRequest(log: seq<Request>, w: Window)
    ensures BorderOf(log, w).None? <==> forall i :: 0 <= i < |log| ==> !SetsBorder(log[i], w)
    ensures BorderOf(log, w).Some? ==> exists i :: (0 <= i < |log| && SetsBorder(log[i], w)
      && log[i].valueList[0] == BorderOf(log, w).value
      && forall j :: i < j < |log| ==> !SetsBorder(log[j], w))
  {
    if log != [] && !SetsBorder(log[|log| - 1], w) {
      var prefix := log[..|log| - 1];
      BorderOfIsLastBorderRequest(prefix, w);
      assert forall i :: 0 <= i < |prefix| ==> prefix[i] == log[i];
    }
  }

  /** Appending one request changes the border of `w` only if it sets it. */
  lemma BorderOfAppend(log: seq<Request>, req: Request, w: Window)
    ensures BorderOf(log + [req], w)
      == if SetsBorder(req, w) then Some(req.valueList[0]) else BorderOf(log, w)
  {
    assert (log + [req])[..|log|] == log;
  }

  /** focus(): colour the border, and in ACTIVE mode also route input focus
      to `w` and, if `w` is new, unfocus the previous window. */
  function Focus(s: WmState, w: Window, mode: Mode): (r: WmState)
    ensures r.values == s.values
    ensures r.focuswin == if mode == Active then w else s.focuswin
    ensures |s.log| < |r.log| && r.log[..|s.log|] == s.log
    decreases mode == Active
  {
    var pixel := if mode == Active then FOCUSCOL else UNFOCUSCOL;
    var s1 := s.(log := s.log + [BorderPixel(w, pixel)]);
    if mode == Inactive then s1
    else
      var s2 := s1.(log := s1.log + [SetInputFocus(INPUT_FOCUS_POINTER_ROOT, w)]);
      if w != s.focuswin then Focus(s2, s.focuswin, Inactive).(focuswin := w) else s2
  }

  /** Focusing a new window: border FOCUS and input focus for it, then exactly
      one border request for the previous window, set to UNFOCUS. */
  lemma FocusChange(s: WmState, w: Window)
    requires w != s.focuswin
    ensures Focus(s, w, Active) == s.(focuswin := w, log := s.log +
      [BorderPixel(w, FOCUSCOL), SetInputFocus(INPUT_FOCUS_POINTER_ROOT, w), BorderPixel(s.focuswin, UNFOCUSCOL)])
  {
  }

  /** Focusing the focused window again repeats its two requests and touches
      no other window. */
  lemma FocusIdempotent(s: WmState, w: Window)
    requires w == s.focuswin
    ensures Focus(s, w, Active) == s.(log := s.log +
      [BorderPixel(w, FOCUSCOL), SetInputFocus(INPUT_FOCUS_POINTER_ROOT, w)])
  {
  }

  /** Unfocusing only recolours `w`. */
  lemma FocusInactive(s: WmState, w: Window)
    ensures Focus(s, w, Inactive) == s.(log := s.log + [BorderPixel(w, UNFOCUSCOL)])
  {
  }

  /** The colours after focusing: `w` shows FOCUS, the previously focused
      window (if different) shows UNFOCUS, every other window keeps its colour. */
  lemma {:induction false} FocusColours(s: WmState, w: Window, v: Window)
    ensures BorderOf(Focus(s, w, Active).log, w) == Some(FOCUSCOL)
    ensures w != s.focuswin ==> BorderOf(Focus(s, w, Active).log, s.focuswin) == Some(UNFOCUSCOL)
    ensures v != w && v != s.focuswin ==> BorderOf(Focus(s, w, Active).log, v) == BorderOf(s.log, v)
  {
    var l1 := s.log + [BorderPixel(w, FOCUSCOL)];
    var l2 := l1 + [SetInputFocus(INPUT_FOCUS_POINTER_ROOT, w)];
    BorderOfAppend(s.log, BorderPixel(w, FOCUSCOL), w);
    BorderOfAppend(s.log, BorderPixel(w, FOCUSCOL), v);
    BorderOfAppend(l1, SetInputFocus(INPUT_FOCUS_POINTER_ROOT, w), w);
    BorderOfAppend(l1, SetInputFocus(INPUT_FOCUS_POINTER_ROOT, w), v);
    if w != s.focuswin {
      var l3 := l2 + [BorderPixel(s.focuswin, UNFOCUSCOL)];
      FocusChange(s, w);
      BorderOfAppend(s.log, BorderPixel(w, FOCUSCOL), s.focuswin);
      BorderOfAppend(l1, SetInputFocus(INPUT_FOCUS_POINTER_ROOT, w), s.focuswin);
      BorderOfAppend(l2, BorderPixel(s.focuswin, UNFOCUSCOL), w);
      BorderOfAppend(l2, BorderPixel(s.focuswin, UNFOCUSCOL), v);
      BorderOfAppend(l2, BorderPixel(s.focuswin, UNFOCUSCOL), s.focuswin);
    } else {
      FocusIdempotent(s, w);
    }
  }

  /** Unfocusing recolours `w` to UNFOCUS and no other window. */
  lemma UnfocusColours(s: WmState, w: Window)
    ensures BorderOf(Focus(s, w, Inactive).log, w) == Some(UNFOCUSCOL)
    ensures forall v :: v != w ==> BorderOf(Focus(s, w, Inactive).log, v) == BorderOf(s.log, v)
  {
    FocusInactive(s, w);
    forall v
      ensures BorderOf(s.log + [BorderPixel(w, UNFOCUSCOL)], v)
        == if v == w then Some(UNFOCUSCOL) else BorderOf(s.log, v)
    {
      BorderOfAppend(s.log, BorderPixel(w, UNFOCUSCOL), v);
    }
  }

  /** Focusing `w` leaves the colour of every window other than `w` and the
      previously focused one as it was. */
  lemma FocusKeepsOthers(s: WmState, w: Window)
    ensures forall v :: v != w && v != s.focuswin ==> BorderOf(Focus(s, w, Active).log, v) == BorderOf(s.log, v)
  {
    forall v | v != w && v != s.focuswin
      ensures BorderOf(Focus(s, w, Active).log, v) == BorderOf(s.log, v)
    {
      FocusColours(s, w, v);
    }
  }

  /** subscribe(): ask for enter-window and substructure events, set the
      border width. Only the first value of the event-mask list is sent, so
      the window is subscribed to enter-window events alone. */
  function Subscribe(s: WmState, w: Window): (r: WmState)
    ensures r.focuswin == s.focuswin && r.values == s.values
    ensures r.log == s.log + [ChangeWindowAttributes(w, CW_EVENT_MASK, [EVENT_MASK_ENTER_WINDOW]),
                              ConfigureWindow(w, CONFIG_WINDOW_BORDER_WIDTH, [BORDERWIDTH])]
  {
    MaskSizes();
    var attributes := [EVENT_MASK_ENTER_WINDOW, EVENT_MASK_SUBSTRUCTURE_NOTIFY];
    var width := [BORDERWIDTH];
    assert ValueList(CW_EVENT_MASK, attributes) == [EVENT_MASK_ENTER_WINDOW];
    assert ValueList(CONFIG_WINDOW_BORDER_WIDTH, width) == width;
    s.(log := s.log + [ChangeWindowAttributes(w, CW_EVENT_MASK, ValueList(CW_EVENT_MASK, attributes)),
                       ConfigureWindow(w, CONFIG_WINDOW_BORDER_WIDTH, ValueList(CONFIG_WINDOW_BORDER_WIDTH, width))])
  }

  /** Create-notify: subscribe to and focus every window that is not
      override-redirect; leave the others alone. */
  function OnCreate(s: WmState, e: Event): (r: WmState)
    ensures e.overrideRedirect ==> r == s
    ensures !e.overrideRedirect ==> r.focuswin == e.window && r.values == s.values
    // the subscribe requests come first, then the focus border for the new window
    ensures !e.overrideRedirect ==> |r.log| > |s.log| + 2 && r.log[..|s.log| + 2] == Subscribe(s, e.window).log
    ensures !e.overrideRedirect ==> r.log[|s.log| + 2] == BorderPixel(e.window, FOCUSCOL)
  {
    if e.overrideRedirect then s
    else Focus(Subscribe(s, e.window), e.window, Active)
  }

  /** Map-notify: map and focus every window that is not override-redirect. */
  function OnMap(s: WmState, e: Event): (r: WmState)
    ensures e.overrideRedirect ==> r == s
    ensures !e.overrideRedirect ==> r.focuswin == e.window && r.values == s.values
    // the map request comes first, then the focus border for the window
    ensures !e.overrideRedirect ==> |r.log| > |s.log| + 1 && r.log[..|s.log|] == s.log
    ensures !e.overrideRedirect ==> r.log[|s.log|] == MapWindow(e.window)
    ensures !e.overrideRedirect ==> r.log[|s.log| + 1] == BorderPixel(e.window, FOCUSCOL)
  {
    if e.overrideRedirect then s
    else Focus(s.(log := s.log + [MapWindow(e.window)]), e.window, Active)
  }

  /** Configure-notify: unfocus the configured window unless it is the
      focused one, then refresh the focused window. Focus never moves. */
  function OnConfigure(s: WmState, e: Event): (r: WmState)
    ensures r.focuswin == s.focuswin && r.values == s.values
    ensures BorderOf(r.log, s.focuswin) == Some(FOCUSCOL)
    ensures e.window != s.focuswin ==> BorderOf(r.log, e.window) == Some(UNFOCUSCOL)
    ensures forall v :: v != e.window && v != s.focuswin ==> BorderOf(r.log, v) == BorderOf(s.log, v)
  {
    var s1 := if e.window != s.focuswin then Focus(s, e.window, Inactive) else s;
    UnfocusColours(s, e.window);
    FocusColours(s1, s1.focuswin, s1.focuswin);
    FocusColours(s1, s1.focuswin, e.window);
    FocusKeepsOthers(s1, s1.focuswin);
    Focus(s1, s1.focuswin, Active)
  }

  /** Destroy-notify: kill the window's client, whatever the focus. */
  function OnDestroy(s: WmState, e: Event): (r: WmState)
    ensures r.focuswin == s.focuswin && r.values == s.values
    ensures |r.log| == |s.log| + 1 && r.log[..|s.log|] == s.log
    ensures r.log[|s.log|] == KillClient(e.window)
  {
    s.(log := s.log + [KillClient(e.window)])
  }

  /** Where a press warps the pointer: the window's centre for button 1, its
      far corner for any other button. */
  function WarpInto(win: Window, g: Geometry, button: U8): Request
  {
    if button == 1 then WarpPointer(win, g.width / 2, g.height / 2)
    else WarpPointer(win, g.width, g.height)
  }

  /** Button-press: on a managed child (not none, not the root) raise it,
      query its geometry, warp the pointer to its centre (button 1) or its
      far corner (any other button), grab the pointer, and record the drag
      mode in values[2]. Focus is not touched. */
  function OnButtonPress(scr: Screen, s: WmState, e: Event, geometry: Option<Geometry>): (r: WmState)
    requires s.Valid()
    requires e.child != NONE && e.child != scr.root ==> geometry.Some?
    ensures r.Valid() && r.focuswin == s.focuswin
    ensures e.child == NONE || e.child == scr.root ==> r == s
    ensures e.child != NONE && e.child != scr.root ==>
      r.DragMode() == (if e.detail == 1 then DRAG_MOVE else DRAG_RESIZE)
    // raise, query the geometry, warp into the window, grab the pointer
    ensures e.child != NONE && e.child != scr.root ==>
      r.values[0] == STACK_MODE_ABOVE && r.values[1] == s.values[1]
    ensures e.child != NONE && e.child != scr.root ==>
      r.log == s.log + [ConfigureWindow(e.child, CONFIG_WINDOW_STACK_MODE, [STACK_MODE_ABOVE]), GetGeometry(e.child),
                        WarpInto(e.child, geometry.value, e.detail), GrabPointer(scr.root)]
  {
    MaskSizes();
    var win := e.child;
    if win == NONE || win == scr.root then s
    else
      var raised: seq<U32> := s.values[0 := STACK_MODE_ABOVE];
      var mode: U32 := if e.detail == 1 then DRAG_MOVE else DRAG_RESIZE;
      var sent: seq<U32> := ValueList(CONFIG_WINDOW_STACK_MODE, raised);
      assert sent == [STACK_MODE_ABOVE];
      var requests: seq<Request> :=
        [ConfigureWindow(win, CONFIG_WINDOW_STACK_MODE, sent), GetGeometry(win),
         WarpInto(win, geometry.value, e.detail), GrabPointer(scr.root)];
      WmState(s.focuswin, raised[2 := mode], s.log + requests)
  }

  /** Which replies the motion handler dereferences without checking. */
  predicate MotionRepliesSuffice(s: WmState, replies: Replies)
    requires s.Valid()
  {
    && (s.DragMode() == DRAG_MOVE && replies.geometry.Some? ==> replies.pointer.Some?)
    && (s.DragMode() == DRAG_RESIZE ==> replies.geometry.Some? && replies.pointer.Some?)
  }

  /** Motion-notify: query the pointer; then, while moving, place the child
      by MoveCoord (nothing more if its geometry is gone); while resizing,
      size it to pointer minus origin; in any other mode do nothing more. */
  function OnMotionNotify(scr: Screen, s: WmState, e: Event, replies: Replies): (r: WmState)
    requires s.Valid() && MotionRepliesSuffice(s, replies)
    ensures r.Valid() && r.focuswin == s.focuswin && r.DragMode() == s.DragMode()
  {
    MaskSizes();
    var win := e.child;
    var queried := s.log + [QueryPointer(scr.root)];
    if s.DragMode() == DRAG_MOVE then
      var measured := queried + [GetGeometry(win)];
      if replies.geometry.None? then s.(log := measured)
      else
        var g, p := replies.geometry.value, replies.pointer.value;
        var x := MoveCoord(p.rootX, g.width, scr.widthInPixels, BORDERWIDTH);
        var y := MoveCoord(p.rootY, g.height, scr.heightInPixels, BORDERWIDTH);
        var v := s.values[0 := ToU32(x)][1 := ToU32(y)];
        var mask := CONFIG_WINDOW_X + CONFIG_WINDOW_Y;
        assert ValueList(mask, v) == [v[0], v[1]];
        WmState(s.focuswin, v, measured + [ConfigureWindow(win, mask, ValueList(mask, v))])
    else if s.DragMode() == DRAG_RESIZE then
      var g, p := replies.geometry.value, replies.pointer.value;
      var v := s.values[0 := ToU32(p.rootX - g.x)][1 := ToU32(p.rootY - g.y)];
      var mask := CONFIG_WINDOW_WIDTH + CONFIG_WINDOW_HEIGHT;
      assert ValueList(mask, v) == [v[0], v[1]];
      WmState(s.focuswin, v, queried + [GetGeometry(win), ConfigureWindow(win, mask, ValueList(mask, v))])
    else
      s.(log := queried)
  }

  /** A motion event while no drag mode is set sends only the pointer query:
      no configure request, nothing else changes. */
  lemma MotionWhileIdle(scr: Screen, s: WmState, e: Event, replies: Replies)
    requires s.Valid() && MotionRepliesSuffice(s, replies)
    requires s.DragMode() != DRAG_MOVE && s.DragMode() != DRAG_RESIZE
    ensures OnMotionNotify(scr, s, e, replies) == s.(log := s.log + [QueryPointer(scr.root)])
  {
  }

  /** While moving, a window whose geometry query fails is left alone: the
      two queries are sent and nothing else. */
  lemma MotionMoveWithoutGeometry(scr: Screen, s: WmState, e: Event, replies: Replies)
    requires s.Valid() && MotionRepliesSuffice(s, replies)
    requires s.DragMode() == DRAG_MOVE && replies.geometry.None?
    ensures OnMotionNotify(scr, s, e, replies)
      == s.(log := s.log + [QueryPointer(scr.root), GetGeometry(e.child)])
  {
  }

  /** While moving, the child is configured to the position MoveCoord gives
      on each axis, stored as uint32; values[0..2) hold that position. */
  lemma MotionMove(scr: Screen, s: WmState, e: Event, g: Geometry, p: PointerReply)
    requires s.Valid() && s.DragMode() == DRAG_MOVE
    ensures var x := ToU32(MoveCoord(p.rootX, g.width, scr.widthInPixels, BORDERWIDTH));
      var y := ToU32(MoveCoord(p.rootY, g.height, scr.heightInPixels, BORDERWIDTH));
      OnMotionNotify(scr, s, e, Replies(Some(g), Some(p))) == WmState(s.focuswin, [x, y, DRAG_MOVE],
        s.log + [QueryPointer(scr.root), GetGeometry(e.child),
                 ConfigureWindow(e.child, CONFIG_WINDOW_X + CONFIG_WINDOW_Y, [x, y])])
  {
    var x := ToU32(MoveCoord(p.rootX, g.width, scr.widthInPixels, BORDERWIDTH));
    var y := ToU32(MoveCoord(p.rootY, g.height, scr.heightInPixels, BORDERWIDTH));
    var v: seq<U32> := [x, y, DRAG_MOVE];
    assert s.values[0 := x][1 := y] == v;
    assert ValueList(CONFIG_WINDOW_X + CONFIG_WINDOW_Y, v) == [x, y] by {
      MaskSizes();
    }
  }

  /** While resizing, the child is configured to pointer minus origin on each
      axis, with no lower bound: a pointer left of or above the origin wraps
      to a size of 2^31 or more. */
  lemma MotionResize(scr: Screen, s: WmState, e: Event, g: Geometry, p: PointerReply)
    requires s.Valid() && s.DragMode() == DRAG_RESIZE
    ensures var w, h := ToU32(p.rootX - g.x), ToU32(p.rootY - g.y);
      && OnMotionNotify(scr, s, e, Replies(Some(g), Some(p))) == WmState(s.focuswin, [w, h, DRAG_RESIZE],
           s.log + [QueryPointer(scr.root), GetGeometry(e.child),
                    ConfigureWindow(e.child, CONFIG_WINDOW_WIDTH + CONFIG_WINDOW_HEIGHT, [w, h])])
      && (p.rootX < g.x ==> w >= 0x8000_0000)
      && (p.rootX >= g.x ==> w == p.rootX - g.x)
  {
    var w, h := ToU32(p.rootX - g.x), ToU32(p.rootY - g.y);
    var v: seq<U32> := [w, h, DRAG_RESIZE];
    assert s.values[0 := w][1 := h] == v;
    assert ValueList(CONFIG_WINDOW_WIDTH + CONFIG_WINDOW_HEIGHT, v) == [w, h] by {
      MaskSizes();
    }
  }

  /** Releasing the pointer grab recolours no window. */
  lemma UngrabKeepsColours(log: seq<Request>)
    ensures forall v :: BorderOf(log + [UngrabPointer], v) == BorderOf(log, v)
  {
    forall v
      ensures BorderOf(log + [UngrabPointer], v) == BorderOf(log, v)
    {
      BorderOfAppend(log, UngrabPointer, v);
    }
  }

  /** Button-release: focus the child under the pointer and release the
      grab. The drag mode in values[2] is left as it was. */
  function OnButtonRelease(s: WmState, e: Event): (r: WmState)
    ensures r.focuswin == e.child && r.values == s.values
    ensures |r.log| > |s.log| && r.log[..|s.log|] == s.log
    ensures r.log[|r.log| - 1] == UngrabPointer
    // the colours focus(child, ACTIVE) leaves
    ensures BorderOf(r.log, e.child) == Some(FOCUSCOL)
    ensures e.child != s.focuswin ==> BorderOf(r.log, s.focuswin) == Some(UNFOCUSCOL)
    ensures forall v :: v != e.child && v != s.focuswin ==> BorderOf(r.log, v) == BorderOf(s.log, v)
  {
    var focused := Focus(s, e.child, Active);
    FocusColours(s, e.child, e.child);
    FocusKeepsOthers(s, e.child);
    UngrabKeepsColours(focused.log);
    focused.(log := focused.log + [UngrabPointer])
  }

  /** Which replies a handler dereferences without checking. */
  predicate RepliesSuffice(scr: Screen, h: Handler, s: WmState, e: Event, replies: Replies)
    requires s.Valid()
  {
    match h
    case ButtonPressHandler => e.child != NONE && e.child != scr.root ==> replies.geometry.Some?
    case MotionNotifyHandler => MotionRepliesSuffice(s, replies)
    case _ => true
  }

  /** Run the handler a table slot points to. */
  function Handle(scr: Screen, h: Handler, s: WmState, e: Event, replies: Replies): (r: WmState)
    requires s.Valid() && RepliesSuffice(scr, h, s, e, replies)
    ensures r.Valid()
    // only the mouse handlers write values[]
    ensures !h.NeedsMouse() ==> r.values == s.values
    // only create, map and button release move the focus
    ensures h.ConfigureHandler? || h.DestroyHandler? || h.ButtonPressHandler? || h.MotionNotifyHandler?
      ==> r.focuswin == s.focuswin
    // the drag mode is set only by a button press
    ensures !h.ButtonPressHandler? ==> r.DragMode() == s.DragMode()
  {
    match h
    case MapHandler => OnMap(s, e)
    case CreateHandler => OnCreate(s, e)
    case ConfigureHandler => OnConfigure(s, e)
    case DestroyHandler => OnDestroy(s, e)
    case ButtonPressHandler => OnButtonPress(scr, s, e, replies.geometry)
    case ButtonReleaseHandler => OnButtonRelease(s, e)
    case MotionNotifyHandler => OnMotionNotify(scr, s, e, replies)
  }

  /** The lookup stays inside the 127-slot table and the handler found gets
      the replies it dereferences. */
  predicate CanDispatch(scr: Screen, mouse: bool, s: WmState, input: Input)
    requires s.Valid()
  {
    match input.event
    case None => true
    case Some(e) =>
      var key := DispatchKey(e.responseType) as int;
      key < NO_OPERATION &&
      match HandlerFor(key, mouse)
      case None => true
      case Some(h) => RepliesSuffice(scr, h, s, e, input.replies)
  }

  /** One turn of the main loop after the wait: look the event up by its
      key and run the handler there; an empty slot or a failed wait does
      nothing. */
  function Dispatch(scr: Screen, mouse: bool, s: WmState, input: Input): (r: WmState)
    requires s.Valid() && CanDispatch(scr, mouse, s, input)
    ensures r.Valid()
    ensures input.event.None? ==> r == s
    ensures input.event.Some? && HandlerFor(DispatchKey(input.event.value.responseType) as int, mouse).None? ==> r == s
  {
    match input.event
    case None => s
    case Some(e) =>
      match HandlerFor(DispatchKey(e.responseType) as int, mouse)
      case None => s
      case Some(h) => Handle(scr, h, s, e, input.replies)
  }

  /** Every turn of a run gets what it needs. */
  predicate CanRun(scr: Screen, mouse: bool, s: WmState, inputs: seq<Input>)
    requires s.Valid()
    decreases |inputs|
  {
    inputs == [] ||
    (CanDispatch(scr, mouse, s, inputs[0]) && CanRun(scr, mouse, Dispatch(scr, mouse, s, inputs[0]), inputs[1..]))
  }

  /** The main loop over a given sequence of waits. */
  function Run(scr: Screen, mouse: bool, s: WmState, inputs: seq<Input>): (r: WmState)
    requires s.Valid() && CanRun(scr, mouse, s, inputs)
    ensures r.Valid()
    decreases |inputs|
  {
    if inputs == [] then s
    else Run(scr, mouse, Dispatch(scr, mouse, s, inputs[0]), inputs[1..])
  }

  /** Running two sequences of waits one after the other is running their
      concatenation. */
  lemma {:induction false} RunConcat(scr: Screen, mouse: bool, s: WmState, a: seq<Input>, b: seq<Input>)
    requires s.Valid() && CanRun(scr, mouse, s, a + b)
    ensures CanRun(scr, mouse, s, a)
    ensures CanRun(scr, mouse, Run(scr, mouse, s, a), b)
    ensures Run(scr, mouse, s, a + b) == Run(scr, mouse, Run(scr, mouse, s, a), b)
    decreases |a|
  {
    if a == [] {
      assert a + b == b;
    } else {
      assert (a + b)[0] == a[0];
      assert (a + b)[1..] == a[1..] + b;
      RunConcat(scr, mouse, Dispatch(scr, mouse, s, a[0]), a[1..], b);
    }
  }

  /** The state start-up leaves: focus on the root, values all zero (so the
      drag mode is idle), the two button grabs when mouse support is built in,
      and substructure events selected on the root. */
  function Deploy(scr: Screen, mouse: bool): (r: WmState)
    ensures r.Valid() && r.focuswin == scr.root && r.DragMode() == DRAG_IDLE
    ensures forall i :: 0 <= i < |r.log| ==> !r.log[i].ConfigureWindow?
  {
    assert PopCount(CW_EVENT_MASK) == 1 by {
      MaskSizes();
    }
    var grabs: seq<Request> := if mouse then [GrabButton(scr.root, 1), GrabButton(scr.root, 3)] else [];
    var rootMask: seq<U32> := [EVENT_MASK_SUBSTRUCTURE_NOTIFY];
    var select: Request := ChangeWindowAttributes(scr.root, CW_EVENT_MASK, ValueList(CW_EVENT_MASK, rootMask));
    var zeros: seq<U32> := [0, 0, 0];
    WmState(scr.root, zeros, grabs + [select])
  }
}

/** Properties of whole runs of the main loop. */
module Sessions {
  import opened XProto
  import opened Config
  import opened EventTable
  import opened DragGeometry
  import opened Transitions

  /** A create or map notification for a window that is not override-redirect. */
  predicate ManagesWindow(input: Input)
  {
    && input.event.Some?
    && !input.event.value.overrideRedirect
    && var key := DispatchKey(input.event.value.responseType) as int;
       key == CREATE_NOTIFY || key == MAP_NOTIFY
  }

  /** The window an event is about; none for a failed wait. */
  function EventWindow(input: Input): Window
  {
    if input.event.Some? then input.event.value.window else NONE
  }

  /** The windows the events of a run are about. */
  function Windows(inputs: seq<Input>): set<Window>
  {
    if inputs == [] then {}
    else (if inputs[0].event.Some? then {inputs[0].event.value.window} else {}) + Windows(inputs[1..])
  }

  /** Every window in `seen` shows UNFOCUS except the focused one, which is in
      `seen` and shows FOCUS. */
  ghost predicate FocusColoured(s: WmState, seen: set<Window>)
  {
    && s.focuswin in seen
    && BorderOf(s.log, s.focuswin) == Some(FOCUSCOL)
    && forall v :: v in seen && v != s.focuswin ==> BorderOf(s.log, v) == Some(UNFOCUSCOL)
  }

  /** One managed create or map event focuses its window, unfocuses the
      previous one and leaves every other window's colour alone. */
  lemma {:induction false} ManagedStep(scr: Screen, mouse: bool, s: WmState, input: Input)
    requires s.Valid() && ManagesWindow(input)
    ensures CanDispatch(scr, mouse, s, input)
    ensures var r, w := Dispatch(scr, mouse, s, input), EventWindow(input);
      && r.focuswin == w
      && BorderOf(r.log, w) == Some(FOCUSCOL)
      && (w != s.focuswin ==> BorderOf(r.log, s.focuswin) == Some(UNFOCUSCOL))
      && forall v :: v != w && v != s.focuswin ==> BorderOf(r.log, v) == BorderOf(s.log, v)
  {
    var e := input.event.value;
    var w := e.window;
    var key := DispatchKey(e.responseType) as int;
    var s1 := if key == CREATE_NOTIFY then Subscribe(s, w) else s.(log := s.log + [MapWindow(w)]);
    forall v
      ensures BorderOf(s1.log, v) == BorderOf(s.log, v)
    {
      if key == CREATE_NOTIFY {
        var l1 := s.log + [ChangeWindowAttributes(w, CW_EVENT_MASK, [EVENT_MASK_ENTER_WINDOW])];
        BorderOfAppend(s.log, ChangeWindowAttributes(w, CW_EVENT_MASK, [EVENT_MASK_ENTER_WINDOW]), v);
        BorderOfAppend(l1, ConfigureWindow(w, CONFIG_WINDOW_BORDER_WIDTH, [BORDERWIDTH]), v);
        assert s1.log == l1 + [ConfigureWindow(w, CONFIG_WINDOW_BORDER_WIDTH, [BORDERWIDTH])];
      } else {
        BorderOfAppend(s.log, MapWindow(w), v);
      }
    }
    assert Dispatch(scr, mouse, s, input) == Focus(s1, w, Active);
    forall v
      ensures v != w && v != s.focuswin ==> BorderOf(Focus(s1, w, Active).log, v) == BorderOf(s.log, v)
    {
      FocusColours(s1, w, v);
    }
    FocusColours(s1, w, w);
  }

  /** A run of managed create and map events keeps the colouring invariant
      over the windows seen so far, and ends focused on the last one. */
  lemma {:induction false} RunColoured(scr: Screen, mouse: bool, s: WmState, inputs: seq<Input>, seen: set<Window>)
    requires s.Valid() && FocusColoured(s, seen)
    requires forall i {:trigger inputs[i]} :: 0 <= i < |inputs| ==> ManagesWindow(inputs[i])
    ensures CanRun(scr, mouse, s, inputs)
    ensures FocusColoured(Run(scr, mouse, s, inputs), seen + Windows(inputs))
    ensures inputs != [] ==> Run(scr, mouse, s, inputs).focuswin == EventWindow(inputs[|inputs| - 1])
    decreases |inputs|
  {
    if inputs != [] {
      var w := EventWindow(inputs[0]);
      ManagedStep(scr, mouse, s, inputs[0]);
      var s1, rest := Dispatch(scr, mouse, s, inputs[0]), inputs[1..];
      assert FocusColoured(s1, seen + {w});
      assert forall i {:trigger rest[i]} :: 0 <= i < |rest| ==> rest[i] == inputs[i + 1];
      RunColoured(scr, mouse, s1, rest, seen + {w});
      assert Run(scr, mouse, s, inputs) == Run(scr, mouse, s1, rest);
      assert Windows(inputs) == {w} + Windows(rest);
      if rest == [] {
        assert Run(scr, mouse, s1, rest) == s1;
        assert inputs[|inputs| - 1] == inputs[0];
      } else {
        assert rest[|rest| - 1] == inputs[|inputs| - 1];
      }
    }
  }

  /** After any non-empty run of create and map events on windows that are
      not override-redirect, the last event's window is focused and shows
      FOCUS, and every other window of the run, and the window focused
      before it, shows UNFOCUS. */
  lemma {:induction false} CreateMapFocusesLast(scr: Screen, mouse: bool, s: WmState, inputs: seq<Input>)
    requires s.Valid() && inputs != []
    requires forall i {:trigger inputs[i]} :: 0 <= i < |inputs| ==> ManagesWindow(inputs[i])
    ensures CanRun(scr, mouse, s, inputs)
    ensures var r, last := Run(scr, mouse, s, inputs), EventWindow(inputs[|inputs| - 1]);
      && r.focuswin == last
      && BorderOf(r.log, last) == Some(FOCUSCOL)
      && forall v :: v in Windows(inputs) + {s.focuswin} && v != last ==> BorderOf(r.log, v) == Some(UNFOCUSCOL)
  {
    var w := EventWindow(inputs[0]);
    ManagedStep(scr, mouse, s, inputs[0]);
    var s1, rest := Dispatch(scr, mouse, s, inputs[0]), inputs[1..];
    assert FocusColoured(s1, {s.focuswin, w});
    assert forall i {:trigger rest[i]} :: 0 <= i < |rest| ==> rest[i] == inputs[i + 1];
    RunColoured(scr, mouse, s1, rest, {s.focuswin, w});
    assert Run(scr, mouse, s, inputs) == Run(scr, mouse, s1, rest);
    assert Windows(inputs) == {w} + Windows(rest);
    if rest != [] {
      assert rest[|rest| - 1] == inputs[|inputs| - 1];
    }
  }

  /** Client-sent copies of an event (bit 0x80 set) are handled exactly like
      the server's own. */
  lemma DispatchIgnoresSyntheticBit(scr: Screen, mouse: bool, s: WmState, e: Event, replies: Replies)
    requires s.Valid() && CanDispatch(scr, mouse, s, Input(Some(e), replies))
    ensures var sent := Input(Some(e.(responseType := e.responseType | 0x80)), replies);
      CanDispatch(scr, mouse, s, sent)
      && Dispatch(scr, mouse, s, sent) == Dispatch(scr, mouse, s, Input(Some(e), replies))
  {
    DispatchKeyIgnoresSyntheticBit(e.responseType);
  }

  /** Releasing the button does not end a move: values[2] still says "move",
      so a later motion event configures the window again. */
  lemma {:induction false} ReleaseDoesNotEndDrag(scr: Screen, s: WmState, release: Event, motion: Event, replies: Replies)
    requires s.Valid() && s.DragMode() == DRAG_MOVE
    requires replies.geometry.Some? && replies.pointer.Some?
    ensures OnButtonRelease(s, release).DragMode() == DRAG_MOVE
    ensures var r := OnMotionNotify(scr, OnButtonRelease(s, release), motion, replies);
      r.log[|r.log| - 1].ConfigureWindow? && r.log[|r.log| - 1].window == motion.child
  {
  }

  const EXAMPLE_SCREEN := Screen(1, 1920, 1080)
  const EXAMPLE_WINDOW: Window := 2
  const EXAMPLE_GEOMETRY := Geometry(560, 240, 800, 600)

  function PressOn(w: Window, button: U8): Input
  {
    Input(Some(Event(BUTTON_PRESS as bv8, w, false, w, button)), Replies(Some(EXAMPLE_GEOMETRY), None))
  }

  function MoveTo(w: Window, x: I16, y: I16): Input
  {
    Input(Some(Event(MOTION_NOTIFY as bv8, EXAMPLE_SCREEN.root, false, w, 0)),
          Replies(Some(EXAMPLE_GEOMETRY), Some(PointerReply(x, y))))
  }

  /** Pressing button 1 on a managed window right after start-up starts a move. */
  lemma PressStartsMove()
    ensures CanDispatch(EXAMPLE_SCREEN, ENABLE_MOUSE, Deploy(EXAMPLE_SCREEN, ENABLE_MOUSE), PressOn(EXAMPLE_WINDOW, 1))
    ensures Dispatch(EXAMPLE_SCREEN, ENABLE_MOUSE, Deploy(EXAMPLE_SCREEN, ENABLE_MOUSE), PressOn(EXAMPLE_WINDOW, 1)).DragMode() == DRAG_MOVE
  {
    assert DispatchKey(BUTTON_PRESS as bv8) as int == BUTTON_PRESS;
  }

  /** Moving an 800x600 window on a 1920x1080 screen (1-pixel border): the
      pointer at (10, 10) puts it at (0, 0), the pointer at (1915, 1075)
      flush with the bottom-right corner at (1118, 478). */
  lemma {:induction false} DragExample(s: WmState)
    requires s.Valid() && s.DragMode() == DRAG_MOVE
    ensures CanDispatch(EXAMPLE_SCREEN, ENABLE_MOUSE, s, MoveTo(EXAMPLE_WINDOW, 10, 10))
    ensures Dispatch(EXAMPLE_SCREEN, ENABLE_MOUSE, s, MoveTo(EXAMPLE_WINDOW, 10, 10)).log
      == s.log + [QueryPointer(EXAMPLE_SCREEN.root), GetGeometry(EXAMPLE_WINDOW),
                  ConfigureWindow(EXAMPLE_WINDOW, CONFIG_WINDOW_X + CONFIG_WINDOW_Y, [0, 0])]
    ensures CanDispatch(EXAMPLE_SCREEN, ENABLE_MOUSE, s, MoveTo(EXAMPLE_WINDOW, 1915, 1075))
    ensures Dispatch(EXAMPLE_SCREEN, ENABLE_MOUSE, s, MoveTo(EXAMPLE_WINDOW, 1915, 1075)).log
      == s.log + [QueryPointer(EXAMPLE_SCREEN.root), GetGeometry(EXAMPLE_WINDOW),
                  ConfigureWindow(EXAMPLE_WINDOW, CONFIG_WINDOW_X + CONFIG_WINDOW_Y, [1118, 478])]
  {
    var near, far := MoveTo(EXAMPLE_WINDOW, 10, 10), MoveTo(EXAMPLE_WINDOW, 1915, 1075);
    assert DispatchKey(MOTION_NOTIFY as bv8) as int == MOTION_NOTIFY;
    assert MoveCoord(10, 800, 1920, BORDERWIDTH) == 0 && MoveCoord(10, 600, 1080, BORDERWIDTH) == 0;
    MotionMove(EXAMPLE_SCREEN, s, near.event.value, EXAMPLE_GEOMETRY, PointerReply(10, 10));
    assert MoveCoord(1915, 800, 1920, BORDERWIDTH) == 1118 && MoveCoord(1075, 600, 1080, BORDERWIDTH) == 478;
    MotionMove(EXAMPLE_SCREEN, s, far.event.value, EXAMPLE_GEOMETRY, PointerReply(1915, 1075));
  }
}
