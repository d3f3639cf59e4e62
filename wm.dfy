/** The window manager as the C program runs it: globals updated in place by
    the handlers, each handler proved to have the effect that Transitions
    gives it. */
module Wm {
  import opened XProto
  import opened Config
  import opened EventTable
  import opened DragGeometry
  import opened Transitions

  class WindowManager {
    /** The screen found at start-up. */
    const scr: Screen
    /** Whether mouse support is compiled in. */
    const mouse: bool
    /** The global `uint32_t values[3]`; element 2 is the drag mode. */
    const values: array<U32>
    /** The global handler table `events[XCB_NO_OPERATION]`. */
    const events: array<Option<Handler>>
    /** The global `focuswin`. */
    var focuswin: Window
    /** The requests sent to the server so far. */
    var log: seq<Request>

    ghost predicate Valid()
      reads this, events
    {
      && values.Length == 3
      && events.Length == NO_OPERATION as int
      && forall key :: 0 <= key < NO_OPERATION ==> events[key] == HandlerFor(key, mouse)
    }

    ghost function State(): WmState
      reads this, values
    {
      WmState(focuswin, values[..], log)
    }

    /** deploy(): fill the handler table, start focused on the root, grab
        buttons 1 and 3 when mouse support is built in, and select
        substructure events on the root. */
    constructor (scr: Screen, mouse: bool)
      ensures Valid() && this.scr == scr && this.mouse == mouse
      ensures State() == Deploy(scr, mouse)
    {
      this.scr := scr;
      this.mouse := mouse;
      var table := BuildEventTable(mouse);
      events := table;
      values := new U32[3](_ => 0);
      focuswin := scr.root;
      var grabs := if mouse then [GrabButton(scr.root, 1), GrabButton(scr.root, 3)] else [];
      var rootMask := [EVENT_MASK_SUBSTRUCTURE_NOTIFY];
      MaskSizes();
      log := grabs + [ChangeWindowAttributes(scr.root, CW_EVENT_MASK, ValueList(CW_EVENT_MASK, rootMask))];
    }

    /** focus(win, mode). */
    method Focus(win: Window, mode: Mode)
      modifies this
      ensures State() == Transitions.Focus(old(State()), win, mode)
      decreases mode == Active
    {
      var pixel := if mode == Active then FOCUSCOL else UNFOCUSCOL;
      MaskSizes();
      log := log + [ChangeWindowAttributes(win, CW_BORDER_PIXEL, ValueList(CW_BORDER_PIXEL, [pixel]))];
      if mode == Active {
        log := log + [SetInputFocus(INPUT_FOCUS_POINTER_ROOT, win)];
        if win != focuswin {
          Focus(focuswin, Inactive);
          focuswin := win;
        }
      }
    }

    /** subscribe(win). */
    method Subscribe(win: Window)
      modifies this
      ensures State() == Transitions.Subscribe(old(State()), win)
    {
      var attributes := [EVENT_MASK_ENTER_WINDOW, EVENT_MASK_SUBSTRUCTURE_NOTIFY];
      MaskSizes();
      log := log + [ChangeWindowAttributes(win, CW_EVENT_MASK, ValueList(CW_EVENT_MASK, attributes))];
      var width := [BORDERWIDTH];
      log := log + [ConfigureWindow(win, CONFIG_WINDOW_BORDER_WIDTH, ValueList(CONFIG_WINDOW_BORDER_WIDTH, width))];
    }

    /** create_handler. */
    method CreateNotify(e: Event)
      modifies this
      ensures State() == OnCreate(old(State()), e)
    {
      if !e.overrideRedirect {
        Subscribe(e.window);
        Focus(e.window, Active);
      }
    }

    /** configure_handler. */
    method ConfigureNotify(e: Event)
      modifies this
      ensures State() == OnConfigure(old(State()), e)
    {
      if e.window != focuswin {
        Focus(e.window, Inactive);
      }
      Focus(focuswin, Active);
    }

    /** map_handler. */
    method MapNotify(e: Event)
      modifies this
      ensures State() == OnMap(old(State()), e)
    {
      if !e.overrideRedirect {
        log := log + [MapWindow(e.window)];
        Focus(e.window, Active);
      }
    }

    /** destroy_handler. */
    method DestroyNotify(e: Event)
      modifies this
      ensures State() == OnDestroy(old(State()), e)
    {
      log := log + [KillClient(e.window)];
    }

    /** button_press_handler; `geometry` is the reply to its geometry query. */
    method ButtonPress(e: Event, geometry: Option<Geometry>)
      requires Valid()
      requires e.child != NONE && e.child != scr.root ==> geometry.Some?
      modifies this, values
      ensures Valid()
      ensures State() == OnButtonPress(scr, old(State()), e, geometry)
    {
      var win := e.child;
      if win == NONE || win == scr.root {
        return;
      }
      ghost var before := State();
      values[0] := STACK_MODE_ABOVE;
      ghost var raised := values[..];
      assert raised == before.values[0 := STACK_MODE_ABOVE];
      MaskSizes();
      log := log + [ConfigureWindow(win, CONFIG_WINDOW_STACK_MODE, ValueList(CONFIG_WINDOW_STACK_MODE, values[..]))];
      log := log + [GetGeometry(win)];
      var geom := geometry.value;
      if e.detail == 1 {
        values[2] := DRAG_MOVE;
        log := log + [WarpPointer(win, geom.width / 2, geom.height / 2)];
      } else {
        values[2] := DRAG_RESIZE;
        log := log + [WarpPointer(win, geom.width, geom.height)];
      }
      assert values[..] == raised[2 := values[2]];
      log := log + [GrabPointer(scr.root)];
    }

    /** motion_notify_handler; `replies` holds the pointer and geometry replies. */
    method MotionNotify(e: Event, replies: Replies)
      requires Valid() && MotionRepliesSuffice(State(), replies)
      modifies this, values
      ensures Valid()
      ensures State() == OnMotionNotify(scr, old(State()), e, replies)
    {
      ghost var before := State();
      var win := e.child;
      log := log + [QueryPointer(scr.root)];
      var pointer := replies.pointer;
      if values[2] == DRAG_MOVE {
        log := log + [GetGeometry(win)];
        var geometry := replies.geometry;
        if geometry.None? {
          MotionMoveWithoutGeometry(scr, before, e, replies);
          return;
        }
        MoveChild(win, geometry.value, pointer.value);
        MotionMove(scr, before, e, geometry.value, pointer.value);
      } else if values[2] == DRAG_RESIZE {
        log := log + [GetGeometry(win)];
        ResizeChild(win, replies.geometry.value, pointer.value);
        MotionResize(scr, before, e, replies.geometry.value, pointer.value);
      } else {
        MotionWhileIdle(scr, before, e, replies);
      }
    }

    /** The move branch of motion_notify_handler once both replies are in:
        clamp the new corner into values[0] and values[1] and send them. */
    method MoveChild(win: Window, geom: Geometry, p: PointerReply)
      requires values.Length == 3
      modifies this, values
      ensures focuswin == old(focuswin) && values[2] == old(values[2])
      ensures var x := ToU32(MoveCoord(p.rootX, geom.width, scr.widthInPixels, BORDERWIDTH));
        var y := ToU32(MoveCoord(p.rootY, geom.height, scr.heightInPixels, BORDERWIDTH));
        && values[..] == [x, y, old(values[2])]
        && log == old(log) + [ConfigureWindow(win, CONFIG_WINDOW_X + CONFIG_WINDOW_Y, [x, y])]
    {
      var x := PlaceCoord(p.rootX, geom.width, scr.widthInPixels, BORDERWIDTH);
      var y := PlaceCoord(p.rootY, geom.height, scr.heightInPixels, BORDERWIDTH);
      values[0], values[1] := ToU32(x), ToU32(y);
      var mask := CONFIG_WINDOW_X + CONFIG_WINDOW_Y;
      MaskSizes();
      assert values[..] == [ToU32(x), ToU32(y), old(values[2])];
      assert ValueList(mask, values[..]) == [ToU32(x), ToU32(y)];
      log := log + [ConfigureWindow(win, mask, ValueList(mask, values[..]))];
    }

    /** The resize branch of motion_notify_handler: pointer minus origin into
        values[0] and values[1], sent as the new size. */
    method ResizeChild(win: Window, geom: Geometry, p: PointerReply)
      requires values.Length == 3
      modifies this, values
      ensures focuswin == old(focuswin) && values[2] == old(values[2])
      ensures var w, h := ToU32(p.rootX - geom.x), ToU32(p.rootY - geom.y);
        && values[..] == [w, h, old(values[2])]
        && log == old(log) + [ConfigureWindow(win, CONFIG_WINDOW_WIDTH + CONFIG_WINDOW_HEIGHT, [w, h])]
    {
      values[0], values[1] := ToU32(p.rootX - geom.x), ToU32(p.rootY - geom.y);
      var mask := CONFIG_WINDOW_WIDTH + CONFIG_WINDOW_HEIGHT;
      MaskSizes();
      assert values[..] == [ToU32(p.rootX - geom.x), ToU32(p.rootY - geom.y), old(values[2])];
      assert ValueList(mask, values[..]) == [ToU32(p.rootX - geom.x), ToU32(p.rootY - geom.y)];
      log := log + [ConfigureWindow(win, mask, ValueList(mask, values[..]))];
    }

    /** button_release_handler. */
    method ButtonRelease(e: Event)
      modifies this
      ensures State() == OnButtonRelease(old(State()), e)
    {
      Focus(e.child, Active);
      log := log + [UngrabPointer];
    }

    /** One turn of run() after the wait: look the event up in the table and
        call the handler found there, if any. */
    method Dispatch(input: Input)
      requires Valid() && CanDispatch(scr, mouse, State(), input)
      modifies this, values
      ensures Valid()
      ensures State() == Transitions.Dispatch(scr, mouse, old(State()), input)
    {
      if input.event.None? {
        return;
      }
      var e := input.event.value;
      var key := DispatchKey(e.responseType);
      var handler := events[key as int];
      match handler {
        case None =>
        case Some(MapHandler) => MapNotify(e);
        case Some(CreateHandler) => CreateNotify(e);
        case Some(ConfigureHandler) => ConfigureNotify(e);
        case Some(DestroyHandler) => DestroyNotify(e);
        case Some(ButtonPressHandler) => ButtonPress(e, input.replies.geometry);
        case Some(ButtonReleaseHandler) => ButtonRelease(e);
        case Some(MotionNotifyHandler) => MotionNotify(e, input.replies);
      }
    }

    /** run(), over a given sequence of waits. */
    method Run(inputs: seq<Input>)
      requires Valid() && CanRun(scr, mouse, State(), inputs)
      modifies this, values
      ensures Valid()
      ensures State() == Transitions.Run(scr, mouse, old(State()), inputs)
    {
      var i := 0;
      while i < |inputs|
        invariant 0 <= i <= |inputs|
        invariant Valid() && State().Valid()
        invariant CanRun(scr, mouse, State(), inputs[i..])
        invariant Transitions.Run(scr, mouse, State(), inputs[i..]) == Transitions.Run(scr, mouse, old(State()), inputs)
      {
        assert inputs[i..][1..] == inputs[i + 1..];
        Dispatch(inputs[i]);
        i := i + 1;
      }
    }
  }
}
