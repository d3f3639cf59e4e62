# wm: the event core of a tiny XCB window manager, in Dafny

This project models the event-driven core of `wm.c`, a minimal X11 window
manager written against XCB. It covers:

- focusing windows and colouring their borders;
- subscribing to, mapping and killing client windows;
- moving and resizing a window with the mouse;
- the handler table the main loop dispatches events through.

The X server is not modelled. Every request the window manager sends is one
entry appended to a request log. The replies to its round trips, and the
events it waits for, are inputs. Integer widths are explicit:

- the global `values[3]` is an array of `uint32_t`, and every store into it
  is reduced modulo 2^32 (`XProto.ToU32`);
- a value list reaches the server as one value per bit of its mask
  (`XProto.ValueList`).

Files and modules:

- `xproto.dfy`:
  - `XProto`: integer widths, the protocol constants used, and the request,
    event and reply types.
  - `Config`: the compile-time configuration from `config.h`.
- `events.dfy`, `EventTable`: the `events[]` table, the loop that fills it,
  and the key the main loop indexes it with.
- `drag.dfy`, `DragGeometry`: the clamp arithmetic of a mouse move.
- `transitions.dfy`:
  - `Transitions`: each handler as a function from the state before to the
    state after. The state is `focuswin`, `values[3]` and the request log.
  - `Sessions`: properties of whole runs of the main loop.
- `wm.dfy`, `Wm`: the class `WindowManager`. Its fields are the C globals,
  updated in place. Each of its methods is one C function, one branch of
  one (`MoveChild` and `ResizeChild` are the two drag branches of the motion
  handler) or one turn of the main loop (`Dispatch`). Each method that stands
  for a whole C function or loop turn is proved to have exactly the effect
  the matching `Transitions` function gives it. `MoveChild` and `ResizeChild`
  are specified directly by `MoveCoord` and `ToU32`; `MotionNotify` ties them
  to `Transitions.OnMotionNotify` through `MotionMove` and `MotionResize`.

Where the code does something other than what it evidently sets out to do
(the values it fills, the clamp it attempts, the state it leaves), the model
follows the code:

- `subscribe` fills a two-element event-mask list but passes a mask with
  one bit, so only `EVENT_MASK_ENTER_WINDOW` is sent. Substructure
  notification is never requested on client windows (`Transitions.Subscribe`).
- The move clamp keeps a window that fits on screen inside it only when the
  window's size is even. An odd size can overhang the far edge by one pixel
  (`DragGeometry.MoveCoordOddSizeOverhangs`). A window larger than the
  screen can get a negative position (`DragGeometry.MoveCoordOversizeGoesNegative`).
- Releasing the button does not reset the drag mode in `values[2]`. A motion
  event dispatched after the release would still move or resize
  (`Sessions.ReleaseDoesNotEndDrag`). In the running program none arrives:
  motion is selected only by the pointer grab of a press (wm.c:105), which
  the release ends, and neither the button grabs, the root's event mask nor
  a client's event mask selects motion.
- A button press raises the window but does not focus it. The release
  focuses whatever child is under the pointer, even none or the root.
- The dispatch key `response_type & ~0x80` is 127 for response types 127
  and 255, one past the last of the table's 127 slots
  (`EventTable.DispatchKeyOutOfTable`). Dispatch therefore requires the key
  to be inside the table.

## Model

| member | source | states |
|---|---|---|
| XProto.ToU32 | wm.c:15 | storing an `int` into a `uint32_t` slot keeps values in [0, 2^32) and adds 2^32 to negative ones down to -2^32 |
| Transitions.Focus | wm.c:203-215 | values untouched; focus moves to `w` in ACTIVE mode and stays put in INACTIVE mode; requests are only appended |
| Transitions.FocusChange | wm.c:205-213 | focusing a window other than the focused one sends FOCUS border and input focus for it, then exactly one border request, UNFOCUS, for the previous window |
| Transitions.FocusIdempotent | wm.c:205-213 | focusing the focused window sends exactly its FOCUS border and input-focus requests, recolours no other window and keeps focus |
| Transitions.FocusInactive | wm.c:205-208 | unfocusing only sends an UNFOCUS border request for `w`; focus and input focus do not change |
| Transitions.BorderOfIsLastBorderRequest | wm.c:206 | the border colour a window shows is the value of the last border request for it, and none exactly when no such request was sent |
| Transitions.FocusColours | wm.c:203-215 | after focusing `w` it shows FOCUS, the previous focus (if different) shows UNFOCUS, every other window keeps its colour |
| Transitions.Subscribe | wm.c:217-228 | sends an event-mask change carrying only ENTER_WINDOW, then border width BORDERWIDTH; focus and values untouched |
| Transitions.OnCreate | wm.c:54-60 | override-redirect windows: nothing changes and no request is sent; others get the two subscribe requests, then the FOCUS border, and end focused |
| Transitions.OnMap | wm.c:69-75 | override-redirect windows: nothing changes and no request is sent; others get a map request, then the FOCUS border, and end focused |
| Transitions.UnfocusColours | wm.c:205-206 | unfocusing `w` makes it show UNFOCUS and recolours no other window |
| Transitions.FocusKeepsOthers | wm.c:203-215 | focusing `w` recolours no window other than `w` and the previously focused one |
| Transitions.OnConfigure | wm.c:62-67 | focus and values never change; the focused window shows FOCUS, the configured window (if not focused) UNFOCUS, every other window keeps its colour |
| Transitions.OnDestroy | wm.c:77-80 | exactly one kill-client request for the window, nothing else changes |
| Transitions.OnButtonPress | wm.c:83-108 | a press on no child or on the root changes nothing; otherwise values[0] becomes STACK_MODE_ABOVE, the drag mode 1 for button 1 and 3 for any other button, and exactly the raise, geometry query, warp (`Transitions.WarpInto`: centre for button 1, far corner otherwise) and pointer grab are sent; focus is untouched |
| Transitions.OnMotionNotify | wm.c:110-142 | focus and drag mode are never changed by motion |
| Transitions.MotionWhileIdle | wm.c:116-141 | outside move and resize mode, motion sends only the pointer query and configures nothing |
| Transitions.MotionMoveWithoutGeometry | wm.c:119-121 | in move mode a failed geometry query ends the handler without a configure request |
| Transitions.MotionMove | wm.c:118-133 | in move mode the child is configured to the MoveCoord position on each axis, stored as uint32 in values[0..2) |
| Transitions.MotionResize | wm.c:135-139 | in resize mode the child is configured to pointer minus origin with no lower bound; a pointer left of the origin wraps to a width of 2^31 or more |
| DragGeometry.MoveCoord | wm.c:123-131 | pinned to 0 when the pointer is within half a window of the near edge; flush with the far edge when it would pass it; centred under the pointer otherwise; on screen, up to one pixel for odd sizes, when the window fits |
| DragGeometry.PlaceCoord | wm.c:123-131 | the handler's two-step computation on one axis (choose centred or far edge, then override with 0 near the near edge) yields exactly MoveCoord |
| DragGeometry.MoveCoordEvenSizeStaysOnScreen | wm.c:123-131 | a window of even size that fits the screen stays entirely on it |
| DragGeometry.MoveCoordOddSizeOverhangs | wm.c:123-124 | an 11-pixel window on a 100-pixel screen, pointer at 93, ends one pixel past the far edge |
| DragGeometry.MoveCoordOversizeGoesNegative | wm.c:123-124 | a window wider than the screen can be placed at a negative position |
| DragGeometry.MoveCoordScreenExample | wm.c:123-131 | an 800x600 window on 1920x1080 with a 2-pixel border: (0, 0) near the top-left, (1116, 476) at the bottom-right |
| Transitions.UngrabKeepsColours | wm.c:148 | releasing the pointer grab recolours no window |
| Transitions.OnButtonRelease | wm.c:144-149 | the child under the pointer becomes focused and shows FOCUS, the previous focus (if different) shows UNFOCUS, every other window keeps its colour; values (so the drag mode) are kept, earlier requests are kept, and the last request releases the pointer grab |
| EventTable.TableIsInverseOfEventCode | wm.c:160-168 | a slot holds a handler exactly when the key is that handler's event code and the handler is enabled |
| EventTable.EnterNotifyUnhandled | wm.c:170-172 | enter-notify events have no handler in the built table |
| EventTable.HandlerFor | wm.c:161-168 | a slot holds only a handler registered for that event code, and a mouse handler only when mouse support is built in |
| EventTable.BuildEventTable | wm.c:160-168 | returns a 127-slot table equal to HandlerFor at every key |
| EventTable.DispatchKey | wm.c:236 | the key is the response type modulo 128 |
| EventTable.DispatchKeyIgnoresSyntheticBit | wm.c:236 | setting bit 0x80 does not change the key |
| EventTable.DispatchKeyOutOfTable | wm.c:236 | the key falls outside the table exactly for response types 127 and 255 |
| Transitions.Handle | wm.c:237 | only the mouse handlers write values; only create, map and release move the focus; only a press changes the drag mode |
| Transitions.Dispatch | wm.c:235-237 | a failed wait or an event with an empty slot changes nothing |
| Transitions.Run | wm.c:230-240 | its own contract keeps only the three-slot values array; what runs do is stated by RunConcat, RunColoured and CreateMapFocusesLast |
| Transitions.RunConcat | wm.c:230-240 | running two sequences of waits one after the other is running their concatenation, and each part gets what it needs |
| Transitions.Deploy | wm.c:174-201 | start-up leaves focus on the root, the drag mode idle and no configure request sent |
| Sessions.ManagedStep | wm.c:54-75 | a dispatched create or map of a non-override window focuses it, unfocuses the previous window and leaves every other colour alone |
| Sessions.RunColoured | wm.c:230-240 | a run of managed create and map events keeps exactly one seen window showing FOCUS, the focused one, and every other seen window showing UNFOCUS |
| Sessions.CreateMapFocusesLast | wm.c:230-240 | after such a run the last event's window is focused and shows FOCUS, and every other window involved shows UNFOCUS |
| Sessions.DispatchIgnoresSyntheticBit | wm.c:236-237 | a client-sent copy of an event is handled exactly like the server's own |
| Sessions.ReleaseDoesNotEndDrag | wm.c:144-149 | after a release in move mode the drag mode is still move, and the next motion event configures the window again |
| Sessions.PressStartsMove | wm.c:96-97 | right after start-up, pressing button 1 on a client window sets the drag mode to move |
| Sessions.DragExample | wm.c:118-133 | in move mode, dragging an 800x600 window on 1920x1080 to (10, 10) configures it at (0, 0), and to (1915, 1075) at (1118, 478) |
| Wm.WindowManager.constructor | wm.c:158-201 | start-up builds the handler table and leaves the state Deploy gives |
| Wm.WindowManager.Focus | wm.c:203-215 | the globals after the call are those Transitions.Focus gives |
| Wm.WindowManager.Subscribe | wm.c:217-228 | appends the requests Transitions.Subscribe gives |
| Wm.WindowManager.CreateNotify | wm.c:54-60 | the state after is OnCreate of the state before |
| Wm.WindowManager.ConfigureNotify | wm.c:62-67 | the state after is OnConfigure of the state before |
| Wm.WindowManager.MapNotify | wm.c:69-75 | the state after is OnMap of the state before |
| Wm.WindowManager.DestroyNotify | wm.c:77-80 | the state after is OnDestroy of the state before |
| Wm.WindowManager.ButtonPress | wm.c:83-108 | updates values[] and the log as OnButtonPress gives |
| Wm.WindowManager.MotionNotify | wm.c:110-142 | updates values[] and the log as OnMotionNotify gives |
| Wm.WindowManager.MoveChild | wm.c:123-133 | computes each axis with PlaceCoord, writes the MoveCoord position into values[0..2), keeps the drag mode and sends it as a configure request |
| Wm.WindowManager.ResizeChild | wm.c:137-139 | writes pointer minus origin into values[0..2), keeps the drag mode and sends it as a configure request |
| Wm.WindowManager.ButtonRelease | wm.c:144-149 | the state after is OnButtonRelease of the state before |
| Wm.WindowManager.Dispatch | wm.c:235-237 | looks the event up in the table and leaves the state Transitions.Dispatch gives |
| Wm.WindowManager.Run | wm.c:230-240 | over a sequence of waits, leaves the state Transitions.Run gives |

## Left out

- Connection set-up and teardown are not modelled: connecting, finding the
  screen, flushing, checking the connection for errors, aborting on one and
  freeing events. The screen is a parameter. The main loop runs over a
  given finite sequence of waits instead of until a signal arrives.
- Signal handling and process exit (`sigcatch`, `quit`, `cleanup`, `main`)
  are asynchronous and out of scope.
- Warp, grab-pointer, grab-button and ungrab requests are logged with the
  window (and for warp the target offset, for grab-button the button) but
  without their other arguments, which no handler reads back.
- The geometry and pointer replies that the code dereferences without a null
  check become preconditions (`Transitions.RepliesSuffice`,
  `Transitions.MotionRepliesSuffice`). The null dereference itself is not
  modelled.
- The event index 127 (response types 127 and 255) would read past the end
  of the table. `Transitions.CanDispatch` requires the key to be inside it
  instead of modelling the out-of-bounds read.
- Replies are never freed; memory is not modelled.
- The enter-notify (sloppy focus) handler is never compiled, because
  `config.h:17` misspells the macro that enables it. It is therefore absent
  from the table.
- `INNER`, `OUTER` and `OUTERCOL` are unused by the code. `MOD` only feeds
  the button grab.
- How the server interprets a request's values is not modelled. In
  particular, it reads a 32-bit position as a signed 16-bit coordinate.
- Transitions.OnMotionNotify: its own contract states only what motion never
  changes. The result of each drag mode is stated by MotionWhileIdle,
  MotionMoveWithoutGeometry, MotionMove and MotionResize.
- Transitions.Run: its own contract states only that the values array keeps
  its three slots. What a run does is stated about it by RunConcat,
  RunColoured and CreateMapFocusesLast.
