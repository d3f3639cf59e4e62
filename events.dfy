/** The handler table `events[]` and the key the main loop looks it up with. */
module EventTable {
  import opened XProto

  /** The handlers a table slot can point to; an empty slot is `None`. */
  datatype Handler =
    | MapHandler
    | CreateHandler
    | ConfigureHandler
    | DestroyHandler
    | ButtonPressHandler
    | ButtonReleaseHandler
    | MotionNotifyHandler
  {
    /** Registered only when mouse support is compiled in. */
    predicate NeedsMouse() {
      ButtonPressHandler? || ButtonReleaseHandler? || MotionNotifyHandler?
    }
  }

  /** The event code each handler is written for. */
  function EventCode(h: Handler): U8
  {
    match h
    case MapHandler => MAP_NOTIFY
    case CreateHandler => CREATE_NOTIFY
    case ConfigureHandler => CONFIGURE_NOTIFY
    case DestroyHandler => DESTROY_NOTIFY
    case ButtonPressHandler => BUTTON_PRESS
    case ButtonReleaseHandler => BUTTON_RELEASE
    case MotionNotifyHandler => MOTION_NOTIFY
  }

  /** The slot `key` of the table that start-up fills, with or without mouse support. */
  function HandlerFor(key: int, mouse: bool): (r: Option<Handler>)
    ensures r.Some? ==> key == EventCode(r.value) && (mouse || !r.value.NeedsMouse())
  {
    if key == MAP_NOTIFY then Some(MapHandler)
    else if key == CREATE_NOTIFY then Some(CreateHandler)
    else if key == CONFIGURE_NOTIFY then Some(ConfigureHandler)
    else if key == DESTROY_NOTIFY then Some(DestroyHandler)
    else if mouse && key == BUTTON_PRESS then Some(ButtonPressHandler)
    else if mouse && key == BUTTON_RELEASE then Some(ButtonReleaseHandler)
    else if mouse && key == MOTION_NOTIFY then Some(MotionNotifyHandler)
    else None
  }

  /** The table holds each enabled handler exactly at its own event code and
      nothing anywhere else. */
  lemma TableIsInverseOfEventCode(key: int, mouse: bool, h: Handler)
    ensures HandlerFor(key, mouse) == Some(h) <==> key == EventCode(h) && (mouse || !h.NeedsMouse())
  {
  }

  /** Enter-notify events (sloppy focus) have no handler in the built table. */
  lemma EnterNotifyUnhandled(mouse: bool)
    ensures HandlerFor(ENTER_NOTIFY, mouse) == None
  {
  }

  /** Start-up: clear every slot, then register the handlers. */
  method BuildEventTable(mouse: bool) returns (events: array<Option<Handler>>)
    ensures events.Length == NO_OPERATION
    ensures forall key :: 0 <= key < NO_OPERATION ==> events[key] == HandlerFor(key, mouse)
  {
    events := new Option<Handler>[NO_OPERATION];
    for i := 0 to NO_OPERATION
      invariant forall key :: 0 <= key < i ==> events[key] == None
    {
      events[i] := None;
    }
    events[MAP_NOTIFY] := Some(MapHandler);
    events[CREATE_NOTIFY] := Some(CreateHandler);
    events[CONFIGURE_NOTIFY] := Some(ConfigureHandler);
    events[DESTROY_NOTIFY] := Some(DestroyHandler);
    if mouse {
      events[BUTTON_PRESS] := Some(ButtonPressHandler);
      events[BUTTON_RELEASE] := Some(ButtonReleaseHandler);
      events[MOTION_NOTIFY] := Some(MotionNotifyHandler);
    }
  }

  /** The table index of an event: its response type with the synthetic-event
      bit 0x80 cleared. */
  function DispatchKey(responseType: bv8): (key: bv8)
    ensures key as int == responseType as int % 0x80
  {
    responseType & !0x80
  }

  /** Events sent by a client (bit 0x80 set) reach the same slot as the
      server's own. */
  lemma DispatchKeyIgnoresSyntheticBit(responseType: bv8)
    ensures DispatchKey(responseType | 0x80) == DispatchKey(responseType)
  {
  }

  /** The key can be 127, one past the last slot: exactly for response types
      127 and 255. */
  lemma DispatchKeyOutOfTable(responseType: bv8)
    ensures DispatchKey(responseType) as int >= NO_OPERATION <==> responseType == 127 || responseType == 255
  {
  }
}
