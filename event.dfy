/**
 * Events (src/events/event.cc): a type, a subtype and the payload fields of
 * the event kinds that travel through the queue.
 *
 * Numbering: event types are UNDEF 0, NETWORK 1, STATE 2, OBJECT 3,
 * SDL_INPUT 4, SDL_WINDOW 5; subtypes are numbered in the order the label
 * switch lists them. The enum in src/events/event.hh predates these codes
 * (it lacks most of them and numbers STATE_RUN_START 4, STATE_RUN_PAUSE 5 and
 * OBJECT_UPDATE 8), so it is not followed. The two counts that bound the
 * valid codes are abstract.
 */
module Events {
  import opened Bytes
  import opened Wrappers

  type EventType = Byte
  type EventSubType = uint16

  const UNDEF_EVENT: EventType := 0
  const NETWORK_EVENT: EventType := 1
  const STATE_EVENT: EventType := 2
  const OBJECT_EVENT: EventType := 3
  const SDL_INPUT_EVENT: EventType := 4
  const SDL_WINDOW_EVENT: EventType := 5

  /** One past the largest valid type code; its value is not fixed by the model. */
  const EVENT_TYPE_COUNT: EventType

  const UNDEF_SUB_EVENT: EventSubType := 0
  const NETWORK_JOIN: EventSubType := 1
  const NETWORK_PART: EventSubType := 2
  const NETWORK_DATA_IN: EventSubType := 3
  const NETWORK_PING: EventSubType := 4
  const NETWORK_PONG: EventSubType := 5
  const STATE_RUN_START: EventSubType := 6
  const STATE_RUN_PAUSE: EventSubType := 7
  const OBJECT_CREATE: EventSubType := 8
  const OBJECT_DESTROY: EventSubType := 9
  const OBJECT_UPDATE: EventSubType := 10
  const OBJECT_PARENT_ADD: EventSubType := 11
  const OBJECT_PARENT_REMOVE: EventSubType := 12
  const OBJECT_CHILD_ADD: EventSubType := 13
  const OBJECT_CHILD_REMOVE: EventSubType := 14
  const SDL_MOUSE_DOWN: EventSubType := 15
  const SDL_MOUSE_UP: EventSubType := 16
  const SDL_MOUSE_MOVE: EventSubType := 17
  const SDL_MOUSE_WHEEL: EventSubType := 18
  const SDL_KEY_DOWN: EventSubType := 19
  const SDL_KEY_UP: EventSubType := 20
  const SDL_TEXT_INPUT: EventSubType := 21
  const SDL_TEXT_EDITING: EventSubType := 22
  const SDL_JOYSTICK_INPUT: EventSubType := 23
  const SDL_WINDOW_RESIZE: EventSubType := 24
  const SDL_WINDOW_FOCUS_CHANGE: EventSubType := 25

  /** One past the largest valid subtype code; its value is not fixed by the model. */
  const EVENT_SUB_TYPE_COUNT: EventSubType

  /**
   * An event. The source derives one struct per kind from `Event`; the model
   * keeps one record with the union of their fields: `clientId` (join, part,
   * data-in), `data` (data-in, object create, object update), `objectType`
   * (object create) and `objectId` (object destroy, object update).
   */
  datatype Event = Event(
    eventType: EventType,
    subType: EventSubType,
    clientId: uint32,
    objectType: Byte,
    objectId: uint32,
    data: seq<Byte>)

  /** `Event()`: type UNDEF_EVENT and subtype UNDEF_SUB_EVENT; the payload fields are empty. */
  function NewEvent(): (e: Event)
    ensures e.eventType == UNDEF_EVENT && e.subType == UNDEF_SUB_EVENT
  {
    Event(UNDEF_EVENT, UNDEF_SUB_EVENT, 0, 0, 0, [])
  }

  /** An event of the given type and subtype, the rest as `Event()` leaves it. */
  function TypedEvent(t: EventType, st: EventSubType): (e: Event)
    ensures e.eventType == t && e.subType == st
    ensures e.(eventType := UNDEF_EVENT, subType := UNDEF_SUB_EVENT) == NewEvent()
  {
    NewEvent().(eventType := t, subType := st)
  }

  const UNKNOWN_EVENT_LABEL: string := "Unknown Event"
  const UNKNOWN_SUB_EVENT_LABEL: string := "Unknown Sub Event"

  /** The fixed labels of the listed event types. */
  const TYPE_LABELS: seq<string> := [
    "Undefined Event", "Network Event", "State Event", "Object Event",
    "SDL Input Event", "SDL Window Event"]

  /** The fixed labels of the listed subtypes, indexed by subtype code. */
  const SUB_TYPE_LABELS: seq<string> := [
    "Undefined Sub Event",
    "Network Join", "Network Part", "Network Data In", "Network Ping", "Network Pong",
    "State Run Start", "State Run Pause",
    "Object Create", "Object Destroy", "Object Update", "Object Parent Add",
    "Object Parent Remove", "Object Child Add", "Object Child Remove",
    "SDL Mouse Down", "SDL Mouse Up", "SDL Mouse Move", "SDL Mouse Wheel",
    "SDL Key Down", "SDL Key Up", "SDL Text Input", "SDL Text Editing",
    "SDL Joystick Input",
    "SDL Window Resize", "SDL Window Focus Change"]

  /** `EventTypeToStr`: the switch over the six listed types, "Unknown Event" otherwise. */
  function EventTypeToStr(t: EventType): (s: string)
    ensures s != []
  {
    if t == UNDEF_EVENT then "Undefined Event"
    else if t == NETWORK_EVENT then "Network Event"
    else if t == STATE_EVENT then "State Event"
    else if t == OBJECT_EVENT then "Object Event"
    else if t == SDL_INPUT_EVENT then "SDL Input Event"
    else if t == SDL_WINDOW_EVENT then "SDL Window Event"
    else UNKNOWN_EVENT_LABEL
  }

  /** `EventSubTypeToStr`: the switch over the listed subtypes, "Unknown Sub Event" otherwise. */
  function EventSubTypeToStr(st: EventSubType): (s: string)
    ensures s != []
  {
    match st
    case 0 => "Undefined Sub Event"
    case 1 => "Network Join"
    case 2 => "Network Part"
    case 3 => "Network Data In"
    case 4 => "Network Ping"
    case 5 => "Network Pong"
    case 6 => "State Run Start"
    case 7 => "State Run Pause"
    case 8 => "Object Create"
    case 9 => "Object Destroy"
    case 10 => "Object Update"
    case 11 => "Object Parent Add"
    case 12 => "Object Parent Remove"
    case 13 => "Object Child Add"
    case 14 => "Object Child Remove"
    case 15 => "SDL Mouse Down"
    case 16 => "SDL Mouse Up"
    case 17 => "SDL Mouse Move"
    case 18 => "SDL Mouse Wheel"
    case 19 => "SDL Key Down"
    case 20 => "SDL Key Up"
    case 21 => "SDL Text Input"
    case 22 => "SDL Text Editing"
    case 23 => "SDL Joystick Input"
    case 24 => "SDL Window Resize"
    case 25 => "SDL Window Focus Change"
    case _ => UNKNOWN_SUB_EVENT_LABEL
  }

  /** Reads a type back from its label; the unknown label reads as nothing. */
  function EventTypeFromStr(s: string): Option<EventType>
  {
    if s == "Undefined Event" then Some(UNDEF_EVENT)
    else if s == "Network Event" then Some(NETWORK_EVENT)
    else if s == "State Event" then Some(STATE_EVENT)
    else if s == "Object Event" then Some(OBJECT_EVENT)
    else if s == "SDL Input Event" then Some(SDL_INPUT_EVENT)
    else if s == "SDL Window Event" then Some(SDL_WINDOW_EVENT)
    else None
  }

  /** Reads a subtype back from its label; the unknown label reads as nothing. */
  function EventSubTypeFromStr(s: string): Option<EventSubType>
  {
    if s == "Undefined Sub Event" then Some(0)
    else if s == "Network Join" then Some(1)
    else if s == "Network Part" then Some(2)
    else if s == "Network Data In" then Some(3)
    else if s == "Network Ping" then Some(4)
    else if s == "Network Pong" then Some(5)
    else if s == "State Run Start" then Some(6)
    else if s == "State Run Pause" then Some(7)
    else if s == "Object Create" then Some(8)
    else if s == "Object Destroy" then Some(9)
    else if s == "Object Update" then Some(10)
    else if s == "Object Parent Add" then Some(11)
    else if s == "Object Parent Remove" then Some(12)
    else if s == "Object Child Add" then Some(13)
    else if s == "Object Child Remove" then Some(14)
    else if s == "SDL Mouse Down" then Some(15)
    else if s == "SDL Mouse Up" then Some(16)
    else if s == "SDL Mouse Move" then Some(17)
    else if s == "SDL Mouse Wheel" then Some(18)
    else if s == "SDL Key Down" then Some(19)
    else if s == "SDL Key Up" then Some(20)
    else if s == "SDL Text Input" then Some(21)
    else if s == "SDL Text Editing" then Some(22)
    else if s == "SDL Joystick Input" then Some(23)
    else if s == "SDL Window Resize" then Some(24)
    else if s == "SDL Window Focus Change" then Some(25)
    else None
  }

  /**
   * The type label is the table entry for the six listed types and
   * "Unknown Event" for every other value; reading a label back recovers a
   * listed type and yields nothing for an unlisted one.
   */
  lemma EventTypeLabels(t: EventType)
    ensures t < |TYPE_LABELS| ==> EventTypeToStr(t) == TYPE_LABELS[t]
    ensures t >= |TYPE_LABELS| ==> EventTypeToStr(t) == UNKNOWN_EVENT_LABEL
    ensures EventTypeFromStr(EventTypeToStr(t)) == if t < |TYPE_LABELS| then Some(t) else None
  {
  }

  /** The same for subtypes: table entry, "Unknown Sub Event" otherwise, and invertible. */
  lemma EventSubTypeLabels(st: EventSubType)
    ensures st < |SUB_TYPE_LABELS| ==> EventSubTypeToStr(st) == SUB_TYPE_LABELS[st]
    ensures st >= |SUB_TYPE_LABELS| ==> EventSubTypeToStr(st) == UNKNOWN_SUB_EVENT_LABEL
    ensures EventSubTypeFromStr(EventSubTypeToStr(st)) == if st < |SUB_TYPE_LABELS| then Some(st) else None
  {
    if st < 7 {
      NetworkLabels(st);
    } else if st < 13 {
      ObjectLabels(st);
    } else if st < 20 {
      InputLabels(st);
    } else {
      LastLabels(st);
    }
  }

  /** What EventSubTypeLabels states, for one subtype. */
  predicate SubTypeLabelled(st: EventSubType)
  {
    (st < |SUB_TYPE_LABELS| ==> EventSubTypeToStr(st) == SUB_TYPE_LABELS[st])
    && (st >= |SUB_TYPE_LABELS| ==> EventSubTypeToStr(st) == UNKNOWN_SUB_EVENT_LABEL)
    && EventSubTypeFromStr(EventSubTypeToStr(st)) == if st < |SUB_TYPE_LABELS| then Some(st) else None
  }

  /** The labels of subtypes 0 to 6: undefined, network and the first state subtype. */
  lemma NetworkLabels(st: EventSubType)
    requires st < 7
    ensures SubTypeLabelled(st)
  {
  }

  /** The labels of subtypes 7 to 12: run pause and the first object subtypes. */
  lemma ObjectLabels(st: EventSubType)
    requires 7 <= st < 13
    ensures SubTypeLabelled(st)
  {
  }

  /** The labels of subtypes 13 to 19: the child subtypes, mouse and key down. */
  lemma InputLabels(st: EventSubType)
    requires 13 <= st < 20
    ensures SubTypeLabelled(st)
  {
  }

  /** The labels of subtypes 20 to 25 and of every unlisted value. */
  lemma LastLabels(st: EventSubType)
    requires 20 <= st
    ensures SubTypeLabelled(st)
  {
  }
}
