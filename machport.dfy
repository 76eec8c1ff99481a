/**
 * The event-tap vocabulary shared by the remapping engine: event types, modifier
 * flags, the in-flight `MachPortEvent` and the `MachPortEventController` through
 * which synthetic events are injected. The MachPort library itself is not part
 * of this model; its injection primitive is modelled as an append-only trace.
 */
module MachPort {

  /** The `CGEventType`s the engine distinguishes; every other type is `OtherType`. */
  datatype CGEventType = KeyDown | KeyUp | FlagsChanged | OtherType

  /**
   * Modifier keys that a trigger can assert. The source's `ModifierKey` enum and its
   * `cgEventFlags`/`key` properties live in a file that is not part of this model.
   */
  datatype ModifierKey =
    | LeftShift | RightShift | LeftControl | RightControl
    | LeftOption | RightOption | LeftCommand | RightCommand
    | Function | CapsLock

  /**
   * One bit of a `CGEventFlags` mask: `.maskNonCoalesced`, the mask of a modifier key
   * (kept symbolic, one per modifier) or any other bit an event may carry.
   */
  datatype Flag = NonCoalesced | ModifierMask(key: ModifierKey) | OtherBit(bit: nat)

  /** A `CGEventFlags` value: the set of bits that are on. */
  type Flags = set<Flag>

  /** `CGEventFlags.maskNonCoalesced`, the neutral mask every synthetic event carries. */
  const MaskNonCoalesced: Flags := {NonCoalesced}

  /** `ModifierKey.cgEventFlags`. */
  function FlagOf(m: ModifierKey): Flag {
    ModifierMask(m)
  }

  /** `ModifierKey.key`: the virtual key code of the modifier key itself. */
  function ModifierKeyCode(m: ModifierKey): int {
    match m
    case LeftShift => 56
    case RightShift => 60
    case LeftControl => 59
    case RightControl => 62
    case LeftOption => 58
    case RightOption => 61
    case LeftCommand => 55
    case RightCommand => 54
    case Function => 63
    case CapsLock => 57
  }

  /** A synthetic event handed to the injection primitive. */
  datatype Posted =
    | Synthetic(keyCode: int, eventType: CGEventType, flags: Flags)  // post(_:type:flags:)
    | FlagsOnly(flags: Flags)                                    // post(_ flags:)
    | Reposted(event: EventView)                                 // post(_ machPortEvent:)

  /** A snapshot of a `MachPortEvent`'s fields. */
  datatype EventView = EventView(
    keyCode: int,
    flags: Flags,
    eventType: CGEventType,
    delivered: bool,
    tapType: CGEventType,
    isRepeat: bool)

  /**
   * The in-flight event of one event-tap callback. `keyCode`, `flags` and `eventType`
   * are the fields of the underlying `CGEvent`; `delivered` stands for the delivery
   * slot `result`: true while it still holds the event, false once it is nil (the
   * event is then swallowed). `tapType` is the source's `machPortEvent.type`, the type the tap reported when it created
   * the event; `isRepeat` says whether it is an auto-repeat.
   */
  class MachPortEvent {
    var keyCode: int
    var flags: Flags
    var eventType: CGEventType
    var delivered: bool
    const tapType: CGEventType
    const isRepeat: bool

    constructor (keyCode: int, flags: Flags, tapType: CGEventType, isRepeat: bool)
      ensures View() == EventView(keyCode, flags, tapType, true, tapType, isRepeat)
    {
      this.keyCode := keyCode;
      this.flags := flags;
      this.eventType := tapType;
      this.delivered := true;
      this.tapType := tapType;
      this.isRepeat := isRepeat;
    }

    function View(): EventView
      reads this
    {
      EventView(keyCode, flags, eventType, delivered, tapType, isRepeat)
    }

    /**
     * `MachPortEvent.set(_:type:)`: rewrites the key code and type of the delivered
     * event; does nothing once the event has been swallowed.
     */
    method Set(newKeyCode: int, newType: CGEventType)
      modifies this
      ensures View() == SetResult(old(View()), newKeyCode, newType)
    {
      if delivered {
        keyCode := newKeyCode;
        eventType := newType;
      }
    }
  }

  /** What `MachPortEvent.set(_:type:)` leaves of an event. */
  function SetResult(ev: EventView, keyCode: int, eventType: CGEventType): (r: EventView)
    ensures r.delivered == ev.delivered && r.flags == ev.flags && r.isRepeat == ev.isRepeat && r.tapType == ev.tapType
    ensures ev.delivered ==> r.keyCode == keyCode && r.eventType == eventType
    ensures !ev.delivered ==> r == ev
  {
    if ev.delivered then ev.(keyCode := keyCode, eventType := eventType) else ev
  }

  /**
   * The injection side of `MachPortEventController`: every post appends to `posted`.
   * Injection failures, which the engine swallows with `try?`, are not modelled.
   */
  class MachPortEventController {
    var posted: seq<Posted>

    constructor ()
      ensures posted == []
    {
      posted := [];
    }

    method Post(keyCode: int, eventType: CGEventType, flags: Flags)
      modifies this
      ensures posted == old(posted) + [Synthetic(keyCode, eventType, flags)]
    {
      posted := posted + [Synthetic(keyCode, eventType, flags)];
    }

    method PostFlags(flags: Flags)
      modifies this
      ensures posted == old(posted) + [FlagsOnly(flags)]
    {
      posted := posted + [FlagsOnly(flags)];
    }

    method PostEvent(e: MachPortEvent)
      modifies this
      ensures posted == old(posted) + [Reposted(e.View())]
    {
      posted := posted + [Reposted(e.View())];
    }
  }
}
