/** The ad-signaling envelope (version 2) typed in `src/spec/svta2503.d.ts`:
    a slot envelope carries linear slots with their identifiers and tracking
    events, a pod envelope carries pods. */
module Svta {
  import opened Wrappers
  import opened Values

  /** The tracking event types the envelope knows. */
  datatype EventType =
    | Impression | ClickTracking | Error
    | PodEnd | PodStart
    | Loaded | Start | FirstQuartile | Midpoint | ThirdQuartile | Complete
    | Mute | Unmute
    | Pause | Resume
    | Skip | Progress | PlayerCollapse | PlayerExpand

  /** The wire name of an event type. */
  function EventName(e: EventType): string {
    match e
    case Impression => "impression"
    case ClickTracking => "clickTracking"
    case Error => "error"
    case PodEnd => "podEnd"
    case PodStart => "podStart"
    case Loaded => "loaded"
    case Start => "start"
    case FirstQuartile => "firstQuartile"
    case Midpoint => "midpoint"
    case ThirdQuartile => "thirdQuartile"
    case Complete => "complete"
    case Mute => "mute"
    case Unmute => "unmute"
    case Pause => "pause"
    case Resume => "resume"
    case Skip => "skip"
    case Progress => "progress"
    case PlayerCollapse => "playerCollapse"
    case PlayerExpand => "playerExpand"
  }

  datatype TrackingEvent = TrackingEvent(eventType: EventType, offset: Option<Num>, urls: seq<string>)

  datatype AdIdentifier = AdIdentifier(scheme: string, value: string)

  /** A `linear` slot. */
  datatype Slot = Slot(start: Num, duration: Num, identifiers: seq<AdIdentifier>, tracking: seq<TrackingEvent>)

  datatype Pod = Pod(start: Option<Num>, duration: Num, slots: Option<seq<Slot>>, tracking: seq<TrackingEvent>)

  /** The payload of an envelope: `type: "slot"` or `type: "pod"`. */
  datatype Payload = SlotPayload(slots: seq<Slot>) | PodPayload(pods: seq<Pod>)

  datatype Envelope = Envelope(version: int, payload: Payload)
}
