/**
 * The slice of the DOM event model that the mock WebSocket relies on.
 * An `EventTarget` keeps the set of registered listeners and, in place of
 * invoking them, the log of every event dispatched to it.
 */
module Events {
  import opened Wrappers

  /** The keys of `WebSocketEventMap`. */
  datatype EventType = Open | Close | Message | Error

  /** The identity of a listener callback. */
  type ListenerId = nat

  /** The arbitrary data an interception operator injects. */
  type Payload = string

  datatype Event =
    | OpenEvent
      /** What `createCloseEvent` builds: a `close` event with a code and an optional reason. */
    | CloseEvent(code: int, reason: Option<string>)
      /** `MessageEventOverride`: an event of any WebSocket type carrying a payload. */
    | MessageEventOverride(kind: EventType, data: Payload)

  class EventTarget {
    /** Registered `(type, listener)` pairs; registering the same pair twice has no effect. */
    var listeners: set<(EventType, ListenerId)>
    /** Every event dispatched to this target, oldest first. */
    var dispatched: seq<Event>

    constructor ()
      ensures listeners == {} && dispatched == []
    {
      listeners := {};
      dispatched := [];
    }

    method AddEventListener(kind: EventType, listener: ListenerId)
      modifies this`listeners
      ensures listeners == old(listeners) + {(kind, listener)}
    {
      listeners := listeners + {(kind, listener)};
    }

    method RemoveEventListener(kind: EventType, listener: ListenerId)
      modifies this`listeners
      ensures listeners == old(listeners) - {(kind, listener)}
    {
      listeners := listeners - {(kind, listener)};
    }

    method DispatchEvent(event: Event)
      modifies this`dispatched
      ensures dispatched == old(dispatched) + [event]
    {
      dispatched := dispatched + [event];
    }
  }
}
