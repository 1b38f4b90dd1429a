/**
 * The mock WebSocket client: validates its URL, registers itself with the
 * registry, settles one turn later (OPEN when a link exists, CLOSED
 * otherwise), and implements `send`, `close` and the single-slot `on*`
 * handler properties.
 */
module SocketOverride {
  import opened Wrappers
  import opened Events
  import opened SocketStorage

  const CONNECTING: int := 0
  const OPEN: int := 1
  const CLOSING: int := 2
  const CLOSED: int := 3

  type ReadyState = s: int | CONNECTING <= s <= CLOSED

  /** The parts of a parsed `URL` the client reads: `protocol`, `hash` and the serialisation. */
  datatype UrlRecord = UrlRecord(protocol: string, hash: string, href: string)

  datatype SocketError =
    | InvalidUrl                          // `new URL(url)` threw
    | BadScheme(protocol: string)         // the scheme is neither `ws:` nor `wss:`
    | FragmentNotAllowed(hash: string)    // the URL has a non-empty fragment
    | InvalidStateError                   // `send` while CONNECTING
    | InvalidAccessError                  // `close` with a code outside the allowed range

  /** What `send` accepts: a string, a `Blob`, or an `ArrayBuffer`/view. */
  datatype SendData = Text(text: string) | BlobData(size: nat) | BufferData(byteLength: nat)

  /** The callback the constructor leaves for the next turn of the scheduler. */
  datatype Settle = OpenLinked | CloseUnlinked

  predicate IsSocketScheme(protocol: string) {
    protocol == "wss:" || protocol == "ws:"
  }

  /**
   * The constructor's checks, in the order it makes them: the URL must
   * parse, its scheme must be `ws:` or `wss:`, and its fragment must be
   * empty. On success, the serialised URL.
   */
  function CheckUrl(record: Option<UrlRecord>): (r: Result<string, SocketError>)
    ensures r.Success? <==> record.Some? && IsSocketScheme(record.value.protocol) && record.value.hash == ""
    ensures r.Success? ==> r.value == record.value.href
    ensures record.None? ==> r == Failure(InvalidUrl)
    ensures record.Some? && !IsSocketScheme(record.value.protocol) ==> r == Failure(BadScheme(record.value.protocol))
    ensures record.Some? && IsSocketScheme(record.value.protocol) && record.value.hash != ""
         ==> r == Failure(FragmentNotAllowed(record.value.hash))
  {
    match record
    case None => Failure(InvalidUrl)
    case Some(u) =>
      if !IsSocketScheme(u.protocol) then Failure(BadScheme(u.protocol))
      else if u.hash != "" then Failure(FragmentNotAllowed(u.hash))
      else Success(u.href)
  }

  /** `if (!link)`: `find` yields the matching string, and the empty string is falsy. */
  predicate IsLinked(link: Option<string>): (linked: bool)
    ensures linked ==> link.Some?
    ensures link == Some("") ==> !linked
    ensures link.Some? && |link.value| > 0 ==> linked
  {
    link.Some? && link.value != ""
  }

  /** `getDataLength`: string length, `Blob` size, or `byteLength`. */
  function GetDataLength(data: SendData): (n: nat)
    ensures data.Text? ==> n == |data.text|
    ensures data.BlobData? ==> n == data.size
    ensures data.BufferData? ==> n == data.byteLength
  {
    match data
    case Text(s) => |s|
    case BlobData(size) => size
    case BufferData(byteLength) => byteLength
  }

  /** `close`'s guard `!code || !(code === 1000 || (code >= 3000 && code < 5000))`, negated. */
  function ValidCloseCode(code: int): (ok: bool)
    ensures ok <==> code == 1000 || 3000 <= code < 5000
  {
    !(code == 0 || !(code == 1000 || (code >= 3000 && code < 5000)))
  }

  /**
   * The listener set after `attachEventListener(kind, next)` when the slot
   * held `previous`: the old slot listener is removed, the new one added.
   */
  function SwapSlot(listeners: set<(EventType, ListenerId)>, kind: EventType,
                    previous: Option<ListenerId>, next: Option<ListenerId>): (r: set<(EventType, ListenerId)>)
    ensures next.Some? ==> (kind, next.value) in r
    ensures previous.Some? && previous != next ==> (kind, previous.value) !in r
    ensures forall p :: p in listeners && p.0 != kind ==> p in r
    ensures forall p :: p in listeners && p.0 == kind && Some(p.1) != previous ==> p in r
    ensures forall p :: p in r ==> p in listeners || (p.0 == kind && Some(p.1) == next)
  {
    var kept := if previous.Some? then listeners - {(kind, previous.value)} else listeners;
    if next.Some? then kept + {(kind, next.value)} else kept
  }

  class WebSocketOverride {
    /** The registry this client registers with (a process-wide singleton in the source). */
    const storage: WebSocketStorage
    /** The `EventTarget` this client extends: its listeners and the events dispatched to it. */
    const target: EventTarget
    const url: string
    const protocol: string
    const extensions: string
    var readyState: ReadyState
    var bufferedAmount: nat
    /** The single-slot `on*` handlers: `_onopen`, `_onclose`, `_onmessage`, `_onerror`. */
    var handlers: map<EventType, ListenerId>
    /** The deferred settle step, until the scheduler runs it. */
    var pending: Option<Settle>

    /**
     * The constructor after validation: register under the serialised URL,
     * then look the RAW url up among the links to choose the settle step.
     */
    constructor (storage: WebSocketStorage, rawUrl: string, href: string)
      modifies storage`sockets
      ensures this.storage == storage && url == href
      ensures readyState == CONNECTING && bufferedAmount == 0 && handlers == map[]
      ensures protocol == "" && extensions == ""
      ensures fresh(target) && target.listeners == {} && target.dispatched == []
      ensures storage.sockets == old(storage.sockets) + [(href, target)]
      ensures storage.links == old(storage.links)
      ensures pending == Some(if IsLinked(storage.LookupLink(rawUrl)) then OpenLinked else CloseUnlinked)
    {
      this.storage := storage;
      target := new EventTarget();
      url := href;
      protocol := "";
      extensions := "";
      readyState := CONNECTING;
      bufferedAmount := 0;
      handlers := map[];
      pending := None;
      new;
      storage.AddSocket(target, url);
      var link := storage.LookupLink(rawUrl);
      pending := Some(if IsLinked(link) then OpenLinked else CloseUnlinked);
    }

    /**
     * `new WebSocket(url)`: throws, with the registry untouched, when the URL
     * is rejected; otherwise a CONNECTING client registered under its
     * serialised URL whether or not a link exists.
     */
    static method Create(storage: WebSocketStorage, rawUrl: string, record: Option<UrlRecord>)
      returns (r: Result<WebSocketOverride, SocketError>)
      modifies storage`sockets
      ensures r.Failure? <==> CheckUrl(record).Failure?
      ensures r.Failure? ==> r.error == CheckUrl(record).error && storage.sockets == old(storage.sockets)
      ensures r.Success? ==>
        && fresh(r.value) && fresh(r.value.target)
        && r.value.storage == storage
        && r.value.url == record.value.href
        && r.value.readyState == CONNECTING && r.value.bufferedAmount == 0
        && r.value.protocol == "" && r.value.extensions == ""
        && r.value.handlers == map[] && r.value.target.listeners == {} && r.value.target.dispatched == []
        && storage.sockets == old(storage.sockets) + [(r.value.url, r.value.target)]
        && r.value.pending == Some(if IsLinked(storage.LookupLink(rawUrl)) then OpenLinked else CloseUnlinked)
    {
      var checked := CheckUrl(record);
      if checked.Failure? {
        return Failure(checked.error);
      }
      var socket := new WebSocketOverride(storage, rawUrl, checked.value);
      return Success(socket);
    }

    /**
     * Runs the deferred settle step, if one is pending. It does not look at
     * the current state: without a link it moves to CLOSED, unregisters and
     * dispatches a close event with code 1000; with a link it moves to OPEN
     * and dispatches an open event.
     */
    method RunPending()
      modifies this`readyState, this`pending, target`dispatched, storage`sockets
      ensures pending == None
      ensures old(pending) == None ==>
        && readyState == old(readyState)
        && target.dispatched == old(target.dispatched)
        && storage.sockets == old(storage.sockets)
      ensures old(pending) == Some(CloseUnlinked) ==>
        && readyState == CLOSED
        && storage.sockets == Without(old(storage.sockets), target, url)
        && target.dispatched == old(target.dispatched) + [CloseEvent(1000, None)]
      ensures old(pending) == Some(OpenLinked) ==>
        && readyState == OPEN
        && storage.sockets == old(storage.sockets)
        && target.dispatched == old(target.dispatched) + [OpenEvent]
    {
      match pending {
        case None =>
        case Some(CloseUnlinked) =>
          readyState := CLOSED;
          storage.RemoveSocket(target, url);
          target.DispatchEvent(CloseEvent(1000, None));
        case Some(OpenLinked) =>
          readyState := OPEN;
          target.DispatchEvent(OpenEvent);
      }
      pending := None;
    }

    /** The value of the `on<kind>` property. */
    function Handler(kind: EventType): (h: Option<ListenerId>)
      reads this`handlers
      ensures h.Some? <==> kind in handlers
      ensures h.Some? ==> h.value == handlers[kind]
    {
      if kind in handlers then Some(handlers[kind]) else None
    }

    /**
     * Sets the `on<kind>` property: the listener the slot held is removed,
     * the new one (if any) is added and remembered. Other slots and the
     * listeners of other types are left alone.
     */
    method AttachEventListener(kind: EventType, listener: Option<ListenerId>)
      modifies this`handlers, target`listeners
      ensures Handler(kind) == listener
      ensures forall k :: k != kind ==> Handler(k) == old(Handler(k))
      ensures target.listeners == SwapSlot(old(target.listeners), kind, old(Handler(kind)), listener)
    {
      if kind in handlers {
        target.RemoveEventListener(kind, handlers[kind]);
        handlers := handlers - {kind};
      }
      if listener.Some? {
        target.AddEventListener(kind, listener.value);
        handlers := handlers[kind := listener.value];
      }
    }

    /**
     * `send(data)`: while CONNECTING it unregisters this client and throws
     * InvalidStateError; while CLOSING or CLOSED it adds the data's length to
     * `bufferedAmount`; while OPEN it does nothing.
     */
    method Send(data: SendData) returns (r: Outcome<SocketError>)
      modifies this`bufferedAmount, storage`sockets
      ensures readyState == CONNECTING ==>
        && r == Fail(InvalidStateError)
        && bufferedAmount == old(bufferedAmount)
        && storage.sockets == Without(old(storage.sockets), target, url)
      ensures (readyState == CLOSING || readyState == CLOSED) ==>
        && r == Pass
        && bufferedAmount == old(bufferedAmount) + GetDataLength(data)
        && storage.sockets == old(storage.sockets)
      ensures readyState == OPEN ==>
        && r == Pass
        && bufferedAmount == old(bufferedAmount)
        && storage.sockets == old(storage.sockets)
    {
      if readyState == CONNECTING {
        storage.RemoveSocket(target, url);
        return Fail(InvalidStateError);
      }
      if readyState == CLOSING || readyState == CLOSED {
        bufferedAmount := bufferedAmount + GetDataLength(data);
        return Pass;
      }
      return Pass;
    }

    /**
     * `close(code = 1000, reason)`: an invalid code throws InvalidAccessError
     * in every state; a valid one is a no-op while CLOSING or CLOSED, and
     * otherwise moves to CLOSING, unregisters and dispatches one close event.
     */
    method Close(code: Option<int>, reason: Option<string>) returns (r: Outcome<SocketError>)
      modifies this`readyState, target`dispatched, storage`sockets
      ensures !ValidCloseCode(code.GetOr(1000)) ==>
        && r == Fail(InvalidAccessError)
        && readyState == old(readyState)
        && target.dispatched == old(target.dispatched)
        && storage.sockets == old(storage.sockets)
      ensures ValidCloseCode(code.GetOr(1000)) && old(readyState) >= CLOSING ==>
        && r == Pass
        && readyState == old(readyState)
        && target.dispatched == old(target.dispatched)
        && storage.sockets == old(storage.sockets)
      ensures ValidCloseCode(code.GetOr(1000)) && old(readyState) <= OPEN ==>
        && r == Pass
        && readyState == CLOSING
        && storage.sockets == Without(old(storage.sockets), target, url)
        && target.dispatched == old(target.dispatched) + [CloseEvent(code.GetOr(1000), reason)]
    {
      var c := code.GetOr(1000);
      if !ValidCloseCode(c) {
        return Fail(InvalidAccessError);
      }
      if readyState == CLOSING || readyState == CLOSED {
        return Pass;
      }
      readyState := CLOSING;
      storage.RemoveSocket(target, url);
      target.DispatchEvent(CloseEvent(c, reason));
      return Pass;
    }
  }
}
