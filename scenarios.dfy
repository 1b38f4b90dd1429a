/**
 * Sequences of calls on the mock client and the registry, with what the
 * client code guarantees about each sequence as a whole.
 */
module Scenarios {
  import opened Wrappers
  import opened Events
  import opened SocketStorage
  import opened SocketOverride

  /**
   * Two `close` calls with a valid code dispatch at most one close event and
   * unregister the client once; from CLOSING or CLOSED neither does anything.
   */
  method CloseTwice(s: WebSocketOverride, code: int, reason: Option<string>)
    requires ValidCloseCode(code)
    modifies s`readyState, s.target`dispatched, s.storage`sockets
    ensures old(s.readyState) <= OPEN ==>
      && s.readyState == CLOSING
      && s.target.dispatched == old(s.target.dispatched) + [CloseEvent(code, reason)]
      && s.storage.sockets == Without(old(s.storage.sockets), s.target, s.url)
    ensures old(s.readyState) >= CLOSING ==>
      && s.readyState == old(s.readyState)
      && s.target.dispatched == old(s.target.dispatched)
      && s.storage.sockets == old(s.storage.sockets)
  {
    var first := s.Close(Some(code), reason);
    var second := s.Close(Some(code), reason);
  }

  /**
   * A failed `send` while CONNECTING unregisters the client but leaves it
   * CONNECTING, so a later `close()` is not a no-op: it still moves to
   * CLOSING and dispatches a close event, and unregistering again changes
   * nothing.
   */
  method SendWhileConnectingThenClose(s: WebSocketOverride, data: SendData)
    returns (sent: Outcome<SocketError>, closed: Outcome<SocketError>)
    requires s.readyState == CONNECTING
    modifies s`readyState, s`bufferedAmount, s.target`dispatched, s.storage`sockets
    ensures sent == Fail(InvalidStateError) && closed == Pass
    ensures s.readyState == CLOSING && s.bufferedAmount == old(s.bufferedAmount)
    ensures s.target.dispatched == old(s.target.dispatched) + [CloseEvent(1000, None)]
    ensures s.storage.sockets == Without(old(s.storage.sockets), s.target, s.url)
  {
    sent := s.Send(data);
    closed := s.Close(None, None);
    WithoutIdempotent(old(s.storage.sockets), s.target, s.url);
  }

  /**
   * After `close`, from any state, `send` never throws and grows
   * `bufferedAmount` by exactly the data's length; the close event is
   * dispatched only when the client was CONNECTING or OPEN.
   */
  method SendAfterClose(s: WebSocketOverride, data: SendData) returns (sent: Outcome<SocketError>)
    modifies s`readyState, s`bufferedAmount, s.target`dispatched, s.storage`sockets
    ensures sent == Pass && s.readyState >= CLOSING
    ensures s.bufferedAmount == old(s.bufferedAmount) + GetDataLength(data)
    ensures old(s.readyState) <= OPEN ==>
      s.target.dispatched == old(s.target.dispatched) + [CloseEvent(1000, None)]
    ensures old(s.readyState) >= CLOSING ==> s.target.dispatched == old(s.target.dispatched)
  {
    var closed := s.Close(None, None);
    sent := s.Send(data);
  }

  /**
   * The settle step ignores the state: closing a client before it settles
   * does not cancel the step. With a link the client goes from CLOSING back
   * to OPEN; without one it receives a second close event.
   */
  method CloseBeforeSettle(s: WebSocketOverride)
    requires s.readyState == CONNECTING && s.pending.Some?
    modifies s`readyState, s`pending, s.target`dispatched, s.storage`sockets
    ensures old(s.pending) == Some(OpenLinked) ==>
      && s.readyState == OPEN
      && s.target.dispatched == old(s.target.dispatched) + [CloseEvent(1000, None), OpenEvent]
    ensures old(s.pending) == Some(CloseUnlinked) ==>
      && s.readyState == CLOSED
      && s.target.dispatched == old(s.target.dispatched) + [CloseEvent(1000, None), CloseEvent(1000, None)]
    ensures s.storage.sockets == Without(old(s.storage.sockets), s.target, s.url)
  {
    assert s.pending.value == OpenLinked || s.pending.value == CloseUnlinked;
    var closed := s.Close(None, None);
    s.RunPending();
    WithoutIdempotent(old(s.storage.sockets), s.target, s.url);
  }

  /**
   * Reassigning an `on<kind>` property leaves only the last listener
   * installed through it; the listeners of other types, and those of the
   * same type that were never in the slot, stay registered.
   */
  method ReassignHandler(s: WebSocketOverride, kind: EventType, first: ListenerId, second: ListenerId)
    modifies s`handlers, s.target`listeners
    ensures s.Handler(kind) == Some(second)
    ensures (kind, second) in s.target.listeners
    ensures first != second ==> (kind, first) !in s.target.listeners
    ensures forall p :: p in old(s.target.listeners) && p.0 != kind ==> p in s.target.listeners
    ensures forall p :: (p in old(s.target.listeners) && p.0 == kind && p.1 != first &&
                         Some(p.1) != old(s.Handler(kind))) ==> p in s.target.listeners
  {
    s.AttachEventListener(kind, Some(first));
    s.AttachEventListener(kind, Some(second));
  }

  /**
   * Two clients constructed against the same URL are registered under it
   * in construction order, after every client registered before them.
   */
  method ConstructTwo(storage: WebSocketStorage, rawUrl: string, record: Option<UrlRecord>)
    returns (a: WebSocketOverride, b: WebSocketOverride)
    requires CheckUrl(record).Success?
    modifies storage`sockets
    ensures a.url == b.url == record.value.href
    ensures fresh(a.target) && fresh(b.target) && a.target != b.target
    ensures a.target.dispatched == [] && b.target.dispatched == []
    ensures storage.LookupSockets(a.url) == old(storage.LookupSockets(record.value.href)) + [a.target, b.target]
  {
    var href := record.value.href;
    ghost var before := storage.sockets;
    var ra := WebSocketOverride.Create(storage, rawUrl, record);
    a := ra.value;
    SocketsForAppend(before, a.target, href, href);
    ghost var middle := storage.sockets;
    var rb := WebSocketOverride.Create(storage, rawUrl, record);
    b := rb.value;
    SocketsForAppend(middle, b.target, href, href);
  }

  /**
   * A dispatch for a URL under which two distinct sockets are each
   * registered once delivers the message exactly once to each of them.
   */
  method DispatchToPair(storage: WebSocketStorage, url: string, x: EventTarget, y: EventTarget, data: Payload)
    requires x != y
    requires multiset(storage.LookupSockets(url))[x] == 1 && multiset(storage.LookupSockets(url))[y] == 1
    modifies storage.Recipients(url)`dispatched
    ensures x.dispatched == old(x.dispatched) + [MessageEventOverride(Message, data)]
    ensures y.dispatched == old(y.dispatched) + [MessageEventOverride(Message, data)]
  {
    assert x in storage.LookupSockets(url) && y in storage.LookupSockets(url);
    ghost var delivered := storage.DispatchGlobalEvent(url, Message, data);
  }

  /** Two distinct sockets appended to a list that holds neither each occur in it once. */
  lemma PairCounts(earlier: seq<EventTarget>, x: EventTarget, y: EventTarget)
    requires x != y && x !in earlier && y !in earlier
    ensures multiset(earlier + [x, y])[x] == 1 && multiset(earlier + [x, y])[y] == 1
  {
  }

  /**
   * One dispatch for a URL delivers the same message exactly once to each
   * of two clients constructed against it.
   */
  method TwoClientsShareDispatch(storage: WebSocketStorage, rawUrl: string, record: Option<UrlRecord>, data: Payload)
    returns (a: WebSocketOverride, b: WebSocketOverride)
    requires CheckUrl(record).Success?
    modifies storage`sockets, storage.Recipients(record.value.href)`dispatched
    ensures a.url == b.url == record.value.href && a.target != b.target
    ensures storage.LookupSockets(a.url) == old(storage.LookupSockets(record.value.href)) + [a.target, b.target]
    ensures a.target.dispatched == [MessageEventOverride(Message, data)]
    ensures b.target.dispatched == [MessageEventOverride(Message, data)]
  {
    ghost var earlier := storage.LookupSockets(record.value.href);
    a, b := ConstructTwo(storage, rawUrl, record);
    PairCounts(earlier, a.target, b.target);
    DispatchToPair(storage, a.url, a.target, b.target, data);
  }
}
