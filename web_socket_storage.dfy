/**
 * The process-wide interception registry: the destinations under mock
 * control (`links`) and the live client registrations (`sockets`), kept in
 * insertion order.
 */
module SocketStorage {
  import opened Wrappers
  import opened Events

  /** A `[url, socket]` entry of the registry. Sockets are compared by identity. */
  type Registration = (string, EventTarget)

  /** `links.find(linkUrl => linkUrl === url)`: the first link equal to `url`, if any. */
  function FindLink(links: seq<string>, url: string): (r: Option<string>)
    ensures r.Some? <==> url in links
    ensures r.Some? ==> r.value == url
  {
    if links == [] then None
    else if links[0] == url then Some(links[0])
    else FindLink(links[1..], url)
  }

  /**
   * The filter of `removeSocket`: an entry stays unless its URL is `url` and
   * its socket is `socket`.
   */
  function Without(regs: seq<Registration>, socket: EventTarget, url: string): (r: seq<Registration>)
    ensures |r| <= |regs|
    ensures forall i :: 0 <= i < |r| ==> r[i] in regs && r[i] != (url, socket)
    ensures forall i :: 0 <= i < |regs| && regs[i] != (url, socket) ==> regs[i] in r
  {
    if regs == [] then []
    else
      var rest := Without(regs[1..], socket, url);
      if regs[0].0 == url && regs[0].1 == socket then rest else [regs[0]] + rest
  }

  /** The filter-and-map of `lookupSockets`: the sockets registered under `url`, in order. */
  function SocketsFor(regs: seq<Registration>, url: string): (r: seq<EventTarget>)
    ensures |r| <= |regs|
    ensures forall i :: 0 <= i < |r| ==> (url, r[i]) in regs
    ensures forall i :: 0 <= i < |regs| && regs[i].0 == url ==> regs[i].1 in r
    ensures (forall i :: 0 <= i < |regs| ==> regs[i].0 != url) ==> r == []
  {
    if regs == [] then []
    else
      var rest := SocketsFor(regs[1..], url);
      if regs[0].0 == url then [regs[0].1] + rest else rest
  }

  /** A socket sequence with every occurrence of `socket` taken out, order kept. */
  function Except(targets: seq<EventTarget>, socket: EventTarget): (r: seq<EventTarget>)
    ensures forall i :: 0 <= i < |r| ==> r[i] in targets && r[i] != socket
    ensures forall i :: 0 <= i < |targets| && targets[i] != socket ==> targets[i] in r
  {
    if targets == [] then []
    else
      var rest := Except(targets[1..], socket);
      if targets[0] == socket then rest else [targets[0]] + rest
  }

  /** Zeroing the count of `p` after adding one `x`. */
  lemma ZeroAfterAdd<T>(m: multiset<T>, x: T, p: T)
    ensures (multiset{x} + m)[p := 0] == if x == p then m[p := 0] else multiset{x} + m[p := 0]
  {
    var lhs := (multiset{x} + m)[p := 0];
    var rhs := if x == p then m[p := 0] else multiset{x} + m[p := 0];
    assert forall y :: lhs[y] == rhs[y];
  }

  /** Taking a socket out commutes with concatenation, so the rest keep their relative order. */
  lemma {:induction false} ExceptAppend(a: seq<EventTarget>, b: seq<EventTarget>, socket: EventTarget)
    ensures Except(a + b, socket) == Except(a, socket) + Except(b, socket)
  {
    if a == [] {
      assert a + b == b;
    } else {
      var ab := a + b;
      assert ab[0] == a[0] && ab[1..] == a[1..] + b;
      ExceptAppend(a[1..], b, socket);
    }
  }

  /** Every occurrence of the socket goes; every other socket keeps its multiplicity. */
  lemma {:induction false} ExceptMultiset(targets: seq<EventTarget>, socket: EventTarget)
    ensures multiset(Except(targets, socket)) == multiset(targets)[socket := 0]
  {
    if targets != [] {
      ExceptMultiset(targets[1..], socket);
      assert multiset(targets) == multiset{targets[0]} + multiset(targets[1..]) by {
        assert targets == [targets[0]] + targets[1..];
      }
      ZeroAfterAdd(multiset(targets[1..]), targets[0], socket);
      var rest := Except(targets[1..], socket);
      if targets[0] != socket {
        assert multiset([targets[0]] + rest) == multiset{targets[0]} + multiset(rest);
      }
    }
  }

  /** `n` copies of one event: what a socket registered `n` times under a URL receives. */
  function Repeat(event: Event, n: nat): (r: seq<Event>)
    ensures |r| == n
    ensures forall i :: 0 <= i < n ==> r[i] == event
  {
    if n == 0 then [] else Repeat(event, n - 1) + [event]
  }

  /** One more element of a prefix adds one occurrence of that element, and no other. */
  lemma CountStep(s: seq<EventTarget>, i: nat, t: EventTarget)
    requires i < |s|
    ensures multiset(s[..i + 1])[t] == multiset(s[..i])[t] + (if s[i] == t then 1 else 0)
  {
    assert s[..i + 1] == s[..i] + [s[i]];
  }

  /** A prefix grows by the element after it. */
  lemma PrefixStep<T>(s: seq<T>, i: nat)
    requires i < |s|
    ensures s[..i + 1] == s[..i] + [s[i]]
  {
  }

  /**
   * One dispatch step: a log holding one copy of the event per occurrence of
   * `t` in the first `i` recipients, extended when recipient `i` is `t`, holds
   * one copy per occurrence in the first `i + 1`.
   */
  lemma DispatchStep(recipients: seq<EventTarget>, i: nat, t: EventTarget, event: Event,
                     start: seq<Event>, before: seq<Event>, after: seq<Event>)
    requires i < |recipients|
    requires before == start + Repeat(event, multiset(recipients[..i])[t])
    requires after == before + (if recipients[i] == t then [event] else [])
    ensures after == start + Repeat(event, multiset(recipients[..i + 1])[t])
  {
    CountStep(recipients, i, t);
  }

  /** Filtering commutes with concatenation, so the survivors keep their relative order. */
  lemma {:induction false} WithoutAppend(a: seq<Registration>, b: seq<Registration>, socket: EventTarget, url: string)
    ensures Without(a + b, socket, url) == Without(a, socket, url) + Without(b, socket, url)
  {
    if a == [] {
      assert a + b == b;
    } else {
      var ab := a + b;
      assert ab[0] == a[0] && ab[1..] == a[1..] + b;
      WithoutAppend(a[1..], b, socket, url);
      if a[0].0 == url && a[0].1 == socket {
        assert Without(ab, socket, url) == Without(a[1..] + b, socket, url);
      } else {
        assert Without(ab, socket, url) == [a[0]] + Without(a[1..] + b, socket, url);
        assert Without(a, socket, url) == [a[0]] + Without(a[1..], socket, url);
      }
    }
  }

  /** Removal counts: each targeted entry disappears, every other entry keeps its multiplicity. */
  lemma {:induction false} WithoutMultiset(regs: seq<Registration>, socket: EventTarget, url: string)
    ensures multiset(Without(regs, socket, url)) == multiset(regs)[(url, socket) := 0]
  {
    if regs != [] {
      WithoutMultiset(regs[1..], socket, url);
      assert multiset(regs) == multiset{regs[0]} + multiset(regs[1..]) by {
        assert regs == [regs[0]] + regs[1..];
      }
      ZeroAfterAdd(multiset(regs[1..]), regs[0], (url, socket));
      var rest := Without(regs[1..], socket, url);
      if regs[0] != (url, socket) {
        assert multiset([regs[0]] + rest) == multiset{regs[0]} + multiset(rest);
      }
    }
  }

  /** An entry that is not registered: removal leaves the registry exactly as it was. */
  lemma {:induction false} WithoutAbsent(regs: seq<Registration>, socket: EventTarget, url: string)
    requires (url, socket) !in regs
    ensures Without(regs, socket, url) == regs
  {
    if regs != [] {
      WithoutAbsent(regs[1..], socket, url);
    }
  }

  /** `removeSocket` is idempotent. */
  lemma {:induction false} WithoutIdempotent(regs: seq<Registration>, socket: EventTarget, url: string)
    ensures Without(Without(regs, socket, url), socket, url) == Without(regs, socket, url)
  {
    WithoutAbsent(Without(regs, socket, url), socket, url);
  }

  /** Removing a registration under `url` leaves the sockets of every other URL, in order. */
  lemma {:induction false} WithoutKeepsOtherUrls(regs: seq<Registration>, socket: EventTarget, url: string, other: string)
    requires other != url
    ensures SocketsFor(Without(regs, socket, url), other) == SocketsFor(regs, other)
  {
    if regs != [] {
      WithoutKeepsOtherUrls(regs[1..], socket, url, other);
      var rest := Without(regs[1..], socket, url);
      if !(regs[0].0 == url && regs[0].1 == socket) {
        assert ([regs[0]] + rest)[1..] == rest;
      }
    }
  }

  /** Removing one socket under `url` keeps its siblings under `url`, in order. */
  lemma {:induction false} WithoutKeepsSiblings(regs: seq<Registration>, socket: EventTarget, url: string)
    ensures SocketsFor(Without(regs, socket, url), url) == Except(SocketsFor(regs, url), socket)
  {
    if regs != [] {
      WithoutKeepsSiblings(regs[1..], socket, url);
      var rest := Without(regs[1..], socket, url);
      var found := SocketsFor(regs[1..], url);
      if regs[0].0 == url {
        assert ([regs[0].1] + found)[1..] == found;
        if regs[0].1 != socket {
          assert ([regs[0]] + rest)[1..] == rest;
        }
      } else {
        assert ([regs[0]] + rest)[1..] == rest;
      }
    }
  }

  /** A new registration goes to the end of its URL's fan-out list; other URLs see nothing. */
  lemma {:induction false} SocketsForAppend(regs: seq<Registration>, socket: EventTarget, url: string, query: string)
    ensures SocketsFor(regs + [(url, socket)], query)
         == SocketsFor(regs, query) + (if url == query then [socket] else [])
  {
    if regs == [] {
      assert [(url, socket)][1..] == [];
    } else {
      assert (regs + [(url, socket)])[1..] == regs[1..] + [(url, socket)];
      SocketsForAppend(regs[1..], socket, url, query);
    }
  }

  class WebSocketStorage {
    var links: seq<string>
    var sockets: seq<Registration>

    constructor ()
      ensures links == [] && sockets == []
    {
      links := [];
      sockets := [];
    }

    /** Appends `url` to the links; duplicates are kept. */
    method AddLink(url: string)
      modifies this`links
      ensures links == old(links) + [url]
    {
      links := links + [url];
    }

    /** Appends the pair `(url, socket)` to the registrations. */
    method AddSocket(socket: EventTarget, url: string)
      modifies this`sockets
      ensures sockets == old(sockets) + [(url, socket)]
    {
      sockets := sockets + [(url, socket)];
    }

    /** Rebuilds the registrations without the pairs `(url, socket)`. */
    method RemoveSocket(socket: EventTarget, url: string)
      modifies this`sockets
      ensures sockets == Without(old(sockets), socket, url)
    {
      sockets := Without(sockets, socket, url);
    }

    /** The link equal to `url`, or none; exact string comparison. */
    function LookupLink(url: string): (r: Option<string>)
      reads this`links
      ensures r.Some? <==> url in links
      ensures r.Some? ==> r.value == url
    {
      FindLink(links, url)
    }

    /** The sockets registered under `url`, in registration order. */
    function LookupSockets(url: string): (r: seq<EventTarget>)
      reads this`sockets
      ensures forall i :: 0 <= i < |r| ==> (url, r[i]) in sockets
      ensures forall i :: 0 <= i < |sockets| && sockets[i].0 == url ==> sockets[i].1 in r
      ensures (forall i :: 0 <= i < |sockets| ==> sockets[i].0 != url) ==> r == []
    {
      SocketsFor(sockets, url)
    }

    /** The sockets `DispatchGlobalEvent` may touch. */
    ghost function Recipients(host: string): (recipients: set<EventTarget>)
      reads this`sockets
    {
      set t | t in LookupSockets(host)
    }

    /**
     * Builds one `MessageEventOverride(kind, data)` and dispatches it to every
     * socket registered under `host`, in registration order; a socket
     * registered `n` times receives it `n` times, and nothing else changes.
     * `delivered` records the recipients in the order they were dispatched to.
     */
    method DispatchGlobalEvent(host: string, kind: EventType, data: Payload) returns (ghost delivered: seq<EventTarget>)
      modifies Recipients(host)`dispatched
      ensures delivered == LookupSockets(host)
      ensures forall t :: t in LookupSockets(host) ==>
        t.dispatched == old(t.dispatched)
          + Repeat(MessageEventOverride(kind, data), multiset(LookupSockets(host))[t])
    {
      var recipients := LookupSockets(host);
      var event := MessageEventOverride(kind, data);
      var i := 0;
      delivered := [];
      while i < |recipients|
        invariant 0 <= i <= |recipients|
        invariant delivered == recipients[..i]
        invariant forall t :: t in recipients ==>
          t.dispatched == old(t.dispatched) + Repeat(event, multiset(recipients[..i])[t])
      {
        var socket := recipients[i];
        label before:
        socket.DispatchEvent(event);
        forall t | t in recipients
          ensures t.dispatched == old(t.dispatched) + Repeat(event, multiset(recipients[..i + 1])[t])
        {
          DispatchStep(recipients, i, t, event, old(t.dispatched), old@before(t.dispatched), t.dispatched);
        }
        PrefixStep(recipients, i);
        delivered := delivered + [socket];
        i := i + 1;
      }
      assert recipients[..i] == recipients;
    }
  }
}
