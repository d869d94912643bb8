/**
 * The in-process message bus (pkg/bus/bus.go): three bounded FIFO queues and a
 * list of stream subscribers that get filtered, best-effort copies of deltas.
 *
 * Go channels become sequences. A send that would block (a full inbound or
 * outbound queue) and a receive that would block (an empty, open queue with a
 * live context) are preconditions; so are the operations Go turns into a panic
 * (sending on or closing a closed subscriber channel).
 */
module Bus {
  import opened Wrappers

  const InboundCapacity: nat := 100
  const OutboundCapacity: nat := 100
  const StreamCapacity: nat := 500

  datatype InboundMessage = InboundMessage(
    channel: string, senderId: string, chatId: string, content: string,
    media: seq<string>, sessionKey: string, metadata: map<string, string>)

  datatype OutboundMessage = OutboundMessage(channel: string, chatId: string, content: string)

  datatype StreamDelta = StreamDelta(channel: string, chatId: string, delta: string, done: bool)

  /** Stand-in for a registered MessageHandler function value: only its identity matters. */
  datatype Handler = Handler(id: nat)

  /** The zero values a receive on a closed, drained Go channel yields. */
  const ZeroInbound := InboundMessage("", "", "", "", [], "", map[])
  const ZeroOutbound := OutboundMessage("", "", "")
  const ZeroDelta := StreamDelta("", "", "", false)

  /** One offer of `d` to a buffer of capacity `cap`: kept only if accepted and there is room. */
  function Offer(buf: seq<StreamDelta>, cap: nat, accepts: bool, d: StreamDelta): seq<StreamDelta> {
    if accepts && |buf| < cap then buf + [d] else buf
  }

  /** `k` successive offers of the same delta. */
  function OfferN(buf: seq<StreamDelta>, cap: nat, accepts: bool, d: StreamDelta, k: nat): seq<StreamDelta> {
    if k == 0 then buf else Offer(OfferN(buf, cap, accepts, d, k - 1), cap, accepts, d)
  }

  function Copies(d: StreamDelta, n: nat): (r: seq<StreamDelta>)
    ensures |r| == n && forall i :: 0 <= i < n ==> r[i] == d
  {
    seq(n, _ => d)
  }

  function Min(a: int, b: int): int { if a <= b then a else b }

  /**
   * What `k` offers do: a rejected delta leaves the buffer as it was; an accepted
   * one is appended as many times as there are offers, up to the free room.
   */
  lemma {:induction false} OfferNAppendsCopies(buf: seq<StreamDelta>, cap: nat, accepts: bool, d: StreamDelta, k: nat)
    ensures OfferN(buf, cap, accepts, d, k)
      == buf + Copies(d, if accepts && |buf| < cap then Min(k, cap - |buf|) else 0)
  {
    if k > 0 {
      OfferNAppendsCopies(buf, cap, accepts, d, k - 1);
      var n := if accepts && |buf| < cap then Min(k - 1, cap - |buf|) else 0;
      var n' := if accepts && |buf| < cap then Min(k, cap - |buf|) else 0;
      if accepts && |buf| + n < cap {
        assert n' == n + 1;
        assert Copies(d, n) + [d] == Copies(d, n');
      } else {
        assert n' == n;
      }
    }
  }

  /** A subscriber buffer that starts within its capacity stays within it. */
  lemma OfferNWithinCapacity(buf: seq<StreamDelta>, cap: nat, accepts: bool, d: StreamDelta, k: nat)
    requires |buf| <= cap
    ensures |OfferN(buf, cap, accepts, d, k)| <= cap
  {
    OfferNAppendsCopies(buf, cap, accepts, d, k);
  }

  /** How many of the first n entries of `subs` are `sub`: the number of copies a publish sends it. */
  function Registrations(subs: seq<StreamSubscriber>, n: nat, sub: StreamSubscriber): nat
    requires n <= |subs|
  {
    if n == 0 then 0 else Registrations(subs, n - 1, sub) + (if subs[n - 1] == sub then 1 else 0)
  }

  /** Counting every entry gives the multiplicity of `sub` in the list. */
  lemma {:induction false} RegistrationsCount(subs: seq<StreamSubscriber>, n: nat, sub: StreamSubscriber)
    requires n <= |subs|
    ensures Registrations(subs, n, sub) == multiset(subs[..n])[sub]
  {
    if n > 0 {
      RegistrationsCount(subs, n - 1, sub);
      assert subs[..n] == subs[..n - 1] + [subs[n - 1]];
    }
  }

  /** Index of the first entry of `subs` that is `sub`, or -1. */
  function FirstIndex(subs: seq<StreamSubscriber>, sub: StreamSubscriber): (r: int)
    ensures -1 <= r < |subs|
    ensures r == -1 <==> sub !in subs
    ensures r >= 0 ==> subs[r] == sub && sub !in subs[..r]
  {
    if subs == [] then -1
    else if subs[0] == sub then 0
    else var k := FirstIndex(subs[1..], sub); if k < 0 then -1 else k + 1
  }

  /** A registered consumer of stream deltas: its Go channel and its filter. */
  class StreamSubscriber {
    var buffer: seq<StreamDelta>
    const capacity: nat
    const filter: Option<StreamDelta -> bool>
    var open: bool

    constructor (capacity: nat, filter: Option<StreamDelta -> bool>)
      ensures this.capacity == capacity && this.filter == filter
      ensures buffer == [] && open
    {
      this.capacity := capacity;
      this.filter := filter;
      buffer := [];
      open := true;
    }

    /** The non-blocking send: the delta is kept only if the filter accepts it and there is room. */
    method TrySend(d: StreamDelta)
      modifies this`buffer
      ensures buffer == Offer(old(buffer), capacity, Accepts(d), d)
    {
      if Accepts(d) && |buffer| < capacity {
        buffer := buffer + [d];
      }
    }

    /** A nil filter accepts every delta. */
    predicate Accepts(d: StreamDelta) {
      filter.None? || filter.value(d)
    }
  }

  class MessageBus {
    var inbound: seq<InboundMessage>
    var outbound: seq<OutboundMessage>
    var stream: seq<StreamDelta>
    var streamSubs: seq<StreamSubscriber>
    var handlers: map<string, Handler>
    var closed: bool
    // whether each of the three Go channels is still open
    var inboundOpen: bool
    var outboundOpen: bool
    var streamOpen: bool

    ghost predicate Valid()
      reads this
    {
      && |inbound| <= InboundCapacity
      && |outbound| <= OutboundCapacity
      && |stream| <= StreamCapacity
      && inboundOpen == outboundOpen == streamOpen == !closed
    }

    constructor ()
      ensures Valid() && !closed
      ensures inbound == [] && outbound == [] && stream == []
      ensures streamSubs == [] && handlers == map[]
    {
      inbound, outbound, stream := [], [], [];
      streamSubs := [];
      handlers := map[];
      closed := false;
      inboundOpen, outboundOpen, streamOpen := true, true, true;
    }

    /** Enqueues `msg` unless the bus is closed; a full queue would block the caller. */
    method PublishInbound(msg: InboundMessage)
      requires Valid()
      requires closed || |inbound| < InboundCapacity
      modifies this`inbound
      ensures Valid()
      ensures inbound == if old(closed) then old(inbound) else old(inbound) + [msg]
    {
      if closed {
        return;
      }
      inbound := inbound + [msg];
    }

    /**
     * Receives the oldest inbound message, or gives up when the context is done.
     * `cancelled` says whether the context is done; when both cases of Go's
     * `select` are ready the runtime picks one, and `preferCancel` is that pick.
     * A closed, drained queue yields the zero message with ok = true.
     */
    method ConsumeInbound(cancelled: bool, preferCancel: bool) returns (msg: InboundMessage, ok: bool)
      requires Valid()
      requires cancelled || |inbound| > 0 || closed
      modifies this`inbound
      ensures Valid()
      ensures ok ==> (if old(|inbound|) > 0
                      then msg == old(inbound[0]) && inbound == old(inbound[1..])
                      else msg == ZeroInbound && inbound == old(inbound) && closed)
      ensures !ok ==> cancelled && msg == ZeroInbound && inbound == old(inbound)
      ensures !cancelled ==> ok
    {
      var received := |inbound| > 0 || !inboundOpen;
      if cancelled && (!received || preferCancel) {
        return ZeroInbound, false;
      }
      if |inbound| > 0 {
        msg := inbound[0];
        inbound := inbound[1..];
      } else {
        msg := ZeroInbound;
      }
      ok := true;
    }

    /** Enqueues `msg` unless the bus is closed; a full queue would block the caller. */
    method PublishOutbound(msg: OutboundMessage)
      requires Valid()
      requires closed || |outbound| < OutboundCapacity
      modifies this`outbound
      ensures Valid()
      ensures outbound == if old(closed) then old(outbound) else old(outbound) + [msg]
    {
      if closed {
        return;
      }
      outbound := outbound + [msg];
    }

    /** The outbound counterpart of ConsumeInbound. */
    method SubscribeOutbound(cancelled: bool, preferCancel: bool) returns (msg: OutboundMessage, ok: bool)
      requires Valid()
      requires cancelled || |outbound| > 0 || closed
      modifies this`outbound
      ensures Valid()
      ensures ok ==> (if old(|outbound|) > 0
                      then msg == old(outbound[0]) && outbound == old(outbound[1..])
                      else msg == ZeroOutbound && outbound == old(outbound) && closed)
      ensures !ok ==> cancelled && msg == ZeroOutbound && outbound == old(outbound)
      ensures !cancelled ==> ok
    {
      var received := |outbound| > 0 || !outboundOpen;
      if cancelled && (!received || preferCancel) {
        return ZeroOutbound, false;
      }
      if |outbound| > 0 {
        msg := outbound[0];
        outbound := outbound[1..];
      } else {
        msg := ZeroOutbound;
      }
      ok := true;
    }

    /** The primary stream queue's counterpart of ConsumeInbound. */
    method SubscribeStream(cancelled: bool, preferCancel: bool) returns (d: StreamDelta, ok: bool)
      requires Valid()
      requires cancelled || |stream| > 0 || closed
      modifies this`stream
      ensures Valid()
      ensures ok ==> (if old(|stream|) > 0
                      then d == old(stream[0]) && stream == old(stream[1..])
                      else d == ZeroDelta && stream == old(stream) && closed)
      ensures !ok ==> cancelled && d == ZeroDelta && stream == old(stream)
      ensures !cancelled ==> ok
    {
      var received := |stream| > 0 || !streamOpen;
      if cancelled && (!received || preferCancel) {
        return ZeroDelta, false;
      }
      if |stream| > 0 {
        d := stream[0];
        stream := stream[1..];
      } else {
        d := ZeroDelta;
      }
      ok := true;
    }

    /**
     * Never blocks: the delta is dropped from the primary queue when it is full,
     * and every listed subscriber whose filter accepts it gets a copy if its
     * buffer has room (one offer per time it is listed). After Close nothing changes.
     */
    method PublishStreamDelta(d: StreamDelta)
      requires Valid()
      requires !closed ==> forall s :: s in streamSubs && s.Accepts(d) ==> s.open
      modifies this`stream, streamSubs
      ensures Valid()
      ensures stream == if old(closed) || old(|stream|) >= StreamCapacity then old(stream) else old(stream) + [d]
      ensures forall s :: s in streamSubs ==> s.open == old(s.open)
      ensures forall s :: s in streamSubs ==>
        s.buffer == if closed then old(s.buffer)
                    else OfferN(old(s.buffer), s.capacity, s.Accepts(d), d, Registrations(streamSubs, |streamSubs|, s))
    {
      if closed {
        return;
      }
      if |stream| < StreamCapacity {
        stream := stream + [d];
      }
      for i := 0 to |streamSubs|
        modifies streamSubs
        invariant forall s :: s in streamSubs ==> s.open == old(s.open)
        invariant forall s :: s in streamSubs ==>
          s.buffer == OfferN(old(s.buffer), s.capacity, s.Accepts(d), d, Registrations(streamSubs, i, s))
      {
        var sub := streamSubs[i];
        sub.TrySend(d);
      }
    }

    /** Appends `sub` at the end of the subscriber list. */
    method AddStreamSubscriber(sub: StreamSubscriber)
      requires Valid()
      modifies this`streamSubs
      ensures Valid()
      ensures streamSubs == old(streamSubs) + [sub]
    {
      streamSubs := streamSubs + [sub];
    }

    /**
     * Removes the first entry that is `sub` and closes its channel; the other
     * entries keep their order. An unregistered subscriber is left alone.
     */
    method RemoveStreamSubscriber(sub: StreamSubscriber)
      requires Valid()
      requires sub in streamSubs ==> sub.open
      modifies this`streamSubs, sub`open
      ensures Valid()
      ensures var i := FirstIndex(old(streamSubs), sub);
        if i < 0 then streamSubs == old(streamSubs) && sub.open == old(sub.open)
        else streamSubs == old(streamSubs[..i] + streamSubs[i + 1..]) && !sub.open
    {
      for i := 0 to |streamSubs|
        invariant sub !in streamSubs[..i]
      {
        if streamSubs[i] == sub {
          assert FirstIndex(streamSubs, sub) == i;
          streamSubs := streamSubs[..i] + streamSubs[i + 1..];
          sub.open := false;
          return;
        }
        assert streamSubs[..i + 1] == streamSubs[..i] + [streamSubs[i]];
      }
      assert streamSubs[..|streamSubs|] == streamSubs;
    }

    /** Replaces any handler registered for `channel`. */
    method RegisterHandler(channel: string, handler: Handler)
      requires Valid()
      modifies this`handlers
      ensures Valid()
      ensures handlers == old(handlers)[channel := handler]
    {
      handlers := handlers[channel := handler];
    }

    /** The handler last registered for `channel`, if any. */
    method GetHandler(channel: string) returns (handler: Handler, ok: bool)
      ensures ok <==> channel in handlers
      ensures ok ==> handler == handlers[channel]
    {
      if channel in handlers {
        return handlers[channel], true;
      }
      return Handler(0), false;
    }

    /** Marks the bus closed and closes each of the three channels once; later calls do nothing. */
    method Close()
      requires Valid()
      modifies this`closed, this`inboundOpen, this`outboundOpen, this`streamOpen
      ensures Valid() && closed
      ensures old(closed) ==> inboundOpen == old(inboundOpen) && outboundOpen == old(outboundOpen)
                              && streamOpen == old(streamOpen)
      ensures !old(closed) ==> old(inboundOpen) && old(outboundOpen) && old(streamOpen)
      ensures !inboundOpen && !outboundOpen && !streamOpen
    {
      if closed {
        return;
      }
      closed := true;
      inboundOpen := false;
      outboundOpen := false;
      streamOpen := false;
    }
  }

  /** A client: closing twice is harmless and a later publish queues nothing. */
  method CloseTwiceThenPublish(m: InboundMessage, d: StreamDelta) returns (inbound: seq<InboundMessage>, stream: seq<StreamDelta>)
    ensures inbound == [] && stream == []
  {
    var b := new MessageBus();
    b.Close();
    b.Close();
    b.PublishInbound(m);
    b.PublishStreamDelta(d);
    inbound, stream := b.inbound, b.stream;
  }

  /**
   * A client: of two subscribers with disjoint filters only the matching one
   * receives a delta, and removing it leaves the other registered and open.
   */
  method DisjointSubscribers(d: StreamDelta) returns (gotA: seq<StreamDelta>, gotB: seq<StreamDelta>, bStillOpen: bool, left: nat)
    ensures gotA == [d.(chatId := "a")] && gotB == []
    ensures bStillOpen && left == 1
  {
    var b := new MessageBus();
    var a := new StreamSubscriber(10, Some((x: StreamDelta) => x.chatId == "a"));
    var c := new StreamSubscriber(10, Some((x: StreamDelta) => x.chatId == "b"));
    b.AddStreamSubscriber(a);
    b.AddStreamSubscriber(c);
    var dA := d.(chatId := "a");
    assert b.streamSubs == [a, c];
    assert Registrations(b.streamSubs, 1, a) == 1 && Registrations(b.streamSubs, 1, c) == 0;
    assert Registrations(b.streamSubs, 2, a) == 1 && Registrations(b.streamSubs, 2, c) == 1;
    assert a.Accepts(dA) && !c.Accepts(dA);
    b.PublishStreamDelta(dA);
    assert a.buffer == OfferN([], 10, true, dA, 1);
    assert c.buffer == OfferN([], 10, false, dA, 1);
    assert OfferN([], 10, true, dA, 1) == Offer([], 10, true, dA) == [dA];
    assert OfferN([], 10, false, dA, 1) == Offer([], 10, false, dA) == [];
    gotA, gotB := a.buffer, c.buffer;
    b.RemoveStreamSubscriber(a);
    assert b.streamSubs == [c];
    bStillOpen, left := c.open, |b.streamSubs|;
  }
}
