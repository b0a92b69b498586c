/**
 * The publish/subscribe side of the notification endpoints: the broker's
 * registry of live subscribers per channel, and the WebSocket transport the
 * endpoints write to.
 */
module Notifications {
  import opened Wrappers
  import Ints

  /** The broker channel of an entity: `f"channel:{id}"`. */
  function ChannelName(id: int): (c: string)
    ensures |c| > 8 && c[..8] == "channel:"
  {
    "channel:" + Ints.DecimalString(id)
  }

  /** Different entities never share a channel. */
  lemma ChannelNameInjective(a: int, b: int)
    requires ChannelName(a) == ChannelName(b)
    ensures a == b
  {
    assert Ints.DecimalString(a) == ChannelName(a)[8..];
    assert Ints.DecimalString(b) == ChannelName(b)[8..];
    Ints.DecimalStringInjective(a, b);
  }

  /** A subscriber connection handed out by the broker, named by a handle. */
  datatype Subscriber = Subscriber(handle: nat)

  /** Live subscriber handles, each with the channel it listens on. */
  type Registry = map<nat, string>

  function SubscribersOf(reg: Registry, channel: string): set<nat>
  {
    set h | h in reg && reg[h] == channel
  }

  /** How many subscribers a channel has; a channel with none is absent. */
  function Count(reg: Registry, channel: string): nat
  {
    |SubscribersOf(reg, channel)|
  }

  /** The registry after handle h subscribed to `channel`. */
  function Subscribed(reg: Registry, h: nat, channel: string): Registry
  {
    reg[h := channel]
  }

  /** The registry after handle h unsubscribed from `channel` (nothing if h is not on it). */
  function Unsubscribed(reg: Registry, h: nat, channel: string): Registry
  {
    if h in reg && reg[h] == channel then reg - {h} else reg
  }

  /** Subscribing a new handle adds one subscriber to its channel and touches no other channel. */
  lemma SubscribeAddsOne(reg: Registry, h: nat, channel: string)
    requires h !in reg
    ensures SubscribersOf(Subscribed(reg, h, channel), channel) == SubscribersOf(reg, channel) + {h}
    ensures Count(Subscribed(reg, h, channel), channel) == Count(reg, channel) + 1
    ensures forall other :: other != channel ==>
      SubscribersOf(Subscribed(reg, h, channel), other) == SubscribersOf(reg, other)
  {
    var after := Subscribed(reg, h, channel);
    forall c ensures SubscribersOf(after, c) == SubscribersOf(reg, c) + (if c == channel then {h} else {}) {
      SubscribedOn(reg, h, channel, c);
    }
    assert h !in SubscribersOf(reg, channel);
  }

  lemma SubscribedOn(reg: Registry, h: nat, channel: string, c: string)
    requires h !in reg
    ensures SubscribersOf(Subscribed(reg, h, channel), c) == SubscribersOf(reg, c) + (if c == channel then {h} else {})
  {
    var after := Subscribed(reg, h, channel);
    forall g ensures g in SubscribersOf(after, c) <==> g in SubscribersOf(reg, c) || (c == channel && g == h) {
      if g != h { assert (g in after) == (g in reg); }
    }
  }

  /** Unsubscribing a live handle removes exactly that one subscriber from its channel. */
  lemma UnsubscribeRemovesOne(reg: Registry, h: nat, channel: string)
    requires h in reg && reg[h] == channel
    ensures SubscribersOf(Unsubscribed(reg, h, channel), channel) == SubscribersOf(reg, channel) - {h}
    ensures Count(Unsubscribed(reg, h, channel), channel) == Count(reg, channel) - 1
    ensures forall other :: other != channel ==>
      SubscribersOf(Unsubscribed(reg, h, channel), other) == SubscribersOf(reg, other)
  {
    assert h in SubscribersOf(reg, channel);
  }

  /** Unsubscribing a fresh subscription restores the registry exactly. */
  lemma UnsubscribeUndoesSubscribe(reg: Registry, h: nat, channel: string)
    requires h !in reg
    ensures Unsubscribed(Subscribed(reg, h, channel), h, channel) == reg
  {
    assert Subscribed(reg, h, channel) - {h} == reg;
  }

  /** A second unsubscribe with the same handle changes nothing. */
  lemma UnsubscribeIdempotent(reg: Registry, h: nat, channel: string)
    ensures Unsubscribed(Unsubscribed(reg, h, channel), h, channel) == Unsubscribed(reg, h, channel)
  {
  }

  /** The broker, as far as the endpoints use it. */
  class Broker {
    var registry: Registry
    var nextHandle: nat

    /** Handles not yet handed out are not live. */
    ghost predicate Valid()
      reads this
    {
      forall h :: h in registry ==> h < nextHandle
    }

    constructor ()
      ensures Valid() && registry == map[]
    {
      registry := map[];
      nextHandle := 0;
    }

    /**
     * `utils.make_subscriber(id)`: a new subscriber connection listening on
     * the entity's channel, returned with that channel.
     */
    method MakeSubscriber(id: int) returns (subscriber: Subscriber, channel: string)
      requires Valid()
      modifies this
      ensures Valid()
      ensures channel == ChannelName(id)
      ensures subscriber.handle !in old(registry)
      ensures registry == Subscribed(old(registry), subscriber.handle, channel)
    {
      subscriber := Subscriber(nextHandle);
      channel := ChannelName(id);
      registry := Subscribed(registry, nextHandle, channel);
      nextHandle := nextHandle + 1;
    }

    /** `subscriber.unsubscribe(channel)`. */
    method Unsubscribe(subscriber: Subscriber, channel: string)
      requires Valid()
      modifies this
      ensures Valid() && nextHandle == old(nextHandle)
      ensures registry == Unsubscribed(old(registry), subscriber.handle, channel)
    {
      registry := Unsubscribed(registry, subscriber.handle, channel);
    }
  }

  /** The JSON messages the endpoints send: `{"status": status}`. */
  datatype Message = StatusMessage(status: string)

  /** WebSocket close codes (RFC 6455, section 7.4.1). */
  const NormalClosure := 1000
  const PolicyViolation := 1008

  /** The server side of one WebSocket connection. */
  class WebSocket {
    /** The route's path parameters and the URL's query parameters. */
    const pathParams: map<string, string>
    const queryParams: map<string, string>
    var accepted: bool
    var sent: seq<Message>
    var closeCode: Option<int>

    constructor (pathParams: map<string, string>, queryParams: map<string, string>)
      ensures this.pathParams == pathParams && this.queryParams == queryParams
      ensures !accepted && sent == [] && closeCode == None
    {
      this.pathParams := pathParams;
      this.queryParams := queryParams;
      accepted, sent, closeCode := false, [], None;
    }

    method Accept()
      modifies this
      ensures accepted && sent == old(sent) && closeCode == old(closeCode)
    {
      accepted := true;
    }

    method SendJson(message: Message)
      modifies this
      ensures sent == old(sent) + [message]
      ensures accepted == old(accepted) && closeCode == old(closeCode)
    {
      sent := sent + [message];
    }

    /** `close(code)`; Starlette's default code is a normal closure. */
    method Close(code: int)
      modifies this
      ensures closeCode == Some(code)
      ensures accepted == old(accepted) && sent == old(sent)
    {
      closeCode := Some(code);
    }
  }
}
