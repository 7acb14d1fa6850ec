/**
 * boardgame.io's `InMemoryPubSub`, the base class of the broadcast-channel
 * pub/sub and the socket.io transport's default. Its source is not part of
 * this model; the class states what server/bgio/pubsub/in-memory-pubsub.test.ts
 * asserts: a publish calls every callback subscribed to that channel with the
 * payload, and after `unsubscribeAll` a publish calls none.
 */
module InMemory {
  import opened Wrappers
  import opened Channels

  /** One call of a subscriber's callback. */
  datatype Invocation<T> = Invocation(callback: CallbackID, payload: T)

  /** The calls a publish of `payload` makes to `callbacks`, in order. */
  function Deliveries<T>(callbacks: seq<CallbackID>, payload: T): (calls: seq<Invocation<T>>)
    ensures |calls| == |callbacks|
    ensures forall i :: 0 <= i < |calls| ==> calls[i] == Invocation(callbacks[i], payload)
  {
    if callbacks == [] then [] else [Invocation(callbacks[0], payload)] + Deliveries(callbacks[1..], payload)
  }

  class InMemoryPubSub<T> {
    /** The callbacks of each channel. */
    var subscribers: map<string, seq<CallbackID>>
    /** Every callback call so far. */
    var invoked: seq<Invocation<T>>

    constructor ()
      ensures subscribers == map[] && invoked == []
    {
      subscribers := map[];
      invoked := [];
    }

    function CallbacksOf(channelId: string): seq<CallbackID>
      reads this
    {
      if channelId in subscribers then subscribers[channelId] else []
    }

    method Subscribe(channelId: string, callback: CallbackID)
      modifies this
      ensures subscribers == old(subscribers)[channelId := old(CallbacksOf(channelId)) + [callback]]
      ensures invoked == old(invoked)
    {
      subscribers := subscribers[channelId := CallbacksOf(channelId) + [callback]];
    }

    method Publish(channelId: string, payload: T)
      modifies this
      ensures invoked == old(invoked) + Deliveries(CallbacksOf(channelId), payload)
      ensures subscribers == old(subscribers)
    {
      invoked := invoked + Deliveries(CallbacksOf(channelId), payload);
    }

    method UnsubscribeAll(channelId: string)
      modifies this
      ensures subscribers == old(subscribers) - {channelId}
      ensures invoked == old(invoked)
    {
      subscribers := subscribers - {channelId};
    }
  }

  /** "should receive message from subscription". */
  method ReceivesFromSubscription<T>(channelId: string, callback: CallbackID, payload: T) returns (invoked: seq<Invocation<T>>)
    ensures invoked == [Invocation(callback, payload)]
  {
    var pubSub := new InMemoryPubSub<T>();
    pubSub.Subscribe(channelId, callback);
    pubSub.Publish(channelId, payload);
    invoked := pubSub.invoked;
  }

  /** "should receive message from two subscriptions". */
  method ReceivesFromTwoSubscriptions<T>(channelId: string, first: CallbackID, second: CallbackID, payload: T)
    returns (invoked: seq<Invocation<T>>)
    ensures Invocation(first, payload) in invoked && Invocation(second, payload) in invoked
    ensures |invoked| == 2
  {
    var pubSub := new InMemoryPubSub<T>();
    pubSub.Subscribe(channelId, first);
    pubSub.Subscribe(channelId, second);
    pubSub.Publish(channelId, payload);
    invoked := pubSub.invoked;
    assert invoked == Deliveries([first, second], payload);
  }

  /** "should unsubscribe" and "should ignore extra unsubscribe". */
  method UnsubscribedReceivesNothing<T>(channelId: string, callback: CallbackID, payload: T, unsubscribes: nat)
    returns (invoked: seq<Invocation<T>>)
    requires unsubscribes >= 1
    ensures invoked == []
  {
    var pubSub := new InMemoryPubSub<T>();
    pubSub.Subscribe(channelId, callback);
    var i := 0;
    while i < unsubscribes
      invariant 0 <= i <= unsubscribes
      invariant pubSub.invoked == []
      invariant i > 0 ==> channelId !in pubSub.subscribers
    {
      pubSub.UnsubscribeAll(channelId);
      i := i + 1;
    }
    pubSub.Publish(channelId, payload);
    invoked := pubSub.invoked;
  }
}
