/**
 * The library's `BroadcastChannelPubSub`: every call goes to the one
 * `BroadcastChannel` object cached per channel ID. Each object the class
 * creates lives in `handles`, indexed by creation, and `channels` maps a
 * channel ID to its index.
 */
module LibPubSub {
  import opened Wrappers
  import opened Channels

  class BroadcastChannelPubSub<T> {
    var channels: map<string, nat>
    var handles: seq<Handle<T>>

    /** Every cached index is a channel object of that name, and distinct IDs have distinct objects. */
    ghost predicate Valid()
      reads this
    {
      forall id :: id in channels ==> channels[id] < |handles| && handles[channels[id]].name == id
    }

    constructor ()
      ensures Valid() && channels == map[] && handles == []
    {
      channels := map[];
      handles := [];
    }

    /** The channel object cached for `channelId`, created and cached on first use. */
    method GetChannel(channelId: string) returns (h: nat)
      requires Valid()
      modifies this
      ensures Valid()
      ensures h < |handles| && handles[h].name == channelId && channelId in channels && channels[channelId] == h
      ensures channelId in old(channels) ==>
        h == old(channels)[channelId] && handles == old(handles) && channels == old(channels)
      ensures channelId !in old(channels) ==>
        h == |old(handles)| && handles == old(handles) + [Opened(channelId)] && channels == old(channels)[channelId := h]
    {
      if channelId in channels {
        h := channels[channelId];
      } else {
        h := |handles|;
        handles := handles + [Opened(channelId)];
        channels := channels[channelId := h];
      }
    }

    /** Posts on the cached channel object; posting on a closed one throws. */
    method Publish(channelId: string, payload: T) returns (r: Outcome<ChannelError>)
      requires Valid()
      modifies this
      ensures Valid()
      ensures channelId in channels && channels == old(channels)[channelId := channels[channelId]]
      ensures channels[channelId] == if channelId in old(channels) then old(channels)[channelId] else |old(handles)|
      ensures var h := channels[channelId];
        var before := if channelId in old(channels) then old(handles)[h] else Opened(channelId);
        |handles| == |old(handles)| + (if channelId in old(channels) then 0 else 1)
        && (r == Pass <==> !before.closed)
        && (r.Fail? ==> r.error == InvalidStateError && handles == old(handles) + (if channelId in old(channels) then [] else [before]))
        && (r == Pass ==> handles[h] == before.(posted := before.posted + [payload]))
        && (forall i :: 0 <= i < |old(handles)| && i != h ==> handles[i] == old(handles)[i])
    {
      var h := GetChannel(channelId);
      var posted := Posted(handles[h], payload);
      if posted.Failure? {
        r := Fail(posted.error);
      } else {
        handles := handles[h := posted.value];
        r := Pass;
      }
    }

    /** Adds a listener to the cached channel object, closed or not. */
    method Subscribe(channelId: string, callback: CallbackID)
      requires Valid()
      modifies this
      ensures Valid()
      ensures channelId in channels && channels == old(channels)[channelId := channels[channelId]]
      ensures channels[channelId] == if channelId in old(channels) then old(channels)[channelId] else |old(handles)|
      ensures var h := channels[channelId];
        var before := if channelId in old(channels) then old(handles)[h] else Opened(channelId);
        |handles| == |old(handles)| + (if channelId in old(channels) then 0 else 1)
        && handles[h] == Listening(before, callback)
        && (forall i :: 0 <= i < |old(handles)| && i != h ==> handles[i] == old(handles)[i])
    {
      var h := GetChannel(channelId);
      handles := handles[h := Listening(handles[h], callback)];
    }

    /** Closes the cached channel object, if any, and keeps it in the cache. */
    method UnsubscribeAll(channelId: string)
      requires Valid()
      modifies this
      ensures Valid()
      ensures channels == old(channels)
      ensures channelId in channels ==> handles == old(handles)[channels[channelId] := Closed(old(handles)[channels[channelId]])]
      ensures channelId !in channels ==> handles == old(handles)
    {
      if channelId in channels {
        var h := channels[channelId];
        handles := handles[h := Closed(handles[h])];
      }
    }

    /** What `unsubscribeAll` evidently means: close the cached channel object and forget it. */
    method UnsubscribeAllIntended(channelId: string)
      requires Valid()
      modifies this
      ensures Valid()
      ensures channels == old(channels) - {channelId}
      ensures channelId in old(channels) ==>
        handles == old(handles)[old(channels)[channelId] := Closed(old(handles)[old(channels)[channelId]])]
      ensures channelId !in old(channels) ==> handles == old(handles)
    {
      if channelId in channels {
        var h := channels[channelId];
        handles := handles[h := Closed(handles[h])];
      }
      channels := channels - {channelId};
    }
  }

  /** A subscriber and a publisher of one channel ID share one channel object. */
  method SubscribeThenPublish<T>(channelId: string, callback: CallbackID, payload: T)
    returns (r: Outcome<ChannelError>, objects: nat, shared: Handle<T>)
    ensures r == Pass && objects == 1
    ensures shared == Handle(channelId, false, [callback], [payload])
  {
    var pubSub := new BroadcastChannelPubSub<T>();
    pubSub.Subscribe(channelId, callback);
    r := pubSub.Publish(channelId, payload);
    objects := |pubSub.handles|;
    shared := pubSub.handles[pubSub.channels[channelId]];
    assert [] + [callback] == [callback] && [] + [payload] == [payload];
  }

  /** `unsubscribeAll` of an ID never seen changes nothing, so a second one is harmless. */
  method UnsubscribeTwice<T>(channelId: string, callback: CallbackID)
    returns (onceClosed: bool, twiceClosed: bool, objects: nat)
    ensures onceClosed && twiceClosed && objects == 1
  {
    var pubSub := new BroadcastChannelPubSub<T>();
    pubSub.Subscribe(channelId, callback);
    pubSub.UnsubscribeAll(channelId);
    onceClosed := pubSub.handles[pubSub.channels[channelId]].closed;
    pubSub.UnsubscribeAll(channelId);
    twiceClosed := pubSub.handles[pubSub.channels[channelId]].closed;
    objects := |pubSub.handles|;
  }

  /**
   * As written, the sequence of the tests "should unsubscribe" and "should
   * ignore extra unsubscribe": subscribe, `unsubscribeAll` once or more, then
   * publish. The publish posts on the closed cached object and throws.
   */
  method UnsubscribeThenPublish<T>(channelId: string, callback: CallbackID, payload: T, unsubscribes: nat)
    returns (r: Outcome<ChannelError>, objects: nat)
    requires unsubscribes >= 1
    ensures r == Fail(InvalidStateError)
    ensures objects == 1
  {
    var pubSub := new BroadcastChannelPubSub<T>();
    pubSub.Subscribe(channelId, callback);
    var i := 0;
    while i < unsubscribes
      invariant 0 <= i <= unsubscribes
      invariant pubSub.Valid()
      invariant pubSub.channels == map[channelId := 0] && |pubSub.handles| == 1
      invariant i > 0 ==> pubSub.handles[0].closed
    {
      pubSub.UnsubscribeAll(channelId);
      i := i + 1;
    }
    r := pubSub.Publish(channelId, payload);
    objects := |pubSub.handles|;
  }

  /**
   * The same sequence with the entry forgotten: the publish opens a fresh
   * channel object without listeners and goes through, and the closed one
   * keeps the callback and receives nothing.
   */
  method UnsubscribeThenPublishIntended<T>(channelId: string, callback: CallbackID, payload: T, unsubscribes: nat)
    returns (r: Outcome<ChannelError>, published: Handle<T>, unsubscribed: Handle<T>)
    requires unsubscribes >= 1
    ensures r == Pass
    ensures published == Handle(channelId, false, [], [payload])
    ensures unsubscribed == Handle(channelId, true, [callback], [])
  {
    var pubSub := new BroadcastChannelPubSub<T>();
    pubSub.Subscribe(channelId, callback);
    var i := 0;
    while i < unsubscribes
      invariant 0 <= i <= unsubscribes
      invariant pubSub.Valid()
      invariant pubSub.channels == (if i == 0 then map[channelId := 0] else map[]) && |pubSub.handles| == 1
      invariant pubSub.handles[0] == Handle(channelId, i > 0, [callback], [])
    {
      pubSub.UnsubscribeAllIntended(channelId);
      i := i + 1;
    }
    r := pubSub.Publish(channelId, payload);
    published := pubSub.handles[pubSub.channels[channelId]];
    unsubscribed := pubSub.handles[0];
    assert [] + [payload] == [payload];
  }

  /**
   * As written: after `unsubscribeAll`, a new subscriber is attached to the
   * closed channel object and the next publish of that ID throws.
   */
  method ResubscribeAfterUnsubscribe<T>(channelId: string, first: CallbackID, second: CallbackID, payload: T)
    returns (r: Outcome<ChannelError>, listenerOnClosed: bool)
    ensures r == Fail(InvalidStateError)
    ensures listenerOnClosed
  {
    var pubSub := new BroadcastChannelPubSub<T>();
    pubSub.Subscribe(channelId, first);
    pubSub.UnsubscribeAll(channelId);
    pubSub.Subscribe(channelId, second);
    var h := pubSub.channels[channelId];
    listenerOnClosed := pubSub.handles[h].closed && second in pubSub.handles[h].listeners;
    r := pubSub.Publish(channelId, payload);
  }

  /** With the entry forgotten, the new subscriber gets a fresh open channel object and the publish goes through. */
  method ResubscribeAfterUnsubscribeIntended<T>(channelId: string, first: CallbackID, second: CallbackID, payload: T)
    returns (r: Outcome<ChannelError>, listenerOnClosed: bool, shared: Handle<T>)
    ensures r == Pass
    ensures !listenerOnClosed
    ensures shared == Handle(channelId, false, [second], [payload])
  {
    var pubSub := new BroadcastChannelPubSub<T>();
    pubSub.Subscribe(channelId, first);
    pubSub.UnsubscribeAllIntended(channelId);
    pubSub.Subscribe(channelId, second);
    var h := pubSub.channels[channelId];
    listenerOnClosed := pubSub.handles[h].closed;
    r := pubSub.Publish(channelId, payload);
    shared := pubSub.handles[pubSub.channels[channelId]];
    assert [] + [second] == [second] && [] + [payload] == [payload];
  }
}
