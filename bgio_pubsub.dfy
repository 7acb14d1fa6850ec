/**
 * The server's `BroadcastChannelPubSub`: an `InMemoryPubSub` whose every
 * call is also mirrored onto `BroadcastChannel`s, so that other server
 * processes see the publishes. Each `BroadcastChannel` object the class
 * creates lives in `handles`, indexed by creation; `channels` is the cache of
 * one channel object per channel ID, and `order` the insertion order of that
 * `Map`, which is the order `close()` walks.
 */
module BgioPubSub {
  import opened Wrappers
  import opened Channels
  import opened InMemory

  /** What `channel.close()` of a cached channel throws, if anything. */
  datatype CloseError = TypeErrorThrown | OtherError(name: string)

  class BroadcastChannelPubSub<T> {
    const base: InMemoryPubSub<T>
    var channels: map<string, nat>
    var order: seq<string>
    var handles: seq<Handle<T>>

    /** The cache points at a channel object of the same name, and `order` lists its keys once each. */
    ghost predicate Valid()
      reads this
    {
      Distinct(order)
      && (forall id :: id in order <==> id in channels)
      && (forall id :: id in channels ==> channels[id] < |handles| && handles[channels[id]].name == id)
    }

    constructor ()
      ensures Valid() && fresh(base)
      ensures base.subscribers == map[] && base.invoked == []
      ensures channels == map[] && order == [] && handles == []
    {
      base := new InMemoryPubSub<T>();
      channels := map[];
      order := [];
      handles := [];
    }

    /** The channel object cached for `channelId`, created and cached on first use. */
    method GetChannel(channelId: string) returns (h: nat)
      requires Valid()
      modifies this
      ensures Valid()
      ensures h < |handles| && handles[h].name == channelId
      ensures channelId in old(channels) ==>
        h == old(channels)[channelId] && handles == old(handles) && channels == old(channels) && order == old(order)
      ensures channelId !in old(channels) ==>
        h == |old(handles)| && handles == old(handles) + [Opened(channelId)]
        && channels == old(channels)[channelId := h] && order == old(order) + [channelId]
    {
      if channelId in channels {
        h := channels[channelId];
      } else {
        h := |handles|;
        handles := handles + [Opened(channelId)];
        channels := channels[channelId := h];
        order := order + [channelId];
      }
    }

    /**
     * The base publish, then a throw-away channel object that posts the
     * payload and is closed at once; the cache is not touched.
     */
    method Publish(channelId: string, payload: T)
      requires Valid()
      modifies this, base
      ensures Valid()
      ensures base.invoked == old(base.invoked) + Deliveries(old(base.CallbacksOf(channelId)), payload)
      ensures base.subscribers == old(base.subscribers)
      ensures handles == old(handles) + [Handle(channelId, true, [], [payload])]
      ensures channels == old(channels) && order == old(order)
    {
      base.Publish(channelId, payload);
      var channel := Opened<T>(channelId);
      var posted := Posted(channel, payload);
      assert [] + [payload] == [payload];
      assert posted == Success(Handle(channelId, false, [], [payload]));
      handles := handles + [Closed(posted.value)];
    }

    /** The base subscribe, then a listener on the cached channel object. */
    method Subscribe(channelId: string, callback: CallbackID)
      requires Valid()
      modifies this, base
      ensures Valid()
      ensures base.subscribers == old(base.subscribers)[channelId := old(base.CallbacksOf(channelId)) + [callback]]
      ensures base.invoked == old(base.invoked)
      ensures channelId in channels && order == old(order) + (if channelId in old(channels) then [] else [channelId])
      ensures |handles| == |old(handles)| + (if channelId in old(channels) then 0 else 1)
      ensures handles[channels[channelId]].listeners == (if channelId in old(channels) then old(handles)[old(channels)[channelId]].listeners else []) + [callback]
      ensures forall i :: 0 <= i < |old(handles)| && i != channels[channelId] ==> handles[i] == old(handles)[i]
    {
      base.Subscribe(channelId, callback);
      var h := GetChannel(channelId);
      handles := handles[h := Listening(handles[h], callback)];
    }

    /** The base unsubscribe, then the cached channel object is closed and dropped from the cache. */
    method UnsubscribeAll(channelId: string)
      requires Valid()
      modifies this, base
      ensures Valid()
      ensures base.subscribers == old(base.subscribers) - {channelId}
      ensures base.invoked == old(base.invoked)
      ensures channels == old(channels) - {channelId}
      ensures order == Without(old(order), channelId)
      ensures channelId in old(channels) ==>
        handles == old(handles)[old(channels)[channelId] := Closed(old(handles)[old(channels)[channelId]])]
      ensures channelId !in old(channels) ==> handles == old(handles)
    {
      base.UnsubscribeAll(channelId);
      if channelId in channels {
        var h := channels[channelId];
        handles := handles[h := Closed(handles[h])];
      }
      WithoutDistinct(order, channelId);
      channels := channels - {channelId};
      order := Without(order, channelId);
    }

    /**
     * Closes the cached channel objects in insertion order. The first one
     * whose `close()` throws ends the walk: a TypeError is swallowed, any
     * other error propagates. The channels after it stay as they were.
     */
    method Close(throws: map<nat, CloseError>) returns (r: Outcome<string>)
      requires Valid()
      modifies this
      ensures Valid()
      ensures channels == old(channels) && order == old(order) && |handles| == |old(handles)|
      ensures var k := FirstThrowing(order, channels, throws);
        (forall j :: 0 <= j < |handles| ==>
           handles[j] == if j in CachedIn(order[..k], channels) then Closed(old(handles)[j]) else old(handles)[j])
        && r == (if k < |order| && throws[channels[order[k]]].OtherError? then Fail(throws[channels[order[k]]].name) else Pass)
    {
      var k := FirstThrowing(order, channels, throws);
      var walked := ClosedUpTo(handles, order, channels, k);
      handles := walked;
      if k < |order| && throws[channels[order[k]]].OtherError? {
        r := Fail(throws[channels[order[k]]].name);
      } else {
        r := Pass;
      }
    }

    /** `[Symbol.dispose]`, run at the end of a `using` block. */
    method Dispose(throws: map<nat, CloseError>) returns (r: Outcome<string>)
      requires Valid()
      modifies this
      ensures Valid()
      ensures channels == old(channels) && order == old(order) && |handles| == |old(handles)|
      ensures var k := FirstThrowing(order, channels, throws);
        (forall j :: 0 <= j < |handles| ==>
           handles[j] == if j in CachedIn(order[..k], channels) then Closed(old(handles)[j]) else old(handles)[j])
        && r == (if k < |order| && throws[channels[order[k]]].OtherError? then Fail(throws[channels[order[k]]].name) else Pass)
    {
      r := Close(throws);
    }
  }

  /** `s` with every occurrence of `x` removed, order kept: a `Map` key deleted from its insertion order. */
  function Without(s: seq<string>, x: string): (r: seq<string>)
    ensures forall y :: y in r <==> y in s && y != x
    ensures |r| <= |s|
  {
    if s == [] then [] else (if s[0] == x then [] else [s[0]]) + Without(s[1..], x)
  }

  lemma {:induction false} WithoutDistinct(s: seq<string>, x: string)
    requires Distinct(s)
    ensures Distinct(Without(s, x))
  {
    if s != [] {
      WithoutDistinct(s[1..], x);
      assert Distinct(s[1..]) by {
        forall i, j | 0 <= i < j < |s[1..]| ensures s[1..][i] != s[1..][j] {
          assert s[1..][i] == s[i + 1] && s[1..][j] == s[j + 1];
        }
      }
      if s[0] != x {
        assert s[0] !in s[1..];
        assert s[0] !in Without(s[1..], x);
      }
    }
  }

  /** The handle indices the cache holds for `ids`. */
  function CachedIn(ids: seq<string>, channels: map<string, nat>): set<nat> {
    set i | 0 <= i < |ids| && ids[i] in channels :: channels[ids[i]]
  }

  lemma CachedInSnoc(ids: seq<string>, id: string, channels: map<string, nat>)
    requires id in channels
    ensures CachedIn(ids + [id], channels) == CachedIn(ids, channels) + {channels[id]}
  {
    var s := ids + [id];
    assert s[|ids|] == id;
    forall h | h in CachedIn(s, channels) ensures h in CachedIn(ids, channels) + {channels[id]} {
      var i :| 0 <= i < |s| && s[i] in channels && channels[s[i]] == h;
      if i < |ids| {
        assert s[i] == ids[i];
      }
    }
    forall h | h in CachedIn(ids, channels) ensures h in CachedIn(s, channels) {
      var i :| 0 <= i < |ids| && ids[i] in channels && channels[ids[i]] == h;
      assert s[i] == ids[i];
    }
  }

  /** The walk of `close()`: the channel objects cached under the first `k` keys of `order` are closed. */
  method ClosedUpTo<T>(handles: seq<Handle<T>>, order: seq<string>, channels: map<string, nat>, k: nat)
    returns (walked: seq<Handle<T>>)
    requires k <= |order| && forall id :: id in order ==> id in channels && channels[id] < |handles|
    ensures |walked| == |handles|
    ensures forall j :: 0 <= j < |walked| ==>
      walked[j] == if j in CachedIn(order[..k], channels) then Closed(handles[j]) else handles[j]
  {
    walked := handles;
    var i := 0;
    while i < k
      invariant 0 <= i <= k && |walked| == |handles|
      invariant forall j :: 0 <= j < |walked| ==>
        walked[j] == if j in CachedIn(order[..i], channels) then Closed(handles[j]) else handles[j]
    {
      var h := channels[order[i]];
      CachedInSnoc(order[..i], order[i], channels);
      assert order[..i + 1] == order[..i] + [order[i]];
      ClosingOneMore(walked, handles, CachedIn(order[..i], channels), h);
      walked := walked[h := Closed(walked[h])];
      i := i + 1;
    }
  }

  /** Closing one more channel object extends the set of closed ones; closing twice is closing once. */
  lemma ClosingOneMore<T>(handles: seq<Handle<T>>, start: seq<Handle<T>>, closed: set<nat>, h: nat)
    requires |handles| == |start| && h < |handles|
    requires forall j :: 0 <= j < |handles| ==> handles[j] == if j in closed then Closed(start[j]) else start[j]
    ensures var next := handles[h := Closed(handles[h])];
      forall j :: 0 <= j < |next| ==> next[j] == if j in closed + {h} then Closed(start[j]) else start[j]
  {
  }

  /** The position in `order` of the first cached channel whose `close()` throws, or `|order|`. */
  function FirstThrowing(order: seq<string>, channels: map<string, nat>, throws: map<nat, CloseError>): (k: nat)
    ensures k <= |order|
    ensures forall i :: 0 <= i < k && order[i] in channels ==> channels[order[i]] !in throws
    ensures k < |order| ==> order[k] in channels && channels[order[k]] in throws
  {
    if order == [] then 0
    else if order[0] in channels && channels[order[0]] in throws then 0
    else
      var k := 1 + FirstThrowing(order[1..], channels, throws);
      assert forall i :: 0 < i < k ==> order[i] == order[1..][i - 1];
      k
  }

  /** With no channel throwing, `close()` closes every cached channel object. */
  lemma CloseWithoutErrorsClosesAll(order: seq<string>, channels: map<string, nat>)
    ensures FirstThrowing(order, channels, map[]) == |order|
  {
  }

  // ---------------------------------------------------------------------
  // server/bgio/pubsub/broadcast-channel-pubsub.test.ts, one method per case;
  // each ends the `using` block by disposing of the pub/sub.

  /** "should receive message from subscription". */
  method ReceivesFromSubscription<T>(channelId: string, callback: CallbackID, payload: T)
    returns (invoked: seq<Invocation<T>>, disposed: Outcome<string>)
    ensures invoked == [Invocation(callback, payload)]
    ensures disposed == Pass
  {
    var pubSub := new BroadcastChannelPubSub<T>();
    pubSub.Subscribe(channelId, callback);
    pubSub.Publish(channelId, payload);
    invoked := pubSub.base.invoked;
    CloseWithoutErrorsClosesAll(pubSub.order, pubSub.channels);
    disposed := pubSub.Dispose(map[]);
  }

  /** "should receive message from two subscriptions". */
  method ReceivesFromTwoSubscriptions<T>(channelId: string, first: CallbackID, second: CallbackID, payload: T)
    returns (invoked: seq<Invocation<T>>, listeners: seq<CallbackID>)
    ensures Invocation(first, payload) in invoked && Invocation(second, payload) in invoked
    ensures |invoked| == 2
    ensures listeners == [first, second]
  {
    var pubSub := new BroadcastChannelPubSub<T>();
    pubSub.Subscribe(channelId, first);
    assert pubSub.base.CallbacksOf(channelId) == [first];
    assert pubSub.handles[pubSub.channels[channelId]].listeners == [first];
    pubSub.Subscribe(channelId, second);
    assert pubSub.base.CallbacksOf(channelId) == [first, second];
    listeners := pubSub.handles[pubSub.channels[channelId]].listeners;
    pubSub.Publish(channelId, payload);
    invoked := pubSub.base.invoked;
    assert invoked == Deliveries([first, second], payload);
  }

  /** "should unsubscribe" and "should ignore extra unsubscribe". */
  method UnsubscribedReceivesNothing<T>(channelId: string, callback: CallbackID, payload: T, unsubscribes: nat)
    returns (invoked: seq<Invocation<T>>, listenerClosed: bool)
    requires unsubscribes >= 1
    ensures invoked == []
    ensures listenerClosed
  {
    var pubSub := new BroadcastChannelPubSub<T>();
    pubSub.Subscribe(channelId, callback);
    assert pubSub.channels[channelId] == 0;
    var i := 0;
    while i < unsubscribes
      invariant 0 <= i <= unsubscribes
      invariant pubSub.Valid()
      invariant pubSub.base.invoked == []
      invariant |pubSub.handles| == 1
      invariant i > 0 ==> channelId !in pubSub.base.subscribers && channelId !in pubSub.channels && pubSub.handles[0].closed
      invariant i == 0 ==> channelId in pubSub.channels && pubSub.channels[channelId] == 0
    {
      pubSub.UnsubscribeAll(channelId);
      i := i + 1;
    }
    listenerClosed := pubSub.handles[0].closed;
    pubSub.Publish(channelId, payload);
    invoked := pubSub.base.invoked;
  }
}
