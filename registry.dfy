/**
 * The connection registry that each of the three server transports keeps
 * (server/bgio/transport.ts, lib/server/transport.ts and
 * server/bgio/socket-io.ts hold the same code): `clientInfo` maps a client ID
 * to its client, `roomInfo` maps a match ID to the IDs in its room, and
 * `perMatchQueue` maps a match ID to its update queue.
 *
 * The pub/sub object is a collaborator: the registry's calls into it are
 * recorded in order. `filterPlayerView` is opaque: its result is the pair of
 * its arguments. Queues are opaque: a queue is the number of its creation.
 */
module Registry {
  import opened Wrappers

  type ClientID = string
  type SocketID = nat
  type QueueID = nat

  /** The payload a `sendAll` publishes; opaque. */
  datatype Payload = Payload(token: nat)

  /** `playerID` is None for both `null` and `undefined`, which `?? null` identifies. */
  datatype Client = Client(socket: SocketID, matchID: string, playerID: Option<string>, credentials: Option<string>)

  /** `filterPlayerView(playerID, payload)`. */
  datatype FilteredView = FilteredView(playerID: Option<string>, payload: Payload)

  /** A call of the registry into the pub/sub; a subscription's callback broadcasts to `matchID`'s room. */
  datatype PubSubCall = Subscribe(channel: string, matchID: string) | UnsubscribeAll(channel: string)

  /** What a transport sends: data on one socket, or a payload published on a channel. */
  datatype Outgoing = Emitted(socket: SocketID, data: FilteredView) | Published(channel: string, payload: Payload)

  /** `getPubSubChannelId`. */
  function ChannelId(matchID: string): string {
    "MATCH-" + matchID
  }

  /** Distinct matches have distinct channels. */
  lemma ChannelIdInjective(a: string, b: string)
    ensures ChannelId(a) == ChannelId(b) <==> a == b
  {
    if ChannelId(a) == ChannelId(b) {
      assert a == ChannelId(a)[6..] && b == ChannelId(b)[6..];
    }
  }

  /** `transportAPI(...).send`: the filtered view on the requesting socket. */
  function Send(socket: SocketID, playerID: Option<string>, payload: Payload): Outgoing {
    Emitted(socket, FilteredView(playerID, payload))
  }

  /** `transportAPI(...).sendAll`: one publish on the match's channel. */
  function SendAll(matchID: string, payload: Payload): Outgoing {
    Published(ChannelId(matchID), payload)
  }

  /** `send` reaches only the requesting socket; `sendAll` reaches only the channel whose subscription broadcasts to that match. */
  lemma SendTargets(socket: SocketID, playerID: Option<string>, matchID: string, other: string, payload: Payload)
    ensures Send(socket, playerID, payload).Emitted? && Send(socket, playerID, payload).socket == socket
    ensures Send(socket, playerID, payload).data.playerID == playerID
    ensures SendAll(matchID, payload).Published?
    ensures SendAll(matchID, payload) == Published(ChannelId(other), payload) <==> other == matchID
  {
    ChannelIdInjective(matchID, other);
  }

  // ---------------------------------------------------------------------
  // The registry as a value.

  datatype Rooms = Rooms(clientInfo: map<ClientID, Client>, roomInfo: map<string, set<ClientID>>, perMatchQueue: map<string, QueueID>)

  /**
   * Every registered client is in its match's room, and every room is
   * non-empty with members registered for that match.
   */
  ghost predicate Consistent(r: Rooms) {
    (forall id :: id in r.clientInfo ==>
       r.clientInfo[id].matchID in r.roomInfo && id in r.roomInfo[r.clientInfo[id].matchID])
    && (forall m :: m in r.roomInfo ==> r.roomInfo[m] != {})
    && (forall m, id :: m in r.roomInfo && id in r.roomInfo[m] ==> id in r.clientInfo && r.clientInfo[id].matchID == m)
  }

  /** `addClient`: create the room if absent, then add the ID to it and record the client. */
  function Added(r: Rooms, id: ClientID, client: Client): Rooms {
    var room := if client.matchID in r.roomInfo then r.roomInfo[client.matchID] else {};
    Rooms(r.clientInfo[id := client], r.roomInfo[client.matchID := room + {id}], r.perMatchQueue)
  }

  /** The pub/sub calls of `addClient`: a subscription exactly when the match had no room. */
  function AddCalls(r: Rooms, client: Client): seq<PubSubCall> {
    if client.matchID in r.roomInfo then [] else [Subscribe(ChannelId(client.matchID), client.matchID)]
  }

  /** Whether `removeClient(id)` empties a room. */
  predicate Empties(r: Rooms, id: ClientID) {
    id in r.clientInfo && r.clientInfo[id].matchID in r.roomInfo
    && r.roomInfo[r.clientInfo[id].matchID] - {id} == {}
  }

  /**
   * `removeClient`: nothing for an unknown ID; otherwise drop the ID from its
   * room, and an emptied room together with its match's queue; then drop the
   * client.
   */
  function Removed(r: Rooms, id: ClientID): Rooms {
    if id !in r.clientInfo then r
    else
      var m := r.clientInfo[id].matchID;
      if Empties(r, id) then Rooms(r.clientInfo - {id}, r.roomInfo - {m}, r.perMatchQueue - {m})
      else if m in r.roomInfo then Rooms(r.clientInfo - {id}, r.roomInfo[m := r.roomInfo[m] - {id}], r.perMatchQueue)
      else Rooms(r.clientInfo - {id}, r.roomInfo, r.perMatchQueue)
  }

  /** The pub/sub calls of `removeClient`: an unsubscription exactly when the room empties. */
  function RemoveCalls(r: Rooms, id: ClientID): seq<PubSubCall> {
    if Empties(r, id) then [UnsubscribeAll(ChannelId(r.clientInfo[id].matchID))] else []
  }

  /** The registry after a sync: remove first, then add only when authorised. */
  function Synced(r: Rooms, id: ClientID, client: Client, authorized: bool): Rooms {
    if authorized then Added(Removed(r, id), id, client) else Removed(r, id)
  }

  /** The members of a match's room that have a client entry: whom a broadcast reaches. */
  function Audience(r: Rooms, matchID: string): set<ClientID> {
    if matchID in r.roomInfo then set id | id in r.roomInfo[matchID] && id in r.clientInfo else {}
  }

  /**
   * Removing before the sync and adding after it: a broadcast during the
   * sync misses the syncing client, one after the add reaches it, and the
   * rest of the room is the same in both.
   */
  lemma SyncAudiences(r: Rooms, id: ClientID, client: Client)
    requires Consistent(r)
    ensures id !in Audience(Removed(r, id), client.matchID)
    ensures Audience(Synced(r, id, client, true), client.matchID) == Audience(Removed(r, id), client.matchID) + {id}
  {
    RemovePreservesConsistent(r, id);
    var removed := Removed(r, id);
    assert id !in removed.clientInfo;
    var after := Synced(r, id, client, true);
    assert after == Added(removed, id, client);
    var m := client.matchID;
    forall x | x in Audience(after, m) ensures x in Audience(removed, m) + {id} {
      if x != id {
        assert x in removed.clientInfo && m in removed.roomInfo && x in removed.roomInfo[m];
      }
    }
  }

  /** `addClient` registers the client in its room, and touches no other match nor any queue. */
  lemma AddedEffect(r: Rooms, id: ClientID, client: Client)
    ensures var after := Added(r, id, client);
      && after.clientInfo[id] == client
      && client.matchID in after.roomInfo && id in after.roomInfo[client.matchID]
      && (forall m :: m != client.matchID ==> Lookup(after.roomInfo, m) == Lookup(r.roomInfo, m))
      && (forall other :: other != id ==> Lookup(after.clientInfo, other) == Lookup(r.clientInfo, other))
      && after.perMatchQueue == r.perMatchQueue
    ensures AddCalls(r, client) != [] <==> client.matchID !in r.roomInfo
  {
  }

  /** An unknown ID leaves the registry unchanged and unsubscribes nothing. */
  lemma RemovedUnknown(r: Rooms, id: ClientID)
    requires id !in r.clientInfo
    ensures Removed(r, id) == r && RemoveCalls(r, id) == []
  {
  }

  /**
   * `removeClient` unregisters the client; its room loses it, and an emptied
   * room goes with its queue and its subscription; other matches keep their
   * rooms and queues.
   */
  lemma RemovedEffect(r: Rooms, id: ClientID)
    requires id in r.clientInfo
    ensures var m := r.clientInfo[id].matchID; var after := Removed(r, id);
      && id !in after.clientInfo
      && (forall other :: other != id ==> Lookup(after.clientInfo, other) == Lookup(r.clientInfo, other))
      && (Empties(r, id) ==> m !in after.roomInfo && m !in after.perMatchQueue)
      && (m in r.roomInfo && !Empties(r, id) ==> after.roomInfo[m] == r.roomInfo[m] - {id} && after.perMatchQueue == r.perMatchQueue)
      && (forall k :: k != m ==> Lookup(after.roomInfo, k) == Lookup(r.roomInfo, k) && Lookup(after.perMatchQueue, k) == Lookup(r.perMatchQueue, k))
    ensures RemoveCalls(r, id) != [] <==> Empties(r, id)
  {
  }

  /** In a consistent registry a room empties exactly when the client is its only member. */
  lemma EmptiesAlone(r: Rooms, id: ClientID)
    requires Consistent(r) && id in r.clientInfo
    ensures Empties(r, id) <==> r.roomInfo[r.clientInfo[id].matchID] == {id}
  {
    var room := r.roomInfo[r.clientInfo[id].matchID];
    if room - {id} == {} {
      forall x | x in room ensures x == id {
        assert x !in room - {id};
      }
    }
  }

  lemma RemovePreservesConsistent(r: Rooms, id: ClientID)
    requires Consistent(r)
    ensures Consistent(Removed(r, id))
  {
    if id in r.clientInfo {
      var m := r.clientInfo[id].matchID;
      var after := Removed(r, id);
      forall k, x | k in after.roomInfo && x in after.roomInfo[k]
        ensures x in after.clientInfo && after.clientInfo[x].matchID == k
      {
        assert x in r.roomInfo[k];
      }
      forall k | k in after.roomInfo ensures after.roomInfo[k] != {} {
        if k == m {
          assert after.roomInfo[k] == r.roomInfo[m] - {id};
        }
      }
    }
  }

  lemma AddPreservesConsistent(r: Rooms, id: ClientID, client: Client)
    requires Consistent(r) && id !in r.clientInfo
    ensures Consistent(Added(r, id, client))
  {
    var after := Added(r, id, client);
    forall k, x | k in after.roomInfo && x in after.roomInfo[k]
      ensures x in after.clientInfo && after.clientInfo[x].matchID == k
    {
      if x != id {
        assert x in r.roomInfo[k];
      }
    }
  }

  /** Removing before adding keeps the registry consistent, whatever the sync's answer. */
  lemma SyncPreservesConsistent(r: Rooms, id: ClientID, client: Client, authorized: bool)
    requires Consistent(r)
    ensures Consistent(Synced(r, id, client, authorized))
    ensures authorized <==> id in Synced(r, id, client, authorized).clientInfo
  {
    RemovePreservesConsistent(r, id);
    if authorized {
      AddPreservesConsistent(Removed(r, id), id, client);
    }
  }

  /** Adding a client registered for another match without removing it first breaks consistency. */
  lemma AddWithoutRemoveBreaks(socket: SocketID)
    ensures var r := Rooms(map["c" := Client(socket, "a", None, None)], map["a" := {"c"}], map[]);
      Consistent(r) && !Consistent(Added(r, "c", Client(socket, "b", None, None)))
  {
    var r := Rooms(map["c" := Client(socket, "a", None, None)], map["a" := {"c"}], map[]);
    var after := Added(r, "c", Client(socket, "b", None, None));
    assert "a" in after.roomInfo && "c" in after.roomInfo["a"] && after.clientInfo["c"].matchID != "a";
  }

  // ---------------------------------------------------------------------
  // The registry object.

  /** A message sent by a broadcast to one room member. */
  datatype Emit = Emit(clientID: ClientID, socket: SocketID, data: FilteredView)

  class ConnectionRegistry {
    var clientInfo: map<ClientID, Client>
    var roomInfo: map<string, set<ClientID>>
    var perMatchQueue: map<string, QueueID>
    /** The calls into the pub/sub, in order. */
    var pubSubCalls: seq<PubSubCall>
    /** How many queues have been created. */
    var queuesMade: nat

    function State(): Rooms
      reads this
    {
      Rooms(clientInfo, roomInfo, perMatchQueue)
    }

    /** Every stored queue was created earlier, so a new one is distinct from all of them. */
    ghost predicate QueuesIssued()
      reads this
    {
      forall m :: m in perMatchQueue ==> perMatchQueue[m] < queuesMade
    }

    constructor ()
      ensures State() == Rooms(map[], map[], map[]) && pubSubCalls == [] && queuesMade == 0
      ensures Consistent(State()) && QueuesIssued()
    {
      clientInfo := map[];
      roomInfo := map[];
      perMatchQueue := map[];
      pubSubCalls := [];
      queuesMade := 0;
    }

    method AddClient(id: ClientID, client: Client)
      modifies this
      ensures State() == Added(old(State()), id, client)
      ensures old(QueuesIssued()) ==> QueuesIssued()
      ensures pubSubCalls == old(pubSubCalls) + AddCalls(old(State()), client)
      ensures queuesMade == old(queuesMade)
    {
      var matchID := client.matchID;
      var matchClients: set<ClientID>;
      if matchID !in roomInfo {
        pubSubCalls := pubSubCalls + [Subscribe(ChannelId(matchID), matchID)];
        matchClients := {};
        roomInfo := roomInfo[matchID := matchClients];
      } else {
        matchClients := roomInfo[matchID];
      }
      roomInfo := roomInfo[matchID := matchClients + {id}];
      clientInfo := clientInfo[id := client];
    }

    method RemoveClient(id: ClientID)
      modifies this
      ensures State() == Removed(old(State()), id)
      ensures old(QueuesIssued()) ==> QueuesIssued()
      ensures pubSubCalls == old(pubSubCalls) + RemoveCalls(old(State()), id)
      ensures queuesMade == old(queuesMade)
    {
      if id !in clientInfo {
        return;
      }
      var matchID := clientInfo[id].matchID;
      if matchID in roomInfo {
        var matchClients := roomInfo[matchID] - {id};
        roomInfo := roomInfo[matchID := matchClients];
        if matchClients == {} {
          pubSubCalls := pubSubCalls + [UnsubscribeAll(ChannelId(matchID))];
          roomInfo := roomInfo - {matchID};
          DeleteMatchQueue(matchID);
        }
      }
      clientInfo := clientInfo - {id};
    }

    /** The stored queue, or a new one that is stored. */
    method GetMatchQueue(matchID: string) returns (queue: QueueID)
      requires QueuesIssued()
      modifies this
      ensures QueuesIssued()
      ensures matchID in perMatchQueue && queue == perMatchQueue[matchID]
      ensures matchID in old(perMatchQueue) ==> queue == old(perMatchQueue[matchID]) && unchanged(this)
      ensures matchID !in old(perMatchQueue) ==>
        queue == old(queuesMade) && perMatchQueue == old(perMatchQueue)[matchID := queue] && queuesMade == old(queuesMade) + 1
        && (forall m :: m in old(perMatchQueue) ==> old(perMatchQueue[m]) != queue)
      ensures clientInfo == old(clientInfo) && roomInfo == old(roomInfo) && pubSubCalls == old(pubSubCalls)
    {
      if matchID !in perMatchQueue {
        perMatchQueue := perMatchQueue[matchID := queuesMade];
        queuesMade := queuesMade + 1;
      }
      queue := perMatchQueue[matchID];
    }

    method DeleteMatchQueue(matchID: string)
      modifies this
      ensures perMatchQueue == old(perMatchQueue) - {matchID}
      ensures clientInfo == old(clientInfo) && roomInfo == old(roomInfo)
      ensures pubSubCalls == old(pubSubCalls) && queuesMade == old(queuesMade)
    {
      perMatchQueue := perMatchQueue - {matchID};
    }

    /** The room members a broadcast reaches: those with a client entry. */
    function Members(matchID: string): set<ClientID>
      reads this
    {
      Audience(State(), matchID)
    }

    /** `e` carries the filtered view for its client's player to its client's socket. */
    predicate Delivers(e: Emit, payload: Payload)
      reads this
    {
      e.clientID in clientInfo && e.socket == clientInfo[e.clientID].socket
      && e.data == FilteredView(clientInfo[e.clientID].playerID, payload)
    }

    /**
     * The `broadcast` callback of the match's subscription: one filtered
     * view, for the member's player ID, on each member's socket.
     */
    method Broadcast(matchID: string, payload: Payload) returns (emits: seq<Emit>)
      ensures (set e | e in emits :: e.clientID) == Members(matchID)
      ensures |emits| == |Members(matchID)|
      ensures forall e :: e in emits ==>
        e.clientID in clientInfo && e.socket == clientInfo[e.clientID].socket
        && e.data == FilteredView(clientInfo[e.clientID].playerID, payload)
    {
      var targets := Members(matchID);
      var remaining := targets;
      emits := [];
      while remaining != {}
        invariant remaining <= targets
        invariant (set e | e in emits :: e.clientID) == targets - remaining
        invariant |emits| == |targets - remaining|
        invariant forall e :: e in emits ==> Delivers(e, payload)
        decreases |remaining|
      {
        var id :| id in remaining;
        var client := clientInfo[id];
        var e := Emit(id, client.socket, FilteredView(client.playerID, payload));
        RecipientsSnoc(emits, e);
        SentGrows(targets, remaining, id);
        emits := emits + [e];
        remaining := remaining - {id};
      }
    }
  }

  lemma RecipientsSnoc(emits: seq<Emit>, e: Emit)
    ensures (set x | x in emits + [e] :: x.clientID) == (set x | x in emits :: x.clientID) + {e.clientID}
  {
  }

  lemma SentGrows(targets: set<ClientID>, remaining: set<ClientID>, id: ClientID)
    requires id in remaining && remaining <= targets
    ensures targets - (remaining - {id}) == (targets - remaining) + {id}
    ensures |targets - (remaining - {id})| == |targets - remaining| + 1
  {
  }

  /** In a consistent registry a broadcast reaches exactly the room. */
  lemma MembersAreRoom(r: ConnectionRegistry, matchID: string)
    requires Consistent(r.State()) && matchID in r.roomInfo
    ensures r.Members(matchID) == r.roomInfo[matchID]
  {
  }
}
