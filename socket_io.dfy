/**
 * The socket.io transport of the server (server/bgio/socket-io.ts): the
 * same registry as the WebSocket transports, keyed by socket ID, with
 * defaults for every option and a `socket.join` of the match room at the
 * start of a sync.
 */
module SocketIOServer {
  import opened Wrappers
  import opened Registry
  import opened Transport
  import Unstorage
  import Kv
  import InMemory
  import BgioPubSub

  /** The storage a transport is given. */
  datatype Backend = UnstorageBackend(unstorage: Unstorage.UnstorageDb) | KvBackend(kv: Kv.KvStorage)

  /** The pub/sub a transport is given. */
  datatype Bus = InMemoryBus(inMemory: InMemory.InMemoryPubSub<Payload>) | BroadcastBus(broadcast: BgioPubSub.BroadcastChannelPubSub<Payload>)

  /** The socket.io server's ping timeout and interval, in milliseconds. */
  const PingTimeout: int := 20 * 1000
  const PingInterval: int := 10 * 1000

  /** The server options: the ping settings, each overridden by a `socketOpts` entry of that name. */
  function ServerOptions(socketOpts: map<string, int>): (options: map<string, int>)
    ensures options.Keys == socketOpts.Keys + {"pingTimeout", "pingInterval"}
    ensures forall k :: k in socketOpts ==> options[k] == socketOpts[k]
    ensures "pingTimeout" !in socketOpts ==> options["pingTimeout"] == 20000
    ensures "pingInterval" !in socketOpts ==> options["pingInterval"] == 10000
  {
    map["pingTimeout" := PingTimeout, "pingInterval" := PingInterval] + socketOpts
  }

  /** What a handler does, in order: join a socket.io room, or call into the Master. */
  datatype Step = Join(socketID: ClientID, matchID: string) | Invoke(call: Call)

  class SocketIO {
    const games: seq<string>
    const db: Backend
    const pubSub: Bus
    const socketOpts: map<string, int>
    const registry: ConnectionRegistry
    var steps: seq<Step>

    ghost predicate Valid()
      reads this, registry
    {
      Consistent(registry.State()) && registry.QueuesIssued()
    }

    /** Every option may be left out: no games, a fresh in-memory unstorage database, a fresh in-memory pub/sub. */
    constructor (games: Option<seq<string>>, db: Option<Backend>, pubSub: Option<Bus>, socketOpts: map<string, int>)
      ensures Valid() && fresh(registry) && steps == []
      ensures registry.State() == Rooms(map[], map[], map[]) && registry.pubSubCalls == []
      ensures this.games == if games.Some? then games.value else []
      ensures db.Some? ==> this.db == db.value
      ensures db.None? ==> this.db.UnstorageBackend? && fresh(this.db.unstorage) && this.db.unstorage.store == map[]
      ensures pubSub.Some? ==> this.pubSub == pubSub.value
      ensures pubSub.None? ==>
        this.pubSub.InMemoryBus? && fresh(this.pubSub.inMemory)
        && this.pubSub.inMemory.subscribers == map[] && this.pubSub.inMemory.invoked == []
      ensures this.socketOpts == socketOpts
    {
      this.games := if games.Some? then games.value else [];
      if db.Some? {
        this.db := db.value;
      } else {
        var unstorage := new Unstorage.UnstorageDb();
        this.db := UnstorageBackend(unstorage);
      }
      if pubSub.Some? {
        this.pubSub := pubSub.value;
      } else {
        var inMemory := new InMemory.InMemoryPubSub<Payload>();
        this.pubSub := InMemoryBus(inMemory);
      }
      this.socketOpts := socketOpts;
      registry := new ConnectionRegistry();
      steps := [];
    }

    /** "update": the Master's `onUpdate` is queued on the match's queue. */
    method OnUpdate(matchID: string)
      requires Valid()
      modifies this, registry
      ensures Valid()
      ensures registry.clientInfo == old(registry.clientInfo) && registry.roomInfo == old(registry.roomInfo)
      ensures registry.pubSubCalls == old(registry.pubSubCalls)
      ensures matchID in registry.perMatchQueue
      ensures matchID in old(registry.perMatchQueue) ==> registry.perMatchQueue == old(registry.perMatchQueue)
      ensures matchID !in old(registry.perMatchQueue) ==>
        registry.perMatchQueue == old(registry.perMatchQueue)[matchID := old(registry.queuesMade)]
      ensures steps == old(steps) + [Invoke(Call(Update(matchID, registry.perMatchQueue[matchID]), Audience(registry.State(), matchID)))]
    {
      var queue := registry.GetMatchQueue(matchID);
      steps := steps + [Invoke(Call(Update(matchID, queue), Audience(registry.State(), matchID)))];
    }

    /**
     * "sync": the socket joins the match's room, the client is removed,
     * the Master syncs it, and unless that comes back unauthorized the client
     * is added under the match and announced connected.
     */
    method OnSync(socketID: ClientID, socket: SocketID, matchID: string, playerID: Option<string>,
                  credentials: Option<string>, syncError: Option<string>)
      requires Valid()
      modifies this, registry
      ensures Valid()
      ensures var client := Client(socket, matchID, playerID, credentials);
        var removed := Removed(old(registry.State()), socketID);
        var after := Synced(old(registry.State()), socketID, client, !Rejects(syncError));
        registry.State() == after
        && registry.pubSubCalls == old(registry.pubSubCalls) + RemoveCalls(old(registry.State()), socketID)
                                   + (if Rejects(syncError) then [] else AddCalls(removed, client))
        && steps == old(steps) + [Join(socketID, matchID), Invoke(Call(Sync(matchID, playerID, credentials), Audience(removed, matchID)))]
                    + (if Rejects(syncError) then []
                       else [Invoke(Call(ConnectionChange(matchID, playerID, credentials, true), Audience(after, matchID)))])
      ensures socketID in registry.clientInfo <==> !Rejects(syncError)
    {
      steps := steps + [Join(socketID, matchID)];
      ghost var before := registry.State();
      var client := Client(socket, matchID, playerID, credentials);
      registry.RemoveClient(socketID);
      steps := steps + [Invoke(Call(Sync(matchID, playerID, credentials), Audience(registry.State(), matchID)))];
      assert steps == old(steps) + [Join(socketID, matchID), Invoke(Call(Sync(matchID, playerID, credentials), Audience(Removed(before, socketID), matchID)))];
      RemovePreservesConsistent(before, socketID);
      SyncPreservesConsistent(before, socketID, client, !Rejects(syncError));
      if Rejects(syncError) {
        return;
      }
      registry.AddClient(socketID, client);
      steps := steps + [Invoke(Call(ConnectionChange(matchID, playerID, credentials, true), Audience(registry.State(), matchID)))];
    }

    /** "disconnect": the client is removed, and if it was registered the Master announces it gone. */
    method OnDisconnect(socketID: ClientID)
      requires Valid()
      modifies this, registry
      ensures Valid()
      ensures registry.State() == Removed(old(registry.State()), socketID)
      ensures registry.pubSubCalls == old(registry.pubSubCalls) + RemoveCalls(old(registry.State()), socketID)
      ensures socketID !in registry.clientInfo
      ensures match Lookup(old(registry.clientInfo), socketID)
        case None => steps == old(steps)
        case Some(c) =>
          steps == old(steps) + [Invoke(Call(ConnectionChange(c.matchID, c.playerID, c.credentials, false),
                                             Audience(registry.State(), c.matchID)))]
    {
      var client := Lookup(registry.clientInfo, socketID);
      RemovePreservesConsistent(registry.State(), socketID);
      registry.RemoveClient(socketID);
      if client.Some? {
        var c := client.value;
        steps := steps + [Invoke(Call(ConnectionChange(c.matchID, c.playerID, c.credentials, false),
                                      Audience(registry.State(), c.matchID)))];
      }
    }

    /** "chat": the Master's `onChatMessage` for the match of the first argument. */
    method OnChat(matchID: string)
      requires Valid()
      modifies this
      ensures Valid()
      ensures steps == old(steps) + [Invoke(Call(ChatMessage(matchID), Audience(registry.State(), matchID)))]
    {
      steps := steps + [Invoke(Call(ChatMessage(matchID), Audience(registry.State(), matchID)))];
    }
  }

  /** A server built with no options serves no game, over an empty unstorage database and an in-memory pub/sub. */
  method DefaultServer() returns (games: seq<string>, empty: bool, inMemory: bool, options: map<string, int>)
    ensures games == [] && empty && inMemory
    ensures options == map["pingTimeout" := 20000, "pingInterval" := 10000]
  {
    var io := new SocketIO(None, None, None, map[]);
    games := io.games;
    empty := io.db.UnstorageBackend? && io.db.unstorage.store == map[];
    inMemory := io.pubSub.InMemoryBus?;
    options := ServerOptions(io.socketOpts);
  }

  /**
   * Two sockets syncing into one match: the second is announced to both,
   * and the room is subscribed once; the first leaving keeps the room.
   */
  method TwoPlayersOneRoom(matchID: string) returns (audience: set<ClientID>, subscriptions: seq<PubSubCall>, room: set<ClientID>)
    ensures audience == {"a", "b"}
    ensures subscriptions == [Subscribe(ChannelId(matchID), matchID)]
    ensures room == {"b"}
  {
    var io := new SocketIO(None, None, None, map[]);
    io.OnSync("a", 0, matchID, Some("0"), Some("x"), None);
    io.OnSync("b", 1, matchID, Some("1"), Some("y"), None);
    audience := io.steps[|io.steps| - 1].call.audience;
    subscriptions := io.registry.pubSubCalls;
    io.OnDisconnect("a");
    room := io.registry.roomInfo[matchID];
  }
}
