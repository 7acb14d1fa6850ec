/**
 * The message handlers of the two WebSocket transports of the server
 * (server/bgio/transport.ts on Hono, lib/server/transport.ts on Fresh),
 * which hold the same code, and the Fresh route that upgrades a request.
 *
 * A handler builds a boardgame.io `Master` and makes one call into it; the
 * Master itself is outside the model. What a handler's call can reach is
 * recorded with it: a `sendAll` made during the call is published on the
 * match's channel and so reaches the match's audience at that moment.
 */
module Transport {
  import opened Wrappers
  import opened Registry
  import opened Wire

  datatype MasterCall =
    | Update(matchID: string, queue: QueueID)
    | Sync(matchID: string, playerID: Option<string>, credentials: Option<string>)
    | ConnectionChange(matchID: string, playerID: Option<string>, credentials: Option<string>, connected: bool)
    | ChatMessage(matchID: string)

  /** A call into the Master, with whom a broadcast during it reaches. */
  datatype Call = Call(master: MasterCall, audience: set<ClientID>)

  /** The `error` of an `onSync` response that makes the handler stop before registering. */
  const Unauthorized: string := "unauthorized"

  /** `syncResponse && syncResponse.error === "unauthorized"`, with None for a response without `error`. */
  predicate Rejects(syncError: Option<string>) {
    syncError == Some(Unauthorized)
  }

  class WebSocketTransport {
    /** The names of the served games. */
    const games: seq<string>
    const registry: ConnectionRegistry
    /** The Master calls of all handlers, in order. */
    var calls: seq<Call>

    ghost predicate Valid()
      reads this, registry
    {
      Consistent(registry.State()) && registry.QueuesIssued()
    }

    constructor (games: seq<string>)
      ensures Valid() && fresh(registry) && this.games == games && calls == []
      ensures registry.State() == Rooms(map[], map[], map[]) && registry.pubSubCalls == []
    {
      this.games := games;
      registry := new ConnectionRegistry();
      calls := [];
    }

    /** "update": the Master's `onUpdate` is queued on the match's queue; the match ID is the third argument. */
    method OnUpdate(matchID: string)
      requires Valid()
      modifies this, registry
      ensures Valid()
      ensures registry.clientInfo == old(registry.clientInfo) && registry.roomInfo == old(registry.roomInfo)
      ensures registry.pubSubCalls == old(registry.pubSubCalls)
      ensures matchID in registry.perMatchQueue
      ensures matchID in old(registry.perMatchQueue) ==> registry.perMatchQueue == old(registry.perMatchQueue)
      ensures matchID !in old(registry.perMatchQueue) ==>
        registry.perMatchQueue == old(registry.perMatchQueue)[matchID := old(registry.queuesMade)]
      ensures calls == old(calls) + [Call(Update(matchID, registry.perMatchQueue[matchID]), Audience(registry.State(), matchID))]
    {
      var queue := registry.GetMatchQueue(matchID);
      calls := calls + [Call(Update(matchID, queue), Audience(registry.State(), matchID))];
    }

    /**
     * "sync": the client is removed, then the Master syncs it; unless the
     * sync comes back unauthorized, the client is added under the match it
     * synced with and the Master announces it connected.
     */
    method OnSync(clientID: ClientID, socket: SocketID, matchID: string, playerID: Option<string>,
                  credentials: Option<string>, syncError: Option<string>)
      requires Valid()
      modifies this, registry
      ensures Valid()
      ensures var client := Client(socket, matchID, playerID, credentials);
        var removed := Removed(old(registry.State()), clientID);
        var after := Synced(old(registry.State()), clientID, client, !Rejects(syncError));
        registry.State() == after
        && registry.pubSubCalls == old(registry.pubSubCalls) + RemoveCalls(old(registry.State()), clientID)
                                   + (if Rejects(syncError) then [] else AddCalls(removed, client))
        && calls == old(calls) + [Call(Sync(matchID, playerID, credentials), Audience(removed, matchID))]
                    + (if Rejects(syncError) then []
                       else [Call(ConnectionChange(matchID, playerID, credentials, true), Audience(after, matchID))])
      ensures clientID in registry.clientInfo <==> !Rejects(syncError)
    {
      ghost var before := registry.State();
      var client := Client(socket, matchID, playerID, credentials);
      registry.RemoveClient(clientID);
      calls := calls + [Call(Sync(matchID, playerID, credentials), Audience(registry.State(), matchID))];
      RemovePreservesConsistent(before, clientID);
      SyncPreservesConsistent(before, clientID, client, !Rejects(syncError));
      if Rejects(syncError) {
        return;
      }
      registry.AddClient(clientID, client);
      calls := calls + [Call(ConnectionChange(matchID, playerID, credentials, true), Audience(registry.State(), matchID))];
    }

    /** "chat": the Master's `onChatMessage` for the match of the first argument. */
    method OnChat(matchID: string)
      requires Valid()
      modifies this
      ensures Valid()
      ensures calls == old(calls) + [Call(ChatMessage(matchID), Audience(registry.State(), matchID))]
    {
      calls := calls + [Call(ChatMessage(matchID), Audience(registry.State(), matchID))];
    }

    /** The socket closed: the client is removed, and if it was registered the Master announces it gone. */
    method OnClose(clientID: ClientID)
      requires Valid()
      modifies this, registry
      ensures Valid()
      ensures registry.State() == Removed(old(registry.State()), clientID)
      ensures registry.pubSubCalls == old(registry.pubSubCalls) + RemoveCalls(old(registry.State()), clientID)
      ensures clientID !in registry.clientInfo
      ensures match Lookup(old(registry.clientInfo), clientID)
        case None => calls == old(calls)
        case Some(c) =>
          calls == old(calls) + [Call(ConnectionChange(c.matchID, c.playerID, c.credentials, false),
                                      Audience(registry.State(), c.matchID))]
    {
      var client := Lookup(registry.clientInfo, clientID);
      RemovePreservesConsistent(registry.State(), clientID);
      registry.RemoveClient(clientID);
      if client.Some? {
        var c := client.value;
        calls := calls + [Call(ConnectionChange(c.matchID, c.playerID, c.credentials, false),
                               Audience(registry.State(), c.matchID))];
      }
    }
  }

  /** Two updates of one match wait on one queue; updates of two matches that are both new get two queues. */
  method UpdatesShareQueuePerMatch(a: string, b: string) returns (first: QueueID, second: QueueID, other: QueueID)
    requires a != b
    ensures first == second
    ensures first != other
  {
    var t := new WebSocketTransport([]);
    t.OnUpdate(a);
    first := t.calls[0].master.queue;
    t.OnUpdate(a);
    second := t.calls[1].master.queue;
    t.OnUpdate(b);
    other := t.calls[2].master.queue;
  }

  /** A sync coming back unauthorized leaves the client unregistered, with one Master call and no presence change. */
  method UnauthorizedSyncRegistersNothing(clientID: ClientID, socket: SocketID, matchID: string, playerID: Option<string>)
    returns (registered: bool, calls: seq<Call>)
    ensures !registered
    ensures calls == [Call(Sync(matchID, playerID, None), {})]
  {
    var t := new WebSocketTransport([]);
    t.OnSync(clientID, socket, matchID, playerID, None, Some(Unauthorized));
    registered := clientID in t.registry.clientInfo;
    calls := t.calls;
  }

  /** What a received message asks of a handler, by its `type`; any other type is ignored. */
  datatype Inbound =
    | InUpdate(matchID: Option<Json>)
    | InSync(matchID: Option<Json>, playerID: Option<Json>, credentials: Option<Json>)
    | InChat(matchID: Option<Json>)
    | Ignored

  /** The `switch (payload.type)` of the message listener and the arguments each case destructures. */
  function Dispatch(e: Envelope): Inbound {
    if e.kind == "update" then InUpdate(ArgAt(e.args, 2))
    else if e.kind == "sync" then InSync(ArgAt(e.args, 0), ArgAt(e.args, 1), ArgAt(e.args, 2))
    else if e.kind == "chat" then InChat(ArgAt(e.args, 0))
    else Ignored
  }

  // ---------------------------------------------------------------------
  // The Fresh route on /ws/games/[name].

  const RoutePrefix: string := "/ws/games/"

  /** The `[name]` of a request path that matches `/ws/games/[name]`: one non-empty segment after the prefix. */
  function RouteParam(path: string): (name: Option<string>)
    ensures name.Some? ==> path == RoutePrefix + name.value && name.value != [] && '/' !in name.value
  {
    if |path| > |RoutePrefix| && path[..|RoutePrefix|] == RoutePrefix && '/' !in path[|RoutePrefix|..]
    then Some(path[|RoutePrefix|..]) else None
  }

  datatype RouteResult = NotFound | Upgraded(game: nat) | Next

  /** `games.find((g) => g.name === name)`: the first game of that name. */
  function FindGame(games: seq<string>, name: string): (r: Option<nat>)
    ensures r.Some? ==> r.value < |games| && games[r.value] == name
    ensures r.Some? ==> forall i :: 0 <= i < r.value ==> games[i] != name
    ensures r.None? <==> name !in games
  {
    if games == [] then None
    else if games[0] == name then Some(0)
    else match FindGame(games[1..], name)
      case None => None
      case Some(i) => Some(i + 1)
  }

  /**
   * An unknown game is not found; a request whose headers are exactly
   * `Connection: Upgrade` and `Upgrade: websocket` is upgraded; any other
   * request goes on to the next handler. A header that is absent is None.
   */
  function Route(games: seq<string>, name: string, connection: Option<string>, upgrade: Option<string>): RouteResult {
    match FindGame(games, name)
    case None => NotFound
    case Some(g) =>
      if connection == Some("Upgrade") && upgrade == Some("websocket") then Upgraded(g) else Next
  }

  // The opening handshake of RFC 6455, section 4.2.1: the Connection header
  // includes the token "Upgrade" and the Upgrade header holds "websocket",
  // both compared as ASCII case-insensitive values. Section 7.3 of RFC 9110
  // makes Connection a comma-separated list with optional whitespace.

  function AsciiLower(c: char): char {
    if 'A' <= c <= 'Z' then (c as int + 32) as char else c
  }

  function Lower(s: string): string {
    seq(|s|, i requires 0 <= i < |s| => AsciiLower(s[i]))
  }

  predicate IsOws(c: char) {
    c == ' ' || c == '\t'
  }

  function TrimStart(s: string): (r: string)
    ensures r != [] ==> !IsOws(r[0])
  {
    if s != [] && IsOws(s[0]) then TrimStart(s[1..]) else s
  }

  function TrimEnd(s: string): (r: string)
    ensures r != [] ==> !IsOws(r[|r| - 1])
  {
    if s != [] && IsOws(s[|s| - 1]) then TrimEnd(s[..|s| - 1]) else s
  }

  function Trim(s: string): string {
    TrimEnd(TrimStart(s))
  }

  /** The comma-separated fields of `s`, as `split(",")` gives them. */
  function Fields(s: string): (r: seq<string>)
    ensures |r| >= 1
  {
    if s == [] then [""]
    else
      var rest := Fields(s[1..]);
      if s[0] == ',' then [""] + rest else [[s[0]] + rest[0]] + rest[1..]
  }

  lemma {:induction false} FieldsWithoutComma(s: string)
    requires ',' !in s
    ensures Fields(s) == [s]
  {
    if s != [] {
      assert s == [s[0]] + s[1..];
      FieldsWithoutComma(s[1..]);
      assert [s[0]] + s[1..] == s;
    }
  }

  lemma {:induction false} FieldsAfterComma(a: string, b: string)
    requires ',' !in a
    ensures Fields(a + "," + b) == [a] + Fields(b)
  {
    if a == [] {
      assert a + "," + b == [','] + b;
      assert ([','] + b)[1..] == b;
    } else {
      assert a == [a[0]] + a[1..];
      FieldsAfterComma(a[1..], b);
      assert (a + "," + b)[1..] == a[1..] + "," + b;
      assert [a[0]] + a[1..] == a;
    }
  }

  /** The Connection header lists the token "upgrade", in any case. */
  predicate ListsUpgrade(connection: string) {
    exists f :: f in Fields(connection) && Lower(Trim(f)) == "upgrade"
  }

  /** The route with the handshake checks of RFC 6455. */
  function RouteIntended(games: seq<string>, name: string, connection: Option<string>, upgrade: Option<string>): RouteResult {
    match FindGame(games, name)
    case None => NotFound
    case Some(g) =>
      if connection.Some? && ListsUpgrade(connection.value) && upgrade.Some? && Lower(Trim(upgrade.value)) == "websocket"
      then Upgraded(g) else Next
  }

  lemma LowerUpgrade()
    ensures Lower("Upgrade") == "upgrade" && Lower("websocket") == "websocket"
  {
  }

  lemma TrimHeaders()
    ensures Trim("Upgrade") == "Upgrade" && Trim(" Upgrade") == "Upgrade" && Trim("websocket") == "websocket"
  {
    assert TrimStart(" Upgrade") == TrimStart("Upgrade");
  }

  lemma ListsUpgradeBy(connection: string, f: string)
    requires f in Fields(connection) && Lower(Trim(f)) == "upgrade"
    ensures ListsUpgrade(connection)
  {
  }

  /** Every request the route upgrades is upgraded the intended way too, and both find the same game. */
  lemma RouteIntendedExtends(games: seq<string>, name: string, connection: Option<string>, upgrade: Option<string>)
    ensures Route(games, name, connection, upgrade).Upgraded? ==>
      RouteIntended(games, name, connection, upgrade) == Route(games, name, connection, upgrade)
    ensures Route(games, name, connection, upgrade).NotFound? <==> RouteIntended(games, name, connection, upgrade).NotFound?
  {
    if Route(games, name, connection, upgrade).Upgraded? {
      FieldsWithoutComma("Upgrade");
      LowerUpgrade();
      TrimHeaders();
      ListsUpgradeBy("Upgrade", "Upgrade");
    }
  }

  /** A header of two comma-free fields splits into exactly those two. */
  lemma FieldsOfTwo(a: string, b: string)
    requires ',' !in a && ',' !in b
    ensures Fields(a + "," + b) == [a, b]
  {
    FieldsAfterComma(a, b);
    FieldsWithoutComma(b);
  }

  lemma FieldsKeepAlive()
    ensures Fields("keep-alive, Upgrade") == ["keep-alive", " Upgrade"]
  {
    var a, b := "keep-alive", " Upgrade";
    assert ',' !in a && ',' !in b;
    assert "keep-alive, Upgrade" == a + "," + b;
    FieldsOfTwo(a, b);
  }

  /**
   * A browser that sends `Connection: keep-alive, Upgrade` is passed on to
   * the next handler, where the handshake asks for an upgrade.
   */
  lemma KeepAliveUpgradeRefused(games: seq<string>, name: string)
    requires name in games
    ensures var connection := Some("keep-alive, Upgrade");
      Route(games, name, connection, Some("websocket")) == Next
      && RouteIntended(games, name, connection, Some("websocket")).Upgraded?
  {
    FieldsKeepAlive();
    TrimHeaders();
    LowerUpgrade();
    ListsUpgradeBy("keep-alive, Upgrade", " Upgrade");
  }
}
