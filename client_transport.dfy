/**
 * The browser side of the WebSocket transport (lib/client/transport.ts):
 * where the socket connects, and the `{ type, args }` envelopes it sends,
 * whose positions the server's handlers read back.
 *
 * The socket is an outbox: every `send`, and every change of the connection
 * status, is appended to `trace` in order.
 */
module ClientTransport {
  import opened Wrappers
  import opened Wire
  import Transport

  // ---------------------------------------------------------------------
  // The socket URL.

  /** `s` without its trailing slashes. */
  function StripSlashes(s: string): (r: string)
    ensures |r| <= |s| && r == s[..|r|]
    ensures r == [] || r[|r| - 1] != '/'
    ensures forall i :: |r| <= i < |s| ==> s[i] == '/'
  {
    if s != [] && s[|s| - 1] == '/' then StripSlashes(s[..|s| - 1]) else s
  }

  /** `opts.base?.replace(/\/+$/, "") ?? ""`. */
  function Base(base: Option<string>): string {
    if base.Some? then StripSlashes(base.value) else ""
  }

  /** The path the socket opens, relative to the page's origin. */
  function SocketPath(base: Option<string>, gameName: string): string {
    Base(base) + Transport.RoutePrefix + gameName
  }

  /** `s.replace(pattern, replacement)` with a string pattern: only the first occurrence is replaced. */
  function ReplaceFirst(s: string, pattern: string, replacement: string): string
    decreases |s|
  {
    if |pattern| <= |s| && s[..|pattern|] == pattern then replacement + s[|pattern|..]
    else if s == [] then []
    else [s[0]] + ReplaceFirst(s[1..], pattern, replacement)
  }

  /** `location.origin.replace("http", "ws")`. */
  function SocketOrigin(origin: string): string {
    ReplaceFirst(origin, "http", "ws")
  }

  /** An http page opens a ws socket and an https page a wss socket on the same host. */
  lemma SocketOriginSchemes(host: string)
    ensures SocketOrigin("http://" + host) == "ws://" + host
    ensures SocketOrigin("https://" + host) == "wss://" + host
  {
    assert ("http://" + host)[..4] == "http";
    assert ("http://" + host)[4..] == "://" + host;
    assert ("https://" + host)[..4] == "http";
    assert ("https://" + host)[4..] == "s://" + host;
  }

  /** Without a base the path is the route of the Fresh transport, and the route's parameter is the game's name. */
  lemma SocketPathMatchesRoute(gameName: string)
    requires gameName != [] && '/' !in gameName
    ensures SocketPath(None, gameName) == Transport.RoutePrefix + gameName
    ensures Transport.RouteParam(SocketPath(None, gameName)) == Some(gameName)
  {
    var path := SocketPath(None, gameName);
    assert path == Transport.RoutePrefix + gameName;
    assert path[..|Transport.RoutePrefix|] == Transport.RoutePrefix;
    assert path[|Transport.RoutePrefix|..] == gameName;
  }

  /** Trailing slashes of the base do not double the separator: any number of them gives the same path. */
  lemma {:induction false} BaseSlashesIgnored(base: string, slashes: nat, gameName: string)
    ensures SocketPath(Some(base + seq(slashes, _ => '/')), gameName) == SocketPath(Some(base), gameName)
  {
    var padded := base + seq(slashes, _ => '/');
    if slashes > 0 {
      assert padded[..|padded| - 1] == base + seq(slashes - 1, _ => '/');
      BaseSlashesIgnored(base, slashes - 1, gameName);
    } else {
      assert padded == base;
    }
  }

  // ---------------------------------------------------------------------
  // The envelopes.

  /** `sendAction`: `[action, state._stateID, matchID, playerID]`. */
  function UpdateEnvelope(action: nat, stateID: int, matchID: string, playerID: Option<string>): Envelope {
    Envelope("update", [JToken(action), JNum(stateID), JStr(matchID), Encoded(playerID)])
  }

  /** `sendChatMessage`: `[matchID, chatMessage, credentials]`. */
  function ChatEnvelope(matchID: string, chatMessage: nat, credentials: Option<string>): Envelope {
    Envelope("chat", [JStr(matchID), JToken(chatMessage), Encoded(credentials)])
  }

  /** `requestSync`: `[matchID, playerID, credentials, numPlayers]`. */
  function SyncEnvelope(matchID: string, playerID: Option<string>, credentials: Option<string>, numPlayers: nat): Envelope {
    Envelope("sync", [JStr(matchID), Encoded(playerID), Encoded(credentials), JNum(numPlayers)])
  }

  /** The server reads each envelope back as the case it was built for, with the match, player and credentials it carries. */
  lemma ServerReadsEnvelopes(action: nat, stateID: int, matchID: string, playerID: Option<string>,
                             credentials: Option<string>, chatMessage: nat, numPlayers: nat)
    ensures Transport.Dispatch(UpdateEnvelope(action, stateID, matchID, playerID)) == Transport.InUpdate(Some(JStr(matchID)))
    ensures Transport.Dispatch(ChatEnvelope(matchID, chatMessage, credentials)) == Transport.InChat(Some(JStr(matchID)))
    ensures var d := Transport.Dispatch(SyncEnvelope(matchID, playerID, credentials, numPlayers));
      d.InSync? && d.matchID == Some(JStr(matchID))
      && d.playerID.Some? && Decoded(d.playerID.value) == playerID
      && d.credentials.Some? && Decoded(d.credentials.value) == credentials
  {
    DecodedEncoded(playerID);
    DecodedEncoded(credentials);
  }

  /** A message of any other type reaches no handler. */
  lemma OtherTypesIgnored(e: Envelope)
    requires e.kind != "update" && e.kind != "sync" && e.kind != "chat"
    ensures Transport.Dispatch(e) == Transport.Ignored
  {
  }

  /** What the client does with its socket, in order. */
  datatype Event = Sent(envelope: Envelope) | StatusSet(connected: bool) | Reconnect | CloseSocket | Notified(token: nat)

  class WebSocketTransport {
    /** The socket's path and the origin it is resolved against. */
    const path: string
    const origin: string
    var matchID: string
    var playerID: Option<string>
    var credentials: Option<string>
    const numPlayers: nat
    var trace: seq<Event>

    /** The socket starts closed: nothing is sent until `connect()`. */
    constructor (base: Option<string>, gameName: string, pageOrigin: string, matchID: string,
                 playerID: Option<string>, credentials: Option<string>, numPlayers: nat)
      ensures path == SocketPath(base, gameName) && origin == SocketOrigin(pageOrigin)
      ensures this.matchID == matchID && this.playerID == playerID && this.credentials == credentials
      ensures this.numPlayers == numPlayers && trace == []
    {
      path := SocketPath(base, gameName);
      origin := SocketOrigin(pageOrigin);
      this.matchID := matchID;
      this.playerID := playerID;
      this.credentials := credentials;
      this.numPlayers := numPlayers;
      trace := [];
    }

    function CurrentSync(): Envelope
      reads this
    {
      SyncEnvelope(matchID, playerID, credentials, numPlayers)
    }

    method Connect()
      modifies this
      ensures trace == old(trace) + [Reconnect]
      ensures matchID == old(matchID) && playerID == old(playerID) && credentials == old(credentials)
    {
      trace := trace + [Reconnect];
    }

    method Disconnect()
      modifies this
      ensures trace == old(trace) + [CloseSocket]
      ensures matchID == old(matchID) && playerID == old(playerID) && credentials == old(credentials)
    {
      trace := trace + [CloseSocket];
    }

    method SendAction(stateID: int, action: nat)
      modifies this
      ensures trace == old(trace) + [Sent(UpdateEnvelope(action, stateID, matchID, playerID))]
      ensures matchID == old(matchID) && playerID == old(playerID) && credentials == old(credentials)
    {
      trace := trace + [Sent(UpdateEnvelope(action, stateID, matchID, playerID))];
    }

    /** The chat goes to the match it is given, with the transport's credentials. */
    method SendChatMessage(chatMatchID: string, chatMessage: nat)
      modifies this
      ensures trace == old(trace) + [Sent(ChatEnvelope(chatMatchID, chatMessage, credentials))]
      ensures matchID == old(matchID) && playerID == old(playerID) && credentials == old(credentials)
    {
      trace := trace + [Sent(ChatEnvelope(chatMatchID, chatMessage, credentials))];
    }

    method RequestSync()
      modifies this
      ensures trace == old(trace) + [Sent(CurrentSync())]
      ensures matchID == old(matchID) && playerID == old(playerID) && credentials == old(credentials)
    {
      trace := trace + [Sent(SyncEnvelope(matchID, playerID, credentials, numPlayers))];
    }

    /** Each update sets its field first, then sends one sync that carries the new value. */
    method UpdateMatchID(id: string)
      modifies this
      ensures matchID == id && playerID == old(playerID) && credentials == old(credentials)
      ensures trace == old(trace) + [Sent(SyncEnvelope(id, playerID, credentials, numPlayers))]
    {
      matchID := id;
      RequestSync();
    }

    method UpdatePlayerID(id: string)
      modifies this
      ensures playerID == Some(id) && matchID == old(matchID) && credentials == old(credentials)
      ensures trace == old(trace) + [Sent(SyncEnvelope(matchID, Some(id), credentials, numPlayers))]
    {
      playerID := Some(id);
      RequestSync();
    }

    method UpdateCredentials(credentials: Option<string>)
      modifies this
      ensures this.credentials == credentials && matchID == old(matchID) && playerID == old(playerID)
      ensures trace == old(trace) + [Sent(SyncEnvelope(matchID, playerID, credentials, numPlayers))]
    {
      this.credentials := credentials;
      RequestSync();
    }

    /** The socket opened: a sync is requested, and only then is the client told it is connected. */
    method OnOpen()
      modifies this
      ensures trace == old(trace) + [Sent(CurrentSync()), StatusSet(true)]
      ensures matchID == old(matchID) && playerID == old(playerID) && credentials == old(credentials)
    {
      RequestSync();
      trace := trace + [StatusSet(true)];
    }

    /** A message arrived: its parsed data is handed to the client. */
    method OnMessage(data: nat)
      modifies this
      ensures trace == old(trace) + [Notified(data)]
      ensures matchID == old(matchID) && playerID == old(playerID) && credentials == old(credentials)
    {
      trace := trace + [Notified(data)];
    }

    method OnClose()
      modifies this
      ensures trace == old(trace) + [StatusSet(false)]
      ensures matchID == old(matchID) && playerID == old(playerID) && credentials == old(credentials)
    {
      trace := trace + [StatusSet(false)];
    }
  }

  /**
   * A client that picks a match and then takes a seat: the sync sent on
   * picking carries the match alone, the last one the seat and the
   * credentials too, and the server reads the seat's player ID from it.
   */
  method JoinThenSeat(gameName: string, matchID: string, playerID: string, credentials: string)
    returns (first: Envelope, last: Envelope, readBack: Option<string>, sends: nat)
    ensures first == SyncEnvelope(matchID, None, None, 2)
    ensures last == SyncEnvelope(matchID, Some(playerID), Some(credentials), 2)
    ensures readBack == Some(playerID)
    ensures sends == 3
  {
    var client := new WebSocketTransport(None, gameName, "https://boardgame.deno.dev", "default", None, None, 2);
    client.Connect();
    client.UpdateMatchID(matchID);
    first := client.trace[1].envelope;
    client.UpdatePlayerID(playerID);
    client.UpdateCredentials(Some(credentials));
    last := client.trace[3].envelope;
    var d := Transport.Dispatch(last);
    readBack := Decoded(d.playerID.value);
    sends := |client.trace| - 1;
  }
}
