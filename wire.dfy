/**
 * The messages between the browser client and the WebSocket transports:
 * `JSON.stringify({ type, args })` with positional arguments. Values the
 * model does not look into (an action, a chat message) are tokens.
 */
module Wire {
  import opened Wrappers

  /** A JSON value as the envelopes carry it; `undefined` inside an array is written as `null`. */
  datatype Json = JStr(s: string) | JNum(n: int) | JNull | JToken(token: nat)

  datatype Envelope = Envelope(kind: string, args: seq<Json>)

  /** An optional string as it goes on the wire. */
  function Encoded(o: Option<string>): Json {
    if o.Some? then JStr(o.value) else JNull
  }

  /** A received argument read as an optional string. */
  function Decoded(j: Json): Option<string> {
    if j.JStr? then Some(j.s) else None
  }

  lemma DecodedEncoded(o: Option<string>)
    ensures Decoded(Encoded(o)) == o
  {
  }

  /** `args[i]`, with None where the array is too short and JavaScript reads `undefined`. */
  function ArgAt(args: seq<Json>, i: nat): Option<Json> {
    if i < |args| then Some(args[i]) else None
  }
}
