/**
 * A `BroadcastChannel` object as the two pub/sub classes use it: its name,
 * its closed flag, the callbacks of its "message" listeners and the messages
 * posted through it. Following the HTML Living Standard (section 9.6.1,
 * "Broadcasting to other browsing contexts"), `close()` only sets the closed
 * flag, and `postMessage` on a closed channel throws an InvalidStateError.
 * Delivery of posted messages to other channel objects is not modelled.
 */
module Channels {
  import opened Wrappers

  /** A subscriber's callback, by identity. */
  type CallbackID = nat

  datatype ChannelError = InvalidStateError

  datatype Handle<T> = Handle(name: string, closed: bool, listeners: seq<CallbackID>, posted: seq<T>)

  /** `new BroadcastChannel(name)`. */
  function Opened<T>(name: string): Handle<T> {
    Handle(name, false, [], [])
  }

  /** `close()`. */
  function Closed<T>(h: Handle<T>): Handle<T> {
    h.(closed := true)
  }

  /** `addEventListener("message", ...)`, which a closed channel accepts too. */
  function Listening<T>(h: Handle<T>, callback: CallbackID): Handle<T> {
    h.(listeners := h.listeners + [callback])
  }

  /** `postMessage(payload)`. */
  function Posted<T>(h: Handle<T>, payload: T): Result<Handle<T>, ChannelError> {
    if h.closed then Failure(InvalidStateError) else Success(h.(posted := h.posted + [payload]))
  }

  /** Posting succeeds exactly on an open channel, and then adds just that message. */
  lemma PostedExactly<T>(h: Handle<T>, payload: T)
    ensures Posted(h, payload).Success? <==> !h.closed
    ensures Posted(h, payload).Success? ==>
      Posted(h, payload).value.posted == h.posted + [payload]
      && Posted(h, payload).value.listeners == h.listeners && !Posted(h, payload).value.closed
  {
  }

  /**
   * A new channel is open, named as asked and empty; a listener added to it
   * is recorded once, and a message posted on it then is accepted.
   */
  lemma OpenedListens<T>(name: string, callback: CallbackID, payload: T)
    ensures !Opened<T>(name).closed && Opened<T>(name).name == name
    ensures Opened<T>(name).listeners == [] && Opened<T>(name).posted == []
    ensures Listening(Opened<T>(name), callback).listeners == [callback]
    ensures Posted(Listening(Opened<T>(name), callback), payload)
         == Success(Handle(name, false, [callback], [payload]))
  {
    assert [] + [callback] == [callback] && [] + [payload] == [payload];
  }

  /** Closing twice is closing once, and a closed channel stays closed whatever listens to it. */
  lemma ClosedStays<T>(h: Handle<T>, callback: CallbackID)
    ensures Closed(Closed(h)) == Closed(h)
    ensures Listening(Closed(h), callback).closed
    ensures Closed(h).listeners == h.listeners && Closed(h).name == h.name
  {
  }
}
