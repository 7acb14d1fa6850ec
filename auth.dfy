/**
 * The credential check of lib/server/auth.ts, which boardgame.io's master
 * calls for every action, sync and chat message of a seated player.
 */
module Auth {
  import opened Wrappers
  import opened MatchData

  /** `authenticate`: non-empty credentials, a slot, and equal stored credentials. */
  predicate Authenticate(actionCredentials: string, playerMetadata: Option<PlayerMetadata>) {
    if actionCredentials == "" then false
    else if playerMetadata.None? then false
    else playerMetadata.value.credentials == Some(actionCredentials)
  }

  /** The slot `metadata.players[playerID]`, if there is one. */
  function Slot(metadata: Metadata, playerID: string): Option<PlayerMetadata> {
    if playerID in metadata.players then Some(metadata.players[playerID]) else None
  }

  /** `auth.authenticateCredentials`. */
  predicate AuthenticateCredentials(playerID: string, credentials: Option<string>, metadata: Metadata) {
    var slot := Slot(metadata, playerID);
    credentials.Some? && credentials.value != "" && slot.Some?
    && Authenticate(credentials.value, slot)
  }

  /**
   * The check accepts exactly non-empty credentials that are the ones stored
   * in the player's own slot.
   */
  lemma AcceptsExactly(playerID: string, credentials: Option<string>, metadata: Metadata)
    ensures AuthenticateCredentials(playerID, credentials, metadata) <==>
      credentials.Some? && credentials.value != ""
      && playerID in metadata.players
      && metadata.players[playerID].credentials == credentials
  {
  }

  /** Undefined or empty credentials are rejected whatever is stored. */
  lemma RejectsMissingCredentials(playerID: string, metadata: Metadata)
    ensures !AuthenticateCredentials(playerID, None, metadata)
    ensures !AuthenticateCredentials(playerID, Some(""), metadata)
  {
  }

  /** A player ID with no slot is rejected. */
  lemma RejectsUnseated(playerID: string, credentials: Option<string>, metadata: Metadata)
    requires playerID !in metadata.players
    ensures !AuthenticateCredentials(playerID, credentials, metadata)
  {
  }

  /** A slot whose credentials were never set rejects every credential. */
  lemma RejectsUnsetSlot(playerID: string, credentials: Option<string>, metadata: Metadata)
    requires playerID in metadata.players && metadata.players[playerID].credentials.None?
    ensures !AuthenticateCredentials(playerID, credentials, metadata)
  {
  }

  /** Only the addressed slot matters: other slots and the rest of the metadata are ignored. */
  lemma OnlyOwnSlot(playerID: string, credentials: Option<string>, m1: Metadata, m2: Metadata)
    requires Slot(m1, playerID) == Slot(m2, playerID)
    ensures AuthenticateCredentials(playerID, credentials, m1) == AuthenticateCredentials(playerID, credentials, m2)
  {
  }
}
