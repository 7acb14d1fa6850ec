/**
 * The records that the storage backends keep for a match, and the
 * `listMatches` filters of the two kinds of backend.
 *
 * boardgame.io's `State` and `LogEntry` are opaque here: a token stands for
 * the object. Of the match metadata (`Server.MatchData`) the model keeps what
 * the code reads: the game name, the player slots, `gameover` and `updatedAt`.
 */
module MatchData {
  import opened Wrappers

  datatype State = State(token: nat)
  datatype LogEntry = LogEntry(token: nat)

  /** `gameover` holds any value once the game ends; only its truthiness is read. */
  datatype Gameover = Gameover(truthy: bool)

  /** A player slot: the name and the credentials handed out when someone joins. */
  datatype PlayerMetadata = PlayerMetadata(name: Option<string>, credentials: Option<string>)

  datatype Metadata = Metadata(
    gameName: string,
    players: map<string, PlayerMetadata>,
    gameover: Option<Gameover>,
    updatedAt: int)

  /** A value in the key-value store: every record the backends write is an object or an array. */
  datatype Value = StateValue(state: State) | MetadataValue(metadata: Metadata) | LogValue(entries: seq<LogEntry>)

  /**
   * A stored value read as metadata: None when it is some other record, whose
   * `gameName`, `gameover` and `updatedAt` properties are then undefined.
   */
  function MetadataView(v: Value): Option<Metadata> {
    if v.MetadataValue? then Some(v.metadata) else None
  }

  /**
   * What an operation of a backend throws: the KV backend's guard before
   * `connect()`, and the TypeError of spreading a stored value that is not an
   * array.
   */
  datatype StoreError = NotConnected | NotIterable

  /** The message of the KV backend's guard. */
  const NotConnectedMessage: string := "KV is not connected!"

  /** `[...(log || []), ...deltalog]` over the value at the log key; `log ?? []` is the same, as no record is falsy. */
  function AppendedLog(prior: Option<Value>, deltalog: seq<LogEntry>): Result<Value, StoreError> {
    match prior
    case None => Success(LogValue(deltalog))
    case Some(LogValue(entries)) => Success(LogValue(entries + deltalog))
    case Some(_) => Failure(NotIterable)
  }

  datatype FetchOpts = FetchOpts(state: bool, metadata: bool, log: bool, initialState: bool)

  const FetchAll := FetchOpts(true, true, true, true)

  /** A `FetchResult`; a field absent from the result object is None. */
  datatype FetchResult = FetchResult(state: Option<Value>, metadata: Option<Value>, log: Option<Value>, initialState: Option<Value>)

  /** The `where` part of `StorageAPI.ListMatchesOpts`; each filter may be undefined. */
  datatype Where = Where(isGameover: Option<bool>, updatedBefore: Option<int>, updatedAfter: Option<int>)

  datatype ListOpts = ListOpts(gameName: Option<string>, where: Option<Where>)

  // ---------------------------------------------------------------------
  // The unstorage backends.

  /**
   * `listMatches` of the unstorage backends for one match, when options are
   * given: a sequence of early `return false`s. A comparison with an
   * undefined `updatedAt` is false, so it never rejects.
   */
  predicate UnstorageAccepts(opts: ListOpts, meta: Option<Metadata>) {
    if opts.gameName.Some? && opts.gameName.value != ""
       && (meta.None? || opts.gameName.value != meta.value.gameName) then false
    else if opts.where.None? then true
    else
      var w := opts.where.value;
      if w.isGameover.Some? && (meta.Some? && meta.value.gameover.Some?) != w.isGameover.value then false
      else if w.updatedBefore.Some? && meta.Some? && meta.value.updatedAt >= w.updatedBefore.value then false
      else if w.updatedAfter.Some? && meta.Some? && meta.value.updatedAt <= w.updatedAfter.value then false
      else true
  }

  /**
   * The filters combine with AND, each one imposing nothing when undefined:
   * the game name must be equal (an empty name is no filter), `isGameover`
   * must equal whether `gameover` is defined at all, and `updatedAt` must lie
   * strictly between `updatedAfter` and `updatedBefore`.
   */
  lemma UnstorageFiltersConjoin(opts: ListOpts, m: Metadata)
    ensures UnstorageAccepts(opts, Some(m)) <==>
      (opts.gameName.None? || opts.gameName.value == "" || opts.gameName.value == m.gameName)
      && (opts.where.Some? ==>
            (opts.where.value.isGameover.None? || opts.where.value.isGameover.value == m.gameover.Some?)
            && (opts.where.value.updatedBefore.None? || m.updatedAt < opts.where.value.updatedBefore.value)
            && (opts.where.value.updatedAfter.None? || m.updatedAt > opts.where.value.updatedAfter.value))
  {
  }

  // ---------------------------------------------------------------------
  // The Deno KV backend.

  /**
   * The `continue` conditions of the KV `listMatches` loop for one entry:
   * every filter is checked for truthiness, so `isGameover: false`, an empty
   * game name and a zero time bound impose nothing.
   */
  predicate KvAccepts(opts: Option<ListOpts>, meta: Option<Metadata>) {
    if opts.None? then true
    else
      var o := opts.value;
      if o.gameName.Some? && o.gameName.value != "" && (meta.None? || meta.value.gameName != o.gameName.value) then false
      else if o.where.None? then true
      else
        var w := o.where.value;
        if w.isGameover == Some(true) && (meta.None? || meta.value.gameover.None? || !meta.value.gameover.value.truthy) then false
        else if w.updatedBefore.Some? && w.updatedBefore.value != 0 && meta.Some? && meta.value.updatedAt >= w.updatedBefore.value then false
        else if w.updatedAfter.Some? && w.updatedAfter.value != 0 && meta.Some? && meta.value.updatedAt <= w.updatedAfter.value then false
        else true
  }

  /** The KV filters combine with AND; `isGameover: true` asks for a truthy `gameover`. */
  lemma KvFiltersConjoin(o: ListOpts, m: Metadata)
    ensures KvAccepts(Some(o), Some(m)) <==>
      (o.gameName.None? || o.gameName.value == "" || o.gameName.value == m.gameName)
      && (o.where.Some? ==>
            (o.where.value.isGameover == Some(true) ==> m.gameover.Some? && m.gameover.value.truthy)
            && (o.where.value.updatedBefore.None? || o.where.value.updatedBefore.value == 0
                || m.updatedAt < o.where.value.updatedBefore.value)
            && (o.where.value.updatedAfter.None? || o.where.value.updatedAfter.value == 0
                || m.updatedAt > o.where.value.updatedAfter.value))
  {
  }

  /** `isGameover: false` filters nothing in the KV backend. */
  lemma KvIgnoresIsGameoverFalse(o: ListOpts, w: Where, m: Option<Metadata>)
    requires o.where == Some(w) && w.isGameover == Some(false)
    ensures KvAccepts(Some(o), m) == KvAccepts(Some(o.(where := Some(w.(isGameover := None)))), m)
  {
  }

  /**
   * The two kinds of backend agree when `isGameover` is not `false`, a
   * `gameover` that is defined is truthy, and the time bounds are not zero.
   */
  lemma BackendsAgree(o: ListOpts, m: Metadata)
    requires o.where.Some? ==> o.where.value.isGameover != Some(false)
    requires m.gameover.Some? ==> m.gameover.value.truthy
    requires o.where.Some? ==> o.where.value.updatedBefore != Some(0) && o.where.value.updatedAfter != Some(0)
    ensures UnstorageAccepts(o, Some(m)) == KvAccepts(Some(o), Some(m))
  {
    UnstorageFiltersConjoin(o, m);
    KvFiltersConjoin(o, m);
  }

  /** A finished match is skipped by `isGameover: false` in unstorage but listed by the KV backend. */
  lemma BackendsDisagreeOnIsGameoverFalse(m: Metadata)
    requires m.gameover.Some?
    ensures !UnstorageAccepts(ListOpts(None, Some(Where(Some(false), None, None))), Some(m))
    ensures KvAccepts(Some(ListOpts(None, Some(Where(Some(false), None, None)))), Some(m))
  {
  }
}
