/**
 * The Deno KV backend of boardgame.io's storage API (lib/server/db.ts).
 *
 * Keys are tuples of strings: a match `id` owns `["matches", id]` (the
 * latest state), `["matches", id, "initial"]`, `["matches", id, "log"]` and
 * `["matches", id, "metadata"]`. Every operation throws before `connect()`.
 */
module Kv {
  import opened Wrappers
  import opened MatchData

  type Key = seq<string>
  type KvStore = map<Key, Value>

  function MatchKey(matchID: string): Key { ["matches", matchID] }
  function MetadataKey(matchID: string): Key { ["matches", matchID, "metadata"] }
  function InitialStateKey(matchID: string): Key { ["matches", matchID, "initial"] }
  function LogKey(matchID: string): Key { ["matches", matchID, "log"] }

  function MatchKeys(matchID: string): set<Key> {
    {MatchKey(matchID), MetadataKey(matchID), InitialStateKey(matchID), LogKey(matchID)}
  }

  /** Tuple keys never collide: each key names one match and one record. */
  lemma KeysInjective(a: string, b: string)
    ensures MatchKey(a) != MetadataKey(b) && MatchKey(a) != InitialStateKey(b) && MatchKey(a) != LogKey(b)
    ensures MetadataKey(a) != InitialStateKey(b) && MetadataKey(a) != LogKey(b) && InitialStateKey(a) != LogKey(b)
    ensures a != b ==> forall k :: k in MatchKeys(a) ==> k !in MatchKeys(b)
  {
    if a != b {
      assert MatchKey(a)[1] != MatchKey(b)[1];
    }
  }

  // ---------------------------------------------------------------------
  // The store after each operation, as functions of the store before.

  /** `setState`: append a non-empty deltalog to the log, then overwrite the state. */
  function WithState(kv: KvStore, matchID: string, state: State, deltalog: Option<seq<LogEntry>>): Result<KvStore, StoreError> {
    if deltalog.Some? && |deltalog.value| > 0 then
      match AppendedLog(Lookup(kv, LogKey(matchID)), deltalog.value)
      case Success(log) => Success(kv[LogKey(matchID) := log][MatchKey(matchID) := StateValue(state)])
      case Failure(e) => Failure(e)
    else Success(kv[MatchKey(matchID) := StateValue(state)])
  }

  function WithMetadata(kv: KvStore, matchID: string, metadata: Metadata): KvStore {
    kv[MetadataKey(matchID) := MetadataValue(metadata)]
  }

  /** `createMatch`: the initial key, then the state, then the metadata. */
  function Created(kv: KvStore, matchID: string, initialState: State, metadata: Metadata): KvStore {
    var withInitial := kv[InitialStateKey(matchID) := StateValue(initialState)];
    WithMetadata(withInitial[MatchKey(matchID) := StateValue(initialState)], matchID, metadata)
  }

  function Wiped(kv: KvStore, matchID: string): KvStore {
    kv - MatchKeys(matchID)
  }

  /** A requested field is present when its entry's value is truthy, as every stored record is. */
  function Requested(kv: KvStore, key: Key, wanted: bool): Option<Value> {
    if wanted then Lookup(kv, key) else None
  }

  function FetchFrom(kv: KvStore, matchID: string, opts: FetchOpts): FetchResult {
    FetchResult(
      Requested(kv, MatchKey(matchID), opts.state),
      Requested(kv, MetadataKey(matchID), opts.metadata),
      Requested(kv, LogKey(matchID), opts.log),
      Requested(kv, InitialStateKey(matchID), opts.initialState))
  }

  // ---------------------------------------------------------------------
  // `listMatches`.

  /** A listed entry: a key and its value. */
  datatype Entry = Entry(key: Key, value: Value)

  /** `kv.list({ prefix: ["matches"] })` holds exactly the entries under that prefix. */
  ghost predicate ListingOf(kv: KvStore, listing: seq<Entry>) {
    forall e :: e in listing <==> |e.key| >= 1 && e.key[0] == "matches" && e.key in kv && kv[e.key] == e.value
  }

  /**
   * The loop body's verdict on one entry: its last key part is "metadata",
   * key part 1 is a non-empty match ID, and the filters let it through.
   */
  predicate Counts(e: Entry, opts: Option<ListOpts>) {
    |e.key| >= 2 && e.key[|e.key| - 1] == "metadata" && e.key[1] != ""
    && KvAccepts(opts, MetadataView(e.value))
  }

  /** The `result` array after the loop has seen the entries of `listing`, in order. */
  function KvListed(listing: seq<Entry>, opts: Option<ListOpts>): (ids: seq<string>)
    ensures |ids| <= |listing|
    ensures forall id :: id in ids ==> exists e :: e in listing && Counts(e, opts) && e.key[1] == id
  {
    if listing == [] then []
    else
      var last := listing[|listing| - 1];
      var ids := KvListed(listing[..|listing| - 1], opts);
      if Counts(last, opts) then ids + [last.key[1]] else ids
  }

  /** Every counted entry contributes its match ID. */
  lemma {:induction false} KvListedComplete(listing: seq<Entry>, opts: Option<ListOpts>, e: Entry)
    requires e in listing && Counts(e, opts)
    ensures e.key[1] in KvListed(listing, opts)
  {
    var last := listing[|listing| - 1];
    if e != last {
      assert e in listing[..|listing| - 1] by {
        var i :| 0 <= i < |listing| && listing[i] == e;
        assert i < |listing| - 1;
      }
      KvListedComplete(listing[..|listing| - 1], opts, e);
    }
  }

  /** The record kind each key of a match holds. */
  predicate KindOk(k: Key, v: Value)
    requires |k| >= 2
  {
    if k == LogKey(k[1]) then v.LogValue?
    else if k == MetadataKey(k[1]) then v.MetadataValue?
    else v.StateValue?
  }

  /** Under "matches" the store holds only the four records of its matches, each of its own kind. */
  predicate Shaped(kv: KvStore) {
    forall k :: k in kv && |k| >= 1 && k[0] == "matches" ==> |k| >= 2 && k in MatchKeys(k[1]) && KindOk(k, kv[k])
  }

  /** In a store of that shape, a key under "matches" that ends in "metadata" is the metadata key of its match. */
  lemma ShapedMetadataKey(kv: KvStore, k: Key)
    requires Shaped(kv) && k in kv && |k| >= 2 && k[0] == "matches"
    requires k[|k| - 1] == "metadata" && k[1] != "metadata"
    ensures k == MetadataKey(k[1])
  {
    var id := k[1];
    assert k in MatchKeys(id);
    assert k != MatchKey(id);
    assert k != InitialStateKey(id) && k != LogKey(id) by {
      assert InitialStateKey(id)[2] == "initial" && LogKey(id)[2] == "log";
    }
  }

  /** Only a metadata record is listed: an entry under a match's state, initial or log key does not count. */
  lemma KvListedSound(kv: KvStore, listing: seq<Entry>, opts: Option<ListOpts>, id: string)
    requires ListingOf(kv, listing) && Shaped(kv)
    requires id != "metadata" && id in KvListed(listing, opts)
    ensures id != "" && MetadataKey(id) in kv && KvAccepts(opts, MetadataView(kv[MetadataKey(id)]))
  {
    var e :| e in listing && Counts(e, opts) && e.key[1] == id;
    assert e.key in kv && e.key[0] == "matches" && kv[e.key] == e.value;
    ShapedMetadataKey(kv, e.key);
  }

  /** A metadata record under a non-empty ID that passes the filters is listed. */
  lemma KvListedMetadata(kv: KvStore, listing: seq<Entry>, opts: Option<ListOpts>, id: string)
    requires ListingOf(kv, listing)
    requires id != "" && MetadataKey(id) in kv && KvAccepts(opts, MetadataView(kv[MetadataKey(id)]))
    ensures id in KvListed(listing, opts)
  {
    var e := Entry(MetadataKey(id), kv[MetadataKey(id)]);
    assert e in listing;
    KvListedComplete(listing, opts, e);
  }

  /**
   * In a store of that shape, a non-empty ID other than "metadata" is listed
   * exactly when its metadata record passes the filters.
   */
  lemma KvListedExactly(kv: KvStore, listing: seq<Entry>, opts: Option<ListOpts>, id: string)
    requires ListingOf(kv, listing) && Shaped(kv)
    requires id != "metadata"
    ensures id in KvListed(listing, opts) <==>
      id != "" && MetadataKey(id) in kv && KvAccepts(opts, MetadataView(kv[MetadataKey(id)]))
  {
    if id in KvListed(listing, opts) {
      KvListedSound(kv, listing, opts, id);
    }
    if id != "" && MetadataKey(id) in kv && KvAccepts(opts, MetadataView(kv[MetadataKey(id)])) {
      KvListedMetadata(kv, listing, opts, id);
    }
  }

  /**
   * A match whose ID is "metadata" has its state key `["matches",
   * "metadata"]` taken for a metadata entry as well.
   */
  lemma StateOfMatchMetadataListed(state: State)
    ensures KvListed([Entry(MatchKey("metadata"), StateValue(state))], None) == ["metadata"]
  {
  }

  /** A metadata record under an empty match ID is never listed. */
  lemma EmptyIDNeverListed(listing: seq<Entry>, opts: Option<ListOpts>)
    ensures "" !in KvListed(listing, opts)
  {
  }

  // ---------------------------------------------------------------------
  // What the operations promise.

  /** Writing a record of the right kind under a match key keeps the shape. */
  lemma ShapedUpdate(kv: KvStore, matchID: string, k: Key, v: Value)
    requires Shaped(kv)
    requires k in MatchKeys(matchID) && KindOk(k, v)
    ensures Shaped(kv[k := v])
  {
    assert k[1] == matchID;
  }

  /** The writing operations keep the store's shape. */
  lemma OperationsKeepShape(kv: KvStore, matchID: string, state: State, deltalog: Option<seq<LogEntry>>, metadata: Metadata)
    requires Shaped(kv)
    ensures Shaped(Created(kv, matchID, state, metadata))
    ensures Shaped(WithMetadata(kv, matchID, metadata))
    ensures WithState(kv, matchID, state, deltalog).Success? ==> Shaped(WithState(kv, matchID, state, deltalog).value)
  {
    KeysInjective(matchID, matchID);
    assert MatchKey(matchID) in MatchKeys(matchID) && KindOk(MatchKey(matchID), StateValue(state));
    assert InitialStateKey(matchID) in MatchKeys(matchID) && KindOk(InitialStateKey(matchID), StateValue(state));
    assert MetadataKey(matchID) in MatchKeys(matchID) && KindOk(MetadataKey(matchID), MetadataValue(metadata));
    ShapedUpdate(kv, matchID, MetadataKey(matchID), MetadataValue(metadata));
    var k1 := kv[InitialStateKey(matchID) := StateValue(state)];
    ShapedUpdate(kv, matchID, InitialStateKey(matchID), StateValue(state));
    ShapedUpdate(k1, matchID, MatchKey(matchID), StateValue(state));
    ShapedUpdate(k1[MatchKey(matchID) := StateValue(state)], matchID, MetadataKey(matchID), MetadataValue(metadata));
    if deltalog.Some? && |deltalog.value| > 0 && WithState(kv, matchID, state, deltalog).Success? {
      var log := AppendedLog(Lookup(kv, LogKey(matchID)), deltalog.value).value;
      assert LogKey(matchID) in MatchKeys(matchID) && KindOk(LogKey(matchID), log);
      ShapedUpdate(kv, matchID, LogKey(matchID), log);
      ShapedUpdate(kv[LogKey(matchID) := log], matchID, MatchKey(matchID), StateValue(state));
    } else {
      ShapedUpdate(kv, matchID, MatchKey(matchID), StateValue(state));
    }
  }

  /** Removing records keeps the shape. */
  lemma WipeKeepsShape(kv: KvStore, matchID: string)
    requires Shaped(kv)
    ensures Shaped(Wiped(kv, matchID))
  {
  }

  /** In a store of that shape, `setState` never throws. */
  lemma SetStateSucceeds(kv: KvStore, matchID: string, state: State, deltalog: Option<seq<LogEntry>>)
    requires Shaped(kv)
    ensures WithState(kv, matchID, state, deltalog).Success?
  {
  }

  lemma FetchAfterCreate(kv: KvStore, matchID: string, initialState: State, metadata: Metadata)
    ensures FetchFrom(Created(kv, matchID, initialState, metadata), matchID, FetchAll)
      == FetchResult(Some(StateValue(initialState)), Some(MetadataValue(metadata)),
                     Lookup(kv, LogKey(matchID)), Some(StateValue(initialState)))
  {
    KeysInjective(matchID, matchID);
  }

  /**
   * A successful `setState` overwrites the state, extends the log by a
   * non-empty deltalog (starting from [] when there was none), leaves the log
   * alone otherwise, and changes no other key.
   */
  lemma SetStateEffect(kv: KvStore, matchID: string, state: State, deltalog: Option<seq<LogEntry>>)
    requires WithState(kv, matchID, state, deltalog).Success?
    ensures var after := WithState(kv, matchID, state, deltalog).value;
      && Lookup(after, MatchKey(matchID)) == Some(StateValue(state))
      && (deltalog.Some? && |deltalog.value| > 0 ==>
            Lookup(after, LogKey(matchID)) == Some(LogValue(
              (if LogKey(matchID) in kv then kv[LogKey(matchID)].entries else []) + deltalog.value)))
      && (deltalog.None? || deltalog.value == [] ==> Lookup(after, LogKey(matchID)) == Lookup(kv, LogKey(matchID)))
      && (forall k :: k != MatchKey(matchID) && k != LogKey(matchID) ==> Lookup(after, k) == Lookup(kv, k))
  {
    KeysInjective(matchID, matchID);
    if deltalog.Some? && |deltalog.value| > 0 {
      if LogKey(matchID) in kv {
        assert kv[LogKey(matchID)].LogValue?;
      } else {
        assert [] + deltalog.value == deltalog.value;
      }
    }
  }

  /** `setMetadata` overwrites the metadata key and nothing else, and a fetch then reads it back. */
  lemma SetMetadataEffect(kv: KvStore, matchID: string, metadata: Metadata)
    ensures Lookup(WithMetadata(kv, matchID, metadata), MetadataKey(matchID)) == Some(MetadataValue(metadata))
    ensures forall k :: k != MetadataKey(matchID) ==> Lookup(WithMetadata(kv, matchID, metadata), k) == Lookup(kv, k)
    ensures FetchFrom(WithMetadata(kv, matchID, metadata), matchID, FetchAll).metadata == Some(MetadataValue(metadata))
  {
  }

  /** Fetch returns exactly the requested fields whose records exist. */
  lemma FetchExactly(kv: KvStore, matchID: string, opts: FetchOpts)
    ensures FetchFrom(kv, matchID, opts).state.Some? <==> opts.state && MatchKey(matchID) in kv
    ensures FetchFrom(kv, matchID, opts).metadata.Some? <==> opts.metadata && MetadataKey(matchID) in kv
    ensures FetchFrom(kv, matchID, opts).log.Some? <==> opts.log && LogKey(matchID) in kv
    ensures FetchFrom(kv, matchID, opts).initialState.Some? <==> opts.initialState && InitialStateKey(matchID) in kv
    ensures FetchFrom(kv, matchID, opts).state.Some? ==> FetchFrom(kv, matchID, opts).state.value == kv[MatchKey(matchID)]
    ensures FetchFrom(kv, matchID, opts).metadata.Some? ==> FetchFrom(kv, matchID, opts).metadata.value == kv[MetadataKey(matchID)]
    ensures FetchFrom(kv, matchID, opts).log.Some? ==> FetchFrom(kv, matchID, opts).log.value == kv[LogKey(matchID)]
    ensures FetchFrom(kv, matchID, opts).initialState.Some? ==>
      FetchFrom(kv, matchID, opts).initialState.value == kv[InitialStateKey(matchID)]
  {
  }

  /** After `wipe`, nothing of the match is found and every other key is kept. */
  lemma WipeEffect(kv: KvStore, matchID: string, opts: FetchOpts)
    ensures FetchFrom(Wiped(kv, matchID), matchID, opts) == FetchResult(None, None, None, None)
    ensures forall k :: k !in MatchKeys(matchID) ==> Lookup(Wiped(kv, matchID), k) == Lookup(kv, k)
  {
  }

  /** Operations on one match are invisible to another one's fetch, whatever the IDs. */
  lemma MatchesIsolated(kv: KvStore, a: string, b: string, state: State, deltalog: Option<seq<LogEntry>>,
                        metadata: Metadata, opts: FetchOpts)
    requires a != b
    ensures FetchFrom(Created(kv, b, state, metadata), a, opts) == FetchFrom(kv, a, opts)
    ensures FetchFrom(Wiped(kv, b), a, opts) == FetchFrom(kv, a, opts)
    ensures WithState(kv, b, state, deltalog).Success? ==>
      FetchFrom(WithState(kv, b, state, deltalog).value, a, opts) == FetchFrom(kv, a, opts)
  {
    KeysInjective(a, b);
    KeysInjective(b, a);
    assert MatchKey(a) in MatchKeys(a) && InitialStateKey(a) in MatchKeys(a) && LogKey(a) in MatchKeys(a) && MetadataKey(a) in MatchKeys(a);
  }

  // ---------------------------------------------------------------------
  // The storage object.

  class KvStorage {
    /** `opts?.path`, the database `connect()` opens. */
    const path: Option<string>
    /** `_kv`: None until `connect()`. */
    var kv: Option<KvStore>

    constructor (path: Option<string>)
      ensures this.path == path && kv == None
    {
      this.path := path;
      kv := None;
    }

    /** `Deno.openKv(path)`; `database` is what the store at `path` holds. */
    method Connect(database: KvStore)
      modifies this
      ensures kv == Some(database)
    {
      kv := Some(database);
    }

    /** `listing` is `kv.list({ prefix: ["matches"] })` in the order Deno KV yields it. */
    method ListMatches(listing: seq<Entry>, opts: Option<ListOpts>) returns (r: Result<seq<string>, StoreError>)
      requires kv.Some? ==> ListingOf(kv.value, listing)
      ensures kv.None? ==> r == Failure(NotConnected)
      ensures kv.Some? ==> r == Success(KvListed(listing, opts))
      ensures kv.Some? && Shaped(kv.value) ==> forall id :: id != "metadata" ==>
        (id in r.value <==> id != "" && MetadataKey(id) in kv.value && KvAccepts(opts, MetadataView(kv.value[MetadataKey(id)])))
    {
      if kv.None? {
        return Failure(NotConnected);
      }
      var result: seq<string> := [];
      var i := 0;
      while i < |listing|
        invariant 0 <= i <= |listing|
        invariant result == KvListed(listing[..i], opts)
      {
        var item := listing[i];
        assert listing[..i + 1][..i] == listing[..i];
        if |item.key| >= 1 && item.key[|item.key| - 1] == "metadata" && |item.key| >= 2 && item.key[1] != "" {
          var matchID := item.key[1];
          var metadata := MetadataView(item.value);
          if KvAccepts(opts, metadata) {
            result := result + [matchID];
          }
        }
        i := i + 1;
      }
      assert listing[..|listing|] == listing;
      r := Success(result);
      if Shaped(kv.value) {
        forall id | id != "metadata"
          ensures id in r.value <==> id != "" && MetadataKey(id) in kv.value && KvAccepts(opts, MetadataView(kv.value[MetadataKey(id)]))
        {
          KvListedExactly(kv.value, listing, opts, id);
        }
      }
    }

    method CreateMatch(matchID: string, initialState: State, metadata: Metadata) returns (r: Outcome<StoreError>)
      modifies this
      ensures old(kv).None? ==> r == Fail(NotConnected) && kv == old(kv)
      ensures old(kv).Some? ==> r.Pass? && kv == Some(Created(old(kv).value, matchID, initialState, metadata))
    {
      if kv.None? {
        return Fail(NotConnected);
      }
      kv := Some(kv.value[InitialStateKey(matchID) := StateValue(initialState)]);
      r := SetState(matchID, initialState, None);
      r := SetMetadata(matchID, metadata);
    }

    method SetState(matchID: string, state: State, deltalog: Option<seq<LogEntry>>) returns (r: Outcome<StoreError>)
      modifies this
      ensures old(kv).None? ==> r == Fail(NotConnected) && kv == old(kv)
      ensures old(kv).Some? && WithState(old(kv).value, matchID, state, deltalog).Success? ==>
        r.Pass? && kv == Some(WithState(old(kv).value, matchID, state, deltalog).value)
      ensures old(kv).Some? && WithState(old(kv).value, matchID, state, deltalog).Failure? ==>
        r == Fail(WithState(old(kv).value, matchID, state, deltalog).error) && kv == old(kv)
    {
      if kv.None? {
        return Fail(NotConnected);
      }
      if deltalog.Some? && |deltalog.value| > 0 {
        var key := LogKey(matchID);
        var log := AppendedLog(Lookup(kv.value, key), deltalog.value);
        if log.Failure? {
          return Fail(log.error);
        }
        kv := Some(kv.value[key := log.value]);
      }
      kv := Some(kv.value[MatchKey(matchID) := StateValue(state)]);
      r := Pass;
    }

    method SetMetadata(matchID: string, metadata: Metadata) returns (r: Outcome<StoreError>)
      modifies this
      ensures old(kv).None? ==> r == Fail(NotConnected) && kv == old(kv)
      ensures old(kv).Some? ==> r.Pass? && kv == Some(WithMetadata(old(kv).value, matchID, metadata))
    {
      if kv.None? {
        return Fail(NotConnected);
      }
      kv := Some(kv.value[MetadataKey(matchID) := MetadataValue(metadata)]);
      r := Pass;
    }

    method Fetch(matchID: string, opts: FetchOpts) returns (r: Result<FetchResult, StoreError>)
      ensures kv.None? ==> r == Failure(NotConnected)
      ensures kv.Some? ==> r == Success(FetchFrom(kv.value, matchID, opts))
    {
      if kv.None? {
        return Failure(NotConnected);
      }
      var result := FetchResult(None, None, None, None);
      if opts.state && MatchKey(matchID) in kv.value {
        result := result.(state := Some(kv.value[MatchKey(matchID)]));
      }
      if opts.metadata && MetadataKey(matchID) in kv.value {
        result := result.(metadata := Some(kv.value[MetadataKey(matchID)]));
      }
      if opts.log && LogKey(matchID) in kv.value {
        result := result.(log := Some(kv.value[LogKey(matchID)]));
      }
      if opts.initialState && InitialStateKey(matchID) in kv.value {
        result := result.(initialState := Some(kv.value[InitialStateKey(matchID)]));
      }
      r := Success(result);
    }

    /** The four deletes run concurrently; they touch different keys, so their order does not matter. */
    method Wipe(matchID: string) returns (r: Outcome<StoreError>)
      modifies this
      ensures old(kv).None? ==> r == Fail(NotConnected) && kv == old(kv)
      ensures old(kv).Some? ==> r.Pass? && kv == Some(Wiped(old(kv).value, matchID))
    {
      if kv.None? {
        return Fail(NotConnected);
      }
      kv := Some(kv.value - {MatchKey(matchID), MetadataKey(matchID), InitialStateKey(matchID), LogKey(matchID)});
      assert kv.value == Wiped(old(kv).value, matchID);
      r := Pass;
    }
  }
}
