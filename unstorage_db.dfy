/**
 * The unstorage backend of boardgame.io's storage API
 * (server/bgio/db/unstorage-db.ts, and its `Async` subclass variant in
 * server/bgio/db.ts, whose operations are the same).
 *
 * The store is the view through `prefixStorage(store, "bgio")`: a finite map
 * from string keys to stored records. A match `id` owns four keys: `id` (the
 * latest state), `id:initial`, `id:log` and `id:metadata`.
 */
module Unstorage {
  import opened Wrappers
  import opened MatchData

  type Store = map<string, Value>

  function InitialStateKey(matchID: string): string { matchID + ":initial" }
  function MetadataKey(matchID: string): string { matchID + ":metadata" }
  function LogKey(matchID: string): string { matchID + ":log" }

  const MetadataSuffix: string := ":metadata"

  predicate EndsWith(k: string, suffix: string) {
    |suffix| <= |k| && k[|k| - |suffix|..] == suffix
  }

  /** `k.slice(0, k.length - suffix.length)` on a metadata key. */
  function MatchIDOf(k: string): (matchID: string)
    requires EndsWith(k, MetadataSuffix)
    ensures MetadataKey(matchID) == k
  {
    assert k == k[..|k| - |MetadataSuffix|] + k[|k| - |MetadataSuffix|..];
    k[..|k| - |MetadataSuffix|]
  }

  /** Stripping the suffix inverts `MetadataKey`. */
  lemma MetadataKeyRoundTrip(matchID: string)
    ensures EndsWith(MetadataKey(matchID), MetadataSuffix)
    ensures MatchIDOf(MetadataKey(matchID)) == matchID
  {
    var k := MetadataKey(matchID);
    assert k[|k| - |MetadataSuffix|..] == MetadataSuffix;
    assert k[..|matchID|] == matchID;
  }

  /** The keys a match owns. */
  function MatchKeys(matchID: string): set<string> {
    {matchID, InitialStateKey(matchID), LogKey(matchID), MetadataKey(matchID)}
  }

  /** Match IDs that cannot run into another match's keys (nanoid never emits ':'). */
  predicate NoColon(s: string) {
    forall i :: 0 <= i < |s| ==> s[i] != ':'
  }

  /** Suffixes distinguish the four keys of one match. */
  lemma MatchKeysDistinct(matchID: string)
    ensures matchID != InitialStateKey(matchID) && matchID != LogKey(matchID) && matchID != MetadataKey(matchID)
    ensures InitialStateKey(matchID) != LogKey(matchID) && InitialStateKey(matchID) != MetadataKey(matchID)
    ensures LogKey(matchID) != MetadataKey(matchID)
  {
    assert |InitialStateKey(matchID)| == |matchID| + 8;
    assert |LogKey(matchID)| == |matchID| + 4;
    assert |MetadataKey(matchID)| == |matchID| + 9;
  }

  /** The index of the first ':' in `k`, or its length when there is none. */
  function FirstColon(k: string): (i: nat)
    ensures i <= |k|
  {
    if k == [] || k[0] == ':' then 0 else 1 + FirstColon(k[1..])
  }

  /** A colon-free prefix followed by nothing or by a suffix starting with ':' ends at the first ':'. */
  lemma {:induction false} FirstColonAfter(a: string, s: string)
    requires NoColon(a)
    requires s == [] || s[0] == ':'
    ensures FirstColon(a + s) == |a|
  {
    if a != [] {
      assert (a + s)[1..] == a[1..] + s;
      FirstColonAfter(a[1..], s);
    }
  }

  /** Two such keys are equal only when their prefixes and suffixes are. */
  lemma PrefixBeforeColon(a: string, s: string, b: string, t: string)
    requires NoColon(a) && NoColon(b)
    requires s == [] || s[0] == ':'
    requires t == [] || t[0] == ':'
    requires a + s == b + t
    ensures a == b && s == t
  {
    FirstColonAfter(a, s);
    FirstColonAfter(b, t);
    assert a == (a + s)[..|a|] && b == (b + t)[..|b|];
    assert s == (a + s)[|a|..] && t == (b + t)[|b|..];
  }

  /** The key sets of two colon-free matches are disjoint. */
  lemma MatchKeysDisjoint(a: string, b: string)
    requires NoColon(a) && NoColon(b) && a != b
    ensures forall k :: k in MatchKeys(a) ==> k !in MatchKeys(b)
  {
    var suffixes: seq<string> := [[], ":initial", ":log", ":metadata"];
    assert a + [] == a && b + [] == b;
    forall k | k in MatchKeys(a) && k in MatchKeys(b) ensures false {
      var i := if k == a then 0 else if k == InitialStateKey(a) then 1 else if k == LogKey(a) then 2 else 3;
      var j := if k == b then 0 else if k == InitialStateKey(b) then 1 else if k == LogKey(b) then 2 else 3;
      assert k == a + suffixes[i] && k == b + suffixes[j];
      PrefixBeforeColon(a, suffixes[i], b, suffixes[j]);
    }
  }

  /** Without the colon-free condition keys can collide: match "a:log"'s state key is match "a"'s log key. */
  lemma ColonIDsCollide()
    ensures "a:log" in MatchKeys("a") && "a:log" in MatchKeys("a:log")
    ensures LogKey("a") == "a:log"
  {
    assert "a" + ":log" == "a:log";
  }

  // ---------------------------------------------------------------------
  // The store after each operation, as functions of the store before.

  /** `setState`: append a non-empty deltalog to the log, then overwrite the state. */
  function WithState(store: Store, matchID: string, state: State, deltalog: Option<seq<LogEntry>>): Result<Store, StoreError> {
    if deltalog.Some? && |deltalog.value| > 0 then
      match AppendedLog(Lookup(store, LogKey(matchID)), deltalog.value)
      case Success(log) => Success(store[LogKey(matchID) := log][matchID := StateValue(state)])
      case Failure(e) => Failure(e)
    else Success(store[matchID := StateValue(state)])
  }

  /** `setMetadata`. */
  function WithMetadata(store: Store, matchID: string, metadata: Metadata): Store {
    store[MetadataKey(matchID) := MetadataValue(metadata)]
  }

  /** `createMatch`: the initial key, then `setState` without a log, then `setMetadata`. */
  function Created(store: Store, matchID: string, initialState: State, metadata: Metadata): Store {
    var withInitial := store[InitialStateKey(matchID) := StateValue(initialState)];
    WithMetadata(withInitial[matchID := StateValue(initialState)], matchID, metadata)
  }

  /** `wipe`. */
  function Wiped(store: Store, matchID: string): Store {
    store - MatchKeys(matchID)
  }

  /** A requested field is present when its record is (every record is a truthy object or array). */
  function Requested(store: Store, key: string, wanted: bool): Option<Value> {
    if wanted then Lookup(store, key) else None
  }

  /** `fetch`. */
  function FetchFrom(store: Store, matchID: string, opts: FetchOpts): FetchResult {
    FetchResult(
      Requested(store, matchID, opts.state),
      Requested(store, MetadataKey(matchID), opts.metadata),
      Requested(store, LogKey(matchID), opts.log),
      Requested(store, InitialStateKey(matchID), opts.initialState))
  }

  /** The `listMatches` callback's verdict for a metadata key's record. */
  predicate Accepted(opts: Option<ListOpts>, v: Value) {
    opts.None? || UnstorageAccepts(opts.value, MetadataView(v))
  }

  /**
   * `listMatches` over the store's keys in the order the driver lists them:
   * each metadata key whose record passes the filters yields its match ID,
   * and everything else is dropped.
   */
  function Listed(store: Store, keys: seq<string>, opts: Option<ListOpts>): (ids: seq<string>)
    requires forall k :: k in keys ==> k in store
    ensures |ids| <= |keys|
    ensures forall id :: id in ids ==> MetadataKey(id) in keys && Accepted(opts, store[MetadataKey(id)])
  {
    if keys == [] then []
    else
      var rest := Listed(store, keys[1..], opts);
      if EndsWith(keys[0], MetadataSuffix) && Accepted(opts, store[keys[0]]) then [MatchIDOf(keys[0])] + rest
      else rest
  }

  /** Every accepted metadata key is listed: the converse of `Listed`'s contract. */
  lemma {:induction false} ListedComplete(store: Store, keys: seq<string>, opts: Option<ListOpts>, id: string)
    requires forall k :: k in keys ==> k in store
    requires MetadataKey(id) in keys && Accepted(opts, store[MetadataKey(id)])
    ensures id in Listed(store, keys, opts)
  {
    MetadataKeyRoundTrip(id);
    if keys[0] != MetadataKey(id) {
      ListedComplete(store, keys[1..], opts, id);
    }
  }

  /** With no options, every metadata key of the store yields its match. */
  lemma ListedUnfiltered(store: Store, keys: seq<string>, id: string)
    requires forall k :: k in keys <==> k in store
    ensures id in Listed(store, keys, None) <==> MetadataKey(id) in store
  {
    if MetadataKey(id) in store {
      ListedComplete(store, keys, None, id);
    }
  }

  // ---------------------------------------------------------------------
  // What the operations promise, stated on `fetch`.

  /** After `createMatch`, fetch finds the initial state twice and the metadata; the log is whatever was there. */
  lemma FetchAfterCreate(store: Store, matchID: string, initialState: State, metadata: Metadata)
    ensures FetchFrom(Created(store, matchID, initialState, metadata), matchID, FetchAll)
      == FetchResult(Some(StateValue(initialState)), Some(MetadataValue(metadata)),
                     Lookup(store, LogKey(matchID)), Some(StateValue(initialState)))
  {
    MatchKeysDistinct(matchID);
  }

  /** `setState` fails only when the log key holds a record that is not a log. */
  lemma SetStateFails(store: Store, matchID: string, state: State, deltalog: Option<seq<LogEntry>>)
    ensures WithState(store, matchID, state, deltalog).Failure? <==>
      deltalog.Some? && |deltalog.value| > 0 && LogKey(matchID) in store && !store[LogKey(matchID)].LogValue?
  {
  }

  /**
   * A successful `setState` overwrites the state, extends the log by a
   * non-empty deltalog (starting from [] when there was none), leaves the log
   * alone otherwise, and changes no other key.
   */
  lemma SetStateEffect(store: Store, matchID: string, state: State, deltalog: Option<seq<LogEntry>>)
    requires WithState(store, matchID, state, deltalog).Success?
    ensures var after := WithState(store, matchID, state, deltalog).value;
      && Lookup(after, matchID) == Some(StateValue(state))
      && (deltalog.Some? && |deltalog.value| > 0 ==>
            Lookup(after, LogKey(matchID)) == Some(LogValue(
              (if LogKey(matchID) in store then store[LogKey(matchID)].entries else []) + deltalog.value)))
      && (deltalog.None? || deltalog.value == [] ==> Lookup(after, LogKey(matchID)) == Lookup(store, LogKey(matchID)))
      && (forall k :: k != matchID && k != LogKey(matchID) ==> Lookup(after, k) == Lookup(store, k))
  {
    MatchKeysDistinct(matchID);
    if deltalog.Some? && |deltalog.value| > 0 {
      if LogKey(matchID) in store {
        assert store[LogKey(matchID)].LogValue?;
      } else {
        assert [] + deltalog.value == deltalog.value;
      }
    }
  }

  /** Two successive `setState`s on a match with no log leave the two logs concatenated. */
  lemma LogAccumulates(store: Store, matchID: string, s1: State, d1: seq<LogEntry>, s2: State, d2: seq<LogEntry>)
    requires LogKey(matchID) !in store && d1 != [] && d2 != []
    ensures WithState(store, matchID, s1, Some(d1)).Success?
    ensures WithState(WithState(store, matchID, s1, Some(d1)).value, matchID, s2, Some(d2)).Success?
    ensures FetchFrom(WithState(WithState(store, matchID, s1, Some(d1)).value, matchID, s2, Some(d2)).value,
                      matchID, FetchAll).log == Some(LogValue(d1 + d2))
  {
    MatchKeysDistinct(matchID);
    SetStateEffect(store, matchID, s1, Some(d1));
    var after := WithState(store, matchID, s1, Some(d1)).value;
    SetStateEffect(after, matchID, s2, Some(d2));
  }

  /** `setMetadata` overwrites the metadata key and nothing else. */
  lemma SetMetadataEffect(store: Store, matchID: string, metadata: Metadata)
    ensures Lookup(WithMetadata(store, matchID, metadata), MetadataKey(matchID)) == Some(MetadataValue(metadata))
    ensures forall k :: k != MetadataKey(matchID) ==> Lookup(WithMetadata(store, matchID, metadata), k) == Lookup(store, k)
  {
  }

  /** Fetch returns exactly the requested fields whose records exist. */
  lemma FetchExactly(store: Store, matchID: string, opts: FetchOpts)
    ensures FetchFrom(store, matchID, opts).state.Some? <==> opts.state && matchID in store
    ensures FetchFrom(store, matchID, opts).metadata.Some? <==> opts.metadata && MetadataKey(matchID) in store
    ensures FetchFrom(store, matchID, opts).log.Some? <==> opts.log && LogKey(matchID) in store
    ensures FetchFrom(store, matchID, opts).initialState.Some? <==> opts.initialState && InitialStateKey(matchID) in store
    ensures FetchFrom(store, matchID, opts).state.Some? ==> FetchFrom(store, matchID, opts).state.value == store[matchID]
    ensures FetchFrom(store, matchID, opts).metadata.Some? ==>
      FetchFrom(store, matchID, opts).metadata.value == store[MetadataKey(matchID)]
    ensures FetchFrom(store, matchID, opts).log.Some? ==> FetchFrom(store, matchID, opts).log.value == store[LogKey(matchID)]
    ensures FetchFrom(store, matchID, opts).initialState.Some? ==>
      FetchFrom(store, matchID, opts).initialState.value == store[InitialStateKey(matchID)]
  {
  }

  /** After `wipe`, nothing of the match is found and every other key is kept. */
  lemma WipeEffect(store: Store, matchID: string, opts: FetchOpts)
    ensures FetchFrom(Wiped(store, matchID), matchID, opts) == FetchResult(None, None, None, None)
    ensures forall k :: k !in MatchKeys(matchID) ==> Lookup(Wiped(store, matchID), k) == Lookup(store, k)
  {
  }

  /** Operations on one colon-free match are invisible to another one's fetch. */
  lemma MatchesIsolated(store: Store, a: string, b: string, state: State, deltalog: Option<seq<LogEntry>>,
                        metadata: Metadata, opts: FetchOpts)
    requires NoColon(a) && NoColon(b) && a != b
    ensures FetchFrom(Created(store, b, state, metadata), a, opts) == FetchFrom(store, a, opts)
    ensures FetchFrom(Wiped(store, b), a, opts) == FetchFrom(store, a, opts)
    ensures WithState(store, b, state, deltalog).Success? ==>
      FetchFrom(WithState(store, b, state, deltalog).value, a, opts) == FetchFrom(store, a, opts)
  {
    MatchKeysDisjoint(a, b);
    assert a in MatchKeys(a) && InitialStateKey(a) in MatchKeys(a) && LogKey(a) in MatchKeys(a) && MetadataKey(a) in MatchKeys(a);
    assert b in MatchKeys(b) && InitialStateKey(b) in MatchKeys(b) && LogKey(b) in MatchKeys(b) && MetadataKey(b) in MatchKeys(b);
  }

  /** A created match is listed, and with the filters of its own metadata. */
  lemma CreatedIsListed(store: Store, keys: seq<string>, matchID: string, initialState: State, metadata: Metadata)
    requires forall k :: k in keys <==> k in Created(store, matchID, initialState, metadata)
    ensures matchID in Listed(Created(store, matchID, initialState, metadata), keys, None)
    ensures matchID in Listed(Created(store, matchID, initialState, metadata), keys,
                              Some(ListOpts(Some(metadata.gameName), None)))
  {
    var after := Created(store, matchID, initialState, metadata);
    assert after[MetadataKey(matchID)] == MetadataValue(metadata);
    ListedComplete(after, keys, None, matchID);
    ListedComplete(after, keys, Some(ListOpts(Some(metadata.gameName), None)), matchID);
  }

  // ---------------------------------------------------------------------
  // The storage object.

  class UnstorageDb {
    var store: Store

    /** Without a storage, an empty in-memory one is created. */
    constructor ()
      ensures store == map[]
    {
      store := map[];
    }

    /** Over a given storage (the only form in the `Async` subclass variant). */
    constructor FromStorage(initial: Store)
      ensures store == initial
    {
      store := initial;
    }

    method CreateMatch(matchID: string, initialState: State, metadata: Metadata)
      modifies this
      ensures store == Created(old(store), matchID, initialState, metadata)
    {
      store := store[InitialStateKey(matchID) := StateValue(initialState)];
      var r := SetState(matchID, initialState, None);
      SetMetadata(matchID, metadata);
    }

    /** A TypeError from spreading the old log is thrown before anything is written. */
    method SetState(matchID: string, state: State, deltalog: Option<seq<LogEntry>>) returns (r: Outcome<StoreError>)
      modifies this
      ensures WithState(old(store), matchID, state, deltalog).Success? ==>
        r.Pass? && store == WithState(old(store), matchID, state, deltalog).value
      ensures WithState(old(store), matchID, state, deltalog).Failure? ==>
        r == Fail(WithState(old(store), matchID, state, deltalog).error) && store == old(store)
    {
      if deltalog.Some? && |deltalog.value| > 0 {
        var key := LogKey(matchID);
        var log := AppendedLog(Lookup(store, key), deltalog.value);
        if log.Failure? {
          return Fail(log.error);
        }
        store := store[key := log.value];
      }
      store := store[matchID := StateValue(state)];
      r := Pass;
    }

    method SetMetadata(matchID: string, metadata: Metadata)
      modifies this
      ensures store == WithMetadata(old(store), matchID, metadata)
    {
      store := store[MetadataKey(matchID) := MetadataValue(metadata)];
    }

    method Fetch(matchID: string, opts: FetchOpts) returns (result: FetchResult)
      ensures result == FetchFrom(store, matchID, opts)
    {
      result := FetchResult(None, None, None, None);
      if opts.state && matchID in store {
        result := result.(state := Some(store[matchID]));
      }
      if opts.metadata && MetadataKey(matchID) in store {
        result := result.(metadata := Some(store[MetadataKey(matchID)]));
      }
      if opts.log && LogKey(matchID) in store {
        result := result.(log := Some(store[LogKey(matchID)]));
      }
      if opts.initialState && InitialStateKey(matchID) in store {
        result := result.(initialState := Some(store[InitialStateKey(matchID)]));
      }
    }

    method Wipe(matchID: string)
      modifies this
      ensures store == Wiped(old(store), matchID)
    {
      store := store - {matchID};
      store := store - {InitialStateKey(matchID)};
      store := store - {LogKey(matchID)};
      store := store - {MetadataKey(matchID)};
    }

    /** `keys` is the driver's listing of the store's keys. */
    method ListMatches(keys: seq<string>, opts: Option<ListOpts>) returns (ids: seq<string>)
      requires forall k :: k in keys <==> k in store
      ensures ids == Listed(store, keys, opts)
      ensures forall id :: id in ids <==> MetadataKey(id) in store && Accepted(opts, store[MetadataKey(id)])
    {
      ids := Listed(store, keys, opts);
      forall id | MetadataKey(id) in store && Accepted(opts, store[MetadataKey(id)])
        ensures id in ids
      {
        ListedComplete(store, keys, opts, id);
      }
    }

    method Clear()
      modifies this
      ensures store == map[]
    {
      store := map[];
    }
  }
}
