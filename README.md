# boardgame.deno.dev in Dafny

A model of the server and client core of boardgame.deno.dev. The site hosts
boardgame.io games on Deno (the card game No Thanks! among them) and serves
them over WebSocket and socket.io transports. The model covers these parts:

- **The No Thanks! game** (`NoThanks`, with sorting in `Cards`). Setup deals
  24 distinct cards; `pass` and `take` move cards and counters without
  creating or losing any. `endIf` scores each player: every run of
  consecutive cards counts only its lowest card, minus the player's counters.
- **The board islands** (`OwnedCards`, `NoThanksClient`). The fold that
  groups a tableau into runs, and the predicates deciding which panel shows
  and whether the Pass button is enabled.
- **The connection registry** (`Registry`). Three maps: client, room and
  per-match queue. The three server transports share this code. Adding and
  removing clients keeps the maps consistent and decides when a match's
  pub/sub channel is subscribed and unsubscribed.
- **The transports.**
  - The WebSocket transports (`Transport`): the order of their message
    handlers and the HTTP route that upgrades a request.
  - The socket.io transport (`SocketIOServer`): its option defaults and its
    handlers.
  - The browser transport (`ClientTransport`): where it connects and which
    envelopes it sends; the wire format itself is in `Wire`.
- **The storage backends.**
  - Over unstorage (`Unstorage`): a string map with the keys `id`,
    `id:initial`, `id:log` and `id:metadata`.
  - Over Deno KV (`Kv`): tuple keys, and a guard that refuses every call
    before `connect()`.
  - The two backends' `listMatches` filters (`MatchData`).
- **The pub/sub classes** (`InMemory`, `BgioPubSub`, `LibPubSub`), over an
  abstract `BroadcastChannel` handle (`Channels`).
- **The credential check** (`Auth`).

Each component is modelled in the source's own form:

- Classes whose methods update maps and sequences in place are classes.
  Their `ensures` tie the new state to a specification function of the old
  state, and lemmas prove what the source promises about those functions.
- Pure predicates and folds are functions and lemmas.
- Loops are methods with invariants: the run grouping, the channel-closing
  loop and the registry broadcast.

Parts of the system become parameters or opaque values:

- boardgame.io's `Master` and the result of its `onSync`;
- `filterPlayerView`, modelled as a symbolic view of a payload;
- `random.Shuffle`, modelled as any permutation of the deck;
- the keys an unstorage driver lists, and the entries a KV `list` yields, in
  their order;
- the page origin, and which channels throw on `close()`.

Game states, log entries, actions and chat messages are tokens.

## Model

| member | source | states |
|---|---|---|
| Cards.SortAscending | lib/games/no-thanks.ts:85-86 | The sorted hand is ascending, a permutation of the hand, and of the same length |
| Cards.SortDescending | islands/NoThanksClient.tsx:199-200 | The island's descending sort yields a descending permutation of the cards |
| Cards.InsertAscendingSorts | lib/games/no-thanks.ts:86 | Inserting into an ascending sequence keeps it ascending and adds exactly that card |
| Cards.AscendingUnique | lib/games/no-thanks.ts:86 | Two ascending sequences with the same multiset are equal, so the sort's result is determined by the hand alone |
| Cards.SortsAgree | islands/no-thanks-client.tsx:182-183 | The descending sort of the islands is the reverse of the ascending sort of `endIf` |
| Cards.ReverseOfDescending | islands/no-thanks-client.tsx:183 | Reversing a descending sequence gives an ascending one |
| Cards.DistinctMultiplicity | lib/games/no-thanks.ts:28-32 | A sequence has no repeated card exactly when every card occurs at most once in its multiset |
| Cards.DistinctAtMostOnce | lib/games/no-thanks.ts:28-32 | Every card of a sequence without repeats occurs at most once in its multiset |
| Cards.RepeatedTwice | lib/games/no-thanks.ts:28-32 | A card found at two positions occurs at least twice in the multiset |
| Cards.SortAscendingDistinct | lib/games/no-thanks.ts:86 | Sorting a hand of distinct cards keeps them distinct |
| NoThanks.DealtCards | lib/games/no-thanks.ts:28-34 | A shuffle of 3..35 has 33 cards; after dropping the first 9, the 24 left are distinct values between 3 and 35 |
| NoThanks.FullDeck | lib/games/no-thanks.ts:28-31 | The 33 cards 3 to 35 before the shuffle; `DealtCards` states what remains after slicing off 9 |
| NoThanks.StartingCounters | lib/games/no-thanks.ts:43 | 7 counters from seven players up, 9 for six, 11 otherwise; `Game.Setup` hands them to every seat |
| NoThanks.Pop | lib/games/no-thanks.ts:34 | `pop` yields the last card and the rest of the deck, or nothing from an empty deck |
| NoThanks.CounterTotalUpdate | lib/games/no-thanks.ts:62 | Changing one player's counters changes the total by exactly the difference |
| NoThanks.HeldCardsUpdate | lib/games/no-thanks.ts:70 | Replacing one tableau changes the multiset of held cards by exactly the difference |
| NoThanks.HandDistinct | lib/games/no-thanks.ts:70 | A tableau drawn from distinct dealt cards holds no card twice |
| NoThanks.FoldTermIsRule | lib/games/no-thanks.ts:88-89 | Each term of the `reduce` is 0 when the card one lower is in the hand, else the card's value; at index 0 `at(-1)` reads the largest card |
| NoThanks.AtPrevious | lib/games/no-thanks.ts:89 | The index `cards.at(i - 1)` reads, wrapping to the last card at i = 0; `FoldTermIsRule` states what the term built on it adds |
| NoThanks.FoldTerm | lib/games/no-thanks.ts:88-89 | One term of the scoring `reduce`; `FoldTermIsRule` states that it is 0 exactly when the previous card is one lower, and `ReduceIsRunScore` that the terms sum to the run starts |
| NoThanks.ReduceIsRunScore | lib/games/no-thanks.ts:87-90 | The `reduce` over a strictly ascending hand equals the sum of the cards that start a run |
| NoThanks.Reduce | lib/games/no-thanks.ts:87-90 | The `reduce` over the sorted tableau, term by term; `ReduceIsRunScore` states that it sums the lowest card of every run |
| NoThanks.PlayerScore | lib/games/no-thanks.ts:85-91 | A player's score is the run score of their sorted tableau minus their counters |
| NoThanks.PassConserves | lib/games/no-thanks.ts:62-63 | A pass moves exactly one counter from the mover to the pot; the total of counters and the cards in play are unchanged |
| NoThanks.PassKeepsConsistent | lib/games/no-thanks.ts:60-65 | A valid pass preserves the game invariant: the counter total, the dealt cards as a multiset, and `deckSize` equal to the secret deck's length |
| NoThanks.AfterPass | lib/games/no-thanks.ts:62-63 | The state a pass leaves; `PassConserves` and `PassKeepsConsistent` state that it moves one counter from the mover to the pot and keeps the game invariant |
| NoThanks.PassAllowed | lib/games/no-thanks.ts:61 | The guard of `moves.pass`; `NoThanks.Game.Pass` states that a move failing it returns INVALID_MOVE and changes nothing, and `NoThanksClient.PassButtonInverted` and `PassButtonIntended` compare the button with it |
| NoThanks.TakeConserves | lib/games/no-thanks.ts:70-72 | A take appends the active card to the mover's tableau and hands over the whole pot; counters and cards are conserved |
| NoThanks.TakeKeepsConsistent | lib/games/no-thanks.ts:69-75 | A take preserves the game invariant, including `deckSize` equal to the secret deck's length after the draw |
| NoThanks.AfterTake | lib/games/no-thanks.ts:70-74 | The state a take leaves; `TakeConserves` and `TakeKeepsConsistent` state that card and pot go to the mover, the next card is drawn, and the invariant holds |
| NoThanks.ConsistentHands | lib/games/no-thanks.ts:36-38 | In a consistent game every seated player has a tableau of distinct cards and a counter entry |
| NoThanks.Scores | lib/games/no-thanks.ts:79-96 | No result while a card is active; otherwise one score per seated player, each the player's run score minus counters |
| NoThanks.Game.Setup | lib/games/no-thanks.ts:27-56 | The deck is the shuffle after its first 9 cards, without the popped active card; 23 in the deck; empty tableaux; 7, 9 or 11 counters each; empty pot; the invariant holds |
| NoThanks.Game.Pass | lib/games/no-thanks.ts:60-65 | A player without counters gets an invalid move and nothing changes; otherwise one counter goes to the pot, the turn ends and the invariant holds |
| NoThanks.Game.Take | lib/games/no-thanks.ts:69-75 | The state becomes the take of the old state, the turn does not end, and the invariant holds |
| NoThanks.Game.EndIf | lib/games/no-thanks.ts:79-96 | Undefined exactly while a card is active; then every player in play order gets their score |
| OwnedCards.GroupedFlatten | islands/NoThanksClient.tsx:201-208 | Reading the groups back gives exactly the sorted cards |
| OwnedCards.GroupedShape | islands/NoThanksClient.tsx:205-208 | Every group but the last is non-empty; the last is the seed's empty group; the front group ends with the last card folded |
| OwnedCards.GroupedRuns | islands/NoThanksClient.tsx:202-203 | Within a group each card is one less than the one before it |
| OwnedCards.GroupedMaximal | islands/NoThanksClient.tsx:202-206 | A new group starts exactly where a card is not one below the current group's last card |
| OwnedCards.Grouped | islands/NoThanksClient.tsx:201-208 | The island's fold of the descending cards into groups; `GroupedFlatten`, `GroupedShape`, `GroupedRuns` and `GroupedMaximal` state that the groups are the maximal runs of the cards in order |
| OwnedCards.Step | islands/NoThanksClient.tsx:202-207 | The `reduce` callback: push onto the front group or unshift a new one; `GroupedFlatten`, `GroupedRuns`, `GroupedMaximal` and `FrontGroupLowest` state what folding it over the cards yields |
| OwnedCards.GroupRuns | islands/NoThanksClient.tsx:199-208 | The loop's groups are the fold's: a permutation of the cards, maximal runs, and `[[]]` for no cards |
| OwnedCards.FrontGroupLowest | islands/no-thanks-client.tsx:187-188 | The front group ends with the lowest card of the whole tableau |
| NoThanksClient.PlayerIDOf | islands/NoThanksClient.tsx:20-21 | A seat's player ID is a non-empty string of digits |
| NoThanksClient.PlayerIDValue | islands/NoThanksClient.tsx:21 | The digits of a player ID read back as its seat number |
| NoThanksClient.ParsePlayerID | islands/NoThanksClient.tsx:21 | `parseInt` of a player ID is its seat number |
| NoThanksClient.ParseInt | islands/NoThanksClient.tsx:21 | `parseInt` on a digit prefix, NaN for none; `ParsePlayerID` states that it reads a player ID back as its seat number |
| NoThanksClient.CurrentPlayer | islands/NoThanksClient.tsx:20-22 | There is a current player only when `ctx.currentPlayer` is a non-empty string |
| NoThanksClient.CurrentPlayerSeat | islands/NoThanksClient.tsx:20-22 | Player ID n selects the n-th player of the match, or none past the end |
| NoThanksClient.PassButtonInverted | islands/NoThanksClient.tsx:23-24 | As written, the Pass button is enabled exactly when the move guard would reject the pass |
| NoThanksClient.PassButtonEnabled | islands/NoThanksClient.tsx:71 | The button's `disabled={!hasCounter}`; `PassButtonInverted` and `PassButtonCounterexample` state that, as written, it is enabled exactly when the pass would be refused |
| NoThanksClient.HasCounter | islands/NoThanksClient.tsx:23-24 | `hasCounter` as written; `PassButtonInverted` states that it holds exactly when the current player may not pass |
| NoThanksClient.PassButtonCounterexample | islands/NoThanksClient.tsx:71 | Player "0" with 11 counters may pass, but sees the button disabled |
| NoThanksClient.PassButtonIntended | islands/NoThanksClient.tsx:23-24 | The corrected predicate enables Pass exactly when the move guard accepts |
| NoThanksClient.HasCounterIntended | lib/games/no-thanks.ts:61 | The corrected `hasCounter`; `PassButtonIntended` states that it equals the guard of `moves.pass` |
| NoThanksClient.PassButtonIntendedAbsent | islands/NoThanksClient.tsx:23 | Without a current player or counters the corrected button stays disabled |
| NoThanksClient.Panels | islands/NoThanksClient.tsx:40-81 | Exactly one panel shows: game over when the game is over, else the action panel for the active player, else the waiting panel |
| MatchData.UnstorageFiltersConjoin | server/bgio/db/unstorage-db.ts:112-136 | A match passes the unstorage filters iff its game name matches a non-empty filter, `isGameover` equals whether `gameover` is set, and `updatedAt` is strictly inside the bounds |
| MatchData.UnstorageAccepts | server/bgio/db/unstorage-db.ts:112-136 | The unstorage `listMatches` filters; `UnstorageFiltersConjoin` states them as one conjunction with the `typeof` guards and strict bounds |
| MatchData.KvFiltersConjoin | lib/server/db.ts:33-42 | A match passes the KV filters iff its game name matches, `isGameover: true` finds a truthy `gameover`, and the truthy bounds hold strictly |
| MatchData.KvAccepts | lib/server/db.ts:33-42 | The KV `listMatches` filters; `KvFiltersConjoin` and `KvIgnoresIsGameoverFalse` state them as a conjunction guarded by truthiness |
| MatchData.KvIgnoresIsGameoverFalse | lib/server/db.ts:34 | For the KV backend `isGameover: false` filters nothing |
| MatchData.BackendsAgree | lib/server/db.ts:33-42 | Without `isGameover: false`, zero bounds or a falsy `gameover`, the two backends accept the same matches |
| MatchData.BackendsDisagreeOnIsGameoverFalse | server/bgio/db/unstorage-db.ts:117-122 | A finished match is excluded by unstorage's `isGameover: false` and kept by KV's |
| Auth.AcceptsExactly | lib/server/auth.ts:18-28 | Accepted iff credentials are non-empty, the player has a slot, and the slot's credentials equal them |
| Auth.Authenticate | lib/server/auth.ts:7-14 | The inner `authenticate`; `AcceptsExactly` states the iff together with the outer check |
| Auth.AuthenticateCredentials | lib/server/auth.ts:18-28 | `authenticateCredentials`; `AcceptsExactly` states that it accepts exactly non-empty credentials equal to those of the player's slot |
| Auth.RejectsMissingCredentials | lib/server/auth.ts:11 | Undefined or empty credentials are rejected |
| Auth.RejectsUnseated | lib/server/auth.ts:12 | A player ID with no slot is rejected |
| Auth.RejectsUnsetSlot | lib/server/auth.ts:13 | A slot without credentials rejects everything |
| Auth.OnlyOwnSlot | lib/server/auth.ts:25 | The answer depends only on the addressed player's slot |
| Unstorage.MatchIDOf | server/bgio/db/unstorage-db.ts:101 | Stripping ":metadata" from a metadata key gives the match ID whose metadata key it is |
| Unstorage.MetadataKeyRoundTrip | server/bgio/db/unstorage-db.ts:97-101 | Every metadata key ends in ":metadata", and stripping the suffix inverts `MetadataKey` |
| Unstorage.MatchKeysDistinct | server/bgio/db/unstorage-db.ts:151-161 | A match's four keys are pairwise distinct |
| Unstorage.MatchKeysDisjoint | server/bgio/db/unstorage-db.ts:151-161 | Two colon-free match IDs own disjoint keys |
| Unstorage.ColonIDsCollide | server/bgio/db/unstorage-db.ts:151-161 | Without the colon-free condition two matches can share a key: match "a:log"'s state key is match "a"'s log key |
| Unstorage.MetadataKey | server/bgio/db/unstorage-db.ts:155-157 | The `${matchID}:metadata` key; `MetadataKeyRoundTrip` states that `MatchIDOf` reads the ID back from it |
| Unstorage.LogKey | server/bgio/db/unstorage-db.ts:159-161 | The `${matchID}:log` key; `MatchKeysDistinct` and `MatchKeysDisjoint` state that it collides with no other key of its match or of another colon-free match |
| Unstorage.InitialStateKey | server/bgio/db/unstorage-db.ts:151-153 | The `${matchID}:initial` key; `MatchKeysDistinct` and `MatchKeysDisjoint` state that it collides with no other key |
| Unstorage.MatchKeys | server/bgio/db/unstorage-db.ts:82-87 | The four keys `wipe` removes; `WipeEffect` states that exactly these go, and `MatchKeysDisjoint` that two colon-free matches share none |
| Unstorage.Listed | server/bgio/db/unstorage-db.ts:95-143 | Every listed ID has its metadata key among the keys, and its metadata passes the filters |
| Unstorage.ListedComplete | server/bgio/db/unstorage-db.ts:95-143 | Every metadata key that passes the filters yields its match ID |
| Unstorage.ListedUnfiltered | server/bgio/db/unstorage-db.ts:103-105 | Without options, an ID is listed iff its metadata key is stored |
| Unstorage.FetchAfterCreate | server/bgio/db/unstorage-db.ts:17-26 | After `createMatch`, fetching everything returns the initial state as both state and initial state, and the metadata |
| Unstorage.Created | server/bgio/db/unstorage-db.ts:17-26 | `createMatch`; `FetchAfterCreate` states that a fetch then returns the initial state and the metadata |
| Unstorage.SetStateFails | server/bgio/db/unstorage-db.ts:33-37 | `setState` fails iff it must append to a log key that holds no log |
| MatchData.AppendedLog | server/bgio/db/unstorage-db.ts:33-37 | The spread of the stored log or `[]` with the deltalog; `Unstorage.SetStateFails` states when it fails and `Unstorage.LogAccumulates` that logs concatenate |
| Unstorage.SetStateEffect | server/bgio/db/unstorage-db.ts:28-40 | The state key is overwritten; a non-empty deltalog is appended to the old log or []; no other key changes |
| Unstorage.WithState | server/bgio/db/unstorage-db.ts:28-40 | `setState`; `SetStateEffect` and `SetStateFails` state its effect and its failure |
| Unstorage.LogAccumulates | server/bgio/db/unstorage-db.ts:33-37 | Two `setState` calls with deltalogs leave the log as their concatenation |
| Unstorage.SetMetadataEffect | server/bgio/db/unstorage-db.ts:42-48 | `setMetadata` writes the metadata key and only that key |
| Unstorage.WithMetadata | server/bgio/db/unstorage-db.ts:42-48 | `setMetadata` as a map update; `SetMetadataEffect` states that the metadata key holds the new value and every other key is unchanged |
| Unstorage.FetchFrom | server/bgio/db/unstorage-db.ts:50-80 | `fetch`; `FetchExactly` states which fields come back and that each holds the stored record |
| Unstorage.FetchExactly | server/bgio/db/unstorage-db.ts:50-80 | Each field is returned iff it is requested and stored, and holds the stored value |
| Unstorage.WipeEffect | server/bgio/db/unstorage-db.ts:82-87 | After `wipe`, nothing of the match is fetched, and keys of other matches are unchanged |
| Unstorage.Wiped | server/bgio/db/unstorage-db.ts:82-87 | `wipe`; `WipeEffect` states that nothing of the match is left and other keys are kept |
| Unstorage.MatchesIsolated | server/bgio/db/unstorage-db.ts:17-87 | Creating, setting or wiping one match changes nothing fetched for another |
| Unstorage.CreatedIsListed | server/bgio/db/unstorage-db.ts:89-143 | A created match is listed, with no filter and with its own game name |
| Unstorage.UnstorageDb.constructor | server/bgio/db/unstorage-db.ts:6-9 | Without a store the database starts empty |
| Unstorage.UnstorageDb.FromStorage | server/bgio/db.ts:7-10 | A given store is used as is |
| Unstorage.UnstorageDb.CreateMatch | server/bgio/db/unstorage-db.ts:17-26 | The store becomes the created store: initial key, state key, metadata key |
| Unstorage.UnstorageDb.SetState | server/bgio/db/unstorage-db.ts:28-40 | On success the store is the updated one; on failure the error is returned and the store is unchanged |
| Unstorage.UnstorageDb.SetMetadata | server/bgio/db.ts:39-45 | The store becomes the store with the new metadata |
| Unstorage.UnstorageDb.Fetch | server/bgio/db.ts:47-77 | The result is the fetch of the requested fields from the current store |
| Unstorage.UnstorageDb.Wipe | server/bgio/db.ts:79-84 | The store loses the match's four keys |
| Unstorage.UnstorageDb.ListMatches | server/bgio/db.ts:86-141 | An ID is returned iff its metadata key is stored and passes the filters, in key order |
| Unstorage.UnstorageDb.Clear | server/bgio/db/unstorage-db.ts:146-148 | The store becomes empty |
| Kv.KeysInjective | lib/server/db.ts:137-151 | A match's four tuple keys are distinct, and distinct matches own disjoint keys |
| Kv.MatchKey | lib/server/db.ts:137-139 | The `["matches", id]` key of the latest state; `KeysInjective` states that it is none of the other keys |
| Kv.MetadataKey | lib/server/db.ts:141-143 | The metadata key; `KeysInjective` states its distinctness and `ShapedMetadataKey` that every metadata entry of a shaped store has this form |
| Kv.InitialStateKey | lib/server/db.ts:145-147 | The initial-state key; `KeysInjective` states that it is distinct from the other keys |
| Kv.LogKey | lib/server/db.ts:149-151 | The log key; `KeysInjective` states that it is distinct from the other keys |
| Kv.MatchKeys | lib/server/db.ts:128-133 | The four keys `wipe` deletes; `WipeEffect` states that exactly these go, and `KeysInjective` that distinct matches share none |
| Kv.KvListed | lib/server/db.ts:27-45 | Every listed ID comes from a listed entry that counts under the filters |
| Kv.KvListedComplete | lib/server/db.ts:28-43 | Every entry that counts contributes its key part 1 |
| Kv.KvListedSound | lib/server/db.ts:28-43 | Over a well-shaped store, a listed ID other than "metadata" is non-empty, has a stored metadata record, and that record passes the filters |
| Kv.KvListedMetadata | lib/server/db.ts:28-43 | A stored metadata record under a non-empty ID that passes the filters has its ID listed |
| Kv.ShapedMetadataKey | lib/server/db.ts:137-151 | In a well-shaped store, a key under "matches" ending in "metadata" is its match's metadata key |
| Kv.KvListedExactly | lib/server/db.ts:28-43 | Over a well-shaped store, an ID other than "metadata" is listed iff it is non-empty, its metadata is stored, and it passes the filters |
| Kv.Counts | lib/server/db.ts:29-42 | The loop body's verdict on one entry; `KvListedExactly` states which IDs it lets through |
| Kv.StateOfMatchMetadataListed | lib/server/db.ts:29-31 | The state of a match named "metadata" is mistaken for metadata and listed |
| Kv.EmptyIDNeverListed | lib/server/db.ts:30-31 | An empty match ID is never listed |
| Kv.OperationsKeepShape | lib/server/db.ts:48-83 | Creating, setting state and setting metadata keep every key holding a value of its kind |
| Kv.WipeKeepsShape | lib/server/db.ts:125-134 | Wiping keeps the store well-shaped |
| Kv.SetStateSucceeds | lib/server/db.ts:67-72 | In a well-shaped store `setState` cannot fail |
| Kv.FetchAfterCreate | lib/server/db.ts:48-58 | After `createMatch`, fetching everything returns the initial state twice and the metadata |
| Kv.Created | lib/server/db.ts:48-58 | `createMatch`; `FetchAfterCreate` states that a fetch then returns the initial state and the metadata |
| Kv.SetStateEffect | lib/server/db.ts:60-73 | `["matches", id]` is overwritten; a non-empty deltalog is appended to the stored log or []; no other key changes |
| Kv.WithMetadata | lib/server/db.ts:75-83 | `setMetadata` as a map update; `SetMetadataEffect` states that the metadata key holds the new value, a fetch reads it back, and every other key is unchanged |
| Kv.SetMetadataEffect | lib/server/db.ts:75-83 | After `setMetadata` the metadata key holds the new value and a fetch returns it; every other key is unchanged |
| Kv.WithState | lib/server/db.ts:60-73 | `setState`; `SetStateEffect` and `SetStateSucceeds` state its effect and that it succeeds on a well-shaped store |
| Kv.FetchExactly | lib/server/db.ts:93-122 | Each field is returned iff it is requested and stored, and holds the record under its tuple key |
| Kv.FetchFrom | lib/server/db.ts:85-123 | `fetch`; `FetchExactly` states which fields come back and that each holds the record under its tuple key |
| Kv.WipeEffect | lib/server/db.ts:125-134 | After `wipe`, nothing of the match is fetched and other keys are unchanged |
| Kv.Wiped | lib/server/db.ts:125-134 | `wipe`; `WipeEffect` states that nothing of the match is left and other keys are kept |
| Kv.MatchesIsolated | lib/server/db.ts:48-134 | Operations on one match change nothing fetched for another |
| Kv.KvStorage.constructor | lib/server/db.ts:13-16 | The path is kept and the storage starts unconnected |
| Kv.KvStorage.Connect | lib/server/db.ts:18-20 | The storage is connected to the opened database |
| Kv.KvStorage.ListMatches | lib/server/db.ts:22-46 | Fails before `connect()`; otherwise lists exactly the matching IDs of the listing |
| Kv.KvStorage.CreateMatch | lib/server/db.ts:48-58 | Fails before `connect()` and changes nothing; otherwise the database becomes the created one |
| Kv.KvStorage.SetState | lib/server/db.ts:60-73 | Fails before `connect()`; otherwise the database is updated, or unchanged with the error |
| Kv.KvStorage.SetMetadata | lib/server/db.ts:75-83 | Fails before `connect()`; otherwise writes the metadata |
| Kv.KvStorage.Fetch | lib/server/db.ts:85-123 | Fails before `connect()`; otherwise the fetch of the requested fields |
| Kv.KvStorage.Wipe | lib/server/db.ts:125-134 | Fails before `connect()`; otherwise the match's four keys are deleted |
| Registry.ChannelIdInjective | server/bgio/transport.ts:32-34 | Distinct match IDs give distinct channel IDs |
| Registry.ChannelId | server/bgio/transport.ts:32-34 | "MATCH-" before the match ID; `ChannelIdInjective` states that matches never share a channel |
| Registry.SendTargets | server/bgio/transport.ts:36-46 | `send` emits to the requesting socket with its player's view; `sendAll` publishes on the match's channel and no other |
| Registry.Send | server/bgio/transport.ts:43 | `send`: an emit of the filtered view; `SendTargets` states that it reaches only the requesting socket |
| Registry.SendAll | server/bgio/transport.ts:44 | `sendAll`: a publish; `SendTargets` states that it goes to the match's channel and no other |
| Registry.AddedEffect | server/bgio/transport.ts:64-74 | The client is recorded under its ID and in its match's room, other entries are unchanged, and a subscription happens iff the room was absent |
| Registry.Added | server/bgio/transport.ts:64-74 | `addClient` on the maps; `AddedEffect` and `AddPreservesConsistent` state its effect and that it keeps the registry consistent |
| Registry.RemovedUnknown | server/bgio/transport.ts:77-78 | Removing an unknown client changes nothing and unsubscribes nothing |
| Registry.RemovedEffect | server/bgio/transport.ts:79-87 | The client leaves its room and the client map; an emptied room loses its room, queue and subscription; other matches are untouched |
| Registry.Removed | server/bgio/transport.ts:76-88 | `removeClient` on the maps; `RemovedUnknown`, `RemovedEffect` and `RemovePreservesConsistent` state its effect and that it keeps the registry consistent |
| Registry.EmptiesAlone | server/bgio/transport.ts:81-83 | Removal empties the room exactly when the client is its only member |
| Registry.RemovePreservesConsistent | server/bgio/transport.ts:76-88 | Removal keeps every client in its room and every room non-empty with registered members |
| Registry.AddPreservesConsistent | server/bgio/transport.ts:64-74 | Adding a client not registered keeps the registry consistent |
| Registry.SyncPreservesConsistent | server/bgio/transport.ts:166-189 | Remove-then-add keeps the registry consistent, and the client ends registered iff the sync was authorized |
| Registry.Synced | lib/server/transport.ts:158-181 | Remove, then add only when the sync is authorised; `SyncPreservesConsistent` states that the client ends registered iff authorised |
| Registry.AddWithoutRemoveBreaks | server/bgio/transport.ts:166 | Adding a client to a second match without removing it first breaks the registry invariant |
| Registry.SyncAudiences | server/bgio/transport.ts:166-189 | The syncing client is not in the audience of its sync and is in the audience of its presence change |
| Registry.Audience | server/bgio/transport.ts:92-100 | The room members a broadcast reaches; `SyncAudiences` and `MembersAreRoom` state who is in it |
| Registry.ConnectionRegistry.constructor | server/bgio/transport.ts:53-62 | All three maps start empty |
| Registry.ConnectionRegistry.AddClient | server/bgio/transport.ts:64-74 | The state becomes the added state, with its subscription calls; every match queue stays one already issued |
| Registry.ConnectionRegistry.RemoveClient | server/bgio/transport.ts:76-88 | The state becomes the removed state, with its unsubscription calls; every match queue stays one already issued |
| Registry.ConnectionRegistry.GetMatchQueue | server/bgio/transport.ts:109-116 | Returns the stored queue unchanged, or a fresh queue, different from all others, that is stored |
| Registry.ConnectionRegistry.DeleteMatchQueue | server/bgio/transport.ts:118-120 | Only that match's queue entry is removed |
| Registry.ConnectionRegistry.Broadcast | server/bgio/transport.ts:92-100 | One emit per room member, to its socket, with its player's filtered view |
| Registry.MembersAreRoom | server/bgio/transport.ts:93 | In a consistent registry the broadcast audience is exactly the room |
| Channels.PostedExactly | server/bgio/pubsub/broadcast-channel-pubsub.ts:16-21 | Posting succeeds iff the channel is open, and it records the payload and nothing else |
| Channels.Posted | lib/server/pubsub.ts:16-18 | `postMessage` on a channel object; `PostedExactly` states that it throws exactly on a closed one |
| Channels.ClosedStays | server/bgio/pubsub/broadcast-channel-pubsub.ts:31-35 | Closing is idempotent and keeps the name and listeners; a closed channel stays closed when a listener is added |
| Channels.Opened | lib/server/pubsub.ts:10 | `new BroadcastChannel(channelId)`; `OpenedListens` states that it is open, named as asked, and empty |
| Channels.Closed | lib/server/pubsub.ts:28 | `close()`; `ClosedStays` states that it is idempotent and keeps name and listeners, and `PostedExactly` that posting then fails |
| Channels.Listening | lib/server/pubsub.ts:21-24 | `addEventListener("message", …)`; `OpenedListens` states that it records the callback, and `ClosedStays` that a closed channel stays closed |
| Channels.OpenedListens | lib/server/pubsub.ts:7-24 | A new channel is open, named as asked and empty; a listener added to it is recorded once, and a message posted then is accepted |
| InMemory.Deliveries | server/bgio/pubsub/in-memory-pubsub.test.ts:17-27 | A publish invokes every callback of the channel once, in subscription order, with the payload |
| InMemory.InMemoryPubSub.constructor | server/bgio/pubsub/in-memory-pubsub.test.ts:8-15 | No subscribers and nothing invoked |
| InMemory.InMemoryPubSub.Subscribe | server/bgio/pubsub/in-memory-pubsub.test.ts:8-15 | The callback is appended to the channel's callbacks |
| InMemory.InMemoryPubSub.Publish | server/bgio/pubsub/in-memory-pubsub.test.ts:17-27 | The channel's callbacks are invoked with the payload |
| InMemory.InMemoryPubSub.UnsubscribeAll | server/bgio/pubsub/in-memory-pubsub.test.ts:29-37 | The channel's callbacks are dropped |
| InMemory.ReceivesFromSubscription | server/bgio/pubsub/in-memory-pubsub.test.ts:8-15 | A subscribed callback receives the published payload |
| InMemory.ReceivesFromTwoSubscriptions | server/bgio/pubsub/in-memory-pubsub.test.ts:17-27 | Both of two callbacks receive the payload |
| InMemory.UnsubscribedReceivesNothing | server/bgio/pubsub/in-memory-pubsub.test.ts:29-48 | After one or more `unsubscribeAll`, a publish invokes nothing |
| BgioPubSub.BroadcastChannelPubSub.constructor | server/bgio/pubsub/broadcast-channel-pubsub.ts:4-5 | No channels and an empty in-memory registry |
| BgioPubSub.BroadcastChannelPubSub.GetChannel | server/bgio/pubsub/broadcast-channel-pubsub.ts:7-14 | The cached channel is returned unchanged, or one new channel is created and cached last |
| BgioPubSub.BroadcastChannelPubSub.Publish | server/bgio/pubsub/broadcast-channel-pubsub.ts:16-21 | Local callbacks are invoked, then a new channel posts the payload and is closed; the cache is untouched |
| BgioPubSub.BroadcastChannelPubSub.Subscribe | server/bgio/pubsub/broadcast-channel-pubsub.ts:23-29 | The callback is registered locally and on the cached channel; no other channel changes |
| BgioPubSub.BroadcastChannelPubSub.UnsubscribeAll | server/bgio/pubsub/broadcast-channel-pubsub.ts:31-35 | Local callbacks are dropped; the cached channel is closed and forgotten; an unknown ID changes no channel |
| BgioPubSub.BroadcastChannelPubSub.Close | server/bgio/pubsub/broadcast-channel-pubsub.ts:37-46 | Channels are closed in cache order up to the first that throws; a TypeError ends the loop quietly, another error is rethrown |
| BgioPubSub.ClosedUpTo | server/bgio/pubsub/broadcast-channel-pubsub.ts:37-46 | The walk closes exactly the channel objects cached under the first k keys of the insertion order and leaves the others as they were |
| BgioPubSub.BroadcastChannelPubSub.Dispose | server/bgio/pubsub/broadcast-channel-pubsub.ts:48-50 | Same as `close` |
| BgioPubSub.Without | server/bgio/pubsub/broadcast-channel-pubsub.ts:34 | Deleting a map entry drops that ID from the cache order |
| BgioPubSub.FirstThrowing | server/bgio/pubsub/broadcast-channel-pubsub.ts:38-45 | The index of the first cached channel whose `close()` throws, or the end |
| BgioPubSub.CloseWithoutErrorsClosesAll | server/bgio/pubsub/broadcast-channel-pubsub.ts:37-46 | When no `close()` throws, every cached channel is closed |
| BgioPubSub.ReceivesFromSubscription | server/bgio/pubsub/broadcast-channel-pubsub.test.ts:9-16 | A subscribed callback receives the payload, and disposing succeeds |
| BgioPubSub.ReceivesFromTwoSubscriptions | server/bgio/pubsub/broadcast-channel-pubsub.test.ts:18-28 | Both callbacks receive the payload and both listen on the one cached channel |
| BgioPubSub.UnsubscribedReceivesNothing | server/bgio/pubsub/broadcast-channel-pubsub.test.ts:30-49 | After one or more `unsubscribeAll`, nothing is invoked and the channel is closed |
| LibPubSub.BroadcastChannelPubSub.constructor | lib/server/pubsub.ts:4-5 | No channels |
| LibPubSub.BroadcastChannelPubSub.GetChannel | lib/server/pubsub.ts:7-14 | The cached channel, created once per ID |
| LibPubSub.BroadcastChannelPubSub.Publish | lib/server/pubsub.ts:16-18 | Posts on the cached channel; throws InvalidStateError iff that channel is closed |
| LibPubSub.BroadcastChannelPubSub.Subscribe | lib/server/pubsub.ts:20-25 | Adds the listener to the cached channel, closed or not |
| LibPubSub.BroadcastChannelPubSub.UnsubscribeAll | lib/server/pubsub.ts:27-29 | Closes the cached channel and keeps the entry; an unknown ID is a no-op |
| LibPubSub.BroadcastChannelPubSub.UnsubscribeAllIntended | lib/server/pubsub.ts:27-29 | Closes the cached channel and forgets it |
| LibPubSub.SubscribeThenPublish | lib/server/pubsub.ts:16-25 | A subscriber and a publisher share one open channel that receives the payload |
| LibPubSub.UnsubscribeTwice | lib/server/pubsub.ts:28 | A second `unsubscribeAll` changes nothing |
| LibPubSub.UnsubscribeThenPublish | lib/server/pubsub.test.ts:34-56 | The sequences of "should unsubscribe" and "should ignore extra unsubscribe": after one or more `unsubscribeAll`, the publish throws InvalidStateError |
| LibPubSub.UnsubscribeThenPublishIntended | lib/server/pubsub.test.ts:34-56 | With the entry forgotten, the same sequences publish on a fresh channel object without listeners, and the unsubscribed callback receives nothing |
| LibPubSub.ResubscribeAfterUnsubscribe | lib/server/pubsub.ts:8-9 | As written, a later subscriber listens on the closed channel and the next publish throws |
| LibPubSub.ResubscribeAfterUnsubscribeIntended | lib/server/pubsub.ts:7-14 | Corrected, a later subscriber gets a fresh open channel and the publish goes through |
| Wire.DecodedEncoded | lib/client/transport.ts:45-72 | An optional string reads back as itself after `JSON.stringify` |
| Wire.Encoded | lib/client/transport.ts:65-70 | An optional string on the wire; `DecodedEncoded` states that it reads back unchanged |
| Transport.WebSocketTransport.constructor | lib/server/transport.ts:48-57 | The games are kept and the registry starts empty |
| Transport.WebSocketTransport.OnUpdate | server/bgio/transport.ts:141-160 | The update runs on the match's queue, created if absent, without touching the rooms |
| Transport.WebSocketTransport.OnSync | server/bgio/transport.ts:162-196 | Remove, sync, then stop if unauthorized; otherwise add and send presence(true) to the room; the client is registered iff authorized |
| Transport.WebSocketTransport.OnChat | server/bgio/transport.ts:198-217 | One chat call for the match of the first argument |
| Transport.WebSocketTransport.OnClose | lib/server/transport.ts:214-238 | The client is removed first; presence(false) is sent iff it was registered |
| Transport.UpdatesShareQueuePerMatch | lib/server/transport.ts:103-110 | Two updates of one match share a queue; another match gets a different one |
| Transport.UnauthorizedSyncRegistersNothing | lib/server/transport.ts:177-181 | An unauthorized sync registers nothing and sends no presence |
| Transport.Rejects | lib/server/transport.ts:178-180 | The `syncResponse.error === "unauthorized"` test; `WebSocketTransport.OnSync` and `UnauthorizedSyncRegistersNothing` state that a sync it rejects registers nothing |
| Transport.RouteParam | lib/server/transport.ts:118 | The route's name segment is what follows "/ws/games/", non-empty and without '/' |
| Transport.Dispatch | lib/server/transport.ts:131-209 | Which handler a message's `type` reaches and the argument positions it reads; `ClientTransport.ServerReadsEnvelopes` and `ClientTransport.OtherTypesIgnored` state the round trip and the default case |
| Transport.Route | lib/server/transport.ts:118-127 | An unknown game is not found; a known one upgrades only on the exact headers; `KeepAliveUpgradeRefused` states that a token list is refused |
| Transport.RouteIntended | lib/server/transport.ts:121-127 | The route with the handshake checks of RFC 6455 section 4.2.1; `RouteIntendedExtends` states that it upgrades every request the route as written upgrades, and more |
| Transport.FindGame | lib/server/transport.ts:121-122 | The first game with that name, and none iff no game has it |
| Transport.TrimStart | lib/server/transport.ts:124-127 | No leading whitespace is left |
| Transport.TrimEnd | lib/server/transport.ts:124-127 | No trailing whitespace is left |
| Transport.FieldsAfterComma | lib/server/transport.ts:124-127 | Splitting on a comma yields the part before it followed by the fields of the rest |
| Transport.FieldsOfTwo | lib/server/transport.ts:124-127 | A header of two comma-free fields splits into exactly those two |
| Transport.RouteIntendedExtends | lib/server/transport.ts:121-127 | The corrected route upgrades every request the route upgrades, to the same game, and the two agree on not-found |
| Transport.KeepAliveUpgradeRefused | lib/server/transport.ts:124-127 | `Connection: keep-alive, Upgrade` is passed on by the route but upgraded by the handshake of RFC 6455 |
| SocketIOServer.ServerOptions | server/bgio/socket-io.ts:161-165 | The ping timeout is 20000 and the interval 10000 unless `socketOpts` sets them; every user option wins |
| SocketIOServer.SocketIO.constructor | server/bgio/socket-io.ts:93-102 | Defaults: no games, a fresh empty unstorage database, a fresh in-memory pub/sub, empty maps |
| SocketIOServer.SocketIO.OnUpdate | server/bgio/socket-io.ts:172-185 | The update runs on the match's queue, created if absent |
| SocketIOServer.SocketIO.OnSync | server/bgio/socket-io.ts:187-216 | Join the room, remove, sync, then stop if unauthorized; otherwise add and send presence(true) |
| SocketIOServer.SocketIO.OnDisconnect | server/bgio/socket-io.ts:218-236 | Removal first; presence(false) iff the socket was registered |
| SocketIOServer.SocketIO.OnChat | server/bgio/socket-io.ts:238-250 | One chat call for the match |
| SocketIOServer.DefaultServer | server/bgio/socket-io.ts:93-102 | A server built without options serves no game over an empty database and in-memory pub/sub, with the default pings |
| SocketIOServer.TwoPlayersOneRoom | server/bgio/socket-io.ts:128-140 | Two sockets in one match subscribe the channel once, the second is announced to both, and the first leaving keeps the room |
| ClientTransport.StripSlashes | lib/client/transport.ts:13 | The base without its trailing slashes: a prefix with no trailing '/', and only slashes removed |
| ClientTransport.SocketOriginSchemes | lib/client/transport.ts:17 | An http page opens a ws socket and an https page a wss socket on the same host |
| ClientTransport.SocketOrigin | lib/client/transport.ts:17 | `origin.replace("http", "ws")`; `SocketOriginSchemes` states that http becomes ws and https wss |
| ClientTransport.SocketPathMatchesRoute | lib/client/transport.ts:15-18 | Without a base the path is the server's route, whose parameter reads back as the game's name |
| ClientTransport.BaseSlashesIgnored | lib/client/transport.ts:13 | Any number of trailing slashes on the base gives the same socket path |
| ClientTransport.Base | lib/client/transport.ts:13 | `opts.base?.replace(/\/+$/, "") ?? ""`; `StripSlashes` states that the result has no trailing slash and drops only slashes, and `BaseSlashesIgnored` that extra slashes do not change the path |
| ClientTransport.SocketPath | lib/client/transport.ts:13-16 | The socket path; `BaseSlashesIgnored` and `SocketPathMatchesRoute` state that trailing slashes do not matter and that the server's route reads the game name back |
| ClientTransport.ServerReadsEnvelopes | lib/client/transport.ts:45-72 | The server reads each envelope kind back with its match ID, player ID and credentials |
| ClientTransport.UpdateEnvelope | lib/client/transport.ts:45-52 | The update envelope; `ServerReadsEnvelopes` states that the server reads its match ID |
| ClientTransport.ChatEnvelope | lib/client/transport.ts:55-61 | The chat envelope; `ServerReadsEnvelopes` states that the server reads its match ID |
| ClientTransport.SyncEnvelope | lib/client/transport.ts:64-71 | The sync envelope; `ServerReadsEnvelopes` states that the server reads back its match, player and credentials |
| ClientTransport.OtherTypesIgnored | lib/server/transport.ts:133-209 | A message of any other type reaches no handler |
| ClientTransport.WebSocketTransport.constructor | lib/client/transport.ts:11-35 | The socket's path and origin are built from the base, the game and the page; nothing is sent yet |
| ClientTransport.WebSocketTransport.Connect | lib/client/transport.ts:37-39 | The socket reconnects and nothing else changes |
| ClientTransport.WebSocketTransport.Disconnect | lib/client/transport.ts:41-43 | The socket closes and nothing else changes |
| ClientTransport.WebSocketTransport.SendAction | lib/client/transport.ts:45-53 | One update envelope with the action, state ID, match and player |
| ClientTransport.WebSocketTransport.SendChatMessage | lib/client/transport.ts:55-62 | One chat envelope with the given match, the message and the credentials |
| ClientTransport.WebSocketTransport.RequestSync | lib/client/transport.ts:64-72 | One sync envelope with the current match, player, credentials and number of players |
| ClientTransport.WebSocketTransport.UpdateMatchID | lib/client/transport.ts:74-77 | The match ID is set first, then exactly one sync carrying it is sent |
| ClientTransport.WebSocketTransport.UpdatePlayerID | lib/client/transport.ts:79-82 | The player ID is set first, then exactly one sync carrying it is sent |
| ClientTransport.WebSocketTransport.UpdateCredentials | lib/client/transport.ts:84-87 | The credentials are set first, then exactly one sync carrying them is sent |
| ClientTransport.WebSocketTransport.OnOpen | lib/client/transport.ts:24-27 | A sync is sent before the status is set to connected |
| ClientTransport.WebSocketTransport.OnMessage | lib/client/transport.ts:28-31 | The parsed data is handed to the client |
| ClientTransport.WebSocketTransport.OnClose | lib/client/transport.ts:32-34 | The status is set to disconnected |
| ClientTransport.JoinThenSeat | lib/client/transport.ts:74-87 | Picking a match sends a sync without a seat; taking a seat sends one that the server reads back as that player |

## Left out

- Concurrency and awaits are out of scope. Each handler runs to completion. The await between `removeClient` and `addClient` in a sync is not interleaved, so interleaved syncs that break the registry invariant are not shown. The read-modify-write of the log in `setState` is treated as atomic. `PQueue` is only an identity: updates are not scheduled.
- boardgame.io's `Master` is not modelled. `onUpdate`, `onSync`, `onChatMessage` and `onConnectionChange` are recorded calls. The `error` of the sync response is a parameter. `filterPlayerView` is a symbolic view of the payload.
- Delivery across processes by `BroadcastChannel` is not modelled. A channel records what is posted on it and who listens. Listeners are not invoked from other channel objects, so any second local delivery in the boardgame.io pub/sub goes unmodelled.
- `InMemoryPubSub` is not part of this model's source. Its behaviour follows its tests, with callbacks called in subscription order.
- The `lib/server/pubsub.test.ts` spy assertions on delivered messages are not encoded: they rely on runtime `BroadcastChannel` behaviour. The model does not agree with two of those tests. "should unsubscribe" and "should ignore extra unsubscribe" (lines 34-56) publish after `unsubscribeAll`, and `LibPubSub.UnsubscribeThenPublish` shows that this publish throws InvalidStateError. The model therefore predicts that both tests throw instead of passing; see the second row under "## Findings".
- The unstorage key normalisation and the `bgio` prefix are left out. The keys a driver lists are a parameter, in their order. The entries of a KV `list` are a parameter too, in key order.
- JSON parsing of malformed messages is left out. Handlers receive the arguments already destructured. A missing argument is None.
- URL resolution by `new URL`, partysocket's buffering and reconnection, and socket.io namespaces, rooms and `socket.join` internals are left out. A join is a recorded step.
- The `auth` option of the socket.io server is passed to the Master, so it is not modelled.
- The `Transport` base class of the browser transport is not modelled, nor its callbacks. Messages handed to the client are tokens.
- `app()` of server/bgio/transport.ts is not modelled. It builds a Hono router that it never returns, and the route it mounts, `/ws/:name`, differs from the client's path. Its handlers are modelled with those of lib/server/transport.ts.
- lib/server/plugin.ts is not modelled. It calls a `transport.middleware()` that the transport does not define.
- The rendering of the islands is not modelled. Only the panel choice, the Pass button predicate and the card grouping are.
- `random.Shuffle` and `nanoid` are not modelled. The shuffle is a parameter, required to be a permutation of 3..35. Credentials are opaque strings.
- NoThanks.Game.Take: requires an active card and a counter entry for the mover. Once `endIf` reports scores no card is active, and boardgame.io accepts no further moves, so a take without a card never runs. The source reads `G.tableu[playerID]` and `G.players[playerID]` (lib/games/no-thanks.ts:70-71) and throws for an unseated player.
- NoThanks.Game.Pass: requires the mover to have a counter entry. The source reads `G.players[playerID].counters` and throws for an unseated player.
- NoThanks.Game.Setup: requires distinct player IDs in play order. boardgame.io's `ctx.playOrder` never repeats a player.
- Unstorage.UnstorageDb.ListMatches: requires that the listed keys be exactly the stored keys, which is what `getKeys` returns.
- Kv.KvStorage.ListMatches: requires that the listing be the database's entries under `["matches"]`. That is what `list` yields.
- Registry.ConnectionRegistry.Broadcast: promises the set of emits, one per registered room member, but not their order. The source's `forEach` walks the room's `Set` in insertion order (server/bgio/transport.ts:93, server/bgio/socket-io.ts:145); the loop here picks the members in an unspecified order.
- A match whose ID is "metadata" is listed by the KV backend because of its state record `["matches", "metadata"]` (lib/server/db.ts:29-31), as `Kv.StateOfMatchMetadataListed` shows, whatever its metadata says. boardgame.io names new matches with random nanoid strings, so the case arises only for a match created under that exact ID. The model keeps the behaviour as written.
- Unstorage.MatchesIsolated: requires both match IDs to be free of ':', and so does `Unstorage.MatchKeysDisjoint`. Under the `${matchID}:metadata` scheme (server/bgio/db/unstorage-db.ts:151-161) a match ID containing ':' can own another match's key: the state key of match "a:log" is the log key of match "a", as `Unstorage.ColonIDsCollide` shows. boardgame.io's generated match IDs never contain ':'. The operations themselves are modelled for every ID.
- Transport.UpdatesShareQueuePerMatch: requires two distinct matches, since it compares their queues.

## Findings

| source | as written | input that shows it | evidently intended | confidence | as-written member | corrected member |
|---|---|---|---|---|---|---|
| islands/NoThanksClient.tsx:23-24 | `hasCounter` is true when the current player has no counters, and Pass is disabled when it is false (line 71): the button is enabled exactly when the pass move would be rejected | current player "0" holding 11 counters sees Pass disabled | Pass enabled exactly when the current player has a counter, as `moves.pass` requires (lib/games/no-thanks.ts:61) | not executed | NoThanksClient.PassButtonInverted, NoThanksClient.PassButtonCounterexample | NoThanksClient.HasCounterIntended, NoThanksClient.PassButtonIntended |
| lib/server/pubsub.ts:27-29 | `unsubscribeAll` closes the cached channel but keeps it in the map, so a later `subscribe` listens on a closed channel and the next `publish` throws InvalidStateError (HTML Living Standard, section 9.6.1, `postMessage` step on a closed channel) | the sequence of the test "should unsubscribe" (lib/server/pubsub.test.ts:38-40): subscribe "foo", unsubscribeAll "foo", publish "foo"; the publish throws. A second subscribe before the publish fails the same way | close the channel and delete its entry, as the boardgame.io pub/sub does (server/bgio/pubsub/broadcast-channel-pubsub.ts:31-35) | not executed | LibPubSub.UnsubscribeThenPublish, LibPubSub.ResubscribeAfterUnsubscribe | LibPubSub.BroadcastChannelPubSub.UnsubscribeAllIntended, LibPubSub.UnsubscribeThenPublishIntended, LibPubSub.ResubscribeAfterUnsubscribeIntended |
| lib/server/transport.ts:124-127 | the route upgrades only when `Connection` is exactly "Upgrade" and `Upgrade` exactly "websocket" | `Connection: keep-alive, Upgrade`, as Firefox sends it, is passed on to the next handler | the handshake checks of RFC 6455, section 4.2.1: Connection includes the token "upgrade" (a comma-separated list, RFC 9110 section 7.3) and Upgrade is "websocket", both case-insensitive | not executed | Transport.Route, Transport.KeepAliveUpgradeRefused | Transport.RouteIntended, Transport.RouteIntendedExtends |
