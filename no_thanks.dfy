/**
 * The No Thanks game of lib/games/no-thanks.ts: the game state `G`, its
 * setup, the two moves and the end-of-game scoring.
 *
 * A card is its value. `random.Shuffle` is an arbitrary permutation passed in
 * by the caller, and `events.endTurn()` is the `endTurn` flag of a move's
 * result. The state object that boardgame.io hands to the moves is mutated in
 * place, so it is a class; the scoring fold is a pure function.
 */
module NoThanks {
  import opened Wrappers
  import opened Cards

  type PlayerID = string

  /** What a move hands back to boardgame.io. */
  datatype MoveResult = InvalidMove | Moved(endTurn: bool)

  /** `Array(33).fill(3).map((n, i) => n + i)`: the cards 3 to 35. */
  function FullDeck(): seq<int> {
    seq(33, i => 3 + i)
  }

  /** Counters each player starts with, by number of players. */
  function StartingCounters(numPlayers: int): int {
    if numPlayers >= 7 then 7 else if numPlayers >= 6 then 9 else 11
  }

  /** The 24 cards kept after dropping the first 9 of the shuffled deck are distinct cards of the game. */
  lemma DealtCards(shuffled: seq<int>)
    requires multiset(shuffled) == multiset(FullDeck())
    ensures |shuffled| == 33
    ensures |shuffled[9..]| == 24
    ensures Distinct(shuffled[9..])
    ensures forall k :: 0 <= k < |shuffled[9..]| ==> 3 <= shuffled[9..][k] <= 35
  {
    assert |multiset(shuffled)| == |shuffled|;
    DistinctMultiplicity(FullDeck());
    DistinctMultiplicity(shuffled);
    var kept := shuffled[9..];
    forall i, j | 0 <= i < j < |kept| ensures kept[i] != kept[j] {
      assert kept[i] == shuffled[i + 9] && kept[j] == shuffled[j + 9];
    }
    forall k | 0 <= k < |kept| ensures 3 <= kept[k] <= 35 {
      assert kept[k] == shuffled[k + 9];
      assert shuffled[k + 9] in multiset(FullDeck());
    }
  }

  // ---------------------------------------------------------------------
  // Totals over the players, in play order.

  function CounterTotal(order: seq<PlayerID>, counters: map<PlayerID, int>): int {
    if order == [] then 0
    else (if order[0] in counters then counters[order[0]] else 0) + CounterTotal(order[1..], counters)
  }

  function HeldCards(order: seq<PlayerID>, tableau: map<PlayerID, seq<int>>): multiset<int> {
    if order == [] then multiset{}
    else (if order[0] in tableau then multiset(tableau[order[0]]) else multiset{}) + HeldCards(order[1..], tableau)
  }

  lemma {:induction false} CounterTotalElsewhere(order: seq<PlayerID>, counters: map<PlayerID, int>, p: PlayerID, v: int)
    requires p !in order
    ensures CounterTotal(order, counters[p := v]) == CounterTotal(order, counters)
  {
    if order != [] {
      CounterTotalElsewhere(order[1..], counters, p, v);
    }
  }

  /** Changing one player's counters changes the total by the same amount. */
  lemma {:induction false} CounterTotalUpdate(order: seq<PlayerID>, counters: map<PlayerID, int>, p: PlayerID, v: int)
    requires Distinct(order) && p in order && p in counters
    ensures CounterTotal(order, counters[p := v]) == CounterTotal(order, counters) - counters[p] + v
  {
    if order[0] == p {
      CounterTotalElsewhere(order[1..], counters, p, v);
    } else {
      CounterTotalUpdate(order[1..], counters, p, v);
    }
  }

  /** Every player starting with `c` counters gives `c` per player in all. */
  lemma {:induction false} CounterTotalUniform(order: seq<PlayerID>, counters: map<PlayerID, int>, c: int)
    requires forall p | p in order :: p in counters && counters[p] == c
    ensures CounterTotal(order, counters) == |order| * c
  {
    if order != [] {
      CounterTotalUniform(order[1..], counters, c);
    }
  }

  lemma {:induction false} HeldCardsElsewhere(order: seq<PlayerID>, tableau: map<PlayerID, seq<int>>, p: PlayerID, cards: seq<int>)
    requires p !in order
    ensures HeldCards(order, tableau[p := cards]) == HeldCards(order, tableau)
  {
    if order != [] {
      HeldCardsElsewhere(order[1..], tableau, p, cards);
    }
  }

  /** Replacing one tableau swaps its cards in the pooled multiset. */
  lemma {:induction false} HeldCardsUpdate(order: seq<PlayerID>, tableau: map<PlayerID, seq<int>>, p: PlayerID, cards: seq<int>)
    requires Distinct(order) && p in order && p in tableau
    ensures HeldCards(order, tableau[p := cards]) + multiset(tableau[p]) == HeldCards(order, tableau) + multiset(cards)
  {
    var head := if order[0] in tableau then multiset(tableau[order[0]]) else multiset{};
    if order[0] == p {
      HeldCardsElsewhere(order[1..], tableau, p, cards);
    } else {
      HeldCardsUpdate(order[1..], tableau, p, cards);
      assert HeldCards(order, tableau[p := cards]) == head + HeldCards(order[1..], tableau[p := cards]);
      assert HeldCards(order, tableau) == head + HeldCards(order[1..], tableau);
      var rest', rest := HeldCards(order[1..], tableau[p := cards]), HeldCards(order[1..], tableau);
      assert (head + rest') + multiset(tableau[p]) == head + (rest' + multiset(tableau[p]));
      assert head + (rest + multiset(cards)) == (head + rest) + multiset(cards);
    }
  }

  /** A player's tableau is part of the pooled cards. */
  lemma {:induction false} HeldCardsInclude(order: seq<PlayerID>, tableau: map<PlayerID, seq<int>>, p: PlayerID)
    requires p in order && p in tableau
    ensures multiset(tableau[p]) <= HeldCards(order, tableau)
  {
    if order[0] != p {
      HeldCardsInclude(order[1..], tableau, p);
    }
  }

  lemma {:induction false} HeldCardsEmpty(order: seq<PlayerID>, tableau: map<PlayerID, seq<int>>)
    requires forall p | p in order :: p in tableau && tableau[p] == []
    ensures HeldCards(order, tableau) == multiset{}
  {
    if order != [] {
      HeldCardsEmpty(order[1..], tableau);
    }
  }

  /** No hand holds a card twice when the cards in play are distinct. */
  lemma HandDistinct(order: seq<PlayerID>, tableau: map<PlayerID, seq<int>>, rest: multiset<int>, dealt: seq<int>, p: PlayerID)
    requires Distinct(dealt) && rest + HeldCards(order, tableau) == multiset(dealt)
    requires p in order && p in tableau
    ensures Distinct(tableau[p])
  {
    HeldCardsInclude(order, tableau, p);
    DistinctMultiplicity(dealt);
    DistinctMultiplicity(tableau[p]);
    forall v ensures multiset(tableau[p])[v] <= 1 {
      assert multiset(tableau[p])[v] <= multiset(dealt)[v];
    }
  }

  lemma MultisetCancel(a: multiset<int>, b: multiset<int>, c: multiset<int>)
    requires a + c == b + c
    ensures a == b
  {
    forall v ensures a[v] == b[v] {
      assert (a + c)[v] == (b + c)[v];
    }
  }

  /** `deckContent.pop() ?? null`: the top card, if any, and the deck without it. */
  function Pop(deck: seq<int>): (drawn: (Option<int>, seq<int>))
    ensures deck == [] ==> drawn == (None, [])
    ensures deck != [] ==> drawn.0 == Some(deck[|deck| - 1]) && drawn.1 + [deck[|deck| - 1]] == deck
  {
    if deck == [] then (None, []) else (Some(deck[|deck| - 1]), deck[..|deck| - 1])
  }

  function ActiveCards(activeCard: Option<int>): multiset<int> {
    if activeCard.Some? then multiset{activeCard.value} else multiset{}
  }

  // ---------------------------------------------------------------------
  // Scoring.

  /** The index `cards.at(i - 1)` reads: the previous card, or the last card when `i` is 0. */
  function AtPrevious(n: nat, i: nat): nat
    requires i < n
  {
    if i == 0 then n - 1 else i - 1
  }

  /** What card `i` adds to the total in the scoring `reduce`. */
  function FoldTerm(cards: seq<int>, i: nat): int
    requires i < |cards|
  {
    if cards[i] - 1 == cards[AtPrevious(|cards|, i)] then 0 else cards[i]
  }

  /** The scoring `reduce`, a left fold from position `i` with running `total`. */
  function Reduce(cards: seq<int>, i: nat, total: int): int
    requires i <= |cards|
    decreases |cards| - i
  {
    if i == |cards| then total else Reduce(cards, i + 1, total + FoldTerm(cards, i))
  }

  /**
   * The rule of the game, written independently of any order: a card counts
   * its value unless the card one below it is held too, so each run of
   * consecutive cards counts only its lowest card.
   */
  function RunScore(cards: seq<int>, held: seq<int>): int {
    if cards == [] then 0
    else (if cards[0] - 1 in held then 0 else cards[0]) + RunScore(cards[1..], held)
  }

  /**
   * On strictly ascending cards each summand of the fold is the rule's: the
   * previous card is one below exactly when the card one below is held, and
   * the wrap-around at position 0 compares with the largest card, which is
   * never one below the smallest.
   */
  lemma FoldTermIsRule(cards: seq<int>, i: nat)
    requires forall a, b :: 0 <= a < b < |cards| ==> cards[a] < cards[b]
    requires i < |cards|
    ensures FoldTerm(cards, i) == if cards[i] - 1 in cards then 0 else cards[i]
  {
    if cards[i] - 1 in cards {
      var j :| 0 <= j < |cards| && cards[j] == cards[i] - 1;
      assert j < i;
      assert cards[j] <= cards[i - 1];
    }
  }

  lemma {:induction false} ReduceIsRunScore(cards: seq<int>, i: nat, total: int)
    requires forall a, b :: 0 <= a < b < |cards| ==> cards[a] < cards[b]
    requires i <= |cards|
    ensures Reduce(cards, i, total) == total + RunScore(cards[i..], cards)
    decreases |cards| - i
  {
    if i < |cards| {
      FoldTermIsRule(cards, i);
      ReduceIsRunScore(cards, i + 1, total + FoldTerm(cards, i));
      assert cards[i..][1..] == cards[i + 1..];
    }
  }

  /**
   * A player's score at the end: the ascending fold of their cards minus their
   * counters, which on a duplicate-free hand is the rule's count of the
   * lowest card of every run.
   */
  function PlayerScore(cards: seq<int>, counters: int): (score: int)
    requires Distinct(cards)
    ensures score == RunScore(SortAscending(cards), SortAscending(cards)) - counters
  {
    var sorted := SortAscending(cards);
    SortAscendingDistinct(cards);
    DistinctAscendingStrict(sorted);
    ReduceIsRunScore(sorted, 0, 0);
    assert sorted[0..] == sorted;
    Reduce(sorted, 0, 0) - counters
  }

  // ---------------------------------------------------------------------
  // The game state `G` as a value, and what the moves do to it.

  datatype GameState = GameState(
    deckSize: int,
    activeCard: Option<int>,
    activeCounters: int,
    /** `secret.deckContent`; the top of the deck is its last element. */
    deckContent: seq<int>,
    tableau: map<PlayerID, seq<int>>,
    counters: map<PlayerID, int>)

  /** Counters held by the players of `order` plus the pot. */
  function CountersIn(order: seq<PlayerID>, g: GameState): int {
    g.activeCounters + CounterTotal(order, g.counters)
  }

  /** The deck, the face-up card and every tableau, pooled. */
  function CardsIn(order: seq<PlayerID>, g: GameState): multiset<int> {
    multiset(g.deckContent) + ActiveCards(g.activeCard) + HeldCards(order, g.tableau)
  }

  /** What every state reachable from the setup satisfies. */
  ghost predicate Consistent(order: seq<PlayerID>, g: GameState, dealt: seq<int>, total: int) {
    Distinct(order)
    && (forall p :: p in g.counters <==> p in order)
    && (forall p :: p in g.tableau <==> p in order)
    && g.deckSize == |g.deckContent|
    && g.activeCounters >= 0
    && (forall p | p in g.counters :: g.counters[p] >= 0)
    && CountersIn(order, g) == total
    && CardsIn(order, g) == multiset(dealt)
    && Distinct(dealt)
  }

  /** The guard of `moves.pass`: a player with no counters left may not pass. */
  predicate PassAllowed(g: GameState, p: PlayerID)
    requires p in g.counters
  {
    g.counters[p] != 0
  }

  /** The state of `moves.pass` after a player with counters left pays one into the pot. */
  function AfterPass(g: GameState, p: PlayerID): GameState
    requires p in g.counters
  {
    g.(counters := g.counters[p := g.counters[p] - 1], activeCounters := g.activeCounters + 1)
  }

  /** The state of `moves.take`: the card and pot go to the player, the next card is turned up. */
  function AfterTake(g: GameState, p: PlayerID): GameState
    requires p in g.counters && p in g.tableau && g.activeCard.Some?
  {
    var drawn := Pop(g.deckContent);
    g.(tableau := g.tableau[p := g.tableau[p] + [g.activeCard.value]],
       counters := g.counters[p := g.counters[p] + g.activeCounters],
       activeCounters := 0,
       deckSize := if g.deckSize != 0 then g.deckSize - 1 else g.deckSize,
       activeCard := drawn.0,
       deckContent := drawn.1)
  }

  /** A pass moves exactly one counter from the player to the pot. */
  lemma PassConserves(order: seq<PlayerID>, g: GameState, p: PlayerID)
    requires Distinct(order) && p in order && p in g.counters
    ensures CountersIn(order, AfterPass(g, p)) == CountersIn(order, g)
    ensures CardsIn(order, AfterPass(g, p)) == CardsIn(order, g)
    ensures AfterPass(g, p).counters[p] == g.counters[p] - 1
    ensures AfterPass(g, p).activeCounters == g.activeCounters + 1
  {
    CounterTotalUpdate(order, g.counters, p, g.counters[p] - 1);
  }

  lemma PassKeepsConsistent(order: seq<PlayerID>, g: GameState, dealt: seq<int>, total: int, p: PlayerID)
    requires Consistent(order, g, dealt, total) && p in g.counters && PassAllowed(g, p)
    ensures Consistent(order, AfterPass(g, p), dealt, total)
  {
    PassConserves(order, g, p);
  }

  /**
   * A take loses no card and no counter: the player gains the face-up card
   * and the whole pot, the pot is emptied, and the next card comes off the deck.
   */
  lemma TakeConserves(order: seq<PlayerID>, g: GameState, p: PlayerID)
    requires Distinct(order) && p in order && p in g.counters && p in g.tableau && g.activeCard.Some?
    ensures CountersIn(order, AfterTake(g, p)) == CountersIn(order, g)
    ensures CardsIn(order, AfterTake(g, p)) == CardsIn(order, g)
    ensures AfterTake(g, p).counters[p] == g.counters[p] + g.activeCounters
    ensures AfterTake(g, p).activeCounters == 0
    ensures AfterTake(g, p).tableau[p] == g.tableau[p] + [g.activeCard.value]
  {
    var card := g.activeCard.value;
    var hand := g.tableau[p];
    var held := HeldCards(order, g.tableau);
    var held' := HeldCards(order, g.tableau[p := hand + [card]]);
    HeldCardsUpdate(order, g.tableau, p, hand + [card]);
    assert multiset(hand + [card]) == multiset(hand) + multiset{card};
    MultisetCancel(held', held + multiset{card}, multiset(hand));
    var deck := g.deckContent;
    if deck != [] {
      assert deck == Pop(deck).1 + [deck[|deck| - 1]];
    }
    CounterTotalUpdate(order, g.counters, p, g.counters[p] + g.activeCounters);
  }

  /** `deckSize` keeps following the secret deck, also once the deck runs out. */
  lemma TakeKeepsConsistent(order: seq<PlayerID>, g: GameState, dealt: seq<int>, total: int, p: PlayerID)
    requires Consistent(order, g, dealt, total) && p in g.counters && g.activeCard.Some?
    ensures Consistent(order, AfterTake(g, p), dealt, total)
    ensures AfterTake(g, p).deckSize == |AfterTake(g, p).deckContent|
  {
    TakeConserves(order, g, p);
  }

  /** Facts about the tableaux that the scoring relies on. */
  lemma ConsistentHands(order: seq<PlayerID>, g: GameState, dealt: seq<int>, total: int, p: PlayerID)
    requires Consistent(order, g, dealt, total) && p in order
    ensures p in g.tableau && p in g.counters && Distinct(g.tableau[p])
  {
    HandDistinct(order, g.tableau, multiset(g.deckContent) + ActiveCards(g.activeCard), dealt, p);
  }

  /**
   * `endIf`: nothing while a card is face up; afterwards the final score of
   * every player in play order.
   */
  function Scores(order: seq<PlayerID>, g: GameState): (scores: Option<map<PlayerID, int>>)
    requires forall p | p in order :: p in g.tableau && p in g.counters && Distinct(g.tableau[p])
    ensures scores.None? <==> g.activeCard.Some?
    ensures scores.Some? ==> scores.value.Keys == set p | p in order
    ensures scores.Some? ==> forall p | p in order ::
      scores.value[p] == RunScore(SortAscending(g.tableau[p]), SortAscending(g.tableau[p])) - g.counters[p]
  {
    if g.activeCard.Some? then None
    else Some(map p | p in order :: PlayerScore(g.tableau[p], g.counters[p]))
  }

  // ---------------------------------------------------------------------
  // The state object boardgame.io passes to the moves, updated in place.

  class Game {
    const playOrder: seq<PlayerID>
    var deckSize: int
    var activeCard: Option<int>
    var activeCounters: int
    var deckContent: seq<int>
    var tableau: map<PlayerID, seq<int>>
    var counters: map<PlayerID, int>

    /** The 24 cards in play, and the counters handed out, fixed at setup. */
    ghost const dealt: seq<int>
    ghost const totalCounters: int

    function State(): GameState
      reads this
    {
      GameState(deckSize, activeCard, activeCounters, deckContent, tableau, counters)
    }

    ghost predicate Valid()
      reads this
    {
      Consistent(playOrder, State(), dealt, totalCounters)
    }

    /** `setup`: deal the shuffled deck, give out the starting counters. */
    constructor Setup(playOrder: seq<PlayerID>, numPlayers: int, shuffled: seq<int>)
      requires Distinct(playOrder)
      requires multiset(shuffled) == multiset(FullDeck())
      ensures Valid()
      ensures this.playOrder == playOrder
      ensures |shuffled| == 33
      ensures deckContent == shuffled[9..32] && activeCard == Some(shuffled[32])
      ensures deckSize == 23 && activeCounters == 0
      ensures tableau == map p | p in playOrder :: []
      ensures counters == map p | p in playOrder :: StartingCounters(numPlayers)
      ensures dealt == shuffled[9..]
      ensures totalCounters == |playOrder| * StartingCounters(numPlayers)
    {
      DealtCards(shuffled);
      var kept := shuffled[9..];
      this.playOrder := playOrder;
      deckContent := kept[..|kept| - 1];
      activeCard := Some(kept[|kept| - 1]);
      tableau := map p | p in playOrder :: [];
      counters := map p | p in playOrder :: StartingCounters(numPlayers);
      deckSize := |kept| - 1;
      activeCounters := 0;
      dealt := kept;
      totalCounters := |playOrder| * StartingCounters(numPlayers);
      new;
      assert kept == deckContent + [kept[|kept| - 1]];
      assert deckContent == shuffled[9..32];
      HeldCardsEmpty(playOrder, tableau);
      CounterTotalUniform(playOrder, counters, StartingCounters(numPlayers));
    }

    /** `moves.pass`: pay one counter into the pot, or refuse when the player has none. */
    method Pass(p: PlayerID) returns (r: MoveResult)
      requires Valid() && p in counters
      modifies this
      ensures Valid()
      ensures !PassAllowed(old(State()), p) ==> r == InvalidMove && unchanged(this)
      ensures PassAllowed(old(State()), p) ==> r == Moved(true) && State() == AfterPass(old(State()), p)
    {
      if counters[p] == 0 {
        return InvalidMove;
      }
      ghost var before := State();
      var next := AfterPass(State(), p);
      counters, activeCounters := next.counters, next.activeCounters;
      assert State() == next;
      PassKeepsConsistent(playOrder, before, dealt, totalCounters, p);
      r := Moved(true);
    }

    /** `moves.take`; the turn does not end. */
    method Take(p: PlayerID) returns (r: MoveResult)
      requires Valid() && p in counters && activeCard.Some?
      modifies this
      ensures Valid()
      ensures r == Moved(false)
      ensures State() == AfterTake(old(State()), p)
    {
      ghost var before := State();
      var next := AfterTake(State(), p);
      tableau, counters, activeCounters := next.tableau, next.counters, next.activeCounters;
      deckSize, activeCard, deckContent := next.deckSize, next.activeCard, next.deckContent;
      assert State() == next;
      TakeKeepsConsistent(playOrder, before, dealt, totalCounters, p);
      r := Moved(false);
    }

    /** `endIf`, read off the current state. */
    function EndIf(): (scores: Option<map<PlayerID, int>>)
      requires Valid()
      reads this
      ensures scores.None? <==> activeCard.Some?
      ensures scores.Some? ==> scores.value.Keys == set p | p in playOrder
      ensures scores.Some? ==> forall p | p in playOrder ::
        scores.value[p] == RunScore(SortAscending(tableau[p]), SortAscending(tableau[p])) - counters[p]
    {
      var g := State();
      assert forall p | p in playOrder :: p in g.tableau && p in g.counters && Distinct(g.tableau[p]) by {
        forall p | p in playOrder ensures p in g.tableau && p in g.counters && Distinct(g.tableau[p]) {
          ConsistentHands(playOrder, g, dealt, totalCounters, p);
        }
      }
      Scores(playOrder, g)
    }
  }
}
