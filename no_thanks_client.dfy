/**
 * The predicates of the No Thanks board island (islands/NoThanksClient.tsx)
 * that decide what the player sees: the current player's metadata entry,
 * whether the Pass button is enabled, and which status panel is shown.
 *
 * JavaScript truthiness is spelled out: an absent value is None, the empty
 * string is falsy, and a counter count of 0 is falsy.
 */
module NoThanksClient {
  import opened Wrappers
  import opened NoThanks

  // ---------------------------------------------------------------------
  // `parseInt` on player IDs.

  predicate IsDigit(c: char) {
    '0' <= c <= '9'
  }

  function DigitChar(d: nat): char
    requires d < 10
  {
    ['0', '1', '2', '3', '4', '5', '6', '7', '8', '9'][d]
  }

  /** The longest prefix of `s` made of decimal digits. */
  function DigitPrefix(s: string): (p: string)
    ensures |p| <= |s| && p == s[..|p|]
    ensures forall k :: 0 <= k < |p| ==> IsDigit(p[k])
    ensures |p| < |s| ==> !IsDigit(s[|p|])
  {
    if s == [] || !IsDigit(s[0]) then [] else [s[0]] + DigitPrefix(s[1..])
  }

  /** The number a string of decimal digits denotes. */
  function DigitsValue(s: string): nat
    requires forall k :: 0 <= k < |s| ==> IsDigit(s[k])
  {
    if s == [] then 0
    else
      assert IsDigit(s[|s| - 1]);
      DigitsValue(s[..|s| - 1]) * 10 + (s[|s| - 1] as int - '0' as int)
  }

  /**
   * `parseInt(s)` for strings that start with their digits; None is `NaN`.
   * JavaScript's `parseInt` also skips leading whitespace and reads a leading
   * sign; neither is modelled, since the only strings parsed here are player
   * IDs, which are digit strings (`PlayerIDOf`), and for those both readings agree.
   */
  function ParseInt(s: string): Option<nat> {
    var digits := DigitPrefix(s);
    if digits == [] then None else Some(DigitsValue(digits))
  }

  /** The decimal spelling boardgame.io uses for player IDs. */
  function PlayerIDOf(n: nat): (s: string)
    ensures s != []
    ensures forall k :: 0 <= k < |s| ==> IsDigit(s[k])
  {
    if n < 10 then [DigitChar(n)] else PlayerIDOf(n / 10) + [DigitChar(n % 10)]
  }

  lemma {:induction false} PlayerIDValue(n: nat)
    ensures DigitsValue(PlayerIDOf(n)) == n
  {
    if n >= 10 {
      var s := PlayerIDOf(n);
      PlayerIDValue(n / 10);
      assert s[..|s| - 1] == PlayerIDOf(n / 10);
    }
  }

  lemma AllDigitsPrefix(s: string)
    requires forall k :: 0 <= k < |s| ==> IsDigit(s[k])
    ensures DigitPrefix(s) == s
  {
  }

  /** `parseInt` reads back every player ID. */
  lemma ParsePlayerID(n: nat)
    ensures ParseInt(PlayerIDOf(n)) == Some(n)
  {
    AllDigitsPrefix(PlayerIDOf(n));
    PlayerIDValue(n);
  }

  // ---------------------------------------------------------------------
  // The predicates of the island.

  /** `ctx?.currentPlayer ? players[parseInt(ctx.currentPlayer)] : null`. */
  function CurrentPlayer<P>(currentPlayer: Option<string>, players: seq<P>): (entry: Option<P>)
    ensures entry.Some? ==> currentPlayer.Some? && currentPlayer.value != ""
  {
    if currentPlayer.None? || currentPlayer.value == "" then None
    else
      var index := ParseInt(currentPlayer.value);
      if index.Some? && index.value < |players| then Some(players[index.value]) else None
  }

  /** For the player IDs boardgame.io hands out, the entry is the one at that seat. */
  lemma CurrentPlayerSeat<P>(n: nat, players: seq<P>)
    ensures CurrentPlayer(Some(PlayerIDOf(n)), players) == if n < |players| then Some(players[n]) else None
  {
    ParsePlayerID(n);
  }

  /**
   * `hasCounter` as written: there is a current player and the counters it
   * looks up are missing or zero. `counters` is None when no state `G` has
   * arrived yet.
   */
  function HasCounter(currentPlayer: Option<string>, counters: Option<map<PlayerID, int>>): bool {
    currentPlayer.Some? && currentPlayer.value != ""
    && (counters.None? || currentPlayer.value !in counters.value || counters.value[currentPlayer.value] == 0)
  }

  /** The Pass button is rendered with `disabled={!hasCounter}`. */
  function PassButtonEnabled(currentPlayer: Option<string>, counters: Option<map<PlayerID, int>>): bool {
    HasCounter(currentPlayer, counters)
  }

  /**
   * As written, the Pass button is enabled exactly when the pass move would
   * be refused, and disabled exactly when it would be accepted.
   */
  lemma PassButtonInverted(g: GameState, p: PlayerID)
    requires p != "" && p in g.counters
    ensures PassButtonEnabled(Some(p), Some(g.counters)) <==> !PassAllowed(g, p)
  {
  }

  /** A concrete seat: with 11 counters the player cannot press Pass. */
  lemma PassButtonCounterexample()
    ensures !PassButtonEnabled(Some("0"), Some(map["0" := 11]))
    ensures PassAllowed(GameState(23, Some(3), 0, [], map["0" := []], map["0" := 11]), "0")
  {
  }

  /** What `hasCounter` evidently means: the current player has a counter to pay. */
  function HasCounterIntended(currentPlayer: Option<string>, counters: Option<map<PlayerID, int>>): bool {
    currentPlayer.Some? && currentPlayer.value != ""
    && counters.Some? && currentPlayer.value in counters.value && counters.value[currentPlayer.value] != 0
  }

  /** With the intended predicate the button is enabled exactly when the move is accepted. */
  lemma PassButtonIntended(g: GameState, p: PlayerID)
    requires p != "" && p in g.counters
    ensures HasCounterIntended(Some(p), Some(g.counters)) <==> PassAllowed(g, p)
  {
  }

  /** Without a current player or a state, the intended predicate keeps the button disabled. */
  lemma PassButtonIntendedAbsent(currentPlayer: Option<string>, counters: Option<map<PlayerID, int>>)
    requires currentPlayer.None? || currentPlayer == Some("") || counters.None?
    ensures !HasCounterIntended(currentPlayer, counters)
  {
  }

  datatype Panel = GameOverPanel | ActionPanel | WaitingPanel

  /**
   * The status row: the game-over alert when `ctx.gameover` is truthy, the
   * action alert when the game is running and this client is active, the
   * waiting alert when it is running and another player is to move.
   */
  function Panels(gameover: bool, isActive: bool): (shown: set<Panel>)
    ensures |shown| == 1
    ensures GameOverPanel in shown <==> gameover
    ensures ActionPanel in shown <==> !gameover && isActive
    ensures WaitingPanel in shown <==> !gameover && !isActive
  {
    (if gameover then {GameOverPanel} else {})
    + (if !gameover && isActive then {ActionPanel} else {})
    + (if !gameover && !isActive then {WaitingPanel} else {})
  }
}
