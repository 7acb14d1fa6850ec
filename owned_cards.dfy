/**
 * The run grouping of a player's tableau, the `reduce` inside `OwnedCards`
 * of both board islands (islands/NoThanksClient.tsx and
 * islands/no-thanks-client.tsx, which agree line for line).
 *
 * The cards are sorted highest first; the accumulator starts as `[[]]`; a
 * card one below the last card of the front group is pushed onto that group,
 * any other card is unshifted as a new group of its own.
 */
module OwnedCards {
  import opened Cards

  /** One step of the `reduce` callback. */
  function Step(acc: seq<seq<int>>, card: int): seq<seq<int>> {
    if |acc| > 0 && |acc[0]| > 0 && acc[0][|acc[0]| - 1] == card + 1 then [acc[0] + [card]] + acc[1..]
    else [[card]] + acc
  }

  /** The accumulator after the callback has seen all of `d`, in order. */
  function Grouped(d: seq<int>): (groups: seq<seq<int>>)
    ensures |groups| >= 1
    decreases |d|
  {
    if d == [] then [[]] else Step(Grouped(d[..|d| - 1]), d[|d| - 1])
  }

  /** The cards of the groups read from the back group to the front group. */
  function FlattenBack(groups: seq<seq<int>>): seq<int> {
    if groups == [] then [] else FlattenBack(groups[1..]) + groups[0]
  }

  /** Every group is a run: each card is one below the card before it. */
  predicate Runs(groups: seq<seq<int>>) {
    forall g, k :: 0 <= g < |groups| && 0 <= k < |groups[g]| - 1 ==> groups[g][k + 1] == groups[g][k] - 1
  }

  /**
   * Runs are maximal: where one group ends (its lowest card) the next group
   * towards the front does not start one below it.
   */
  predicate Maximal(groups: seq<seq<int>>) {
    forall g :: 0 <= g < |groups| - 2 ==> BreakAfter(groups, g)
  }

  /** Group `g` and the group behind it are both non-empty and not one run. */
  predicate BreakAfter(groups: seq<seq<int>>, g: nat)
    requires g + 1 < |groups|
  {
    groups[g] != [] && groups[g + 1] != [] && groups[g + 1][|groups[g + 1]| - 1] != groups[g][0] + 1
  }

  /** The seed group `[]` stays at the back; every other group holds a card. */
  predicate Shaped(groups: seq<seq<int>>) {
    |groups| >= 1 && groups[|groups| - 1] == []
    && forall g :: 0 <= g < |groups| - 1 ==> groups[g] != []
  }

  lemma FlattenBackCons(head: seq<int>, rest: seq<seq<int>>)
    ensures FlattenBack([head] + rest) == FlattenBack(rest) + head
  {
    assert ([head] + rest)[1..] == rest;
  }

  /** Reading the groups back to front gives the input again. */
  lemma {:induction false} GroupedFlatten(d: seq<int>)
    ensures FlattenBack(Grouped(d)) == d
    decreases |d|
  {
    if d != [] {
      var prefix, card := d[..|d| - 1], d[|d| - 1];
      var acc := Grouped(prefix);
      GroupedFlatten(prefix);
      if |acc[0]| > 0 && acc[0][|acc[0]| - 1] == card + 1 {
        FlattenBackCons(acc[0] + [card], acc[1..]);
        FlattenBackCons(acc[0], acc[1..]);
        assert acc == [acc[0]] + acc[1..];
      } else {
        FlattenBackCons([card], acc);
      }
      assert d == prefix + [card];
    }
  }

  /** The grouping has the seed group at the back, and the front group ends with the last card seen. */
  lemma {:induction false} GroupedShape(d: seq<int>)
    ensures Shaped(Grouped(d))
    ensures d != [] ==> Grouped(d)[0] != [] && Grouped(d)[0][|Grouped(d)[0]| - 1] == d[|d| - 1]
    decreases |d|
  {
    if d != [] {
      var acc := Grouped(d[..|d| - 1]);
      var card := d[|d| - 1];
      GroupedShape(d[..|d| - 1]);
      var r := Step(acc, card);
      if |acc[0]| > 0 && acc[0][|acc[0]| - 1] == card + 1 {
        assert |acc| >= 2;
        assert r[|r| - 1] == acc[|acc| - 1];
        forall g | 0 <= g < |r| - 1 ensures r[g] != [] {
          if g > 0 { assert r[g] == acc[g]; }
        }
      } else {
        assert r[|r| - 1] == acc[|acc| - 1];
        forall g | 0 <= g < |r| - 1 ensures r[g] != [] {
          if g > 0 { assert r[g] == acc[g - 1]; }
        }
      }
    }
  }


  /** Every group is a run of cards each one below the previous. */
  lemma {:induction false} GroupedRuns(d: seq<int>)
    ensures Runs(Grouped(d))
    decreases |d|
  {
    if d != [] {
      var acc := Grouped(d[..|d| - 1]);
      var card := d[|d| - 1];
      GroupedRuns(d[..|d| - 1]);
      var r := Step(acc, card);
      if |acc[0]| > 0 && acc[0][|acc[0]| - 1] == card + 1 {
        forall g, k | 0 <= g < |r| && 0 <= k < |r[g]| - 1 ensures r[g][k + 1] == r[g][k] - 1 {
          if g == 0 {
            if k + 1 < |acc[0]| {
              assert r[0][k] == acc[0][k] && r[0][k + 1] == acc[0][k + 1];
            }
          } else {
            assert r[g] == acc[g];
          }
        }
      } else {
        forall g, k | 0 <= g < |r| && 0 <= k < |r[g]| - 1 ensures r[g][k + 1] == r[g][k] - 1 {
          assert r[g] == acc[g - 1];
        }
      }
    }
  }

  /** A new group starts exactly where a card is not one below its predecessor. */
  lemma {:induction false} GroupedMaximal(d: seq<int>)
    ensures Maximal(Grouped(d))
    decreases |d|
  {
    if d != [] {
      var prefix, card := d[..|d| - 1], d[|d| - 1];
      var acc := Grouped(prefix);
      GroupedMaximal(prefix);
      GroupedShape(prefix);
      var r := Step(acc, card);
      if |acc[0]| > 0 && acc[0][|acc[0]| - 1] == card + 1 {
        forall g | 0 <= g < |r| - 2 ensures BreakAfter(r, g) {
          assert r[g + 1] == acc[g + 1];
          assert BreakAfter(acc, g);
          if g == 0 {
            assert r[0][0] == acc[0][0];
          } else {
            assert r[g] == acc[g];
          }
        }
      } else {
        forall g | 0 <= g < |r| - 2 ensures BreakAfter(r, g) {
          assert r[g + 1] == acc[g];
          if g > 0 {
            assert r[g] == acc[g - 1];
            assert BreakAfter(acc, g - 1);
          } else {
            assert acc[0] != [];
          }
        }
      }
    }
  }

  /**
   * `OwnedCards`: sort highest first, then fold the cards into runs with a
   * mutable accumulator. The input is not changed (`toSorted`).
   */
  method GroupRuns(cards: seq<int>) returns (groups: seq<seq<int>>)
    ensures groups == Grouped(SortDescending(cards))
    ensures FlattenBack(groups) == SortDescending(cards)
    ensures multiset(FlattenBack(groups)) == multiset(cards)
    ensures Runs(groups) && Maximal(groups) && Shaped(groups)
    ensures cards == [] ==> groups == [[]]
  {
    var sorted := SortDescending(cards);
    groups := [[]];
    var i := 0;
    while i < |sorted|
      invariant 0 <= i <= |sorted|
      invariant groups == Grouped(sorted[..i])
    {
      var card := sorted[i];
      assert sorted[..i + 1][..i] == sorted[..i];
      if |groups[0]| > 0 && groups[0][|groups[0]| - 1] == card + 1 {
        groups := [groups[0] + [card]] + groups[1..];
      } else {
        groups := [[card]] + groups;
      }
      i := i + 1;
    }
    assert sorted[..|sorted|] == sorted;
    GroupedFlatten(sorted);
    GroupedRuns(sorted);
    GroupedMaximal(sorted);
    GroupedShape(sorted);
  }

  /** Sorted highest first, the front group holds the lowest cards. */
  lemma FrontGroupLowest(cards: seq<int>)
    requires cards != []
    ensures Grouped(SortDescending(cards))[0] != []
    ensures forall k :: 0 <= k < |cards| ==>
      Grouped(SortDescending(cards))[0][|Grouped(SortDescending(cards))[0]| - 1] <= cards[k]
  {
    var sorted := SortDescending(cards);
    GroupedShape(sorted);
    forall k | 0 <= k < |cards|
      ensures sorted[|sorted| - 1] <= cards[k]
    {
      assert cards[k] in multiset(sorted);
      var j :| 0 <= j < |sorted| && sorted[j] == cards[k];
    }
  }
}
