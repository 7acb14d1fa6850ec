/**
 * Sorting of card values, used both by the scoring of the No Thanks game
 * (`toSorted((a, b) => a.value - b.value)`) and by the tableau display
 * (`toSorted((a, b) => b.value - a.value)`). A card is modelled by its value.
 */
module Cards {
  import opened Wrappers

  predicate Ascending(s: seq<int>) {
    forall i, j :: 0 <= i < j < |s| ==> s[i] <= s[j]
  }

  predicate Descending(s: seq<int>) {
    forall i, j :: 0 <= i < j < |s| ==> s[i] >= s[j]
  }

  function InsertAscending(x: int, s: seq<int>): (r: seq<int>)
    ensures |r| == |s| + 1
  {
    if s == [] || x <= s[0] then [x] + s else [s[0]] + InsertAscending(x, s[1..])
  }

  lemma {:induction false} InsertAscendingMultiset(x: int, s: seq<int>)
    ensures multiset(InsertAscending(x, s)) == multiset(s) + multiset{x}
    decreases |s|
  {
    if s != [] && x > s[0] {
      InsertAscendingMultiset(x, s[1..]);
      assert s == [s[0]] + s[1..];
    }
  }

  /** Inserting keeps every element on the same side of a bound `b`. */
  lemma {:induction false} InsertAscendingBound(x: int, s: seq<int>, b: int)
    requires x >= b
    requires forall k :: 0 <= k < |s| ==> s[k] >= b
    ensures forall k :: 0 <= k < |InsertAscending(x, s)| ==> InsertAscending(x, s)[k] >= b
    decreases |s|
  {
    if s != [] && x > s[0] {
      InsertAscendingBound(x, s[1..], b);
    }
  }

  lemma ConsAscending(h: int, t: seq<int>)
    requires Ascending(t)
    requires forall k :: 0 <= k < |t| ==> t[k] >= h
    ensures Ascending([h] + t)
  {
    var r := [h] + t;
    forall i, j | 0 <= i < j < |r| ensures r[i] <= r[j] {
      assert r[j] == t[j - 1];
      if i > 0 { assert r[i] == t[i - 1]; }
    }
  }

  lemma {:induction false} InsertAscendingSorts(x: int, s: seq<int>)
    requires Ascending(s)
    ensures Ascending(InsertAscending(x, s))
    ensures multiset(InsertAscending(x, s)) == multiset(s) + multiset{x}
    decreases |s|
  {
    InsertAscendingMultiset(x, s);
    if s == [] || !(x > s[0]) {
      ConsAscending(x, s);
    } else {
      InsertAscendingSorts(x, s[1..]);
      InsertAscendingBound(x, s[1..], s[0]);
      ConsAscending(s[0], InsertAscending(x, s[1..]));
    }
  }

  /** The ascending arrangement of `s`, as `toSorted` with comparator `a - b` returns it. */
  function SortAscending(s: seq<int>): (r: seq<int>)
    ensures Ascending(r)
    ensures multiset(r) == multiset(s)
    ensures |r| == |s|
  {
    if s == [] then []
    else
      var tail := SortAscending(s[1..]);
      InsertAscendingSorts(s[0], tail);
      assert s == [s[0]] + s[1..];
      InsertAscending(s[0], tail)
  }

  function InsertDescending(x: int, s: seq<int>): (r: seq<int>)
    ensures |r| == |s| + 1
  {
    if s == [] || x >= s[0] then [x] + s else [s[0]] + InsertDescending(x, s[1..])
  }

  lemma {:induction false} InsertDescendingMultiset(x: int, s: seq<int>)
    ensures multiset(InsertDescending(x, s)) == multiset(s) + multiset{x}
    decreases |s|
  {
    if s != [] && x < s[0] {
      InsertDescendingMultiset(x, s[1..]);
      assert s == [s[0]] + s[1..];
    }
  }

  /** Inserting keeps every element on the same side of a bound `b`. */
  lemma {:induction false} InsertDescendingBound(x: int, s: seq<int>, b: int)
    requires x <= b
    requires forall k :: 0 <= k < |s| ==> s[k] <= b
    ensures forall k :: 0 <= k < |InsertDescending(x, s)| ==> InsertDescending(x, s)[k] <= b
    decreases |s|
  {
    if s != [] && x < s[0] {
      InsertDescendingBound(x, s[1..], b);
    }
  }

  lemma ConsDescending(h: int, t: seq<int>)
    requires Descending(t)
    requires forall k :: 0 <= k < |t| ==> t[k] <= h
    ensures Descending([h] + t)
  {
    var r := [h] + t;
    forall i, j | 0 <= i < j < |r| ensures r[i] >= r[j] {
      assert r[j] == t[j - 1];
      if i > 0 { assert r[i] == t[i - 1]; }
    }
  }

  lemma {:induction false} InsertDescendingSorts(x: int, s: seq<int>)
    requires Descending(s)
    ensures Descending(InsertDescending(x, s))
    ensures multiset(InsertDescending(x, s)) == multiset(s) + multiset{x}
    decreases |s|
  {
    InsertDescendingMultiset(x, s);
    if s == [] || !(x < s[0]) {
      ConsDescending(x, s);
    } else {
      InsertDescendingSorts(x, s[1..]);
      InsertDescendingBound(x, s[1..], s[0]);
      ConsDescending(s[0], InsertDescending(x, s[1..]));
    }
  }

  /** The descending arrangement of `s`, as `toSorted` with comparator `b - a` returns it. */
  function SortDescending(s: seq<int>): (r: seq<int>)
    ensures Descending(r)
    ensures multiset(r) == multiset(s)
    ensures |r| == |s|
  {
    if s == [] then []
    else
      var tail := SortDescending(s[1..]);
      InsertDescendingSorts(s[0], tail);
      assert s == [s[0]] + s[1..];
      InsertDescending(s[0], tail)
  }

  /** `s` read back to front. */
  function Reverse(s: seq<int>): (r: seq<int>)
    ensures |r| == |s|
  {
    if s == [] then [] else [s[|s| - 1]] + Reverse(s[..|s| - 1])
  }

  lemma {:induction false} ReverseAt(s: seq<int>, k: nat)
    requires k < |s|
    ensures Reverse(s)[k] == s[|s| - 1 - k]
    decreases |s|
  {
    if k > 0 {
      ReverseAt(s[..|s| - 1], k - 1);
    }
  }

  lemma {:induction false} ReverseMultiset(s: seq<int>)
    ensures multiset(Reverse(s)) == multiset(s)
    decreases |s|
  {
    if s != [] {
      ReverseMultiset(s[..|s| - 1]);
      assert s == s[..|s| - 1] + [s[|s| - 1]];
    }
  }

  /** Reading a descending sequence back to front gives an ascending one. */
  lemma ReverseOfDescending(s: seq<int>)
    requires Descending(s)
    ensures Ascending(Reverse(s))
  {
    forall i, j | 0 <= i < j < |s|
      ensures Reverse(s)[i] <= Reverse(s)[j]
    {
      ReverseAt(s, i);
      ReverseAt(s, j);
    }
  }

  /** The head of an ascending sequence is its least element. */
  lemma AscendingHeadLeast(a: seq<int>, v: int)
    requires Ascending(a) && v in multiset(a)
    ensures a[0] <= v
  {
    var i :| 0 <= i < |a| && a[i] == v;
    assert a[0] <= a[i];
  }

  /** Two ascending arrangements of one multiset start with the same card. */
  lemma AscendingHeads(a: seq<int>, b: seq<int>)
    requires Ascending(a) && Ascending(b)
    requires multiset(a) == multiset(b) && a != []
    ensures b != [] && a[0] == b[0]
  {
    assert a[0] in multiset(a);
    assert b != [];
    assert b[0] in multiset(b);
    AscendingHeadLeast(b, a[0]);
    AscendingHeadLeast(a, b[0]);
  }

  lemma AscendingTail(a: seq<int>)
    requires Ascending(a) && a != []
    ensures Ascending(a[1..])
  {
  }

  lemma SameTailMultiset(a: seq<int>, b: seq<int>)
    requires a != [] && b != [] && a[0] == b[0]
    requires multiset(a) == multiset(b)
    ensures multiset(a[1..]) == multiset(b[1..])
  {
    assert a == [a[0]] + a[1..];
    assert b == [b[0]] + b[1..];
    assert multiset(a) == multiset{a[0]} + multiset(a[1..]);
    assert multiset(b) == multiset{b[0]} + multiset(b[1..]);
    assert multiset(a[1..]) == multiset(a) - multiset{a[0]};
  }

  /** An ascending arrangement of a multiset is unique. */
  lemma {:induction false} AscendingUnique(a: seq<int>, b: seq<int>)
    requires Ascending(a) && Ascending(b)
    requires multiset(a) == multiset(b)
    ensures a == b
    decreases |a|
  {
    if a == [] {
      assert |multiset(b)| == |b|;
    } else {
      AscendingHeads(a, b);
      AscendingTail(a);
      AscendingTail(b);
      SameTailMultiset(a, b);
      AscendingUnique(a[1..], b[1..]);
      assert a == [a[0]] + a[1..] && b == [b[0]] + b[1..];
    }
  }

  /** Both `toSorted` calls agree: the descending sort is the ascending one reversed. */
  lemma SortsAgree(s: seq<int>)
    ensures Reverse(SortDescending(s)) == SortAscending(s)
  {
    var d := SortDescending(s);
    ReverseOfDescending(d);
    ReverseMultiset(d);
    AscendingUnique(Reverse(d), SortAscending(s));
  }

  /** In a duplicate-free sequence every value occurs at most once. */
  lemma {:induction false} DistinctAtMostOnce(s: seq<int>)
    requires Distinct(s)
    ensures forall v :: multiset(s)[v] <= 1
    decreases |s|
  {
    if s != [] {
      var t := s[1..];
      assert s == [s[0]] + t;
      assert Distinct(t) by {
        forall i, j | 0 <= i < j < |t| ensures t[i] != t[j] {
          assert t[i] == s[i + 1] && t[j] == s[j + 1];
        }
      }
      DistinctAtMostOnce(t);
      assert multiset(t)[s[0]] == 0 by {
        forall k | 0 <= k < |t| ensures t[k] != s[0] {
          assert t[k] == s[k + 1];
        }
      }
      assert multiset(s) == multiset{s[0]} + multiset(t);
    }
  }

  /** A value found at two positions occurs at least twice. */
  lemma RepeatedTwice(s: seq<int>, i: nat, j: nat)
    requires i < j < |s| && s[i] == s[j]
    ensures multiset(s)[s[j]] >= 2
  {
    assert s == s[..j] + s[j..];
    assert s[i] in s[..j] by { assert s[..j][i] == s[i]; }
    assert s[j] in s[j..] by { assert s[j..][0] == s[j]; }
    assert multiset(s)[s[j]] == multiset(s[..j])[s[j]] + multiset(s[j..])[s[j]];
  }

  /** A sequence is duplicate-free exactly when its multiset holds every value at most once. */
  lemma DistinctMultiplicity(s: seq<int>)
    ensures Distinct(s) <==> (forall v :: multiset(s)[v] <= 1)
  {
    if Distinct(s) {
      DistinctAtMostOnce(s);
    } else {
      var i, j :| 0 <= i < j < |s| && s[i] == s[j];
      RepeatedTwice(s, i, j);
    }
  }

  /** A duplicate-free ascending sequence is strictly ascending. */
  lemma DistinctAscendingStrict(s: seq<int>)
    requires Ascending(s) && Distinct(s)
    ensures forall i, j :: 0 <= i < j < |s| ==> s[i] < s[j]
  {
  }

  /** Sorting keeps a hand duplicate-free. */
  lemma SortAscendingDistinct(s: seq<int>)
    requires Distinct(s)
    ensures Distinct(SortAscending(s))
  {
    DistinctMultiplicity(s);
    DistinctMultiplicity(SortAscending(s));
  }
}
