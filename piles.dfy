/** Operations on piles of cards shared by the blackjack and Uno models.
    A pile is a sequence whose LAST element is its top: `pop` takes from
    the end. The Fisher–Yates shuffle takes the random index drawn at step
    `i` (`Math.floor(Math.random() * (i + 1))`) as `picks[i]`, so a shuffle
    is a function of the pile and the picks; only the permutation property
    is proved, not uniformity. */
module Piles {

  /** `picks` supplies one index per step, `picks[i] <= i`, as the random
      draw `Math.floor(Math.random() * (i + 1))` guarantees. */
  predicate ValidPicks(picks: seq<nat>, n: nat)
  {
    |picks| == n && forall i :: 0 <= i < n ==> picks[i] <= i
  }

  /** The sequence `s` with the elements at `i` and `j` exchanged. */
  function Swap<T>(s: seq<T>, i: nat, j: nat): (r: seq<T>)
    requires i < |s| && j < |s|
    ensures |r| == |s| && r[i] == s[j] && r[j] == s[i]
    ensures forall k :: 0 <= k < |s| && k != i && k != j ==> r[k] == s[k]
  {
    s[i := s[j]][j := s[i]]
  }

  /** The loop steps `k`, `k - 1`, ..., `1` of the shuffle, in that order. */
  function Steps<T>(s: seq<T>, picks: seq<nat>, k: nat): seq<T>
    requires k < |s| && ValidPicks(picks, |s|)
    decreases k
  {
    if k == 0 then s else Steps(Swap(s, k, picks[k]), picks, k - 1)
  }

  /** The whole shuffle: steps `|s| - 1` down to `1`. */
  function Shuffled<T>(s: seq<T>, picks: seq<nat>): seq<T>
    requires ValidPicks(picks, |s|)
  {
    if |s| == 0 then s else Steps(s, picks, |s| - 1)
  }

  lemma {:induction false} StepsPermutes<T>(s: seq<T>, picks: seq<nat>, k: nat)
    requires k < |s| && ValidPicks(picks, |s|)
    ensures |Steps(s, picks, k)| == |s|
    ensures multiset(Steps(s, picks, k)) == multiset(s)
    decreases k
  {
    if k > 0 {
      var t := Swap(s, k, picks[k]);
      assert multiset(t) == multiset(s);
      StepsPermutes(t, picks, k - 1);
    }
  }

  /** A shuffle only permutes: no card is added, lost or duplicated. */
  lemma ShuffledPermutes<T>(s: seq<T>, picks: seq<nat>)
    requires ValidPicks(picks, |s|)
    ensures |Shuffled(s, picks)| == |s|
    ensures multiset(Shuffled(s, picks)) == multiset(s)
  {
    if |s| > 0 {
      StepsPermutes(s, picks, |s| - 1);
    }
  }

  /** The in-place loop `for (i = a.length - 1; i > 0; i--) swap a[i], a[j]`. */
  method FisherYates<T>(a: array<T>, picks: seq<nat>)
    requires ValidPicks(picks, a.Length)
    modifies a
    ensures a[..] == Shuffled(old(a[..]), picks)
    ensures multiset(a[..]) == multiset(old(a[..]))
  {
    var i := a.Length - 1;
    while i > 0
      invariant i < a.Length
      invariant a.Length > 0 ==> 0 <= i && Steps(a[..], picks, i) == Shuffled(old(a[..]), picks)
    {
      var j := picks[i];
      a[i], a[j] := a[j], a[i];
      i := i - 1;
    }
    ShuffledPermutes(old(a[..]), picks);
  }

  /** The cards of `s` in the order repeated pops deliver them: top first. */
  function Reversed<T>(s: seq<T>): seq<T>
  {
    if s == [] then [] else Reversed(s[1..]) + [s[0]]
  }

  lemma {:induction false} ReversedFacts<T>(s: seq<T>)
    ensures |Reversed(s)| == |s|
    ensures multiset(Reversed(s)) == multiset(s)
    ensures forall k :: 0 <= k < |s| ==> Reversed(s)[k] == s[|s| - 1 - k]
  {
    if s != [] {
      ReversedFacts(s[1..]);
      assert s == [s[0]] + s[1..];
    }
  }

  /** Drawing one more card puts it first in the reversed order. */
  lemma {:induction false} ReversedSnoc<T>(s: seq<T>, x: T)
    ensures Reversed(s + [x]) == [x] + Reversed(s)
  {
    if s != [] {
      assert (s + [x])[1..] == s[1..] + [x];
      ReversedSnoc(s[1..], x);
    }
  }

  /** The number of times `x` occurs in `s`, counted from the end. */
  function Count<T(==)>(s: seq<T>, x: T): nat
  {
    if s == [] then 0 else Count(s[..|s| - 1], x) + (if s[|s| - 1] == x then 1 else 0)
  }

  lemma {:induction false} CountAppend<T>(a: seq<T>, b: seq<T>, x: T)
    ensures Count(a + b, x) == Count(a, x) + Count(b, x)
    decreases |b|
  {
    if b != [] {
      assert (a + b)[..|a + b| - 1] == a + b[..|b| - 1];
      assert (a + b)[|a + b| - 1] == b[|b| - 1];
      CountAppend(a, b[..|b| - 1], x);
      assert Count(a + b, x) == Count(a + b[..|b| - 1], x) + (if b[|b| - 1] == x then 1 else 0);
    } else {
      assert a + b == a;
    }
  }

  /** `Count` is the multiplicity in the multiset of the pile. */
  lemma {:induction false} CountIsMultiplicity<T>(s: seq<T>, x: T)
    ensures Count(s, x) == multiset(s)[x]
  {
    if s != [] {
      CountIsMultiplicity(s[..|s| - 1], x);
      assert s == s[..|s| - 1] + [s[|s| - 1]];
    }
  }
}
