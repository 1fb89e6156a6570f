/** The Fisher-Yates shuffle behind `rng.Shuffle`, with the random draws as an argument. */
module Shuffling {
  import opened Cards

  // The random source of one command: what each draw asks for.
  type Random = nat -> nat

  /** `Intn(n)` of the source: the index the k-th draw asks for, if in range. Every index can be drawn. */
  function Intn(rnd: Random, k: nat, n: nat): (i: nat)
    requires n > 0
    ensures i < n
  {
    if rnd(k) < n then rnd(k) else 0
  }

  function Swapped<T>(s: seq<T>, i: nat, j: nat): seq<T>
    requires i < |s| && j < |s|
  {
    s[i := s[j]][j := s[i]]
  }

  /** The swaps for positions n-1 down to 1; position i trades places with one of 0..i. */
  function ShuffleFrom<T>(s: seq<T>, n: nat, rnd: Random): (t: seq<T>)
    requires n <= |s|
    ensures |t| == |s|
    decreases n
  {
    if n <= 1 then s else ShuffleFrom(Swapped(s, n - 1, Intn(rnd, n - 1, n)), n - 1, rnd)
  }

  function Shuffled<T>(s: seq<T>, rnd: Random): (t: seq<T>)
    ensures |t| == |s|
  {
    ShuffleFrom(s, |s|, rnd)
  }

  lemma {:induction false} ShuffleFromPermutes<T>(s: seq<T>, n: nat, rnd: Random)
    requires n <= |s|
    ensures multiset(ShuffleFrom(s, n, rnd)) == multiset(s)
    decreases n
  {
    if n > 1 {
      var j := Intn(rnd, n - 1, n);
      MultisetSwap(s, n - 1, j);
      ShuffleFromPermutes(Swapped(s, n - 1, j), n - 1, rnd);
    }
  }

  /** Shuffling neither loses nor makes cards. */
  lemma ShuffledPermutes<T>(s: seq<T>, rnd: Random)
    ensures multiset(Shuffled(s, rnd)) == multiset(s)
  {
    ShuffleFromPermutes(s, |s|, rnd);
  }

  /** The loop of `rand.Shuffle`: swap downwards from the last position. */
  method Shuffle<T>(cards: seq<T>, rnd: Random) returns (shuffled: seq<T>)
    ensures shuffled == Shuffled(cards, rnd)
    ensures multiset(shuffled) == multiset(cards)
  {
    shuffled := cards;
    var n := |cards|;
    while n > 1
      invariant 0 <= n <= |shuffled| == |cards|
      invariant ShuffleFrom(shuffled, n, rnd) == Shuffled(cards, rnd)
    {
      var j := Intn(rnd, n - 1, n);
      shuffled := shuffled[n - 1 := shuffled[j]][j := shuffled[n - 1]];
      n := n - 1;
    }
    ShuffledPermutes(cards, rnd);
  }

  /** Every arrangement of the cards is the outcome of some draws, so nothing is lost by the fixed algorithm. */
  lemma EveryOrderIsAShuffle<T>(s: seq<T>, goal: seq<T>) returns (rnd: Random)
    requires multiset(goal) == multiset(s)
    ensures Shuffled(s, rnd) == goal
  {
    assert |s| == |multiset(s)| == |multiset(goal)| == |goal|;
    assert s[..|s|] == s && goal[..|s|] == goal;
    rnd := ReachFrom(s, goal, |s|);
  }

  ghost predicate Suffix<T>(s: seq<T>, goal: seq<T>, n: nat) {
    |goal| == |s| && forall k :: n <= k < |s| ==> s[k] == goal[k]
  }

  /** The swap that puts the wanted card at position n-1. */
  lemma LastCard<T>(s: seq<T>, goal: seq<T>, n: nat) returns (j: nat)
    requires 1 < n <= |s| && Suffix(s, goal, n)
    requires multiset(s[..n]) == multiset(goal[..n])
    ensures j < n
    ensures Suffix(Swapped(s, n - 1, j), goal, n - 1)
    ensures multiset(Swapped(s, n - 1, j)[..n - 1]) == multiset(goal[..n - 1])
  {
    j := Wanted(s[..n], goal[..n]);
    var t := Swapped(s, n - 1, j);
    MultisetSwap(s[..n], n - 1, j);
    assert Swapped(s[..n], n - 1, j) == t[..n];
    FrontsMatch(t[..n], goal[..n]);
    assert t[..n][..n - 1] == t[..n - 1] && goal[..n][..n - 1] == goal[..n - 1];
  }

  /** A position that holds what the other sequence ends with. */
  lemma Wanted<T>(front: seq<T>, goal: seq<T>) returns (j: nat)
    requires front != [] && multiset(front) == multiset(goal)
    ensures |goal| == |front| && j < |front| && front[j] == goal[|goal| - 1]
  {
    assert |front| == |multiset(front)| == |multiset(goal)| == |goal|;
    assert goal[|goal| - 1] in multiset(goal);
    j :| j < |front| && front[j] == goal[|goal| - 1];
  }

  lemma FrontsMatch<T>(s: seq<T>, goal: seq<T>)
    requires s != [] && |goal| == |s| && multiset(s) == multiset(goal) && s[|s| - 1] == goal[|s| - 1]
    ensures multiset(s[..|s| - 1]) == multiset(goal[..|s| - 1])
  {
    var n, x := |s| - 1, s[|s| - 1];
    assert s == s[..n] + [x] && goal == goal[..n] + [x];
    CancelMultiset(multiset(s[..n]), multiset(goal[..n]), multiset{x});
  }

  lemma SingleLeft<T>(s: seq<T>, goal: seq<T>, n: nat)
    requires n <= |s| && n <= 1 && Suffix(s, goal, n)
    requires multiset(s[..n]) == multiset(goal[..n])
    ensures s == goal
  {
    if n == 1 {
      assert s[..1] == [s[0]] && goal[..1] == [goal[0]];
      assert multiset{s[0]}[goal[0]] == 1;
    }
  }

  lemma {:induction false} ReachFrom<T>(s: seq<T>, goal: seq<T>, n: nat) returns (rnd: Random)
    requires n <= |s| && Suffix(s, goal, n)
    requires multiset(s[..n]) == multiset(goal[..n])
    ensures ShuffleFrom(s, n, rnd) == goal
    decreases n
  {
    if n <= 1 {
      rnd := i => 0;
      SingleLeft(s, goal, n);
    } else {
      var j := LastCard(s, goal, n);
      var rest := ReachFrom(Swapped(s, n - 1, j), goal, n - 1);
      rnd := FirstSwap(s, n, j, rest);
    }
  }

  lemma FirstSwap<T>(s: seq<T>, n: nat, j: nat, rest: Random) returns (rnd: Random)
    requires j < n && 1 < n <= |s|
    ensures ShuffleFrom(s, n, rnd) == ShuffleFrom(Swapped(s, n - 1, j), n - 1, rest)
  {
    rnd := i => if i == n - 1 then j else rest(i);
    assert Intn(rnd, n - 1, n) == j;
    ShuffleDependsOnLow(Swapped(s, n - 1, j), n - 1, rnd, rest);
  }

  lemma {:induction false} ShuffleDependsOnLow<T>(s: seq<T>, n: nat, a: Random, b: Random)
    requires n <= |s| && forall i: nat :: i < n ==> a(i) == b(i)
    ensures ShuffleFrom(s, n, a) == ShuffleFrom(s, n, b)
    decreases n
  {
    if n > 1 {
      ShuffleDependsOnLow(Swapped(s, n - 1, Intn(a, n - 1, n)), n - 1, a, b);
    }
  }
}
