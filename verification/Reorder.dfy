/** Reordering the top of the draw pile: exactly the permutations are accepted, and any order can be had. */
module Reorder {
  import opened Cards
  import opened Table
  import opened Rules
  import opened Invariant
  import opened Prompts
  import opened Runs

  /** A prompt whose cards still lie on top of the pile, in their old order. */
  ghost predicate Fresh(s: State) {
    && s.phase == WaitingDeckReorder && s.pending.Some? && s.pending.value.kind == DeckReorder
    && |s.pending.value.cards| <= |s.draw| && s.draw[..|s.pending.value.cards|] == s.pending.value.cards
    && DistinctIds(s.pending.value.cards)
  }

  lemma PromptIsFresh(s: State)
    requires Reachable(s) && s.phase == WaitingDeckReorder
    ensures Fresh(s) && s.pending.value.source == s.current && s.pending.value.cards != []
  {
    ReachableInv(s);
    WaitingIsFresh(s);
  }

  lemma WaitingIsFresh(s: State)
    requires PendingOk(s) && s.phase == WaitingDeckReorder && Fair(AllCards(s))
    ensures Fresh(s) && s.pending.value.source == s.current && s.pending.value.cards != []
  {
    DrawDistinct(s);
    PrefixDistinct(s.draw, s.pending.value.cards);
  }

  lemma PrefixDistinct(draw: seq<Card>, cards: seq<Card>)
    requires DistinctIds(draw) && cards <= draw
    ensures DistinctIds(cards) && draw[..|cards|] == cards
  {
  }

  lemma FreshGuard(s: State, p: PlayerId, ids: seq<CardId>)
    requires Fresh(s)
    ensures ReorderGuard(s, p, ids) == NoError <==>
      p == s.pending.value.source && multiset(ids) == multiset(IdsOf(s.pending.value.cards))
  {
  }

  /**
   In every reachable reorder state the check against a stale prompt passes, and the prompted
   player's submission is accepted exactly when its ids are a permutation of the prompted ones.
   */
  lemma AcceptsExactlyPermutations(s: State, p: PlayerId, ids: seq<CardId>)
    requires Reachable(s) && s.phase == WaitingDeckReorder
    ensures s.pending.Some? && |s.pending.value.cards| <= |s.draw|
    ensures IdsOf(s.draw[..|s.pending.value.cards|]) == IdsOf(s.pending.value.cards)
    ensures ReorderGuard(s, p, ids) == NoError
        <==> p == s.current && multiset(ids) == multiset(IdsOf(s.pending.value.cards))
  {
    PromptIsFresh(s);
    FreshGuard(s, p, ids);
  }

  /** `t` differs from `s` by a new order of the first `n` cards of the pile and the closed prompt. */
  ghost predicate Rearranged(s: State, t: State, n: nat, ids: seq<CardId>) {
    && n <= |s.draw| == |t.draw|
    && IdsOf(t.draw[..n]) == ids && multiset(t.draw[..n]) == multiset(s.draw[..n]) && t.draw[n..] == s.draw[n..]
    && t == s.(draw := t.draw, pending := None, phase := PlayerTurn, eventSeq := s.eventSeq + 1)
  }

  lemma FreshPile(s: State, p: PlayerId, ids: seq<CardId>)
    requires Fresh(s) && ReorderGuard(s, p, ids) == NoError
    ensures ReorderEffect(s, p, ids).draw == Picked(s.pending.value.cards, ids) + s.draw[|s.pending.value.cards|..]
    ensures Rearranged(s, ReorderEffect(s, p, ids), |s.pending.value.cards|, ids)
  {
    var cards := s.pending.value.cards;
    FreshGuard(s, p, ids);
    PickedPermutes(cards, ids);
    var t := ReorderEffect(s, p, ids);
    assert t.draw[..|cards|] == Picked(cards, ids);
    assert t.draw[|cards|..] == s.draw[|cards|..];
  }

  /** The pile's prefix becomes the submitted order of the same cards; the rest of the pile stays. */
  lemma ReorderedPile(s: State, p: PlayerId, ids: seq<CardId>)
    requires Reachable(s) && s.phase == WaitingDeckReorder && ReorderGuard(s, p, ids) == NoError
    ensures s.pending.Some? && Rearranged(s, ReorderEffect(s, p, ids), |s.pending.value.cards|, ids)
  {
    PromptIsFresh(s);
    FreshPile(s, p, ids);
  }

  /** Every order of the offered cards can be had, by submitting its ids. */
  lemma AnyOrderPossible(s: State, goal: seq<Card>)
    requires Reachable(s) && s.phase == WaitingDeckReorder
    requires s.pending.Some? && multiset(goal) == multiset(s.pending.value.cards)
    ensures ReorderGuard(s, s.current, IdsOf(goal)) == NoError
    ensures |goal| <= |s.draw| && ReorderEffect(s, s.current, IdsOf(goal)).draw == goal + s.draw[|goal|..]
  {
    PromptIsFresh(s);
    FreshGoal(s, s.current, goal);
  }

  lemma FreshGoal(s: State, p: PlayerId, goal: seq<Card>)
    requires Fresh(s) && p == s.pending.value.source && multiset(goal) == multiset(s.pending.value.cards)
    ensures ReorderGuard(s, p, IdsOf(goal)) == NoError
    ensures |goal| <= |s.draw| && ReorderEffect(s, p, IdsOf(goal)).draw == goal + s.draw[|goal|..]
  {
    var cards := s.pending.value.cards;
    IdsFollow(goal, cards);
    assert |goal| == |multiset(goal)| == |multiset(cards)| == |cards|;
    FreshGuard(s, p, IdsOf(goal));
    FreshPile(s, p, IdsOf(goal));
    PickedPermutes(cards, IdsOf(goal));
    SameIdsSameCards(cards, Picked(cards, IdsOf(goal)), goal);
  }

  /** Equal multisets of cards have equal multisets of ids. */
  lemma {:induction false} IdsFollow(a: seq<Card>, b: seq<Card>)
    requires multiset(a) == multiset(b)
    ensures multiset(IdsOf(a)) == multiset(IdsOf(b))
    decreases |a|
  {
    if a == [] {
      assert |multiset(b)| == 0;
      assert IdsOf(a) == IdsOf(b);
    } else {
      assert a[0] in multiset(a);
      var k :| 0 <= k < |b| && b[k] == a[0];
      MultisetRemoveAt(b, k);
      MultisetRemoveAt(a, 0);
      CancelMultiset(multiset(RemoveAt(a, 0)), multiset(RemoveAt(b, k)), multiset{a[0]});
      IdsFollow(RemoveAt(a, 0), RemoveAt(b, k));
      IdsRemove(a, 0);
      IdsRemove(b, k);
    }
  }

  lemma IdsRemove(cards: seq<Card>, k: nat)
    requires k < |cards|
    ensures multiset(IdsOf(cards)) == multiset(IdsOf(RemoveAt(cards, k))) + multiset{cards[k].id}
  {
    assert IdsOf(RemoveAt(cards, k)) == RemoveAt(IdsOf(cards), k);
    MultisetRemoveAt(IdsOf(cards), k);
  }

  lemma SameIdsSameCards(cards: seq<Card>, a: seq<Card>, b: seq<Card>)
    requires DistinctIds(cards) && multiset(a) == multiset(cards) && multiset(b) == multiset(cards)
    requires IdsOf(a) == IdsOf(b)
    ensures a == b
  {
    assert |a| == |IdsOf(a)| == |b|;
    forall k | 0 <= k < |a| ensures a[k] == b[k] {
      assert IdsOf(a)[k] == IdsOf(b)[k];
      assert a[k] in multiset(a) && b[k] in multiset(b);
      var i :| 0 <= i < |cards| && cards[i] == a[k];
      var j :| 0 <= j < |cards| && cards[j] == b[k];
    }
  }
}
