/** Every deal the deck allows really happens, for some outcome of the two shuffles. */
module Arranged {
  import opened Cards
  import opened Shuffling
  import opened Table
  import opened Deck
  import opened Deal
  import opened Runs

  function CodesOf(cards: seq<Card>): (codes: seq<Code>)
    ensures |codes| == |cards|
    ensures forall k :: 0 <= k < |cards| ==> codes[k] == cards[k].code
  {
    seq(|cards|, k requires 0 <= k < |cards| => cards[k].code)
  }

  lemma CodesAppend(a: seq<Card>, b: seq<Card>)
    ensures CodesOf(a + b) == CodesOf(a) + CodesOf(b)
  {
  }

  lemma CodesRemoveAt(cards: seq<Card>, j: nat)
    requires j < |cards|
    ensures CodesOf(RemoveAt(cards, j)) == RemoveAt(CodesOf(cards), j)
  {
  }

  /** Permuted cards have permuted codes. */
  lemma {:induction false} PermutedCodes(a: seq<Card>, b: seq<Card>)
    requires multiset(a) == multiset(b)
    ensures multiset(CodesOf(a)) == multiset(CodesOf(b))
  {
    if a == [] {
      assert |b| == |multiset(b)| == 0;
    } else {
      assert a[0] in multiset(b);
      var j: nat :| j < |b| && b[j] == a[0];
      MultisetRemoveAt(a, 0);
      MultisetRemoveAt(b, j);
      CancelMultiset(multiset(RemoveAt(a, 0)), multiset(RemoveAt(b, j)), multiset{a[0]});
      PermutedCodes(RemoveAt(a, 0), RemoveAt(b, j));
      CodesRemoveAt(a, 0);
      CodesRemoveAt(b, j);
      MultisetRemoveAt(CodesOf(a), 0);
      MultisetRemoveAt(CodesOf(b), j);
    }
  }

  /** Cards can be ordered so that they start with given kinds, as long as there are enough of each. */
  lemma {:induction false} Arrange(pool: seq<Card>, codes: seq<Code>) returns (goal: seq<Card>)
    requires multiset(codes) <= multiset(CodesOf(pool))
    ensures multiset(goal) == multiset(pool) && |codes| <= |goal| && CodesOf(goal[..|codes|]) == codes
  {
    if codes == [] {
      goal := pool;
    } else {
      var front, last := codes[..|codes| - 1], codes[|codes| - 1];
      var j := OneLess(codes, CodesOf(pool));
      CodesRemoveAt(pool, j);
      MultisetRemoveAt(pool, j);
      var g := Arrange(RemoveAt(pool, j), front);
      goal := Inserted(g, pool[j], |front|, codes);
    }
  }

  lemma OneLess(codes: seq<Code>, all: seq<Code>) returns (j: nat)
    requires codes != [] && multiset(codes) <= multiset(all)
    ensures j < |all| && all[j] == codes[|codes| - 1]
    ensures multiset(codes[..|codes| - 1]) <= multiset(RemoveAt(all, j))
  {
    var front, last := codes[..|codes| - 1], codes[|codes| - 1];
    assert codes == front + [last];
    assert multiset(codes)[last] == multiset(front)[last] + 1;
    assert last in multiset(all);
    j :| j < |all| && all[j] == last;
    MultisetRemoveAt(all, j);
    forall x ensures multiset(front)[x] <= multiset(RemoveAt(all, j))[x] {
      assert multiset(codes)[x] <= multiset(all)[x];
    }
  }

  lemma Inserted(g: seq<Card>, card: Card, n: nat, codes: seq<Code>) returns (goal: seq<Card>)
    requires |codes| == n + 1 && n <= |g| && CodesOf(g[..n]) == codes[..n] && card.code == codes[n]
    ensures multiset(goal) == multiset(g) + multiset{card} && n < |goal| && CodesOf(goal[..n + 1]) == codes
  {
    goal := InsertAt(g, card, n);
    MultisetInsertAt(g, card, n);
    assert goal[..n + 1] == g[..n] + [card];
    CodesAppend(g[..n], [card]);
  }

  lemma {:induction false} NumberedCodes(codes: seq<Code>, last: nat)
    ensures CodesOf(Numbered(codes, last)) == codes
  {
    forall k | 0 <= k < |codes| ensures CodesOf(Numbered(codes, last))[k] == codes[k] {
      NumberedAt(codes, last, k);
    }
  }

  /** A shuffle that brings the given kinds to the front. */
  lemma ShuffleTo(pool: seq<Card>, codes: seq<Code>) returns (rnd: Random)
    requires multiset(codes) <= multiset(CodesOf(pool))
    ensures |codes| <= |pool| && CodesOf(Shuffled(pool, rnd)[..|codes|]) == codes
    ensures multiset(CodesOf(Shuffled(pool, rnd))) == multiset(CodesOf(pool))
  {
    var goal := Arrange(pool, codes);
    rnd := EveryOrderIsAShuffle(pool, goal);
    PermutedCodes(goal, pool);
  }

  /** There are enough cards of every kind for the given hands and the given top of the draw pile. */
  ghost predicate Suffices(n: nat, hands: seq<Code>, pile: seq<Code>)
    requires ValidPlayerCount(n)
  {
    forall code :: multiset(hands)[code] + multiset(pile)[code] + (if code == Shield then n else 0)
        <= CountOf(DeckCardCounts(n), code)
  }

  ghost predicate Plain(hands: seq<Code>) {
    Shield !in hands && Explosive !in hands
  }

  lemma EnoughToDeal(n: nat, hands: seq<Code>, pile: seq<Code>)
    requires ValidPlayerCount(n) && Suffices(n, hands, pile) && Plain(hands)
    ensures multiset(hands) <= multiset(Codes(DealCounts(n)))
  {
    forall code ensures multiset(hands)[code] <= multiset(Codes(DealCounts(n)))[code] {
      assert multiset(hands)[code] + multiset(pile)[code] + (if code == Shield then n else 0)
          <= CountOf(DeckCardCounts(n), code);
      DeckKinds(n, code);
      assert code in hands || multiset(hands)[code] == 0;
    }
  }

  ghost predicate ExtraKinds(n: nat, extras: seq<Code>)
    requires ValidPlayerCount(n)
  {
    forall code ::
      multiset(extras)[code]
      == if code == Shield then ShieldCount(n) - n else if code == Explosive then n - 1 else 0
  }

  lemma TwoKinds(shields: nat, explosives: nat, code: Code)
    ensures multiset(Repeat(Shield, shields) + Repeat(Explosive, explosives))[code]
         == if code == Shield then shields else if code == Explosive then explosives else 0
  {
    RepeatCount(Shield, shields, code);
    RepeatCount(Explosive, explosives, code);
  }

  lemma ExtrasKinds(n: nat, shields: nat, explosives: nat, last: nat)
    requires ValidPlayerCount(n) && n <= ShieldCount(n) && shields == ShieldCount(n) - n && explosives == n - 1
    ensures ExtraKinds(n, CodesOf(Numbered(Repeat(Shield, shields) + Repeat(Explosive, explosives), last)))
  {
    NumberedCodes(Repeat(Shield, shields) + Repeat(Explosive, explosives), last);
    forall code
      ensures multiset(Repeat(Shield, shields) + Repeat(Explosive, explosives))[code]
           == if code == Shield then ShieldCount(n) - n else if code == Explosive then n - 1 else 0
    {
      TwoKinds(shields, explosives, code);
    }
  }

  lemma ExtrasSize(ids: seq<PlayerId>, shields: nat, mid: nat)
    requires ids != [] && |ids| <= shields
    ensures |Extras(ids, shields, mid)| == shields - 1
  {
  }

  lemma ExtrasAre(ids: seq<PlayerId>, shields: nat, mid: nat)
    requires ValidPlayerCount(|ids|) && |ids| <= ShieldCount(|ids|) == shields
    ensures ExtraKinds(|ids|, CodesOf(Extras(ids, shields, mid)))
  {
    ExtrasKinds(|ids|, shields - |ids|, |ids| - 1, Mid(Repeat(Shield, |ids|), mid));
  }

  /** What is left after the hands, with the extras, has enough for the given top of the pile. */
  lemma EnoughToDraw(n: nat, hands: seq<Code>, rest: seq<Code>, extras: seq<Code>, pile: seq<Code>)
    requires ValidPlayerCount(n) && Suffices(n, hands, pile) && n <= ShieldCount(n) && ExtraKinds(n, extras)
    requires multiset(hands + rest) == multiset(Codes(DealCounts(n)))
    ensures multiset(pile) <= multiset(rest + extras)
  {
    forall code ensures multiset(pile)[code] <= multiset(rest + extras)[code] {
      assert multiset(rest + extras)[code] == multiset(rest)[code] + multiset(extras)[code];
      assert multiset(hands + rest)[code] == multiset(hands)[code] + multiset(rest)[code];
      EnoughLeft(n, hands, pile, code, multiset(rest)[code], multiset(extras)[code]);
    }
  }

  lemma EnoughLeft(n: nat, hands: seq<Code>, pile: seq<Code>, code: Code, rest: nat, extras: nat)
    requires ValidPlayerCount(n) && Suffices(n, hands, pile) && n <= ShieldCount(n)
    requires multiset(hands)[code] + rest == multiset(Codes(DealCounts(n)))[code]
    requires extras == (if code == Shield then ShieldCount(n) - n else 0) + if code == Explosive then n - 1 else 0
    ensures multiset(pile)[code] <= rest + extras
  {
    assert multiset(hands)[code] + multiset(pile)[code] + (if code == Shield then n else 0)
        <= CountOf(DeckCardCounts(n), code);
    DeckKinds(n, code);
  }

  lemma RestEnough(n: nat, front: seq<Card>, rest: seq<Card>, hands: seq<Code>, extras: seq<Card>, pile: seq<Code>)
    requires ValidPlayerCount(n) && Suffices(n, hands, pile) && n <= ShieldCount(n) && ExtraKinds(n, CodesOf(extras))
    requires CodesOf(front) == hands
    requires multiset(CodesOf(front + rest)) == multiset(Codes(DealCounts(n)))
    ensures multiset(pile) <= multiset(CodesOf(rest + extras))
  {
    CodesAppend(front, rest);
    CodesAppend(rest, extras);
    EnoughToDraw(n, hands, CodesOf(rest), CodesOf(extras), pile);
  }

  lemma PoolEnough(n: nat, pool: seq<Card>, hands: seq<Code>, extras: seq<Card>, pile: seq<Code>)
    requires ValidPlayerCount(n) && Suffices(n, hands, pile) && n <= ShieldCount(n) && ExtraKinds(n, CodesOf(extras))
    requires |hands| <= |pool| && CodesOf(pool[..|hands|]) == hands
    requires multiset(CodesOf(pool)) == multiset(Codes(DealCounts(n)))
    ensures multiset(pile) <= multiset(CodesOf(pool[|hands|..] + extras))
  {
    assert pool == pool[..|hands|] + pool[|hands|..];
    RestEnough(n, pool[..|hands|], pool[|hands|..], hands, extras, pile);
  }

  /** The hand of seat `i` when the hands' seven cards each are dealt one seat after the other. */
  function HandAt(hands: seq<Code>, i: nat): seq<Code>
    requires Cut(i + 1) <= |hands|
  {
    [Shield] + hands[Cut(i)..Cut(i + 1)]
  }

  lemma {:induction false} DealtCodes(ids: seq<PlayerId>, pool: seq<Card>, hands: seq<Code>, last: nat, k: nat, i: nat)
    requires i < k <= |ids| && Cut(k) <= |hands| <= |pool| && CodesOf(pool[..|hands|]) == hands
    ensures CodesOf(Dealt(ids, pool, last, k)[i].hand) == HandAt(hands, i)
  {
    if i < k - 1 {
      DealtCodes(ids, pool, hands, last, k - 1, i);
    } else {
      var seven := pool[Cut(i)..Cut(i + 1)];
      forall j | 0 <= j < 7 ensures seven[j].code == hands[Cut(i) + j] {
        assert pool[..|hands|][Cut(i) + j] == seven[j];
      }
    }
  }

  /** Each player holds a shield and the next seven kinds, and the draw pile starts with the given ones. */
  ghost predicate Lays(players: seq<Player>, draw: seq<Card>, hands: seq<Code>, pile: seq<Code>)
    requires |hands| == Cut(|players|)
  {
    && (forall i :: 0 <= i < |players| ==> CodesOf(players[i].hand) == HandAt(hands, i))
    && |pile| <= |draw| && CodesOf(draw[..|pile|]) == pile
  }

  lemma DealtLays(ids: seq<PlayerId>, pool: seq<Card>, hands: seq<Code>, mid: nat, draw: seq<Card>, pile: seq<Code>)
    requires |hands| == Cut(|ids|) && |hands| <= |pool| && CodesOf(pool[..|hands|]) == hands
    requires |pile| <= |draw| && CodesOf(draw[..|pile|]) == pile
    ensures Lays(Dealt(ids, pool, mid, |ids|), draw, hands, pile)
  {
    forall i | 0 <= i < |ids| ensures CodesOf(Dealt(ids, pool, mid, |ids|)[i].hand) == HandAt(hands, i) {
      DealtCodes(ids, pool, hands, mid, |ids|, i);
    }
  }

  lemma OpenedAs(o: Opening, codes: seq<Code>, pool: seq<Card>, extras: seq<Card>)
    requires ValidOpening(o) && codes == Codes(DealCounts(|o.ids|)) && |o.ids| <= ShieldCount(|o.ids|)
    requires pool == Shuffled(Numbered(codes, o.last), o.rnd1) && Cut(|o.ids|) <= |codes|
    requires extras == Extras(o.ids, ShieldCount(|o.ids|), Mid(codes, o.last))
    ensures Opened(o).players == Dealt(o.ids, pool, Mid(codes, o.last), |o.ids|)
    ensures Opened(o).draw == Shuffled(pool[Cut(|o.ids|)..] + extras, o.rnd2)
  {
  }

  /** A shuffle of the pool that gives out the hands, and one of the rest that puts the pile on top. */
  lemma TwoShuffles(ids: seq<PlayerId>, codes: seq<Code>, hands: seq<Code>, extras: seq<Card>, pile: seq<Code>)
    returns (pool: seq<Card>, rnd1: Random, rnd2: Random)
    requires ValidPlayerCount(|ids|) && codes == Codes(DealCounts(|ids|)) && |ids| <= ShieldCount(|ids|)
    requires |hands| == Cut(|ids|) && Plain(hands) && Suffices(|ids|, hands, pile) && ExtraKinds(|ids|, CodesOf(extras))
    ensures pool == Shuffled(Numbered(codes, 0), rnd1) && |hands| <= |pool| && CodesOf(pool[..|hands|]) == hands
    ensures var draw := Shuffled(pool[|hands|..] + extras, rnd2); |pile| <= |draw| && CodesOf(draw[..|pile|]) == pile
  {
    EnoughToDeal(|ids|, hands, pile);
    NumberedCodes(codes, 0);
    rnd1 := ShuffleTo(Numbered(codes, 0), hands);
    pool := Shuffled(Numbered(codes, 0), rnd1);
    PoolEnough(|ids|, pool, hands, extras, pile);
    rnd2 := ShuffleTo(pool[|hands|..] + extras, pile);
  }

  /**
   Every deal happens: whatever kinds each player is to hold and whatever kinds are to be drawn first, in
   whichever order, some opening deals them, as long as the deck has that many.
   */
  lemma EveryDeal(ids: seq<PlayerId>, hands: seq<Code>, pile: seq<Code>) returns (o: Opening)
    requires ValidPlayerCount(|ids|) && Distinct(ids) && 0 !in ids
    requires |hands| == Cut(|ids|) && Plain(hands) && Suffices(|ids|, hands, pile)
    ensures ValidOpening(o) && o.ids == ids
    ensures |Opened(o).players| == |ids| && Lays(Opened(o).players, Opened(o).draw, hands, pile)
    ensures |Opened(o).draw| == PerProfile(ProfileFor(|ids|), 38, 56, 87) - |hands| + ShieldCount(|ids|) - 1
  {
    var codes, n := Codes(DealCounts(|ids|)), |ids|;
    PoolIsLargeEnough(n);
    var extras := Extras(ids, ShieldCount(n), Mid(codes, 0));
    ExtrasAre(ids, ShieldCount(n), Mid(codes, 0));
    ExtrasSize(ids, ShieldCount(n), Mid(codes, 0));
    var pool, rnd1, rnd2 := TwoShuffles(ids, codes, hands, extras, pile);
    o := Opening(ids, 0, rnd1, rnd2, 0);
    OpenedAs(o, codes, pool, extras);
    DealtLays(ids, pool, hands, Mid(codes, 0), Opened(o).draw, pile);
  }
}
