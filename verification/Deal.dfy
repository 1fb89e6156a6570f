/** The deal that starts a game. */
module Deal {
  import opened Cards
  import opened Shuffling
  import opened Table
  import opened Deck
  import opened Rules
  import opened Invariant
  import opened Turns

  /** The first `k` players with a shield each and seven cards off the pool. */
  function Dealt(ids: seq<PlayerId>, pool: seq<Card>, last: nat, k: nat): (players: seq<Player>)
    requires k <= |ids| && Cut(k) <= |pool|
    ensures |players| == k
    ensures forall i :: 0 <= i < k ==> players[i].id == ids[i] && players[i].alive
  {
    if k == 0 then []
    else
      Dealt(ids, pool, last, k - 1) +
      [Player(ids[k - 1], [Card(last + k, Shield)] + pool[Cut(k - 1)..Cut(k)], true)]
  }

  // Derived numbers are functions of the deal's ingredients, so that equal ingredients give equal terms.

  /** The last card id used once the pool has been made. */
  function Mid(codes: seq<Code>, last: nat): nat {
    last + |codes|
  }

  /** The shields handed out, one per player. */
  function HandedShields(ids: seq<PlayerId>, mid: nat): seq<Card> {
    Numbered(Repeat(Shield, |ids|), mid)
  }

  /** The shields and explosives that go straight into the draw pile. */
  function Extras(ids: seq<PlayerId>, shields: nat, mid: nat): seq<Card>
    requires ids != [] && |ids| <= shields
  {
    Numbered(Repeat(Shield, shields - |ids|) + Repeat(Explosive, |ids| - 1), Mid(Repeat(Shield, |ids|), mid))
  }

  function StartingDebt(ids: seq<PlayerId>): map<PlayerId, int>
    requires ids != []
  {
    (map id | id in ids :: 0)[ids[0] := 1]
  }

  /** The table laid from a shuffled pool: hands, draw pile, and the first player's turn. */
  function Laid(ids: seq<PlayerId>, pool: seq<Card>, shields: nat, last: nat, rnd: Random, nextPending: nat): State
    requires ids != [] && Cut(|ids|) <= |pool| && |ids| <= shields
  {
    var n := |ids|;
    State(PlayerTurn, Dealt(ids, pool, last, n),
          Shuffled(pool[Cut(n)..] + Extras(ids, shields, last), rnd), [],
          ids[0], StartingDebt(ids), None, map[], 0, 0, [], nextPending)
  }

  /** The state `NewSetup` builds from the player ids, the last card id used and two shuffles. */
  function Setup(ids: seq<PlayerId>, last: nat, rnd1: Random, rnd2: Random, nextPending: nat): State
    requires ValidPlayerCount(|ids|)
  {
    var codes := Codes(DealCounts(|ids|));
    PoolIsLargeEnough(|ids|);
    Laid(ids, Shuffled(Numbered(codes, last), rnd1), ShieldCount(|ids|), Mid(codes, last), rnd2, nextPending)
  }

  /** `StartGame`: the deal, then two events. */
  function Start(ids: seq<PlayerId>, last: nat, rnd1: Random, rnd2: Random, nextPending: nat): State
    requires ValidPlayerCount(|ids|)
  {
    PoolIsLargeEnough(|ids|);
    LaidOut(ids, Codes(DealCounts(|ids|)), ShieldCount(|ids|), last, rnd1, rnd2, nextPending)
  }

  /** The kinds of a whole deck, and the deck in the order of its ids. */
  function FullKinds(ids: seq<PlayerId>, codes: seq<Code>, shields: nat): seq<Code>
    requires ids != []
  {
    codes + Repeat(Shield, shields) + Repeat(Explosive, |ids| - 1)
  }

  function FullDeck(ids: seq<PlayerId>, codes: seq<Code>, shields: nat, last: nat): seq<Card>
    requires ids != []
  {
    Numbered(FullKinds(ids, codes, shields), last)
  }

  // ---------------------------------------------------------- numbered cards

  lemma {:induction false} NumberedAt(codes: seq<Code>, last: nat, k: nat)
    requires k < |codes|
    ensures Numbered(codes, last)[k] == Card(last + 1 + k, codes[k])
  {
    if k < |codes| - 1 {
      NumberedAt(codes[..|codes| - 1], last, k);
    }
  }

  lemma {:induction false} NumberedAppend(a: seq<Code>, b: seq<Code>, last: nat)
    ensures Numbered(a + b, last) == Numbered(a, last) + Numbered(b, Mid(a, last))
  {
    if b == [] {
      assert a + b == a;
    } else {
      NumberedAppend(a, b[..|b| - 1], last);
      assert (a + b)[..|a + b| - 1] == a + b[..|b| - 1];
    }
  }

  lemma {:induction false} CountNumbered(codes: seq<Code>, last: nat, code: Code)
    ensures Count(Numbered(codes, last), code) == multiset(codes)[code]
  {
    if codes != [] {
      var front := codes[..|codes| - 1];
      assert codes == front + [codes[|codes| - 1]];
      assert Numbered(codes, last)[..|codes| - 1] == Numbered(front, last);
      CountNumbered(front, last, code);
    }
  }

  lemma {:induction false} RepeatSplit(x: Code, k: nat, m: nat, n: nat)
    requires n == k + m
    ensures Repeat(x, n) == Repeat(x, k) + Repeat(x, m)
  {
    if m > 0 {
      RepeatSplit(x, k, m - 1, n - 1);
    } else {
      assert Repeat(x, k) + [] == Repeat(x, k);
    }
  }

  /** Numbered cards are fair as long as there is at most one explosive holder among them. */
  lemma NumberedFair(codes: seq<Code>, last: nat)
    requires multiset(codes)[ExplosiveHolder] <= 1
    ensures Fair(multiset(Numbered(codes, last)))
  {
    var deck := Numbered(codes, last);
    forall c, d ensures FairPair(multiset(deck), c, d) {
      if c in multiset(deck) && d in multiset(deck) {
        var i: nat :| i < |deck| && deck[i] == c;
        var j: nat :| j < |deck| && deck[j] == d;
        NumberedPair(codes, last, i, j);
        NumberedOnce(codes, last, i);
      }
    }
  }

  lemma NumberedPair(codes: seq<Code>, last: nat, i: nat, j: nat)
    requires multiset(codes)[ExplosiveHolder] <= 1 && i < |codes| && j < |codes|
    ensures var c, d := Numbered(codes, last)[i], Numbered(codes, last)[j];
      && c.id != 0 && (c.id == d.id ==> c == d)
      && (c.code == ExplosiveHolder && d.code == ExplosiveHolder ==> c == d)
  {
    NumberedAt(codes, last, i);
    NumberedAt(codes, last, j);
    if codes[i] == ExplosiveHolder && codes[j] == ExplosiveHolder {
      OnlyOnce(codes, ExplosiveHolder, i, j);
    }
  }

  lemma OnlyOnce<T>(s: seq<T>, x: T, i: nat, j: nat)
    requires i < |s| && j < |s| && s[i] == x && s[j] == x && multiset(s)[x] <= 1
    ensures i == j
  {
    if i < j {
      OnlyOnceOrdered(s, x, i, j);
    } else if j < i {
      OnlyOnceOrdered(s, x, j, i);
    }
  }

  lemma OnlyOnceOrdered<T>(s: seq<T>, x: T, i: nat, j: nat)
    requires i < j < |s| && s[i] == x && s[j] == x
    ensures multiset(s)[x] >= 2
  {
    var a, b := s[..j], s[j..];
    assert multiset(s) == multiset(a) + multiset(b) by { assert s == a + b; }
    assert multiset(a)[a[i]] > 0 && multiset(b)[b[0]] > 0;
  }

  lemma {:induction false} NumberedOnce(codes: seq<Code>, last: nat, i: nat)
    requires i < |codes|
    ensures multiset(Numbered(codes, last))[Numbered(codes, last)[i]] == 1
  {
    var deck := Numbered(codes, last);
    DistinctNumbered(codes, last);
    DistinctCounts(deck);
    assert deck[i] in multiset(deck);
  }

  lemma DistinctNumbered(codes: seq<Code>, last: nat)
    ensures Distinct(Numbered(codes, last))
  {
    var deck := Numbered(codes, last);
    forall i, j | 0 <= i < j < |deck| ensures deck[i] != deck[j] {
      NumberedAt(codes, last, i);
      NumberedAt(codes, last, j);
    }
    DistinctPairs(deck);
  }

  // ---------------------------------------------------------- what was dealt

  lemma {:induction false} DealtCards(ids: seq<PlayerId>, pool: seq<Card>, last: nat, k: nat)
    requires k <= |ids| && Cut(k) <= |pool|
    ensures HandCards(Dealt(ids, pool, last, k))
          == multiset(Numbered(Repeat(Shield, k), last)) + multiset(pool[..Cut(k)])
    decreases k, 0
  {
    if k > 0 {
      DealtNext(ids, pool, last, k - 1, k);
    }
  }

  lemma {:induction false} DealtNext(ids: seq<PlayerId>, pool: seq<Card>, last: nat, i: nat, k: nat)
    requires k == i + 1 && k <= |ids| && Cut(k) <= |pool|
    ensures HandCards(Dealt(ids, pool, last, k))
          == multiset(Numbered(Repeat(Shield, k), last)) + multiset(pool[..Cut(k)])
    decreases i, 1
  {
    DealtCards(ids, pool, last, i);
    OneMoreShield(i, k, last);
    DealtOne(ids, pool, last, i, k);
    OneMoreHand(multiset(Numbered(Repeat(Shield, i), last)), Card(last + k, Shield), pool, Cut(i), Cut(k));
  }

  lemma DealtOne(ids: seq<PlayerId>, pool: seq<Card>, last: nat, i: nat, k: nat)
    requires k == i + 1 && k <= |ids| && Cut(k) <= |pool|
    ensures HandCards(Dealt(ids, pool, last, k))
         == HandCards(Dealt(ids, pool, last, i)) + multiset([Card(last + k, Shield)] + pool[Cut(i)..Cut(k)])
  {
    var p := Player(ids[i], [Card(last + k, Shield)] + pool[Cut(i)..Cut(k)], true);
    DealtPlayers(ids, pool, last, i, k, p);
    HandCardsAppend(Dealt(ids, pool, last, i), p);
  }

  lemma DealtPlayers(ids: seq<PlayerId>, pool: seq<Card>, last: nat, i: nat, k: nat, p: Player)
    requires k == i + 1 && k <= |ids| && Cut(k) <= |pool|
    requires p == Player(ids[i], [Card(last + k, Shield)] + pool[Cut(i)..Cut(k)], true)
    ensures Dealt(ids, pool, last, k) == Dealt(ids, pool, last, i) + [p]
  {
    assert k - 1 == i;
  }

  /** Seven more cards off the pool and a shield. */
  lemma OneMoreHand(shields: multiset<Card>, shield: Card, pool: seq<Card>, lo: nat, hi: nat)
    requires lo <= hi <= |pool|
    ensures (shields + multiset(pool[..lo])) + multiset([shield] + pool[lo..hi])
          == (shields + multiset{shield}) + multiset(pool[..hi])
  {
    var b, c, d := multiset(pool[..lo]), multiset{shield}, multiset(pool[lo..hi]);
    assert multiset([shield] + pool[lo..hi]) == c + d;
    RegroupMultisets(shields, b, c, d);
    assert b + d == multiset(pool[..hi]) by {
      assert pool[..hi] == pool[..lo] + pool[lo..hi];
    }
  }

  lemma OneMoreShield(i: nat, k: nat, last: nat)
    requires k == i + 1
    ensures multiset(Numbered(Repeat(Shield, k), last))
          == multiset(Numbered(Repeat(Shield, i), last)) + multiset{Card(last + k, Shield)}
  {
    assert k - 1 == i;
    var codes := Repeat(Shield, k);
    assert codes[..i] == Repeat(Shield, i);
    assert Numbered(codes, last) == Numbered(Repeat(Shield, i), last) + [Card(last + k, Shield)];
  }

  lemma HandCardsAppend(players: seq<Player>, p: Player)
    ensures HandCards(players + [p]) == HandCards(players) + multiset(p.hand)
  {
    assert (players + [p])[..|players|] == players;
  }

  lemma LaidShape(ids: seq<PlayerId>, pool: seq<Card>, shields: nat, last: nat, rnd: Random, nextPending: nat)
    requires ids != [] && Cut(|ids|) <= |pool| && |ids| <= shields
    ensures var t := Laid(ids, pool, shields, last, rnd, nextPending);
      && HandCards(t.players) == multiset(HandedShields(ids, last)) + multiset(pool[..Cut(|ids|)])
      && t.draw == Shuffled(pool[Cut(|ids|)..] + Extras(ids, shields, last), rnd)
      && t.discard == [] && t.pending.None? && t.queue == []
  {
    DealtCards(ids, pool, last, |ids|);
  }

  /** Laying the table puts the pool, a shield per player and the extras on it, and nothing else. */
  lemma LaidCards(ids: seq<PlayerId>, pool: seq<Card>, shields: nat, last: nat, rnd: Random, nextPending: nat)
    requires ids != [] && Cut(|ids|) <= |pool| && |ids| <= shields
    ensures AllCards(Laid(ids, pool, shields, last, rnd, nextPending))
         == (multiset(HandedShields(ids, last)) + multiset(Extras(ids, shields, last))) + multiset(pool)
  {
    LaidShape(ids, pool, shields, last, rnd, nextPending);
    PilesAdd(Laid(ids, pool, shields, last, rnd, nextPending), pool, Cut(|ids|), multiset(HandedShields(ids, last)),
             Extras(ids, shields, last), rnd);
  }

  lemma PilesAdd(t: State, pool: seq<Card>, cut: nat, a: multiset<Card>, extras: seq<Card>, rnd: Random)
    requires cut <= |pool| && HandCards(t.players) == a + multiset(pool[..cut])
    requires t.draw == Shuffled(pool[cut..] + extras, rnd) && t.discard == [] && t.pending.None? && t.queue == []
    ensures AllCards(t) == (a + multiset(extras)) + multiset(pool)
  {
    assert Outside(t) == multiset(t.draw);
    ShuffledPermutes(pool[cut..] + extras, rnd);
    SplitPool(pool, cut, extras);
    AddUp(AllCards(t), HandCards(t.players), multiset(t.draw), a, multiset(pool[..cut]), multiset(extras),
          multiset(pool[cut..]), multiset(pool));
  }

  lemma SplitPool(pool: seq<Card>, cut: nat, extras: seq<Card>)
    requires cut <= |pool|
    ensures multiset(pool[cut..] + extras) == multiset(extras) + multiset(pool[cut..])
    ensures multiset(pool) == multiset(pool[..cut]) + multiset(pool[cut..])
  {
    assert pool == pool[..cut] + pool[cut..];
  }

  lemma AddUp<T>(all: multiset<T>, hands: multiset<T>, out: multiset<T>, a: multiset<T>, b: multiset<T>,
        c: multiset<T>, d: multiset<T>, pool: multiset<T>)
    requires all == hands + out && hands == a + b && out == c + d && pool == b + d
    ensures all == (a + c) + pool
  {
  }

  lemma Reassociate<T>(a: seq<T>, b: seq<T>, c: seq<T>, d: seq<T>)
    ensures a + (b + c) + d == a + (b + (c + d))
  {
  }

  lemma FullDeckParts(ids: seq<PlayerId>, codes: seq<Code>, shields: nat, last: nat)
    requires ids != [] && |ids| <= shields
    ensures multiset(FullDeck(ids, codes, shields, last))
         == (multiset(HandedShields(ids, Mid(codes, last))) + multiset(Extras(ids, shields, Mid(codes, last))))
             + multiset(Numbered(codes, last))
  {
    var left, bombs := Repeat(Shield, shields - |ids|), Repeat(Explosive, |ids| - 1);
    var mine, rest := Repeat(Shield, |ids|), left + bombs;
    var mid := Mid(codes, last);
    var p, q, r := Numbered(codes, last), HandedShields(ids, mid), Extras(ids, shields, mid);
    RepeatSplit(Shield, |ids|, shields - |ids|, shields);
    Reassociate(codes, mine, left, bombs);
    assert FullDeck(ids, codes, shields, last) == p + (q + r) by {
      NumberedAppend(codes, mine + rest, last);
      NumberedAppend(mine, rest, mid);
    }
    assert multiset(p + (q + r)) == (multiset(q) + multiset(r)) + multiset(p);
  }

  /** How often each kind occurs in a full deck, and the consecutive ids. */
  lemma FullDeckCounts(ids: seq<PlayerId>, codes: seq<Code>, shields: nat, last: nat, code: Code)
    requires ids != []
    ensures Count(FullDeck(ids, codes, shields, last), code) == KindTotal(ids, codes, shields, code)
    ensures forall k :: 0 <= k < |FullDeck(ids, codes, shields, last)| ==>
        FullDeck(ids, codes, shields, last)[k].id == last + 1 + k
  {
    var all := FullKinds(ids, codes, shields);
    forall k | 0 <= k < |all| ensures Numbered(all, last)[k].id == last + 1 + k {
      NumberedAt(all, last, k);
    }
    CountNumbered(all, last, code);
    FullKindsCount(ids, codes, shields, code);
  }

  lemma FullKindsCount(ids: seq<PlayerId>, codes: seq<Code>, shields: nat, code: Code)
    requires ids != []
    ensures multiset(FullKinds(ids, codes, shields))[code] == KindTotal(ids, codes, shields, code)
  {
    ThreeParts(codes, Repeat(Shield, shields), Repeat(Explosive, |ids| - 1), code);
    RepeatCount(Shield, shields, code);
    RepeatCount(Explosive, |ids| - 1, code);
  }

  lemma ThreeParts<T>(a: seq<T>, b: seq<T>, c: seq<T>, x: T)
    ensures multiset(a + b + c)[x] == multiset(a)[x] + multiset(b)[x] + multiset(c)[x]
  {
  }

  function KindTotal(ids: seq<PlayerId>, codes: seq<Code>, shields: nat, code: Code): nat
    requires ids != []
  {
    multiset(codes)[code] + (if code == Shield then shields else 0) + if code == Explosive then |ids| - 1 else 0
  }

  lemma {:induction false} DealtHand(ids: seq<PlayerId>, pool: seq<Card>, last: nat, k: nat, i: nat)
    requires i < k <= |ids| && Cut(k) <= |pool|
    ensures Dealt(ids, pool, last, k)[i].hand == [Card(last + i + 1, Shield)] + pool[Cut(i)..Cut(i + 1)]
  {
    if i < k - 1 {
      DealtHand(ids, pool, last, k - 1, i);
    }
  }

  /** A dealt hand: one shield and seven pool cards. */
  lemma DealtHandSafe(ids: seq<PlayerId>, pool: seq<Card>, last: nat, i: nat)
    requires i < |ids| && Cut(|ids|) <= |pool|
    requires forall c :: c in pool ==> c.code != Shield && c.code != Explosive
    ensures var hand := Dealt(ids, pool, last, |ids|)[i].hand;
      |hand| == 8 && Count(hand, Shield) == 1 && Count(hand, Explosive) == 0
  {
    DealtHand(ids, pool, last, |ids|, i);
    var seven := pool[Cut(i)..Cut(i + 1)];
    forall c | c in seven ensures c in pool {}
    PlainHand(seven, Card(last + i + 1, Shield));
  }

  lemma PlainHand(seven: seq<Card>, shield: Card)
    requires shield.code == Shield && forall c :: c in seven ==> c.code != Shield && c.code != Explosive
    ensures Count([shield] + seven, Shield) == 1 && Count([shield] + seven, Explosive) == 0
  {
    CountAppend([shield], seven, Shield);
    CountAppend([shield], seven, Explosive);
    CountOne(shield, Shield);
    CountOne(shield, Explosive);
    CountPositive(seven, Shield);
    CountPositive(seven, Explosive);
  }

  lemma PoolPlain(codes: seq<Code>, last: nat, rnd: Random)
    requires multiset(codes)[Shield] == 0 && multiset(codes)[Explosive] == 0
    ensures forall c :: c in Shuffled(Numbered(codes, last), rnd) ==> c.code != Shield && c.code != Explosive
  {
    var deck, pool := Numbered(codes, last), Shuffled(Numbered(codes, last), rnd);
    ShuffledPermutes(deck, rnd);
    forall c | c in pool ensures c.code != Shield && c.code != Explosive {
      assert c in multiset(pool);
      var j: nat :| j < |deck| && deck[j] == c;
      NumberedAt(codes, last, j);
      assert codes[j] in multiset(codes);
    }
  }

  // -------------------------------------------------------- the initial state

  /**
   `StartGame` deals exactly `DeckCardCounts` of every kind, under fresh consecutive ids, with
   one shield and no explosive in every hand.
   */
  lemma StartDeals(ids: seq<PlayerId>, last: nat, rnd1: Random, rnd2: Random,
        nextPending: nat) returns (deck: seq<Card>)
    requires ValidPlayerCount(|ids|)
    ensures AllCards(Start(ids, last, rnd1, rnd2, nextPending)) == multiset(deck)
    ensures forall code :: Count(deck, code) == CountOf(DeckCardCounts(|ids|), code)
    ensures forall k :: 0 <= k < |deck| ==> deck[k].id == last + 1 + k
    ensures StartingHands(Start(ids, last, rnd1, rnd2, nextPending).players)
  {
    var codes := Codes(DealCounts(|ids|));
    PoolIsLargeEnough(|ids|);
    DealtKinds(|ids|, Shield);
    DealtKinds(|ids|, Explosive);
    deck := LaidDeals(ids, codes, ShieldCount(|ids|), last, rnd1, rnd2, nextPending);
    forall code ensures Count(deck, code) == CountOf(DeckCardCounts(|ids|), code) {
      DeckKinds(|ids|, code);
    }
  }

  /** The game laid out from any list of kinds to deal from. */
  function LaidOut(ids: seq<PlayerId>, codes: seq<Code>, shields: nat, last: nat, rnd1: Random, rnd2: Random,
        nextPending: nat): State
    requires ids != [] && Cut(|ids|) <= |codes| && |ids| <= shields
  {
    Tick(Laid(ids, Shuffled(Numbered(codes, last), rnd1), shields, Mid(codes, last), rnd2, nextPending), 2)
  }

  lemma LaidDeals(ids: seq<PlayerId>, codes: seq<Code>, shields: nat, last: nat, rnd1: Random, rnd2: Random,
        nextPending: nat)
    returns (deck: seq<Card>)
    requires ids != [] && Cut(|ids|) <= |codes| && |ids| <= shields
    requires multiset(codes)[Shield] == 0 && multiset(codes)[Explosive] == 0
    ensures AllCards(LaidOut(ids, codes, shields, last, rnd1, rnd2, nextPending)) == multiset(deck)
    ensures StartingHands(LaidOut(ids, codes, shields, last, rnd1, rnd2, nextPending).players)
    ensures multiset(codes)[ExplosiveHolder] == 1 ==> Fair(multiset(deck))
    ensures forall code :: Count(deck, code) == KindTotal(ids, codes, shields, code)
    ensures forall k :: 0 <= k < |deck| ==> deck[k].id == last + 1 + k
  {
    deck := FullDeck(ids, codes, shields, last);
    LaidOutCards(ids, codes, shields, last, rnd1, rnd2, nextPending);
    LaidOutHands(ids, codes, shields, last, rnd1, rnd2, nextPending);
    FullDeckFacts(ids, codes, shields, last);
  }

  lemma FullDeckFacts(ids: seq<PlayerId>, codes: seq<Code>, shields: nat, last: nat)
    requires ids != []
    ensures var deck := FullDeck(ids, codes, shields, last);
      && (forall code :: Count(deck, code) == KindTotal(ids, codes, shields, code))
      && (forall k :: 0 <= k < |deck| ==> deck[k].id == last + 1 + k)
      && (multiset(codes)[ExplosiveHolder] == 1 ==> Fair(multiset(deck)))
  {
    forall code ensures Count(FullDeck(ids, codes, shields, last), code) == KindTotal(ids, codes, shields, code) {
      FullDeckCounts(ids, codes, shields, last, code);
    }
    FullDeckCounts(ids, codes, shields, last, Shield);
    if multiset(codes)[ExplosiveHolder] == 1 {
      HolderOnce(ids, codes, shields);
      NumberedFair(FullKinds(ids, codes, shields), last);
    }
  }

  ghost predicate StartingHand(hand: seq<Card>) {
    |hand| == 8 && Count(hand, Shield) == 1 && Count(hand, Explosive) == 0
  }

  ghost predicate StartingHands(players: seq<Player>) {
    forall i :: 0 <= i < |players| ==> StartingHand(players[i].hand)
  }

  lemma LaidOutCards(ids: seq<PlayerId>, codes: seq<Code>, shields: nat, last: nat, rnd1: Random, rnd2: Random,
        nextPending: nat)
    requires ids != [] && Cut(|ids|) <= |codes| && |ids| <= shields
    ensures AllCards(LaidOut(ids, codes, shields, last, rnd1, rnd2, nextPending))
          == multiset(FullDeck(ids, codes, shields, last))
  {
    var pool := Shuffled(Numbered(codes, last), rnd1);
    ShuffledPermutes(Numbered(codes, last), rnd1);
    FullDeckParts(ids, codes, shields, last);
    LaidCards(ids, pool, shields, Mid(codes, last), rnd2, nextPending);
    TickCards(Laid(ids, pool, shields, Mid(codes, last), rnd2, nextPending), 2);
  }

  lemma TickCards(s: State, k: nat)
    ensures AllCards(Tick(s, k)) == AllCards(s)
  {
  }

  lemma LaidOutHands(ids: seq<PlayerId>, codes: seq<Code>, shields: nat, last: nat, rnd1: Random, rnd2: Random,
        nextPending: nat)
    requires ids != [] && Cut(|ids|) <= |codes| && |ids| <= shields
    requires multiset(codes)[Shield] == 0 && multiset(codes)[Explosive] == 0
    ensures StartingHands(LaidOut(ids, codes, shields, last, rnd1, rnd2, nextPending).players)
  {
    var pool := Shuffled(Numbered(codes, last), rnd1);
    PoolPlain(codes, last, rnd1);
    var players := Dealt(ids, pool, Mid(codes, last), |ids|);
    forall i | 0 <= i < |players| ensures StartingHand(players[i].hand) {
      DealtHandSafe(ids, pool, Mid(codes, last), i);
    }
  }

  /**
   A table as `StartGame` leaves it: everybody alive with a starting hand, the first player's turn,
   nothing pending, unique card ids and at most one explosive holder.
   */
  ghost predicate FreshTable(s: State, ids: seq<PlayerId>) {
    && |ids| >= 2 && Distinct(ids) && 0 !in ids && |s.players| == |ids|
    && (forall i :: 0 <= i < |ids| ==> s.players[i].id == ids[i] && s.players[i].alive)
    && StartingHands(s.players)
    && s.phase == PlayerTurn && s.current == ids[0] && s.pending.None? && s.marks == map[] && s.queue == []
        && s.winner == 0
    && s.discard == [] && s.debt == StartingDebt(ids) && Fair(AllCards(s))
  }

  /** Every started game is a fresh table. */
  lemma StartIsFresh(ids: seq<PlayerId>, last: nat, rnd1: Random, rnd2: Random, nextPending: nat)
    requires ValidPlayerCount(|ids|) && Distinct(ids) && 0 !in ids
    ensures FreshTable(Start(ids, last, rnd1, rnd2, nextPending), ids)
  {
    var codes := Codes(DealCounts(|ids|));
    PoolIsLargeEnough(|ids|);
    DealtKinds(|ids|, Shield);
    DealtKinds(|ids|, Explosive);
    DealtKinds(|ids|, ExplosiveHolder);
    var deck := LaidDeals(ids, codes, ShieldCount(|ids|), last, rnd1, rnd2, nextPending);
  }

  lemma HolderOnce(ids: seq<PlayerId>, codes: seq<Code>, shields: nat)
    requires ids != [] && multiset(codes)[ExplosiveHolder] == 1
    ensures multiset(FullKinds(ids, codes, shields))[ExplosiveHolder] == 1
  {
    FullKindsCount(ids, codes, shields, ExplosiveHolder);
  }

  /** The base case: a fresh table satisfies the invariant. */
  lemma FreshInv(s: State, ids: seq<PlayerId>)
    requires FreshTable(s, ids)
    ensures Inv(s)
  {
    FreshSeats(s.players, ids);
    FreshDebts(s, ids);
    FreshHands(s);
  }

  lemma FreshSeats(players: seq<Player>, ids: seq<PlayerId>)
    requires |ids| >= 2 && Distinct(ids) && 0 !in ids && |players| == |ids|
    requires forall i :: 0 <= i < |ids| ==> players[i].id == ids[i] && players[i].alive
    ensures Roster(players) && AliveCount(players) >= 2 && Seat(players, ids[0]) == 0
  {
    DistinctPairs(ids);
    forall i: int, j: int {:trigger Differ(players, i, j)} ensures Differ(players, i, j) {
      if 0 <= i < j < |ids| { assert ids[i] != ids[j]; }
    }
    forall i | 0 <= i < |players| ensures players[i].id != 0 {
      assert ids[i] in ids;
    }
    AliveCountTwo(players, 0, 1);
    SeatOf(players, 0);
  }

  lemma FreshHands(s: State)
    requires StartingHands(s.players)
    ensures Contained(s.players, s.pending)
  {
    SafeContained(s.players, s.pending);
  }

  lemma FreshDebts(s: State, ids: seq<PlayerId>)
    requires ids != [] && |s.players| == |ids| && s.debt == StartingDebt(ids)
    requires forall i :: 0 <= i < |ids| ==> s.players[i].id == ids[i]
    ensures Debt(s.debt, ids[0]) == 1
    ensures forall i :: 0 <= i < |s.players| && s.players[i].id != ids[0] ==> Debt(s.debt, s.players[i].id) == 0
  {
  }
}
