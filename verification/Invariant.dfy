/** What every reachable state satisfies, and the small facts its preservation rests on. */
module Invariant {
  import opened Cards
  import opened Table
  import opened Rules

  // ------------------------------------------------------------- definitions

  ghost predicate DistinctPlayers(players: seq<Player>) {
    forall i, j {:trigger Differ(players, i, j)} :: Differ(players, i, j)
  }

  ghost predicate Differ(players: seq<Player>, i: int, j: int) {
    0 <= i < j < |players| ==> players[i].id != players[j].id
  }

  ghost predicate Roster(players: seq<Player>) {
    DistinctPlayers(players) && forall i :: 0 <= i < |players| ==> players[i].id != 0
  }

  /** Every card is there once, ids are unique and non-empty, and there is at most one explosive holder. */
  ghost predicate Fair(cards: multiset<Card>) {
    forall c, d {:trigger FairPair(cards, c, d)} :: FairPair(cards, c, d)
  }

  ghost predicate FairPair(cards: multiset<Card>, c: Card, d: Card) {
    c in cards && d in cards ==>
      && cards[c] == 1 && c.id != 0
      && (c.id == d.id ==> c == d)
      && (c.code == ExplosiveHolder && d.code == ExplosiveHolder ==> c == d)
  }

  ghost predicate MarkOk(players: seq<Player>, id: CardId, m: Mark) {
    m.card == id && m.revealed.id == id && m.revealed in HandOf(players, m.owner)
  }

  ghost predicate MarksOk(players: seq<Player>, marks: map<CardId, Mark>) {
    forall id :: id in marks ==> MarkOk(players, id, marks[id])
  }

  ghost predicate DeadEmpty(players: seq<Player>) {
    forall i :: 0 <= i < |players| && !players[i].alive ==> players[i].hand == []
  }

  ghost predicate GaveHolder(pending: Option<Pending>, id: PlayerId) {
    && pending.Some? && pending.value.kind == RecycleChoices
    && id in pending.value.selections && pending.value.selections[id].code == ExplosiveHolder
  }

  ghost predicate SafeHand(hand: seq<Card>, gave: bool) {
    Unsafe(hand) == 0 || (gave && Count(hand, Explosive) == 1)
  }

  /** No hand holds an unguarded explosive, except that of a chooser who gave the holder up. */
  ghost predicate Contained(players: seq<Player>, pending: Option<Pending>) {
    forall i :: 0 <= i < |players| ==> SafeHand(players[i].hand, GaveHolder(pending, players[i].id))
  }

  ghost predicate Other(s: State, id: PlayerId) {
    id != s.current && IsAlive(s.players, id)
  }

  ghost predicate InPlay(s: State) {
    && AliveCount(s.players) >= 2
    && s.winner == 0
    && IsAlive(s.players, s.current)
    && 1 <= Debt(s.debt, s.current) <= 2
    && forall i :: 0 <= i < |s.players| && s.players[i].alive && s.players[i].id != s.current ==>
         Debt(s.debt, s.players[i].id) == 0
  }

  ghost predicate WindowOk(s: State, p: Pending) {
    && p.source == s.current
    && IsCancelable(p)
    && (p.kind == PlayedCard ==>
          && (p.cards[0].code in {TargetExtraTurns, RequestCard, RevealHeldCard} ==> Other(s, p.target))
          && (p.cards[0].code == DrawFromBottom ==> s.draw != []))
    && (p.kind == CardCombo ==>
          && (p.combo in {Pair, Triple} ==> Other(s, p.target))
          && (p.combo == Triple ==> p.requested.Some?)
          && (p.combo == FiveDifferent ==> s.discard != []))
  }

  ghost predicate ChoosersAlive(players: seq<Player>, ids: seq<PlayerId>) {
    forall id :: id in ids ==> IsAlive(players, id)
  }

  ghost predicate ChoosersHaveCards(players: seq<Player>, ids: seq<PlayerId>, selections: map<PlayerId, Card>) {
    forall id :: id in ids && id !in selections ==> HandOf(players, id) != []
  }

  ghost predicate RecycleOk(s: State, p: Pending) {
    && p.source == s.current
    && Distinct(p.recyclers)
    && ChoosersAlive(s.players, p.recyclers)
    && Listed(p.recyclers, p.selections)
    && ChoosersHaveCards(s.players, p.recyclers, p.selections)
    && |p.selections| < |p.recyclers|
  }

  ghost predicate PlacementOk(s: State, p: Pending) {
    && |p.cards| == 1 && p.cards[0].code == Explosive
    && IsAlive(s.players, p.source)
    && (if p.reactive then p.original == s.current else p.source == s.current)
  }

  /** Phase and pending action always match. */
  ghost predicate PendingOk(s: State) {
    match s.phase
    case PlayerTurn => s.pending.None?
    case CancelWindow => s.pending.Some? && WindowOk(s, s.pending.value)
    case WaitingRequestCardChoice => AskOk(s, RequestCardChoice)
    case WaitingMarkedCardChoice => AskOk(s, MarkedCardChoice)
    case WaitingDeckReorder =>
      && s.pending.Some? && s.pending.value.kind == DeckReorder && s.pending.value.source == s.current
      && s.pending.value.cards != [] && s.pending.value.cards <= s.draw
    case WaitingRecycleChoices =>
      s.pending.Some? && s.pending.value.kind == RecycleChoices && RecycleOk(s, s.pending.value)
    case WaitingDiscardRecovery =>
      && s.pending.Some? && s.pending.value.kind == DiscardRecovery && s.pending.value.source == s.current
      && s.discard != []
    case WaitingExplosivePlacement =>
      s.pending.Some? && s.pending.value.kind == ExplosivePlacement && PlacementOk(s, s.pending.value)
    case GameOver => false
  }

  ghost predicate AskOk(s: State, kind: PendingKind) {
    && s.pending.Some? && s.pending.value.kind == kind && s.pending.value.source == s.current
    && Other(s, s.pending.value.target)
  }

  ghost predicate Over(s: State) {
    && AliveCount(s.players) == 1
    && IsAlive(s.players, s.winner)
    && s.current == 0
    && s.pending.None?
  }

  ghost predicate TableOk(s: State) {
    Roster(s.players) && MarksOk(s.players, s.marks) && DeadEmpty(s.players) && s.queue == []
  }

  ghost predicate Inv(s: State) {
    && TableOk(s)
    && Fair(AllCards(s))
    && Contained(s.players, s.pending)
    && if s.phase == GameOver then Over(s) else InPlay(s) && PendingOk(s)
  }

  /** A turn with nothing pending; what is left to restore is containment. */
  ghost predicate Ready(s: State) {
    TableOk(s) && Fair(AllCards(s)) && InPlay(s) && s.pending.None? && s.phase == PlayerTurn
  }

  /** At most the player in seat `u` holds an unguarded explosive, and at most one. */
  ghost predicate OneLoose(players: seq<Player>, u: nat) {
    forall i :: 0 <= i < |players| ==> Unsafe(players[i].hand) <= if i == u then 1 else 0
  }

  /** Nobody joins, leaves or comes back to life, and at most one player dies. */
  ghost predicate Descends(a: seq<Player>, b: seq<Player>) {
    && |b| == |a|
    && (forall i :: 0 <= i < |a| ==> b[i].id == a[i].id && (b[i].alive ==> a[i].alive))
    && AliveCount(a) - 1 <= AliveCount(b) <= AliveCount(a)
  }

  /** The step keeps every card and lets at most one player die. */
  ghost predicate Follows(s: State, t: State) {
    AllCards(t) == AllCards(s) && Descends(s.players, t.players)
  }

  // ------------------------------------------------------------------ seats

  lemma SeatOf(players: seq<Player>, i: nat)
    requires i < |players| && DistinctPlayers(players)
    ensures Seat(players, players[i].id) == i
  {
    assert Differ(players, Seat(players, players[i].id), i);
  }

  lemma UpdatePlayer(players: seq<Player>, i: nat, p: Player)
    requires i < |players| && p.id == players[i].id
    ensures Roster(players) ==> Roster(players[i := p])
    ensures forall id :: Seat(players[i := p], id) == Seat(players, id)
  {
    forall id ensures Seat(players[i := p], id) == Seat(players, id) {
      SeatSame(players[i := p], players, id);
    }
    if Roster(players) {
      forall j: int, k: int {:trigger Differ(players[i := p], j, k)} ensures Differ(players[i := p], j, k) {
        assert Differ(players, j, k);
      }
    }
  }

  // ------------------------------------------------------------------- hands

  /** Within one hand, ids are unique. */
  lemma HandFair(s: State, i: nat)
    requires i < |s.players| && Fair(AllCards(s))
    ensures forall c, d :: c in s.players[i].hand && d in s.players[i].hand && c.id == d.id ==> c == d
  {
    forall c, d | c in s.players[i].hand && d in s.players[i].hand && c.id == d.id ensures c == d {
      HandFairPair(s, i, c, d);
    }
  }

  lemma HandFairPair(s: State, i: nat, c: Card, d: Card)
    requires i < |s.players| && Fair(AllCards(s))
    ensures FairPair(multiset(s.players[i].hand), c, d)
  {
    var hand := multiset(s.players[i].hand);
    HandCardsContain(s.players, i, c);
    HandCardsContain(s.players, i, d);
    assert hand[c] <= AllCards(s)[c] && hand[d] <= AllCards(s)[d];
    assert FairPair(AllCards(s), c, d);
  }

  lemma UnsafeGive(hand: seq<Card>, c: Card)
    requires Unsafe(hand) == 0
    ensures Unsafe(hand + [c]) <= 1
    ensures c.code != Explosive ==> Unsafe(hand + [c]) == 0
    ensures Count(hand, Explosive) == 0 && IndexOfCode(hand, ExplosiveHolder) >= 0 ==> Unsafe(hand + [c]) == 0
  {
    CountAppend(hand, [c], Explosive);
    CountOne(c, Explosive);
    var h := IndexOfCode(hand, ExplosiveHolder);
    if h >= 0 { assert (hand + [c])[h].code == ExplosiveHolder; }
  }

  lemma UnsafeRemove(hand: seq<Card>, j: nat)
    requires j < |hand|
    ensures Count(hand, Explosive) <= 1 && hand[j].code != Explosive ==> Unsafe(RemoveAt(hand, j)) <= 1
    ensures hand[j].code != ExplosiveHolder ==> Unsafe(RemoveAt(hand, j)) <= Unsafe(hand)
    ensures Unsafe(hand) == 0 ==> Unsafe(RemoveAt(hand, j)) <= 1
    ensures hand[j].code == Explosive && Unsafe(hand) > 0 ==> Unsafe(RemoveAt(hand, j)) == Unsafe(hand) - 1
  {
    CountRemoveAt(hand, j, Explosive);
    HolderAfterRemove(hand, j);
  }

  lemma HolderAfterRemove(hand: seq<Card>, j: nat)
    requires j < |hand|
    ensures IndexOfCode(RemoveAt(hand, j), ExplosiveHolder) >= 0 ==> IndexOfCode(hand, ExplosiveHolder) >= 0
    ensures hand[j].code != ExplosiveHolder && IndexOfCode(hand, ExplosiveHolder) >= 0
        ==> IndexOfCode(RemoveAt(hand, j), ExplosiveHolder) >= 0
  {
    CountRemoveAt(hand, j, ExplosiveHolder);
    CountPositive(hand, ExplosiveHolder);
    CountPositive(RemoveAt(hand, j), ExplosiveHolder);
  }

  // ------------------------------------------------------- effects on the table

  /** Clearing a player's marks after the hand shrank leaves only marks that still match. */
  lemma SetHandMarks(s: State, i: nat, hand: seq<Card>, players: seq<Player>)
    requires DistinctPlayers(s.players) && MarksOk(s.players, s.marks) && i < |s.players|
    requires forall c, d :: c in s.players[i].hand && d in s.players[i].hand && c.id == d.id ==> c == d
    requires forall c :: c in hand ==> c in s.players[i].hand
    requires |players| == |s.players| && players[i].hand == hand
    requires forall k :: 0 <= k < |players| ==>
        players[k].id == s.players[k].id && (k != i ==> players[k] == s.players[k])
    ensures MarksOk(players, Unmarked(s.marks, s.players[i].id, hand))
  {
    var marks := Unmarked(s.marks, s.players[i].id, hand);
    SeatOf(s.players, i);
    forall id | id in marks ensures MarkOk(players, id, marks[id]) {
      var m := s.marks[id];
      assert MarkOk(s.players, id, m);
      SeatSame(s.players, players, m.owner);
      if m.owner == s.players[i].id {
        var c := hand[IndexOfId(hand, id)];
        assert c in hand;
      }
    }
  }

  /** Taking cards out of a hand keeps the roster, the marks and the dead as they should be. */
  lemma HandShrinks(s: State, t: State, i: nat, hand: seq<Card>)
    requires TableOk(s) && Fair(AllCards(s)) && i < |s.players|
    requires multiset(hand) <= multiset(s.players[i].hand)
    requires t.players == s.players[i := s.players[i].(hand := hand)] && t.queue == []
    requires t.marks == Unmarked(s.marks, s.players[i].id, hand)
    ensures TableOk(t) && SameSeats(s.players, t.players)
  {
    UpdatePlayer(s.players, i, t.players[i]);
    HandFair(s, i);
    forall c | c in hand ensures c in s.players[i].hand {
      assert multiset(hand)[c] > 0;
    }
    SetHandMarks(s, i, hand, t.players);
    if hand != [] { assert hand[0] in s.players[i].hand; }
  }

  lemma HandGrows(s: State, t: State, i: nat, c: Card)
    requires TableOk(s) && i < |s.players| && s.players[i].alive
    requires t.players == s.players[i := s.players[i].(hand := s.players[i].hand + [c])]
    requires t.queue == [] && t.marks == s.marks
    ensures TableOk(t) && SameSeats(s.players, t.players)
  {
    UpdatePlayer(s.players, i, t.players[i]);
    forall id | id in t.marks ensures MarkOk(t.players, id, t.marks[id]) {
      assert MarkOk(s.players, id, s.marks[id]);
    }
  }

  lemma PlayerDies(s: State, t: State, i: nat)
    requires TableOk(s) && Fair(AllCards(s)) && i < |s.players| && s.players[i].alive
    requires t.players == s.players[i := s.players[i].(hand := [], alive := false)] && t.queue == []
    requires t.marks == Unmarked(s.marks, s.players[i].id, [])
    ensures TableOk(t)
    ensures forall id :: Seat(t.players, id) == Seat(s.players, id)
    ensures AliveCount(t.players) + 1 == AliveCount(s.players)
  {
    UpdatePlayer(s.players, i, t.players[i]);
    AliveCountUpdate(s.players, i, t.players[i]);
    HandFair(s, i);
    SetHandMarks(s, i, [], t.players);
  }

  /** Who sits where and who is alive is unchanged. */
  ghost predicate SameSeats(a: seq<Player>, b: seq<Player>) {
    && |a| == |b|
    && forall i :: 0 <= i < |a| ==> a[i].id == b[i].id && a[i].alive == b[i].alive
  }

  lemma {:induction false} SameSeatsAlive(a: seq<Player>, b: seq<Player>)
    requires SameSeats(a, b)
    ensures AliveCount(a) == AliveCount(b)
    ensures forall id :: Seat(a, id) == Seat(b, id) && IsAlive(a, id) == IsAlive(b, id)
  {
    forall id ensures Seat(a, id) == Seat(b, id) {
      SeatSame(a, b, id);
    }
    if a != [] {
      var n := |a| - 1;
      SameSeatsAlive(a[..n], b[..n]);
    }
  }

  lemma SameTurn(s: State, t: State)
    requires InPlay(s) && SameSeats(s.players, t.players)
    requires t.current == s.current && t.debt == s.debt && t.winner == s.winner
    ensures InPlay(t)
  {
    SameSeatsAlive(s.players, t.players);
  }
}
