/** Every command keeps the invariant and the cards, and kills at most one player. */
module Preserve {
  import opened Cards
  import opened Shuffling
  import opened Table
  import opened Rules
  import opened Invariant
  import opened Ring
  import opened Turns

  lemma SameSeatsDescend(a: seq<Player>, b: seq<Player>)
    requires SameSeats(a, b)
    ensures Descends(a, b)
  {
    SameSeatsAlive(a, b);
  }

  // ---------------------------------------------------------------- drawing

  /** A card in the player's new hand. */
  lemma GiveKeeps(s: State, t: State, i: nat, c: Card)
    requires TableOk(s) && InPlay(s) && s.pending.None? && s.phase == PlayerTurn && i < |s.players|
    requires s.players[i].alive
    requires Fair(AllCards(s) + multiset{c})
    requires t.players == s.players[i := s.players[i].(hand := s.players[i].hand + [c])]
    requires t == s.(players := t.players, eventSeq := t.eventSeq)
    ensures Ready(t) && AllCards(t) == AllCards(s) + multiset{c} && SameSeats(s.players, t.players)
  {
    HandGrows(s, t, i, c);
    SameTurn(s, t);
    assert Outside(t) == Outside(s);
    assert multiset(t.players[i].hand) == multiset(s.players[i].hand) + multiset{c};
    ReplaceHand(s, t, i, t.players[i], multiset{c});
  }

  lemma DrawnKept(s: State, i: nat, drawn: Card)
    requires TableOk(s) && InPlay(s) && s.pending.None? && s.phase == PlayerTurn && AllSafe(s.players)
    requires i < |s.players| && s.players[i].alive && Fair(AllCards(s) + multiset{drawn})
    requires drawn.code != Explosive
      || (IndexOfCode(s.players[i].hand, ExplosiveHolder) >= 0 && Count(s.players[i].hand, Explosive) == 0)
    ensures var t := CompleteTurn(Give(Tick(s, 1), i, drawn));
      Inv(t) && AllCards(t) == AllCards(s) + multiset{drawn} && Descends(s.players, t.players)
  {
    var g := Give(Tick(s, 1), i, drawn);
    GiveKeeps(s, g, i, drawn);
    UnsafeGive(s.players[i].hand, drawn);
    OneSeatSafe(s.players, i, g.players[i]);
    CompleteInv(g);
    SameSeatsDescend(s.players, g.players);
  }

  lemma DrawnKills(s: State, e: State, i: nat, drawn: Card)
    requires TableOk(s) && InPlay(s) && s.pending.None? && s.phase == PlayerTurn && AllSafe(s.players)
    requires i < |s.players| && s.players[i].alive && s.players[i].id == s.current
    requires Fair(AllCards(s) + multiset{drawn})
    requires e.players == s.players[i := s.players[i].(hand := [], alive := false)]
    requires e.marks == Unmarked(s.marks, s.players[i].id, []) && e.queue == [] && e.pending.None?
    requires e.phase == PlayerTurn
    requires e.draw == s.draw && e.discard == s.discard + [drawn] + s.players[i].hand
    requires e.current == s.current && e.debt == s.debt && e.winner == s.winner
    ensures var t := if AliveCount(e.players) == 1 then Crown(e) else Advance(e);
      Inv(t) && AllCards(t) == AllCards(s) + multiset{drawn} && Descends(s.players, t.players)
  {
    EliminateKeeps(s, e, i, multiset{drawn});
    FinishKeeps(s, e);
    FinishShape(e);
    SeatOf(e.players, i);
  }

  lemma DrawnDefused(s: State, i: nat, drawn: Card)
    requires TableOk(s) && InPlay(s) && s.pending.None? && s.phase == PlayerTurn && AllSafe(s.players)
    requires i < |s.players| && s.players[i].alive && s.players[i].id == s.current
    requires Fair(AllCards(s) + multiset{drawn})
    requires drawn.code == Explosive && IndexOfCode(s.players[i].hand, Shield) >= 0
    ensures var t := Defuse(Tick(s, 1), i, drawn);
      Inv(t) && AllCards(t) == AllCards(s) + multiset{drawn} && Descends(s.players, t.players)
  {
    var hand := s.players[i].hand;
    var j := IndexOfCode(hand, Shield);
    var t := Defuse(Tick(s, 1), i, drawn);
    MultisetRemoveAt(hand, j);
    UnsafeShield(hand, j);
    assert multiset([drawn]) == multiset{} + multiset{drawn};
    PlacementOpens(s, t, i, RemoveAt(hand, j), hand[j], multiset{}, multiset{drawn});
    SameSeatsDescend(s.players, t.players);
  }

  /** Resolving a drawn card puts it in exactly one place and keeps the invariant. */
  lemma DrawnKeeps(s: State, i: nat, drawn: Card)
    requires TableOk(s) && InPlay(s) && s.pending.None? && s.phase == PlayerTurn && AllSafe(s.players)
    requires i < |s.players| && s.players[i].alive && s.players[i].id == s.current
    requires Fair(AllCards(s) + multiset{drawn})
    ensures var t := ResolveDrawn(s, i, drawn);
      Inv(t) && AllCards(t) == AllCards(s) + multiset{drawn} && Descends(s.players, t.players)
  {
    var hand := s.players[i].hand;
    if drawn.code != Explosive || (IndexOfCode(hand, ExplosiveHolder) >= 0 && Count(hand, Explosive) == 0) {
      DrawnKept(s, i, drawn);
    } else if IndexOfCode(hand, Shield) < 0 {
      DrawnKills(s, Eliminate(Tick(s, 1).(discard := s.discard + [drawn]), i), i, drawn);
    } else {
      DrawnDefused(s, i, drawn);
    }
  }

  lemma DrawReady(s: State, s1: State)
    requires Inv(s) && s.phase == PlayerTurn && s.draw != [] && s1 == s.(draw := s.draw[1..])
    ensures TableOk(s1) && InPlay(s1) && s1.pending.None? && AllSafe(s1.players)
    ensures AllCards(s1) + multiset{s.draw[0]} == AllCards(s)
  {
    NotRecycling(s);
    TakeFromPile(s, s1, 0);
    SameTurn(s, s1);
  }

  lemma DrawKeeps(s: State, p: PlayerId)
    requires Inv(s) && DrawGuard(s, p) == NoError
    ensures var t := DrawEffect(s, p); Inv(t) && Follows(s, t)
  {
    var s1 := s.(draw := s.draw[1..]);
    DrawReady(s, s1);
    DrawnKeeps(s1, Seat(s.players, p), s.draw[0]);
  }

  lemma TakeFromPile(s: State, t: State, k: nat)
    requires k < |s.draw|
    requires t == s.(draw := RemoveAt(s.draw, k), pending := t.pending, phase := t.phase, eventSeq := t.eventSeq)
    requires LimboCards(t.pending) == LimboCards(s.pending)
    ensures AllCards(t) + multiset{s.draw[k]} == AllCards(s)
  {
    MultisetRemoveAt(s.draw, k);
  }

  // -------------------------------------------------------------- placement

  lemma PlaceCards(s: State, s1: State, pending: Pending, index: nat)
    requires s.pending == Some(pending) && pending.kind == ExplosivePlacement && |pending.cards| == 1
    requires index <= |s.draw|
    requires s1
          == s.(draw := InsertAt(s.draw, pending.cards[0], index), pending := None, phase := s1.phase,
              eventSeq := s1.eventSeq)
    ensures AllCards(s1) == AllCards(s)
  {
    MultisetInsertAt(s.draw, pending.cards[0], index);
    assert pending.cards == [pending.cards[0]];
    assert multiset(pending.cards) == multiset{pending.cards[0]};
    assert Outside(s1) == Outside(s);
  }

  lemma PlaceReady(s: State, s1: State, pending: Pending, index: nat)
    requires Inv(s) && s.phase == WaitingExplosivePlacement && s.pending == Some(pending) && index <= |s.draw|
    requires |pending.cards| == 1
    requires s1 == Tick(s.(draw := InsertAt(s.draw, pending.cards[0], index), pending := None, phase := PlayerTurn), 1)
    ensures Ready(s1) && AllSafe(s1.players) && AllCards(s1) == AllCards(s) && IsAlive(s.players, pending.source)
    ensures if pending.reactive then pending.original == s.current else pending.source == s.current
  {
    NotRecycling(s);
    PlaceCards(s, s1, pending, index);
    SameTurn(s, s1);
  }

  lemma PlaceKeeps(s: State, p: PlayerId, index: int)
    requires Inv(s) && PlaceGuard(s, p, index) == NoError
    ensures var t := PlaceEffect(s, p, index); Inv(t) && Follows(s, t)
  {
    var pending := s.pending.value;
    var s1 := Tick(s.(draw := InsertAt(s.draw, pending.cards[0], index), pending := None, phase := PlayerTurn), 1);
    PlaceReady(s, s1, pending, index);
    if pending.reactive {
      ResolveKeeps(s1, [pending.source], Seat(s.players, pending.source));
    } else {
      CompleteReady(s1);
      ReadyInv(CompleteTurn(s1));
    }
  }

  // ---------------------------------------------------------------- playing

  lemma WindowCards(s: State, t: State, i: nat, hand: seq<Card>, pending: Pending)
    requires i < |s.players| && s.pending.None? && t == OpenWindow(s, i, hand, pending)
    requires multiset(hand) + multiset(pending.cards) == multiset(s.players[i].hand)
    requires pending.kind in {PlayedCard, CardCombo}
    ensures AllCards(t) == AllCards(s)
  {
    assert Outside(t) == Outside(s) + multiset(pending.cards);
    assert Outside(t) + multiset(hand) == Outside(s) + multiset(s.players[i].hand) + multiset{};
    ReplaceHand(s, t, i, t.players[i], multiset{});
  }

  lemma OpenWindowKeeps(s: State, t: State, i: nat, hand: seq<Card>, pending: Pending)
    requires Inv(s) && s.phase == PlayerTurn && i < |s.players|
    requires t == OpenWindow(s, i, hand, pending)
    requires multiset(hand) + multiset(pending.cards) == multiset(s.players[i].hand) && Unsafe(hand) == 0
    requires pending.kind in {PlayedCard, CardCombo} && WindowOk(s.(discard := s.discard + pending.cards), pending)
    ensures Inv(t) && Follows(s, t)
  {
    NotRecycling(s);
    HandShrinks(s, t, i, hand);
    SameTurn(s, t);
    SameSeatsAlive(s.players, t.players);
    OnlySeatChanges(s.players, i, t.players[i]);
    WindowCards(s, t, i, hand, pending);
    SafeContained(t.players, t.pending);
  }

  lemma PlayAccepted(s: State, p: PlayerId, ids: seq<CardId>, target: PlayerId, now: int)
    requires PlayGuard(s, p, ids, target) == NoError
    ensures s.phase == PlayerTurn && s.current == p && IsAlive(s.players, p) && |ids| == 1
    ensures var i := Seat(s.players, p);
      var hand := s.players[i].hand;
      var j := IndexOfId(hand, ids[0]);
      && j >= 0 && IsSupportedAction(hand[j].code) && PlayCodeGuard(s, p, hand[j].code, target) == NoError
      && PlayEffect(s, p, ids, target, now)
          == OpenWindow(s, i, RemoveAt(hand, j), PlayPending(s, p, hand[j], target, now))
  {
  }

  function PlayPending(s: State, p: PlayerId, card: Card, target: PlayerId, now: int): Pending {
    Prompt(s.nextPending + 1, p, PlayedCard, [card], target).(expiresAt := now + CANCEL_WINDOW_MS)
  }

  lemma PlayWindowOk(s: State, p: PlayerId, card: Card, target: PlayerId, now: int)
    requires s.current == p && IsSupportedAction(card.code) && PlayCodeGuard(s, p, card.code, target) == NoError
    ensures WindowOk(s, PlayPending(s, p, card, target, now))
  {
  }

  lemma PlayKeeps(s: State, p: PlayerId, ids: seq<CardId>, target: PlayerId, now: int)
    requires Inv(s) && PlayGuard(s, p, ids, target) == NoError
    ensures var t := PlayEffect(s, p, ids, target, now); Inv(t) && Follows(s, t)
  {
    PlayAccepted(s, p, ids, target, now);
    var i := Seat(s.players, p);
    var hand := s.players[i].hand;
    var j := IndexOfId(hand, ids[0]);
    var pending := PlayPending(s, p, hand[j], target, now);
    NotRecycling(s);
    MultisetRemoveAt(hand, j);
    UnsafeShield(hand, j);
    PlayWindowOk(s, p, hand[j], target, now);
    OpenWindowKeeps(s, PlayEffect(s, p, ids, target, now), i, RemoveAt(hand, j), pending);
  }

  // ----------------------------------------------------------------- combos

  /** Every listed id names a card of the hand. */
  predicate AllHeld(hand: seq<Card>, ids: seq<CardId>) {
    ids == [] || (AllHeld(hand, ids[..|ids| - 1]) && Held(hand, ids[|ids| - 1]))
  }

  predicate Held(hand: seq<Card>, id: CardId) {
    IndexOfId(hand, id) >= 0
  }

  lemma {:induction false} AllHeldIf(hand: seq<Card>, ids: seq<CardId>)
    requires forall id :: id in ids ==> Held(hand, id)
    ensures AllHeld(hand, ids)
  {
    if ids != [] {
      AllHeldIf(hand, ids[..|ids| - 1]);
    }
  }

  /** An accepted id list names distinct non-empty ids of cards in the hand. */
  lemma {:induction false} IdsAccepted(hand: seq<Card>, ids: seq<CardId>)
    ensures IdsError(hand, ids) == NoError <==> AllHeld(hand, ids) && 0 !in ids && Distinct(ids)
  {
    if ids != [] {
      var front, last := ids[..|ids| - 1], ids[|ids| - 1];
      IdsAccepted(hand, front);
      assert ids == front + [last];
    }
  }

  lemma {:induction false} PickedLength(hand: seq<Card>, ids: seq<CardId>)
    requires AllHeld(hand, ids)
    ensures |Picked(hand, ids)| == |ids|
  {
    if ids != [] {
      PickedLength(hand, ids[..|ids| - 1]);
    }
  }

  lemma {:induction false} PickedAt(hand: seq<Card>, ids: seq<CardId>, k: nat)
    requires AllHeld(hand, ids) && k < |ids|
    ensures Held(hand, ids[k]) && |Picked(hand, ids)| == |ids|
    ensures Picked(hand, ids)[k] == hand[IndexOfId(hand, ids[k])]
  {
    var front := ids[..|ids| - 1];
    PickedLength(hand, front);
    if k < |front| {
      PickedAt(hand, front, k);
    }
  }

  /** Each id picks the card it names. */
  lemma PickedCards(hand: seq<Card>, ids: seq<CardId>)
    requires AllHeld(hand, ids)
    ensures |Picked(hand, ids)| == |ids|
    ensures forall k :: 0 <= k < |ids| ==> Held(hand, ids[k]) && Picked(hand, ids)[k] == hand[IndexOfId(hand, ids[k])]
  {
    PickedLength(hand, ids);
    forall k | 0 <= k < |ids| ensures Held(hand, ids[k]) && Picked(hand, ids)[k] == hand[IndexOfId(hand, ids[k])] {
      PickedAt(hand, ids, k);
    }
  }

  /** How often a card is picked: once when its id is listed, given unique ids. */
  lemma {:induction false} PickedCount(hand: seq<Card>, ids: seq<CardId>, c: Card)
    requires AllHeld(hand, ids) && Distinct(ids)
    requires forall d :: d in hand && d.id == c.id ==> d == c
    ensures multiset(Picked(hand, ids))[c] == if c in hand && c.id in ids then 1 else 0
  {
    if ids != [] {
      var front, last := ids[..|ids| - 1], ids[|ids| - 1];
      var j := IndexOfId(hand, last);
      PickedCount(hand, front, c);
      PickOneMore(Picked(hand, front), hand[j], c);
      assert hand[j] in hand;
      assert c.id in ids <==> c.id in front || c.id == last by {
        assert ids == front + [last];
      }
    }
  }

  lemma PickOneMore(cards: seq<Card>, d: Card, c: Card)
    ensures multiset(cards + [d])[c] == multiset(cards)[c] + if c == d then 1 else 0
  {
  }

  /** The picked cards and the rest make up the hand. */
  lemma PickedAndWithout(hand: seq<Card>, ids: seq<CardId>)
    requires IdsError(hand, ids) == NoError
    requires forall c, d :: c in hand && d in hand && c.id == d.id ==> c == d
    requires forall c :: multiset(hand)[c] <= 1
    ensures multiset(Without(hand, ids)) + multiset(Picked(hand, ids)) == multiset(hand)
  {
    forall c ensures (multiset(Without(hand, ids)) + multiset(Picked(hand, ids)))[c] == multiset(hand)[c] {
      PickedOrLeft(hand, ids, c);
    }
  }

  lemma PickedOrLeft(hand: seq<Card>, ids: seq<CardId>, c: Card)
    requires IdsError(hand, ids) == NoError && multiset(hand)[c] <= 1
    requires forall d :: c in hand && d in hand && d.id == c.id ==> d == c
    ensures multiset(Without(hand, ids))[c] + multiset(Picked(hand, ids))[c] == multiset(hand)[c]
  {
    IdsAccepted(hand, ids);
    WithoutCount(hand, ids, c);
    if c in hand {
      PickedCount(hand, ids, c);
    } else {
      NotPicked(hand, ids, c);
    }
  }

  lemma {:induction false} NotPicked(hand: seq<Card>, ids: seq<CardId>, c: Card)
    requires c !in hand
    ensures c !in Picked(hand, ids)
  {
    if ids != [] {
      NotPicked(hand, ids[..|ids| - 1], c);
    }
  }

  lemma {:induction false} WithoutSafe(hand: seq<Card>, ids: seq<CardId>)
    requires forall k :: 0 <= k < |hand| && hand[k].code == ExplosiveHolder ==> hand[k].id !in ids
    ensures Count(Without(hand, ids), Explosive) <= Count(hand, Explosive)
    ensures Count(Without(hand, ids), ExplosiveHolder) == Count(hand, ExplosiveHolder)
  {
    if hand != [] {
      var front, last := hand[..|hand| - 1], hand[|hand| - 1];
      WithoutSafe(front, ids);
      CountAppend(Without(front, ids), [last], Explosive);
      CountAppend(Without(front, ids), [last], ExplosiveHolder);
      CountOne(last, Explosive);
      CountOne(last, ExplosiveHolder);
      assert Without(front, ids) + [] == Without(front, ids);
    }
  }

  /** No combo ever spends the explosive holder: a second equal card does not exist. */
  lemma ComboSparesHolder(hand: seq<Card>, ids: seq<CardId>, requested: Option<Code>)
    requires IdsError(hand, ids) == NoError && ComboOf(hand, Picked(hand, ids), requested) != NoCombo
    requires forall c, d :: c in hand && d in hand && c.code == ExplosiveHolder && d.code == ExplosiveHolder ==> c == d
    requires forall c, d :: c in hand && d in hand && c.id == d.id ==> c == d
    ensures forall k :: 0 <= k < |hand| && hand[k].code == ExplosiveHolder ==> hand[k].id !in ids
  {
    IdsAccepted(hand, ids);
    DistinctPairs(ids);
    PickedCards(hand, ids);
    var cards := Picked(hand, ids);
    forall k | 0 <= k < |hand| && hand[k].code == ExplosiveHolder ensures hand[k].id !in ids {
      if i :| 0 <= i < |ids| && ids[i] == hand[k].id {
        var j := if i == 0 then 1 else 0;
        assert cards[i] in hand && cards[j] in hand;
        HolderNeedsTwin(hand, cards, requested, i, j);
      }
    }
  }

  lemma HolderNeedsTwin(hand: seq<Card>, cards: seq<Card>, requested: Option<Code>, i: nat, j: nat)
    requires ComboOf(hand, cards, requested) != NoCombo
    requires i < |cards| && j < |cards| && cards[i].code == ExplosiveHolder
    ensures cards[j].code == ExplosiveHolder
  {
  }

  lemma HandIsFair(s: State, i: nat)
    requires i < |s.players| && Fair(AllCards(s))
    ensures Fair(multiset(s.players[i].hand))
  {
    forall c, d ensures FairPair(multiset(s.players[i].hand), c, d) {
      HandFairPair(s, i, c, d);
    }
  }

  lemma FairHand(hand: seq<Card>)
    requires Fair(multiset(hand))
    ensures forall c :: multiset(hand)[c] <= 1
    ensures forall c, d :: c in hand && d in hand && c.id == d.id ==> c == d
    ensures forall c, d :: c in hand && d in hand && c.code == ExplosiveHolder && d.code == ExplosiveHolder ==> c == d
  {
    forall c, d | c in hand && d in hand
      ensures multiset(hand)[c] <= 1
      ensures c.id == d.id ==> c == d
      ensures c.code == ExplosiveHolder && d.code == ExplosiveHolder ==> c == d
    {
      assert FairPair(multiset(hand), c, d);
    }
    forall c ensures multiset(hand)[c] <= 1 {
      if c in hand { assert FairPair(multiset(hand), c, c); }
    }
  }

  lemma ComboHand(hand: seq<Card>, ids: seq<CardId>, requested: Option<Code>)
    requires IdsError(hand, ids) == NoError && ComboOf(hand, Picked(hand, ids), requested) != NoCombo
    requires Unsafe(hand) == 0
    requires Fair(multiset(hand))
    ensures Unsafe(Without(hand, ids)) == 0
    ensures multiset(Without(hand, ids)) + multiset(Picked(hand, ids)) == multiset(hand)
    ensures Picked(hand, ids) != []
  {
    FairHand(hand);
    ComboSparesHolder(hand, ids, requested);
    SparedIsSafe(hand, ids);
    PickedAndWithout(hand, ids);
  }

  lemma SparedIsSafe(hand: seq<Card>, ids: seq<CardId>)
    requires Unsafe(hand) == 0
    requires forall k :: 0 <= k < |hand| && hand[k].code == ExplosiveHolder ==> hand[k].id !in ids
    ensures Unsafe(Without(hand, ids)) == 0
  {
    WithoutSafe(hand, ids);
    CountPositive(hand, ExplosiveHolder);
    CountPositive(Without(hand, ids), ExplosiveHolder);
  }

  lemma ComboAccepted(s: State, p: PlayerId, ids: seq<CardId>, target: PlayerId, requested: Option<Code>, now: int)
    requires ComboGuard(s, p, ids, target, requested) == NoError
    ensures s.phase == PlayerTurn && s.current == p && IsAlive(s.players, p)
    ensures var i := Seat(s.players, p);
      var hand := s.players[i].hand;
      var kind := ComboOf(hand, Picked(hand, ids), requested);
      && IdsError(hand, ids) == NoError && kind != NoCombo
      && (kind in {Pair, Triple} ==> target != p && IsAlive(s.players, target))
      && (kind == Triple ==> requested.Some?)
      && ComboEffect(s, p, ids, target, requested, now)
          == OpenWindow(s, i, Without(hand, ids), ComboPending(s, p, hand, ids, target, requested, now))
  {
  }

  function ComboPending(s: State, p: PlayerId, hand: seq<Card>, ids: seq<CardId>, target: PlayerId,
        requested: Option<Code>, now: int): Pending {
    Prompt(s.nextPending + 1, p, CardCombo, Picked(hand, ids), target).(
      combo := ComboOf(hand, Picked(hand, ids), requested), requested := requested, expiresAt := now + CANCEL_WINDOW_MS)
  }

  lemma ComboKeeps(s: State, p: PlayerId, ids: seq<CardId>, target: PlayerId, requested: Option<Code>, now: int)
    requires Inv(s) && ComboGuard(s, p, ids, target, requested) == NoError
    ensures var t := ComboEffect(s, p, ids, target, requested, now); Inv(t) && Follows(s, t)
  {
    ComboAccepted(s, p, ids, target, requested, now);
    var i := Seat(s.players, p);
    var hand := s.players[i].hand;
    NotRecycling(s);
    HandIsFair(s, i);
    ComboHand(hand, ids, requested);
    var t := ComboEffect(s, p, ids, target, requested, now);
    OpenWindowKeeps(s, t, i, Without(hand, ids), ComboPending(s, p, hand, ids, target, requested, now));
  }

  // ------------------------------------------------------- the cancel window

  lemma CancelAccepted(s: State, p: PlayerId, card: CardId, pendingId: nat)
    requires CancelGuard(s, p, card, pendingId) == NoError
    ensures s.phase == CancelWindow && s.pending.Some? && IsAlive(s.players, p)
    ensures var hand := s.players[Seat(s.players, p)].hand;
      CancelSlot(hand, card) >= 0 && hand[CancelSlot(hand, card)].code == Cancel
  {
  }

  /** A cancel spends card `j` of seat `i`. */
  lemma CancelShape(s: State, p: PlayerId, card: CardId, pendingId: nat) returns (i: nat, j: nat)
    requires CancelGuard(s, p, card, pendingId) == NoError
    ensures i < |s.players| && s.players[i].alive && j < |s.players[i].hand| && s.players[i].hand[j].code == Cancel
    ensures s.phase == CancelWindow && s.pending.Some?
    ensures CancelEffect(s, p, card, pendingId) ==
      Tick(SetHand(s, i, RemoveAt(s.players[i].hand, j)).(
           discard := s.discard + [s.players[i].hand[j]],
           pending := Some(s.pending.value.(cancels := s.pending.value.cancels + 1))), 2)
  {
    CancelAccepted(s, p, card, pendingId);
    i := Seat(s.players, p);
    j := CancelSlot(s.players[i].hand, card);
  }

  lemma CancelKeeps(s: State, p: PlayerId, card: CardId, pendingId: nat)
    requires Inv(s) && CancelGuard(s, p, card, pendingId) == NoError
    ensures var t := CancelEffect(s, p, card, pendingId); Inv(t) && Follows(s, t)
  {
    var i, j := CancelShape(s, p, card, pendingId);
    SpendCancelKeeps(s, CancelEffect(s, p, card, pendingId), i, j);
  }

  lemma SpendCancelKeeps(s: State, t: State, i: nat, j: nat)
    requires Inv(s) && s.phase == CancelWindow && s.pending.Some?
    requires i < |s.players| && s.players[i].alive && j < |s.players[i].hand| && s.players[i].hand[j].code == Cancel
    requires t == Tick(SetHand(s, i, RemoveAt(s.players[i].hand, j)).(
      discard := s.discard + [s.players[i].hand[j]],
      pending := Some(s.pending.value.(cancels := s.pending.value.cancels + 1))), 2)
    ensures Inv(t) && Follows(s, t)
  {
    var hand := s.players[i].hand;
    NotRecycling(s);
    MultisetRemoveAt(hand, j);
    UnsafeShield(hand, j);
    HandShrinks(s, t, i, RemoveAt(hand, j));
    SameTurn(s, t);
    SameSeatsAlive(s.players, t.players);
    OnlySeatChanges(s.players, i, t.players[i]);
    SafeContained(t.players, t.pending);
    DiscardOne(s, t, i, j);
    StillCancelable(s, t);
  }

  lemma StillCancelable(s: State, t: State)
    requires s.phase == CancelWindow && s.pending.Some? && WindowOk(s, s.pending.value)
    requires SameSeats(s.players, t.players)
    requires t.phase == s.phase && t.current == s.current && t.draw == s.draw && t.discard != []
    requires t.pending == Some(s.pending.value.(cancels := s.pending.value.cancels + 1))
    ensures PendingOk(t)
  {
    SameSeatsAlive(s.players, t.players);
  }

  /** One card from a hand to the discard pile. */
  lemma DiscardOne(s: State, t: State, i: nat, j: nat)
    requires i < |s.players| && j < |s.players[i].hand|
    requires t.players == s.players[i := s.players[i].(hand := RemoveAt(s.players[i].hand, j))]
    requires t.draw == s.draw && t.discard == s.discard + [s.players[i].hand[j]] && t.queue == s.queue
    requires LimboCards(t.pending) == LimboCards(s.pending)
    ensures AllCards(t) == AllCards(s)
  {
    var hand := s.players[i].hand;
    MultisetRemoveAt(hand, j);
    assert Outside(t) == Outside(s) + multiset{hand[j]};
    assert Outside(t) + multiset(RemoveAt(hand, j)) == Outside(s) + multiset(hand) + multiset{};
    ReplaceHand(s, t, i, t.players[i], multiset{});
  }

  /** Closing the window without effect leaves a player's turn. */
  lemma WindowCloses(s: State)
    requires Inv(s) && ResolveGuard(s) == NoError
    ensures var t := Tick(s.(pending := None, phase := PlayerTurn), 1);
      Ready(t) && AllSafe(t.players) && AllCards(t) == AllCards(s) && Inv(t)
  {
    var t := Tick(s.(pending := None, phase := PlayerTurn), 1);
    NotRecycling(s);
    assert Outside(t) == Outside(s);
    SameTurn(s, t);
    ReadyInv(t);
  }

  /** A prompt that holds only copies of cards. */
  lemma AskKeeps(s: State, p: Pending, phase: Phase, events: nat)
    requires Ready(s) && AllSafe(s.players) && phase != GameOver
    requires LimboCards(Some(p)) == multiset{}
    requires PendingOk(s.(phase := phase, pending := Some(p)))
    ensures var t := Ask(s, p, phase, events); Inv(t) && Follows(s, t)
  {
    var t := Ask(s, p, phase, events);
    assert Outside(t) == Outside(s);
    SafeContained(t.players, t.pending);
    SameTurn(s, t);
  }

  lemma SamePileKeeps(s: State, t: State)
    requires Ready(s) && AllSafe(s.players)
    requires t == s.(draw := t.draw, eventSeq := t.eventSeq) && multiset(t.draw) == multiset(s.draw)
    ensures Inv(t) && Follows(s, t)
  {
    assert Outside(t) == Outside(s);
    SameTurn(s, t);
    ReadyInv(t);
  }

  lemma DrawBottomKeeps(s: State, source: PlayerId)
    requires Ready(s) && AllSafe(s.players) && source == s.current && s.draw != []
    ensures var o := DrawBottom(s, source); o.error == NoError && Inv(o.state) && Follows(s, o.state)
  {
    var n := |s.draw| - 1;
    var s1 := s.(draw := s.draw[..n]);
    assert RemoveAt(s.draw, n) == s.draw[..n];
    TakeFromPile(s, s1, n);
    FairSub(AllCards(s1), AllCards(s));
    DrawnKeeps(s1, Seat(s.players, source), s.draw[n]);
  }

  /** The eligible players are exactly the living ones with cards, each listed once. */
  lemma {:induction false} EligibleList(players: seq<Player>)
    requires DistinctPlayers(players)
    ensures forall id :: id in Eligible(players) <==> IsAlive(players, id) && HandOf(players, id) != []
    ensures Distinct(Eligible(players)) && |Eligible(players)| <= |players|
  {
    forall id ensures id in Eligible(players) <==> IsAlive(players, id) && HandOf(players, id) != [] {
      EligibleMember(players, id);
    }
    if players != [] {
      var front, last := players[..|players| - 1], players[|players| - 1];
      FrontDistinct(players);
      EligibleList(front);
      assert !IsAlive(front, last.id);
      assert Eligible(front) + [] == Eligible(front);
      if last.alive && last.hand != [] { DistinctAppend(Eligible(front), last.id); }
    }
  }

  lemma {:induction false} EligibleMember(players: seq<Player>, id: PlayerId)
    requires DistinctPlayers(players)
    ensures id in Eligible(players) <==> IsAlive(players, id) && HandOf(players, id) != []
  {
    if players != [] {
      FrontDistinct(players);
      EligibleMember(players[..|players| - 1], id);
      SeatFront(players, id);
    }
  }

  lemma FrontDistinct(players: seq<Player>)
    requires players != [] && DistinctPlayers(players)
    ensures DistinctPlayers(players[..|players| - 1])
    ensures Seat(players[..|players| - 1], players[|players| - 1].id) < 0
  {
    var front, last := players[..|players| - 1], players[|players| - 1];
    forall i: int, j: int {:trigger Differ(front, i, j)} ensures Differ(front, i, j) {
      assert Differ(players, i, j);
    }
    assert Differ(players, Seat(front, last.id), |front|);
  }

  lemma SeatFront(players: seq<Player>, id: PlayerId)
    requires players != []
    ensures var front, last := players[..|players| - 1], players[|players| - 1];
      Seat(players, id) == if Seat(front, id) >= 0 then Seat(front, id) else if id == last.id then |front| else -1
  {
    var front := players[..|players| - 1];
    var i, j := Seat(players, id), Seat(front, id);
    if i >= 0 && i < |front| { assert front[i].id == id; }
    if j >= 0 { assert players[j].id == id; }
  }

  function RecyclePrompt(s: State, source: PlayerId): Pending {
    Prompt(s.nextPending + 1, source, RecycleChoices, [], 0).(recyclers := Eligible(s.players))
  }

  lemma OfferRecycleShape(s: State, source: PlayerId, rnd: Random)
    ensures OfferRecycle(s, source, rnd) ==
      if Eligible(s.players) == [] then s.(draw := Shuffled(s.draw, rnd))
      else Ask(s, RecyclePrompt(s, source), WaitingRecycleChoices, |Eligible(s.players)|)
  {
  }

  lemma OfferRecycleKeeps(s: State, source: PlayerId, rnd: Random)
    requires Ready(s) && AllSafe(s.players) && source == s.current
    ensures var t := OfferRecycle(s, source, rnd); Inv(t) && Follows(s, t)
  {
    OfferRecycleShape(s, source, rnd);
    if Eligible(s.players) == [] {
      ShuffledPermutes(s.draw, rnd);
      SamePileKeeps(s, s.(draw := Shuffled(s.draw, rnd)));
    } else {
      AskRecycleKeeps(s, RecyclePrompt(s, source), |Eligible(s.players)|);
    }
  }

  lemma AskRecycleKeeps(s: State, p: Pending, events: nat)
    requires Ready(s) && AllSafe(s.players) && p.source == s.current
    requires p.kind == RecycleChoices && p.recyclers == Eligible(s.players) != [] && p.selections == map[]
    ensures var t := Ask(s, p, WaitingRecycleChoices, events); Inv(t) && Follows(s, t)
  {
    NothingSelected(p.recyclers);
    RecycleOpens(s, p);
    RecycleWaits(s, s.(phase := WaitingRecycleChoices, pending := Some(p)), p);
    AskKeeps(s, p, WaitingRecycleChoices, events);
  }

  lemma RecycleWaits(s: State, t: State, p: Pending)
    requires RecycleOk(s, p) && t == s.(phase := WaitingRecycleChoices, pending := Some(p)) && p.kind == RecycleChoices
    ensures PendingOk(t)
  {
  }

  lemma RecycleOpens(s: State, p: Pending)
    requires DistinctPlayers(s.players) && p.source == s.current && p.recyclers == Eligible(s.players) != []
    requires p.selections == map[]
    ensures RecycleOk(s, p)
  {
    EligibleList(s.players);
  }

  lemma {:induction false} NothingSelected(ids: seq<PlayerId>)
    ensures Selected(ids, map[]) == []
  {
    if ids != [] {
      NothingSelected(ids[..|ids| - 1]);
    }
  }

  lemma SkipAllReady(s: State, source: PlayerId)
    requires Ready(s) && source == s.current
    ensures var t := Advance(s.(debt := s.debt[source := 0]));
        Ready(t) && AllCards(t) == AllCards(s) && t.players == s.players
  {
    var s1 := s.(debt := s.debt[source := 0]);
    assert AllCards(s1) == AllCards(s);
    AdvanceReady(s1);
  }

  lemma ForceReady(s: State, source: PlayerId)
    requires Ready(s) && source == s.current
    ensures var o := ForceTurns(s, source);
      o.error == NoError && Ready(o.state) && AllCards(o.state) == AllCards(s) && o.state.players == s.players
  {
    NextIsOther(s.players, source);
    LoadReady(s, source, NextAlive(s.players, source).value);
  }

  /** Each of the turn cards, and what it does. */
  lemma TurnCardShape(s: State, code: Code, source: PlayerId, target: PlayerId, rnd: Random)
    requires code in {SkipTurn, SkipAllTurns, ForceExtraTurns, TargetExtraTurns}
    ensures ResolveCard(s, code, source, target, rnd) ==
      if code == SkipTurn then Ok(CompleteTurn(s))
      else if code == SkipAllTurns then Ok(Advance(s.(debt := s.debt[source := 0])))
      else if code == ForceExtraTurns then ForceTurns(s, source)
      else Ok(LoadTurns(s, source, target))
  {
  }

  lemma TurnCardReady(s: State, code: Code, source: PlayerId, target: PlayerId, rnd: Random)
    requires Ready(s) && source == s.current
    requires code in {SkipTurn, SkipAllTurns, ForceExtraTurns, TargetExtraTurns}
    requires code == TargetExtraTurns ==> Other(s, target)
    ensures var o := ResolveCard(s, code, source, target, rnd);
      o.error == NoError && Ready(o.state) && AllCards(o.state) == AllCards(s) && o.state.players == s.players
  {
    TurnCardShape(s, code, source, target, rnd);
    if code == SkipTurn {
      CompleteReady(s);
    } else if code == SkipAllTurns {
      SkipAllReady(s, source);
    } else if code == ForceExtraTurns {
      ForceReady(s, source);
    } else {
      LoadReady(s, source, target);
    }
  }

  lemma TurnCardKeeps(s: State, code: Code, source: PlayerId, target: PlayerId, rnd: Random)
    requires Ready(s) && AllSafe(s.players) && source == s.current
    requires code in {SkipTurn, SkipAllTurns, ForceExtraTurns, TargetExtraTurns}
    requires code == TargetExtraTurns ==> Other(s, target)
    ensures var o := ResolveCard(s, code, source, target, rnd);
        o.error == NoError && Inv(o.state) && Follows(s, o.state)
  {
    TurnCardReady(s, code, source, target, rnd);
    ReadyInv(ResolveCard(s, code, source, target, rnd).state);
  }

  lemma ShuffleShape(s: State, source: PlayerId, target: PlayerId, rnd: Random)
    ensures ResolveCard(s, ShuffleDeck, source, target, rnd) == Ok(s.(draw := Shuffled(s.draw, rnd)))
  {
  }

  lemma PeekShape(s: State, code: Code, source: PlayerId, target: PlayerId, rnd: Random)
    requires code in {PeekDeck, PeekDeck5}
    ensures ResolveCard(s, code, source, target, rnd) == Ok(Tick(s, 1))
  {
  }

  lemma SwapShape(s: State, source: PlayerId, target: PlayerId, rnd: Random)
    ensures ResolveCard(s, SwapTopBottom, source, target, rnd)
         == Ok(s.(draw := if |s.draw| > 1 then Swapped(s.draw, 0, |s.draw| - 1) else s.draw))
  {
  }

  /** These cards touch at most the order of the draw pile. */
  lemma PileCardShape(s: State, code: Code, source: PlayerId, target: PlayerId, rnd: Random)
    requires code in {ShuffleDeck, PeekDeck, PeekDeck5, SwapTopBottom}
    ensures var o := ResolveCard(s, code, source, target, rnd);
      && o.error == NoError && o.state == s.(draw := o.state.draw, eventSeq := o.state.eventSeq)
      && multiset(o.state.draw) == multiset(s.draw)
  {
    if code == ShuffleDeck {
      ShuffleShape(s, source, target, rnd);
      ShuffledPermutes(s.draw, rnd);
    } else if code == SwapTopBottom {
      SwapShape(s, source, target, rnd);
      if |s.draw| > 1 { EndsSwapped(s.draw); }
    } else {
      PeekShape(s, code, source, target, rnd);
    }
  }

  lemma EndsSwapped(draw: seq<Card>)
    requires |draw| > 1
    ensures multiset(Swapped(draw, 0, |draw| - 1)) == multiset(draw)
  {
    MultisetSwap(draw, 0, |draw| - 1);
  }

  lemma PileCardKeeps(s: State, code: Code, source: PlayerId, target: PlayerId, rnd: Random)
    requires Ready(s) && AllSafe(s.players)
    requires code in {ShuffleDeck, PeekDeck, PeekDeck5, SwapTopBottom}
    ensures var o := ResolveCard(s, code, source, target, rnd);
      o.error == NoError && Inv(o.state) && Follows(s, o.state)
  {
    PileCardShape(s, code, source, target, rnd);
    SamePileKeeps(s, ResolveCard(s, code, source, target, rnd).state);
  }

  lemma AskTargetKeeps(s: State, p: Pending, phase: Phase)
    requires Ready(s) && AllSafe(s.players) && p.source == s.current && Other(s, p.target)
    requires (phase == WaitingRequestCardChoice && p.kind == RequestCardChoice)
        || (phase == WaitingMarkedCardChoice && p.kind == MarkedCardChoice)
    ensures var t := Ask(s, p, phase, 1); Inv(t) && Follows(s, t)
  {
    AskKeeps(s, p, phase, 1);
  }

  lemma AskCardShape(s: State, code: Code, source: PlayerId, target: PlayerId, rnd: Random)
    requires code in {RequestCard, RevealHeldCard}
    ensures ResolveCard(s, code, source, target, rnd) ==
      Ok(Ask(s, Prompt(s.nextPending + 1, source,
                       if code == RequestCard then RequestCardChoice else MarkedCardChoice, [], target),
             if code == RequestCard then WaitingRequestCardChoice else WaitingMarkedCardChoice, 1))
  {
  }

  lemma AskCardKeeps(s: State, code: Code, source: PlayerId, target: PlayerId, rnd: Random)
    requires Ready(s) && AllSafe(s.players) && source == s.current && Other(s, target)
    requires code in {RequestCard, RevealHeldCard}
    ensures var o := ResolveCard(s, code, source, target, rnd);
      o.error == NoError && Inv(o.state) && Follows(s, o.state)
  {
    AskCardShape(s, code, source, target, rnd);
    AskTargetKeeps(s, Prompt(s.nextPending + 1, source,
                             if code == RequestCard then RequestCardChoice else MarkedCardChoice, [], target),
                   if code == RequestCard then WaitingRequestCardChoice else WaitingMarkedCardChoice);
  }

  lemma CardKeeps(s: State, code: Code, source: PlayerId, target: PlayerId, rnd: Random)
    requires Ready(s) && AllSafe(s.players) && source == s.current && IsSupportedAction(code)
    requires code in {TargetExtraTurns, RequestCard, RevealHeldCard} ==> Other(s, target)
    requires code == DrawFromBottom ==> s.draw != []
    ensures var o := ResolveCard(s, code, source, target, rnd);
      o.error == NoError && Inv(o.state) && Follows(s, o.state)
  {
    if code in {SkipTurn, SkipAllTurns, ForceExtraTurns, TargetExtraTurns} {
      TurnCardKeeps(s, code, source, target, rnd);
    } else if code in {RequestCard, RevealHeldCard} {
      AskCardKeeps(s, code, source, target, rnd);
    } else if code == DrawFromBottom {
      DrawBottomKeeps(s, source);
    } else if code == CollectiveRecycle {
      OfferRecycleKeeps(s, source, rnd);
    } else if code in {ReorderTop3, ReorderTop5} {
      OfferReorderKeeps(s, source, if code == ReorderTop3 then 3 else 5);
    } else {
      PileCardKeeps(s, code, source, target, rnd);
    }
  }

  lemma OfferReorderKeeps(s: State, source: PlayerId, limit: nat)
    requires Ready(s) && AllSafe(s.players) && source == s.current
    ensures var t := OfferReorder(s, source, limit); Inv(t) && Follows(s, t)
  {
    var cards := Top(s.draw, limit);
    if cards == [] {
      ReadyInv(s);
    } else {
      AskKeeps(s, Prompt(s.nextPending + 1, source, DeckReorder, cards, 0), WaitingDeckReorder, 1);
    }
  }
}
