/** Thefts, prompts and recycles keep the invariant; with these, every step does. */
module Prompts {
  import opened Cards
  import opened Shuffling
  import opened Table
  import opened Rules
  import opened Invariant
  import opened Turns
  import opened Preserve

  // ------------------------------------------------------------------ theft

  lemma MoveShape(s: State, m: State, i: nat, j: nat, k: nat)
    requires Ready(s) && i < |s.players| && k < |s.players| && i != k && j < |s.players[i].hand|
    requires s.players[k].alive && m == Move(s, i, j, k)
    ensures Ready(m) && AllCards(m) == AllCards(s) && SameSeats(s.players, m.players)
  {
    var hand := s.players[i].hand;
    var c, rest := hand[j], RemoveAt(hand, j);
    var a := SetHand(s, i, rest);
    MultisetRemoveAt(hand, j);
    HandShrinks(s, a, i, rest);
    assert Outside(a) + multiset(rest) + multiset{c} == Outside(s) + multiset(hand);
    TakeFromHand(s, a, i, rest, c);
    FairSub(AllCards(a), AllCards(s));
    SameTurn(s, a);
    GiveKeeps(a, m, k, c);
  }

  lemma TakeFromHand(s: State, a: State, i: nat, rest: seq<Card>, c: Card)
    requires i < |s.players| && a.players == s.players[i := s.players[i].(hand := rest)] && Outside(a) == Outside(s)
    requires multiset(rest) + multiset{c} == multiset(s.players[i].hand)
    ensures AllCards(a) + multiset{c} == AllCards(s)
  {
    HandCardsUpdate(a.players, i, s.players[i]);
    assert a.players[i := s.players[i]] == s.players;
    assert HandCards(s.players) + multiset(rest) == HandCards(a.players) + multiset(s.players[i].hand);
    assert HandCards(s.players) + multiset(rest) == (HandCards(a.players) + multiset{c}) + multiset(rest);
    CancelMultiset(HandCards(s.players), HandCards(a.players) + multiset{c}, multiset(rest));
  }

  /** After a theft only the victim who lost the holder, or the thief who took an explosive, can be loose. */
  lemma MoveLoose(players: seq<Player>, after: seq<Player>, i: nat, j: nat, k: nat)
    requires AllSafe(players) && i < |players| && k < |players| && i != k && j < |players[i].hand|
    requires var c := players[i].hand[j];
      after == players[i := players[i].(hand := RemoveAt(players[i].hand, j))]
                      [k := players[k].(hand := players[k].hand + [c])]
    ensures OneLoose(after, if players[i].hand[j].code == ExplosiveHolder then i else k)
  {
    UnsafeRemove(players[i].hand, j);
    UnsafeGive(players[k].hand, players[i].hand[j]);
  }

  lemma StealKeeps(s: State, from: PlayerId, to: PlayerId, j: nat)
    requires Ready(s) && AllSafe(s.players) && IsAlive(s.players, from) && IsAlive(s.players, to) && from != to
    requires j < |HandOf(s.players, from)|
    ensures var t := Steal(s, from, to, j); Inv(t) && Follows(s, t)
  {
    var i, k := Seat(s.players, from), Seat(s.players, to);
    var m := Move(s, i, j, k);
    MoveShape(s, m, i, j, k);
    MoveLoose(s.players, m.players, i, j, k);
    var u := if s.players[i].hand[j].code == ExplosiveHolder then i else k;
    assert m.players[u].id in [from, to];
    ResolveKeeps(m, [from, to], u);
    SameSeatsAlive(s.players, m.players);
  }

  // ------------------------------------------------------- resolving windows

  /** The error a pair meets when its target has spent the last card on a cancel. */
  ghost predicate PairFizzles(s: State) {
    && s.phase == CancelWindow && s.pending.Some? && s.pending.value.kind == CardCombo
    && s.pending.value.combo == Pair && s.pending.value.cancels % 2 == 0
    && HandOf(s.players, s.pending.value.target) == []
  }

  lemma TheftResolves(s: State, p: Pending, rnd: Random)
    requires Ready(s) && AllSafe(s.players) && p.source == s.current && p.combo in {Pair, Triple}
    requires Other(s, p.target) && (p.combo == Triple ==> p.requested.Some?)
    ensures var o := ResolveCombo(s, p, rnd);
      && Inv(o.state) && Follows(s, o.state)
      && (if p.combo == Pair && HandOf(s.players, p.target) == [] then o == Outcome(s, InvalidTarget)
          else o.error == NoError)
  {
    ReadyInv(s);
    var hand := HandOf(s.players, p.target);
    var j := if p.combo == Triple then IndexOfCode(hand, p.requested.value) else if hand == [] then -1
        else Intn(rnd, 0, |hand|);
    if j >= 0 {
      StealKeeps(s, p.target, p.source, j);
    }
  }

  lemma ComboResolves(s: State, p: Pending, rnd: Random)
    requires Ready(s) && AllSafe(s.players) && p.source == s.current && p.combo != NoCombo
    requires p.combo in {Pair, Triple} ==> Other(s, p.target)
    requires p.combo == Triple ==> p.requested.Some?
    requires p.combo == FiveDifferent ==> s.discard != []
    ensures var o := ResolveCombo(s, p, rnd);
      && Inv(o.state) && Follows(s, o.state)
      && (if p.combo == Pair && HandOf(s.players, p.target) == [] then o == Outcome(s, InvalidTarget)
          else o.error == NoError)
  {
    if p.combo == FiveDifferent {
      AskKeeps(s, Prompt(s.nextPending + 1, p.source, DiscardRecovery, p.cards, 0).(combo := p.combo),
               WaitingDiscardRecovery, 1);
    } else {
      TheftResolves(s, p, rnd);
    }
  }

  /** What a window does when the action goes through. */
  lemma WindowTakesEffect(s: State, s1: State, p: Pending, rnd: Random)
    requires InPlay(s) && PendingOk(s) && s.phase == CancelWindow && s.pending == Some(p)
    requires s1 == Tick(s.(pending := None, phase := PlayerTurn), 1) && Ready(s1) && AllSafe(s1.players)
    ensures var o := if p.kind == PlayedCard then ResolveCard(s1, p.cards[0].code, p.source, p.target, rnd)
        else ResolveCombo(s1, p, rnd);
      && Inv(o.state) && Follows(s1, o.state)
      && (if p.kind == CardCombo && p.combo == Pair && HandOf(s.players, p.target) == []
          then o == Outcome(s1, InvalidTarget)
          else o.error == NoError)
  {
    if p.kind == PlayedCard {
      CardKeeps(s1, p.cards[0].code, p.source, p.target, rnd);
    } else {
      ComboResolves(s1, p, rnd);
    }
  }

  /** A window resolves without error except for a pair whose target has no card left. */
  lemma WindowResolves(s: State, rnd: Random)
    requires Inv(s) && ResolveGuard(s) == NoError
    ensures var o := ResolveEffect(s, rnd);
      && Inv(o.state) && Follows(s, o.state)
      && (o.error != NoError <==> PairFizzles(s))
      && (PairFizzles(s) ==> o == Outcome(Tick(s.(pending := None, phase := PlayerTurn), 1), InvalidTarget))
  {
    WindowCloses(s);
    if s.pending.value.cancels % 2 == 0 {
      WindowTakesEffect(s, Tick(s.(pending := None, phase := PlayerTurn), 1), s.pending.value, rnd);
    }
  }

  // ---------------------------------------------------------------- prompts

  /** Answering a prompt that holds no cards of its own. */
  lemma PromptCloses(s: State, s1: State)
    requires Inv(s) && s.phase !in {GameOver, WaitingRecycleChoices, WaitingExplosivePlacement}
    requires s1 == Tick(s.(pending := None, phase := PlayerTurn), 1)
    ensures Ready(s1) && AllSafe(s1.players) && AllCards(s1) == AllCards(s)
  {
    NoLimbo(s);
    NotRecycling(s);
    assert Outside(s1) == Outside(s);
    SameTurn(s, s1);
  }

  lemma NoLimbo(s: State)
    requires PendingOk(s) && s.phase !in {GameOver, WaitingRecycleChoices, WaitingExplosivePlacement}
    ensures LimboCards(s.pending) == multiset{} && (s.pending.Some? ==> s.pending.value.kind != RecycleChoices)
  {
  }

  lemma RequestKeeps(s: State, p: PlayerId, card: CardId)
    requires Inv(s) && RequestGuard(s, p, card) == NoError
    ensures var t := RequestEffect(s, p, card); Inv(t) && Follows(s, t)
  {
    var s1 := Tick(s.(pending := None, phase := PlayerTurn), 1);
    PromptCloses(s, s1);
    StealKeeps(s1, p, s.pending.value.source, IndexOfId(HandOf(s.players, p), card));
  }

  lemma MarkKeeps(s: State, p: PlayerId, card: CardId)
    requires Inv(s) && MarkGuard(s, p, card) == NoError
    ensures var t := MarkEffect(s, p, card); Inv(t) && Follows(s, t)
  {
    var s1 := Tick(s.(pending := None, phase := PlayerTurn), 1);
    PromptCloses(s, s1);
    var i := Seat(s.players, s.pending.value.target);
    var c := s.players[i].hand[IndexOfId(s.players[i].hand, card)];
    MarkedReady(s1, i, c);
  }

  lemma MarkedReady(s: State, i: nat, c: Card)
    requires Ready(s) && AllSafe(s.players) && i < |s.players| && c in s.players[i].hand
    ensures var t := s.(marks := s.marks[c.id := Mark(c.id, s.players[i].id, c)]); Inv(t) && AllCards(t) == AllCards(s)
  {
    var t := s.(marks := s.marks[c.id := Mark(c.id, s.players[i].id, c)]);
    SeatOf(s.players, i);
    assert Outside(t) == Outside(s);
    forall id | id in t.marks ensures MarkOk(t.players, id, t.marks[id]) {
      if id != c.id { assert MarkOk(s.players, id, s.marks[id]); }
    }
    SameTurn(s, t);
    ReadyInv(t);
  }

  // ---------------------------------------------------------------- reorder

  /** Picking all ids of a pile, in any order, permutes the pile. */
  lemma PickedPermutes(cards: seq<Card>, ids: seq<CardId>)
    requires DistinctIds(cards) && multiset(ids) == multiset(IdsOf(cards))
    ensures |Picked(cards, ids)| == |cards| && multiset(Picked(cards, ids)) == multiset(cards)
    ensures IdsOf(Picked(cards, ids)) == ids
  {
    PermutedIds(cards, ids);
    PickedCards(cards, ids);
    forall c ensures multiset(Picked(cards, ids))[c] == multiset(cards)[c] {
      PickedMatches(cards, ids, c);
    }
  }

  lemma PermutedIds(cards: seq<Card>, ids: seq<CardId>)
    requires DistinctIds(cards) && multiset(ids) == multiset(IdsOf(cards))
    ensures |ids| == |cards| && AllHeld(cards, ids) && Distinct(ids)
  {
    var all := IdsOf(cards);
    DistinctPairs(all);
    DistinctCounts(all);
    DistinctCounts(ids);
    assert |ids| == |multiset(ids)| == |multiset(all)| == |all|;
    forall id | id in ids ensures Held(cards, id) {
      assert id in multiset(all);
      var k :| 0 <= k < |all| && all[k] == id;
      assert cards[k].id == id;
    }
    AllHeldIf(cards, ids);
  }

  /** With distinct ids, a card is told by its id. */
  lemma ToldById(cards: seq<Card>, c: Card)
    requires DistinctIds(cards) && c in cards
    ensures forall d :: d in cards && d.id == c.id ==> d == c
    ensures multiset(cards)[c] == 1
  {
    DistinctPairs(cards);
    CountByDistinct(cards, c);
  }

  lemma IdIsListed(cards: seq<Card>, ids: seq<CardId>, c: Card)
    requires multiset(ids) == multiset(IdsOf(cards)) && c in cards
    ensures c.id in ids
  {
    var k :| 0 <= k < |cards| && cards[k] == c;
    assert IdsOf(cards)[k] in multiset(ids);
  }

  lemma PickedMatches(cards: seq<Card>, ids: seq<CardId>, c: Card)
    requires DistinctIds(cards) && multiset(ids) == multiset(IdsOf(cards))
    requires AllHeld(cards, ids) && Distinct(ids)
    ensures multiset(Picked(cards, ids))[c] == multiset(cards)[c]
  {
    if c in cards {
      ToldById(cards, c);
      IdIsListed(cards, ids, c);
      PickedCount(cards, ids, c);
    } else {
      NotPicked(cards, ids, c);
    }
  }

  lemma DrawDistinct(s: State)
    requires Fair(AllCards(s))
    ensures DistinctIds(s.draw)
  {
    forall x ensures multiset(s.draw)[x] <= 1 {
      assert multiset(s.draw)[x] <= AllCards(s)[x];
      assert FairPair(AllCards(s), x, x);
    }
    DistinctCounts(s.draw);
    DistinctPairs(s.draw);
    forall i, j | 0 <= i < j < |s.draw| ensures s.draw[i].id != s.draw[j].id {
      var c, d := s.draw[i], s.draw[j];
      assert multiset(s.draw)[c] <= AllCards(s)[c] && multiset(s.draw)[d] <= AllCards(s)[d];
      assert FairPair(AllCards(s), c, d);
    }
  }

  lemma ReorderPile(draw: seq<Card>, cards: seq<Card>, ids: seq<CardId>)
    requires cards <= draw && DistinctIds(draw) && multiset(ids) == multiset(IdsOf(cards))
    ensures multiset(Picked(cards, ids) + draw[|cards|..]) == multiset(draw)
  {
    PickedPermutes(cards, ids);
    assert draw == cards + draw[|cards|..];
  }

  lemma ReorderKeeps(s: State, p: PlayerId, ids: seq<CardId>)
    requires Inv(s) && ReorderGuard(s, p, ids) == NoError
    ensures var t := ReorderEffect(s, p, ids); Inv(t) && Follows(s, t)
  {
    var cards := s.pending.value.cards;
    var s1 := Tick(s.(pending := None, phase := PlayerTurn), 1);
    PromptCloses(s, s1);
    DrawDistinct(s);
    ReorderPile(s.draw, cards, ids);
    SamePileKeeps(s1, ReorderEffect(s, p, ids));
  }

  // ---------------------------------------------------------------- recycle

  lemma {:induction false} SelectedHas(recyclers: seq<PlayerId>, selections: map<PlayerId, Card>, q: PlayerId)
    requires q in recyclers && q in selections
    ensures selections[q] in Selected(recyclers, selections)
  {
    var front, last := recyclers[..|recyclers| - 1], recyclers[|recyclers| - 1];
    if last == q {
      assert Selected(recyclers, selections)[|Selected(front, selections)|] == selections[q];
    } else {
      assert q in front;
      SelectedHas(front, selections, q);
    }
  }

  /** Two players cannot both have given up the one explosive holder. */
  lemma OneGiver(s: State, p: PlayerId, q: PlayerId)
    requires Fair(AllCards(s)) && s.pending.Some? && s.pending.value.kind == RecycleChoices
    requires Distinct(s.pending.value.recyclers)
    requires Listed(s.pending.value.recyclers, s.pending.value.selections)
    requires GaveHolder(s.pending, p) && GaveHolder(s.pending, q)
    ensures p == q
  {
    var ids, sel := s.pending.value.recyclers, s.pending.value.selections;
    var chosen := multiset(Selected(ids, sel));
    SelectedHas(ids, sel, p);
    SelectedHas(ids, sel, q);
    assert chosen[sel[p]] <= AllCards(s)[sel[p]] && chosen[sel[q]] <= AllCards(s)[sel[q]];
    assert FairPair(AllCards(s), sel[p], sel[q]);
    if p != q {
      var fewer := sel - {p};
      assert sel == fewer[p := sel[p]];
      SelectedAdd(ids, fewer, p, sel[p]);
      SelectedHas(ids, fewer, q);
    }
  }

  lemma RecycleAccepted(s: State, p: PlayerId, card: CardId)
    requires PendingOk(s) && RecycleGuard(s, p, card) == NoError
    ensures s.phase == WaitingRecycleChoices && s.pending.Some? && s.pending.value.kind == RecycleChoices
    ensures p in s.pending.value.recyclers && p !in s.pending.value.selections && IsAlive(s.players, p)
    ensures Distinct(s.pending.value.recyclers)
    ensures Listed(s.pending.value.recyclers, s.pending.value.selections)
    ensures var i := Seat(s.players, p);
      && IndexOfId(s.players[i].hand, card) >= 0
      && Submit(s, p, card) == SetHand(s, i, RemoveAt(s.players[i].hand, IndexOfId(s.players[i].hand, card))).(
           pending := Some(s.pending.value.(
             selections := s.pending.value.selections[p := s.players[i].hand[IndexOfId(s.players[i].hand, card)]])))
  {
  }

  /** What a choice does to the table, whether or not it is the last one. */
  lemma SubmitTable(s: State, p: PlayerId, card: CardId)
    requires Inv(s) && RecycleGuard(s, p, card) == NoError
    ensures var t := Submit(s, p, card);
      && TableOk(t) && AllCards(t) == AllCards(s) && SameSeats(s.players, t.players) && InPlay(t)
      && Contained(t.players, t.pending)
  {
    RecycleAccepted(s, p, card);
    var i := Seat(s.players, p);
    ChoiceTable(s, Submit(s, p, card), i, IndexOfId(s.players[i].hand, card));
  }

  lemma ChoiceTable(s: State, t: State, i: nat, j: nat)
    requires TableOk(s) && Fair(AllCards(s)) && InPlay(s) && Contained(s.players, s.pending)
    requires i < |s.players| && j < |s.players[i].hand| && s.pending.Some? && s.pending.value.kind == RecycleChoices
    requires var pending := s.pending.value; var p, hand := s.players[i].id, s.players[i].hand;
      && p in pending.recyclers && p !in pending.selections
      && Distinct(pending.recyclers)
      && t == SetHand(s, i, RemoveAt(hand, j)).(
                pending := Some(pending.(selections := pending.selections[p := hand[j]])))
    ensures TableOk(t) && AllCards(t) == AllCards(s) && SameSeats(s.players, t.players) && InPlay(t)
    ensures Contained(t.players, t.pending)
  {
    MultisetRemoveAt(s.players[i].hand, j);
    HandShrinks(s, t, i, RemoveAt(s.players[i].hand, j));
    SameTurn(s, t);
    SubmitCards(s, t, i, j);
    SubmitContained(s, t, i, j);
  }

  lemma SubmitCards(s: State, t: State, i: nat, j: nat)
    requires i < |s.players| && j < |s.players[i].hand| && s.pending.Some? && s.pending.value.kind == RecycleChoices
    requires var pending := s.pending.value; var p, hand := s.players[i].id, s.players[i].hand;
      && p in pending.recyclers && p !in pending.selections
      && Distinct(pending.recyclers)
      && t.pending == Some(pending.(selections := pending.selections[p := hand[j]]))
      && t.players == s.players[i := s.players[i].(hand := RemoveAt(hand, j))]
    requires t.draw == s.draw && t.discard == s.discard && t.queue == s.queue
    ensures AllCards(t) == AllCards(s)
  {
    var pending := s.pending.value;
    var p, hand := s.players[i].id, s.players[i].hand;
    SelectedAdd(pending.recyclers, pending.selections, p, hand[j]);
    MultisetRemoveAt(hand, j);
    assert LimboCards(t.pending) == LimboCards(s.pending) + multiset{hand[j]};
    assert Outside(t) == Outside(s) + multiset{hand[j]};
    assert Outside(t) + multiset(RemoveAt(hand, j)) == Outside(s) + multiset(hand) + multiset{};
    ReplaceHand(s, t, i, t.players[i], multiset{});
  }

  lemma SubmitContained(s: State, t: State, i: nat, j: nat)
    requires DistinctPlayers(s.players) && Contained(s.players, s.pending) && i < |s.players| && j < |s.players[i].hand|
    requires s.pending.Some? && s.pending.value.kind == RecycleChoices && s.players[i].id !in s.pending.value.selections
    requires t.players == s.players[i := s.players[i].(hand := RemoveAt(s.players[i].hand, j))]
    requires t.pending
          == Some(s.pending.value.(selections := s.pending.value.selections[s.players[i].id := s.players[i].hand[j]]))
    ensures Contained(t.players, t.pending)
  {
    var hand := s.players[i].hand;
    assert SafeHand(hand, GaveHolder(s.pending, s.players[i].id));
    UnsafeRemove(hand, j);
    CountRemoveAt(hand, j, Explosive);
    forall k | 0 <= k < |t.players| ensures SafeHand(t.players[k].hand, GaveHolder(t.pending, t.players[k].id)) {
      assert SafeHand(s.players[k].hand, GaveHolder(s.pending, s.players[k].id));
      if k != i {
        SeatOf(s.players, i);
        SeatOf(s.players, k);
      }
    }
  }

  lemma ClosedReady(s: State, s1: State, t: State, rnd: Random)
    requires s1.pending.Some? && s1.pending.value.kind == RecycleChoices && TableOk(s1) && InPlay(s1)
    requires Fair(AllCards(s1))
    requires Distinct(s1.pending.value.recyclers)
    requires Listed(s1.pending.value.recyclers, s1.pending.value.selections)
    requires |s1.pending.value.selections| == |s1.pending.value.recyclers|
    requires t == Pooled(s1, rnd)
    ensures Ready(t) && AllCards(t) == AllCards(s1)
  {
    var p := s1.pending.value;
    KeysWithin(p.recyclers, p.selections);
    AllContribute(p.recyclers, p.selections);
    ShuffledPermutes(s1.draw + Selected(p.recyclers, p.selections), rnd);
    PoolJoins(s1, t, Selected(p.recyclers, p.selections));
    SameTurn(s1, t);
  }

  lemma PoolJoins(s: State, t: State, chosen: seq<Card>)
    requires LimboCards(s.pending) == multiset(chosen) && multiset(t.draw) == multiset(s.draw) + multiset(chosen)
    requires t.players == s.players && t.discard == s.discard && t.queue == s.queue && t.pending.None?
    ensures AllCards(t) == AllCards(s)
  {
    assert Outside(t) == Outside(s);
  }

  lemma CloseKeeps(s1: State, rnd: Random)
    requires s1.pending.Some? && s1.pending.value.kind == RecycleChoices && TableOk(s1) && InPlay(s1)
    requires Fair(AllCards(s1))
    requires Contained(s1.players, s1.pending)
    requires Distinct(s1.pending.value.recyclers)
    requires Listed(s1.pending.value.recyclers, s1.pending.value.selections)
    requires |s1.pending.value.selections| == |s1.pending.value.recyclers|
    ensures var t := CloseRecycle(s1, rnd); Inv(t) && Follows(s1, t)
  {
    var p := s1.pending.value;
    var t := Pooled(s1, rnd);
    ClosedReady(s1, s1, t, rnd);
    var u := LooseChooser(s1);
    ResolveKeeps(t, p.recyclers, u);
  }

  lemma LooseChooser(s: State) returns (u: nat)
    requires s.pending.Some? && s.pending.value.kind == RecycleChoices && Fair(AllCards(s)) && InPlay(s)
    requires DistinctPlayers(s.players)
    requires Contained(s.players, s.pending)
    requires Distinct(s.pending.value.recyclers)
    requires Listed(s.pending.value.recyclers, s.pending.value.selections)
    ensures u < |s.players| && OneLoose(s.players, u)
    ensures Unsafe(s.players[u].hand) == 0 || s.players[u].id in s.pending.value.recyclers
  {
    if v: nat :| v < |s.players| && GaveHolder(s.pending, s.players[v].id) {
      u := v;
      forall i | 0 <= i < |s.players| ensures Unsafe(s.players[i].hand) <= if i == u then 1 else 0 {
        assert SafeHand(s.players[i].hand, GaveHolder(s.pending, s.players[i].id));
        if GaveHolder(s.pending, s.players[i].id) {
          OneGiver(s, s.players[i].id, s.players[u].id);
          SeatOf(s.players, i);
          SeatOf(s.players, u);
        }
      }
    } else {
      u := Seat(s.players, s.current);
      forall i | 0 <= i < |s.players| ensures Unsafe(s.players[i].hand) == 0 {
        assert SafeHand(s.players[i].hand, GaveHolder(s.pending, s.players[i].id));
      }
    }
  }

  lemma ChoiceContinues(s: State, t: State, p: PlayerId)
    requires Inv(s) && s.phase == WaitingRecycleChoices && p in s.pending.value.recyclers
    requires p !in s.pending.value.selections
    requires TableOk(t) && AllCards(t) == AllCards(s) && SameSeats(s.players, t.players) && InPlay(t)
    requires Contained(t.players, t.pending)
    requires t.current == s.current && t.phase == s.phase
    requires forall k :: 0 <= k < |s.players| && s.players[k].id != p ==> t.players[k].hand == s.players[k].hand
    requires t.pending.Some? && t.pending == Some(s.pending.value.(selections := t.pending.value.selections))
    requires t.pending.value.selections.Keys == s.pending.value.selections.Keys + {p}
    requires |t.pending.value.selections| != |t.pending.value.recyclers|
    ensures Inv(t)
  {
    SubmitPending(s, t, p);
  }

  lemma LastChoice(s: State, s1: State, rnd: Random)
    requires Inv(s) && Fair(AllCards(s)) && SameSeats(s.players, s1.players) && AllCards(s1) == AllCards(s)
    requires s1.pending.Some? && s1.pending.value.kind == RecycleChoices && TableOk(s1) && InPlay(s1)
    requires Contained(s1.players, s1.pending)
    requires Distinct(s1.pending.value.recyclers) && Listed(s1.pending.value.recyclers, s1.pending.value.selections)
    requires |s1.pending.value.selections| == |s1.pending.value.recyclers|
    ensures var t := CloseRecycle(s1, rnd); Inv(t) && Follows(s, t)
  {
    CloseKeeps(s1, rnd);
    DescendsOn(s.players, s1.players, CloseRecycle(s1, rnd).players);
  }

  lemma RecycleShape(s: State, p: PlayerId, card: CardId, rnd: Random)
    requires RecycleGuard(s, p, card) == NoError
    ensures var s1 := Submit(s, p, card);
      && s1.pending.Some?
      && RecycleEffect(s, p, card, rnd) ==
           if |s1.pending.value.selections| == |s1.pending.value.recyclers| then CloseRecycle(s1, rnd) else s1
  {
  }

  /** A choice takes card `j` of seat `i` into the selections. */
  lemma SubmitShape(s: State, p: PlayerId, card: CardId) returns (i: nat, j: nat)
    requires RecycleGuard(s, p, card) == NoError
    ensures i < |s.players| && s.players[i].id == p && s.players[i].alive && j < |s.players[i].hand|
    ensures s.phase == WaitingRecycleChoices && s.pending.Some? && s.pending.value.kind == RecycleChoices
    ensures p in s.pending.value.recyclers && p !in s.pending.value.selections
    ensures Submit(s, p, card) == Chosen(s, i, j)
  {
    i := Seat(s.players, p);
    j := IndexOfId(s.players[i].hand, card);
  }

  function Chosen(s: State, i: nat, j: nat): State
    requires i < |s.players| && j < |s.players[i].hand| && s.pending.Some?
  {
    var pending := s.pending.value;
    SetHand(s, i, RemoveAt(s.players[i].hand, j)).(
      pending := Some(pending.(selections := pending.selections[s.players[i].id := s.players[i].hand[j]])))
  }

  lemma ChoiceWaits(s: State, p: PlayerId, card: CardId, s1: State)
    requires Inv(s) && RecycleGuard(s, p, card) == NoError && s1 == Submit(s, p, card)
    requires |s1.pending.value.selections| != |s1.pending.value.recyclers|
    ensures Inv(s1) && Follows(s, s1)
  {
    var i, j := SubmitShape(s, p, card);
    SubmitTable(s, p, card);
    SameSeatsDescend(s.players, s1.players);
    ChosenContinues(s, s1, p, i, j);
  }

  lemma ChosenContinues(s: State, s1: State, p: PlayerId, i: nat, j: nat)
    requires Inv(s) && s.phase == WaitingRecycleChoices && p in s.pending.value.recyclers
    requires p !in s.pending.value.selections
    requires i < |s.players| && s.players[i].id == p && j < |s.players[i].hand| && s1 == Chosen(s, i, j)
    requires TableOk(s1) && AllCards(s1) == AllCards(s) && SameSeats(s.players, s1.players) && InPlay(s1)
    requires Contained(s1.players, s1.pending)
    requires |s1.pending.value.selections| != |s1.pending.value.recyclers|
    ensures Inv(s1)
  {
    ChosenFacts(s, s1, p, i, j);
    ChoiceContinues(s, s1, p);
  }

  lemma ChosenFacts(s: State, s1: State, p: PlayerId, i: nat, j: nat)
    requires s.pending.Some? && i < |s.players| && s.players[i].id == p && j < |s.players[i].hand|
    requires s1 == Chosen(s, i, j)
    ensures s1.current == s.current && s1.phase == s.phase && |s1.players| == |s.players|
    ensures forall k :: 0 <= k < |s.players| && s.players[k].id != p ==> s1.players[k].hand == s.players[k].hand
    ensures s1.pending.Some? && s1.pending == Some(s.pending.value.(selections := s1.pending.value.selections))
    ensures s1.pending.value.selections.Keys == s.pending.value.selections.Keys + {p}
  {
  }

  lemma SubmitListed(s: State, p: PlayerId, card: CardId, s1: State)
    requires RecycleGuard(s, p, card) == NoError && s1 == Submit(s, p, card)
    requires Distinct(s.pending.value.recyclers) && Listed(s.pending.value.recyclers, s.pending.value.selections)
    ensures s1.pending.Some? && s1.pending.value.kind == RecycleChoices
    ensures Distinct(s1.pending.value.recyclers) && Listed(s1.pending.value.recyclers, s1.pending.value.selections)
  {
  }

  lemma RecycleKeeps(s: State, p: PlayerId, card: CardId, rnd: Random)
    requires Inv(s) && RecycleGuard(s, p, card) == NoError
    ensures var t := RecycleEffect(s, p, card, rnd); Inv(t) && Follows(s, t)
  {
    var s1 := Submit(s, p, card);
    RecycleShape(s, p, card, rnd);
    if |s1.pending.value.selections| == |s1.pending.value.recyclers| {
      RecycleAccepted(s, p, card);
      SubmitTable(s, p, card);
      SubmitListed(s, p, card, s1);
      LastChoice(s, s1, rnd);
    } else {
      ChoiceWaits(s, p, card, s1);
    }
  }

  lemma DescendsOn(a: seq<Player>, b: seq<Player>, c: seq<Player>)
    requires SameSeats(a, b) && Descends(b, c)
    ensures Descends(a, c)
  {
    SameSeatsAlive(a, b);
  }

  lemma SubmitPending(s: State, t: State, p: PlayerId)
    requires s.pending.Some? && RecycleOk(s, s.pending.value) && p in s.pending.value.recyclers
    requires p !in s.pending.value.selections
    requires SameSeats(s.players, t.players) && t.current == s.current && t.phase == WaitingRecycleChoices
    requires forall k :: 0 <= k < |s.players| && s.players[k].id != p ==> t.players[k].hand == s.players[k].hand
    requires t.pending.Some? && t.pending == Some(s.pending.value.(selections := t.pending.value.selections))
    requires t.pending.value.kind == RecycleChoices
    requires t.pending.value.selections.Keys == s.pending.value.selections.Keys + {p}
    requires |t.pending.value.selections| != |t.pending.value.recyclers|
    ensures PendingOk(t)
  {
    var q := t.pending.value;
    StillAlive(s.players, t.players, q.recyclers);
    StillHaveCards(s.players, t.players, p, q.recyclers, s.pending.value.selections, q.selections);
    KeysWithin(q.recyclers, q.selections);
  }

  lemma StillAlive(a: seq<Player>, b: seq<Player>, ids: seq<PlayerId>)
    requires SameSeats(a, b) && ChoosersAlive(a, ids)
    ensures ChoosersAlive(b, ids)
  {
    SameSeatsAlive(a, b);
  }

  lemma StillHaveCards(a: seq<Player>, b: seq<Player>, p: PlayerId, ids: seq<PlayerId>, sel: map<PlayerId, Card>,
        sel': map<PlayerId, Card>)
    requires SameSeats(a, b) && Listed(ids, sel) && ChoosersHaveCards(a, ids, sel) && sel'.Keys == sel.Keys + {p}
    requires p in ids
    requires forall k :: 0 <= k < |a| && a[k].id != p ==> b[k].hand == a[k].hand
    ensures ChoosersHaveCards(b, ids, sel') && Listed(ids, sel')
  {
    forall id | id in ids && id !in sel' ensures HandOf(b, id) != [] {
      assert id !in sel.Keys && id != p;
      SeatSame(a, b, id);
      assert HandOf(a, id) != [];
    }
    forall id | id in sel' ensures id in ids {
      assert id in sel'.Keys;
    }
  }

  // --------------------------------------------------------------- recovery

  lemma RecoverTakes(s: State, s0: State, j: nat)
    requires Inv(s) && s.phase == WaitingDiscardRecovery && j < |s.discard|
    requires s0 == Tick(s.(discard := RemoveAt(s.discard, j), pending := None, phase := PlayerTurn), 1)
    ensures TableOk(s0) && InPlay(s0) && AllSafe(s0.players) && AllCards(s0) + multiset{s.discard[j]} == AllCards(s)
  {
    NotRecycling(s);
    MultisetRemoveAt(s.discard, j);
    assert Outside(s0) + multiset{s.discard[j]} == Outside(s);
    SameTurn(s, s0);
  }

  lemma RecoverShape(s: State, p: PlayerId, card: CardId, j: nat, s0: State)
    requires RecoverGuard(s, p, card) == NoError && j == IndexOfId(s.discard, card)
    requires s0 == Tick(s.(discard := RemoveAt(s.discard, j), pending := None, phase := PlayerTurn), 1)
    ensures RecoverEffect(s, p, card) == ResolveUnsafe(Give(s0, Seat(s.players, p), s.discard[j]), s.current, [p])
  {
  }

  lemma RecoverKeeps(s: State, p: PlayerId, card: CardId)
    requires Inv(s) && RecoverGuard(s, p, card) == NoError
    ensures var t := RecoverEffect(s, p, card); Inv(t) && Follows(s, t)
  {
    var j := IndexOfId(s.discard, card);
    var s0 := Tick(s.(discard := RemoveAt(s.discard, j), pending := None, phase := PlayerTurn), 1);
    RecoverTakes(s, s0, j);
    RecoverShape(s, p, card, j, s0);
    RecoverGives(s0, Give(s0, Seat(s.players, p), s.discard[j]), Seat(s.players, p), s.discard[j]);
  }

  lemma RecoverGives(s: State, g: State, i: nat, c: Card)
    requires TableOk(s) && InPlay(s) && AllSafe(s.players) && s.pending.None? && s.phase == PlayerTurn
    requires i < |s.players| && s.players[i].alive && Fair(AllCards(s) + multiset{c}) && g == Give(s, i, c)
    ensures var t := ResolveUnsafe(g, s.current, [s.players[i].id]);
      Inv(t) && AllCards(t) == AllCards(s) + multiset{c} && Descends(s.players, t.players)
  {
    GiveKeeps(s, g, i, c);
    UnsafeGive(s.players[i].hand, c);
    ResolveKeeps(g, [s.players[i].id], i);
    SameSeatsAlive(s.players, g.players);
  }

  // ------------------------------------------------------------------- step

  lemma TurnEffectKeeps(s: State, c: Command, env: Env)
    requires Inv(s) && Guard(s, c) == NoError && (c.DrawCard? || c.PlayCard? || c.PlayCombo?)
    ensures var t := Effect(s, c, env).state; Inv(t) && Follows(s, t)
  {
    match c
    case DrawCard(p) => DrawKeeps(s, p);
    case PlayCard(p, ids, target) => PlayKeeps(s, p, ids, target, env.now);
    case PlayCombo(p, ids, target, requested) => ComboKeeps(s, p, ids, target, requested, env.now);
  }

  lemma WindowEffectKeeps(s: State, c: Command, env: Env)
    requires Inv(s) && Guard(s, c) == NoError
    requires c.PlaceExplosive? || c.PlayCancel? || c.ExpireCancelWindow? || c.ResolveCancelWindow?
    ensures var t := Effect(s, c, env).state; Inv(t) && Follows(s, t)
  {
    match c
    case PlaceExplosive(p, index) => PlaceKeeps(s, p, index);
    case PlayCancel(p, card, pendingId) => CancelKeeps(s, p, card, pendingId);
    case ExpireCancelWindow(_) => WindowResolves(s, env.rnd);
    case ResolveCancelWindow => WindowResolves(s, env.rnd);
  }

  lemma PromptEffectKeeps(s: State, c: Command, env: Env)
    requires Inv(s) && Guard(s, c) == NoError
    requires c.ChooseCardForRequest? || c.ChooseMarkedCard? || c.SubmitReorderedTopCards? || c.ChooseCardForRecycle?
        || c.ChooseCardFromDiscard?
    ensures var t := Effect(s, c, env).state; Inv(t) && Follows(s, t)
  {
    PromptEffect(s, c, env);
    match c
    case ChooseCardForRequest(p, card) => RequestKeeps(s, p, card);
    case ChooseMarkedCard(p, card) => MarkKeeps(s, p, card);
    case SubmitReorderedTopCards(p, ids) => ReorderKeeps(s, p, ids);
    case ChooseCardForRecycle(p, card) => RecycleKeeps(s, p, card, env.rnd);
    case ChooseCardFromDiscard(p, card) => RecoverKeeps(s, p, card);
  }

  lemma PromptEffect(s: State, c: Command, env: Env)
    requires Guard(s, c) == NoError
    ensures c.ChooseCardForRequest? ==>
      RequestGuard(s, c.player, c.card) == NoError && Effect(s, c, env).state == RequestEffect(s, c.player, c.card)
    ensures c.ChooseMarkedCard? ==>
      MarkGuard(s, c.player, c.card) == NoError && Effect(s, c, env).state == MarkEffect(s, c.player, c.card)
    ensures c.SubmitReorderedTopCards? ==>
      ReorderGuard(s, c.player, c.cards) == NoError && Effect(s, c, env).state == ReorderEffect(s, c.player, c.cards)
    ensures c.ChooseCardForRecycle? ==>
      && RecycleGuard(s, c.player, c.card) == NoError
      && Effect(s, c, env).state == RecycleEffect(s, c.player, c.card, env.rnd)
    ensures c.ChooseCardFromDiscard? ==>
      RecoverGuard(s, c.player, c.card) == NoError && Effect(s, c, env).state == RecoverEffect(s, c.player, c.card)
  {
  }

  lemma EffectKeeps(s: State, c: Command, env: Env)
    requires Inv(s) && Guard(s, c) == NoError
    ensures var t := Effect(s, c, env).state; Inv(t) && Follows(s, t)
  {
    if c.DrawCard? || c.PlayCard? || c.PlayCombo? {
      TurnEffectKeeps(s, c, env);
    } else if c.PlaceExplosive? || c.PlayCancel? || c.ExpireCancelWindow? || c.ResolveCancelWindow? {
      WindowEffectKeeps(s, c, env);
    } else {
      PromptEffectKeeps(s, c, env);
    }
  }

  /** Every command, accepted or rejected, keeps the invariant and all cards, and at most one player dies. */
  lemma StepKeeps(s: State, c: Command, env: Env)
    requires Inv(s)
    ensures var t := Step(s, c, env).state; Inv(t) && Follows(s, t)
  {
    if Guard(s, c) == NoError {
      EffectKeeps(s, c, env);
    }
  }
}
