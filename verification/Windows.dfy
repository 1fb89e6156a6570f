/** Opening and cancelling windows, reordering, and recycle choices: what exactly the named cards do. */
module Windows {
  import opened Cards
  import opened Shuffling
  import opened Table
  import opened Rules
  import opened Invariant
  import opened Preserve
  import opened Prompts
  import opened Runs
  import opened Parity
  import opened Reorder
  import opened Outcomes
  import opened Effects

  // ---------------------------------------------------------- opening a window

  /** A window is open for five seconds over the cards just discarded. */
  ghost predicate Opened(s: State, t: State, kind: PendingKind, cards: seq<Card>, target: PlayerId, now: int) {
    && Asks(s, t, CancelWindow, kind) && t.draw == s.draw && t.discard == s.discard + cards
    && t.pending.value.cards == cards && t.pending.value.target == target
    && t.pending.value.cancels == 0 && t.pending.value.expiresAt == now + 5000
  }

  lemma WindowShape(s: State, i: nat, hand: seq<Card>, p: Pending, now: int)
    requires DistinctPlayers(s.players) && i < |s.players| && s.players[i].alive && s.players[i].id == s.current
    requires p.source == s.current && p.id == s.nextPending + 1 && p.cancels == 0
    requires p.expiresAt == now + CANCEL_WINDOW_MS
    ensures var t := OpenWindow(s, i, hand, p);
      && NewHand(s.players, t.players, s.current, hand) && Opened(s, t, p.kind, p.cards, p.target, now)
      && t.pending == Some(p)
  {
    NewHandAt(s.players, i, hand);
  }

  lemma PlayIs(s: State, c: Command, env: Env)
    requires c.PlayCard? && Guard(s, c) == NoError
    ensures PlayGuard(s, c.player, c.cards, c.target) == NoError
    ensures Step(s, c, env) == Ok(PlayEffect(s, c.player, c.cards, c.target, env.now))
  {
  }

  /** An accepted card goes from the hand to the discard pile, and its window opens. */
  lemma PlayOpensWindow(s: State, c: Command, env: Env)
    requires Reachable(s) && c.PlayCard? && Guard(s, c) == NoError
    ensures c.player == s.current && |c.cards| == 1
    ensures var hand, t := HandOf(s.players, s.current), Step(s, c, env).state;
      exists j: nat :: j < |hand| && hand[j].id == c.cards[0]
                       && NewHand(s.players, t.players, s.current, Minus(hand, j))
                       && Opened(s, t, PlayedCard, [hand[j]], c.target, env.now)
  {
    ReachableInv(s);
    PlayIs(s, c, env);
    PlayAccepted(s, c.player, c.cards, c.target, env.now);
    var i := Seat(s.players, s.current);
    var hand := s.players[i].hand;
    var j := IndexOfId(hand, c.cards[0]);
    assert RemoveAt(hand, j) == Minus(hand, j);
    WindowShape(s, i, RemoveAt(hand, j), PlayPending(s, s.current, hand[j], c.target, env.now), env.now);
  }

  // ------------------------------------------------------------------- combos

  /** What is left of the hand: in their old order, exactly the cards that are not named. */
  ghost predicate Leftover(hand: seq<Card>, ids: seq<CardId>, rest: seq<Card>) {
    && (forall card :: card in rest <==> card in hand && card.id !in ids)
    && exists at: seq<nat> :: Selects(hand, at, rest)
  }

  ghost predicate Selects(hand: seq<Card>, at: seq<nat>, rest: seq<Card>) {
    && |at| == |rest|
    && (forall k :: 0 <= k < |at| ==> at[k] < |hand| && rest[k] == hand[at[k]])
    && (forall k, l :: 0 <= k < l < |at| ==> at[k] < at[l])
  }

  lemma {:induction false} WithoutMembers(hand: seq<Card>, ids: seq<CardId>, card: Card)
    ensures card in Without(hand, ids) <==> card in hand && card.id !in ids
  {
    if hand != [] {
      var front := hand[..|hand| - 1];
      WithoutMembers(front, ids, card);
      assert hand == front + [hand[|hand| - 1]];
    }
  }

  lemma {:induction false} WithoutSelects(hand: seq<Card>, ids: seq<CardId>) returns (at: seq<nat>)
    ensures Selects(hand, at, Without(hand, ids))
  {
    if hand == [] {
      at := [];
    } else {
      var front, last := hand[..|hand| - 1], hand[|hand| - 1];
      at := WithoutSelects(front, ids);
      SelectsMore(hand, at, Without(front, ids));
      if last.id !in ids { at := at + [|hand| - 1]; }
    }
  }

  lemma SelectsMore(hand: seq<Card>, at: seq<nat>, rest: seq<Card>)
    requires hand != [] && Selects(hand[..|hand| - 1], at, rest)
    ensures Selects(hand, at, rest) && Selects(hand, at + [|hand| - 1], rest + [hand[|hand| - 1]])
  {
  }

  lemma WithoutIsLeftover(hand: seq<Card>, ids: seq<CardId>)
    ensures Leftover(hand, ids, Without(hand, ids))
  {
    forall card ensures card in Without(hand, ids) <==> card in hand && card.id !in ids {
      WithoutMembers(hand, ids, card);
    }
    var at := WithoutSelects(hand, ids);
  }

  /** The cards of the hand with these ids, in the order of the ids. */
  ghost predicate Named(hand: seq<Card>, ids: seq<CardId>, cards: seq<Card>) {
    |cards| == |ids| && Distinct(ids) && forall k :: 0 <= k < |ids| ==> cards[k] in hand && cards[k].id == ids[k]
  }

  lemma PickedAreNamed(hand: seq<Card>, ids: seq<CardId>)
    requires IdsError(hand, ids) == NoError
    ensures Named(hand, ids, Picked(hand, ids))
  {
    IdsAccepted(hand, ids);
    PickedCards(hand, ids);
    forall k | 0 <= k < |ids| ensures Picked(hand, ids)[k] in hand && Picked(hand, ids)[k].id == ids[k] {
      assert Held(hand, ids[k]);
    }
  }

  ghost predicate KindBySize(kind: ComboKind, n: nat) {
    match kind case Pair => n == 2 case Triple => n == 3 case FiveDifferent => n == 5 case NoCombo => false
  }

  /** The named cards lie on the discard pile under an open window. */
  ghost predicate Combined(s: State, t: State, hand: seq<Card>, c: Command, now: int)
    requires c.PlayCombo?
  {
    && t.pending.Some?
    && Opened(s, t, CardCombo, t.pending.value.cards, c.target, now) && Named(hand, c.cards, t.pending.value.cards)
    && KindBySize(t.pending.value.combo, |c.cards|) && t.pending.value.requested == c.requested
    && exists rest :: Leftover(hand, c.cards, rest) && NewHand(s.players, t.players, s.current, rest)
  }

  lemma ComboIs(s: State, c: Command, env: Env)
    requires c.PlayCombo? && Guard(s, c) == NoError
    ensures ComboGuard(s, c.player, c.cards, c.target, c.requested) == NoError
    ensures Step(s, c, env) == Ok(ComboEffect(s, c.player, c.cards, c.target, c.requested, env.now))
  {
  }

  lemma KindOf(hand: seq<Card>, cards: seq<Card>, requested: Option<Code>)
    requires ComboOf(hand, cards, requested) != NoCombo
    ensures KindBySize(ComboOf(hand, cards, requested), |cards|)
  {
  }

  /** An accepted combo takes exactly the named cards from the hand to the discard pile, and its window opens. */
  lemma ComboOpensWindow(s: State, c: Command, env: Env)
    requires Reachable(s) && c.PlayCombo? && Guard(s, c) == NoError
    ensures c.player == s.current && Combined(s, Step(s, c, env).state, HandOf(s.players, s.current), c, env.now)
  {
    ReachableInv(s);
    ComboIs(s, c, env);
    ComboAccepted(s, c.player, c.cards, c.target, c.requested, env.now);
    var i := Seat(s.players, s.current);
    var hand := s.players[i].hand;
    PickedAreNamed(hand, c.cards);
    KindOf(hand, Picked(hand, c.cards), c.requested);
    WithoutIsLeftover(hand, c.cards);
    WindowShape(s, i, Without(hand, c.cards),
                ComboPending(s, s.current, hand, c.cards, c.target, c.requested, env.now), env.now);
  }

  // ---------------------------------------------------------------- cancelling

  /** The card named, or the first cancel of the hand if none is named. */
  ghost predicate CancelMeant(hand: seq<Card>, card: CardId, j: nat) {
    j < |hand| && hand[j].code == Cancel && if card != 0 then hand[j].id == card else FirstOf(hand, Cancel, j)
  }

  ghost predicate CountsCancel(s: State, t: State, p: PlayerId, card: CardId)
    requires s.pending.Some?
  {
    var hand := HandOf(s.players, p);
    && t.phase == s.phase && t.draw == s.draw && SameTurns(s, t)
    && t.pending == Some(s.pending.value.(cancels := s.pending.value.cancels + 1))
    && exists j: nat :: CancelMeant(hand, card, j) && NewHand(s.players, t.players, p, Minus(hand, j))
                        && t.discard == s.discard + [hand[j]]
  }

  /** An accepted cancel spends the meant card and is counted; the window stays as it is. */
  lemma CancelIsCounted(s: State, c: Command, env: Env)
    requires Reachable(s) && c.PlayCancel? && Guard(s, c) == NoError
    ensures s.pending.Some? && s.phase == CancelWindow && (c.pendingId != 0 ==> c.pendingId == s.pending.value.id)
    ensures CountsCancel(s, Step(s, c, env).state, c.player, c.card)
  {
    ReachableInv(s);
    CancelGuardIs(s, c);
    CancelIsStep(s, c, env);
    CancelAccepted(s, c.player, c.card, c.pendingId);
    CancelCounts(s, c.player, c.card, c.pendingId);
  }

  lemma CancelGuardIs(s: State, c: Command)
    requires c.PlayCancel? && Guard(s, c) == NoError
    ensures CancelGuard(s, c.player, c.card, c.pendingId) == NoError
    ensures s.pending.Some? && (c.pendingId != 0 ==> c.pendingId == s.pending.value.id)
  {
  }

  lemma CancelCounts(s: State, p: PlayerId, card: CardId, pendingId: nat)
    requires DistinctPlayers(s.players) && CancelGuard(s, p, card, pendingId) == NoError
    ensures s.pending.Some? && CountsCancel(s, CancelEffect(s, p, card, pendingId), p, card)
  {
    CancelAccepted(s, p, card, pendingId);
    var i := Seat(s.players, p);
    var hand := s.players[i].hand;
    var j := CancelSlot(hand, card);
    assert RemoveAt(hand, j) == Minus(hand, j);
    NewHandAt(s.players, i, Minus(hand, j));
    assert CancelMeant(hand, card, j);
  }

  /** A window closed after an odd number of cancels leaves the table as it is, and the turn goes on. */
  lemma OddClosingDrops(s: State, c: Command, env: Env)
    requires Reachable(s) && s.pending.Some? && ClosesWindow(c) && Guard(s, c) == NoError
    requires s.pending.value.cancels % 2 == 1
    ensures var o := Step(s, c, env);
      o.error == NoError && TableStays(s, o.state) && o.state.draw == s.draw && AtTurn(o.state) && SameTurns(s, o.state)
  {
    ReachableInv(s);
    ClosingResolves(s, c, env);
    ResolvesDropped(s, env.rnd);
  }

  // ---------------------------------------------------------------- reordering

  lemma ReorderIs(s: State, c: Command, env: Env)
    requires c.SubmitReorderedTopCards? && Guard(s, c) == NoError
    ensures ReorderGuard(s, c.player, c.cards) == NoError && s.phase == WaitingDeckReorder
    ensures Step(s, c, env).state == ReorderEffect(s, c.player, c.cards)
  {
  }

  /** An accepted order is the order of the top of the pile. */
  lemma ReorderFollowsIds(s: State, c: Command, env: Env)
    requires Reachable(s) && c.SubmitReorderedTopCards? && Guard(s, c) == NoError
    ensures s.pending.Some?
    ensures Rearranged(s, Step(s, c, env).state, |s.pending.value.cards|, c.cards)
  {
    ReorderIs(s, c, env);
    ReorderedPile(s, c.player, c.cards);
  }

  // ------------------------------------------------------------------- recycle

  /** The named card of the player's hand. */
  ghost predicate Offered(hand: seq<Card>, card: CardId, j: nat) {
    j < |hand| && hand[j].id == card
  }

  /** What the choosers have given, in the order in which they were asked. */
  function Given(ids: seq<PlayerId>, selections: map<PlayerId, Card>): seq<Card>
    requires forall id :: id in ids ==> id in selections
  {
    seq(|ids|, k requires 0 <= k < |ids| => selections[ids[k]])
  }

  /** The choice waits with the others. */
  ghost predicate ChoiceWaitsOn(s: State, t: State, selections: map<PlayerId, Card>)
    requires s.pending.Some?
  {
    && t.phase == s.phase && t.draw == s.draw && t.discard == s.discard && SameTurns(s, t)
    && t.pending == Some(s.pending.value.(selections := selections))
  }

  /** All have chosen: the choices are in the pile, and whoever gave the holder away pays for the explosive. */
  ghost predicate RecycleEnds(s: State, a: seq<Player>, t: State, selections: map<PlayerId, Card>)
    requires s.pending.Some?
  {
    && (forall id :: id in s.pending.value.recyclers ==> id in selections)
    && multiset(t.draw) == multiset(s.draw) + multiset(Given(s.pending.value.recyclers, selections))
    && Aftermath(s, a, s.discard, t)
  }

  ghost predicate Chooses(s: State, t: State, p: PlayerId, card: CardId)
    requires s.pending.Some?
  {
    var hand, q := HandOf(s.players, p), s.pending.value;
    exists j: nat, a: seq<Player> ::
      && Offered(hand, card, j) && NewHand(s.players, a, p, Minus(hand, j))
      && var selections := q.selections[p := hand[j]];
         if selections.Keys == Elements(q.recyclers) then RecycleEnds(s, a, t, selections)
         else t.players == a && ChoiceWaitsOn(s, t, selections)
  }

  lemma {:induction false} ContributionsAt(ids: seq<PlayerId>, selections: map<PlayerId, Card>)
    requires forall id :: id in ids ==> id in selections
    ensures Contributions(ids, selections) == Given(ids, selections)
  {
    if ids != [] {
      var front := ids[..|ids| - 1];
      ContributionsAt(front, selections);
      assert Given(ids, selections) == Given(front, selections) + [selections[ids[|ids| - 1]]];
    }
  }

  lemma RecycleIs(s: State, c: Command, env: Env)
    requires c.ChooseCardForRecycle? && Guard(s, c) == NoError
    ensures RecycleGuard(s, c.player, c.card) == NoError
    ensures Step(s, c, env).state == RecycleEffect(s, c.player, c.card, env.rnd)
  {
  }

  /** The submitted choice: the named card of the player's hand is now a selection. */
  ghost predicate Chose(s: State, s1: State, p: PlayerId, card: CardId, j: nat, selections: map<PlayerId, Card>)
    requires s.pending.Some?
  {
    var hand := HandOf(s.players, p);
    && Offered(hand, card, j) && NewHand(s.players, s1.players, p, Minus(hand, j))
    && selections == s.pending.value.selections[p := hand[j]]
    && ChoiceWaitsOn(s, s1, selections)
  }

  lemma ChoiceIs(s: State, p: PlayerId, card: CardId) returns (j: nat, selections: map<PlayerId, Card>)
    requires DistinctPlayers(s.players) && RecycleGuard(s, p, card) == NoError
    ensures s.pending.Some? && Chose(s, Submit(s, p, card), p, card, j, selections)
  {
    var i := Seat(s.players, p);
    var hand := s.players[i].hand;
    j := IndexOfId(hand, card);
    selections := s.pending.value.selections[p := hand[j]];
    assert RemoveAt(hand, j) == Minus(hand, j);
    NewHandAt(s.players, i, Minus(hand, j));
  }

  lemma PoolCards(s1: State, rnd: Random)
    requires s1.pending.Some? && forall id :: id in s1.pending.value.recyclers ==> id in s1.pending.value.selections
    ensures var p := s1.pending.value;
      multiset(Pooled(s1, rnd).draw) == multiset(s1.draw) + multiset(Given(p.recyclers, p.selections))
  {
    ContributionsAt(s1.pending.value.recyclers, s1.pending.value.selections);
    ShuffledPermutes(s1.draw + Given(s1.pending.value.recyclers, s1.pending.value.selections), rnd);
  }

  /** The recycle closes from a table that satisfies all but its own waiting. */
  lemma RecycleCloses(s: State, s1: State, p: PlayerId, card: CardId, j: nat, sel: map<PlayerId, Card>, rnd: Random)
    requires s.pending.Some? && Chose(s, s1, p, card, j, sel)
    requires s1.pending.Some? && s1.pending.value.kind == RecycleChoices && TableOk(s1) && InPlay(s1)
    requires Fair(AllCards(s1)) && Contained(s1.players, s1.pending)
    requires Distinct(s1.pending.value.recyclers) && Listed(s1.pending.value.recyclers, s1.pending.value.selections)
    requires |s1.pending.value.selections| == |s1.pending.value.recyclers|
    ensures RecycleEnds(s, s1.players, CloseRecycle(s1, rnd), sel)
  {
    var q, m := s1.pending.value, Pooled(s1, rnd);
    KeysWithin(q.recyclers, q.selections);
    PoolCards(s1, rnd);
    ClosedReady(s1, s1, m, rnd);
    RunningIf(m);
    var u := LooseChooser(s1);
    Resolves(m, q.recyclers, u);
    AftermathOf(s, m, m.players, m.discard, CloseRecycle(s1, rnd));
  }

  lemma RecycleReady(s: State, p: PlayerId, card: CardId)
    requires Inv(s) && RecycleGuard(s, p, card) == NoError
    ensures var s1 := Submit(s, p, card);
      && s1.pending.Some? && s1.pending.value.kind == RecycleChoices && TableOk(s1) && InPlay(s1)
      && Fair(AllCards(s1)) && Contained(s1.players, s1.pending)
      && Distinct(s1.pending.value.recyclers) && Listed(s1.pending.value.recyclers, s1.pending.value.selections)
  {
    RecycleAccepted(s, p, card);
    SubmitTable(s, p, card);
    SubmitListed(s, p, card, Submit(s, p, card));
  }

  /** As many selections as choosers, all from choosers: everybody has chosen. */
  lemma AllChosen(q: Pending)
    requires Distinct(q.recyclers) && Listed(q.recyclers, q.selections)
    ensures |q.selections| == |q.recyclers| <==> q.selections.Keys == Elements(q.recyclers)
  {
    ElementsSize(q.recyclers);
    assert q.selections.Keys <= Elements(q.recyclers);
    SubsetSize(q.selections.Keys, Elements(q.recyclers));
  }

  /** An accepted choice takes the named card; the last one closes the recycle. */
  lemma RecycleTakesChoice(s: State, c: Command, env: Env)
    requires Reachable(s) && c.ChooseCardForRecycle? && Guard(s, c) == NoError
    ensures s.pending.Some? && Chooses(s, Step(s, c, env).state, c.player, c.card)
  {
    ReachableInv(s);
    RecycleIs(s, c, env);
    RecycleReady(s, c.player, c.card);
    RecycleShape(s, c.player, c.card, env.rnd);
    ChoiceDone(s, c.player, c.card, env.rnd);
  }

  lemma ChoiceDone(s: State, p: PlayerId, card: CardId, rnd: Random)
    requires DistinctPlayers(s.players) && RecycleGuard(s, p, card) == NoError
    requires var s1 := Submit(s, p, card);
      && s1.pending.Some? && s1.pending.value.kind == RecycleChoices && TableOk(s1) && InPlay(s1)
      && Fair(AllCards(s1)) && Contained(s1.players, s1.pending)
      && Distinct(s1.pending.value.recyclers) && Listed(s1.pending.value.recyclers, s1.pending.value.selections)
    ensures s.pending.Some? && Chooses(s, RecycleEffect(s, p, card, rnd), p, card)
  {
    var s1 := Submit(s, p, card);
    var j, sel := ChoiceIs(s, p, card);
    RecycleShape(s, p, card, rnd);
    AllChosen(s1.pending.value);
    if |s1.pending.value.selections| == |s1.pending.value.recyclers| {
      RecycleCloses(s, s1, p, card, j, sel, rnd);
    }
    ChoosesBy(s, s1.players, RecycleEffect(s, p, card, rnd), p, card, j);
  }

  lemma ChoosesBy(s: State, a: seq<Player>, t: State, p: PlayerId, card: CardId, j: nat)
    requires s.pending.Some? && Offered(HandOf(s.players, p), card, j)
    requires NewHand(s.players, a, p, Minus(HandOf(s.players, p), j))
    requires var selections := s.pending.value.selections[p := HandOf(s.players, p)[j]];
      if selections.Keys == Elements(s.pending.value.recyclers) then RecycleEnds(s, a, t, selections)
      else t.players == a && ChoiceWaitsOn(s, t, selections)
    ensures Chooses(s, t, p, card)
  {
  }
}
