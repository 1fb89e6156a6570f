/** Exactly which commands are accepted in a reachable state, in terms of phase, turn, hands and piles. */
module Admission {
  import opened Cards
  import opened Table
  import opened Rules
  import opened Invariant
  import opened Preserve
  import opened Runs
  import opened Reorder
  import opened Stalemate
  import opened Windows

  ghost predicate Accepted(s: State, c: Command) {
    Guard(s, c) == NoError
  }

  /** The pending action waits for an answer of the player. */
  ghost predicate Waits(s: State, phase: Phase, p: PlayerId) {
    s.phase == phase && s.pending.Some? && s.pending.value.source == p
  }

  ghost predicate HasId(cards: seq<Card>, id: CardId) {
    exists k :: 0 <= k < |cards| && cards[k].id == id
  }

  lemma HasIdIs(cards: seq<Card>, id: CardId)
    ensures HasId(cards, id) <==> IndexOfId(cards, id) >= 0
  {
  }

  lemma CurrentIsAlive(s: State)
    requires Inv(s) && s.phase != GameOver
    ensures IsAlive(s.players, s.current) && AliveError(s.players, s.current) == NoError && s.current != 0
    ensures PendingOk(s)
  {
    assert s.players[Seat(s.players, s.current)].id == s.current;
  }

  // ------------------------------------------------------------ turn and pile

  lemma DrawAdmitted(s: State, c: Command)
    requires Reachable(s) && c.DrawCard?
    ensures Accepted(s, c) <==> s.phase == PlayerTurn && c.player == s.current && s.draw != []
  {
    ReachableInv(s);
    if s.phase == PlayerTurn { CurrentIsAlive(s); }
    DrawGuardIs(s, c);
  }

  lemma DrawGuardIs(s: State, c: Command)
    requires c.DrawCard?
    ensures Guard(s, c) == DrawGuard(s, c.player)
  {
  }

  lemma PlacementAdmitted(s: State, c: Command)
    requires Reachable(s) && c.PlaceExplosive?
    ensures Accepted(s, c) <==> Waits(s, WaitingExplosivePlacement, c.player) && 0 <= c.index <= |s.draw|
  {
    ReachableInv(s);
    PlaceGuardIs(s, c);
    if s.phase == WaitingExplosivePlacement { PlacementWaits(s); }
  }

  lemma PlacementWaits(s: State)
    requires Inv(s) && s.phase == WaitingExplosivePlacement
    ensures s.pending.Some? && s.pending.value.kind == ExplosivePlacement && |s.pending.value.cards| == 1
  {
  }

  lemma PlaceGuardIs(s: State, c: Command)
    requires c.PlaceExplosive?
    ensures Guard(s, c) == PlaceGuard(s, c.player, c.index)
  {
  }

  // -------------------------------------------------------------- cards, combos

  /** Another living player, with cards if that is asked for. */
  ghost predicate MayTarget(s: State, target: PlayerId, withCards: bool) {
    Other(s, target) && (withCards ==> HandOf(s.players, target) != [])
  }

  lemma TargetErrorIs(s: State, target: PlayerId, withCards: bool)
    requires Roster(s.players)
    ensures TargetError(s.players, s.current, target, withCards) == NoError <==> MayTarget(s, target, withCards)
  {
    if IsAlive(s.players, target) { assert s.players[Seat(s.players, target)].id == target; }
  }

  /** The card of this code may be played now, against this target. */
  ghost predicate MayPlay(s: State, code: Code, target: PlayerId) {
    && IsSupportedAction(code)
    && (code == DrawFromBottom ==> s.draw != [])
    && (code == TargetExtraTurns ==> MayTarget(s, target, false))
    && (code in {RequestCard, RevealHeldCard} ==> MayTarget(s, target, true))
  }

  lemma PlayCodeIs(s: State, code: Code, target: PlayerId)
    requires Roster(s.players)
    ensures PlayCodeGuard(s, s.current, code, target) == NoError <==> MayPlay(s, code, target)
  {
    TargetErrorIs(s, target, false);
    TargetErrorIs(s, target, true);
  }

  lemma PlayAdmitted(s: State, c: Command)
    requires Reachable(s) && c.PlayCard?
    ensures Accepted(s, c) <==>
      && s.phase == PlayerTurn && c.player == s.current && |c.cards| == 1
      && exists j: nat :: j < |HandOf(s.players, s.current)| && HandOf(s.players, s.current)[j].id == c.cards[0]
                          && MayPlay(s, HandOf(s.players, s.current)[j].code, c.target)
  {
    ReachableInv(s);
    if s.phase == PlayerTurn && c.player == s.current && |c.cards| == 1 {
      CurrentIsAlive(s);
      PlayInTurn(s, c);
    } else {
      PlayOutOfTurn(s, c);
    }
  }

  lemma PlayOutOfTurn(s: State, c: Command)
    requires c.PlayCard? && !(s.phase == PlayerTurn && c.player == s.current && |c.cards| == 1)
    ensures Guard(s, c) != NoError
  {
  }

  lemma PlayInTurn(s: State, c: Command)
    requires Inv(s) && c.PlayCard? && s.phase == PlayerTurn && c.player == s.current && |c.cards| == 1
    requires AliveError(s.players, s.current) == NoError
    ensures Guard(s, c) == NoError <==>
      exists j: nat :: j < |HandOf(s.players, s.current)| && HandOf(s.players, s.current)[j].id == c.cards[0]
                       && MayPlay(s, HandOf(s.players, s.current)[j].code, c.target)
  {
    var hand := HandOf(s.players, s.current);
    PlayGuardIs(s, c);
    OneById(s, c.cards[0]);
    var k := IndexOfId(hand, c.cards[0]);
    if k >= 0 { PlayCodeIs(s, hand[k].code, c.target); }
  }

  lemma PlayGuardIs(s: State, c: Command)
    requires c.PlayCard? && s.phase == PlayerTurn && c.player == s.current && |c.cards| == 1
    requires AliveError(s.players, s.current) == NoError
    ensures var hand := HandOf(s.players, s.current);
      var k := IndexOfId(hand, c.cards[0]);
      Guard(s, c) == if k < 0 then CardNotInHand else PlayCodeGuard(s, s.current, hand[k].code, c.target)
  {
  }

  /** At most one card of the current hand has the id. */
  lemma OneById(s: State, id: CardId)
    requires Inv(s) && Seat(s.players, s.current) >= 0
    ensures var hand := HandOf(s.players, s.current);
      forall j: nat :: j < |hand| && hand[j].id == id ==>
        IndexOfId(hand, id) >= 0 && hand[IndexOfId(hand, id)] == hand[j]
  {
    var hand := HandOf(s.players, s.current);
    HandFair(s, Seat(s.players, s.current));
    forall j: nat | j < |hand| && hand[j].id == id
      ensures IndexOfId(hand, id) >= 0 && hand[IndexOfId(hand, id)] == hand[j]
    {
    }
  }

  /** All cards show one code that is neither explosive nor wild, wild tokens counting as any token. */
  ghost predicate OneKind(cards: seq<Card>) {
    exists k :: 0 <= k < |cards| && cards[k].code !in {Explosive, WildToken} && AllOfKind(cards, cards[k].code)
  }

  ghost predicate AllOfKind(cards: seq<Card>, code: Code) {
    forall k :: 0 <= k < |cards| ==> cards[k].code == code || (IsToken(code) && cards[k].code == WildToken)
  }

  ghost predicate FiveKinds(hand: seq<Card>, cards: seq<Card>) {
    && (forall k, l :: 0 <= k < l < |cards| ==> cards[k].code != cards[l].code)
    && !HasCode(cards, ExplosiveHolder) && (HasCode(cards, Explosive) ==> HasCode(hand, ExplosiveHolder))
  }

  lemma MatchingIsOneKind(cards: seq<Card>)
    requires |cards| in {2, 3}
    ensures ValidMatching(cards) <==> OneKind(cards)
  {
    if ValidMatching(cards) {
      if PlainMatch(cards) {
        assert cards[0].code !in {Explosive, WildToken} && AllOfKind(cards, cards[0].code);
      } else {
        var k :| 0 <= k < |cards| && TokenMatch(cards, cards[k].code);
        assert AllOfKind(cards, cards[k].code);
      }
    }
    if OneKind(cards) {
      var k :| 0 <= k < |cards| && cards[k].code !in {Explosive, WildToken} && AllOfKind(cards, cards[k].code);
      if IsToken(cards[k].code) { assert TokenMatch(cards, cards[k].code); } else { assert PlainMatch(cards); }
    }
  }

  lemma FiveIsFiveKinds(hand: seq<Card>, cards: seq<Card>)
    requires |cards| == 5
    ensures ValidFiveDifferent(hand, cards) <==> FiveKinds(hand, cards)
  {
    CountPositive(hand, ExplosiveHolder);
  }

  /** The cards make a combo, with a kind to ask for if there are three, against this target. */
  ghost predicate MayCombine(s: State, cards: seq<Card>, target: PlayerId, requested: Option<Code>) {
    || (|cards| == 2 && OneKind(cards) && MayTarget(s, target, true))
    || (|cards| == 3 && OneKind(cards) && requested.Some? && MayTarget(s, target, false))
    || (|cards| == 5 && FiveKinds(HandOf(s.players, s.current), cards))
  }

  ghost predicate ComboMade(s: State, hand: seq<Card>, cards: seq<Card>, target: PlayerId, requested: Option<Code>) {
    match ComboOf(hand, cards, requested)
    case NoCombo => false
    case Pair => TargetError(s.players, s.current, target, true) == NoError
    case Triple => TargetError(s.players, s.current, target, false) == NoError
    case FiveDifferent => true
  }

  lemma CombineIs(s: State, cards: seq<Card>, target: PlayerId, requested: Option<Code>)
    requires Roster(s.players)
    ensures ComboMade(s, HandOf(s.players, s.current), cards, target, requested)
        <==> MayCombine(s, cards, target, requested)
  {
    TargetErrorIs(s, target, true);
    TargetErrorIs(s, target, false);
    if |cards| in {2, 3} { MatchingIsOneKind(cards); }
    if |cards| == 5 { FiveIsFiveKinds(HandOf(s.players, s.current), cards); }
  }

  lemma ComboGuardIs(s: State, c: Command)
    requires c.PlayCombo? && s.phase == PlayerTurn && c.player == s.current
    requires AliveError(s.players, s.current) == NoError
    ensures var hand := HandOf(s.players, s.current);
      Guard(s, c) == NoError <==>
        c.cards != [] && IdsError(hand, c.cards) == NoError
        && ComboMade(s, hand, Picked(hand, c.cards), c.target, c.requested)
  {
  }

  lemma ComboOutOfTurn(s: State, c: Command)
    requires c.PlayCombo? && !(s.phase == PlayerTurn && c.player == s.current)
    ensures Guard(s, c) != NoError
  {
  }

  /** Named cards are the picked ones. */
  lemma NamedIsPicked(hand: seq<Card>, ids: seq<CardId>, cards: seq<Card>)
    requires Fair(multiset(hand)) && Named(hand, ids, cards)
    ensures IdsError(hand, ids) == NoError && Picked(hand, ids) == cards
  {
    forall id | id in ids ensures Held(hand, id) && id != 0 {
      var k :| 0 <= k < |ids| && ids[k] == id;
      assert cards[k] in multiset(hand);
      assert FairPair(multiset(hand), cards[k], cards[k]);
      assert HasId(hand, id);
    }
    AllHeldIf(hand, ids);
    IdsAccepted(hand, ids);
    PickedCards(hand, ids);
    forall k | 0 <= k < |ids| ensures Picked(hand, ids)[k] == cards[k] {
      var d := hand[IndexOfId(hand, ids[k])];
      assert d in multiset(hand) && cards[k] in multiset(hand);
      assert FairPair(multiset(hand), d, cards[k]);
    }
  }

  lemma ComboAdmitted(s: State, c: Command)
    requires Reachable(s) && c.PlayCombo?
    ensures Accepted(s, c) <==>
      && s.phase == PlayerTurn && c.player == s.current
      && exists cards :: Named(HandOf(s.players, s.current), c.cards, cards)
                         && MayCombine(s, cards, c.target, c.requested)
  {
    ReachableInv(s);
    if s.phase == PlayerTurn && c.player == s.current {
      CurrentIsAlive(s);
      ComboInTurn(s, c);
    } else {
      ComboOutOfTurn(s, c);
    }
  }

  lemma ComboInTurn(s: State, c: Command)
    requires Inv(s) && c.PlayCombo? && s.phase == PlayerTurn && c.player == s.current
    requires AliveError(s.players, s.current) == NoError
    ensures Guard(s, c) == NoError <==>
      exists cards :: Named(HandOf(s.players, s.current), c.cards, cards)
                      && MayCombine(s, cards, c.target, c.requested)
  {
    var hand := HandOf(s.players, s.current);
    HandIsFair(s, Seat(s.players, s.current));
    ComboGuardIs(s, c);
    if Guard(s, c) == NoError {
      PickedAreNamed(hand, c.cards);
      CombineIs(s, Picked(hand, c.cards), c.target, c.requested);
    }
    if cards :| Named(hand, c.cards, cards) && MayCombine(s, cards, c.target, c.requested) {
      NamedIsPicked(hand, c.cards, cards);
      CombineIs(s, cards, c.target, c.requested);
    }
  }

  // ---------------------------------------------------------------- the window

  ghost predicate InWindow(s: State) {
    s.phase == CancelWindow && s.pending.Some?
  }

  lemma WindowIsCancelable(s: State)
    requires Inv(s) && s.phase == CancelWindow
    ensures InWindow(s) && IsCancelable(s.pending.value)
  {
  }

  /** A living player with the meant cancel, and the window's id if one is given. */
  lemma CancelAdmitted(s: State, c: Command)
    requires Reachable(s) && c.PlayCancel?
    ensures Accepted(s, c) <==>
      && InWindow(s) && (c.pendingId != 0 ==> c.pendingId == s.pending.value.id) && IsAlive(s.players, c.player)
      && exists j: nat :: CancelMeant(HandOf(s.players, c.player), c.card, j)
  {
    ReachableInv(s);
    CancelGuardOf(s, c);
    if s.phase == CancelWindow { WindowIsCancelable(s); }
    if IsAlive(s.players, c.player) {
      DistinctHand(s, c.player);
      MeantIsSlot(HandOf(s.players, c.player), c.card);
    }
  }

  lemma DistinctHand(s: State, p: PlayerId)
    requires Inv(s) && IsAlive(s.players, p)
    ensures DistinctIds(HandOf(s.players, p))
  {
    HandIsFair(s, Seat(s.players, p));
    HandPositions(HandOf(s.players, p));
  }

  lemma CancelGuardOf(s: State, c: Command)
    requires c.PlayCancel?
    ensures Guard(s, c) == NoError <==>
      && InWindow(s) && IsCancelable(s.pending.value) && (c.pendingId != 0 ==> c.pendingId == s.pending.value.id)
      && IsAlive(s.players, c.player)
      && var hand := HandOf(s.players, c.player);
         CancelSlot(hand, c.card) >= 0 && hand[CancelSlot(hand, c.card)].code == Cancel
  {
  }

  lemma MeantIsSlot(hand: seq<Card>, card: CardId)
    requires DistinctIds(hand)
    ensures (exists j: nat :: CancelMeant(hand, card, j))
        <==> CancelSlot(hand, card) >= 0 && hand[CancelSlot(hand, card)].code == Cancel
  {
    if j: nat :| CancelMeant(hand, card, j) {
      assert Meant(hand[j], card);
    } else if CancelSlot(hand, card) >= 0 && hand[CancelSlot(hand, card)].code == Cancel {
      assert CancelMeant(hand, card, CancelSlot(hand, card));
    }
  }

  /** A window can be closed at any time by the engine itself, and by a clock once it has expired. */
  lemma ClosingAdmitted(s: State, c: Command)
    requires Reachable(s) && ClosesWindow(c)
    ensures Accepted(s, c) <==>
      && InWindow(s)
      && (c.ExpireCancelWindow? && c.at.Some? && s.pending.value.expiresAt > 0 ==>
            c.at.value >= s.pending.value.expiresAt)
  {
    ReachableInv(s);
    if s.phase == CancelWindow { WindowIsCancelable(s); }
    ClosingGuardOf(s, c);
  }

  lemma ClosingGuardOf(s: State, c: Command)
    requires ClosesWindow(c)
    ensures Guard(s, c) == NoError <==>
      && InWindow(s) && IsCancelable(s.pending.value)
      && (c.ExpireCancelWindow? && c.at.Some? && s.pending.value.expiresAt > 0 ==>
            c.at.value >= s.pending.value.expiresAt)
  {
  }

  // ------------------------------------------------------------------- prompts

  lemma AskedWaits(s: State)
    requires Inv(s) && s.phase in {WaitingRequestCardChoice, WaitingMarkedCardChoice}
    ensures AskOk(s, if s.phase == WaitingRequestCardChoice then RequestCardChoice else MarkedCardChoice)
    ensures IsAlive(s.players, s.current)
  {
  }

  /** The asked player may name any card of the own hand. */
  lemma RequestAdmitted(s: State, c: Command)
    requires Reachable(s) && c.ChooseCardForRequest?
    ensures Accepted(s, c) <==>
      && s.phase == WaitingRequestCardChoice && s.pending.Some? && c.player == s.pending.value.target
      && HasId(HandOf(s.players, c.player), c.card)
  {
    ReachableInv(s);
    HasIdIs(HandOf(s.players, c.player), c.card);
    RequestGuardOf(s, c);
    if s.phase == WaitingRequestCardChoice { AskedWaits(s); }
  }

  lemma RequestGuardOf(s: State, c: Command)
    requires c.ChooseCardForRequest?
    ensures Guard(s, c) == NoError <==>
      && s.phase == WaitingRequestCardChoice && s.pending.Some? && s.pending.value.kind == RequestCardChoice
      && s.pending.value.target == c.player
      && IsAlive(s.players, c.player) && IsAlive(s.players, s.pending.value.source)
      && IndexOfId(HandOf(s.players, c.player), c.card) >= 0
  {
  }

  /** The player who reveals may choose any card of the target's hand. */
  lemma MarkAdmitted(s: State, c: Command)
    requires Reachable(s) && c.ChooseMarkedCard?
    ensures Accepted(s, c) <==>
      Waits(s, WaitingMarkedCardChoice, c.player) && HasId(HandOf(s.players, s.pending.value.target), c.card)
  {
    ReachableInv(s);
    if s.pending.Some? { HasIdIs(HandOf(s.players, s.pending.value.target), c.card); }
    MarkGuardOf(s, c);
    if s.phase == WaitingMarkedCardChoice { AskedWaits(s); }
  }

  lemma MarkGuardOf(s: State, c: Command)
    requires c.ChooseMarkedCard?
    ensures Guard(s, c) == NoError <==>
      && s.phase == WaitingMarkedCardChoice && s.pending.Some? && s.pending.value.kind == MarkedCardChoice
      && s.pending.value.source == c.player && IsAlive(s.players, s.pending.value.target)
      && IndexOfId(HandOf(s.players, s.pending.value.target), c.card) >= 0
  {
  }

  /** The current player may submit any order of the offered cards. */
  lemma ReorderAdmitted(s: State, c: Command)
    requires Reachable(s) && c.SubmitReorderedTopCards?
    ensures Accepted(s, c) <==>
      && s.phase == WaitingDeckReorder && s.pending.Some? && c.player == s.current
      && multiset(c.cards) == multiset(IdsOf(s.pending.value.cards))
  {
    ReorderGuardOf(s, c);
    if s.phase == WaitingDeckReorder { AcceptsExactlyPermutations(s, c.player, c.cards); }
  }

  lemma ReorderGuardOf(s: State, c: Command)
    requires c.SubmitReorderedTopCards?
    ensures Guard(s, c) == ReorderGuard(s, c.player, c.cards)
    ensures s.phase != WaitingDeckReorder ==> Guard(s, c) != NoError
  {
  }

  /** Each chooser may give any card of the own hand, once. */
  lemma ChoiceAdmitted(s: State, c: Command)
    requires Reachable(s) && c.ChooseCardForRecycle?
    ensures Accepted(s, c) <==>
      && s.phase == WaitingRecycleChoices && s.pending.Some? && c.player in s.pending.value.recyclers
      && c.player !in s.pending.value.selections && HasId(HandOf(s.players, c.player), c.card)
  {
    ReachableInv(s);
    HasIdIs(HandOf(s.players, c.player), c.card);
    ChoiceGuardOf(s, c);
    if s.phase == WaitingRecycleChoices { ChoosersWait(s, c.player); }
  }

  lemma ChoiceGuardOf(s: State, c: Command)
    requires c.ChooseCardForRecycle?
    ensures Guard(s, c) == NoError <==>
      && s.phase == WaitingRecycleChoices && s.pending.Some? && s.pending.value.kind == RecycleChoices
      && c.player in s.pending.value.recyclers && c.player !in s.pending.value.selections
      && IsAlive(s.players, c.player) && IndexOfId(HandOf(s.players, c.player), c.card) >= 0
  {
  }

  lemma ChoosersWait(s: State, p: PlayerId)
    requires Inv(s) && s.phase == WaitingRecycleChoices
    ensures s.pending.Some? && s.pending.value.kind == RecycleChoices
    ensures p in s.pending.value.recyclers ==> IsAlive(s.players, p)
  {
  }

  /** The player of the combo may recover any card of the discard pile. */
  lemma RecoveryAdmitted(s: State, c: Command)
    requires Reachable(s) && c.ChooseCardFromDiscard?
    ensures Accepted(s, c) <==> Waits(s, WaitingDiscardRecovery, c.player) && HasId(s.discard, c.card)
  {
    ReachableInv(s);
    HasIdIs(s.discard, c.card);
    RecoveryGuardOf(s, c);
    if s.phase == WaitingDiscardRecovery { RecoveryWaits(s); }
  }

  lemma RecoveryGuardOf(s: State, c: Command)
    requires c.ChooseCardFromDiscard?
    ensures Guard(s, c) == NoError <==>
      && s.phase == WaitingDiscardRecovery && s.pending.Some? && s.pending.value.kind == DiscardRecovery
      && s.pending.value.source == c.player && IndexOfId(s.discard, c.card) >= 0 && IsAlive(s.players, c.player)
  {
  }

  lemma RecoveryWaits(s: State)
    requires Inv(s) && s.phase == WaitingDiscardRecovery
    ensures s.pending.Some? && s.pending.value.kind == DiscardRecovery && s.pending.value.source == s.current
    ensures IsAlive(s.players, s.current)
  {
  }
}
