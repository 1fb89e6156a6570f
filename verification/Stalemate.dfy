/** When a game is stuck: exactly when no command is accepted any more. */
module Stalemate {
  import opened Cards
  import opened Table
  import opened Rules
  import opened Invariant
  import opened Preserve
  import opened Prompts
  import opened Runs
  import opened Termination

  /** No command, with whatever payload, clock and random draws, changes the state. */
  ghost predicate Stuck(s: State) {
    forall c: Command, env: Env :: Step(s, c, env).state == s
  }

  /** Somebody other than the current player is alive and holds a card. */
  ghost predicate Victim(s: State) {
    exists id :: Other(s, id) && HandOf(s.players, id) != []
  }

  /** A card that can be played, given whether there is a victim and whether there is anything to draw. */
  ghost predicate PlaysAlone(code: Code, victim: bool, pile: bool) {
    IsSupportedAction(code) && (code == DrawFromBottom ==> pile) && (code in {RequestCard, RevealHeldCard} ==> victim)
  }

  /** The cards at the listed positions. */
  function AtPositions(hand: seq<Card>, at: seq<nat>): seq<Card>
    requires forall k :: 0 <= k < |at| ==> at[k] < |hand|
  {
    seq(|at|, k requires 0 <= k < |at| => hand[at[k]])
  }

  /** Different positions in the hand whose cards make a combo. */
  ghost predicate PlaysTogether(hand: seq<Card>, at: seq<nat>, victim: bool) {
    && Distinct(at) && at != []
    && (forall k :: 0 <= k < |at| ==> at[k] < |hand|)
    && var kind := ComboOf(hand, AtPositions(hand, at), Some(Shield));
       kind != NoCombo && (kind == Pair ==> victim)
  }

  /** The current player holds a card that can be played. */
  ghost predicate CardToPlay(s: State) {
    var hand := HandOf(s.players, s.current);
    exists k :: 0 <= k < |hand| && PlaysAlone(hand[k].code, Victim(s), s.draw != [])
  }

  /** The current player holds cards that can be played together. */
  ghost predicate ComboToPlay(s: State) {
    exists at :: PlaysTogether(HandOf(s.players, s.current), at, Victim(s))
  }

  /** The current player's hand has nothing to play. */
  ghost predicate NothingToPlay(s: State) {
    !CardToPlay(s) && !ComboToPlay(s)
  }

  /** The player who must give or show a card has none left. */
  ghost predicate EmptyHanded(s: State) {
    && s.phase in {WaitingRequestCardChoice, WaitingMarkedCardChoice}
    && s.pending.Some? && HandOf(s.players, s.pending.value.target) == []
  }

  lemma StuckMeansRejected(s: State)
    requires Inv(s)
    ensures Stuck(s) <==> forall c: Command :: Guard(s, c) != NoError
  {
    if Stuck(s) {
      forall c: Command ensures Guard(s, c) != NoError {
        var env := Env(0, k => 0);
        StepNearer(s, c, env);
        assert Step(s, c, env).state == s;
      }
    }
  }

  // --------------------------------------------------- an accepted command

  lemma SomeoneStillChooses(ids: seq<PlayerId>, selections: map<PlayerId, Card>) returns (p: PlayerId)
    requires Distinct(ids) && Listed(ids, selections) && |selections| < |ids|
    ensures p in ids && p !in selections
  {
    KeysWithin(ids, selections);
    p :| p in ids && p !in selections;
  }

  lemma ChoiceAccepted(s: State) returns (c: Command)
    requires s.phase == WaitingRecycleChoices && s.pending.Some? && s.pending.value.kind == RecycleChoices
    requires RecycleOk(s, s.pending.value)
    ensures Guard(s, c) == NoError
  {
    var p := SomeoneStillChooses(s.pending.value.recyclers, s.pending.value.selections);
    assert HandOf(s.players, p) != [];
    c := ChooseCardForRecycle(p, HandOf(s.players, p)[0].id);
  }

  lemma SameOrderAccepted(s: State) returns (c: Command)
    requires Inv(s) && s.phase == WaitingDeckReorder
    ensures Guard(s, c) == NoError
  {
    var cards := s.pending.value.cards;
    DrawDistinct(s);
    assert s.draw[..|cards|] == cards;
    c := SubmitReorderedTopCards(s.current, IdsOf(cards));
  }

  lemma RequestAnswered(s: State) returns (c: Command)
    requires InPlay(s) && PendingOk(s) && s.phase == WaitingRequestCardChoice && !EmptyHanded(s)
    ensures c.ChooseCardForRequest? && c.player == s.pending.value.target
    ensures RequestGuard(s, c.player, c.card) == NoError
  {
    var target := s.pending.value.target;
    var hand := HandOf(s.players, target);
    assert IndexOfId(hand, hand[0].id) == 0;
    c := ChooseCardForRequest(target, hand[0].id);
  }

  lemma MarkAnswered(s: State) returns (c: Command)
    requires PendingOk(s) && s.phase == WaitingMarkedCardChoice && !EmptyHanded(s)
    ensures c.ChooseMarkedCard? && c.player == s.current && MarkGuard(s, c.player, c.card) == NoError
  {
    var hand := HandOf(s.players, s.pending.value.target);
    assert IndexOfId(hand, hand[0].id) == 0;
    c := ChooseMarkedCard(s.current, hand[0].id);
  }

  lemma RecoveryAccepted(s: State) returns (c: Command)
    requires Inv(s) && s.phase == WaitingDiscardRecovery
    ensures Guard(s, c) == NoError
  {
    c := ChooseCardFromDiscard(s.current, s.discard[0].id);
  }

  lemma PlacementAccepted(s: State) returns (c: Command)
    requires Inv(s) && s.phase == WaitingExplosivePlacement
    ensures Guard(s, c) == NoError
  {
    c := PlaceExplosive(s.pending.value.source, 0);
  }

  ghost predicate Accepting(s: State) {
    exists c: Command :: Guard(s, c) == NoError
  }

  lemma Accepted(s: State, c: Command)
    requires Guard(s, c) == NoError
    ensures Accepting(s)
  {
  }

  lemma TurnOrWindowAccepts(s: State)
    requires InPlay(s) && PendingOk(s) && s.phase in {PlayerTurn, CancelWindow}
    requires (s.phase == PlayerTurn ==> s.draw != [])
    ensures Accepting(s)
  {
    if s.phase == PlayerTurn {
      assert DrawGuard(s, s.current) == NoError;
      Accepted(s, DrawCard(s.current));
    } else {
      assert ResolveGuard(s) == NoError;
      Accepted(s, ResolveCancelWindow);
    }
  }

  lemma PromptAccepts(s: State)
    requires InPlay(s) && PendingOk(s) && s.phase in {WaitingRequestCardChoice, WaitingMarkedCardChoice}
    requires !EmptyHanded(s)
    ensures Accepting(s)
  {
    if s.phase == WaitingRequestCardChoice {
      var c := RequestAnswered(s);
      Accepted(s, c);
    } else {
      var c := MarkAnswered(s);
      Accepted(s, c);
    }
  }

  lemma WaitingAccepts(s: State) returns (c: Command)
    requires Inv(s)
    requires s.phase in {WaitingRecycleChoices, WaitingDiscardRecovery, WaitingDeckReorder, WaitingExplosivePlacement}
    ensures Guard(s, c) == NoError
  {
    match s.phase
    case WaitingRecycleChoices => c := ChoiceAccepted(s);
    case WaitingDiscardRecovery => c := RecoveryAccepted(s);
    case WaitingDeckReorder => c := SameOrderAccepted(s);
    case WaitingExplosivePlacement => c := PlacementAccepted(s);
  }

  /** In every other sound state some command is accepted. */
  lemma SomethingAccepted(s: State)
    requires Inv(s) && s.phase != GameOver && !EmptyHanded(s) && (s.phase == PlayerTurn ==> s.draw != [])
    ensures Accepting(s)
  {
    if s.phase in {PlayerTurn, CancelWindow} {
      TurnOrWindowAccepts(s);
    } else if s.phase in {WaitingRequestCardChoice, WaitingMarkedCardChoice} {
      PromptAccepts(s);
    } else {
      var c := WaitingAccepts(s);
    }
  }

  lemma EmptyHandedIsStuck(s: State, c: Command)
    requires Inv(s) && EmptyHanded(s)
    ensures Guard(s, c) != NoError
  {
  }

  lemma OverIsStuck(s: State, c: Command)
    requires Inv(s) && s.phase == GameOver
    ensures Guard(s, c) != NoError
  {
  }

  // ------------------------------------------------------ an empty draw pile

  lemma AnOpponent(s: State) returns (id: PlayerId)
    requires Inv(s) && s.phase == PlayerTurn
    ensures Other(s, id) && id != 0
  {
    var k := AnotherAlive(s.players, Seat(s.players, s.current));
    id := s.players[k].id;
    SeatOf(s.players, k);
  }

  /** An opponent, with a card where the command needs one. */
  lemma ATarget(s: State, needsCard: bool) returns (id: PlayerId)
    requires Inv(s) && s.phase == PlayerTurn && (needsCard ==> Victim(s))
    ensures Other(s, id) && id != 0 && (needsCard ==> HandOf(s.players, id) != [])
    ensures TargetError(s.players, s.current, id, needsCard) == NoError
  {
    if needsCard {
      id :| Other(s, id) && HandOf(s.players, id) != [];
      assert s.players[Seat(s.players, id)].id == id;
    } else {
      id := AnOpponent(s);
    }
  }

  lemma FoundById(s: State, i: nat, k: nat)
    requires Inv(s) && i < |s.players| && k < |s.players[i].hand|
    ensures var hand := s.players[i].hand;
        IndexOfId(hand, hand[k].id) >= 0 && hand[IndexOfId(hand, hand[k].id)] == hand[k]
  {
    HandFair(s, i);
  }

  /** A playable card or combo gives an accepted command. */
  lemma AlonePlays(s: State, k: nat) returns (c: Command)
    requires Inv(s) && s.phase == PlayerTurn && k < |HandOf(s.players, s.current)|
    requires PlaysAlone(HandOf(s.players, s.current)[k].code, Victim(s), s.draw != [])
    ensures c.PlayCard? && c.player == s.current && Guard(s, c) == NoError
  {
    CurrentSeated(s);
    var i := Seat(s.players, s.current);
    var card := s.players[i].hand[k];
    var target := ATarget(s, card.code in {RequestCard, RevealHeldCard});
    FoundById(s, i, k);
    CodePlays(s, card.code, target);
    c := PlayCard(s.current, [card.id], target);
    PlayFits(s, c, s.players[i].hand, card);
  }

  lemma CodePlays(s: State, code: Code, target: PlayerId)
    requires PlaysAlone(code, Victim(s), s.draw != []) && target != 0
    requires TargetError(s.players, s.current, target, code in {RequestCard, RevealHeldCard}) == NoError
    ensures PlayCodeGuard(s, s.current, code, target) == NoError
  {
  }

  lemma PlayFits(s: State, c: Command, hand: seq<Card>, card: Card)
    requires c.PlayCard? && c.player == s.current && c.cards == [card.id]
    requires s.phase == PlayerTurn && AliveError(s.players, s.current) == NoError
        && HandOf(s.players, s.current) == hand
    requires IndexOfId(hand, card.id) >= 0 && hand[IndexOfId(hand, card.id)] == card
    requires PlayCodeGuard(s, s.current, card.code, c.target) == NoError
    ensures Guard(s, c) == NoError
  {
  }

  lemma ComboFits(s: State, c: Command, hand: seq<Card>, kind: ComboKind)
    requires c.PlayCombo? && c.player == s.current && c.cards != []
    requires s.phase == PlayerTurn && AliveError(s.players, s.current) == NoError
        && HandOf(s.players, s.current) == hand
    requires IdsError(hand, c.cards) == NoError && kind != NoCombo
        && ComboOf(hand, Picked(hand, c.cards), c.requested) == kind
    requires kind in {Pair, Triple} ==> TargetError(s.players, s.current, c.target, kind == Pair) == NoError
    ensures Guard(s, c) == NoError
  {
  }

  lemma FussyTarget(players: seq<Player>, source: PlayerId, target: PlayerId, fussy: bool, mustHaveCards: bool)
    requires TargetError(players, source, target, fussy) == NoError && (mustHaveCards ==> fussy)
    ensures TargetError(players, source, target, mustHaveCards) == NoError
  {
  }

  lemma CurrentSeated(s: State)
    requires Inv(s) && s.phase == PlayerTurn
    ensures Seat(s.players, s.current) >= 0 && AliveError(s.players, s.current) == NoError
  {
  }

  /** Picking by id finds the same cards as picking by position. */
  lemma PickPositions(hand: seq<Card>, at: seq<nat>) returns (ids: seq<CardId>)
    requires Fair(multiset(hand)) && Distinct(at) && forall k :: 0 <= k < |at| ==> at[k] < |hand|
    ensures ids == IdsOf(AtPositions(hand, at)) && IdsError(hand, ids) == NoError
    ensures Picked(hand, ids) == AtPositions(hand, at)
  {
    ids := IdsOf(AtPositions(hand, at));
    HandPositions(hand);
    PositionIds(hand, at, ids);
    IdsAccepted(hand, ids);
    PickedCards(hand, ids);
  }

  lemma PositionIds(hand: seq<Card>, at: seq<nat>, ids: seq<CardId>)
    requires DistinctIds(hand) && Fair(multiset(hand)) && Distinct(at)
    requires forall k :: 0 <= k < |at| ==> at[k] < |hand|
    requires ids == IdsOf(AtPositions(hand, at))
    ensures forall k :: 0 <= k < |ids| ==> IndexOfId(hand, ids[k]) == at[k]
    ensures AllHeld(hand, ids) && 0 !in ids && Distinct(ids)
  {
    DistinctPairs(at);
    DistinctPairs(ids);
    forall k | 0 <= k < |ids| ensures ids[k] != 0 && IndexOfId(hand, ids[k]) == at[k] {
      assert hand[at[k]] in multiset(hand);
      assert FairPair(multiset(hand), hand[at[k]], hand[at[k]]);
    }
    AllHeldIf(hand, ids);
  }

  lemma HandPositions(hand: seq<Card>)
    requires Fair(multiset(hand))
    ensures DistinctIds(hand)
  {
    FairHand(hand);
    DistinctCounts(hand);
    DistinctPairs(hand);
  }

  lemma TogetherPlays(s: State, at: seq<nat>) returns (c: Command)
    requires Inv(s) && s.phase == PlayerTurn && PlaysTogether(HandOf(s.players, s.current), at, Victim(s))
    ensures c.PlayCombo? && c.player == s.current && Guard(s, c) == NoError
  {
    CurrentSeated(s);
    var i := Seat(s.players, s.current);
    var hand := s.players[i].hand;
    HandIsFair(s, i);
    var ids := PickPositions(hand, at);
    var target := ATarget(s, Victim(s));
    var kind := ComboOf(hand, AtPositions(hand, at), Some(Shield));
    c := PlayCombo(s.current, ids, target, Some(Shield));
    FussyTarget(s.players, s.current, target, Victim(s), kind == Pair);
    ComboFits(s, c, hand, kind);
  }

  /** The positions of accepted ids. */
  function PositionsOf(hand: seq<Card>, ids: seq<CardId>): (at: seq<nat>)
    requires forall k :: 0 <= k < |ids| ==> IndexOfId(hand, ids[k]) >= 0
    ensures |at| == |ids| && forall k :: 0 <= k < |ids| ==> at[k] == IndexOfId(hand, ids[k])
  {
    seq(|ids|, k requires 0 <= k < |ids| => IndexOfId(hand, ids[k]))
  }

  lemma ComboWasTogether(s: State, p: PlayerId, ids: seq<CardId>, target: PlayerId, requested: Option<Code>)
    requires Inv(s) && ComboGuard(s, p, ids, target, requested) == NoError
    ensures ComboToPlay(s)
  {
    ComboAccepted(s, p, ids, target, requested, 0);
    var hand := s.players[Seat(s.players, p)].hand;
    var at := WhereFrom(hand, ids);
    SameKind(hand, Picked(hand, ids), requested);
    if ComboOf(hand, Picked(hand, ids), requested) == Pair {
      assert Other(s, target) && HandOf(s.players, target) != [];
    }
    assert PlaysTogether(hand, at, Victim(s));
  }

  lemma WhereFrom(hand: seq<Card>, ids: seq<CardId>) returns (at: seq<nat>)
    requires IdsError(hand, ids) == NoError
    ensures |at| == |ids| == |Picked(hand, ids)| && Distinct(at) && (forall k :: 0 <= k < |at| ==> at[k] < |hand|)
    ensures AtPositions(hand, at) == Picked(hand, ids)
  {
    IdsAccepted(hand, ids);
    DistinctPairs(ids);
    PickedCards(hand, ids);
    at := PositionsOf(hand, ids);
    DistinctPairs(at);
  }

  /** Naming a card can only add triples. */
  lemma SameKind(hand: seq<Card>, cards: seq<Card>, requested: Option<Code>)
    requires ComboOf(hand, cards, requested) != NoCombo
    ensures ComboOf(hand, cards, Some(Shield)) == ComboOf(hand, cards, requested)
  {
  }

  lemma CardWasAlone(s: State, p: PlayerId, ids: seq<CardId>, target: PlayerId)
    requires Inv(s) && PlayGuard(s, p, ids, target) == NoError
    ensures CardToPlay(s)
  {
    var hand := HandOf(s.players, s.current);
    var k := IndexOfId(hand, ids[0]);
    if hand[k].code in {RequestCard, RevealHeldCard} {
      assert Other(s, target) && HandOf(s.players, target) != [];
    }
    assert PlaysAlone(hand[k].code, Victim(s), s.draw != []);
  }

  lemma NothingToPlayIsStuck(s: State, c: Command)
    requires Inv(s) && s.phase == PlayerTurn && s.draw == [] && NothingToPlay(s)
    ensures Guard(s, c) != NoError
  {
    if Guard(s, c) == NoError {
      match c
      case PlayCard(p, ids, target) => CardWasAlone(s, p, ids, target);
      case PlayCombo(p, ids, target, requested) => ComboWasTogether(s, p, ids, target, requested);
      case _ =>
    }
  }

  lemma SomethingToPlay(s: State) returns (c: Command)
    requires Inv(s) && s.phase == PlayerTurn && !NothingToPlay(s)
    ensures Guard(s, c) == NoError
  {
    var hand := HandOf(s.players, s.current);
    if CardToPlay(s) {
      var k: nat :| k < |hand| && PlaysAlone(hand[k].code, Victim(s), s.draw != []);
      c := AlonePlays(s, k);
    } else {
      var at :| PlaysTogether(hand, at, Victim(s));
      c := TogetherPlays(s, at);
    }
  }

  // ------------------------------------------------------------ the theorem

  /**
   A reachable state is stuck exactly when the game is over, or the current player faces an empty
   draw pile with nothing to play, or the player asked for a card has no card.
   */
  lemma StuckExactly(s: State)
    requires Reachable(s)
    ensures Stuck(s) <==>
      || s.phase == GameOver
      || (s.phase == PlayerTurn && s.draw == [] && NothingToPlay(s))
      || EmptyHanded(s)
  {
    ReachableInv(s);
    StuckMeansRejected(s);
    if s.phase == GameOver {
      forall c: Command ensures Guard(s, c) != NoError { OverIsStuck(s, c); }
    } else if EmptyHanded(s) {
      forall c: Command ensures Guard(s, c) != NoError { EmptyHandedIsStuck(s, c); }
    } else if s.phase == PlayerTurn && s.draw == [] {
      if NothingToPlay(s) {
        forall c: Command ensures Guard(s, c) != NoError { NothingToPlayIsStuck(s, c); }
      } else {
        var c := SomethingToPlay(s);
      }
    } else {
      SomethingAccepted(s);
    }
  }
}
