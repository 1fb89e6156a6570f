/** The engine itself: methods that update a game state in place, each proved to do what `Rules` says. */
module Engine {
  import opened Cards
  import opened Shuffling
  import opened Table
  import opened Rules
  import Searching

  class GameState {
    var phase: Phase
    var players: seq<Player>
    var drawPile: seq<Card>
    var discardPile: seq<Card>
    var currentPlayerId: PlayerId
    var turnDebt: map<PlayerId, int>
    var pendingAction: Option<Pending>
    var markedCards: map<CardId, Mark>
    var winnerPlayerId: PlayerId
    var eventSeq: nat
    var unsafeExplosiveQueue: seq<Placement>

    constructor (phase: Phase, players: seq<Player>, drawPile: seq<Card>, current: PlayerId, debt: map<PlayerId, int>)
      ensures this.phase == phase && this.players == players && this.drawPile == drawPile && discardPile == []
      ensures currentPlayerId == current && turnDebt == debt && pendingAction == None && markedCards == map[]
      ensures winnerPlayerId == 0 && eventSeq == 0 && unsafeExplosiveQueue == []
    {
      this.phase, this.players, this.drawPile, discardPile := phase, players, drawPile, [];
      currentPlayerId, turnDebt, pendingAction, markedCards := current, debt, None, map[];
      winnerPlayerId, eventSeq, unsafeExplosiveQueue := 0, 0, [];
    }
  }

  ghost function Read(state: GameState, nextPending: nat): State
    reads state
  {
    State(state.phase, state.players, state.drawPile, state.discardPile, state.currentPlayerId, state.turnDebt,
          state.pendingAction, state.markedCards, state.winnerPlayerId, state.eventSeq,
          state.unsafeExplosiveQueue, nextPending)
  }

  class Engine {
    var nextPending: nat

    constructor ()
      ensures nextPending == 0
    {
      nextPending := 0;
    }

    /** The game state and the pending-id counter, read off as one value. */
    ghost function Snap(state: GameState): State
      reads this, state
    {
      Read(state, nextPending)
    }

    // --------------------------------------------------------- small helpers

    method NextEvent(state: GameState)
      modifies state`eventSeq
      ensures Snap(state) == Tick(old(Snap(state)), 1)
    {
      state.eventSeq := state.eventSeq + 1;
    }

    method NextPendingId() returns (id: nat)
      modifies this`nextPending
      ensures nextPending == old(nextPending) + 1 && id == nextPending
    {
      nextPending := nextPending + 1;
      id := nextPending;
    }

    /** Replace a hand and drop the marks of its owner that no longer match. */
    method ReplaceHand(state: GameState, index: nat, hand: seq<Card>)
      requires index < |state.players|
      modifies state`players, state`markedCards
      ensures Snap(state) == SetHand(old(Snap(state)), index, hand)
    {
      var owner := state.players[index].id;
      state.players := state.players[index := state.players[index].(hand := hand)];
      state.markedCards := Searching.ClearMarks(state.markedCards, owner, hand);
    }

    method AppendToHand(state: GameState, index: nat, card: Card)
      requires index < |state.players|
      modifies state`players
      ensures Snap(state) == Give(old(Snap(state)), index, card)
    {
      var player := state.players[index];
      state.players := state.players[index := player.(hand := player.hand + [card])];
    }

    method EliminatePlayer(state: GameState, index: nat)
      requires index < |state.players|
      modifies state`players, state`markedCards, state`discardPile, state`eventSeq
      ensures Snap(state) == Eliminate(old(Snap(state)), index)
    {
      state.discardPile := state.discardPile + state.players[index].hand;
      ReplaceHand(state, index, []);
      state.players := state.players[index := state.players[index].(alive := false)];
      NextEvent(state);
      assert state.players == old(state.players)[index := old(state.players)[index].(hand := [], alive := false)];
    }

    // ------------------------------------------------------------ turn order

    method AdvanceToPlayer(state: GameState, id: PlayerId)
      modifies state`currentPlayerId, state`phase, state`turnDebt, state`eventSeq
      ensures Snap(state) == AdvanceTo(old(Snap(state)), id)
    {
      state.currentPlayerId := id;
      state.phase := PlayerTurn;
      if Debt(state.turnDebt, id) <= 0 {
        state.turnDebt := state.turnDebt[id := 1];
      }
      NextEvent(state);
    }

    method AdvanceToNextAlivePlayer(state: GameState)
      modifies state`currentPlayerId, state`phase, state`turnDebt, state`eventSeq
      ensures Snap(state) == Advance(old(Snap(state)))
    {
      var next, err := Searching.NextAlivePlayerId(state.players, state.currentPlayerId);
      if err == NoError {
        AdvanceToPlayer(state, next);
      }
    }

    method CompleteCurrentTurnUnit(state: GameState)
      modifies state`currentPlayerId, state`phase, state`turnDebt, state`eventSeq
      ensures Snap(state) == CompleteTurn(old(Snap(state)))
    {
      if state.currentPlayerId == 0 {
        return;
      }
      if Debt(state.turnDebt, state.currentPlayerId) > 0 {
        state.turnDebt := state.turnDebt[state.currentPlayerId := Debt(state.turnDebt, state.currentPlayerId) - 1];
      }
      if Debt(state.turnDebt, state.currentPlayerId) > 0 {
        NextEvent(state);
      } else {
        AdvanceToNextAlivePlayer(state);
      }
    }

    /** Declares the winner when exactly one player is left, event included. */
    method CrownIfGameOver(state: GameState) returns (over: bool)
      modifies state`winnerPlayerId, state`currentPlayerId, state`phase, state`eventSeq
      ensures over == (AliveCount(old(state.players)) == 1)
      ensures Snap(state) == if over then Crown(old(Snap(state))) else old(Snap(state))
    {
      var alive := Searching.AlivePlayers(state.players);
      over := |alive| == 1;
      if over {
        state.winnerPlayerId := alive[0].id;
        state.currentPlayerId := 0;
        state.phase := GameOver;
        NextEvent(state);
      }
    }

    // ------------------------------------------------------------ explosives

    method ResolveUnsafeExplosivesFrom(state: GameState, original: PlayerId, ids: seq<PlayerId>)
      modifies this, state
      ensures Snap(state) == ResolveUnsafe(old(Snap(state)), original, ids)
    {
      ghost var start := Snap(state);
      var seen: set<PlayerId> := {};
      var i := 0;
      while i < |ids|
        invariant 0 <= i <= |ids|
        invariant ProcessAll(Snap(state), ids[i..], seen) == ProcessAll(start, ids, {})
      {
        if ids[i] !in seen {
          seen := seen + {ids[i]};
          ProcessPlayer(state, ids[i]);
        }
        i := i + 1;
      }
      if state.unsafeExplosiveQueue != [] {
        StartNextPlacement(state, original);
      } else {
        FinishUnsafeResolution(state, original);
      }
    }

    /** One turn of the loop above. */
    method ProcessPlayer(state: GameState, id: PlayerId)
      modifies state
      ensures Snap(state) == Process(old(Snap(state)), id)
    {
      var index := Searching.FindPlayerIndexById(state.players, id);
      if index < 0 || !state.players[index].alive {
        return;
      }
      var hand := state.players[index].hand;
      var unsafe := CountUnsafe(hand);
      if unsafe == 0 {
        return;
      }
      var shield := Searching.FindCardIndexByCode(hand, Shield);
      if shield < 0 {
        EliminatePlayer(state, index);
        return;
      }
      QueueExplosive(state, index, shield);
    }

    /** The explosives that need a shield; the holder makes one safe. */
    method CountUnsafe(hand: seq<Card>) returns (unsafe: nat)
      ensures unsafe == Unsafe(hand)
    {
      unsafe := Searching.CountCardsByCode(hand, Explosive);
      var holder := Searching.FindCardIndexByCode(hand, ExplosiveHolder);
      if holder >= 0 && unsafe > 0 {
        unsafe := unsafe - 1;
      }
    }

    /** The first shield is discarded and the first explosive waits to be placed. */
    method QueueExplosive(state: GameState, index: nat, shield: nat)
      requires index < |state.players| && Unsafe(state.players[index].hand) > 0
      requires shield == IndexOfCode(state.players[index].hand, Shield)
      modifies state
      ensures Snap(state) == SpendShield(old(Snap(state)), index)
    {
      var hand := state.players[index].hand;
      var rest, explosive := SplitHand(hand, shield);
      ReplaceHand(state, index, rest);
      state.discardPile := state.discardPile + [hand[shield]];
      state.unsafeExplosiveQueue := state.unsafeExplosiveQueue + [Placement(state.players[index].id, explosive)];
    }

    /** Taking out the shield first moves a later explosive one position to the front. */
    method SplitHand(hand: seq<Card>, shield: nat) returns (rest: seq<Card>, explosive: Card)
      requires Unsafe(hand) > 0 && shield == IndexOfCode(hand, Shield)
      ensures rest == Spent(hand) && explosive == FirstExplosive(hand)
    {
      CountPositive(hand, Explosive);
      var index := Searching.FindCardIndexByCode(hand, Explosive);
      explosive := hand[index];
      rest := RemoveAt(hand, shield);
      if index > shield {
        index := index - 1;
      }
      rest := RemoveAt(rest, index);
    }

    method StartNextPlacement(state: GameState, original: PlayerId)
      requires state.unsafeExplosiveQueue != []
      modifies this, state
      ensures Snap(state) == StartPlacement(old(Snap(state)), original)
    {
      var placement := state.unsafeExplosiveQueue[0];
      state.unsafeExplosiveQueue := state.unsafeExplosiveQueue[1..];
      state.phase := WaitingExplosivePlacement;
      var id := NextPendingId();
      state.pendingAction := Some(Prompt(id, placement.player, ExplosivePlacement, [placement.card], 0).(
        reactive := true, original := original));
      NextEvent(state);
    }

    method FinishUnsafeResolution(state: GameState, original: PlayerId)
      modifies state
      ensures Snap(state) == FinishResolution(old(Snap(state)), original)
    {
      var over := CrownIfGameOver(state);
      if over {
        return;
      }
      var index := Searching.FindPlayerIndexById(state.players, original);
      if index >= 0 && state.players[index].alive {
        state.currentPlayerId := original;
        state.phase := PlayerTurn;
        return;
      }
      state.currentPlayerId := original;
      AdvanceToNextAlivePlayer(state);
    }

    // --------------------------------------------------------------- drawing

    method DrawCard(state: GameState, player: PlayerId) returns (err: Error)
      modifies this, state
      ensures err == DrawGuard(old(Snap(state)), player)
      ensures Snap(state) == if err == NoError then DrawEffect(old(Snap(state)), player) else old(Snap(state))
    {
      if state.phase != PlayerTurn {
        return InvalidPhase;
      }
      if state.currentPlayerId != player {
        return NotYourTurn;
      }
      var _, e := Searching.CurrentAlivePlayer(state.players, player);
      if e != NoError {
        return e;
      }
      if state.drawPile == [] {
        return DrawPileEmpty;
      }
      var drawn := state.drawPile[0];
      state.drawPile := state.drawPile[1..];
      err := ResolveDrawnCard(state, player, drawn);
    }

    method ResolveDrawnCard(state: GameState, player: PlayerId, drawn: Card) returns (err: Error)
      modifies this, state
      ensures err == AliveError(old(state.players), player)
      ensures Snap(state) == if err == NoError
          then ResolveDrawn(old(Snap(state)), Seat(old(state.players), player), drawn)
                             else old(Snap(state))
    {
      var index, e := Searching.CurrentAlivePlayer(state.players, player);
      if e != NoError {
        return e;
      }
      err := NoError;
      NextEvent(state);
      var hand := state.players[index].hand;
      if drawn.code == Explosive {
        var holder := Searching.FindCardIndexByCode(hand, ExplosiveHolder);
        var held := Searching.CountCardsByCode(hand, Explosive);
        if holder >= 0 && held == 0 {
          AppendToHand(state, index, drawn);
          CompleteCurrentTurnUnit(state);
          return;
        }
        var shield := Searching.FindCardIndexByCode(hand, Shield);
        if shield < 0 {
          ExplodeDrawn(state, index, drawn);
          return;
        }
        DefuseDrawn(state, index, shield, drawn);
        return;
      }
      AppendToHand(state, index, drawn);
      CompleteCurrentTurnUnit(state);
    }

    /** No holder and no shield: the drawn explosive is fatal. */
    method ExplodeDrawn(state: GameState, index: nat, drawn: Card)
      requires index < |state.players|
      modifies state
      ensures var e := Eliminate(old(Snap(state)).(discard := old(state.discardPile) + [drawn]), index);
        Snap(state) == if AliveCount(e.players) == 1 then Crown(e) else Advance(e)
    {
      state.discardPile := state.discardPile + [drawn];
      EliminatePlayer(state, index);
      var over := CrownIfGameOver(state);
      if !over {
        AdvanceToNextAlivePlayer(state);
      }
    }

    /** A shield is spent and the drawn explosive waits to be placed. */
    method DefuseDrawn(state: GameState, index: nat, shield: nat, drawn: Card)
      requires index < |state.players| && shield == IndexOfCode(state.players[index].hand, Shield)
      modifies this, state
      ensures Snap(state) == Defuse(old(Snap(state)), index, drawn)
    {
      var hand := state.players[index].hand;
      ReplaceHand(state, index, RemoveAt(hand, shield));
      state.discardPile := state.discardPile + [hand[shield]];
      state.phase := WaitingExplosivePlacement;
      var id := NextPendingId();
      state.pendingAction := Some(Prompt(id, state.players[index].id, ExplosivePlacement, [drawn], 0));
      NextEvent(state);
    }

    method PlaceExplosive(state: GameState, player: PlayerId, index: int) returns (err: Error)
      modifies this, state
      ensures err == PlaceGuard(old(Snap(state)), player, index)
      ensures Snap(state) == if err == NoError then PlaceEffect(old(Snap(state)), player, index) else old(Snap(state))
    {
      if state.phase != WaitingExplosivePlacement {
        return InvalidPhase;
      }
      if state.pendingAction.None? || state.pendingAction.value.kind != ExplosivePlacement {
        return NoPendingAction;
      }
      if state.pendingAction.value.source != player {
        return NotYourTurn;
      }
      if index < 0 || index > |state.drawPile| {
        return InvalidPlacement;
      }
      if |state.pendingAction.value.cards| != 1 {
        return NoPendingAction;
      }
      err := NoError;
      var pending := state.pendingAction.value;
      state.drawPile := InsertAt(state.drawPile, pending.cards[0], index);
      state.pendingAction := None;
      state.phase := PlayerTurn;
      NextEvent(state);
      if pending.reactive {
        ResolveUnsafeExplosivesFrom(state, pending.original, [pending.source]);
      } else {
        CompleteCurrentTurnUnit(state);
      }
    }

    // --------------------------------------------------------------- playing

    method PlayCard(state: GameState, player: PlayerId, cardIds: seq<CardId>, target: PlayerId, now: int)
      returns (err: Error)
      modifies this, state
      ensures err == PlayGuard(old(Snap(state)), player, cardIds, target)
      ensures Snap(state) == if err == NoError then PlayEffect(old(Snap(state)), player, cardIds, target, now)
                             else old(Snap(state))
    {
      if state.phase != PlayerTurn {
        return InvalidPhase;
      }
      if state.currentPlayerId != player {
        return NotYourTurn;
      }
      var index, e := Searching.CurrentAlivePlayer(state.players, player);
      if e != NoError {
        return e;
      }
      if |cardIds| != 1 {
        return InvalidCardPlay;
      }
      var hand := state.players[index].hand;
      var cardIndex := Searching.FindCardIndexById(hand, cardIds[0]);
      if cardIndex < 0 {
        return CardNotInHand;
      }
      var card := hand[cardIndex];
      err := CheckPlay(state, player, card.code, target);
      if err != NoError {
        return;
      }
      var id := NextPendingId();
      OpenCancelWindow(state, index, RemoveAt(hand, cardIndex),
        Prompt(id, player, PlayedCard, [card], target).(expiresAt := now + CANCEL_WINDOW_MS));
    }

    /** The checks that depend on the card's code. */
    method CheckPlay(state: GameState, player: PlayerId, code: Code, target: PlayerId) returns (err: Error)
      ensures err == PlayCodeGuard(Snap(state), player, code, target)
    {
      if !IsAction(code) || code == Cancel || !IsSupportedAction(code) {
        return InvalidCardPlay;
      }
      if RequiresTarget(code) && target == 0 {
        return TargetRequired;
      }
      err := NoError;
      if code == TargetExtraTurns {
        err := Searching.ValidateTarget(state.players, player, target, false);
      }
      if code == RequestCard || code == RevealHeldCard {
        err := Searching.ValidateTarget(state.players, player, target, true);
      }
      if err == NoError && code == DrawFromBottom && state.drawPile == [] {
        return DrawPileEmpty;
      }
    }

    /** The common tail of playing a card and playing a combo; the pending id has just been taken. */
    method OpenCancelWindow(state: GameState, index: nat, hand: seq<Card>, pending: Pending)
      requires index < |state.players| && nextPending > 0
      modifies state
      ensures Snap(state) == OpenWindow(old(Snap(state)).(nextPending := nextPending - 1), index, hand, pending)
    {
      ReplaceHand(state, index, hand);
      state.discardPile := state.discardPile + pending.cards;
      state.phase := CancelWindow;
      state.pendingAction := Some(pending);
      NextEvent(state);
      NextEvent(state);
    }

    method PlayCombo(state: GameState, player: PlayerId, cardIds: seq<CardId>, target: PlayerId,
        requested: Option<Code>, now: int)
      returns (err: Error)
      modifies this, state
      ensures err == ComboGuard(old(Snap(state)), player, cardIds, target, requested)
      ensures Snap(state) == if err == NoError
          then ComboEffect(old(Snap(state)), player, cardIds, target, requested, now)
                             else old(Snap(state))
    {
      if state.phase != PlayerTurn {
        return InvalidPhase;
      }
      if state.currentPlayerId != player {
        return NotYourTurn;
      }
      var index, e := Searching.CurrentAlivePlayer(state.players, player);
      if e != NoError {
        return e;
      }
      var hand := state.players[index].hand;
      var cards;
      cards, e := Searching.CardsByIdsInHand(hand, cardIds);
      if e != NoError {
        return e;
      }
      var kind := Searching.ValidateCombo(hand, cards, requested);
      err := CheckCombo(state, player, kind, target);
      if err != NoError {
        return;
      }
      OpenCombo(state, index, cardIds, Prompt(0, player, CardCombo, cards, target).(
        combo := kind, requested := requested, expiresAt := now + CANCEL_WINDOW_MS));
    }

    /** The checks that depend on the kind of combo. */
    method CheckCombo(state: GameState, player: PlayerId, kind: ComboKind, target: PlayerId) returns (err: Error)
      ensures err == match kind
        case NoCombo => InvalidCardPlay
        case Pair => TargetError(state.players, player, target, true)
        case Triple => TargetError(state.players, player, target, false)
        case FiveDifferent => NoError
    {
      if kind == NoCombo {
        return InvalidCardPlay;
      }
      err := NoError;
      if kind == Pair {
        err := Searching.ValidateTarget(state.players, player, target, true);
      }
      if kind == Triple {
        err := Searching.ValidateTarget(state.players, player, target, false);
      }
    }

    /** Discard the combo's cards and open its cancel window under a new id. */
    method OpenCombo(state: GameState, index: nat, cardIds: seq<CardId>, pending: Pending)
      requires index < |state.players|
      modifies this, state
      ensures Snap(state) == OpenWindow(old(Snap(state)), index, Without(old(state.players[index].hand), cardIds),
                                        pending.(id := old(nextPending) + 1))
    {
      var rest := Searching.RemoveCardsByIds(state.players[index].hand, cardIds);
      var id := NextPendingId();
      OpenCancelWindow(state, index, rest, pending.(id := id));
    }

    // ----------------------------------------------------- the cancel window

    method PlayCancel(state: GameState, player: PlayerId, cardId: CardId, pendingId: nat) returns (err: Error)
      modifies this, state
      ensures err == CancelGuard(old(Snap(state)), player, cardId, pendingId)
      ensures Snap(state) == if err == NoError then CancelEffect(old(Snap(state)), player, cardId, pendingId)
                             else old(Snap(state))
    {
      if state.pendingAction.None? {
        return NoPendingAction;
      }
      if state.phase != CancelWindow {
        return InvalidPhase;
      }
      var pending := state.pendingAction.value;
      if pendingId != 0 && pendingId != pending.id {
        return NoPendingAction;
      }
      if !IsCancelable(pending) {
        return ActionNotCancelable;
      }
      var index, e := Searching.CurrentAlivePlayer(state.players, player);
      if e != NoError {
        return e;
      }
      var cardIndex;
      cardIndex, err := FindCancel(state.players[index].hand, cardId);
      if err != NoError {
        return;
      }
      SpendCancel(state, index, cardIndex);
    }

    /** The cancel card meant by the command: the one named, or else the first in the hand. */
    method FindCancel(hand: seq<Card>, cardId: CardId) returns (cardIndex: int, err: Error)
      ensures cardIndex == CancelSlot(hand, cardId)
      ensures err == if cardIndex < 0 then CardNotInHand else if hand[cardIndex].code != Cancel then InvalidCardPlay
                     else NoError
    {
      if cardId != 0 {
        cardIndex := Searching.FindCardIndexById(hand, cardId);
        if cardIndex >= 0 && hand[cardIndex].code != Cancel {
          return cardIndex, InvalidCardPlay;
        }
      } else {
        cardIndex := Searching.FindCardIndexByCode(hand, Cancel);
      }
      err := if cardIndex < 0 then CardNotInHand else NoError;
    }

    method SpendCancel(state: GameState, index: nat, cardIndex: nat)
      requires index < |state.players| && cardIndex < |state.players[index].hand| && state.pendingAction.Some?
      modifies state
      ensures var s := old(Snap(state)); var hand := s.players[index].hand;
        Snap(state) == Tick(SetHand(s, index, RemoveAt(hand, cardIndex)).(
          discard := s.discard + [hand[cardIndex]],
          pending := Some(s.pending.value.(cancels := s.pending.value.cancels + 1))), 2)
    {
      var hand, pending := state.players[index].hand, state.pendingAction.value;
      ReplaceHand(state, index, RemoveAt(hand, cardIndex));
      state.discardPile := state.discardPile + [hand[cardIndex]];
      state.pendingAction := Some(pending.(cancels := pending.cancels + 1));
      NextEvent(state);
      NextEvent(state);
    }

    method ExpireCancelWindow(state: GameState, at: Option<int>, rnd: Random) returns (err: Error)
      requires ExpireGuard(Snap(state), at) == NoError ==> RevealTargetKnown(Snap(state))
      modifies this, state
      ensures var s := old(Snap(state));
        Outcome(Snap(state), err) == if ExpireGuard(s, at) != NoError then Outcome(s, ExpireGuard(s, at))
            else ResolveEffect(s, rnd)
    {
      if state.pendingAction.None? {
        return NoPendingAction;
      }
      if state.phase != CancelWindow {
        return InvalidPhase;
      }
      var expires := state.pendingAction.value.expiresAt;
      if at.Some? && expires > 0 && at.value < expires {
        return CancelWindowActive;
      }
      err := ResolveCancelWindow(state, rnd);
    }

    method ResolveCancelWindow(state: GameState, rnd: Random) returns (err: Error)
      requires RevealTargetKnown(Snap(state))
      modifies this, state
      ensures var s := old(Snap(state));
        Outcome(Snap(state), err) == if ResolveGuard(s) != NoError then Outcome(s, ResolveGuard(s))
            else ResolveEffect(s, rnd)
    {
      if state.pendingAction.None? {
        return NoPendingAction;
      }
      if state.phase != CancelWindow {
        return InvalidPhase;
      }
      var pending := state.pendingAction.value;
      if !IsCancelable(pending) {
        return ActionNotCancelable;
      }
      err := NoError;
      state.pendingAction := None;
      state.phase := PlayerTurn;
      NextEvent(state);
      if pending.cancels % 2 == 1 {
        return;
      }
      if pending.kind == PlayedCard {
        err := ResolvePlayedCard(state, pending.cards[0].code, pending.source, pending.target, rnd);
      } else {
        err := ResolvePendingCombo(state, pending, rnd);
      }
    }

    /** The effect of a card; its resolution event has been issued. */
    method ResolvePlayedCard(state: GameState, code: Code, source: PlayerId, target: PlayerId, rnd: Random)
      returns (err: Error)
      requires code == RevealHeldCard ==> Seat(state.players, target) >= 0
      modifies this, state
      ensures Outcome(Snap(state), err) == ResolveCard(old(Snap(state)), code, source, target, rnd)
    {
      if !IsSupportedAction(code) {
        return InvalidCardPlay;
      }
      err := ResolveSupportedCard(state, code, source, target, rnd);
    }

    /** The cases of the switch above. */
    method ResolveSupportedCard(state: GameState, code: Code, source: PlayerId, target: PlayerId, rnd: Random)
      returns (err: Error)
      requires IsSupportedAction(code) && (code == RevealHeldCard ==> Seat(state.players, target) >= 0)
      modifies this, state
      ensures Outcome(Snap(state), err) == ResolveAction(old(Snap(state)), code, source, target, rnd)
    {
      err := NoError;
      match code
      case SkipTurn =>
        CompleteCurrentTurnUnit(state);
      case SkipAllTurns =>
        state.turnDebt := state.turnDebt[source := 0];
        AdvanceToNextAlivePlayer(state);
      case ForceExtraTurns =>
        err := ForceExtra(state, source);
      case TargetExtraTurns =>
        GiveExtraTurns(state, source, target);
      case ShuffleDeck =>
        state.drawPile := Shuffle(state.drawPile, rnd);
      case PeekDeck =>
        NextEvent(state);
      case PeekDeck5 =>
        NextEvent(state);
      case RequestCard =>
        PromptFor(state, source, RequestCardChoice, target, WaitingRequestCardChoice);
      case RevealHeldCard =>
        PromptFor(state, source, MarkedCardChoice, target, WaitingMarkedCardChoice);
      case DrawFromBottom =>
        err := DrawLast(state, source);
      case SwapTopBottom =>
        SwapEnds(state);
      case ReorderTop3 =>
        PromptReorder(state, source, 3);
      case ReorderTop5 =>
        PromptReorder(state, source, 5);
      case CollectiveRecycle =>
        PromptRecycle(state, source, rnd);
    }

    method ForceExtra(state: GameState, source: PlayerId) returns (err: Error)
      modifies state
      ensures Outcome(Snap(state), err) == ForceTurns(old(Snap(state)), source)
    {
      var next, e := Searching.NextAlivePlayerId(state.players, source);
      if e != NoError {
        return e;
      }
      err := NoError;
      GiveExtraTurns(state, source, next);
    }

    method DrawLast(state: GameState, source: PlayerId) returns (err: Error)
      modifies this, state
      ensures Outcome(Snap(state), err) == DrawBottom(old(Snap(state)), source)
    {
      if state.drawPile == [] {
        return DrawPileEmpty;
      }
      var drawn := state.drawPile[|state.drawPile| - 1];
      state.drawPile := state.drawPile[..|state.drawPile| - 1];
      err := ResolveDrawnCard(state, source, drawn);
    }

    method SwapEnds(state: GameState)
      modifies state`drawPile
      ensures state.drawPile == var pile := old(state.drawPile);
        if |pile| > 1 then Swapped(pile, 0, |pile| - 1) else pile
    {
      if |state.drawPile| > 1 {
        var last := |state.drawPile| - 1;
        state.drawPile := state.drawPile[0 := state.drawPile[last]][last := state.drawPile[0]];
      }
    }

    method GiveExtraTurns(state: GameState, source: PlayerId, target: PlayerId)
      modifies state
      ensures Snap(state) == LoadTurns(old(Snap(state)), source, target)
    {
      state.turnDebt := state.turnDebt[target := Debt(state.turnDebt, target) + EXTRA_TURN_DEBT];
      state.turnDebt := state.turnDebt[source := 0];
      AdvanceToPlayer(state, target);
    }

    method PromptFor(state: GameState, source: PlayerId, kind: PendingKind, target: PlayerId, phase: Phase)
      modifies this, state
      ensures Snap(state) == Ask(old(Snap(state)), Prompt(old(nextPending) + 1, source, kind, [], target), phase, 1)
    {
      state.phase := phase;
      var id := NextPendingId();
      state.pendingAction := Some(Prompt(id, source, kind, [], target));
      NextEvent(state);
    }

    method PromptReorder(state: GameState, source: PlayerId, limit: nat)
      modifies this, state
      ensures Snap(state) == OfferReorder(old(Snap(state)), source, limit)
    {
      var cards := Top(state.drawPile, limit);
      if cards == [] {
        return;
      }
      state.phase := WaitingDeckReorder;
      var id := NextPendingId();
      state.pendingAction := Some(Prompt(id, source, DeckReorder, cards, 0));
      NextEvent(state);
    }

    method PromptRecycle(state: GameState, source: PlayerId, rnd: Random)
      modifies this, state
      ensures Snap(state) == OfferRecycle(old(Snap(state)), source, rnd)
    {
      var ids := Searching.RecycleEligiblePlayerIds(state.players);
      if ids == [] {
        state.drawPile := Shuffle(state.drawPile, rnd);
        return;
      }
      state.phase := WaitingRecycleChoices;
      var id := NextPendingId();
      state.pendingAction := Some(Prompt(id, source, RecycleChoices, [], 0).(recyclers := ids));
      var i := 0;
      while i < |ids|
        invariant 0 <= i <= |ids|
        invariant Snap(state)
            == Ask(old(Snap(state)), Prompt(old(nextPending) + 1, source, RecycleChoices, [], 0).(recyclers := ids),
                                     WaitingRecycleChoices, i)
      {
        NextEvent(state);
        i := i + 1;
      }
    }

    /** The effect of a combo; its resolution event has been issued. */
    method ResolvePendingCombo(state: GameState, pending: Pending, rnd: Random) returns (err: Error)
      modifies this, state
      ensures Outcome(Snap(state), err) == ResolveCombo(old(Snap(state)), pending, rnd)
    {
      err := NoError;
      match pending.combo
      case Pair =>
        err := TransferRandomCard(state, pending.target, pending.source, rnd);
        if err == NoError {
          ResolveUnsafeExplosivesFrom(state, state.currentPlayerId, [pending.target, pending.source]);
        }
      case Triple =>
        if pending.requested.None? {
          return InvalidCardPlay;
        }
        var transferred;
        transferred, err := TransferFirstCardByCode(state, pending.target, pending.source, pending.requested.value);
        if transferred {
          ResolveUnsafeExplosivesFrom(state, state.currentPlayerId, [pending.target, pending.source]);
        }
      case FiveDifferent =>
        state.phase := WaitingDiscardRecovery;
        var id := NextPendingId();
        state.pendingAction := Some(Prompt(id, pending.source, DiscardRecovery, pending.cards, 0).(
          combo := pending.combo));
        NextEvent(state);
      case NoCombo =>
        err := InvalidCardPlay;
    }

    method TransferRandomCard(state: GameState, from: PlayerId, to: PlayerId, rnd: Random) returns (err: Error)
      modifies state
      ensures var s := old(Snap(state));
        var hand := HandOf(s.players, from);
        && err == (if StealError(s.players, from, to) != NoError then StealError(s.players, from, to)
                   else if hand == [] then InvalidTarget else NoError)
        && Snap(state) == if err == NoError
            then Move(s, Seat(s.players, from), Intn(rnd, 0, |hand|), Seat(s.players, to)) else s
    {
      var fromIndex, e := Searching.CurrentAlivePlayer(state.players, from);
      if e != NoError {
        return e;
      }
      var toIndex;
      toIndex, e := Searching.CurrentAlivePlayer(state.players, to);
      if e != NoError {
        return e;
      }
      var hand := state.players[fromIndex].hand;
      if hand == [] {
        return InvalidTarget;
      }
      err := NoError;
      var cardIndex := Intn(rnd, 0, |hand|);
      MoveCard(state, fromIndex, cardIndex, toIndex);
    }

    method TransferFirstCardByCode(state: GameState, from: PlayerId, to: PlayerId, code: Code)
      returns (transferred: bool, err: Error)
      modifies state
      ensures var s := old(Snap(state));
        var j := IndexOfCode(HandOf(s.players, from), code);
        && err == StealError(s.players, from, to)
        && transferred == (err == NoError && j >= 0)
        && Snap(state) == if transferred then Move(s, Seat(s.players, from), j, Seat(s.players, to)) else s
    {
      transferred := false;
      var fromIndex, toIndex;
      fromIndex, err := Searching.CurrentAlivePlayer(state.players, from);
      if err != NoError {
        return;
      }
      toIndex, err := Searching.CurrentAlivePlayer(state.players, to);
      if err != NoError {
        return;
      }
      var cardIndex := Searching.FindCardIndexByCode(state.players[fromIndex].hand, code);
      if cardIndex < 0 {
        return;
      }
      transferred := true;
      MoveCard(state, fromIndex, cardIndex, toIndex);
    }

    method MoveCard(state: GameState, fromIndex: nat, cardIndex: nat, toIndex: nat)
      requires fromIndex < |state.players| && toIndex < |state.players| && cardIndex < |state.players[fromIndex].hand|
      modifies state`players, state`markedCards
      ensures Snap(state) == Move(old(Snap(state)), fromIndex, cardIndex, toIndex)
    {
      var hand := state.players[fromIndex].hand;
      ReplaceHand(state, fromIndex, RemoveAt(hand, cardIndex));
      AppendToHand(state, toIndex, hand[cardIndex]);
    }

    // --------------------------------------------------------------- prompts

    method ChooseCardForRequest(state: GameState, player: PlayerId, cardId: CardId) returns (err: Error)
      modifies this, state
      ensures err == RequestGuard(old(Snap(state)), player, cardId)
      ensures Snap(state) == if err == NoError then RequestEffect(old(Snap(state)), player, cardId)
                             else old(Snap(state))
    {
      if state.phase != WaitingRequestCardChoice {
        return InvalidPhase;
      }
      if state.pendingAction.None? || state.pendingAction.value.kind != RequestCardChoice {
        return NoPendingAction;
      }
      var pending := state.pendingAction.value;
      if pending.target != player {
        return NotYourTurn;
      }
      var targetIndex, e := Searching.CurrentAlivePlayer(state.players, player);
      if e != NoError {
        return e;
      }
      var sourceIndex;
      sourceIndex, e := Searching.CurrentAlivePlayer(state.players, pending.source);
      if e != NoError {
        return e;
      }
      var cardIndex := Searching.FindCardIndexById(state.players[targetIndex].hand, cardId);
      if cardIndex < 0 {
        return CardNotInHand;
      }
      err := NoError;
      HandOver(state, targetIndex, cardIndex, sourceIndex);
      ResolveUnsafeExplosivesFrom(state, state.currentPlayerId, [player, pending.source]);
    }

    /** The requested card changes hands and the prompt closes. */
    method HandOver(state: GameState, fromIndex: nat, cardIndex: nat, toIndex: nat)
      requires fromIndex < |state.players| && toIndex < |state.players| && cardIndex < |state.players[fromIndex].hand|
      modifies state
      ensures Snap(state)
            == Move(Tick(old(Snap(state)).(pending := None, phase := PlayerTurn), 1), fromIndex, cardIndex, toIndex)
    {
      MoveCard(state, fromIndex, cardIndex, toIndex);
      state.pendingAction := None;
      state.phase := PlayerTurn;
      NextEvent(state);
    }

    method ChooseMarkedCard(state: GameState, player: PlayerId, cardId: CardId) returns (err: Error)
      modifies this, state
      ensures err == MarkGuard(old(Snap(state)), player, cardId)
      ensures Snap(state) == if err == NoError then MarkEffect(old(Snap(state)), player, cardId) else old(Snap(state))
    {
      if state.phase != WaitingMarkedCardChoice {
        return InvalidPhase;
      }
      if state.pendingAction.None? || state.pendingAction.value.kind != MarkedCardChoice {
        return NoPendingAction;
      }
      var pending := state.pendingAction.value;
      if pending.source != player {
        return NotYourTurn;
      }
      var index, e := Searching.CurrentAlivePlayer(state.players, pending.target);
      if e != NoError {
        return e;
      }
      var target := state.players[index];
      var cardIndex := Searching.FindCardIndexById(target.hand, cardId);
      if cardIndex < 0 {
        return CardNotInHand;
      }
      err := NoError;
      MarkCard(state, target.id, target.hand[cardIndex]);
    }

    method MarkCard(state: GameState, owner: PlayerId, card: Card)
      modifies state
      ensures var s := old(Snap(state));
        Snap(state) == Tick(s.(
          marks := s.marks[card.id := Mark(card.id, owner, card)], pending := None, phase := PlayerTurn), 1)
    {
      state.markedCards := state.markedCards[card.id := Mark(card.id, owner, card)];
      state.pendingAction := None;
      state.phase := PlayerTurn;
      NextEvent(state);
    }

    method SubmitReorderedTopCards(state: GameState, player: PlayerId, cardIds: seq<CardId>) returns (err: Error)
      modifies this, state
      ensures err == ReorderGuard(old(Snap(state)), player, cardIds)
      ensures Snap(state) == if err == NoError then ReorderEffect(old(Snap(state)), player, cardIds)
                             else old(Snap(state))
    {
      if state.phase != WaitingDeckReorder {
        return InvalidPhase;
      }
      if state.pendingAction.None? || state.pendingAction.value.kind != DeckReorder {
        return NoPendingAction;
      }
      var pending := state.pendingAction.value;
      if pending.source != player {
        return NotYourTurn;
      }
      var reordered, ok := Searching.Reordered(state.drawPile, pending.cards, cardIds);
      if !ok {
        return InvalidCardPlay;
      }
      err := NoError;
      SetTop(state, reordered, |pending.cards|);
    }

    /** The first `n` cards of the pile are replaced and the prompt closes. */
    method SetTop(state: GameState, cards: seq<Card>, n: nat)
      requires n <= |state.drawPile|
      modifies state
      ensures Snap(state)
            == Tick(old(Snap(state)).(
                 draw := cards + old(state.drawPile)[n..], pending := None, phase := PlayerTurn), 1)
    {
      state.drawPile := cards + state.drawPile[n..];
      state.pendingAction := None;
      state.phase := PlayerTurn;
      NextEvent(state);
    }

    method ChooseCardForRecycle(state: GameState, player: PlayerId, cardId: CardId, rnd: Random) returns (err: Error)
      modifies this, state
      ensures err == RecycleGuard(old(Snap(state)), player, cardId)
      ensures Snap(state) == if err == NoError then RecycleEffect(old(Snap(state)), player, cardId, rnd)
                             else old(Snap(state))
    {
      if state.phase != WaitingRecycleChoices {
        return InvalidPhase;
      }
      if state.pendingAction.None? || state.pendingAction.value.kind != RecycleChoices {
        return NoPendingAction;
      }
      var pending := state.pendingAction.value;
      var listed := Searching.ContainsPlayerId(pending.recyclers, player);
      if !listed {
        return NotYourTurn;
      }
      if player in pending.selections {
        return InvalidCardPlay;
      }
      var index, e := Searching.CurrentAlivePlayer(state.players, player);
      if e != NoError {
        return e;
      }
      var hand := state.players[index].hand;
      var cardIndex := Searching.FindCardIndexById(hand, cardId);
      if cardIndex < 0 {
        return CardNotInHand;
      }
      err := NoError;
      SelectCard(state, player, index, cardIndex);
      if |state.pendingAction.value.selections| == |state.pendingAction.value.recyclers| {
        CloseRecycleChoices(state, rnd);
      }
    }

    /** The card leaves the hand and waits among the selections. */
    method SelectCard(state: GameState, player: PlayerId, index: nat, cardIndex: nat)
      requires index < |state.players| && cardIndex < |state.players[index].hand| && state.pendingAction.Some?
      modifies state
      ensures var s := old(Snap(state)); var hand := s.players[index].hand;
        Snap(state) == SetHand(s, index, RemoveAt(hand, cardIndex)).(
          pending := Some(s.pending.value.(selections := s.pending.value.selections[player := hand[cardIndex]])))
    {
      var pending, hand := state.pendingAction.value, state.players[index].hand;
      state.pendingAction := Some(pending.(selections := pending.selections[player := hand[cardIndex]]));
      ReplaceHand(state, index, RemoveAt(hand, cardIndex));
    }

    /** Everybody has chosen: the cards join the draw pile, which is shuffled. */
    method CloseRecycleChoices(state: GameState, rnd: Random)
      requires state.pendingAction.Some?
      modifies this, state
      ensures Snap(state) == CloseRecycle(old(Snap(state)), rnd)
    {
      var recyclers := state.pendingAction.value.recyclers;
      ShuffleIn(state, rnd);
      ResolveUnsafeExplosivesFrom(state, state.currentPlayerId, recyclers);
    }

    /** The chosen cards are appended in listing order and the whole pile is shuffled. */
    method ShuffleIn(state: GameState, rnd: Random)
      requires state.pendingAction.Some?
      modifies state
      ensures Snap(state) == Pooled(old(Snap(state)), rnd)
    {
      var pending := state.pendingAction.value;
      var chosen := Searching.SelectedCards(pending.recyclers, pending.selections);
      state.drawPile := Shuffle(state.drawPile + chosen, rnd);
      state.pendingAction := None;
      state.phase := PlayerTurn;
      NextEvent(state);
    }

    method ChooseCardFromDiscard(state: GameState, player: PlayerId, cardId: CardId) returns (err: Error)
      modifies this, state
      ensures err == RecoverGuard(old(Snap(state)), player, cardId)
      ensures Snap(state) == if err == NoError then RecoverEffect(old(Snap(state)), player, cardId)
                             else old(Snap(state))
    {
      if state.phase != WaitingDiscardRecovery {
        return InvalidPhase;
      }
      if state.pendingAction.None? || state.pendingAction.value.kind != DiscardRecovery {
        return NoPendingAction;
      }
      if state.pendingAction.value.source != player {
        return NotYourTurn;
      }
      var cardIndex := Searching.FindCardIndexById(state.discardPile, cardId);
      if cardIndex < 0 {
        return CardNotInHand;
      }
      var index, e := Searching.CurrentAlivePlayer(state.players, player);
      if e != NoError {
        return e;
      }
      err := NoError;
      Recover(state, index, cardIndex);
      ResolveUnsafeExplosivesFrom(state, state.currentPlayerId, [player]);
    }

    /** The discarded card comes to the hand and the prompt closes. */
    method Recover(state: GameState, index: nat, cardIndex: nat)
      requires index < |state.players| && cardIndex < |state.discardPile|
      modifies state
      ensures var s := old(Snap(state));
        Snap(state) == Tick(Give(s.(discard := RemoveAt(s.discard, cardIndex)), index, s.discard[cardIndex]).(
          pending := None, phase := PlayerTurn), 1)
    {
      var card := state.discardPile[cardIndex];
      state.discardPile := RemoveAt(state.discardPile, cardIndex);
      AppendToHand(state, index, card);
      state.pendingAction := None;
      state.phase := PlayerTurn;
      NextEvent(state);
    }
  }

  /** A reveal that takes effect names a player at the table; the hand it lists must exist. */
  ghost predicate RevealTargetKnown(s: State) {
    (ResolveGuard(s) == NoError && s.pending.value.cancels % 2 == 0
     && s.pending.value.kind == PlayedCard && s.pending.value.cards[0].code == RevealHeldCard)
    ==> Seat(s.players, s.pending.value.target) >= 0
  }
}
