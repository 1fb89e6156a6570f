/** The menu of commands a player is shown, against what the engine really accepts. */
module View {
  import opened Cards
  import opened Table
  import opened Rules
  import opened Invariant
  import opened Preserve
  import opened Prompts
  import opened Runs
  import opened Stalemate
  import Searching

  datatype CommandType =
    | Draw | Play | Combo | CancelCard | Place | ForRequest | FromDiscard | ForRecycle | Marked | Reorder

  function TypeOf(c: Command): CommandType
    requires FromPlayer(c)
  {
    match c
    case DrawCard(_) => Draw
    case PlaceExplosive(_, _) => Place
    case PlayCard(_, _, _) => Play
    case PlayCombo(_, _, _, _) => Combo
    case PlayCancel(_, _, _) => CancelCard
    case ChooseCardForRequest(_, _) => ForRequest
    case ChooseMarkedCard(_, _) => Marked
    case SubmitReorderedTopCards(_, _) => Reorder
    case ChooseCardForRecycle(_, _) => ForRecycle
    case ChooseCardFromDiscard(_, _) => FromDiscard
  }

  predicate FromPlayer(c: Command) {
    !c.ExpireCancelWindow? && !c.ResolveCancelWindow?
  }

  predicate HasPlayable(hand: seq<Card>) {
    exists k :: 0 <= k < |hand| && IsAction(hand[k].code) && hand[k].code != Cancel && IsSupportedAction(hand[k].code)
  }

  /** The id of the card the player has chosen, or the empty id. */
  function ChosenId(selections: map<PlayerId, Card>, id: PlayerId): CardId {
    if id in selections then selections[id].id else 0
  }

  function Menu(s: State, player: Player): seq<CommandType> {
    if !player.alive then []
    else
      match s.phase
      case PlayerTurn =>
        if s.current != player.id then []
        else [Draw] + (if HasPlayable(player.hand) then [Play] else []) + (if |player.hand| >= 2 then [Combo] else [])
      case CancelWindow => if IndexOfCode(player.hand, Cancel) >= 0 then [CancelCard] else []
      case WaitingExplosivePlacement => if s.pending.Some? && s.pending.value.source == player.id then [Place] else []
      case WaitingRequestCardChoice => if s.pending.Some? && s.pending.value.target == player.id then [ForRequest]
        else []
      case WaitingDiscardRecovery => if s.pending.Some? && s.pending.value.source == player.id then [FromDiscard]
        else []
      case WaitingRecycleChoices =>
        if s.pending.Some? && player.id in s.pending.value.recyclers
            && ChosenId(s.pending.value.selections, player.id) == 0
        then [ForRecycle] else []
      case WaitingMarkedCardChoice => if s.pending.Some? && s.pending.value.source == player.id then [Marked] else []
      case WaitingDeckReorder => if s.pending.Some? && s.pending.value.source == player.id then [Reorder] else []
      case GameOver => []
  }

  method HasPlayableAction(cards: seq<Card>) returns (found: bool)
    ensures found == HasPlayable(cards)
  {
    var i := 0;
    while i < |cards|
      invariant 0 <= i <= |cards|
      invariant forall k ::
          0 <= k < i ==> !(IsAction(cards[k].code) && cards[k].code != Cancel && IsSupportedAction(cards[k].code))
    {
      if IsAction(cards[i].code) && cards[i].code != Cancel && IsSupportedAction(cards[i].code) {
        return true;
      }
      i := i + 1;
    }
    return false;
  }

  /** The menu, built up entry by entry. */
  method BuildAvailableActions(state: E.GameState, player: Player) returns (actions: seq<CommandType>)
    ensures actions == Menu(E.Read(state, 0), player)
  {
    actions := [];
    if !player.alive {
      return;
    }
    var pending := state.pendingAction;
    match state.phase
    case PlayerTurn =>
      if state.currentPlayerId == player.id {
        actions := actions + [Draw];
        var playable := HasPlayableAction(player.hand);
        if playable { actions := actions + [Play]; }
        if |player.hand| >= 2 { actions := actions + [Combo]; }
      }
    case CancelWindow =>
      var index := Searching.FindCardIndexByCode(player.hand, Cancel);
      if index >= 0 { actions := actions + [CancelCard]; }
    case WaitingExplosivePlacement =>
      if pending.Some? && pending.value.source == player.id { actions := actions + [Place]; }
    case WaitingRequestCardChoice =>
      if pending.Some? && pending.value.target == player.id { actions := actions + [ForRequest]; }
    case WaitingDiscardRecovery =>
      if pending.Some? && pending.value.source == player.id { actions := actions + [FromDiscard]; }
    case WaitingRecycleChoices =>
      if pending.Some? {
        var listed := Searching.ContainsPlayerId(pending.value.recyclers, player.id);
        if listed && ChosenId(pending.value.selections, player.id) == 0 { actions := actions + [ForRecycle]; }
      }
    case WaitingMarkedCardChoice =>
      if pending.Some? && pending.value.source == player.id { actions := actions + [Marked]; }
    case WaitingDeckReorder =>
      if pending.Some? && pending.value.source == player.id { actions := actions + [Reorder]; }
    case GameOver =>
  }

  // ------------------------------------------------------------------ theorems

  /** What a player can send and have accepted. */
  ghost predicate Accepts(s: State, id: PlayerId, kind: CommandType) {
    exists c: Command :: FromPlayer(c) && c.player == id && TypeOf(c) == kind && Guard(s, c) == NoError
  }

  /** Most guards check that the player is alive. */
  lemma GuardChecksLife(s: State, c: Command)
    requires FromPlayer(c) && Guard(s, c) == NoError
    requires !c.PlaceExplosive? && !c.ChooseMarkedCard? && !c.SubmitReorderedTopCards?
    ensures IsAlive(s.players, c.player)
  {
  }

  /** The others are answered by the player whom the pending action names. */
  lemma PromptedIsAlive(s: State, c: Command)
    requires InPlay(s) && PendingOk(s) && Guard(s, c) == NoError
    requires c.PlaceExplosive? || c.ChooseMarkedCard? || c.SubmitReorderedTopCards?
    ensures IsAlive(s.players, c.player)
  {
  }

  lemma AcceptedFromAlive(s: State, c: Command)
    requires Inv(s) && FromPlayer(c) && Guard(s, c) == NoError
    ensures IsAlive(s.players, c.player)
  {
    if c.PlaceExplosive? || c.ChooseMarkedCard? || c.SubmitReorderedTopCards? {
      PromptedIsAlive(s, c);
    } else {
      GuardChecksLife(s, c);
    }
  }

  lemma PlayedIsPlayable(s: State, p: PlayerId, ids: seq<CardId>, target: PlayerId)
    requires PlayGuard(s, p, ids, target) == NoError
    ensures HasPlayable(HandOf(s.players, p))
  {
  }

  lemma ComboNeedsTwo(s: State, p: PlayerId, ids: seq<CardId>, target: PlayerId, requested: Option<Code>)
    requires ComboGuard(s, p, ids, target, requested) == NoError
    ensures |HandOf(s.players, p)| >= 2
  {
    ComboAccepted(s, p, ids, target, requested, 0);
    var hand := HandOf(s.players, p);
    IdsAccepted(hand, ids);
    PickedCards(hand, ids);
    DistinctPairs(ids);
    assert IndexOfId(hand, ids[0]) != IndexOfId(hand, ids[1]);
  }

  lemma Offered(s: State, c: Command, player: Player)
    requires FromPlayer(c) && Guard(s, c) == NoError
    requires player.alive && player.id == c.player && player.hand == HandOf(s.players, c.player)
    requires c.PlayCard? ==> HasPlayable(player.hand)
    requires c.PlayCombo? ==> |player.hand| >= 2
    ensures TypeOf(c) in Menu(s, player)
  {
  }

  /** Complete: whatever command of a player the engine accepts, the player's menu offers its type. */
  lemma MenuIsComplete(s: State, c: Command)
    requires Reachable(s) && FromPlayer(c) && Guard(s, c) == NoError
    ensures IsAlive(s.players, c.player) && TypeOf(c) in Menu(s, s.players[Seat(s.players, c.player)])
  {
    ReachableInv(s);
    AcceptedFromAlive(s, c);
    if c.PlayCard? { PlayedIsPlayable(s, c.player, c.cards, c.target); }
    if c.PlayCombo? { ComboNeedsTwo(s, c.player, c.cards, c.target, c.requested); }
    Offered(s, c, s.players[Seat(s.players, c.player)]);
  }

  // ----------------------------------------------------- entries that can be used

  lemma Witness(s: State, id: PlayerId, kind: CommandType, c: Command)
    requires FromPlayer(c) && c.player == id && TypeOf(c) == kind && Guard(s, c) == NoError
    ensures Accepts(s, id, kind)
  {
  }

  lemma CancelUsable(s: State, player: Player)
    requires PendingOk(s) && CancelCard in Menu(s, player)
    requires IsAlive(s.players, player.id) && HandOf(s.players, player.id) == player.hand
    ensures Accepts(s, player.id, CancelCard)
  {
    var c := PlayCancel(player.id, 0, 0);
    assert CancelGuard(s, player.id, 0, 0) == NoError;
    Witness(s, player.id, CancelCard, c);
  }

  lemma PlaceUsable(s: State, player: Player)
    requires PendingOk(s) && Place in Menu(s, player)
    ensures Accepts(s, player.id, Place)
  {
    var c := PlaceExplosive(player.id, 0);
    assert PlaceGuard(s, player.id, 0) == NoError;
    Witness(s, player.id, Place, c);
  }

  lemma RecoveryUsable(s: State, player: Player)
    requires PendingOk(s) && FromDiscard in Menu(s, player) && IsAlive(s.players, player.id)
    ensures Accepts(s, player.id, FromDiscard)
  {
    assert IndexOfId(s.discard, s.discard[0].id) == 0;
    var c := ChooseCardFromDiscard(player.id, s.discard[0].id);
    assert RecoverGuard(s, player.id, c.card) == NoError;
    Witness(s, player.id, FromDiscard, c);
  }

  lemma ReorderEntry(s: State, player: Player)
    requires Reorder in Menu(s, player)
    ensures s.phase == WaitingDeckReorder && s.pending.Some? && s.pending.value.source == player.id
  {
  }

  lemma ReorderUsable(s: State, player: Player)
    requires Inv(s) && Reorder in Menu(s, player)
    ensures Accepts(s, player.id, Reorder)
  {
    ReorderEntry(s, player);
    var c := SameOrderAccepted(s);
    assert Guard(s, c) == NoError;
    Witness(s, player.id, Reorder, c);
  }

  /** A chosen card has a non-empty id, so the empty id means that the player has not chosen. */
  lemma EmptyMeansOpen(s: State, q: Pending, id: PlayerId)
    requires Fair(AllCards(s)) && s.pending == Some(q) && q.kind == RecycleChoices && Listed(q.recyclers, q.selections)
    ensures ChosenId(q.selections, id) == 0 <==> id !in q.selections
  {
    if id in q.selections {
      SelectedHas(q.recyclers, q.selections, id);
      SelectedFair(s, q.selections[id]);
    }
  }

  lemma SelectedFair(s: State, c: Card)
    requires Fair(AllCards(s)) && c in LimboCards(s.pending)
    ensures c.id != 0
  {
    assert LimboCards(s.pending)[c] <= AllCards(s)[c];
    assert FairPair(AllCards(s), c, c);
  }

  lemma RecycleEntry(s: State, player: Player)
    requires ForRecycle in Menu(s, player)
    ensures s.phase == WaitingRecycleChoices && s.pending.Some?
    ensures player.id in s.pending.value.recyclers && ChosenId(s.pending.value.selections, player.id) == 0
  {
  }

  lemma RecycleUsable(s: State, player: Player)
    requires PendingOk(s) && Fair(AllCards(s)) && ForRecycle in Menu(s, player)
    ensures Accepts(s, player.id, ForRecycle)
  {
    RecycleEntry(s, player);
    EmptyMeansOpen(s, s.pending.value, player.id);
    var c := OpenChoice(s, s.pending.value, player.id);
    assert RecycleGuard(s, player.id, c.card) == NoError;
    Witness(s, player.id, ForRecycle, c);
  }

  lemma OpenChoice(s: State, q: Pending, p: PlayerId) returns (c: Command)
    requires s.phase == WaitingRecycleChoices && s.pending == Some(q) && q.kind == RecycleChoices
    requires RecycleOk(s, q) && p in q.recyclers && p !in q.selections
    ensures c.ChooseCardForRecycle? && c.player == p && RecycleGuard(s, p, c.card) == NoError
  {
    assert HandOf(s.players, p) != [];
    c := ChooseCardForRecycle(p, HandOf(s.players, p)[0].id);
  }

  /** The hand of the player whom the pending action asks for a card. */
  function AskedHand(s: State): seq<Card> {
    if s.pending.Some? then HandOf(s.players, s.pending.value.target) else []
  }

  lemma AnswerEntry(s: State, player: Player, kind: CommandType)
    requires PendingOk(s) && kind in {ForRequest, Marked} && kind in Menu(s, player)
    ensures s.phase == if kind == ForRequest then WaitingRequestCardChoice else WaitingMarkedCardChoice
    ensures s.pending.Some? && player.id == if kind == ForRequest then s.pending.value.target
                                            else s.pending.value.source
    ensures s.pending.value.source == s.current
  {
  }

  lemma AnsweredIsAccepted(s: State, player: Player, kind: CommandType)
    requires InPlay(s) && PendingOk(s) && kind in {ForRequest, Marked} && kind in Menu(s, player) && AskedHand(s) != []
    ensures Accepts(s, player.id, kind)
  {
    AnswerEntry(s, player, kind);
    if kind == ForRequest {
      var c := RequestAnswered(s);
      Witness(s, player.id, kind, c);
    } else {
      var c := MarkAnswered(s);
      Witness(s, player.id, kind, c);
    }
  }

  /** The prompts for a card of the target's hand can be answered exactly while that hand is not empty. */
  lemma AnswerUsable(s: State, player: Player, kind: CommandType)
    requires Inv(s) && kind in {ForRequest, Marked} && kind in Menu(s, player)
    ensures Accepts(s, player.id, kind) <==> AskedHand(s) != []
  {
    AnswerEntry(s, player, kind);
    if AskedHand(s) != [] {
      AnsweredIsAccepted(s, player, kind);
    } else {
      forall c: Command | Guard(s, c) == NoError ensures false {
        EmptyHandedIsStuck(s, c);
      }
    }
  }

  lemma DrawUsable(s: State, player: Player)
    requires InPlay(s) && Draw in Menu(s, player)
    ensures Accepts(s, player.id, Draw) <==> s.draw != []
  {
    DrawEntry(s, player);
    if s.draw != [] {
      Witness(s, player.id, Draw, DrawCard(player.id));
    } else {
      forall c: Command | FromPlayer(c) && TypeOf(c) == Draw ensures Guard(s, c) != NoError {
        EmptyPile(s, c);
      }
    }
  }

  lemma DrawEntry(s: State, player: Player)
    requires InPlay(s) && Draw in Menu(s, player)
    ensures s.draw == [] || Guard(s, DrawCard(player.id)) == NoError
  {
  }

  lemma EmptyPile(s: State, c: Command)
    requires s.draw == [] && FromPlayer(c) && TypeOf(c) == Draw
    ensures Guard(s, c) != NoError
  {
  }

  lemma AlwaysUsable(s: State, player: Player, kind: CommandType)
    requires Inv(s) && kind in Menu(s, player)
    requires IsAlive(s.players, player.id) && HandOf(s.players, player.id) == player.hand
    requires kind in {CancelCard, Place, FromDiscard, ForRecycle, Reorder}
    ensures Accepts(s, player.id, kind)
  {
    match kind
    case CancelCard => CancelUsable(s, player);
    case Place => PlaceUsable(s, player);
    case FromDiscard => RecoveryUsable(s, player);
    case ForRecycle => RecycleUsable(s, player);
    case Reorder => ReorderUsable(s, player);
  }

  lemma ShownToTheLiving(s: State, i: nat, kind: CommandType)
    requires DistinctPlayers(s.players) && i < |s.players| && kind in Menu(s, s.players[i])
    ensures IsAlive(s.players, s.players[i].id) && HandOf(s.players, s.players[i].id) == s.players[i].hand
  {
    SeatOf(s.players, i);
  }

  /**
   How far the menu can be trusted. Cancel, placement, recovery, recycle and reorder entries always
   have an accepted payload; a draw entry has one exactly while the draw pile is not empty, a
   request or reveal entry exactly while the asked hand is not empty, and a play or combo entry
   exactly if the hand holds a card or cards that can be played.
   */
  lemma MenuIsUsable(s: State, i: nat, kind: CommandType)
    requires Reachable(s) && i < |s.players| && kind in Menu(s, s.players[i])
    ensures Accepts(s, s.players[i].id, kind) <==>
      && (kind == Draw ==> s.draw != [])
      && (kind in {ForRequest, Marked} ==> AskedHand(s) != [])
      && (kind == Play ==> CardToPlay(s))
      && (kind == Combo ==> ComboToPlay(s))
  {
    ReachableInv(s);
    ShownToTheLiving(s, i, kind);
    if kind in {Play, Combo} {
      PlayPhase(s, s.players[i], kind);
      PlayUsable(s, kind);
    } else {
      MenuMeans(s, s.players[i], kind);
    }
  }

  lemma PlayPhase(s: State, player: Player, kind: CommandType)
    requires kind in {Play, Combo} && kind in Menu(s, player)
    ensures s.phase == PlayerTurn && player.id == s.current
  {
  }

  /** The current player can play a card, or a combo, exactly with the cards for it in the hand. */
  lemma PlayUsable(s: State, kind: CommandType)
    requires Inv(s) && s.phase == PlayerTurn && kind in {Play, Combo}
    ensures Accepts(s, s.current, kind) <==> if kind == Play then CardToPlay(s) else ComboToPlay(s)
  {
    var hand := HandOf(s.players, s.current);
    if Accepts(s, s.current, kind) {
      var c: Command :| FromPlayer(c) && c.player == s.current && TypeOf(c) == kind && Guard(s, c) == NoError;
      PlayedFromHand(s, c, kind);
    }
    if kind == Play && CardToPlay(s) {
      var k: nat :| k < |hand| && PlaysAlone(hand[k].code, Victim(s), s.draw != []);
      var c := AlonePlays(s, k);
      Witness(s, s.current, kind, c);
    }
    if kind == Combo && ComboToPlay(s) {
      var at :| PlaysTogether(hand, at, Victim(s));
      var c := TogetherPlays(s, at);
      Witness(s, s.current, kind, c);
    }
  }

  lemma PlayedFromHand(s: State, c: Command, kind: CommandType)
    requires Inv(s) && FromPlayer(c) && TypeOf(c) == kind && Guard(s, c) == NoError
    ensures kind == Play ==> CardToPlay(s)
    ensures kind == Combo ==> ComboToPlay(s)
  {
    if c.PlayCard? { CardWasAlone(s, c.player, c.cards, c.target); }
    if c.PlayCombo? { ComboWasTogether(s, c.player, c.cards, c.target, c.requested); }
  }

  lemma MenuMeans(s: State, player: Player, kind: CommandType)
    requires Inv(s) && kind in Menu(s, player) && kind !in {Play, Combo}
    requires IsAlive(s.players, player.id) && HandOf(s.players, player.id) == player.hand
    ensures Accepts(s, player.id, kind)
        <==> (kind == Draw ==> s.draw != []) && (kind in {ForRequest, Marked} ==> AskedHand(s) != [])
  {
    if kind == Draw {
      DrawPhase(s, player);
      DrawUsable(s, player);
    } else if kind in {ForRequest, Marked} {
      AnswerUsable(s, player, kind);
    } else {
      AlwaysUsable(s, player, kind);
    }
  }

  lemma DrawPhase(s: State, player: Player)
    requires Draw in Menu(s, player)
    ensures s.phase == PlayerTurn
  {
  }
}
