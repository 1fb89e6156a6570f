/**
 The rules of the game as functions on state values. `Guard` says which error, if any, an
 engine method reports before it touches the state; `Effect` is what it does otherwise.
 The methods of `Engine` are proved equal to `Step`; the theorems are about `Step`.
 */
module Rules {
  import opened Cards
  import opened Shuffling
  import opened Table

  const EXTRA_TURN_DEBT := 2
  const CANCEL_WINDOW_MS := 5000

  datatype Command =
    | DrawCard(player: PlayerId)
    | PlaceExplosive(player: PlayerId, index: int)
    | PlayCard(player: PlayerId, cards: seq<CardId>, target: PlayerId)
    | PlayCombo(player: PlayerId, cards: seq<CardId>, target: PlayerId, requested: Option<Code>)
    | PlayCancel(player: PlayerId, card: CardId, pendingId: nat)
    | ExpireCancelWindow(at: Option<int>)  // None is the zero time
    | ResolveCancelWindow
    | ChooseCardForRequest(player: PlayerId, card: CardId)
    | ChooseMarkedCard(player: PlayerId, card: CardId)
    | SubmitReorderedTopCards(player: PlayerId, cards: seq<CardId>)
    | ChooseCardForRecycle(player: PlayerId, card: CardId)
    | ChooseCardFromDiscard(player: PlayerId, card: CardId)

  /** What a command reads besides its payload: the clock and the random source. */
  datatype Env = Env(now: int, rnd: Random)

  function Ok(s: State): Outcome {
    Outcome(s, NoError)
  }

  // ------------------------------------------------------------ small steps

  function Tick(s: State, events: nat): State {
    s.(eventSeq := s.eventSeq + events)
  }

  /** Give the player in seat `i` a smaller hand and drop the marks that no longer match. */
  function SetHand(s: State, i: nat, hand: seq<Card>): State
    requires i < |s.players|
  {
    s.(players := s.players[i := s.players[i].(hand := hand)],
       marks := Unmarked(s.marks, s.players[i].id, hand))
  }

  function Give(s: State, i: nat, card: Card): State
    requires i < |s.players|
  {
    s.(players := s.players[i := s.players[i].(hand := s.players[i].hand + [card])])
  }

  /** Move card `j` of seat `i` to the end of the hand in seat `k`. */
  function Move(s: State, i: nat, j: nat, k: nat): State
    requires i < |s.players| && k < |s.players| && j < |s.players[i].hand|
  {
    Give(SetHand(s, i, RemoveAt(s.players[i].hand, j)), k, s.players[i].hand[j])
  }

  function Eliminate(s: State, i: nat): State
    requires i < |s.players|
  {
    Tick(SetHand(s, i, []).(
         discard := s.discard + s.players[i].hand,
         players := s.players[i := s.players[i].(hand := [], alive := false)]), 1)
  }

  // ------------------------------------------------------------- turn order

  /** The first living player found at seats start+step, start+step+1, ... up to a full circle. */
  function NextAliveFrom(players: seq<Player>, start: nat, step: nat): Option<PlayerId>
    requires start < |players|
    decreases |players| + 1 - step
  {
    if step > |players| then None
    else
      var i := (start + step) % |players|;
      if players[i].alive then Some(players[i].id) else NextAliveFrom(players, start, step + 1)
  }

  function NextAlive(players: seq<Player>, from: PlayerId): Option<PlayerId> {
    var start := Seat(players, from);
    if start < 0 then None else NextAliveFrom(players, start, 1)
  }

  function AdvanceTo(s: State, id: PlayerId): State {
    Tick(s.(current := id, phase := PlayerTurn,
            debt := if Debt(s.debt, id) <= 0 then s.debt[id := 1] else s.debt), 1)
  }

  function Advance(s: State): State {
    match NextAlive(s.players, s.current)
    case None => s
    case Some(id) => AdvanceTo(s, id)
  }

  function CompleteTurn(s: State): State {
    if s.current == 0 then s
    else
      var d := Debt(s.debt, s.current);
      var s1 := if d > 0 then s.(debt := s.debt[s.current := d - 1]) else s;
      if Debt(s1.debt, s.current) > 0 then Tick(s1, 1) else Advance(s1)
  }

  /** The first living player, who wins once nobody else is left. */
  function FirstAlive(players: seq<Player>): PlayerId {
    if players == [] then 0 else if players[0].alive then players[0].id else FirstAlive(players[1..])
  }

  function Crown(s: State): State {
    Tick(s.(winner := FirstAlive(s.players), current := 0, phase := GameOver), 1)
  }

  // ------------------------------------------------- explosives in the hand

  /** Explosives beyond the single one an explosive holder makes safe. */
  function Unsafe(hand: seq<Card>): nat {
    var n := Count(hand, Explosive);
    if IndexOfCode(hand, ExplosiveHolder) >= 0 && n > 0 then n - 1 else n
  }

  /** Deal with one listed player: a shield queues one explosive for placement, no shield is fatal. */
  function Process(s: State, id: PlayerId): State {
    var i := Seat(s.players, id);
    if i < 0 || !s.players[i].alive || Unsafe(s.players[i].hand) == 0 then s
    else
      var hand := s.players[i].hand;
      var shield := IndexOfCode(hand, Shield);
      if shield < 0 then Eliminate(s, i)
      else SpendShield(s, i)
  }

  function SpendShield(s: State, i: nat): State
    requires i < |s.players|
    requires IndexOfCode(s.players[i].hand, Shield) >= 0 && Unsafe(s.players[i].hand) > 0
  {
    var hand := s.players[i].hand;
    SetHand(s, i, Spent(hand)).(
      discard := s.discard + [hand[IndexOfCode(hand, Shield)]],
      queue := s.queue + [Placement(s.players[i].id, FirstExplosive(hand))])
  }

  /** The hand without its first shield and its first explosive. */
  function Spent(hand: seq<Card>): seq<Card>
    requires IndexOfCode(hand, Shield) >= 0 && Unsafe(hand) > 0
  {
    CountPositive(hand, Explosive);
    var shield, bomb := IndexOfCode(hand, Shield), IndexOfCode(hand, Explosive);
    RemoveAt(RemoveAt(hand, shield), if bomb > shield then bomb - 1 else bomb)
  }

  function FirstExplosive(hand: seq<Card>): Card
    requires Unsafe(hand) > 0
  {
    CountPositive(hand, Explosive);
    hand[IndexOfCode(hand, Explosive)]
  }

  function ProcessAll(s: State, ids: seq<PlayerId>, seen: set<PlayerId>): State
    decreases |ids|
  {
    if ids == [] then s
    else if ids[0] in seen then ProcessAll(s, ids[1..], seen)
    else ProcessAll(Process(s, ids[0]), ids[1..], seen + {ids[0]})
  }

  function StartPlacement(s: State, original: PlayerId): State
    requires s.queue != []
  {
    var p := s.queue[0];
    Tick(s.(queue := s.queue[1..], phase := WaitingExplosivePlacement, nextPending := s.nextPending + 1,
            pending := Some(Prompt(s.nextPending + 1, p.player, ExplosivePlacement, [p.card], 0)
                              .(reactive := true, original := original))), 1)
  }

  function FinishResolution(s: State, original: PlayerId): State {
    if AliveCount(s.players) == 1 then Crown(s)
    else if IsAlive(s.players, original) then s.(current := original, phase := PlayerTurn)
    else Advance(s.(current := original))
  }

  function ResolveUnsafe(s: State, original: PlayerId, ids: seq<PlayerId>): State {
    var t := ProcessAll(s, ids, {});
    if t.queue != [] then StartPlacement(t, original) else FinishResolution(t, original)
  }

  // ---------------------------------------------------------- drawing cards

  function ResolveDrawn(s: State, i: nat, drawn: Card): State
    requires i < |s.players|
  {
    var hand := s.players[i].hand;
    var s1 := Tick(s, 1);
    if drawn.code != Explosive || (IndexOfCode(hand, ExplosiveHolder) >= 0 && Count(hand, Explosive) == 0) then
      CompleteTurn(Give(s1, i, drawn))
    else if IndexOfCode(hand, Shield) < 0 then
      var s2 := Eliminate(s1.(discard := s1.discard + [drawn]), i);
      if AliveCount(s2.players) == 1 then Crown(s2) else Advance(s2)
    else
      Defuse(s1, i, drawn)
  }

  function Defuse(s: State, i: nat, drawn: Card): State
    requires i < |s.players| && IndexOfCode(s.players[i].hand, Shield) >= 0
  {
    var hand := s.players[i].hand;
    var shield := IndexOfCode(hand, Shield);
    Tick(SetHand(s, i, RemoveAt(hand, shield)).(
         discard := s.discard + [hand[shield]],
         phase := WaitingExplosivePlacement,
         nextPending := s.nextPending + 1,
         pending := Some(Prompt(s.nextPending + 1, s.players[i].id, ExplosivePlacement, [drawn], 0))), 1)
  }

  function DrawGuard(s: State, p: PlayerId): Error {
    if s.phase != PlayerTurn then InvalidPhase
    else if s.current != p then NotYourTurn
    else if AliveError(s.players, p) != NoError then AliveError(s.players, p)
    else if s.draw == [] then DrawPileEmpty
    else NoError
  }

  function DrawEffect(s: State, p: PlayerId): State
    requires DrawGuard(s, p) == NoError
  {
    ResolveDrawn(s.(draw := s.draw[1..]), Seat(s.players, p), s.draw[0])
  }

  function PlaceGuard(s: State, p: PlayerId, index: int): Error {
    if s.phase != WaitingExplosivePlacement then InvalidPhase
    else if s.pending.None? || s.pending.value.kind != ExplosivePlacement then NoPendingAction
    else if s.pending.value.source != p then NotYourTurn
    else if index < 0 || index > |s.draw| then InvalidPlacement
    else if |s.pending.value.cards| != 1 then NoPendingAction
    else NoError
  }

  function PlaceEffect(s: State, p: PlayerId, index: int): State
    requires PlaceGuard(s, p, index) == NoError
  {
    var pending := s.pending.value;
    var s1 := Tick(s.(draw := InsertAt(s.draw, pending.cards[0], index), pending := None, phase := PlayerTurn), 1);
    if pending.reactive then ResolveUnsafe(s1, pending.original, [pending.source]) else CompleteTurn(s1)
  }

  // ---------------------------------------------------------- playing cards

  function TargetError(players: seq<Player>, source: PlayerId, target: PlayerId, mustHaveCards: bool): Error {
    if target == 0 then TargetRequired
    else if target == source then InvalidTarget
    else if !IsAlive(players, target) then InvalidTarget
    else if mustHaveCards && HandOf(players, target) == [] then InvalidTarget
    else NoError
  }

  function PlayGuard(s: State, p: PlayerId, ids: seq<CardId>, target: PlayerId): Error {
    if s.phase != PlayerTurn then InvalidPhase
    else if s.current != p then NotYourTurn
    else if AliveError(s.players, p) != NoError then AliveError(s.players, p)
    else if |ids| != 1 then InvalidCardPlay
    else
      var hand := HandOf(s.players, p);
      var j := IndexOfId(hand, ids[0]);
      if j < 0 then CardNotInHand else PlayCodeGuard(s, p, hand[j].code, target)
  }

  /** The part of the guard that looks at the card's code. */
  function PlayCodeGuard(s: State, p: PlayerId, code: Code, target: PlayerId): Error {
    if !IsAction(code) || code == Cancel || !IsSupportedAction(code) then InvalidCardPlay
    else if RequiresTarget(code) && target == 0 then TargetRequired
    else if code == TargetExtraTurns then TargetError(s.players, p, target, false)
    else if code == RequestCard || code == RevealHeldCard then TargetError(s.players, p, target, true)
    else if code == DrawFromBottom && s.draw == [] then DrawPileEmpty
    else NoError
  }

  /** Open the cancel window over cards that have just gone to the discard pile. */
  function OpenWindow(s: State, i: nat, hand: seq<Card>, pending: Pending): State
    requires i < |s.players|
  {
    Tick(SetHand(s, i, hand).(
         discard := s.discard + pending.cards, phase := CancelWindow,
         nextPending := s.nextPending + 1, pending := Some(pending)), 2)
  }

  function PlayEffect(s: State, p: PlayerId, ids: seq<CardId>, target: PlayerId, now: int): State
    requires PlayGuard(s, p, ids, target) == NoError
  {
    var i := Seat(s.players, p);
    var hand := s.players[i].hand;
    var j := IndexOfId(hand, ids[0]);
    OpenWindow(s, i, RemoveAt(hand, j),
               Prompt(s.nextPending + 1, p, PlayedCard, [hand[j]], target).(expiresAt := now + CANCEL_WINDOW_MS))
  }

  /** Two or three equal cards, wild tokens standing in for tokens, never explosives. */
  predicate ValidMatching(cards: seq<Card>) {
    && |cards| in {2, 3}
    && (forall k :: 0 <= k < |cards| ==> cards[k].code != Explosive)
    && (PlainMatch(cards) || exists k :: 0 <= k < |cards| && TokenMatch(cards, cards[k].code))
  }

  predicate PlainMatch(cards: seq<Card>) {
    forall k :: 0 <= k < |cards| ==>
      cards[k].code == cards[0].code && !IsToken(cards[k].code) && cards[k].code != WildToken
  }

  predicate TokenMatch(cards: seq<Card>, code: Code) {
    IsToken(code) && forall k :: 0 <= k < |cards| ==> cards[k].code == code || cards[k].code == WildToken
  }

  predicate ValidFiveDifferent(hand: seq<Card>, cards: seq<Card>) {
    && |cards| == 5
    && (forall k :: 0 <= k < 5 ==> cards[k].code != ExplosiveHolder)
    && (forall j, k :: 0 <= j < k < 5 ==> cards[j].code != cards[k].code)
    && (HasCode(cards, Explosive) ==> Count(hand, ExplosiveHolder) > 0)
  }

  /** The combo the cards make, or NoCombo when the engine rejects them. */
  function ComboOf(hand: seq<Card>, cards: seq<Card>, requested: Option<Code>): ComboKind {
    if |cards| == 2 then if ValidMatching(cards) then Pair else NoCombo
    else if |cards| == 3 then if ValidMatching(cards) && requested.Some? then Triple else NoCombo
    else if |cards| == 5 then if ValidFiveDifferent(hand, cards) then FiveDifferent else NoCombo
    else NoCombo
  }

  /** The first fault in a list of card ids that must be distinct, non-empty and in the hand. */
  function IdsError(hand: seq<Card>, ids: seq<CardId>): Error {
    if ids == [] then NoError
    else
      var front, last := ids[..|ids| - 1], ids[|ids| - 1];
      var e := IdsError(hand, front);
      if e != NoError then e
      else if last == 0 || last in front then InvalidCardPlay
      else if IndexOfId(hand, last) < 0 then CardNotInHand
      else NoError
  }

  function Picked(hand: seq<Card>, ids: seq<CardId>): seq<Card> {
    if ids == [] then []
    else
      var j := IndexOfId(hand, ids[|ids| - 1]);
      Picked(hand, ids[..|ids| - 1]) + if j < 0 then [] else [hand[j]]
  }

  function ComboGuard(s: State, p: PlayerId, ids: seq<CardId>, target: PlayerId, requested: Option<Code>): Error {
    if s.phase != PlayerTurn then InvalidPhase
    else if s.current != p then NotYourTurn
    else if AliveError(s.players, p) != NoError then AliveError(s.players, p)
    else if ids == [] then InvalidCardPlay
    else
      var hand := HandOf(s.players, p);
      if IdsError(hand, ids) != NoError then IdsError(hand, ids)
      else
        match ComboOf(hand, Picked(hand, ids), requested)
        case NoCombo => InvalidCardPlay
        case Pair => TargetError(s.players, p, target, true)
        case Triple => TargetError(s.players, p, target, false)
        case FiveDifferent => NoError
  }

  function ComboEffect(s: State, p: PlayerId, ids: seq<CardId>, target: PlayerId, requested: Option<Code>,
        now: int): State
    requires ComboGuard(s, p, ids, target, requested) == NoError
  {
    var i := Seat(s.players, p);
    var hand := s.players[i].hand;
    var cards := Picked(hand, ids);
    OpenWindow(s, i, Without(hand, ids),
               Prompt(s.nextPending + 1, p, CardCombo, cards, target).(
                 combo := ComboOf(hand, cards, requested), requested := requested,
                 expiresAt := now + CANCEL_WINDOW_MS))
  }

  // ------------------------------------------------------ the cancel window

  predicate IsCancelable(p: Pending) {
    match p.kind
    case PlayedCard => |p.cards| == 1 && IsSupportedAction(p.cards[0].code)
    case CardCombo => p.combo != NoCombo
    case _ => false
  }

  predicate Meant(c: Card, card: CardId) {
    if card != 0 then c.id == card else c.code == Cancel
  }

  /** The first hand position of the card the command names, or of a cancel card if it names none, or -1. */
  function CancelSlot(hand: seq<Card>, card: CardId): (j: int)
    ensures -1 <= j < |hand|
    ensures j >= 0 ==> Meant(hand[j], card) && forall k :: 0 <= k < j ==> !Meant(hand[k], card)
    ensures j < 0 ==> forall k :: 0 <= k < |hand| ==> !Meant(hand[k], card)
  {
    if card != 0 then IndexOfId(hand, card) else IndexOfCode(hand, Cancel)
  }

  function CancelGuard(s: State, p: PlayerId, card: CardId, pendingId: nat): Error {
    if s.pending.None? then NoPendingAction
    else if s.phase != CancelWindow then InvalidPhase
    else if pendingId != 0 && pendingId != s.pending.value.id then NoPendingAction
    else if !IsCancelable(s.pending.value) then ActionNotCancelable
    else if AliveError(s.players, p) != NoError then AliveError(s.players, p)
    else
      var hand := HandOf(s.players, p);
      var j := CancelSlot(hand, card);
      if j < 0 then CardNotInHand
      else if hand[j].code != Cancel then InvalidCardPlay
      else NoError
  }

  function CancelEffect(s: State, p: PlayerId, card: CardId, pendingId: nat): State
    requires CancelGuard(s, p, card, pendingId) == NoError
  {
    var i := Seat(s.players, p);
    var hand := s.players[i].hand;
    var j := CancelSlot(hand, card);
    Tick(SetHand(s, i, RemoveAt(hand, j)).(
         discard := s.discard + [hand[j]],
         pending := Some(s.pending.value.(cancels := s.pending.value.cancels + 1))), 2)
  }

  function ResolveGuard(s: State): Error {
    if s.pending.None? then NoPendingAction
    else if s.phase != CancelWindow then InvalidPhase
    else if !IsCancelable(s.pending.value) then ActionNotCancelable
    else NoError
  }

  function ExpireGuard(s: State, at: Option<int>): Error {
    if s.pending.None? then NoPendingAction
    else if s.phase != CancelWindow then InvalidPhase
    else if at.Some? && s.pending.value.expiresAt > 0 && at.value < s.pending.value.expiresAt then CancelWindowActive
    else ResolveGuard(s)
  }

  function ResolveEffect(s: State, rnd: Random): Outcome
    requires ResolveGuard(s) == NoError
  {
    var p := s.pending.value;
    var s1 := Tick(s.(pending := None, phase := PlayerTurn), 1);
    if p.cancels % 2 == 1 then Ok(s1)
    else if p.kind == PlayedCard then ResolveCard(s1, p.cards[0].code, p.source, p.target, rnd)
    else ResolveCombo(s1, p, rnd)
  }

  /** What a card does once its window has closed. */
  function ResolveCard(s: State, code: Code, source: PlayerId, target: PlayerId, rnd: Random): Outcome {
    if IsSupportedAction(code) then ResolveAction(s, code, source, target, rnd) else Outcome(s, InvalidCardPlay)
  }

  function ResolveAction(s: State, code: Code, source: PlayerId, target: PlayerId, rnd: Random): Outcome
    requires IsSupportedAction(code)
  {
    match code
    case SkipTurn => Ok(CompleteTurn(s))
    case SkipAllTurns => Ok(Advance(s.(debt := s.debt[source := 0])))
    case ForceExtraTurns => ForceTurns(s, source)
    case TargetExtraTurns => Ok(LoadTurns(s, source, target))
    case ShuffleDeck => Ok(s.(draw := Shuffled(s.draw, rnd)))
    case PeekDeck => Ok(Tick(s, 1))
    case PeekDeck5 => Ok(Tick(s, 1))
    case RequestCard => Ok(Ask(s, Prompt(s.nextPending + 1, source, RequestCardChoice, [], target),
      WaitingRequestCardChoice, 1))
    case RevealHeldCard => Ok(Ask(s, Prompt(s.nextPending + 1, source, MarkedCardChoice, [], target),
      WaitingMarkedCardChoice, 1))
    case DrawFromBottom => DrawBottom(s, source)
    case SwapTopBottom => Ok(s.(draw := if |s.draw| > 1 then Swapped(s.draw, 0, |s.draw| - 1) else s.draw))
    case ReorderTop3 => Ok(OfferReorder(s, source, 3))
    case ReorderTop5 => Ok(OfferReorder(s, source, 5))
    case CollectiveRecycle => Ok(OfferRecycle(s, source, rnd))
  }

  function Ask(s: State, p: Pending, phase: Phase, events: nat): State {
    Tick(s.(phase := phase, nextPending := s.nextPending + 1, pending := Some(p)), events)
  }

  function LoadTurns(s: State, source: PlayerId, target: PlayerId): State {
    AdvanceTo(s.(debt := s.debt[target := Debt(s.debt, target) + EXTRA_TURN_DEBT][source := 0]), target)
  }

  function ForceTurns(s: State, source: PlayerId): Outcome {
    match NextAlive(s.players, source)
    case None => Outcome(s, if Seat(s.players, source) < 0 then PlayerNotFound else PlayerNotAlive)
    case Some(target) => Ok(LoadTurns(s, source, target))
  }

  function DrawBottom(s: State, source: PlayerId): Outcome {
    if s.draw == [] then Outcome(s, DrawPileEmpty)
    else
      var n := |s.draw| - 1;
      var s1 := s.(draw := s.draw[..n]);
      if AliveError(s.players, source) != NoError then Outcome(s1, AliveError(s.players, source))
      else Ok(ResolveDrawn(s1, Seat(s.players, source), s.draw[n]))
  }

  function OfferReorder(s: State, source: PlayerId, limit: nat): State {
    var cards := Top(s.draw, limit);
    if cards == [] then s
    else Ask(s, Prompt(s.nextPending + 1, source, DeckReorder, cards, 0), WaitingDeckReorder, 1)
  }

  /** The living players, in seat order. */
  function Living(players: seq<Player>): seq<Player> {
    if players == [] then []
    else
      var last := players[|players| - 1];
      Living(players[..|players| - 1]) + if last.alive then [last] else []
  }

  /** The living players with cards, in seat order. */
  function Eligible(players: seq<Player>): seq<PlayerId> {
    if players == [] then []
    else
      var last := players[|players| - 1];
      Eligible(players[..|players| - 1]) + if last.alive && last.hand != [] then [last.id] else []
  }

  function OfferRecycle(s: State, source: PlayerId, rnd: Random): State {
    var ids := Eligible(s.players);
    if ids == [] then s.(draw := Shuffled(s.draw, rnd))
    else Ask(s, Prompt(s.nextPending + 1, source, RecycleChoices, [], 0).(recyclers := ids), WaitingRecycleChoices,
        |ids|)
  }

  function ResolveCombo(s: State, p: Pending, rnd: Random): Outcome {
    match p.combo
    case NoCombo => Outcome(s, InvalidCardPlay)
    case Pair =>
      var e := StealError(s.players, p.target, p.source);
      if e != NoError then Outcome(s, e)
      else if HandOf(s.players, p.target) == [] then Outcome(s, InvalidTarget)
      else Ok(Steal(s, p.target, p.source, Intn(rnd, 0, |HandOf(s.players, p.target)|)))
    case Triple =>
      var e := StealError(s.players, p.target, p.source);
      if p.requested.None? then Outcome(s, InvalidCardPlay)
      else if e != NoError then Outcome(s, e)
      else
        var j := IndexOfCode(HandOf(s.players, p.target), p.requested.value);
        Ok(if j < 0 then s else Steal(s, p.target, p.source, j))
    case FiveDifferent =>
      Ok(Ask(s, Prompt(s.nextPending + 1, p.source, DiscardRecovery, p.cards, 0).(combo := p.combo),
          WaitingDiscardRecovery, 1))
  }

  function StealError(players: seq<Player>, from: PlayerId, to: PlayerId): Error {
    if AliveError(players, from) != NoError then AliveError(players, from) else AliveError(players, to)
  }

  function Steal(s: State, from: PlayerId, to: PlayerId, j: nat): State
    requires Seat(s.players, from) >= 0 && Seat(s.players, to) >= 0 && j < |HandOf(s.players, from)|
  {
    ResolveUnsafe(Move(s, Seat(s.players, from), j, Seat(s.players, to)), s.current, [from, to])
  }

  // ---------------------------------------------------------------- prompts

  function RequestGuard(s: State, p: PlayerId, card: CardId): Error {
    if s.phase != WaitingRequestCardChoice then InvalidPhase
    else if s.pending.None? || s.pending.value.kind != RequestCardChoice then NoPendingAction
    else if s.pending.value.target != p then NotYourTurn
    else if StealError(s.players, p, s.pending.value.source) != NoError
        then StealError(s.players, p, s.pending.value.source)
    else if IndexOfId(HandOf(s.players, p), card) < 0 then CardNotInHand
    else NoError
  }

  function RequestEffect(s: State, p: PlayerId, card: CardId): State
    requires RequestGuard(s, p, card) == NoError
  {
    Steal(Tick(s.(pending := None, phase := PlayerTurn), 1), p, s.pending.value.source,
        IndexOfId(HandOf(s.players, p), card))
  }

  function MarkGuard(s: State, p: PlayerId, card: CardId): Error {
    if s.phase != WaitingMarkedCardChoice then InvalidPhase
    else if s.pending.None? || s.pending.value.kind != MarkedCardChoice then NoPendingAction
    else if s.pending.value.source != p then NotYourTurn
    else if AliveError(s.players, s.pending.value.target) != NoError then AliveError(s.players, s.pending.value.target)
    else if IndexOfId(HandOf(s.players, s.pending.value.target), card) < 0 then CardNotInHand
    else NoError
  }

  function MarkEffect(s: State, p: PlayerId, card: CardId): State
    requires MarkGuard(s, p, card) == NoError
  {
    var target := s.players[Seat(s.players, s.pending.value.target)];
    var c := target.hand[IndexOfId(target.hand, card)];
    Tick(s.(marks := s.marks[c.id := Mark(c.id, target.id, c)], pending := None, phase := PlayerTurn), 1)
  }

  /**
   The submitted ids are the prompted cards' ids in some order, and the pile still starts with
   those cards. A prompt with a repeated id can never be answered.
   */
  function ReorderGuard(s: State, p: PlayerId, ids: seq<CardId>): Error {
    if s.phase != WaitingDeckReorder then InvalidPhase
    else if s.pending.None? || s.pending.value.kind != DeckReorder then NoPendingAction
    else if s.pending.value.source != p then NotYourTurn
    else if |s.draw| < |s.pending.value.cards|
        || IdsOf(s.draw[..|s.pending.value.cards|]) != IdsOf(s.pending.value.cards)
    then InvalidCardPlay
    else if !DistinctIds(s.pending.value.cards) || multiset(ids) != multiset(IdsOf(s.pending.value.cards))
        then InvalidCardPlay
    else NoError
  }

  function ReorderEffect(s: State, p: PlayerId, ids: seq<CardId>): State
    requires ReorderGuard(s, p, ids) == NoError
  {
    var cards := s.pending.value.cards;
    Tick(s.(draw := Picked(cards, ids) + s.draw[|cards|..], pending := None, phase := PlayerTurn), 1)
  }

  function RecycleGuard(s: State, p: PlayerId, card: CardId): Error {
    if s.phase != WaitingRecycleChoices then InvalidPhase
    else if s.pending.None? || s.pending.value.kind != RecycleChoices then NoPendingAction
    else if p !in s.pending.value.recyclers then NotYourTurn
    else if p in s.pending.value.selections then InvalidCardPlay
    else if AliveError(s.players, p) != NoError then AliveError(s.players, p)
    else if IndexOfId(HandOf(s.players, p), card) < 0 then CardNotInHand
    else NoError
  }

  /** One player's choice leaves the hand and waits in the pending action. */
  function Submit(s: State, p: PlayerId, card: CardId): State
    requires RecycleGuard(s, p, card) == NoError
  {
    var i := Seat(s.players, p);
    var hand := s.players[i].hand;
    var j := IndexOfId(hand, card);
    var pending := s.pending.value;
    SetHand(s, i, RemoveAt(hand, j)).(pending := Some(pending.(selections := pending.selections[p := hand[j]])))
  }

  /** The contributions join the draw pile and the pile is shuffled. */
  function Pooled(s: State, rnd: Random): State
    requires s.pending.Some?
  {
    var pool := s.draw + Contributions(s.pending.value.recyclers, s.pending.value.selections);
    Tick(s.(draw := Shuffled(pool, rnd), pending := None, phase := PlayerTurn), 1)
  }

  /** The last choice closes the recycle: the choices join the draw pile and the pile is shuffled. */
  function CloseRecycle(s: State, rnd: Random): State
    requires s.pending.Some?
  {
    ResolveUnsafe(Pooled(s, rnd), s.current, s.pending.value.recyclers)
  }

  function RecycleEffect(s: State, p: PlayerId, card: CardId, rnd: Random): State
    requires RecycleGuard(s, p, card) == NoError
  {
    var s1 := Submit(s, p, card);
    if |s1.pending.value.selections| != |s1.pending.value.recyclers| then s1 else CloseRecycle(s1, rnd)
  }

  function RecoverGuard(s: State, p: PlayerId, card: CardId): Error {
    if s.phase != WaitingDiscardRecovery then InvalidPhase
    else if s.pending.None? || s.pending.value.kind != DiscardRecovery then NoPendingAction
    else if s.pending.value.source != p then NotYourTurn
    else if IndexOfId(s.discard, card) < 0 then CardNotInHand
    else AliveError(s.players, p)
  }

  function RecoverEffect(s: State, p: PlayerId, card: CardId): State
    requires RecoverGuard(s, p, card) == NoError
  {
    var j := IndexOfId(s.discard, card);
    var s1 := Give(s.(discard := RemoveAt(s.discard, j)), Seat(s.players, p), s.discard[j]);
    ResolveUnsafe(Tick(s1.(pending := None, phase := PlayerTurn), 1), s.current, [p])
  }

  // ------------------------------------------------------------------- step

  function Guard(s: State, c: Command): Error {
    match c
    case DrawCard(p) => DrawGuard(s, p)
    case PlaceExplosive(p, index) => PlaceGuard(s, p, index)
    case PlayCard(p, ids, target) => PlayGuard(s, p, ids, target)
    case PlayCombo(p, ids, target, requested) => ComboGuard(s, p, ids, target, requested)
    case PlayCancel(p, card, pendingId) => CancelGuard(s, p, card, pendingId)
    case ExpireCancelWindow(at) => ExpireGuard(s, at)
    case ResolveCancelWindow => ResolveGuard(s)
    case ChooseCardForRequest(p, card) => RequestGuard(s, p, card)
    case ChooseMarkedCard(p, card) => MarkGuard(s, p, card)
    case SubmitReorderedTopCards(p, ids) => ReorderGuard(s, p, ids)
    case ChooseCardForRecycle(p, card) => RecycleGuard(s, p, card)
    case ChooseCardFromDiscard(p, card) => RecoverGuard(s, p, card)
  }

  function Effect(s: State, c: Command, env: Env): Outcome
    requires Guard(s, c) == NoError
  {
    match c
    case DrawCard(p) => Ok(DrawEffect(s, p))
    case PlaceExplosive(p, index) => Ok(PlaceEffect(s, p, index))
    case PlayCard(p, ids, target) => Ok(PlayEffect(s, p, ids, target, env.now))
    case PlayCombo(p, ids, target, requested) => Ok(ComboEffect(s, p, ids, target, requested, env.now))
    case PlayCancel(p, card, pendingId) => Ok(CancelEffect(s, p, card, pendingId))
    case ExpireCancelWindow(_) => ResolveEffect(s, env.rnd)
    case ResolveCancelWindow => ResolveEffect(s, env.rnd)
    case ChooseCardForRequest(p, card) => Ok(RequestEffect(s, p, card))
    case ChooseMarkedCard(p, card) => Ok(MarkEffect(s, p, card))
    case SubmitReorderedTopCards(p, ids) => Ok(ReorderEffect(s, p, ids))
    case ChooseCardForRecycle(p, card) => Ok(RecycleEffect(s, p, card, env.rnd))
    case ChooseCardFromDiscard(p, card) => Ok(RecoverEffect(s, p, card))
  }

  function Step(s: State, c: Command, env: Env): Outcome {
    var e := Guard(s, c);
    if e != NoError then Outcome(s, e) else Effect(s, c, env)
  }
}
