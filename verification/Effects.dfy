/** What every accepted command does in a reachable state, in the terms of `Outcomes`. */
module Effects {
  import opened Cards
  import opened Shuffling
  import opened Table
  import opened Rules
  import opened Invariant
  import opened Turns
  import opened Preserve
  import opened Prompts
  import opened Runs
  import opened Parity
  import opened Outcomes

  // ------------------------------------------------------- drawing and placing

  lemma DrawIs(s: State, c: Command, env: Env)
    requires c.DrawCard? && Guard(s, c) == NoError
    ensures DrawGuard(s, c.player) == NoError && Step(s, c, env) == Ok(DrawEffect(s, c.player))
  {
  }

  /**
   An accepted draw takes the top card. The player keeps it, pays for it with a shield and must put it back,
   or dies of it.
   */
  lemma DrawTakesTop(s: State, c: Command, env: Env)
    requires Reachable(s) && c.DrawCard? && Guard(s, c) == NoError
    ensures var t := Step(s, c, env).state;
      c.player == s.current && s.draw != [] && t.draw == s.draw[1..] && DrawDecided(s, t, s.draw[0])
  {
    ReachableInv(s);
    DrawIs(s, c, env);
    var s1 := s.(draw := s.draw[1..]);
    DrawReady(s, s1);
    TurnRuns(s, s1);
    Draws(s1, Seat(s.players, c.player), s.draw[0]);
    DrawnFrom(s, s1, DrawEffect(s, c.player), s.draw[0]);
  }

  lemma TurnRuns(s: State, s1: State)
    requires Roster(s1.players) && s1.queue == [] && InPlay(s1) && s1.pending.None? && s1.phase == PlayerTurn
    ensures Running(s1)
  {
    assert s1.players[Seat(s1.players, s1.current)].id == s1.current;
  }

  lemma DrawnFrom(s: State, s1: State, t: State, card: Card)
    requires DrawDecided(s1, t, card) && s1.players == s.players && s1.discard == s.discard && SameTurns(s, s1)
    ensures DrawDecided(s, t, card)
  {
  }

  /** The explosive of the prompt lies at the index in the pile, which is otherwise as before. */
  ghost predicate PutAt(s: State, t: State, card: Card, index: int) {
    && 0 <= index <= |s.draw| && |t.draw| == |s.draw| + 1
    && t.draw[index] == card && t.draw[..index] == s.draw[..index] && t.draw[index + 1..] == s.draw[index..]
  }

  lemma PlaceIs(s: State, c: Command, env: Env)
    requires c.PlaceExplosive? && Guard(s, c) == NoError
    ensures PlaceGuard(s, c.player, c.index) == NoError && Step(s, c, env) == Ok(PlaceEffect(s, c.player, c.index))
  {
  }

  lemma {:induction false} ProcessLeavesPile(s: State, ids: seq<PlayerId>, seen: set<PlayerId>)
    ensures ProcessAll(s, ids, seen).draw == s.draw
    decreases |ids|
  {
    if ids != [] {
      ProcessLeavesPile(if ids[0] in seen then s else Process(s, ids[0]), ids[1..],
                        if ids[0] in seen then seen else seen + {ids[0]});
    }
  }

  lemma ResolveLeavesPile(s: State, original: PlayerId, ids: seq<PlayerId>)
    ensures ResolveUnsafe(s, original, ids).draw == s.draw
  {
    ProcessLeavesPile(s, ids, {});
  }

  lemma InsertedAt(draw: seq<Card>, card: Card, index: nat)
    requires index <= |draw|
    ensures var d := InsertAt(draw, card, index);
      |d| == |draw| + 1 && d[index] == card && d[..index] == draw[..index] && d[index + 1..] == draw[index..]
  {
  }

  /**
   Any accepted placement, in any state whatever, so also each one of a drain: the explosive goes exactly to
   the index counted from the top.
   */
  lemma PlacementHitsIndex(s: State, c: Command, env: Env)
    requires c.PlaceExplosive? && Guard(s, c) == NoError
    ensures s.pending.Some? && |s.pending.value.cards| == 1
    ensures PutAt(s, Step(s, c, env).state, s.pending.value.cards[0], c.index)
  {
    PlaceIs(s, c, env);
    var p := s.pending.value;
    var s1 := Tick(s.(draw := InsertAt(s.draw, p.cards[0], c.index), pending := None, phase := PlayerTurn), 1);
    InsertedAt(s.draw, p.cards[0], c.index);
    ResolveLeavesPile(s1, p.original, [p.source]);
  }

  /** A placement after a draw ends the turn unit; one after a resolution gives the interrupted turn back. */
  lemma PlacementResumes(s: State, c: Command, env: Env)
    requires Reachable(s) && c.PlaceExplosive? && Guard(s, c) == NoError
    ensures s.pending.Some?
    ensures var t := Step(s, c, env).state;
      && t.players == s.players && t.discard == s.discard
      && if s.pending.value.reactive then AtTurn(t) && SameTurns(s, t) else UnitDone(s, t)
  {
    ReachableInv(s);
    PlaceIs(s, c, env);
    var p := s.pending.value;
    var s1 := Tick(s.(draw := InsertAt(s.draw, p.cards[0], c.index), pending := None, phase := PlayerTurn), 1);
    PlaceReady(s, s1, p, c.index);
    PlacedResumes(s, s1, p);
  }

  lemma PlacedResumes(s: State, s1: State, p: Pending)
    requires Ready(s1) && AllSafe(s1.players) && SameTurns(s, s1) && IsAlive(s1.players, p.source)
    requires p.reactive ==> p.original == s.current
    ensures var t := if p.reactive then ResolveUnsafe(s1, p.original, [p.source]) else CompleteTurn(s1);
      && t.players == s1.players && t.discard == s1.discard
      && if p.reactive then AtTurn(t) && SameTurns(s, t) else UnitDone(s, t)
  {
    RunningIf(s1);
    if p.reactive {
      var u := Seat(s1.players, p.source);
      ResolveIs(s1, [p.source], u);
      NobodyLoose(s1, u);
    } else {
      Completes(s1);
      UnitFrom(s, s1, CompleteTurn(s1));
    }
  }

  // ------------------------------------------------------- cards whose window closes

  /** The command closes a window whose action goes through. */
  ghost predicate GoesThrough(s: State, c: Command) {
    && s.pending.Some? && s.pending.value.cancels % 2 == 0
    && ClosesWindow(c) && Guard(s, c) == NoError
  }

  /** Hands, discard pile and marks are as before. */
  ghost predicate TableStays(s: State, t: State) {
    t.players == s.players && t.discard == s.discard && t.marks == s.marks
  }

  /** The turn has gone to another player, who owes this many. */
  ghost predicate Passes(s: State, t: State, to: PlayerId, owed: int) {
    && AtTurn(t) && t.current == to != s.current
    && Debt(t.debt, s.current) == 0 && Debt(t.debt, to) == owed && SameDebts(s.debt, t.debt, {s.current, to})
  }

  ghost predicate PassesOn(s: State, t: State, owed: int) {
    exists to :: NextUp(s.players, s.current, to) && Passes(s, t, to, owed)
  }

  /** The current player is asked, or asks somebody, something under a fresh pending id. */
  ghost predicate Asks(s: State, t: State, phase: Phase, kind: PendingKind) {
    && t.phase == phase && t.pending.Some? && t.pending.value.kind == kind
    && t.pending.value.source == s.current && t.pending.value.id == s.nextPending + 1 == t.nextPending
    && SameTurns(s, t)
  }

  /** The first `limit` cards of the pile, or all if there are fewer, are offered for reordering. */
  ghost predicate OffersTop(s: State, t: State, limit: nat) {
    var n := if |s.draw| < limit then |s.draw| else limit;
    && t.draw == s.draw
    && if n == 0 then AtTurn(t) && SameTurns(s, t)
       else Asks(s, t, WaitingDeckReorder, DeckReorder) && t.pending.value.cards == s.draw[..n]
  }

  ghost predicate EndsSwap(s: State, t: State) {
    var n := |s.draw|;
    && |t.draw| == n && AtTurn(t) && SameTurns(s, t)
    && forall k :: 0 <= k < n ==> t.draw[k] == s.draw[if k == 0 then n - 1 else if k == n - 1 then 0 else k]
  }

  ghost predicate AsksForRecycle(s: State, t: State) {
    if exists id :: IsAlive(s.players, id) && HandOf(s.players, id) != []
    then
      && Asks(s, t, WaitingRecycleChoices, RecycleChoices) && t.draw == s.draw
      && t.pending.value.selections == map[] && Distinct(t.pending.value.recyclers)
      && forall id :: id in t.pending.value.recyclers <==> IsAlive(s.players, id) && HandOf(s.players, id) != []
    else AtTurn(t) && SameTurns(s, t) && multiset(t.draw) == multiset(s.draw)
  }

  /** What each card does that is neither a draw nor a recycle nor touches the pile's order. */
  ghost predicate TurnCardDone(s: State, t: State, code: Code, target: PlayerId) {
    && t.draw == s.draw
    && (code == SkipTurn ==> UnitDone(s, t))
    && (code == SkipAllTurns ==> PassesOn(s, t, 1))
    && (code == ForceExtraTurns ==> PassesOn(s, t, 2))
    && (code == TargetExtraTurns ==> Passes(s, t, target, 2))
    && (code in {PeekDeck, PeekDeck5} ==> AtTurn(t) && SameTurns(s, t))
    && (code == RequestCard ==>
          Asks(s, t, WaitingRequestCardChoice, RequestCardChoice) && t.pending.value.target == target)
    && (code == RevealHeldCard ==>
          Asks(s, t, WaitingMarkedCardChoice, MarkedCardChoice) && t.pending.value.target == target)
  }

  ghost predicate PileCardDone(s: State, t: State, code: Code) {
    && (code == ShuffleDeck ==> AtTurn(t) && SameTurns(s, t) && multiset(t.draw) == multiset(s.draw))
    && (code == SwapTopBottom ==> EndsSwap(s, t))
    && (code == ReorderTop3 ==> OffersTop(s, t, 3))
    && (code == ReorderTop5 ==> OffersTop(s, t, 5))
    && (code == CollectiveRecycle ==> AsksForRecycle(s, t))
  }

  const TURN_CARDS: set<Code> :=
    {SkipTurn, SkipAllTurns, ForceExtraTurns, TargetExtraTurns, PeekDeck, PeekDeck5, RequestCard, RevealHeldCard}
  const PILE_CARDS: set<Code> := {ShuffleDeck, SwapTopBottom, ReorderTop3, ReorderTop5, CollectiveRecycle}

  /** The last card of the pile is drawn. */
  ghost predicate BottomDrawn(s: State, t: State) {
    s.draw != [] && t.draw == s.draw[..|s.draw| - 1] && DrawDecided(s, t, s.draw[|s.draw| - 1])
  }

  ghost predicate CardDone(s: State, t: State, code: Code, target: PlayerId) {
    if code == DrawFromBottom then BottomDrawn(s, t)
    else TableStays(s, t) && if code in PILE_CARDS then PileCardDone(s, t, code)
                             else code in TURN_CARDS && TurnCardDone(s, t, code, target)
  }

  // The cards one by one, from a turn with nothing pending.

  lemma SkipsAll(s: State)
    requires Running(s)
    ensures var t := Advance(s.(debt := s.debt[s.current := 0]));
      PassesOn(s, t, 1) && TableStays(s, t) && t.draw == s.draw
  {
    NextUpIs(s.players, s.current);
    var next := NextAlive(s.players, s.current).value;
    OwesNothing(s, next);
    var t := Advance(s.(debt := s.debt[s.current := 0]));
    assert Passes(s, t, next, 1);
  }

  lemma Loads(s: State, target: PlayerId)
    requires Running(s) && Other(s, target)
    ensures var t := LoadTurns(s, s.current, target); Passes(s, t, target, 2) && TableStays(s, t) && t.draw == s.draw
  {
    OwesNothing(s, target);
  }

  lemma Forces(s: State)
    requires Running(s)
    ensures var o := ForceTurns(s, s.current);
      o.error == NoError && PassesOn(s, o.state, 2) && TableStays(s, o.state) && o.state.draw == s.draw
  {
    NextUpIs(s.players, s.current);
    Loads(s, NextAlive(s.players, s.current).value);
  }

  lemma TurnCardOf(s: State, code: Code, target: PlayerId, rnd: Random)
    requires Running(s) && code in {SkipTurn, SkipAllTurns, ForceExtraTurns, TargetExtraTurns}
    requires code == TargetExtraTurns ==> Other(s, target)
    ensures var o := ResolveCard(s, code, s.current, target, rnd);
      o.error == NoError && TableStays(s, o.state) && TurnCardDone(s, o.state, code, target)
  {
    TurnCardShape(s, code, s.current, target, rnd);
    if code == SkipTurn {
      Completes(s);
    } else if code == SkipAllTurns {
      SkipsAll(s);
    } else if code == ForceExtraTurns {
      Forces(s);
    } else {
      Loads(s, target);
    }
  }

  lemma QuietCardOf(s: State, code: Code, target: PlayerId, rnd: Random)
    requires Running(s) && code in {PeekDeck, PeekDeck5, RequestCard, RevealHeldCard}
    ensures var o := ResolveCard(s, code, s.current, target, rnd);
      o.error == NoError && TableStays(s, o.state) && TurnCardDone(s, o.state, code, target)
  {
    if code in {PeekDeck, PeekDeck5} {
      PeekShape(s, code, s.current, target, rnd);
    } else {
      AskCardShape(s, code, s.current, target, rnd);
    }
  }

  lemma Offers(s: State, limit: nat)
    requires s.phase == PlayerTurn && s.pending.None?
    ensures var t := OfferReorder(s, s.current, limit); OffersTop(s, t, limit) && TableStays(s, t)
  {
    assert |s.draw| <= limit ==> s.draw[..|s.draw|] == s.draw;
  }

  lemma Swaps(s: State, t: State)
    requires s.phase == PlayerTurn && s.pending.None?
    requires t == s.(draw := if |s.draw| > 1 then Swapped(s.draw, 0, |s.draw| - 1) else s.draw)
    ensures EndsSwap(s, t)
  {
  }

  lemma Recycles(s: State, rnd: Random)
    requires Running(s)
    ensures var t := OfferRecycle(s, s.current, rnd); AsksForRecycle(s, t) && TableStays(s, t)
  {
    EligibleList(s.players);
    OfferRecycleShape(s, s.current, rnd);
    ShuffledPermutes(s.draw, rnd);
    if Eligible(s.players) != [] {
      assert Eligible(s.players)[0] in Eligible(s.players);
    }
  }

  lemma PileCardOf(s: State, code: Code, target: PlayerId, rnd: Random)
    requires Running(s) && code in PILE_CARDS
    ensures var o := ResolveCard(s, code, s.current, target, rnd);
      o.error == NoError && TableStays(s, o.state) && PileCardDone(s, o.state, code)
  {
    if code == ShuffleDeck {
      ShuffleShape(s, s.current, target, rnd);
      ShuffledPermutes(s.draw, rnd);
    } else if code == SwapTopBottom {
      SwapShape(s, s.current, target, rnd);
      Swaps(s, ResolveCard(s, code, s.current, target, rnd).state);
    } else if code == CollectiveRecycle {
      RecycleCardShape(s, s.current, target, rnd);
      Recycles(s, rnd);
    } else {
      OfferCardShape(s, code, s.current, target, rnd);
      Offers(s, if code == ReorderTop3 then 3 else 5);
    }
  }

  lemma RecycleCardShape(s: State, source: PlayerId, target: PlayerId, rnd: Random)
    ensures ResolveCard(s, CollectiveRecycle, source, target, rnd) == Ok(OfferRecycle(s, source, rnd))
  {
  }

  lemma BottomCardShape(s: State, source: PlayerId, target: PlayerId, rnd: Random)
    ensures ResolveCard(s, DrawFromBottom, source, target, rnd) == DrawBottom(s, source)
  {
  }

  lemma BottomOf(s: State, target: PlayerId, rnd: Random)
    requires Running(s) && s.draw != []
    ensures var o := ResolveCard(s, DrawFromBottom, s.current, target, rnd);
      o.error == NoError && BottomDrawn(s, o.state)
  {
    var n := |s.draw| - 1;
    var s1 := s.(draw := s.draw[..n]);
    BottomCardShape(s, s.current, target, rnd);
    BottomShape(s, s.current, n);
    Draws(s1, Seat(s.players, s.current), s.draw[n]);
    DrawnFrom(s, s1, ResolveDrawn(s1, Seat(s.players, s.current), s.draw[n]), s.draw[n]);
  }

  lemma CardOf(s: State, code: Code, target: PlayerId, rnd: Random)
    requires Running(s) && IsSupportedAction(code)
    requires code in {TargetExtraTurns, RequestCard, RevealHeldCard} ==> Other(s, target)
    requires code == DrawFromBottom ==> s.draw != []
    ensures var o := ResolveCard(s, code, s.current, target, rnd);
      o.error == NoError && CardDone(s, o.state, code, target)
  {
    if code == DrawFromBottom {
      BottomOf(s, target, rnd);
    } else if code in PILE_CARDS {
      PileCardOf(s, code, target, rnd);
    } else if code in {SkipTurn, SkipAllTurns, ForceExtraTurns, TargetExtraTurns} {
      TurnCardOf(s, code, target, rnd);
    } else {
      QuietCardOf(s, code, target, rnd);
    }
  }

  // From the window.

  lemma WindowFacts(s: State)
    requires Inv(s) && ResolveGuard(s) == NoError
    ensures WindowOk(s, s.pending.value) && s.phase == CancelWindow
  {
  }

  lemma ThroughClosed(s: State, c: Command, env: Env)
    requires Inv(s) && GoesThrough(s, c)
    ensures ResolveGuard(s) == NoError && s.phase == CancelWindow && WindowOk(s, s.pending.value)
    ensures Step(s, c, env) == ResolveEffect(s, env.rnd)
    ensures Ready(Closed(s)) && AllSafe(Closed(s).players)
  {
    ClosingResolves(s, c, env);
    WindowFacts(s);
    WindowCloses(s);
    assert Tick(s.(pending := None, phase := PlayerTurn), 1) == Closed(s);
  }

  lemma CardFrom(s: State, t: State, code: Code, target: PlayerId)
    requires CardDone(Closed(s), t, code, target)
    ensures CardDone(s, t, code, target)
  {
    if code == DrawFromBottom {
      DrawnFrom(s, Closed(s), t, s.draw[|s.draw| - 1]);
    } else if code in PILE_CARDS {
      PileCardFrom(s, t, code);
    } else {
      if code == SkipTurn { UnitFrom(s, Closed(s), t); }
      if code == SkipAllTurns { PassesFrom(s, t, 1); }
      if code == ForceExtraTurns { PassesFrom(s, t, 2); }
      TurnCardFrom(s, t, code, target);
    }
  }

  lemma PileCardFrom(s: State, t: State, code: Code)
    requires PileCardDone(Closed(s), t, code)
    ensures PileCardDone(s, t, code)
  {
  }

  lemma TurnCardFrom(s: State, t: State, code: Code, target: PlayerId)
    requires TurnCardDone(Closed(s), t, code, target)
    requires code == SkipTurn ==> UnitDone(s, t)
    requires code == SkipAllTurns ==> PassesOn(s, t, 1)
    requires code == ForceExtraTurns ==> PassesOn(s, t, 2)
    ensures TurnCardDone(s, t, code, target)
  {
  }

  lemma PassesFrom(s: State, t: State, owed: int)
    requires PassesOn(Closed(s), t, owed)
    ensures PassesOn(s, t, owed)
  {
    var to :| NextUp(s.players, s.current, to) && Passes(Closed(s), t, to, owed);
    assert Passes(s, t, to, owed);
  }

  /** Each of the action cards does what it is for once its window closes with an even number of cancels. */
  lemma CardTakesEffect(s: State, c: Command, env: Env)
    requires Reachable(s) && GoesThrough(s, c) && s.pending.value.kind == PlayedCard
    ensures |s.pending.value.cards| == 1 && Step(s, c, env).error == NoError
    ensures CardDone(s, Step(s, c, env).state, s.pending.value.cards[0].code, s.pending.value.target)
  {
    ReachableInv(s);
    ThroughClosed(s, c, env);
    RunningIf(Closed(s));
    var p := s.pending.value;
    ResolvesCard(s, env.rnd);
    CardOf(Closed(s), p.cards[0].code, p.target, env.rnd);
    CardFrom(s, Step(s, c, env).state, p.cards[0].code, p.target);
  }

  // ------------------------------------------------------------------- combos

  /** What a combo does once its window closes: a theft, or the offer to recover a card. */
  ghost predicate ComboDone(s: State, t: State, p: Pending) {
    var hand := HandOf(s.players, p.target);
    match p.combo
    case Pair => hand != [] ==> exists j: nat :: Taken(s, t, p.target, s.current, j)
    case Triple =>
      p.requested.Some? &&
      if HasCode(hand, p.requested.value)
      then exists j: nat :: FirstOf(hand, p.requested.value, j) && Taken(s, t, p.target, s.current, j)
      else TableStays(s, t) && t.draw == s.draw && AtTurn(t) && SameTurns(s, t)
    case FiveDifferent =>
      TableStays(s, t) && t.draw == s.draw && Asks(s, t, WaitingDiscardRecovery, DiscardRecovery)
    case NoCombo => false
  }

  lemma TakenFrom(s: State, s1: State, t: State, from: PlayerId, to: PlayerId, j: nat)
    requires Taken(s1, t, from, to, j)
    requires s1.players == s.players && s1.draw == s.draw && s1.discard == s.discard && SameTurns(s, s1)
    ensures Taken(s, t, from, to, j)
  {
    var a: seq<Player> :| Transferred(s1.players, a, from, to, j) && Aftermath(s1, a, s1.discard, t);
    AftermathOf(s, s1, a, s.discard, t);
  }

  lemma PairShape(s: State, p: Pending, rnd: Random)
    requires p.combo == Pair && IsAlive(s.players, p.target) && IsAlive(s.players, p.source)
    requires HandOf(s.players, p.target) != []
    ensures ResolveCombo(s, p, rnd) == Ok(Steal(s, p.target, p.source, Intn(rnd, 0, |HandOf(s.players, p.target)|)))
  {
  }

  lemma TripleShape(s: State, p: Pending, rnd: Random)
    requires p.combo == Triple && IsAlive(s.players, p.target) && IsAlive(s.players, p.source) && p.requested.Some?
    ensures var j := IndexOfCode(HandOf(s.players, p.target), p.requested.value);
      ResolveCombo(s, p, rnd) == Ok(if j < 0 then s else Steal(s, p.target, p.source, j))
  {
  }

  lemma PairOf(s: State, p: Pending, rnd: Random)
    requires Ready(s) && AllSafe(s.players) && p.source == s.current && p.combo == Pair && Other(s, p.target)
    requires HandOf(s.players, p.target) != []
    ensures var o, j := ResolveCombo(s, p, rnd), Intn(rnd, 0, |HandOf(s.players, p.target)|);
      o.error == NoError && Taken(s, o.state, p.target, s.current, j)
  {
    PairShape(s, p, rnd);
    Steals(s, p.target, p.source, Intn(rnd, 0, |HandOf(s.players, p.target)|));
  }

  lemma TripleOf(s: State, p: Pending, rnd: Random)
    requires Ready(s) && AllSafe(s.players) && p.source == s.current && p.combo == Triple && Other(s, p.target)
    requires p.requested.Some?
    ensures var o := ResolveCombo(s, p, rnd); o.error == NoError && ComboDone(s, o.state, p)
  {
    var hand, code := HandOf(s.players, p.target), p.requested.value;
    TripleShape(s, p, rnd);
    CountPositive(hand, code);
    if IndexOfCode(hand, code) >= 0 {
      FirstOfIs(hand, code);
      Steals(s, p.target, p.source, IndexOfCode(hand, code));
    }
  }

  lemma FiveOf(s: State, p: Pending, rnd: Random)
    requires p.source == s.current && p.combo == FiveDifferent
    ensures var o := ResolveCombo(s, p, rnd); o.error == NoError && ComboDone(s, o.state, p)
  {
  }

  lemma ComboOfTurn(s: State, p: Pending, rnd: Random)
    requires Ready(s) && AllSafe(s.players) && p.source == s.current && p.combo != NoCombo
    requires p.combo in {Pair, Triple} ==> Other(s, p.target)
    requires p.combo == Triple ==> p.requested.Some?
    ensures ComboDone(s, ResolveCombo(s, p, rnd).state, p)
  {
    match p.combo
    case Pair =>
      if HandOf(s.players, p.target) != [] { PairOf(s, p, rnd); }
    case Triple => TripleOf(s, p, rnd);
    case FiveDifferent => FiveOf(s, p, rnd);
  }

  lemma ComboFrom(s: State, t: State, p: Pending)
    requires ComboDone(Closed(s), t, p)
    ensures ComboDone(s, t, p)
  {
    var hand := HandOf(s.players, p.target);
    if p.combo == Pair && hand != [] {
      var j: nat :| Taken(Closed(s), t, p.target, s.current, j);
      TakenFrom(s, Closed(s), t, p.target, s.current, j);
    } else if p.combo == Triple && HasCode(hand, p.requested.value) {
      var j: nat :| FirstOf(hand, p.requested.value, j) && Taken(Closed(s), t, p.target, s.current, j);
      TakenFrom(s, Closed(s), t, p.target, s.current, j);
    }
  }

  /** Each combo does what it is for once its window closes with an even number of cancels. */
  lemma ComboTakesEffect(s: State, c: Command, env: Env)
    requires Reachable(s) && GoesThrough(s, c) && s.pending.value.kind == CardCombo
    ensures ComboDone(s, Step(s, c, env).state, s.pending.value)
  {
    ReachableInv(s);
    ThroughClosed(s, c, env);
    var p := s.pending.value;
    ResolvesCombo(s, env.rnd);
    OtherClosed(s, p.target);
    ComboOfTurn(Closed(s), p, env.rnd);
    ComboFrom(s, Step(s, c, env).state, p);
  }

  lemma OtherClosed(s: State, id: PlayerId)
    ensures Other(s, id) <==> Other(Closed(s), id)
  {
  }

  /** The random pick of a pair can hit every card of the target's hand. */
  lemma AnyCardCanBeTaken(s: State, c: Command, j: nat) returns (env: Env)
    requires Reachable(s) && GoesThrough(s, c) && s.pending.value.kind == CardCombo && s.pending.value.combo == Pair
    requires j < |HandOf(s.players, s.pending.value.target)|
    ensures Taken(s, Step(s, c, env).state, s.pending.value.target, s.current, j)
  {
    env := Env(0, k => j);
    ReachableInv(s);
    ThroughClosed(s, c, env);
    var p := s.pending.value;
    ResolvesCombo(s, env.rnd);
    OtherClosed(s, p.target);
    PairOf(Closed(s), p, env.rnd);
    TakenFrom(s, Closed(s), Step(s, c, env).state, p.target, s.current, j);
  }

  // ------------------------------------------------------------------ prompts

  lemma PromptIs(s: State, c: Command, env: Env)
    requires Guard(s, c) == NoError
    requires c.ChooseCardForRequest? || c.ChooseMarkedCard? || c.SubmitReorderedTopCards? || c.ChooseCardForRecycle?
      || c.ChooseCardFromDiscard?
    ensures Step(s, c, env) == Ok(Effect(s, c, env).state)
  {
  }

  lemma RequestFacts(s: State, p: PlayerId, card: CardId)
    requires Inv(s) && RequestGuard(s, p, card) == NoError
    ensures AskOk(s, RequestCardChoice) && s.pending.value.target == p && s.phase == WaitingRequestCardChoice
    ensures IndexOfId(HandOf(s.players, p), card) >= 0
  {
  }

  /** The card named by the asked player is the one that changes hands. */
  lemma RequestHandsOver(s: State, c: Command, env: Env)
    requires Reachable(s) && c.ChooseCardForRequest? && Guard(s, c) == NoError
    ensures var t := Step(s, c, env).state;
      exists j: nat :: j < |HandOf(s.players, c.player)| && HandOf(s.players, c.player)[j].id == c.card
                       && Taken(s, t, c.player, s.current, j)
  {
    ReachableInv(s);
    PromptIs(s, c, env);
    PromptEffect(s, c, env);
    RequestFacts(s, c.player, c.card);
    var s1 := Tick(s.(pending := None, phase := PlayerTurn), 1);
    PromptCloses(s, s1);
    var j := IndexOfId(HandOf(s.players, c.player), c.card);
    Steals(s1, c.player, s.current, j);
    TakenFrom(s, s1, Step(s, c, env).state, c.player, s.current, j);
  }

  lemma MarkFacts(s: State, p: PlayerId, card: CardId)
    requires Inv(s) && MarkGuard(s, p, card) == NoError
    ensures AskOk(s, MarkedCardChoice) && s.phase == WaitingMarkedCardChoice
    ensures IndexOfId(HandOf(s.players, s.pending.value.target), card) >= 0
  {
  }

  ghost predicate Marks(s: State, t: State, owner: PlayerId, card: CardId) {
    var hand := HandOf(s.players, owner);
    && t.players == s.players && t.draw == s.draw && t.discard == s.discard && AtTurn(t) && SameTurns(s, t)
    && exists j: nat :: j < |hand| && hand[j].id == card && t.marks == s.marks[card := Mark(card, owner, hand[j])]
  }

  /** The chosen card of the target's hand is the one marked. */
  lemma MarksTheChosen(s: State, c: Command, env: Env)
    requires Reachable(s) && c.ChooseMarkedCard? && Guard(s, c) == NoError
    ensures s.pending.Some? && Marks(s, Step(s, c, env).state, s.pending.value.target, c.card)
  {
    ReachableInv(s);
    PromptIs(s, c, env);
    PromptEffect(s, c, env);
    MarkFacts(s, c.player, c.card);
    MarkIs(s, c.player, c.card);
  }

  lemma MarkIs(s: State, p: PlayerId, card: CardId)
    requires MarkGuard(s, p, card) == NoError
    ensures Marks(s, MarkEffect(s, p, card), s.pending.value.target, card)
  {
    var target := s.pending.value.target;
    var hand := HandOf(s.players, target);
    var j := IndexOfId(hand, card);
    assert hand[j].id == card && s.players[Seat(s.players, target)].id == target;
  }

  /** The named card leaves the discard pile for the player's hand, who pays if it is an explosive. */
  ghost predicate Recovers(s: State, t: State, p: PlayerId, card: CardId) {
    && t.draw == s.draw
    && exists j: nat, a :: j < |s.discard| && s.discard[j].id == card
         && NewHand(s.players, a, p, HandOf(s.players, p) + [s.discard[j]])
         && Aftermath(s, a, Minus(s.discard, j), t)
  }

  lemma RecoverFacts(s: State, p: PlayerId, card: CardId)
    requires Inv(s) && RecoverGuard(s, p, card) == NoError
    ensures s.phase == WaitingDiscardRecovery && p == s.current && IsAlive(s.players, p)
    ensures IndexOfId(s.discard, card) >= 0
  {
  }

  lemma RecoversTheNamed(s: State, c: Command, env: Env)
    requires Reachable(s) && c.ChooseCardFromDiscard? && Guard(s, c) == NoError
    ensures c.player == s.current && Recovers(s, Step(s, c, env).state, c.player, c.card)
  {
    ReachableInv(s);
    PromptIs(s, c, env);
    PromptEffect(s, c, env);
    RecoverFacts(s, c.player, c.card);
    var j := IndexOfId(s.discard, c.card);
    var s0 := Tick(s.(discard := RemoveAt(s.discard, j), pending := None, phase := PlayerTurn), 1);
    RecoverTakes(s, s0, j);
    RecoverShape(s, c.player, c.card, j, s0);
    RecoveredHand(s, s0, j, Seat(s.players, c.player));
  }

  lemma RecoveredHand(s: State, s0: State, j: nat, i: nat)
    requires TableOk(s0) && InPlay(s0) && AllSafe(s0.players) && s0.pending.None? && s0.phase == PlayerTurn
    requires j < |s.discard| && s0.discard == RemoveAt(s.discard, j) && s0.players == s.players && SameTurns(s, s0)
    requires s0.draw == s.draw && i < |s.players| && s.players[i].alive
    ensures Recovers(s, ResolveUnsafe(Give(s0, i, s.discard[j]), s.current, [s.players[i].id]), s.players[i].id,
                     s.discard[j].id)
  {
    var hand, card, p := s.players[i].hand, s.discard[j], s.players[i].id;
    var g := Give(s0, i, card);
    SeatOf(s.players, i);
    TurnRuns(s, s0);
    GivenRuns(s0, g, i, hand + [card]);
    NewHandAt(s.players, i, hand + [card]);
    UnsafeGive(hand, card);
    Resolves(g, [p], i);
    AftermathOf(s, g, g.players, g.discard, ResolveUnsafe(g, s.current, [p]));
    assert RemoveAt(s.discard, j) == Minus(s.discard, j);
  }
}
