/** Whole games: every run of commands from a started game, and what all its states have in common. */
module Runs {
  import opened Cards
  import opened Shuffling
  import opened Table
  import opened Rules
  import opened Invariant
  import opened Prompts
  import opened Deck
  import opened Deal
  import E = Engine

  /** What a game starts from: the players in order, the counters, and two shuffles. */
  datatype Opening = Opening(ids: seq<PlayerId>, last: nat, rnd1: Random, rnd2: Random, nextPending: nat)

  datatype Input = Input(command: Command, env: Env)

  /** The player ids are distinct and not empty; the engine itself only checks their number. */
  predicate ValidOpening(o: Opening) {
    ValidPlayerCount(|o.ids|) && Distinct(o.ids) && 0 !in o.ids
  }

  function Opened(o: Opening): State
    requires ValidOpening(o)
  {
    Start(o.ids, o.last, o.rnd1, o.rnd2, o.nextPending)
  }

  /** The state after the inputs, accepted or rejected, one after the other. */
  function Run(s: State, inputs: seq<Input>): State {
    if inputs == [] then s
    else
      var last := inputs[|inputs| - 1];
      Step(Run(s, inputs[..|inputs| - 1]), last.command, last.env).state
  }

  /** Some run leads here from a fresh table. Every started game is one, by `Deal.StartIsFresh`. */
  ghost predicate Reachable(s: State) {
    exists s0: State, ids: seq<PlayerId>, inputs: seq<Input> :: FreshTable(s0, ids) && s == Run(s0, inputs)
  }

  /** In particular, everything that follows a game started by the program is reachable. */
  lemma GamesAreReachable(o: Opening, inputs: seq<Input>)
    requires ValidOpening(o)
    ensures Reachable(Run(Opened(o), inputs))
  {
    StartIsFresh(o.ids, o.last, o.rnd1, o.rnd2, o.nextPending);
  }

  /** Some game started by the program comes to this state. */
  ghost predicate Occurs(s: State) {
    exists o: Opening, inputs: seq<Input> :: ValidOpening(o) && s == Run(Opened(o), inputs)
  }

  lemma OpeningOccurs(o: Opening)
    requires ValidOpening(o)
    ensures Occurs(Opened(o)) && Inv(Opened(o))
  {
    assert Opened(o) == Run(Opened(o), []);
    OpenedSound(o);
  }

  /** What occurs is reachable and sound. */
  lemma OccursSoundly(s: State)
    requires Occurs(s)
    ensures Reachable(s) && Inv(s)
  {
    var o: Opening, inputs: seq<Input> :| ValidOpening(o) && s == Run(Opened(o), inputs);
    GamesAreReachable(o, inputs);
    ReachableInv(s);
  }

  /** Whatever a command makes of an occurring state occurs too. */
  lemma OccursNext(s: State, c: Command, env: Env)
    requires Occurs(s)
    ensures Occurs(Step(s, c, env).state) && Inv(Step(s, c, env).state)
  {
    var o: Opening, inputs: seq<Input> :| ValidOpening(o) && s == Run(Opened(o), inputs);
    RunMore(Opened(o), inputs, Input(c, env));
    RunOccurs(o, inputs + [Input(c, env)]);
    OccursSoundly(Step(s, c, env).state);
  }

  lemma RunOccurs(o: Opening, inputs: seq<Input>)
    requires ValidOpening(o)
    ensures Occurs(Run(Opened(o), inputs))
  {
  }

  lemma RunMore(s: State, inputs: seq<Input>, input: Input)
    ensures Run(s, inputs + [input]) == Step(Run(s, inputs), input.command, input.env).state
  {
    var more := inputs + [input];
    assert more[..|more| - 1] == inputs;
  }

  /** Whatever a command, or a run of commands, makes of a reachable state is reachable too. */
  lemma ReachableNext(s: State, c: Command, env: Env)
    requires Reachable(s)
    ensures Reachable(Step(s, c, env).state)
  {
    var s0: State, ids: seq<PlayerId>, inputs: seq<Input> :| FreshTable(s0, ids) && s == Run(s0, inputs);
    RunMore(s0, inputs, Input(c, env));
    RunIsReachable(s0, ids, inputs + [Input(c, env)]);
  }

  lemma RunIsReachable(s: State, ids: seq<PlayerId>, inputs: seq<Input>)
    requires FreshTable(s, ids)
    ensures Reachable(Run(s, inputs))
  {
  }

  lemma {:induction false} ReachableRun(s: State, inputs: seq<Input>)
    requires Reachable(s)
    ensures Reachable(Run(s, inputs))
  {
    if inputs != [] {
      var last := inputs[|inputs| - 1];
      ReachableRun(s, inputs[..|inputs| - 1]);
      ReachableNext(Run(s, inputs[..|inputs| - 1]), last.command, last.env);
    }
  }

  // ------------------------------------------------------------- invariants

  lemma {:induction false} RunKeeps(s: State, inputs: seq<Input>)
    requires Inv(s)
    ensures Inv(Run(s, inputs))
    ensures AllCards(Run(s, inputs)) == AllCards(s)
    ensures SameIds(s.players, Run(s, inputs).players)
  {
    if inputs != [] {
      var last := inputs[|inputs| - 1];
      var t := Run(s, inputs[..|inputs| - 1]);
      RunKeeps(s, inputs[..|inputs| - 1]);
      StepKeeps(t, last.command, last.env);
    }
  }

  /** The same players in the same seats; the dead stay dead. */
  ghost predicate SameIds(a: seq<Player>, b: seq<Player>) {
    |b| == |a| && forall i :: 0 <= i < |a| ==> b[i].id == a[i].id && (b[i].alive ==> a[i].alive)
  }

  lemma ReachableInv(s: State)
    requires Reachable(s)
    ensures Inv(s)
  {
    var s0: State, ids: seq<PlayerId>, inputs: seq<Input> :| FreshTable(s0, ids) && s == Run(s0, inputs);
    FreshInv(s0, ids);
    RunKeeps(s0, inputs);
  }

  /**
   Conservation over a whole game: whatever commands arrive, the table holds exactly the cards of
   the deck for that many players, each under its own id.
   */
  lemma DeckIsConserved(o: Opening, inputs: seq<Input>) returns (deck: seq<Card>)
    requires ValidOpening(o)
    ensures AllCards(Run(Opened(o), inputs)) == multiset(deck)
    ensures forall code :: Count(deck, code) == CountOf(DeckCardCounts(|o.ids|), code)
    ensures DistinctIds(deck)
  {
    deck := StartDeals(o.ids, o.last, o.rnd1, o.rnd2, o.nextPending);
    OpenedSound(o);
    RunKeeps(Opened(o), inputs);
    ConsecutiveDiffer(deck, o.last);
  }

  lemma OpenedSound(o: Opening)
    requires ValidOpening(o)
    ensures FreshTable(Opened(o), o.ids) && Inv(Opened(o))
  {
    StartIsFresh(o.ids, o.last, o.rnd1, o.rnd2, o.nextPending);
    FreshInv(Opened(o), o.ids);
  }

  lemma ConsecutiveDiffer(deck: seq<Card>, last: nat)
    requires forall k :: 0 <= k < |deck| ==> deck[k].id == last + 1 + k
    ensures DistinctIds(deck)
  {
  }

  /** A living player holds at most one explosive, and only with the holder or just after giving it up. */
  lemma ExplosivesContained(s: State, i: nat)
    requires Reachable(s) && i < |s.players|
    ensures Count(s.players[i].hand, Explosive) <= 1
    ensures Count(s.players[i].hand, Explosive) == 1 ==>
      HasCode(s.players[i].hand, ExplosiveHolder)
      || (s.phase == WaitingRecycleChoices && GaveHolder(s.pending, s.players[i].id))
    ensures !s.players[i].alive ==> s.players[i].hand == []
  {
    ReachableInv(s);
    if GaveHolder(s.pending, s.players[i].id) { GiverIsRecycling(s, s.players[i].id); }
    assert SafeHand(s.players[i].hand, GaveHolder(s.pending, s.players[i].id));
    SafeHandMeans(s.players[i].hand, GaveHolder(s.pending, s.players[i].id));
  }

  lemma SafeHandMeans(hand: seq<Card>, gave: bool)
    requires SafeHand(hand, gave)
    ensures Count(hand, Explosive) <= 1 && (Count(hand, Explosive) == 1 ==> HasCode(hand, ExplosiveHolder) || gave)
  {
    CountPositive(hand, ExplosiveHolder);
  }

  lemma GiverIsRecycling(s: State, id: PlayerId)
    requires Inv(s) && GaveHolder(s.pending, id)
    ensures s.phase == WaitingRecycleChoices
  {
  }

  /**
   Somebody is always alive; the game is over exactly when one player is, who is then the winner,
   and before that the turn belongs to a living player.
   */
  lemma OneSurvivor(s: State)
    requires Reachable(s)
    ensures AliveCount(s.players) >= 1
    ensures s.phase == GameOver <==> AliveCount(s.players) == 1
    ensures s.phase == GameOver ==> forall id :: IsAlive(s.players, id) <==> id == s.winner
    ensures s.phase != GameOver ==> IsAlive(s.players, s.current) && s.winner == 0
  {
    ReachableInv(s);
    if s.phase == GameOver {
      forall id | IsAlive(s.players, id) ensures id == s.winner {
        if id != s.winner { AliveCountTwo(s.players, Seat(s.players, id), Seat(s.players, s.winner)); }
      }
    }
  }

  lemma OneDeathAtMost(s: State, c: Command, env: Env)
    requires Reachable(s)
    ensures var t := Step(s, c, env).state; AliveCount(s.players) - 1 <= AliveCount(t.players) <= AliveCount(s.players)
  {
    ReachableInv(s);
    StepKeeps(s, c, env);
  }

  /** The current player owes one or two turns and nobody else alive owes any. */
  lemma DebtsBounded(s: State, id: PlayerId)
    requires Reachable(s) && s.phase != GameOver && IsAlive(s.players, id)
    ensures if id == s.current then 1 <= Debt(s.debt, id) <= 2 else Debt(s.debt, id) == 0
  {
    ReachableInv(s);
    assert s.players[Seat(s.players, id)].id == id;
  }

  /** The kind of pending action each phase waits for; a cancel window is open over a card or a combo. */
  predicate KindFits(phase: Phase, kind: PendingKind) {
    match phase
    case PlayerTurn => false
    case GameOver => false
    case CancelWindow => kind in {PlayedCard, CardCombo}
    case WaitingRequestCardChoice => kind == RequestCardChoice
    case WaitingMarkedCardChoice => kind == MarkedCardChoice
    case WaitingDeckReorder => kind == DeckReorder
    case WaitingRecycleChoices => kind == RecycleChoices
    case WaitingDiscardRecovery => kind == DiscardRecovery
    case WaitingExplosivePlacement => kind == ExplosivePlacement
  }

  /**
   Phase and pending action match, the queue of explosives is always drained, and each mark shows
   a card that its owner still holds.
   */
  lemma PhasesCohere(s: State)
    requires Reachable(s)
    ensures s.pending.None? <==> s.phase in {PlayerTurn, GameOver}
    ensures s.pending.Some? ==> KindFits(s.phase, s.pending.value.kind)
    ensures s.queue == []
    ensures forall id :: id in s.marks ==> s.marks[id].card == id && s.marks[id].revealed.id == id
    ensures forall id :: id in s.marks ==>
        IsAlive(s.players, s.marks[id].owner) && s.marks[id].revealed in HandOf(s.players, s.marks[id].owner)
  {
    ReachableInv(s);
    forall id | id in s.marks
      ensures MarkOk(s.players, id, s.marks[id]) && IsAlive(s.players, s.marks[id].owner)
    {
      assert MarkOk(s.players, id, s.marks[id]);
      assert s.players[Seat(s.players, s.marks[id].owner)].hand != [];
    }
  }

  // -------------------------------------------------------------- atomicity

  predicate ClosesWindow(c: Command) {
    c.ExpireCancelWindow? || c.ResolveCancelWindow?
  }

  /**
   A command that reports an error leaves the state as it was, with exactly one exception: closing
   the window of a pair whose target has no card left.
   */
  lemma FailuresAreAtomic(s: State, c: Command, env: Env)
    requires Reachable(s)
    ensures var o := Step(s, c, env);
      && (o.error != NoError && o.state != s <==> ClosesWindow(c) && Guard(s, c) == NoError && PairFizzles(s))
      && (o.error != NoError && o.state != s ==>
            o == Outcome(s.(pending := None, phase := PlayerTurn, eventSeq := s.eventSeq + 1), InvalidTarget))
  {
    ReachableInv(s);
    if Guard(s, c) == NoError {
      if ClosesWindow(c) {
        ClosingFails(s, c, env);
      } else {
        AcceptedSucceeds(s, c, env);
      }
    }
  }

  lemma ClosingFails(s: State, c: Command, env: Env)
    requires Inv(s) && ClosesWindow(c) && Guard(s, c) == NoError
    ensures var o := Step(s, c, env);
      && (o.error != NoError <==> PairFizzles(s))
      && (PairFizzles(s) ==>
            o == Outcome(s.(pending := None, phase := PlayerTurn, eventSeq := s.eventSeq + 1), InvalidTarget))
  {
    ClosingResolves(s, c, env);
    WindowResolves(s, env.rnd);
  }

  lemma ClosingResolves(s: State, c: Command, env: Env)
    requires ClosesWindow(c) && Guard(s, c) == NoError
    ensures ResolveGuard(s) == NoError && Step(s, c, env) == ResolveEffect(s, env.rnd)
  {
  }

  lemma AcceptedSucceeds(s: State, c: Command, env: Env)
    requires !ClosesWindow(c) && Guard(s, c) == NoError
    ensures Step(s, c, env).error == NoError
  {
  }

  // ----------------------------------------------------- the engine in action

  /**
   One command carried out by the engine on the state it owns. Every engine method may be called
   in every sound state, does what the rules say, and leaves a sound state with the same cards.
   */
  method Perform(engine: E.Engine, state: E.GameState, c: Command, env: Env) returns (err: Error)
    requires Inv(engine.Snap(state))
    modifies engine, state
    ensures Outcome(engine.Snap(state), err) == Step(old(engine.Snap(state)), c, env)
    ensures Inv(engine.Snap(state)) && AllCards(engine.Snap(state)) == old(AllCards(engine.Snap(state)))
  {
    ghost var s := engine.Snap(state);
    StepKeeps(s, c, env);
    Callable(s);
    err := Dispatch(engine, state, c, env);
  }

  lemma Callable(s: State)
    requires Inv(s)
    ensures E.RevealTargetKnown(s)
  {
    if s.phase == CancelWindow { WindowTarget(s, s.pending.value); }
  }

  lemma WindowTarget(s: State, p: Pending)
    requires WindowOk(s, p) && s.pending == Some(p)
    ensures E.RevealTargetKnown(s)
  {
  }

  /** Each command names one engine method. */
  method Dispatch(engine: E.Engine, state: E.GameState, c: Command, env: Env) returns (err: Error)
    requires E.RevealTargetKnown(engine.Snap(state))
    modifies engine, state
    ensures Outcome(engine.Snap(state), err) == Step(old(engine.Snap(state)), c, env)
  {
    match c
    case DrawCard(p) => err := engine.DrawCard(state, p);
    case PlaceExplosive(p, index) => err := engine.PlaceExplosive(state, p, index);
    case PlayCard(p, ids, target) => err := engine.PlayCard(state, p, ids, target, env.now);
    case PlayCombo(p, ids, target, requested) => err := engine.PlayCombo(state, p, ids, target, requested, env.now);
    case PlayCancel(p, card, pendingId) => err := engine.PlayCancel(state, p, card, pendingId);
    case ExpireCancelWindow(at) => err := engine.ExpireCancelWindow(state, at, env.rnd);
    case ResolveCancelWindow => err := engine.ResolveCancelWindow(state, env.rnd);
    case ChooseCardForRequest(p, card) => err := engine.ChooseCardForRequest(state, p, card);
    case ChooseMarkedCard(p, card) => err := engine.ChooseMarkedCard(state, p, card);
    case SubmitReorderedTopCards(p, ids) => err := engine.SubmitReorderedTopCards(state, p, ids);
    case ChooseCardForRecycle(p, card) => err := engine.ChooseCardForRecycle(state, p, card, env.rnd);
    case ChooseCardFromDiscard(p, card) => err := engine.ChooseCardFromDiscard(state, p, card);
  }
}
