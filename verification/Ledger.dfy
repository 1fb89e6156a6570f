/** The ledger of turns: which commands use up an owed turn, which hand the turn over, and that no others do. */
module Ledger {
  import opened Cards
  import opened Table
  import opened Rules
  import opened Invariant
  import opened Prompts
  import opened Runs
  import opened Outcomes
  import opened Effects
  import opened Windows

  // --------------------------------------------------------- kinds of commands

  /** The window closes and lets this card through. */
  ghost predicate PlaysOut(s: State, c: Command, code: Code) {
    && GoesThrough(s, c) && s.pending.value.kind == PlayedCard
    && |s.pending.value.cards| == 1 && s.pending.value.cards[0].code == code
  }

  /** A card is drawn and kept, a turn is skipped, or a drawn explosive is put back. */
  ghost predicate Finishes(s: State, c: Command) {
    var hand := HandOf(s.players, s.current);
    && Guard(s, c) == NoError
    && (|| (c.DrawCard? && s.draw != [] && Holds(hand, s.draw[0]))
        || (c.PlaceExplosive? && s.pending.Some? && !s.pending.value.reactive)
        || PlaysOut(s, c, SkipTurn)
        || (PlaysOut(s, c, DrawFromBottom) && s.draw != [] && Holds(hand, s.draw[|s.draw| - 1])))
  }

  /** A card goes through that gives all owed turns up. */
  ghost predicate HandsOver(s: State, c: Command) {
    PlaysOut(s, c, SkipAllTurns) || PlaysOut(s, c, ForceExtraTurns) || PlaysOut(s, c, TargetExtraTurns)
  }

  /** Whose turn it is and what everybody owes is as before, unless somebody died. */
  ghost predicate Continues(s: State, t: State) {
    SameTurns(s, t) || AfterDeath(s, t)
  }

  ghost predicate HandedOver(s: State, t: State) {
    exists to, owed :: Passes(s, t, to, owed)
  }

  // -------------------------------------------------------- command by command

  lemma AftermathContinues(s: State, a: seq<Player>, discard: seq<Card>, t: State)
    requires Aftermath(s, a, discard, t)
    ensures Continues(s, t)
  {
  }

  lemma TakenContinues(s: State, t: State, from: PlayerId, to: PlayerId, j: nat)
    requires Taken(s, t, from, to, j)
    ensures Continues(s, t)
  {
    var a: seq<Player> :| Transferred(s.players, a, from, to, j) && Aftermath(s, a, s.discard, t);
    AftermathContinues(s, a, s.discard, t);
  }

  lemma DrawLedger(s: State, t: State, card: Card)
    requires DrawDecided(s, t, card)
    ensures if Holds(HandOf(s.players, s.current), card) then UnitDone(s, t) else Continues(s, t)
  {
  }

  lemma TurnCardLedger(s: State, t: State, code: Code, target: PlayerId)
    requires code in TURN_CARDS && TurnCardDone(s, t, code, target)
    ensures code == SkipTurn ==> UnitDone(s, t)
    ensures code in {SkipAllTurns, ForceExtraTurns, TargetExtraTurns} ==> HandedOver(s, t)
    ensures code !in {SkipTurn, SkipAllTurns, ForceExtraTurns, TargetExtraTurns} ==> SameTurns(s, t)
  {
    if code in {SkipAllTurns, ForceExtraTurns} {
      var to :| Passes(s, t, to, if code == SkipAllTurns then 1 else 2);
    } else if code == TargetExtraTurns {
      assert Passes(s, t, target, 2);
    }
  }

  lemma PileCardLedger(s: State, t: State, code: Code)
    requires code in PILE_CARDS && PileCardDone(s, t, code)
    ensures SameTurns(s, t)
  {
  }

  lemma ComboLedger(s: State, t: State, p: Pending)
    requires ComboDone(s, t, p) && (p.combo == Pair ==> HandOf(s.players, p.target) != [])
    ensures Continues(s, t)
  {
    if p.combo == Pair {
      var j: nat :| Taken(s, t, p.target, s.current, j);
      TakenContinues(s, t, p.target, s.current, j);
    } else if p.combo == Triple && HasCode(HandOf(s.players, p.target), p.requested.value) {
      var j: nat :| FirstOf(HandOf(s.players, p.target), p.requested.value, j) && Taken(s, t, p.target, s.current, j);
      TakenContinues(s, t, p.target, s.current, j);
    }
  }

  /** The three things a step can do to the turns. */
  ghost predicate Entered(s: State, c: Command, t: State) {
    if Finishes(s, c) then UnitDone(s, t) else if HandsOver(s, c) then HandedOver(s, t) else Continues(s, t)
  }

  lemma CardLedger(s: State, c: Command, env: Env)
    requires Reachable(s) && GoesThrough(s, c) && s.pending.value.kind == PlayedCard
    ensures Entered(s, c, Step(s, c, env).state)
  {
    CardTakesEffect(s, c, env);
    CardEntered(s, c, Step(s, c, env).state, s.pending.value.cards[0].code);
  }

  lemma CardEntered(s: State, c: Command, t: State, code: Code)
    requires PlaysOut(s, c, code) && CardDone(s, t, code, s.pending.value.target)
    ensures Entered(s, c, t)
  {
    if code == DrawFromBottom {
      DrawLedger(s, t, s.draw[|s.draw| - 1]);
    } else if code in PILE_CARDS {
      PileCardLedger(s, t, code);
    } else {
      TurnCardLedger(s, t, code, s.pending.value.target);
    }
    CardKinds(s, c, code);
  }

  /** What playing a card out means for the turn, by its code. */
  lemma CardKinds(s: State, c: Command, code: Code)
    requires PlaysOut(s, c, code)
    ensures code == DrawFromBottom ==>
      (Finishes(s, c) <==> s.draw != [] && Holds(HandOf(s.players, s.current), s.draw[|s.draw| - 1]))
    ensures code != DrawFromBottom ==> (Finishes(s, c) <==> code == SkipTurn)
    ensures HandsOver(s, c) <==> code in {SkipAllTurns, ForceExtraTurns, TargetExtraTurns}
  {
    ClosingKind(s, c);
  }

  lemma OtherClosing(s: State, c: Command)
    requires s.pending.Some? && ClosesWindow(c)
    requires s.pending.value.cancels % 2 == 1 || s.pending.value.kind != PlayedCard
    ensures !Finishes(s, c) && !HandsOver(s, c)
  {
    ClosingKind(s, c);
  }

  lemma ClosingKind(s: State, c: Command)
    requires ClosesWindow(c)
    ensures !c.DrawCard? && !c.PlaceExplosive?
  {
  }

  lemma ClosingLedger(s: State, c: Command, env: Env)
    requires Reachable(s) && ClosesWindow(c) && Guard(s, c) == NoError
    ensures Entered(s, c, Step(s, c, env).state)
  {
    ReachableInv(s);
    ClosingResolves(s, c, env);
    var t := Step(s, c, env).state;
    WindowKinds(s);
    if s.pending.value.cancels % 2 == 0 && s.pending.value.kind == PlayedCard {
      CardLedger(s, c, env);
    } else {
      OtherClosing(s, c);
      OtherLedger(s, c, env);
    }
  }

  lemma OtherLedger(s: State, c: Command, env: Env)
    requires Reachable(s) && ClosesWindow(c) && Guard(s, c) == NoError && s.pending.Some? && Inv(s)
    requires s.pending.value.cancels % 2 == 1 || s.pending.value.kind == CardCombo
    requires ResolveGuard(s) == NoError && s.phase == CancelWindow
    ensures Continues(s, Step(s, c, env).state)
  {
    var t := Step(s, c, env).state;
    if s.pending.value.cancels % 2 == 1 {
      OddClosingDrops(s, c, env);
    } else if PairFizzles(s) {
      ClosingFails(s, c, env);
    } else {
      ComboTakesEffect(s, c, env);
      ComboLedger(s, t, s.pending.value);
    }
  }

  lemma WindowKinds(s: State)
    requires Inv(s) && ResolveGuard(s) == NoError
    ensures s.phase == CancelWindow && s.pending.Some? && s.pending.value.kind in {PlayedCard, CardCombo}
  {
  }

  lemma TurnLedger(s: State, c: Command, env: Env)
    requires Reachable(s) && Guard(s, c) == NoError && (c.DrawCard? || c.PlaceExplosive? || c.PlayCard? || c.PlayCombo?)
    ensures Entered(s, c, Step(s, c, env).state)
  {
    var t := Step(s, c, env).state;
    if c.DrawCard? {
      DrawTakesTop(s, c, env);
      DrawLedger(s, t, s.draw[0]);
      DrawEntered(s, c, t);
    } else if c.PlaceExplosive? {
      PlacementResumes(s, c, env);
      PlaceEntered(s, c, t);
    } else {
      NoTurnCommand(s, c);
      if c.PlayCard? { PlayOpensWindow(s, c, env); } else { ComboOpensWindow(s, c, env); }
    }
  }

  lemma DrawEntered(s: State, c: Command, t: State)
    requires c.DrawCard? && Guard(s, c) == NoError && s.draw != []
    requires if Holds(HandOf(s.players, s.current), s.draw[0]) then UnitDone(s, t) else Continues(s, t)
    ensures Entered(s, c, t)
  {
  }

  lemma PlaceEntered(s: State, c: Command, t: State)
    requires c.PlaceExplosive? && Guard(s, c) == NoError && s.pending.Some?
    requires if s.pending.value.reactive then SameTurns(s, t) else UnitDone(s, t)
    ensures Entered(s, c, t)
  {
  }

  lemma PromptLedger(s: State, c: Command, env: Env)
    requires Reachable(s) && Guard(s, c) == NoError
    requires c.PlayCancel? || c.ChooseCardForRequest? || c.ChooseMarkedCard? || c.SubmitReorderedTopCards?
      || c.ChooseCardForRecycle? || c.ChooseCardFromDiscard?
    ensures Continues(s, Step(s, c, env).state)
  {
    var t := Step(s, c, env).state;
    if c.PlayCancel? {
      CancelIsCounted(s, c, env);
    } else if c.ChooseCardForRequest? {
      RequestHandsOver(s, c, env);
      var j: nat :| j < |HandOf(s.players, c.player)| && Taken(s, t, c.player, s.current, j);
      TakenContinues(s, t, c.player, s.current, j);
    } else if c.ChooseMarkedCard? {
      MarksTheChosen(s, c, env);
    } else if c.SubmitReorderedTopCards? {
      ReorderFollowsIds(s, c, env);
    } else if c.ChooseCardForRecycle? {
      RecycleTakesChoice(s, c, env);
      ChoiceContinues(s, t, c.player, c.card);
    } else {
      RecoversTheNamed(s, c, env);
      RecoveryContinues(s, t, c.player, c.card);
    }
  }

  lemma ChoiceContinues(s: State, t: State, p: PlayerId, card: CardId)
    requires s.pending.Some? && Chooses(s, t, p, card)
    ensures Continues(s, t)
  {
    var hand, q := HandOf(s.players, p), s.pending.value;
    var j: nat, a: seq<Player> :|
      && Offered(hand, card, j) && NewHand(s.players, a, p, Minus(hand, j))
      && var selections := q.selections[p := hand[j]];
         if selections.Keys == Elements(q.recyclers) then RecycleEnds(s, a, t, selections)
         else t.players == a && ChoiceWaitsOn(s, t, selections);
    if q.selections[p := hand[j]].Keys == Elements(q.recyclers) { AftermathContinues(s, a, s.discard, t); }
  }

  lemma RecoveryContinues(s: State, t: State, p: PlayerId, card: CardId)
    requires Recovers(s, t, p, card)
    ensures Continues(s, t)
  {
    var j: nat, a: seq<Player> :| j < |s.discard| && s.discard[j].id == card
      && NewHand(s.players, a, p, HandOf(s.players, p) + [s.discard[j]])
      && Aftermath(s, a, Minus(s.discard, j), t);
    AftermathContinues(s, a, Minus(s.discard, j), t);
  }

  lemma NoTurnCommand(s: State, c: Command)
    requires !c.DrawCard? && !c.PlaceExplosive? && !ClosesWindow(c)
    ensures !Finishes(s, c) && !HandsOver(s, c)
  {
  }

  /**
   Every accepted command in a reachable state does exactly one of three things to the turns: it finishes one
   unit of the current player's turn, it hands the turn over, or it leaves the turn and all debts alone (save
   that a death may end the game or pass a dead player's turn on).
   */
  lemma StepLedger(s: State, c: Command, env: Env)
    requires Reachable(s) && Guard(s, c) == NoError
    ensures Entered(s, c, Step(s, c, env).state)
  {
    if c.DrawCard? || c.PlaceExplosive? || c.PlayCard? || c.PlayCombo? {
      TurnLedger(s, c, env);
    } else if ClosesWindow(c) {
      ClosingLedger(s, c, env);
    } else {
      NoTurnCommand(s, c);
      PromptLedger(s, c, env);
    }
  }

  // ---------------------------------------------------------------- owed turns

  /** How many of the inputs finish a unit of somebody's turn. */
  ghost function Units(s: State, inputs: seq<Input>): nat {
    if inputs == [] then 0
    else
      var front, last := inputs[..|inputs| - 1], inputs[|inputs| - 1];
      Units(s, front) + if Finishes(Run(s, front), last.command) then 1 else 0
  }

  /** Before each input it is the player's turn; the player lives on, the game too, and no card gives turns up. */
  ghost predicate Undisturbed(s: State, inputs: seq<Input>, p: PlayerId) {
    inputs == [] ||
      var front, last := inputs[..|inputs| - 1], inputs[|inputs| - 1];
      Undisturbed(s, front, p) && Goes(Run(s, front), last, p)
  }

  ghost predicate Goes(m: State, input: Input, p: PlayerId) {
    var t := Step(m, input.command, input.env).state;
    m.current == p && !HandsOver(m, input.command) && IsAlive(t.players, p) && t.phase != GameOver
  }

  /** While turns are owed the player goes on; the last owed one passes the turn to the next living player. */
  ghost predicate Served(t: State, p: PlayerId, owed: int, units: nat) {
    && units <= owed
    && if units < owed then t.current == p && Debt(t.debt, p) == owed - units
       else t.current != p && NextUp(t.players, p, t.current)
  }

  lemma ServedNext(m: State, input: Input, p: PlayerId, owed: int, units: nat)
    requires Reachable(m) && Served(m, p, owed, units) && Goes(m, input, p)
    ensures Served(Step(m, input.command, input.env).state, p, owed,
                   units + if Finishes(m, input.command) then 1 else 0)
  {
    var t := Step(m, input.command, input.env).state;
    if Guard(m, input.command) == NoError {
      StepLedger(m, input.command, input.env);
    } else {
      Rejected(m, input.command, input.env);
    }
  }

  lemma Rejected(s: State, c: Command, env: Env)
    requires Guard(s, c) != NoError
    ensures Step(s, c, env).state == s && !Finishes(s, c)
  {
  }

  /** In any run, a player who owes turns finishes exactly that many units before anybody else has the turn. */
  lemma {:induction false} OwedTurnsAreServed(s: State, inputs: seq<Input>, p: PlayerId)
    requires Reachable(s) && s.phase != GameOver && s.current == p && Undisturbed(s, inputs, p)
    ensures Served(Run(s, inputs), p, Debt(s.debt, p), Units(s, inputs))
  {
    if inputs == [] {
      ReachableInv(s);
    } else {
      var front, last := inputs[..|inputs| - 1], inputs[|inputs| - 1];
      OwedTurnsAreServed(s, front, p);
      ReachableRun(s, front);
      ServedNext(Run(s, front), last, p, Debt(s.debt, p), Units(s, front));
    }
  }

  /** The target of extra turns is next and finishes exactly two units before the turn is anybody else's. */
  lemma ExtraTurnsAreTwo(s: State, c: Command, env: Env, inputs: seq<Input>)
    requires Reachable(s) && (PlaysOut(s, c, TargetExtraTurns) || PlaysOut(s, c, ForceExtraTurns))
    requires var t := Step(s, c, env).state; Undisturbed(t, inputs, t.current)
    ensures var t := Step(s, c, env).state;
      && t.current != s.current && (PlaysOut(s, c, TargetExtraTurns) ==> t.current == s.pending.value.target)
      && (PlaysOut(s, c, ForceExtraTurns) ==> NextUp(s.players, s.current, t.current))
      && Served(Run(t, inputs), t.current, 2, Units(t, inputs))
  {
    var t := Step(s, c, env).state;
    CardTakesEffect(s, c, env);
    ReachableNext(s, c, env);
    LoadedWithTwo(s, t, s.pending.value.cards[0].code);
    OwedTurnsAreServed(t, inputs, t.current);
  }

  lemma LoadedWithTwo(s: State, t: State, code: Code)
    requires s.pending.Some? && CardDone(s, t, code, s.pending.value.target)
    requires code in {TargetExtraTurns, ForceExtraTurns}
    ensures t.phase == PlayerTurn && t.current != s.current && Debt(t.debt, t.current) == 2
    ensures code == TargetExtraTurns ==> t.current == s.pending.value.target
    ensures code == ForceExtraTurns ==> NextUp(s.players, s.current, t.current)
  {
    if code == ForceExtraTurns {
      var to :| NextUp(s.players, s.current, to) && Passes(s, t, to, 2);
    }
  }
}
