/** A collective recycle: the order in which the players hand in their cards does not matter. */
module Recycle {
  import opened Cards
  import opened Shuffling
  import opened Table
  import opened Rules
  import opened Invariant
  import opened Preserve
  import opened Prompts
  import opened Runs
  import opened Termination
  import opened Commuting

  datatype Choice = Choice(player: PlayerId, card: CardId)

  function Submitted(s: State, x: Choice): State
    requires RecycleGuard(s, x.player, x.card) == NoError
  {
    Submit(s, x.player, x.card)
  }

  predicate Takes(s: State, x: Choice) {
    RecycleGuard(s, x.player, x.card) == NoError
  }

  /** A choice that is not acceptable changes nothing. */
  function Try(s: State, x: Choice): State {
    if Takes(s, x) then Submitted(s, x) else s
  }

  // ----------------------------------------------------------------- swapping

  /** A card of `p` in seat `i` goes to the selections. */
  function Took(s: State, i: nat, p: PlayerId, hand: seq<Card>, card: Card): State
    requires i < |s.players| && s.pending.Some?
  {
    s.(players := s.players[i := s.players[i].(hand := hand)],
       marks := Unmarked(s.marks, p, hand),
       pending := Some(s.pending.value.(selections := s.pending.value.selections[p := card])))
  }

  lemma TookSwaps(s: State, i: nat, p: PlayerId, hand: seq<Card>, card: Card, k: nat, q: PlayerId, hand': seq<Card>,
        card': Card)
    requires i < |s.players| && k < |s.players| && i != k && p != q && s.pending.Some?
    ensures Took(Took(s, i, p, hand, card), k, q, hand', card') == Took(Took(s, k, q, hand', card'), i, p, hand, card)
  {
    var a, b := s.players[i].(hand := hand), s.players[k].(hand := hand');
    assert s.players[i := a][k := b] == s.players[k := b][i := a];
    UnmarkedSwaps(s.marks, p, hand, q, hand');
    SelectionsSwap(s.pending.value.selections, p, card, q, card');
  }

  lemma UnmarkedSwaps(marks: map<CardId, Mark>, p: PlayerId, h: seq<Card>, q: PlayerId, g: seq<Card>)
    ensures Unmarked(Unmarked(marks, p, h), q, g) == Unmarked(Unmarked(marks, q, g), p, h)
  {
  }

  lemma SelectionsSwap(selections: map<PlayerId, Card>, p: PlayerId, c: Card, q: PlayerId, d: Card)
    requires p != q
    ensures selections[p := c][q := d] == selections[q := d][p := c]
  {
  }

  /** The position of the chosen card in the chooser's hand. */
  function Slot(s: State, x: Choice): int {
    IndexOfId(HandOf(s.players, x.player), x.card)
  }

  /** A choice takes the chosen card. */
  lemma SubmittedTakes(s: State, x: Choice)
    requires RecycleGuard(s, x.player, x.card) == NoError
    ensures s.pending.Some? && Seat(s.players, x.player) >= 0 && Slot(s, x) >= 0
    ensures var hand := HandOf(s.players, x.player);
      Submitted(s, x) == Took(s, Seat(s.players, x.player), x.player, RemoveAt(hand, Slot(s, x)), hand[Slot(s, x)])
  {
  }

  /** What of the table a choice by `q` looks at. */
  ghost predicate SameFor(s: State, t: State, q: PlayerId) {
    && t.phase == s.phase && s.pending.Some? && t.pending.Some?
    && t.pending.value.kind == s.pending.value.kind && t.pending.value.recyclers == s.pending.value.recyclers
    && (q in t.pending.value.selections <==> q in s.pending.value.selections)
    && Seat(t.players, q) == Seat(s.players, q) && HandOf(t.players, q) == HandOf(s.players, q)
    && AliveError(t.players, q) == AliveError(s.players, q)
  }

  lemma TookSpares(s: State, i: nat, p: PlayerId, hand: seq<Card>, card: Card, q: PlayerId)
    requires i < |s.players| && s.players[i].id == p && s.pending.Some? && q != p
    ensures SameFor(s, Took(s, i, p, hand, card), q)
  {
    UpdatePlayer(s.players, i, s.players[i].(hand := hand));
  }

  lemma SameGuard(s: State, t: State, y: Choice)
    requires SameFor(s, t, y.player)
    ensures RecycleGuard(t, y.player, y.card) == RecycleGuard(s, y.player, y.card) && Slot(t, y) == Slot(s, y)
  {
  }

  /** A choice leaves everything another player's choice depends on. */
  lemma ChoiceSpares(s: State, x: Choice, y: Choice)
    requires RecycleGuard(s, x.player, x.card) == NoError && x.player != y.player
    ensures SameFor(s, Submitted(s, x), y.player)
    ensures RecycleGuard(Submitted(s, x), y.player, y.card) == RecycleGuard(s, y.player, y.card)
  {
    SubmittedTakes(s, x);
    var hand := HandOf(s.players, x.player);
    TookSpares(s, Seat(s.players, x.player), x.player, RemoveAt(hand, Slot(s, x)), hand[Slot(s, x)], y.player);
    SameGuard(s, Submitted(s, x), y);
  }

  lemma NobodyTwice(s: State, x: Choice, y: Choice)
    requires RecycleGuard(s, x.player, x.card) == NoError
    requires RecycleGuard(Submitted(s, x), y.player, y.card) == NoError
    ensures x.player != y.player
  {
    SubmittedTakes(s, x);
  }

  lemma TookTwice(s: State, x: Choice, y: Choice)
    requires RecycleGuard(s, x.player, x.card) == NoError && RecycleGuard(s, y.player, y.card) == NoError
    requires x.player != y.player
    requires RecycleGuard(Submitted(s, x), y.player, y.card) == NoError
    ensures var i, k := Seat(s.players, x.player), Seat(s.players, y.player);
      var hand, hand' := HandOf(s.players, x.player), HandOf(s.players, y.player);
      && i >= 0 && k >= 0 && i != k && s.pending.Some? && Slot(s, x) >= 0 && Slot(s, y) >= 0
      && Submitted(Submitted(s, x), y) ==
           Took(Took(s, i, x.player, RemoveAt(hand, Slot(s, x)), hand[Slot(s, x)]),
                k, y.player, RemoveAt(hand', Slot(s, y)), hand'[Slot(s, y)])
  {
    SubmittedTakes(s, x);
    SubmittedTakes(s, y);
    ChoiceSpares(s, x, y);
    SubmittedTakes(Submitted(s, x), y);
  }

  /** Two neighbouring choices can trade places. */
  lemma ChoicesSwap(s: State, x: Choice, y: Choice)
    requires RecycleGuard(s, x.player, x.card) == NoError
    requires RecycleGuard(Submitted(s, x), y.player, y.card) == NoError
    ensures RecycleGuard(s, y.player, y.card) == NoError
    ensures RecycleGuard(Submitted(s, y), x.player, x.card) == NoError
    ensures Submitted(Submitted(s, x), y) == Submitted(Submitted(s, y), x)
  {
    NobodyTwice(s, x, y);
    ChoiceSpares(s, x, y);
    ChoiceSpares(s, y, x);
    TookTwice(s, x, y);
    TookTwice(s, y, x);
    var hand, hand' := HandOf(s.players, x.player), HandOf(s.players, y.player);
    TookSwaps(s, Seat(s.players, x.player), x.player, RemoveAt(hand, Slot(s, x)), hand[Slot(s, x)],
              Seat(s.players, y.player), y.player, RemoveAt(hand', Slot(s, y)), hand'[Slot(s, y)]);
  }

  lemma ChoicesCommute()
    ensures Commute(Takes, Try)
  {
    forall s: State, x: Choice, y: Choice | Takes(s, x) && Takes(Try(s, x), y)
      ensures Takes(s, y) && Takes(Try(s, y), x) && Try(Try(s, y), x) == Try(Try(s, x), y)
    {
      ChoicesSwap(s, x, y);
    }
  }

  // ------------------------------------------------- through the engine's steps

  function Submission(x: Choice): Command {
    ChooseCardForRecycle(x.player, x.card)
  }

  /** The choices as commands, one after the other. */
  function Play(s: State, xs: seq<Choice>, env: Env): State
    decreases |xs|
  {
    if xs == [] then s else Play(Step(s, Submission(xs[0]), env).state, xs[1..], env)
  }

  ghost predicate PlayAccepted(s: State, xs: seq<Choice>, env: Env)
    decreases |xs|
  {
    xs == [] || (Guard(s, Submission(xs[0])) == NoError
        && PlayAccepted(Step(s, Submission(xs[0]), env).state, xs[1..], env))
  }

  /** All choosers have chosen. */
  predicate Complete(s: State) {
    s.pending.Some? && |s.pending.value.selections| == |s.pending.value.recyclers|
  }

  /** Once closed, a recycle takes no further choice. */
  lemma ClosedRejects(s: State, x: Choice, rnd: Random)
    requires s.pending.Some? && s.queue == []
    ensures !Takes(CloseRecycle(s, rnd), x)
  {
    ClosedPhase(s, rnd);
  }

  lemma ClosedPhase(s: State, rnd: Random)
    requires s.pending.Some? && s.queue == []
    ensures CloseRecycle(s, rnd).phase != WaitingRecycleChoices
  {
    var p := s.pending.value;
    var t := Pooled(s, rnd);
    ResolveHands(t, s.current, p.recyclers);
    ProcessAllHands(t, p.recyclers, {});
  }

  lemma ChoiceTakesEffect(s: State, c: Command, env: Env)
    requires c.ChooseCardForRecycle? && RecycleGuard(s, c.player, c.card) == NoError
    ensures Guard(s, c) == NoError && Effect(s, c, env).error == NoError
    ensures Effect(s, c, env).state == RecycleEffect(s, c.player, c.card, env.rnd)
  {
    match c
    case ChooseCardForRecycle(p, card) =>
  }

  lemma AcceptedTakesEffect(s: State, c: Command, env: Env)
    requires Guard(s, c) == NoError
    ensures Step(s, c, env) == Effect(s, c, env)
  {
  }

  /** A submitted choice waits, or closes the recycle if it is the last. */
  function Continued(s: State, x: Choice, rnd: Random): State
    requires Takes(s, x)
  {
    var t := Submitted(s, x);
    if |t.pending.value.selections| == |t.pending.value.recyclers| then CloseRecycle(t, rnd) else t
  }

  lemma SubmittedOn(s: State, x: Choice, env: Env)
    requires Takes(s, x)
    ensures Guard(s, Submission(x)) == NoError && Step(s, Submission(x), env) == Ok(Continued(s, x, env.rnd))
  {
    ChoiceTakesEffect(s, Submission(x), env);
    AcceptedTakesEffect(s, Submission(x), env);
    SubmittedNext(s, x, env.rnd);
  }

  lemma SubmittedNext(s: State, x: Choice, rnd: Random)
    requires Takes(s, x)
    ensures Submitted(s, x).queue == s.queue && Submitted(s, x).pending.Some?
    ensures RecycleEffect(s, x.player, x.card, rnd) == Continued(s, x, rnd)
  {
    SubmittedTakes(s, x);
  }

  /** Played choices submit all, and close the recycle when they were all that was missing. */
  lemma {:induction false} PlayIsSubmitAll(s: State, xs: seq<Choice>, env: Env)
    requires s.pending.Some? && s.queue == [] && |s.pending.value.selections| < |s.pending.value.recyclers|
    requires PlayAccepted(s, xs, env)
    ensures AllAllowed(Takes, Try, s, xs) && |s.pending.value.selections| + |xs| <= |s.pending.value.recyclers|
    ensures var t := TakeAll(Try, s, xs);
      t.pending.Some? && Play(s, xs, env) == if xs != [] && Complete(t) then CloseRecycle(t, env.rnd) else t
    decreases |xs|
  {
    if xs != [] {
      var x, rest := xs[0], xs[1..];
      var t := Try(s, x);
      SubmittedOn(s, x, env);
      SubmittedCounts(s, x);
      if Complete(t) {
        if rest != [] { ClosedRejects(t, rest[0], env.rnd); }
      } else {
        PlayIsSubmitAll(t, rest, env);
      }
    }
  }

  lemma SubmittedCounts(s: State, x: Choice)
    requires Takes(s, x)
    ensures var t := Submitted(s, x);
      && s.pending.Some? && t.pending.Some? && |t.pending.value.selections| == |s.pending.value.selections| + 1
      && t.pending.value.recyclers == s.pending.value.recyclers
  {
    SubmittedTakes(s, x);
  }

  /** Acceptable choices that do not outnumber the choosers are accepted as commands. */
  lemma {:induction false} SubmitAllPlays(s: State, xs: seq<Choice>, env: Env)
    requires s.pending.Some? && AllAllowed(Takes, Try, s, xs)
    requires |s.pending.value.selections| + |xs| <= |s.pending.value.recyclers|
    ensures PlayAccepted(s, xs, env)
    decreases |xs|
  {
    if xs != [] {
      var x, rest := xs[0], xs[1..];
      var t := Step(s, Submission(x), env).state;
      SubmittedOn(s, x, env);
      SubmittedCounts(s, x);
      if rest == [] {
        assert PlayAccepted(t, rest, env);
      } else {
        assert t == Submitted(s, x);
        SubmitAllPlays(t, rest, env);
      }
    }
  }

  /**
   The order of the choices does not matter: if the choices are accepted in one order, they are
   accepted in every order, and with the same shuffle the game goes on in the same state.
   */
  lemma RecycleChoicesCommute(s: State, xs: seq<Choice>, ys: seq<Choice>, env: Env)
    requires Reachable(s) && s.phase == WaitingRecycleChoices
    requires PlayAccepted(s, xs, env) && multiset(xs) == multiset(ys)
    ensures PlayAccepted(s, ys, env) && Play(s, ys, env) == Play(s, xs, env)
  {
    ReachableInv(s);
    PlayIsSubmitAll(s, xs, env);
    ChoicesCommute();
    OrderIsFree(Takes, Try, s, xs, ys);
    assert |xs| == |multiset(xs)| == |multiset(ys)| == |ys|;
    SubmitAllPlays(s, ys, env);
    PlayIsSubmitAll(s, ys, env);
  }

  /**
   The recycle closes with exactly the choice that completes the key set: until then the phase
   stays and the keys are a proper part of the players listed when it opened.
   */
  lemma ClosesWhenComplete(s: State, x: Choice, env: Env)
    requires Reachable(s) && Takes(s, x)
    ensures var sel := s.pending.value.selections.Keys + {x.player};
      var t := Step(s, Submission(x), env).state;
      && sel <= Elements(s.pending.value.recyclers)
      && (t.phase != WaitingRecycleChoices <==> sel == Elements(s.pending.value.recyclers))
      && (t.phase == WaitingRecycleChoices ==> t.pending.Some? && t.pending.value.selections.Keys == sel)
  {
    ReachableInv(s);
    RecycleAccepted(s, x.player, x.card);
    SubmittedOn(s, x, env);
    KeysComplete(s, x);
    SubmittedNext(s, x, env.rnd);
    if Complete(Submitted(s, x)) { ClosedPhase(Submitted(s, x), env.rnd); }
  }

  lemma KeysComplete(s: State, x: Choice)
    requires Takes(s, x) && Distinct(s.pending.value.recyclers)
    requires Listed(s.pending.value.recyclers, s.pending.value.selections)
    ensures var t, sel := Submitted(s, x), s.pending.value.selections.Keys + {x.player};
      && t.pending.Some? && t.pending.value.selections.Keys == sel && t.phase == WaitingRecycleChoices
      && sel <= Elements(s.pending.value.recyclers)
      && (Complete(t) <==> sel == Elements(s.pending.value.recyclers))
  {
    SubmittedTakes(s, x);
    var p := Submitted(s, x).pending.value;
    assert p.selections.Keys == s.pending.value.selections.Keys + {x.player};
    KeysWithin(p.recyclers, p.selections);
  }

  /** A recycle opens for exactly the living players with cards. */
  lemma OpensForEligible(s: State, source: PlayerId, rnd: Random)
    requires Inv(s) && Eligible(s.players) != []
    ensures var t := OfferRecycle(s, source, rnd);
      && t.phase == WaitingRecycleChoices && t.pending.Some? && t.pending.value.selections == map[]
      && forall id :: id in t.pending.value.recyclers <==> IsAlive(s.players, id) && HandOf(s.players, id) != []
  {
    EligibleList(s.players);
  }
}
