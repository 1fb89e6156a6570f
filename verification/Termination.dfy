/** Every game ends: a measure that each state-changing step lowers, and the step bound it gives. */
module Termination {
  import opened Cards
  import opened Shuffling
  import opened Table
  import opened Rules
  import opened Invariant
  import opened Preserve
  import opened Prompts
  import opened Runs
  import opened Deck
  import opened Deal
  import opened Searching

  // -------------------------------------------------------------- the measure

  /** One card may still come back from the discard pile. */
  predicate Owed(pending: Option<Pending>) {
    pending.Some? && (pending.value.kind == DiscardRecovery
        || (pending.value.kind == CardCombo && pending.value.combo == FiveDifferent))
  }

  /** Cards that have reached the discard pile for good. */
  function Settled(s: State): int {
    |s.discard| - if Owed(s.pending) then 1 else 0
  }

  function Rank(phase: Phase): nat {
    match phase
    case CancelWindow => 3
    case PlayerTurn => 1
    case GameOver => 0
    case _ => 2
  }

  /** Explosives still to be placed and recycle choices still to be made. */
  function Waiting(s: State): int {
    |s.queue| +
    if s.pending.Some? && s.pending.value.kind == RecycleChoices
        then |s.pending.value.recyclers| - |s.pending.value.selections| else 0
  }

  /** The lexicographic order: fewer cards out of the discard pile, a later phase, less to wait for, a shorter pile. */
  predicate Nearer(s: State, t: State) {
    || Settled(t) > Settled(s)
    || (Settled(t) == Settled(s) &&
         (|| Rank(t.phase) < Rank(s.phase)
          || (Rank(t.phase) == Rank(s.phase) &&
               (Waiting(t) < Waiting(s) || (Waiting(t) == Waiting(s) && |t.draw| < |s.draw|)))))
  }

  // ----------------------------------------------------------- what resolving does

  /** Resolution either settles a card or hands the turn back with the piles as they were. */
  predicate Handed(s: State, t: State) {
    || (|t.discard| > |s.discard|
        && (t.pending == s.pending || (t.pending.Some? && t.pending.value.kind == ExplosivePlacement)))
    || (t.discard == s.discard && t.draw == s.draw && t.pending == s.pending && t.queue == s.queue
        && Rank(t.phase) <= 1)
  }

  lemma ProcessHands(s: State, id: PlayerId)
    ensures var t := Process(s, id);
      && t.draw == s.draw && t.pending == s.pending && t.phase == s.phase
      && (t == s || |t.discard| > |s.discard|)
  {
    var i := Seat(s.players, id);
    if i >= 0 { CountPositive(s.players[i].hand, Explosive); }
  }

  lemma {:induction false} ProcessAllHands(s: State, ids: seq<PlayerId>, seen: set<PlayerId>)
    ensures var t := ProcessAll(s, ids, seen);
      && t.draw == s.draw && t.pending == s.pending && t.phase == s.phase
      && (t == s || |t.discard| > |s.discard|)
    decreases |ids|
  {
    if ids != [] {
      if ids[0] in seen {
        ProcessAllHands(s, ids[1..], seen);
      } else {
        ProcessHands(s, ids[0]);
        ProcessAllHands(Process(s, ids[0]), ids[1..], seen + {ids[0]});
      }
    }
  }

  lemma FinishHands(s: State, original: PlayerId)
    requires s.phase == PlayerTurn
    ensures var t := FinishResolution(s, original);
      t.discard == s.discard && t.draw == s.draw && t.pending == s.pending && t.queue == s.queue && Rank(t.phase) <= 1
  {
  }

  lemma ResolveHands(s: State, original: PlayerId, ids: seq<PlayerId>)
    requires s.phase == PlayerTurn && s.queue == []
    ensures Handed(s, ResolveUnsafe(s, original, ids))
  {
    ProcessAllHands(s, ids, {});
    var t := ProcessAll(s, ids, {});
    if t.queue == [] { FinishHands(t, original); }
  }

  lemma CompleteHands(s: State)
    requires s.phase == PlayerTurn
    ensures var t := CompleteTurn(s);
      t.discard == s.discard && t.draw == s.draw && t.pending == s.pending && t.queue == s.queue && Rank(t.phase) == 1
  {
  }

  lemma ExplodeHands(s: State, i: nat, drawn: Card)
    requires i < |s.players| && s.phase == PlayerTurn
    ensures var e := Eliminate(s.(discard := s.discard + [drawn]), i);
      var t := if AliveCount(e.players) == 1 then Crown(e) else Advance(e);
      |t.discard| > |s.discard| && t.pending == s.pending
  {
  }

  lemma DrawnHands(s: State, i: nat, drawn: Card)
    requires i < |s.players| && s.phase == PlayerTurn && s.queue == []
    ensures Handed(s, ResolveDrawn(s, i, drawn))
  {
    var hand, s1 := s.players[i].hand, Tick(s, 1);
    if drawn.code != Explosive || (IndexOfCode(hand, ExplosiveHolder) >= 0 && Count(hand, Explosive) == 0) {
      CompleteHands(Give(s1, i, drawn));
    } else if IndexOfCode(hand, Shield) < 0 {
      ExplodeHands(s1, i, drawn);
    }
  }

  lemma StealHands(s: State, from: PlayerId, to: PlayerId, j: nat)
    requires s.phase == PlayerTurn && s.queue == []
    requires Seat(s.players, from) >= 0 && Seat(s.players, to) >= 0 && j < |HandOf(s.players, from)|
    ensures Handed(s, Steal(s, from, to, j))
  {
    ResolveHands(Move(s, Seat(s.players, from), j, Seat(s.players, to)), s.current, [from, to]);
  }

  /** From a state without a pending action, being handed on means not going back. */
  lemma HandedNearer(s: State, s1: State, t: State)
    requires s1.pending.None? && s1.queue == [] && Handed(s1, t) && |s1.discard| == Settled(s)
    requires Rank(s.phase) >= 2 || (Rank(s.phase) == 1 && s.pending.None? && s.queue == [] && |s1.draw| < |s.draw|)
    ensures Nearer(s, t)
  {
  }

  // ------------------------------------------------------------------ commands

  lemma DrawNearer(s: State, p: PlayerId)
    requires s.queue == [] && s.pending.None? && DrawGuard(s, p) == NoError
    ensures Nearer(s, DrawEffect(s, p))
  {
    var s1 := s.(draw := s.draw[1..]);
    DrawnHands(s1, Seat(s.players, p), s.draw[0]);
    HandedNearer(s, s1, DrawEffect(s, p));
  }

  lemma PlaceNearer(s: State, p: PlayerId, index: int)
    requires s.queue == [] && PlaceGuard(s, p, index) == NoError
    ensures Nearer(s, PlaceEffect(s, p, index))
  {
    var pending := s.pending.value;
    var s1 := Tick(s.(draw := InsertAt(s.draw, pending.cards[0], index), pending := None, phase := PlayerTurn), 1);
    if pending.reactive {
      ResolveHands(s1, pending.original, [pending.source]);
    } else {
      CompleteHands(s1);
    }
    HandedNearer(s, s1, PlaceEffect(s, p, index));
  }

  lemma OpenNearer(s: State, i: nat, hand: seq<Card>, pending: Pending)
    requires s.pending.None? && i < |s.players| && |pending.cards| > if Owed(Some(pending)) then 1 else 0
    ensures Nearer(s, OpenWindow(s, i, hand, pending))
  {
  }

  lemma PlayNearer(s: State, p: PlayerId, ids: seq<CardId>, target: PlayerId, now: int)
    requires s.pending.None? && PlayGuard(s, p, ids, target) == NoError
    ensures Nearer(s, PlayEffect(s, p, ids, target, now))
  {
    PlayAccepted(s, p, ids, target, now);
    var i := Seat(s.players, p);
    var hand := s.players[i].hand;
    var j := IndexOfId(hand, ids[0]);
    OpenNearer(s, i, RemoveAt(hand, j), PlayPending(s, p, hand[j], target, now));
  }

  lemma ComboNearer(s: State, p: PlayerId, ids: seq<CardId>, target: PlayerId, requested: Option<Code>, now: int)
    requires s.pending.None? && ComboGuard(s, p, ids, target, requested) == NoError
    ensures Nearer(s, ComboEffect(s, p, ids, target, requested, now))
  {
    ComboAccepted(s, p, ids, target, requested, now);
    var i := Seat(s.players, p);
    var hand := s.players[i].hand;
    OpenNearer(s, i, Without(hand, ids), ComboPending(s, p, hand, ids, target, requested, now));
  }

  lemma CancelNearer(s: State, p: PlayerId, card: CardId, pendingId: nat)
    requires CancelGuard(s, p, card, pendingId) == NoError
    ensures Nearer(s, CancelEffect(s, p, card, pendingId))
  {
    CancelAccepted(s, p, card, pendingId);
  }

  /** What closing a window leads to: a settled card, or a prompt or turn with the discard pile as it was. */
  ghost predicate Moved(s: State, t: State) {
    |t.discard| > |s.discard| || (t.discard == s.discard && Rank(t.phase) <= 2)
  }

  lemma DrawBottomHands(s: State, source: PlayerId)
    requires s.phase == PlayerTurn && s.pending.None? && s.queue == []
    ensures var t := DrawBottom(s, source).state; Moved(s, t) && !Owed(t.pending)
  {
    if s.draw != [] && AliveError(s.players, source) == NoError {
      var n := |s.draw| - 1;
      DrawnHands(s.(draw := s.draw[..n]), Seat(s.players, source), s.draw[n]);
    }
  }

  lemma TurnCardHands(s: State, code: Code, source: PlayerId, target: PlayerId, rnd: Random)
    requires code in {SkipTurn, SkipAllTurns, ForceExtraTurns, TargetExtraTurns} && s.phase == PlayerTurn
    requires s.pending.None?
    ensures var t := ResolveCard(s, code, source, target, rnd).state;
      t.discard == s.discard && t.phase == PlayerTurn && t.pending.None?
  {
  }

  lemma DeckCardHands(s: State, code: Code, source: PlayerId, target: PlayerId, rnd: Random)
    requires IsSupportedAction(code) && code != DrawFromBottom && s.phase == PlayerTurn && s.pending.None?
    requires code !in {SkipTurn, SkipAllTurns, ForceExtraTurns, TargetExtraTurns}
    ensures var t := ResolveCard(s, code, source, target, rnd).state;
      t.discard == s.discard && Rank(t.phase) <= 2 && !Owed(t.pending)
  {
  }

  lemma CardHands(s: State, code: Code, source: PlayerId, target: PlayerId, rnd: Random)
    requires IsSupportedAction(code) && s.phase == PlayerTurn && s.pending.None? && s.queue == []
    ensures var t := ResolveCard(s, code, source, target, rnd).state; Moved(s, t) && !Owed(t.pending)
  {
    if code == DrawFromBottom {
      DrawBottomHands(s, source);
    } else if code in {SkipTurn, SkipAllTurns, ForceExtraTurns, TargetExtraTurns} {
      TurnCardHands(s, code, source, target, rnd);
    } else {
      DeckCardHands(s, code, source, target, rnd);
    }
  }

  lemma ComboHands(s: State, p: Pending, rnd: Random)
    requires p.combo != NoCombo && s.phase == PlayerTurn && s.pending.None? && s.queue == []
    ensures var t := ResolveCombo(s, p, rnd).state;
      Moved(s, t) && (Owed(t.pending) ==> p.combo == FiveDifferent && t.discard == s.discard)
  {
    if p.combo in {Pair, Triple} && StealError(s.players, p.target, p.source) == NoError {
      var hand := HandOf(s.players, p.target);
      if p.combo == Pair && hand != [] {
        StealHands(s, p.target, p.source, Intn(rnd, 0, |hand|));
      }
      if p.combo == Triple && p.requested.Some? && IndexOfCode(hand, p.requested.value) >= 0 {
        StealHands(s, p.target, p.source, IndexOfCode(hand, p.requested.value));
      }
    }
  }

  lemma ResolveNearer(s: State, rnd: Random)
    requires s.queue == [] && ResolveGuard(s) == NoError
    ensures Nearer(s, ResolveEffect(s, rnd).state)
  {
    var p := s.pending.value;
    var s1 := Tick(s.(pending := None, phase := PlayerTurn), 1);
    if p.cancels % 2 == 0 {
      if p.kind == PlayedCard {
        CardHands(s1, p.cards[0].code, p.source, p.target, rnd);
      } else {
        ComboHands(s1, p, rnd);
      }
    }
  }

  lemma RequestNearer(s: State, p: PlayerId, card: CardId)
    requires s.queue == [] && RequestGuard(s, p, card) == NoError
    ensures Nearer(s, RequestEffect(s, p, card))
  {
    var s1 := Tick(s.(pending := None, phase := PlayerTurn), 1);
    StealHands(s1, p, s.pending.value.source, IndexOfId(HandOf(s.players, p), card));
    HandedNearer(s, s1, RequestEffect(s, p, card));
  }

  lemma MarkNearer(s: State, p: PlayerId, card: CardId)
    requires s.queue == [] && MarkGuard(s, p, card) == NoError
    ensures Nearer(s, MarkEffect(s, p, card))
  {
  }

  lemma ReorderNearer(s: State, p: PlayerId, ids: seq<CardId>)
    requires s.queue == [] && ReorderGuard(s, p, ids) == NoError
    ensures Nearer(s, ReorderEffect(s, p, ids))
  {
  }

  /** A choice makes the wait shorter by one. */
  lemma SubmitNearer(s: State, p: PlayerId, card: CardId)
    requires RecycleGuard(s, p, card) == NoError
    ensures Shorter(s, Submit(s, p, card))
  {
    var i, j := SubmitShape(s, p, card);
    ChosenShorter(s, i, j);
  }

  lemma ChosenShorter(s: State, i: nat, j: nat)
    requires i < |s.players| && j < |s.players[i].hand| && s.phase == WaitingRecycleChoices
    requires s.pending.Some? && s.pending.value.kind == RecycleChoices && s.players[i].id !in s.pending.value.selections
    ensures Shorter(s, Chosen(s, i, j))
  {
    OneMoreKey(s.pending.value.selections, s.players[i].id, s.players[i].hand[j]);
  }

  ghost predicate Shorter(s: State, t: State) {
    && t.discard == s.discard && t.phase == s.phase == WaitingRecycleChoices && t.queue == s.queue && t.pending.Some?
    && Settled(t) == Settled(s) == |s.discard| && Waiting(t) == Waiting(s) - 1
  }

  lemma OneMoreKey(selections: map<PlayerId, Card>, p: PlayerId, card: Card)
    requires p !in selections
    ensures |selections[p := card]| == |selections| + 1
  {
    assert selections[p := card] - {p} == selections;
  }

  lemma CloseNearer(s: State, s1: State, rnd: Random)
    requires s1.pending.Some? && s1.queue == [] && |s1.discard| == Settled(s) && Rank(s.phase) >= 2
    ensures Nearer(s, CloseRecycle(s1, rnd))
  {
    var q := s1.pending.value;
    var s2 := Pooled(s1, rnd);
    ResolveHands(s2, s1.current, q.recyclers);
    HandedNearer(s, s2, CloseRecycle(s1, rnd));
  }

  lemma RecycleNearer(s: State, p: PlayerId, card: CardId, rnd: Random)
    requires s.queue == [] && RecycleGuard(s, p, card) == NoError
    ensures Nearer(s, RecycleEffect(s, p, card, rnd))
  {
    var s1 := Submit(s, p, card);
    RecycleShape(s, p, card, rnd);
    SubmitNearer(s, p, card);
    if |s1.pending.value.selections| == |s1.pending.value.recyclers| {
      CloseNearer(s, s1, rnd);
    }
  }

  /** A recovery takes a card off the discard pile, which the measure had already given up. */
  lemma RecoverNearer(s: State, p: PlayerId, card: CardId)
    requires s.queue == [] && RecoverGuard(s, p, card) == NoError
    ensures Nearer(s, RecoverEffect(s, p, card))
  {
    var j := IndexOfId(s.discard, card);
    var s0 := Tick(s.(discard := RemoveAt(s.discard, j), pending := None, phase := PlayerTurn), 1);
    RecoverShape(s, p, card, j, s0);
    GivenNearer(s, s0, Seat(s.players, p), s.discard[j], s.players[Seat(s.players, p)].id);
  }

  lemma GivenNearer(s: State, s0: State, i: nat, card: Card, p: PlayerId)
    requires s0.pending.None? && s0.queue == [] && s0.phase == PlayerTurn && |s0.discard| == Settled(s)
    requires Rank(s.phase) >= 2
    requires i < |s0.players|
    ensures Nearer(s, ResolveUnsafe(Give(s0, i, card), s.current, [p]))
  {
    var s1 := Give(s0, i, card);
    ResolveHands(s1, s.current, [p]);
    HandedNearer(s, s1, ResolveUnsafe(s1, s.current, [p]));
  }

  /** What the measure needs to know of a sound state. */
  lemma Tidy(s: State)
    requires Inv(s)
    ensures s.queue == [] && (s.phase == PlayerTurn ==> s.pending.None?)
  {
  }

  lemma EffectNearer(s: State, c: Command, env: Env)
    requires s.queue == [] && (s.phase == PlayerTurn ==> s.pending.None?) && Guard(s, c) == NoError
    ensures Nearer(s, Effect(s, c, env).state)
  {
    match c
    case DrawCard(p) => DrawNearer(s, p);
    case PlaceExplosive(p, index) => PlaceNearer(s, p, index);
    case PlayCard(p, ids, target) => PlayNearer(s, p, ids, target, env.now);
    case PlayCombo(p, ids, target, requested) => ComboNearer(s, p, ids, target, requested, env.now);
    case PlayCancel(p, card, pendingId) => CancelNearer(s, p, card, pendingId);
    case ExpireCancelWindow(_) => ResolveNearer(s, env.rnd);
    case ResolveCancelWindow => ResolveNearer(s, env.rnd);
    case ChooseCardForRequest(p, card) => RequestNearer(s, p, card);
    case ChooseMarkedCard(p, card) => MarkNearer(s, p, card);
    case SubmitReorderedTopCards(p, ids) => ReorderNearer(s, p, ids);
    case ChooseCardForRecycle(p, card) => RecycleNearer(s, p, card, env.rnd);
    case ChooseCardFromDiscard(p, card) => RecoverNearer(s, p, card);
  }

  lemma NearerDiffers(s: State, t: State)
    requires Nearer(s, t)
    ensures t != s
  {
  }

  /** Every accepted command brings the end nearer; a rejected one changes nothing. */
  lemma StepNearer(s: State, c: Command, env: Env)
    requires Inv(s)
    ensures var t := Step(s, c, env).state;
      if Guard(s, c) == NoError then Nearer(s, t) && t != s else t == s
  {
    if Guard(s, c) == NoError {
      Tidy(s);
      EffectNearer(s, c, env);
      NearerDiffers(s, Effect(s, c, env).state);
    }
  }

  // ------------------------------------------------------------------ the bound

  /** The cards at the table, and the number of steps they and the players leave room for. */
  ghost function Size(s: State): nat {
    |AllCards(s)|
  }

  function Weigh(out: int, rank: int, waiting: int, draw: int, seats: nat, size: nat): int {
    ((out * 4 + rank) * (seats + 1) + waiting) * (size + 1) + draw
  }

  ghost function Weight(s: State): int {
    Weigh(Size(s) - Settled(s), Rank(s.phase), Waiting(s), |s.draw|, |s.players|, Size(s))
  }

  /** Comparing two-digit numbers in base `n` is comparing their first digits. */
  lemma Digits(a: int, b: int, a': int, b': int, n: int)
    requires 0 <= b < n && 0 <= b' < n && a' < a
    ensures a' * n + b' < a * n + b
  {
    assert a' * n <= (a - 1) * n == a * n - n;
  }

  lemma Lighter(out: int, rank: int, waiting: int, draw: int, out': int, rank': int, waiting': int, draw': int,
        seats: nat, size: nat)
    requires 0 <= rank <= 3 && 0 <= rank' <= 3 && 0 <= waiting <= seats && 0 <= waiting' <= seats && 0 <= draw <= size
    requires 0 <= draw' <= size
    requires out' < out || (out' == out
        && (rank' < rank || (rank' == rank && (waiting' < waiting || (waiting' == waiting && draw' < draw)))))
    ensures Weigh(out', rank', waiting', draw', seats, size) < Weigh(out, rank, waiting, draw, seats, size)
  {
    var high, high' := out * 4 + rank, out' * 4 + rank';
    var mid, mid' := high * (seats + 1) + waiting, high' * (seats + 1) + waiting';
    if high' < high {
      Digits(high, waiting, high', waiting', seats + 1);
      Digits(mid, draw, mid', draw', size + 1);
    } else if waiting' < waiting {
      Digits(mid, draw, mid', draw', size + 1);
    }
  }

  lemma PilesWithin(s: State)
    ensures |s.draw| + |s.discard| <= Size(s)
  {
    assert |AllCards(s)| == |HandCards(s.players)| + |multiset(s.draw)| + |multiset(s.discard)|
        + |LimboCards(s.pending)| + |QueueCards(s.queue)|;
  }

  ghost predicate Bounded(s: State) {
    0 <= Settled(s) <= Size(s) && 0 <= Waiting(s) <= |s.players| && |s.draw| <= Size(s)
  }

  lemma ChoicesInRange(s: State, q: Pending)
    requires s.pending == Some(q) && q.kind == RecycleChoices && RecycleOk(s, q) && s.queue == []
    ensures 0 <= Waiting(s) <= |s.players|
  {
    ChoosersFit(s.players, q.recyclers);
  }

  lemma SettledInRange(s: State)
    requires PendingOk(s) || s.pending.None?
    ensures 0 <= Settled(s) <= |s.discard|
  {
  }

  lemma WaitingInRange(s: State)
    requires s.queue == [] && (PendingOk(s) || s.pending.None?)
    ensures 0 <= Waiting(s) <= |s.players|
  {
    if s.phase == WaitingRecycleChoices && s.pending.Some? {
      ChoicesInRange(s, s.pending.value);
    }
  }

  lemma InRange(s: State)
    requires Inv(s)
    ensures Bounded(s)
  {
    PilesWithin(s);
    SettledInRange(s);
    WaitingInRange(s);
  }

  /** No more choosers than seats. */
  lemma ChoosersFit(players: seq<Player>, ids: seq<PlayerId>)
    requires Distinct(ids) && ChoosersAlive(players, ids)
    ensures |ids| <= |players|
  {
    var seated := IdsAtTable(players);
    ElementsSize(ids);
    forall id | id in Elements(ids) ensures id in Elements(seated) {
      assert IsAlive(players, id);
      assert seated[Seat(players, id)] == id;
    }
    SubsetSize(Elements(ids), Elements(seated));
    ElementsAtMost(seated);
  }

  function IdsAtTable(players: seq<Player>): (ids: seq<PlayerId>)
    ensures |ids| == |players| && forall k :: 0 <= k < |players| ==> ids[k] == players[k].id
  {
    seq(|players|, k requires 0 <= k < |players| => players[k].id)
  }

  lemma NearerIsLighter(s: State, t: State)
    requires Bounded(s) && Bounded(t) && Nearer(s, t) && Size(t) == Size(s) && |t.players| == |s.players|
    ensures Weight(t) < Weight(s)
  {
    Lighter(Size(s) - Settled(s), Rank(s.phase), Waiting(s), |s.draw|,
            Size(t) - Settled(t), Rank(t.phase), Waiting(t), |t.draw|, |s.players|, Size(s));
  }

  lemma StepLighter(s: State, t: State)
    requires Inv(s) && Inv(t) && Follows(s, t) && (t == s || Nearer(s, t))
    ensures Weight(t) <= Weight(s) && (t != s ==> Weight(t) < Weight(s))
  {
    if t != s {
      InRange(s);
      InRange(t);
      NearerIsLighter(s, t);
    }
  }

  lemma WeightDrops(s: State, c: Command, env: Env)
    requires Inv(s)
    ensures var t := Step(s, c, env).state; Weight(t) <= Weight(s) && (t != s ==> Weight(t) < Weight(s))
  {
    StepNearer(s, c, env);
    StepKeeps(s, c, env);
    StepLighter(s, Step(s, c, env).state);
  }

  /** How many inputs of the run changed the state. */
  function Changes(s: State, inputs: seq<Input>): nat {
    if inputs == [] then 0
    else
      var front, last := inputs[..|inputs| - 1], inputs[|inputs| - 1];
      var t := Run(s, front);
      Changes(s, front) + if Step(t, last.command, last.env).state != t then 1 else 0
  }

  lemma {:induction false} ChangesPaid(s: State, inputs: seq<Input>)
    requires Inv(s)
    ensures Changes(s, inputs) + Weight(Run(s, inputs)) <= Weight(s)
  {
    if inputs != [] {
      var front, last := inputs[..|inputs| - 1], inputs[|inputs| - 1];
      ChangesPaid(s, front);
      RunKeeps(s, front);
      WeightDrops(Run(s, front), last.command, last.env);
    }
  }

  /** From any sound state, no run changes the state more often than its weight allows. */
  lemma RunsAreShort(s: State, inputs: seq<Input>)
    requires Inv(s)
    ensures Changes(s, inputs) <= Weight(s)
  {
    ChangesPaid(s, inputs);
    RunKeeps(s, inputs);
    InRange(Run(s, inputs));
    NeverNegative(Run(s, inputs));
  }

  lemma WeightPositive(out: int, rank: int, waiting: int, draw: int, seats: nat, size: nat)
    requires out >= 0 && rank >= 0 && waiting >= 0 && draw >= 0
    ensures Weigh(out, rank, waiting, draw, seats, size) >= 0
  {
    var mid := (out * 4 + rank) * (seats + 1) + waiting;
    assert mid >= 0;
  }

  lemma NeverNegative(s: State)
    requires Bounded(s)
    ensures Weight(s) >= 0
  {
    WeightPositive(Size(s) - Settled(s), Rank(s.phase), Waiting(s), |s.draw|, |s.players|, Size(s));
  }

  /** The weight of a fresh table, as a formula in the players and the cards. */
  function StepBound(n: nat, d: nat): nat {
    (4 * d + 1) * (n + 1) * (d + 1) + d
  }

  lemma FreshWeigh(draw: nat, n: nat, d: nat)
    requires draw <= d
    ensures Weigh(d, 1, 0, draw, n, d) <= StepBound(n, d)
  {
    assert (4 * d + 1) * (n + 1) + 0 == (4 * d + 1) * (n + 1);
  }

  lemma FreshWeight(s: State)
    requires s.discard == [] && s.pending.None? && s.queue == [] && s.phase == PlayerTurn
    ensures Weight(s) <= StepBound(|s.players|, Size(s))
  {
    PilesWithin(s);
    FreshWeigh(|s.draw|, |s.players|, Size(s));
  }

  /**
   Every game ends: with `n` players and a deck of `d` cards, whatever the inputs are, at most
   `(4 * d + 1) * (n + 1) * (d + 1) + d` of them change the state.
   */
  lemma GamesEnd(o: Opening, inputs: seq<Input>) returns (deck: seq<Card>)
    requires ValidOpening(o)
    ensures forall code :: Count(deck, code) == CountOf(DeckCardCounts(|o.ids|), code)
    ensures AllCards(Opened(o)) == multiset(deck)
    ensures Changes(Opened(o), inputs) <= StepBound(|o.ids|, |deck|)
  {
    var s := Opened(o);
    deck := StartDeals(o.ids, o.last, o.rnd1, o.rnd2, o.nextPending);
    OpenedSound(o);
    RunsAreShort(s, inputs);
    FreshWeight(s);
    SizeOf(s, deck);
  }

  lemma SizeOf(s: State, deck: seq<Card>)
    requires AllCards(s) == multiset(deck)
    ensures Size(s) == |deck|
  {
  }
}
