/** A mark lasts exactly as long as its owner holds the marked card. */
module Marking {
  import opened Cards
  import opened Shuffling
  import opened Table
  import opened Rules
  import opened Invariant
  import opened Preserve
  import opened Prompts
  import opened Runs
  import opened Parity
  import opened Outcomes
  import opened Effects
  import opened Windows

  /** No mark is new or altered, and those that are gone show a card their owner no longer holds. */
  ghost predicate Lasting(s: State, t: State) {
    && (forall id :: id in t.marks ==> id in s.marks && t.marks[id] == s.marks[id])
    && (forall id :: id in s.marks && id !in t.marks ==> s.marks[id].revealed !in HandOf(t.players, s.marks[id].owner))
  }

  ghost predicate OwnIds(marks: map<CardId, Mark>) {
    forall id :: id in marks ==> marks[id].revealed.id == id
  }

  /** The same players with the same cards or fewer. */
  ghost predicate Shrinks(a: seq<Player>, b: seq<Player>) {
    && |b| == |a|
    && forall i :: 0 <= i < |a| ==> b[i].id == a[i].id && forall c :: c in b[i].hand ==> c in a[i].hand
  }

  lemma ShrunkHand(a: seq<Player>, b: seq<Player>, id: PlayerId, c: Card)
    requires Shrinks(a, b) && c in HandOf(b, id)
    ensures c in HandOf(a, id)
  {
    SeatSame(a, b, id);
  }

  lemma LastingOn(s: State, m: State, t: State)
    requires Lasting(s, m) && Lasting(m, t) && Shrinks(m.players, t.players)
    ensures Lasting(s, t)
  {
    forall id | id in s.marks && id !in t.marks ensures s.marks[id].revealed !in HandOf(t.players, s.marks[id].owner) {
      if id !in m.marks && s.marks[id].revealed in HandOf(t.players, s.marks[id].owner) {
        ShrunkHand(m.players, t.players, s.marks[id].owner, s.marks[id].revealed);
      }
    }
  }

  lemma NotById(hand: seq<Card>, c: Card)
    requires IndexOfId(hand, c.id) < 0
    ensures c !in hand
  {
  }

  /** Replacing a hand drops the marks on cards that are not in the new one. */
  lemma HandReplaced(s: State, t: State, i: nat, hand: seq<Card>)
    requires DistinctPlayers(s.players) && OwnIds(s.marks) && i < |s.players|
    requires |t.players| == |s.players| && t.players[i].hand == hand
    requires forall k :: 0 <= k < |s.players| ==> t.players[k].id == s.players[k].id
    requires t.marks == Unmarked(s.marks, s.players[i].id, hand)
    ensures Lasting(s, t) && OwnIds(t.marks)
  {
    SeatOf(s.players, i);
    SeatSame(s.players, t.players, s.players[i].id);
    forall id | id in s.marks && id !in t.marks ensures s.marks[id].revealed !in HandOf(t.players, s.marks[id].owner) {
      NotById(hand, s.marks[id].revealed);
    }
  }

  lemma SameMarks(s: State, t: State)
    requires t.marks == s.marks
    ensures Lasting(s, t)
  {
  }

  // ---------------------------------------------------- resolving explosives

  lemma ProcessLasts(s: State, id: PlayerId)
    requires DistinctPlayers(s.players) && OwnIds(s.marks)
    ensures var t := Process(s, id);
      Lasting(s, t) && OwnIds(t.marks) && Shrinks(s.players, t.players) && DistinctPlayers(t.players)
  {
    var t, i := Process(s, id), Seat(s.players, id);
    if t != s {
      if IndexOfCode(s.players[i].hand, Shield) >= 0 { ShieldLasts(s, i); } else { DeathLasts(s, i); }
      StillDistinct(s.players, t.players);
    }
  }

  lemma ShieldLasts(s: State, i: nat)
    requires DistinctPlayers(s.players) && OwnIds(s.marks) && i < |s.players|
    requires IndexOfCode(s.players[i].hand, Shield) >= 0 && Unsafe(s.players[i].hand) > 0
    ensures var t := SpendShield(s, i); Lasting(s, t) && OwnIds(t.marks) && Shrinks(s.players, t.players)
  {
    SpentMembers(s.players[i].hand);
    HandReplaced(s, SpendShield(s, i), i, Spent(s.players[i].hand));
  }

  lemma DeathLasts(s: State, i: nat)
    requires DistinctPlayers(s.players) && OwnIds(s.marks) && i < |s.players|
    ensures var t := Eliminate(s, i); Lasting(s, t) && OwnIds(t.marks) && Shrinks(s.players, t.players)
  {
    HandReplaced(s, Eliminate(s, i), i, []);
  }

  lemma SpentMembers(hand: seq<Card>)
    requires IndexOfCode(hand, Shield) >= 0 && Unsafe(hand) > 0
    ensures forall c :: c in Spent(hand) ==> c in hand
  {
    CountPositive(hand, Explosive);
    SpentParts(hand, IndexOfCode(hand, Shield), IndexOfCode(hand, Explosive));
  }

  lemma ShrinksOn(a: seq<Player>, b: seq<Player>, c: seq<Player>)
    requires Shrinks(a, b) && Shrinks(b, c)
    ensures Shrinks(a, c)
  {
  }

  lemma {:induction false} ProcessAllLasts(s: State, ids: seq<PlayerId>, seen: set<PlayerId>)
    requires DistinctPlayers(s.players) && OwnIds(s.marks)
    ensures var t := ProcessAll(s, ids, seen); Lasting(s, t) && Shrinks(s.players, t.players)
    decreases |ids|
  {
    if ids != [] {
      if ids[0] in seen {
        ProcessAllLasts(s, ids[1..], seen);
      } else {
        var m := Process(s, ids[0]);
        var t := ProcessAll(m, ids[1..], seen + {ids[0]});
        ProcessLasts(s, ids[0]);
        ProcessAllLasts(m, ids[1..], seen + {ids[0]});
        LastingOn(s, m, t);
        ShrinksOn(s.players, m.players, t.players);
      }
    }
  }

  lemma ResolveLasts(s: State, original: PlayerId, ids: seq<PlayerId>)
    requires DistinctPlayers(s.players) && OwnIds(s.marks)
    ensures var t := ResolveUnsafe(s, original, ids); Lasting(s, t) && Shrinks(s.players, t.players)
  {
    var m := ProcessAll(s, ids, {});
    ProcessAllLasts(s, ids, {});
    ResolveTail(s, original, ids);
  }

  lemma ResolveTail(s: State, original: PlayerId, ids: seq<PlayerId>)
    ensures var m, t := ProcessAll(s, ids, {}), ResolveUnsafe(s, original, ids);
      t.players == m.players && t.marks == m.marks
  {
  }

  lemma StealLasts(s: State, from: PlayerId, to: PlayerId, j: nat)
    requires DistinctPlayers(s.players) && OwnIds(s.marks) && from != to
    requires Seat(s.players, from) >= 0 && Seat(s.players, to) >= 0 && j < |HandOf(s.players, from)|
    ensures Lasting(s, Steal(s, from, to, j))
  {
    var i, k := Seat(s.players, from), Seat(s.players, to);
    var m := Move(s, i, j, k);
    HandReplaced(s, m, i, RemoveAt(s.players[i].hand, j));
    StillDistinct(s.players, m.players);
    ResolveLasts(m, s.current, [from, to]);
    LastingOn(s, m, Steal(s, from, to, j));
  }

  // ------------------------------------------------------------- drawing cards

  lemma DrawnLasts(s: State, i: nat, card: Card)
    requires DistinctPlayers(s.players) && OwnIds(s.marks) && i < |s.players|
    ensures Lasting(s, ResolveDrawn(s, i, card))
  {
    var t, hand := ResolveDrawn(s, i, card), s.players[i].hand;
    if !Kept(hand, card) {
      if IndexOfCode(hand, Shield) >= 0 {
        HandReplaced(s, t, i, RemoveAt(hand, IndexOfCode(hand, Shield)));
      } else {
        DeadDraw(s, i, card);
        HandReplaced(s, t, i, []);
      }
    }
  }

  lemma DeadDraw(s: State, i: nat, card: Card)
    requires i < |s.players| && !Kept(s.players[i].hand, card) && IndexOfCode(s.players[i].hand, Shield) < 0
    ensures var t := ResolveDrawn(s, i, card);
      && t.players == s.players[i := s.players[i].(hand := [], alive := false)]
      && t.marks == Unmarked(s.marks, s.players[i].id, [])
  {
  }

  // ---------------------------------------------------------- command by command

  lemma MarkIds(s: State)
    requires Inv(s)
    ensures DistinctPlayers(s.players) && OwnIds(s.marks)
  {
    forall id | id in s.marks ensures s.marks[id].revealed.id == id {
      assert MarkOk(s.players, id, s.marks[id]);
    }
  }

  lemma WindowLasts(s: State, i: nat, hand: seq<Card>, p: Pending)
    requires DistinctPlayers(s.players) && OwnIds(s.marks) && i < |s.players|
    ensures Lasting(s, OpenWindow(s, i, hand, p))
  {
    HandReplaced(s, OpenWindow(s, i, hand, p), i, hand);
  }

  lemma TurnLasts(s: State, c: Command, env: Env)
    requires Inv(s) && Guard(s, c) == NoError && (c.DrawCard? || c.PlaceExplosive? || c.PlayCard? || c.PlayCombo?)
    ensures Lasting(s, Step(s, c, env).state)
  {
    MarkIds(s);
    if c.DrawCard? {
      DrawIs(s, c, env);
      DrawnLasts(s.(draw := s.draw[1..]), Seat(s.players, c.player), s.draw[0]);
    } else if c.PlaceExplosive? {
      PlaceIs(s, c, env);
      PlaceLasts(s, c.player, c.index);
    } else if c.PlayCard? {
      PlayIs(s, c, env);
      PlayLasts(s, c.player, c.cards, c.target, env.now);
    } else {
      ComboIs(s, c, env);
      ComboLasts(s, c.player, c.cards, c.target, c.requested, env.now);
    }
  }

  lemma PlaceLasts(s: State, p: PlayerId, index: int)
    requires DistinctPlayers(s.players) && OwnIds(s.marks) && PlaceGuard(s, p, index) == NoError
    ensures Lasting(s, PlaceEffect(s, p, index))
  {
    var q := s.pending.value;
    var s1 := Tick(s.(draw := InsertAt(s.draw, q.cards[0], index), pending := None, phase := PlayerTurn), 1);
    if q.reactive { ResolveLasts(s1, q.original, [q.source]); }
  }

  lemma PlayLasts(s: State, p: PlayerId, ids: seq<CardId>, target: PlayerId, now: int)
    requires DistinctPlayers(s.players) && OwnIds(s.marks) && PlayGuard(s, p, ids, target) == NoError
    ensures Lasting(s, PlayEffect(s, p, ids, target, now))
  {
    PlayAccepted(s, p, ids, target, now);
    var i := Seat(s.players, p);
    var hand := s.players[i].hand;
    var j := IndexOfId(hand, ids[0]);
    WindowLasts(s, i, RemoveAt(hand, j), PlayPending(s, p, hand[j], target, now));
  }

  lemma ComboLasts(s: State, p: PlayerId, ids: seq<CardId>, target: PlayerId, requested: Option<Code>, now: int)
    requires DistinctPlayers(s.players) && OwnIds(s.marks) && ComboGuard(s, p, ids, target, requested) == NoError
    ensures Lasting(s, ComboEffect(s, p, ids, target, requested, now))
  {
    ComboAccepted(s, p, ids, target, requested, now);
    var i := Seat(s.players, p);
    var hand := s.players[i].hand;
    WindowLasts(s, i, Without(hand, ids), ComboPending(s, p, hand, ids, target, requested, now));
  }

  lemma CancelLasts(s: State, c: Command, env: Env)
    requires Inv(s) && Guard(s, c) == NoError && c.PlayCancel?
    ensures Lasting(s, Step(s, c, env).state)
  {
    MarkIds(s);
    CancelGuardIs(s, c);
    CancelIsStep(s, c, env);
    var i, j := CancelShape(s, c.player, c.card, c.pendingId);
    HandReplaced(s, CancelEffect(s, c.player, c.card, c.pendingId), i, RemoveAt(s.players[i].hand, j));
  }

  lemma BottomLasts(s: State, target: PlayerId, rnd: Random)
    requires DistinctPlayers(s.players) && OwnIds(s.marks)
    requires s.draw != [] && AliveError(s.players, s.current) == NoError
    ensures Lasting(s, ResolveCard(s, DrawFromBottom, s.current, target, rnd).state)
  {
    var n := |s.draw| - 1;
    BottomCardShape(s, s.current, target, rnd);
    BottomShape(s, s.current, n);
    DrawnLasts(s.(draw := s.draw[..n]), Seat(s.players, s.current), s.draw[n]);
  }

  lemma CardLasts(s: State, code: Code, target: PlayerId, rnd: Random)
    requires Running(s) && OwnIds(s.marks) && IsSupportedAction(code)
    requires code in {TargetExtraTurns, RequestCard, RevealHeldCard} ==> Other(s, target)
    requires code == DrawFromBottom ==> s.draw != []
    ensures Lasting(s, ResolveCard(s, code, s.current, target, rnd).state)
  {
    if code == DrawFromBottom {
      BottomLasts(s, target, rnd);
    } else {
      CardOf(s, code, target, rnd);
    }
  }

  lemma ComboResultLasts(s: State, p: Pending, rnd: Random)
    requires DistinctPlayers(s.players) && OwnIds(s.marks) && p.combo != NoCombo && IsAlive(s.players, p.source)
    requires p.combo in {Pair, Triple} ==> IsAlive(s.players, p.target) && p.target != p.source
    requires p.combo == Triple ==> p.requested.Some?
    ensures Lasting(s, ResolveCombo(s, p, rnd).state)
  {
    if p.combo == Pair && HandOf(s.players, p.target) != [] {
      PairShape(s, p, rnd);
      StealLasts(s, p.target, p.source, Intn(rnd, 0, |HandOf(s.players, p.target)|));
    } else if p.combo == Triple {
      TripleShape(s, p, rnd);
      var j := IndexOfCode(HandOf(s.players, p.target), p.requested.value);
      if j >= 0 { StealLasts(s, p.target, p.source, j); }
    }
  }

  lemma ClosingLasts(s: State, c: Command, env: Env)
    requires Inv(s) && Guard(s, c) == NoError && ClosesWindow(c)
    ensures Lasting(s, Step(s, c, env).state)
  {
    MarkIds(s);
    ClosingResolves(s, c, env);
    WindowFacts(s);
    WindowCloses(s);
    var b, p := Closed(s), s.pending.value;
    assert b == Tick(s.(pending := None, phase := PlayerTurn), 1);
    RunningIf(b);
    ClosedLasts(s, env.rnd);
  }

  lemma ClosedLasts(s: State, rnd: Random)
    requires ResolveGuard(s) == NoError && WindowOk(s, s.pending.value) && OwnIds(s.marks) && Running(Closed(s))
    ensures Lasting(s, ResolveEffect(s, rnd).state)
  {
    var b, p := Closed(s), s.pending.value;
    if p.cancels % 2 == 1 {
      ResolvesDropped(s, rnd);
    } else if p.kind == PlayedCard {
      ResolvesCard(s, rnd);
      OtherClosed(s, p.target);
      CardLasts(b, p.cards[0].code, p.target, rnd);
    } else {
      ResolvesCombo(s, rnd);
      OtherClosed(s, p.target);
      ComboResultLasts(b, p, rnd);
    }
  }

  lemma PromptLasts(s: State, c: Command, env: Env)
    requires Inv(s) && Guard(s, c) == NoError
    requires c.ChooseCardForRequest? || c.SubmitReorderedTopCards? || c.ChooseCardForRecycle?
      || c.ChooseCardFromDiscard?
    ensures Lasting(s, Step(s, c, env).state)
  {
    MarkIds(s);
    PromptIs(s, c, env);
    PromptEffect(s, c, env);
    if c.ChooseCardForRequest? {
      RequestFacts(s, c.player, c.card);
      RequestLasts(s, c.player, c.card);
    } else if c.ChooseCardForRecycle? {
      RecycleLasts(s, c.player, c.card, env.rnd);
    } else if c.ChooseCardFromDiscard? {
      RecoverLasts(s, c.player, c.card);
    }
  }

  lemma RequestLasts(s: State, p: PlayerId, card: CardId)
    requires DistinctPlayers(s.players) && OwnIds(s.marks) && RequestGuard(s, p, card) == NoError
    requires s.pending.value.source != p
    ensures Lasting(s, RequestEffect(s, p, card))
  {
    var s1 := Tick(s.(pending := None, phase := PlayerTurn), 1);
    StealLasts(s1, p, s.pending.value.source, IndexOfId(HandOf(s.players, p), card));
  }

  lemma RecycleLasts(s: State, p: PlayerId, card: CardId, rnd: Random)
    requires DistinctPlayers(s.players) && OwnIds(s.marks) && RecycleGuard(s, p, card) == NoError
    ensures Lasting(s, RecycleEffect(s, p, card, rnd))
  {
    var s1 := Submit(s, p, card);
    var i, j := SubmitShape(s, p, card);
    HandReplaced(s, s1, i, RemoveAt(s.players[i].hand, j));
    StillDistinct(s.players, s1.players);
    RecycleShape(s, p, card, rnd);
    if |s1.pending.value.selections| == |s1.pending.value.recyclers| {
      ResolveLasts(Pooled(s1, rnd), s1.current, s1.pending.value.recyclers);
      LastingOn(s, s1, CloseRecycle(s1, rnd));
    }
  }

  lemma RecoverLasts(s: State, p: PlayerId, card: CardId)
    requires DistinctPlayers(s.players) && OwnIds(s.marks) && RecoverGuard(s, p, card) == NoError
    ensures Lasting(s, RecoverEffect(s, p, card))
  {
    var j, i := IndexOfId(s.discard, card), Seat(s.players, p);
    var s0 := Tick(s.(discard := RemoveAt(s.discard, j), pending := None, phase := PlayerTurn), 1);
    RecoverShape(s, p, card, j, s0);
    var g := Give(s0, i, s.discard[j]);
    StillDistinct(s.players, g.players);
    ResolveLasts(g, s.current, [p]);
    LastingOn(s, g, RecoverEffect(s, p, card));
  }

  // ----------------------------------------------------------------- the theorem

  /**
   Over any step but marking itself, a mark stays, unaltered, if its owner still holds the card and goes if
   not, and no mark appears.
   */
  lemma MarksFollowCards(s: State, c: Command, env: Env, id: CardId)
    requires Reachable(s) && !(c.ChooseMarkedCard? && Guard(s, c) == NoError)
    ensures var t := Step(s, c, env).state;
      && (id in t.marks <==> id in s.marks && s.marks[id].revealed in HandOf(t.players, s.marks[id].owner))
      && (id in t.marks ==> t.marks[id] == s.marks[id])
  {
    ReachableInv(s);
    StepKeeps(s, c, env);
    var t := Step(s, c, env).state;
    StepLasts(s, c, env);
    if id in t.marks { assert MarkOk(t.players, id, t.marks[id]); }
  }

  lemma StepLasts(s: State, c: Command, env: Env)
    requires Inv(s) && !(c.ChooseMarkedCard? && Guard(s, c) == NoError)
    ensures Lasting(s, Step(s, c, env).state)
  {
    if Guard(s, c) == NoError {
      if c.DrawCard? || c.PlaceExplosive? || c.PlayCard? || c.PlayCombo? {
        TurnLasts(s, c, env);
      } else if c.PlayCancel? {
        CancelLasts(s, c, env);
      } else if ClosesWindow(c) {
        ClosingLasts(s, c, env);
      } else {
        PromptLasts(s, c, env);
      }
    }
  }
}
