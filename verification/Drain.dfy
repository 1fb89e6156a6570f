/**
 The serial placement of unguarded explosives, from any table whatever: any players, any hands, any
 list of players to resolve and any placement positions.
 */
module Drain {
  import opened Cards
  import opened Table
  import opened Rules
  import opened Invariant
  import opened Turns
  import opened Preserve

  /** Somebody must place an explosive that came out of a hand. */
  predicate Draining(s: State) {
    && s.phase == WaitingExplosivePlacement && s.pending.Some? && s.pending.value.kind == ExplosivePlacement
    && |s.pending.value.cards| == 1 && s.pending.value.reactive
  }

  /** While draining, the only command the engine accepts is the placement. */
  lemma OnlyPlacementsWhileDraining(s: State, c: Command)
    requires Draining(s)
    ensures Guard(s, c) == NoError
        <==> c.PlaceExplosive? && c.player == s.pending.value.source && 0 <= c.index <= |s.draw|
  {
  }

  // ------------------------------------------------------------ termination

  function LooseTotal(players: seq<Player>): nat {
    if players == [] then 0 else LooseTotal(players[..|players| - 1]) + Unsafe(players[|players| - 1].hand)
  }

  lemma {:induction false} LooseTotalUpdate(players: seq<Player>, i: nat, p: Player)
    requires i < |players|
    ensures LooseTotal(players[i := p]) + Unsafe(players[i].hand) == LooseTotal(players) + Unsafe(p.hand)
  {
    var n := |players| - 1;
    if i < n {
      assert players[i := p][..n] == players[..n][i := p];
      LooseTotalUpdate(players[..n], i, p);
    } else {
      assert players[i := p][..n] == players[..n];
    }
  }

  /** Explosives queued, still loose in a hand, or waiting for their placement. */
  function Remaining(s: State): nat {
    |s.queue| + LooseTotal(s.players) + if Draining(s) then 1 else 0
  }

  lemma ProcessRemaining(s: State, id: PlayerId)
    ensures var t := Process(s, id); |t.queue| + LooseTotal(t.players) <= |s.queue| + LooseTotal(s.players)
  {
    var i := Seat(s.players, id);
    if Process(s, id) != s {
      var hand := s.players[i].hand;
      if IndexOfCode(hand, Shield) >= 0 {
        SpendHand(hand, IndexOfCode(hand, Shield));
        LooseTotalUpdate(s.players, i, s.players[i].(hand := Spent(hand)));
      } else {
        LooseTotalUpdate(s.players, i, s.players[i].(hand := [], alive := false));
      }
    }
  }

  /** One placement: the explosive goes into the pile and its owner is looked at again. */
  function Placed(s: State, index: nat): State
    requires Draining(s) && index <= |s.draw|
  {
    PlaceEffect(s, s.pending.value.source, index)
  }

  /** The table between a placement and the next prompt. */
  function Rechecked(s: State, index: nat): State
    requires Draining(s) && index <= |s.draw|
  {
    var p := s.pending.value;
    Process(Tick(s.(draw := InsertAt(s.draw, p.cards[0], index), pending := None, phase := PlayerTurn), 1), p.source)
  }

  /** The next placement, or the end of the resolution. */
  function HandedOn(s: State, original: PlayerId): State {
    if s.queue != [] then StartPlacement(s, original) else FinishResolution(s, original)
  }

  lemma PlacedShape(s: State, index: nat)
    requires Draining(s) && index <= |s.draw|
    ensures Placed(s, index) == HandedOn(Rechecked(s, index), s.pending.value.original)
  {
    var p := s.pending.value;
    var s1 := Tick(s.(draw := InsertAt(s.draw, p.cards[0], index), pending := None, phase := PlayerTurn), 1);
    assert ProcessAll(s1, [p.source], {}) == ProcessAll(Process(s1, p.source), [p.source][1..], {p.source});
  }

  lemma RecheckedKeeps(s: State, index: nat)
    requires Draining(s) && index <= |s.draw|
    ensures Rechecked(s, index).pending.None? && Rechecked(s, index).phase == PlayerTurn
    ensures |Rechecked(s, index).queue| + LooseTotal(Rechecked(s, index).players) <= |s.queue| + LooseTotal(s.players)
  {
    var p := s.pending.value;
    ProcessRemaining(Tick(s.(draw := InsertAt(s.draw, p.cards[0], index), pending := None, phase := PlayerTurn), 1),
                     p.source);
  }

  lemma HandOnRemaining(s: State, original: PlayerId)
    requires s.pending.None?
    ensures Remaining(HandedOn(s, original)) <= |s.queue| + LooseTotal(s.players)
  {
  }

  lemma PlacedRemaining(s: State, index: nat)
    requires Draining(s) && index <= |s.draw|
    ensures Remaining(Placed(s, index)) < Remaining(s)
  {
    PlacedShape(s, index);
    RecheckedKeeps(s, index);
    HandOnRemaining(Rechecked(s, index), s.pending.value.original);
  }

  /** The position chosen for the `k`-th placement; any position of the pile can be chosen. */
  function Chosen(s: State, at: nat -> nat, k: nat): (index: nat)
    ensures index <= |s.draw|
  {
    if at(k) <= |s.draw| then at(k) else 0
  }

  /** Place one explosive after the other until nobody has to place any more. */
  function Drained(s: State, at: nat -> nat, k: nat): State
    decreases Remaining(s)
  {
    if !Draining(s) then s
    else
      PlacedRemaining(s, Chosen(s, at, k));
      Drained(Placed(s, Chosen(s, at, k)), at, k + 1)
  }

  /** Placing is the placement command of the player whose explosive it is. */
  lemma PlacingIsAStep(s: State, index: nat, env: Env)
    requires Draining(s) && index <= |s.draw|
    ensures Step(s, PlaceExplosive(s.pending.value.source, index), env) == Ok(Placed(s, index))
  {
  }

  // ------------------------------------------------------------ one player's fate

  /** Shields in the hand over explosives that need one. */
  function Margin(hand: seq<Card>): int {
    Count(hand, Shield) - Unsafe(hand)
  }

  ghost predicate Queued(queue: seq<Placement>, id: PlayerId) {
    exists k :: 0 <= k < |queue| && queue[k].player == id
  }

  /**
   What has become of a player who started as `was`: unlisted players are untouched; a listed one
   keeps the margin while alive, dies only with too few shields, and may be loose only while expected.
   */
  ghost predicate Fate(was: Player, now: Player, listed: bool, expected: bool) {
    && now.id == was.id
    && if !listed || !was.alive then now == was
       else if now.alive then Margin(now.hand) == Margin(was.hand) && (Unsafe(now.hand) == 0 || expected)
       else now.hand == [] && Margin(was.hand) < 0
  }

  lemma ProcessOthers(s: State, id: PlayerId)
    requires DistinctPlayers(s.players)
    ensures var t := Process(s, id);
      && |t.players| == |s.players| && DistinctPlayers(t.players) && s.queue <= t.queue
      && forall i :: 0 <= i < |s.players| && s.players[i].id != id ==> t.players[i] == s.players[i]
  {
    var i := Seat(s.players, id);
    var t := Process(s, id);
    if t != s {
      forall j: int, k: int {:trigger Differ(t.players, j, k)} ensures Differ(t.players, j, k) {
        assert Differ(s.players, j, k);
      }
    }
  }

  lemma QueuedGrows(a: seq<Placement>, b: seq<Placement>, id: PlayerId)
    requires a <= b && Queued(a, id)
    ensures Queued(b, id)
  {
    var k :| 0 <= k < |a| && a[k].player == id;
    assert b[k].player == id;
  }

  /** Looking at a listed player spends a shield on one explosive, or kills. */
  lemma ProcessFate(s: State, i: nat, was: Player, expected: bool)
    requires DistinctPlayers(s.players) && i < |s.players| && Fate(was, s.players[i], true, expected)
    ensures var t := Process(s, was.id);
      |t.players| == |s.players| && Fate(was, t.players[i], true, Queued(t.queue, was.id))
  {
    SeatOf(s.players, i);
    var hand := s.players[i].hand;
    if s.players[i].alive && Unsafe(hand) > 0 {
      CountPositive(hand, Shield);
      if IndexOfCode(hand, Shield) >= 0 {
        SpendHand(hand, IndexOfCode(hand, Shield));
        var t := SpendShield(s, i);
        assert t.queue[|s.queue|].player == was.id;
      }
    }
  }

  lemma {:induction false} ProcessAllFate(s: State, ids: seq<PlayerId>, seen: set<PlayerId>, i: nat, was: Player,
        listed: bool)
    requires DistinctPlayers(s.players) && i < |s.players| && (was.id in ids ==> listed)
    requires Fate(was, s.players[i], listed, (was.id in ids && was.id !in seen) || Queued(s.queue, was.id))
    ensures var t := ProcessAll(s, ids, seen);
      && |t.players| == |s.players| && DistinctPlayers(t.players) && s.queue <= t.queue
      && Fate(was, t.players[i], listed, Queued(t.queue, was.id))
    decreases |ids|
  {
    if ids != [] {
      if ids[0] in seen {
        ProcessAllFate(s, ids[1..], seen, i, was, listed);
      } else {
        var t := Process(s, ids[0]);
        ProcessOthers(s, ids[0]);
        if ids[0] == was.id {
          ProcessFate(s, i, was, true);
        } else if Queued(s.queue, was.id) {
          QueuedGrows(s.queue, t.queue, was.id);
        }
        ProcessAllFate(t, ids[1..], seen + {ids[0]}, i, was, listed);
      }
    }
  }

  /** The player is queued or is placing right now, and will be looked at again. */
  ghost predicate Expected(s: State, id: PlayerId) {
    Queued(s.queue, id) || (Draining(s) && s.pending.value.source == id)
  }

  /** Between placements: whoever waits in the queue will get a turn to place. */
  ghost predicate Orderly(s: State) {
    DistinctPlayers(s.players) && (s.queue != [] ==> Draining(s)) && (s.pending.Some? ==> Draining(s))
  }

  lemma NextPlacement(s: State, original: PlayerId, id: PlayerId)
    requires s.queue != [] && Queued(s.queue, id)
    ensures Expected(StartPlacement(s, original), id)
  {
    var t := StartPlacement(s, original);
    var k :| 0 <= k < |s.queue| && s.queue[k].player == id;
    if k > 0 { assert t.queue[k - 1].player == id; }
  }

  lemma NobodyNew(s: State, original: PlayerId, id: PlayerId)
    requires s.queue != [] && Expected(StartPlacement(s, original), id)
    ensures Queued(s.queue, id)
  {
    var t := StartPlacement(s, original);
    if Queued(t.queue, id) {
      var k :| 0 <= k < |t.queue| && t.queue[k].player == id;
      assert s.queue[k + 1].player == id;
    } else {
      assert s.queue[0].player == id;
    }
  }

  /** Handing on to the next placement, or back to the turn, keeps every fate. */
  lemma HandOnFate(s: State, original: PlayerId, i: nat, was: Player, listed: bool)
    requires DistinctPlayers(s.players) && s.pending.None? && i < |s.players|
    requires Fate(was, s.players[i], listed, Queued(s.queue, was.id)) && (Queued(s.queue, was.id) ==> listed)
    ensures var t := HandedOn(s, original);
      && Orderly(t) && t.players == s.players
      && Fate(was, t.players[i], listed, Expected(t, was.id)) && (Expected(t, was.id) ==> listed)
  {
    if s.queue != [] {
      if Queued(s.queue, was.id) { NextPlacement(s, original, was.id); }
      if Expected(StartPlacement(s, original), was.id) { NobodyNew(s, original, was.id); }
    }
  }

  lemma PlacedFate(s: State, index: nat, i: nat, was: Player, listed: bool)
    requires Draining(s) && Orderly(s) && index <= |s.draw| && i < |s.players|
    requires Fate(was, s.players[i], listed, Expected(s, was.id)) && (Expected(s, was.id) ==> listed)
    ensures var t := Placed(s, index);
      && Orderly(t) && |t.players| == |s.players|
      && Fate(was, t.players[i], listed, Expected(t, was.id)) && (Expected(t, was.id) ==> listed)
  {
    var p := s.pending.value;
    var s1 := Tick(s.(draw := InsertAt(s.draw, p.cards[0], index), pending := None, phase := PlayerTurn), 1);
    var t := Rechecked(s, index);
    PlacedShape(s, index);
    RecheckedKeeps(s, index);
    ProcessOthers(s1, p.source);
    if p.source == was.id {
      ProcessFate(s1, i, was, true);
    } else if Queued(s1.queue, was.id) {
      QueuedGrows(s1.queue, t.queue, was.id);
    } else {
      OthersNotQueued(s1, p.source, was.id);
    }
    HandOnFate(t, p.original, i, was, listed);
  }

  lemma OthersNotQueued(s: State, id: PlayerId, other: PlayerId)
    requires other != id && !Queued(s.queue, other)
    ensures !Queued(Process(s, id).queue, other)
  {
  }

  lemma {:induction false} DrainedFate(s: State, at: nat -> nat, k: nat, i: nat, was: Player, listed: bool)
    requires Orderly(s) && i < |s.players|
    requires Fate(was, s.players[i], listed, Expected(s, was.id)) && (Expected(s, was.id) ==> listed)
    ensures var t := Drained(s, at, k);
      t.queue == [] && t.pending.None? && |t.players| == |s.players| && Fate(was, t.players[i], listed, false)
    decreases Remaining(s)
  {
    if Draining(s) {
      var index := Chosen(s, at, k);
      PlacedRemaining(s, index);
      PlacedFate(s, index, i, was, listed);
      DrainedFate(Placed(s, index), at, k + 1, i, was, listed);
    }
  }

  lemma {:induction false} OnlyListedQueued(s: State, ids: seq<PlayerId>, seen: set<PlayerId>, id: PlayerId)
    requires id !in ids && !Queued(s.queue, id)
    ensures !Queued(ProcessAll(s, ids, seen).queue, id)
    decreases |ids|
  {
    if ids != [] {
      if ids[0] in seen {
        OnlyListedQueued(s, ids[1..], seen, id);
      } else {
        OthersNotQueued(s, ids[0], id);
        OnlyListedQueued(Process(s, ids[0]), ids[1..], seen + {ids[0]}, id);
      }
    }
  }

  // ------------------------------------------------------------- the theorem

  /** The end of the drain that resolving the listed players starts. */
  function Settled(s: State, original: PlayerId, ids: seq<PlayerId>, at: nat -> nat): State {
    Drained(ResolveUnsafe(s, original, ids), at, 0)
  }

  /**
   Whatever hands the players hold and wherever the explosives are put, the placements come to an
   end with an empty queue. A listed living player survives exactly when the shields cover the
   explosives that need one, and has then paid one shield for each; nobody else is touched.
   */
  lemma DrainDecides(s: State, original: PlayerId, ids: seq<PlayerId>, at: nat -> nat, i: nat)
    requires DistinctPlayers(s.players) && s.queue == [] && s.pending.None? && i < |s.players|
    ensures var t := Settled(s, original, ids, at);
      && t.queue == [] && t.pending.None? && !Draining(t) && |t.players| == |s.players|
      && var was, now := s.players[i], t.players[i];
         if was.id !in ids || !was.alive then now == was
         else
           && now.id == was.id
           && (now.alive <==> Count(was.hand, Shield) >= Unsafe(was.hand))
           && (now.alive ==>
                 Unsafe(now.hand) == 0 && Count(now.hand, Shield) == Count(was.hand, Shield) - Unsafe(was.hand))
           && (!now.alive ==> now.hand == [])
  {
    var was := s.players[i];
    var t := ProcessAll(s, ids, {});
    ProcessAllFate(s, ids, {}, i, was, was.id in ids);
    ProcessedPending(s, ids, {});
    if was.id !in ids { OnlyListedQueued(s, ids, {}, was.id); }
    HandOnFate(t, original, i, was, was.id in ids);
    DrainedFate(ResolveUnsafe(s, original, ids), at, 0, i, was, was.id in ids);
  }

  lemma {:induction false} ProcessedPending(s: State, ids: seq<PlayerId>, seen: set<PlayerId>)
    ensures ProcessAll(s, ids, seen).pending == s.pending && ProcessAll(s, ids, seen).phase == s.phase
    decreases |ids|
  {
    if ids != [] {
      if ids[0] in seen {
        ProcessedPending(s, ids[1..], seen);
      } else {
        ProcessedPending(Process(s, ids[0]), ids[1..], seen + {ids[0]});
      }
    }
  }

  // ------------------------------------------------------ where control goes

  /** The turn is back: won, with the interrupted player, or moved on from a dead one. */
  ghost predicate TurnIsBack(t: State, original: PlayerId) {
    var next := NextAlive(t.players, original);
    if AliveCount(t.players) == 1 then t.phase == GameOver && t.current == 0 && t.winner == FirstAlive(t.players)
    else t.phase == PlayerTurn && (if IsAlive(t.players, original) then t.current == original
                                   else next.Some? ==> t.current == next.value)
  }

  lemma FinishReturns(s: State, original: PlayerId)
    requires s.phase == PlayerTurn
    ensures TurnIsBack(FinishResolution(s, original), original)
  {
  }

  lemma {:induction false} DrainedReturns(s: State, at: nat -> nat, k: nat, original: PlayerId)
    requires if Draining(s) then s.pending.value.original == original else TurnIsBack(s, original)
    ensures TurnIsBack(Drained(s, at, k), original)
    decreases Remaining(s)
  {
    if Draining(s) {
      var index := Chosen(s, at, k);
      PlacedRemaining(s, index);
      PlacedShape(s, index);
      RecheckedKeeps(s, index);
      if Rechecked(s, index).queue == [] { FinishReturns(Rechecked(s, index), original); }
      DrainedReturns(Placed(s, index), at, k + 1, original);
    }
  }

  /**
   After the drain, the interrupted player goes on if alive, and otherwise the next living one; a lone
   survivor wins.
   */
  lemma DrainReturnsTheTurn(s: State, original: PlayerId, ids: seq<PlayerId>, at: nat -> nat)
    requires s.phase == PlayerTurn && s.pending.None?
    ensures TurnIsBack(Settled(s, original, ids, at), original)
  {
    ProcessedPending(s, ids, {});
    var t := ProcessAll(s, ids, {});
    if t.queue == [] { FinishReturns(t, original); }
    DrainedReturns(ResolveUnsafe(s, original, ids), at, 0, original);
  }

  // ------------------------------------------------------------- conservation

  lemma ProcessCards(s: State, id: PlayerId)
    ensures AllCards(Process(s, id)) == AllCards(s)
  {
    var i := Seat(s.players, id);
    var t := Process(s, id);
    assert AllCards(s) + multiset{} == AllCards(s);
    if t != s {
      var hand := s.players[i].hand;
      if IndexOfCode(hand, Shield) >= 0 {
        SpentCards(s, i);
      } else {
        assert Outside(t) + multiset([]) == Outside(s) + multiset(hand) + multiset{};
        ReplaceHand(s, t, i, t.players[i], multiset{});
      }
    }
  }

  lemma SpentCards(s: State, i: nat)
    requires i < |s.players| && IndexOfCode(s.players[i].hand, Shield) >= 0 && Unsafe(s.players[i].hand) > 0
    ensures AllCards(SpendShield(s, i)) == AllCards(s)
  {
    var hand := s.players[i].hand;
    var t := SpendShield(s, i);
    var shield, bomb := hand[IndexOfCode(hand, Shield)], FirstExplosive(hand);
    SpendHand(hand, IndexOfCode(hand, Shield));
    QueueCardsAppend(s.queue, Placement(s.players[i].id, bomb));
    assert Outside(t) == Outside(s) + multiset{shield} + multiset{bomb};
    assert Outside(t) + multiset(Spent(hand)) == Outside(s) + multiset(hand) + multiset{};
    ReplaceHand(s, t, i, t.players[i], multiset{});
  }

  lemma {:induction false} ProcessAllCards(s: State, ids: seq<PlayerId>, seen: set<PlayerId>)
    ensures AllCards(ProcessAll(s, ids, seen)) == AllCards(s)
    decreases |ids|
  {
    if ids != [] {
      if ids[0] in seen {
        ProcessAllCards(s, ids[1..], seen);
      } else {
        ProcessCards(s, ids[0]);
        ProcessAllCards(Process(s, ids[0]), ids[1..], seen + {ids[0]});
      }
    }
  }

  lemma NextPlacementCards(s: State, original: PlayerId)
    requires s.pending.None? && s.queue != []
    ensures AllCards(StartPlacement(s, original)) == AllCards(s)
  {
    QueueCardsTail(s.queue);
    var t := StartPlacement(s, original);
    assert LimboCards(t.pending) == multiset{s.queue[0].card};
    assert Outside(t) == Outside(s);
  }

  lemma HandOnCards(s: State, original: PlayerId)
    requires s.pending.None?
    ensures AllCards(HandedOn(s, original)) == AllCards(s)
  {
    if s.queue != [] {
      NextPlacementCards(s, original);
    } else {
      FinishCards(s, original);
    }
  }

  lemma FinishCards(s: State, original: PlayerId)
    ensures AllCards(FinishResolution(s, original)) == AllCards(s)
  {
    SamePlaces(s, FinishResolution(s, original));
  }

  lemma SamePlaces(s: State, t: State)
    requires t.players == s.players && t.draw == s.draw && t.discard == s.discard && t.pending == s.pending
    requires t.queue == s.queue
    ensures AllCards(t) == AllCards(s)
  {
  }

  lemma {:induction false} DrainedCards(s: State, at: nat -> nat, k: nat)
    ensures AllCards(Drained(s, at, k)) == AllCards(s)
    decreases Remaining(s)
  {
    if Draining(s) {
      var index, p := Chosen(s, at, k), s.pending.value;
      var s1 := Tick(s.(draw := InsertAt(s.draw, p.cards[0], index), pending := None, phase := PlayerTurn), 1);
      PlacedRemaining(s, index);
      PlacedShape(s, index);
      PlaceCards(s, s1, p, index);
      ProcessCards(s1, p.source);
      RecheckedKeeps(s, index);
      HandOnCards(Rechecked(s, index), p.original);
      DrainedCards(Placed(s, index), at, k + 1);
    }
  }

  /** No card is lost or made on the way. */
  lemma DrainKeepsCards(s: State, original: PlayerId, ids: seq<PlayerId>, at: nat -> nat)
    requires s.pending.None?
    ensures AllCards(Settled(s, original, ids, at)) == AllCards(s)
  {
    ProcessAllCards(s, ids, {});
    ProcessedPending(s, ids, {});
    HandOnCards(ProcessAll(s, ids, {}), original);
    DrainedCards(ResolveUnsafe(s, original, ids), at, 0);
  }

  // -------------------------------------------------------- in which order

  /** The player must place an explosive: one too many in the hand, and a shield to pay with. */
  ghost predicate Asked(s: State, id: PlayerId) {
    && IsAlive(s.players, id) && Unsafe(HandOf(s.players, id)) > 0
    && IndexOfCode(HandOf(s.players, id), Shield) >= 0
  }

  lemma QueuedNext(s: State, id: PlayerId)
    ensures Process(s, id).queue
         == s.queue + if Asked(s, id) then [Placement(id, FirstExplosive(HandOf(s.players, id)))] else []
  {
  }

  lemma {:induction false} QueueExtends(s: State, ids: seq<PlayerId>, seen: set<PlayerId>)
    ensures s.queue <= ProcessAll(s, ids, seen).queue
    decreases |ids|
  {
    if ids != [] {
      if ids[0] in seen {
        QueueExtends(s, ids[1..], seen);
      } else {
        QueuedNext(s, ids[0]);
        QueueExtends(Process(s, ids[0]), ids[1..], seen + {ids[0]});
      }
    }
  }

  /** Looking at a player who need not place anything changes nothing about who must. */
  lemma AskedStill(s: State, p: PlayerId, id: PlayerId)
    requires !Asked(s, p)
    ensures var m := Process(s, p);
      (Asked(m, id) <==> Asked(s, id)) && (Asked(s, id) ==> HandOf(m.players, id) == HandOf(s.players, id))
  {
    SeatSame(Process(s, p).players, s.players, id);
  }

  /** The first of the listed players who must place an explosive is the first in the queue. */
  lemma {:induction false} FirstQueued(s: State, ids: seq<PlayerId>, seen: set<PlayerId>, k: nat)
    requires s.queue == [] && k < |ids| && Asked(s, ids[k]) && ids[k] !in seen
    requires forall j :: 0 <= j < k ==> ids[j] != ids[k] && !Asked(s, ids[j])
    ensures var t := ProcessAll(s, ids, seen);
      t.queue != [] && t.queue[0] == Placement(ids[k], FirstExplosive(HandOf(s.players, ids[k])))
    decreases |ids|
  {
    if ids[0] in seen {
      FirstQueued(s, ids[1..], seen, k - 1);
    } else {
      var m := Process(s, ids[0]);
      QueuedNext(s, ids[0]);
      if k == 0 {
        QueueExtends(m, ids[1..], seen + {ids[0]});
      } else {
        forall id ensures Asked(m, id) <==> Asked(s, id)
          ensures Asked(s, id) ==> HandOf(m.players, id) == HandOf(s.players, id)
        {
          AskedStill(s, ids[0], id);
        }
        FirstQueued(m, ids[1..], seen + {ids[0]}, k - 1);
      }
    }
  }

  /** The pending placement is the given one, for the interrupted player `original`. */
  ghost predicate AsksFor(t: State, p: Placement, original: PlayerId) {
    && t.phase == WaitingExplosivePlacement && t.pending.Some? && t.pending.value.kind == ExplosivePlacement
    && t.pending.value.source == p.player && t.pending.value.cards == [p.card]
    && t.pending.value.reactive && t.pending.value.original == original
  }

  /** Resolving asks the first of the listed players who must place an explosive, for the first one in the hand. */
  lemma FirstListedIsAsked(s: State, original: PlayerId, ids: seq<PlayerId>, k: nat)
    requires s.queue == [] && k < |ids| && Asked(s, ids[k])
    requires forall j :: 0 <= j < k ==> ids[j] != ids[k] && !Asked(s, ids[j])
    ensures var p := Placement(ids[k], FirstExplosive(HandOf(s.players, ids[k])));
      AsksFor(ResolveUnsafe(s, original, ids), p, original)
  {
    FirstQueued(s, ids, {}, k);
  }

  lemma PlaceStep(s: State, c: Command, env: Env)
    requires c.PlaceExplosive? && Guard(s, c) == NoError
    ensures PlaceGuard(s, c.player, c.index) == NoError && Step(s, c, env).state == PlaceEffect(s, c.player, c.index)
  {
  }

  lemma OneListed(s: State, p: PlayerId)
    ensures ProcessAll(s, [p], {}) == Process(s, p)
  {
  }

  lemma PlacedQueue(s: State, p: PlayerId, index: int)
    requires PlaceGuard(s, p, index) == NoError && s.pending.value.reactive && s.queue != []
    ensures var t := PlaceEffect(s, p, index);
      && AsksFor(t, s.queue[0], s.pending.value.original)
      && t.queue == s.queue[1..] + if Asked(s, p) then [Placement(p, FirstExplosive(HandOf(s.players, p)))] else []
  {
    var q := s.pending.value;
    var s1 := Tick(s.(draw := InsertAt(s.draw, q.cards[0], index), pending := None, phase := PlayerTurn), 1);
    ResolvedQueue(s1, q.original, p);
    assert PlaceEffect(s, p, index) == ResolveUnsafe(s1, q.original, [p]);
  }

  lemma ResolvedQueue(s: State, original: PlayerId, p: PlayerId)
    requires s.queue != []
    ensures var t := ResolveUnsafe(s, original, [p]);
      && AsksFor(t, s.queue[0], original)
      && t.queue == s.queue[1..] + if Asked(s, p) then [Placement(p, FirstExplosive(HandOf(s.players, p)))] else []
  {
    OneListed(s, p);
    QueuedNext(s, p);
  }

  /**
   Placements are asked for in the order of the queue, and a player who has another explosive to place goes
   to its end.
   */
  lemma QueueIsServedInOrder(s: State, c: Command, env: Env)
    requires c.PlaceExplosive? && Guard(s, c) == NoError && s.queue != []
    requires s.pending.Some? && s.pending.value.reactive
    ensures var t := Step(s, c, env).state;
      && AsksFor(t, s.queue[0], s.pending.value.original)
      && t.queue == s.queue[1..] + if Asked(s, c.player)
                                   then [Placement(c.player, FirstExplosive(HandOf(s.players, c.player)))] else []
  {
    PlaceStep(s, c, env);
    PlacedQueue(s, c.player, c.index);
  }
}
