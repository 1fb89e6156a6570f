/** Turn order, debts, and the resolution of unguarded explosives, each leading back to a sound state. */
module Turns {
  import opened Cards
  import opened Table
  import opened Rules
  import opened Invariant
  import opened Ring

  ghost predicate AllSafe(players: seq<Player>) {
    forall i :: 0 <= i < |players| ==> Unsafe(players[i].hand) == 0
  }

  lemma NotRecycling(s: State)
    requires Contained(s.players, s.pending) && (s.pending.Some? ==> s.pending.value.kind != RecycleChoices)
    ensures AllSafe(s.players)
  {
    forall i | 0 <= i < |s.players| ensures Unsafe(s.players[i].hand) == 0 {
      assert SafeHand(s.players[i].hand, GaveHolder(s.pending, s.players[i].id));
    }
  }

  lemma SafeContained(players: seq<Player>, pending: Option<Pending>)
    requires AllSafe(players)
    ensures Contained(players, pending)
  {
  }

  lemma FairSub(a: multiset<Card>, b: multiset<Card>)
    requires a <= b && Fair(b)
    ensures Fair(a)
  {
    forall c, d ensures FairPair(a, c, d) {
      assert FairPair(b, c, d);
      assert a[c] <= b[c] && a[d] <= b[d];
    }
  }

  // ------------------------------------------------------------ handing over

  /** Nobody owes a turn: advancing starts the next player's turn with a debt of one. */
  lemma AdvanceReady(s: State)
    requires TableOk(s) && Fair(AllCards(s)) && s.pending.None? && s.winner == 0
    requires AliveCount(s.players) >= 2 && Seat(s.players, s.current) >= 0
    requires forall i :: 0 <= i < |s.players| && s.players[i].alive ==> Debt(s.debt, s.players[i].id) == 0
    ensures Ready(Advance(s)) && Advance(s).players == s.players && AllCards(Advance(s)) == AllCards(s)
    ensures Advance(s).current != s.current
  {
    NextIsOther(s.players, s.current);
    var t := Advance(s);
    assert AllCards(t) == AllCards(s);
  }

  lemma LoadReady(s: State, source: PlayerId, target: PlayerId)
    requires Ready(s) && source == s.current && Other(s, target)
    ensures Ready(LoadTurns(s, source, target)) && LoadTurns(s, source, target).players == s.players
    ensures AllCards(LoadTurns(s, source, target)) == AllCards(s)
    ensures LoadTurns(s, source, target).current == target && Debt(LoadTurns(s, source, target).debt, target) == 2
  {
    var i := Seat(s.players, target);
    assert Debt(s.debt, s.players[i].id) == 0;
    assert AllCards(LoadTurns(s, source, target)) == AllCards(s);
  }

  /** Changing only the debts, within the rules of a turn, keeps the turn ready. */
  lemma Redebt(s: State, t: State)
    requires Ready(s) && InPlay(t) && t == s.(debt := t.debt, eventSeq := t.eventSeq)
    ensures Ready(t) && AllCards(t) == AllCards(s)
  {
    assert AllCards(t) == AllCards(s);
  }

  lemma CompleteReady(s: State)
    requires Ready(s)
    ensures Ready(CompleteTurn(s)) && CompleteTurn(s).players == s.players && AllCards(CompleteTurn(s)) == AllCards(s)
  {
    var d := Debt(s.debt, s.current);
    var s1 := s.(debt := s.debt[s.current := d - 1]);
    if d == 1 {
      assert AllCards(s1) == AllCards(s);
      AdvanceReady(s1);
    } else {
      Redebt(s, Tick(s1, 1));
    }
  }

  lemma ReadyInv(s: State)
    requires Ready(s) && AllSafe(s.players)
    ensures Inv(s)
  {
    SafeContained(s.players, s.pending);
  }

  lemma CompleteInv(s: State)
    requires Ready(s) && AllSafe(s.players)
    ensures Inv(CompleteTurn(s)) && AllCards(CompleteTurn(s)) == AllCards(s) && CompleteTurn(s).players == s.players
  {
    CompleteReady(s);
    ReadyInv(CompleteTurn(s));
  }

  lemma OneSeatSafe(players: seq<Player>, i: nat, p: Player)
    requires AllSafe(players) && i < |players| && Unsafe(p.hand) == 0
    ensures AllSafe(players[i := p])
  {
  }

  // ---------------------------------------------------- resolving explosives

  lemma {:induction false} ProcessIdle(s: State, ids: seq<PlayerId>, seen: set<PlayerId>)
    requires forall id :: id in ids ==> Process(s, id) == s
    ensures ProcessAll(s, ids, seen) == s
    decreases |ids|
  {
    if ids != [] {
      ProcessIdle(s, ids[1..], if ids[0] in seen then seen else seen + {ids[0]});
    }
  }

  lemma {:induction false} ProcessOne(s: State, ids: seq<PlayerId>, seen: set<PlayerId>, p: PlayerId)
    requires p in ids && p !in seen
    requires forall id :: id != p ==> Process(s, id) == s
    requires forall id :: Process(Process(s, p), id) == Process(s, p)
    ensures ProcessAll(s, ids, seen) == Process(s, p)
    decreases |ids|
  {
    if ids[0] == p {
      ProcessIdle(Process(s, p), ids[1..], seen + {p});
    } else {
      ProcessOne(s, ids[1..], if ids[0] in seen then seen else seen + {ids[0]}, p);
    }
  }

  lemma SafeIdle(s: State, id: PlayerId)
    requires Seat(s.players, id) < 0 || Unsafe(s.players[Seat(s.players, id)].hand) == 0
    ensures Process(s, id) == s
  {
  }

  /** What spending a shield does to the hand: one explosive and one shield fewer. */
  lemma SpendHand(hand: seq<Card>, i: nat)
    requires IndexOfCode(hand, Shield) == i && Unsafe(hand) > 0
    ensures Unsafe(Spent(hand)) == Unsafe(hand) - 1
    ensures Count(Spent(hand), Shield) == Count(hand, Shield) - 1
    ensures Count(Spent(hand), Explosive) == Count(hand, Explosive) - 1
    ensures FirstExplosive(hand).code == Explosive
    ensures multiset(Spent(hand)) + multiset{hand[i]} + multiset{FirstExplosive(hand)} == multiset(hand)
  {
    var j := SpentAt(hand);
    SpendAt(hand, i, j);
  }

  /** Where the first explosive is once the shield is gone. */
  lemma SpentAt(hand: seq<Card>) returns (j: nat)
    requires IndexOfCode(hand, Shield) >= 0 && Unsafe(hand) > 0
    ensures var mid := RemoveAt(hand, IndexOfCode(hand, Shield));
      && j < |mid| && Spent(hand) == RemoveAt(mid, j) && FirstExplosive(hand) == mid[j] && mid[j].code == Explosive
  {
    CountPositive(hand, Explosive);
    var sh, ex := IndexOfCode(hand, Shield), IndexOfCode(hand, Explosive);
    j := if ex > sh then ex - 1 else ex;
  }

  /** A shield at `i` and, once it is gone, an explosive at `j` leave the hand. */
  lemma SpendAt(hand: seq<Card>, i: nat, j: nat)
    requires i < |hand| && hand[i].code == Shield && j < |RemoveAt(hand, i)| && RemoveAt(hand, i)[j].code == Explosive
    requires Unsafe(hand) > 0
    ensures var rest := RemoveAt(RemoveAt(hand, i), j);
      && Unsafe(rest) == Unsafe(hand) - 1
      && Count(rest, Shield) == Count(hand, Shield) - 1 && Count(rest, Explosive) == Count(hand, Explosive) - 1
      && multiset(rest) + multiset{hand[i]} + multiset{RemoveAt(hand, i)[j]} == multiset(hand)
  {
    UnsafeShield(hand, i);
    UnsafeRemove(RemoveAt(hand, i), j);
    CountBoth(hand, i, j, Shield);
    CountBoth(hand, i, j, Explosive);
    TwoRemoved(hand, i, j);
  }

  lemma TwoRemoved<T>(s: seq<T>, i: nat, j: nat)
    requires i < |s| && j < |RemoveAt(s, i)|
    ensures multiset(RemoveAt(RemoveAt(s, i), j)) + multiset{s[i]} + multiset{RemoveAt(s, i)[j]} == multiset(s)
  {
    MultisetRemoveAt(s, i);
    MultisetRemoveAt(RemoveAt(s, i), j);
  }

  lemma CountBoth(hand: seq<Card>, i: nat, j: nat, code: Code)
    requires i < |hand| && j < |RemoveAt(hand, i)|
    ensures Count(hand, code) == Count(RemoveAt(RemoveAt(hand, i), j), code)
      + (if hand[i].code == code then 1 else 0) + if RemoveAt(hand, i)[j].code == code then 1 else 0
  {
    CountRemoveAt(hand, i, code);
    CountRemoveAt(RemoveAt(hand, i), j, code);
  }

  /** Removing a card that is neither explosive nor holder changes nothing about safety. */
  lemma UnsafeShield(hand: seq<Card>, j: nat)
    requires j < |hand| && hand[j].code != Explosive && hand[j].code != ExplosiveHolder
    ensures Unsafe(RemoveAt(hand, j)) == Unsafe(hand)
  {
    CountRemoveAt(hand, j, Explosive);
    HolderAfterRemove(hand, j);
  }

  /** With one loose explosive among the listed players, only its owner is dealt with. */
  lemma ProcessLoose(s: State, ids: seq<PlayerId>, u: nat)
    requires DistinctPlayers(s.players) && DeadEmpty(s.players) && u < |s.players| && OneLoose(s.players, u)
    requires Unsafe(s.players[u].hand) == 0 || s.players[u].id in ids
    ensures ProcessAll(s, ids, {}) == Process(s, s.players[u].id)
  {
    var p := s.players[u].id;
    SeatOf(s.players, u);
    forall id | id != p ensures Process(s, id) == s {
      SafeIdle(s, id);
    }
    if Unsafe(s.players[u].hand) == 0 {
      SafeIdle(s, p);
      ProcessIdle(s, ids, {});
    } else {
      var t := Process(s, p);
      ProcessedSafe(s, u);
      forall id ensures Process(t, id) == t {
        SafeIdle(t, id);
      }
      ProcessOne(s, ids, {}, p);
    }
  }

  lemma ProcessedSafe(s: State, u: nat)
    requires DistinctPlayers(s.players) && DeadEmpty(s.players) && u < |s.players| && OneLoose(s.players, u)
    ensures AllSafe(Process(s, s.players[u].id).players)
  {
    SeatOf(s.players, u);
    if Unsafe(s.players[u].hand) > 0 {
      LooseIsAlive(s, u);
      if IndexOfCode(s.players[u].hand, Shield) >= 0 {
        SpentSafe(s, u);
      } else {
        OnlySeatChanges(s.players, u, s.players[u].(hand := [], alive := false));
      }
    }
  }

  lemma SpentSafe(s: State, u: nat)
    requires u < |s.players| && OneLoose(s.players, u)
    requires Unsafe(s.players[u].hand) > 0 && IndexOfCode(s.players[u].hand, Shield) >= 0
    ensures AllSafe(SpendShield(s, u).players)
  {
    SpendHand(s.players[u].hand, IndexOfCode(s.players[u].hand, Shield));
    OnlySeatChanges(s.players, u, s.players[u].(hand := Spent(s.players[u].hand)));
  }

  lemma OnlySeatChanges(players: seq<Player>, u: nat, p: Player)
    requires u < |players| && OneLoose(players, u) && Unsafe(p.hand) == 0
    ensures AllSafe(players[u := p])
  {
  }

  lemma LooseIsAlive(s: State, u: nat)
    requires DeadEmpty(s.players) && u < |s.players| && Unsafe(s.players[u].hand) > 0
    ensures s.players[u].alive
  {
  }

  lemma ShieldSaves(s: State, u: nat)
    requires Ready(s) && u < |s.players| && OneLoose(s.players, u)
    requires Unsafe(s.players[u].hand) > 0 && IndexOfCode(s.players[u].hand, Shield) >= 0
    ensures var t := StartPlacement(SpendShield(s, u), s.current); Inv(t) && Follows(s, t)
  {
    LooseIsAlive(s, u);
    var hand := s.players[u].hand;
    SpendHand(hand, IndexOfCode(hand, Shield));
    assert AllCards(s) + multiset{} == AllCards(s);
    assert multiset([FirstExplosive(hand)]) == multiset{FirstExplosive(hand)} + multiset{};
    var t := StartPlacement(SpendShield(s, u), s.current);
    PlacementOpens(s, t, u, Spent(hand), hand[IndexOfCode(hand, Shield)], multiset{FirstExplosive(hand)}, multiset{});
  }

  /**
   A shield went to the discard pile and its owner must place one explosive: either one from
   the hand (`loose`) or one just drawn (`drawn`).
   */
  lemma PlacementOpens(s: State, t: State, u: nat, rest: seq<Card>, shield: Card, loose: multiset<Card>,
        drawn: multiset<Card>)
    requires TableOk(s) && Fair(AllCards(s) + drawn) && InPlay(s) && s.pending.None? && u < |s.players|
    requires s.players[u].alive
    requires multiset(rest) + multiset{shield} + loose == multiset(s.players[u].hand)
    requires OneLoose(s.players, u) && Unsafe(rest) == 0
    requires t.players == s.players[u := s.players[u].(hand := rest)]
    requires t.marks == Unmarked(s.marks, s.players[u].id, rest)
    requires t.phase == WaitingExplosivePlacement && t.current == s.current && t.debt == s.debt && t.winner == s.winner
    requires t.draw == s.draw && t.discard == s.discard + [shield] && t.queue == []
    requires t.pending.Some? && t.pending.value.kind == ExplosivePlacement && t.pending.value.source == s.players[u].id
    requires if t.pending.value.reactive then t.pending.value.original == s.current else s.players[u].id == s.current
    requires |t.pending.value.cards| == 1 && t.pending.value.cards[0].code == Explosive
    requires multiset(t.pending.value.cards) == loose + drawn
    ensures Inv(t) && AllCards(t) == AllCards(s) + drawn && SameSeats(s.players, t.players)
    ensures drawn == multiset{} ==> Follows(s, t)
  {
    FairSub(AllCards(s), AllCards(s) + drawn);
    HandShrinks(s, t, u, rest);
    SameTurn(s, t);
    SameSeatsAlive(s.players, t.players);
    SeatOf(s.players, u);
    OnlySeatChanges(s.players, u, t.players[u]);
    SafeContained(t.players, t.pending);
    PlacementCards(s, t, u, rest, shield, loose, drawn);
  }

  lemma PlacementCards(s: State, t: State, u: nat, rest: seq<Card>, shield: Card, loose: multiset<Card>,
        drawn: multiset<Card>)
    requires u < |s.players| && s.pending.None? && s.queue == []
    requires multiset(rest) + multiset{shield} + loose == multiset(s.players[u].hand)
    requires t.players == s.players[u := s.players[u].(hand := rest)]
    requires t.draw == s.draw && t.discard == s.discard + [shield] && t.queue == []
    requires t.pending.Some? && t.pending.value.kind == ExplosivePlacement
    requires multiset(t.pending.value.cards) == loose + drawn
    ensures AllCards(t) == AllCards(s) + drawn
  {
    var base := multiset(s.draw) + multiset(s.discard);
    assert Outside(s) == base;
    assert Outside(t) == base + multiset{shield} + loose + drawn;
    assert Outside(t) + multiset(rest) == Outside(s) + multiset(s.players[u].hand) + drawn;
    ReplaceHand(s, t, u, t.players[u], drawn);
  }

  lemma FinishShape(e: State)
    requires e.phase == PlayerTurn
    ensures FinishResolution(e, e.current) ==
      if AliveCount(e.players) == 1 then Crown(e) else if IsAlive(e.players, e.current) then e else Advance(e)
  {
    assert e.(current := e.current, phase := PlayerTurn) == e;
    assert e.(current := e.current) == e;
  }

  /** After a death in play, either the turn goes on or nobody left owes a turn. */
  lemma DebtsAfterDeath(s: State, e: State)
    requires InPlay(s) && e.current == s.current && e.debt == s.debt && e.winner == s.winner
    requires |e.players| == |s.players|
    requires forall i :: 0 <= i < |s.players| ==>
        e.players[i].id == s.players[i].id && (e.players[i].alive ==> s.players[i].alive)
    requires AliveCount(e.players) >= 2
    ensures IsAlive(e.players, e.current) ==> InPlay(e)
    ensures !IsAlive(e.players, e.current) && DistinctPlayers(e.players) ==>
      forall i :: 0 <= i < |e.players| && e.players[i].alive ==> Debt(e.debt, e.players[i].id) == 0
  {
    if !IsAlive(e.players, e.current) && DistinctPlayers(e.players) {
      forall i | 0 <= i < |e.players| && e.players[i].alive ensures Debt(e.debt, e.players[i].id) == 0 {
        SeatOf(e.players, i);
      }
    }
  }

  lemma AdvanceInv(e: State)
    requires TableOk(e) && Fair(AllCards(e)) && AllSafe(e.players) && e.pending.None? && e.winner == 0
    requires AliveCount(e.players) >= 2 && Seat(e.players, e.current) >= 0
    requires forall i :: 0 <= i < |e.players| && e.players[i].alive ==> Debt(e.debt, e.players[i].id) == 0
    ensures Inv(Advance(e)) && AllCards(Advance(e)) == AllCards(e) && Advance(e).players == e.players
  {
    AdvanceReady(e);
    ReadyInv(Advance(e));
  }

  /** Finishing after one death: the survivor wins, or the turn goes on. */
  lemma FinishKeeps(s: State, e: State)
    requires InPlay(s) && AliveCount(e.players) + 1 == AliveCount(s.players)
    requires e.current == s.current && e.debt == s.debt && e.winner == s.winner && |e.players| == |s.players|
    requires forall i :: 0 <= i < |s.players| ==>
        e.players[i].id == s.players[i].id && (e.players[i].alive ==> s.players[i].alive)
    requires Seat(e.players, e.current) >= 0 && e.phase == PlayerTurn
    requires TableOk(e) && Fair(AllCards(e)) && AllSafe(e.players) && e.pending.None?
    ensures var t := FinishResolution(e, e.current); Inv(t) && AllCards(t) == AllCards(e) && t.players == e.players
  {
    FinishShape(e);
    if AliveCount(e.players) == 1 {
      CrownKeeps(e);
    } else {
      DebtsAfterDeath(s, e);
      if IsAlive(e.players, e.current) { ReadyInv(e); } else { AdvanceInv(e); }
    }
  }

  /** The same, from the state before the death. */
  lemma DeathStep(s: State, e: State, u: nat)
    requires Ready(s) && u < |s.players| && OneLoose(s.players, u) && s.players[u].alive
    requires e.players == s.players[u := s.players[u].(hand := [], alive := false)]
    requires e.marks == Unmarked(s.marks, s.players[u].id, []) && e.queue == [] && e.pending.None?
    requires e.phase == PlayerTurn
    requires e.draw == s.draw && e.discard == s.discard + s.players[u].hand
    requires e.current == s.current && e.debt == s.debt && e.winner == s.winner
    ensures var t := FinishResolution(e, e.current); Inv(t) && Follows(s, t)
  {
    assert AllCards(s) + multiset{} == AllCards(s);
    EliminateKeeps(s, e, u, multiset{});
    FinishKeeps(s, e);
  }

  lemma DeathKeeps(s: State, u: nat)
    requires Ready(s) && u < |s.players| && OneLoose(s.players, u) && s.players[u].alive
    ensures var t := FinishResolution(Eliminate(s, u), s.current); Inv(t) && Follows(s, t)
  {
    DeathStep(s, Eliminate(s, u), u);
  }

  /** A death: the hand, and possibly the drawn card, go to the discard pile. */
  lemma EliminateKeeps(s: State, e: State, u: nat, extra: multiset<Card>)
    requires TableOk(s) && Fair(AllCards(s) + extra) && InPlay(s) && s.pending.None? && u < |s.players|
    requires s.players[u].alive
    requires forall i :: 0 <= i < |s.players| && i != u ==> Unsafe(s.players[i].hand) == 0
    requires e.players == s.players[u := s.players[u].(hand := [], alive := false)]
    requires e.marks == Unmarked(s.marks, s.players[u].id, []) && e.queue == [] && e.pending.None?
    requires e.draw == s.draw && multiset(e.discard) == multiset(s.discard) + multiset(s.players[u].hand) + extra
    ensures TableOk(e) && AllSafe(e.players) && AllCards(e) == AllCards(s) + extra && Fair(AllCards(e))
    ensures AliveCount(e.players) + 1 == AliveCount(s.players)
    ensures forall id :: Seat(e.players, id) == Seat(s.players, id)
  {
    FairSub(AllCards(s), AllCards(s) + extra);
    PlayerDies(s, e, u);
    assert Outside(e) + multiset([]) == Outside(s) + multiset(s.players[u].hand) + extra;
    ReplaceHand(s, e, u, e.players[u], extra);
    assert e.players[u].hand == [];
  }

  lemma CrownKeeps(s: State)
    requires TableOk(s) && Fair(AllCards(s)) && AllSafe(s.players) && s.pending.None? && AliveCount(s.players) == 1
    ensures Inv(Crown(s)) && AllCards(Crown(s)) == AllCards(s)
  {
    FirstAliveIsAlive(s.players);
    assert AllCards(Crown(s)) == AllCards(s);
    SafeContained(s.players, None);
  }

  lemma {:induction false} FirstAliveIsAlive(players: seq<Player>)
    requires AliveCount(players) >= 1 && DistinctPlayers(players)
    ensures IsAlive(players, FirstAlive(players))
  {
    var i := FirstAliveSeat(players);
    SeatOf(players, i);
  }

  lemma {:induction false} FirstAliveSeat(players: seq<Player>) returns (i: nat)
    requires AliveCount(players) >= 1
    ensures i < |players| && players[i].alive && FirstAlive(players) == players[i].id
  {
    if players[0].alive {
      i := 0;
    } else {
      var j := SomeAlive(players);
      AliveCountPositive(players[1..], j - 1);
      var k := FirstAliveSeat(players[1..]);
      i := k + 1;
    }
  }

  /** Resolving when at most one listed player is loose ends in a sound state. */
  lemma ResolveKeeps(s: State, ids: seq<PlayerId>, u: nat)
    requires Ready(s) && u < |s.players| && OneLoose(s.players, u)
    requires Unsafe(s.players[u].hand) == 0 || s.players[u].id in ids
    ensures var t := ResolveUnsafe(s, s.current, ids); Inv(t) && Follows(s, t)
  {
    ProcessLoose(s, ids, u);
    SeatOf(s.players, u);
    var hand := s.players[u].hand;
    if Unsafe(hand) == 0 {
      var t := FinishResolution(s, s.current);
      assert ResolveUnsafe(s, s.current, ids) == t;
      assert t == s;
      ReadyInv(s);
    } else {
      LooseIsAlive(s, u);
      if IndexOfCode(hand, Shield) >= 0 {
        ShieldSaves(s, u);
      } else {
        DeathKeeps(s, u);
      }
    }
  }
}
