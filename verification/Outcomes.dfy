/**
 What each accepted command leaves behind, said in terms of hands, piles, debts and turns only: which cards
 go where, who pays for an explosive, and whose turn it is. None of this refers to how the rules compute it.
 */
module Outcomes {
  import opened Cards
  import opened Table
  import opened Rules
  import opened Invariant
  import opened Ring
  import opened Turns
  import opened Prompts
  import opened Parity

  // ----------------------------------------------------------- hands and seats

  /** The hand without its card at `j`. */
  function Minus(hand: seq<Card>, j: nat): seq<Card>
    requires j < |hand|
  {
    hand[..j] + hand[j + 1..]
  }

  ghost predicate FirstOf(hand: seq<Card>, code: Code, j: nat) {
    j < |hand| && hand[j].code == code && forall k :: 0 <= k < j ==> hand[k].code != code
  }

  /** The same players in the same seats, unchanged except for the given one. */
  ghost predicate Only(a: seq<Player>, b: seq<Player>, p: PlayerId) {
    |b| == |a| && forall i :: 0 <= i < |a| ==> b[i].id == a[i].id && (a[i].id != p ==> b[i] == a[i])
  }

  /** Only the hand of the player is another one. */
  ghost predicate NewHand(a: seq<Player>, b: seq<Player>, p: PlayerId, hand: seq<Card>) {
    Only(a, b, p) && IsAlive(b, p) && HandOf(b, p) == hand
  }

  // ------------------------------------------------------------------- turns

  /** `to` is the first living player after the seat of `from`. */
  ghost predicate NextUp(players: seq<Player>, from: PlayerId, to: PlayerId) {
    Seat(players, from) >= 0
    && exists d :: FirstAliveAt(players, Seat(players, from), d)
                   && to == players[At(|players|, Seat(players, from), d)].id
  }

  ghost predicate SameDebts(a: map<PlayerId, int>, b: map<PlayerId, int>, but: set<PlayerId>) {
    forall id :: id !in but ==> Debt(b, id) == Debt(a, id)
  }

  /** The same player goes on with the same debts. */
  ghost predicate SameTurns(s: State, t: State) {
    t.current == s.current && t.debt == s.debt && t.winner == s.winner
  }

  ghost predicate AtTurn(t: State) {
    t.phase == PlayerTurn && t.pending.None?
  }

  /**
   The current player of `s` has finished one turn unit: with more than one owed, one fewer is owed and
   the player goes on; otherwise nothing is owed and the next living player starts with a debt of one.
   */
  ghost predicate UnitDone(s: State, t: State) {
    var p := s.current;
    && AtTurn(t)
    && if Debt(s.debt, p) > 1
       then t.current == p && Debt(t.debt, p) == Debt(s.debt, p) - 1 && SameDebts(s.debt, t.debt, {p})
       else NextUp(t.players, p, t.current) && t.current != p
            && Debt(t.debt, p) == 0 && Debt(t.debt, t.current) == 1 && SameDebts(s.debt, t.debt, {p, t.current})
  }

  /** Somebody died: a lone survivor has won, the current player goes on if alive, or the next living one starts. */
  ghost predicate AfterDeath(s: State, t: State) {
    if AliveCount(t.players) == 1 then t.phase == GameOver && t.pending.None? && IsAlive(t.players, t.winner)
    else if IsAlive(t.players, s.current) then AtTurn(t) && SameTurns(s, t)
    else
      && AtTurn(t) && NextUp(t.players, s.current, t.current)
      && Debt(t.debt, t.current) == 1 && SameDebts(s.debt, t.debt, {t.current})
  }

  // ------------------------------------------------------------- the two turns

  /** A turn in progress with nothing pending. */
  ghost predicate Running(s: State) {
    && DistinctPlayers(s.players) && s.current != 0 && s.queue == []
    && s.pending.None? && s.phase == PlayerTurn && InPlay(s)
  }

  lemma RunningIf(s: State)
    requires Ready(s)
    ensures Running(s)
  {
    assert s.players[Seat(s.players, s.current)].id == s.current;
  }

  lemma NextUpIs(players: seq<Player>, from: PlayerId)
    requires DistinctPlayers(players) && Seat(players, from) >= 0
    requires AliveCount(players) >= if IsAlive(players, from) then 2 else 1
    ensures var next := NextAlive(players, from);
      next.Some? && next.value != from && IsAlive(players, next.value) && NextUp(players, from, next.value)
  {
    NextIsOther(players, from);
    NextAliveIsFirst(players, from);
  }

  lemma OwesNothing(s: State, id: PlayerId)
    requires InPlay(s) && IsAlive(s.players, id) && id != s.current
    ensures Debt(s.debt, id) == 0
  {
    assert s.players[Seat(s.players, id)].id == id;
  }

  lemma Completes(s: State)
    requires Running(s)
    ensures var t := CompleteTurn(s);
      UnitDone(s, t) && t.players == s.players && t.draw == s.draw && t.discard == s.discard && t.marks == s.marks
  {
    NextUpIs(s.players, s.current);
    var next := NextAlive(s.players, s.current).value;
    OwesNothing(s, next);
  }

  /** A finished unit, seen from a state with the same turns. */
  lemma UnitFrom(s: State, s1: State, t: State)
    requires UnitDone(s1, t) && s1.current == s.current && s1.debt == s.debt
    ensures UnitDone(s, t)
  {
  }

  // ---------------------------------------------------------- drawing a card

  /** The current player must put the explosive back into the pile. */
  ghost predicate MustPlace(t: State, p: PlayerId, card: Card, reactive: bool) {
    && t.phase == WaitingExplosivePlacement && t.pending.Some?
    && t.pending.value.kind == ExplosivePlacement && t.pending.value.source == p
    && t.pending.value.cards == [card] && t.pending.value.reactive == reactive
  }

  /** A drawn card stays in a hand unless it is an explosive that the hand cannot hold. */
  ghost predicate Holds(hand: seq<Card>, card: Card) {
    card.code != Explosive || (HasCode(hand, ExplosiveHolder) && !HasCode(hand, Explosive))
  }

  ghost predicate Keeps(s: State, t: State, hand: seq<Card>, card: Card) {
    && NewHand(s.players, t.players, s.current, hand + [card])
    && t.discard == s.discard && UnitDone(s, t)
  }

  ghost predicate Defuses(s: State, t: State, hand: seq<Card>, card: Card) {
    && (exists k: nat :: FirstOf(hand, Shield, k)
                    && NewHand(s.players, t.players, s.current, Minus(hand, k))
                    && t.discard == s.discard + [hand[k]])
    && MustPlace(t, s.current, card, false) && SameTurns(s, t)
  }

  ghost predicate Dies(s: State, t: State, hand: seq<Card>, card: Card) {
    && Only(s.players, t.players, s.current)
    && !IsAlive(t.players, s.current) && HandOf(t.players, s.current) == []
    && t.discard == s.discard + [card] + hand && AfterDeath(s, t)
  }

  /** What becomes of a card that the current player draws. */
  ghost predicate DrawDecided(s: State, t: State, card: Card) {
    var hand := HandOf(s.players, s.current);
    && (IsAlive(t.players, s.current) <==> Holds(hand, card) || HasCode(hand, Shield))
    && if Holds(hand, card) then Keeps(s, t, hand, card)
       else if HasCode(hand, Shield) then Defuses(s, t, hand, card)
       else Dies(s, t, hand, card)
  }

  lemma HoldsIs(hand: seq<Card>, card: Card)
    ensures Holds(hand, card) <==> Kept(hand, card)
    ensures HasCode(hand, Shield) <==> IndexOfCode(hand, Shield) >= 0
  {
    CountPositive(hand, ExplosiveHolder);
    CountPositive(hand, Explosive);
    CountPositive(hand, Shield);
  }

  lemma NewHandAt(a: seq<Player>, i: nat, hand: seq<Card>)
    requires DistinctPlayers(a) && i < |a| && a[i].alive
    ensures NewHand(a, a[i := a[i].(hand := hand)], a[i].id, hand)
  {
    var b := a[i := a[i].(hand := hand)];
    SeatOf(a, i);
    SeatSame(a, b, a[i].id);
    OthersStay(a, i, b[i]);
  }

  lemma OthersStay(a: seq<Player>, i: nat, p: Player)
    requires i < |a| && p.id == a[i].id
    ensures Only(a, a[i := p], p.id)
  {
  }

  lemma FirstOfIs(hand: seq<Card>, code: Code)
    requires IndexOfCode(hand, code) >= 0
    ensures FirstOf(hand, code, IndexOfCode(hand, code))
  {
  }

  lemma DrawnKeepsIt(s: State, i: nat, card: Card)
    requires Running(s) && i < |s.players| && s.players[i].id == s.current && Kept(s.players[i].hand, card)
    ensures var t := ResolveDrawn(s, i, card);
      Keeps(s, t, s.players[i].hand, card) && t.draw == s.draw
  {
    SeatOf(s.players, i);
    var g := Give(Tick(s, 1), i, card);
    NewHandAt(s.players, i, s.players[i].hand + [card]);
    GivenRuns(s, g, i, s.players[i].hand + [card]);
    Completes(g);
    UnitFrom(s, g, CompleteTurn(g));
  }

  /** A change of hands that leaves the seats alone does not disturb the turn. */
  lemma GivenRuns(s: State, g: State, i: nat, hand: seq<Card>)
    requires Running(s) && i < |s.players| && g.players == s.players[i := s.players[i].(hand := hand)]
    requires SameTurns(s, g) && g.queue == s.queue && g.pending == s.pending && g.phase == s.phase
    ensures Running(g)
  {
    UpdatePlayer(s.players, i, g.players[i]);
    SameSeatsAlive(s.players, g.players);
    StillDistinct(s.players, g.players);
  }

  lemma StillDistinct(a: seq<Player>, b: seq<Player>)
    requires DistinctPlayers(a) && |b| == |a| && forall i :: 0 <= i < |a| ==> b[i].id == a[i].id
    ensures DistinctPlayers(b)
  {
    forall i: int, j: int {:trigger Differ(b, i, j)} ensures Differ(b, i, j) {
      assert Differ(a, i, j);
    }
  }

  lemma DrawnDefusesIt(s: State, i: nat, card: Card)
    requires Running(s) && i < |s.players| && s.players[i].id == s.current && !Kept(s.players[i].hand, card)
    requires IndexOfCode(s.players[i].hand, Shield) >= 0
    ensures var t := ResolveDrawn(s, i, card);
      Defuses(s, t, s.players[i].hand, card) && t.draw == s.draw
  {
    SeatOf(s.players, i);
    var hand := s.players[i].hand;
    var k := IndexOfCode(hand, Shield);
    FirstOfIs(hand, Shield);
    NewHandAt(s.players, i, Minus(hand, k));
    var t := Defuse(Tick(s, 1), i, card);
    assert RemoveAt(hand, k) == Minus(hand, k);
    assert t.players == s.players[i := s.players[i].(hand := Minus(hand, k))];
    assert FirstOf(hand, Shield, k) && NewHand(s.players, t.players, s.current, Minus(hand, k));
  }

  // -------------------------------------------------------------------- death

  /** Seat `u` is dead and its cards are gone; the turns are as in `s`. */
  ghost predicate Fallen(s: State, e: State, u: nat) {
    && Running(s) && u < |s.players| && s.players[u].alive && e.phase == PlayerTurn && e.pending.None?
    && e.players == s.players[u := s.players[u].(hand := [], alive := false)] && SameTurns(s, e)
  }

  lemma FallenSeats(s: State, e: State, u: nat)
    requires Fallen(s, e, u)
    ensures DistinctPlayers(e.players) && AliveCount(e.players) + 1 == AliveCount(s.players)
    ensures Only(s.players, e.players, s.players[u].id) && Seat(e.players, s.players[u].id) == u
    ensures forall id :: Seat(e.players, id) == Seat(s.players, id)
  {
    SeatOf(s.players, u);
    UpdatePlayer(s.players, u, e.players[u]);
    AliveCountUpdate(s.players, u, e.players[u]);
    StillDistinct(s.players, e.players);
    OthersStay(s.players, u, e.players[u]);
  }

  lemma SurvivorWins(e: State)
    requires AliveCount(e.players) == 1 && DistinctPlayers(e.players) && e.pending.None?
    ensures var t := Crown(e); t.phase == GameOver && t.pending.None? && IsAlive(t.players, t.winner)
  {
    FirstAliveIsAlive(e.players);
  }

  lemma DeathGoesOn(s: State, e: State, u: nat)
    requires Fallen(s, e, u)
    ensures var t := FinishResolution(e, e.current);
      AfterDeath(s, t) && t.players == e.players && t.discard == e.discard && t.draw == e.draw
  {
    FallenSeats(s, e, u);
    FinishShape(e);
    if AliveCount(e.players) == 1 {
      SurvivorWins(e);
    } else if !IsAlive(e.players, e.current) {
      NextUpIs(e.players, e.current);
      var next := NextAlive(e.players, e.current).value;
      AliveBefore(s, e, u, next);
      OwesNothing(s, next);
    }
  }

  lemma AliveBefore(s: State, e: State, u: nat, id: PlayerId)
    requires Fallen(s, e, u) && Seat(e.players, id) == Seat(s.players, id) && IsAlive(e.players, id)
    ensures IsAlive(s.players, id)
  {
  }

  lemma DrawnKillsIt(s: State, i: nat, card: Card)
    requires Running(s) && i < |s.players| && s.players[i].id == s.current && !Kept(s.players[i].hand, card)
    requires IndexOfCode(s.players[i].hand, Shield) < 0
    ensures var t := ResolveDrawn(s, i, card);
      Dies(s, t, s.players[i].hand, card) && t.draw == s.draw
  {
    SeatOf(s.players, i);
    var s1 := Tick(s, 1);
    var e := Eliminate(s1.(discard := s1.discard + [card]), i);
    assert Fallen(s, e, i);
    FallenSeats(s, e, i);
    FinishShape(e);
    DeathGoesOn(s, e, i);
    assert ResolveDrawn(s, i, card) == FinishResolution(e, e.current);
  }

  lemma Draws(s: State, i: nat, card: Card)
    requires Running(s) && i < |s.players| && s.players[i].id == s.current
    ensures var t := ResolveDrawn(s, i, card); DrawDecided(s, t, card) && t.draw == s.draw
  {
    SeatOf(s.players, i);
    var hand := s.players[i].hand;
    HoldsIs(hand, card);
    if Kept(hand, card) {
      DrawnKeepsIt(s, i, card);
    } else if IndexOfCode(hand, Shield) >= 0 {
      DrawnDefusesIt(s, i, card);
    } else {
      DrawnKillsIt(s, i, card);
    }
  }

  // --------------------------------------------------- explosives in the hand

  /** More explosives than the hand can hold: one with the holder, none without. */
  ghost predicate Loose(hand: seq<Card>) {
    Count(hand, Explosive) > if HasCode(hand, ExplosiveHolder) then 1 else 0
  }

  function MinusTwo(hand: seq<Card>, k: nat, l: nat): seq<Card>
    requires k < |hand| && l < |hand| && k != l
  {
    if k < l then Minus(Minus(hand, l), k) else Minus(Minus(hand, k), l)
  }

  /** A shield is discarded and its owner must put the first explosive back into the pile. */
  ghost predicate PaysShield(s: State, a: seq<Player>, u: nat, discard: seq<Card>, t: State)
    requires u < |a|
  {
    var hand := a[u].hand;
    && (exists k: nat, l: nat :: FirstOf(hand, Shield, k) && FirstOf(hand, Explosive, l)
                                 && NewHand(a, t.players, a[u].id, MinusTwo(hand, k, l))
                                 && t.discard == discard + [hand[k]] && MustPlace(t, a[u].id, hand[l], true))
    && t.pending.value.original == s.current && SameTurns(s, t)
  }

  ghost predicate PaysLife(s: State, a: seq<Player>, u: nat, discard: seq<Card>, t: State)
    requires u < |a|
  {
    && Only(a, t.players, a[u].id) && !IsAlive(t.players, a[u].id) && HandOf(t.players, a[u].id) == []
    && t.discard == discard + a[u].hand && AfterDeath(s, t)
  }

  /**
   What follows when the players hold the hands of `a`: nothing if nobody has a loose explosive; otherwise its
   owner pays with a shield or with the life.
   */
  ghost predicate Aftermath(s: State, a: seq<Player>, discard: seq<Card>, t: State) {
    if exists u :: 0 <= u < |a| && Loose(a[u].hand)
    then exists u: nat :: u < |a| && Loose(a[u].hand)
           && if HasCode(a[u].hand, Shield) then PaysShield(s, a, u, discard, t) else PaysLife(s, a, u, discard, t)
    else t.players == a && t.discard == discard && AtTurn(t) && SameTurns(s, t)
  }

  lemma LooseIs(hand: seq<Card>)
    ensures Loose(hand) <==> Unsafe(hand) > 0
    ensures HasCode(hand, Shield) <==> IndexOfCode(hand, Shield) >= 0
    ensures Loose(hand) ==> IndexOfCode(hand, Explosive) >= 0
  {
    CountPositive(hand, ExplosiveHolder);
    CountPositive(hand, Explosive);
    CountPositive(hand, Shield);
  }

  lemma MinusTwice(hand: seq<Card>, k: nat, l: nat)
    requires k < |hand| && l < |hand| && k != l
    ensures RemoveAt(RemoveAt(hand, k), if l > k then l - 1 else l) == MinusTwo(hand, k, l)
  {
  }

  lemma SpendsShield(s: State, u: nat)
    requires Running(s) && u < |s.players| && s.players[u].alive
    requires Unsafe(s.players[u].hand) > 0 && IndexOfCode(s.players[u].hand, Shield) >= 0
    ensures var t := StartPlacement(SpendShield(s, u), s.current);
      PaysShield(s, s.players, u, s.discard, t) && t.draw == s.draw
  {
    var hand := s.players[u].hand;
    LooseIs(hand);
    var k, l := IndexOfCode(hand, Shield), IndexOfCode(hand, Explosive);
    FirstOfIs(hand, Shield);
    FirstOfIs(hand, Explosive);
    ShieldShape(s, u, k, l);
    NewHandAt(s.players, u, MinusTwo(hand, k, l));
  }

  lemma ShieldShape(s: State, u: nat, k: nat, l: nat)
    requires s.queue == [] && u < |s.players| && Unsafe(s.players[u].hand) > 0
    requires k == IndexOfCode(s.players[u].hand, Shield) && l == IndexOfCode(s.players[u].hand, Explosive)
    ensures k != l
    ensures var hand, t := s.players[u].hand, StartPlacement(SpendShield(s, u), s.current);
      && t.players == s.players[u := s.players[u].(hand := MinusTwo(hand, k, l))]
      && t.discard == s.discard + [hand[k]] && t.draw == s.draw
      && MustPlace(t, s.players[u].id, hand[l], true) && t.pending.value.original == s.current && SameTurns(s, t)
  {
    SpentParts(s.players[u].hand, k, l);
    MinusTwice(s.players[u].hand, k, l);
  }

  lemma GivesLife(s: State, u: nat)
    requires Running(s) && u < |s.players| && s.players[u].alive
    ensures var t := FinishResolution(Eliminate(s, u), s.current);
      PaysLife(s, s.players, u, s.discard, t) && t.draw == s.draw
  {
    var e := Eliminate(s, u);
    assert Fallen(s, e, u);
    FallenSeats(s, e, u);
    DeathGoesOn(s, e, u);
  }

  lemma NobodyLoose(s: State, u: nat)
    requires Running(s) && u < |s.players| && OneLoose(s.players, u) && Unsafe(s.players[u].hand) == 0
    ensures Aftermath(s, s.players, s.discard, FinishResolution(s, s.current)) && FinishResolution(s, s.current) == s
  {
    FinishShape(s);
    forall i | 0 <= i < |s.players| ensures !Loose(s.players[i].hand) { LooseIs(s.players[i].hand); }
  }

  /** With at most one loose hand, resolving comes to the aftermath of the hands as they are. */
  lemma Resolves(s: State, ids: seq<PlayerId>, u: nat)
    requires Running(s) && DeadEmpty(s.players) && u < |s.players| && OneLoose(s.players, u)
    requires Unsafe(s.players[u].hand) == 0 || s.players[u].id in ids
    ensures var t := ResolveUnsafe(s, s.current, ids); Aftermath(s, s.players, s.discard, t) && t.draw == s.draw
  {
    var hand := s.players[u].hand;
    ResolveIs(s, ids, u);
    LooseIs(hand);
    if Unsafe(hand) == 0 {
      NobodyLoose(s, u);
    } else {
      LooseIsAlive(s, u);
      if IndexOfCode(hand, Shield) >= 0 { SpendsShield(s, u); } else { GivesLife(s, u); }
      SomebodyPays(s, s.players, u, s.discard, ResolveUnsafe(s, s.current, ids));
    }
  }

  lemma SomebodyPays(s: State, a: seq<Player>, u: nat, discard: seq<Card>, t: State)
    requires u < |a| && Loose(a[u].hand)
    requires if HasCode(a[u].hand, Shield) then PaysShield(s, a, u, discard, t) else PaysLife(s, a, u, discard, t)
    ensures Aftermath(s, a, discard, t)
  {
  }

  /** With one loose hand, resolving deals with that one. */
  lemma ResolveIs(s: State, ids: seq<PlayerId>, u: nat)
    requires Running(s) && DeadEmpty(s.players) && u < |s.players| && OneLoose(s.players, u)
    requires Unsafe(s.players[u].hand) == 0 || s.players[u].id in ids
    ensures var hand := s.players[u].hand;
      ResolveUnsafe(s, s.current, ids)
      == if Unsafe(hand) == 0 then FinishResolution(s, s.current)
         else if IndexOfCode(hand, Shield) >= 0 then StartPlacement(SpendShield(s, u), s.current)
         else FinishResolution(Eliminate(s, u), s.current)
  {
    ProcessLoose(s, ids, u);
    SeatOf(s.players, u);
    if Unsafe(s.players[u].hand) > 0 { LooseIsAlive(s, u); }
  }

  // ------------------------------------------------------------------ thefts

  /** Card `j` of one hand has gone to the end of another; everything else about the players is the same. */
  ghost predicate Transferred(a: seq<Player>, b: seq<Player>, from: PlayerId, to: PlayerId, j: nat) {
    var hand := HandOf(a, from);
    && j < |hand| && |b| == |a|
    && forall i :: 0 <= i < |a| ==>
         && b[i].id == a[i].id && b[i].alive == a[i].alive
         && b[i].hand == if a[i].id == from then Minus(hand, j) else if a[i].id == to then a[i].hand + [hand[j]]
                         else a[i].hand
  }

  /** The card changed hands, and whoever was left with a loose explosive has paid. */
  ghost predicate Taken(s: State, t: State, from: PlayerId, to: PlayerId, j: nat) {
    && t.draw == s.draw
    && exists a :: Transferred(s.players, a, from, to, j) && Aftermath(s, a, s.discard, t)
  }

  lemma MoveTransfers(s: State, i: nat, j: nat, k: nat)
    requires DistinctPlayers(s.players) && i < |s.players| && k < |s.players| && i != k && j < |s.players[i].hand|
    ensures var m := Move(s, i, j, k);
      && Transferred(s.players, m.players, s.players[i].id, s.players[k].id, j)
      && m.draw == s.draw && m.discard == s.discard && SameTurns(s, m)
  {
    SeatOf(s.players, i);
    var hand := s.players[i].hand;
    assert RemoveAt(hand, j) == Minus(hand, j);
    MovedSeats(s.players, Move(s, i, j, k).players, i, j, k);
  }

  lemma MovedSeats(a: seq<Player>, b: seq<Player>, i: nat, j: nat, k: nat)
    requires DistinctPlayers(a) && i < |a| && k < |a| && i != k && j < |a[i].hand|
    requires b == a[i := a[i].(hand := Minus(a[i].hand, j))][k := a[k].(hand := a[k].hand + [a[i].hand[j]])]
    ensures HandOf(a, a[i].id) == a[i].hand && Transferred(a, b, a[i].id, a[k].id, j)
  {
    SeatOf(a, i);
    forall n | 0 <= n < |a| ensures a[n].id == a[i].id ==> n == i
      ensures a[n].id == a[k].id ==> n == k
    {
      SeatOf(a, n);
      SeatOf(a, k);
    }
  }

  lemma Steals(s: State, from: PlayerId, to: PlayerId, j: nat)
    requires Ready(s) && AllSafe(s.players) && IsAlive(s.players, from) && IsAlive(s.players, to) && from != to
    requires j < |HandOf(s.players, from)|
    ensures Taken(s, Steal(s, from, to, j), from, to, j)
  {
    var i, k := Seat(s.players, from), Seat(s.players, to);
    var m := Move(s, i, j, k);
    MoveShape(s, m, i, j, k);
    MoveLoose(s.players, m.players, i, j, k);
    MoveTransfers(s, i, j, k);
    RunningIf(m);
    var u := if s.players[i].hand[j].code == ExplosiveHolder then i else k;
    assert m.players[u].id in [from, to];
    Resolves(m, [from, to], u);
    AftermathOf(s, m, m.players, m.discard, ResolveUnsafe(m, m.current, [from, to]));
  }

  lemma AftermathOf(s: State, m: State, a: seq<Player>, discard: seq<Card>, t: State)
    requires Aftermath(m, a, discard, t) && SameTurns(s, m)
    ensures Aftermath(s, a, discard, t)
  {
    if exists u :: 0 <= u < |a| && Loose(a[u].hand) {
      var u: nat :| u < |a| && Loose(a[u].hand)
        && if HasCode(a[u].hand, Shield) then PaysShield(m, a, u, discard, t) else PaysLife(m, a, u, discard, t);
      if HasCode(a[u].hand, Shield) {
        ShieldOf(s, m, a, u, discard, t);
      } else {
        LifeOf(s, m, a, u, discard, t);
      }
      SomebodyPays(s, a, u, discard, t);
    }
  }

  lemma LifeOf(s: State, m: State, a: seq<Player>, u: nat, discard: seq<Card>, t: State)
    requires u < |a| && PaysLife(m, a, u, discard, t) && SameTurns(s, m)
    ensures PaysLife(s, a, u, discard, t)
  {
  }

  lemma ShieldOf(s: State, m: State, a: seq<Player>, u: nat, discard: seq<Card>, t: State)
    requires u < |a| && PaysShield(m, a, u, discard, t) && SameTurns(s, m)
    ensures PaysShield(s, a, u, discard, t)
  {
  }

  /** Who can be left with a loose explosive: the thief of an explosive, or the victim who lost the holder. */
  lemma WhoPays(a: seq<Player>, b: seq<Player>, from: PlayerId, to: PlayerId, j: nat, u: nat)
    requires Roster(a) && (forall i :: 0 <= i < |a| ==> !Loose(a[i].hand))
    requires Transferred(a, b, from, to, j) && from != to
    requires u < |b| && Loose(b[u].hand)
    ensures var code := HandOf(a, from)[j].code;
      (code == Explosive && b[u].id == to) || (code == ExplosiveHolder && b[u].id == from)
  {
    var i := Seat(a, from);
    var card := a[i].hand[j];
    LooseIs(b[u].hand);
    LooseIs(a[u].hand);
    SeatOf(a, u);
    if a[u].id == from {
      assert Minus(a[u].hand, j) == RemoveAt(a[u].hand, j);
      UnsafeRemove(a[u].hand, j);
    } else if a[u].id == to {
      UnsafeGive(a[u].hand, card);
    }
  }

  /** A harmless card simply changes hands, and the turn goes on. */
  lemma HarmlessTheft(s: State, t: State, from: PlayerId, to: PlayerId, j: nat)
    requires Roster(s.players) && (forall i :: 0 <= i < |s.players| ==> !Loose(s.players[i].hand))
    requires Taken(s, t, from, to, j) && from != to
    requires HandOf(s.players, from)[j].code !in {Explosive, ExplosiveHolder}
    ensures Transferred(s.players, t.players, from, to, j)
    ensures t.draw == s.draw && t.discard == s.discard && AtTurn(t) && SameTurns(s, t)
  {
    var a: seq<Player> :| Transferred(s.players, a, from, to, j) && Aftermath(s, a, s.discard, t);
    if u: nat :| u < |a| && Loose(a[u].hand) {
      WhoPays(s.players, a, from, to, j, u);
    }
  }
}
