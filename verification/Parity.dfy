/** A whole cancel window: what any number of cancels does to the action it covers. */
module Parity {
  import opened Cards
  import opened Shuffling
  import opened Table
  import opened Rules
  import opened Invariant
  import opened Preserve

  datatype Cancelling = Cancelling(player: PlayerId, card: CardId, pendingId: nat)

  ghost predicate CancelsAccepted(s: State, cs: seq<Cancelling>) {
    cs == [] ||
      var front, last := cs[..|cs| - 1], cs[|cs| - 1];
      CancelsAccepted(s, front) && CancelGuard(Cancelled(s, front), last.player, last.card, last.pendingId) == NoError
  }

  /** The state after the cancels; a rejected one would change nothing. */
  function Cancelled(s: State, cs: seq<Cancelling>): State {
    if cs == [] then s
    else
      var t, last := Cancelled(s, cs[..|cs| - 1]), cs[|cs| - 1];
      if CancelGuard(t, last.player, last.card, last.pendingId) == NoError
      then CancelEffect(t, last.player, last.card, last.pendingId) else t
  }

  lemma CancelIsStep(s: State, c: Command, env: Env)
    requires c.PlayCancel? && CancelGuard(s, c.player, c.card, c.pendingId) == NoError
    ensures Step(s, c, env) == Ok(CancelEffect(s, c.player, c.card, c.pendingId))
  {
    assert Guard(s, c) == NoError;
  }

  // ------------------------------------------------------------ alike tables

  /** The hand lost nothing that matters when an explosive turns up. */
  ghost predicate Guarded(a: seq<Card>, b: seq<Card>) {
    && Count(a, Explosive) == Count(b, Explosive)
    && (IndexOfCode(a, ExplosiveHolder) >= 0 <==> IndexOfCode(b, ExplosiveHolder) >= 0)
    && (IndexOfCode(a, Shield) >= 0 <==> IndexOfCode(b, Shield) >= 0)
  }

  /** The hand without its cancel cards. */
  function NonCancels(hand: seq<Card>): seq<Card> {
    if hand == [] then []
    else
      var last := hand[|hand| - 1];
      NonCancels(hand[..|hand| - 1]) + if last.code == Cancel then [] else [last]
  }

  /** The same hands up to cancel cards. */
  ghost predicate SameButCancels(a: seq<Player>, b: seq<Player>) {
    SameSeats(a, b) && forall i :: 0 <= i < |a| ==> NonCancels(a[i].hand) == NonCancels(b[i].hand)
  }

  ghost predicate NoneGrows(a: seq<Player>, b: seq<Player>) {
    |a| == |b| && forall i :: 0 <= i < |a| ==> |b[i].hand| <= |a[i].hand|
  }

  /** The same game as far as turns, debts, the draw pile and the pending action go. */
  ghost predicate Alike(a: State, b: State) {
    && SameSeats(a.players, b.players)
    && a.phase == b.phase && a.draw == b.draw && a.current == b.current && a.debt == b.debt
    && a.pending == b.pending && a.winner == b.winner && a.queue == b.queue && a.nextPending == b.nextPending
  }

  lemma {:induction false} NonCancelsAppend(a: seq<Card>, b: seq<Card>)
    ensures NonCancels(a + b) == NonCancels(a) + NonCancels(b)
  {
    if b == [] {
      assert a + b == a;
    } else {
      assert (a + b)[..|a + b| - 1] == a + b[..|b| - 1];
      NonCancelsAppend(a, b[..|b| - 1]);
    }
  }

  lemma NonCancelsParts(front: seq<Card>, card: Card, back: seq<Card>)
    ensures NonCancels(front + back) == NonCancels(front) + NonCancels(back)
    ensures NonCancels(front + [card] + back)
         == NonCancels(front) + (if card.code == Cancel then [] else [card]) + NonCancels(back)
  {
    NonCancelsAppend(front, back);
    NonCancelsAppend(front, [card]);
    NonCancelsAppend(front + [card], back);
    assert (front + [card])[..|front|] == front;
  }

  lemma NonCancelsAround(hand: seq<Card>, j: nat) returns (front: seq<Card>, back: seq<Card>)
    requires j < |hand|
    ensures front == hand[..j]
    ensures NonCancels(RemoveAt(hand, j)) == NonCancels(front) + NonCancels(back)
    ensures NonCancels(hand)
        == NonCancels(front) + (if hand[j].code == Cancel then [] else [hand[j]]) + NonCancels(back)
  {
    front, back := hand[..j], hand[j + 1..];
    assert hand == front + [hand[j]] + back;
    NonCancelsParts(front, hand[j], back);
  }

  lemma {:induction false} NonCancelsCount(hand: seq<Card>, code: Code)
    requires code != Cancel
    ensures Count(NonCancels(hand), code) == Count(hand, code)
  {
    if hand != [] {
      var front, last := hand[..|hand| - 1], hand[|hand| - 1];
      NonCancelsCount(front, code);
      if last.code != Cancel {
        CountAppend(NonCancels(front), [last], code);
        CountOne(last, code);
      } else {
        assert NonCancels(front) + [] == NonCancels(front);
      }
    }
  }

  lemma SameGuard(a: seq<Card>, b: seq<Card>)
    requires NonCancels(a) == NonCancels(b)
    ensures Guarded(a, b) && Unsafe(a) == Unsafe(b)
  {
    SameCount(a, b, Explosive);
    SameCount(a, b, ExplosiveHolder);
    SameCount(a, b, Shield);
  }

  lemma SameCount(a: seq<Card>, b: seq<Card>, code: Code)
    requires NonCancels(a) == NonCancels(b) && code != Cancel
    ensures Count(a, code) == Count(b, code) && (IndexOfCode(a, code) >= 0 <==> IndexOfCode(b, code) >= 0)
  {
    NonCancelsCount(a, code);
    NonCancelsCount(b, code);
    CountPositive(a, code);
    CountPositive(b, code);
  }

  /** `k` cancel cards went from hands to the discard pile and were counted; nothing else changed. */
  ghost predicate CancelsDone(s: State, t: State, k: nat) {
    && s.pending.Some? && SameButCancels(s.players, t.players) && NoneGrows(s.players, t.players)
    && t == s.(players := t.players, marks := t.marks, discard := t.discard, eventSeq := t.eventSeq,
               pending := Some(s.pending.value.(cancels := s.pending.value.cancels + k)))
    && CancelsOnTop(s.discard, t.discard, k)
  }

  ghost predicate CancelsOnTop(a: seq<Card>, b: seq<Card>, k: nat) {
    |b| == |a| + k && a <= b && forall i :: |a| <= i < |b| ==> b[i].code == Cancel
  }

  lemma CancelCounted(s: State, x: Cancelling)
    requires CancelGuard(s, x.player, x.card, x.pendingId) == NoError
    ensures CancelsDone(s, CancelEffect(s, x.player, x.card, x.pendingId), 1)
  {
    var i, j := CancelShape(s, x.player, x.card, x.pendingId);
    SpentCancel(s, CancelEffect(s, x.player, x.card, x.pendingId), i, j);
  }

  lemma SpentCancel(s: State, t: State, i: nat, j: nat)
    requires s.pending.Some? && i < |s.players| && j < |s.players[i].hand| && s.players[i].hand[j].code == Cancel
    requires t == Tick(SetHand(s, i, RemoveAt(s.players[i].hand, j)).(
      discard := s.discard + [s.players[i].hand[j]],
      pending := Some(s.pending.value.(cancels := s.pending.value.cancels + 1))), 2)
    ensures CancelsDone(s, t, 1)
  {
    var hand := s.players[i].hand;
    var front, back := NonCancelsAround(hand, j);
    OneHandSame(s.players, i, RemoveAt(hand, j));
  }

  lemma OneHandSame(players: seq<Player>, i: nat, hand: seq<Card>)
    requires i < |players| && NonCancels(players[i].hand) == NonCancels(hand)
    ensures SameButCancels(players, players[i := players[i].(hand := hand)])
  {
  }

  lemma CancelsAdd(s: State, t: State, u: State, k: nat, n: nat)
    requires CancelsDone(s, t, k) && CancelsDone(t, u, 1) && n == k + 1
    ensures CancelsDone(s, u, n)
  {
    SameOn(s.players, t.players, u.players);
  }

  lemma SameOn(a: seq<Player>, b: seq<Player>, c: seq<Player>)
    requires SameButCancels(a, b) && SameButCancels(b, c)
    ensures SameButCancels(a, c)
  {
    forall i | 0 <= i < |a| ensures NonCancels(a[i].hand) == NonCancels(c[i].hand) {
      assert NonCancels(a[i].hand) == NonCancels(b[i].hand);
    }
  }

  lemma {:induction false} CancelledShape(s: State, cs: seq<Cancelling>)
    requires s.pending.Some? && CancelsAccepted(s, cs)
    ensures CancelsDone(s, Cancelled(s, cs), |cs|)
  {
    if cs != [] {
      var front, last := cs[..|cs| - 1], cs[|cs| - 1];
      var t := Cancelled(s, front);
      CancelledShape(s, front);
      CancelCounted(t, last);
      CancelsAdd(s, t, CancelEffect(t, last.player, last.card, last.pendingId), |front|, |cs|);
    }
  }

  // ----------------------------------------------- turn order sees only who lives

  lemma {:induction false} NextAliveFromAlike(a: seq<Player>, b: seq<Player>, start: nat, step: nat)
    requires SameSeats(a, b) && start < |a|
    ensures NextAliveFrom(a, start, step) == NextAliveFrom(b, start, step)
    decreases |a| + 1 - step
  {
    if step <= |a| {
      var i := (start + step) % |a|;
      assert a[i].id == b[i].id && a[i].alive == b[i].alive;
      if !a[i].alive { NextAliveFromAlike(a, b, start, step + 1); }
    }
  }

  lemma NextAliveAlike(a: seq<Player>, b: seq<Player>, from: PlayerId)
    requires SameSeats(a, b)
    ensures NextAlive(a, from) == NextAlive(b, from)
  {
    SeatSame(a, b, from);
    if Seat(a, from) >= 0 { NextAliveFromAlike(a, b, Seat(a, from), 1); }
  }

  lemma {:induction false} FirstAliveAlike(a: seq<Player>, b: seq<Player>)
    requires SameSeats(a, b)
    ensures FirstAlive(a) == FirstAlive(b)
  {
    if a != [] && !a[0].alive {
      FirstAliveAlike(a[1..], b[1..]);
    }
  }

  lemma AdvanceAlike(a: State, b: State)
    requires Alike(a, b)
    ensures Alike(Advance(a), Advance(b))
  {
    NextAliveAlike(a.players, b.players, a.current);
  }

  lemma CompleteAlike(a: State, b: State)
    requires Alike(a, b)
    ensures Alike(CompleteTurn(a), CompleteTurn(b))
  {
    var d := Debt(a.debt, a.current);
    AdvanceAlike(a, b);
    AdvanceAlike(a.(debt := a.debt[a.current := d - 1]), b.(debt := b.debt[b.current := d - 1]));
  }

  lemma CrownOrAdvanceAlike(a: State, b: State)
    requires Alike(a, b)
    ensures Alike(if AliveCount(a.players) == 1 then Crown(a) else Advance(a),
                  if AliveCount(b.players) == 1 then Crown(b) else Advance(b))
  {
    SameSeatsAlive(a.players, b.players);
    FirstAliveAlike(a.players, b.players);
    AdvanceAlike(a, b);
  }

  lemma GiveAlike(a: State, b: State, i: nat, card: Card)
    requires Alike(a, b) && i < |a.players|
    ensures Alike(Give(a, i, card), Give(b, i, card))
  {
  }

  lemma ExplodeAlike(a: State, b: State, i: nat, drawn: Card)
    requires Alike(a, b) && i < |a.players|
    ensures Alike(Eliminate(a.(discard := a.discard + [drawn]), i), Eliminate(b.(discard := b.discard + [drawn]), i))
  {
  }

  lemma DefuseAlike(a: State, b: State, i: nat, drawn: Card)
    requires Alike(a, b) && i < |a.players|
    requires IndexOfCode(a.players[i].hand, Shield) >= 0 && IndexOfCode(b.players[i].hand, Shield) >= 0
    ensures Alike(Defuse(a, i, drawn), Defuse(b, i, drawn))
  {
  }

  predicate Kept(hand: seq<Card>, drawn: Card) {
    drawn.code != Explosive || (IndexOfCode(hand, ExplosiveHolder) >= 0 && Count(hand, Explosive) == 0)
  }

  lemma DrawnKeptAlike(a: State, b: State, i: nat, drawn: Card)
    requires Alike(a, b) && i < |a.players| && Kept(a.players[i].hand, drawn) && Kept(b.players[i].hand, drawn)
    ensures Alike(ResolveDrawn(a, i, drawn), ResolveDrawn(b, i, drawn))
  {
    var a1, b1 := Tick(a, 1), Tick(b, 1);
    GiveAlike(a1, b1, i, drawn);
    CompleteAlike(Give(a1, i, drawn), Give(b1, i, drawn));
  }

  lemma DrawnFatalAlike(a: State, b: State, i: nat, drawn: Card)
    requires Alike(a, b) && i < |a.players| && !Kept(a.players[i].hand, drawn) && !Kept(b.players[i].hand, drawn)
    requires IndexOfCode(a.players[i].hand, Shield) < 0 && IndexOfCode(b.players[i].hand, Shield) < 0
    ensures Alike(ResolveDrawn(a, i, drawn), ResolveDrawn(b, i, drawn))
  {
    var a1, b1 := Tick(a, 1), Tick(b, 1);
    ExplodeAlike(a1, b1, i, drawn);
    CrownOrAdvanceAlike(Eliminate(a1.(discard := a1.discard + [drawn]), i),
                        Eliminate(b1.(discard := b1.discard + [drawn]), i));
  }

  /** A drawn card leads to the same turn, debts and pile from hands that differ in cancels only. */
  lemma DrawnAlike(a: State, b: State, i: nat, drawn: Card)
    requires Alike(a, b) && SameButCancels(a.players, b.players) && i < |a.players|
    ensures Alike(ResolveDrawn(a, i, drawn), ResolveDrawn(b, i, drawn))
  {
    SameGuard(a.players[i].hand, b.players[i].hand);
    if Kept(a.players[i].hand, drawn) {
      DrawnKeptAlike(a, b, i, drawn);
    } else if IndexOfCode(a.players[i].hand, Shield) < 0 {
      DrawnFatalAlike(a, b, i, drawn);
    } else {
      DefuseAlike(Tick(a, 1), Tick(b, 1), i, drawn);
    }
  }

  lemma DrawBottomAlike(a: State, b: State, source: PlayerId)
    requires Alike(a, b) && SameButCancels(a.players, b.players)
    ensures DrawBottom(a, source).error == DrawBottom(b, source).error
    ensures Alike(DrawBottom(a, source).state, DrawBottom(b, source).state)
  {
    SeatSame(a.players, b.players, source);
    if a.draw != [] {
      var n := |a.draw| - 1;
      BottomAlike(a.(draw := a.draw[..n]), b.(draw := b.draw[..n]), source, a.draw[n]);
      BottomShape(a, source, n);
      BottomShape(b, source, n);
    }
  }

  function DrawnBy(s: State, source: PlayerId, drawn: Card): Outcome {
    if AliveError(s.players, source) != NoError then Outcome(s, AliveError(s.players, source))
    else Ok(ResolveDrawn(s, Seat(s.players, source), drawn))
  }

  lemma BottomShape(s: State, source: PlayerId, n: nat)
    requires |s.draw| == n + 1
    ensures DrawBottom(s, source) == DrawnBy(s.(draw := s.draw[..n]), source, s.draw[n])
  {
  }

  lemma BottomAlike(a: State, b: State, source: PlayerId, drawn: Card)
    requires Alike(a, b) && SameButCancels(a.players, b.players) && Seat(a.players, source) == Seat(b.players, source)
    ensures DrawnBy(a, source, drawn).error == DrawnBy(b, source, drawn).error
    ensures Alike(DrawnBy(a, source, drawn).state, DrawnBy(b, source, drawn).state)
  {
    if AliveError(a.players, source) == NoError { DrawnAlike(a, b, Seat(a.players, source), drawn); }
  }

  lemma SkipAllAlike(a: State, b: State, source: PlayerId)
    requires Alike(a, b)
    ensures Alike(Advance(a.(debt := a.debt[source := 0])), Advance(b.(debt := b.debt[source := 0])))
  {
    AdvanceAlike(a.(debt := a.debt[source := 0]), b.(debt := b.debt[source := 0]));
  }

  lemma ForceAlike(a: State, b: State, source: PlayerId)
    requires Alike(a, b)
    ensures ForceTurns(a, source).error == ForceTurns(b, source).error
    ensures Alike(ForceTurns(a, source).state, ForceTurns(b, source).state)
  {
    NextAliveAlike(a.players, b.players, source);
    SeatSame(a.players, b.players, source);
  }

  lemma TurnCardAlike(a: State, b: State, code: Code, source: PlayerId, target: PlayerId, rnd: Random)
    requires Alike(a, b) && code in {SkipTurn, SkipAllTurns, ForceExtraTurns, TargetExtraTurns}
    ensures ResolveCard(a, code, source, target, rnd).error == ResolveCard(b, code, source, target, rnd).error
    ensures Alike(ResolveCard(a, code, source, target, rnd).state, ResolveCard(b, code, source, target, rnd).state)
  {
    if code == SkipTurn {
      CompleteAlike(a, b);
    } else if code == SkipAllTurns {
      SkipAllAlike(a, b, source);
    } else if code == ForceExtraTurns {
      ForceAlike(a, b, source);
    }
  }

  lemma AskCardAlike(a: State, b: State, code: Code, source: PlayerId, target: PlayerId, rnd: Random)
    requires Alike(a, b) && code in {RequestCard, RevealHeldCard}
    ensures ResolveCard(a, code, source, target, rnd).error == ResolveCard(b, code, source, target, rnd).error
    ensures Alike(ResolveCard(a, code, source, target, rnd).state, ResolveCard(b, code, source, target, rnd).state)
  {
  }

  lemma OfferReorderAlike(a: State, b: State, source: PlayerId, limit: nat)
    requires Alike(a, b)
    ensures Alike(OfferReorder(a, source, limit), OfferReorder(b, source, limit))
  {
  }

  lemma PileCardAlike(a: State, b: State, code: Code, source: PlayerId, target: PlayerId, rnd: Random)
    requires Alike(a, b)
    requires code in {ShuffleDeck, PeekDeck, PeekDeck5, SwapTopBottom, ReorderTop3, ReorderTop5}
    ensures ResolveCard(a, code, source, target, rnd).error == ResolveCard(b, code, source, target, rnd).error
    ensures Alike(ResolveCard(a, code, source, target, rnd).state, ResolveCard(b, code, source, target, rnd).state)
  {
    if code == ShuffleDeck {
      ShuffleShape(a, source, target, rnd);
      ShuffleShape(b, source, target, rnd);
    } else if code == SwapTopBottom {
      SwapShape(a, source, target, rnd);
      SwapShape(b, source, target, rnd);
    } else if code in {PeekDeck, PeekDeck5} {
      PeekShape(a, code, source, target, rnd);
      PeekShape(b, code, source, target, rnd);
    } else {
      OfferCardShape(a, code, source, target, rnd);
      OfferCardShape(b, code, source, target, rnd);
      OfferReorderAlike(a, b, source, if code == ReorderTop3 then 3 else 5);
    }
  }

  lemma OfferCardShape(s: State, code: Code, source: PlayerId, target: PlayerId, rnd: Random)
    requires code in {ReorderTop3, ReorderTop5}
    ensures ResolveCard(s, code, source, target, rnd)
         == Ok(OfferReorder(s, source, if code == ReorderTop3 then 3 else 5))
  {
  }

  /** Every action card but the recycle, which looks at who still has cards, does the same. */
  lemma CardAlike(a: State, b: State, code: Code, source: PlayerId, target: PlayerId, rnd: Random)
    requires Alike(a, b) && SameButCancels(a.players, b.players) && IsSupportedAction(code) && code != CollectiveRecycle
    ensures ResolveCard(a, code, source, target, rnd).error == ResolveCard(b, code, source, target, rnd).error
    ensures Alike(ResolveCard(a, code, source, target, rnd).state, ResolveCard(b, code, source, target, rnd).state)
  {
    if code in {SkipTurn, SkipAllTurns, ForceExtraTurns, TargetExtraTurns} {
      TurnCardAlike(a, b, code, source, target, rnd);
    } else if code == DrawFromBottom {
      DrawBottomAlike(a, b, source);
    } else if code in {RequestCard, RevealHeldCard} {
      AskCardAlike(a, b, code, source, target, rnd);
    } else {
      PileCardAlike(a, b, code, source, target, rnd);
    }
  }

  // -------------------------------------------------- requests by three cards

  lemma {:induction false} NonCancelsFrom(hand: seq<Card>, k: nat)
    requires k < |NonCancels(hand)|
    ensures NonCancels(hand)[k] in hand
  {
    var front := hand[..|hand| - 1];
    if k < |NonCancels(front)| {
      NonCancelsFrom(front, k);
    }
  }

  /** The first card of a kind, other than a cancel, is the first one among the non-cancels. */
  lemma FirstNonCancel(hand: seq<Card>, code: Code)
    requires code != Cancel && IndexOfCode(hand, code) >= 0
    ensures var n, j := NonCancels(hand), IndexOfCode(hand, code);
      var k := IndexOfCode(n, code);
      && k >= 0 && n[k] == hand[j] && NonCancels(RemoveAt(hand, j)) == RemoveAt(n, k)
  {
    var j := IndexOfCode(hand, code);
    var front, back := NonCancelsAround(hand, j);
    var nf, nb := NonCancels(front), NonCancels(back);
    forall k | 0 <= k < |nf| ensures nf[k].code != code {
      NonCancelsFrom(front, k);
    }
    IndexBetween(nf, hand[j], nb, code);
  }

  lemma IndexBetween(front: seq<Card>, card: Card, back: seq<Card>, code: Code)
    requires card.code == code && forall k :: 0 <= k < |front| ==> front[k].code != code
    ensures IndexOfCode(front + [card] + back, code) == |front|
    ensures RemoveAt(front + [card] + back, |front|) == front + back
  {
    assert (front + [card] + back)[|front|] == card;
  }

  lemma SameFirst(a: seq<Card>, b: seq<Card>, code: Code)
    requires NonCancels(a) == NonCancels(b) && code != Cancel && IndexOfCode(a, code) >= 0
    ensures var i, j := IndexOfCode(a, code), IndexOfCode(b, code);
      j >= 0 && a[i] == b[j] && NonCancels(RemoveAt(a, i)) == NonCancels(RemoveAt(b, j))
  {
    SameCount(a, b, code);
    FirstNonCancel(a, code);
    FirstNonCancel(b, code);
  }

  /** Spending a shield takes the first shield and then the first explosive. */
  lemma SpentIsFirsts(hand: seq<Card>)
    requires IndexOfCode(hand, Shield) >= 0 && Unsafe(hand) > 0
    ensures var mid := RemoveAt(hand, IndexOfCode(hand, Shield));
      var j := IndexOfCode(mid, Explosive);
      j >= 0 && Spent(hand) == RemoveAt(mid, j) && mid[j] == FirstExplosive(hand)
  {
    CountPositive(hand, Explosive);
    SpentParts(hand, IndexOfCode(hand, Shield), IndexOfCode(hand, Explosive));
    FirstMoves(hand, IndexOfCode(hand, Shield), IndexOfCode(hand, Explosive), Explosive);
  }

  lemma SpentParts(hand: seq<Card>, shield: nat, bomb: nat)
    requires shield == IndexOfCode(hand, Shield) && bomb == IndexOfCode(hand, Explosive) && Unsafe(hand) > 0
    ensures shield != bomb && FirstExplosive(hand) == hand[bomb]
    ensures Spent(hand) == RemoveAt(RemoveAt(hand, shield), if bomb > shield then bomb - 1 else bomb)
  {
  }

  /** Taking another card out of the hand moves the first card of a kind by one or not at all. */
  lemma FirstMoves(hand: seq<Card>, i: nat, j: nat, code: Code)
    requires i < |hand| && j == IndexOfCode(hand, code) && i != j
    ensures var k := if j > i then j - 1 else j;
      IndexOfCode(RemoveAt(hand, i), code) == k && RemoveAt(hand, i)[k] == hand[j]
  {
    var k, rest := if j > i then j - 1 else j, RemoveAt(hand, i);
    assert rest[k] == hand[j];
    forall n | 0 <= n < k ensures rest[n].code != code {
      assert rest[n] == hand[if n < i then n else n + 1];
    }
  }

  lemma SameSpent(a: seq<Card>, b: seq<Card>)
    requires NonCancels(a) == NonCancels(b) && IndexOfCode(a, Shield) >= 0 && Unsafe(a) > 0
    ensures IndexOfCode(b, Shield) >= 0 && Unsafe(b) > 0
    ensures NonCancels(Spent(a)) == NonCancels(Spent(b)) && FirstExplosive(a) == FirstExplosive(b)
  {
    SameGuard(a, b);
    SameFirst(a, b, Shield);
    SpentIsFirsts(a);
    SpentIsFirsts(b);
    SameFirst(RemoveAt(a, IndexOfCode(a, Shield)), RemoveAt(b, IndexOfCode(b, Shield)), Explosive);
  }

  /** Alike, and the hands are the same up to cancels. */
  ghost predicate Twins(a: State, b: State) {
    Alike(a, b) && SameButCancels(a.players, b.players)
  }

  lemma HandsAlike(a: State, b: State, i: nat, x: seq<Card>, y: seq<Card>)
    requires Twins(a, b) && i < |a.players| && NonCancels(x) == NonCancels(y)
    ensures Twins(SetHand(a, i, x), SetHand(b, i, y))
  {
  }

  lemma ProcessAlike(a: State, b: State, id: PlayerId)
    requires Twins(a, b)
    ensures Twins(Process(a, id), Process(b, id))
  {
    SeatSame(a.players, b.players, id);
    var i := Seat(a.players, id);
    if i < 0 || !a.players[i].alive {
      assert Process(a, id) == a && Process(b, id) == b;
    } else {
      SameGuard(a.players[i].hand, b.players[i].hand);
      SeatedAlike(a, b, id, i);
    }
  }

  lemma SeatedAlike(a: State, b: State, id: PlayerId, i: nat)
    requires Twins(a, b) && Seat(a.players, id) == Seat(b.players, id) == i && a.players[i].alive && b.players[i].alive
    requires Guarded(a.players[i].hand, b.players[i].hand) && Unsafe(a.players[i].hand) == Unsafe(b.players[i].hand)
    ensures Twins(Process(a, id), Process(b, id))
  {
    if Unsafe(a.players[i].hand) == 0 {
      assert Process(a, id) == a && Process(b, id) == b;
    } else if IndexOfCode(a.players[i].hand, Shield) >= 0 {
      ShieldAlike(a, b, i);
      assert Process(a, id) == SpendShield(a, i) && Process(b, id) == SpendShield(b, i);
    } else {
      DeathAlike(a, b, i);
      assert Process(a, id) == Eliminate(a, i) && Process(b, id) == Eliminate(b, i);
    }
  }

  lemma ShieldAlike(a: State, b: State, i: nat)
    requires Twins(a, b) && i < |a.players|
    requires IndexOfCode(a.players[i].hand, Shield) >= 0 && Unsafe(a.players[i].hand) > 0
    requires IndexOfCode(b.players[i].hand, Shield) >= 0 && Unsafe(b.players[i].hand) > 0
    ensures Twins(SpendShield(a, i), SpendShield(b, i))
  {
    var x, y := a.players[i].hand, b.players[i].hand;
    SameSpent(x, y);
    HandsAlike(a, b, i, Spent(x), Spent(y));
  }

  lemma DeathAlike(a: State, b: State, i: nat)
    requires Twins(a, b) && i < |a.players|
    ensures Twins(Eliminate(a, i), Eliminate(b, i))
  {
    HandsAlike(a, b, i, [], []);
  }

  lemma {:induction false} ProcessAllAlike(a: State, b: State, ids: seq<PlayerId>, seen: set<PlayerId>)
    requires Twins(a, b)
    ensures Twins(ProcessAll(a, ids, seen), ProcessAll(b, ids, seen))
    decreases |ids|
  {
    if ids != [] {
      ProcessAlike(a, b, ids[0]);
      if ids[0] in seen {
        ProcessAllAlike(a, b, ids[1..], seen);
      } else {
        ProcessAllAlike(Process(a, ids[0]), Process(b, ids[0]), ids[1..], seen + {ids[0]});
      }
    }
  }

  lemma FinishAlike(a: State, b: State, original: PlayerId)
    requires Alike(a, b)
    ensures Alike(FinishResolution(a, original), FinishResolution(b, original))
  {
    SameSeatsAlive(a.players, b.players);
    FirstAliveAlike(a.players, b.players);
    SeatSame(a.players, b.players, original);
    AdvanceAlike(a.(current := original), b.(current := original));
  }

  lemma ResolveAlike(a: State, b: State, original: PlayerId, ids: seq<PlayerId>)
    requires Twins(a, b)
    ensures Alike(ResolveUnsafe(a, original, ids), ResolveUnsafe(b, original, ids))
  {
    ProcessAllAlike(a, b, ids, {});
    FinishAlike(ProcessAll(a, ids, {}), ProcessAll(b, ids, {}), original);
  }

  lemma TakenAlike(a: State, b: State, i: nat, x: nat, y: nat, k: nat)
    requires Twins(a, b) && i < |a.players| && k < |a.players| && x < |a.players[i].hand| && y < |b.players[i].hand|
    requires a.players[i].hand[x] == b.players[i].hand[y]
    requires NonCancels(RemoveAt(a.players[i].hand, x)) == NonCancels(RemoveAt(b.players[i].hand, y))
    ensures Twins(Move(a, i, x, k), Move(b, i, y, k))
  {
    var card := a.players[i].hand[x];
    var a1, b1 := SetHand(a, i, RemoveAt(a.players[i].hand, x)), SetHand(b, i, RemoveAt(b.players[i].hand, y));
    HandsAlike(a, b, i, RemoveAt(a.players[i].hand, x), RemoveAt(b.players[i].hand, y));
    NonCancelsAppend(a1.players[k].hand, [card]);
    NonCancelsAppend(b1.players[k].hand, [card]);
    GivenAlike(a1, b1, k, card);
  }

  lemma GivenAlike(a: State, b: State, k: nat, card: Card)
    requires Twins(a, b) && k < |a.players|
    requires NonCancels(a.players[k].hand + [card]) == NonCancels(b.players[k].hand + [card])
    ensures Twins(Give(a, k, card), Give(b, k, card))
  {
  }

  /** Three cards that ask for any kind but a cancel take the same card to the same effect. */
  lemma TripleAlike(a: State, b: State, p: Pending, rnd: Random)
    requires Twins(a, b) && p.combo == Triple && p.requested != Some(Cancel)
    ensures ResolveCombo(a, p, rnd).error == ResolveCombo(b, p, rnd).error
    ensures Alike(ResolveCombo(a, p, rnd).state, ResolveCombo(b, p, rnd).state)
  {
    SeatSame(a.players, b.players, p.target);
    SeatSame(a.players, b.players, p.source);
    if p.requested.Some? && StealError(a.players, p.target, p.source) == NoError {
      var i, k := Seat(a.players, p.target), Seat(a.players, p.source);
      var x, y := a.players[i].hand, b.players[i].hand;
      SameCount(x, y, p.requested.value);
      if IndexOfCode(x, p.requested.value) >= 0 {
        SameFirst(x, y, p.requested.value);
        TakenAlike(a, b, i, IndexOfCode(x, p.requested.value), IndexOfCode(y, p.requested.value), k);
        ResolveAlike(Move(a, i, IndexOfCode(x, p.requested.value), k), Move(b, i, IndexOfCode(y, p.requested.value), k),
                     a.current, [p.target, p.source]);
      }
    }
  }

  // ----------------------------------------------------------------- theorems

  /** The window just closed. */
  function Closed(s: State): State {
    s.(pending := None, phase := PlayerTurn, eventSeq := s.eventSeq + 1)
  }

  lemma ResolvesDropped(s: State, rnd: Random)
    requires ResolveGuard(s) == NoError && s.pending.value.cancels % 2 == 1
    ensures ResolveEffect(s, rnd) == Ok(Closed(s))
  {
  }

  lemma ResolvesCard(s: State, rnd: Random)
    requires ResolveGuard(s) == NoError && s.pending.value.cancels % 2 == 0 && s.pending.value.kind == PlayedCard
    ensures var p := s.pending.value;
      IsSupportedAction(p.cards[0].code)
          && ResolveEffect(s, rnd) == ResolveCard(Closed(s), p.cards[0].code, p.source, p.target, rnd)
  {
    assert Tick(s.(pending := None, phase := PlayerTurn), 1) == Closed(s);
  }

  /** The cancels leave the window open over the same action. */
  lemma StillOpen(s: State, cs: seq<Cancelling>)
    requires ResolveGuard(s) == NoError && CancelsAccepted(s, cs)
    ensures var t := Cancelled(s, cs);
      && ResolveGuard(t) == NoError
      && t.pending == Some(s.pending.value.(cancels := s.pending.value.cancels + |cs|))
      && t.current == s.current && t.debt == s.debt && t.draw == s.draw && |t.discard| == |s.discard| + |cs|
  {
    CancelledShape(s, cs);
  }

  /**
   An odd number of cancels drops the action: the window closes and the table is left exactly as
   the cancels made it, their cards in the discard pile.
   */
  lemma OddCancelsDrop(s: State, cs: seq<Cancelling>, rnd: Random)
    requires ResolveGuard(s) == NoError && s.pending.value.cancels == 0 && CancelsAccepted(s, cs)
    requires |cs| % 2 == 1
    ensures var t := Cancelled(s, cs);
      && ResolveGuard(t) == NoError && ResolveEffect(t, rnd) == Ok(Closed(t))
      && t.current == s.current && t.debt == s.debt && t.draw == s.draw && |t.discard| == |s.discard| + |cs|
  {
    StillOpen(s, cs);
    ResolvesDropped(Cancelled(s, cs), rnd);
  }

  /**
   An even number of cancels lets the action through, and an action card other than the recycle
   then leaves phase, pending action, current player, debts, draw pile and survivors exactly as if
   nobody had cancelled.
   */
  lemma EvenCancelsVanish(s: State, cs: seq<Cancelling>, rnd: Random)
    requires ResolveGuard(s) == NoError && s.pending.value.cancels == 0 && CancelsAccepted(s, cs)
    requires |cs| % 2 == 0
    requires s.pending.value.kind == PlayedCard && s.pending.value.cards[0].code != CollectiveRecycle
    ensures var t := Cancelled(s, cs);
      && ResolveGuard(t) == NoError
      && ResolveEffect(t, rnd).error == ResolveEffect(s, rnd).error
      && Alike(ResolveEffect(t, rnd).state, ResolveEffect(s, rnd).state)
  {
    StillOpen(s, cs);
    var t, p := Cancelled(s, cs), s.pending.value;
    ResolvesCard(s, rnd);
    ResolvesCard(t, rnd);
    ClosedAlike(s, cs);
    CardAlike(Closed(t), Closed(s), p.cards[0].code, p.source, p.target, rnd);
  }

  lemma ResolvesCombo(s: State, rnd: Random)
    requires ResolveGuard(s) == NoError && s.pending.value.cancels % 2 == 0 && s.pending.value.kind == CardCombo
    ensures ResolveEffect(s, rnd) == ResolveCombo(Closed(s), s.pending.value, rnd)
  {
    assert Tick(s.(pending := None, phase := PlayerTurn), 1) == Closed(s);
  }

  /** So does a combo, five different cards or three that ask for anything but a cancel. */
  lemma EvenCancelsKeepCombos(s: State, cs: seq<Cancelling>, rnd: Random)
    requires ResolveGuard(s) == NoError && s.pending.value.cancels == 0 && CancelsAccepted(s, cs)
    requires |cs| % 2 == 0
    requires s.pending.value.kind == CardCombo
    requires s.pending.value.combo != Pair
        && (s.pending.value.combo == Triple ==> s.pending.value.requested != Some(Cancel))
    ensures var t := Cancelled(s, cs);
      && ResolveGuard(t) == NoError
      && ResolveEffect(t, rnd).error == ResolveEffect(s, rnd).error
      && Alike(ResolveEffect(t, rnd).state, ResolveEffect(s, rnd).state)
  {
    StillOpen(s, cs);
    var t := Cancelled(s, cs);
    ResolvesCombo(s, rnd);
    ResolvesCombo(t, rnd);
    ClosedAlike(s, cs);
    CountDoesNotMatter(Closed(t), s.pending.value, t.pending.value, rnd);
    if s.pending.value.combo == Triple {
      TripleAlike(Closed(t), Closed(s), s.pending.value, rnd);
    } else {
      RecoveryAlike(Closed(t), Closed(s), s.pending.value, rnd);
    }
  }

  lemma RecoveryAlike(a: State, b: State, p: Pending, rnd: Random)
    requires Alike(a, b) && p.combo !in {Pair, Triple}
    ensures ResolveCombo(a, p, rnd).error == ResolveCombo(b, p, rnd).error
    ensures Alike(ResolveCombo(a, p, rnd).state, ResolveCombo(b, p, rnd).state)
  {
  }

  /** What a combo does depends on the pending action, but not on how often it was cancelled. */
  lemma CountDoesNotMatter(s: State, p: Pending, q: Pending, rnd: Random)
    requires q == p.(cancels := q.cancels)
    ensures ResolveCombo(s, q, rnd) == ResolveCombo(s, p, rnd)
  {
  }

  /**
   A recycle asks those who hold cards, so it is as if nobody had cancelled exactly if nobody spent the last
   card on a cancel.
   */
  lemma EvenCancelsKeepRecycle(s: State, cs: seq<Cancelling>, rnd: Random)
    requires ResolveGuard(s) == NoError && s.pending.value.cancels == 0 && CancelsAccepted(s, cs)
    requires |cs| % 2 == 0
    requires s.pending.value.kind == PlayedCard && s.pending.value.cards[0].code == CollectiveRecycle
    ensures var t := Cancelled(s, cs);
      && ResolveGuard(t) == NoError
      && ResolveEffect(t, rnd).error == ResolveEffect(s, rnd).error == NoError
      && (Alike(ResolveEffect(t, rnd).state, ResolveEffect(s, rnd).state)
          <==> NobodyEmptied(s.players, t.players))
  {
    StillOpen(s, cs);
    var t, p := Cancelled(s, cs), s.pending.value;
    ResolvesCard(s, rnd);
    ResolvesCard(t, rnd);
    ClosedAlike(s, cs);
    CancelledShape(s, cs);
    OffersAlike(Closed(t), Closed(s), p.source, rnd);
    StillEligible(s.players, t.players);
  }

  ghost predicate NobodyEmptied(a: seq<Player>, b: seq<Player>) {
    forall i :: 0 <= i < |a| && i < |b| && a[i].alive && a[i].hand != [] ==> b[i].hand != []
  }

  /** Hands that only shrink: the same players are asked exactly if no living player's hand was emptied. */
  lemma {:induction false} StillEligible(a: seq<Player>, b: seq<Player>)
    requires SameSeats(a, b) && NoneGrows(a, b)
    ensures |Eligible(b)| <= |Eligible(a)|
    ensures Eligible(a) == Eligible(b) <==> NobodyEmptied(a, b)
  {
    if a != [] {
      var fa, fb, la, lb := a[..|a| - 1], b[..|b| - 1], a[|a| - 1], b[|b| - 1];
      StillEligible(fa, fb);
      if Eligible(a) == Eligible(b) {
        assert |Eligible(fa)| == |Eligible(fb)|;
        assert Eligible(fa) == Eligible(a)[..|Eligible(fa)|] && Eligible(fb) == Eligible(b)[..|Eligible(fa)|];
      }
    }
  }

  lemma OffersAlike(a: State, b: State, source: PlayerId, rnd: Random)
    requires Alike(a, b) && a.phase == PlayerTurn && a.pending.None?
    ensures Alike(OfferRecycle(a, source, rnd), OfferRecycle(b, source, rnd))
        <==> Eligible(a.players) == Eligible(b.players)
  {
  }

  lemma ClosedAlike(s: State, cs: seq<Cancelling>)
    requires s.pending.Some? && CancelsAccepted(s, cs)
    ensures var t := Cancelled(s, cs);
        Alike(Closed(t), Closed(s)) && SameButCancels(Closed(t).players, Closed(s).players)
  {
    CancelledShape(s, cs);
  }
}
