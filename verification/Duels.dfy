/** Games between two players, told by the kinds of cards they hold. */
module Duels {
  import opened Cards
  import opened Shuffling
  import opened Table
  import opened Rules
  import opened Invariant
  import opened Preserve
  import opened Runs
  import opened Stalemate
  import opened Parity
  import opened Arranged

  // ------------------------------------------------------------- two players

  /** Players 1 and 2 in their seats, both alive, holding cards of these kinds; one turn to go for seat `turn`. */
  ghost predicate Facing(s: State, turn: nat, hands: seq<seq<Code>>) {
    && turn < 2 && |s.players| == 2 && |hands| == 2
    && Sits(s.players[0], 1, hands[0]) && Sits(s.players[1], 2, hands[1])
    && s.current == turn + 1 && Debt(s.debt, s.current) == 1
  }

  ghost predicate Sits(player: Player, id: PlayerId, codes: seq<Code>) {
    player.id == id && player.alive && CodesOf(player.hand) == codes
  }

  /** A property of sound states that every command keeps. What it stands for below is being part of a game. */
  ghost predicate Trail(game: State -> bool) {
    && (forall s {:trigger Inv(s)} :: game(s) ==> Inv(s))
    && (forall s: State, c: Command, env: Env {:trigger Step(s, c, env)} :: game(s) ==> game(Step(s, c, env).state))
  }

  /** It is the turn of seat `turn`. */
  ghost predicate Duel(game: State -> bool, s: State, turn: nat, hands: seq<seq<Code>>) {
    game(s) && Facing(s, turn, hands) && s.phase == PlayerTurn
  }

  /** A cancel window of seat `turn` is open over `p`. */
  ghost predicate Covered(game: State -> bool, s: State, turn: nat, hands: seq<seq<Code>>, p: Pending) {
    && game(s) && Facing(s, turn, hands) && s.phase == CancelWindow
    && s.pending == Some(p) && p.source == s.current && IsCancelable(p)
  }

  lemma Sound(game: State -> bool, s: State, i: nat)
    requires Trail(game) && game(s) && i < |s.players|
    ensures Fair(multiset(s.players[i].hand))
  {
    assert Inv(s);
    HandIsFair(s, i);
  }

  lemma SeatOfTwo(s: State, turn: nat, hands: seq<seq<Code>>, i: nat)
    requires Facing(s, turn, hands) && i < 2
    ensures Seat(s.players, i + 1) == i && AliveError(s.players, i + 1) == NoError && IsAlive(s.players, i + 1)
    ensures HandOf(s.players, i + 1) == s.players[i].hand && CodesOf(s.players[i].hand) == hands[i]
  {
    assert s.players[i].id == i + 1;
  }

  lemma RemoveBetween(pre: seq<Code>, code: Code, post: seq<Code>)
    ensures RemoveAt(pre + [code] + post, |pre|) == pre + post && (pre + [code] + post)[|pre|] == code
  {
  }

  lemma CardFound(hand: seq<Card>, j: nat)
    requires Fair(multiset(hand)) && j < |hand|
    ensures IndexOfId(hand, hand[j].id) == j && hand[j].id != 0
  {
    HandPositions(hand);
    assert hand[j] in multiset(hand);
    assert FairPair(multiset(hand), hand[j], hand[j]);
  }

  /** The card between the two parts of a hand: where it is, and what is left without it. */
  lemma CardBetween(hand: seq<Card>, pre: seq<Code>, code: Code, post: seq<Code>) returns (j: nat)
    requires Fair(multiset(hand)) && CodesOf(hand) == pre + [code] + post
    ensures j < |hand| && hand[j].code == code && IndexOfId(hand, hand[j].id) == j && hand[j].id != 0
    ensures CodesOf(RemoveAt(hand, j)) == pre + post
  {
    j := |pre|;
    RemoveBetween(pre, code, post);
    assert CodesOf(hand)[j] == code;
    CodesRemoveAt(hand, j);
    CardFound(hand, j);
  }

  // ------------------------------------------------------------ playing a card

  /** A new window leaves everybody in place, with the cards gone from the hand. */
  lemma WindowFacing(s: State, t: State, turn: nat, hands: seq<seq<Code>>, rest: seq<Card>, p: Pending)
    requires Facing(s, turn, hands) && t == OpenWindow(s, turn, rest, p)
    ensures Facing(t, turn, hands[turn := CodesOf(rest)]) && t.draw == s.draw
    ensures t.phase == CancelWindow && t.pending == Some(p) && t.current == s.current
  {
  }

  lemma PlayIsStep(s: State, c: Command, env: Env)
    requires c.PlayCard? && PlayGuard(s, c.player, c.cards, c.target) == NoError
    ensures Step(s, c, env) == Ok(PlayEffect(s, c.player, c.cards, c.target, env.now))
  {
    assert Guard(s, c) == NoError;
  }

  lemma PlayAllowed(s: State, turn: nat, hands: seq<seq<Code>>, j: nat, target: PlayerId)
    requires Facing(s, turn, hands) && s.phase == PlayerTurn
    requires j < |s.players[turn].hand| && IndexOfId(s.players[turn].hand, s.players[turn].hand[j].id) == j
    requires PlayCodeGuard(s, s.current, s.players[turn].hand[j].code, target) == NoError
    ensures PlayGuard(s, s.current, [s.players[turn].hand[j].id], target) == NoError
  {
    SeatOfTwo(s, turn, hands, turn);
  }

  ghost predicate Plays(p: Pending, code: Code, target: PlayerId) {
    p.kind == PlayedCard && |p.cards| == 1 && p.cards[0].code == code && p.target == target && p.cancels == 0
  }

  lemma PlayOn(game: State -> bool, s: State, c: Command, t: State)
    requires Trail(game) && game(s) && c.PlayCard? && PlayGuard(s, c.player, c.cards, c.target) == NoError
    requires t == PlayEffect(s, c.player, c.cards, c.target, 0)
    ensures game(t)
  {
    PlayIsStep(s, c, Env(0, k => 0));
  }

  /** The current player plays a card from between the others. */
  lemma PlaysCard(game: State -> bool, s: State, turn: nat, hands: seq<seq<Code>>, pre: seq<Code>, code: Code,
        post: seq<Code>, target: PlayerId)
    returns (t: State, p: Pending)
    requires Trail(game) && Duel(game, s, turn, hands) && hands[turn] == pre + [code] + post
    requires PlayCodeGuard(s, s.current, code, target) == NoError
    ensures Covered(game, t, turn, hands[turn := pre + post], p) && Plays(p, code, target) && t.draw == s.draw
  {
    var hand := s.players[turn].hand;
    Sound(game, s, turn);
    var j := CardBetween(hand, pre, code, post);
    PlayAllowed(s, turn, hands, j, target);
    SeatOfTwo(s, turn, hands, turn);
    PlayAccepted(s, s.current, [hand[j].id], target, 0);
    p := PlayPending(s, s.current, hand[j], target, 0);
    t := OpenWindow(s, turn, RemoveAt(hand, j), p);
    PlayOn(game, s, PlayCard(s.current, [hand[j].id], target), t);
    WindowFacing(s, t, turn, hands, RemoveAt(hand, j), p);
  }

  // ---------------------------------------------------------------- cancelling

  lemma CancelAllowed(s: State, turn: nat, hands: seq<seq<Code>>, p: Pending, who: nat, j: nat)
    requires Facing(s, turn, hands) && s.phase == CancelWindow && s.pending == Some(p) && IsCancelable(p) && who < 2
    requires j < |s.players[who].hand| && IndexOfId(s.players[who].hand, s.players[who].hand[j].id) == j
    requires s.players[who].hand[j].code == Cancel && s.players[who].hand[j].id != 0
    ensures CancelGuard(s, who + 1, s.players[who].hand[j].id, 0) == NoError
    ensures CancelEffect(s, who + 1, s.players[who].hand[j].id, 0) == CancelledBy(s, p, who, j)
  {
    SeatOfTwo(s, turn, hands, who);
  }

  function CancelledBy(s: State, p: Pending, i: nat, j: nat): State
    requires i < |s.players| && j < |s.players[i].hand|
  {
    var hand := s.players[i].hand;
    Tick(SetHand(s, i, RemoveAt(hand, j)).(
         discard := s.discard + [hand[j]], pending := Some(p.(cancels := p.cancels + 1))), 2)
  }

  lemma CancelFacing(s: State, t: State, turn: nat, hands: seq<seq<Code>>, p: Pending, who: nat, j: nat)
    requires Facing(s, turn, hands) && who < 2 && j < |s.players[who].hand| && t == CancelledBy(s, p, who, j)
    ensures Facing(t, turn, hands[who := CodesOf(RemoveAt(s.players[who].hand, j))])
    ensures t.draw == s.draw && t.phase == s.phase && t.pending == Some(p.(cancels := p.cancels + 1))
        && t.current == s.current
  {
  }

  lemma CancelOn(game: State -> bool, s: State, c: Command, t: State)
    requires Trail(game) && game(s) && c.PlayCancel? && CancelGuard(s, c.player, c.card, c.pendingId) == NoError
    requires t == CancelEffect(s, c.player, c.card, c.pendingId)
    ensures game(t)
  {
    CancelIsStep(s, c, Env(0, k => 0));
  }

  /** Either player cancels. */
  lemma Cancels(game: State -> bool, s: State, turn: nat, hands: seq<seq<Code>>, p: Pending, who: nat,
        pre: seq<Code>, post: seq<Code>)
    returns (t: State)
    requires Trail(game) && Covered(game, s, turn, hands, p) && who < 2 && hands[who] == pre + [Cancel] + post
    ensures Covered(game, t, turn, hands[who := pre + post], p.(cancels := p.cancels + 1)) && t.draw == s.draw
  {
    var hand := s.players[who].hand;
    Sound(game, s, who);
    SeatOfTwo(s, turn, hands, who);
    var j := CardBetween(hand, pre, Cancel, post);
    CancelAllowed(s, turn, hands, p, who, j);
    t := CancelledBy(s, p, who, j);
    CancelOn(game, s, PlayCancel(who + 1, hand[j].id, 0), t);
    CancelFacing(s, t, turn, hands, p, who, j);
  }

  // ------------------------------------------------------------------ combos

  /** Cards of these kinds make the combo in any hand. */
  predicate Makes(codes: seq<Code>, kind: ComboKind) {
    match kind
    case NoCombo => false
    case Pair => |codes| == 2 && Equal(codes)
    case Triple => |codes| == 3 && Equal(codes)
    case FiveDifferent =>
      && |codes| == 5 && ExplosiveHolder !in codes && Explosive !in codes
      && forall i, j :: 0 <= i < j < 5 ==> codes[i] != codes[j]
  }

  predicate Equal(codes: seq<Code>) {
    forall k :: 0 <= k < |codes| ==> codes[k] == codes[0] && codes[k] !in {Explosive, WildToken}
  }

  lemma EqualMatch(cards: seq<Card>)
    requires |cards| in {2, 3} && Equal(CodesOf(cards))
    ensures ValidMatching(cards)
  {
    var codes := CodesOf(cards);
    assert forall k :: 0 <= k < |cards| ==> cards[k].code == codes[k];
    if IsToken(cards[0].code) {
      assert TokenMatch(cards, cards[0].code);
    } else {
      assert PlainMatch(cards);
    }
  }

  lemma FiveDiffer(hand: seq<Card>, cards: seq<Card>)
    requires Makes(CodesOf(cards), FiveDifferent)
    ensures ValidFiveDifferent(hand, cards)
  {
    var codes := CodesOf(cards);
    assert forall k :: 0 <= k < |cards| ==> cards[k].code == codes[k];
  }

  lemma MakesCombo(hand: seq<Card>, cards: seq<Card>, requested: Option<Code>, kind: ComboKind)
    requires Makes(CodesOf(cards), kind) && (kind == Triple ==> requested.Some?)
    ensures ComboOf(hand, cards, requested) == kind
  {
    if kind == FiveDifferent { FiveDiffer(hand, cards); } else { EqualMatch(cards); }
  }

  lemma {:induction false} WithoutAppend(a: seq<Card>, b: seq<Card>, ids: seq<CardId>)
    ensures Without(a + b, ids) == Without(a, ids) + Without(b, ids)
  {
    if b == [] {
      assert a + b == a;
    } else {
      assert (a + b)[..|a + b| - 1] == a + b[..|b| - 1];
      WithoutAppend(a, b[..|b| - 1], ids);
    }
  }

  lemma {:induction false} WithoutAll(cards: seq<Card>, ids: seq<CardId>)
    requires forall k :: 0 <= k < |cards| ==> cards[k].id in ids
    ensures Without(cards, ids) == []
  {
    if cards != [] {
      WithoutAll(cards[..|cards| - 1], ids);
    }
  }

  lemma {:induction false} WithoutNone(cards: seq<Card>, ids: seq<CardId>)
    requires forall k :: 0 <= k < |cards| ==> cards[k].id !in ids
    ensures Without(cards, ids) == cards
  {
    if cards != [] {
      WithoutNone(cards[..|cards| - 1], ids);
    }
  }

  lemma OtherIds(a: seq<Card>, b: seq<Card>, k: nat)
    requires DistinctIds(a + b) && k < |a|
    ensures a[k].id !in IdsOf(b)
  {
    forall j | 0 <= j < |b| ensures b[j].id != a[k].id {
      assert (a + b)[k] == a[k] && (a + b)[|a| + j] == b[j];
    }
  }

  /** Taking a stretch out of the hand leaves what is before and behind it. */
  lemma WithoutMiddle(front: seq<Card>, mid: seq<Card>, back: seq<Card>, ids: seq<CardId>)
    requires DistinctIds(front + mid) && DistinctIds(back + mid) && ids == IdsOf(mid)
    ensures Without(front + mid + back, ids) == front + back
  {
    WithoutAppend(front + mid, back, ids);
    WithoutAppend(front, mid, ids);
    WithoutOthers(front, mid);
    WithoutItself(mid);
    WithoutOthers(back, mid);
  }

  lemma WithoutOthers(a: seq<Card>, b: seq<Card>)
    requires DistinctIds(a + b)
    ensures Without(a, IdsOf(b)) == a
  {
    forall k | 0 <= k < |a| ensures a[k].id !in IdsOf(b) { OtherIds(a, b, k); }
    WithoutNone(a, IdsOf(b));
  }

  lemma WithoutItself(cards: seq<Card>)
    ensures Without(cards, IdsOf(cards)) == []
  {
    forall k | 0 <= k < |cards| ensures cards[k].id in IdsOf(cards) { assert IdsOf(cards)[k] == cards[k].id; }
    WithoutAll(cards, IdsOf(cards));
  }

  lemma PartsDistinct(front: seq<Card>, mid: seq<Card>, back: seq<Card>)
    requires DistinctIds(front + mid + back)
    ensures DistinctIds(front + mid) && DistinctIds(back + mid)
  {
    var hand, n := front + mid + back, |front + mid|;
    forall i, j | 0 <= i < j < n ensures (front + mid)[i].id != (front + mid)[j].id {
      assert hand[i] == (front + mid)[i] && hand[j] == (front + mid)[j];
    }
    forall i, j | 0 <= i < j < |back + mid| ensures (back + mid)[i].id != (back + mid)[j].id {
      var x := if i < |back| then n + i else |front| + i - |back|;
      var y := if j < |back| then n + j else |front| + j - |back|;
      assert hand[x] == (back + mid)[i] && hand[y] == (back + mid)[j] && x != y;
    }
  }

  function Stretch(a: nat, n: nat): seq<nat> {
    seq(n, k requires 0 <= k < n => a + k)
  }

  lemma StretchPositions(front: seq<Card>, mid: seq<Card>, back: seq<Card>)
    ensures var hand, at := front + mid + back, Stretch(|front|, |mid|);
      && Distinct(at) && (forall k :: 0 <= k < |at| ==> at[k] < |hand|)
      && AtPositions(hand, at) == mid
  {
    DistinctPairs(Stretch(|front|, |mid|));
  }

  lemma HandParts(hand: seq<Card>, pre: seq<Code>, block: seq<Code>, post: seq<Code>)
    returns (front: seq<Card>, mid: seq<Card>, back: seq<Card>)
    requires CodesOf(hand) == pre + block + post
    ensures hand == front + mid + back && CodesOf(front) == pre && CodesOf(mid) == block && CodesOf(back) == post
  {
    var codes, a, b := CodesOf(hand), |pre|, |pre| + |block|;
    front, mid, back := hand[..a], hand[a..b], hand[b..];
    forall k | 0 <= k < |post| ensures back[k].code == post[k] { assert codes[b + k] == post[k]; }
    forall k | 0 <= k < |block| ensures mid[k].code == block[k] { assert codes[a + k] == block[k]; }
    forall k | 0 <= k < |pre| ensures front[k].code == pre[k] { assert codes[k] == pre[k]; }
  }

  /** The cards between the two parts of a hand can be named by their ids. */
  lemma BlockBetween(hand: seq<Card>, pre: seq<Code>, block: seq<Code>, post: seq<Code>) returns (ids: seq<CardId>)
    requires Fair(multiset(hand)) && CodesOf(hand) == pre + block + post
    ensures |ids| == |block| && IdsError(hand, ids) == NoError && CodesOf(Picked(hand, ids)) == block
    ensures CodesOf(Without(hand, ids)) == pre + post
  {
    var front, mid, back := HandParts(hand, pre, block, post);
    StretchPositions(front, mid, back);
    ids := PickPositions(hand, Stretch(|front|, |mid|));
    HandPositions(hand);
    PartsDistinct(front, mid, back);
    WithoutMiddle(front, mid, back, ids);
    CodesAppend(front, back);
  }

  lemma ComboAllowed(s: State, turn: nat, hands: seq<seq<Code>>, ids: seq<CardId>, kind: ComboKind, target: PlayerId,
        requested: Option<Code>)
    requires Facing(s, turn, hands) && s.phase == PlayerTurn && ids != [] && kind != NoCombo
    requires IdsError(s.players[turn].hand, ids) == NoError
    requires ComboOf(s.players[turn].hand, Picked(s.players[turn].hand, ids), requested) == kind
    requires kind in {Pair, Triple} ==> TargetError(s.players, s.current, target, kind == Pair) == NoError
    ensures ComboGuard(s, s.current, ids, target, requested) == NoError
  {
    SeatOfTwo(s, turn, hands, turn);
  }

  lemma TheOther(s: State, turn: nat, hands: seq<seq<Code>>, mustHaveCards: bool)
    requires Facing(s, turn, hands) && (mustHaveCards ==> hands[1 - turn] != [])
    ensures TargetError(s.players, s.current, 2 - turn, mustHaveCards) == NoError
  {
    SeatOfTwo(s, turn, hands, 1 - turn);
  }

  lemma ComboIsStep(s: State, c: Command, env: Env)
    requires c.PlayCombo? && ComboGuard(s, c.player, c.cards, c.target, c.requested) == NoError
    ensures Step(s, c, env) == Ok(ComboEffect(s, c.player, c.cards, c.target, c.requested, env.now))
  {
    assert Guard(s, c) == NoError;
  }

  lemma ComboOn(game: State -> bool, s: State, c: Command, t: State)
    requires Trail(game) && game(s) && c.PlayCombo?
    requires ComboGuard(s, c.player, c.cards, c.target, c.requested) == NoError
    requires t == ComboEffect(s, c.player, c.cards, c.target, c.requested, 0)
    ensures game(t)
  {
    ComboIsStep(s, c, Env(0, k => 0));
  }

  ghost predicate Combines(p: Pending, kind: ComboKind, target: PlayerId, requested: Option<Code>) {
    p.kind == CardCombo && p.combo == kind && p.target == target && p.requested == requested && p.cancels == 0
  }

  /** The current player plays cards from between the others, against the other player. */
  lemma PlaysCombo(game: State -> bool, s: State, turn: nat, hands: seq<seq<Code>>, pre: seq<Code>, block: seq<Code>,
        post: seq<Code>, kind: ComboKind, requested: Option<Code>)
    returns (t: State, p: Pending)
    requires Trail(game) && Duel(game, s, turn, hands) && hands[turn] == pre + block + post
    requires Makes(block, kind) && (kind == Triple ==> requested.Some?) && (kind == Pair ==> hands[1 - turn] != [])
    ensures Covered(game, t, turn, hands[turn := pre + post], p) && Combines(p, kind, 2 - turn, requested)
    ensures t.draw == s.draw
  {
    var hand, target := s.players[turn].hand, 2 - turn;
    Sound(game, s, turn);
    var ids := BlockBetween(hand, pre, block, post);
    MakesCombo(hand, Picked(hand, ids), requested, kind);
    TheOther(s, turn, hands, kind == Pair);
    ComboAllowed(s, turn, hands, ids, kind, target, requested);
    SeatOfTwo(s, turn, hands, turn);
    ComboAccepted(s, s.current, ids, target, requested, 0);
    p := ComboPending(s, s.current, hand, ids, target, requested, 0);
    t := OpenWindow(s, turn, Without(hand, ids), p);
    ComboOn(game, s, PlayCombo(s.current, ids, target, requested), t);
    WindowFacing(s, t, turn, hands, Without(hand, ids), p);
  }

  // ----------------------------------------------------------- closing windows

  lemma CloseOn(game: State -> bool, s: State, c: Command, env: Env)
    requires Trail(game) && game(s) && c.ResolveCancelWindow? && ResolveGuard(s) == NoError
    ensures game(ResolveEffect(s, env.rnd).state)
  {
    assert Guard(s, c) == NoError;
    ClosingResolves(s, c, env);
  }

  lemma WindowEnds(game: State -> bool, s: State, turn: nat, hands: seq<seq<Code>>, p: Pending, rnd: Random)
    requires Trail(game) && Covered(game, s, turn, hands, p)
    ensures ResolveGuard(s) == NoError && game(ResolveEffect(s, rnd).state)
    ensures Facing(Closed(s), turn, hands) && Closed(s).phase == PlayerTurn && Closed(s).draw == s.draw
  {
    CloseOn(game, s, ResolveCancelWindow, Env(0, rnd));
  }

  /** Closing this window does nothing but end it. */
  ghost predicate Quiet(p: Pending, turn: nat, hands: seq<seq<Code>>, draw: seq<Card>)
    requires turn < 2 && |hands| == 2
  {
    || p.cancels % 2 == 1
    || (p.cancels == 0 && p.kind == PlayedCard && |p.cards| == 1 && p.cards[0].code == PeekDeck)
    || (p.cancels == 0 && p.kind == PlayedCard && |p.cards| == 1 && p.cards[0].code in {ShuffleDeck, SwapTopBottom}
        && draw == [])
    || (Combines(p, Triple, 2 - turn, Some(Unlisted)) && Unlisted !in hands[1 - turn])
  }

  lemma QuietCard(s: State, code: Code, source: PlayerId, target: PlayerId, rnd: Random)
    requires code == PeekDeck || (code in {ShuffleDeck, SwapTopBottom} && s.draw == [])
    ensures var t := ResolveCard(s, code, source, target, rnd).state; t == s.(eventSeq := t.eventSeq)
  {
  }

  lemma QuietTriple(s: State, turn: nat, hands: seq<seq<Code>>, p: Pending, rnd: Random)
    requires Facing(s, turn, hands) && Combines(p, Triple, 2 - turn, Some(Unlisted)) && Unlisted !in hands[1 - turn]
    requires p.source == s.current
    ensures ResolveCombo(s, p, rnd) == Ok(s)
  {
    SeatOfTwo(s, turn, hands, turn);
    SeatOfTwo(s, turn, hands, 1 - turn);
    var hand := s.players[1 - turn].hand;
    forall k | 0 <= k < |hand| ensures hand[k].code != Unlisted { assert CodesOf(hand)[k] == hand[k].code; }
  }

  lemma ClosesQuietly(game: State -> bool, s: State, turn: nat, hands: seq<seq<Code>>, p: Pending) returns (t: State)
    requires Trail(game) && Covered(game, s, turn, hands, p) && Quiet(p, turn, hands, s.draw)
    ensures Duel(game, t, turn, hands) && t.draw == s.draw
  {
    var rnd: Random := k => 0;
    WindowEnds(game, s, turn, hands, p, rnd);
    t := ResolveEffect(s, rnd).state;
    if p.cancels % 2 == 1 {
      ResolvesDropped(s, rnd);
    } else if p.kind == PlayedCard {
      ResolvesCard(s, rnd);
      QuietCard(Closed(s), p.cards[0].code, p.source, p.target, rnd);
    } else {
      ResolvesCombo(s, rnd);
      QuietTriple(Closed(s), turn, hands, p, rnd);
    }
  }

  // ------------------------------------------------------------ passing turns

  lemma OtherOwesNothing(game: State -> bool, s: State, turn: nat, hands: seq<seq<Code>>)
    requires Trail(game) && game(s) && Facing(s, turn, hands) && s.phase != GameOver
    ensures Debt(s.debt, 2 - turn) == 0
  {
    assert Inv(s);
    UnderWay(s);
    OwesNothing(s, turn, hands);
  }

  lemma UnderWay(s: State)
    requires Inv(s) && s.phase != GameOver
    ensures InPlay(s)
  {
  }

  lemma OwesNothing(s: State, turn: nat, hands: seq<seq<Code>>)
    requires Facing(s, turn, hands) && InPlay(s)
    ensures Debt(s.debt, 2 - turn) == 0
  {
    assert s.players[1 - turn].id == 2 - turn && s.players[1 - turn].alive;
  }

  lemma OtherIsNext(players: seq<Player>, turn: nat)
    requires turn < 2 && |players| == 2 && players[0].id == 1 && players[1].id == 2
    requires players[0].alive && players[1].alive
    ensures NextAlive(players, turn + 1) == Some(2 - turn)
  {
    assert Seat(players, turn + 1) == turn by { assert players[turn].id == turn + 1; }
    assert (turn + 1) % 2 == 1 - turn;
  }

  /** A turn ends and the other player's begins. */
  lemma TurnPasses(s: State, turn: nat, hands: seq<seq<Code>>)
    requires Facing(s, turn, hands) && Debt(s.debt, 2 - turn) == 0
    ensures var t := CompleteTurn(s); Facing(t, 1 - turn, hands) && t.phase == PlayerTurn && t.draw == s.draw
  {
    OtherIsNext(s.players, turn);
  }

  lemma ClosesSkip(game: State -> bool, s: State, turn: nat, hands: seq<seq<Code>>, p: Pending) returns (t: State)
    requires Trail(game) && Covered(game, s, turn, hands, p) && Plays(p, SkipTurn, p.target)
    ensures Duel(game, t, 1 - turn, hands) && t.draw == s.draw
  {
    var rnd: Random := k => 0;
    WindowEnds(game, s, turn, hands, p, rnd);
    OtherOwesNothing(game, s, turn, hands);
    ResolvesCard(s, rnd);
    TurnPasses(Closed(s), turn, hands);
    t := CompleteTurn(Closed(s));
  }

  /** A drawn card of this kind goes to a hand of these kinds. */
  predicate Keeps(codes: seq<Code>, code: Code) {
    code != Explosive || (ExplosiveHolder in codes && Explosive !in codes)
  }

  lemma KeepsDrawn(hand: seq<Card>, drawn: Card)
    requires Keeps(CodesOf(hand), drawn.code)
    ensures Kept(hand, drawn)
  {
    CountPositive(hand, ExplosiveHolder);
    CountPositive(hand, Explosive);
    var codes := CodesOf(hand);
    if drawn.code == Explosive {
      var k: nat :| k < |codes| && codes[k] == ExplosiveHolder;
      assert hand[k].code == ExplosiveHolder;
      forall j | 0 <= j < |hand| ensures hand[j].code != Explosive { assert codes[j] == hand[j].code; }
    }
  }

  lemma DrawIsStep(s: State, c: Command, env: Env)
    requires c.DrawCard? && DrawGuard(s, c.player) == NoError
    ensures Step(s, c, env) == Ok(DrawEffect(s, c.player))
  {
    assert Guard(s, c) == NoError;
  }

  lemma DrawOn(game: State -> bool, s: State, c: Command, t: State)
    requires Trail(game) && game(s) && c.DrawCard? && DrawGuard(s, c.player) == NoError && t == DrawEffect(s, c.player)
    ensures game(t)
  {
    DrawIsStep(s, c, Env(0, k => 0));
  }

  lemma DrawAllowed(s: State, turn: nat, hands: seq<seq<Code>>)
    requires Facing(s, turn, hands) && s.phase == PlayerTurn && s.draw != []
    ensures DrawGuard(s, s.current) == NoError
    ensures Kept(s.players[turn].hand, s.draw[0]) ==>
      DrawEffect(s, s.current) == CompleteTurn(Give(Tick(s.(draw := s.draw[1..]), 1), turn, s.draw[0]))
  {
    SeatOfTwo(s, turn, hands, turn);
  }

  lemma GiveFacing(s: State, turn: nat, hands: seq<seq<Code>>, card: Card)
    requires Facing(s, turn, hands)
    ensures Facing(Give(s, turn, card), turn, hands[turn := hands[turn] + [card.code]])
  {
    CodesAppend(s.players[turn].hand, [card]);
    assert CodesOf([card]) == [card.code];
  }

  /** The current player draws a card and keeps it. */
  lemma Draws(game: State -> bool, s: State, turn: nat, hands: seq<seq<Code>>) returns (t: State)
    requires Trail(game) && Duel(game, s, turn, hands) && s.draw != [] && Keeps(hands[turn], s.draw[0].code)
    ensures Duel(game, t, 1 - turn, hands[turn := hands[turn] + [s.draw[0].code]]) && t.draw == s.draw[1..]
  {
    var drawn, s1 := s.draw[0], Tick(s.(draw := s.draw[1..]), 1);
    SeatOfTwo(s, turn, hands, turn);
    KeepsDrawn(s.players[turn].hand, drawn);
    DrawAllowed(s, turn, hands);
    OtherOwesNothing(game, s, turn, hands);
    t := DrawEffect(s, s.current);
    DrawOn(game, s, DrawCard(s.current), t);
    GiveFacing(s1, turn, hands, drawn);
    TurnPasses(Give(s1, turn, drawn), turn, hands[turn := hands[turn] + [drawn.code]]);
  }

  /** Two lists of the same length, alternating. */
  function Weave(a: seq<Code>, b: seq<Code>): seq<Code>
    requires |a| == |b|
  {
    if a == [] then [] else [a[0], b[0]] + Weave(a[1..], b[1..])
  }

  /** Both players draw in turns until the pile is empty. */
  lemma {:induction false} DrawsAll(game: State -> bool, s: State, x: seq<Code>, y: seq<Code>, a: seq<Code>,
      b: seq<Code>)
    returns (t: State)
    requires Trail(game) && Duel(game, s, 0, [x, y]) && |a| == |b| && CodesOf(s.draw) == Weave(a, b)
    requires Explosive !in a && Explosive !in b
    ensures Duel(game, t, 0, [x + a, y + b]) && t.draw == []
    decreases |a|
  {
    if a == [] {
      t := s;
      assert x + a == x && y + b == y;
    } else {
      var t2 := DrawsTwo(game, s, x, y, a, b);
      t := DrawsAll(game, t2, x + [a[0]], y + [b[0]], a[1..], b[1..]);
      assert x + [a[0]] + a[1..] == x + a && y + [b[0]] + b[1..] == y + b;
    }
  }

  /** The first player draws the first card of the one list, the second player that of the other. */
  lemma DrawsTwo(game: State -> bool, s: State, x: seq<Code>, y: seq<Code>, a: seq<Code>, b: seq<Code>)
    returns (t: State)
    requires Trail(game) && Duel(game, s, 0, [x, y]) && |a| == |b| && a != [] && CodesOf(s.draw) == Weave(a, b)
    requires Keeps(x, a[0]) && Keeps(y, b[0])
    ensures Duel(game, t, 0, [x + [a[0]], y + [b[0]]]) && CodesOf(t.draw) == Weave(a[1..], b[1..])
  {
    var codes := Weave(a, b);
    assert CodesOf(s.draw)[0] == a[0] && CodesOf(s.draw)[1] == b[0];
    var t1 := Draws(game, s, 0, [x, y]);
    assert [x, y][0 := x + [a[0]]] == [x + [a[0]], y];
    t := Draws(game, t1, 1, [x + [a[0]], y]);
    assert [x + [a[0]], y][1 := y + [b[0]]] == [x + [a[0]], y + [b[0]]];
    TwoDrawn(s.draw, codes);
    assert codes[2..] == Weave(a[1..], b[1..]);
    assert t.draw == s.draw[2..];
  }

  lemma TwoDrawn(draw: seq<Card>, codes: seq<Code>)
    requires CodesOf(draw) == codes && |codes| >= 2
    ensures CodesOf(draw[2..]) == codes[2..]
  {
  }
}
