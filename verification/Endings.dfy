/** Games that end up where one might not expect: each of the exceptions in `Runs` and `Stalemate` occurs. */
module Endings {
  import opened Cards
  import opened Shuffling
  import opened Table
  import opened Rules
  import opened Invariant
  import opened Prompts
  import opened Deck
  import opened Deal
  import opened Runs
  import opened Stalemate
  import opened Parity
  import opened Arranged
  import opened Duels

  // --------------------------------------------------------- a target runs dry

  /** The first player's five-card combo is cancelled, so the five cards are gone for nothing. */
  lemma WastesFive(game: State -> bool, s: State, five: seq<Code>, rest: seq<Code>, x: seq<Code>, y: seq<Code>)
    returns (t: State)
    requires Trail(game) && Duel(game, s, 0, [five + rest, x + [Cancel] + y]) && Makes(five, FiveDifferent)
    ensures Duel(game, t, 0, [rest, x + y]) && t.draw == s.draw
  {
    var hands := [five + rest, x + [Cancel] + y];
    assert [] + rest == rest;
    assert hands[0] == [] + five + rest && hands[0 := [] + rest] == [rest, x + [Cancel] + y];
    var t1, p := PlaysCombo(game, s, 0, hands, [], five, rest, FiveDifferent, None);
    var t2 := Cancels(game, t1, 0, [rest, x + [Cancel] + y], p, 1, x, y);
    assert [rest, x + [Cancel] + y][1 := x + y] == [rest, x + y];
    t := ClosesQuietly(game, t2, 0, [rest, x + y], p.(cancels := 1));
  }

  lemma Peeks(game: State -> bool, s: State, rest: seq<Code>, y: seq<Code>) returns (t: State)
    requires Trail(game) && Duel(game, s, 0, [[PeekDeck] + rest, y])
    ensures Duel(game, t, 0, [rest, y])
  {
    var hands := [[PeekDeck] + rest, y];
    assert [] + rest == rest;
    assert hands[0] == [] + [PeekDeck] + rest && hands[0 := [] + rest] == [rest, y];
    var t1, p := PlaysCard(game, s, 0, hands, [], PeekDeck, rest, 0);
    t := ClosesQuietly(game, t1, 0, [rest, y], p);
  }

  lemma Skips(game: State -> bool, s: State, rest: seq<Code>, y: seq<Code>) returns (t: State)
    requires Trail(game) && Duel(game, s, 0, [[SkipTurn] + rest, y])
    ensures Duel(game, t, 1, [rest, y])
  {
    var hands := [[SkipTurn] + rest, y];
    assert [] + rest == rest;
    assert hands[0] == [] + [SkipTurn] + rest && hands[0 := [] + rest] == [rest, y];
    var t1, p := PlaysCard(game, s, 0, hands, [], SkipTurn, rest, 0);
    t := ClosesSkip(game, t1, 0, [rest, y], p);
  }

  /** The first player's last card is a cancel against the second player, who cancels back. */
  lemma CancelsInVain(game: State -> bool, s: State, p: Pending, x: seq<Code>, y: seq<Code>) returns (t: State)
    requires Trail(game) && Covered(game, s, 1, [[Cancel], x + [Cancel] + y], p) && p.cancels == 0
    ensures Covered(game, t, 1, [[], x + y], p.(cancels := 2))
  {
    var hands := [[Cancel], x + [Cancel] + y];
    assert hands[0] == [] + [Cancel] + [];
    var none: seq<Code> := [];
    assert none + none == none && hands[0 := none + none] == [none, x + [Cancel] + y];
    var t1 := Cancels(game, s, 1, hands, p, 0, [], []);
    assert [[], x + [Cancel] + y][1 := x + y] == [[], x + y];
    t := Cancels(game, t1, 1, [[], x + [Cancel] + y], p.(cancels := 1), 1, x, y);
  }

  const FIRST: seq<Code> :=
    [ShuffleDeck] + [SwapTopBottom] + [ReorderTop3] + [PeekDeck] + [PeekDeck] + [SkipTurn] + [Cancel]
  const SECOND: seq<Code> :=
    [Cancel] + [Cancel] + [RequestCard] + [BlindHand] + [BlindHand] + [SkipTurn] + [SkipTurn]
  const LEFT: seq<Code> := [RequestCard, BlindHand, BlindHand, SkipTurn, SkipTurn]

  /** The first player is down to one cancel when the second player's turn comes. */
  lemma RunsLow(game: State -> bool, s: State) returns (t: State)
    requires Trail(game) && Duel(game, s, 0, [[Shield] + FIRST, [Shield] + SECOND])
    ensures Duel(game, t, 1, [[Cancel], [Shield] + [Cancel] + LEFT])
  {
    var five := [Shield, ShuffleDeck, SwapTopBottom, ReorderTop3, PeekDeck];
    assert [Shield] + FIRST == five + ([PeekDeck] + ([SkipTurn] + [Cancel]));
    assert [Shield] + SECOND == [Shield] + [Cancel] + ([Cancel] + LEFT);
    assert [Shield] + ([Cancel] + LEFT) == [Shield] + [Cancel] + LEFT;
    var t1 := WastesFive(game, s, five, [PeekDeck] + ([SkipTurn] + [Cancel]), [Shield], [Cancel] + LEFT);
    var t2 := Peeks(game, t1, [SkipTurn] + [Cancel], [Shield] + [Cancel] + LEFT);
    t := Skips(game, t2, [Cancel], [Shield] + [Cancel] + LEFT);
  }

  lemma ToFizzle(game: State -> bool, s: State) returns (t: State)
    requires Trail(game) && Duel(game, s, 0, [[Shield] + FIRST, [Shield] + SECOND])
    ensures game(t) && PairFizzles(t)
  {
    var s1 := RunsLow(game, s);
    var hands := [[Cancel], [Shield] + [Cancel] + LEFT];
    var pre, rest := [Shield, Cancel, RequestCard], [SkipTurn, SkipTurn];
    assert hands[1] == pre + [BlindHand, BlindHand] + rest;
    var s2, p := PlaysCombo(game, s1, 1, hands, pre, [BlindHand, BlindHand], rest, Pair, None);
    var y := [RequestCard] + rest;
    assert pre + rest == [Shield] + [Cancel] + y;
    assert hands[1 := pre + rest] == [[Cancel], [Shield] + [Cancel] + y];
    t := CancelsInVain(game, s2, p, [Shield], y);
    SeatOfTwo(t, 1, [[], [Shield] + y], 0);
  }

  lemma ToEmptyPrompt(game: State -> bool, s: State) returns (t: State)
    requires Trail(game) && Duel(game, s, 0, [[Shield] + FIRST, [Shield] + SECOND])
    ensures game(t) && t.phase == WaitingRequestCardChoice && EmptyHanded(t)
  {
    var s1 := RunsLow(game, s);
    var hands := [[Cancel], [Shield] + [Cancel] + LEFT];
    var pre, rest := [Shield, Cancel], [BlindHand, BlindHand, SkipTurn, SkipTurn];
    assert hands[1] == pre + [RequestCard] + rest;
    TheOther(s1, 1, hands, true);
    var s2, p := PlaysCard(game, s1, 1, hands, pre, RequestCard, rest, 1);
    assert pre + rest == [Shield] + [Cancel] + rest;
    assert hands[1 := pre + rest] == [[Cancel], [Shield] + [Cancel] + rest];
    var s3 := CancelsInVain(game, s2, p, [Shield], rest);
    t := AsksInVain(game, s3, p.(cancels := 2), [Shield] + rest);
  }

  lemma AsksInVain(game: State -> bool, s: State, p: Pending, y: seq<Code>) returns (t: State)
    requires Trail(game) && Covered(game, s, 1, [[], y], p) && p.cancels == 2
    requires p.kind == PlayedCard && |p.cards| == 1 && p.cards[0].code == RequestCard && p.target == 1
    ensures game(t) && t.phase == WaitingRequestCardChoice && EmptyHanded(t)
  {
    var rnd: Random := k => 0;
    WindowEnds(game, s, 1, [[], y], p, rnd);
    ResolvesCard(s, rnd);
    SeatOfTwo(Closed(s), 1, [[], y], 0);
    t := ResolveEffect(s, rnd).state;
  }

  // ---------------------------------------------------------- somebody loses

  /** Without shield and holder, a drawn explosive ends the game. */
  lemma DrawsDeath(game: State -> bool, s: State, x: seq<Code>, y: seq<Code>) returns (t: State)
    requires Trail(game) && Duel(game, s, 0, [x, y]) && s.draw != [] && s.draw[0].code == Explosive
    requires Shield !in x && ExplosiveHolder !in x
    ensures game(t) && t.phase == GameOver && t.winner == 2
  {
    SeatOfTwo(s, 0, [x, y], 0);
    NoneOf(s.players[0].hand, Shield);
    NoneOf(s.players[0].hand, ExplosiveHolder);
    DrawAllowed(s, 0, [x, y]);
    t := DrawEffect(s, s.current);
    DrawOn(game, s, DrawCard(s.current), t);
    var dead := Tick(s.(draw := s.draw[1..]), 1);
    LastOfTwo(Eliminate(dead.(discard := dead.discard + [s.draw[0]]), 0).players);
  }

  lemma NoneOf(hand: seq<Card>, code: Code)
    requires code !in CodesOf(hand)
    ensures IndexOfCode(hand, code) < 0
  {
    forall k | 0 <= k < |hand| ensures hand[k].code != code { assert CodesOf(hand)[k] == hand[k].code; }
  }

  lemma LastOfTwo(players: seq<Player>)
    requires |players| == 2 && !players[0].alive && players[1].alive
    ensures AliveCount(players) == 1 && FirstAlive(players) == players[1].id
  {
    assert AliveCount(players[..1]) == 0 by { assert players[..1][..0] == []; }
    assert players[1..][0] == players[1];
  }

  lemma ToTheEnd(game: State -> bool, s: State) returns (t: State)
    requires Trail(game) && Duel(game, s, 0, [[Shield] + FIRST, [Shield] + SECOND])
    requires s.draw != [] && s.draw[0].code == Explosive
    ensures game(t) && t.phase == GameOver && t.winner == 2
  {
    var five, rest := [Shield, ShuffleDeck, SwapTopBottom, ReorderTop3, PeekDeck], [PeekDeck, SkipTurn, Cancel];
    assert [Shield] + FIRST == five + rest;
    assert [Shield] + SECOND == [Shield] + [Cancel] + ([Cancel] + LEFT);
    t := WastesFive(game, s, five, rest, [Shield], [Cancel] + LEFT);
    t := DrawsDeath(game, t, rest, [Shield] + ([Cancel] + LEFT));
  }

  // ------------------------------------------------------ nothing left to draw

  /** Three equal cards ask for a card that does not exist, and are gone. */
  lemma WastesThree(game: State -> bool, s: State, rest: seq<Code>, x: Code, y: seq<Code>) returns (t: State)
    requires Trail(game) && Duel(game, s, 0, [rest + [x, x, x], y]) && s.draw == []
    requires x !in {Explosive, WildToken} && Unlisted !in y
    ensures Duel(game, t, 0, [rest, y]) && t.draw == []
  {
    var hands := [rest + [x, x, x], y];
    assert rest + [] == rest;
    assert hands[0] == rest + [x, x, x] + [] && hands[0 := rest + []] == [rest, y];
    var t1, p := PlaysCombo(game, s, 0, hands, rest, [x, x, x], [], Triple, Some(Unlisted));
    t := ClosesQuietly(game, t1, 0, [rest, y], p);
  }

  lemma WastesOne(game: State -> bool, s: State, rest: seq<Code>, x: Code, y: seq<Code>) returns (t: State)
    requires Trail(game) && Duel(game, s, 0, [rest + [x], y]) && s.draw == [] && x in {ShuffleDeck, SwapTopBottom}
    ensures Duel(game, t, 0, [rest, y]) && t.draw == []
  {
    var hands := [rest + [x], y];
    assert rest + [] == rest;
    assert hands[0] == rest + [x] + [] && hands[0 := rest + []] == [rest, y];
    var t1, p := PlaysCard(game, s, 0, hands, rest, x, [], 0);
    t := ClosesQuietly(game, t1, 0, [rest, y], p);
  }

  function Three(x: Code): seq<Code> {
    [x, x, x]
  }

  /** The first player's hand at the end of the draw pile, in the order in which it goes from the back. */
  function Wasted(): seq<Code> {
    [Shield] + Three(Cancel) + Three(SkipTurn) + [SwapTopBottom] + [ShuffleDeck] + [ShuffleDeck]
    + Three(DrawFromBottom) + Three(TokenA) + Three(PeekDeck) + Three(ReorderTop3)
  }

  lemma WastesAll(game: State -> bool, s: State, y: seq<Code>) returns (t: State)
    requires Trail(game) && Duel(game, s, 0, [Wasted(), y]) && s.draw == [] && Unlisted !in y
    ensures Duel(game, t, 0, [[Shield], y]) && t.draw == []
  {
    var h1 := [Shield] + Three(Cancel);
    var h2 := h1 + Three(SkipTurn);
    var h3 := h2 + [SwapTopBottom];
    var h4 := h3 + [ShuffleDeck];
    var h5 := h4 + [ShuffleDeck];
    t := WastesFour(game, s, h5, y);
    t := WastesOne(game, t, h4, ShuffleDeck, y);
    t := WastesOne(game, t, h3, ShuffleDeck, y);
    t := WastesOne(game, t, h2, SwapTopBottom, y);
    t := WastesThree(game, t, h1, SkipTurn, y);
    t := WastesThree(game, t, [Shield], Cancel, y);
  }

  lemma WastesFour(game: State -> bool, s: State, rest: seq<Code>, y: seq<Code>) returns (t: State)
    requires Trail(game) && s.draw == [] && Unlisted !in y
    requires Duel(game, s, 0, [rest + Three(DrawFromBottom) + Three(TokenA) + Three(PeekDeck) + Three(ReorderTop3), y])
    ensures Duel(game, t, 0, [rest, y]) && t.draw == []
  {
    var h1 := rest + Three(DrawFromBottom);
    var h2 := h1 + Three(TokenA);
    var h3 := h2 + Three(PeekDeck);
    t := WastesThree(game, s, h3, ReorderTop3, y);
    t := WastesThree(game, t, h2, PeekDeck, y);
    t := WastesThree(game, t, h1, TokenA, y);
    t := WastesThree(game, t, rest, DrawFromBottom, y);
  }

  /** A single shield cannot be played. */
  lemma OneShield(s: State, y: seq<Code>)
    requires Facing(s, 0, [[Shield], y])
    ensures NothingToPlay(s)
  {
    SeatOfTwo(s, 0, [[Shield], y], 0);
    var hand := HandOf(s.players, s.current);
    assert |hand| == 1 && CodesOf(hand)[0] == hand[0].code;
    forall at: seq<nat> ensures !PlaysTogether(hand, at, Victim(s)) {
      if |at| >= 2 && Distinct(at) {
        DistinctPairs(at);
        assert at[0] != at[1];
      }
    }
  }

  // ------------------------------------------------------------------- deals

  /** Two players' hands and the draw pile as wished, in a game that has just started. */
  lemma Begins(one: seq<Code>, two: seq<Code>, pile: seq<Code>) returns (s: State)
    requires |one| == 7 && |two| == 7 && Plain(one + two) && Suffices(2, one + two, pile)
    ensures Occurs(s) && Facing(s, 0, [[Shield] + one, [Shield] + two]) && s.phase == PlayerTurn
    ensures |s.draw| == 28 && |pile| <= 28 && CodesOf(s.draw[..|pile|]) == pile
  {
    var ids: seq<PlayerId> := [1, 2];
    DistinctPairs(ids);
    var o := EveryDeal(ids, one + two, pile);
    s := Opened(o);
    OpeningOccurs(o);
    OpenedSound(o);
    HandsLaid(s.players, s.draw, one, two, pile);
    FreshFacing(s, one, two);
  }

  lemma HandsLaid(players: seq<Player>, draw: seq<Card>, one: seq<Code>, two: seq<Code>, pile: seq<Code>)
    requires |players| == 2 && |one| == 7 && |two| == 7 && Lays(players, draw, one + two, pile)
    ensures CodesOf(players[0].hand) == [Shield] + one && CodesOf(players[1].hand) == [Shield] + two
  {
    assert HandAt(one + two, 0) == [Shield] + one;
    assert HandAt(one + two, 1) == [Shield] + two;
  }

  lemma FreshFacing(s: State, one: seq<Code>, two: seq<Code>)
    requires FreshTable(s, [1, 2])
    requires CodesOf(s.players[0].hand) == [Shield] + one && CodesOf(s.players[1].hand) == [Shield] + two
    ensures Facing(s, 0, [[Shield] + one, [Shield] + two]) && s.phase == PlayerTurn
  {
  }

  /** What occurs is sound, and goes on occurring. */
  lemma GamesAreTrails() returns (game: State -> bool)
    ensures Trail(game) && forall s :: game(s) <==> Occurs(s)
  {
    game := s => Occurs(s);
    forall s | Occurs(s) ensures Inv(s) {
      OccursSoundly(s);
    }
    forall s: State, c: Command, env: Env | Occurs(s) ensures Occurs(Step(s, c, env).state) {
      OccursNext(s, c, env);
    }
  }

  /** The deck for two players, by code. */
  function DeckOfTwo(code: Code): nat {
    match code
    case Shield => 5 case Cancel => 4 case SkipTurn => 4
    case PeekDeck => 3 case DrawFromBottom => 3 case ReorderTop3 => 3 case TokenA => 3
    case ForceExtraTurns => 2 case TargetExtraTurns => 2 case RequestCard => 2 case ShuffleDeck => 2
    case WildToken => 2 case BlindHand => 2
    case Explosive => 1 case SkipAllTurns => 1 case ExplosiveHolder => 1 case CollectiveRecycle => 1
    case RevealHeldCard => 1 case SwapTopBottom => 1 case StackExplosivesOnTop => 1
    case _ => 0
  }

  lemma DeckForTwo(code: Code)
    ensures CountOf(DeckCardCounts(2), code) == DeckOfTwo(code)
  {
  }

  function One(code: Code, x: Code): nat {
    if code == x then 1 else 0
  }

  lemma Together(a: seq<Code>, b: seq<Code>, code: Code)
    ensures multiset(a + b)[code] == multiset(a)[code] + multiset(b)[code]
  {
  }

  lemma OneMore(codes: seq<Code>, x: Code, code: Code)
    ensures multiset(codes + [x])[code] == multiset(codes)[code] + One(code, x)
  {
  }

  lemma ThreeMore(codes: seq<Code>, a: Code, b: Code, c: Code, code: Code)
    ensures multiset(codes + [a] + [b] + [c])[code]
        == multiset(codes)[code] + One(code, a) + One(code, b) + One(code, c)
  {
    OneMore(codes, a, code);
    OneMore(codes + [a], b, code);
    OneMore(codes + [a] + [b], c, code);
  }

  lemma JustOne(x: Code, code: Code)
    ensures multiset([x])[code] == One(code, x)
  {
  }

  // What the two players are dealt in the short games, by code.

  function InFirst(code: Code): nat {
    match code
    case PeekDeck => 2 case ShuffleDeck => 1 case SwapTopBottom => 1 case ReorderTop3 => 1 case SkipTurn => 1
      case Cancel => 1
    case _ => 0
  }

  function InSecond(code: Code): nat {
    match code case Cancel => 2 case BlindHand => 2 case SkipTurn => 2 case RequestCard => 1 case _ => 0
  }

  lemma FirstKinds(code: Code)
    ensures multiset(FIRST)[code] == InFirst(code)
  {
    JustOne(ShuffleDeck, code);
    ThreeMore([ShuffleDeck], SwapTopBottom, ReorderTop3, PeekDeck, code);
    ThreeMore([ShuffleDeck] + [SwapTopBottom] + [ReorderTop3] + [PeekDeck], PeekDeck, SkipTurn, Cancel, code);
  }

  lemma SecondKinds(code: Code)
    ensures multiset(SECOND)[code] == InSecond(code)
  {
    JustOne(Cancel, code);
    ThreeMore([Cancel], Cancel, RequestCard, BlindHand, code);
    ThreeMore([Cancel] + [Cancel] + [RequestCard] + [BlindHand], BlindHand, SkipTurn, SkipTurn, code);
  }

  ghost predicate ShortDeal(first: seq<Code>, second: seq<Code>) {
    forall code :: multiset(first)[code] == InFirst(code) && multiset(second)[code] == InSecond(code)
  }

  lemma ShortFits(code: Code)
    ensures InFirst(code) + InSecond(code) + One(code, Explosive) + (if code == Shield then 2 else 0) <= DeckOfTwo(code)
  {
  }

  lemma ShortSuffices(first: seq<Code>, second: seq<Code>, pile: seq<Code>)
    requires ShortDeal(first, second) && pile == [Explosive]
    ensures Plain(first + second) && Suffices(2, first + second, pile)
  {
    var hands := first + second;
    forall code
      ensures multiset(hands)[code] + multiset(pile)[code] + (if code == Shield then 2 else 0)
          <= CountOf(DeckCardCounts(2), code)
    {
      Together(first, second, code);
      ShortFits(code);
      JustOne(Explosive, code);
      DeckForTwo(code);
    }
    Together(first, second, Shield);
    Together(first, second, Explosive);
    Missing(hands, Shield);
    Missing(hands, Explosive);
  }

  lemma Missing(codes: seq<Code>, code: Code)
    requires multiset(codes)[code] == 0
    ensures code !in codes
  {
    assert code in codes ==> code in multiset(codes);
  }

  lemma ShortGame() returns (s: State)
    ensures Occurs(s) && Facing(s, 0, [[Shield] + FIRST, [Shield] + SECOND]) && s.phase == PlayerTurn
    ensures s.draw != [] && s.draw[0].code == Explosive
  {
    forall code ensures multiset(FIRST)[code] == InFirst(code) && multiset(SECOND)[code] == InSecond(code) {
      FirstKinds(code);
      SecondKinds(code);
    }
    ShortSuffices(FIRST, SECOND, [Explosive]);
    s := Begins(FIRST, SECOND, [Explosive]);
    assert CodesOf(s.draw[..1])[0] == s.draw[0].code;
  }

  const THIRD: seq<Code> := Three(Cancel) + Three(SkipTurn) + [SwapTopBottom]
  const FOURTH: seq<Code> :=
    [ExplosiveHolder] + [Cancel] + [ForceExtraTurns] + [ForceExtraTurns] + [TargetExtraTurns] + [TargetExtraTurns]
      + [SkipTurn]
  const DRAWN: seq<Code> := [ShuffleDeck] + Three(DrawFromBottom) + Three(TokenA) + Three(PeekDeck) + Three(ReorderTop3)
  const EARLY: seq<Code> := [RevealHeldCard] + [Shield] + [Shield] + [Shield] + [RequestCard] + [RequestCard]
      + [SkipAllTurns]
  const LATE: seq<Code> :=
    [CollectiveRecycle] + [WildToken] + [WildToken] + [StackExplosivesOnTop] + [BlindHand] + [BlindHand]
  const TAKEN: seq<Code> := EARLY + LATE

  lemma ThreeKinds(x: Code, code: Code)
    ensures multiset(Three(x))[code] == 3 * One(code, x)
  {
  }

  // What is dealt and drawn in the long game, by code.

  function InThird(code: Code): nat {
    match code case Cancel => 3 case SkipTurn => 3 case SwapTopBottom => 1 case _ => 0
  }

  function InFourth(code: Code): nat {
    match code
    case ForceExtraTurns => 2 case TargetExtraTurns => 2 case ExplosiveHolder => 1 case Cancel => 1 case SkipTurn => 1
    case _ => 0
  }

  function InDrawn(code: Code): nat {
    match code
    case DrawFromBottom => 3 case TokenA => 3 case PeekDeck => 3 case ReorderTop3 => 3 case ShuffleDeck => 1
    case _ => 0
  }

  function InEarly(code: Code): nat {
    match code
    case Shield => 3 case RequestCard => 2 case RevealHeldCard => 1 case SkipAllTurns => 1
    case _ => 0
  }

  function InLate(code: Code): nat {
    match code
    case WildToken => 2 case BlindHand => 2 case CollectiveRecycle => 1 case StackExplosivesOnTop => 1
    case _ => 0
  }

  lemma ThirdKinds(code: Code)
    ensures multiset(THIRD)[code] == InThird(code)
  {
    Together(Three(Cancel) + Three(SkipTurn), [SwapTopBottom], code);
    Together(Three(Cancel), Three(SkipTurn), code);
    ThreeKinds(Cancel, code);
    ThreeKinds(SkipTurn, code);
  }

  lemma FourthKinds(code: Code)
    ensures multiset(FOURTH)[code] == InFourth(code)
  {
    JustOne(ExplosiveHolder, code);
    ThreeMore([ExplosiveHolder], Cancel, ForceExtraTurns, ForceExtraTurns, code);
    ThreeMore([ExplosiveHolder] + [Cancel] + [ForceExtraTurns] + [ForceExtraTurns],
              TargetExtraTurns, TargetExtraTurns, SkipTurn, code);
  }

  lemma DrawnKinds(code: Code)
    ensures multiset(DRAWN)[code] == InDrawn(code)
  {
    var d1 := [ShuffleDeck] + Three(DrawFromBottom);
    var d2 := d1 + Three(TokenA);
    var d3 := d2 + Three(PeekDeck);
    Together([ShuffleDeck], Three(DrawFromBottom), code);
    Together(d1, Three(TokenA), code);
    Together(d2, Three(PeekDeck), code);
    Together(d3, Three(ReorderTop3), code);
    ThreeKinds(DrawFromBottom, code);
    ThreeKinds(TokenA, code);
    ThreeKinds(PeekDeck, code);
    ThreeKinds(ReorderTop3, code);
  }

  lemma EarlyKinds(code: Code)
    ensures multiset(EARLY)[code] == InEarly(code)
  {
    JustOne(RevealHeldCard, code);
    ThreeMore([RevealHeldCard], Shield, Shield, Shield, code);
    ThreeMore([RevealHeldCard] + [Shield] + [Shield] + [Shield], RequestCard, RequestCard, SkipAllTurns, code);
  }

  lemma LateKinds(code: Code)
    ensures multiset(LATE)[code] == InLate(code)
  {
    JustOne(CollectiveRecycle, code);
    ThreeMore([CollectiveRecycle], WildToken, WildToken, StackExplosivesOnTop, code);
    OneMore([CollectiveRecycle] + [WildToken] + [WildToken] + [StackExplosivesOnTop], BlindHand, code);
    OneMore([CollectiveRecycle] + [WildToken] + [WildToken] + [StackExplosivesOnTop] + [BlindHand], BlindHand, code);
  }

  lemma TakenKinds(code: Code)
    ensures multiset(TAKEN)[code] == InEarly(code) + InLate(code)
  {
    EarlyKinds(code);
    LateKinds(code);
    Together(EARLY, LATE, code);
  }

  lemma FirstOf(codes: seq<Code>, code: Code)
    requires codes != []
    ensures multiset(codes)[code] == One(code, codes[0]) + multiset(codes[1..])[code]
  {
    assert codes == [codes[0]] + codes[1..];
  }

  lemma {:induction false} WeaveKinds(a: seq<Code>, b: seq<Code>, code: Code)
    requires |a| == |b|
    ensures multiset(Weave(a, b))[code] == multiset(a)[code] + multiset(b)[code] && |Weave(a, b)| == 2 * |a|
  {
    if a != [] {
      WeaveKinds(a[1..], b[1..], code);
      FirstOf(a, code);
      FirstOf(b, code);
      TwoMore(a[0], b[0], Weave(a[1..], b[1..]), code);
    }
  }

  lemma TwoMore(x: Code, y: Code, rest: seq<Code>, code: Code)
    ensures multiset([x, y] + rest)[code] == One(code, x) + One(code, y) + multiset(rest)[code]
  {
  }

  lemma AllFits(code: Code)
    ensures InThird(code) + InFourth(code) + InDrawn(code) + InEarly(code) + InLate(code) + One(code, ShuffleDeck)
        + One(code, Explosive)
          + (if code == Shield then 2 else 0) == DeckOfTwo(code)
  {
  }

  /** The four lists, with a shuffle, the explosive and a shield for each player, are the deck for two players. */
  ghost predicate WholeDeck(third: seq<Code>, fourth: seq<Code>, drawn: seq<Code>, taken: seq<Code>) {
    && |third| == 7 && |fourth| == 7 && |drawn| == 13 && |taken| == 13
    && forall code :: KindsOf(third, fourth, drawn, taken, code)
  }

  ghost predicate KindsOf(third: seq<Code>, fourth: seq<Code>, drawn: seq<Code>, taken: seq<Code>, code: Code) {
    && multiset(third)[code] == InThird(code) && multiset(fourth)[code] == InFourth(code)
    && multiset(drawn)[code] == InDrawn(code) && multiset(taken)[code] == InEarly(code) + InLate(code)
  }

  lemma LongDeal()
    ensures WholeDeck(THIRD, FOURTH, DRAWN, TAKEN)
  {
    forall code ensures KindsOf(THIRD, FOURTH, DRAWN, TAKEN, code) {
      ThirdKinds(code);
      FourthKinds(code);
      DrawnKinds(code);
      TakenKinds(code);
    }
  }

  lemma LongPile(drawn: seq<Code>, taken: seq<Code>, code: Code)
    requires |drawn| == 13 && |taken| == 13
    ensures var pile := Weave([ShuffleDeck] + drawn, [Explosive] + taken);
      && |pile| == 28
      && multiset(pile)[code]
          == One(code, ShuffleDeck) + multiset(drawn)[code] + One(code, Explosive) + multiset(taken)[code]
  {
    WeaveKinds([ShuffleDeck] + drawn, [Explosive] + taken, code);
    Together([ShuffleDeck], drawn, code);
    Together([Explosive], taken, code);
  }

  lemma LongSuffices(third: seq<Code>, fourth: seq<Code>, drawn: seq<Code>, taken: seq<Code>)
    requires WholeDeck(third, fourth, drawn, taken)
    ensures Plain(third + fourth)
    ensures Suffices(2, third + fourth, Weave([ShuffleDeck] + drawn, [Explosive] + taken))
  {
    var hands, pile := third + fourth, Weave([ShuffleDeck] + drawn, [Explosive] + taken);
    forall code
      ensures multiset(hands)[code] + multiset(pile)[code] + (if code == Shield then 2 else 0)
          <= CountOf(DeckCardCounts(2), code)
    {
      assert KindsOf(third, fourth, drawn, taken, code);
      LongPile(drawn, taken, code);
      Together(third, fourth, code);
      AllFits(code);
      DeckForTwo(code);
    }
    assert KindsOf(third, fourth, drawn, taken, Shield) && KindsOf(third, fourth, drawn, taken, Explosive);
    Together(third, fourth, Shield);
    Together(third, fourth, Explosive);
    Missing(hands, Shield);
    Missing(hands, Explosive);
  }

  /** Nothing left to draw, and the first player to move with a single shield. */
  lemma ToTheLastCard(game: State -> bool, s: State, third: seq<Code>, two: seq<Code>, drawn: seq<Code>,
      taken: seq<Code>)
    returns (t: State)
    requires Trail(game) && Duel(game, s, 0, [[Shield] + third, two]) && |drawn| == |taken|
    requires CodesOf(s.draw) == Weave([ShuffleDeck] + drawn, [Explosive] + taken)
    requires [Shield] + third + [ShuffleDeck] + drawn == Wasted()
    requires ExplosiveHolder in two && Explosive !in two && Explosive !in drawn && Explosive !in taken
    requires Unlisted !in two && Unlisted !in taken
    ensures game(t) && t.phase == PlayerTurn && t.draw == [] && NothingToPlay(t)
  {
    var one, a, b := [Shield] + third, [ShuffleDeck] + drawn, [Explosive] + taken;
    t := DrawsTwo(game, s, one, two, a, b);
    assert a[1..] == drawn && b[1..] == taken;
    t := DrawsAll(game, t, one + [ShuffleDeck], two + [Explosive], drawn, taken);
    var y := two + [Explosive] + taken;
    t := WastesAll(game, t, y);
    OneShield(t, y);
  }

  lemma LongGame(game: State -> bool, s: State, third: seq<Code>, fourth: seq<Code>, drawn: seq<Code>, taken: seq<Code>)
    returns (t: State)
    requires WholeDeck(third, fourth, drawn, taken) && ExplosiveHolder in fourth
    requires [Shield] + third + [ShuffleDeck] + drawn == Wasted()
    requires Trail(game) && Duel(game, s, 0, [[Shield] + third, [Shield] + fourth])
    requires CodesOf(s.draw) == Weave([ShuffleDeck] + drawn, [Explosive] + taken)
    ensures game(t) && t.phase == PlayerTurn && t.draw == [] && NothingToPlay(t)
  {
    assert KindsOf(third, fourth, drawn, taken, Explosive) && KindsOf(third, fourth, drawn, taken, Unlisted);
    Missing(fourth, Explosive);
    Missing(fourth, Unlisted);
    Missing(drawn, Explosive);
    Missing(taken, Explosive);
    Missing(taken, Unlisted);
    t := ToTheLastCard(game, s, third, [Shield] + fourth, drawn, taken);
  }

  // ---------------------------------------------------------------- theorems

  /**
   A pair can fizzle in a game the program plays: the target cancels with the last card, is cancelled in
   turn, and closing the window reports an error after the window is gone.
   */
  lemma APairCanFizzle() returns (s: State)
    ensures Occurs(s) && PairFizzles(s)
    ensures forall env ::
        Step(s, ResolveCancelWindow, env).error == InvalidTarget && Step(s, ResolveCancelWindow, env).state != s
  {
    var game := GamesAreTrails();
    var s0 := ShortGame();
    s := ToFizzle(game, s0);
    OccursSoundly(s);
    forall env
      ensures Step(s, ResolveCancelWindow, env).error == InvalidTarget && Step(s, ResolveCancelWindow, env).state != s
    {
      Fizzling(s, ResolveCancelWindow, env);
    }
  }

  lemma Fizzling(s: State, c: Command, env: Env)
    requires Inv(s) && PairFizzles(s) && c.ResolveCancelWindow?
    ensures Step(s, c, env).error == InvalidTarget && Step(s, c, env).state != s
  {
    assert ResolveGuard(s) == NoError;
    ClosingFails(s, c, env);
  }

  /** A game the program plays can be won. */
  lemma AGameCanBeWon() returns (s: State)
    ensures Occurs(s) && s.phase == GameOver
  {
    var game := GamesAreTrails();
    var s0 := ShortGame();
    s := ToTheEnd(game, s0);
  }

  /** In a game the program plays, a request can come to wait for a card of an empty hand, for good. */
  lemma ARequestCanStick() returns (s: State)
    ensures Occurs(s) && s.phase == WaitingRequestCardChoice && Stuck(s)
  {
    var game := GamesAreTrails();
    var s0 := ShortGame();
    s := ToEmptyPrompt(game, s0);
    OccursSoundly(s);
    StuckExactly(s);
  }

  /** In a game the program plays, a turn can come up with nothing left to draw or to play, for good. */
  lemma ATurnCanStick() returns (s: State)
    ensures Occurs(s) && s.phase == PlayerTurn && Stuck(s)
  {
    var game := GamesAreTrails();
    LongDeal();
    assert [Shield] + THIRD + [ShuffleDeck] + DRAWN == Wasted();
    s := LongEnd(game, THIRD, FOURTH, DRAWN, TAKEN);
    OccursSoundly(s);
    StuckExactly(s);
  }

  lemma LongEnd(game: State -> bool, third: seq<Code>, fourth: seq<Code>, drawn: seq<Code>, taken: seq<Code>)
    returns (t: State)
    requires Trail(game) && forall s :: game(s) <==> Occurs(s)
    requires WholeDeck(third, fourth, drawn, taken) && ExplosiveHolder in fourth
    requires [Shield] + third + [ShuffleDeck] + drawn == Wasted()
    ensures game(t) && t.phase == PlayerTurn && t.draw == [] && NothingToPlay(t)
  {
    var pile := Weave([ShuffleDeck] + drawn, [Explosive] + taken);
    LongSuffices(third, fourth, drawn, taken);
    LongPile(drawn, taken, Shield);
    var s := BeginsExactly(third, fourth, pile);
    t := LongGame(game, s, third, fourth, drawn, taken);
  }

  lemma WholePrefix(draw: seq<Card>, pile: seq<Code>)
    requires |draw| == |pile| && CodesOf(draw[..|pile|]) == pile
    ensures CodesOf(draw) == pile
  {
    assert draw[..|pile|] == draw;
  }

  /** The wished pile is the whole pile. */
  lemma BeginsExactly(one: seq<Code>, two: seq<Code>, pile: seq<Code>) returns (s: State)
    requires |one| == 7 && |two| == 7 && Plain(one + two) && Suffices(2, one + two, pile) && |pile| == 28
    ensures Occurs(s) && Facing(s, 0, [[Shield] + one, [Shield] + two]) && s.phase == PlayerTurn
    ensures CodesOf(s.draw) == pile
  {
    s := Begins(one, two, pile);
    WholePrefix(s.draw, pile);
  }
}
