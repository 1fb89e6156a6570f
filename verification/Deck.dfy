/** Deck profiles and the deal that starts a game. */
module Deck {
  import opened Cards

  const MIN_PLAYERS := 2
  const MAX_PLAYERS := 10

  /** Where the pool stands after `k` players have taken their seven cards. */
  function Cut(k: nat): nat {
    7 * k
  }

  datatype Profile = Small | Medium | Large  // 2-3, 4-7 and 8-10 players

  // How many cards of each kind: a profile's table plus the shields and explosives set for the table size.
  datatype Counts = Counts(profile: Profile, shields: nat, explosives: nat)

  const DECK_CARD_KINDS := 26

  /** The fixed order in which a deck lists its kinds of card. */
  function CodeAt(k: nat): Code {
    match k
    case 0 => Explosive case 1 => Shield case 2 => Cancel case 3 => ForceExtraTurns
    case 4 => TargetExtraTurns case 5 => SkipTurn case 6 => SkipAllTurns case 7 => RequestCard
    case 8 => ShuffleDeck case 9 => PeekDeck case 10 => PeekDeck5 case 11 => WildToken
    case 12 => ExplosiveHolder case 13 => CollectiveRecycle case 14 => RevealHeldCard case 15 => DrawFromBottom
    case 16 => SwapTopBottom case 17 => ReorderTop3 case 18 => ReorderTop5 case 19 => BlindHand
    case 20 => StackExplosivesOnTop case 21 => TokenA case 22 => TokenB case 23 => TokenC
    case 24 => TokenD case 25 => TokenE
    case _ => Unlisted
  }

  function PerProfile(profile: Profile, small: nat, medium: nat, large: nat): nat {
    match profile case Small => small case Medium => medium case Large => large
  }

  /** A profile's table by deck order; kinds it does not list count zero. */
  function ProfileCount(profile: Profile, k: nat): nat {
    match k
    case 2 => PerProfile(profile, 4, 5, 9)  // Cancel
    case 3 => PerProfile(profile, 2, 3, 5)  // ForceExtraTurns
    case 4 => PerProfile(profile, 2, 3, 5)  // TargetExtraTurns
    case 5 => PerProfile(profile, 4, 6, 10)  // SkipTurn
    case 6 => PerProfile(profile, 1, 1, 1)  // SkipAllTurns
    case 7 => PerProfile(profile, 2, 4, 6)  // RequestCard
    case 8 => PerProfile(profile, 2, 4, 6)  // ShuffleDeck
    case 9 => PerProfile(profile, 3, 3, 6)  // PeekDeck
    case 10 => PerProfile(profile, 0, 1, 1)  // PeekDeck5
    case 11 => PerProfile(profile, 2, 4, 6)  // WildToken
    case 12 => PerProfile(profile, 1, 1, 1)  // ExplosiveHolder
    case 13 => PerProfile(profile, 1, 1, 1)  // CollectiveRecycle
    case 14 => PerProfile(profile, 1, 2, 3)  // RevealHeldCard
    case 15 => PerProfile(profile, 3, 4, 7)  // DrawFromBottom
    case 16 => PerProfile(profile, 1, 2, 3)  // SwapTopBottom
    case 17 => PerProfile(profile, 3, 4, 6)  // ReorderTop3
    case 18 => PerProfile(profile, 0, 1, 1)  // ReorderTop5
    case 19 => PerProfile(profile, 2, 2, 2)  // BlindHand
    case 20 => PerProfile(profile, 1, 1, 1)  // StackExplosivesOnTop
    case 21 => PerProfile(profile, 3, 4, 7)  // TokenA
    case _ => 0
  }

  /** How many cards of the k-th kind. */
  function KindCount(counts: Counts, k: nat): nat {
    if k == 0 then counts.explosives else if k == 1 then counts.shields else ProfileCount(counts.profile, k)
  }

  function CountOf(counts: Counts, code: Code): nat {
    KindCount(counts, Rank(code))
  }

  predicate ValidPlayerCount(n: nat) {
    MIN_PLAYERS <= n <= MAX_PLAYERS
  }

  function ProfileFor(n: nat): Profile
    requires ValidPlayerCount(n)
  {
    if n <= 3 then Small else if n <= 7 then Medium else Large
  }

  /** Eight or ten shields for the larger tables, three more than players for the small one. */
  function ShieldCount(n: nat): nat
    requires ValidPlayerCount(n)
  {
    match ProfileFor(n)
    case Small => n + 3
    case Medium => 8
    case Large => 10
  }

  function DeckCardCounts(n: nat): Counts
    requires ValidPlayerCount(n)
  {
    Counts(ProfileFor(n), ShieldCount(n), n - 1)
  }

  // --------------------------------------------------------- decks as values

  function Repeat(x: Code, n: nat): (s: seq<Code>)
    ensures |s| == n
  {
    if n == 0 then [] else Repeat(x, n - 1) + [x]
  }

  /** The codes of the first `k` kinds of card, each as often as counted. */
  function CodesUpTo(counts: Counts, k: nat): seq<Code>
    requires k <= DECK_CARD_KINDS
    decreases counts, k
  {
    if k == 0 then []
    else CodesUpTo(counts, k - 1) + Repeat(CodeAt(k - 1), KindCount(counts, k - 1))
  }

  function Codes(counts: Counts): seq<Code> {
    CodesUpTo(counts, DECK_CARD_KINDS)
  }

  /** Cards with these codes and the ids after `last`, in order. */
  function Numbered(codes: seq<Code>, last: nat): (cards: seq<Card>)
    ensures |cards| == |codes|
  {
    if codes == [] then []
    else Numbered(codes[..|codes| - 1], last) + [Card(last + |codes|, codes[|codes| - 1])]
  }

  function DealCounts(n: nat): Counts
    requires ValidPlayerCount(n)
  {
    DeckCardCounts(n).(explosives := 0, shields := 0)
  }

  // ---------------------------------------------------- the order of the codes

  function Rank(code: Code): nat {
    match code
    case Explosive => 0 case Shield => 1 case Cancel => 2 case ForceExtraTurns => 3
    case TargetExtraTurns => 4 case SkipTurn => 5 case SkipAllTurns => 6 case RequestCard => 7
    case ShuffleDeck => 8 case PeekDeck => 9 case PeekDeck5 => 10 case WildToken => 11
    case ExplosiveHolder => 12 case CollectiveRecycle => 13 case RevealHeldCard => 14
    case DrawFromBottom => 15 case SwapTopBottom => 16 case ReorderTop3 => 17 case ReorderTop5 => 18
    case BlindHand => 19 case StackExplosivesOnTop => 20 case TokenA => 21 case TokenB => 22
    case TokenC => 23 case TokenD => 24 case TokenE => 25 case Unlisted => 26
  }

  lemma OrderRanks(k: nat)
    requires k < DECK_CARD_KINDS
    ensures Rank(CodeAt(k)) == k && CodeAt(k) != Unlisted
  {
  }

  lemma RankOrders(code: Code)
    requires code != Unlisted
    ensures Rank(code) < DECK_CARD_KINDS && CodeAt(Rank(code)) == code
  {
  }

  lemma SameKind(i: nat, j: nat)
    requires i < DECK_CARD_KINDS && j < DECK_CARD_KINDS
    ensures CodeAt(i) == CodeAt(j) <==> i == j
  {
    OrderRanks(i);
    OrderRanks(j);
  }

  /** The code list holds each kind exactly as often as counted, and nothing unlisted. */
  lemma {:induction false} KindsCount(counts: Counts, k: nat, j: nat)
    requires k <= DECK_CARD_KINDS && j < DECK_CARD_KINDS
    ensures multiset(CodesUpTo(counts, k))[CodeAt(j)] == if j < k then KindCount(counts, j) else 0
    ensures multiset(CodesUpTo(counts, k))[Unlisted] == 0
    decreases k, 0
  {
    if k > 0 {
      KindsNext(counts, k - 1, k, j);
    }
  }

  lemma {:induction false} KindsNext(counts: Counts, i: nat, k: nat, j: nat)
    requires i < DECK_CARD_KINDS && k == i + 1 && j < DECK_CARD_KINDS
    ensures multiset(CodesUpTo(counts, k))[CodeAt(j)] == if j < k then KindCount(counts, j) else 0
    ensures multiset(CodesUpTo(counts, k))[Unlisted] == 0
    decreases i, 1
  {
    KindsCount(counts, i, j);
    OneMoreKind(counts, i, k, CodeAt(j));
    OneMoreKind(counts, i, k, Unlisted);
    SameKind(i, j);
    OrderRanks(i);
  }

  lemma OneMoreKind(counts: Counts, i: nat, k: nat, code: Code)
    requires i < DECK_CARD_KINDS && k == i + 1
    ensures multiset(CodesUpTo(counts, k))[code] ==
      multiset(CodesUpTo(counts, i))[code] + if CodeAt(i) == code then KindCount(counts, i) else 0
  {
    assert k - 1 == i;
    AppendRepeat(CodesUpTo(counts, i), CodeAt(i), KindCount(counts, i), code);
  }

  lemma CodesCount(counts: Counts, code: Code)
    ensures multiset(Codes(counts))[code] == if code == Unlisted then 0 else CountOf(counts, code)
  {
    if code == Unlisted {
      KindsCount(counts, DECK_CARD_KINDS, 0);
    } else {
      RankOrders(code);
      KindsCount(counts, DECK_CARD_KINDS, Rank(code));
    }
  }

  lemma AppendRepeat(front: seq<Code>, x: Code, n: nat, code: Code)
    ensures multiset(front + Repeat(x, n))[code] == multiset(front)[code] + if x == code then n else 0
  {
    RepeatCount(x, n, code);
  }

  lemma {:induction false} RepeatCount(x: Code, n: nat, y: Code)
    ensures multiset(Repeat(x, n))[y] == if x == y then n else 0
  {
    if n > 0 {
      RepeatCount(x, n - 1, y);
    }
  }

  /** The number of cards the counts call for, kind by kind. */
  function SizeUpTo(counts: Counts, k: nat): (n: nat)
    requires k <= DECK_CARD_KINDS
    decreases counts, k
  {
    if k == 0 then 0 else SizeUpTo(counts, k - 1) + KindCount(counts, k - 1)
  }

  lemma {:induction false} CodesSize(counts: Counts, k: nat)
    requires k <= DECK_CARD_KINDS
    ensures |CodesUpTo(counts, k)| == SizeUpTo(counts, k)
  {
    if k > 0 {
      CodesSize(counts, k - 1);
    }
  }

  lemma SizeStep(counts: Counts, k: nat)
    requires k < DECK_CARD_KINDS
    ensures SizeUpTo(counts, k + 1) == SizeUpTo(counts, k) + KindCount(counts, k)
  {
  }

  lemma FirstKinds(profile: Profile)
    ensures SizeUpTo(Counts(profile, 0, 0), 12) == PerProfile(profile, 22, 34, 55)
  {
    var c := Counts(profile, 0, 0);
    assert SizeUpTo(c, 4) == PerProfile(profile, 6, 8, 14) by {
      SizeStep(c, 0); SizeStep(c, 1); SizeStep(c, 2); SizeStep(c, 3);
    }
    assert SizeUpTo(c, 8) == PerProfile(profile, 15, 22, 36) by {
      SizeStep(c, 4); SizeStep(c, 5); SizeStep(c, 6); SizeStep(c, 7);
    }
    assert SizeUpTo(c, 12) == PerProfile(profile, 22, 34, 55) by {
      SizeStep(c, 8); SizeStep(c, 9); SizeStep(c, 10); SizeStep(c, 11);
    }
  }

  lemma MiddleKinds(profile: Profile)
    ensures SizeUpTo(Counts(profile, 0, 0), 20) == PerProfile(profile, 34, 51, 79)
  {
    var c := Counts(profile, 0, 0);
    FirstKinds(profile);
    assert SizeUpTo(c, 16) == PerProfile(profile, 28, 42, 67) by {
      SizeStep(c, 12); SizeStep(c, 13); SizeStep(c, 14); SizeStep(c, 15);
    }
    assert SizeUpTo(c, 20) == PerProfile(profile, 34, 51, 79) by {
      SizeStep(c, 16); SizeStep(c, 17); SizeStep(c, 18); SizeStep(c, 19);
    }
  }

  lemma LastKinds(profile: Profile)
    ensures SizeUpTo(Counts(profile, 0, 0), 24) == PerProfile(profile, 38, 56, 87)
  {
    var c := Counts(profile, 0, 0);
    MiddleKinds(profile);
    SizeStep(c, 20);
    SizeStep(c, 21);
    SizeStep(c, 22);
    SizeStep(c, 23);
  }

  /** The totals of the three tables. */
  lemma ProfileSize(profile: Profile)
    ensures SizeUpTo(Counts(profile, 0, 0), 26) == PerProfile(profile, 38, 56, 87)
  {
    var c := Counts(profile, 0, 0);
    LastKinds(profile);
    NoneOfKind(c, 24, 25);
    NoneOfKind(c, 25, 26);
  }

  lemma NoneOfKind(counts: Counts, k: nat, next: nat)
    requires k in {24, 25} && next == k + 1
    ensures SizeUpTo(counts, next) == SizeUpTo(counts, k)
  {
    SizeStep(counts, k);
    assert ProfileCount(counts.profile, k) == 0;
  }

  /** There are enough cards to deal. */
  lemma PoolIsLargeEnough(n: nat)
    requires ValidPlayerCount(n)
    ensures |Codes(DealCounts(n))| == PerProfile(ProfileFor(n), 38, 56, 87)
    ensures Cut(n) <= |Codes(DealCounts(n))|
    ensures ShieldCount(n) >= n
  {
    PoolSize(n);
    PoolFits(n);
  }

  lemma PoolSize(n: nat)
    requires ValidPlayerCount(n)
    ensures |Codes(DealCounts(n))| == PerProfile(ProfileFor(n), 38, 56, 87)
  {
    CodesSize(DealCounts(n), DECK_CARD_KINDS);
    ProfileSize(ProfileFor(n));
  }

  lemma PoolFits(n: nat)
    requires ValidPlayerCount(n)
    ensures Cut(n) <= PerProfile(ProfileFor(n), 38, 56, 87) && ShieldCount(n) >= n
  {
  }

  /** The dealt kinds, shields and explosives together are `DeckCardCounts`. */
  lemma DeckKinds(n: nat, code: Code)
    requires ValidPlayerCount(n)
    ensures multiset(Codes(DealCounts(n)))[code] + (if code == Shield then ShieldCount(n) else 0)
        + (if code == Explosive then n - 1 else 0)
         == CountOf(DeckCardCounts(n), code)
  {
    CodesCount(DealCounts(n), code);
    DealtOrAdded(n, code);
  }

  lemma DealtOrAdded(n: nat, code: Code)
    requires ValidPlayerCount(n)
    ensures (if code == Unlisted then 0 else CountOf(DealCounts(n), code))
      + (if code == Shield then ShieldCount(n) else 0) + (if code == Explosive then n - 1 else 0)
          == CountOf(DeckCardCounts(n), code)
  {
  }

  /** No shields or explosives are among the dealt kinds, and one explosive holder is. */
  lemma DealtKinds(n: nat, code: Code)
    requires ValidPlayerCount(n) && code in {Shield, Explosive, ExplosiveHolder}
    ensures multiset(Codes(DealCounts(n)))[code] == if code == ExplosiveHolder then 1 else 0
  {
    CodesCount(DealCounts(n), code);
    DealtThree(n, code);
  }

  lemma DealtThree(n: nat, code: Code)
    requires ValidPlayerCount(n) && code in {Shield, Explosive, ExplosiveHolder}
    ensures CountOf(DealCounts(n), code) == if code == ExplosiveHolder then 1 else 0
  {
  }

  // ------------------------------------------------------------ decks by players

  lemma {:induction false} SizeWithExtras(counts: Counts, k: nat)
    requires 2 <= k <= DECK_CARD_KINDS
    ensures SizeUpTo(counts, k) == SizeUpTo(Counts(counts.profile, 0, 0), k) + counts.shields + counts.explosives
  {
    if k == 2 {
      FirstTwoKinds(counts);
      FirstTwoKinds(Counts(counts.profile, 0, 0));
    } else {
      SizeWithExtras(counts, k - 1);
    }
  }

  lemma FirstTwoKinds(counts: Counts)
    ensures SizeUpTo(counts, 2) == counts.explosives + counts.shields
  {
    assert SizeUpTo(counts, 1) == counts.explosives by { SizeStep(counts, 0); }
    SizeStep(counts, 1);
  }

  /** How many cards, shields and explosives a deck has, player count by player count. */
  predicate SizesAre(n: nat, cards: nat, shields: nat, explosives: nat)
    requires ValidPlayerCount(n)
  {
    && |Codes(DeckCardCounts(n))| == cards
    && CountOf(DeckCardCounts(n), Shield) == shields && CountOf(DeckCardCounts(n), Explosive) == explosives
  }

  lemma DeckSize(n: nat)
    requires ValidPlayerCount(n)
    ensures |Codes(DeckCardCounts(n))| == PerProfile(ProfileFor(n), 38, 56, 87) + ShieldCount(n) + n - 1
  {
    CodesSize(DeckCardCounts(n), DECK_CARD_KINDS);
    SizeWithExtras(DeckCardCounts(n), DECK_CARD_KINDS);
    ProfileSize(ProfileFor(n));
  }

  lemma ExtrasOf(n: nat)
    requires ValidPlayerCount(n)
    ensures CountOf(DeckCardCounts(n), Shield) == ShieldCount(n) && CountOf(DeckCardCounts(n), Explosive) == n - 1
  {
  }

  /** The deck for every table size, from the smallest to the largest. */
  lemma DeckSizes(n: nat)
    requires ValidPlayerCount(n)
    ensures n == 2 ==> SizesAre(n, 44, 5, 1)
    ensures n == 3 ==> SizesAre(n, 46, 6, 2)
    ensures n == 4 ==> SizesAre(n, 67, 8, 3)
    ensures n == 5 ==> SizesAre(n, 68, 8, 4)
    ensures n == 6 ==> SizesAre(n, 69, 8, 5)
    ensures n == 7 ==> SizesAre(n, 70, 8, 6)
    ensures n == 8 ==> SizesAre(n, 104, 10, 7)
    ensures n == 9 ==> SizesAre(n, 105, 10, 8)
    ensures n == 10 ==> SizesAre(n, 106, 10, 9)
  {
    DeckSize(n);
    ExtrasOf(n);
  }

  /** The other kinds, by code, for two or three, four to seven, and eight to ten players. */
  function PerTable(code: Code, profile: Profile): nat {
    match code
    case Cancel => PerProfile(profile, 4, 5, 9)
    case ForceExtraTurns => PerProfile(profile, 2, 3, 5)
    case TargetExtraTurns => PerProfile(profile, 2, 3, 5)
    case SkipTurn => PerProfile(profile, 4, 6, 10)
    case SkipAllTurns => 1
    case RequestCard => PerProfile(profile, 2, 4, 6)
    case ShuffleDeck => PerProfile(profile, 2, 4, 6)
    case PeekDeck => PerProfile(profile, 3, 3, 6)
    case PeekDeck5 => PerProfile(profile, 0, 1, 1)
    case WildToken => PerProfile(profile, 2, 4, 6)
    case ExplosiveHolder => 1
    case CollectiveRecycle => 1
    case RevealHeldCard => PerProfile(profile, 1, 2, 3)
    case DrawFromBottom => PerProfile(profile, 3, 4, 7)
    case SwapTopBottom => PerProfile(profile, 1, 2, 3)
    case ReorderTop3 => PerProfile(profile, 3, 4, 6)
    case ReorderTop5 => PerProfile(profile, 0, 1, 1)
    case BlindHand => 2
    case StackExplosivesOnTop => 1
    case TokenA => PerProfile(profile, 3, 4, 7)
    case _ => 0
  }

  lemma DeckTables(n: nat, code: Code)
    requires ValidPlayerCount(n) && code !in {Shield, Explosive}
    ensures CountOf(DeckCardCounts(n), code) == PerTable(code, if n < 4 then Small else if n < 8 then Medium else Large)
  {
  }
}
