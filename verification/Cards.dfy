/** Cards, card codes and the pile helpers every other module uses. */
module Cards {

  datatype Option<+T> = None | Some(value: T)

  // Card identifiers are numbered from 1; 0 stands for the empty string.
  type CardId = nat

  datatype Code =
    | Explosive | Shield | Cancel
    | ForceExtraTurns | TargetExtraTurns | SkipTurn | SkipAllTurns
    | RequestCard | ShuffleDeck | PeekDeck | PeekDeck5 | WildToken
    | ExplosiveHolder | CollectiveRecycle | RevealHeldCard | DrawFromBottom
    | SwapTopBottom | ReorderTop3 | ReorderTop5 | BlindHand | StackExplosivesOnTop
    | TokenA | TokenB | TokenC | TokenD | TokenE
    | Unlisted  // any other string; only a requested code can be one

  datatype Card = Card(id: CardId, code: Code)

  predicate IsToken(code: Code) {
    code in {TokenA, TokenB, TokenC, TokenD, TokenE}
  }

  predicate IsAction(code: Code) {
    IsSupportedAction(code) || code in {Cancel, BlindHand, StackExplosivesOnTop}
  }

  predicate IsSupportedAction(code: Code) {
    match code
    case SkipTurn | SkipAllTurns | ForceExtraTurns | TargetExtraTurns | ShuffleDeck
      | PeekDeck | PeekDeck5 | RequestCard | RevealHeldCard | DrawFromBottom
      | SwapTopBottom | ReorderTop3 | ReorderTop5 | CollectiveRecycle => true
    case _ => false
  }

  predicate RequiresTarget(code: Code) {
    code in {TargetExtraTurns, RequestCard, RevealHeldCard, BlindHand}
  }

  /** The position of the first card with the given id, or -1. */
  function IndexOfId(cards: seq<Card>, id: CardId): (r: int)
    ensures -1 <= r < |cards|
    ensures r >= 0 ==> cards[r].id == id && forall k :: 0 <= k < r ==> cards[k].id != id
    ensures r < 0 ==> forall k :: 0 <= k < |cards| ==> cards[k].id != id
  {
    if cards == [] then -1
    else if cards[0].id == id then 0
    else
      var r := IndexOfId(cards[1..], id);
      assert forall k :: 1 <= k < |cards| ==> cards[k] == cards[1..][k - 1];
      if r < 0 then -1 else r + 1
  }

  /** The position of the first card with the given code, or -1. */
  function IndexOfCode(cards: seq<Card>, code: Code): (r: int)
    ensures -1 <= r < |cards|
    ensures r >= 0 ==> cards[r].code == code && forall k :: 0 <= k < r ==> cards[k].code != code
    ensures r < 0 ==> forall k :: 0 <= k < |cards| ==> cards[k].code != code
  {
    if cards == [] then -1
    else if cards[0].code == code then 0
    else
      var r := IndexOfCode(cards[1..], code);
      assert forall k :: 1 <= k < |cards| ==> cards[k] == cards[1..][k - 1];
      if r < 0 then -1 else r + 1
  }

  /** How many cards carry the given code. */
  function Count(cards: seq<Card>, code: Code): nat {
    if cards == [] then 0
    else Count(cards[..|cards| - 1], code) + if cards[|cards| - 1].code == code then 1 else 0
  }

  predicate HasCode(cards: seq<Card>, code: Code) {
    exists k :: 0 <= k < |cards| && cards[k].code == code
  }

  function RemoveAt<T>(s: seq<T>, i: nat): seq<T>
    requires i < |s|
  {
    var front := s[..i];
    front + s[|front| + 1..]
  }

  function InsertAt<T>(s: seq<T>, x: T, i: nat): seq<T>
    requires i <= |s|
  {
    s[..i] + [x] + s[i..]
  }

  function Top(cards: seq<Card>, limit: nat): seq<Card> {
    if limit > |cards| then cards else cards[..limit]
  }

  function IdsOf(cards: seq<Card>): (ids: seq<CardId>)
    ensures |ids| == |cards|
    ensures forall k :: 0 <= k < |cards| ==> ids[k] == cards[k].id
  {
    seq(|cards|, k requires 0 <= k < |cards| => cards[k].id)
  }

  /** The cards whose id is not listed, in their old order. */
  function Without(cards: seq<Card>, ids: seq<CardId>): seq<Card> {
    if cards == [] then []
    else
      var last := cards[|cards| - 1];
      Without(cards[..|cards| - 1], ids) + if last.id in ids then [] else [last]
  }

  predicate DistinctIds(cards: seq<Card>) {
    forall i, j :: 0 <= i < j < |cards| ==> cards[i].id != cards[j].id
  }

  /** No element occurs twice. */
  predicate Distinct<T(==)>(s: seq<T>) {
    s == [] || (s[|s| - 1] !in s[..|s| - 1] && Distinct(s[..|s| - 1]))
  }

  // ---------------------------------------------------------------- lemmas

  /** Distinctness, pairwise. */
  lemma {:induction false} DistinctPairs<T>(s: seq<T>)
    ensures Distinct(s) <==> forall i, j :: 0 <= i < j < |s| ==> s[i] != s[j]
  {
    if s != [] {
      var front, last := s[..|s| - 1], s[|s| - 1];
      DistinctPairs(front);
      if last in front {
        var i :| 0 <= i < |front| && front[i] == last;
        assert s[i] == s[|s| - 1];
      }
    }
  }

  /** Distinctness, by multiplicity. */
  lemma {:induction false} DistinctCounts<T>(s: seq<T>)
    ensures Distinct(s) <==> forall x :: multiset(s)[x] <= 1
  {
    if s != [] {
      var front, last := s[..|s| - 1], s[|s| - 1];
      DistinctCounts(front);
      assert s == front + [last];
      if last in front {
        assert multiset(s)[last] == multiset(front)[last] + 1;
      } else if Distinct(front) {
        forall x ensures multiset(s)[x] <= 1 {
          assert multiset(front)[x] <= 1 && multiset(front)[last] == 0;
        }
      } else {
        var x :| multiset(front)[x] > 1;
        assert multiset(s)[x] > 1;
      }
    }
  }

  lemma {:induction false} CountAppend(a: seq<Card>, b: seq<Card>, code: Code)
    ensures Count(a + b, code) == Count(a, code) + Count(b, code)
  {
    if b == [] {
      assert a + b == a;
    } else {
      assert (a + b)[..|a + b| - 1] == a + b[..|b| - 1];
      CountAppend(a, b[..|b| - 1], code);
    }
  }

  lemma {:induction false} CountOne(card: Card, code: Code)
    ensures Count([card], code) == if card.code == code then 1 else 0
  {
    assert [card][..0] == [];
  }

  lemma {:induction false} CountRemoveAt(cards: seq<Card>, i: nat, code: Code)
    requires i < |cards|
    ensures Count(cards, code) == Count(RemoveAt(cards, i), code) + if cards[i].code == code then 1 else 0
  {
    assert cards == cards[..i] + ([cards[i]] + cards[i + 1..]);
    CountAppend(cards[..i], [cards[i]] + cards[i + 1..], code);
    CountAppend([cards[i]], cards[i + 1..], code);
    CountAppend(cards[..i], cards[i + 1..], code);
    CountOne(cards[i], code);
  }

  /** A code occurs exactly when its count is positive. */
  lemma {:induction false} CountPositive(cards: seq<Card>, code: Code)
    ensures Count(cards, code) > 0 <==> IndexOfCode(cards, code) >= 0
    ensures HasCode(cards, code) <==> IndexOfCode(cards, code) >= 0
    ensures Count(cards, code) <= |cards|
  {
    if cards != [] {
      var front := cards[..|cards| - 1];
      CountPositive(front, code);
      if IndexOfCode(front, code) >= 0 {
        assert cards[IndexOfCode(front, code)].code == code;
      } else if cards[|cards| - 1].code != code {
        forall k | 0 <= k < |cards| ensures cards[k].code != code {
          if k < |front| { assert cards[k] == front[k]; }
        }
      }
    }
  }

  lemma MultisetRemoveAt<T>(s: seq<T>, i: nat)
    requires i < |s|
    ensures multiset(s) == multiset(RemoveAt(s, i)) + multiset{s[i]}
  {
    assert s == s[..i] + [s[i]] + s[i + 1..];
  }

  lemma MultisetInsertAt<T>(s: seq<T>, x: T, i: nat)
    requires i <= |s|
    ensures multiset(InsertAt(s, x, i)) == multiset(s) + multiset{x}
  {
    assert s == s[..i] + s[i..];
  }

  lemma MultisetSwap<T>(s: seq<T>, i: nat, j: nat)
    requires i < |s| && j < |s|
    ensures multiset(s[i := s[j]][j := s[i]]) == multiset(s)
  {
    var t := s[i := s[j]];
    MultisetUpdate(s, i, s[j]);
    MultisetUpdate(t, j, s[i]);
  }

  lemma MultisetUpdate<T>(s: seq<T>, i: nat, x: T)
    requires i < |s|
    ensures multiset(s[i := x]) + multiset{s[i]} == multiset(s) + multiset{x}
  {
    assert s == s[..i] + [s[i]] + s[i + 1..];
    assert s[i := x] == s[..i] + [x] + s[i + 1..];
  }

  /** Cancelling `h` on both sides of a multiset equation. */
  lemma CancelMultiset<T>(a: multiset<T>, b: multiset<T>, h: multiset<T>)
    requires a + h == b + h
    ensures a == b
  {
    forall y ensures a[y] == b[y] {
      assert (a + h)[y] == (b + h)[y];
    }
  }

  lemma RegroupMultisets<T>(a: multiset<T>, b: multiset<T>, c: multiset<T>, d: multiset<T>)
    ensures (a + b) + (c + d) == (a + c) + (b + d)
  {
  }

  lemma {:induction false} WithoutCount(cards: seq<Card>, ids: seq<CardId>, c: Card)
    ensures multiset(Without(cards, ids))[c] == if c.id in ids then 0 else multiset(cards)[c]
    ensures forall k :: 0 <= k < |Without(cards, ids)| ==>
      Without(cards, ids)[k] in cards && Without(cards, ids)[k].id !in ids
  {
    if cards != [] {
      assert cards == cards[..|cards| - 1] + [cards[|cards| - 1]];
      WithoutCount(cards[..|cards| - 1], ids, c);
    }
  }

  lemma SubsetSize<T>(a: set<T>, b: set<T>)
    requires a <= b
    ensures |a| <= |b| && (|a| == |b| <==> a == b)
  {
    assert b == a + (b - a);
  }

  function Elements(ids: seq<nat>): set<nat> {
    set id | id in ids
  }

  lemma {:induction false} ElementsSize(ids: seq<nat>)
    requires Distinct(ids)
    ensures |Elements(ids)| == |ids|
  {
    if ids != [] {
      var front, last := ids[..|ids| - 1], ids[|ids| - 1];
      ElementsSize(front);
      assert Elements(ids) == Elements(front) + {last};
    }
  }

  lemma {:induction false} CountByDistinct<T>(s: seq<T>, x: T)
    requires Distinct(s)
    ensures multiset(s)[x] == if x in s then 1 else 0
  {
    if s != [] {
      var front, last := s[..|s| - 1], s[|s| - 1];
      assert s == front + [last];
      CountByDistinct(front, x);
    }
  }

  lemma DistinctAppend<T>(s: seq<T>, x: T)
    requires Distinct(s) && x !in s
    ensures Distinct(s + [x])
  {
    assert (s + [x])[..|s|] == s;
  }
}
