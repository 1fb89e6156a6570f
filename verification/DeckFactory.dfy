/** The deck factory and `StartGame`: counters and dealing loops, proved to lay the table of `Deal`. */
module DeckFactories {
  import opened Cards
  import opened Shuffling
  import opened Table
  import opened Deck
  import opened Deal
  import E = Engine

  class DeckFactory {
    var nextId: nat

    constructor ()
      ensures nextId == 0
    {
      nextId := 0;
    }

    method NewCard(code: Code) returns (card: Card)
      modifies this
      ensures nextId == old(nextId) + 1 && card == Card(nextId, code)
    {
      nextId := nextId + 1;
      card := Card(nextId, code);
    }

    /** Cards of every kind in deck order, under consecutive new ids. */
    method NewCardsFromCounts(counts: Counts) returns (cards: seq<Card>)
      modifies this
      ensures cards == Numbered(Codes(counts), old(nextId)) && nextId == Mid(Codes(counts), old(nextId))
    {
      cards := [];
      ghost var start := nextId;
      var k := 0;
      while k < DECK_CARD_KINDS
        invariant 0 <= k <= DECK_CARD_KINDS
        invariant cards == Numbered(CodesUpTo(counts, k), start) && nextId == Mid(CodesUpTo(counts, k), start)
      {
        NextKind(counts, k, k + 1);
        cards := AppendCards(cards, CodeAt(k), KindCount(counts, k), CodesUpTo(counts, k), start);
        k := k + 1;
      }
    }

    /** Append `n` new cards of one kind; `codes` are the kinds numbered so far. */
    method AppendCards(cards: seq<Card>, code: Code, n: nat, ghost codes: seq<Code>, ghost start: nat)
      returns (more: seq<Card>)
      requires cards == Numbered(codes, start) && nextId == Mid(codes, start)
      modifies this
      ensures more == Numbered(codes + Repeat(code, n), start) && nextId == Mid(codes + Repeat(code, n), start)
    {
      more := cards;
      var i := 0;
      assert codes + Repeat(code, 0) == codes;
      while i < n
        invariant 0 <= i <= n
        invariant more == Numbered(codes + Repeat(code, i), start) && nextId == Mid(codes + Repeat(code, i), start)
      {
        OneMoreCard(codes, code, i, i + 1, start);
        var card := NewCard(code);
        more := more + [card];
        i := i + 1;
      }
    }

    method NewDeck(playerCount: nat) returns (deck: Option<seq<Card>>)
      modifies this
      ensures deck == if ValidPlayerCount(playerCount)
          then Some(Numbered(Codes(DeckCardCounts(playerCount)), old(nextId))) else None
    {
      if !ValidPlayerCount(playerCount) {
        return None;
      }
      var cards := NewCardsFromCounts(DeckCardCounts(playerCount));
      deck := Some(cards);
    }

    /** The opening table, or null when the number of players is not supported. */
    method NewSetup(ids: seq<PlayerId>, rnd1: Random, rnd2: Random) returns (state: E.GameState?)
      modifies this
      ensures state != null <==> ValidPlayerCount(|ids|)
      ensures state != null ==> fresh(state) && E.Read(state, 0) == Setup(ids, old(nextId), rnd1, rnd2, 0)
    {
      if !ValidPlayerCount(|ids|) {
        return null;
      }
      PoolIsLargeEnough(|ids|);
      var ordered := NewCardsFromCounts(DealCounts(|ids|));
      var pool := Shuffle(ordered, rnd1);
      state := LayTable(ids, pool, ShieldCount(|ids|), rnd2);
    }

    method LayTable(ids: seq<PlayerId>, pool: seq<Card>, shields: nat, rnd: Random) returns (state: E.GameState)
      requires ids != [] && Cut(|ids|) <= |pool| && |ids| <= shields
      modifies this
      ensures fresh(state) && E.Read(state, 0) == Laid(ids, pool, shields, old(nextId), rnd, 0)
    {
      ghost var mid := nextId;
      var players := DealHands(ids, pool);
      var extras := NewExtras(ids, shields, mid);
      var drawPile := Shuffle(pool[Cut(|ids|)..] + extras, rnd);
      var debt := FirstDebts(ids);
      state := new E.GameState(PlayerTurn, players, drawPile, ids[0], debt);
    }

    /** Only the first player owes a turn. */
    method FirstDebts(ids: seq<PlayerId>) returns (debt: map<PlayerId, int>)
      requires ids != []
      ensures debt == StartingDebt(ids)
    {
      debt := map[];
      var i := 0;
      while i < |ids|
        invariant 0 <= i <= |ids|
        invariant forall id :: id in debt <==> id in ids[..i]
        invariant forall id :: id in debt ==> debt[id] == 0
      {
        debt := debt[ids[i] := 0];
        i := i + 1;
      }
      assert ids[..i] == ids;
      debt := debt[ids[0] := 1];
    }

    method DealHands(ids: seq<PlayerId>, pool: seq<Card>) returns (players: seq<Player>)
      requires Cut(|ids|) <= |pool|
      modifies this
      ensures players == Dealt(ids, pool, old(nextId), |ids|) && nextId == Mid(Repeat(Shield, |ids|), old(nextId))
    {
      players := [];
      var dealIndex := 0;
      var i := 0;
      while i < |ids|
        invariant 0 <= i <= |ids| && dealIndex == Cut(i) && nextId == old(nextId) + i
        invariant players == Dealt(ids, pool, old(nextId), i)
      {
        var shield := NewCard(Shield);
        players := players + [Player(ids[i], [shield] + pool[dealIndex..dealIndex + 7], true)];
        dealIndex := dealIndex + 7;
        i := i + 1;
      }
    }

    /** The shields nobody was dealt and one explosive fewer than players. */
    method NewExtras(ids: seq<PlayerId>, shields: nat, ghost mid: nat) returns (extras: seq<Card>)
      requires ids != [] && |ids| <= shields && nextId == Mid(Repeat(Shield, |ids|), mid)
      modifies this
      ensures extras == Extras(ids, shields, mid)
    {
      ghost var start := nextId;
      extras := AppendCards([], Shield, shields - |ids|, [], start);
      assert [] + Repeat(Shield, shields - |ids|) == Repeat(Shield, shields - |ids|);
      extras := AppendCards(extras, Explosive, |ids| - 1, Repeat(Shield, shields - |ids|), start);
    }
  }

  lemma NextKind(counts: Counts, k: nat, next: nat)
    requires k < DECK_CARD_KINDS && next == k + 1
    ensures CodesUpTo(counts, next) == CodesUpTo(counts, k) + Repeat(CodeAt(k), KindCount(counts, k))
  {
    assert next - 1 == k;
  }

  lemma OneMoreCard(codes: seq<Code>, code: Code, i: nat, j: nat, start: nat)
    requires j == i + 1
    ensures Numbered(codes + Repeat(code, j), start)
         == Numbered(codes + Repeat(code, i), start) + [Card(Mid(codes + Repeat(code, i), start) + 1, code)]
    ensures Mid(codes + Repeat(code, j), start) == Mid(codes + Repeat(code, i), start) + 1
  {
    assert j - 1 == i;
    assert Repeat(code, j) == Repeat(code, i) + [code];
    assert codes + Repeat(code, j) == (codes + Repeat(code, i)) + [code];
    NumberedOneMore(codes + Repeat(code, i), code, start);
  }

  lemma NumberedOneMore(codes: seq<Code>, code: Code, start: nat)
    ensures Numbered(codes + [code], start) == Numbered(codes, start) + [Card(Mid(codes, start) + 1, code)]
  {
    assert (codes + [code])[..|codes|] == codes;
  }

  /** `StartGame`: a fresh table, the engine untouched, and two events on the counter. */
  method StartGame(factory: DeckFactory, engine: E.Engine, ids: seq<PlayerId>, rnd1: Random, rnd2: Random)
    returns (state: E.GameState?)
    modifies factory
    ensures state != null <==> ValidPlayerCount(|ids|)
    ensures state != null ==> fresh(state) && E.Read(state, engine.nextPending)
                                              == Start(ids, old(factory.nextId), rnd1, rnd2, engine.nextPending)
  {
    state := factory.NewSetup(ids, rnd1, rnd2);
    if state != null {
      engine.NextEvent(state);
      engine.NextEvent(state);
    }
  }
}
