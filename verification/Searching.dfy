/** The search and filter loops over hands, piles and players. */
module Searching {
  import opened Cards
  import opened Table
  import opened Rules

  method FindPlayerIndexById(players: seq<Player>, id: PlayerId) returns (index: int)
    ensures index == Seat(players, id)
  {
    var i := 0;
    while i < |players|
      invariant 0 <= i <= |players|
      invariant forall k :: 0 <= k < i ==> players[k].id != id
    {
      if players[i].id == id {
        return i;
      }
      i := i + 1;
    }
    return -1;
  }

  method FindCardIndexById(cards: seq<Card>, id: CardId) returns (index: int)
    ensures index == IndexOfId(cards, id)
  {
    var i := 0;
    while i < |cards|
      invariant 0 <= i <= |cards|
      invariant forall k :: 0 <= k < i ==> cards[k].id != id
    {
      if cards[i].id == id {
        return i;
      }
      i := i + 1;
    }
    return -1;
  }

  method FindCardIndexByCode(cards: seq<Card>, code: Code) returns (index: int)
    ensures index == IndexOfCode(cards, code)
  {
    var i := 0;
    while i < |cards|
      invariant 0 <= i <= |cards|
      invariant forall k :: 0 <= k < i ==> cards[k].code != code
    {
      if cards[i].code == code {
        return i;
      }
      i := i + 1;
    }
    return -1;
  }

  method CountCardsByCode(cards: seq<Card>, code: Code) returns (count: nat)
    ensures count == Count(cards, code)
  {
    count := 0;
    var i := 0;
    while i < |cards|
      invariant 0 <= i <= |cards|
      invariant count == Count(cards[..i], code)
    {
      assert cards[..i + 1][..i] == cards[..i];
      if cards[i].code == code {
        count := count + 1;
      }
      i := i + 1;
    }
    assert cards[..i] == cards;
  }

  method CurrentAlivePlayer(players: seq<Player>, id: PlayerId) returns (index: int, err: Error)
    ensures err == AliveError(players, id)
    ensures err == NoError ==> index == Seat(players, id) && 0 <= index < |players|
  {
    index := FindPlayerIndexById(players, id);
    if index < 0 {
      return -1, PlayerNotFound;
    }
    if !players[index].alive {
      return -1, PlayerNotAlive;
    }
    return index, NoError;
  }

  method ValidateTarget(players: seq<Player>, source: PlayerId, target: PlayerId,
        mustHaveCards: bool) returns (err: Error)
    ensures err == TargetError(players, source, target, mustHaveCards)
  {
    if target == 0 {
      return TargetRequired;
    }
    if target == source {
      return InvalidTarget;
    }
    var index := FindPlayerIndexById(players, target);
    if index < 0 || !players[index].alive {
      return InvalidTarget;
    }
    if mustHaveCards && |players[index].hand| == 0 {
      return InvalidTarget;
    }
    return NoError;
  }

  method ContainsPlayerId(ids: seq<PlayerId>, id: PlayerId) returns (found: bool)
    ensures found == (id in ids)
  {
    var i := 0;
    while i < |ids|
      invariant 0 <= i <= |ids|
      invariant id !in ids[..i]
    {
      if ids[i] == id {
        return true;
      }
      i := i + 1;
    }
    return false;
  }

  method AlivePlayers(players: seq<Player>) returns (alive: seq<Player>)
    ensures alive == Living(players) && |alive| == AliveCount(players)
    ensures forall p :: p in alive <==> p in players && p.alive
    ensures alive != [] ==> alive[0].id == FirstAlive(players)
  {
    alive := [];
    var i := 0;
    while i < |players|
      invariant 0 <= i <= |players|
      invariant alive == Living(players[..i])
    {
      assert players[..i + 1][..i] == players[..i];
      if players[i].alive {
        alive := alive + [players[i]];
      }
      i := i + 1;
    }
    assert players[..i] == players;
    LivingAre(players);
    LivingFirst(players);
  }

  lemma {:induction false} LivingAre(players: seq<Player>)
    ensures |Living(players)| == AliveCount(players)
    ensures forall p :: p in Living(players) <==> p in players && p.alive
  {
    if players != [] {
      var front := players[..|players| - 1];
      LivingAre(front);
      assert players == front + [players[|players| - 1]];
    }
  }

  lemma {:induction false} LivingFirst(players: seq<Player>)
    ensures Living(players) != [] ==> Living(players)[0].id == FirstAlive(players)
    ensures Living(players) == [] ==> FirstAlive(players) == 0
  {
    if players != [] {
      var front, last := players[..|players| - 1], players[|players| - 1];
      LivingFirst(front);
      FirstAliveAppend(front, last);
      assert players == front + [last];
      LivingAre(front);
    }
  }

  lemma {:induction false} FirstAliveAppend(front: seq<Player>, last: Player)
    ensures FirstAlive(front + [last]) ==
      if exists p :: p in front && p.alive then FirstAlive(front) else if last.alive then last.id else 0
  {
    if front != [] {
      assert (front + [last])[1..] == front[1..] + [last];
      FirstAliveAppend(front[1..], last);
      assert front == [front[0]] + front[1..];
    }
  }

  method NextAlivePlayerId(players: seq<Player>, from: PlayerId) returns (id: PlayerId, err: Error)
    ensures match NextAlive(players, from)
      case Some(next) => err == NoError && id == next
      case None => err == if Seat(players, from) < 0 then PlayerNotFound else PlayerNotAlive
  {
    if |players| == 0 {
      return 0, PlayerNotFound;
    }
    var start := FindPlayerIndexById(players, from);
    if start < 0 {
      return 0, PlayerNotFound;
    }
    var step := 1;
    while step <= |players|
      invariant 1 <= step <= |players| + 1
      invariant NextAlive(players, from) == NextAliveFrom(players, start, step)
    {
      var index := (start + step) % |players|;
      if players[index].alive {
        return players[index].id, NoError;
      }
      step := step + 1;
    }
    return 0, PlayerNotAlive;
  }

  /** Drop the owner's marks on cards no longer in the hand, one key at a time in any order. */
  method ClearMarks(marks: map<CardId, Mark>, owner: PlayerId, hand: seq<Card>) returns (kept: map<CardId, Mark>)
    ensures kept == Unmarked(marks, owner, hand)
  {
    kept := marks;
    var todo := marks.Keys;
    while todo != {}
      invariant todo <= marks.Keys
      invariant kept == map id | id in marks
          && (id in todo || !(marks[id].owner == owner && IndexOfId(hand, id) < 0)) :: marks[id]
      decreases todo
    {
      var id :| id in todo;
      var index := FindCardIndexById(hand, id);
      if marks[id].owner == owner && index < 0 {
        kept := kept - {id};
      }
      todo := todo - {id};
    }
  }

  method RecycleEligiblePlayerIds(players: seq<Player>) returns (ids: seq<PlayerId>)
    ensures ids == Eligible(players)
  {
    ids := [];
    var i := 0;
    while i < |players|
      invariant 0 <= i <= |players|
      invariant ids == Eligible(players[..i])
    {
      assert players[..i + 1][..i] == players[..i];
      if players[i].alive && |players[i].hand| > 0 {
        ids := ids + [players[i].id];
      }
      i := i + 1;
    }
    assert players[..i] == players;
  }

  method RemoveCardsByIds(cards: seq<Card>, ids: seq<CardId>) returns (rest: seq<Card>)
    ensures rest == Without(cards, ids)
  {
    rest := [];
    var i := 0;
    while i < |cards|
      invariant 0 <= i <= |cards|
      invariant rest == Without(cards[..i], ids)
    {
      assert cards[..i + 1][..i] == cards[..i];
      if cards[i].id !in ids {
        rest := rest + [cards[i]];
      }
      i := i + 1;
    }
    assert cards[..i] == cards;
  }

  /** Collect the named cards, stopping at the first id that is empty, repeated or not in the hand. */
  method CardsByIdsInHand(hand: seq<Card>, ids: seq<CardId>) returns (cards: seq<Card>, err: Error)
    ensures err == if ids == [] then InvalidCardPlay else IdsError(hand, ids)
    ensures err == NoError ==> cards == Picked(hand, ids)
  {
    cards := [];
    if |ids| == 0 {
      return [], InvalidCardPlay;
    }
    var seen: set<CardId> := {};
    var i := 0;
    while i < |ids|
      invariant 0 <= i <= |ids|
      invariant forall id :: id in seen <==> id in ids[..i]
      invariant IdsError(hand, ids[..i]) == NoError && cards == Picked(hand, ids[..i])
    {
      assert ids[..i + 1][..i] == ids[..i];
      if ids[i] == 0 || ids[i] in seen {
        FirstFault(hand, ids, i + 1);
        return [], InvalidCardPlay;
      }
      var index := FindCardIndexById(hand, ids[i]);
      if index < 0 {
        FirstFault(hand, ids, i + 1);
        return [], CardNotInHand;
      }
      seen := seen + {ids[i]};
      cards := cards + [hand[index]];
      i := i + 1;
    }
    assert ids[..i] == ids;
    return cards, NoError;
  }

  /** A fault in a prefix is the fault of the whole list. */
  lemma {:induction false} FirstFault(hand: seq<Card>, ids: seq<CardId>, n: nat)
    requires n <= |ids| && IdsError(hand, ids[..n]) != NoError
    ensures IdsError(hand, ids) == IdsError(hand, ids[..n])
    decreases |ids| - n
  {
    if n == |ids| {
      assert ids[..n] == ids;
    } else {
      assert ids[..n + 1][..n] == ids[..n];
      FirstFault(hand, ids, n + 1);
    }
  }

  method ValidateCombo(hand: seq<Card>, cards: seq<Card>, requested: Option<Code>) returns (kind: ComboKind)
    ensures kind == ComboOf(hand, cards, requested)
  {
    if |cards| == 2 {
      var ok := ValidMatchingCombo(cards);
      return if ok then Pair else NoCombo;
    } else if |cards| == 3 {
      var ok := ValidMatchingCombo(cards);
      return if ok && requested.Some? then Triple else NoCombo;
    } else if |cards| == 5 {
      var ok := ValidFiveDifferentCombo(hand, cards);
      return if ok then FiveDifferent else NoCombo;
    }
    return NoCombo;
  }

  /** One pass with a reference code; the order of the cards does not matter for the verdict. */
  method ValidMatchingCombo(cards: seq<Card>) returns (ok: bool)
    ensures ok == ValidMatching(cards)
  {
    if |cards| != 2 && |cards| != 3 {
      return false;
    }
    var reference: Option<Code> := None;
    var seenRealToken, usesTokenRules := false, false;
    var i := 0;
    while i < |cards|
      invariant 0 <= i <= |cards|
      invariant forall k :: 0 <= k < i ==> cards[k].code != Explosive
      invariant seenRealToken <==> exists k :: 0 <= k < i && IsToken(cards[k].code)
      invariant usesTokenRules <==> exists k :: 0 <= k < i && (IsToken(cards[k].code) || cards[k].code == WildToken)
      invariant reference.None? ==> forall k :: 0 <= k < i ==> cards[k].code == WildToken
      invariant reference.Some? ==> reference.value != WildToken && exists k ::
          0 <= k < i && cards[k].code == reference.value
      invariant reference.Some? ==> forall k :: 0 <= k < i ==> cards[k].code in {reference.value, WildToken}
    {
      var code := cards[i].code;
      if code == Explosive {
        return false;
      }
      if IsToken(code) {
        usesTokenRules := true;
        seenRealToken := true;
        if reference.None? {
          reference := Some(code);
        } else if reference.value != code {
          return false;
        }
      } else if code == WildToken {
        usesTokenRules := true;
      } else {
        if usesTokenRules {
          return false;
        }
        if reference.None? {
          reference := Some(code);
        } else if reference.value != code {
          return false;
        }
      }
      i := i + 1;
    }
    MatchingVerdict(cards, reference, seenRealToken, usesTokenRules);
    return if usesTokenRules then seenRealToken else reference.Some?;
  }

  /** What the flags of a completed pass say about the combo. */
  lemma MatchingVerdict(cards: seq<Card>, reference: Option<Code>, seenRealToken: bool, usesTokenRules: bool)
    requires |cards| in {2, 3} && forall k :: 0 <= k < |cards| ==> cards[k].code != Explosive
    requires seenRealToken <==> exists k :: 0 <= k < |cards| && IsToken(cards[k].code)
    requires usesTokenRules <==> exists k :: 0 <= k < |cards| && (IsToken(cards[k].code) || cards[k].code == WildToken)
    requires reference.None? ==> forall k :: 0 <= k < |cards| ==> cards[k].code == WildToken
    requires reference.Some? ==> reference.value != WildToken && exists k ::
        0 <= k < |cards| && cards[k].code == reference.value
    requires reference.Some? ==> forall k :: 0 <= k < |cards| ==> cards[k].code in {reference.value, WildToken}
    ensures ValidMatching(cards) <==> if usesTokenRules then seenRealToken else reference.Some?
  {
    if seenRealToken {
      var k :| 0 <= k < |cards| && IsToken(cards[k].code);
      assert TokenMatch(cards, cards[k].code);
    } else if usesTokenRules {
      var k :| 0 <= k < |cards| && cards[k].code == WildToken;
      assert !PlainMatch(cards);
    } else {
      assert cards[0].code != WildToken;
      assert PlainMatch(cards);
    }
  }

  method ValidFiveDifferentCombo(hand: seq<Card>, cards: seq<Card>) returns (ok: bool)
    ensures ok == ValidFiveDifferent(hand, cards)
  {
    if |cards| != 5 {
      return false;
    }
    var codes: set<Code> := {};
    var includesExplosive := false;
    var i := 0;
    while i < |cards|
      invariant 0 <= i <= |cards|
      invariant forall code :: code in codes <==> exists k :: 0 <= k < i && cards[k].code == code
      invariant forall k :: 0 <= k < i ==> cards[k].code != ExplosiveHolder
      invariant forall j, k :: 0 <= j < k < i ==> cards[j].code != cards[k].code
      invariant includesExplosive <==> exists k :: 0 <= k < i && cards[k].code == Explosive
    {
      if cards[i].code == ExplosiveHolder {
        return false;
      }
      if cards[i].code in codes {
        return false;
      }
      codes := codes + {cards[i].code};
      if cards[i].code == Explosive {
        includesExplosive := true;
      }
      i := i + 1;
    }
    var holders := CountCardsByCode(hand, ExplosiveHolder);
    return !(includesExplosive && holders == 0);
  }

  /** The cards picked for the recycle, in listing order; a missing entry of the map reads as an empty card. */
  method SelectedCards(recyclers: seq<PlayerId>, selections: map<PlayerId, Card>) returns (cards: seq<Card>)
    ensures cards == Contributions(recyclers, selections)
  {
    cards := [];
    var i := 0;
    while i < |recyclers|
      invariant 0 <= i <= |recyclers|
      invariant cards == Contributions(recyclers[..i], selections)
    {
      assert recyclers[..i + 1][..i] == recyclers[..i];
      cards := cards + [if recyclers[i] in selections then selections[recyclers[i]] else Card(0, Unlisted)];
      i := i + 1;
    }
    assert recyclers[..i] == recyclers;
  }

  /**
   Put the prompted cards in the submitted order. Accepts exactly when the pile still starts with
   the prompted cards, these differ, and the ids are a permutation of theirs.
   */
  method Reordered(draw: seq<Card>, cards: seq<Card>, ids: seq<CardId>) returns (reordered: seq<Card>, ok: bool)
    ensures ok == (|cards| <= |draw| && IdsOf(draw[..|cards|]) == IdsOf(cards)
                   && DistinctIds(cards) && multiset(ids) == multiset(IdsOf(cards)))
    ensures ok ==> reordered == Picked(cards, ids)
  {
    var all := IdsOf(cards);
    if |ids| != |cards| || |draw| < |cards| {
      if |ids| != |cards| { assert |multiset(ids)| != |multiset(all)|; }
      return [], false;
    }
    var same := SamePrefix(draw, cards);
    if !same {
      return [], false;
    }
    reordered, ok := PickInOrder(cards, ids);
  }

  /** Look each id up and strike it off, so that a repeated or unknown id is refused. */
  method PickInOrder(cards: seq<Card>, ids: seq<CardId>) returns (reordered: seq<Card>, ok: bool)
    requires |ids| == |cards|
    ensures ok == (DistinctIds(cards) && multiset(ids) == multiset(IdsOf(cards)))
    ensures ok ==> reordered == Picked(cards, ids)
  {
    var byId := CardsById(cards);
    reordered := [];
    var i := 0;
    NoneUsed(byId, cards, ids);
    while i < |ids|
      invariant 0 <= i <= |ids|
      invariant Unused(byId, cards, ids, i, reordered)
    {
      byId, reordered, ok := StrikeNext(byId, cards, ids, i, reordered);
      if !ok {
        return;
      }
      i := i + 1;
    }
    Finished(byId, cards, ids, reordered);
    ok := true;
  }

  /** One turn of the loop above. */
  method StrikeNext(byId: map<CardId, Card>, cards: seq<Card>, ids: seq<CardId>, i: nat, reordered: seq<Card>)
    returns (rest: map<CardId, Card>, more: seq<Card>, ok: bool)
    requires i < |ids| && Unused(byId, cards, ids, i, reordered)
    ensures ok ==> Unused(rest, cards, ids, i + 1, more)
    ensures !ok ==> !(DistinctIds(cards) && multiset(ids) == multiset(IdsOf(cards)))
  {
    if ids[i] !in byId {
      Refused(byId, cards, ids, i, reordered);
      return byId, [], false;
    }
    StrikeOff(byId, cards, ids, i, reordered);
    return byId - {ids[i]}, reordered + [byId[ids[i]]], true;
  }

  /** The cards whose ids are not among the first `i` submitted, and the cards picked by these. */
  ghost predicate Unused(byId: map<CardId, Card>, cards: seq<Card>, ids: seq<CardId>, i: nat, reordered: seq<Card>)
    requires i <= |ids|
  {
    && Distinct(ids[..i])
    && (forall id :: id in ids[..i] ==> id in IdsOf(cards))
    && (forall id :: id in byId <==> id in IdsOf(cards) && id !in ids[..i])
    && (DistinctIds(cards) ==>
          && reordered == Picked(cards, ids[..i])
          && forall id :: id in byId ==> IndexOfId(cards, id) >= 0 && byId[id] == cards[IndexOfId(cards, id)])
  }

  lemma NoneUsed(byId: map<CardId, Card>, cards: seq<Card>, ids: seq<CardId>)
    requires forall id :: id in byId <==> id in IdsOf(cards)
    requires DistinctIds(cards) ==> forall id ::
        id in byId ==> IndexOfId(cards, id) >= 0 && byId[id] == cards[IndexOfId(cards, id)]
    ensures Unused(byId, cards, ids, 0, [])
  {
  }

  lemma StrikeOff(byId: map<CardId, Card>, cards: seq<Card>, ids: seq<CardId>, i: nat, reordered: seq<Card>)
    requires i < |ids| && Unused(byId, cards, ids, i, reordered) && ids[i] in byId
    ensures Unused(byId - {ids[i]}, cards, ids, i + 1, reordered + [byId[ids[i]]])
  {
    var next := ids[..i + 1];
    assert next[..|next| - 1] == ids[..i] && next == ids[..i] + [ids[i]];
    DistinctAppend(ids[..i], ids[i]);
  }

  lemma Refused(byId: map<CardId, Card>, cards: seq<Card>, ids: seq<CardId>, i: nat, reordered: seq<Card>)
    requires i < |ids| && Unused(byId, cards, ids, i, reordered) && ids[i] !in byId
    ensures !(DistinctIds(cards) && multiset(ids) == multiset(IdsOf(cards)))
  {
    NotPermutation(ids, IdsOf(cards), i);
    IdsDiffer(cards);
  }

  lemma Finished(byId: map<CardId, Card>, cards: seq<Card>, ids: seq<CardId>, reordered: seq<Card>)
    requires Unused(byId, cards, ids, |ids|, reordered) && |ids| == |cards|
    ensures DistinctIds(cards) && multiset(ids) == multiset(IdsOf(cards)) && reordered == Picked(cards, ids)
  {
    assert ids[..|ids|] == ids;
    AllUsed(ids, IdsOf(cards));
    IdsDiffer(cards);
  }

  lemma IdsDiffer(cards: seq<Card>)
    ensures DistinctIds(cards) <==> Distinct(IdsOf(cards))
  {
    DistinctPairs(IdsOf(cards));
  }

  method SamePrefix(draw: seq<Card>, cards: seq<Card>) returns (same: bool)
    requires |cards| <= |draw|
    ensures same == (IdsOf(draw[..|cards|]) == IdsOf(cards))
  {
    var i := 0;
    while i < |cards|
      invariant 0 <= i <= |cards|
      invariant forall k :: 0 <= k < i ==> draw[k].id == cards[k].id
    {
      if draw[i].id != cards[i].id {
        assert IdsOf(draw[..|cards|])[i] != IdsOf(cards)[i];
        return false;
      }
      i := i + 1;
    }
    return true;
  }

  method CardsById(cards: seq<Card>) returns (byId: map<CardId, Card>)
    ensures forall id :: id in byId <==> id in IdsOf(cards)
    ensures DistinctIds(cards) ==> forall id ::
        id in byId ==> IndexOfId(cards, id) >= 0 && byId[id] == cards[IndexOfId(cards, id)]
  {
    byId := map[];
    var i := 0;
    while i < |cards|
      invariant 0 <= i <= |cards|
      invariant forall id :: id in byId <==> id in IdsOf(cards)[..i]
      invariant DistinctIds(cards) ==> forall id ::
          id in byId ==> IndexOfId(cards, id) >= 0 && byId[id] == cards[IndexOfId(cards, id)]
    {
      assert IdsOf(cards)[..i + 1] == IdsOf(cards)[..i] + [cards[i].id];
      assert DistinctIds(cards) ==> IndexOfId(cards, cards[i].id) == i;
      byId := byId[cards[i].id := cards[i]];
      i := i + 1;
    }
    assert IdsOf(cards)[..i] == IdsOf(cards);
  }

  /** An id that is unknown or used before spoils the permutation. */
  lemma NotPermutation(ids: seq<CardId>, all: seq<CardId>, i: nat)
    requires i < |ids| && (ids[i] !in all || ids[i] in ids[..i])
    ensures !(Distinct(all) && multiset(ids) == multiset(all))
  {
    DistinctCounts(all);
    assert ids == ids[..i] + [ids[i]] + ids[i + 1..];
    if ids[i] in all {
      assert multiset(ids)[ids[i]] >= 2;
    } else {
      assert ids[i] in multiset(ids) && ids[i] !in multiset(all);
    }
  }

  /** Distinct ids from the list, as many as the list is long, are a permutation of it. */
  lemma AllUsed(ids: seq<CardId>, all: seq<CardId>)
    requires |ids| == |all| && Distinct(ids) && forall id :: id in ids ==> id in all
    ensures Distinct(all) && multiset(ids) == multiset(all)
  {
    ElementsSize(ids);
    ElementsAtMost(all);
    SubsetSize(Elements(ids), Elements(all));
    forall x ensures multiset(ids)[x] == multiset(all)[x] {
      CountByDistinct(ids, x);
      CountByDistinct(all, x);
      assert x in Elements(ids) <==> x in Elements(all);
    }
  }

  lemma {:induction false} ElementsAtMost(ids: seq<nat>)
    ensures |Elements(ids)| <= |ids|
    ensures |Elements(ids)| == |ids| ==> Distinct(ids)
  {
    if ids != [] {
      var front, last := ids[..|ids| - 1], ids[|ids| - 1];
      ElementsAtMost(front);
      assert Elements(ids) == Elements(front) + {last};
    }
  }
}
