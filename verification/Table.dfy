/** The game state as a value: what `Engine.Snap` reads off the mutable objects. */
module Table {
  import opened Cards

  // Player identifiers; 0 stands for the empty string.
  type PlayerId = nat

  datatype Player = Player(id: PlayerId, hand: seq<Card>, alive: bool)

  datatype Phase =
    | PlayerTurn | CancelWindow | WaitingRequestCardChoice | WaitingRecycleChoices
    | WaitingDiscardRecovery | WaitingMarkedCardChoice | WaitingDeckReorder
    | WaitingExplosivePlacement | GameOver

  datatype PendingKind =
    | PlayedCard | CardCombo | DiscardRecovery | RequestCardChoice | RecycleChoices
    | MarkedCardChoice | DeckReorder | ExplosivePlacement

  datatype ComboKind = NoCombo | Pair | Triple | FiveDifferent

  datatype Pending = Pending(
    id: nat,
    source: PlayerId,
    kind: PendingKind,
    cards: seq<Card>,
    target: PlayerId,
    combo: ComboKind,
    requested: Option<Code>,
    cancels: nat,
    expiresAt: int,
    recyclers: seq<PlayerId>,
    selections: map<PlayerId, Card>,
    reactive: bool,
    original: PlayerId)

  /** A pending action with every optional field left at its zero value. */
  function Prompt(id: nat, source: PlayerId, kind: PendingKind, cards: seq<Card>, target: PlayerId): Pending {
    Pending(id, source, kind, cards, target, NoCombo, None, 0, 0, [], map[], false, 0)
  }

  datatype Mark = Mark(card: CardId, owner: PlayerId, revealed: Card)

  datatype Placement = Placement(player: PlayerId, card: Card)

  datatype State = State(
    phase: Phase,
    players: seq<Player>,
    draw: seq<Card>,
    discard: seq<Card>,
    current: PlayerId,
    debt: map<PlayerId, int>,
    pending: Option<Pending>,
    marks: map<CardId, Mark>,
    winner: PlayerId,
    eventSeq: nat,
    queue: seq<Placement>,
    nextPending: nat)

  datatype Error =
    | NoError
    | InvalidPhase | NotYourTurn | PlayerNotFound | PlayerNotAlive | CardNotInHand
    | InvalidCardPlay | TargetRequired | InvalidTarget | DrawPileEmpty
    | NoPendingAction | InvalidPlacement | ActionNotCancelable | CancelWindowActive

  datatype Outcome = Outcome(state: State, error: Error)

  /** The seat of the first player with the given id, or -1. */
  function Seat(players: seq<Player>, id: PlayerId): (r: int)
    ensures -1 <= r < |players|
    ensures r >= 0 ==> players[r].id == id && forall k :: 0 <= k < r ==> players[k].id != id
    ensures r < 0 ==> forall k :: 0 <= k < |players| ==> players[k].id != id
  {
    if players == [] then -1
    else if players[0].id == id then 0
    else
      var r := Seat(players[1..], id);
      assert forall k :: 1 <= k < |players| ==> players[k] == players[1..][k - 1];
      if r < 0 then -1 else r + 1
  }

  /** The seat is decided by the ids alone. */
  lemma SeatSame(a: seq<Player>, b: seq<Player>, id: PlayerId)
    requires |a| == |b| && forall k :: 0 <= k < |a| ==> a[k].id == b[k].id
    ensures Seat(a, id) == Seat(b, id)
  {
    var i, j := Seat(a, id), Seat(b, id);
    if i >= 0 { assert b[i].id == id; }
    if j >= 0 { assert a[j].id == id; }
  }

  predicate IsAlive(players: seq<Player>, id: PlayerId) {
    var i := Seat(players, id);
    i >= 0 && players[i].alive
  }

  function AliveError(players: seq<Player>, id: PlayerId): Error {
    var i := Seat(players, id);
    if i < 0 then PlayerNotFound
    else if !players[i].alive then PlayerNotAlive
    else NoError
  }

  function HandOf(players: seq<Player>, id: PlayerId): seq<Card> {
    var i := Seat(players, id);
    if i < 0 then [] else players[i].hand
  }

  function AliveCount(players: seq<Player>): nat {
    if players == [] then 0
    else AliveCount(players[..|players| - 1]) + if players[|players| - 1].alive then 1 else 0
  }

  function Debt(debt: map<PlayerId, int>, id: PlayerId): int {
    if id in debt then debt[id] else 0
  }

  /** The marks left once `owner` holds exactly `hand`. */
  function Unmarked(marks: map<CardId, Mark>, owner: PlayerId, hand: seq<Card>): map<CardId, Mark> {
    map id | id in marks && !(marks[id].owner == owner && IndexOfId(hand, id) < 0) :: marks[id]
  }

  // ------------------------------------------------------- where cards live

  /** All cards in hands, as a multiset. */
  function HandCards(players: seq<Player>): multiset<Card> {
    if players == [] then multiset{}
    else HandCards(players[..|players| - 1]) + multiset(players[|players| - 1].hand)
  }

  function QueueCards(queue: seq<Placement>): multiset<Card> {
    if queue == [] then multiset{}
    else QueueCards(queue[..|queue| - 1]) + multiset{queue[|queue| - 1].card}
  }

  /** The cards chosen so far, in the order in which they will join the draw pile. */
  function Selected(recyclers: seq<PlayerId>, selections: map<PlayerId, Card>): seq<Card> {
    if recyclers == [] then []
    else
      var last := recyclers[|recyclers| - 1];
      Selected(recyclers[..|recyclers| - 1], selections) + if last in selections then [selections[last]] else []
  }

  /** What joins the draw pile when a recycle closes; a player without a selection contributes an empty card. */
  function Contributions(recyclers: seq<PlayerId>, selections: map<PlayerId, Card>): seq<Card> {
    if recyclers == [] then []
    else
      var last := recyclers[|recyclers| - 1];
      Contributions(recyclers[..|recyclers| - 1], selections)
      + [if last in selections then selections[last] else Card(0, Unlisted)]
  }

  /** Cards that live only in the pending action; elsewhere it holds copies. */
  function LimboCards(pending: Option<Pending>): multiset<Card> {
    match pending
    case None => multiset{}
    case Some(p) =>
      match p.kind
      case ExplosivePlacement => multiset(p.cards)
      case RecycleChoices => multiset(Selected(p.recyclers, p.selections))
      case _ => multiset{}
  }

  function Outside(s: State): multiset<Card> {
    multiset(s.draw) + multiset(s.discard) + LimboCards(s.pending) + QueueCards(s.queue)
  }

  function AllCards(s: State): multiset<Card> {
    HandCards(s.players) + Outside(s)
  }

  // ---------------------------------------------------------------- lemmas

  /** Replacing one player's record moves the hand total by that one hand. */
  lemma {:induction false} HandCardsUpdate(players: seq<Player>, i: nat, p: Player)
    requires i < |players|
    ensures HandCards(players[i := p]) + multiset(players[i].hand) == HandCards(players) + multiset(p.hand)
  {
    var n := |players| - 1;
    if i < n {
      assert players[i := p][..n] == players[..n][i := p];
      HandCardsUpdate(players[..n], i, p);
      var front, last := HandCards(players[..n][i := p]), multiset(players[n].hand);
      assert HandCards(players[i := p]) == front + last;
      assert front + last + multiset(players[i].hand) == (front + multiset(players[i].hand)) + last;
    } else {
      assert players[i := p][..n] == players[..n];
    }
  }

  /** What a hand loses, the rest of the table gains, up to the cards `extra` brought in. */
  lemma ReplaceHand(s: State, t: State, i: nat, p: Player, extra: multiset<Card>)
    requires i < |s.players| && t.players == s.players[i := p]
    requires Outside(t) + multiset(p.hand) == Outside(s) + multiset(s.players[i].hand) + extra
    ensures AllCards(t) == AllCards(s) + extra
  {
    HandCardsUpdate(s.players, i, p);
    Balance(HandCards(s.players), HandCards(t.players), multiset(s.players[i].hand), multiset(p.hand),
            Outside(s), Outside(t), extra);
  }

  lemma Balance<T>(hands: multiset<T>, hands': multiset<T>, hand: multiset<T>, hand': multiset<T>,
                   out: multiset<T>, out': multiset<T>, extra: multiset<T>)
    requires hands' + hand == hands + hand'
    requires out' + hand' == out + hand + extra
    ensures hands' + out' == hands + out + extra
  {
    forall c ensures (hands' + out')[c] == (hands + out + extra)[c] {
      assert (hands' + hand)[c] == (hands + hand')[c];
      assert (out' + hand')[c] == (out + hand + extra)[c];
    }
  }

  lemma {:induction false} AliveCountUpdate(players: seq<Player>, i: nat, p: Player)
    requires i < |players|
    ensures AliveCount(players[i := p]) + (if players[i].alive then 1 else 0)
         == AliveCount(players) + if p.alive then 1 else 0
  {
    var n := |players| - 1;
    if i < n {
      assert players[i := p][..n] == players[..n][i := p];
      AliveCountUpdate(players[..n], i, p);
    } else {
      assert players[i := p][..n] == players[..n];
    }
  }

  lemma {:induction false} HandCardsContain(players: seq<Player>, i: nat, c: Card)
    requires i < |players|
    ensures multiset(players[i].hand)[c] <= HandCards(players)[c]
  {
    var rest := players[i := players[i].(hand := [])];
    HandCardsUpdate(players, i, rest[i]);
    assert (HandCards(rest) + multiset(players[i].hand))[c] == HandCards(players)[c];
  }

  lemma {:induction false} QueueCardsAppend(queue: seq<Placement>, p: Placement)
    ensures QueueCards(queue + [p]) == QueueCards(queue) + multiset{p.card}
  {
    assert (queue + [p])[..|queue|] == queue;
  }

  lemma {:induction false} QueueCardsTail(queue: seq<Placement>)
    requires queue != []
    ensures QueueCards(queue) == multiset{queue[0].card} + QueueCards(queue[1..])
  {
    var n := |queue| - 1;
    if n == 0 {
      assert queue[..0] == [] && queue[1..] == [];
    } else {
      assert queue[..n][1..] == queue[1..][..n - 1];
      QueueCardsTail(queue[..n]);
    }
  }

  /** One more choice adds exactly the chosen card. */
  lemma {:induction false} SelectedAdd(recyclers: seq<PlayerId>, selections: map<PlayerId, Card>, p: PlayerId, c: Card)
    requires p !in selections
    requires Distinct(recyclers)
    ensures multiset(Selected(recyclers, selections[p := c]))
         == multiset(Selected(recyclers, selections)) + if p in recyclers then multiset{c} else multiset{}
  {
    if recyclers != [] {
      var front, last := recyclers[..|recyclers| - 1], recyclers[|recyclers| - 1];
      assert recyclers == front + [last];
      SelectedAdd(front, selections, p, c);
      SelectedLast(front, selections, last);
      SelectedLast(front, selections[p := c], last);
      assert recyclers[..|front|] == front;
    }
  }

  lemma SelectedLast(front: seq<PlayerId>, selections: map<PlayerId, Card>, last: PlayerId)
    ensures multiset(Selected(front + [last], selections))
         == multiset(Selected(front, selections)) + if last in selections then multiset{selections[last]}
             else multiset{}
  {
    assert (front + [last])[..|front|] == front;
  }

  lemma {:induction false} AllContribute(recyclers: seq<PlayerId>, selections: map<PlayerId, Card>)
    requires forall id :: id in recyclers ==> id in selections
    ensures Contributions(recyclers, selections) == Selected(recyclers, selections)
  {
    if recyclers != [] {
      AllContribute(recyclers[..|recyclers| - 1], selections);
    }
  }

  lemma {:induction false} AliveCountPositive(players: seq<Player>, i: nat)
    requires i < |players| && players[i].alive
    ensures AliveCount(players) >= 1
  {
    AliveCountUpdate(players, i, players[i].(alive := false));
  }

  lemma {:induction false} AliveCountTwo(players: seq<Player>, i: nat, j: nat)
    requires i < |players| && j < |players| && i != j && players[i].alive && players[j].alive
    ensures AliveCount(players) >= 2
  {
    var rest := players[i := players[i].(alive := false)];
    AliveCountUpdate(players, i, rest[i]);
    AliveCountPositive(rest, j);
  }

  /** Two living players: someone other than `i` is alive. */
  lemma {:induction false} AnotherAlive(players: seq<Player>, i: nat) returns (j: nat)
    requires i < |players| && AliveCount(players) >= (if players[i].alive then 2 else 1)
    ensures j < |players| && j != i && players[j].alive
  {
    var rest := players[i := players[i].(alive := false)];
    AliveCountUpdate(players, i, rest[i]);
    j := SomeAlive(rest);
  }

  lemma {:induction false} SomeAlive(players: seq<Player>) returns (j: nat)
    requires AliveCount(players) >= 1
    ensures j < |players| && players[j].alive
  {
    var n := |players| - 1;
    if players[n].alive {
      j := n;
    } else {
      j := SomeAlive(players[..n]);
    }
  }

  ghost predicate Listed(ids: seq<PlayerId>, selections: map<PlayerId, Card>) {
    forall id :: id in selections ==> id in ids
  }

  lemma KeysWithin(ids: seq<PlayerId>, sel: map<PlayerId, Card>)
    requires Distinct(ids)
    requires Listed(ids, sel)
    ensures |sel| <= |ids|
    ensures |sel| == |ids| <==> forall id :: id in ids ==> id in sel
  {
    ElementsSize(ids);
    assert sel.Keys <= Elements(ids);
    SubsetSize(sel.Keys, Elements(ids));
  }
}
