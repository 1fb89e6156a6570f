/**
 Room membership, the host and kick votes. Where the program walks over a map and takes the first
 hit, any hit may be taken; the contracts are relations that allow each of them.
 */
module Rooms {
  import opened Cards
  import opened Table
  import opened Deck

  // Player tokens; 0 stands for the empty string, which nobody can log in with.
  type Token = nat

  datatype Member = Member(token: Token, ready: bool, connected: bool, isHost: bool)

  datatype KickVote = KickVote(target: PlayerId, startedBy: PlayerId, approvals: set<PlayerId>)

  datatype RoomState = RoomState(players: map<PlayerId, Member>, order: seq<PlayerId>, host: PlayerId,
      vote: Option<KickVote>)

  datatype RoomError =
    | RoomFull | AlreadyInRoom | NotInRoom | InvalidToken | NotHost | InvalidHostTransfer
    | KickSelf | VoteActive | NoVote | InvalidVoteTarget

  datatype Result = Done | Refused(error: RoomError) | Kicked(player: PlayerId)

  datatype Action =
    | Join(id: PlayerId, member: Member)
    | Leave(id: PlayerId)
    | SetReady(token: Token, ready: bool)
    | TransferHost(token: Token, target: PlayerId)
    | StartKickVote(token: Token, target: PlayerId)
    | CastKickVote(token: Token, approve: bool)

  // ------------------------------------------------------------ what actions do

  /** The order without the first entry for the player. */
  function Drop(order: seq<PlayerId>, id: PlayerId): seq<PlayerId> {
    if order == [] then [] else if order[0] == id then order[1..] else [order[0]] + Drop(order[1..], id)
  }

  function Flagged(players: map<PlayerId, Member>, host: PlayerId): map<PlayerId, Member> {
    map id | id in players :: players[id].(isHost := id == host)
  }

  /** The connected members who may vote on the target. */
  function Voters(players: map<PlayerId, Member>, target: PlayerId): set<PlayerId> {
    set id | id in players && players[id].connected && id != target
  }

  function Required(players: map<PlayerId, Member>, target: PlayerId): nat {
    |Voters(players, target)| / 2 + 1
  }

  ghost predicate HasToken(r: RoomState, token: Token, id: PlayerId) {
    token != 0 && id in r.players && r.players[id].token == token
  }

  function WithHost(r: RoomState, host: PlayerId): RoomState {
    r.(players := Flagged(r.players, host), host := host)
  }

  /** Some connected member becomes host; with none there is no host. */
  ghost predicate HostMoved(a: RoomState, b: RoomState) {
    if exists id :: id in a.players && a.players[id].connected
    then b.host in a.players && a.players[b.host].connected && b == WithHost(a, b.host)
    else b == a.(host := 0)
  }

  /** The member is taken off the map and the order; a host is replaced. */
  ghost predicate Gone(a: RoomState, id: PlayerId, vote: Option<KickVote>, b: RoomState) {
    var rest := a.(players := a.players - {id}, order := Drop(a.order, id), vote := vote);
    if a.host == id then HostMoved(rest, b) else b == rest
  }

  function VoteAfterLeave(vote: Option<KickVote>, id: PlayerId): Option<KickVote> {
    match vote
    case None => None
    case Some(v) => if v.target == id then None else Some(v.(approvals := v.approvals - {id}))
  }

  /** The vote is counted: with enough approvals the target is expelled, otherwise the vote stays open. */
  ghost predicate Counted(a: RoomState, v: KickVote, b: RoomState, out: Result) {
    if |v.approvals| < Required(a.players, v.target)
    then b == a.(vote := Some(v)) && out == Done
    else out == Kicked(v.target) && Gone(a, v.target, None, b)
  }

  ghost predicate Joined(a: RoomState, id: PlayerId, member: Member, b: RoomState, out: Result) {
    if |a.players| >= MAX_PLAYERS then b == a && out == Refused(RoomFull)
    else if id in a.players then b == a && out == Refused(AlreadyInRoom)
    else b == a.(players := a.players[id := member.(connected := true)], order := a.order + [id]) && out == Done
  }

  ghost predicate Left(a: RoomState, id: PlayerId, b: RoomState, out: Result) {
    if id !in a.players then b == a && out == Refused(NotInRoom)
    else Gone(a, id, VoteAfterLeave(a.vote, id), b) && out == Done
  }

  ghost predicate HostTransferred(a: RoomState, p: PlayerId, target: PlayerId, b: RoomState, out: Result) {
    if p != a.host then b == a && out == Refused(NotHost)
    else if target !in a.players || !a.players[target].connected then b == a && out == Refused(InvalidHostTransfer)
    else b == WithHost(a, target) && out == Done
  }

  ghost predicate VoteStarted(a: RoomState, p: PlayerId, target: PlayerId, b: RoomState, out: Result) {
    if target == p then b == a && out == Refused(KickSelf)
    else if a.vote.Some? then b == a && out == Refused(VoteActive)
    else if target !in a.players || !a.players[target].connected then b == a && out == Refused(InvalidVoteTarget)
    else Counted(a, KickVote(target, p, {p}), b, out)
  }

  ghost predicate VoteCast(a: RoomState, p: PlayerId, approve: bool, b: RoomState, out: Result) {
    if a.vote.None? then b == a && out == Refused(NoVote)
    else if p == a.vote.value.target then b == a && out == Refused(InvalidVoteTarget)
    else
      var v := a.vote.value;
      Counted(a, v.(approvals := if approve then v.approvals + {p} else v.approvals - {p}), b, out)
  }

  ghost predicate MadeReady(a: RoomState, p: PlayerId, ready: bool, b: RoomState, out: Result) {
    p in a.players && b == a.(players := a.players[p := a.players[p].(ready := ready)]) && out == Done
  }

  ghost predicate TokenAction(a: RoomState, action: Action, p: PlayerId, b: RoomState, out: Result) {
    match action
    case SetReady(_, ready) => MadeReady(a, p, ready, b, out)
    case TransferHost(_, target) => HostTransferred(a, p, target, b, out)
    case StartKickVote(_, target) => VoteStarted(a, p, target, b, out)
    case CastKickVote(_, approve) => VoteCast(a, p, approve, b, out)
    case _ => false
  }

  /** What may follow an action of the given player; a token stands for any member who has it. */
  ghost predicate NextBy(a: RoomState, action: Action, actor: PlayerId, b: RoomState, out: Result) {
    match action
    case Join(id, member) => actor == id && Joined(a, id, member, b, out)
    case Leave(id) => actor == id && Left(a, id, b, out)
    case _ =>
      if exists p :: HasToken(a, action.token, p)
      then HasToken(a, action.token, actor) && TokenAction(a, action, actor, b, out)
      else b == a && out == Refused(InvalidToken)
  }

  /** The room relation: what may follow an action. */
  ghost predicate Next(a: RoomState, action: Action, b: RoomState, out: Result) {
    exists actor :: NextBy(a, action, actor, b, out)
  }

  // ------------------------------------------------------------------ the room

  class Room {
    var players: map<PlayerId, Member>
    var playerOrder: seq<PlayerId>
    var hostPlayerId: PlayerId
    var kickVote: Option<KickVote>

    ghost function Snap(): RoomState
      reads this
    {
      RoomState(players, playerOrder, hostPlayerId, kickVote)
    }

    constructor (id: PlayerId, host: Member)
      ensures Snap() == Founded(id, host)
    {
      players := map[id := host.(isHost := true)];
      playerOrder := [id];
      hostPlayerId := id;
      kickVote := None;
    }

    method Join(id: PlayerId, member: Member) returns (out: Result)
      modifies this
      ensures Next(old(Snap()), Action.Join(id, member), Snap(), out)
    {
      out := Admit(id, member);
      assert NextBy(old(Snap()), Action.Join(id, member), id, Snap(), out);
    }

    method Admit(id: PlayerId, member: Member) returns (out: Result)
      modifies this
      ensures Joined(old(Snap()), id, member, Snap(), out)
    {
      if |players| >= MAX_PLAYERS {
        return Refused(RoomFull);
      }
      if id in players {
        return Refused(AlreadyInRoom);
      }
      players := players[id := member.(connected := true)];
      playerOrder := playerOrder + [id];
      out := Done;
    }

    method Leave(id: PlayerId) returns (out: Result)
      modifies this
      ensures Next(old(Snap()), Action.Leave(id), Snap(), out)
    {
      out := Depart(id);
      assert NextBy(old(Snap()), Action.Leave(id), id, Snap(), out);
    }

    method Depart(id: PlayerId) returns (out: Result)
      modifies this
      ensures Left(old(Snap()), id, Snap(), out)
    {
      if id !in players {
        return Refused(NotInRoom);
      }
      players := players - {id};
      RemovePlayerFromOrder(id);
      if kickVote.Some? {
        kickVote := Some(kickVote.value.(approvals := kickVote.value.approvals - {id}));
        if kickVote.value.target == id {
          kickVote := None;
        }
      }
      if hostPlayerId == id {
        TransferHostToAny();
      }
      out := Done;
    }

    method SetReady(token: Token, ready: bool) returns (out: Result)
      modifies this
      ensures Next(old(Snap()), Action.SetReady(token, ready), Snap(), out)
    {
      var found := PlayerByToken(token);
      if found.None? {
        out := Refused(InvalidToken);
        assert NextBy(old(Snap()), Action.SetReady(token, ready), 0, Snap(), out);
        return;
      }
      var id := found.value;
      players := players[id := players[id].(ready := ready)];
      out := Done;
      assert TokenAction(old(Snap()), Action.SetReady(token, ready), id, Snap(), out);
      assert NextBy(old(Snap()), Action.SetReady(token, ready), id, Snap(), out);
    }

    method TransferHost(token: Token, target: PlayerId) returns (out: Result)
      modifies this
      ensures Next(old(Snap()), Action.TransferHost(token, target), Snap(), out)
    {
      var found := PlayerByToken(token);
      if found.None? {
        out := Refused(InvalidToken);
        assert NextBy(old(Snap()), Action.TransferHost(token, target), 0, Snap(), out);
        return;
      }
      out := PassHost(found.value, target);
      assert NextBy(old(Snap()), Action.TransferHost(token, target), found.value, Snap(), out);
    }

    method PassHost(id: PlayerId, target: PlayerId) returns (out: Result)
      modifies this
      ensures HostTransferred(old(Snap()), id, target, Snap(), out)
    {
      if id != hostPlayerId {
        return Refused(NotHost);
      }
      if target !in players || !players[target].connected {
        return Refused(InvalidHostTransfer);
      }
      SetHost(target);
      out := Done;
    }

    method StartKickVote(token: Token, target: PlayerId) returns (out: Result)
      modifies this
      ensures Next(old(Snap()), Action.StartKickVote(token, target), Snap(), out)
    {
      var found := PlayerByToken(token);
      if found.None? {
        out := Refused(InvalidToken);
        assert NextBy(old(Snap()), Action.StartKickVote(token, target), 0, Snap(), out);
        return;
      }
      out := OpenVote(found.value, target);
      assert NextBy(old(Snap()), Action.StartKickVote(token, target), found.value, Snap(), out);
    }

    method OpenVote(id: PlayerId, target: PlayerId) returns (out: Result)
      modifies this
      ensures VoteStarted(old(Snap()), id, target, Snap(), out)
    {
      if target == id {
        return Refused(KickSelf);
      }
      if kickVote.Some? {
        return Refused(VoteActive);
      }
      if target !in players || !players[target].connected {
        return Refused(InvalidVoteTarget);
      }
      kickVote := Some(KickVote(target, id, {id}));
      out := ResolveKickVoteIfPassed();
    }

    method CastKickVote(token: Token, approve: bool) returns (out: Result)
      modifies this
      ensures Next(old(Snap()), Action.CastKickVote(token, approve), Snap(), out)
    {
      var found := PlayerByToken(token);
      if found.None? {
        out := Refused(InvalidToken);
        assert NextBy(old(Snap()), Action.CastKickVote(token, approve), 0, Snap(), out);
        return;
      }
      out := Vote(found.value, approve);
      assert NextBy(old(Snap()), Action.CastKickVote(token, approve), found.value, Snap(), out);
    }

    method Vote(id: PlayerId, approve: bool) returns (out: Result)
      modifies this
      ensures VoteCast(old(Snap()), id, approve, Snap(), out)
    {
      if kickVote.None? {
        return Refused(NoVote);
      }
      var v := kickVote.value;
      if id == v.target {
        return Refused(InvalidVoteTarget);
      }
      kickVote := Some(v.(approvals := if approve then v.approvals + {id} else v.approvals - {id}));
      out := ResolveKickVoteIfPassed();
    }

    method ResolveKickVoteIfPassed() returns (out: Result)
      modifies this
      ensures match old(kickVote)
        case None => Snap() == old(Snap()) && out == Done
        case Some(v) => Counted(old(Snap()), v, Snap(), out)
    {
      if kickVote.None? {
        return Done;
      }
      var v := kickVote.value;
      var required := RequiredKickApprovals();
      if |v.approvals| < required {
        return Done;
      }
      kickVote := None;
      players := players - {v.target};
      RemovePlayerFromOrder(v.target);
      if hostPlayerId == v.target {
        TransferHostToAny();
      }
      out := Kicked(v.target);
    }

    method RequiredKickApprovals() returns (required: nat)
      ensures required == if kickVote.None? then 1 else Required(players, kickVote.value.target)
    {
      ghost var voters := if kickVote.None? then {} else Voters(players, kickVote.value.target);
      var eligible := 0;
      var rest := players.Keys;
      while rest != {}
        invariant rest <= players.Keys
        invariant eligible == |voters - rest|
        decreases |rest|
      {
        var id :| id in rest;
        OneLessToCount(voters, rest, id);
        if players[id].connected && kickVote.Some? && id != kickVote.value.target {
          eligible := eligible + 1;
        }
        rest := rest - {id};
      }
      assert voters - rest == voters;
      required := eligible / 2 + 1;
    }

    method PlayerByToken(token: Token) returns (found: Option<PlayerId>)
      ensures found.Some? ==> HasToken(Snap(), token, found.value)
      ensures found.None? ==> forall id :: !HasToken(Snap(), token, id)
    {
      if token == 0 {
        return None;
      }
      var rest := players.Keys;
      while rest != {}
        invariant rest <= players.Keys
        invariant forall id :: id in players && id !in rest ==> players[id].token != token
        decreases |rest|
      {
        var id :| id in rest;
        if players[id].token == token {
          return Some(id);
        }
        rest := rest - {id};
      }
      return None;
    }

    method RemovePlayerFromOrder(id: PlayerId)
      modifies this`playerOrder
      ensures playerOrder == Drop(old(playerOrder), id)
    {
      var i := 0;
      while i < |playerOrder|
        invariant 0 <= i <= |playerOrder|
        invariant playerOrder == old(playerOrder) && id !in playerOrder[..i]
      {
        if playerOrder[i] == id {
          DropFirst(playerOrder, id, i);
          playerOrder := playerOrder[..i] + playerOrder[i + 1..];
          return;
        }
        i := i + 1;
      }
      DropNothing(playerOrder, id);
    }

    method TransferHostToAny()
      modifies this`players, this`hostPlayerId
      ensures HostMoved(old(Snap()), Snap())
    {
      hostPlayerId := 0;
      var rest := players.Keys;
      while rest != {}
        invariant rest <= players.Keys && players == old(players) && hostPlayerId == 0
        invariant forall id :: id in players && id !in rest ==> !players[id].connected
        decreases |rest|
      {
        var id :| id in rest;
        if players[id].connected {
          SetHost(id);
          return;
        }
        rest := rest - {id};
      }
    }

    method SetHost(id: PlayerId)
      modifies this`players, this`hostPlayerId
      ensures Snap() == WithHost(old(Snap()), id)
    {
      var rest := players.Keys;
      while rest != {}
        invariant rest <= players.Keys == old(players.Keys) && hostPlayerId == old(hostPlayerId)
        invariant forall k :: k in players ==>
          players[k] == if k in rest then old(players)[k] else old(players)[k].(isHost := k == id)
        decreases |rest|
      {
        var k :| k in rest;
        players := players[k := players[k].(isHost := k == id)];
        rest := rest - {k};
      }
      assert players == Flagged(old(players), id);
      hostPlayerId := id;
    }
  }

  lemma OneLessToCount(voters: set<PlayerId>, rest: set<PlayerId>, id: PlayerId)
    requires id in rest
    ensures |voters - (rest - {id})| == |voters - rest| + if id in voters then 1 else 0
  {
    if id in voters {
      assert voters - (rest - {id}) == (voters - rest) + {id};
    } else {
      assert voters - (rest - {id}) == voters - rest;
    }
  }

  lemma {:induction false} DropFirst(order: seq<PlayerId>, id: PlayerId, i: nat)
    requires i < |order| && order[i] == id && id !in order[..i]
    ensures Drop(order, id) == order[..i] + order[i + 1..]
  {
    if i > 0 {
      assert order[0] in order[..i];
      assert order[1..][..i - 1] == order[..i][1..];
      DropFirst(order[1..], id, i - 1);
    }
  }

  lemma {:induction false} DropNothing(order: seq<PlayerId>, id: PlayerId)
    requires id !in order
    ensures Drop(order, id) == order
  {
    if order != [] {
      DropNothing(order[1..], id);
    }
  }

  function Founded(id: PlayerId, host: Member): RoomState {
    RoomState(map[id := host.(isHost := true)], [id], id, None)
  }

  // ------------------------------------------------------------- the invariant

  /**
   The order lists each member once, everybody is connected, the host is a member or missing and
   is the only one flagged, and a vote names a member with approvals from other members only.
   */
  ghost predicate RoomOk(r: RoomState) {
    && Distinct(r.order) && Elements(r.order) == r.players.Keys && 0 !in r.players && |r.players| <= MAX_PLAYERS
    && (r.host == 0 || r.host in r.players)
    && (forall id :: id in r.players ==> r.players[id].connected && (r.players[id].isHost <==> id == r.host))
    && (r.vote.Some? ==>
          r.vote.value.target in r.players && r.vote.value.approvals <= r.players.Keys - {r.vote.value.target})
  }

  /** New members come without the host flag and under a non-empty id, as the room manager creates them. */
  ghost predicate Fit(action: Action) {
    action.Join? ==> action.id != 0 && !action.member.isHost
  }

  lemma {:induction false} DropList(order: seq<PlayerId>, id: PlayerId)
    requires Distinct(order)
    ensures Distinct(Drop(order, id)) && Elements(Drop(order, id)) == Elements(order) - {id}
  {
    DistinctPairs(order);
    DropMembers(order, id);
    DistinctPairs(Drop(order, id));
  }

  lemma {:induction false} DropMembers(order: seq<PlayerId>, id: PlayerId)
    requires forall i, j :: 0 <= i < j < |order| ==> order[i] != order[j]
    ensures Elements(Drop(order, id)) == Elements(order) - {id}
    ensures var d := Drop(order, id); forall i, j :: 0 <= i < j < |d| ==> d[i] != d[j]
  {
    if order != [] {
      var rest := order[1..];
      assert order == [order[0]] + rest;
      DropMembers(rest, id);
      if order[0] != id {
        var d, dr := Drop(order, id), Drop(rest, id);
        assert d == [order[0]] + dr;
        forall x: PlayerId ensures x in Elements(d) <==> x in Elements(order) - {id} {
          assert x in Elements(dr) <==> x in dr;
          assert x in Elements(rest) <==> x in rest;
        }
        forall i, j | 0 <= i < j < |d| ensures d[i] != d[j] {
          assert d[j] == dr[j - 1] && dr[j - 1] in Elements(dr);
          if i == 0 {
            assert order[0] !in rest;
          }
        }
      }
    }
  }

  lemma HostMovedKeeps(a: RoomState, b: RoomState)
    requires HostMoved(a, b) && 0 !in a.players
    requires forall id :: id in a.players ==> a.players[id].connected
    ensures b.players.Keys == a.players.Keys && b.order == a.order && b.vote == a.vote
    ensures b.host == 0 || b.host in b.players
    ensures forall id :: id in b.players ==> b.players[id].connected && (b.players[id].isHost <==> id == b.host)
  {
  }

  lemma GoneKeeps(a: RoomState, id: PlayerId, vote: Option<KickVote>, b: RoomState)
    requires RoomOk(a) && id in a.players && Gone(a, id, vote, b)
    requires vote.Some? ==> vote.value.target in a.players && vote.value.target != id
    requires vote.Some? ==> vote.value.approvals <= a.players.Keys - {vote.value.target} - {id}
    ensures RoomOk(b) && b.players.Keys == a.players.Keys - {id}
  {
    var rest := a.(players := a.players - {id}, order := Drop(a.order, id), vote := vote);
    DropList(a.order, id);
    SubsetSize(rest.players.Keys, a.players.Keys);
    if a.host == id { HostMovedKeeps(rest, b); }
  }

  lemma CountedKeeps(a: RoomState, v: KickVote, b: RoomState, out: Result)
    requires RoomOk(a) && Counted(a, v, b, out)
    requires v.target in a.players && v.approvals <= a.players.Keys - {v.target}
    ensures RoomOk(b)
    ensures out.Kicked? ==> out.player == v.target && b.players.Keys == a.players.Keys - {v.target}
  {
    if |v.approvals| >= Required(a.players, v.target) {
      GoneKeeps(a, v.target, None, b);
    }
  }

  lemma JoinedKeeps(a: RoomState, id: PlayerId, member: Member, b: RoomState, out: Result)
    requires RoomOk(a) && Joined(a, id, member, b, out) && id != 0 && !member.isHost
    ensures RoomOk(b)
  {
    if b != a {
      assert id !in Elements(a.order);
      OrderGrows(a.order, id);
      MapGrows(a.players, id, member.(connected := true));
      NewcomerKeeps(a, id, member.(connected := true), b);
    }
  }

  lemma MapGrows(players: map<PlayerId, Member>, id: PlayerId, member: Member)
    requires id !in players
    ensures players[id := member].Keys == players.Keys + {id} && |players[id := member]| == |players| + 1
  {
    assert players[id := member] - {id} == players;
  }

  lemma NewcomerKeeps(a: RoomState, id: PlayerId, member: Member, b: RoomState)
    requires RoomOk(a) && id !in a.players && id != 0 && member.connected && !member.isHost && |a.players| < MAX_PLAYERS
    requires b == a.(players := b.players, order := a.order + [id]) && b.players == a.players[id := member]
    requires b.players.Keys == a.players.Keys + {id} && |b.players| == |a.players| + 1
    requires Distinct(b.order) && Elements(b.order) == Elements(a.order) + {id}
    ensures RoomOk(b)
  {
  }

  lemma OrderGrows(order: seq<PlayerId>, id: PlayerId)
    requires Distinct(order) && id !in order
    ensures Distinct(order + [id]) && Elements(order + [id]) == Elements(order) + {id}
  {
    assert (order + [id])[..|order|] == order;
  }

  lemma FlagsKeep(a: RoomState, b: RoomState)
    requires RoomOk(a) && b == a.(players := b.players, host := b.host) && b.players.Keys == a.players.Keys
    requires b.host == 0 || b.host in b.players
    requires forall id :: id in b.players ==> b.players[id].connected && (b.players[id].isHost <==> id == b.host)
    ensures RoomOk(b)
  {
  }

  /** The vote as it stands once the player has approved or not. */
  function Voted(v: KickVote, p: PlayerId, approve: bool): KickVote {
    v.(approvals := if approve then v.approvals + {p} else v.approvals - {p})
  }

  lemma VoteStartedKeeps(a: RoomState, p: PlayerId, target: PlayerId, b: RoomState, out: Result)
    requires RoomOk(a) && p in a.players && VoteStarted(a, p, target, b, out)
    ensures RoomOk(b)
  {
    if !out.Refused? { CountedKeeps(a, KickVote(target, p, {p}), b, out); }
  }

  lemma VoteCastKeeps(a: RoomState, p: PlayerId, approve: bool, b: RoomState, out: Result)
    requires RoomOk(a) && p in a.players && VoteCast(a, p, approve, b, out)
    ensures RoomOk(b)
  {
    if !out.Refused? { CountedKeeps(a, Voted(a.vote.value, p, approve), b, out); }
  }

  lemma TokenActionKeeps(a: RoomState, action: Action, p: PlayerId, b: RoomState, out: Result)
    requires RoomOk(a) && p in a.players && TokenAction(a, action, p, b, out)
    ensures RoomOk(b)
  {
    match action
    case SetReady(_, ready) => FlagsKeep(a, b);
    case TransferHost(_, target) =>
      if b != a { FlagsKeep(a, b); }
    case StartKickVote(_, target) => VoteStartedKeeps(a, p, target, b, out);
    case CastKickVote(_, approve) => VoteCastKeeps(a, p, approve, b, out);
  }

  lemma NextKeeps(a: RoomState, action: Action, actor: PlayerId, b: RoomState, out: Result)
    requires RoomOk(a) && NextBy(a, action, actor, b, out) && Fit(action)
    ensures RoomOk(b)
  {
    match action
    case Join(id, member) => JoinedKeeps(a, id, member, b, out);
    case Leave(id) =>
      if id in a.players { GoneKeeps(a, id, VoteAfterLeave(a.vote, id), b); }
    case _ =>
      if HasToken(a, action.token, actor) {
        TokenActionKeeps(a, action, actor, b, out);
      }
  }

  // --------------------------------------------------------------------- runs

  /** One step of a room's history: who did what, and what came of it. */
  datatype RoomStep = RoomStep(action: Action, actor: PlayerId, state: RoomState, result: Result)

  ghost predicate RoomRun(start: RoomState, steps: seq<RoomStep>) {
    steps == [] ||
      var front, last := steps[..|steps| - 1], steps[|steps| - 1];
      && RoomRun(start, front) && Fit(last.action)
      && NextBy(Final(start, front), last.action, last.actor, last.state, last.result)
  }

  function Final(start: RoomState, steps: seq<RoomStep>): RoomState {
    if steps == [] then start else steps[|steps| - 1].state
  }

  lemma {:induction false} RunStaysOk(start: RoomState, steps: seq<RoomStep>)
    requires RoomOk(start) && RoomRun(start, steps)
    ensures RoomOk(Final(start, steps))
  {
    if steps != [] {
      var front, last := steps[..|steps| - 1], steps[|steps| - 1];
      RunStaysOk(start, front);
      NextKeeps(Final(start, front), last.action, last.actor, last.state, last.result);
    }
  }

  lemma FoundedOk(id: PlayerId, host: Member)
    requires id != 0 && host.connected
    ensures RoomOk(Founded(id, host))
  {
    assert [id][..0] == [];
    assert Elements([id]) == {id};
    assert Founded(id, host).players.Keys == {id};
  }

  /** Under any interleaving of actions, from the founding of the room on, the room stays in order. */
  lemma RoomStaysOk(id: PlayerId, host: Member, steps: seq<RoomStep>)
    requires id != 0 && host.connected && RoomRun(Founded(id, host), steps)
    ensures RoomOk(Final(Founded(id, host), steps))
  {
    FoundedOk(id, host);
    RunStaysOk(Founded(id, host), steps);
  }

  // ------------------------------------------------------------- hostless rooms

  /** Joining does not make a host, and nobody has the empty id that a transfer would have to come from. */
  lemma StaysHostless(a: RoomState, action: Action, actor: PlayerId, b: RoomState, out: Result)
    requires RoomOk(a) && a.host == 0 && NextBy(a, action, actor, b, out) && Fit(action)
    ensures b.host == 0
    ensures action.TransferHost? ==> b == a && out.Refused?
  {
  }

  /** A room without a host never gets one again, whatever happens in it, and refuses every transfer. */
  lemma {:induction false} HostlessForever(start: RoomState, steps: seq<RoomStep>)
    requires RoomOk(start) && start.host == 0 && RoomRun(start, steps)
    ensures Final(start, steps).host == 0
    ensures forall k :: 0 <= k < |steps| && steps[k].action.TransferHost? ==> steps[k].result.Refused?
  {
    if steps != [] {
      var front, last := steps[..|steps| - 1], steps[|steps| - 1];
      HostlessForever(start, front);
      RunStaysOk(start, front);
      StaysHostless(Final(start, front), last.action, last.actor, last.state, last.result);
      forall k | 0 <= k < |steps| && steps[k].action.TransferHost? ensures steps[k].result.Refused? {
        if k < |front| { assert steps[k] == front[k]; }
      }
    }
  }

  /** It does happen: the founder leaves and somebody else joins. */
  lemma AHostlessRoom(id: PlayerId, host: Member, other: PlayerId, member: Member) returns (steps: seq<RoomStep>)
    requires id != 0 && host.connected && other != 0 && other != id && !member.isHost
    ensures RoomRun(Founded(id, host), steps)
    ensures Final(Founded(id, host), steps).players.Keys == {other} && Final(Founded(id, host), steps).host == 0
  {
    var founded := Founded(id, host);
    var empty := RoomState(map[], [], 0, None);
    var joined := RoomState(map[other := member.(connected := true)], [other], 0, None);
    var leaving, joining := RoomStep(Leave(id), id, empty, Done), RoomStep(Join(other, member), other, joined, Done);
    assert founded.players - {id} == map[];
    assert HostMoved(founded.(players := map[], order := []), empty);
    assert RoomRun(founded, []);
    assert [leaving][..0] == [] && RoomRun(founded, [leaving]);
    steps := [leaving, joining];
    assert steps[..1] == [leaving];
  }

  /** Somebody else is there to take over. */
  lemma HostFound(a: RoomState, b: RoomState, p: PlayerId)
    requires HostMoved(a, b) && 0 !in a.players && p in a.players && a.players[p].connected
    ensures b.host != 0
  {
  }

  lemma VoterStays(a: RoomState, v: KickVote, p: PlayerId, b: RoomState, out: Result)
    requires RoomOk(a) && a.host != 0 && Counted(a, v, b, out) && p in a.players && p != v.target
    ensures b.host != 0
  {
    if out.Kicked? && a.host == v.target {
      HostFound(a.(players := a.players - {v.target}, order := Drop(a.order, v.target), vote := None), b, p);
    }
  }

  lemma LeavingHost(a: RoomState, b: RoomState, vote: Option<KickVote>)
    requires RoomOk(a) && a.host != 0 && Gone(a, a.host, vote, b)
    ensures b.host == 0 <==> a.players.Keys == {a.host}
  {
    var rest := a.(players := a.players - {a.host}, order := Drop(a.order, a.host), vote := vote);
    if a.players.Keys != {a.host} {
      var p :| p in a.players.Keys && p != a.host;
      HostFound(rest, b, p);
    } else {
      assert forall id :: id in rest.players ==> id in a.players.Keys && id != a.host;
    }
  }

  /** A room is left without a host exactly by its last member leaving. */
  lemma HostLostOnlyWhenEmpty(a: RoomState, action: Action, actor: PlayerId, b: RoomState, out: Result)
    requires RoomOk(a) && a.host != 0 && NextBy(a, action, actor, b, out) && Fit(action)
    ensures b.host == 0 <==> action == Action.Leave(a.host) && a.players.Keys == {a.host}
  {
    match action
    case Join(id, member) =>
    case Leave(id) =>
      if id == a.host { LeavingHost(a, b, VoteAfterLeave(a.vote, id)); }
    case _ =>
      if HasToken(a, action.token, actor) {
        HostSurvives(a, action, actor, b, out);
      }
  }

  lemma HostSurvives(a: RoomState, action: Action, p: PlayerId, b: RoomState, out: Result)
    requires RoomOk(a) && a.host != 0 && p in a.players && TokenAction(a, action, p, b, out)
    ensures b.host != 0
  {
    match action
    case SetReady(_, ready) =>
    case TransferHost(_, target) =>
    case StartKickVote(_, target) =>
      if b != a { VoterStays(a, KickVote(target, p, {p}), p, b, out); }
    case CastKickVote(_, approve) =>
      if b != a {
        var v := a.vote.value;
        VoterStays(a, v.(approvals := if approve then v.approvals + {p} else v.approvals - {p}), p, b, out);
      }
  }
}
