/** The turn order is a ring through the living players. */
module Ring {
  import opened Cards
  import opened Table
  import opened Rules
  import opened Invariant

  /** The seat `d` places after `start`, around the table. */
  function At(n: nat, start: nat, d: nat): (i: nat)
    requires start < n
    ensures i < n
  {
    (start + d) % n
  }

  lemma AtWraps(n: nat, start: nat, d: nat)
    requires start < n && d <= n
    ensures At(n, start, d) == if start + d < n then start + d else start + d - n
  {
    if start + d >= n {
      assert start + d == n + (start + d - n);
      ModShift(n, start + d - n);
    }
  }

  lemma ModShift(n: nat, x: nat)
    requires x < n
    ensures (n + x) % n == x
  {
  }

  /** `d` is the distance from `start` to the first living player after it; the player there may be `start` itself. */
  ghost predicate FirstAliveAt(players: seq<Player>, start: nat, d: nat)
    requires start < |players|
  {
    && 1 <= d <= |players|
    && players[At(|players|, start, d)].alive
    && forall e :: 1 <= e < d ==> !players[At(|players|, start, e)].alive
  }

  lemma {:induction false} SearchFinds(players: seq<Player>, start: nat, step: nat, d: nat)
    requires start < |players| && 1 <= step <= d && FirstAliveAt(players, start, d)
    ensures NextAliveFrom(players, start, step) == Some(players[At(|players|, start, d)].id)
    decreases d - step
  {
    assert (start + step) % |players| == At(|players|, start, step);
    if step < d {
      SearchFinds(players, start, step + 1, d);
    }
  }

  lemma {:induction false} FirstDistance(players: seq<Player>, start: nat, j: nat) returns (d: nat)
    requires start < |players| && j < |players| && players[j].alive
    ensures FirstAliveAt(players, start, d)
    ensures j != start ==> d < |players|
  {
    var n := |players|;
    var far := if j > start then j - start else n - start + j;
    AtWraps(n, start, far);
    d := Closest(players, start, far);
  }

  lemma {:induction false} Closest(players: seq<Player>, start: nat, far: nat) returns (d: nat)
    requires start < |players| && 1 <= far <= |players| && players[At(|players|, start, far)].alive
    ensures FirstAliveAt(players, start, d) && d <= far
  {
    if e: nat :| 1 <= e < far && players[At(|players|, start, e)].alive {
      d := Closest(players, start, e);
    } else {
      d := far;
    }
  }

  /** `nextAlivePlayerID` returns the first living player cyclically after the start, and fails only without one. */
  lemma NextAliveIsFirst(players: seq<Player>, from: PlayerId)
    requires Seat(players, from) >= 0
    ensures match NextAlive(players, from)
      case Some(id) => exists d :: FirstAliveAt(players, Seat(players, from), d)
                               && id == players[At(|players|, Seat(players, from), d)].id
      case None => forall i :: 0 <= i < |players| ==> !players[i].alive
  {
    var start := Seat(players, from);
    if j :| 0 <= j < |players| && players[j].alive {
      var d := FirstDistance(players, start, j);
      SearchFinds(players, start, 1, d);
    } else {
      SearchFails(players, start, 1);
    }
  }

  lemma {:induction false} SearchFails(players: seq<Player>, start: nat, step: nat)
    requires start < |players| && forall i :: 0 <= i < |players| ==> !players[i].alive
    ensures NextAliveFrom(players, start, step) == None
    decreases |players| + 1 - step
  {
    if step <= |players| {
      SearchFails(players, start, step + 1);
    }
  }

  /** With somebody else alive, the next player is alive and is somebody else. */
  lemma NextIsOther(players: seq<Player>, from: PlayerId)
    requires DistinctPlayers(players) && Seat(players, from) >= 0
    requires AliveCount(players) >= if IsAlive(players, from) then 2 else 1
    ensures var r := NextAlive(players, from); r.Some? && r.value != from && IsAlive(players, r.value)
  {
    var start := Seat(players, from);
    var j := AnotherAlive(players, start);
    var d := FirstDistance(players, start, j);
    SearchFinds(players, start, 1, d);
    AtWraps(|players|, start, d);
    SeatOf(players, At(|players|, start, d));
  }

  // ---------------------------------------------------------- the whole ring

  /** The seats of the living, in table order. */
  function AliveSeats(players: seq<Player>): seq<nat> {
    if players == [] then []
    else
      var n := |players| - 1;
      AliveSeats(players[..n]) + if players[n].alive then [n] else []
  }

  lemma {:induction false} AliveSeatsList(players: seq<Player>)
    ensures |AliveSeats(players)| == AliveCount(players)
    ensures forall k :: 0 <= k < |AliveSeats(players)| ==>
      AliveSeats(players)[k] < |players| && players[AliveSeats(players)[k]].alive
    ensures forall j, k :: 0 <= j < k < |AliveSeats(players)| ==> AliveSeats(players)[j] < AliveSeats(players)[k]
    ensures forall i :: 0 <= i < |players| && players[i].alive ==> i in AliveSeats(players)
  {
    if players != [] {
      var n := |players| - 1;
      AliveSeatsList(players[..n]);
      forall i | 0 <= i < |players| && players[i].alive ensures i in AliveSeats(players) {
        if i < n {
          assert players[..n][i].alive;
        } else {
          assert AliveSeats(players)[|AliveSeats(players)| - 1] == n;
        }
      }
    }
  }

  /** One step around the ring goes from the k-th living seat to the next one, and from the last to the first. */
  lemma RingStep(players: seq<Player>, k: nat)
    requires DistinctPlayers(players) && k < |AliveSeats(players)|
    requires AliveSeats(players)[k] < |players|
    ensures var a := AliveSeats(players);
      var k' := if k + 1 < |a| then k + 1 else 0;
      a[k'] < |players| && NextAlive(players, players[a[k]].id) == Some(players[a[k']].id)
  {
    AliveSeatsList(players);
    var a, n := AliveSeats(players), |players|;
    var k' := if k + 1 < |a| then k + 1 else 0;
    var start := a[k];
    SeatOf(players, start);
    var d := if k + 1 < |a| then a[k'] - start else n - start + a[0];
    assert k > 0 ==> a[0] < a[k];
    AtWraps(n, start, d);
    forall e | 1 <= e < d ensures !players[At(n, start, e)].alive {
      AtWraps(n, start, e);
      var x := At(n, start, e);
      assert x !in a;
    }
    SearchFinds(players, start, 1, d);
  }

  /** The player whose turn it is after `k` unforced hand-overs. */
  function After(players: seq<Player>, from: PlayerId, k: nat): PlayerId {
    if k == 0 then from
    else
      match NextAlive(players, After(players, from, k - 1))
      case None => 0
      case Some(id) => id
  }

  lemma {:induction false} AfterWalks(players: seq<Player>, j: nat, k: nat)
    requires DistinctPlayers(players) && j < |AliveSeats(players)| && k <= |AliveSeats(players)|
    requires forall i :: 0 <= i < |AliveSeats(players)| ==> AliveSeats(players)[i] < |players|
    ensures var a := AliveSeats(players);
      After(players, players[a[j]].id, k) == players[a[if j + k < |a| then j + k else j + k - |a|]].id
  {
    if k > 0 {
      AfterWalks(players, j, k - 1);
      var m := |AliveSeats(players)|;
      RingStep(players, if j + k - 1 < m then j + k - 1 else j + k - 1 - m);
    }
  }

  lemma VisitsDiffer(players: seq<Player>, j: nat, k: nat, l: nat)
    requires DistinctPlayers(players) && j < |AliveSeats(players)| && 1 <= k < l <= |AliveSeats(players)|
    ensures After(players, players[AliveSeatAt(players, j)].id, k)
         != After(players, players[AliveSeatAt(players, j)].id, l)
  {
    AliveSeatsList(players);
    AfterWalks(players, j, k);
    AfterWalks(players, j, l);
    var m := |AliveSeats(players)|;
    var x, y := if j + k < m then j + k else j + k - m, if j + l < m then j + l else j + l - m;
    if x < y { ListedDiffer(players, x, y); } else { ListedDiffer(players, y, x); }
  }

  lemma ListedDiffer(players: seq<Player>, x: nat, y: nat)
    requires DistinctPlayers(players) && x < y < |AliveSeats(players)|
    ensures players[AliveSeatAt(players, x)].id != players[AliveSeatAt(players, y)].id
  {
    AliveSeatsList(players);
    assert Differ(players, AliveSeatAt(players, x), AliveSeatAt(players, y));
  }

  lemma VisitsAlive(players: seq<Player>, j: nat, k: nat)
    requires DistinctPlayers(players) && j < |AliveSeats(players)| && k <= |AliveSeats(players)|
    ensures IsAlive(players, After(players, players[AliveSeatAt(players, j)].id, k))
  {
    AliveSeatsList(players);
    AfterWalks(players, j, k);
    var m := |AliveSeats(players)|;
    ListedIsAlive(players, if j + k < m then j + k else j + k - m);
  }

  lemma ListedIsAlive(players: seq<Player>, k: nat)
    requires DistinctPlayers(players) && k < |AliveSeats(players)|
    ensures IsAlive(players, players[AliveSeatAt(players, k)].id)
  {
    AliveSeatsList(players);
    SeatOf(players, AliveSeatAt(players, k));
  }

  lemma VisitsGoal(players: seq<Player>, j: nat, g: nat) returns (k: nat)
    requires DistinctPlayers(players) && j < |AliveSeats(players)| && g < |AliveSeats(players)|
    ensures 1 <= k <= |AliveSeats(players)|
    ensures After(players, players[AliveSeatAt(players, j)].id, k) == players[AliveSeatAt(players, g)].id
    ensures j == g ==> k == |AliveSeats(players)|
  {
    AliveSeatsList(players);
    k := if g > j then g - j else g + |AliveSeats(players)| - j;
    AfterWalks(players, j, k);
  }

  function AliveSeatAt(players: seq<Player>, k: nat): (i: nat)
    requires k < |AliveSeats(players)|
    ensures i < |players| && players[i].alive
  {
    AliveSeatsList(players);
    AliveSeats(players)[k]
  }

  /**
   Starting at a living player, as many steps as there are living players visit each of them
   exactly once and lead back to the start.
   */
  lemma RingVisitsAllOnce(players: seq<Player>, start: nat, goal: nat)
    requires DistinctPlayers(players) && start < |players| && goal < |players|
    requires players[start].alive && players[goal].alive
    ensures After(players, players[start].id, AliveCount(players)) == players[start].id
    ensures exists k :: 1 <= k <= AliveCount(players) && After(players, players[start].id, k) == players[goal].id
    ensures forall k, l :: 1 <= k < l <= AliveCount(players) ==>
      After(players, players[start].id, k) != After(players, players[start].id, l)
    ensures forall k :: 1 <= k <= AliveCount(players) ==> IsAlive(players, After(players, players[start].id, k))
  {
    AliveSeatsList(players);
    var j: nat :| j < |AliveSeats(players)| && AliveSeats(players)[j] == start;
    var g: nat :| g < |AliveSeats(players)| && AliveSeats(players)[g] == goal;
    var k0 := VisitsGoal(players, j, j);
    var k1 := VisitsGoal(players, j, g);
    forall k, l | 1 <= k < l <= AliveCount(players)
      ensures After(players, players[start].id, k) != After(players, players[start].id, l)
    {
      VisitsDiffer(players, j, k, l);
    }
    forall k | 1 <= k <= AliveCount(players) ensures IsAlive(players, After(players, players[start].id, k)) {
      VisitsAlive(players, j, k);
    }
  }
}
