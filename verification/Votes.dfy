/** Kick votes over whole room histories: whose approvals an open vote holds, and when they expel. */
module Votes {
  import opened Cards
  import opened Table
  import opened Rooms

  // ------------------------------------------------------- votes in a history

  /** The step opened a vote, even if the vote was decided at once. */
  predicate Opens(step: RoomStep) {
    step.action.StartKickVote? && !step.result.Refused?
  }

  /** The step was a valid vote in an open kick vote. */
  predicate Casts(step: RoomStep) {
    step.action.CastKickVote? && !step.result.Refused?
  }

  /** The player opened a vote or approved in it. */
  predicate Approves(step: RoomStep, p: PlayerId) {
    step.actor == p && (Opens(step) || (Casts(step) && step.action.approve))
  }

  /** What the player said before no longer counts: taken back, left, or another vote opened. */
  predicate Retracts(step: RoomStep, p: PlayerId) {
    || Opens(step)
    || (Casts(step) && step.actor == p && !step.action.approve)
    || (step.action == Leave(p) && !step.result.Refused?)
  }

  /** The player has approved and not retracted since. */
  ghost predicate Approved(steps: seq<RoomStep>, p: PlayerId) {
    exists j :: 0 <= j < |steps| && Approves(steps[j], p) && KeptSince(steps, j, p)
  }

  ghost predicate KeptSince(steps: seq<RoomStep>, j: int, p: PlayerId) {
    forall k :: j < k < |steps| && 0 <= k ==> !Retracts(steps[k], p)
  }

  /** Against whom the latest vote was opened. */
  function Accused(steps: seq<RoomStep>): Option<PlayerId> {
    if steps == [] then None
    else if Opens(steps[|steps| - 1]) then Some(steps[|steps| - 1].action.target)
    else Accused(steps[..|steps| - 1])
  }

  /** The voters among the given players whose approval stands. */
  ghost function Supporters(steps: seq<RoomStep>, among: set<PlayerId>): set<PlayerId> {
    set p | p in among && Approved(steps, p)
  }

  lemma ApprovedNext(steps: seq<RoomStep>, p: PlayerId)
    requires steps != []
    ensures var front, last := steps[..|steps| - 1], steps[|steps| - 1];
      Approved(steps, p) <==> Approves(last, p) || (Approved(front, p) && !Retracts(last, p))
  {
    var front, last := steps[..|steps| - 1], steps[|steps| - 1];
    if Approves(last, p) {
      assert KeptSince(steps, |steps| - 1, p);
    }
    if Approved(front, p) && !Retracts(last, p) {
      var j :| 0 <= j < |front| && Approves(front[j], p) && KeptSince(front, j, p);
      forall k | j < k < |steps| && 0 <= k ensures !Retracts(steps[k], p) {
        if k < |front| { assert front[k] == steps[k]; }
      }
      assert steps[j] == front[j] && KeptSince(steps, j, p);
    }
    if Approved(steps, p) && !Approves(last, p) {
      var j :| 0 <= j < |steps| && Approves(steps[j], p) && KeptSince(steps, j, p);
      assert !Retracts(steps[|steps| - 1], p);
      assert front[j] == steps[j];
      forall k | j < k < |front| && 0 <= k ensures !Retracts(front[k], p) {
        assert front[k] == steps[k];
      }
      assert KeptSince(front, j, p);
    }
  }

  // --------------------------------------------------- an open vote is honest

  /** An open vote is the one opened last, and its approvals are exactly those that stand. */
  ghost predicate Honest(vote: Option<KickVote>, steps: seq<RoomStep>) {
    vote.Some? ==>
      && Accused(steps) == Some(vote.value.target)
      && forall p :: p in vote.value.approvals <==> Approved(steps, p)
  }

  /** A vote as opened or changed by the step, before it is counted. */
  function Tally(a: RoomState, step: RoomStep): KickVote
    requires Opens(step) || (Casts(step) && a.vote.Some?)
  {
    if Opens(step) then KickVote(step.action.target, step.actor, {step.actor})
    else Voted(a.vote.value, step.actor, step.action.approve)
  }

  /** An accepted vote action counts the changed vote, of members other than the target. */
  lemma VoteCounted(a: RoomState, step: RoomStep)
    requires RoomOk(a) && NextBy(a, step.action, step.actor, step.state, step.result) && (Opens(step) || Casts(step))
    ensures Casts(step) ==> a.vote.Some?
    ensures Counted(a, Tally(a, step), step.state, step.result)
    ensures var v := Tally(a, step); v.target in a.players && v.approvals <= a.players.Keys - {v.target}
  {
    assert HasToken(a, step.action.token, step.actor);
    if Opens(step) {
      assert VoteStarted(a, step.actor, step.action.target, step.state, step.result);
    } else {
      assert VoteCast(a, step.actor, step.action.approve, step.state, step.result);
    }
  }

  /** Before it is counted, the changed vote is honest about the history that includes the step. */
  lemma TallyHonest(a: RoomState, front: seq<RoomStep>, step: RoomStep)
    requires Opens(step) || (Casts(step) && a.vote.Some?)
    requires Honest(a.vote, front)
    ensures Honest(Some(Tally(a, step)), front + [step])
  {
    var steps := front + [step];
    assert steps[..|steps| - 1] == front;
    forall p ensures p in Tally(a, step).approvals <==> Approved(steps, p) {
      ApprovedNext(steps, p);
    }
  }

  /** Actions other than votes leave the vote alone, except that a departure takes an approval along. */
  lemma OtherActions(a: RoomState, step: RoomStep)
    requires NextBy(a, step.action, step.actor, step.state, step.result) && !Opens(step) && !Casts(step)
    ensures !step.result.Kicked?
    ensures step.state.vote
      == if step.action.Leave? && !step.result.Refused? then VoteAfterLeave(a.vote, step.action.id) else a.vote
  {
  }

  lemma HonestNext(a: RoomState, front: seq<RoomStep>, step: RoomStep)
    requires RoomOk(a) && NextBy(a, step.action, step.actor, step.state, step.result) && Honest(a.vote, front)
    ensures Honest(step.state.vote, front + [step])
  {
    var steps := front + [step];
    assert steps[..|steps| - 1] == front;
    if Opens(step) || Casts(step) {
      VoteCounted(a, step);
      TallyHonest(a, front, step);
      CountedVote(a, Tally(a, step), step.state, step.result);
    } else {
      OtherActions(a, step);
      if step.state.vote.Some? {
        forall p ensures p in step.state.vote.value.approvals <==> Approved(steps, p) {
          ApprovedNext(steps, p);
        }
      }
    }
  }

  lemma CountedVote(a: RoomState, v: KickVote, b: RoomState, out: Result)
    requires RoomOk(a) && Counted(a, v, b, out)
    ensures b.vote == Some(v) || b.vote.None?
  {
  }

  /** In every history, an open vote holds exactly the approvals given in it and not retracted since. */
  lemma {:induction false} ApprovalsAreVotes(start: RoomState, steps: seq<RoomStep>)
    requires RoomOk(start) && start.vote.None? && RoomRun(start, steps)
    ensures Honest(Final(start, steps).vote, steps)
  {
    if steps != [] {
      var front, last := steps[..|steps| - 1], steps[|steps| - 1];
      ApprovalsAreVotes(start, front);
      RunStaysOk(start, front);
      HonestNext(Final(start, front), front, last);
      assert front + [last] == steps;
    }
  }

  // ------------------------------------------------------------------- kicks

  /** With everybody connected, the approvals needed are a strict majority of the others. */
  lemma CountedMajority(a: RoomState, v: KickVote, b: RoomState, out: Result)
    requires RoomOk(a) && Counted(a, v, b, out)
    requires v.target in a.players && v.approvals <= a.players.Keys - {v.target}
    ensures var others := a.players.Keys - {v.target};
      && (out == Kicked(v.target) <==> 2 * |v.approvals| > |others|)
      && (if out == Kicked(v.target) then b.players.Keys == others else out == Done && b.players == a.players)
  {
    CountedKeeps(a, v, b, out);
    assert Voters(a.players, v.target) == a.players.Keys - {v.target};
  }

  /**
   What a vote action in room `a` comes to: the accused is a member, everybody whose approval stands is
   another member, and the accused is expelled exactly if these are more than half of the other members.
   */
  ghost predicate Decided(a: RoomState, steps: seq<RoomStep>, b: RoomState, out: Result) {
    && Accused(steps).Some? && Accused(steps).value in a.players
    && var target := Accused(steps).value;
    var others := a.players.Keys - {target};
    && (forall p :: Approved(steps, p) ==> p in others)
    && (out == Kicked(target) <==> 2 * |Supporters(steps, others)| > |others|)
    && if out == Kicked(target) then b.players.Keys == others else out == Done && b.players == a.players
  }

  lemma TallyDecides(a: RoomState, steps: seq<RoomStep>, v: KickVote, b: RoomState, out: Result)
    requires RoomOk(a) && Counted(a, v, b, out) && Honest(Some(v), steps)
    requires v.target in a.players && v.approvals <= a.players.Keys - {v.target}
    ensures Decided(a, steps, b, out)
  {
    CountedMajority(a, v, b, out);
    assert Supporters(steps, a.players.Keys - {v.target}) == v.approvals;
  }

  lemma VoteDecides(a: RoomState, front: seq<RoomStep>, step: RoomStep)
    requires RoomOk(a) && NextBy(a, step.action, step.actor, step.state, step.result) && Honest(a.vote, front)
    requires Opens(step) || Casts(step)
    ensures Decided(a, front + [step], step.state, step.result)
  {
    VoteCounted(a, step);
    TallyHonest(a, front, step);
    TallyDecides(a, front + [step], Tally(a, step), step.state, step.result);
  }

  /** In every history, only votes expel, and every vote opened or cast is decided by those whose approval stands. */
  lemma KicksNeedMajority(id: PlayerId, host: Member, front: seq<RoomStep>, step: RoomStep)
    requires id != 0 && host.connected && RoomRun(Founded(id, host), front + [step])
    ensures step.result.Kicked? ==> Opens(step) || Casts(step)
    ensures Opens(step) || Casts(step) ==>
      Decided(Final(Founded(id, host), front), front + [step], step.state, step.result)
  {
    var start := Founded(id, host);
    FoundedOk(id, host);
    RunEnds(start, front, step);
    RunStaysOk(start, front);
    ApprovalsAreVotes(start, front);
    if Opens(step) || Casts(step) {
      VoteDecides(Final(start, front), front, step);
    } else {
      OtherActions(Final(start, front), step);
    }
  }

  lemma RunEnds(start: RoomState, front: seq<RoomStep>, step: RoomStep)
    requires RoomRun(start, front + [step])
    ensures RoomRun(start, front)
    ensures NextBy(Final(start, front), step.action, step.actor, step.state, step.result)
  {
    var steps := front + [step];
    assert steps[..|steps| - 1] == front;
  }
}
