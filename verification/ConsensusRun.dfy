/**
 * Whole runs of one validator, and the one panic that a peer's message can cause.
 */
module ConsensusRun {
  import opened Common
  import opened ConsensusSpec
  import opened ConsensusInvariant

  /** A validator's states from genesis on; the inputs are anything the network may deliver. */
  ghost predicate NodeRun(c: Config, run: seq<RoundState>, events: seq<Event>) {
    && c.initialHeight >= 1
    && |run| == |events| + 1 && run[0] == Genesis(c)
    && forall i :: 0 <= i < |events| ==> ValidEvent(c, run[i], events[i]) && run[i + 1] == Handle(c, run[i], events[i])
  }

  lemma {:induction false} NodeRunKeeps(c: Config, run: seq<RoundState>, events: seq<Event>, i: nat)
    requires NodeRun(c, run, events) && i < |run|
    ensures Inv(c, run[i])
  {
    hide Handle, Inv, Genesis;
    if i == 0 {
      GenesisHolds(c);
    } else {
      NodeRunKeeps(c, run, events, i - 1);
      HandleKeeps(c, run[i - 1], events[i - 1]);
    }
  }

  /**
   * From any state of a run to any later one: height/round/step has not decreased, no signature,
   * counted vote or decision is withdrawn, and a vote signed in between is not for an older round.
   */
  ghost predicate Later(s: RoundState, t: RoundState) {
    && Before(s.height, s.round, s.step, t.height, t.round, t.step)
    && s.outputs <= t.outputs && Extends(s.votes, t.votes)
    && (forall h :: h in s.decided ==> h in t.decided && t.decided[h] == s.decided[h])
    && (forall o :: o in t.outputs && o.SignVote? && o !in s.outputs ==>
          o.height > s.height || (o.height == s.height && o.round >= s.round))
  }

  lemma {:induction false} RunIsMonotone(c: Config, run: seq<RoundState>, events: seq<Event>, i: nat, j: nat)
    requires NodeRun(c, run, events) && i <= j < |run|
    ensures Later(run[i], run[j])
    decreases j
  {
    hide Handle, Inv, Genesis;
    if i < j {
      RunIsMonotone(c, run, events, i, j - 1);
      NodeRunKeeps(c, run, events, j - 1);
      HandleKeeps(c, run[j - 1], events[j - 1]);
    }
  }

  /**
   * Every pending timeout is for a round the validator has reached, every vote it ever signed is for
   * a step it has reached, and it never signs two votes for one step. The round written into a vote is
   * the round that was examined for it, and a precommit for a block has the polka of that very round.
   */
  lemma SingleNodeRun(c: Config, run: seq<RoundState>, events: seq<Event>, i: nat)
    requires NodeRun(c, run, events) && i < |run|
    ensures var s := run[i];
            && (forall t :: t in s.timeouts ==> t.height < s.height || (t.height == s.height && t.round <= s.round))
            && (forall o :: o in s.outputs && o.SignVote? ==>
                  && Before(o.height, o.round, VoteStep(o.kind), s.height, s.round, s.step)
                  && o.examined == o.round)
            && NeverTwice(s)
            && (forall o :: o in s.outputs && o.SignVote? && o.kind == Precommit && o.value.Block? ==>
                  IsMajority(c, s.votes, o.height, o.examined, Prevote, o.value))
  {
    NodeRunKeeps(c, run, events, i);
    assert TimeoutsBehind(run[i]) && VotesBehind(run[i]) && ExaminesOwnRound(run[i]) && PrecommitsHavePolka(c, run[i]);
    hide IsMajority, Handle, NodeRun;
  }

  // ----- the panic on a nil LastCommit -----

  /** A precommit for the previous height reaches a validator that has not left its initial height. */
  predicate HitsNilLastCommit(s: RoundState, e: Event) {
    && e.VoteMessage? && e.vote.kind == Precommit && e.vote.height + 1 == s.height
    && s.step == NEW_HEIGHT && s.lastHeight == 0
  }

  /** A step from s to t has not stopped for that reason. */
  predicate GoesOn(s: RoundState, t: RoundState) {
    t.halt == NilLastCommit ==> s.halt == NilLastCommit
  }

  lemma StepsGoOn(c: Config)
    ensures forall s, h: int, r: int :: GoesOn(s, EnterPrevote(c, s, h, r)) && GoesOn(s, EnterPrevoteWait(c, s, h, r))
    ensures forall s, h: int, r: int :: GoesOn(s, EnterPrecommit(c, s, h, r)) && GoesOn(s, EnterPrecommitWait(c, s, h, r))
    ensures forall s, h: int :: GoesOn(s, UpdateToState(c, s, h))
  {
    hide TwoThirdsMajority, HasTwoThirdsAny, WithVote;
  }

  lemma NewRoundGoesOn(c: Config)
    ensures forall s, h: int, r: int :: GoesOn(s, EnterPropose(c, s, h, r)) && GoesOn(s, EnterNewRound(c, s, h, r))
  {
    StepsGoOn(c);
    hide IsProposalComplete, IsValidator, EnterPrevote;
    forall s, h: int, r: int ensures GoesOn(s, EnterPropose(c, s, h, r)) {
      var u := BeginPropose(c, s, h, r);
      assert GoesOn(u, EnterPrevote(c, u, h, u.round));
    }
    hide EnterPropose;
  }

  lemma CommitGoesOn(c: Config)
    ensures forall s, h: int :: GoesOn(s, TryFinalizeCommit(c, s, h))
    ensures forall s, h: int, r: int :: GoesOn(s, EnterCommit(c, s, h, r))
  {
    StepsGoOn(c);
    hide TwoThirdsMajority, UpdateToState;
    forall s, h: int ensures GoesOn(s, FinalizeCommit(c, s, h)) {
      var m := TwoThirdsMajority(c, s.votes, s.height, s.commitRound, Precommit);
      if m.Some? && m.value.Block? { assert GoesOn(s, UpdateToState(c, Stored(s, h, m.value.id), h)); }
    }
    hide FinalizeCommit;
  }

  lemma ReactionsGoOn(c: Config)
    ensures forall s, r: int :: GoesOn(s, OnPrevote(c, s, r)) && GoesOn(s, OnPrecommit(c, s, r))
    ensures forall s, h: int :: GoesOn(s, HandleCompleteProposal(c, s, h))
  {
    StepsGoOn(c);
    NewRoundGoesOn(c);
    CommitGoesOn(c);
    hide TwoThirdsMajority, HasTwoThirdsAny, HasAll, IsProposalComplete;
    hide EnterNewRound, EnterPrevote, EnterPrevoteWait, EnterPrecommit, EnterPrecommitWait, EnterCommit, TryFinalizeCommit;
  }

  lemma NilLastCommitExactly(c: Config, s: RoundState, e: Event)
    requires s.halt == Running
    ensures Handle(c, s, e).halt == NilLastCommit <==> HitsNilLastCommit(s, e)
  {
    StepsGoOn(c);
    NewRoundGoesOn(c);
    ReactionsGoOn(c);
    hide HasAll, OnPrevote, OnPrecommit, HandleCompleteProposal, EnterNewRound, EnterPropose, EnterPrevote, EnterPrecommit;
  }

  // ----- the last commit -----

  /** The precommits kept of the last height always justify its block, so that a proposal can be built on them. */
  lemma {:induction false} LastCommitStands(c: Config, run: seq<RoundState>, events: seq<Event>, i: nat)
    requires NodeRun(c, run, events) && i < |run|
    ensures HasLastCommit(c, run[i])
  {
    hide Handle, Inv, HasLastCommit;
    if i > 0 {
      LastCommitStands(c, run, events, i - 1);
      NodeRunKeeps(c, run, events, i - 1);
      LastCommitStays(c, run[i - 1], events[i - 1]);
    } else {
      NoCommitYet(c);
    }
  }

  lemma NoCommitYet(c: Config)
    ensures HasLastCommit(c, Genesis(c))
  {
    hide IsMajority;
  }

  lemma LastCommitStays(c: Config, s: RoundState, e: Event)
    requires Inv(c, s) && ValidEvent(c, s, e) && HasLastCommit(c, s)
    ensures HasLastCommit(c, Handle(c, s, e))
  {
    var t := Handle(c, s, e);
    HandleKeeps(c, s, e);
    HandleLands(c, s, e);
    hide Handle, Inv, Fresh, IsMajority, ValidEvent;
    if t.height == s.height && s.lastHeight > 0 {
      var b :| IsMajority(c, s.votes, s.lastHeight, s.lastCommitRound, Precommit, Block(b));
      MajorityGrows(c, s.votes, t.votes, s.lastHeight, s.lastCommitRound, Precommit, Block(b));
      assert IsMajority(c, t.votes, t.lastHeight, t.lastCommitRound, Precommit, Block(b));
    }
    hide Advances;
  }

  /** A chain that starts above height one: any precommit for the height before it stops a fresh validator. */
  lemma NilLastCommitHappens(c: Config, v: Vote)
    requires c.initialHeight >= 2
    requires v.height == c.initialHeight - 1 && v.round >= 0 && v.kind == Precommit
    ensures NodeRun(c, [Genesis(c), Genesis(c).(halt := NilLastCommit)], [VoteMessage(v)])
  {
    var run := [Genesis(c), Genesis(c).(halt := NilLastCommit)];
    assert Handle(c, run[0], VoteMessage(v)) == run[1];
  }
}
