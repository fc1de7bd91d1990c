/**
 * consensus/state.go in its own form: an object whose methods update the round state in place.
 * Every method computes the function of the same name in `ConsensusSpec`, and says what its caller
 * may rely on when the run invariant holds: the invariant is kept, which votes may have been signed,
 * what may have happened to the lock, and what may have been finalized.
 */
module ConsensusMachine {
  import opened Common
  import opened VotingPower
  import Spec = ConsensusSpec
  import opened ConsensusSpec
  import opened ConsensusInvariant
  import opened ConsensusEffects
  import opened ConsensusReplay
  import opened LastCommit

  /** What happened before: votes counted, timeouts scheduled, signatures requested and blocks stored. */
  datatype Past = Past(record: VoteBook, timeouts: set<Timeout>, outputs: seq<Output>, decided: map<int, nat>)

  /** What a restart finds: the height of the state store, and the commit that was saved with its block. */
  datatype Stores = Stores(lastHeight: int, commit: Option<Commit>, past: Past)

  /** What is stored when a validator has entered the height of s. */
  function Saved(c: Config, s: RoundState): Stores {
    Stores(s.lastHeight, Some(SavedCommit(c, s.votes, s.lastHeight, s.lastCommitRound)),
           Past(Record(s), s.timeouts, s.outputs, s.decided))
  }

  predicate CommitUsable(c: Config, disk: Stores) {
    && disk.commit.Some? && disk.commit.value.height == disk.lastHeight
    && TwoThirdsMajority(c, CommitVotes(disk.commit.value), disk.lastHeight, disk.commit.value.round, Precommit).Some?
  }

  /** The commit that a run saves is one that a restart accepts. */
  lemma SavedIsUsable(c: Config, s: RoundState)
    requires Landed(c, s) && s.lastHeight > 0
    ensures CommitUsable(c, Saved(c, s))
  {
    var h, r := s.lastHeight, s.lastCommitRound;
    var seen := SeenCommit(c, s.votes, h, r);
    SavedCommitVotes(c, s.votes, h, r);
    var b :| IsMajority(c, s.votes, h, r, Precommit, Block(b));
    assert TwoThirdsMajority(c, s.votes, h, r, Precommit) == Some(Block(b));
    hide TwoThirdsMajority;
    TallyMonotone(c.powers(h), Voters(c, s.votes, h, r, Precommit, Block(b)), Voters(c, seen, h, r, Precommit, Block(b)));
    assert IsMajority(c, seen, h, r, Precommit, Block(b));
  }

  lemma RestoredFields(c: Config, s: RoundState)
    requires Inv(c, s) && Landed(c, s) && s.lastHeight > 0 && s.halt == Running
    ensures HeightStart(c, s) == RoundState(s.lastHeight + 1, 0, NEW_HEIGHT, s.lastHeight, s.lastCommitRound,
                                            None, None, None, -1, None, -1, None, -1, false,
                                            Record(s) + SeenCommit(c, s.votes, s.lastHeight, s.lastCommitRound),
                                            s.timeouts, s.outputs, s.decided, Running)
  {
    hide HasLastCommit, Signing, Record, SeenCommit;
  }

  class ConsensusState {
    const c: Config
    var height: int
    var round: int
    var step: int
    var lastHeight: int
    var lastCommitRound: int
    var proposal: Option<Proposal>
    var proposalBlock: Option<nat>
    var proposalParts: Option<nat>
    var lockedRound: int
    var lockedBlock: Option<nat>
    var validRound: int
    var validBlock: Option<nat>
    var commitRound: int
    var triggeredPrecommitWait: bool
    var votes: VoteBook
    var timeouts: set<Timeout>
    var outputs: seq<Output>
    var decided: map<int, nat>
    var halt: Halt

    function Snap(): RoundState
      reads this
    {
      RoundState(height, round, step, lastHeight, lastCommitRound, proposal, proposalBlock, proposalParts,
                 lockedRound, lockedBlock, validRound, validBlock, commitRound, triggeredPrecommitWait,
                 votes, timeouts, outputs, decided, halt)
    }

    constructor (c: Config)
      requires c.initialHeight >= 1
      ensures this.c == c && Snap() == Genesis(c) && Inv(c, Snap())
    {
      this.c := c;
      height, round, step := c.initialHeight, 0, NEW_HEIGHT;
      lastHeight, lastCommitRound := 0, -1;
      proposal, proposalBlock, proposalParts := None, None, None;
      lockedRound, lockedBlock := -1, None;
      validRound, validBlock := -1, None;
      commitRound, triggeredPrecommitWait := -1, false;
      votes, timeouts, outputs, decided := map[], {Timeout(c.initialHeight, 0, NEW_HEIGHT)}, [], map[];
      halt := Running;
      new;
      GenesisHolds(c);
      hide *;
    }

    /**
     * A restart. The stores of a run give back the start of its height, with the last commit rebuilt
     * from the one saved. The source panics if there is no such commit.
     */
    constructor Restore(c: Config, disk: Stores)
      requires c.initialHeight >= 1 && disk.lastHeight >= 0
      ensures this.c == c
      ensures halt == Running <==> disk.lastHeight == 0 || CommitUsable(c, disk)
      ensures disk.lastHeight == 0 && disk.past == Past(map[], Genesis(c).timeouts, [], map[]) ==> Snap() == Genesis(c)
      ensures forall s :: Inv(c, s) && Landed(c, s) && s.lastHeight > 0 && s.halt == Running && disk == Saved(c, s) ==>
                Snap() == HeightStart(c, s) && Inv(c, Snap())
    {
      this.c := c;
      height, round, step := if disk.lastHeight == 0 then c.initialHeight else disk.lastHeight + 1, 0, NEW_HEIGHT;
      lastHeight, lastCommitRound := disk.lastHeight, -1;
      proposal, proposalBlock, proposalParts := None, None, None;
      lockedRound, lockedBlock := -1, None;
      validRound, validBlock := -1, None;
      commitRound, triggeredPrecommitWait := -1, false;
      votes, timeouts, outputs, decided := disk.past.record, disk.past.timeouts, disk.past.outputs, disk.past.decided;
      halt := Running;
      new;
      if disk.lastHeight > 0 {
        ReconstructLastCommit(disk);
      }
      forall s | Inv(c, s) && Landed(c, s) && s.lastHeight > 0 && s.halt == Running && disk == Saved(c, s)
        ensures Snap() == HeightStart(c, s) && Inv(c, Snap())
      {
        SavedIsUsable(c, s);
        SavedCommitVotes(c, s.votes, s.lastHeight, s.lastCommitRound);
        StartHolds(c, s);
        RestoredFields(c, s);
        hide Inv, Landed, CommitUsable, HeightStart, SavedCommit;
      }
      hide *;
    }

    method ReconstructLastCommit(disk: Stores)
      modifies this
      ensures Snap() == if !CommitUsable(c, disk) then old(Snap()).(halt := Inconsistent)
                        else old(Snap()).(lastCommitRound := disk.commit.value.round,
                        votes := old(votes) + CommitVotes(disk.commit.value))
    {
      hide TwoThirdsMajority, CommitVotes;
      if disk.commit.None? || disk.commit.value.height != disk.lastHeight {
        Halted(Inconsistent);
        return;
      }
      var lastCommit := ToVoteSet(disk.commit.value);
      if TwoThirdsMajority(c, lastCommit, disk.lastHeight, disk.commit.value.round, Precommit).None? {
        Halted(Inconsistent);
        return;
      }
      lastCommitRound := disk.commit.value.round;
      votes := votes + lastCommit;
    }

    // ----- small steps -----

    method UpdateRoundStep(r: int, st: int)
      modifies this
      ensures Snap() == old(Snap()).(round := r, step := st)
    {
      round := r;
      step := st;
    }

    method ScheduleTimeout(h: int, r: int, st: int)
      modifies this
      ensures Snap() == Schedule(old(Snap()), h, r, st)
    {
      timeouts := timeouts + {Timeout(h, r, st)};
    }

    /** The vote carries the height and round of the state; its caller examined the votes of round r. */
    method SignAddVote(kind: VoteType, value: Value, r: int)
      modifies this
      ensures Snap() == old(Snap()).(outputs := WithVote(c, old(Snap()), kind, value, r))
    {
      if IsValidator(c, height, c.me) {
        outputs := outputs + [SignVote(height, round, kind, value, r)];
      }
    }

    method Halted(why: Halt)
      modifies this
      ensures Snap() == old(Snap()).(halt := why)
    {
      halt := why;
    }

    method SetLock(r: int, b: Option<nat>)
      modifies this
      ensures Snap() == old(Snap()).(lockedRound := r, lockedBlock := b)
    {
      lockedRound := r;
      lockedBlock := b;
    }

    method SetProposalBlock(b: Option<nat>, parts: Option<nat>)
      modifies this
      ensures Snap() == old(Snap()).(proposalBlock := b, proposalParts := parts)
    {
      proposalBlock := b;
      proposalParts := parts;
    }

    method SetValid(r: int, b: Option<nat>)
      modifies this
      ensures Snap() == old(Snap()).(validRound := r, validBlock := b)
    {
      validRound := r;
      validBlock := b;
    }

    /** Fields of the round state that belong to one height. */
    method ClearHeight()
      modifies this
      ensures Snap() == old(Snap()).(proposal := None, proposalBlock := None, proposalParts := None,
                                     lockedRound := -1, lockedBlock := None, validRound := -1, validBlock := None,
                                     commitRound := -1, triggeredPrecommitWait := false)
    {
      proposal := None;
      SetProposalBlock(None, None);
      SetLock(-1, None);
      SetValid(-1, None);
      commitRound := -1;
      triggeredPrecommitWait := false;
    }

    /** Fields of the round state that belong to one round. */
    method ClearRound(r: int)
      modifies this
      ensures var s := old(Snap());
              Snap() == BeginRound(s, r).(round := s.round, step := s.step)
    {
      if r != 0 {
        proposal := None;
        proposalBlock := None;
        proposalParts := None;
      }
      triggeredPrecommitWait := false;
    }

    // ----- the enter functions -----

    method EnterNewRound(h: int, r: int)
      modifies this
      ensures Snap() == Spec.EnterNewRound(c, old(Snap()), h, r)
      ensures Inv(c, old(Snap())) ==>
                Keeps(c, old(Snap()), Snap()) && LockKept(old(Snap()), Snap()) && SignsOnlyPrevotes(c, old(Snap()), Snap())
    {
      if Inv(c, Snap()) { NewRoundEffect(c, Snap(), h, r); }
      hide Inv, Keeps, LockKept, SignsOnlyPrevotes;
      if halt != Running || height != h || r < round || (round == r && step != NEW_HEIGHT) { return; }
      UpdateRoundStep(r, NEW_ROUND);
      ClearRound(r);
      var waitForTxs := c.waitForTxs && r == 0 && !c.needProof(h);
      if waitForTxs {
        if c.emptyBlocksInterval { ScheduleTimeout(h, r, NEW_ROUND); }
      } else {
        hide Spec.EnterPropose;
        EnterPropose(h, r);
      }
    }

    method EnterPropose(h: int, r: int)
      modifies this
      ensures Snap() == Spec.EnterPropose(c, old(Snap()), h, r)
      ensures Inv(c, old(Snap())) && (h == old(height) ==> r <= old(round)) ==>
                Keeps(c, old(Snap()), Snap()) && LockKept(old(Snap()), Snap()) && SignsOnlyPrevotes(c, old(Snap()), Snap())
    {
      if Inv(c, Snap()) && (h == height ==> r <= round) { ProposeEffect(c, Snap(), h, r); }
      hide Inv, Keeps, LockKept, SignsOnlyPrevotes;
      hide Spec.EnterPrevote, Spec.TwoThirdsMajority;
      if halt != Running || height != h || r < round || (round == r && PROPOSE <= step) { return; }
      ScheduleTimeout(h, r, PROPOSE);
      if IsValidator(c, h, c.me) && c.proposer(h, r) == c.me {
        outputs := outputs + [SignProposal(h, r, validBlock, validRound)];
      }
      UpdateRoundStep(r, PROPOSE);
      if IsProposalComplete(c, Snap()) {
        EnterPrevote(h, round);
      }
    }

    method EnterPrevote(h: int, r: int)
      modifies this
      ensures Snap() == Spec.EnterPrevote(c, old(Snap()), h, r)
      ensures Inv(c, old(Snap())) && (h == old(height) ==> r <= old(round)) ==>
                Keeps(c, old(Snap()), Snap()) && LockKept(old(Snap()), Snap()) && SignsOnlyPrevotes(c, old(Snap()), Snap())
    {
      if Inv(c, Snap()) && (h == height ==> r <= round) { PrevoteEffect(c, Snap(), h, r); }
      hide Inv, Keeps, LockKept, SignsOnlyPrevotes;
      if halt != Running || height != h || r < round || (round == r && PREVOTE <= step) { return; }
      DoPrevote(r);
      UpdateRoundStep(r, PREVOTE);
    }

    /** A locked validator prevotes its block, and others an acceptable proposal block or nil. */
    method DoPrevote(r: int)
      modifies this
      ensures Snap() == old(Snap()).(outputs := WithVote(c, old(Snap()), Prevote, PrevoteValue(c, old(Snap())), r))
      ensures IsValidator(c, height, c.me) ==>
                && |outputs| == |old(outputs)| + 1
                && var o := outputs[|outputs| - 1];
                   && o.SignVote? && o.height == height && o.round == round && o.kind == Prevote
                   && (lockedBlock.Some? ==> o.value == Block(lockedBlock.value))
                   && (lockedBlock.None? && o.value.Block? ==>
                         proposalBlock == Some(o.value.id) && c.valid(height, o.value.id) && c.appAccepts(height, o.value.id))
                   && (o.value.Nil? ==>
                         proposalBlock.None? || !c.valid(height, proposalBlock.value) || !c.appAccepts(height, proposalBlock.value))
      ensures !IsValidator(c, height, c.me) ==> outputs == old(outputs)
    {
      if lockedBlock.Some? {
        SignAddVote(Prevote, Block(lockedBlock.value), r);
        return;
      }
      if proposalBlock.None? {
        SignAddVote(Prevote, Nil, r);
        return;
      }
      if !c.valid(height, proposalBlock.value) {
        SignAddVote(Prevote, Nil, r);
        return;
      }
      if !c.appAccepts(height, proposalBlock.value) {
        SignAddVote(Prevote, Nil, r);
        return;
      }
      SignAddVote(Prevote, Block(proposalBlock.value), r);
    }

    method EnterPrevoteWait(h: int, r: int)
      modifies this
      ensures Snap() == Spec.EnterPrevoteWait(c, old(Snap()), h, r)
      ensures LockKept(old(Snap()), Snap()) && SignsNoVote(old(Snap()), Snap())
      ensures Inv(c, old(Snap())) && (h == old(height) ==> r <= old(round))
              && HasTwoThirdsAny(c, old(votes), old(height), r, Prevote) ==>
                Keeps(c, old(Snap()), Snap())
    {
      WaitEffects(c, Snap(), h, r);
      if Inv(c, Snap()) && (h == height ==> r <= round) && HasTwoThirdsAny(c, votes, height, r, Prevote) {
        EnterPrevoteWaitKeeps(c, Snap(), h, r);
      }
      hide Inv, Keeps, LockKept, SignsNoVote;
      hide HasTwoThirdsAny;
      if halt != Running || height != h || r < round || (round == r && PREVOTE_WAIT <= step) { return; }
      if !HasTwoThirdsAny(c, votes, height, r, Prevote) {
        Halted(Inconsistent);
        return;
      }
      ScheduleTimeout(h, r, PREVOTE_WAIT);
      UpdateRoundStep(r, PREVOTE_WAIT);
    }

    /** The step is updated on the way out, after the vote has been signed with the state's round. */
    method EnterPrecommit(h: int, r: int)
      modifies this
      ensures Snap() == Spec.EnterPrecommit(c, old(Snap()), h, r)
      ensures Inv(c, old(Snap())) && (h == old(height) ==> r <= old(round)) ==>
                Keeps(c, old(Snap()), Snap()) && LockMove(c, old(Snap()), Snap()) && SignsOnlyPrecommits(c, old(Snap()), Snap())
    {
      if Inv(c, Snap()) && (h == height ==> r <= round) { PrecommitEffect(c, Snap(), h, r); }
      hide Inv, Keeps, LockMove, SignsOnlyPrecommits;
      hide TwoThirdsMajority;
      if halt != Running || height != h || r < round || (round == r && PRECOMMIT <= step) { return; }
      hide Precommitted;
      DoPrecommit(r, TwoThirdsMajority(c, votes, height, r, Prevote));
    }

    method DoPrecommit(r: int, polka: Option<Value>)
      modifies this
      ensures Snap() == Precommitted(c, old(Snap()), r, polka)
    {
      hide PolRound;
      if polka.Some? && PolRound(c, votes, height, TrackedRound(Snap())) < r {
        Halted(Inconsistent);
      } else if polka.None? {
        SignAddVote(Precommit, Nil, r);
      } else if polka.value.Nil? {
        if lockedBlock.Some? {
          SetLock(-1, None);
        }
        SignAddVote(Precommit, Nil, r);
      } else {
        var b := polka.value.id;
        if lockedBlock == Some(b) {
          SetLock(r, lockedBlock);
          SignAddVote(Precommit, Block(b), r);
        } else if proposalBlock == Some(b) {
          if !c.valid(height, b) {
            Halted(InvalidPolka);
          } else {
            SetLock(r, proposalBlock);
            SignAddVote(Precommit, Block(b), r);
          }
        } else {
          SetLock(-1, None);
          if proposalParts != Some(b) {
            SetProposalBlock(None, Some(b));
          }
          SignAddVote(Precommit, Nil, r);
        }
      }
      UpdateRoundStep(r, PRECOMMIT);
    }

    method EnterPrecommitWait(h: int, r: int)
      modifies this
      ensures Snap() == Spec.EnterPrecommitWait(c, old(Snap()), h, r)
      ensures LockKept(old(Snap()), Snap()) && SignsNoVote(old(Snap()), Snap())
      ensures Inv(c, old(Snap())) && (h == old(height) ==> r <= old(round))
              && HasTwoThirdsAny(c, old(votes), old(height), r, Precommit) ==>
                Keeps(c, old(Snap()), Snap())
    {
      WaitEffects(c, Snap(), h, r);
      if Inv(c, Snap()) && (h == height ==> r <= round) && HasTwoThirdsAny(c, votes, height, r, Precommit) {
        EnterPrecommitWaitKeeps(c, Snap(), h, r);
      }
      hide Inv, Keeps, LockKept, SignsNoVote;
      hide HasTwoThirdsAny;
      if halt != Running || height != h || r < round || (round == r && triggeredPrecommitWait) { return; }
      if !HasTwoThirdsAny(c, votes, height, r, Precommit) {
        Halted(Inconsistent);
        return;
      }
      triggeredPrecommitWait := true;
      ScheduleTimeout(h, r, PRECOMMIT_WAIT);
    }

    method EnterCommit(h: int, r: int)
      modifies this
      ensures Snap() == Spec.EnterCommit(c, old(Snap()), h, r)
      ensures Inv(c, old(Snap())) && r > -1
              && (h == old(height) ==> exists b :: IsMajority(c, old(votes), h, r, Precommit, Block(b))) ==>
                Keeps(c, old(Snap()), Snap())
                && SignsNoVote(old(Snap()), Snap()) && Finalizes(c, old(Snap()), Snap()) && StaysOrStartsAfresh(old(Snap()), Snap())
    {
      if Inv(c, Snap()) && r > -1 && (h == height ==> exists b :: IsMajority(c, votes, h, r, Precommit, Block(b))) {
        CommitEffect(c, Snap(), h, r);
      }
      hide Inv, Keeps, SignsNoVote, Finalizes, StaysOrStartsAfresh;
      hide TwoThirdsMajority, Spec.TryFinalizeCommit;
      if halt != Running || height != h || COMMIT <= step { return; }
      var maj := TwoThirdsMajority(c, votes, height, r, Precommit);
      if maj.None? || maj.value.Nil? {
        Halted(Inconsistent);
        return;
      }
      var b := maj.value.id;
      if lockedBlock == Some(b) {
        SetProposalBlock(lockedBlock, Some(b));
      }
      if proposalBlock != Some(b) {
        if proposalParts != Some(b) {
          SetProposalBlock(None, Some(b));
        }
      }
      UpdateRoundStep(round, COMMIT);
      commitRound := r;
      TryFinalizeCommit(h);
    }

    method TryFinalizeCommit(h: int)
      modifies this
      ensures Snap() == Spec.TryFinalizeCommit(c, old(Snap()), h)
      ensures Inv(c, old(Snap())) ==>
                SignsNoVote(old(Snap()), Snap()) && Finalizes(c, old(Snap()), Snap()) && StaysOrStartsAfresh(old(Snap()), Snap())
    {
      if Inv(c, Snap()) { TryFinalizeEffect(c, Snap(), h); }
      hide Inv, SignsNoVote, Finalizes, StaysOrStartsAfresh;
      hide TwoThirdsMajority, Spec.FinalizeCommit;
      if height != h {
        Halted(Inconsistent);
        return;
      }
      var maj := TwoThirdsMajority(c, votes, height, commitRound, Precommit);
      if maj.None? || maj.value.Nil? { return; }
      if proposalBlock != Some(maj.value.id) { return; }
      FinalizeCommit(h);
    }

    method FinalizeCommit(h: int)
      modifies this
      ensures Snap() == Spec.FinalizeCommit(c, old(Snap()), h)
      ensures Inv(c, old(Snap())) ==>
                SignsNoVote(old(Snap()), Snap()) && Finalizes(c, old(Snap()), Snap()) && StaysOrStartsAfresh(old(Snap()), Snap())
    {
      if Inv(c, Snap()) { FinalizeEffect(c, Snap(), h); }
      hide Inv, SignsNoVote, Finalizes, StaysOrStartsAfresh;
      hide TwoThirdsMajority, Spec.UpdateToState;
      if height != h || step != COMMIT { return; }
      var maj := TwoThirdsMajority(c, votes, height, commitRound, Precommit);
      if maj.None? || maj.value.Nil? {
        Halted(Inconsistent);
        return;
      }
      var b := maj.value.id;
      if proposalParts != Some(b) || proposalBlock != Some(b) {
        Halted(Inconsistent);
        return;
      }
      if !c.valid(h, b) {
        Halted(InvalidCommit);
        return;
      }
      if h !in decided {
        decided := decided[h := b];
      }
      UpdateToState(h);
      if halt == Running {
        ScheduleTimeout(height, 0, NEW_HEIGHT);
      }
    }

    method UpdateToState(last: int)
      modifies this
      ensures Snap() == Spec.UpdateToState(c, old(Snap()), last)
      ensures Inv(c, old(Snap())) ==> MovesOn(old(Snap()), Snap(), last)
    {
      if Inv(c, Snap()) { UpdateEffect(c, Snap(), last); }
      hide Inv, MovesOn;
      hide TwoThirdsMajority;
      if commitRound > -1 && 0 < height && height != last {
        Halted(Inconsistent);
        return;
      }
      if lastHeight > 0 && lastHeight + 1 != height {
        Halted(Inconsistent);
        return;
      }
      if lastHeight > 0 && height == c.initialHeight {
        Halted(Inconsistent);
        return;
      }
      if last <= lastHeight { return; }
      if commitRound <= -1 {
        Halted(Inconsistent);
        return;
      }
      if TwoThirdsMajority(c, votes, height, commitRound, Precommit).None? {
        Halted(Inconsistent);
        return;
      }
      hide FreshHeight;
      StartHeight(last);
    }

    method StartHeight(last: int)
      modifies this
      ensures Snap() == FreshHeight(c, old(Snap()).(lastCommitRound := old(commitRound)), last)
    {
      lastCommitRound := commitRound;
      height := last + 1;
      if height == 1 {
        height := c.initialHeight;
      }
      UpdateRoundStep(0, NEW_HEIGHT);
      ClearHeight();
      lastHeight := last;
    }

    // ----- the handlers -----

    method SetProposal(p: Proposal)
      modifies this
      ensures Snap() == Spec.SetProposal(c, old(Snap()), p)
      ensures Inv(c, old(Snap())) && old(halt) == Running ==>
                Keeps(c, old(Snap()), Snap()) && LockKept(old(Snap()), Snap()) && SignsNoVote(old(Snap()), Snap())
      ensures proposal != old(proposal) ==> old(proposal).None? && proposal == Some(p) && p.height == height && p.round == round
    {
      if Inv(c, Snap()) && halt == Running { ProposalEffect(c, Snap(), p); }
      hide Inv, Keeps, LockKept, SignsNoVote;
      if proposal.Some? { return; }
      if p.height != height || p.round != round { return; }
      if p.polRound < -1 || (p.polRound >= 0 && p.polRound >= p.round) { return; }
      if !c.proposalOk(p) { return; }
      proposal := Some(p);
      if proposalParts.None? {
        proposalParts := Some(p.block);
      }
    }

    method AddLastPart(h: int, b: nat)
      modifies this
      ensures Snap() == Spec.AddLastPart(c, old(Snap()), h, b)
      ensures Inv(c, old(Snap())) && old(halt) == Running ==>
                Keeps(c, old(Snap()), Snap()) && StaysOrStartsAfresh(old(Snap()), Snap())
    {
      if Inv(c, Snap()) && halt == Running { LastPartEffect(c, Snap(), h, b); }
      hide Inv, Keeps, StaysOrStartsAfresh;
      hide Spec.HandleCompleteProposal;
      if height != h || proposalParts != Some(b) || proposalBlock.Some? { return; }
      proposalBlock := Some(b);
      HandleCompleteProposal(h);
    }

    method HandleCompleteProposal(h: int)
      modifies this
      ensures Snap() == Spec.HandleCompleteProposal(c, old(Snap()), h)
      ensures Inv(c, old(Snap())) && old(halt) == Running && h == old(height) ==>
                Keeps(c, old(Snap()), Snap()) && StaysOrStartsAfresh(old(Snap()), Snap())
    {
      if Inv(c, Snap()) && halt == Running && h == height { CompleteProposalEffect(c, Snap(), h); }
      hide Inv, Keeps, StaysOrStartsAfresh;
      hide TwoThirdsMajority, IsProposalComplete, Spec.EnterPrevote, Spec.EnterPrecommit, Spec.TryFinalizeCommit;
      var polka := TwoThirdsMajority(c, votes, height, round, Prevote);
      if polka.Some? && polka.value.Block? && validRound < round && proposalBlock == Some(polka.value.id) {
        SetValid(round, proposalBlock);
      }
      if step <= PROPOSE && IsProposalComplete(c, Snap()) {
        EnterPrevote(h, round);
        if polka.Some? {
          EnterPrecommit(h, round);
        }
      } else if step == COMMIT {
        TryFinalizeCommit(h);
      }
    }

    method AddVote(v: Vote)
      modifies this
      ensures Snap() == Spec.AddVote(c, old(Snap()), v)
      ensures Inv(c, old(Snap())) && old(halt) == Running && v.height >= 1 && v.round >= 0 ==>
                KeepsWithVote(c, old(Snap()), Snap(), v) && (height == old(height) || Landed(c, Snap()))
    {
      if Inv(c, Snap()) && halt == Running && v.height >= 1 && v.round >= 0 { AddVoteEffect(c, Snap(), v); }
      hide Inv, KeepsWithVote, Landed;
      hide HasAll, IsNewVote, Spec.EnterNewRound, Spec.OnPrevote, Spec.OnPrecommit;
      if v.height + 1 == height && v.kind == Precommit {
        if step != NEW_HEIGHT { return; }
        if lastHeight == 0 {
          Halted(NilLastCommit);
          return;
        }
        if v.round != lastCommitRound || !IsNewVote(c, Snap(), v) { return; }
        votes := votes[Slot(v.height, v.round, v.kind, v.validator) := v.value];
        if c.skipTimeoutCommit && HasAll(c, votes, v.height, v.round, Precommit) {
          EnterNewRound(height, 0);
        }
        return;
      }
      if v.height != height { return; }
      if !IsNewVote(c, Snap(), v) { return; }
      votes := votes[Slot(v.height, v.round, v.kind, v.validator) := v.value];
      if v.kind == Prevote {
        OnPrevote(v.round);
      } else {
        OnPrecommit(v.round);
      }
    }

    method OnPrevote(r: int)
      modifies this
      ensures Snap() == Spec.OnPrevote(c, old(Snap()), r)
      ensures Inv(c, old(Snap())) && old(halt) == Running ==>
                Keeps(c, old(Snap()), Snap()) && height == old(height) && LockMove(c, old(Snap()), Snap())
    {
      if Inv(c, Snap()) && halt == Running { PrevoteCountedEffect(c, Snap(), r); }
      hide Inv, Keeps, LockMove;
      hide TwoThirdsMajority, Spec.PolkaReaction;
      var polka := TwoThirdsMajority(c, votes, height, r, Prevote);
      if polka.Some? {
        hide OnPolka;
        ApplyPolka(r, polka.value);
      }
      PolkaReaction(r, polka);
    }

    /** A polka at round r may undo the lock, and may give a valid block or a block to fetch. */
    method ApplyPolka(r: int, polka: Value)
      modifies this
      ensures Snap() == OnPolka(old(Snap()), r, polka)
    {
      if lockedBlock.Some? && lockedRound < r <= round && Block(lockedBlock.value) != polka {
        SetLock(-1, None);
      }
      if polka.Block? && validRound < r && r == round {
        if proposalBlock == Some(polka.id) {
          SetValid(r, proposalBlock);
        } else {
          SetProposalBlock(None, proposalParts);
        }
        if proposalParts != Some(polka.id) {
          SetProposalBlock(proposalBlock, Some(polka.id));
        }
      }
    }

    method PolkaReaction(r: int, polka: Option<Value>)
      modifies this
      ensures Snap() == Spec.PolkaReaction(c, old(Snap()), r, polka)
      ensures Inv(c, old(Snap())) ==>
                Keeps(c, old(Snap()), Snap()) && height == old(height) && LockMove(c, old(Snap()), Snap())
    {
      if Inv(c, Snap()) { ReactionEffect(c, Snap(), r, polka); }
      hide Inv, Keeps, LockMove;
      hide HasTwoThirdsAny, IsProposalComplete, Spec.EnterNewRound, Spec.EnterPrevote, Spec.EnterPrecommit, Spec.EnterPrevoteWait;
      if round < r && HasTwoThirdsAny(c, votes, height, r, Prevote) {
        EnterNewRound(height, r);
      } else if round == r && PREVOTE <= step {
        if polka.Some? && (IsProposalComplete(c, Snap()) || polka.value.Nil?) {
          EnterPrecommit(height, r);
        } else if HasTwoThirdsAny(c, votes, height, r, Prevote) {
          EnterPrevoteWait(height, r);
        }
      } else if proposal.Some? && 0 <= proposal.value.polRound == r {
        if IsProposalComplete(c, Snap()) {
          EnterPrevote(height, round);
        }
      }
    }

    method OnPrecommit(r: int)
      modifies this
      ensures Snap() == Spec.OnPrecommit(c, old(Snap()), r)
      ensures Inv(c, old(Snap())) && old(halt) == Running && r >= 0 ==>
                Keeps(c, old(Snap()), Snap()) && (height == old(height) || Landed(c, Snap()))
    {
      if Inv(c, Snap()) && halt == Running && r >= 0 { PrecommitCountedEffect(c, Snap(), r); }
      hide Inv, Keeps, Landed;
      hide TwoThirdsMajority, HasAll, HasTwoThirdsAny, Spec.EnterNewRound, Spec.EnterPrecommit, Spec.EnterPrecommitWait,
        Spec.EnterCommit;
      var h := height;
      var maj := TwoThirdsMajority(c, votes, h, r, Precommit);
      if maj.Some? {
        var all := HasAll(c, votes, h, r, Precommit);
        EnterNewRound(h, r);
        EnterPrecommit(h, r);
        if maj.value.Block? {
          EnterCommit(h, r);
          if c.skipTimeoutCommit && all {
            EnterNewRound(height, 0);
          }
        } else {
          EnterPrecommitWait(h, r);
        }
      } else if round <= r && HasTwoThirdsAny(c, votes, h, r, Precommit) {
        EnterNewRound(h, r);
        EnterPrecommitWait(h, r);
      }
    }

    method HandleTimeout(ti: Timeout)
      modifies this
      ensures Snap() == Spec.HandleTimeout(c, old(Snap()), ti)
      ensures Inv(c, old(Snap())) && old(halt) == Running && NotAhead(old(Snap()), ti) ==>
                Keeps(c, old(Snap()), Snap()) && height == old(height)
    {
      if Inv(c, Snap()) && halt == Running && NotAhead(Snap(), ti) { TimeoutEffect(c, Snap(), ti); }
      hide Inv, Keeps, NotAhead;
      hide Spec.EnterNewRound, Spec.EnterPropose, Spec.EnterPrevote, Spec.EnterPrecommit;
      if ti.height != height || ti.round < round || (ti.round == round && ti.step < step) { return; }
      if ti.step == NEW_HEIGHT {
        EnterNewRound(ti.height, 0);
      } else if ti.step == NEW_ROUND {
        EnterPropose(ti.height, ti.round);
      } else if ti.step == PROPOSE {
        EnterPrevote(ti.height, ti.round);
      } else if ti.step == PREVOTE_WAIT {
        EnterPrecommit(ti.height, ti.round);
      } else if ti.step == PRECOMMIT_WAIT {
        EnterPrecommit(ti.height, ti.round);
        EnterNewRound(ti.height, ti.round + 1);
      } else {
        Halted(Inconsistent);
      }
    }

    method HandleTxsAvailable()
      modifies this
      ensures Snap() == Spec.HandleTxsAvailable(c, old(Snap()))
      ensures Inv(c, old(Snap())) && old(halt) == Running ==>
                Keeps(c, old(Snap()), Snap()) && LockKept(old(Snap()), Snap()) && SignsOnlyPrevotes(c, old(Snap()), Snap())
    {
      if Inv(c, Snap()) && halt == Running { TxsAvailableEffect(c, Snap()); }
      hide Inv, Keeps, LockKept, SignsOnlyPrevotes;
      hide Spec.EnterPropose;
      if round != 0 { return; }
      if step == NEW_HEIGHT {
        if !c.needProof(height) {
          ScheduleTimeout(height, 0, NEW_ROUND);
        }
      } else if step == NEW_ROUND {
        EnterPropose(height, 0);
      }
    }

    /** One turn of the receive routine: the function `Handle`, keeping the run invariant. */
    method Receive(e: Event)
      requires Inv(c, Snap()) && ValidEvent(c, Snap(), e)
      modifies this
      ensures Snap() == Handle(c, old(Snap()), e)
      ensures Inv(c, Snap()) && Advances(old(Snap()), Snap())
    {
      HandleKeeps(c, Snap(), e);
      hide *;
      ReceiveInput(e);
    }

    method ReceiveInput(e: Event)
      modifies this
      ensures Snap() == Handle(c, old(Snap()), e)
    {
      hide Spec.AddVote, Spec.SetProposal, Spec.AddLastPart, Spec.HandleTimeout, Spec.HandleTxsAvailable;
      if halt != Running { return; }
      match e {
        case VoteMessage(v) => AddVote(v);
        case ProposalMessage(p) => SetProposal(p);
        case LastBlockPart(h, b) => AddLastPart(h, b);
        case Tock(ti) => HandleTimeout(ti);
        case TxsAvailable => HandleTxsAvailable();
      }
    }

    /** Handle the logged inputs of the height again, which brings back the run that logged them. */
    method CatchupReplay(wal: seq<Event>)
      modifies this
      ensures Snap() == Replay(c, old(Snap()), wal)
      ensures forall s, events :: LoggedBy(c, s, old(Snap()), events) && wal == Logged(events) ==>
                Inv(c, Snap()) && Tracks(c, Replay(c, s, events), Snap())
    {
      ghost var u := Snap();
      forall s, events | LoggedBy(c, s, u, events) && wal == Logged(events)
        ensures Inv(c, Replay(c, u, wal)) && Tracks(c, Replay(c, s, events), Replay(c, u, wal))
      {
        ReplayRestores(c, s, u, events);
      }
      hide Handle, Inv, LoggedBy, Tracks, Logged;
      for i := 0 to |wal|
        invariant Snap() == Replay(c, u, wal[..i])
      {
        OneMore(c, u, wal, i);
        ReceiveInput(wal[i]);
      }
      assert wal[..|wal|] == wal;
    }
  }

  /**
   * A whole restart, from the stores and the log of the height. Whatever run s, with whatever inputs,
   * has written them: unless an input was late, the restarted validator is where that run was.
   */
  method Restart(c: Config, disk: Stores, wal: seq<Event>) returns (cs: ConsensusState)
    requires c.initialHeight >= 1 && disk.lastHeight >= 0
    ensures fresh(cs) && cs.c == c
    ensures forall s, events :: LoggedBy(c, s, HeightStart(c, s), events) && s.halt == Running
                                && disk == Saved(c, s) && wal == Logged(events) ==>
              Inv(c, cs.Snap()) && Tracks(c, Replay(c, s, events), cs.Snap())
  {
    cs := new ConsensusState.Restore(c, disk);
    ghost var u := cs.Snap();
    assert forall s, events :: LoggedBy(c, s, HeightStart(c, s), events) && s.halt == Running && disk == Saved(c, s) ==>
             u == HeightStart(c, s) by { hide Inv, Landed, ValidLog, NeverLate, HeightStart, Saved; }
    hide *;
    cs.CatchupReplay(wal);
  }
}
