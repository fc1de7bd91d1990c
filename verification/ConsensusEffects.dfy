/**
 * What each step of the consensus state machine means for its caller: which votes it may sign, what
 * may happen to the lock, what it may finalize, and that it keeps the run invariant.
 */
module ConsensusEffects {
  import opened Common
  import opened ConsensusSpec
  import opened ConsensusInvariant

  ghost predicate LockKept(s: RoundState, t: RoundState) {
    t.lockedBlock == s.lockedBlock && t.lockedRound == s.lockedRound
  }

  ghost predicate SignsNoVote(s: RoundState, t: RoundState) {
    forall o :: o in t.outputs && o.SignVote? ==> o in s.outputs
  }

  /** Only prevotes are signed, for the round that was examined: the locked block if there is one, and valid blocks only. */
  ghost predicate SignsOnlyPrevotes(c: Config, s: RoundState, t: RoundState) {
    forall o | o in t.outputs && o.SignVote? && o !in s.outputs ::
      && o.kind == Prevote && o.height == s.height && o.round == o.examined == t.round
      && (s.lockedBlock.Some? ==> o.value == Block(s.lockedBlock.value))
      && (o.value.Block? ==> c.valid(o.height, o.value.id))
  }

  /** Only precommits are signed, for the round that was examined: a block only with its polka there and the lock on it. */
  ghost predicate SignsOnlyPrecommits(c: Config, s: RoundState, t: RoundState) {
    forall o | o in t.outputs && o.SignVote? && o !in s.outputs ::
      && o.kind == Precommit && o.height == s.height && o.round == o.examined == t.round
      && (o.value.Block? ==> t.lockedBlock == Some(o.value.id) && t.lockedRound == o.round
                             && IsMajority(c, s.votes, o.height, o.round, Prevote, o.value))
  }

  /** At most the block of this height is finalized: a valid block with the precommits of two thirds. */
  ghost predicate Finalizes(c: Config, s: RoundState, t: RoundState) {
    forall h | h in t.decided && h !in s.decided ::
      && h == s.height && c.valid(h, t.decided[h])
      && exists r :: IsMajority(c, s.votes, h, r, Precommit, Block(t.decided[h]))
  }

  /** Either the height goes on, or the next one starts afresh. */
  ghost predicate StaysOrStartsAfresh(s: RoundState, t: RoundState) {
    t.height == s.height || (t.height == s.height + 1 && Fresh(t))
  }

  /** Moving to the height after `last` touches neither votes, signatures nor decisions. */
  ghost predicate MovesOn(s: RoundState, t: RoundState, last: int) {
    && t.outputs == s.outputs && t.votes == s.votes && t.decided == s.decided
    && (t.height != s.height ==> last == s.height && t.lastCommitRound == s.commitRound)
    && StaysOrStartsAfresh(s, t)
  }

  // ----- the enter functions -----

  lemma PrevoteEffect(c: Config, s: RoundState, h: int, r: int)
    requires Inv(c, s) && (h == s.height ==> r <= s.round)
    ensures var t := EnterPrevote(c, s, h, r);
            Keeps(c, s, t) && LockKept(s, t) && SignsOnlyPrevotes(c, s, t)
  {
    Unmoved(c, s);
    EnterPrevoteKeeps(c, s, h, r);
    hide Inv, Keeps;
  }

  lemma ProposeEffect(c: Config, s: RoundState, h: int, r: int)
    requires Inv(c, s) && (h == s.height ==> r <= s.round)
    ensures var t := EnterPropose(c, s, h, r);
            Keeps(c, s, t) && LockKept(s, t) && SignsOnlyPrevotes(c, s, t)
  {
    Unmoved(c, s);
    EnterProposeKeeps(c, s, h, r);
    hide Inv, Keeps, IsProposalComplete, IsValidator;
  }

  lemma NewRoundEffect(c: Config, s: RoundState, h: int, r: int)
    requires Inv(c, s)
    ensures var t := EnterNewRound(c, s, h, r);
            Keeps(c, s, t) && LockKept(s, t) && SignsOnlyPrevotes(c, s, t)
  {
    Unmoved(c, s);
    EnterNewRoundKeeps(c, s, h, r);
    var u := BeginRound(s, r);
    if s.halt == Running && s.height == h && (s.round < r || (s.round == r && s.step == NEW_HEIGHT)) {
      hide Signing, Frame, Advances;
      LocalKeeps(c, s, u, NO_TIMEOUT);
      ProposeEffect(c, u, h, r);
    }
    hide Inv, Keeps, EnterPropose;
  }

  lemma PrecommitEffect(c: Config, s: RoundState, h: int, r: int)
    requires Inv(c, s) && (h == s.height ==> r <= s.round)
    ensures var t := EnterPrecommit(c, s, h, r);
            Keeps(c, s, t) && LockMove(c, s, t) && SignsOnlyPrecommits(c, s, t)
  {
    Unmoved(c, s);
    EnterPrecommitKeeps(c, s, h, r);
    var t := EnterPrecommit(c, s, h, r);
    hide Inv, Keeps, IsMajority;
    if s.halt == Running && s.height == h && s.round == r && s.step < PRECOMMIT {
      var polka := TwoThirdsMajority(c, s.votes, s.height, r, Prevote);
      hide TwoThirdsMajority, PolkaIsOld;
      if PolkaIsOld(c, s, r, polka) || PolkaInvalid(c, s, polka) {
        SameLock(c, s, t);
      } else {
        DecisionJustified(c, s, t, polka);
      }
      hide LockMove;
    } else {
      SameLock(c, s, t);
      hide LockMove;
    }
  }

  lemma WaitEffects(c: Config, s: RoundState, h: int, r: int)
    ensures LockKept(s, EnterPrevoteWait(c, s, h, r)) && SignsNoVote(s, EnterPrevoteWait(c, s, h, r))
    ensures LockKept(s, EnterPrecommitWait(c, s, h, r)) && SignsNoVote(s, EnterPrecommitWait(c, s, h, r))
  {
    hide HasTwoThirdsAny;
  }

  // ----- committing -----

  lemma UpdateEffect(c: Config, s: RoundState, last: int)
    requires Inv(c, s)
    ensures MovesOn(s, UpdateToState(c, s, last), last)
  {
    RunIsNotAbove(c, s);
    UpdateLandsFresh(c, s, last);
    hide Inv, NothingAbove, Fresh, UpdateToState;
  }

  /** The block that finalizeCommit stores, if it stores one. */
  lemma FinalizeStores(c: Config, s: RoundState, h: int)
    requires NothingAbove(s)
    ensures var t := FinalizeCommit(c, s, h);
            && t.outputs == s.outputs
            && (t.decided == s.decided
                || exists b :: t.decided == s.decided[s.height := b] && c.valid(s.height, b)
                               && IsMajority(c, s.votes, s.height, s.commitRound, Precommit, Block(b)))
  {
    var m := TwoThirdsMajority(c, s.votes, s.height, s.commitRound, Precommit);
    hide IsMajority;
    if s.height == h && m.Some? && m.value.Block? {
      assert IsMajority(c, s.votes, h, s.commitRound, Precommit, m.value);
      UpdateLandsFresh(c, Stored(s, h, m.value.id), h);
    }
    hide TwoThirdsMajority, UpdateToState, Fresh, NothingAbove;
  }

  lemma FinalizeEffect(c: Config, s: RoundState, h: int)
    requires Inv(c, s)
    ensures var t := FinalizeCommit(c, s, h);
            SignsNoVote(s, t) && Finalizes(c, s, t) && StaysOrStartsAfresh(s, t)
  {
    RunIsNotAbove(c, s);
    FinalizeLandsFresh(c, s, h);
    FinalizeStores(c, s, h);
    hide Inv, IsMajority, FinalizeCommit, Fresh, NothingAbove;
  }

  lemma TryFinalizeEffect(c: Config, s: RoundState, h: int)
    requires Inv(c, s)
    ensures var t := TryFinalizeCommit(c, s, h);
            SignsNoVote(s, t) && Finalizes(c, s, t) && StaysOrStartsAfresh(s, t)
  {
    FinalizeEffect(c, s, h);
    hide Inv, FinalizeCommit, IsMajority, TwoThirdsMajority;
  }

  /** What follows from a state that agrees with s on all that matters. */
  lemma CarriesOver(c: Config, s: RoundState, u: RoundState, t: RoundState)
    requires u.outputs == s.outputs && u.decided == s.decided && u.height == s.height && u.votes == s.votes
    requires SignsNoVote(u, t) && Finalizes(c, u, t) && StaysOrStartsAfresh(u, t)
    ensures SignsNoVote(s, t) && Finalizes(c, s, t) && StaysOrStartsAfresh(s, t)
  {
    hide IsMajority, Fresh;
  }

  /** enterCommit past its guard: the block is staged, and then finalized if it is there. */
  lemma CommitIsStaged(c: Config, s: RoundState, b: nat, r: int)
    requires s.halt == Running && s.step < COMMIT && IsMajority(c, s.votes, s.height, r, Precommit, Block(b))
    ensures var u := StageCommit(s, b).(step := COMMIT, commitRound := r);
            && EnterCommit(c, s, s.height, r) == TryFinalizeCommit(c, u, s.height)
            && u.outputs == s.outputs && u.decided == s.decided && u.height == s.height && u.votes == s.votes
  {
    hide IsMajority, TryFinalizeCommit;
    assert TwoThirdsMajority(c, s.votes, s.height, r, Precommit) == Some(Block(b));
    hide TwoThirdsMajority;
  }

  lemma CommitEffect(c: Config, s: RoundState, h: int, r: int)
    requires Inv(c, s) && r > -1
    requires h == s.height ==> exists b :: IsMajority(c, s.votes, h, r, Precommit, Block(b))
    ensures var t := EnterCommit(c, s, h, r);
            Keeps(c, s, t) && SignsNoVote(s, t) && Finalizes(c, s, t) && StaysOrStartsAfresh(s, t)
  {
    EnterCommitKeeps(c, s, h, r);
    hide Inv, Keeps, IsMajority, Fresh;
    if s.halt == Running && s.height == h && s.step < COMMIT {
      var b :| IsMajority(c, s.votes, h, r, Precommit, Block(b));
      var u := StageCommit(s, b).(step := COMMIT, commitRound := r);
      StageCommitKeeps(c, s, b, r);
      KeepsVotes(c, s, u);
      CommitIsStaged(c, s, b, r);
      hide EnterCommit, TryFinalizeCommit, StageCommit, SignsNoVote, Finalizes, StaysOrStartsAfresh;
      TryFinalizeEffect(c, u, h);
      CarriesOver(c, s, u, EnterCommit(c, s, h, r));
    } else {
      assert EnterCommit(c, s, h, r) == s;
      hide EnterCommit;
    }
  }

  // ----- the handlers -----

  /** A proposal is accepted only for this very round, and only once. */
  lemma ProposalEffect(c: Config, s: RoundState, p: Proposal)
    requires Inv(c, s) && s.halt == Running
    ensures var t := SetProposal(c, s, p);
            && Keeps(c, s, t) && LockKept(s, t) && SignsNoVote(s, t)
            && (t.proposal != s.proposal ==> s.proposal.None? && t.proposal == Some(p) && p.height == s.height && p.round == s.round
                                             && -1 <= p.polRound && (p.polRound >= 0 ==> p.polRound < p.round))
  {
    SetProposalKeeps(c, s, p);
    hide Inv, Keeps;
  }

  lemma CompleteProposalEffect(c: Config, s: RoundState, h: int)
    requires Inv(c, s) && s.halt == Running && s.height == h
    ensures var t := HandleCompleteProposal(c, s, h);
            Keeps(c, s, t) && StaysOrStartsAfresh(s, t)
  {
    HandleCompleteProposalKeeps(c, s, h);
    ProposalLandsFresh(c, s, h);
    hide Inv, Fresh, HandleCompleteProposal;
  }

  lemma LastPartEffect(c: Config, s: RoundState, h: int, b: nat)
    requires Inv(c, s) && s.halt == Running
    ensures var t := AddLastPart(c, s, h, b);
            Keeps(c, s, t) && StaysOrStartsAfresh(s, t)
  {
    AddLastPartKeeps(c, s, h, b);
    Unmoved(c, s);
    if s.height == h && s.proposalParts == Some(b) && s.proposalBlock.None? {
      var u := s.(proposalBlock := Some(b));
      hide Signing, Frame, Advances;
      LocalKeeps(c, s, u, NO_TIMEOUT);
      CompleteProposalEffect(c, u, h);
    }
    hide Inv, Keeps, Fresh, HandleCompleteProposal;
  }

  lemma LockMoveTransitive(c: Config, s: RoundState, u: RoundState, t: RoundState)
    requires LockMove(c, s, u) && LockMove(c, u, t) && u.height == s.height && u.votes == t.votes
    ensures LockMove(c, s, t)
  {
  }

  lemma LockKeptMoves(c: Config, s: RoundState, t: RoundState)
    requires LockKept(s, t)
    ensures LockMove(c, s, t)
  {
  }

  lemma ReactionEffect(c: Config, s: RoundState, r: int, polka: Option<Value>)
    requires Inv(c, s)
    ensures var t := PolkaReaction(c, s, r, polka);
            Keeps(c, s, t) && t.height == s.height && LockMove(c, s, t)
  {
    PolkaReactionKeeps(c, s, r, polka);
    SameLock(c, s, s);
    NewRoundKeepsHeight(c, s, s.height, r);
    RoundsKeepHeight(c, s, s.height, r);
    RoundsKeepHeight(c, s, s.height, s.round);
    if s.round < r {
      NewRoundEffect(c, s, s.height, r);
      LockKeptMoves(c, s, EnterNewRound(c, s, s.height, r));
    } else {
      PrecommitEffect(c, s, s.height, r);
      WaitEffects(c, s, s.height, r);
      LockKeptMoves(c, s, EnterPrevoteWait(c, s, s.height, r));
    }
    PrevoteEffect(c, s, s.height, s.round);
    LockKeptMoves(c, s, EnterPrevote(c, s, s.height, s.round));
    hide Inv, Keeps, LockMove, LockKept, SignsOnlyPrevotes, SignsOnlyPrecommits, SignsNoVote, HasTwoThirdsAny, IsProposalComplete,
      EnterNewRound, EnterPrevote, EnterPrevoteWait, EnterPrecommit;
  }

  lemma PrevoteCountedEffect(c: Config, s: RoundState, r: int)
    requires Inv(c, s) && s.halt == Running
    ensures var t := OnPrevote(c, s, r);
            Keeps(c, s, t) && t.height == s.height && LockMove(c, s, t)
  {
    OnPrevoteKeeps(c, s, r);
    Unmoved(c, s);
    var polka := TwoThirdsMajority(c, s.votes, s.height, r, Prevote);
    var u := if polka.Some? then OnPolka(s, r, polka.value) else s;
    hide IsMajority, TwoThirdsMajority;
    if polka.Some? {
      OnPolkaKeeps(c, s, r, polka.value);
      if Unlocks(s, r, polka.value) {
        LaterPolka(c, s, u, r, polka.value);
      }
    }
    assert LockMove(c, s, u) by { hide Inv, Keeps; }
    hide Inv, Basic, LockMove, OnPolka, PolkaReaction;
    ReactionEffect(c, u, r, polka);
    LockMoveTransitive(c, s, u, PolkaReaction(c, u, r, polka));
  }

  lemma PrecommitCountedEffect(c: Config, s: RoundState, r: int)
    requires Inv(c, s) && s.halt == Running && r >= 0
    ensures var t := OnPrecommit(c, s, r);
            Keeps(c, s, t) && (t.height == s.height || Landed(c, t))
  {
    OnPrecommitKeeps(c, s, r);
    PrecommitLands(c, s, r);
    hide *;
  }

  lemma AddVoteEffect(c: Config, s: RoundState, v: Vote)
    requires Inv(c, s) && s.halt == Running && v.height >= 1 && v.round >= 0
    ensures var t := AddVote(c, s, v);
            KeepsWithVote(c, s, t, v) && (t.height == s.height || Landed(c, t))
  {
    AddVoteKeeps(c, s, v);
    HandleLands(c, s, VoteMessage(v));
    assert Handle(c, s, VoteMessage(v)) == AddVote(c, s, v) by { hide AddVote; }
    hide *;
  }

  lemma TimeoutEffect(c: Config, s: RoundState, ti: Timeout)
    requires Inv(c, s) && NotAhead(s, ti) && s.halt == Running
    ensures var t := HandleTimeout(c, s, ti);
            Keeps(c, s, t) && t.height == s.height
  {
    HandleTimeoutKeeps(c, s, ti);
    TimeoutKeepsHeight(c, s, ti);
    hide *;
  }

  lemma TxsAvailableEffect(c: Config, s: RoundState)
    requires Inv(c, s) && s.halt == Running
    ensures var t := HandleTxsAvailable(c, s);
            Keeps(c, s, t) && LockKept(s, t) && SignsOnlyPrevotes(c, s, t)
  {
    HandleTxsAvailableKeeps(c, s);
    ProposeEffect(c, s, s.height, 0) by { Unmoved(c, s); hide Signing; }
    hide Inv, Keeps, EnterPropose;
  }
}
