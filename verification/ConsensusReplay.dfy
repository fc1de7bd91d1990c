/**
 * Replaying the logged inputs of a height (consensus/replay.go, catchupReplay) against the run that
 * logged them. The two may part in when they start round 0. A commit that skips its timeout enters it
 * without an input of its own, the last commit that the stores restore may hold fewer precommits than
 * the run counted, and the arrival of transactions is not logged.
 */
module ConsensusReplay {
  import opened Common
  import opened ConsensusSpec
  import opened ConsensusInvariant

  /** catchupReplay: handle the logged inputs again. */
  function Replay(c: Config, s: RoundState, wal: seq<Event>): RoundState {
    if |wal| == 0 then s else Handle(c, Replay(c, s, wal[..|wal| - 1]), wal[|wal| - 1])
  }

  // ----- what a replay has in common with the run -----

  /** The settings under which a replay repeats every step of the run. */
  predicate Strict(c: Config) {
    !c.skipTimeoutCommit && !c.waitForTxs
  }

  /** The same votes are counted at height h. */
  ghost predicate AgreeAt(h: int, a: VoteBook, b: VoteBook) {
    forall k: Slot :: k.height == h ==> (k in a <==> k in b) && (k in a ==> a[k] == b[k])
  }

  /** The same votes are signed. */
  ghost predicate SameVotes(a: seq<Output>, b: seq<Output>) {
    forall o: Output :: o.SignVote? ==> (o in a <==> o in b)
  }

  /** Equal but for the step and the votes of other heights, and but for timeouts and proposals signed unless c is strict. */
  ghost predicate Alike(c: Config, s: RoundState, u: RoundState) {
    && u == s.(step := u.step, timeouts := u.timeouts, outputs := u.outputs, votes := u.votes)
    && AgreeAt(s.height, s.votes, u.votes) && SameVotes(s.outputs, u.outputs)
    && (Strict(c) ==> u.timeouts == s.timeouts && u.outputs == s.outputs)
  }

  /** A state that waits for the height to start. */
  predicate AtStart(s: RoundState) {
    s.step == NEW_HEIGHT
  }

  ghost predicate Same(c: Config, s: RoundState, u: RoundState) {
    Alike(c, s, u) && u.step == s.step && (AtStart(s) ==> s.round == 0 && !s.triggeredPrecommitWait)
  }

  /** Both are in round 0 and have not prevoted, and one is ahead of the other. */
  ghost predicate Apart(c: Config, s: RoundState, u: RoundState) {
    && Alike(c, s, u) && !Strict(c) && u.step != s.step && s.round == 0
    && NEW_HEIGHT <= s.step <= PROPOSE && NEW_HEIGHT <= u.step <= PROPOSE
    && (AtStart(s) || AtStart(u) ==> !s.triggeredPrecommitWait && s.lastHeight > 0)
  }

  ghost predicate Tracks(c: Config, s: RoundState, u: RoundState) {
    Same(c, s, u) || Apart(c, s, u)
  }

  lemma TracksBack(c: Config, s: RoundState, u: RoundState)
    requires Tracks(c, s, u)
    ensures Tracks(c, u, s)
  {
  }

  lemma TrackedFields(c: Config, s: RoundState, u: RoundState)
    requires Tracks(c, s, u)
    ensures s.height == u.height && s.round == u.round && s.halt == u.halt && s.lastHeight == u.lastHeight
    ensures s.lastCommitRound == u.lastCommitRound && s.commitRound == u.commitRound && s.decided == u.decided
    ensures s.proposal == u.proposal && s.proposalBlock == u.proposalBlock && s.proposalParts == u.proposalParts
    ensures s.triggeredPrecommitWait == u.triggeredPrecommitWait && s.validRound == u.validRound && s.validBlock == u.validBlock
    ensures s.lockedRound == u.lockedRound && s.lockedBlock == u.lockedBlock
    ensures Same(c, s, u) ==> s.step == u.step
  {
    hide AgreeAt, SameVotes;
  }

  lemma HaltTracks(c: Config, s: RoundState, u: RoundState, reason: Halt)
    requires Tracks(c, s, u)
    ensures Tracks(c, s.(halt := reason), u.(halt := reason))
    ensures Same(c, s, u) ==> Same(c, s.(halt := reason), u.(halt := reason))
  {
    hide AgreeAt, SameVotes;
  }

  /** Vote sets of the height do not depend on votes of other heights. */
  lemma MajorityAgrees(c: Config, h: int, a: VoteBook, b: VoteBook)
    requires AgreeAt(h, a, b)
    ensures forall r, k :: TwoThirdsMajority(c, a, h, r, k) == TwoThirdsMajority(c, b, h, r, k)
    ensures forall r, k :: HasTwoThirdsAny(c, a, h, r, k) == HasTwoThirdsAny(c, b, h, r, k)
    ensures forall r, k :: HasAll(c, a, h, r, k) == HasAll(c, b, h, r, k)
  {
    forall r, k ensures AnyVoters(c, a, h, r, k) == AnyVoters(c, b, h, r, k) {
    }
    forall r, k, v ensures IsMajority(c, a, h, r, k, v) == IsMajority(c, b, h, r, k, v) {
      assert Voters(c, a, h, r, k, v) == Voters(c, b, h, r, k, v);
    }
    hide IsMajority;
    forall r, k ensures TwoThirdsMajority(c, a, h, r, k) == TwoThirdsMajority(c, b, h, r, k) {
      var m, n := TwoThirdsMajority(c, a, h, r, k), TwoThirdsMajority(c, b, h, r, k);
      if m.Some? {
        assert IsMajority(c, a, h, r, k, m.value);
      } else if n.Some? {
        assert IsMajority(c, b, h, r, k, n.value);
      }
    }
  }

  lemma {:induction false} PolRoundAgrees(c: Config, h: int, a: VoteBook, b: VoteBook, r: int)
    requires AgreeAt(h, a, b)
    ensures PolRound(c, a, h, r) == PolRound(c, b, h, r)
    decreases r + 1
  {
    MajorityAgrees(c, h, a, b);
    hide TwoThirdsMajority, AgreeAt;
    if r >= 0 {
      PolRoundAgrees(c, h, a, b, r - 1);
    }
  }

  lemma CompleteAgrees(c: Config, s: RoundState, u: RoundState)
    requires Alike(c, s, u)
    ensures IsProposalComplete(c, s) == IsProposalComplete(c, u)
  {
    MajorityAgrees(c, s.height, s.votes, u.votes);
    hide TwoThirdsMajority, AgreeAt, SameVotes;
  }

  // ----- steps that treat both alike -----

  lemma PrevoteSame(c: Config, s: RoundState, u: RoundState, h: int, r: int)
    requires Tracks(c, s, u)
    ensures Tracks(c, EnterPrevote(c, s, h, r), EnterPrevote(c, u, h, r))
    ensures Same(c, s, u) || (s.halt == Running && s.height == h && r >= 0) ==>
              Same(c, EnterPrevote(c, s, h, r), EnterPrevote(c, u, h, r))
  {
    hide AgreeAt;
  }

  lemma ProposeSame(c: Config, s: RoundState, u: RoundState, h: int, r: int)
    requires Same(c, s, u)
    ensures Same(c, EnterPropose(c, s, h, r), EnterPropose(c, u, h, r))
  {
    if s.halt == Running && s.height == h && !(r < s.round || (s.round == r && PROPOSE <= s.step)) {
      var s1, u1 := BeginPropose(c, s, h, r), BeginPropose(c, u, h, r);
      assert Same(c, s1, u1) by { hide AgreeAt; }
      CompleteAgrees(c, s1, u1);
      PrevoteSame(c, s1, u1, h, r);
      hide Same, Tracks, IsProposalComplete, EnterPrevote;
    }
  }

  lemma NewRoundSame(c: Config, s: RoundState, u: RoundState, h: int, r: int)
    requires Same(c, s, u) || (Apart(c, s, u) && r > 0)
    ensures Tracks(c, EnterNewRound(c, s, h, r), EnterNewRound(c, u, h, r))
    ensures Same(c, s, u) || (s.halt == Running && s.height == h) ==>
              Same(c, EnterNewRound(c, s, h, r), EnterNewRound(c, u, h, r))
  {
    if s.halt == Running && s.height == h && (s.round < r || (s.round == r && s.step == NEW_HEIGHT)) {
      var s1, u1 := BeginRound(s, r), BeginRound(u, r);
      assert Same(c, s1, u1) by { hide AgreeAt, SameVotes; }
      ProposeSame(c, s1, u1, h, r);
      hide Same, Tracks, EnterPropose;
    }
    hide AgreeAt, SameVotes, EnterPropose;
  }

  // ----- steps that only one of the two makes -----

  /** Entering round 0 goes on to propose, unless it waits for transactions. */
  predicate ProposesAtOnce(c: Config, h: int) {
    !c.waitForTxs || c.needProof(h)
  }

  /** One of two that have not prevoted goes on to propose, without finding the proposal complete. */
  lemma ProposeAlone(c: Config, s: RoundState, u: RoundState)
    requires Tracks(c, s, u) && !Strict(c) && s.halt == Running && s.round == 0
    requires NEW_HEIGHT <= s.step <= PROPOSE && NEW_HEIGHT <= u.step <= PROPOSE && (AtStart(u) ==> s.lastHeight > 0)
    requires s.step < PROPOSE ==> !IsProposalComplete(c, s)
    ensures Tracks(c, EnterPropose(c, s, s.height, 0), u)
  {
    if s.step < PROPOSE {
      var t := BeginPropose(c, s, s.height, 0);
      assert IsProposalComplete(c, t) == IsProposalComplete(c, s);
      hide AgreeAt, IsProposalComplete, EnterPrevote;
    }
  }

  /** One of two that have not prevoted enters round 0. */
  lemma NewRoundAlone(c: Config, s: RoundState, u: RoundState)
    requires Tracks(c, s, u) && !Strict(c) && s.halt == Running && s.round == 0
    requires NEW_HEIGHT <= s.step <= PROPOSE && NEW_HEIGHT <= u.step <= PROPOSE && (AtStart(u) ==> s.lastHeight > 0)
    requires AtStart(s) && ProposesAtOnce(c, s.height) ==> !IsProposalComplete(c, s)
    ensures Tracks(c, EnterNewRound(c, s, s.height, 0), u) && !AtStart(EnterNewRound(c, s, s.height, 0))
  {
    if AtStart(s) {
      var t := BeginRound(s, 0);
      assert Tracks(c, t, u) by { hide AgreeAt, SameVotes; }
      assert IsProposalComplete(c, t) == IsProposalComplete(c, s);
      if ProposesAtOnce(c, s.height) {
        ProposeAlone(c, t, u);
        ProposeLeaves(c, t, 0);
      }
      hide AgreeAt, SameVotes, IsProposalComplete, EnterPropose;
    }
  }

  lemma ProposeLeaves(c: Config, s: RoundState, r: int)
    requires !AtStart(s)
    ensures !AtStart(EnterPropose(c, s, s.height, r))
  {
    hide IsProposalComplete, IsValidator;
  }

  /** Whether an enterNewRound of round 0 takes the state to its propose step. */
  predicate StartsProposing(c: Config, s: RoundState) {
    AtStart(s) && ProposesAtOnce(c, s.height)
  }

  /** Both are asked to enter round r. Only if one of them is to propose, the proposal must not be complete. */
  lemma NewRoundBoth(c: Config, s: RoundState, u: RoundState, r: int)
    requires Tracks(c, s, u) && s.halt == Running && s.round >= 0 && r >= 0
    requires r == 0 && IsProposalComplete(c, s) ==> StartsProposing(c, s) == StartsProposing(c, u)
    ensures var s1, u1 := EnterNewRound(c, s, s.height, r), EnterNewRound(c, u, s.height, r);
            Tracks(c, s1, u1) && !AtStart(s1) && !AtStart(u1) && (r > 0 ==> Same(c, s1, u1))
  {
    var h := s.height;
    NewRoundLeavesStart(c, s, r);
    NewRoundLeavesStart(c, u, r);
    if Same(c, s, u) || r > 0 {
      NewRoundSame(c, s, u, h, r);
    } else if AtStart(s) {
      assert EnterNewRound(c, u, h, 0) == u;
      NewRoundAlone(c, s, u);
    } else {
      assert EnterNewRound(c, s, h, 0) == s;
      TracksBack(c, s, u);
      CompleteAgrees(c, s, u);
      NewRoundAlone(c, u, s);
      TracksBack(c, EnterNewRound(c, u, h, 0), s);
    }
    hide AgreeAt, SameVotes, EnterNewRound, IsProposalComplete;
  }

  lemma NewRoundLeavesStart(c: Config, s: RoundState, r: int)
    requires s.halt == Running && s.round >= 0 && r >= 0 && (AtStart(s) ==> s.round == 0)
    ensures !AtStart(EnterNewRound(c, s, s.height, r))
  {
    var t := BeginRound(s, r);
    hide IsProposalComplete, EnterPrevote;
    assert !AtStart(t);
    ProposeLeaves(c, t, r);
    hide EnterPropose;
  }

  // ----- from here on both are in step -----

  lemma PrevoteWaitedSame(c: Config, s: RoundState, u: RoundState, h: int, r: int)
    requires Same(c, s, u)
    ensures Same(c, Schedule(s, h, r, PREVOTE_WAIT).(round := r, step := PREVOTE_WAIT),
                 Schedule(u, h, r, PREVOTE_WAIT).(round := r, step := PREVOTE_WAIT))
  {
    hide AgreeAt, SameVotes;
  }

  lemma PrevoteWaitSame(c: Config, s: RoundState, u: RoundState, h: int, r: int)
    requires Same(c, s, u)
    ensures Same(c, EnterPrevoteWait(c, s, h, r), EnterPrevoteWait(c, u, h, r))
  {
    MajorityAgrees(c, s.height, s.votes, u.votes);
    TrackedFields(c, s, u);
    HaltTracks(c, s, u, Inconsistent);
    PrevoteWaitedSame(c, s, u, h, r);
    hide Same, Tracks, HasTwoThirdsAny, TwoThirdsMajority, Schedule;
  }

  lemma TriggerTracks(c: Config, s: RoundState, u: RoundState, h: int, r: int)
    requires Tracks(c, s, u) && !AtStart(s) && !AtStart(u)
    ensures var s1, u1 := Schedule(s, h, r, PRECOMMIT_WAIT), Schedule(u, h, r, PRECOMMIT_WAIT);
            && Tracks(c, s1.(triggeredPrecommitWait := true), u1.(triggeredPrecommitWait := true))
            && (Same(c, s, u) ==> Same(c, s1.(triggeredPrecommitWait := true), u1.(triggeredPrecommitWait := true)))
  {
    hide AgreeAt, SameVotes;
  }

  lemma PrecommitWaitSame(c: Config, s: RoundState, u: RoundState, h: int, r: int)
    requires Tracks(c, s, u) && !AtStart(s) && !AtStart(u)
    ensures Tracks(c, EnterPrecommitWait(c, s, h, r), EnterPrecommitWait(c, u, h, r))
    ensures Same(c, s, u) ==> Same(c, EnterPrecommitWait(c, s, h, r), EnterPrecommitWait(c, u, h, r))
  {
    MajorityAgrees(c, s.height, s.votes, u.votes);
    TrackedFields(c, s, u);
    HaltTracks(c, s, u, Inconsistent);
    TriggerTracks(c, s, u, h, r);
    hide Tracks, Same, HasTwoThirdsAny, TwoThirdsMajority, Schedule;
  }

  lemma PolkaIsOldAgrees(c: Config, s: RoundState, u: RoundState, r: int)
    requires Same(c, s, u) || (Apart(c, s, u) && r <= 0)
    ensures var polka := TwoThirdsMajority(c, s.votes, s.height, r, Prevote);
            r >= 0 || Same(c, s, u) ==> PolkaIsOld(c, s, r, polka) == PolkaIsOld(c, u, r, polka)
  {
    PolRoundAgrees(c, s.height, s.votes, u.votes, TrackedRound(s));
    MajorityAgrees(c, s.height, s.votes, u.votes);
    hide AgreeAt, SameVotes, PolRound, TwoThirdsMajority;
    if !Same(c, s, u) && r == 0 && TwoThirdsMajority(c, s.votes, s.height, r, Prevote).Some? {
      PolRoundFinds(c, s.votes, s.height, 0, TrackedRound(s));
      PolRoundFinds(c, u.votes, u.height, 0, TrackedRound(u));
    }
  }

  lemma SignedSame(c: Config, s: RoundState, u: RoundState, k: VoteType, v: Value, r: int)
    requires SameVotes(s.outputs, u.outputs) && s.height == u.height && s.round == u.round
    ensures SameVotes(WithVote(c, s, k, v, r), WithVote(c, u, k, v, r))
    ensures s.outputs == u.outputs ==> WithVote(c, s, k, v, r) == WithVote(c, u, k, v, r)
  {
  }

  lemma PrecommittedSame(c: Config, s: RoundState, u: RoundState, r: int, polka: Option<Value>)
    requires Alike(c, s, u) && PolkaIsOld(c, s, r, polka) == PolkaIsOld(c, u, r, polka)
    ensures Same(c, Precommitted(c, s, r, polka), Precommitted(c, u, r, polka))
  {
    var d := Decide(s, r, polka);
    SignedSame(c, s, u, Precommit, d.value, r);
    FetchAlike(c, s, u, d.fetch);
    hide AgreeAt, SameVotes, WithVote, PolkaIsOld;
    assert d == Decide(u, r, polka);
    assert PolkaInvalid(c, s, polka) == PolkaInvalid(c, u, polka);
    hide Decide, PolkaInvalid, Fetch;
  }

  lemma FetchAlike(c: Config, s: RoundState, u: RoundState, fetch: Option<nat>)
    requires Alike(c, s, u)
    ensures fetch.Some? ==> Alike(c, Fetch(s, fetch.value), Fetch(u, fetch.value))
    ensures fetch.Some? ==> Fetch(s, fetch.value).votes == s.votes && Fetch(u, fetch.value).votes == u.votes
    ensures fetch.Some? ==> Fetch(s, fetch.value).height == s.height && Fetch(s, fetch.value).outputs == s.outputs
                            && Fetch(u, fetch.value).outputs == u.outputs
  {
    hide AgreeAt, SameVotes;
  }

  lemma PrecommitSame(c: Config, s: RoundState, u: RoundState, h: int, r: int)
    requires Same(c, s, u) || (Apart(c, s, u) && r <= 0)
    ensures Tracks(c, EnterPrecommit(c, s, h, r), EnterPrecommit(c, u, h, r))
    ensures Same(c, s, u) || (s.halt == Running && s.height == h && r == 0) ==>
              Same(c, EnterPrecommit(c, s, h, r), EnterPrecommit(c, u, h, r))
  {
    var polka := TwoThirdsMajority(c, s.votes, s.height, r, Prevote);
    var acts := !(s.halt != Running || s.height != h || r < s.round || (s.round == r && PRECOMMIT <= s.step));
    PolkaIsOldAgrees(c, s, u, r);
    MajorityAgrees(c, s.height, s.votes, u.votes);
    if acts {
      PrecommittedSame(c, s, u, r, polka);
      assert EnterPrecommit(c, s, h, r) == Precommitted(c, s, r, polka);
      assert EnterPrecommit(c, u, h, r) == Precommitted(c, u, r, polka);
      hide *;
      assert Tracks(c, EnterPrecommit(c, s, h, r), EnterPrecommit(c, u, h, r));
    } else {
      assert EnterPrecommit(c, s, h, r) == s && EnterPrecommit(c, u, h, r) == u;
    }
  }

  lemma FetchSame(c: Config, s: RoundState, u: RoundState, b: nat)
    requires Same(c, s, u)
    ensures Same(c, Fetch(s, b), Fetch(u, b))
    ensures Same(c, s.(proposalBlock := Some(b), proposalParts := Some(b)), u.(proposalBlock := Some(b), proposalParts := Some(b)))
  {
    hide AgreeAt, SameVotes;
  }

  lemma CommittingSame(c: Config, s: RoundState, u: RoundState, r: int)
    requires Same(c, s, u)
    ensures Same(c, s.(step := COMMIT, commitRound := r), u.(step := COMMIT, commitRound := r))
  {
    hide AgreeAt, SameVotes;
  }

  lemma StageSame(c: Config, s: RoundState, u: RoundState, b: nat, r: int)
    requires Same(c, s, u)
    ensures Same(c, StageCommit(s, b).(step := COMMIT, commitRound := r), StageCommit(u, b).(step := COMMIT, commitRound := r))
  {
    TrackedFields(c, s, u);
    FetchSame(c, s, u, b);
    hide Same, Tracks, Fetch;
    CommittingSame(c, StageCommit(s, b), StageCommit(u, b), r);
  }

  lemma UpdateSame(c: Config, s: RoundState, u: RoundState)
    requires Same(c, s, u) && s.height >= 1 && UpdateToState(c, s, s.height).height == s.height
    ensures Same(c, UpdateToState(c, s, s.height), UpdateToState(c, u, s.height))
  {
    MajorityAgrees(c, s.height, s.votes, u.votes);
    hide AgreeAt, SameVotes, TwoThirdsMajority;
  }

  lemma StoredSame(c: Config, s: RoundState, u: RoundState, h: int, b: nat)
    requires Same(c, s, u)
    ensures Same(c, Stored(s, h, b), Stored(u, h, b)) && Stored(s, h, b).height == s.height
  {
    hide AgreeAt, SameVotes;
  }

  lemma NextHeightSame(c: Config, s: RoundState, u: RoundState)
    requires Same(c, s, u)
    ensures Same(c, Schedule(s, s.height, 0, NEW_HEIGHT), Schedule(u, u.height, 0, NEW_HEIGHT)) && s.halt == u.halt
    ensures Schedule(s, s.height, 0, NEW_HEIGHT).height == s.height
  {
    hide AgreeAt, SameVotes;
  }

  /** finalizeCommit past its guards, for the block b. */
  lemma StoreSame(c: Config, s: RoundState, u: RoundState, b: nat)
    requires Same(c, s, u) && s.height >= 1 && UpdateToState(c, Stored(s, s.height, b), s.height).height == s.height
    ensures var s1, u1 := UpdateToState(c, Stored(s, s.height, b), s.height), UpdateToState(c, Stored(u, s.height, b), s.height);
            && s1.halt == u1.halt && s1.height == u1.height && Same(c, s1, u1)
            && Same(c, Schedule(s1, s1.height, 0, NEW_HEIGHT), Schedule(u1, u1.height, 0, NEW_HEIGHT))
  {
    var s1, u1 := Stored(s, s.height, b), Stored(u, s.height, b);
    StoredSame(c, s, u, s.height, b);
    hide Same, Stored, Schedule, UpdateToState;
    UpdateSame(c, s1, u1);
    NextHeightSame(c, UpdateToState(c, s1, s.height), UpdateToState(c, u1, s.height));
    SameFields(c, UpdateToState(c, s1, s.height), UpdateToState(c, u1, s.height));
  }

  lemma SameFields(c: Config, s: RoundState, u: RoundState)
    requires Same(c, s, u)
    ensures s.height == u.height && s.round == u.round && s.halt == u.halt
  {
    hide AgreeAt, SameVotes;
  }

  lemma FinalizeSame(c: Config, s: RoundState, u: RoundState, h: int)
    requires Same(c, s, u) && s.halt == Running && s.height >= 1 && FinalizeCommit(c, s, h).height == s.height
    ensures Same(c, FinalizeCommit(c, s, h), FinalizeCommit(c, u, h))
  {
    MajorityAgrees(c, s.height, s.votes, u.votes);
    TrackedFields(c, s, u);
    HaltTracks(c, s, u, Inconsistent);
    HaltTracks(c, s, u, InvalidCommit);
    hide Same, Tracks, TwoThirdsMajority, UpdateToState, Stored, Schedule;
    var m := TwoThirdsMajority(c, s.votes, s.height, s.commitRound, Precommit);
    if s.height == h && m.Some? && m.value.Block? && UpdateToState(c, Stored(s, h, m.value.id), h).height == h {
      StoreSame(c, s, u, m.value.id);
    }
  }

  lemma TryFinalizeSame(c: Config, s: RoundState, u: RoundState, h: int)
    requires Same(c, s, u) && s.halt == Running && s.height >= 1 && TryFinalizeCommit(c, s, h).height == s.height
    ensures Same(c, TryFinalizeCommit(c, s, h), TryFinalizeCommit(c, u, h))
  {
    MajorityAgrees(c, s.height, s.votes, u.votes);
    if FinalizeCommit(c, s, h).height == s.height {
      FinalizeSame(c, s, u, h);
    }
    hide AgreeAt, SameVotes, TwoThirdsMajority, FinalizeCommit;
  }

  lemma CommitSame(c: Config, s: RoundState, u: RoundState, h: int, r: int)
    requires Same(c, s, u) && s.height >= 1 && EnterCommit(c, s, h, r).height == s.height
    ensures Same(c, EnterCommit(c, s, h, r), EnterCommit(c, u, h, r))
  {
    MajorityAgrees(c, s.height, s.votes, u.votes);
    var m := TwoThirdsMajority(c, s.votes, s.height, r, Precommit);
    if s.halt == Running && s.height == h && s.step < COMMIT && m.Some? && m.value.Block? {
      var s1 := StageCommit(s, m.value.id).(step := COMMIT, commitRound := r);
      var u1 := StageCommit(u, m.value.id).(step := COMMIT, commitRound := r);
      StageSame(c, s, u, m.value.id, r);
      assert EnterCommit(c, s, h, r) == TryFinalizeCommit(c, s1, h) && EnterCommit(c, u, h, r) == TryFinalizeCommit(c, u1, h);
      assert s1.halt == Running && s1.height == s.height;
      hide *;
      TryFinalizeSame(c, s1, u1, h);
    } else {
      hide AgreeAt, SameVotes, TwoThirdsMajority, TryFinalizeCommit;
    }
  }

  // ----- the handlers -----

  lemma CountSame(c: Config, s: RoundState, u: RoundState, v: Vote)
    requires Tracks(c, s, u)
    ensures Tracks(c, CountVote(s, v), CountVote(u, v)) && (Same(c, s, u) ==> Same(c, CountVote(s, v), CountVote(u, v)))
  {
    hide SameVotes;
  }

  lemma MarkSame(c: Config, s: RoundState, u: RoundState, polka: Option<Value>)
    requires Tracks(c, s, u)
    ensures Tracks(c, MarkValid(s, polka), MarkValid(u, polka)) && (Same(c, s, u) ==> Same(c, MarkValid(s, polka), MarkValid(u, polka)))
  {
    hide AgreeAt, SameVotes;
  }

  lemma CompletedSame(c: Config, s: RoundState, u: RoundState, h: int)
    requires Tracks(c, s, u) && s.halt == Running && s.height == h >= 1 && s.round >= 0
    requires HandleCompleteProposal(c, s, h).height == s.height
    ensures Tracks(c, HandleCompleteProposal(c, s, h), HandleCompleteProposal(c, u, h))
  {
    MajorityAgrees(c, s.height, s.votes, u.votes);
    var polka := TwoThirdsMajority(c, s.votes, s.height, s.round, Prevote);
    var s1, u1 := MarkValid(s, polka), MarkValid(u, polka);
    MarkSame(c, s, u, polka);
    hide AgreeAt, SameVotes, TwoThirdsMajority, IsProposalComplete;
    CompleteAgrees(c, s1, u1);
    if s1.step <= PROPOSE && IsProposalComplete(c, s1) {
      var s2, u2 := EnterPrevote(c, s1, h, s1.round), EnterPrevote(c, u1, h, u1.round);
      PrevoteSame(c, s1, u1, h, s1.round);
      hide EnterPrevote, MarkValid, EnterPrecommit, TryFinalizeCommit;
      PrecommitSame(c, s2, u2, h, s2.round);
    } else if s1.step == COMMIT {
      hide EnterPrevote, EnterPrecommit, TryFinalizeCommit;
      TryFinalizeSame(c, s1, u1, h);
    } else {
      hide EnterPrevote, EnterPrecommit, TryFinalizeCommit;
    }
  }

  lemma GiveUpTracks(c: Config, s: RoundState, u: RoundState, r: int, polka: Value)
    requires Tracks(c, s, u)
    ensures Tracks(c, GiveUpLock(s, r, polka), GiveUpLock(u, r, polka))
    ensures Same(c, s, u) ==> Same(c, GiveUpLock(s, r, polka), GiveUpLock(u, r, polka))
  {
    hide AgreeAt, SameVotes;
  }

  lemma NewValidTracks(c: Config, s: RoundState, u: RoundState, r: int, block: Option<nat>, parts: Option<nat>)
    requires Tracks(c, s, u)
    ensures var s1 := s.(validRound := r, validBlock := block, proposalParts := parts);
            var u1 := u.(validRound := r, validBlock := block, proposalParts := parts);
            Tracks(c, s1, u1) && (Same(c, s, u) ==> Same(c, s1, u1))
  {
    hide AgreeAt, SameVotes;
  }

  lemma NewPartsTracks(c: Config, s: RoundState, u: RoundState, parts: Option<nat>)
    requires Tracks(c, s, u)
    ensures var s1, u1 := s.(proposalBlock := None, proposalParts := parts), u.(proposalBlock := None, proposalParts := parts);
            Tracks(c, s1, u1) && (Same(c, s, u) ==> Same(c, s1, u1))
  {
    hide AgreeAt, SameVotes;
  }

  lemma UpdateValidTracks(c: Config, s: RoundState, u: RoundState, r: int, polka: Value)
    requires Tracks(c, s, u)
    ensures Tracks(c, UpdateValid(s, r, polka), UpdateValid(u, r, polka))
    ensures Same(c, s, u) ==> Same(c, UpdateValid(s, r, polka), UpdateValid(u, r, polka))
  {
    TrackedFields(c, s, u);
    if polka.Block? {
      NewValidTracks(c, s, u, r, s.proposalBlock, Some(polka.id));
      NewPartsTracks(c, s, u, Some(polka.id));
    }
    hide Tracks, Same;
  }

  lemma OnPolkaSame(c: Config, s: RoundState, u: RoundState, r: int, polka: Value)
    requires Tracks(c, s, u)
    ensures Tracks(c, OnPolka(s, r, polka), OnPolka(u, r, polka))
    ensures Same(c, s, u) ==> Same(c, OnPolka(s, r, polka), OnPolka(u, r, polka))
  {
    GiveUpTracks(c, s, u, r, polka);
    UpdateValidTracks(c, GiveUpLock(s, r, polka), GiveUpLock(u, r, polka), r, polka);
    hide Tracks, Same, GiveUpLock, UpdateValid;
  }

  lemma OnPolkaFrame(s: RoundState, r: int, polka: Value)
    ensures OnPolka(s, r, polka).halt == s.halt && OnPolka(s, r, polka).round == s.round
  {
    hide Unlocks;
  }

  lemma ReactionSame(c: Config, s: RoundState, u: RoundState, r: int, polka: Option<Value>)
    requires Tracks(c, s, u) && s.halt == Running && s.round >= 0
    ensures Tracks(c, PolkaReaction(c, s, r, polka), PolkaReaction(c, u, r, polka))
  {
    MajorityAgrees(c, s.height, s.votes, u.votes);
    CompleteAgrees(c, s, u);
    PrevoteSame(c, s, u, s.height, s.round);
    if s.round < r {
      NewRoundSame(c, s, u, s.height, r);
    } else if Same(c, s, u) {
      PrecommitSame(c, s, u, s.height, r);
      PrevoteWaitSame(c, s, u, s.height, r);
    }
    hide AgreeAt, SameVotes, TwoThirdsMajority, HasTwoThirdsAny, IsProposalComplete, EnterNewRound, EnterPrevote, EnterPrecommit,
      EnterPrevoteWait;
  }

  lemma OnPrevoteSame(c: Config, s: RoundState, u: RoundState, r: int)
    requires Tracks(c, s, u) && s.halt == Running && s.round >= 0
    ensures Tracks(c, OnPrevote(c, s, r), OnPrevote(c, u, r))
  {
    MajorityAgrees(c, s.height, s.votes, u.votes);
    TrackedFields(c, s, u);
    hide Tracks, Same, TwoThirdsMajority, PolkaReaction, OnPolka;
    var polka := TwoThirdsMajority(c, s.votes, s.height, r, Prevote);
    assert polka == TwoThirdsMajority(c, u.votes, u.height, r, Prevote);
    if polka.Some? {
      OnPolkaSame(c, s, u, r, polka.value);
      OnPolkaFrame(s, r, polka.value);
      ReactionSame(c, OnPolka(s, r, polka.value), OnPolka(u, r, polka.value), r, polka);
    } else {
      ReactionSame(c, s, u, r, polka);
    }
  }

  lemma MajoritySame(c: Config, s: RoundState, u: RoundState, r: int, v: Value, skip: bool)
    requires Same(c, s, u) && !AtStart(s) && s.height >= 1 && PrecommitMajority(c, s, s.height, r, v, skip).height == s.height
    ensures Same(c, PrecommitMajority(c, s, s.height, r, v, skip), PrecommitMajority(c, u, u.height, r, v, skip))
  {
    var h := s.height;
    SameFields(c, s, u);
    var s1, u1 := EnterCommit(c, s, h, r), EnterCommit(c, u, h, r);
    assert !AtStart(u);
    hide Same, EnterNewRound, EnterPrecommitWait, EnterCommit;
    if v.Nil? {
      PrecommitWaitSame(c, s, u, h, r);
    } else {
      NewRoundKeepsHeight(c, s1, s1.height, 0);
      CommitSame(c, s, u, h, r);
      SameFields(c, s1, u1);
      NewRoundSame(c, s1, u1, s1.height, 0);
    }
  }

  lemma PrecommitLeavesStart(c: Config, s: RoundState, h: int, r: int)
    requires !AtStart(s)
    ensures !AtStart(EnterPrecommit(c, s, h, r))
  {
    hide TwoThirdsMajority, PolkaIsOld, PolkaInvalid, Decide, WithVote;
  }

  /** A new precommit of round r takes both into that round, if two thirds have precommitted there. */
  lemma OnPrecommitTracks(c: Config, s: RoundState, u: RoundState, r: int)
    requires Tracks(c, s, u) && s.halt == Running && s.height >= 1 && s.round >= 0 && r >= 0 && OnPrecommit(c, s, r).height == s.height
    requires r == 0 && HasTwoThirdsAny(c, s.votes, s.height, 0, Precommit) && IsProposalComplete(c, s) ==>
               StartsProposing(c, s) == StartsProposing(c, u)
    ensures Tracks(c, OnPrecommit(c, s, r), OnPrecommit(c, u, r))
  {
    var h := s.height;
    MajorityAgrees(c, h, s.votes, u.votes);
    TrackedFields(c, s, u);
    var m := TwoThirdsMajority(c, s.votes, h, r, Precommit);
    if m.Some? {
      MajorityIsAny(c, s.votes, h, r, Precommit, m.value);
    }
    hide Tracks, Same, TwoThirdsMajority, HasTwoThirdsAny, HasAll, EnterNewRound, EnterPrecommit, EnterPrecommitWait, PrecommitMajority,
      IsProposalComplete;
    if HasTwoThirdsAny(c, s.votes, h, r, Precommit) {
      NewRoundBoth(c, s, u, r);
      NewRoundKeepsHeight(c, s, h, r);
      var s1, u1 := EnterNewRound(c, s, h, r), EnterNewRound(c, u, h, r);
      PrecommitWaitSame(c, s1, u1, h, r);
      if m.Some? {
        InRoundSame(c, s1, u1, h, r);
        RoundsKeepHeight(c, s1, h, r);
        var s2, u2 := EnterPrecommit(c, s1, h, r), EnterPrecommit(c, u1, h, r);
        PrecommitLeavesStart(c, s1, h, r);
        SameFields(c, s2, u2);
        MajoritySame(c, s2, u2, r, m.value, c.skipTimeoutCommit && HasAll(c, s.votes, h, r, Precommit));
        SameTracks(c, PrecommitMajority(c, s2, h, r, m.value, c.skipTimeoutCommit && HasAll(c, s.votes, h, r, Precommit)),
                   PrecommitMajority(c, u2, h, r, m.value, c.skipTimeoutCommit && HasAll(c, s.votes, h, r, Precommit)));
      }
    }
  }

  lemma SameTracks(c: Config, s: RoundState, u: RoundState)
    requires Same(c, s, u)
    ensures Tracks(c, s, u)
  {
  }

  /** Entering the precommit step of round r brings both in step, if they are not yet. */
  lemma InRoundSame(c: Config, s: RoundState, u: RoundState, h: int, r: int)
    requires Tracks(c, s, u) && (r > 0 ==> Same(c, s, u)) && r >= 0 && (Apart(c, s, u) ==> s.halt == Running && s.height == h)
    ensures Same(c, EnterPrecommit(c, s, h, r), EnterPrecommit(c, u, h, r))
  {
    hide AgreeAt, SameVotes, EnterPrecommit;
    PrecommitSame(c, s, u, h, r);
  }

  // ----- falling out of step -----

  /** The input makes a state that is in round 0, and has not proposed there, do so. */
  predicate Proposes(c: Config, s: RoundState, e: Event) {
    match e
    case Tock(ti) =>
      && ti.height == s.height && ti.round == s.round == 0
      && ((ti.step == NEW_HEIGHT && StartsProposing(c, s)) || (ti.step == NEW_ROUND && s.step < PROPOSE))
    case VoteMessage(v) =>
      && StartsProposing(c, s) && IsNewVote(c, s, v) && v.kind == Precommit
      && (|| (v.height == s.height && v.round == 0 && HasTwoThirdsAny(c, CountVote(s, v).votes, v.height, 0, Precommit))
          || CompletesLastCommit(c, s, v))
    case TxsAvailable => s.round == 0 && s.step == NEW_ROUND
    case _ => false
  }

  /** The vote is the last one that the last commit lacked, and the commit timeout is to be skipped then. */
  predicate CompletesLastCommit(c: Config, s: RoundState, v: Vote) {
    && AtStart(s) && s.lastHeight > 0 && v.height + 1 == s.height && v.kind == Precommit && v.round == s.lastCommitRound
    && IsNewVote(c, s, v) && c.skipTimeoutCommit && HasAll(c, CountVote(s, v).votes, v.height, v.round, Precommit)
  }

  /** A replay is given the logged inputs only. */
  predicate IsLogged(e: Event) {
    !e.TxsAvailable?
  }

  function HandleLogged(c: Config, u: RoundState, e: Event): RoundState {
    if IsLogged(e) then Handle(c, u, e) else u
  }

  /**
   * The proposal is complete, and the input makes only one of run and replay go on to propose. That one
   * prevotes at once, while the other keeps waiting.
   */
  ghost predicate Late(c: Config, s: RoundState, u: RoundState, e: Event) {
    && s.halt == Running && Tracks(c, s, u) && IsProposalComplete(c, s)
    && Proposes(c, s, e) != (IsLogged(e) && Proposes(c, u, e))
  }

  lemma PrecommitsDoNotComplete(c: Config, s: RoundState, v: Vote)
    requires v.kind == Precommit
    ensures IsProposalComplete(c, CountVote(s, v)) == IsProposalComplete(c, s)
  {
    var a, b := s.votes, CountVote(s, v).votes;
    forall r, w ensures IsMajority(c, a, s.height, r, Prevote, w) == IsMajority(c, b, s.height, r, Prevote, w) {
      assert Voters(c, a, s.height, r, Prevote, w) == Voters(c, b, s.height, r, Prevote, w);
    }
    hide IsMajority;
    forall r ensures TwoThirdsMajority(c, a, s.height, r, Prevote).Some? == TwoThirdsMajority(c, b, s.height, r, Prevote).Some? {
      var m, n := TwoThirdsMajority(c, a, s.height, r, Prevote), TwoThirdsMajority(c, b, s.height, r, Prevote);
      assert m.Some? ==> IsMajority(c, b, s.height, r, Prevote, m.value);
      assert n.Some? ==> IsMajority(c, a, s.height, r, Prevote, n.value);
    }
  }

  // ----- one turn of the receive routine -----

  /** Votes of other heights do not matter. */
  lemma CountOther(c: Config, s: RoundState, u: RoundState, v: Vote)
    requires Tracks(c, s, u) && v.height != s.height
    ensures Tracks(c, CountVote(s, v), u) && Tracks(c, s, CountVote(u, v)) && Tracks(c, CountVote(s, v), CountVote(u, v))
  {
    hide SameVotes;
  }

  /** What counting a precommit of the last height leaves to do. */
  function AfterLastCommit(c: Config, s: RoundState, v: Vote): RoundState {
    if s.lastHeight > 0 && AtStart(s) && v.round == s.lastCommitRound && IsNewVote(c, s, v) then CountVote(s, v) else s
  }

  lemma LastCommitIs(c: Config, s: RoundState, v: Vote)
    requires v.height + 1 == s.height && v.kind == Precommit && s.lastHeight > 0
    ensures AddVote(c, s, v) == if CompletesLastCommit(c, s, v) then EnterNewRound(c, CountVote(s, v), s.height, 0)
                                else AfterLastCommit(c, s, v)
    ensures CompletesLastCommit(c, s, v) ==> AfterLastCommit(c, s, v) == CountVote(s, v)
  {
    hide HasAll, IsNewVote, EnterNewRound;
  }

  lemma LastCommitTracks(c: Config, s: RoundState, u: RoundState, v: Vote)
    requires Tracks(c, s, u) && s.halt == Running && s.lastHeight >= 0 && v.height + 1 == s.height && v.kind == Precommit
    requires !Late(c, s, u, VoteMessage(v))
    ensures Tracks(c, AddVote(c, s, v), AddVote(c, u, v))
  {
    TrackedFields(c, s, u);
    if s.lastHeight == 0 {
      assert Same(c, s, u) || (!AtStart(s) && !AtStart(u)) by { hide AgreeAt, SameVotes; }
      HaltTracks(c, s, u, NilLastCommit);
      hide Alike;
    } else {
      LastCommitIs(c, s, v);
      LastCommitIs(c, u, v);
      LastCommitEnters(c, s, u, v);
      hide AddVote, Tracks;
    }
  }

  lemma LastCommitEnters(c: Config, s: RoundState, u: RoundState, v: Vote)
    requires Tracks(c, s, u) && s.halt == Running && s.lastHeight > 0 && v.height + 1 == s.height && v.kind == Precommit
    requires !Late(c, s, u, VoteMessage(v))
    ensures var s1, u1 := AfterLastCommit(c, s, v), AfterLastCommit(c, u, v);
            Tracks(c, if CompletesLastCommit(c, s, v) then EnterNewRound(c, s1, s.height, 0) else s1,
                   if CompletesLastCommit(c, u, v) then EnterNewRound(c, u1, u.height, 0) else u1)
  {
    var s1, u1 := AfterLastCommit(c, s, v), AfterLastCommit(c, u, v);
    CountOther(c, s, u, v);
    assert Tracks(c, s1, u1);
    CompleteAgrees(c, s, u);
    PrecommitsDoNotComplete(c, s, v);
    PrecommitsDoNotComplete(c, u, v);
    TrackedFields(c, s, u);
    var a, b := CompletesLastCommit(c, s, v), CompletesLastCommit(c, u, v);
    if a && b {
      NewRoundBoth(c, s1, u1, 0) by { hide Alike, HasAll, IsNewVote; }
    } else if a {
      NewRoundAlone(c, s1, u1) by { hide Alike, HasAll, IsNewVote; }
    } else if b {
      TracksBack(c, s1, u1);
      NewRoundAlone(c, u1, s1) by { hide Alike, HasAll, IsNewVote; }
      TracksBack(c, EnterNewRound(c, u1, u.height, 0), s1);
    }
    hide Tracks, CompletesLastCommit, AfterLastCommit, EnterNewRound;
  }

  lemma AddVoteTracks(c: Config, s: RoundState, u: RoundState, v: Vote)
    requires Tracks(c, s, u) && s.halt == Running && s.height >= 1 && s.round >= 0 && v.round >= 0 && s.lastHeight >= 0
    requires !Late(c, s, u, VoteMessage(v)) && AddVote(c, s, v).height == s.height
    ensures Tracks(c, AddVote(c, s, v), AddVote(c, u, v))
  {
    TrackedFields(c, s, u);
    if v.height + 1 == s.height && v.kind == Precommit {
      LastCommitTracks(c, s, u, v);
    } else if v.height == s.height {
      var s1, u1 := CountVote(s, v), CountVote(u, v);
      assert IsNewVote(c, s, v) == IsNewVote(c, u, v) by { hide SameVotes; }
      CountSame(c, s, u, v);
      MajorityAgrees(c, s.height, s1.votes, u1.votes) by { hide SameVotes; }
      hide AgreeAt, SameVotes, HasTwoThirdsAny, HasAll, TwoThirdsMajority, OnPrevote, OnPrecommit, IsNewVote;
      if !IsNewVote(c, s, v) {
      } else if v.kind == Prevote {
        OnPrevoteSame(c, s1, u1, v.round);
      } else {
        PrecommitsDoNotComplete(c, s, v);
        OnPrecommitTracks(c, s1, u1, v.round);
      }
    }
  }

  /** The timeouts that treat both alike. */
  lemma LaterTimeoutTracks(c: Config, s: RoundState, u: RoundState, ti: Timeout)
    requires Tracks(c, s, u) && s.halt == Running && s.round >= 0
    requires ti.height == s.height && ti.round == s.round && s.step <= ti.step
    requires ti.step == PROPOSE || ti.step == PREVOTE_WAIT || ti.step == PRECOMMIT_WAIT
    ensures Tracks(c, HandleTimeout(c, s, ti), HandleTimeout(c, u, ti))
  {
    hide AgreeAt, SameVotes, EnterNewRound, EnterPropose, EnterPrevote, EnterPrecommit;
    assert ti.height == u.height && ti.round == u.round && u.step <= ti.step;
    PrevoteSame(c, s, u, ti.height, ti.round);
    PrecommitSame(c, s, u, ti.height, ti.round);
    var s1, u1 := EnterPrecommit(c, s, ti.height, ti.round), EnterPrecommit(c, u, ti.height, ti.round);
    assert Same(c, s1, u1);
    hide Tracks, Same;
    NewRoundSame(c, s1, u1, ti.height, ti.round + 1);
  }

  /** The timeouts that lead to the propose step; a state that is past it ignores them. */
  lemma EarlyTimeoutIs(c: Config, s: RoundState, ti: Timeout)
    requires s.halt == Running && s.step >= NEW_HEIGHT && ti.height == s.height && ti.round == s.round
    requires ti.step == NEW_HEIGHT || ti.step == NEW_ROUND
    requires AtStart(s) ==> s.round == 0
    ensures ti.step == NEW_HEIGHT ==>
              HandleTimeout(c, s, ti) == if s.round == 0 then EnterNewRound(c, s, s.height, 0) else s
    ensures ti.step == NEW_ROUND ==> HandleTimeout(c, s, ti) == EnterPropose(c, s, s.height, s.round)
  {
    hide EnterPrevote, EnterPrecommit, IsProposalComplete;
  }

  lemma EarlyTimeoutTracks(c: Config, s: RoundState, u: RoundState, ti: Timeout)
    requires Tracks(c, s, u) && s.halt == Running && s.round >= 0 && s.step >= NEW_HEIGHT && ti.height == s.height && ti.round == s.round
    requires ti.step == NEW_HEIGHT || ti.step == NEW_ROUND
    requires !Late(c, s, u, Tock(ti))
    ensures Tracks(c, HandleTimeout(c, s, ti), HandleTimeout(c, u, ti))
  {
    TrackedFields(c, s, u);
    assert AtStart(s) || AtStart(u) ==> s.round == 0 by { hide Alike; }
    assert u.step >= NEW_HEIGHT by { hide Alike; }
    EarlyTimeoutIs(c, s, ti);
    EarlyTimeoutIs(c, u, ti);
    CompleteAgrees(c, s, u);
    if ti.step == NEW_HEIGHT {
      if s.round == 0 {
        NewRoundBoth(c, s, u, 0) by { hide Alike, IsProposalComplete; }
      }
      hide Tracks, HandleTimeout;
    } else {
      ProposeBoth(c, s, u) by { hide Alike, IsProposalComplete; }
      hide Tracks, HandleTimeout;
    }
  }

  /** Both are asked to propose in their round. */
  lemma ProposeBoth(c: Config, s: RoundState, u: RoundState)
    requires Tracks(c, s, u) && s.halt == Running && s.round >= 0
    requires s.round == 0 && IsProposalComplete(c, s) ==> (s.step < PROPOSE) == (u.step < PROPOSE)
    ensures Tracks(c, EnterPropose(c, s, s.height, s.round), EnterPropose(c, u, s.height, s.round))
  {
    var h := s.height;
    if Same(c, s, u) {
      ProposeSame(c, s, u, h, s.round);
      SameTracks(c, EnterPropose(c, s, h, s.round), EnterPropose(c, u, h, s.round));
    } else if s.step == PROPOSE {
      TracksBack(c, s, u);
      CompleteAgrees(c, s, u);
      ProposeAlone(c, u, s) by { hide Alike, IsProposalComplete; }
      TracksBack(c, EnterPropose(c, u, h, 0), s);
    } else if u.step == PROPOSE {
      ProposeAlone(c, s, u) by { hide Alike, IsProposalComplete; }
    } else {
      BothPropose(c, s, u);
    }
    hide Alike, IsProposalComplete, EnterPrevote;
  }

  /** Neither has proposed yet, and both do. */
  lemma BothPropose(c: Config, s: RoundState, u: RoundState)
    requires Apart(c, s, u) && s.halt == Running && s.step < PROPOSE && u.step < PROPOSE
    ensures Tracks(c, EnterPropose(c, s, s.height, 0), EnterPropose(c, u, s.height, 0))
  {
    var s1, u1 := BeginPropose(c, s, s.height, 0), BeginPropose(c, u, s.height, 0);
    assert Same(c, s1, u1) by { hide AgreeAt; }
    CompleteAgrees(c, s1, u1);
    PrevoteSame(c, s1, u1, s.height, 0);
    hide Alike, IsProposalComplete, EnterPrevote;
  }

  lemma TimeoutTracks(c: Config, s: RoundState, u: RoundState, ti: Timeout)
    requires Tracks(c, s, u) && s.halt == Running && s.round >= 0 && s.step >= NEW_HEIGHT && NotAhead(s, ti)
    requires !Late(c, s, u, Tock(ti))
    ensures Tracks(c, HandleTimeout(c, s, ti), HandleTimeout(c, u, ti))
  {
    if ti.height != s.height || ti.round != s.round {
      hide Alike, EnterNewRound, EnterPropose, EnterPrevote, EnterPrecommit;
    } else if ti.step == NEW_HEIGHT || ti.step == NEW_ROUND {
      EarlyTimeoutTracks(c, s, u, ti);
      hide Tracks, HandleTimeout;
    } else if s.step <= ti.step {
      LaterTimeoutTracks(c, s, u, ti);
      hide Tracks, HandleTimeout;
    } else {
      hide Alike, EnterNewRound, EnterPropose, EnterPrevote, EnterPrecommit;
    }
  }

  /** Transactions arrive in the run, of which the replay learns nothing. */
  lemma TxsTracks(c: Config, s: RoundState, u: RoundState)
    requires Tracks(c, s, u) && s.halt == Running && c.waitForTxs && s.step >= NEW_HEIGHT && !Late(c, s, u, TxsAvailable)
    requires s.round == 0 && s.step == NEW_ROUND && AtStart(u) ==> s.lastHeight > 0
    ensures Tracks(c, HandleTxsAvailable(c, s), u)
  {
    if s.round == 0 && s.step == NEW_ROUND {
      TrackedFields(c, s, u);
      ProposeAlone(c, s, u) by { hide Alike, IsProposalComplete; }
      hide Tracks, EnterPropose;
    } else {
      hide AgreeAt, SameVotes, EnterPropose;
    }
  }

  lemma ProposalTracks(c: Config, s: RoundState, u: RoundState, p: Proposal)
    requires Tracks(c, s, u)
    ensures Tracks(c, SetProposal(c, s, p), SetProposal(c, u, p))
  {
    hide AgreeAt, SameVotes;
  }

  lemma LastPartTracks(c: Config, s: RoundState, u: RoundState, h: int, b: nat)
    requires Tracks(c, s, u) && s.halt == Running && s.height >= 1 && s.round >= 0 && AddLastPart(c, s, h, b).height == s.height
    ensures Tracks(c, AddLastPart(c, s, h, b), AddLastPart(c, u, h, b))
  {
    hide AgreeAt, SameVotes, HandleCompleteProposal;
    if s.height == h && s.proposalParts == Some(b) && s.proposalBlock.None? {
      var s1, u1 := s.(proposalBlock := Some(b)), u.(proposalBlock := Some(b));
      assert Tracks(c, s1, u1);
      CompletedSame(c, s1, u1, h);
      hide Tracks;
    }
  }

  /**
   * Every input leaves the replay in step with the run: the same votes are signed, and the lock, the
   * valid block, the proposal and the votes of the height are equal. The exception is a late input.
   */
  lemma HandleTracks(c: Config, s: RoundState, u: RoundState, e: Event)
    requires Inv(c, s) && ValidEvent(c, s, e) && Tracks(c, s, u)
    requires !Late(c, s, u, e) && Handle(c, s, e).height == s.height
    ensures Tracks(c, Handle(c, s, e), HandleLogged(c, u, e))
  {
    Unmoved(c, s);
    TrackedFields(c, s, u);
    assert s.height >= 1 && s.lastHeight >= 0;
    hide Inv, Keeps;
    if s.halt == Running {
      match e {
        case VoteMessage(v) => AddVoteTracks(c, s, u, v);
        case ProposalMessage(p) => ProposalTracks(c, s, u, p);
        case LastBlockPart(h, b) => LastPartTracks(c, s, u, h, b);
        case Tock(ti) => TimeoutTracks(c, s, u, ti);
        case TxsAvailable =>
          assert s.step == NEW_ROUND && AtStart(u) ==> s.lastHeight > 0 by { hide Alike; }
          TxsTracks(c, s, u);
      }
    }
    hide Tracks, AddVote, SetProposal, AddLastPart, HandleTimeout, HandleTxsAvailable;
  }

  // ----- at a late input, the one that proposes signs a vote that the other does not -----

  function LatePrevote(c: Config, s: RoundState): Output {
    SignVote(s.height, 0, Prevote, PrevoteValue(c, s), 0)
  }

  lemma ProposingPrevotes(c: Config, s: RoundState)
    requires s.halt == Running && s.round == 0 && s.step < PROPOSE && IsProposalComplete(c, s) && IsValidator(c, s.height, c.me)
    ensures LatePrevote(c, s) in EnterPropose(c, s, s.height, 0).outputs
  {
    hide TwoThirdsMajority, IsValidator;
  }

  lemma EnteringPrevotes(c: Config, s: RoundState)
    requires s.halt == Running && s.round == 0 && s.step < PROPOSE && IsProposalComplete(c, s) && IsValidator(c, s.height, c.me)
    ensures LatePrevote(c, s) in EnterPropose(c, s, s.height, 0).outputs
    ensures StartsProposing(c, s) ==> LatePrevote(c, s) in EnterNewRound(c, s, s.height, 0).outputs
  {
    ProposingPrevotes(c, s);
    ProposingPrevotes(c, BeginRound(s, 0)) by { hide TwoThirdsMajority; }
    hide EnterPropose, IsValidator, TwoThirdsMajority;
  }

  lemma ProposerPrevotes(c: Config, s: RoundState, e: Event)
    requires Inv(c, s) && s.halt == Running && Proposes(c, s, e) && IsProposalComplete(c, s) && IsValidator(c, s.height, c.me)
    ensures LatePrevote(c, s) in Handle(c, s, e).outputs
  {
    Unmoved(c, s);
    match e {
      case Tock(ti) =>
        hide Keeps, Inv;
        EnteringPrevotes(c, s);
        EarlyTimeoutIs(c, s, ti);
        hide HandleTimeout, EnterNewRound, EnterPropose, IsProposalComplete, IsValidator, PrevoteValue;
      case TxsAvailable =>
        EnteringPrevotes(c, s);
        hide Keeps, Inv, EnterPropose, IsProposalComplete, IsValidator, PrevoteValue;
      case VoteMessage(v) =>
        PrecommitsDoNotComplete(c, s, v);
        if v.height == s.height {
          PrecommitPrevotes(c, s, v);
        } else {
          EnteringPrevotes(c, CountVote(s, v));
          LastCommitIs(c, s, v);
        }
        hide Keeps, Inv, AddVote, EnterNewRound, IsProposalComplete, IsValidator, HasAll, HasTwoThirdsAny, IsNewVote;
    }
  }

  lemma PrecommitPrevotes(c: Config, s: RoundState, v: Vote)
    requires Inv(c, s) && s.halt == Running && s.round == 0 && Proposes(c, s, VoteMessage(v)) && v.height == s.height
    requires IsProposalComplete(c, CountVote(s, v)) && IsValidator(c, s.height, c.me)
    ensures LatePrevote(c, s) in AddVote(c, s, v).outputs
  {
    var s1 := CountVote(s, v);
    var t := EnterNewRound(c, s1, s1.height, 0);
    CountVoteKeeps(c, s, v);
    EnteringPrevotes(c, s1);
    EnterNewRoundKeeps(c, s1, s1.height, 0);
    hide Inv, Signing, HasAll, HasTwoThirdsAny, IsProposalComplete, IsValidator, PrecommitMajority;
    PrecommitInNewRound(c, s1, t);
    if t.halt == Running {
      OnPrecommitKeeps(c, t, 0);
    }
    hide EnterNewRound, EnterPrecommit, EnterPrecommitWait, OnPrecommit;
  }

  /** Entering the round of a precommit majority first, and then reacting to the precommit. */
  lemma PrecommitInNewRound(c: Config, u: RoundState, t: RoundState)
    requires u.halt == Running && u.round == 0 && u.step == NEW_HEIGHT && HasTwoThirdsAny(c, u.votes, u.height, 0, Precommit)
    requires t == EnterNewRound(c, u, u.height, 0)
    ensures OnPrecommit(c, u, 0) == OnPrecommit(c, t, 0)
  {
    NewRoundVotes(c, u, u.height, 0);
    NewRoundKeepsHeight(c, u, u.height, 0);
    hide TwoThirdsMajority, HasTwoThirdsAny, HasAll, IsProposalComplete, EnterPrecommit, EnterPrecommitWait, PrecommitMajority;
    assert EnterNewRound(c, t, u.height, 0) == t && t.round == 0;
    hide EnterNewRound;
  }

  lemma PrevoteVotes(c: Config, s: RoundState, h: int, r: int)
    ensures EnterPrevote(c, s, h, r).votes == s.votes
  {
  }

  lemma ProposeVotes(c: Config, s: RoundState, h: int, r: int)
    ensures EnterPropose(c, s, h, r).votes == s.votes
  {
    var u := BeginPropose(c, s, h, r);
    PrevoteVotes(c, u, h, u.round);
    hide EnterPrevote, IsProposalComplete, IsValidator;
  }

  lemma NewRoundVotes(c: Config, s: RoundState, h: int, r: int)
    ensures EnterNewRound(c, s, h, r).votes == s.votes
  {
    ProposeVotes(c, BeginRound(s, r), h, r);
    hide EnterPropose;
  }

  lemma FinalizeSignsNothing(c: Config, s: RoundState, h: int)
    ensures FinalizeCommit(c, s, h).outputs == s.outputs
  {
    assert forall s, last :: UpdateToState(c, s, last).outputs == s.outputs by { hide TwoThirdsMajority; }
    hide TwoThirdsMajority, UpdateToState;
  }

  lemma CommitSignsNothing(c: Config, s: RoundState, h: int, r: int)
    ensures EnterCommit(c, s, h, r).outputs == s.outputs && EnterPrecommitWait(c, s, h, r).outputs == s.outputs
  {
    forall s ensures TryFinalizeCommit(c, s, h).outputs == s.outputs {
      FinalizeSignsNothing(c, s, h);
      hide TwoThirdsMajority, FinalizeCommit;
    }
    hide TwoThirdsMajority, HasTwoThirdsAny, TryFinalizeCommit;
  }

  lemma PrecommitSignsNoPrevote(c: Config, s: RoundState, h: int, r: int)
    ensures forall o :: o in EnterPrecommit(c, s, h, r).outputs && o.SignVote? && o.kind == Prevote ==> o in s.outputs
  {
    hide TwoThirdsMajority, PolkaIsOld, PolkaInvalid, Decide;
  }

  /** In round 0, a precommit does not make a waiting validator prevote. */
  lemma OnPrecommitSignsNoPrevote(c: Config, s: RoundState)
    requires Inv(c, s) && s.halt == Running && s.round == 0 && NEW_ROUND <= s.step <= PROPOSE
    ensures forall o :: o in OnPrecommit(c, s, 0).outputs && o.SignVote? && o.kind == Prevote && o.height == s.height ==> o in s.outputs
  {
    var h := s.height;
    assert EnterNewRound(c, s, h, 0) == s;
    var t := EnterPrecommit(c, s, h, 0);
    PrecommitSignsNoPrevote(c, s, h, 0);
    CommitSignsNothing(c, s, h, 0);
    CommitSignsNothing(c, t, h, 0);
    EnterPrecommitKeeps(c, s, h, 0);
    var m := TwoThirdsMajority(c, s.votes, h, 0, Precommit);
    if m.Some? && m.value.Block? {
      var f := EnterCommit(c, t, h, 0);
      assert IsMajority(c, t.votes, h, 0, Precommit, m.value) by { hide Inv, IsMajority; }
      EnterCommitKeeps(c, t, h, 0);
      EnterNewRoundKeeps(c, f, f.height, 0);
      hide Inv, EnterPrecommit, EnterCommit, IsMajority, TwoThirdsMajority, HasAll;
      assert f.height == h ==> EnterNewRound(c, f, f.height, 0) == f;
      hide EnterNewRound;
    }
    hide Inv, EnterPrecommit, EnterCommit, EnterPrecommitWait, IsMajority, TwoThirdsMajority, HasAll, HasTwoThirdsAny, EnterNewRound;
  }

  lemma NotYetPrevoted(c: Config, s: RoundState, v: Value)
    requires Inv(c, s) && s.round == 0 && s.step <= PROPOSE
    ensures SignVote(s.height, 0, Prevote, v, 0) !in s.outputs
  {
    hide Frame;
  }

  /** The other one does not prevote: u is in round 0 too, and e makes only s propose. */
  lemma WaiterDoesNotPrevote(c: Config, s: RoundState, u: RoundState, e: Event, v: Value)
    requires Inv(c, u) && Tracks(c, s, u) && s.halt == Running && Proposes(c, s, e) && IsLogged(e) && !Proposes(c, u, e)
    ensures SignVote(u.height, 0, Prevote, v, 0) !in Handle(c, u, e).outputs
  {
    TrackedFields(c, s, u);
    assert s.round == 0 && s.step < PROPOSE && NEW_HEIGHT <= u.step <= PROPOSE by { hide Alike; Unmoved(c, u); hide Inv; }
    NotYetPrevoted(c, u, v);
    match e {
      case Tock(ti) =>
        EarlyTimeoutIs(c, u, ti);
        hide Inv, Tracks, HandleTimeout;
      case VoteMessage(w) =>
        if w.height == s.height {
          assert IsNewVote(c, u, w) by { hide SameVotes; }
          CountSame(c, s, u, w);
          MajorityAgrees(c, s.height, CountVote(s, w).votes, CountVote(u, w).votes) by { hide SameVotes; }
          CountVoteKeeps(c, u, w);
          hide Tracks, Inv, HasTwoThirdsAny, IsNewVote, OnPrecommit, HasAll;
          OnPrecommitSignsNoPrevote(c, CountVote(u, w));
        } else {
          LastCommitIs(c, u, w);
          hide Tracks, Inv, HasTwoThirdsAny, IsNewVote, HasAll, AddVote;
        }
    }
  }

  /** The converse of HandleTracks for a validator: at a late input one of the two signs a prevote that the other does not. */
  lemma LateDiverges(c: Config, s: RoundState, u: RoundState, e: Event)
    requires Inv(c, s) && Inv(c, u) && Late(c, s, u, e) && IsValidator(c, s.height, c.me)
    ensures !SameVotes(Handle(c, s, e).outputs, HandleLogged(c, u, e).outputs)
  {
    TrackedFields(c, s, u);
    assert LatePrevote(c, s) == LatePrevote(c, u);
    CompleteAgrees(c, s, u);
    var p := LatePrevote(c, s);
    if Proposes(c, s, e) {
      ProposerPrevotes(c, s, e);
      if IsLogged(e) {
        WaiterDoesNotPrevote(c, s, u, e, p.value);
      } else {
        assert u.round == 0 && u.step <= PROPOSE by { hide Alike; }
        NotYetPrevoted(c, u, p.value);
      }
      assert p in Handle(c, s, e).outputs && p !in HandleLogged(c, u, e).outputs by { hide Inv, Tracks, Handle, Proposes; }
    } else {
      ProposerPrevotes(c, u, e);
      TracksBack(c, s, u);
      WaiterDoesNotPrevote(c, u, s, e, p.value);
      assert p in HandleLogged(c, u, e).outputs && p !in Handle(c, s, e).outputs by { hide Inv, Tracks, Handle, Proposes; }
    }
    hide Inv, Handle, Late;
  }

  lemma StrictIsNeverLate(c: Config, s: RoundState, u: RoundState, e: Event)
    requires Strict(c) && ValidEvent(c, s, e)
    ensures !Late(c, s, u, e)
  {
    if Tracks(c, s, u) && e.VoteMessage? && e.vote.height == s.height {
      CountSame(c, s, u, e.vote);
      MajorityAgrees(c, s.height, CountVote(s, e.vote).votes, CountVote(u, e.vote).votes);
    }
    hide SameVotes, HasTwoThirdsAny, HasAll, TwoThirdsMajority, IsProposalComplete;
  }

  // ----- whole replays -----

  /** What of the inputs of a run is in its log. */
  function Logged(events: seq<Event>): seq<Event> {
    if |events| == 0 then []
    else Logged(events[..|events| - 1]) + if IsLogged(events[|events| - 1]) then [events[|events| - 1]] else []
  }

  /** Replaying, for each input of the run, what of it is in the log. */
  function Rerun(c: Config, u: RoundState, events: seq<Event>): RoundState {
    if |events| == 0 then u else HandleLogged(c, Rerun(c, u, events[..|events| - 1]), events[|events| - 1])
  }

  lemma {:induction false} RerunIsReplay(c: Config, u: RoundState, events: seq<Event>)
    ensures Rerun(c, u, events) == Replay(c, u, Logged(events))
  {
    hide Handle;
    if |events| > 0 {
      var n := |events| - 1;
      RerunIsReplay(c, u, events[..n]);
      if IsLogged(events[n]) {
        var wal := Logged(events[..n]) + [events[n]];
        assert wal[..|wal| - 1] == Logged(events[..n]);
      } else {
        assert Logged(events) == Logged(events[..n]);
      }
    }
  }

  ghost predicate ValidLog(c: Config, s: RoundState, events: seq<Event>) {
    forall k | 0 <= k < |events| :: ValidEvent(c, Replay(c, s, events[..k]), events[k])
  }

  /** No input of the run from s is late for the replay from u. */
  ghost predicate NeverLate(c: Config, s: RoundState, u: RoundState, events: seq<Event>) {
    forall k | 0 <= k < |events| :: !Late(c, Replay(c, s, events[..k]), Rerun(c, u, events[..k]), events[k])
  }

  lemma PrefixLog(c: Config, s: RoundState, u: RoundState, events: seq<Event>, n: nat)
    requires n <= |events|
    ensures ValidLog(c, s, events) ==> ValidLog(c, s, events[..n])
    ensures NeverLate(c, s, u, events) ==> NeverLate(c, s, u, events[..n])
  {
    assert forall k | 0 <= k < n :: events[..n][..k] == events[..k];
    hide Replay, Rerun, Late, ValidEvent;
  }

  lemma {:induction false} RunKeepsHeight(c: Config, s: RoundState, events: seq<Event>)
    requires Inv(c, s) && ValidLog(c, s, events)
    ensures Inv(c, Replay(c, s, events)) && s.height <= Replay(c, s, events).height
  {
    if |events| > 0 {
      var n := |events| - 1;
      PrefixLog(c, s, s, events, n);
      RunKeepsHeight(c, s, events[..n]);
      HandleKeeps(c, Replay(c, s, events[..n]), events[n]);
      hide Inv, ValidEvent, Handle;
    }
  }

  lemma EventValidForBoth(c: Config, s: RoundState, u: RoundState, e: Event)
    requires Tracks(c, s, u) && ValidEvent(c, s, e)
    ensures ValidEvent(c, u, e)
  {
  }

  lemma LoggedKeeps(c: Config, s: RoundState, u: RoundState, e: Event)
    requires Inv(c, u) && Tracks(c, s, u) && ValidEvent(c, s, e)
    ensures Inv(c, HandleLogged(c, u, e))
  {
    EventValidForBoth(c, s, u, e);
    HandleKeeps(c, u, e);
    hide Inv, Handle, ValidEvent;
  }

  /** As long as no input is late, the replay stays in step with the run. */
  lemma {:induction false} ReplayInStep(c: Config, s: RoundState, u: RoundState, events: seq<Event>)
    requires Inv(c, s) && Inv(c, u) && Tracks(c, s, u)
    requires ValidLog(c, s, events) && Replay(c, s, events).height == s.height && NeverLate(c, s, u, events)
    ensures Inv(c, Rerun(c, u, events)) && Tracks(c, Replay(c, s, events), Rerun(c, u, events))
  {
    if |events| > 0 {
      var n := |events| - 1;
      var s1, u1 := Replay(c, s, events[..n]), Rerun(c, u, events[..n]);
      PrefixLog(c, s, u, events, n);
      RunKeepsHeight(c, s, events[..n]);
      HandleKeeps(c, s1, events[n]);
      assert s1.height == s.height by { hide Inv, Handle, ValidEvent; }
      ReplayInStep(c, s, u, events[..n]);
      HandleTracks(c, s1, u1, events[n]);
      LoggedKeeps(c, s1, u1, events[n]);
      hide Inv, Tracks, Late, ValidEvent, Handle, HandleLogged;
    }
  }

  /** At every point of the run, run and replay have signed the same votes. */
  ghost predicate AlwaysAgree(c: Config, s: RoundState, u: RoundState, events: seq<Event>) {
    forall k | 0 <= k <= |events| :: SameVotes(Replay(c, s, events[..k]).outputs, Rerun(c, u, events[..k]).outputs)
  }

  /** The start of a height, as the stores restore it, is where a replay of the run from s begins. */
  lemma StartTracks(c: Config, s: RoundState)
    requires Inv(c, s) && Landed(c, s) && s.lastHeight > 0
    ensures Inv(c, HeightStart(c, s)) && Tracks(c, s, HeightStart(c, s))
  {
    StartHolds(c, s);
    StartVotes(c, s);
    assert s.lastHeight < s.height;
    assert HeightStart(c, s) == s.(step := NEW_HEIGHT, votes := HeightStart(c, s).votes);
    hide Inv, HeightStart;
  }

  /**
   * Replaying the log of a height from its start signs the votes of the run, at every point of the
   * run, if and only if no input is late. With a commit timeout and without waiting for transactions
   * none is.
   */
  lemma ReplayAgreesExactly(c: Config, s: RoundState, events: seq<Event>)
    requires Inv(c, s) && Landed(c, s) && s.lastHeight > 0 && IsValidator(c, s.height, c.me)
    requires ValidLog(c, s, events) && Replay(c, s, events).height == s.height
    ensures AlwaysAgree(c, s, HeightStart(c, s), events) <==> NeverLate(c, s, HeightStart(c, s), events)
    ensures Strict(c) ==> NeverLate(c, s, HeightStart(c, s), events)
  {
    var u := HeightStart(c, s);
    StartTracks(c, s);
    if Strict(c) {
      forall k | 0 <= k < |events| ensures !Late(c, Replay(c, s, events[..k]), Rerun(c, u, events[..k]), events[k]) {
        StrictIsNeverLate(c, Replay(c, s, events[..k]), Rerun(c, u, events[..k]), events[k]);
      }
      hide Late, Replay, Rerun;
    }
    if NeverLate(c, s, u, events) {
      forall k | 0 <= k <= |events| ensures SameVotes(Replay(c, s, events[..k]).outputs, Rerun(c, u, events[..k]).outputs) {
        PrefixLog(c, s, u, events, k);
        PrefixHeight(c, s, events, k);
        ReplayInStep(c, s, u, events[..k]);
        hide Inv, Replay, Rerun, Late, SameVotes;
      }
    } else {
      var k := FirstLate(c, s, u, events);
      var s1, u1 := Replay(c, s, events[..k]), Rerun(c, u, events[..k]);
      PrefixLog(c, s, u, events, k);
      PrefixHeight(c, s, events, k);
      ReplayInStep(c, s, u, events[..k]);
      RunKeepsHeight(c, s, events[..k]);
      OneMore(c, s, events, k);
      hide Inv, Tracks, Replay, Rerun, Late, SameVotes, Handle, HandleLogged, ValidEvent;
      LateDiverges(c, s1, u1, events[k]);
      OneMoreRerun(c, u, events, k);
    }
  }

  /** A run that entered the height in s had the inputs `events` there, and u is what its stores restore. */
  ghost predicate LoggedBy(c: Config, s: RoundState, u: RoundState, events: seq<Event>) {
    && Inv(c, s) && Landed(c, s) && s.lastHeight > 0 && u == HeightStart(c, s)
    && ValidLog(c, s, events) && Replay(c, s, events).height == s.height && NeverLate(c, s, u, events)
  }

  /** Replaying what was logged brings the run back. */
  lemma ReplayRestores(c: Config, s: RoundState, u: RoundState, events: seq<Event>)
    requires LoggedBy(c, s, u, events)
    ensures Inv(c, Replay(c, u, Logged(events))) && Tracks(c, Replay(c, s, events), Replay(c, u, Logged(events)))
  {
    StartTracks(c, s);
    RerunIsReplay(c, u, events);
    hide Inv, Landed, Tracks, Replay, Rerun, ValidLog, NeverLate;
    ReplayInStep(c, s, u, events);
  }

  lemma OneMore(c: Config, s: RoundState, events: seq<Event>, k: nat)
    requires k < |events|
    ensures Replay(c, s, events[..k + 1]) == Handle(c, Replay(c, s, events[..k]), events[k])
  {
    assert events[..k + 1][..k] == events[..k];
    hide Handle;
  }

  lemma OneMoreRerun(c: Config, u: RoundState, events: seq<Event>, k: nat)
    requires k < |events|
    ensures Rerun(c, u, events[..k + 1]) == HandleLogged(c, Rerun(c, u, events[..k]), events[k])
  {
    assert events[..k + 1][..k] == events[..k];
    hide HandleLogged;
  }

  lemma FirstLate(c: Config, s: RoundState, u: RoundState, events: seq<Event>) returns (k: nat)
    requires !NeverLate(c, s, u, events)
    ensures k < |events| && Late(c, Replay(c, s, events[..k]), Rerun(c, u, events[..k]), events[k])
    ensures NeverLate(c, s, u, events[..k])
  {
    hide Late, Replay, Rerun;
    k := 0;
    while !Late(c, Replay(c, s, events[..k]), Rerun(c, u, events[..k]), events[k])
      invariant k < |events| && forall i | 0 <= i < k :: !Late(c, Replay(c, s, events[..i]), Rerun(c, u, events[..i]), events[i])
      invariant exists i | k <= i < |events| :: Late(c, Replay(c, s, events[..i]), Rerun(c, u, events[..i]), events[i])
      decreases |events| - k
    {
      k := k + 1;
    }
    assert forall i | 0 <= i < k :: events[..k][..i] == events[..i];
  }

  lemma {:induction false} PrefixHeight(c: Config, s: RoundState, events: seq<Event>, k: nat)
    requires Inv(c, s) && ValidLog(c, s, events) && k <= |events| && Replay(c, s, events).height == s.height
    ensures Replay(c, s, events[..k]).height == s.height
    decreases |events| - k
  {
    if k == |events| {
      assert events[..k] == events;
    } else {
      PrefixHeight(c, s, events, k + 1);
      PrefixLog(c, s, s, events, k);
      RunKeepsHeight(c, s, events[..k]);
      OneMore(c, s, events, k);
      HandleKeeps(c, Replay(c, s, events[..k]), events[k]);
      hide Inv, Replay, Handle, ValidEvent;
    }
  }
}
