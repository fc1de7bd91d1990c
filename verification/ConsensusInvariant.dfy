/**
 * What one validator's state machine keeps over every run, whatever the network delivers.
 */
module ConsensusInvariant {
  import opened Common
  import opened VotingPower
  import opened ConsensusSpec

  /** Every vote counted in `old'` is still counted in `now`. */
  ghost predicate Extends(old': VoteBook, now: VoteBook) {
    forall k :: k in old' ==> k in now && now[k] == old'[k]
  }

  /** Majorities are never lost. */
  lemma MajorityGrows(c: Config, old': VoteBook, now: VoteBook, h: int, r: int, k: VoteType, v: Value)
    requires Extends(old', now) && IsMajority(c, old', h, r, k, v)
    ensures IsMajority(c, now, h, r, k, v)
  {
    TallyMonotone(c.powers(h), Voters(c, old', h, r, k, v), Voters(c, now, h, r, k, v));
  }

  /** A polka for something other than block b, at a round after r0. */
  ghost predicate PolkaAgainst(c: Config, votes: VoteBook, h: int, r0: int, b: nat) {
    exists r, v :: r > r0 && v != Block(b) && IsMajority(c, votes, h, r, Prevote, v)
  }

  lemma PolkaAgainstGrows(c: Config, old': VoteBook, now: VoteBook)
    requires Extends(old', now)
    ensures forall h, r0, b :: PolkaAgainst(c, old', h, r0, b) ==> PolkaAgainst(c, now, h, r0, b)
  {
    forall h, r0, b | PolkaAgainst(c, old', h, r0, b) ensures PolkaAgainst(c, now, h, r0, b) {
      var r, v :| r > r0 && v != Block(b) && IsMajority(c, old', h, r, Prevote, v);
      MajorityGrows(c, old', now, h, r, Prevote, v);
    }
  }

  // ----- the invariant, clause by clause -----

  predicate Before(h1: int, r1: int, s1: int, h2: int, r2: int, s2: int) {
    h1 < h2 || (h1 == h2 && (r1 < r2 || (r1 == r2 && s1 <= s2)))
  }

  function VoteStep(k: VoteType): int { if k == Prevote then PREVOTE else PRECOMMIT }

  /** The quantifier-free part of the invariant. */
  ghost predicate Basic(c: Config, s: RoundState) {
    && s.round >= 0 && NEW_HEIGHT <= s.step <= COMMIT
    && (s.lockedBlock.None? <==> s.lockedRound == -1) && s.lockedRound >= -1
    && (s.lockedBlock.Some? ==>
          c.valid(s.height, s.lockedBlock.value)
          && (s.lockedRound < s.round || (s.lockedRound == s.round && s.step >= PRECOMMIT)))
    && (s.proposalBlock.Some? ==> s.proposalParts == s.proposalBlock)
    && (s.step == COMMIT ==> s.commitRound > -1)
    && (s.step == NEW_HEIGHT ==> s.round == 0)
  }

  ghost predicate Shape(c: Config, s: RoundState) {
    && Basic(c, s)
    && c.initialHeight >= 1
    && ((s.lastHeight == 0 && s.height == c.initialHeight)
        || (s.lastHeight >= c.initialHeight && s.height == s.lastHeight + 1))
    && (s.commitRound > -1 ==> exists b :: IsMajority(c, s.votes, s.height, s.commitRound, Precommit, Block(b)))
    && (forall h :: h in s.decided ==> h < s.height)
    && (forall k :: k in s.votes ==> k.height <= s.height)
  }

  /** A timeout for a round that is not ahead of the current one. */
  predicate NotAhead(s: RoundState, t: Timeout) {
    && (t.height < s.height || (t.height == s.height && t.round <= s.round))
    && t.step in {NEW_HEIGHT, NEW_ROUND, PROPOSE, PREVOTE_WAIT, PRECOMMIT_WAIT}
  }

  ghost predicate TimeoutsBehind(s: RoundState) {
    forall t :: t in s.timeouts ==> NotAhead(s, t)
  }

  /** Every vote signed is for a step that the state has reached. */
  ghost predicate VotesBehind(s: RoundState) {
    forall o :: o in s.outputs && o.SignVote? ==> Before(o.height, o.round, VoteStep(o.kind), s.height, s.round, s.step)
  }

  /** The round written into a vote is the round of the step that decided it. */
  ghost predicate ExaminesOwnRound(s: RoundState) {
    forall o :: o in s.outputs && o.SignVote? ==> o.examined == o.round
  }

  ghost predicate NeverTwice(s: RoundState) {
    forall o, o' | o in s.outputs && o' in s.outputs && o.SignVote? && o'.SignVote?
                   && o.height == o'.height && o.round == o'.round && o.kind == o'.kind :: o == o'
  }

  /** A precommit for a block rests on a polka for it in the same round. */
  ghost predicate PrecommitsHavePolka(c: Config, s: RoundState) {
    forall o :: o in s.outputs && o.SignVote? && o.kind == Precommit && o.value.Block? ==>
      IsMajority(c, s.votes, o.height, o.round, Prevote, o.value)
  }

  /** After precommitting a block the validator stays locked on it until a later polka says otherwise. */
  ghost predicate LockHeld(c: Config, s: RoundState) {
    forall o :: o in s.outputs && o.SignVote? && o.kind == Precommit && o.value.Block? && o.height == s.height ==>
      || (s.lockedBlock == Some(o.value.id) && s.lockedRound >= o.round)
      || PolkaAgainst(c, s.votes, s.height, o.round, o.value.id)
  }

  /** A prevote for something else than a block precommitted earlier is justified by a polka in between. */
  ghost predicate PrevotesRespectLock(c: Config, s: RoundState) {
    forall o, o' | o in s.outputs && o.SignVote? && o.kind == Precommit && o.value.Block?
                   && o' in s.outputs && o'.SignVote? && o'.kind == Prevote
                   && o.height == o'.height && o.round < o'.round && o'.value != o.value ::
      PolkaAgainst(c, s.votes, o.height, o.round, o.value.id)
  }

  ghost predicate PrevotesValid(c: Config, s: RoundState) {
    forall o :: o in s.outputs && o.SignVote? && o.kind == Prevote && o.value.Block? ==> c.valid(o.height, o.value.id)
  }

  /** A finalized block has the precommits of two thirds in some round. */
  ghost predicate DecidedHaveCommit(c: Config, s: RoundState) {
    forall h :: h in s.decided ==> exists r :: IsMajority(c, s.votes, h, r, Precommit, Block(s.decided[h]))
  }

  /** Why a receive routine can have stopped. */
  ghost predicate HaltExplained(c: Config, s: RoundState) {
    match s.halt
    case Running => true
    case NilLastCommit => s.lastHeight == 0 && c.initialHeight >= 2
    case InvalidPolka => exists r, b :: !c.valid(s.height, b) && IsMajority(c, s.votes, s.height, r, Prevote, Block(b))
    case InvalidCommit => exists r, b :: !c.valid(s.height, b) && IsMajority(c, s.votes, s.height, r, Precommit, Block(b))
    case Inconsistent => false
  }

  /** The clauses about the votes signed so far. */
  ghost predicate Signing(c: Config, s: RoundState) {
    && VotesBehind(s) && ExaminesOwnRound(s) && NeverTwice(s) && PrecommitsHavePolka(c, s)
    && LockHeld(c, s) && PrevotesRespectLock(c, s) && PrevotesValid(c, s)
  }

  ghost predicate Frame(c: Config, s: RoundState) {
    Shape(c, s) && TimeoutsBehind(s) && DecidedHaveCommit(c, s) && HaltExplained(c, s)
  }

  ghost predicate Inv(c: Config, s: RoundState) {
    Frame(c, s) && Signing(c, s)
  }

  /** What every handler does to the history: nothing is withdrawn and height/round/step never decreases. */
  ghost predicate Advances(s: RoundState, t: RoundState) {
    && Before(s.height, s.round, s.step, t.height, t.round, t.step)
    && s.outputs <= t.outputs
    && Extends(s.votes, t.votes)
    && s.timeouts <= t.timeouts
    && (forall h :: h in s.decided ==> h in t.decided && t.decided[h] == s.decided[h])
    && (if t.height == s.height
        then t.lastHeight == s.lastHeight && t.lastCommitRound == s.lastCommitRound && t.decided == s.decided
        else t.lastHeight == s.height && t.height == s.height + 1)
    && (forall o :: o in t.outputs && o.SignVote? && o !in s.outputs ==>
          o.height > s.height || (o.height == s.height && o.round >= s.round))
  }

  ghost predicate Keeps(c: Config, s: RoundState, t: RoundState) {
    Inv(c, t) && Advances(s, t) && t.votes == s.votes
  }

  // ----- how the signed votes are kept -----

  /** The lock is given up only for a polka at a later round than the lock. */
  ghost predicate LockMove(c: Config, s: RoundState, t: RoundState) {
    || s.lockedBlock.None?
    || (t.lockedBlock == s.lockedBlock && t.lockedRound >= s.lockedRound)
    || PolkaAgainst(c, t.votes, s.height, s.lockedRound, s.lockedBlock.value)
  }

  /** A step that signs no vote. */
  lemma QuietStep(c: Config, s: RoundState, t: RoundState)
    requires Signing(c, s)
    requires t.height == s.height && Before(s.height, s.round, s.step, t.height, t.round, t.step)
    requires forall o :: o in t.outputs && o.SignVote? ==> o in s.outputs
    requires Extends(s.votes, t.votes) && LockMove(c, s, t)
    ensures Signing(c, t)
  {
    PolkaAgainstGrows(c, s.votes, t.votes);
    assert PrecommitsHavePolka(c, t) by {
      forall o | o in t.outputs && o.SignVote? && o.kind == Precommit && o.value.Block?
        ensures IsMajority(c, t.votes, o.height, o.round, Prevote, o.value)
      {
        MajorityGrows(c, s.votes, t.votes, o.height, o.round, Prevote, o.value);
      }
    }
    assert LockHeld(c, t) by {
      forall o | o in t.outputs && o.SignVote? && o.kind == Precommit && o.value.Block? && o.height == s.height
                 && s.lockedBlock == Some(o.value.id) && s.lockedRound >= o.round
                 && PolkaAgainst(c, t.votes, s.height, s.lockedRound, o.value.id)
        ensures PolkaAgainst(c, t.votes, s.height, o.round, o.value.id)
      {
        var r, v :| r > s.lockedRound && v != Block(o.value.id) && IsMajority(c, t.votes, s.height, r, Prevote, v);
      }
    }
  }

  /** A step to a later height, which signs no vote. */
  lemma NextHeightStep(c: Config, s: RoundState, t: RoundState)
    requires Signing(c, s)
    requires t.height > s.height && t.outputs == s.outputs && t.votes == s.votes
    ensures Signing(c, t)
  {
  }

  function Signed(s: RoundState, k: VoteType, v: Value): RoundState {
    s.(outputs := s.outputs + [SignVote(s.height, s.round, k, v, s.round)], step := VoteStep(k))
  }

  /** A vote is signed when its step is entered, so no other vote of that step exists. */
  lemma SignedOnce(s: RoundState, k: VoteType, v: Value)
    requires VotesBehind(s) && NeverTwice(s) && s.step < VoteStep(k)
    ensures VotesBehind(Signed(s, k, v)) && NeverTwice(Signed(s, k, v))
  {
  }

  lemma SignedRespectsLock(c: Config, s: RoundState, k: VoteType, v: Value)
    requires VotesBehind(s) && LockHeld(c, s) && PrevotesRespectLock(c, s)
    requires k == Prevote && s.lockedBlock.Some? ==> v == Block(s.lockedBlock.value)
    ensures PrevotesRespectLock(c, Signed(s, k, v))
  {
  }

  /** Signing the prevote of the current round. */
  lemma PrevoteStep(c: Config, s: RoundState, v: Value)
    requires Signing(c, s) && s.step < PREVOTE
    requires s.lockedBlock.Some? ==> v == Block(s.lockedBlock.value)
    requires v.Block? ==> c.valid(s.height, v.id)
    ensures Signing(c, Signed(s, Prevote, v))
  {
    SignedOnce(s, Prevote, v);
    SignedRespectsLock(c, s, Prevote, v);
  }

  /** Signing the precommit of the current round. */
  lemma PrecommitStep(c: Config, s: RoundState, v: Value)
    requires Signing(c, s) && s.step < PRECOMMIT
    requires v.Block? ==> s.lockedBlock == Some(v.id) && s.lockedRound >= s.round
                          && IsMajority(c, s.votes, s.height, s.round, Prevote, v)
    ensures Signing(c, Signed(s, Precommit, v))
  {
    SignedOnce(s, Precommit, v);
    SignedRespectsLock(c, s, Precommit, v);
  }


  // ----- steps within one height -----

  /** t differs from s in the round, step, lock, proposal and outputs, and may have one more timeout. */
  ghost predicate Local(c: Config, s: RoundState, t: RoundState, ti: Timeout) {
    && t.height == s.height && t.lastHeight == s.lastHeight && t.lastCommitRound == s.lastCommitRound
    && t.votes == s.votes && t.decided == s.decided && t.commitRound == s.commitRound && t.halt == s.halt
    && Before(s.height, s.round, s.step, t.height, t.round, t.step)
    && Basic(c, t)
    && s.outputs <= t.outputs
    && (forall o :: o in t.outputs && o.SignVote? && o !in s.outputs ==> o.height == s.height && o.round >= s.round)
    && (t.timeouts == s.timeouts
        || (t.timeouts == s.timeouts + {ti} && ti.height == t.height && ti.round <= t.round
            && ti.step in {NEW_HEIGHT, NEW_ROUND, PROPOSE, PREVOTE_WAIT, PRECOMMIT_WAIT}))
  }

  lemma LocalKeepsFrame(c: Config, s: RoundState, t: RoundState, ti: Timeout)
    requires Frame(c, s) && Local(c, s, t, ti)
    ensures Frame(c, t) && Advances(s, t)
  {
    hide IsMajority, TwoThirdsMajority;
  }

  lemma Unmoved(c: Config, s: RoundState)
    requires Inv(c, s)
    ensures Basic(c, s) && Keeps(c, s, s)
  {
    hide Signing, IsMajority, TwoThirdsMajority;
  }

  lemma Transitive(c: Config, s: RoundState, t: RoundState, u: RoundState)
    requires Keeps(c, s, t) && Keeps(c, t, u) && (s.height == t.height || t.height == u.height)
    ensures Keeps(c, s, u)
  {
    hide Signing, Frame, IsMajority, TwoThirdsMajority;
  }

  /** A step within a height that signs no vote. */
  lemma LocalKeeps(c: Config, s: RoundState, t: RoundState, ti: Timeout)
    requires Inv(c, s) && Local(c, s, t, ti)
    requires forall o :: o in t.outputs && o.SignVote? ==> o in s.outputs
    requires LockMove(c, s, t)
    ensures Keeps(c, s, t)
  {
    LocalKeepsFrame(c, s, t, ti);
    QuietStep(c, s, t);
    hide Frame, Signing, IsMajority, TwoThirdsMajority;
  }

  // ----- the enter functions keep the invariant -----

  /** Stopping for an invalid block that two thirds voted for. */
  lemma Stop(c: Config, s: RoundState, reason: Halt, b: nat)
    requires Inv(c, s) && !c.valid(s.height, b)
    requires || (reason == InvalidPolka && exists r :: IsMajority(c, s.votes, s.height, r, Prevote, Block(b)))
             || (reason == InvalidCommit && exists r :: IsMajority(c, s.votes, s.height, r, Precommit, Block(b)))
    ensures Keeps(c, s, s.(halt := reason))
  {
    Unmoved(c, s);
    hide IsMajority, TwoThirdsMajority;
    QuietStep(c, s, s.(halt := reason));
    hide Signing, IsMajority, TwoThirdsMajority;
  }

  const NO_TIMEOUT := Timeout(0, 0, 0)

  lemma EnterPrevoteKeeps(c: Config, s: RoundState, height: int, round: int)
    requires Inv(c, s) && (height == s.height ==> round <= s.round)
    ensures Keeps(c, s, EnterPrevote(c, s, height, round)) && EnterPrevote(c, s, height, round).height == s.height
  {
    Unmoved(c, s);
    hide Frame, Signing, Advances, IsMajority, TwoThirdsMajority;
    if s.halt == Running && s.height == height && s.round == round && s.step < PREVOTE {
      var t := EnterPrevote(c, s, height, round);
      if IsValidator(c, s.height, c.me) {
        PrevoteStep(c, s, PrevoteValue(c, s));
        LocalKeepsFrame(c, s, t, NO_TIMEOUT);
      } else {
        LocalKeeps(c, s, t, NO_TIMEOUT);
      }
    }
  }

  lemma EnterProposeKeeps(c: Config, s: RoundState, height: int, round: int)
    requires Inv(c, s) && (height == s.height ==> round <= s.round)
    ensures Keeps(c, s, EnterPropose(c, s, height, round)) && EnterPropose(c, s, height, round).height == s.height
  {
    Unmoved(c, s);
    hide Frame, Signing, Advances, IsMajority, TwoThirdsMajority;
    if s.halt == Running && s.height == height && s.round == round && s.step < PROPOSE {
      var u := BeginPropose(c, s, height, round);
      LocalKeeps(c, s, u, Timeout(height, round, PROPOSE));
      EnterPrevoteKeeps(c, u, height, u.round);
      Transitive(c, s, u, EnterPrevote(c, u, height, u.round));
    }
  }

  lemma EnterNewRoundKeeps(c: Config, s: RoundState, height: int, round: int)
    requires Inv(c, s)
    ensures Keeps(c, s, EnterNewRound(c, s, height, round)) && EnterNewRound(c, s, height, round).height == s.height
    ensures s.halt == Running && height == s.height ==> round <= EnterNewRound(c, s, height, round).round
  {
    Unmoved(c, s);
    hide Frame, Signing, Advances, IsMajority, TwoThirdsMajority;
    if s.halt == Running && s.height == height && (s.round < round || (s.round == round && s.step == NEW_HEIGHT)) {
      var u := BeginRound(s, round);
      LocalKeeps(c, s, u, NO_TIMEOUT);
      LocalKeeps(c, s, Schedule(u, height, round, NEW_ROUND), Timeout(height, round, NEW_ROUND));
      EnterProposeKeeps(c, u, height, round);
      Transitive(c, s, u, EnterPropose(c, u, height, round));
    }
  }

  lemma EnterPrevoteWaitKeeps(c: Config, s: RoundState, height: int, round: int)
    requires Inv(c, s) && (height == s.height ==> round <= s.round)
    requires HasTwoThirdsAny(c, s.votes, s.height, round, Prevote)
    ensures Keeps(c, s, EnterPrevoteWait(c, s, height, round))
  {
    Unmoved(c, s);
    hide Frame, Signing, Advances, HasTwoThirdsAny, IsMajority, TwoThirdsMajority;
    LocalKeeps(c, s, EnterPrevoteWait(c, s, height, round), Timeout(height, round, PREVOTE_WAIT));
  }

  lemma EnterPrecommitWaitKeeps(c: Config, s: RoundState, height: int, round: int)
    requires Inv(c, s) && (s.halt == Running && height == s.height ==> round <= s.round)
    requires HasTwoThirdsAny(c, s.votes, s.height, round, Precommit)
    ensures Keeps(c, s, EnterPrecommitWait(c, s, height, round))
  {
    Unmoved(c, s);
    hide Frame, Signing, Advances, HasTwoThirdsAny, IsMajority, TwoThirdsMajority;
    LocalKeeps(c, s, EnterPrecommitWait(c, s, height, round), Timeout(height, round, PRECOMMIT_WAIT));
  }

  /** Moving the lock and the block being fetched, then signing the precommit. */
  lemma PrecommitKeeps(c: Config, s: RoundState, t: RoundState, v: Value)
    requires Inv(c, s) && s.step < PRECOMMIT && t.step == PRECOMMIT && t.round == s.round
    requires Local(c, s, t, NO_TIMEOUT) && t.outputs == WithVote(c, s, Precommit, v, s.round)
    requires LockMove(c, s, t)
    requires v.Block? ==> t.lockedBlock == Some(v.id) && t.lockedRound >= t.round
                          && IsMajority(c, t.votes, t.height, t.round, Prevote, v)
    ensures Keeps(c, s, t)
  {
    if IsValidator(c, s.height, c.me) {
      var u := t.(outputs := s.outputs, step := s.step);
      QuietStep(c, s, u);
      PrecommitStep(c, u, v);
      LocalKeepsFrame(c, s, t, NO_TIMEOUT);
    } else {
      LocalKeeps(c, s, t, NO_TIMEOUT);
    }
    hide Frame, Signing, Advances, IsMajority, TwoThirdsMajority;
  }

  lemma LaterPolka(c: Config, s: RoundState, t: RoundState, r: int, v: Value)
    requires s.lockedRound < r && IsMajority(c, t.votes, s.height, r, Prevote, v)
    requires s.lockedBlock.Some? ==> v != Block(s.lockedBlock.value)
    ensures LockMove(c, s, t)
  {
  }

  /** The lock moves only for a polka of this round, and a block is precommitted only with one. */
  lemma DecisionJustified(c: Config, s: RoundState, t: RoundState, polka: Option<Value>)
    requires Basic(c, s) && s.step < PRECOMMIT
    requires polka == TwoThirdsMajority(c, s.votes, s.height, s.round, Prevote)
    requires var d := Decide(s, s.round, polka);
             t.votes == s.votes && t.lockedRound == d.lockedRound && t.lockedBlock == d.lockedBlock
    ensures LockMove(c, s, t)
  {
    hide IsMajority, TwoThirdsMajority;
    if polka.Some? && s.lockedBlock.Some? && polka.value != Block(s.lockedBlock.value) {
      LaterPolka(c, s, t, s.round, polka.value);
    }
  }

  /** POLInfo finds the round of any polka that is tracked. */
  lemma {:induction false} PolRoundFinds(c: Config, votes: VoteBook, h: int, r: int, top: int)
    requires 0 <= r <= top && TwoThirdsMajority(c, votes, h, r, Prevote).Some?
    ensures PolRound(c, votes, h, top) >= r
    decreases top
  {
    hide TwoThirdsMajority;
    if r < top {
      PolRoundFinds(c, votes, h, r, top - 1);
    }
  }

  lemma PolkaIsRecent(c: Config, s: RoundState, polka: Option<Value>)
    requires Basic(c, s) && polka == TwoThirdsMajority(c, s.votes, s.height, s.round, Prevote)
    requires s.step == NEW_HEIGHT ==> s.round == 0
    ensures !PolkaIsOld(c, s, s.round, polka)
  {
    hide TwoThirdsMajority, PolRound;
    if polka.Some? {
      PolRoundFinds(c, s.votes, s.height, s.round, TrackedRound(s));
    }
  }

  lemma DecisionLocal(c: Config, s: RoundState, t: RoundState, polka: Option<Value>)
    requires Basic(c, s) && s.halt == Running && s.step < PRECOMMIT
    requires polka == TwoThirdsMajority(c, s.votes, s.height, s.round, Prevote)
    requires !PolkaIsOld(c, s, s.round, polka) && !PolkaInvalid(c, s, polka)
    requires t == EnterPrecommit(c, s, s.height, s.round)
    ensures Local(c, s, t, NO_TIMEOUT)
  {
    hide IsMajority, TwoThirdsMajority;
  }

  lemma EnterPrecommitKeeps(c: Config, s: RoundState, height: int, round: int)
    requires Inv(c, s) && (height == s.height ==> round <= s.round)
    ensures Keeps(c, s, EnterPrecommit(c, s, height, round)) && EnterPrecommit(c, s, height, round).height == s.height
  {
    Unmoved(c, s);
    if s.halt == Running && s.height == height && s.round == round && s.step < PRECOMMIT {
      var polka := TwoThirdsMajority(c, s.votes, s.height, round, Prevote);
      var t := EnterPrecommit(c, s, height, round);
      PolkaIsRecent(c, s, polka);
      hide PolkaIsOld;
      if PolkaInvalid(c, s, polka) {
        SameLock(c, s, s.(step := PRECOMMIT));
        LocalKeeps(c, s, s.(step := PRECOMMIT), NO_TIMEOUT);
        Stop(c, s.(step := PRECOMMIT), InvalidPolka, polka.value.id);
      } else {
        DecisionLocal(c, s, t, polka);
        hide Local;
        DecisionJustified(c, s, t, polka);
        PrecommitKeeps(c, s, t, Decide(s, round, polka).value);
      }
    }
    hide Frame, Signing, Advances, IsMajority, TwoThirdsMajority, LockMove, Basic;
  }

  lemma SameLock(c: Config, s: RoundState, t: RoundState)
    requires t.lockedBlock == s.lockedBlock && t.lockedRound == s.lockedRound
    ensures LockMove(c, s, t)
  {
  }

  // ----- committing -----

  lemma CommitRoundKeeps(c: Config, s: RoundState, b: nat, commitRound: int)
    requires Inv(c, s) && s.step < COMMIT && commitRound > -1
    requires IsMajority(c, s.votes, s.height, commitRound, Precommit, Block(b))
    ensures Keeps(c, s, s.(step := COMMIT, commitRound := commitRound))
  {
    var t := s.(step := COMMIT, commitRound := commitRound);
    SameLock(c, s, t);
    QuietStep(c, s, t);
    hide Signing, IsMajority;
  }

  /** enterCommit before it tries to finalize. */
  lemma StageCommitKeeps(c: Config, s: RoundState, b: nat, commitRound: int)
    requires Inv(c, s) && s.step < COMMIT && commitRound > -1
    requires IsMajority(c, s.votes, s.height, commitRound, Precommit, Block(b))
    ensures Keeps(c, s, StageCommit(s, b).(step := COMMIT, commitRound := commitRound))
  {
    Unmoved(c, s);
    var u := StageCommit(s, b);
    SameLock(c, s, u);
    LocalKeeps(c, s, u, NO_TIMEOUT);
    CommitRoundKeeps(c, u, b, commitRound);
    Transitive(c, s, u, u.(step := COMMIT, commitRound := commitRound));
    hide Signing, Frame, Advances, IsMajority, LockMove;
  }

  /** The new height starts with nothing signed, nothing locked and the decided block on record. */
  lemma NextHeightKeeps(c: Config, s: RoundState, b: nat)
    requires Inv(c, s) && s.halt == Running
    requires s.commitRound > -1 && IsMajority(c, s.votes, s.height, s.commitRound, Precommit, Block(b))
    ensures var u := s.(decided := s.decided[s.height := b], lastCommitRound := s.commitRound);
            var t := FreshHeight(c, u, s.height);
            Keeps(c, s, Schedule(t, t.height, 0, NEW_HEIGHT))
  {
    var u := s.(decided := s.decided[s.height := b], lastCommitRound := s.commitRound);
    var t := FreshHeight(c, u, s.height);
    t := Schedule(t, t.height, 0, NEW_HEIGHT);
    NextHeightStep(c, s, t);
    hide Signing, IsMajority;
  }

  lemma FinalizeCommitKeeps(c: Config, s: RoundState, height: int)
    requires Inv(c, s) && s.height == height && s.step == COMMIT && s.halt == Running && s.proposalBlock.Some?
    requires IsMajority(c, s.votes, height, s.commitRound, Precommit, Block(s.proposalBlock.value))
    ensures Keeps(c, s, FinalizeCommit(c, s, height))
  {
    Unmoved(c, s);
    var b := s.proposalBlock.value;
    if !c.valid(height, b) {
      Stop(c, s, InvalidCommit, b);
    } else {
      NextHeightKeeps(c, s, b);
    }
    hide Signing, IsMajority, TwoThirdsMajority, Advances;
  }

  lemma TryFinalizeCommitKeeps(c: Config, s: RoundState, height: int)
    requires Inv(c, s) && s.height == height && s.step == COMMIT && s.halt == Running
    ensures Keeps(c, s, TryFinalizeCommit(c, s, height))
  {
    Unmoved(c, s);
    hide Signing, Frame, Advances, IsMajority, TwoThirdsMajority;
    var majority := TwoThirdsMajority(c, s.votes, s.height, s.commitRound, Precommit);
    if majority.Some? && majority.value.Block? && s.proposalBlock == Some(majority.value.id) {
      FinalizeCommitKeeps(c, s, height);
    }
  }

  lemma EnterCommitKeeps(c: Config, s: RoundState, height: int, commitRound: int)
    requires Inv(c, s) && commitRound > -1
    requires height == s.height ==> exists b :: IsMajority(c, s.votes, height, commitRound, Precommit, Block(b))
    ensures Keeps(c, s, EnterCommit(c, s, height, commitRound))
  {
    Unmoved(c, s);
    hide Signing, Frame, Advances, IsMajority, TwoThirdsMajority;
    if s.halt == Running && s.height == height && s.step < COMMIT {
      var b :| IsMajority(c, s.votes, height, commitRound, Precommit, Block(b));
      var t := StageCommit(s, b).(step := COMMIT, commitRound := commitRound);
      StageCommitKeeps(c, s, b, commitRound);
      TryFinalizeCommitKeeps(c, t, height);
      Transitive(c, s, t, TryFinalizeCommit(c, t, height));
    }
  }

  // ----- the handlers keep the invariant -----

  /** The messages that pass the reactor's ValidateBasic, and timeouts that are not ahead, as all scheduled ones. */
  predicate ValidEvent(c: Config, s: RoundState, e: Event) {
    match e
    case VoteMessage(v) => v.height >= 1 && v.round >= 0
    case Tock(ti) => NotAhead(s, ti)
    case TxsAvailable => c.waitForTxs
    case _ => true
  }

  lemma SetProposalKeeps(c: Config, s: RoundState, p: Proposal)
    requires Inv(c, s) && s.halt == Running
    ensures Keeps(c, s, SetProposal(c, s, p))
  {
    Unmoved(c, s);
    hide Frame, Signing, Advances;
    LocalKeeps(c, s, SetProposal(c, s, p), NO_TIMEOUT);
  }

  lemma AddLastPartKeeps(c: Config, s: RoundState, height: int, b: nat)
    requires Inv(c, s) && s.halt == Running
    ensures Keeps(c, s, AddLastPart(c, s, height, b))
  {
    Unmoved(c, s);
    hide Frame, Signing, Advances;
    if s.height == height && s.proposalParts == Some(b) && s.proposalBlock.None? {
      var u := s.(proposalBlock := Some(b));
      LocalKeeps(c, s, u, NO_TIMEOUT);
      HandleCompleteProposalKeeps(c, u, height);
      Transitive(c, s, u, HandleCompleteProposal(c, u, height));
    }
  }

  lemma HandleCompleteProposalKeeps(c: Config, s: RoundState, height: int)
    requires Inv(c, s) && s.halt == Running && s.height == height
    ensures Keeps(c, s, HandleCompleteProposal(c, s, height))
  {
    Unmoved(c, s);
    hide Frame, Signing, Advances, IsMajority, TwoThirdsMajority, IsProposalComplete;
    var polka := TwoThirdsMajority(c, s.votes, s.height, s.round, Prevote);
    var u := MarkValid(s, polka);
    LocalKeeps(c, s, u, NO_TIMEOUT);
    hide EnterPrevote, EnterPrecommit, TryFinalizeCommit, Local;
    if u.step <= PROPOSE && IsProposalComplete(c, u) {
      var v := EnterPrevote(c, u, height, u.round);
      EnterPrevoteKeeps(c, u, height, u.round);
      Transitive(c, s, u, v);
      EnterPrecommitKeeps(c, v, height, v.round);
      Transitive(c, s, v, EnterPrecommit(c, v, height, v.round));
    } else if u.step == COMMIT {
      TryFinalizeCommitKeeps(c, u, height);
      Transitive(c, s, u, TryFinalizeCommit(c, u, height));
    }
  }

  lemma PrecommitWaitOverKeeps(c: Config, s: RoundState, height: int, round: int)
    requires Inv(c, s) && (height == s.height ==> round <= s.round)
    ensures Keeps(c, s, EnterNewRound(c, EnterPrecommit(c, s, height, round), height, round + 1))
  {
    var u := EnterPrecommit(c, s, height, round);
    EnterPrecommitKeeps(c, s, height, round);
    EnterNewRoundKeeps(c, u, height, round + 1);
    Transitive(c, s, u, EnterNewRound(c, u, height, round + 1));
    hide *;
  }

  lemma HandleTimeoutKeeps(c: Config, s: RoundState, ti: Timeout)
    requires Inv(c, s) && NotAhead(s, ti) && s.halt == Running
    ensures Keeps(c, s, HandleTimeout(c, s, ti))
  {
    Unmoved(c, s);
    hide Keeps, Inv, Basic, EnterNewRound, EnterPropose, EnterPrevote, EnterPrecommit;
    EnterNewRoundKeeps(c, s, ti.height, 0);
    EnterProposeKeeps(c, s, ti.height, ti.round);
    EnterPrevoteKeeps(c, s, ti.height, ti.round);
    EnterPrecommitKeeps(c, s, ti.height, ti.round);
    PrecommitWaitOverKeeps(c, s, ti.height, ti.round);
  }

  lemma ScheduledIsNotAhead(c: Config, s: RoundState, ti: Timeout)
    requires Inv(c, s) && ti in s.timeouts
    ensures NotAhead(s, ti)
  {
    hide Signing;
  }

  lemma HandleTxsAvailableKeeps(c: Config, s: RoundState)
    requires Inv(c, s) && s.halt == Running
    ensures Keeps(c, s, HandleTxsAvailable(c, s))
  {
    Unmoved(c, s);
    hide Frame, Signing, Advances, EnterPropose;
    LocalKeeps(c, s, Schedule(s, s.height, 0, NEW_ROUND), Timeout(s.height, 0, NEW_ROUND));
    EnterProposeKeeps(c, s, s.height, 0);
  }

  lemma MajorityIsAny(c: Config, votes: VoteBook, h: int, r: int, k: VoteType, v: Value)
    requires IsMajority(c, votes, h, r, k, v)
    ensures HasTwoThirdsAny(c, votes, h, r, k)
  {
    TallyMonotone(c.powers(h), Voters(c, votes, h, r, k, v), AnyVoters(c, votes, h, r, k));
  }

  lemma KeepsVotes(c: Config, s: RoundState, t: RoundState)
    requires Keeps(c, s, t)
    ensures Inv(c, t) && s.votes == t.votes
  {
    hide Inv;
  }

  lemma CountVoteKeeps(c: Config, s: RoundState, v: Vote)
    requires Inv(c, s) && IsNewVote(c, s, v) && v.height <= s.height && s.halt == Running
    ensures Inv(c, CountVote(s, v))
  {
    var t := CountVote(s, v);
    SameLock(c, s, t);
    QuietStep(c, s, t);
    CountVoteFrame(c, s, v);
    hide Frame, Signing;
  }

  /** Counting a new vote and then moving on without further votes. */
  lemma AfterCounting(c: Config, s: RoundState, v: Vote, t: RoundState)
    requires IsNewVote(c, s, v) && Keeps(c, CountVote(s, v), t)
    ensures Inv(c, t) && Advances(s, t) && t.votes == CountVote(s, v).votes
  {
    hide Inv;
  }

  lemma CountVoteFrame(c: Config, s: RoundState, v: Vote)
    requires Frame(c, s) && IsNewVote(c, s, v) && v.height <= s.height && s.halt == Running
    ensures Frame(c, CountVote(s, v))
  {
    var t := CountVote(s, v);
    hide IsMajority, IsValidator;
    forall h, r, k, w | IsMajority(c, s.votes, h, r, k, w) ensures IsMajority(c, t.votes, h, r, k, w) {
      MajorityGrows(c, s.votes, t.votes, h, r, k, w);
    }
  }

  lemma OnPolkaKeeps(c: Config, s: RoundState, r: int, polka: Value)
    requires Inv(c, s) && s.halt == Running && IsMajority(c, s.votes, s.height, r, Prevote, polka)
    ensures Keeps(c, s, OnPolka(s, r, polka)) && OnPolka(s, r, polka).height == s.height
  {
    Unmoved(c, s);
    var t := OnPolka(s, r, polka);
    if Unlocks(s, r, polka) {
      LaterPolka(c, s, t, r, polka);
    } else {
      SameLock(c, s, t);
    }
    LocalKeeps(c, s, t, NO_TIMEOUT);
    hide Frame, Signing, Advances, LockMove, IsMajority;
  }

  lemma OnPrevoteKeeps(c: Config, s: RoundState, r: int)
    requires Inv(c, s) && s.halt == Running
    ensures Keeps(c, s, OnPrevote(c, s, r))
  {
    Unmoved(c, s);
    var polka := TwoThirdsMajority(c, s.votes, s.height, r, Prevote);
    var t := if polka.Some? then OnPolka(s, r, polka.value) else s;
    if polka.Some? {
      OnPolkaKeeps(c, s, r, polka.value);
    }
    PolkaReactionKeeps(c, t, r, polka);
    Transitive(c, s, t, PolkaReaction(c, t, r, polka));
    hide Keeps, Inv, Basic, IsMajority, TwoThirdsMajority, PolkaReaction;
  }

  lemma PolkaReactionKeeps(c: Config, s: RoundState, r: int, polka: Option<Value>)
    requires Inv(c, s)
    ensures Keeps(c, s, PolkaReaction(c, s, r, polka))
  {
    Unmoved(c, s);
    hide Keeps, Inv, Basic, EnterNewRound, EnterPrevote, EnterPrevoteWait, EnterPrecommit, HasTwoThirdsAny, TwoThirdsMajority;
    if s.round < r {
      EnterNewRoundKeeps(c, s, s.height, r);
    } else {
      EnterPrecommitKeeps(c, s, s.height, r);
      if HasTwoThirdsAny(c, s.votes, s.height, r, Prevote) {
        EnterPrevoteWaitKeeps(c, s, s.height, r);
      }
    }
    EnterPrevoteKeeps(c, s, s.height, s.round);
  }

  lemma OnPrecommitKeeps(c: Config, s: RoundState, r: int)
    requires Inv(c, s) && s.halt == Running && r >= 0
    ensures Keeps(c, s, OnPrecommit(c, s, r))
  {
    Unmoved(c, s);
    hide Keeps, Inv, Basic, EnterNewRound, EnterPrecommit, EnterCommit, EnterPrecommitWait,
      HasTwoThirdsAny, HasAll, IsMajority, TwoThirdsMajority;
    var h := s.height;
    var majority := TwoThirdsMajority(c, s.votes, h, r, Precommit);
    if majority.Some? {
      MajorityIsAny(c, s.votes, h, r, Precommit, majority.value);
    }
    if HasTwoThirdsAny(c, s.votes, h, r, Precommit) {
      var u := EnterNewRound(c, s, h, r);
      EnterNewRoundKeeps(c, s, h, r);
      KeepsVotes(c, s, u);
      if majority.None? {
        EnterPrecommitWaitKeeps(c, u, h, r);
        Transitive(c, s, u, EnterPrecommitWait(c, u, h, r));
      } else {
        EnterPrecommitKeeps(c, u, h, r);
        Transitive(c, s, u, EnterPrecommit(c, u, h, r));
        PrecommitMajorityKeeps(c, s, EnterPrecommit(c, u, h, r), r, majority.value);
      }
    }
  }

  /** The rest of OnPrecommit, once the state t is in the round of the majority. */
  lemma PrecommitMajorityKeeps(c: Config, s: RoundState, t: RoundState, r: int, v: Value)
    requires Keeps(c, s, t) && t.height == s.height && r >= 0 && (t.halt == Running ==> r <= t.round)
    requires IsMajority(c, s.votes, s.height, r, Precommit, v)
    ensures Keeps(c, s, if v.Nil? then EnterPrecommitWait(c, t, t.height, r) else EnterCommit(c, t, t.height, r))
    ensures v.Block? ==>
              var u := EnterCommit(c, t, t.height, r);
              Keeps(c, s, EnterNewRound(c, u, u.height, 0))
  {
    KeepsVotes(c, s, t);
    hide Keeps, Inv, EnterCommit, EnterPrecommitWait, IsMajority, EnterNewRound;
    if v.Nil? {
      MajorityIsAny(c, t.votes, t.height, r, Precommit, v);
      EnterPrecommitWaitKeeps(c, t, t.height, r);
      Transitive(c, s, t, EnterPrecommitWait(c, t, t.height, r));
    } else {
      var u := EnterCommit(c, t, t.height, r);
      EnterCommitKeeps(c, t, t.height, r);
      Transitive(c, s, t, u);
      KeepsVotes(c, s, u);
      EnterNewRoundKeeps(c, u, u.height, 0);
      Transitive(c, s, u, EnterNewRound(c, u, u.height, 0));
    }
  }

  /** What handling a vote does: at most that vote is counted. */
  ghost predicate KeepsWithVote(c: Config, s: RoundState, t: RoundState, v: Vote) {
    Inv(c, t) && Advances(s, t) && (t.votes == s.votes || t.votes == CountVote(s, v).votes)
  }

  /** A precommit of the previous height, which is counted while waiting for the next one. */
  lemma LastCommitVoteKeeps(c: Config, s: RoundState, v: Vote)
    requires Inv(c, s) && s.halt == Running && v.height + 1 == s.height && v.height >= 1 && v.kind == Precommit
    ensures KeepsWithVote(c, s, AddVote(c, s, v), v)
  {
    Unmoved(c, s);
    if s.step == NEW_HEIGHT && s.lastHeight == 0 {
      NoLastCommitKeeps(c, s);
    } else if s.step == NEW_HEIGHT && v.round == s.lastCommitRound && IsNewVote(c, s, v) {
      var u := CountVote(s, v);
      CountVoteKeeps(c, s, v);
      Unmoved(c, u);
      AfterCounting(c, s, v, u);
      EnterNewRoundKeeps(c, u, u.height, 0);
      AfterCounting(c, s, v, EnterNewRound(c, u, u.height, 0));
    }
    hide Inv, Advances, Basic, EnterNewRound, HasAll, IsNewVote;
  }

  lemma NoLastCommitKeeps(c: Config, s: RoundState)
    requires Inv(c, s) && s.halt == Running && s.lastHeight == 0 && s.height >= 2
    ensures Keeps(c, s, s.(halt := NilLastCommit))
  {
    var t := s.(halt := NilLastCommit);
    SameLock(c, s, t);
    QuietStep(c, s, t);
    hide Signing, IsMajority;
  }

  lemma AddVoteKeeps(c: Config, s: RoundState, v: Vote)
    requires Inv(c, s) && s.halt == Running && v.height >= 1 && v.round >= 0
    ensures KeepsWithVote(c, s, AddVote(c, s, v), v)
  {
    Unmoved(c, s);
    if v.height + 1 == s.height && v.kind == Precommit {
      LastCommitVoteKeeps(c, s, v);
    } else if v.height == s.height && IsNewVote(c, s, v) {
      var u := CountVote(s, v);
      CountVoteKeeps(c, s, v);
      if v.kind == Prevote {
        OnPrevoteKeeps(c, u, v.round);
      } else {
        OnPrecommitKeeps(c, u, v.round);
      }
      AfterCounting(c, s, v, AddVote(c, s, v));
    }
    hide Inv, Advances, Basic, IsNewVote, OnPrevote, OnPrecommit;
  }

  /** One turn of the receive routine keeps the invariant, never goes back, and counts at most the vote it is given. */
  lemma HandleKeeps(c: Config, s: RoundState, e: Event)
    requires Inv(c, s) && ValidEvent(c, s, e)
    ensures Inv(c, Handle(c, s, e)) && Advances(s, Handle(c, s, e))
    ensures || Handle(c, s, e).votes == s.votes
            || (e.VoteMessage? && Handle(c, s, e).votes == CountVote(s, e.vote).votes)
  {
    Unmoved(c, s);
    if s.halt == Running {
      match e {
        case VoteMessage(v) => AddVoteKeeps(c, s, v);
        case ProposalMessage(p) => SetProposalKeeps(c, s, p);
        case LastBlockPart(h, b) => AddLastPartKeeps(c, s, h, b);
        case Tock(ti) => HandleTimeoutKeeps(c, s, ti);
        case TxsAvailable => HandleTxsAvailableKeeps(c, s);
      }
    }
    hide Inv, Basic, Advances, AddVote, SetProposal, AddLastPart, HandleTimeout, HandleTxsAvailable;
  }

  lemma GenesisHolds(c: Config)
    requires c.initialHeight >= 1
    ensures Inv(c, Genesis(c))
  {
  }

  // ----- where a commit lands -----

  /** What a restart at this height loads: no proposal, lock, valid block or vote of the height. */
  ghost predicate Fresh(s: RoundState) {
    && s.round == 0 && s.step == NEW_HEIGHT && s.commitRound == -1 && !s.triggeredPrecommitWait
    && s.proposal.None? && s.proposalBlock.None? && s.proposalParts.None?
    && s.lockedRound == -1 && s.lockedBlock.None? && s.validRound == -1 && s.validBlock.None?
    && (forall k :: k in s.votes ==> k.height != s.height)
    && (forall o :: o in s.outputs && o.SignVote? ==> o.height != s.height)
  }

  /** The precommits kept of the last height justify its block. */
  ghost predicate HasLastCommit(c: Config, s: RoundState) {
    s.lastHeight > 0 ==> exists b :: IsMajority(c, s.votes, s.lastHeight, s.lastCommitRound, Precommit, Block(b))
  }

  /** The votes apart from those that the last commit holds: a record, which no handler reads any more. */
  function Record(s: RoundState): VoteBook {
    map k | k in s.votes && !IsPrecommitOf(s.lastHeight, s.lastCommitRound, k) :: s.votes[k]
  }

  /**
   * The state that the stores restore at the start of the height. The last commit is the one that was
   * saved with the block, in which a precommit for another block counts as absent.
   */
  function HeightStart(c: Config, s: RoundState): RoundState {
    s.(step := NEW_HEIGHT, votes := Record(s) + SeenCommit(c, s.votes, s.lastHeight, s.lastCommitRound))
  }

  /** Where a commit leads: the start of a height, or its round 0 if the commit timeout is skipped. */
  ghost predicate Landed(c: Config, s: RoundState) {
    && Fresh(s.(step := NEW_HEIGHT)) && HasLastCommit(c, s)
    && (|| s.step == NEW_HEIGHT
        || (c.skipTimeoutCommit && (s.step == PROPOSE || (c.waitForTxs && s.step == NEW_ROUND))))
  }

  lemma CommitLandsFresh(c: Config, s: RoundState, height: int, commitRound: int)
    requires Inv(c, s) && commitRound > -1
    requires height == s.height ==> exists b :: IsMajority(c, s.votes, height, commitRound, Precommit, Block(b))
    ensures var t := EnterCommit(c, s, height, commitRound);
            t.height == s.height || (Fresh(t) && HasLastCommit(c, t))
  {
    Unmoved(c, s);
    hide Signing, Frame, Advances, HasLastCommit, IsMajority, TwoThirdsMajority, FinalizeCommit;
    if s.halt == Running && s.height == height && s.step < COMMIT {
      var b :| IsMajority(c, s.votes, height, commitRound, Precommit, Block(b));
      StageCommitKeeps(c, s, b, commitRound);
      FinalizeLandsFresh(c, StageCommit(s, b).(step := COMMIT, commitRound := commitRound), height);
    }
  }

  /** No vote is counted or signed for a height above the current one. */
  ghost predicate NothingAbove(s: RoundState) {
    && s.height >= 1
    && (forall k :: k in s.votes ==> k.height <= s.height)
    && (forall o :: o in s.outputs && o.SignVote? ==> o.height <= s.height)
  }

  lemma RunIsNotAbove(c: Config, s: RoundState)
    requires Inv(c, s)
    ensures NothingAbove(s)
  {
    assert VotesBehind(s);
  }

  /** Moving to the next height touches neither votes, signatures nor decisions, and starts it afresh. */
  lemma UpdateLandsFresh(c: Config, s: RoundState, last: int)
    requires NothingAbove(s)
    ensures var t := UpdateToState(c, s, last);
            && t.outputs == s.outputs && t.votes == s.votes && t.decided == s.decided
            && (|| t.height == s.height
                || (&& Fresh(t) && t.height == s.height + 1 && t.lastHeight == last == s.height
                    && t.lastCommitRound == s.commitRound))
  {
    hide IsMajority, TwoThirdsMajority;
  }

  lemma ScheduledIsFresh(s: RoundState, h: int, r: int, step: int)
    requires Fresh(s)
    ensures Fresh(Schedule(s, h, r, step))
  {
  }

  lemma FinalizeLandsFresh(c: Config, s: RoundState, height: int)
    requires Inv(c, s)
    ensures var t := FinalizeCommit(c, s, height);
            t.height == s.height || (t.height == s.height + 1 && Fresh(t) && HasLastCommit(c, t))
  {
    RunIsNotAbove(c, s);
    var m := TwoThirdsMajority(c, s.votes, s.height, s.commitRound, Precommit);
    hide Inv, IsMajority, TwoThirdsMajority;
    if m.Some? && m.value.Block? {
      var u := Stored(s, height, m.value.id);
      UpdateLandsFresh(c, u, height);
      var t := UpdateToState(c, u, height);
      if t.height != s.height {
        ScheduledIsFresh(t, t.height, 0, NEW_HEIGHT);
      }
      hide UpdateToState, Fresh, NothingAbove;
      assert t.height != s.height ==> IsMajority(c, t.votes, t.lastHeight, t.lastCommitRound, Precommit, Block(m.value.id));
    }
  }

  /** Entering round 0 right after a commit signs no vote. */
  lemma NewRoundLands(c: Config, s: RoundState)
    requires Fresh(s) && HasLastCommit(c, s) && c.skipTimeoutCommit
    ensures Landed(c, EnterNewRound(c, s, s.height, 0)) && EnterNewRound(c, s, s.height, 0).height == s.height
  {
    hide TwoThirdsMajority, IsMajority, EnterPrevote, IsValidator;
  }

  lemma RoundsKeepHeight(c: Config, s: RoundState, height: int, round: int)
    ensures EnterPrevote(c, s, height, round).height == s.height
    ensures EnterPrevoteWait(c, s, height, round).height == s.height
    ensures EnterPrecommit(c, s, height, round).height == s.height
    ensures EnterPrecommitWait(c, s, height, round).height == s.height
  {
    hide IsMajority, TwoThirdsMajority, HasTwoThirdsAny;
  }

  lemma NewRoundKeepsHeight(c: Config, s: RoundState, height: int, round: int)
    ensures EnterPropose(c, s, height, round).height == s.height
    ensures EnterNewRound(c, s, height, round).height == s.height
  {
    forall s ensures EnterPropose(c, s, height, round).height == s.height {
      var u := BeginPropose(c, s, height, round);
      RoundsKeepHeight(c, u, height, u.round);
      hide EnterPrevote, IsProposalComplete, IsValidator;
    }
    hide EnterPropose;
  }

  lemma PrevoteKeepsHeight(c: Config, s: RoundState, r: int)
    ensures OnPrevote(c, s, r).height == s.height
  {
    hide IsMajority, TwoThirdsMajority, IsProposalComplete, HasTwoThirdsAny, EnterNewRound, EnterPrevote, EnterPrevoteWait,
      EnterPrecommit;
    var polka := TwoThirdsMajority(c, s.votes, s.height, r, Prevote);
    var t := if polka.Some? then OnPolka(s, r, polka.value) else s;
    assert t.height == s.height;
    NewRoundKeepsHeight(c, t, t.height, r);
    RoundsKeepHeight(c, t, t.height, r);
    RoundsKeepHeight(c, t, t.height, t.round);
  }

  lemma TimeoutKeepsHeight(c: Config, s: RoundState, ti: Timeout)
    ensures HandleTimeout(c, s, ti).height == s.height
  {
    hide EnterNewRound, EnterPropose, EnterPrevote, EnterPrecommit;
    NewRoundKeepsHeight(c, s, ti.height, 0);
    NewRoundKeepsHeight(c, s, ti.height, ti.round);
    RoundsKeepHeight(c, s, ti.height, ti.round);
    NewRoundKeepsHeight(c, EnterPrecommit(c, s, ti.height, ti.round), ti.height, ti.round + 1);
  }

  lemma PrecommitLands(c: Config, s: RoundState, r: int)
    requires Inv(c, s) && s.halt == Running && r >= 0
    ensures OnPrecommit(c, s, r).height == s.height || Landed(c, OnPrecommit(c, s, r))
  {
    hide Fresh, HasLastCommit, Keeps, Inv, EnterNewRound, EnterPrecommit, EnterCommit, EnterPrecommitWait, HasTwoThirdsAny, HasAll,
      IsMajority, TwoThirdsMajority;
    var h := s.height;
    var u := EnterNewRound(c, s, h, r);
    var t := EnterPrecommit(c, u, h, r);
    EnterNewRoundKeeps(c, s, h, r);
    KeepsVotes(c, s, u);
    EnterPrecommitKeeps(c, u, h, r);
    KeepsVotes(c, u, t);
    RoundsKeepHeight(c, u, h, r);
    RoundsKeepHeight(c, t, h, r);
    var majority := TwoThirdsMajority(c, s.votes, h, r, Precommit);
    if majority.Some? && majority.value.Block? {
      assert IsMajority(c, t.votes, h, r, Precommit, majority.value);
      CommitLandsFresh(c, t, h, r);
      var f := EnterCommit(c, t, h, r);
      NewRoundKeepsHeight(c, f, f.height, 0);
      if f.height != h {
        FreshIsLanded(c, f);
        if c.skipTimeoutCommit { NewRoundLands(c, f); }
      }
    }
    hide Landed;
  }

  lemma FreshIsLanded(c: Config, s: RoundState)
    requires Fresh(s) && HasLastCommit(c, s)
    ensures Landed(c, s)
  {
    assert s.(step := NEW_HEIGHT) == s;
  }

  lemma ProposalLandsFresh(c: Config, s: RoundState, height: int)
    requires Inv(c, s) && s.height == height
    ensures var t := HandleCompleteProposal(c, s, height);
            t.height == s.height || (Fresh(t) && HasLastCommit(c, t))
  {
    Unmoved(c, s);
    hide Frame, Signing, Advances, Fresh, HasLastCommit, EnterPrevote, EnterPrecommit, FinalizeCommit, IsProposalComplete, IsMajority, TwoThirdsMajority;
    var polka := TwoThirdsMajority(c, s.votes, s.height, s.round, Prevote);
    var u := MarkValid(s, polka);
    LocalKeeps(c, s, u, NO_TIMEOUT);
    RoundsKeepHeight(c, u, height, u.round);
    var v := EnterPrevote(c, u, height, u.round);
    RoundsKeepHeight(c, v, height, v.round);
    FinalizeLandsFresh(c, u, height);
  }

  /** After a commit, what the stores restore is the start of the height that the validator has entered. */
  lemma HandleLands(c: Config, s: RoundState, e: Event)
    requires Inv(c, s) && ValidEvent(c, s, e)
    ensures Handle(c, s, e).height == s.height || Landed(c, Handle(c, s, e))
  {
    Unmoved(c, s);
    if s.halt == Running {
      match e {
        case VoteMessage(v) =>
          if IsNewVote(c, s, v) && v.height == s.height {
            CountVoteKeeps(c, s, v);
            if v.kind == Prevote {
              PrevoteKeepsHeight(c, CountVote(s, v), v.round);
            } else {
              PrecommitLands(c, CountVote(s, v), v.round);
            }
          } else if v.height + 1 == s.height {
            NewRoundKeepsHeight(c, CountVote(s, v), s.height, 0);
          }
        case ProposalMessage(p) =>
        case LastBlockPart(h, b) =>
          if s.height == h && s.proposalParts == Some(b) && s.proposalBlock.None? {
            var u := s.(proposalBlock := Some(b));
            LocalKeeps(c, s, u, NO_TIMEOUT);
            ProposalLandsFresh(c, u, h);
            var t := HandleCompleteProposal(c, u, h);
            if t.height != s.height { FreshIsLanded(c, t); }
          }
        case Tock(ti) => TimeoutKeepsHeight(c, s, ti);
        case TxsAvailable => NewRoundKeepsHeight(c, s, s.height, 0);
      }
    }
    hide Landed, Fresh, HasLastCommit, Inv, Basic, Advances, OnPrevote, OnPrecommit, HandleTimeout, HandleCompleteProposal, EnterPropose,
      EnterNewRound, IsNewVote;
  }

  lemma StartVotes(c: Config, s: RoundState)
    ensures forall k :: k in HeightStart(c, s).votes ==> k in s.votes && HeightStart(c, s).votes[k] == s.votes[k]
    ensures forall k :: k in s.votes && k !in HeightStart(c, s).votes ==> IsPrecommitOf(s.lastHeight, s.lastCommitRound, k)
  {
    hide InCommit;
  }

  /** The votes that a saved commit leaves out belong to no majority. */
  lemma StartKeepsMajorities(c: Config, s: RoundState, h: int, r: int, k: VoteType, v: Value)
    requires IsMajority(c, s.votes, h, r, k, v)
    ensures IsMajority(c, HeightStart(c, s).votes, h, r, k, v)
  {
    var votes := HeightStart(c, s).votes;
    assert TwoThirdsMajority(c, s.votes, h, r, k) == Some(v) by { hide IsMajority; }
    hide TwoThirdsMajority;
    forall i: nat | i in Voters(c, s.votes, h, r, k, v) ensures i in Voters(c, votes, h, r, k, v) {
      var slot := Slot(h, r, k, i);
      assert slot in votes && votes[slot] == v;
    }
    TallyMonotone(c.powers(h), Voters(c, s.votes, h, r, k, v), Voters(c, votes, h, r, k, v));
  }

  lemma StartKeepsPolkas(c: Config, s: RoundState)
    ensures forall h, r0, b :: PolkaAgainst(c, s.votes, h, r0, b) ==> PolkaAgainst(c, HeightStart(c, s).votes, h, r0, b)
  {
    forall h, r0, b | PolkaAgainst(c, s.votes, h, r0, b) ensures PolkaAgainst(c, HeightStart(c, s).votes, h, r0, b) {
      var r, v :| r > r0 && v != Block(b) && IsMajority(c, s.votes, h, r, Prevote, v);
      StartKeepsMajorities(c, s, h, r, Prevote, v);
    }
  }

  lemma StartFrame(c: Config, s: RoundState)
    requires Inv(c, s) && Landed(c, s)
    ensures Frame(c, HeightStart(c, s))
  {
    var t := HeightStart(c, s);
    StartVotes(c, s);
    assert DecidedHaveCommit(c, t) by {
      forall h | h in t.decided ensures exists r :: IsMajority(c, t.votes, h, r, Precommit, Block(t.decided[h])) {
        var r :| IsMajority(c, s.votes, h, r, Precommit, Block(s.decided[h]));
        StartKeepsMajorities(c, s, h, r, Precommit, Block(s.decided[h]));
      }
    }
    assert HaltExplained(c, t) by {
      if s.halt == InvalidPolka {
        var r, b :| !c.valid(s.height, b) && IsMajority(c, s.votes, s.height, r, Prevote, Block(b));
        StartKeepsMajorities(c, s, s.height, r, Prevote, Block(b));
      } else if s.halt == InvalidCommit {
        var r, b :| !c.valid(s.height, b) && IsMajority(c, s.votes, s.height, r, Precommit, Block(b));
        StartKeepsMajorities(c, s, s.height, r, Precommit, Block(b));
      }
    }
    hide Signing, IsMajority;
    assert TimeoutsBehind(t);
    assert Shape(c, t);
  }

  /** The start of the height satisfies the run invariant too. */
  lemma StartHolds(c: Config, s: RoundState)
    requires Inv(c, s) && Landed(c, s)
    ensures Inv(c, HeightStart(c, s)) && Fresh(HeightStart(c, s))
  {
    var t := HeightStart(c, s);
    StartVotes(c, s);
    StartFrame(c, s);
    StartKeepsPolkas(c, s);
    assert PrecommitsHavePolka(c, t) by {
      forall o | o in t.outputs && o.SignVote? && o.kind == Precommit && o.value.Block?
        ensures IsMajority(c, t.votes, o.height, o.round, Prevote, o.value)
      {
        StartKeepsMajorities(c, s, o.height, o.round, Prevote, o.value);
      }
    }
    hide Frame, HeightStart, IsMajority, PolkaAgainst;
    assert t.outputs == s.outputs && t.height == s.height && t.round == s.round && t.step == NEW_HEIGHT;
    assert VotesBehind(t) && NeverTwice(t) && LockHeld(c, t);
  }
}
