/**
 * One validator's consensus state machine (consensus/state.go) as functions on values.
 *
 * Every handler of the receive routine is a function from a round state and an event to the next
 * round state. Class `ConsensusState` is the same machine updated in place, and is proved to
 * compute these functions.
 */
module ConsensusSpec {
  import opened Common
  import opened VotingPower

  /** RoundStepType; steps are compared as numbers. */
  const NEW_HEIGHT := 1
  const NEW_ROUND := 2
  const PROPOSE := 3
  const PREVOTE := 4
  const PREVOTE_WAIT := 5
  const PRECOMMIT := 6
  const PRECOMMIT_WAIT := 7
  const COMMIT := 8

  /** What a vote is for: nil, or a block identified by its BlockID (hash and part set header). */
  datatype Value = Nil | Block(id: nat)

  datatype VoteType = Prevote | Precommit

  datatype Vote = Vote(height: int, round: int, kind: VoteType, validator: nat, value: Value)

  datatype Slot = Slot(height: int, round: int, kind: VoteType, validator: nat)

  /** The votes counted so far, one per slot; the entries at one height are its HeightVoteSet. */
  type VoteBook = map<Slot, Value>

  datatype Proposal = Proposal(height: int, round: int, polRound: int, block: nat)

  datatype Timeout = Timeout(height: int, round: int, step: int)

  /** Requests to the private validator; a vote records the round of the step that decided its value. */
  datatype Output =
    | SignVote(height: int, round: int, kind: VoteType, value: Value, examined: int)
    | SignProposal(height: int, round: int, block: Option<nat>, polRound: int)

  /** Why the receive routine has stopped; each reason is a group of panics in the source. */
  datatype Halt = Running | NilLastCommit | InvalidPolka | InvalidCommit | Inconsistent

  datatype Event =
    | VoteMessage(vote: Vote)
    | ProposalMessage(prop: Proposal)
    | LastBlockPart(height: int, block: nat)
    | Tock(ti: Timeout)
    | TxsAvailable

  /** What a validator is given: its key, the validator sets, the chain's predicates and its settings. */
  datatype Config = Config(
    me: nat,
    initialHeight: int,
    powers: int -> seq<nat>,
    proposer: (int, int) -> nat,
    valid: (int, nat) -> bool,
    appAccepts: (int, nat) -> bool,
    proposalOk: Proposal -> bool,
    needProof: int -> bool,
    waitForTxs: bool,
    emptyBlocksInterval: bool,
    skipTimeoutCommit: bool)

  /**
   * RoundState, together with the height of `cs.state`, all timeouts ever scheduled, the requests
   * ever sent to the private validator and the blocks handed to the block store.
   */
  datatype RoundState = RoundState(
    height: int, round: int, step: int,
    lastHeight: int, lastCommitRound: int,
    proposal: Option<Proposal>, proposalBlock: Option<nat>, proposalParts: Option<nat>,
    lockedRound: int, lockedBlock: Option<nat>,
    validRound: int, validBlock: Option<nat>,
    commitRound: int, triggeredPrecommitWait: bool,
    votes: VoteBook,
    timeouts: set<Timeout>, outputs: seq<Output>, decided: map<int, nat>,
    halt: Halt)

  // ----- vote sets -----

  predicate IsValidator(c: Config, h: int, i: nat) {
    i < |c.powers(h)| && c.powers(h)[i] > 0
  }

  function Voters(c: Config, votes: VoteBook, h: int, r: int, k: VoteType, v: Value): set<nat> {
    set i: nat | i < |c.powers(h)| && Slot(h, r, k, i) in votes && votes[Slot(h, r, k, i)] == v
  }

  function AnyVoters(c: Config, votes: VoteBook, h: int, r: int, k: VoteType): set<nat> {
    set i: nat | i < |c.powers(h)| && Slot(h, r, k, i) in votes
  }

  predicate IsMajority(c: Config, votes: VoteBook, h: int, r: int, k: VoteType, v: Value) {
    Quorum(c.powers(h), Voters(c, votes, h, r, k, v))
  }

  predicate HasTwoThirdsAny(c: Config, votes: VoteBook, h: int, r: int, k: VoteType) {
    Tally(c.powers(h), AnyVoters(c, votes, h, r, k)) > Total(c.powers(h)) * 2 / 3
  }

  predicate HasAll(c: Config, votes: VoteBook, h: int, r: int, k: VoteType) {
    Tally(c.powers(h), AnyVoters(c, votes, h, r, k)) == Total(c.powers(h))
  }

  /** Looks for a majority among the values voted for by the validators below n. */
  function MajorityBelow(c: Config, votes: VoteBook, h: int, r: int, k: VoteType, n: nat): (m: Option<Value>)
    requires n <= |c.powers(h)|
    ensures m.Some? ==> IsMajority(c, votes, h, r, k, m.value)
    ensures m.None? ==> forall i: nat :: i < n && Slot(h, r, k, i) in votes
                                         ==> !IsMajority(c, votes, h, r, k, votes[Slot(h, r, k, i)])
  {
    if n == 0 then None
    else
      var slot := Slot(h, r, k, n - 1);
      if slot in votes && IsMajority(c, votes, h, r, k, votes[slot]) then Some(votes[slot])
      else MajorityBelow(c, votes, h, r, k, n - 1)
  }

  /** VoteSet.TwoThirdsMajority: the value with a quorum, if there is one. */
  function TwoThirdsMajority(c: Config, votes: VoteBook, h: int, r: int, k: VoteType): (m: Option<Value>)
    ensures forall v :: m == Some(v) <==> IsMajority(c, votes, h, r, k, v)
  {
    MajorityIsUnique(c, votes, h, r, k);
    MajorityBelow(c, votes, h, r, k, |c.powers(h)|)
  }

  /** Each validator is counted for one value, so at most one value has a quorum; that value was voted for. */
  lemma MajorityIsUnique(c: Config, votes: VoteBook, h: int, r: int, k: VoteType)
    ensures forall v, w :: IsMajority(c, votes, h, r, k, v) && IsMajority(c, votes, h, r, k, w) ==> v == w
    ensures forall v :: IsMajority(c, votes, h, r, k, v) ==>
              exists i: nat :: i < |c.powers(h)| && Slot(h, r, k, i) in votes && votes[Slot(h, r, k, i)] == v
  {
    var power := c.powers(h);
    forall v, w | IsMajority(c, votes, h, r, k, v) && IsMajority(c, votes, h, r, k, w) ensures v == w {
      NoPower(power);
      var i := OverlapOutside(power, Voters(c, votes, h, r, k, v), Voters(c, votes, h, r, k, w), {});
    }
    forall v | IsMajority(c, votes, h, r, k, v)
      ensures exists i: nat :: i < |power| && Slot(h, r, k, i) in votes && votes[Slot(h, r, k, i)] == v
    {
      NoPower(power);
      var i := HeavierHasOther(power, Voters(c, votes, h, r, k, v), {});
    }
  }

  lemma NoPower(power: seq<nat>)
    ensures Tally(power, {}) == 0
  {
  }

  /** MakeExtendedCommit: the precommits of a round for nil or for the block that has two thirds of them. */
  function SeenCommit(c: Config, votes: VoteBook, h: int, r: int): VoteBook {
    map k | k in votes && InCommit(c, votes, h, r, k) :: votes[k]
  }

  predicate IsPrecommitOf(h: int, r: int, k: Slot) {
    k.height == h && k.round == r && k.kind == Precommit
  }

  predicate InCommit(c: Config, votes: VoteBook, h: int, r: int, k: Slot)
    requires k in votes
  {
    && IsPrecommitOf(h, r, k) && k.validator < |c.powers(h)|
    && (votes[k].Nil? || TwoThirdsMajority(c, votes, h, r, Precommit) == Some(votes[k]))
  }

  // ----- small steps -----

  function Schedule(s: RoundState, h: int, r: int, step: int): RoundState {
    s.(timeouts := s.timeouts + {Timeout(h, r, step)})
  }

  /** signAddVote: the vote carries the height and round of the state, not the round its caller examined. */
  function WithVote(c: Config, s: RoundState, k: VoteType, v: Value, examined: int): seq<Output> {
    if IsValidator(c, s.height, c.me) then s.outputs + [SignVote(s.height, s.round, k, v, examined)] else s.outputs
  }

  /** Start collecting the parts of block b, unless they are being collected already. */
  function Fetch(s: RoundState, b: nat): RoundState {
    s.(proposalBlock := if s.proposalParts == Some(b) then s.proposalBlock else None, proposalParts := Some(b))
  }

  predicate IsProposalComplete(c: Config, s: RoundState) {
    && s.proposal.Some? && s.proposalBlock.Some?
    && (s.proposal.value.polRound < 0
        || TwoThirdsMajority(c, s.votes, s.height, s.proposal.value.polRound, Prevote).Some?)
  }

  // ----- the enter functions -----

  /** enterNewRound up to what it does about proposing: a later round forgets the proposal of an earlier one. */
  function BeginRound(s: RoundState, round: int): RoundState {
    var s := s.(round := round, step := NEW_ROUND, triggeredPrecommitWait := false);
    if round != 0 then s.(proposal := None, proposalBlock := None, proposalParts := None) else s
  }

  function EnterNewRound(c: Config, s: RoundState, height: int, round: int): RoundState {
    if s.halt != Running || s.height != height || round < s.round
       || (s.round == round && s.step != NEW_HEIGHT) then s
    else
      var s := BeginRound(s, round);
      if c.waitForTxs && round == 0 && !c.needProof(height) then
        if c.emptyBlocksInterval then Schedule(s, height, round, NEW_ROUND) else s
      else EnterPropose(c, s, height, round)
  }

  /** enterPropose up to the test for a complete proposal. */
  function BeginPropose(c: Config, s: RoundState, height: int, round: int): RoundState {
    var s := Schedule(s, height, round, PROPOSE);
    var s := if IsValidator(c, height, c.me) && c.proposer(height, round) == c.me
             then s.(outputs := s.outputs + [SignProposal(height, round, s.validBlock, s.validRound)]) else s;
    s.(round := round, step := PROPOSE)
  }

  function EnterPropose(c: Config, s: RoundState, height: int, round: int): RoundState {
    if s.halt != Running || s.height != height || round < s.round || (s.round == round && PROPOSE <= s.step) then s
    else
      var s := BeginPropose(c, s, height, round);
      if IsProposalComplete(c, s) then EnterPrevote(c, s, height, s.round) else s
  }

  /** defaultDoPrevote: the locked block if there is one, else the proposal block if it is acceptable. */
  function PrevoteValue(c: Config, s: RoundState): Value {
    if s.lockedBlock.Some? then Block(s.lockedBlock.value)
    else if s.proposalBlock.None? then Nil
    else if !c.valid(s.height, s.proposalBlock.value) then Nil
    else if !c.appAccepts(s.height, s.proposalBlock.value) then Nil
    else Block(s.proposalBlock.value)
  }

  function EnterPrevote(c: Config, s: RoundState, height: int, round: int): RoundState {
    if s.halt != Running || s.height != height || round < s.round || (s.round == round && PREVOTE <= s.step) then s
    else s.(outputs := WithVote(c, s, Prevote, PrevoteValue(c, s), round), round := round, step := PREVOTE)
  }

  function EnterPrevoteWait(c: Config, s: RoundState, height: int, round: int): RoundState {
    if s.halt != Running || s.height != height || round < s.round
       || (s.round == round && PREVOTE_WAIT <= s.step) then s
    else if !HasTwoThirdsAny(c, s.votes, s.height, round, Prevote) then s.(halt := Inconsistent)
    else Schedule(s, height, round, PREVOTE_WAIT).(round := round, step := PREVOTE_WAIT)
  }

  /** What enterPrecommit decides: the new lock, a block to fetch, and the value to precommit. */
  datatype Decision = Decision(lockedRound: int, lockedBlock: Option<nat>, fetch: Option<nat>, value: Value)

  function Decide(s: RoundState, round: int, polka: Option<Value>): Decision {
    match polka
    case None => Decision(s.lockedRound, s.lockedBlock, None, Nil)
    case Some(Nil) => Decision(if s.lockedBlock.None? then s.lockedRound else -1, None, None, Nil)
    case Some(Block(b)) =>
      if s.lockedBlock == Some(b) || s.proposalBlock == Some(b) then Decision(round, Some(b), None, Block(b))
      else Decision(-1, None, Some(b), Nil)
  }

  /** A polka for the proposal block, which turns out to be invalid. */
  predicate PolkaInvalid(c: Config, s: RoundState, polka: Option<Value>) {
    && polka.Some? && polka.value.Block?
    && s.lockedBlock != Some(polka.value.id) && s.proposalBlock == Some(polka.value.id)
    && !c.valid(s.height, polka.value.id)
  }

  /** HeightVoteSet.POLInfo: the last round up to r in which two thirds prevoted for one value. */
  function PolRound(c: Config, votes: VoteBook, h: int, r: int): int
    decreases r + 1
  {
    if r < 0 then -1
    else if TwoThirdsMajority(c, votes, h, r, Prevote).Some? then r
    else PolRound(c, votes, h, r - 1)
  }

  /** The last round that the vote set of the height tracks. */
  function TrackedRound(s: RoundState): int {
    if s.step == NEW_HEIGHT then 0 else s.round + 1
  }

  /** A polka was found, yet the latest round with one is an earlier round. */
  predicate PolkaIsOld(c: Config, s: RoundState, round: int, polka: Option<Value>) {
    polka.Some? && PolRound(c, s.votes, s.height, TrackedRound(s)) < round
  }

  /** enterPrecommit past its guard. */
  function Precommitted(c: Config, s: RoundState, round: int, polka: Option<Value>): RoundState {
    if PolkaIsOld(c, s, round, polka) then s.(halt := Inconsistent, round := round, step := PRECOMMIT)
    else if PolkaInvalid(c, s, polka) then s.(halt := InvalidPolka, round := round, step := PRECOMMIT)
    else
      var d := Decide(s, round, polka);
      (if d.fetch.Some? then Fetch(s, d.fetch.value) else s)
      .(lockedRound := d.lockedRound, lockedBlock := d.lockedBlock,
      outputs := WithVote(c, s, Precommit, d.value, round), round := round, step := PRECOMMIT)
  }

  function EnterPrecommit(c: Config, s: RoundState, height: int, round: int): RoundState {
    if s.halt != Running || s.height != height || round < s.round || (s.round == round && PRECOMMIT <= s.step) then s
    else
      Precommitted(c, s, round, TwoThirdsMajority(c, s.votes, s.height, round, Prevote))
  }

  function EnterPrecommitWait(c: Config, s: RoundState, height: int, round: int): RoundState {
    if s.halt != Running || s.height != height || round < s.round
       || (s.round == round && s.triggeredPrecommitWait) then s
    else if !HasTwoThirdsAny(c, s.votes, s.height, round, Precommit) then s.(halt := Inconsistent)
    else Schedule(s, height, round, PRECOMMIT_WAIT).(triggeredPrecommitWait := true)
  }

  /** The block bookkeeping of enterCommit for the block b that has the precommits. */
  function StageCommit(s: RoundState, b: nat): RoundState {
    if s.lockedBlock == Some(b) then s.(proposalBlock := Some(b), proposalParts := Some(b))
    else if s.proposalBlock == Some(b) then s
    else Fetch(s, b)
  }

  function EnterCommit(c: Config, s: RoundState, height: int, commitRound: int): RoundState {
    if s.halt != Running || s.height != height || COMMIT <= s.step then s
    else
      match TwoThirdsMajority(c, s.votes, s.height, commitRound, Precommit)
      case Some(Block(b)) =>
        TryFinalizeCommit(c, StageCommit(s, b).(step := COMMIT, commitRound := commitRound), height)
      case _ => s.(halt := Inconsistent)
  }

  function TryFinalizeCommit(c: Config, s: RoundState, height: int): RoundState {
    if s.height != height then s.(halt := Inconsistent)
    else
      match TwoThirdsMajority(c, s.votes, s.height, s.commitRound, Precommit)
      case Some(Block(b)) => if s.proposalBlock == Some(b) then FinalizeCommit(c, s, height) else s
      case _ => s
  }

  /** The block store keeps the first block that it is given for a height. */
  function Stored(s: RoundState, height: int, b: nat): RoundState {
    if height in s.decided then s else s.(decided := s.decided[height := b])
  }

  function FinalizeCommit(c: Config, s: RoundState, height: int): RoundState {
    if s.height != height || s.step != COMMIT then s
    else
      match TwoThirdsMajority(c, s.votes, s.height, s.commitRound, Precommit)
      case Some(Block(b)) =>
        if s.proposalParts != Some(b) || s.proposalBlock != Some(b) then s.(halt := Inconsistent)
        else if !c.valid(height, b) then s.(halt := InvalidCommit)
        else
          var s := UpdateToState(c, Stored(s, height, b), height);
          if s.halt != Running then s else Schedule(s, s.height, 0, NEW_HEIGHT)
      case _ => s.(halt := Inconsistent)
  }

  /** The fresh round state for the height after `last`, with nothing proposed, locked or valid. */
  function FreshHeight(c: Config, s: RoundState, last: int): RoundState {
    s.(height := if last + 1 == 1 then c.initialHeight else last + 1, round := 0, step := NEW_HEIGHT,
       lastHeight := last,
       proposal := None, proposalBlock := None, proposalParts := None,
       lockedRound := -1, lockedBlock := None, validRound := -1, validBlock := None,
       commitRound := -1, triggeredPrecommitWait := false)
  }

  /** updateToState for the state saved by ApplyBlock at height `last`. */
  function UpdateToState(c: Config, s: RoundState, last: int): RoundState {
    if (s.commitRound > -1 && 0 < s.height && s.height != last)
       || (s.lastHeight > 0 && s.lastHeight + 1 != s.height)
       || (s.lastHeight > 0 && s.height == c.initialHeight) then s.(halt := Inconsistent)
    else if last <= s.lastHeight then s
    else if s.commitRound <= -1 then s.(halt := Inconsistent)
    else if TwoThirdsMajority(c, s.votes, s.height, s.commitRound, Precommit).None? then s.(halt := Inconsistent)
    else FreshHeight(c, s.(lastCommitRound := s.commitRound), last)
  }

  // ----- the handlers -----

  function SetProposal(c: Config, s: RoundState, p: Proposal): RoundState {
    if s.proposal.Some? || p.height != s.height || p.round != s.round
       || p.polRound < -1 || (p.polRound >= 0 && p.polRound >= p.round) || !c.proposalOk(p) then s
    else
      s.(proposal := Some(p), proposalParts := if s.proposalParts.None? then Some(p.block) else s.proposalParts)
  }

  /** addProposalBlockPart for the part that completes the part set of block b. */
  function AddLastPart(c: Config, s: RoundState, height: int, b: nat): RoundState {
    if s.height != height || s.proposalParts != Some(b) || s.proposalBlock.Some? then s
    else HandleCompleteProposal(c, s.(proposalBlock := Some(b)), height)
  }

  /** A complete proposal that already has the polka of its round becomes the valid block. */
  function MarkValid(s: RoundState, polka: Option<Value>): RoundState {
    if polka.Some? && polka.value.Block? && s.validRound < s.round && s.proposalBlock == Some(polka.value.id)
    then s.(validRound := s.round, validBlock := s.proposalBlock) else s
  }

  function HandleCompleteProposal(c: Config, s: RoundState, height: int): RoundState {
    var polka := TwoThirdsMajority(c, s.votes, s.height, s.round, Prevote);
    var s := MarkValid(s, polka);
    if s.step <= PROPOSE && IsProposalComplete(c, s) then
      var s := EnterPrevote(c, s, height, s.round);
      if polka.Some? then EnterPrecommit(c, s, height, s.round) else s
    else if s.step == COMMIT then TryFinalizeCommit(c, s, height)
    else s
  }

  function CountVote(s: RoundState, v: Vote): RoundState {
    s.(votes := s.votes[Slot(v.height, v.round, v.kind, v.validator) := v.value])
  }

  predicate IsNewVote(c: Config, s: RoundState, v: Vote) {
    IsValidator(c, v.height, v.validator) && Slot(v.height, v.round, v.kind, v.validator) !in s.votes
  }

  function AddVote(c: Config, s: RoundState, v: Vote): RoundState {
    if v.height + 1 == s.height && v.kind == Precommit then
      if s.step != NEW_HEIGHT then s
      else if s.lastHeight == 0 then s.(halt := NilLastCommit)
      else if v.round != s.lastCommitRound || !IsNewVote(c, s, v) then s
      else
        var s := CountVote(s, v);
        if c.skipTimeoutCommit && HasAll(c, s.votes, v.height, v.round, Precommit)
        then EnterNewRound(c, s, s.height, 0) else s
    else if v.height != s.height || !IsNewVote(c, s, v) then s
    else if v.kind == Prevote then OnPrevote(c, CountVote(s, v), v.round)
    else OnPrecommit(c, CountVote(s, v), v.round)
  }

  /** A polka at round r for something else than the locked block undoes an older lock. */
  predicate Unlocks(s: RoundState, r: int, polka: Value) {
    s.lockedBlock.Some? && s.lockedRound < r <= s.round && Block(s.lockedBlock.value) != polka
  }

  /** The effect of a polka at round r on the lock. */
  function GiveUpLock(s: RoundState, r: int, polka: Value): RoundState {
    if Unlocks(s, r, polka) then s.(lockedRound := -1, lockedBlock := None) else s
  }

  /** The effect of a polka at round r on the valid block: it is the block at hand, or one to fetch. */
  function UpdateValid(s: RoundState, r: int, polka: Value): RoundState {
    if polka.Block? && s.validRound < r && r == s.round then
      if s.proposalBlock == Some(polka.id)
      then s.(validRound := r, validBlock := s.proposalBlock, proposalParts := Some(polka.id))
      else s.(proposalBlock := None, proposalParts := Some(polka.id))
    else s
  }

  function OnPolka(s: RoundState, r: int, polka: Value): RoundState {
    UpdateValid(GiveUpLock(s, r, polka), r, polka)
  }

  function OnPrevote(c: Config, s: RoundState, r: int): RoundState {
    var polka := TwoThirdsMajority(c, s.votes, s.height, r, Prevote);
    PolkaReaction(c, if polka.Some? then OnPolka(s, r, polka.value) else s, r, polka)
  }

  /** Where a new prevote of round r takes the state. */
  function PolkaReaction(c: Config, s: RoundState, r: int, polka: Option<Value>): RoundState {
    if s.round < r && HasTwoThirdsAny(c, s.votes, s.height, r, Prevote) then EnterNewRound(c, s, s.height, r)
    else if s.round == r && PREVOTE <= s.step then
      if polka.Some? && (IsProposalComplete(c, s) || polka.value.Nil?) then EnterPrecommit(c, s, s.height, r)
      else if HasTwoThirdsAny(c, s.votes, s.height, r, Prevote) then EnterPrevoteWait(c, s, s.height, r)
      else s
    else if s.proposal.Some? && 0 <= s.proposal.value.polRound == r then
      if IsProposalComplete(c, s) then EnterPrevote(c, s, s.height, s.round) else s
    else s
  }

  /** What follows once the state is in the round r of a precommit majority for v. */
  function PrecommitMajority(c: Config, s: RoundState, h: int, r: int, v: Value, skip: bool): RoundState {
    if v.Nil? then EnterPrecommitWait(c, s, h, r)
    else
      var s := EnterCommit(c, s, h, r);
      if skip then EnterNewRound(c, s, s.height, 0) else s
  }

  function OnPrecommit(c: Config, s: RoundState, r: int): RoundState {
    var h := s.height;
    match TwoThirdsMajority(c, s.votes, h, r, Precommit)
    case Some(v) =>
      PrecommitMajority(c, EnterPrecommit(c, EnterNewRound(c, s, h, r), h, r), h, r, v,
                        c.skipTimeoutCommit && HasAll(c, s.votes, h, r, Precommit))
    case None =>
      if s.round <= r && HasTwoThirdsAny(c, s.votes, h, r, Precommit)
      then EnterPrecommitWait(c, EnterNewRound(c, s, h, r), h, r) else s
  }

  function HandleTimeout(c: Config, s: RoundState, ti: Timeout): RoundState {
    if ti.height != s.height || ti.round < s.round || (ti.round == s.round && ti.step < s.step) then s
    else if ti.step == NEW_HEIGHT then EnterNewRound(c, s, ti.height, 0)
    else if ti.step == NEW_ROUND then EnterPropose(c, s, ti.height, ti.round)
    else if ti.step == PROPOSE then EnterPrevote(c, s, ti.height, ti.round)
    else if ti.step == PREVOTE_WAIT then EnterPrecommit(c, s, ti.height, ti.round)
    else if ti.step == PRECOMMIT_WAIT then
      EnterNewRound(c, EnterPrecommit(c, s, ti.height, ti.round), ti.height, ti.round + 1)
    else s.(halt := Inconsistent)
  }

  function HandleTxsAvailable(c: Config, s: RoundState): RoundState {
    if s.round != 0 then s
    else if s.step == NEW_HEIGHT then
      if c.needProof(s.height) then s else Schedule(s, s.height, 0, NEW_ROUND)
    else if s.step == NEW_ROUND then EnterPropose(c, s, s.height, 0)
    else s
  }

  /** One turn of the receive routine. */
  function Handle(c: Config, s: RoundState, e: Event): RoundState {
    if s.halt != Running then s
    else
      match e
      case VoteMessage(v) => AddVote(c, s, v)
      case ProposalMessage(p) => SetProposal(c, s, p)
      case LastBlockPart(h, b) => AddLastPart(c, s, h, b)
      case Tock(ti) => HandleTimeout(c, s, ti)
      case TxsAvailable => HandleTxsAvailable(c, s)
  }

  /** The state of a validator that starts at genesis, after scheduleRound0. */
  function Genesis(c: Config): RoundState {
    RoundState(c.initialHeight, 0, NEW_HEIGHT, 0, -1, None, None, None, -1, None, -1, None, -1, false,
               map[], {Timeout(c.initialHeight, 0, NEW_HEIGHT)}, [], map[], Running)
  }
}
