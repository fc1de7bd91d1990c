/**
 * Runs in which replaying the log signs a vote that contradicts the vote of the run, one for each way
 * in which an input is late for the replay: the run skipped the commit timeout when it committed, it
 * skipped the timeout with the help of a precommit that the saved commit does not hold, or it was
 * waiting for transactions, whose arrival is not logged.
 */
module LateReplay {
  import opened Common
  import opened VotingPower
  import opened ConsensusSpec
  import opened ConsensusInvariant
  import opened ConsensusReplay

  /** Validator 1 decides every vote; validator 0, whose runs these are, joins at height 2. */
  function Powers(h: int): seq<nat> {
    if h == 1 then [0, 5, 1, 1] else [1, 5, 1, 0]
  }

  /** A validator that either waits for transactions or skips the commit timeout. */
  function Setup(waits: bool): Config {
    Config(0, 1, Powers, (_, _) => 1, (_, _) => true, (_, _) => true, _ => true, h => h == 1, waits, false, !waits)
  }

  /** The precommits of height 1. */
  const OTHER := Vote(1, 0, Precommit, 2, Block(9))
  const SECOND := Vote(1, 0, Precommit, 2, Block(3))
  const THIRD := Vote(1, 0, Precommit, 3, Block(3))
  const DECIDING := Vote(1, 0, Precommit, 1, Block(3))

  const BLOCK_3: seq<Event> := [ProposalMessage(Proposal(1, 0, -1, 3)), LastBlockPart(1, 3)]

  /** Block 3 is committed at height 1, with all its precommits. */
  const FULL: seq<Event> := BLOCK_3 + [VoteMessage(SECOND), VoteMessage(THIRD), VoteMessage(DECIDING)]

  /** Block 3 is committed while one precommit is for another block and one is missing. */
  const PARTIAL: seq<Event> := BLOCK_3 + [VoteMessage(OTHER), VoteMessage(DECIDING)]

  const FIRES := Tock(Timeout(2, 0, NEW_HEIGHT))

  /** At height 2 the block of the proposal arrives before the proposal, because of its polka. */
  const EARLY: seq<Event> := [
    VoteMessage(Vote(2, 0, Prevote, 1, Block(7))), LastBlockPart(2, 7), ProposalMessage(Proposal(2, 0, -1, 7))]

  /** A prevote that makes a validator lock block 7 if it has prevoted, and one that leads to round 1. */
  const LATER: seq<Event> := [VoteMessage(Vote(2, 0, Prevote, 2, Block(7))), VoteMessage(Vote(2, 1, Prevote, 1, Nil))]

  /** In round 1 block 8 is proposed, and whoever is locked prevotes block 7 all the same. */
  const ROUND_1: seq<Event> := [ProposalMessage(Proposal(2, 1, -1, 8)), LastBlockPart(2, 8)]

  // ----- quorums -----

  predicate AllThree(votes: VoteBook, r: int, k: VoteType) {
    Slot(1, r, k, 1) in votes && Slot(1, r, k, 2) in votes && Slot(1, r, k, 3) in votes
  }

  /** Two thirds are reached exactly by the votes of validator 1. */
  lemma OneDecides(waits: bool, votes: VoteBook, h: int)
    ensures forall r, k :: var slot := Slot(h, r, k, 1);
              TwoThirdsMajority(Setup(waits), votes, h, r, k) == if slot in votes then Some(votes[slot]) else None
    ensures forall r, k :: HasTwoThirdsAny(Setup(waits), votes, h, r, k) == (Slot(h, r, k, 1) in votes)
    ensures h == 1 ==> forall r, k :: HasAll(Setup(waits), votes, h, r, k) == AllThree(votes, r, k)
  {
    var c := Setup(waits);
    forall r, k
      ensures HasTwoThirdsAny(c, votes, h, r, k) == (Slot(h, r, k, 1) in votes)
      ensures h == 1 ==> HasAll(c, votes, h, r, k) == AllThree(votes, r, k)
    {
      TallyOfFour(Powers(h), AnyVoters(c, votes, h, r, k));
    }
    forall r, k, v ensures IsMajority(c, votes, h, r, k, v) <==> Slot(h, r, k, 1) in votes && votes[Slot(h, r, k, 1)] == v {
      TallyOfFour(Powers(h), Voters(c, votes, h, r, k, v));
    }
    hide IsMajority;
    forall r, k ensures var slot := Slot(h, r, k, 1);
        TwoThirdsMajority(c, votes, h, r, k) == if slot in votes then Some(votes[slot]) else None
    {
      var slot, m := Slot(h, r, k, 1), TwoThirdsMajority(c, votes, h, r, k);
      if slot in votes { assert IsMajority(c, votes, h, r, k, votes[slot]); }
      if m.Some? { assert IsMajority(c, votes, h, r, k, m.value); }
    }
  }

  // ----- height 1 -----

  const START := Genesis(Setup(true))

  /** Height 1 with block 3 at hand. */
  function Waiting(book: VoteBook): RoundState {
    START.(proposal := Some(Proposal(1, 0, -1, 3)), proposalParts := Some(3), proposalBlock := Some(3), step := PREVOTE,
    votes := book)
  }

  const ARMED: set<Timeout> := {Timeout(1, 0, NEW_HEIGHT), Timeout(2, 0, NEW_HEIGHT)}

  /** Height 2, in step `step` of round 0. */
  function Started(step: int, book: VoteBook, timeouts: set<Timeout>): RoundState {
    RoundState(2, 0, step, 1, 0, None, None, None, -1, None, -1, None, -1, false, book, timeouts, [], map[1 := 3], Running)
  }

  lemma BlockComes(waits: bool)
    ensures Replay(Setup(waits), START, BLOCK_3) == Waiting(map[])
  {
    var c := Setup(waits);
    OneDecides(waits, map[], 1);
    hide TwoThirdsMajority, HasTwoThirdsAny, HasAll;
    OneMore(c, START, BLOCK_3, 0);
    OneMore(c, START, BLOCK_3, 1);
    assert BLOCK_3[..2] == BLOCK_3;
    var g := START.(proposal := Some(Proposal(1, 0, -1, 3)), proposalParts := Some(3));
    assert Handle(c, START, BLOCK_3[0]) == g;
    assert Handle(c, g, BLOCK_3[1]) == Waiting(map[]);
  }

  function Added(book: VoteBook, v: Vote): VoteBook {
    book[Slot(v.height, v.round, v.kind, v.validator) := v.value]
  }

  lemma LightPrecommit(waits: bool, book: VoteBook, v: Vote)
    requires v in {OTHER, SECOND, THIRD} && Slot(1, 0, Precommit, 1) !in book && Slot(1, 0, Precommit, v.validator) !in book
    ensures Handle(Setup(waits), Waiting(book), VoteMessage(v)) == Waiting(Added(book, v))
  {
    OneDecides(waits, Added(book, v), 1);
    hide TwoThirdsMajority, HasTwoThirdsAny, HasAll;
    assert CountVote(Waiting(book), v) == Waiting(Added(book, v));
  }

  /** The deciding precommit commits block 3, and a validator that has all precommits may go on. */
  lemma Commits(waits: bool, book: VoteBook)
    requires Slot(1, 0, Precommit, 1) !in book && forall k :: k in book ==> k.height == 1 && k.kind == Precommit
    ensures var all := Added(book, DECIDING);
            var s := Started(NEW_HEIGHT, all, ARMED);
            Handle(Setup(waits), Waiting(book), VoteMessage(DECIDING))
            == if !waits && Slot(1, 0, Precommit, 2) in book && Slot(1, 0, Precommit, 3) in book
               then EnterNewRound(Setup(waits), s, 2, 0) else s
  {
    var c, all := Setup(waits), Added(book, DECIDING);
    var g := Waiting(all);
    OneDecides(waits, all, 1);
    hide TwoThirdsMajority, HasTwoThirdsAny, HasAll;
    assert CountVote(Waiting(book), DECIDING) == g;
    assert EnterPrecommit(c, g, 1, 0) == g.(step := PRECOMMIT);
    var g1 := g.(step := COMMIT, commitRound := 0);
    assert Stored(g1, 1, 3).decided == map[1 := 3];
    assert FinalizeCommit(c, g1, 1) == Started(NEW_HEIGHT, all, ARMED);
    assert EnterCommit(c, g.(step := PRECOMMIT), 1, 0) == Started(NEW_HEIGHT, all, ARMED);
  }

  /** Round 0 of height 2, as a validator enters it: with the timer of the proposal, or waiting for transactions. */
  function Entered(waits: bool, book: VoteBook): RoundState {
    if waits then Started(NEW_ROUND, book, ARMED) else Started(PROPOSE, book, ARMED + {Timeout(2, 0, PROPOSE)})
  }

  lemma Enters(waits: bool, book: VoteBook)
    ensures EnterNewRound(Setup(waits), Started(NEW_HEIGHT, book, ARMED), 2, 0) == Entered(waits, book)
    ensures Handle(Setup(waits), Started(NEW_HEIGHT, book, ARMED), FIRES) == Entered(waits, book)
  {
    hide TwoThirdsMajority, HasTwoThirdsAny, HasAll;
  }

  const ALL_3: VoteBook := Added(Added(Added(map[], SECOND), THIRD), DECIDING)

  lemma FullCommit(waits: bool)
    ensures Replay(Setup(waits), START, FULL) == if waits then Started(NEW_HEIGHT, ALL_3, ARMED) else Entered(false, ALL_3)
  {
    var c := Setup(waits);
    assert FULL[..2] == BLOCK_3 && FULL[..5] == FULL;
    OneMore(c, START, FULL, 2);
    OneMore(c, START, FULL, 3);
    OneMore(c, START, FULL, 4);
    hide Handle, Replay, EnterNewRound;
    BlockComes(waits);
    LightPrecommit(waits, map[], SECOND);
    LightPrecommit(waits, Added(map[], SECOND), THIRD);
    Commits(waits, Added(Added(map[], SECOND), THIRD));
    Enters(waits, ALL_3);
  }

  lemma PartialCommit()
    ensures Replay(Setup(false), START, PARTIAL) == Started(NEW_HEIGHT, Added(Added(map[], OTHER), DECIDING), ARMED)
  {
    var c := Setup(false);
    assert PARTIAL[..2] == BLOCK_3 && PARTIAL[..4] == PARTIAL;
    OneMore(c, START, PARTIAL, 2);
    OneMore(c, START, PARTIAL, 3);
    hide Handle, Replay, EnterNewRound;
    BlockComes(false);
    LightPrecommit(false, map[], OTHER);
    Commits(false, Added(map[], OTHER));
  }

  lemma FullRestored(waits: bool, s: RoundState)
    requires s == Started(s.step, ALL_3, s.timeouts)
    ensures HeightStart(Setup(waits), s) == Started(NEW_HEIGHT, ALL_3, s.timeouts)
  {
    OneDecides(waits, ALL_3, 1);
    hide TwoThirdsMajority;
  }

  /** The saved commit has lost the precommit for block 9. */
  lemma PartialRestored()
    ensures var s := Started(NEW_HEIGHT, Added(Added(map[], OTHER), DECIDING), ARMED);
            HeightStart(Setup(false), s) == Started(NEW_HEIGHT, Added(map[], DECIDING), ARMED)
  {
    OneDecides(false, Added(Added(map[], OTHER), DECIDING), 1);
    hide TwoThirdsMajority;
  }

  // ----- round 0 of height 2 -----

  /** Counted at height 2 so far: nothing yet, the polka, one more prevote for it, and the prevote of round 1. */
  predicate Earlier(book: VoteBook) {
    forall k :: k in book ==> k.height == 1
  }

  function Polka(book: VoteBook): VoteBook { Added(book, EARLY[0].vote) }

  function More(book: VoteBook): VoteBook { Added(Polka(book), LATER[0].vote) }

  function Skip(book: VoteBook): VoteBook { Added(More(book), LATER[1].vote) }

  /** The polka makes the validator collect the parts of its block. */
  function Collecting(s: RoundState): RoundState {
    s.(votes := Polka(s.votes), proposalParts := Some(7))
  }

  /** The proposal is complete, and has not led to a prevote. */
  function Completed(s: RoundState): RoundState {
    Collecting(s).(proposal := Some(Proposal(2, 0, -1, 7)), proposalBlock := Some(7), validRound := 0, validBlock := Some(7))
  }

  predicate Idle(s: RoundState) {
    s == Started(s.step, s.votes, s.timeouts) && Earlier(s.votes) && s.step in {NEW_HEIGHT, NEW_ROUND, PROPOSE}
  }

  lemma PolkaCounted(waits: bool, s: RoundState)
    requires Idle(s)
    ensures Handle(Setup(waits), s, EARLY[0]) == Collecting(s)
  {
    var c, polka := Setup(waits), Polka(s.votes);
    OneDecides(waits, polka, 2);
    hide TwoThirdsMajority, HasTwoThirdsAny, HasAll;
    assert CountVote(s, EARLY[0].vote) == s.(votes := polka);
    assert OnPolka(s.(votes := polka), 0, Block(7)) == Collecting(s);
    assert PolkaReaction(c, Collecting(s), 0, Some(Block(7))) == Collecting(s);
  }

  lemma BlockArrives(waits: bool, s: RoundState)
    requires Idle(s)
    ensures Handle(Setup(waits), Collecting(s), EARLY[1]) == Completed(s).(proposal := None)
    ensures Handle(Setup(waits), Completed(s).(proposal := None), EARLY[2]) == Completed(s)
  {
    OneDecides(waits, Polka(s.votes), 2);
    hide TwoThirdsMajority, HasTwoThirdsAny, HasAll;
  }

  lemma ProposalCompletes(waits: bool, s: RoundState)
    requires Idle(s)
    ensures Replay(Setup(waits), s, EARLY) == Completed(s)
  {
    var c := Setup(waits);
    OneMore(c, s, EARLY, 0);
    OneMore(c, s, EARLY, 1);
    OneMore(c, s, EARLY, 2);
    assert Replay(c, s, EARLY[..0]) == s;
    PolkaCounted(waits, s);
    BlockArrives(waits, s);
    assert EARLY[..3] == EARLY;
    hide Handle, Replay;
  }

  /** What round 1 starts from: with or without a lock on block 7, and with the votes signed in round 0. */
  function InRound1(book: VoteBook, timeouts: set<Timeout>, locked: bool, outputs: seq<Output>): RoundState {
    Started(PROPOSE, Skip(book), timeouts + {Timeout(2, 1, PROPOSE)}).(round := 1, validRound := 0, validBlock := Some(7),
    lockedRound := if locked then 0 else -1, lockedBlock := if locked then Some(7) else None, outputs := outputs)
  }

  /** The prevote of round 1 takes the validator there from round 0. */
  lemma SkipsRound(waits: bool, book: VoteBook, s: RoundState, locked: bool)
    requires s == InRound1(book, {}, locked, s.outputs)
                  .(round := 0, step := s.step, votes := More(book), proposal := s.proposal, proposalBlock := s.proposalBlock,
                  proposalParts := s.proposalParts, timeouts := s.timeouts)
    requires Earlier(book) && s.step in {NEW_ROUND, PROPOSE, PRECOMMIT}
    ensures Handle(Setup(waits), s, LATER[1]) == InRound1(book, s.timeouts, locked, s.outputs)
  {
    var c := Setup(waits);
    OneDecides(waits, Skip(book), 2);
    hide TwoThirdsMajority, HasTwoThirdsAny, HasAll;
    var s1 := s.(votes := Skip(book));
    assert CountVote(s, LATER[1].vote) == s1;
    assert OnPolka(s1, 1, Nil) == s1;
    assert EnterNewRound(c, s1, 2, 1) == InRound1(book, s.timeouts, locked, s.outputs);
  }

  /** A validator that has not prevoted does not react to a polka of its round. */
  lemma Waits(waits: bool, s: RoundState)
    requires Idle(s) && s.step != NEW_HEIGHT
    ensures Replay(Setup(waits), Completed(s), LATER) == InRound1(s.votes, s.timeouts, false, [])
  {
    var c, s0 := Setup(waits), Completed(s);
    var s1 := s0.(votes := More(s.votes));
    OneDecides(waits, More(s.votes), 2);
    assert Handle(c, s0, LATER[0]) == s1 by {
      hide TwoThirdsMajority, HasTwoThirdsAny, HasAll;
      assert CountVote(s0, LATER[0].vote) == s1;
      assert OnPolka(s1, 0, Block(7)) == s1;
      assert PolkaReaction(c, s1, 0, Some(Block(7))) == s1;
    }
    OneMore(c, s0, LATER, 0);
    OneMore(c, s0, LATER, 1);
    hide Handle;
    assert LATER[..2] == LATER && Replay(c, s0, LATER[..0]) == s0;
    SkipsRound(waits, s.votes, s1, false);
  }

  const SIGNED: seq<Output> := [SignVote(2, 0, Prevote, Block(7), 0), SignVote(2, 0, Precommit, Block(7), 0)]

  /** The proposal step found the proposal complete, and prevoted at once. */
  function Prevoted(s: RoundState): RoundState {
    Completed(s).(step := PREVOTE, timeouts := s.timeouts + {Timeout(2, 0, PROPOSE)}, outputs := SIGNED[..1])
  }

  /** The late inputs: the timer of the new height, or the arrival of transactions. */
  lemma Prevotes(waits: bool, s: RoundState)
    requires Idle(s) && s.step == if waits then NEW_ROUND else NEW_HEIGHT
    ensures Handle(Setup(waits), Completed(s), if waits then TxsAvailable else FIRES) == Prevoted(s)
  {
    var c, u := Setup(waits), Completed(s);
    var u1 := u.(step := PROPOSE, timeouts := s.timeouts + {Timeout(2, 0, PROPOSE)});
    hide TwoThirdsMajority;
    assert BeginPropose(c, if waits then u else BeginRound(u, 0), 2, 0) == u1;
    assert EnterPrevote(c, u1, 2, 0) == Prevoted(s);
  }

  lemma Precommits(waits: bool, s: RoundState)
    requires Idle(s)
    ensures Handle(Setup(waits), Prevoted(s), LATER[0])
         == Prevoted(s).(step := PRECOMMIT, votes := More(s.votes), lockedRound := 0, lockedBlock := Some(7), outputs := SIGNED)
  {
    var c, u := Setup(waits), Prevoted(s);
    var u1 := u.(votes := More(s.votes));
    OneDecides(waits, More(s.votes), 2);
    hide TwoThirdsMajority, HasTwoThirdsAny, HasAll;
    assert CountVote(u, LATER[0].vote) == u1;
    assert OnPolka(u1, 0, Block(7)) == u1;
    assert PolRound(c, More(s.votes), 2, 1) == 0;
    assert EnterPrecommit(c, u1, 2, 0) == u1.(step := PRECOMMIT, lockedRound := 0, lockedBlock := Some(7), outputs := SIGNED);
  }

  lemma Locks(waits: bool, s: RoundState)
    requires Idle(s)
    ensures Replay(Setup(waits), Prevoted(s), LATER) == InRound1(s.votes, s.timeouts + {Timeout(2, 0, PROPOSE)}, true, SIGNED)
  {
    var c, u := Setup(waits), Prevoted(s);
    var u1 := u.(step := PRECOMMIT, votes := More(s.votes), lockedRound := 0, lockedBlock := Some(7), outputs := SIGNED);
    OneMore(c, u, LATER, 0);
    OneMore(c, u, LATER, 1);
    hide Handle;
    assert LATER[..2] == LATER && Replay(c, u, LATER[..0]) == u;
    Precommits(waits, s);
    SkipsRound(waits, s.votes, u1, true);
  }

  // ----- round 1 -----

  const FOR_7 := SignVote(2, 1, Prevote, Block(7), 1)
  const FOR_8 := SignVote(2, 1, Prevote, Block(8), 1)

  lemma Round1Prevotes(waits: bool, book: VoteBook, timeouts: set<Timeout>, locked: bool, outputs: seq<Output>)
    ensures var s := Replay(Setup(waits), InRound1(book, timeouts, locked, outputs), ROUND_1);
            (if locked then FOR_7 else FOR_8) in s.outputs && outputs <= s.outputs
  {
    var c, s := Setup(waits), InRound1(book, timeouts, locked, outputs);
    var s1 := s.(proposal := Some(Proposal(2, 1, -1, 8)), proposalParts := Some(8));
    var s2 := s1.(proposalBlock := Some(8));
    OneDecides(waits, Skip(book), 2);
    hide TwoThirdsMajority, HasTwoThirdsAny, HasAll;
    OneMore(c, s, ROUND_1, 0);
    OneMore(c, s, ROUND_1, 1);
    assert ROUND_1[..2] == ROUND_1;
    assert Handle(c, s, ROUND_1[0]) == s1;
    var s3 := EnterPrevote(c, s2, 2, 1);
    assert (if locked then FOR_7 else FOR_8) in s3.outputs;
    assert MarkValid(s2, Some(Nil)) == s2;
    assert Handle(c, s1, ROUND_1[1]) == EnterPrecommit(c, s3, 2, 1);
    assert s3.outputs <= EnterPrecommit(c, s3, 2, 1).outputs;
  }

  // ----- whole runs -----

  lemma {:induction false} ReplayInParts(c: Config, s: RoundState, a: seq<Event>, b: seq<Event>)
    ensures Replay(c, s, a + b) == Replay(c, Replay(c, s, a), b)
  {
    hide Handle;
    if |b| == 0 {
      assert a + b == a;
    } else {
      var n := |b| - 1;
      assert (a + b)[..|a| + n] == a + b[..n] && (a + b)[|a| + n] == b[n];
      ReplayInParts(c, s, a, b[..n]);
    }
  }

  lemma ReplayOne(c: Config, s: RoundState, e: Event)
    ensures Replay(c, s, [e]) == Handle(c, s, e)
  {
    hide Handle;
    assert [e][..0] == [];
  }

  /** Completing the proposal before the proposal step, and prevoting in it: round 1 finds a lock. */
  lemma EagerRun(waits: bool, s: RoundState)
    requires Idle(s) && s.step == if waits then NEW_ROUND else NEW_HEIGHT
    ensures var e := if waits then TxsAvailable else FIRES;
            var t := Replay(Setup(waits), s, EARLY + [e] + LATER + ROUND_1);
            FOR_7 in t.outputs && SIGNED[1] in t.outputs
  {
    var c, e := Setup(waits), if waits then TxsAvailable else FIRES;
    ReplayInParts(c, s, EARLY + [e] + LATER, ROUND_1);
    ReplayInParts(c, s, EARLY + [e], LATER);
    ReplayInParts(c, s, EARLY, [e]);
    ReplayOne(c, Completed(s), e);
    hide Replay, Handle, Completed, Prevoted, InRound1, Idle;
    ProposalCompletes(waits, s);
    Prevotes(waits, s);
    Locks(waits, s);
    Round1Prevotes(waits, s.votes, s.timeouts + {Timeout(2, 0, PROPOSE)}, true, SIGNED);
    assert SIGNED[1] in SIGNED;
  }

  /** The same without a prevote in round 0, where a timer that is behind changes nothing. */
  lemma PatientRun(waits: bool, s: RoundState, fires: bool)
    requires Idle(s) && s.step != NEW_HEIGHT
    ensures FOR_8 in Replay(Setup(waits), s, EARLY + (if fires then [FIRES] else []) + LATER + ROUND_1).outputs
  {
    var c, timer := Setup(waits), if fires then [FIRES] else [];
    ReplayInParts(c, s, EARLY + timer + LATER, ROUND_1);
    ReplayInParts(c, s, EARLY + timer, LATER);
    ReplayInParts(c, s, EARLY, timer);
    ReplayOne(c, Completed(s), FIRES);
    assert Handle(c, Completed(s), FIRES) == Completed(s) by { hide Replay; }
    assert Replay(c, Completed(s), timer) == Completed(s);
    hide Replay, Handle, Completed, InRound1, Idle;
    ProposalCompletes(waits, s);
    Waits(waits, s);
    Round1Prevotes(waits, s.votes, s.timeouts, false, []);
  }

  const LOG: seq<Event> := EARLY + [FIRES] + LATER + ROUND_1

  /**
   * A validator that skips the commit timeout starts at genesis, commits block 3 at height 1 with all
   * its precommits, and goes on at height 2, where the only timer that fires is one it has set. Its run
   * prevotes block 8 in round 1, and the replay of the same inputs prevotes block 7 there.
   */
  lemma LateReplayContradicts()
    ensures var c := Setup(false);
            var s := Replay(c, Genesis(c), FULL);
            && s.height == 2 && s.decided == map[1 := 3] && FIRES.ti in s.timeouts
            && FOR_8 in Replay(c, s, LOG).outputs && FOR_7 in Replay(c, HeightStart(c, s), LOG).outputs
  {
    var c, s := Setup(false), Entered(false, ALL_3);
    FullCommit(false);
    FullRestored(false, s);
    hide Replay, HeightStart;
    PatientRun(false, s, true);
    EagerRun(false, HeightStart(c, s));
  }

  /**
   * The same with a commit timeout that is set: a precommit for another block came before the commit,
   * and the last one missing comes after it. The run has them all and enters round 0. The replay has
   * restored a commit without the first of the two, and waits for the timer.
   */
  lemma DroppedPrecommitContradicts()
    ensures var c := Setup(false);
            var s := Replay(c, Genesis(c), PARTIAL);
            var log := [VoteMessage(THIRD)] + LOG;
            && s.height == 2 && s.step == NEW_HEIGHT && s.decided == map[1 := 3] && FIRES.ti in s.timeouts
            && FOR_8 in Replay(c, s, log).outputs && FOR_7 in Replay(c, HeightStart(c, s), log).outputs
  {
    var c, book := Setup(false), Added(Added(map[], OTHER), DECIDING);
    var s, u := Started(NEW_HEIGHT, book, ARMED), Started(NEW_HEIGHT, Added(map[], DECIDING), ARMED);
    var s1, u1 := Entered(false, Added(book, THIRD)), u.(votes := Added(u.votes, THIRD));
    PartialCommit();
    PartialRestored();
    LastPrecommit(book);
    LastPrecommit(u.votes);
    ReplayInParts(c, s, [VoteMessage(THIRD)], LOG);
    ReplayInParts(c, u, [VoteMessage(THIRD)], LOG);
    ReplayOne(c, s, VoteMessage(THIRD));
    ReplayOne(c, u, VoteMessage(THIRD));
    hide Replay, Handle, HeightStart;
    PatientRun(false, s1, true);
    EagerRun(false, u1);
  }

  /** A precommit of the last height that arrives in time, and may complete the commit. */
  lemma LastPrecommit(book: VoteBook)
    requires Earlier(book) && Slot(1, 0, Precommit, 3) !in book && Slot(1, 0, Precommit, 1) in book
    ensures var s := Started(NEW_HEIGHT, book, ARMED);
            Handle(Setup(false), s, VoteMessage(THIRD))
            == if Slot(1, 0, Precommit, 2) in book then Entered(false, Added(book, THIRD)) else s.(votes := Added(book, THIRD))
  {
    var s := Started(NEW_HEIGHT, book, ARMED);
    OneDecides(false, Added(book, THIRD), 1);
    Enters(false, Added(book, THIRD));
    hide TwoThirdsMajority, HasTwoThirdsAny, HasAll, EnterNewRound;
    assert CountVote(s, THIRD) == s.(votes := Added(book, THIRD));
  }

  /**
   * A validator that waits for transactions enters round 0 by its timer, as the replay of its log does.
   * Transactions arrive when the proposal is complete, and are not in the log. Here it is the run that
   * prevotes block 7 in round 1. It has precommitted that block in round 0, and the replay, which has
   * not, prevotes block 8.
   */
  lemma UnloggedTransactionsContradict()
    ensures var c := Setup(true);
            var s := Replay(c, Genesis(c), FULL);
            var events := [FIRES] + (EARLY + [TxsAvailable] + LATER + ROUND_1);
            && s.height == 2 && s.step == NEW_HEIGHT && s.decided == map[1 := 3] && FIRES.ti in s.timeouts
            && FOR_7 in Replay(c, s, events).outputs && SIGNED[1] in Replay(c, s, events).outputs
            && FOR_8 in Replay(c, HeightStart(c, s), Logged(events)).outputs
  {
    var c, s := Setup(true), Started(NEW_HEIGHT, ALL_3, ARMED);
    var rest := EARLY + [TxsAvailable] + LATER + ROUND_1;
    FullCommit(true);
    FullRestored(true, s);
    Enters(true, ALL_3);
    LoggedEvents();
    ReplayInParts(c, s, [FIRES], rest);
    ReplayInParts(c, s, [FIRES], EARLY + [] + LATER + ROUND_1);
    ReplayOne(c, s, FIRES);
    hide Replay, Handle, HeightStart, Logged;
    EagerRun(true, Entered(true, ALL_3));
    PatientRun(true, Entered(true, ALL_3), false);
  }

  lemma LoggedEvents()
    ensures Logged([FIRES] + (EARLY + [TxsAvailable] + LATER + ROUND_1)) == [FIRES] + (EARLY + [] + LATER + ROUND_1)
  {
    var a, b := [FIRES] + EARLY, LATER + ROUND_1;
    assert [FIRES] + (EARLY + [TxsAvailable] + LATER + ROUND_1) == (a + [TxsAvailable]) + b;
    assert [FIRES] + (EARLY + [] + LATER + ROUND_1) == a + b;
    LoggedInParts(a + [TxsAvailable], b);
    LoggedInParts(a, [TxsAvailable]);
    AllLogged(a);
    AllLogged(b);
    assert Logged([TxsAvailable]) == [];
  }

  lemma {:induction false} LoggedInParts(a: seq<Event>, b: seq<Event>)
    ensures Logged(a + b) == Logged(a) + Logged(b)
  {
    if |b| == 0 {
      assert a + b == a;
    } else {
      var n := |b| - 1;
      assert (a + b)[..|a| + n] == a + b[..n] && (a + b)[|a| + n] == b[n];
      LoggedInParts(a, b[..n]);
    }
  }

  lemma {:induction false} AllLogged(events: seq<Event>)
    requires forall e :: e in events ==> IsLogged(e)
    ensures Logged(events) == events
  {
    if |events| > 0 {
      AllLogged(events[..|events| - 1]);
    }
  }
}
