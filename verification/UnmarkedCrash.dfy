/**
 * A run in which two correct validators finalize different blocks. Validator 1 crashes while
 * committing height 1, before the end-of-height marker is written, and so starts height 2 without
 * one. When it crashes again at height 2 its log is not replayed, and it forgets its lock.
 *
 * What it releases never contradicts what it released before in the same round, so the last sign
 * state of its private validator does not stand in the way.
 */
module UnmarkedCrash {
  import opened Common
  import opened VotingPower
  import opened ConsensusSpec
  import opened ConsensusReplay
  import opened ConsensusInvariant
  import opened Agreement

  /** Validators 0 and 1 are correct and 2 is faulty; at height 1 validator 1 is alone. */
  function Powers(h: int): seq<nat> {
    if h == 1 then [0, 1, 0] else [2, 5, 2]
  }

  function Chain(): Config {
    Config(0, 1, Powers, (_, _) => 9, (_, _) => true, (_, _) => true, _ => true, _ => false, false, false, false)
  }

  function Three(): Net {
    Net(Chain(), {0, 1}, {2}, _ => false, _ => false, _ => false)
  }

  function C(p: nat): Config {
    ConfigOf(Three(), p)
  }

  /** The faulty validator holds less than a third. */
  lemma ThreeIsFine()
    ensures Assumptions(Three())
  {
    forall h ensures 3 * Tally(Powers(h), {2}) < Total(Powers(h)) {
      TallyOfThree(Powers(h), {2});
    }
  }

  /** Validators 1 and 2 together have two thirds, and at height 1 validator 1 has them alone. */
  function Decided(votes: VoteBook, h: int, r: int, k: VoteType): Option<Value> {
    var one, two := Slot(h, r, k, 1), Slot(h, r, k, 2);
    if one in votes && (h == 1 || (two in votes && votes[two] == votes[one])) then Some(votes[one]) else None
  }

  lemma Counting(p: nat, votes: VoteBook, h: int)
    requires forall r, k :: Slot(h, r, k, 0) !in votes
    ensures forall r, k :: TwoThirdsMajority(C(p), votes, h, r, k) == Decided(votes, h, r, k)
    ensures forall r, k :: HasTwoThirdsAny(C(p), votes, h, r, k)
                           == (Slot(h, r, k, 1) in votes && (h == 1 || Slot(h, r, k, 2) in votes))
  {
    var c := C(p);
    forall r, k
      ensures HasTwoThirdsAny(c, votes, h, r, k) == (Slot(h, r, k, 1) in votes && (h == 1 || Slot(h, r, k, 2) in votes))
    {
      TallyOfThree(Powers(h), AnyVoters(c, votes, h, r, k));
    }
    forall r, k, v ensures IsMajority(c, votes, h, r, k, v) <==> Decided(votes, h, r, k) == Some(v) {
      TallyOfThree(Powers(h), Voters(c, votes, h, r, k, v));
    }
    hide IsMajority;
    forall r, k ensures TwoThirdsMajority(c, votes, h, r, k) == Decided(votes, h, r, k) {
      var m, d := TwoThirdsMajority(c, votes, h, r, k), Decided(votes, h, r, k);
      if d.Some? { assert IsMajority(c, votes, h, r, k, d.value); }
      if m.Some? { assert IsMajority(c, votes, h, r, k, m.value); }
    }
  }

  // ----- height 1 -----

  const PREVOTE_1: Vote := Vote(1, 0, Prevote, 1, Block(1))
  const PRECOMMIT_1: Vote := Vote(1, 0, Precommit, 1, Block(1))

  function Key(v: Vote): Slot {
    Slot(v.height, v.round, v.kind, v.validator)
  }

  const COMMITTED: VoteBook := map[Key(PREVOTE_1) := Block(1), Key(PRECOMMIT_1) := Block(1)]
  const SIGNED_1: seq<Output> := [Ballot(PREVOTE_1), Ballot(PRECOMMIT_1)]

  /** A validator at the start of height 2. */
  function Start2(votes: VoteBook, timeouts: set<Timeout>, outputs: seq<Output>): RoundState {
    RoundState(2, 0, NEW_HEIGHT, 1, 0, None, None, None, -1, None, -1, None, -1, false,
               votes, timeouts, outputs, map[1 := 1], Running)
  }

  const TIMERS_1: set<Timeout> := {Timeout(1, 0, NEW_HEIGHT), Timeout(2, 0, NEW_HEIGHT)}

  /** Validator 1 after each of its four inputs at height 1. */
  function First(k: nat): RoundState {
    var g := Genesis(C(1));
    var a1 := g.(proposal := Some(Proposal(1, 0, -1, 1)), proposalParts := Some(1));
    var a2 := a1.(proposalBlock := Some(1), step := PREVOTE, outputs := SIGNED_1[..1]);
    var a3 := a2.(votes := map[Key(PREVOTE_1) := Block(1)], validRound := 0, validBlock := Some(1),
               lockedRound := 0, lockedBlock := Some(1), step := PRECOMMIT, outputs := SIGNED_1);
    if k == 0 then g else if k == 1 then a1 else if k == 2 then a2 else if k == 3 then a3 else Start2(COMMITTED, TIMERS_1, SIGNED_1)
  }

  const FIRST: seq<Event> := [
    ProposalMessage(Proposal(1, 0, -1, 1)), LastBlockPart(1, 1), VoteMessage(PREVOTE_1), VoteMessage(PRECOMMIT_1)]

  lemma FirstProposal()
    ensures Handle(C(1), First(0), FIRST[0]) == First(1)
    ensures Handle(C(1), First(1), FIRST[1]) == First(2)
  {
    Counting(1, map[], 1);
    hide TwoThirdsMajority, HasTwoThirdsAny;
  }

  lemma FirstPolka()
    ensures Handle(C(1), First(2), FIRST[2]) == First(3)
  {
    var c, s := C(1), First(2);
    var s1 := s.(votes := map[Key(PREVOTE_1) := Block(1)]);
    Counting(1, s1.votes, 1);
    hide TwoThirdsMajority, HasTwoThirdsAny;
    assert CountVote(s, PREVOTE_1) == s1;
    var s2 := s1.(validRound := 0, validBlock := Some(1));
    assert OnPolka(s1, 0, Block(1)) == s2;
    assert PolRound(c, s2.votes, 1, 1) == 0;
    assert EnterPrecommit(c, s2, 1, 0) == First(3);
  }

  lemma FirstCommit()
    ensures Handle(C(1), First(3), FIRST[3]) == First(4)
  {
    var c, s := C(1), First(3);
    Counting(1, COMMITTED, 1);
    hide TwoThirdsMajority, HasTwoThirdsAny;
    var s1 := s.(votes := COMMITTED);
    assert CountVote(s, PRECOMMIT_1) == s1;
    var s2 := s1.(step := COMMIT, commitRound := 0);
    assert Stored(s2, 1, 1).decided == map[1 := 1];
    assert FinalizeCommit(c, s2, 1) == First(4);
    assert EnterCommit(c, s1, 1, 0) == First(4);
  }

  /** Validator 0 learns of the commit and fetches the block. */
  const TIMERS_0: set<Timeout> := {Timeout(1, 0, NEW_HEIGHT), Timeout(1, 0, PROPOSE), Timeout(2, 0, NEW_HEIGHT)}
  const LEARNED: VoteBook := map[Key(PRECOMMIT_1) := Block(1)]

  function Fetching(): RoundState {
    Genesis(C(0)).(votes := LEARNED, timeouts := {Timeout(1, 0, NEW_HEIGHT), Timeout(1, 0, PROPOSE)},
    step := COMMIT, commitRound := 0, proposalParts := Some(1))
  }

  lemma OtherLearns()
    ensures Handle(C(0), Genesis(C(0)), VoteMessage(PRECOMMIT_1)) == Fetching()
  {
    var c, s := C(0), Genesis(C(0));
    Counting(0, LEARNED, 1);
    hide TwoThirdsMajority, HasTwoThirdsAny;
    var s1 := s.(votes := LEARNED);
    assert CountVote(s, PRECOMMIT_1) == s1;
    var s2 := s1.(step := PROPOSE, timeouts := Fetching().timeouts);
    assert EnterNewRound(c, s1, 1, 0) == s2;
    assert EnterPrecommit(c, s2, 1, 0) == s2.(step := PRECOMMIT);
    assert EnterCommit(c, s2.(step := PRECOMMIT), 1, 0) == Fetching();
  }

  lemma OtherCommits()
    ensures Handle(C(0), Fetching(), LastBlockPart(1, 1)) == Start2(LEARNED, TIMERS_0, [])
  {
    var c, s := C(0), Fetching().(proposalBlock := Some(1));
    Counting(0, LEARNED, 1);
    hide TwoThirdsMajority, HasTwoThirdsAny;
    assert Stored(s, 1, 1).decided == map[1 := 1];
    assert FinalizeCommit(c, s, 1) == Start2(LEARNED, TIMERS_0, []);
  }

  // ----- height 2, round 0: block 5 -----

  function Prevote2(r: int, i: nat, b: nat): Vote { Vote(2, r, Prevote, i, Block(b)) }

  function Precommit2(r: int, i: nat, v: Value): Vote { Vote(2, r, Precommit, i, v) }

  const BASE: RoundState := Start2(COMMITTED, TIMERS_1, SIGNED_1)

  /** Validator 1 after prevoting block b in round r of height 2, from a state with nothing proposed. */
  function Prevoted(s: RoundState, r: int, b: nat): RoundState {
    s.(proposal := Some(Proposal(2, r, -1, b)), proposalParts := Some(b), proposalBlock := Some(b), step := PREVOTE,
       outputs := s.outputs + [Ballot(Prevote2(r, 1, b))])
  }

  lemma Prevotes(s: RoundState, r: int, b: nat)
    requires s == BASE.(round := r, step := s.step, votes := s.votes, timeouts := s.timeouts, outputs := s.outputs)
    requires (r == 0 && s.step == NEW_HEIGHT) || (r == 1 && s.step == PROPOSE)
    requires forall k :: Slot(2, r, Prevote, k) !in s.votes
    ensures var s1 := Handle(C(1), s, ProposalMessage(Proposal(2, r, -1, b)));
            s1.outputs == s.outputs && s1.height == 2 && s1.timeouts == s.timeouts
            && Handle(C(1), s1, LastBlockPart(2, b)) == Prevoted(s, r, b)
  {
    var c := C(1);
    var p := Proposal(2, r, -1, b);
    var s1 := s.(proposal := Some(p), proposalParts := Some(b));
    NoPolka(1, s.votes, r);
    hide TwoThirdsMajority, HasTwoThirdsAny;
    assert Handle(c, s, ProposalMessage(p)) == s1;
    var s2 := s1.(proposalBlock := Some(b));
    assert EnterPrevote(c, s2, 2, r) == Prevoted(s, r, b);
  }

  /** Without votes there is no majority. */
  lemma NoPolka(p: nat, votes: VoteBook, r: int)
    requires forall i :: Slot(2, r, Prevote, i) !in votes
    ensures TwoThirdsMajority(C(p), votes, 2, r, Prevote).None?
  {
    MajorityIsUnique(C(p), votes, 2, r, Prevote);
  }

  /** Its own prevote and that of the faulty validator make it precommit the block and lock it. */
  function Locked(s: RoundState, r: int, b: nat): RoundState {
    Prevoted(s, r, b).(votes := s.votes[Slot(2, r, Prevote, 1) := Block(b)][Slot(2, r, Prevote, 2) := Block(b)],
    validRound := r, validBlock := Some(b), lockedRound := r, lockedBlock := Some(b), step := PRECOMMIT,
    outputs := Prevoted(s, r, b).outputs + [Ballot(Precommit2(r, 1, Block(b)))])
  }

  lemma OwnPrevote(s: RoundState, r: int, b: nat)
    requires s.height == 2 && s.round == r && s.lockedBlock.None? && s.validRound == -1 && s.halt == Running
    requires (forall i :: Slot(2, r, Prevote, i) !in s.votes) && (forall r, k :: Slot(2, r, k, 0) !in s.votes)
    ensures Handle(C(1), Prevoted(s, r, b), VoteMessage(Prevote2(r, 1, b)))
         == Prevoted(s, r, b).(votes := s.votes[Slot(2, r, Prevote, 1) := Block(b)])
  {
    var c, u := C(1), Prevoted(s, r, b);
    var u1 := u.(votes := s.votes[Slot(2, r, Prevote, 1) := Block(b)]);
    Counting(1, u1.votes, 2);
    hide TwoThirdsMajority, HasTwoThirdsAny;
    assert CountVote(u, Prevote2(r, 1, b)) == u1;
    assert PolkaReaction(c, u1, r, None) == u1;
  }

  lemma FaultyPrevote(s: RoundState, r: int, b: nat)
    requires s.height == 2 && s.round == r >= 0 && s.halt == Running
    requires s.lockedBlock.None? && s.lockedRound == -1 && s.validRound == -1
    requires (forall i :: Slot(2, r, Prevote, i) !in s.votes) && (forall r, k :: Slot(2, r, k, 0) !in s.votes)
    ensures Handle(C(1), Prevoted(s, r, b).(votes := s.votes[Slot(2, r, Prevote, 1) := Block(b)]), VoteMessage(Prevote2(r, 2, b)))
         == Locked(s, r, b)
  {
    var c, u := C(1), Prevoted(s, r, b).(votes := s.votes[Slot(2, r, Prevote, 1) := Block(b)]);
    var u1 := u.(votes := u.votes[Slot(2, r, Prevote, 2) := Block(b)]);
    Counting(1, u1.votes, 2);
    var u2 := u1.(validRound := r, validBlock := Some(b));
    PolkaIsRecent(c, u2, Some(Block(b))) by { assert Decided(u1.votes, 2, r, Prevote) == Some(Block(b)); }
    hide TwoThirdsMajority, HasTwoThirdsAny, PolkaIsOld;
    assert CountVote(u, Prevote2(r, 2, b)) == u1;
    assert OnPolka(u1, r, Block(b)) == u2;
    assert EnterPrecommit(c, u2, 2, r) == Locked(s, r, b);
  }

  /** Validator 0 counts the precommits of the two for block 5, fetches it and finalizes it. */
  const OTHER: RoundState := Start2(LEARNED, TIMERS_0, [])

  lemma OtherCountsOne()
    ensures Handle(C(0), OTHER, VoteMessage(Precommit2(0, 1, Block(5))))
         == OTHER.(votes := LEARNED[Slot(2, 0, Precommit, 1) := Block(5)])
  {
    var votes := LEARNED[Slot(2, 0, Precommit, 1) := Block(5)];
    Counting(0, votes, 2);
    hide TwoThirdsMajority, HasTwoThirdsAny;
    assert CountVote(OTHER, Precommit2(0, 1, Block(5))) == OTHER.(votes := votes);
  }

  function Fetching5(): RoundState {
    OTHER.(votes := LEARNED[Slot(2, 0, Precommit, 1) := Block(5)][Slot(2, 0, Precommit, 2) := Block(5)],
    timeouts := TIMERS_0 + {Timeout(2, 0, PROPOSE)}, outputs := [Ballot(Precommit2(0, 0, Nil))],
    step := COMMIT, commitRound := 0, proposalParts := Some(5))
  }

  lemma OtherCountsBoth()
    ensures Handle(C(0), OTHER.(votes := LEARNED[Slot(2, 0, Precommit, 1) := Block(5)]), VoteMessage(Precommit2(0, 2, Block(5))))
         == Fetching5()
  {
    var c, s := C(0), OTHER.(votes := LEARNED[Slot(2, 0, Precommit, 1) := Block(5)]);
    Counting(0, Fetching5().votes, 2);
    hide TwoThirdsMajority, HasTwoThirdsAny;
    var s1 := s.(votes := Fetching5().votes);
    assert CountVote(s, Precommit2(0, 2, Block(5))) == s1;
    var s2 := s1.(step := PROPOSE, timeouts := Fetching5().timeouts);
    assert EnterNewRound(c, s1, 2, 0) == s2;
    var s3 := s2.(step := PRECOMMIT, outputs := Fetching5().outputs);
    assert EnterPrecommit(c, s2, 2, 0) == s3;
    assert EnterCommit(c, s3, 2, 0) == Fetching5();
  }

  lemma OtherFinalizes5()
    ensures var t := Handle(C(0), Fetching5(), LastBlockPart(2, 5)); t.height == 3 && t.decided == map[1 := 1, 2 := 5]
  {
    var c, s := C(0), Fetching5().(proposalBlock := Some(5));
    Counting(0, s.votes, 2);
    hide TwoThirdsMajority, HasTwoThirdsAny;
    assert Stored(s, 2, 5).decided == map[1 := 1, 2 := 5];
    assert FinalizeCommit(c, s, 2).decided == map[1 := 1, 2 := 5];
  }

  // ----- height 2, after the crash: block 6 in round 1 -----

  const ONE: VoteBook := COMMITTED[Slot(2, 0, Precommit, 1) := Block(5)]
  const BOTH: VoteBook := ONE[Slot(2, 0, Precommit, 2) := Nil]

  lemma CountsOwnPrecommit()
    ensures Handle(C(1), BASE, VoteMessage(Precommit2(0, 1, Block(5)))) == BASE.(votes := ONE)
  {
    Counting(1, ONE, 2);
    hide TwoThirdsMajority, HasTwoThirdsAny;
    assert CountVote(BASE, Precommit2(0, 1, Block(5))) == BASE.(votes := ONE);
  }

  const WAITING: RoundState := BASE.(votes := BOTH, step := PROPOSE, triggeredPrecommitWait := true,
    timeouts := TIMERS_1 + {Timeout(2, 0, PROPOSE)} + {Timeout(2, 0, PRECOMMIT_WAIT)})

  /** The two precommits are for different values, so it waits for the round to end. */
  lemma Waits()
    ensures Handle(C(1), BASE.(votes := ONE), VoteMessage(Precommit2(0, 2, Nil))) == WAITING
  {
    var c, s := C(1), BASE.(votes := ONE);
    Counting(1, BOTH, 2);
    hide TwoThirdsMajority, HasTwoThirdsAny;
    var s1 := s.(votes := BOTH);
    assert CountVote(s, Precommit2(0, 2, Nil)) == s1;
    var s2 := s1.(step := PROPOSE, timeouts := TIMERS_1 + {Timeout(2, 0, PROPOSE)});
    assert EnterNewRound(c, s1, 2, 0) == s2;
    assert EnterPrecommitWait(c, s2, 2, 0) == WAITING;
  }

  const ROUND_1: RoundState := BASE.(round := 1, votes := BOTH, step := PROPOSE,
    outputs := SIGNED_1 + [Ballot(Precommit2(0, 1, Nil))], timeouts := WAITING.timeouts + {Timeout(2, 1, PROPOSE)})

  lemma NextRound()
    ensures Handle(C(1), WAITING, Tock(Timeout(2, 0, PRECOMMIT_WAIT))) == ROUND_1
  {
    var c := C(1);
    Counting(1, BOTH, 2);
    hide TwoThirdsMajority, HasTwoThirdsAny;
    var s := WAITING.(step := PRECOMMIT, outputs := ROUND_1.outputs);
    assert EnterPrecommit(c, WAITING, 2, 0) == s;
    assert EnterNewRound(c, s, 2, 1) == ROUND_1;
  }

  const LOCKED_6: RoundState := Locked(ROUND_1, 1, 6)

  lemma CountsOwnPrecommit6()
    ensures Handle(C(1), LOCKED_6, VoteMessage(Precommit2(1, 1, Block(6))))
         == LOCKED_6.(votes := LOCKED_6.votes[Slot(2, 1, Precommit, 1) := Block(6)])
  {
    var s1 := LOCKED_6.(votes := LOCKED_6.votes[Slot(2, 1, Precommit, 1) := Block(6)]);
    Counting(1, s1.votes, 2);
    hide TwoThirdsMajority, HasTwoThirdsAny;
    assert CountVote(LOCKED_6, Precommit2(1, 1, Block(6))) == s1;
  }

  /** Block 6 has both precommits of round 1. */
  const READY_6: RoundState := LOCKED_6.(
    votes := LOCKED_6.votes[Slot(2, 1, Precommit, 1) := Block(6)][Slot(2, 1, Precommit, 2) := Block(6)])

  lemma Stores6()
    ensures var t := FinalizeCommit(C(1), READY_6.(step := COMMIT, commitRound := 1), 2);
            t.height == 3 && t.decided == map[1 := 1, 2 := 6]
  {
    var s := READY_6.(step := COMMIT, commitRound := 1);
    Counting(1, READY_6.votes, 2);
    hide TwoThirdsMajority, HasTwoThirdsAny;
    assert Stored(s, 2, 6).decided == map[1 := 1, 2 := 6];
  }

  lemma Commits6()
    ensures EnterCommit(C(1), READY_6, 2, 1) == FinalizeCommit(C(1), READY_6.(step := COMMIT, commitRound := 1), 2)
  {
    Counting(1, READY_6.votes, 2);
    hide TwoThirdsMajority, HasTwoThirdsAny, FinalizeCommit;
  }

  /** It is in round 1 and has precommitted already. */
  lemma StaysInRound1()
    ensures EnterNewRound(C(1), READY_6, 2, 1) == READY_6 && EnterPrecommit(C(1), READY_6, 2, 1) == READY_6
  {
  }

  lemma CommitFollows()
    ensures OnPrecommit(C(1), READY_6, 1) == EnterCommit(C(1), READY_6, 2, 1)
  {
    StaysInRound1();
    Counting(1, READY_6.votes, 2);
    assert Decided(READY_6.votes, 2, 1, Precommit) == Some(Block(6));
    hide TwoThirdsMajority, HasTwoThirdsAny, HasAll, EnterCommit, EnterPrecommit, EnterNewRound, Decided;
  }

  lemma Finalizes6()
    ensures var s := LOCKED_6.(votes := LOCKED_6.votes[Slot(2, 1, Precommit, 1) := Block(6)]);
            var t := Handle(C(1), s, VoteMessage(Precommit2(1, 2, Block(6))));
            t.height == 3 && t.decided == map[1 := 1, 2 := 6]
  {
    var s := LOCKED_6.(votes := LOCKED_6.votes[Slot(2, 1, Precommit, 1) := Block(6)]);
    Stores6();
    Commits6();
    CommitFollows();
    hide EnterCommit, FinalizeCommit, OnPrecommit, OnPrevote;
    assert CountVote(s, Precommit2(1, 2, Block(6))) == READY_6;
  }

  ghost predicate NoDoubleVote(log: seq<Vote>) {
    forall v, w | v in log && w in log && v.validator == w.validator && v.height == w.height && v.round == w.round
                  && v.kind == w.kind :: v == w
  }

  // ----- the run of the network -----

  /** Some run ends in the world w. */
  ghost predicate Reached(w: World) {
    exists run, actions :: IsRun(Three(), run, actions) && run[|run| - 1] == w
  }

  lemma Extend(w: World, w': World, a: Action)
    requires Reached(w) && Next(Three(), w, w', a)
    ensures Reached(w')
  {
    var run, actions :| IsRun(Three(), run, actions) && run[|run| - 1] == w;
    hide Next, Init;
    var run', actions' := run + [w'], actions + [a];
    forall i | 0 <= i < |actions'| ensures Next(Three(), run'[i], run'[i + 1], actions'[i]) {
      if i < |actions| {
        assert run'[i] == run[i] && run'[i + 1] == run[i + 1] && actions'[i] == actions[i];
      }
    }
    assert run'[0] == run[0];
    assert IsRun(Three(), run', actions');
  }

  /** What is said about a world between two steps: both validators are there, with sound logs. */
  ghost predicate Sound(w: World) {
    Reached(w) && w.nodes.Keys == {0, 1} && w.nodes[0].durable <= |w.nodes[0].wal| && w.nodes[1].durable <= |w.nodes[1].wal|
  }

  /** Validator p handles e, flushing its log, and releases the votes given. */
  lemma Input(w: World, p: nat, e: Event, released: seq<Vote>, marked: bool) returns (w': World)
    requires Sound(w) && p in w.nodes && Deliverable(Three(), w, w.nodes[p].s, e) && !e.TxsAvailable?
    requires forall v :: v in released ==> SignedBetween(w.nodes[p].s, Handle(C(p), w.nodes[p].s, e), p, v)
    ensures Sound(w') && w'.log == w.log + released
    ensures forall q :: q in w.nodes && q != p ==> w'.nodes[q] == w.nodes[q]
    ensures var n, n', t := w.nodes[p], w'.nodes[p], Handle(C(p), w.nodes[p].s, e);
            if t.height == n.s.height then n'.s == t && n'.base == n.base && n'.marked == n.marked else n' == AfterCommit(C(p), t, marked)
  {
    hide HeightStart, Replay;
    var n := w.nodes[p];
    var t, wal := Handle(C(p), n.s, e), n.wal + [e];
    var n' := if t.height != n.s.height then AfterCommit(C(p), t, marked) else AfterInput(C(p), n, e, t, wal, |wal|);
    w' := World(w.nodes[p := n'], w.log + released);
    hide Handle, Deliverable, SignedBetween, Late, Reached;
    Extend(w, w', Deliver(p, e, released, |wal|, marked));
  }

  /** An input within a height that takes validator p from s to t, and makes it sign v. */
  lemma InputSigns(w: World, p: nat, e: Event, s: RoundState, t: RoundState, v: Vote) returns (w': World)
    requires Sound(w) && p in w.nodes && w.nodes[p].s == s && Deliverable(Three(), w, s, e) && !e.TxsAvailable?
    requires t == Handle(C(p), s, e) && t.height == s.height && t.outputs == s.outputs + [Ballot(v)] && v.validator == p
    ensures Sound(w') && w'.log == w.log + [v] && w'.nodes.Keys == w.nodes.Keys && w'.nodes[p].s == t
    ensures w'.nodes[p].base == w.nodes[p].base && w'.nodes[p].marked == w.nodes[p].marked
    ensures forall q :: q in w.nodes && q != p ==> w'.nodes[q] == w.nodes[q]
  {
    assert t.outputs[|s.outputs|] == Ballot(v) && SignedBy(p, Ballot(v)) == v;
    hide Handle, Deliverable;
    w' := Input(w, p, e, [v], true);
  }

  /** An input within a height that takes validator p from s to t. */
  lemma InputOnly(w: World, p: nat, e: Event, s: RoundState, t: RoundState) returns (w': World)
    requires Sound(w) && p in w.nodes && w.nodes[p].s == s && Deliverable(Three(), w, s, e) && !e.TxsAvailable?
    requires t == Handle(C(p), s, e) && t.height == s.height
    ensures Sound(w') && w'.log == w.log && w'.nodes.Keys == w.nodes.Keys && w'.nodes[p].s == t
    ensures w'.nodes[p].base == w.nodes[p].base && w'.nodes[p].marked == w.nodes[p].marked
    ensures forall q :: q in w.nodes && q != p ==> w'.nodes[q] == w.nodes[q]
  {
    hide Handle, Deliverable;
    w' := Input(w, p, e, [], true);
    assert w.log + [] == w.log;
  }

  /** An input that makes validator p commit. */
  lemma InputCommits(w: World, p: nat, e: Event, s: RoundState, t: RoundState, marked: bool) returns (w': World)
    requires Sound(w) && p in w.nodes && w.nodes[p].s == s && Deliverable(Three(), w, s, e) && !e.TxsAvailable?
    requires t == Handle(C(p), s, e) && t.height != s.height
    ensures Sound(w') && w'.log == w.log && w'.nodes.Keys == w.nodes.Keys && w'.nodes[p] == AfterCommit(C(p), t, marked)
    ensures forall q :: q in w.nodes && q != p ==> w'.nodes[q] == w.nodes[q]
  {
    hide Handle, Deliverable;
    w' := Input(w, p, e, [], marked);
    assert w.log + [] == w.log;
  }

  lemma Begin() returns (w: World)
    ensures Sound(w) && w.log == [] && w.nodes[0].s == Genesis(C(0)) && w.nodes[1].s == First(0)
  {
    w := World(map p | p in {0, 1} :: Node(Genesis(C(p)), Genesis(C(p)), [], 0, true, false), []);
    assert Init(Three(), w);
    var actions: seq<Action> := [];
    assert IsRun(Three(), [w], actions) && [w][|[w]| - 1] == w;
  }

  lemma OnePrevotes(w: World) returns (w': World)
    requires Sound(w) && w.nodes[1].s == First(0)
    ensures Sound(w') && w'.log == w.log + [PREVOTE_1] && w'.nodes[0] == w.nodes[0] && w'.nodes[1].s == First(2)
  {
    FirstProposal();
    assert First(2).outputs == First(1).outputs + [Ballot(PREVOTE_1)];
    assert First(0).height == First(1).height == First(2).height;
    assert w.nodes.Keys == {0, 1};
    hide Handle, Sound, First, Ballot;
    w' := InputOnly(w, 1, FIRST[0], First(0), First(1));
    w' := InputSigns(w', 1, FIRST[1], First(1), First(2), PREVOTE_1);
  }

  /** Validator 1 commits height 1 and crashes in the act, before the marker is written. */
  lemma OneCommits(w: World) returns (w': World)
    requires Sound(w) && w.nodes[1].s == First(2) && PREVOTE_1 in w.log
    ensures Sound(w') && w'.log == w.log + [PRECOMMIT_1] && w'.nodes[0] == w.nodes[0]
    ensures w'.nodes[1] == AfterCommit(C(1), First(4), false)
  {
    FirstPolka();
    FirstCommit();
    assert First(3).outputs == First(2).outputs + [Ballot(PRECOMMIT_1)];
    assert First(2).height == First(3).height == 1 && First(4).height == 2;
    assert w.nodes.Keys == {0, 1};
    hide Handle, Sound, First, Ballot;
    w' := InputSigns(w, 1, FIRST[2], First(2), First(3), PRECOMMIT_1);
    w' := InputCommits(w', 1, FIRST[3], First(3), First(4), false);
  }

  lemma OtherCommitsToo(w: World) returns (w': World)
    requires Sound(w) && w.nodes[0].s == Genesis(C(0)) && PRECOMMIT_1 in w.log
    ensures Sound(w') && w'.log == w.log && w'.nodes[0].s == OTHER && w'.nodes[1] == w.nodes[1]
  {
    OtherLearns();
    OtherCommits();
    assert Genesis(C(0)).height == Fetching().height == 1 && OTHER.height == 2;
    assert w.nodes.Keys == {0, 1};
    hide Handle, Sound, Genesis, Fetching;
    w' := InputOnly(w, 0, VoteMessage(PRECOMMIT_1), Genesis(C(0)), Fetching());
    w' := InputCommits(w', 0, LastBlockPart(1, 1), Fetching(), OTHER, true);
  }

  /** A state of validator 1 at height 2 in which nothing is proposed or locked. */
  ghost predicate Open(s: RoundState, r: int) {
    && s == BASE.(round := r, step := s.step, votes := s.votes, timeouts := s.timeouts, outputs := s.outputs)
    && ((r == 0 && s.step == NEW_HEIGHT) || (r == 1 && s.step == PROPOSE))
    && (forall i :: Slot(2, r, Prevote, i) !in s.votes) && (forall r, k :: Slot(2, r, k, 0) !in s.votes)
  }

  lemma OnePrevotesBlock(w: World, s: RoundState, r: int, b: nat) returns (w': World)
    requires Sound(w) && w.nodes[1].s == s && Open(s, r)
    ensures Sound(w') && w'.log == w.log + [Prevote2(r, 1, b)]
    ensures w'.nodes[0] == w.nodes[0] && w'.nodes[1].s == Prevoted(s, r, b)
    ensures w'.nodes[1].base == w.nodes[1].base && w'.nodes[1].marked == w.nodes[1].marked
  {
    var p := ProposalMessage(Proposal(2, r, -1, b));
    var s1, s2 := Handle(C(1), s, p), Prevoted(s, r, b);
    Prevotes(s, r, b);
    assert s2.outputs == s1.outputs + [Ballot(Prevote2(r, 1, b))] && s1.height == s2.height == s.height;
    assert w.nodes.Keys == {0, 1};
    hide Handle, Sound, Open, Prevoted, Ballot;
    w' := InputOnly(w, 1, p, s, s1);
    w' := InputSigns(w', 1, LastBlockPart(2, b), s1, s2, Prevote2(r, 1, b));
  }

  lemma OnePrecommitsBlock(w: World, s: RoundState, r: int, b: nat) returns (w': World)
    requires Sound(w) && w.nodes[1].s == Prevoted(s, r, b) && Open(s, r) && Prevote2(r, 1, b) in w.log
    ensures Sound(w') && w'.log == w.log + [Precommit2(r, 1, Block(b))]
    ensures w'.nodes[0] == w.nodes[0] && w'.nodes[1].s == Locked(s, r, b)
    ensures w'.nodes[1].base == w.nodes[1].base && w'.nodes[1].marked == w.nodes[1].marked
  {
    var s2, s3 := Prevoted(s, r, b), Prevoted(s, r, b).(votes := s.votes[Slot(2, r, Prevote, 1) := Block(b)]);
    OwnPrevote(s, r, b);
    FaultyPrevote(s, r, b);
    assert Locked(s, r, b).outputs == s3.outputs + [Ballot(Precommit2(r, 1, Block(b)))];
    assert s2.height == s3.height == Locked(s, r, b).height && r >= 0;
    assert w.nodes.Keys == {0, 1};
    hide Handle, Sound, Open, Prevoted, Locked, Ballot;
    w' := InputOnly(w, 1, VoteMessage(Prevote2(r, 1, b)), s2, s3);
    w' := InputSigns(w', 1, VoteMessage(Prevote2(r, 2, b)), s3, Locked(s, r, b), Precommit2(r, 1, Block(b)));
  }

  /** Validator 1 precommits block b in round r of height 2. */
  lemma OneLocks(w: World, s: RoundState, r: int, b: nat) returns (w': World)
    requires Sound(w) && w.nodes[1].s == s && Open(s, r)
    ensures Sound(w') && w'.log == w.log + [Prevote2(r, 1, b), Precommit2(r, 1, Block(b))]
    ensures w'.nodes[0] == w.nodes[0] && w'.nodes[1].s == Locked(s, r, b)
    ensures w'.nodes[1].base == w.nodes[1].base && w'.nodes[1].marked == w.nodes[1].marked
  {
    hide Reached, Open, Prevoted, Locked;
    w' := OnePrevotesBlock(w, s, r, b);
    w' := OnePrecommitsBlock(w', s, r, b);
    assert w.log + [Prevote2(r, 1, b)] + [Precommit2(r, 1, Block(b))] == w.log + [Prevote2(r, 1, b), Precommit2(r, 1, Block(b))];
  }

  /** Validator 0 finalizes block 5. */
  lemma OtherDecides5(w: World) returns (w': World)
    requires Sound(w) && w.nodes[0].s == OTHER && Precommit2(0, 1, Block(5)) in w.log
    ensures Sound(w') && w'.log == w.log && w'.nodes[1] == w.nodes[1] && w'.nodes[0].s.decided == map[1 := 1, 2 := 5]
  {
    var s1, t := OTHER.(votes := LEARNED[Slot(2, 0, Precommit, 1) := Block(5)]), Handle(C(0), Fetching5(), LastBlockPart(2, 5));
    OtherCountsOne();
    OtherCountsBoth();
    OtherFinalizes5();
    assert OTHER.height == s1.height == Fetching5().height == 2;
    assert w.nodes.Keys == {0, 1};
    hide Handle, Sound, Fetching5;
    w' := InputOnly(w, 0, VoteMessage(Precommit2(0, 1, Block(5))), OTHER, s1);
    w' := InputOnly(w', 0, VoteMessage(Precommit2(0, 2, Block(5))), s1, Fetching5());
    w' := InputCommits(w', 0, LastBlockPart(2, 5), Fetching5(), t, true);
  }

  /** Validator 1 crashes at height 2, and starts it over. */
  lemma OneCrashes(w: World) returns (w': World)
    requires Sound(w) && !w.nodes[1].marked && w.nodes[1].base == BASE
    ensures Sound(w') && w'.log == w.log && w'.nodes[0] == w.nodes[0] && w'.nodes[1].s == BASE
  {
    w' := World(w.nodes[1 := Node(BASE, BASE, [], 0, false, false)], w.log + []);
    hide Reached;
    Extend(w, w', Crash(1, 0, []));
    assert w.log + [] == w.log;
  }

  /** Back at the start of height 2, validator 1 gets to round 1. */
  lemma OneMovesOn(w: World) returns (w': World)
    requires Sound(w) && w.nodes[1].s == BASE && Precommit2(0, 1, Block(5)) in w.log
    ensures Sound(w') && w'.log == w.log && w'.nodes[0] == w.nodes[0] && w'.nodes[1].s == ROUND_1
  {
    CountsOwnPrecommit();
    Waits();
    NextRound();
    assert w.nodes.Keys == {0, 1};
    hide Handle, Sound;
    w' := InputOnly(w, 1, VoteMessage(Precommit2(0, 1, Block(5))), BASE, BASE.(votes := ONE));
    w' := InputOnly(w', 1, VoteMessage(Precommit2(0, 2, Nil)), BASE.(votes := ONE), WAITING);
    w' := InputOnly(w', 1, Tock(Timeout(2, 0, PRECOMMIT_WAIT)), WAITING, ROUND_1);
  }

  /** Validator 1 finalizes block 6. */
  lemma OneDecides6(w: World) returns (w': World)
    requires Sound(w) && w.nodes[1].s == LOCKED_6 && Precommit2(1, 1, Block(6)) in w.log
    ensures Sound(w') && w'.log == w.log && w'.nodes[0] == w.nodes[0] && w'.nodes[1].s.decided == map[1 := 1, 2 := 6]
  {
    var s1 := LOCKED_6.(votes := LOCKED_6.votes[Slot(2, 1, Precommit, 1) := Block(6)]);
    var t := Handle(C(1), s1, VoteMessage(Precommit2(1, 2, Block(6))));
    CountsOwnPrecommit6();
    Finalizes6();
    assert LOCKED_6.height == s1.height == 2;
    assert w.nodes.Keys == {0, 1};
    hide Handle, Sound;
    w' := InputOnly(w, 1, VoteMessage(Precommit2(1, 1, Block(6))), LOCKED_6, s1);
    w' := InputCommits(w', 1, VoteMessage(Precommit2(1, 2, Block(6))), s1, t, true);
  }

  /** The votes that validator 1 releases in the whole run; validator 0 releases none. */
  const RELEASED: seq<Vote> := [
    PREVOTE_1, PRECOMMIT_1, Prevote2(0, 1, 5), Precommit2(0, 1, Block(5)), Prevote2(1, 1, 6), Precommit2(1, 1, Block(6))]

  /** Height 1, after which the log of validator 1 lacks its marker. */
  lemma Height1() returns (w: World)
    ensures Sound(w) && w.nodes[0].s == OTHER && w.nodes[1] == AfterCommit(C(1), First(4), false)
    ensures w.log == RELEASED[..2]
  {
    hide Reached, First;
    w := Begin();
    w := OnePrevotes(w);
    w := OneCommits(w);
    w := OtherCommitsToo(w);
  }

  /** The stores of validator 1 hold all its votes of height 1. */
  lemma StartIsStored()
    ensures AfterCommit(C(1), First(4), false) == Node(BASE, BASE, [], 0, false, false)
  {
    Counting(1, BASE.votes, 1);
    hide TwoThirdsMajority;
    assert HeightStart(C(1), BASE).votes == BASE.votes;
  }

  /** Height 2 up to the crash of validator 1. */
  lemma Height2() returns (w: World)
    ensures Sound(w) && w.nodes[0].s.decided == map[1 := 1, 2 := 5] && w.nodes[1].s == BASE && w.log == RELEASED[..4]
  {
    StartIsStored();
    assert Open(BASE, 0);
    assert RELEASED[..2] + [RELEASED[2], RELEASED[3]] == RELEASED[..4] && RELEASED[..4][3] == Precommit2(0, 1, Block(5));
    hide Reached, First, AfterCommit, Open, Locked;
    w := Height1();
    w := OneLocks(w, BASE, 0, 5);
    w := OtherDecides5(w);
    w := OneCrashes(w);
  }

  lemma Height2Again() returns (w: World)
    ensures Sound(w) && w.nodes[0].s.decided == map[1 := 1, 2 := 5] && w.nodes[1].s.decided == map[1 := 1, 2 := 6]
    ensures w.log == RELEASED
  {
    assert Open(ROUND_1, 1);
    assert RELEASED[..4] + [RELEASED[4], RELEASED[5]] == RELEASED && RELEASED[..4][3] == Precommit2(0, 1, Block(5));
    hide Reached, Open, Locked;
    w := Height2();
    w := OneMovesOn(w);
    w := OneLocks(w, ROUND_1, 1, 6);
    w := OneDecides6(w);
  }

  /**
   * Agreement fails in a run with a crash that is not safe, although the faulty hold less than a third
   * and no correct validator releases two votes for one height, round and type.
   */
  lemma UnsafeCrashDisagrees()
    ensures Assumptions(Three())
    ensures exists run: seq<World>, actions: seq<Action> ::
              && IsRun(Three(), run, actions) && run[|run| - 1].nodes.Keys == {0, 1}
              && run[|run| - 1].nodes[0].s.decided == map[1 := 1, 2 := 5]
              && run[|run| - 1].nodes[1].s.decided == map[1 := 1, 2 := 6]
              && NoDoubleVote(run[|run| - 1].log)
  {
    ThreeIsFine();
    var w := Height2Again();
    assert NoDoubleVote(RELEASED);
    var run, actions :| IsRun(Three(), run, actions) && run[|run| - 1] == w;
    hide Assumptions, Init, Next, NoDoubleVote;
  }
}
