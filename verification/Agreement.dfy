/**
 * Many validators running consensus/state.go, some of them Byzantine, all of them able to crash at
 * any moment and to restart from their stores and their write-ahead log. Agreement, lock
 * preservation and absence of panics are proved for every run whose crashes are safe ones.
 */
module Agreement {
  import opened VotingPower
  import opened ConsensusSpec
  import opened ConsensusInvariant
  import opened ConsensusReplay
  import opened ConsensusRun

  /** The chain's parameters, who is faulty, and each correct validator's own settings. */
  datatype Net = Net(
    chain: Config,
    honest: set<nat>, faulty: set<nat>,
    waitForTxs: nat -> bool, emptyBlocksInterval: nat -> bool, skipTimeoutCommit: nat -> bool)

  function ConfigOf(net: Net, p: nat): Config {
    net.chain.(me := p, waitForTxs := net.waitForTxs(p), emptyBlocksInterval := net.emptyBlocksInterval(p),
               skipTimeoutCommit := net.skipTimeoutCommit(p))
  }

  /** Everyone with voting power is correct or faulty, and the faulty hold less than a third at every height. */
  ghost predicate Assumptions(net: Net) {
    && net.chain.initialHeight >= 1
    && net.honest !! net.faulty
    && (forall h, i: nat :: IsValidator(net.chain, h, i) ==> i in net.honest || i in net.faulty)
    && (forall h :: 3 * Tally(net.chain.powers(h), net.faulty) < Total(net.chain.powers(h)))
  }

  /**
   * A correct validator: its round state, the state its stores restore, the inputs logged since
   * then, how many of those are known to be on disk, whether the log marks the end of the previous
   * height, without which a restart does not replay, and whether an input was late for a replay.
   */
  datatype Node = Node(s: RoundState, base: RoundState, wal: seq<Event>, durable: nat, marked: bool, late: bool)

  /** All correct validators, and every vote they have released, in order. */
  datatype World = World(nodes: map<nat, Node>, log: seq<Vote>)

  datatype Action =
    | Deliver(p: nat, e: Event, released: seq<Vote>, durable: nat, marked: bool)
    | Crash(p: nat, kept: nat, released: seq<Vote>)

  /** Faulty validators may sign anything, correct ones only what they released; timers fire only if they were set. */
  predicate Deliverable(net: Net, w: World, s: RoundState, e: Event) {
    match e
    case VoteMessage(v) => v.height >= 1 && v.round >= 0 && (v.validator in net.faulty || v in w.log)
    case Tock(ti) => ti in s.timeouts
    case _ => true
  }

  function SignedBy(p: nat, o: Output): Vote
    requires o.SignVote?
  {
    Vote(o.height, o.round, o.kind, p, o.value)
  }

  /** The request that a released vote answers. */
  function Ballot(v: Vote): Output {
    SignVote(v.height, v.round, v.kind, v.value, v.round)
  }

  /** The votes signed between two states of validator p. */
  ghost predicate SignedBetween(s: RoundState, t: RoundState, p: nat, v: Vote) {
    exists i :: |s.outputs| <= i < |t.outputs| && t.outputs[i].SignVote? && SignedBy(p, t.outputs[i]) == v
  }

  /**
   * After a commit the stores hold the start of the new height. A crash within the commit, before
   * the end-of-height marker is written, leaves the validator there without the marker.
   */
  function AfterCommit(c: Config, t: RoundState, marked: bool): Node {
    Node(if marked then t else HeightStart(c, t), HeightStart(c, t), [], 0, marked, false)
  }

  /** The validator has handled e, which takes it to t. */
  ghost function AfterInput(c: Config, n: Node, e: Event, t: RoundState, wal: seq<Event>, durable: nat): Node {
    Node(t, n.base, wal, durable, n.marked, n.late || Late(c, n.s, Replay(c, n.base, n.wal), e))
  }

  /**
   * Handling an input: it is logged first, and the log is flushed before anything is signed. Of the
   * votes signed, any part may be released. Only the arrival of transactions is not logged.
   */
  ghost predicate Delivers(net: Net, w: World, w': World, p: nat, e: Event, released: seq<Vote>, durable: nat, marked: bool) {
    && p in w.nodes
    && var n := w.nodes[p];
       var c := ConfigOf(net, p);
       var t := Handle(c, n.s, e);
       var wal := if e.TxsAvailable? then n.wal else n.wal + [e];
       && Deliverable(net, w, n.s, e) && (e.TxsAvailable? ==> c.waitForTxs)
       && (forall v :: v in released ==> SignedBetween(n.s, t, p, v))
       && n.durable <= durable <= |wal|
       && (|t.outputs| > |n.s.outputs| ==> durable == |wal|)
       && w'.log == w.log + released
       && w'.nodes == w.nodes[p := if t.height != n.s.height then AfterCommit(c, t, marked) else AfterInput(c, n, e, t, wal, durable)]
  }

  /**
   * A crash keeps what is on disk. The restarted validator finds the marker and replays what follows
   * it, signing again; or it finds no marker, and starts the height over.
   */
  ghost predicate Crashes(net: Net, w: World, w': World, p: nat, kept: nat, released: seq<Vote>) {
    && p in w.nodes
    && var n := w.nodes[p];
       w'.log == w.log + released
       && if n.marked then
            && n.durable <= kept <= |n.wal|
            && var t := Replay(ConfigOf(net, p), n.base, n.wal[..kept]);
               && (forall v :: v in released ==> SignedBetween(n.base, t, p, v))
               && w'.nodes == w.nodes[p := Node(t, n.base, n.wal[..kept], kept, true, false)]
          else
            released == [] && w'.nodes == w.nodes[p := Node(n.base, n.base, [], 0, false, false)]
  }

  ghost predicate Next(net: Net, w: World, w': World, a: Action) {
    match a
    case Deliver(p, e, released, durable, marked) => Delivers(net, w, w', p, e, released, durable, marked)
    case Crash(p, kept, released) => Crashes(net, w, w', p, kept, released)
  }

  ghost predicate Init(net: Net, w: World) {
    && w.nodes.Keys == net.honest
    && w.log == []
    && forall p :: p in w.nodes ==>
         w.nodes[p] == Node(Genesis(ConfigOf(net, p)), Genesis(ConfigOf(net, p)), [], 0, true, false)
  }

  ghost predicate IsRun(net: Net, run: seq<World>, actions: seq<Action>) {
    && |run| == |actions| + 1
    && Init(net, run[0])
    && forall i :: 0 <= i < |actions| ==> Next(net, run[i], run[i + 1], actions[i])
  }

  /**
   * A crash is safe if the replay finds its marker and no input was late for it, or if there is no
   * marker but no vote of this height has been released either.
   */
  predicate SafeCrash(net: Net, w: World, p: nat)
    requires p in w.nodes
  {
    var n := w.nodes[p];
    if n.marked then !n.late
    else forall v :: v in w.log && v.validator == p ==> v.height != n.base.height
  }

  /** A run in which validators crash only when it is safe to. */
  ghost predicate SafeRun(net: Net, run: seq<World>, actions: seq<Action>) {
    && IsRun(net, run, actions)
    && forall i :: 0 <= i < |actions| && actions[i].Crash? ==> actions[i].p in run[i].nodes && SafeCrash(net, run[i], actions[i].p)
  }

  // ----- majorities in the log -----

  /** The validators that can be counted for a value: those that released the vote, and all faulty ones. */
  function LogVoters(net: Net, log: seq<Vote>, h: int, r: int, k: VoteType, v: Value): set<nat> {
    set i: nat | i < |net.chain.powers(h)| && (i in net.faulty || Vote(h, r, k, i, v) in log)
  }

  predicate LogMajority(net: Net, log: seq<Vote>, h: int, r: int, k: VoteType, v: Value) {
    Quorum(net.chain.powers(h), LogVoters(net, log, h, r, k, v))
  }

  ghost predicate LogPolkaAgainst(net: Net, log: seq<Vote>, h: int, r0: int, b: nat) {
    exists r, v :: r > r0 && v != Block(b) && LogMajority(net, log, h, r, Prevote, v)
  }

  /** Every vote a correct validator counts was released by its author, or the author is faulty. */
  ghost predicate VotesKnown(net: Net, log: seq<Vote>, votes: VoteBook) {
    forall k :: k in votes ==> k.validator in net.faulty || Vote(k.height, k.round, k.kind, k.validator, votes[k]) in log
  }

  /** What a validator sees as a majority is one in the log. */
  lemma SeenMajority(net: Net, p: nat, log: seq<Vote>, votes: VoteBook, h: int, r: int, k: VoteType, v: Value)
    requires VotesKnown(net, log, votes) && IsMajority(ConfigOf(net, p), votes, h, r, k, v)
    ensures LogMajority(net, log, h, r, k, v)
  {
    TallyMonotone(net.chain.powers(h), Voters(ConfigOf(net, p), votes, h, r, k, v), LogVoters(net, log, h, r, k, v));
  }

  lemma SeenPolkaAgainst(net: Net, p: nat, log: seq<Vote>, votes: VoteBook, h: int, r0: int, b: nat)
    requires VotesKnown(net, log, votes) && PolkaAgainst(ConfigOf(net, p), votes, h, r0, b)
    ensures LogPolkaAgainst(net, log, h, r0, b)
  {
    var r, v :| r > r0 && v != Block(b) && IsMajority(ConfigOf(net, p), votes, h, r, Prevote, v);
    SeenMajority(net, p, log, votes, h, r, Prevote, v);
  }

  /** A majority contains a correct validator. */
  lemma HonestInMajority(net: Net, log: seq<Vote>, h: int, r: int, k: VoteType, v: Value) returns (i: nat)
    requires Assumptions(net) && LogMajority(net, log, h, r, k, v)
    ensures i in net.honest && Vote(h, r, k, i, v) in log
  {
    i := HeavierHasOther(net.chain.powers(h), LogVoters(net, log, h, r, k, v), net.faulty);
    assert IsValidator(net.chain, h, i);
  }

  // ----- the invariant of the network -----

  /** The state after replaying the first k inputs of the log. */
  function At(net: Net, p: nat, n: Node, k: nat): RoundState
    requires k <= |n.wal|
  {
    Replay(ConfigOf(net, p), n.base, n.wal[..k])
  }

  /** The votes for earlier heights are those that were signed before. */
  ghost predicate OnlyThisHeight(base: RoundState, t: RoundState) {
    && t.height == base.height
    && forall o: Output :: o.SignVote? && o.height < base.height ==> (o in t.outputs <==> o in base.outputs)
  }

  /** What the stores restore is the start of the height. */
  ghost predicate Restorable(net: Net, p: nat, n: Node, log: seq<Vote>) {
    && Fresh(n.base) && Inv(ConfigOf(net, p), n.base) && VotesKnown(net, log, n.base.votes)
    && n.base.decided == n.s.decided && OnlyThisHeight(n.base, n.s)
  }

  /** A state that a run can have, and that tracks itself. */
  ghost predicate Settled(c: Config, s: RoundState) {
    Inv(c, s) && Tracks(c, s, s)
  }

  /** The inputs on disk reproduce every vote released, and all of them the state itself. */
  ghost predicate Recoverable(net: Net, p: nat, n: Node, log: seq<Vote>) {
    && n.durable <= |n.wal|
    && Tracks(ConfigOf(net, p), n.s, At(net, p, n, |n.wal|))
    && (forall k: nat :: k <= |n.wal| ==>
          Settled(ConfigOf(net, p), At(net, p, n, k)) && VotesKnown(net, log, At(net, p, n, k).votes)
          && At(net, p, n, k).decided == n.base.decided && OnlyThisHeight(n.base, At(net, p, n, k)))
    && (forall j: nat, k: nat :: j <= k <= |n.wal| ==> At(net, p, n, j).outputs <= At(net, p, n, k).outputs)
    && (forall k: nat, v :: n.durable <= k <= |n.wal| && v in log && v.validator == p ==> Ballot(v) in At(net, p, n, k).outputs)
  }

  /** A released prevote that leaves a block precommitted earlier has a polka before it in the log. */
  ghost predicate LocksRespected(net: Net, log: seq<Vote>, p: nat, s: RoundState) {
    forall i, o | 0 <= i < |log| && log[i].validator == p && log[i].kind == Prevote
                  && o in s.outputs && o.SignVote? && o.kind == Precommit && o.value.Block?
                  && o.height == log[i].height && o.round < log[i].round && log[i].value != o.value ::
      LogPolkaAgainst(net, log[..i], o.height, o.round, o.value.id)
  }

  ghost predicate NodeInv(net: Net, log: seq<Vote>, p: nat, n: Node) {
    && Inv(ConfigOf(net, p), n.s)
    && VotesKnown(net, log, n.s.votes)
    && (forall v :: v in log && v.validator == p ==> Ballot(v) in n.s.outputs)
    && LocksRespected(net, log, p, n.s)
    && Restorable(net, p, n, log)
    && (!n.late ==> Recoverable(net, p, n, log))
    && (Strict(ConfigOf(net, p)) ==> !n.late)
  }

  ghost predicate WorldInv(net: Net, w: World) {
    && w.nodes.Keys == net.honest
    && (forall v :: v in w.log ==> v.validator in net.honest)
    && forall p :: p in w.nodes ==> NodeInv(net, w.log, p, w.nodes[p])
  }

  lemma InitHolds(net: Net, w: World)
    requires Assumptions(net) && Init(net, w)
    ensures WorldInv(net, w)
  {
    forall p | p in w.nodes ensures NodeInv(net, w.log, p, w.nodes[p]) {
      GenesisHolds(ConfigOf(net, p));
      RecoverableAtStart(net, p, w.nodes[p], w.log);
      hide Recoverable, Inv;
    }
  }

  lemma VotesKnownGrows(net: Net, log: seq<Vote>, more: seq<Vote>, votes: VoteBook)
    requires VotesKnown(net, log, votes)
    ensures VotesKnown(net, log + more, votes)
  {
  }

  /** New votes in the log by others do not disturb a validator. */
  lemma BystanderKeeps(net: Net, log: seq<Vote>, more: seq<Vote>, q: nat, n: Node)
    requires NodeInv(net, log, q, n) && forall v :: v in more ==> v.validator != q
    ensures NodeInv(net, log + more, q, n)
  {
    VotesKnownGrows(net, log, more, n.s.votes);
    VotesKnownGrows(net, log, more, n.base.votes);
    assert LocksRespected(net, log + more, q, n.s) by {
      assert forall i :: 0 <= i < |log| ==> (log + more)[..i] == log[..i];
      assert forall i :: |log| <= i < |log| + |more| ==> (log + more)[i] in more;
    }
    if !n.late {
      RecoverableGrows(net, q, n, log, more);
    }
    hide Inv, Fresh, Recoverable, LocksRespected;
  }

  lemma RecoverableGrows(net: Net, q: nat, n: Node, log: seq<Vote>, more: seq<Vote>)
    requires Recoverable(net, q, n, log) && forall v :: v in more ==> v.validator != q
    ensures Recoverable(net, q, n, log + more)
  {
    hide Inv, VotesKnown, At, Tracks;
    forall k: nat | k <= |n.wal| ensures VotesKnown(net, log + more, At(net, q, n, k).votes) {
      VotesKnownGrows(net, log, more, At(net, q, n, k).votes);
    }
  }

  lemma LogPolkaGrows(net: Net, log: seq<Vote>, longer: seq<Vote>, h: int, r0: int, b: nat)
    requires log <= longer && LogPolkaAgainst(net, log, h, r0, b)
    ensures LogPolkaAgainst(net, longer, h, r0, b)
  {
    var r, v :| r > r0 && v != Block(b) && LogMajority(net, log, h, r, Prevote, v);
    assert longer == log + longer[|log|..];
    TallyMonotone(net.chain.powers(h), LogVoters(net, log, h, r, Prevote, v), LogVoters(net, longer, h, r, Prevote, v));
    assert LogMajority(net, longer, h, r, Prevote, v);
  }

  // ----- the validator that handles an input -----

  lemma DeliverableIsValid(net: Net, w: World, p: nat, s: RoundState, e: Event)
    requires Inv(ConfigOf(net, p), s) && Deliverable(net, w, s, e) && (e.TxsAvailable? ==> net.waitForTxs(p))
    ensures ValidEvent(ConfigOf(net, p), s, e)
  {
    if e.Tock? {
      ScheduledIsNotAhead(ConfigOf(net, p), s, e.ti);
    }
  }

  lemma HandlerVotesKnown(net: Net, w: World, p: nat, s: RoundState, s0: RoundState, e: Event)
    requires VotesKnown(net, w.log, s.votes) && Deliverable(net, w, s0, e)
    requires Inv(ConfigOf(net, p), s) && ValidEvent(ConfigOf(net, p), s, e)
    ensures VotesKnown(net, w.log, Handle(ConfigOf(net, p), s, e).votes)
  {
    HandleKeeps(ConfigOf(net, p), s, e);
    hide Inv, Advances, Handle;
  }

  /** Every vote of p in the longer log is one it has signed. */
  lemma HandlerOwnsVotes(log: seq<Vote>, released: seq<Vote>, p: nat, s: RoundState, t: RoundState)
    requires s.outputs <= t.outputs && ExaminesOwnRound(t)
    requires forall v :: v in log && v.validator == p ==> Ballot(v) in s.outputs
    requires forall v :: v in released ==> SignedBetween(s, t, p, v)
    ensures forall v :: v in log + released && v.validator == p ==> Ballot(v) in t.outputs
  {
    forall v | v in released ensures Ballot(v) in t.outputs {
      var i :| |s.outputs| <= i < |t.outputs| && t.outputs[i].SignVote? && SignedBy(p, t.outputs[i]) == v;
      assert t.outputs[i] in t.outputs;
    }
  }

  lemma HandlerRespectsLocks(net: Net, log: seq<Vote>, released: seq<Vote>, p: nat, s: RoundState, t: RoundState)
    requires LocksRespected(net, log, p, s) && VotesBehind(s) && Advances(s, t)
    requires PrevotesRespectLock(ConfigOf(net, p), t) && VotesKnown(net, log, t.votes)
    requires forall v :: v in log && v.validator == p ==> Ballot(v) in s.outputs
    requires forall v :: v in released ==> v.validator == p && Ballot(v) in t.outputs
    ensures LocksRespected(net, log + released, p, t)
  {
    var longer := log + released;
    hide LogPolkaAgainst, PolkaAgainst, VotesKnown;
    forall i, o | 0 <= i < |longer| && longer[i].validator == p && longer[i].kind == Prevote
                  && o in t.outputs && o.SignVote? && o.kind == Precommit && o.value.Block?
                  && o.height == longer[i].height && o.round < longer[i].round && longer[i].value != o.value
      ensures LogPolkaAgainst(net, longer[..i], o.height, o.round, o.value.id)
    {
      var v := longer[i];
      if i < |log| {
        assert v in log && longer[..i] == log[..i];
        assert Ballot(v) in s.outputs;
        assert o in s.outputs;
      } else {
        assert v in released;
        assert PolkaAgainst(ConfigOf(net, p), t.votes, o.height, o.round, o.value.id);
        SeenPolkaAgainst(net, p, log, t.votes, o.height, o.round, o.value.id);
        LogPolkaGrows(net, log, longer[..i], o.height, o.round, o.value.id);
      }
    }
  }

  /** With nothing logged, the start of the height is what replaying gives. */
  lemma RecoverableAtStart(net: Net, p: nat, n: Node, log: seq<Vote>)
    requires n.wal == [] && n.durable == 0 && Tracks(ConfigOf(net, p), n.s, n.base) && Fresh(n.base)
    requires Inv(ConfigOf(net, p), n.base) && VotesKnown(net, log, n.base.votes)
    requires forall v :: v in log && v.validator == p ==> Ballot(v) in n.base.outputs
    ensures Recoverable(net, p, n, log)
  {
    assert forall k: nat :: k <= |n.wal| ==> At(net, p, n, k) == n.base;
    assert Tracks(ConfigOf(net, p), n.base, n.base) by { hide Inv, VotesKnown; }
    hide Inv, VotesKnown, At, Tracks, Fresh;
  }

  /** After a commit the stores alone restore the state. */
  lemma AfterCommitKeeps(net: Net, p: nat, t: RoundState, marked: bool, log: seq<Vote>)
    requires Inv(ConfigOf(net, p), t) && VotesKnown(net, log, t.votes) && Landed(ConfigOf(net, p), t) && t.lastHeight > 0
    requires forall v :: v in log && v.validator == p ==> Ballot(v) in t.outputs
    requires LocksRespected(net, log, p, t)
    ensures NodeInv(net, log, p, AfterCommit(ConfigOf(net, p), t, marked))
  {
    var c, n := ConfigOf(net, p), AfterCommit(ConfigOf(net, p), t, marked);
    StartHolds(c, t);
    StartTracks(c, t);
    StartVotes(c, t);
    assert Tracks(c, n.base, n.base) by { hide Inv, VotesKnown; }
    assert VotesKnown(net, log, n.base.votes) by { hide Inv, Fresh; }
    assert n.base.outputs == t.outputs && n.base.decided == t.decided && n.base.height == t.height;
    hide Inv, Fresh, VotesKnown, Tracks, HeightStart;
    RecoverableAtStart(net, p, n, log);
    hide Recoverable;
  }

  /** One more input replays to one more step. */
  lemma ReplayAppend(net: Net, p: nat, n: Node, n': Node, e: Event)
    requires n'.base == n.base && n'.wal == n.wal + [e]
    ensures forall k: nat :: k <= |n.wal| ==> At(net, p, n', k) == At(net, p, n, k)
    ensures At(net, p, n', |n'.wal|) == Handle(ConfigOf(net, p), At(net, p, n, |n.wal|), e)
  {
    hide Handle;
    assert forall k: nat :: k <= |n.wal| ==> n'.wal[..k] == n.wal[..k];
    assert n'.wal[..|n'.wal|] == n'.wal && n'.wal[..|n.wal|] == n.wal && n.wal[..|n.wal|] == n.wal;
  }

  /** n' is n after logging e, which takes the replay from u to u'. */
  ghost predicate LogsInput(net: Net, p: nat, n: Node, n': Node, e: Event, u': RoundState, released: seq<Vote>) {
    && n.durable <= |n.wal| && n'.base == n.base && n'.wal == n.wal + [e]
    && n.durable <= n'.durable <= |n'.wal| && (released != [] ==> n'.durable == |n'.wal|)
    && var u := At(net, p, n, |n.wal|);
       && u' == Handle(ConfigOf(net, p), u, e)
       && u.outputs <= u'.outputs && u'.decided == u.decided && u'.height == u.height
       && forall o :: o in u'.outputs && o.SignVote? && o !in u.outputs ==> o.height >= u.height
  }

  lemma OutputsStillGrow(net: Net, p: nat, n: Node, n': Node, e: Event, u': RoundState, released: seq<Vote>, j: nat, k: nat)
    requires LogsInput(net, p, n, n', e, u', released) && j <= k <= |n'.wal|
    requires forall j: nat, k: nat :: j <= k <= |n.wal| ==> At(net, p, n, j).outputs <= At(net, p, n, k).outputs
    ensures At(net, p, n', j).outputs <= At(net, p, n', k).outputs
  {
    ReplayAppend(net, p, n, n', e);
    hide Handle, At;
    if j < k == |n'.wal| {
      assert At(net, p, n, j).outputs <= At(net, p, n, |n.wal|).outputs;
    }
  }

  lemma ReleasedStillReplayed(net: Net, p: nat, n: Node, n': Node, e: Event, u': RoundState, log: seq<Vote>, released: seq<Vote>,
                              k: nat, v: Vote)
    requires LogsInput(net, p, n, n', e, u', released) && n'.durable <= k <= |n'.wal| && v in log + released && v.validator == p
    requires forall k: nat, v :: n.durable <= k <= |n.wal| && v in log && v.validator == p ==> Ballot(v) in At(net, p, n, k).outputs
    requires Ballot(v) in u'.outputs
    ensures Ballot(v) in At(net, p, n', k).outputs
  {
    ReplayAppend(net, p, n, n', e);
    assert u' == Handle(ConfigOf(net, p), At(net, p, n, |n.wal|), e) && |n'.wal| == |n.wal| + 1;
    assert k <= |n.wal| ==> released == [] && v in log;
    hide LogsInput, Handle, At;
  }

  /** Logging before handling, and flushing before signing, keeps everything reproducible. */
  lemma RecoverableAfterInput(net: Net, p: nat, n: Node, n': Node, e: Event, u': RoundState, log: seq<Vote>, released: seq<Vote>)
    requires Recoverable(net, p, n, log) && LogsInput(net, p, n, n', e, u', released)
    requires Settled(ConfigOf(net, p), u') && VotesKnown(net, log + released, u'.votes) && Tracks(ConfigOf(net, p), n'.s, u')
    requires forall v :: v in log + released && v.validator == p ==> Ballot(v) in u'.outputs
    ensures Recoverable(net, p, n', log + released)
  {
    hide Settled, VotesKnown, Handle, At, Tracks;
    ReplayAppend(net, p, n, n', e);
    forall k: nat | k <= |n'.wal|
      ensures Settled(ConfigOf(net, p), At(net, p, n', k)) && VotesKnown(net, log + released, At(net, p, n', k).votes)
              && At(net, p, n', k).decided == n'.base.decided && OnlyThisHeight(n'.base, At(net, p, n', k))
    {
      if k <= |n.wal| {
        VotesKnownGrows(net, log, released, At(net, p, n, k).votes);
      }
    }
    forall j: nat, k: nat | j <= k <= |n'.wal| ensures At(net, p, n', j).outputs <= At(net, p, n', k).outputs {
      OutputsStillGrow(net, p, n, n', e, u', released, j, k);
    }
    forall k: nat, v | n'.durable <= k <= |n'.wal| && v in log + released && v.validator == p
      ensures Ballot(v) in At(net, p, n', k).outputs
    {
      ReleasedStillReplayed(net, p, n, n', e, u', log, released, k, v);
    }
  }

  /** The replay has signed what the run has. */
  lemma ReplayOwnsVotes(c: Config, log: seq<Vote>, p: nat, t: RoundState, u: RoundState)
    requires Tracks(c, t, u) && forall v :: v in log && v.validator == p ==> Ballot(v) in t.outputs
    ensures forall v :: v in log && v.validator == p ==> Ballot(v) in u.outputs
  {
    hide AgreeAt;
  }

  /** The replay u of the run s handles an input that is not late. */
  lemma ReplayFollows(net: Net, w: World, p: nat, s: RoundState, u: RoundState, e: Event)
    requires Inv(ConfigOf(net, p), s) && Settled(ConfigOf(net, p), u) && Tracks(ConfigOf(net, p), s, u)
    requires VotesKnown(net, w.log, u.votes) && Deliverable(net, w, s, e) && IsLogged(e)
    requires !Late(ConfigOf(net, p), s, u, e) && Handle(ConfigOf(net, p), s, e).height == s.height
    ensures var u' := Handle(ConfigOf(net, p), u, e);
            && Tracks(ConfigOf(net, p), Handle(ConfigOf(net, p), s, e), u') && Settled(ConfigOf(net, p), u') && Advances(u, u')
            && VotesKnown(net, w.log, u'.votes) && u'.height == u.height
  {
    var c := ConfigOf(net, p);
    DeliverableIsValid(net, w, p, s, e);
    EventValidForBoth(c, s, u, e);
    HandleTracks(c, s, u, e);
    HandleKeeps(c, u, e);
    HandlerVotesKnown(net, w, p, u, s, e);
    TrackedFields(c, s, u);
    TrackedFields(c, Handle(c, s, e), Handle(c, u, e));
    HandleTracks(c, u, u, e);
    hide Inv, Tracks, Handle, Advances, VotesKnown;
  }

  /** What an input within a height does to the node. */
  lemma InputIsLogged(net: Net, w: World, w': World, p: nat, e: Event, released: seq<Vote>, durable: nat, marked: bool)
    requires Delivers(net, w, w', p, e, released, durable, marked)
    requires Handle(ConfigOf(net, p), w.nodes[p].s, e).height == w.nodes[p].s.height
    ensures var n, n', c := w.nodes[p], w'.nodes[p], ConfigOf(net, p);
            && n'.s == Handle(c, n.s, e) && n'.base == n.base && n'.wal == (if IsLogged(e) then n.wal + [e] else n.wal)
            && w'.log == w.log + released
            && n.durable <= n'.durable <= |n'.wal| && (released != [] ==> n'.durable == |n'.wal|)
            && Deliverable(net, w, n.s, e) && (!IsLogged(e) ==> net.waitForTxs(p))
            && (!n'.late ==> !n.late && !Late(c, n.s, At(net, p, n, |n.wal|), e))
  {
    var n := w.nodes[p];
    assert n.wal[..|n.wal|] == n.wal;
    assert released != [] ==> released[0] in released;
    hide Handle, Deliverable, Late, Replay;
  }

  /** An input that is not late. */
  lemma InputKeepsRecoverable(net: Net, w: World, w': World, p: nat, e: Event, released: seq<Vote>, durable: nat, marked: bool)
    requires Delivers(net, w, w', p, e, released, durable, marked) && NodeInv(net, w.log, p, w.nodes[p])
    requires !w'.nodes[p].late && Handle(ConfigOf(net, p), w.nodes[p].s, e).height == w.nodes[p].s.height
    requires forall v :: v in w'.log && v.validator == p ==> Ballot(v) in w'.nodes[p].s.outputs
    ensures Recoverable(net, p, w'.nodes[p], w'.log)
  {
    InputIsLogged(net, w, w', p, e, released, durable, marked);
    var n, n', c := w.nodes[p], w'.nodes[p], ConfigOf(net, p);
    var u := At(net, p, n, |n.wal|);
    hide Delivers, Deliverable, Inv, VotesKnown, Handle, Fresh, LocksRespected, Tracks, At, Late, Restorable;
    if IsLogged(e) {
      hide Settled;
      ReplayFollows(net, w, p, n.s, u, e);
      VotesKnownGrows(net, w.log, released, Handle(c, u, e).votes);
      ReplayOwnsVotes(c, w'.log, p, n'.s, Handle(c, u, e));
      RecoverableAfterInput(net, p, n, n', e, Handle(c, u, e), w.log, released);
    } else {
      DeliverableIsValid(net, w, p, n.s, e);
      HandleTracks(c, n.s, u, e);
      ReplayOwnsVotes(c, w'.log, p, n'.s, u);
      RecoverableAfterTxs(net, p, n, n', w.log, released);
    }
  }

  /** The arrival of transactions leaves the log as it is. */
  lemma RecoverableAfterTxs(net: Net, p: nat, n: Node, n': Node, log: seq<Vote>, released: seq<Vote>)
    requires Recoverable(net, p, n, log) && n'.base == n.base && n'.wal == n.wal && n.durable <= n'.durable <= |n.wal|
    requires Tracks(ConfigOf(net, p), n'.s, At(net, p, n, |n.wal|)) && (released != [] ==> n'.durable == |n.wal|)
    requires forall v :: v in log + released && v.validator == p ==> Ballot(v) in At(net, p, n, |n.wal|).outputs
    ensures Recoverable(net, p, n', log + released)
  {
    assert forall k: nat :: k <= |n.wal| ==> At(net, p, n', k) == At(net, p, n, k) by { hide Replay; }
    hide Settled, VotesKnown, At, Tracks;
    forall k: nat | k <= |n.wal| ensures VotesKnown(net, log + released, At(net, p, n, k).votes) {
      VotesKnownGrows(net, log, released, At(net, p, n, k).votes);
    }
  }

  lemma InputKeepsRestorable(net: Net, w: World, p: nat, n: Node, n': Node, log: seq<Vote>, released: seq<Vote>)
    requires Restorable(net, p, n, log) && n'.base == n.base && Advances(n.s, n'.s) && n'.s.height == n.s.height
    requires n'.s.decided == n.s.decided
    ensures Restorable(net, p, n', log + released)
  {
    VotesKnownGrows(net, log, released, n.base.votes);
    hide Inv, Fresh, VotesKnown;
  }

  lemma ActorKeeps(net: Net, w: World, w': World, p: nat, e: Event, released: seq<Vote>, durable: nat, marked: bool)
    requires Delivers(net, w, w', p, e, released, durable, marked) && NodeInv(net, w.log, p, w.nodes[p])
    ensures NodeInv(net, w'.log, p, w'.nodes[p])
  {
    var n, n', c := w.nodes[p], w'.nodes[p], ConfigOf(net, p);
    var t := Handle(c, n.s, e);
    DeliverableIsValid(net, w, p, n.s, e);
    HandleKeeps(c, n.s, e);
    HandleLands(c, n.s, e);
    HandlerVotesKnown(net, w, p, n.s, n.s, e);
    VotesKnownGrows(net, w.log, released, t.votes);
    HandlerOwnsVotes(w.log, released, p, n.s, t);
    HandlerRespectsLocks(net, w.log, released, p, n.s, t);
    assert n.s.height >= 1;
    hide Inv, VotesKnown, Handle, Landed, Restorable, Recoverable, LocksRespected, Late;
    if t.height != n.s.height {
      AfterCommitKeeps(net, p, t, marked, w'.log);
    } else {
      InputKeepsRestorable(net, w, p, n, n', w.log, released);
      if !n'.late {
        InputKeepsRecoverable(net, w, w', p, e, released, durable, marked);
      }
      if Strict(c) {
        StrictIsNeverLate(c, n.s, Replay(c, n.base, n.wal), e);
      }
    }
  }

  // ----- the validator that crashes -----

  /** The truncated log replays like the whole one. */
  lemma ReplayTruncated(net: Net, p: nat, n: Node, n': Node)
    requires n'.base == n.base && n'.wal <= n.wal
    ensures forall k: nat :: k <= |n'.wal| ==> At(net, p, n', k) == At(net, p, n, k)
  {
    hide Handle;
    assert forall k: nat :: k <= |n'.wal| ==> n'.wal[..k] == n.wal[..k];
  }

  /** The votes signed by the state that comes back were signed before the crash. */
  lemma ReplaySignedBefore(net: Net, p: nat, n: Node, log: seq<Vote>, k: nat)
    requires Recoverable(net, p, n, log) && k <= |n.wal|
    ensures forall o :: o in At(net, p, n, k).outputs && o.SignVote? ==> o in n.s.outputs
  {
    assert At(net, p, n, k).outputs <= At(net, p, n, |n.wal|).outputs;
    hide At, Inv, VotesKnown, AgreeAt;
  }

  lemma CrashRecoverable(net: Net, p: nat, n: Node, n': Node, log: seq<Vote>, released: seq<Vote>, kept: nat)
    requires Recoverable(net, p, n, log) && n.durable <= kept <= |n.wal|
    requires n' == Node(At(net, p, n, kept), n.base, n.wal[..kept], kept, true, false)
    requires forall v :: v in released ==> SignedBetween(n.base, n'.s, p, v)
    ensures Recoverable(net, p, n', log + released)
    ensures forall v :: v in log + released && v.validator == p ==> Ballot(v) in n'.s.outputs
  {
    ReplayTruncated(net, p, n, n');
    var t := At(net, p, n, kept);
    assert ExaminesOwnRound(t) && Tracks(ConfigOf(net, p), t, t);
    assert At(net, p, n, 0) == n.base;
    HandlerOwnsVotes([], released, p, n.base, t) by { hide At; }
    forall k: nat | k <= kept ensures VotesKnown(net, log + released, At(net, p, n, k).votes) {
      VotesKnownGrows(net, log, released, At(net, p, n, k).votes);
    }
    hide Inv, VotesKnown, At, Tracks;
    assert At(net, p, n', kept) == t;
    assert forall v :: v in released ==> v in [] + released && v.validator == p;
  }

  lemma ReplayKeepsLocks(net: Net, p: nat, n: Node, t: RoundState, log: seq<Vote>, released: seq<Vote>)
    requires LocksRespected(net, log, p, n.s) && Inv(ConfigOf(net, p), t) && VotesKnown(net, log, t.votes)
    requires forall o :: o in t.outputs && o.SignVote? ==> o in n.s.outputs
    requires forall v :: v in log && v.validator == p ==> Ballot(v) in t.outputs
    requires forall v :: v in released ==> v.validator == p && Ballot(v) in t.outputs
    ensures LocksRespected(net, log + released, p, t)
  {
    Unmoved(ConfigOf(net, p), t);
    assert LocksRespected(net, log, p, t) by { hide Inv, Keeps, LogPolkaAgainst; }
    HandlerRespectsLocks(net, log, released, p, t, t);
  }

  lemma MarkedCrashKeeps(net: Net, w: World, w': World, p: nat, kept: nat, released: seq<Vote>)
    requires Crashes(net, w, w', p, kept, released) && NodeInv(net, w.log, p, w.nodes[p])
    requires w.nodes[p].marked && SafeCrash(net, w, p)
    ensures NodeInv(net, w'.log, p, w'.nodes[p])
  {
    var n, n' := w.nodes[p], w'.nodes[p];
    var t := At(net, p, n, kept);
    assert n'.s == t;
    CrashRecoverable(net, p, n, n', w.log, released, kept);
    ReplaySignedBefore(net, p, n, w.log, kept);
    VotesKnownGrows(net, w.log, released, t.votes);
    VotesKnownGrows(net, w.log, released, n.base.votes);
    assert forall v :: v in released ==> v in w.log + released && v.validator == p by { hide At, Inv, VotesKnown; }
    assert forall v :: v in w.log ==> v in w.log + released;
    hide Inv, VotesKnown, Replay, At, Fresh, Recoverable, SignedBetween;
    ReplayKeepsLocks(net, p, n, t, w.log, released);
    hide LocksRespected;
  }

  lemma UnmarkedCrashKeeps(net: Net, w: World, w': World, p: nat, kept: nat, released: seq<Vote>)
    requires Crashes(net, w, w', p, kept, released) && NodeInv(net, w.log, p, w.nodes[p])
    requires !w.nodes[p].marked && SafeCrash(net, w, p)
    ensures NodeInv(net, w'.log, p, w'.nodes[p])
  {
    var n, n' := w.nodes[p], w'.nodes[p];
    assert w.log + released == w.log;
    assert VotesBehind(n.s) && VotesBehind(n.base);
    assert forall o :: o in n.base.outputs && o.SignVote? ==> o.height < n.base.height;
    assert Tracks(ConfigOf(net, p), n.base, n.base);
    hide Inv, VotesKnown, Recoverable, Tracks, LogPolkaAgainst;
    assert LocksRespected(net, w.log, p, n.base);
    RecoverableAtStart(net, p, n', w.log);
    hide LocksRespected, Fresh;
  }

  lemma DeliversFrame(net: Net, w: World, w': World, p: nat, e: Event, released: seq<Vote>, durable: nat, marked: bool)
    requires Delivers(net, w, w', p, e, released, durable, marked)
    ensures p in w.nodes && w'.log == w.log + released && w'.nodes.Keys == w.nodes.Keys
    ensures forall q :: q in w.nodes && q != p ==> w'.nodes[q] == w.nodes[q]
    ensures forall v :: v in released ==> v.validator == p
  {
    hide Handle, ValidEvent;
  }

  lemma DeliverKeeps(net: Net, w: World, w': World, p: nat, e: Event, released: seq<Vote>, durable: nat, marked: bool)
    requires WorldInv(net, w) && Delivers(net, w, w', p, e, released, durable, marked)
    ensures WorldInv(net, w')
  {
    hide NodeInv, Delivers;
    DeliversFrame(net, w, w', p, e, released, durable, marked);
    ActorKeeps(net, w, w', p, e, released, durable, marked);
    forall q | q in w.nodes && q != p ensures NodeInv(net, w'.log, q, w'.nodes[q]) {
      BystanderKeeps(net, w.log, released, q, w.nodes[q]);
    }
  }

  lemma CrashesFrame(net: Net, w: World, w': World, p: nat, kept: nat, released: seq<Vote>)
    requires Crashes(net, w, w', p, kept, released)
    ensures p in w.nodes && w'.log == w.log + released && w'.nodes.Keys == w.nodes.Keys
    ensures forall q :: q in w.nodes && q != p ==> w'.nodes[q] == w.nodes[q]
    ensures forall v :: v in released ==> v.validator == p
  {
    hide Replay;
  }

  lemma CrashKeeps(net: Net, w: World, w': World, p: nat, kept: nat, released: seq<Vote>)
    requires WorldInv(net, w) && Crashes(net, w, w', p, kept, released) && SafeCrash(net, w, p)
    ensures WorldInv(net, w')
  {
    hide NodeInv, Crashes, SafeCrash;
    CrashesFrame(net, w, w', p, kept, released);
    if w.nodes[p].marked {
      MarkedCrashKeeps(net, w, w', p, kept, released);
    } else {
      UnmarkedCrashKeeps(net, w, w', p, kept, released);
    }
    forall q | q in w.nodes && q != p ensures NodeInv(net, w'.log, q, w'.nodes[q]) {
      BystanderKeeps(net, w.log, released, q, w.nodes[q]);
    }
  }

  /** Every step of every validator, safe crashes included, keeps the invariant. */
  lemma NextKeeps(net: Net, w: World, w': World, a: Action)
    requires WorldInv(net, w) && Next(net, w, w', a) && (a.Crash? ==> a.p in w.nodes && SafeCrash(net, w, a.p))
    ensures WorldInv(net, w')
  {
    hide WorldInv, Delivers, Crashes, SafeCrash;
    match a {
      case Deliver(p, e, released, durable, marked) => DeliverKeeps(net, w, w', p, e, released, durable, marked);
      case Crash(p, kept, released) => CrashKeeps(net, w, w', p, kept, released);
    }
  }

  lemma {:induction false} RunKeeps(net: Net, run: seq<World>, actions: seq<Action>, i: nat)
    requires Assumptions(net) && SafeRun(net, run, actions) && i < |run|
    ensures WorldInv(net, run[i])
  {
    hide WorldInv, Init, Next;
    if i == 0 {
      InitHolds(net, run[0]);
    } else {
      RunKeeps(net, run, actions, i - 1);
      NextKeeps(net, run[i - 1], run[i], actions[i - 1]);
    }
  }

  // ----- the theorems -----

  /** The correct validators that have released a precommit for block b in round r. */
  function Lockers(net: Net, log: seq<Vote>, h: int, r: int, b: nat): set<nat> {
    set i: nat | i < |net.chain.powers(h)| && i in net.honest && Vote(h, r, Precommit, i, Block(b)) in log
  }

  /** Lock preservation, for each prefix of the log. */
  lemma {:induction false} NoLaterPolka(net: Net, w: World, h: int, r0: int, b: nat, n: nat, r: int, v: Value)
    requires Assumptions(net) && WorldInv(net, w) && n <= |w.log|
    requires 3 * Tally(net.chain.powers(h), Lockers(net, w.log, h, r0, b)) > Total(net.chain.powers(h))
    requires r > r0 && LogMajority(net, w.log[..n], h, r, Prevote, v)
    ensures v == Block(b)
    decreases n
  {
    var power := net.chain.powers(h);
    var lockers := Lockers(net, w.log, h, r0, b);
    var voters := LogVoters(net, w.log[..n], h, r, Prevote, v);
    if v != Block(b) {
      NoPower(power);
      var q := OverlapOutside(power, lockers, voters, {});
      var i :| 0 <= i < n && w.log[i] == Vote(h, r, Prevote, q, v);
      assert NodeInv(net, w.log, q, w.nodes[q]);
      assert Vote(h, r0, Precommit, q, Block(b)) in w.log;
      assert LogPolkaAgainst(net, w.log[..i], h, r0, b);
      var r', v' :| r' > r0 && v' != Block(b) && LogMajority(net, w.log[..i], h, r', Prevote, v');
      NoLaterPolka(net, w, h, r0, b, i, r', v');
    }
  }

  /**
   * Lock preservation: once correct validators with more than a third of the power have precommitted
   * block b at round r0, no polka for nil or for another block exists at any later round.
   */
  lemma LockPreservation(net: Net, run: seq<World>, actions: seq<Action>, i: nat, h: int, r0: int, b: nat)
    requires Assumptions(net) && SafeRun(net, run, actions) && i < |run|
    requires 3 * Tally(net.chain.powers(h), Lockers(net, run[i].log, h, r0, b)) > Total(net.chain.powers(h))
    ensures forall r, v :: r > r0 && LogMajority(net, run[i].log, h, r, Prevote, v) ==> v == Block(b)
  {
    hide WorldInv, SafeRun, LogMajority;
    RunKeeps(net, run, actions, i);
    var w := run[i];
    assert w.log[..|w.log|] == w.log;
    forall r, v | r > r0 && LogMajority(net, w.log, h, r, Prevote, v) ensures v == Block(b) {
      NoLaterPolka(net, w, h, r0, b, |w.log|, r, v);
    }
  }

  /** Of two thirds that precommitted, the correct ones are more than a third. */
  lemma MajorityLocks(net: Net, log: seq<Vote>, h: int, r: int, b: nat)
    requires Assumptions(net) && LogMajority(net, log, h, r, Precommit, Block(b))
    ensures 3 * Tally(net.chain.powers(h), Lockers(net, log, h, r, b)) > Total(net.chain.powers(h))
  {
    var power := net.chain.powers(h);
    var voters, lockers := LogVoters(net, log, h, r, Precommit, Block(b)), Lockers(net, log, h, r, b);
    assert forall j :: j in voters && j < |power| && power[j] > 0 ==> IsValidator(net.chain, h, j);
    TallyMonotone(power, voters, lockers + net.faulty);
    TallyInclusionExclusion(power, lockers, net.faulty);
  }

  /** A decided block has a precommit majority in the log. */
  lemma DecidedInLog(net: Net, w: World, p: nat, h: int) returns (r: int)
    requires WorldInv(net, w) && p in w.nodes && h in w.nodes[p].s.decided
    ensures LogMajority(net, w.log, h, r, Precommit, Block(w.nodes[p].s.decided[h]))
  {
    var s := w.nodes[p].s;
    assert NodeInv(net, w.log, p, w.nodes[p]);
    r :| IsMajority(ConfigOf(net, p), s.votes, h, r, Precommit, Block(s.decided[h]));
    SeenMajority(net, p, w.log, s.votes, h, r, Precommit, Block(s.decided[h]));
  }

  /** A precommit majority for a block rests on a polka for it in the same round. */
  lemma PrecommitsNeedPolka(net: Net, w: World, h: int, r: int, b: nat)
    requires Assumptions(net) && WorldInv(net, w) && LogMajority(net, w.log, h, r, Precommit, Block(b))
    ensures LogMajority(net, w.log, h, r, Prevote, Block(b))
  {
    var q := HonestInMajority(net, w.log, h, r, Precommit, Block(b));
    assert NodeInv(net, w.log, q, w.nodes[q]);
    SeenMajority(net, q, w.log, w.nodes[q].s.votes, h, r, Prevote, Block(b));
  }

  /** Two precommit majorities of one height are for the same block, whatever their rounds. */
  lemma CommitsAgree(net: Net, w: World, h: int, r1: int, b1: nat, r2: int, b2: nat)
    requires Assumptions(net) && WorldInv(net, w) && r1 <= r2
    requires LogMajority(net, w.log, h, r1, Precommit, Block(b1)) && LogMajority(net, w.log, h, r2, Precommit, Block(b2))
    ensures b1 == b2
  {
    var power := net.chain.powers(h);
    if r1 == r2 {
      var q := OverlapOutside(power, LogVoters(net, w.log, h, r1, Precommit, Block(b1)),
                              LogVoters(net, w.log, h, r1, Precommit, Block(b2)), net.faulty);
      assert IsValidator(net.chain, h, q) && NodeInv(net, w.log, q, w.nodes[q]);
      assert Vote(h, r1, Precommit, q, Block(b1)) in w.log && Vote(h, r1, Precommit, q, Block(b2)) in w.log;
      assert NeverTwice(w.nodes[q].s);
    } else {
      MajorityLocks(net, w.log, h, r1, b1);
      PrecommitsNeedPolka(net, w, h, r2, b2);
      assert w.log[..|w.log|] == w.log;
      NoLaterPolka(net, w, h, r1, b1, |w.log|, r2, Block(b2));
    }
  }

  lemma DecisionsKeptByInput(net: Net, w: World, w': World, p: nat, e: Event, released: seq<Vote>, durable: nat, marked: bool, h: int)
    requires Delivers(net, w, w', p, e, released, durable, marked) && Inv(ConfigOf(net, p), w.nodes[p].s)
    requires h in w.nodes[p].s.decided
    ensures h in w'.nodes[p].s.decided && w'.nodes[p].s.decided[h] == w.nodes[p].s.decided[h]
  {
    DeliverableIsValid(net, w, p, w.nodes[p].s, e);
    HandleKeeps(ConfigOf(net, p), w.nodes[p].s, e);
    hide Inv, Handle, Late, Deliverable;
  }

  lemma DecisionsKeptByCrash(net: Net, w: World, w': World, p: nat, kept: nat, released: seq<Vote>)
    requires Crashes(net, w, w', p, kept, released) && NodeInv(net, w.log, p, w.nodes[p]) && SafeCrash(net, w, p)
    ensures w'.nodes[p].s.decided == w.nodes[p].s.decided
  {
    var n := w.nodes[p];
    if n.marked {
      assert At(net, p, n, kept).decided == n.base.decided;
    }
    hide Inv, Replay, VotesKnown, LocksRespected, Fresh, Tracks, SignedBetween;
  }

  /** Decisions survive every step, crashes included. */
  lemma DecisionsKept(net: Net, w: World, w': World, a: Action, p: nat, h: int)
    requires WorldInv(net, w) && Next(net, w, w', a) && (a.Crash? ==> a.p in w.nodes && SafeCrash(net, w, a.p))
    requires p in w.nodes && h in w.nodes[p].s.decided
    ensures p in w'.nodes && h in w'.nodes[p].s.decided && w'.nodes[p].s.decided[h] == w.nodes[p].s.decided[h]
  {
    assert NodeInv(net, w.log, p, w.nodes[p]) && Inv(ConfigOf(net, p), w.nodes[p].s);
    hide WorldInv, NodeInv, Delivers, Crashes, SafeCrash, Inv;
    match a {
      case Deliver(q, e, released, durable, marked) =>
        DeliversFrame(net, w, w', q, e, released, durable, marked);
        if p == q {
          DecisionsKeptByInput(net, w, w', q, e, released, durable, marked, h);
        }
      case Crash(q, kept, released) =>
        CrashesFrame(net, w, w', q, kept, released);
        if p == q {
          DecisionsKeptByCrash(net, w, w', q, kept, released);
        }
    }
  }

  lemma {:induction false} DecisionsPersist(net: Net, run: seq<World>, actions: seq<Action>, i: nat, j: nat, p: nat, h: int)
    requires Assumptions(net) && SafeRun(net, run, actions) && i <= j < |run|
    requires p in run[i].nodes && h in run[i].nodes[p].s.decided
    ensures p in run[j].nodes && h in run[j].nodes[p].s.decided
    ensures run[j].nodes[p].s.decided[h] == run[i].nodes[p].s.decided[h]
  {
    hide WorldInv, Next, Init;
    if i < j {
      DecisionsPersist(net, run, actions, i, j - 1, p, h);
      RunKeeps(net, run, actions, j - 1);
      DecisionsKept(net, run[j - 1], run[j], actions[j - 1], p, h);
    }
  }

  /**
   * Agreement: in every run whose crashes are safe, whatever two correct validators finalize at
   * one height, at whatever times and in whatever rounds, is the same block.
   */
  lemma AgreementHolds(net: Net, run: seq<World>, actions: seq<Action>, i: nat, j: nat, p: nat, q: nat, h: int)
    requires Assumptions(net) && SafeRun(net, run, actions) && i <= j < |run|
    requires p in run[i].nodes && h in run[i].nodes[p].s.decided
    requires q in run[j].nodes && h in run[j].nodes[q].s.decided
    ensures run[i].nodes[p].s.decided[h] == run[j].nodes[q].s.decided[h]
  {
    hide WorldInv, SafeRun, LogMajority;
    DecisionsPersist(net, run, actions, i, j, p, h);
    RunKeeps(net, run, actions, j);
    var w := run[j];
    var r1 := DecidedInLog(net, w, p, h);
    var r2 := DecidedInLog(net, w, q, h);
    if r1 <= r2 {
      CommitsAgree(net, w, h, r1, w.nodes[p].s.decided[h], r2, w.nodes[q].s.decided[h]);
    } else {
      CommitsAgree(net, w, h, r2, w.nodes[q].s.decided[h], r1, w.nodes[p].s.decided[h]);
    }
  }

  /** Two thirds never prevote for a block that is invalid. */
  lemma PolkasAreValid(net: Net, w: World, h: int, r: int, b: nat)
    requires Assumptions(net) && WorldInv(net, w) && LogMajority(net, w.log, h, r, Prevote, Block(b))
    ensures net.chain.valid(h, b)
  {
    var q := HonestInMajority(net, w.log, h, r, Prevote, Block(b));
    assert NodeInv(net, w.log, q, w.nodes[q]);
  }

  /**
   * No correct validator panics, except on a precommit for the height below an initial height greater
   * than one, which it meets with a nil LastCommit.
   */
  lemma NoPanic(net: Net, run: seq<World>, actions: seq<Action>, i: nat, p: nat)
    requires Assumptions(net) && SafeRun(net, run, actions) && i < |run| && p in run[i].nodes
    ensures run[i].nodes[p].s.halt in {Running, NilLastCommit}
    ensures run[i].nodes[p].s.halt == NilLastCommit ==>
              run[i].nodes[p].s.lastHeight == 0 && net.chain.initialHeight >= 2
  {
    RunKeeps(net, run, actions, i);
    hide SafeRun, WorldInv;
    HaltsOnlyForNilCommit(net, run[i], p);
  }

  lemma HaltsOnlyForNilCommit(net: Net, w: World, p: nat)
    requires Assumptions(net) && WorldInv(net, w) && p in w.nodes
    ensures w.nodes[p].s.halt in {Running, NilLastCommit}
    ensures w.nodes[p].s.halt == NilLastCommit ==> w.nodes[p].s.lastHeight == 0 && net.chain.initialHeight >= 2
  {
    var c, s := ConfigOf(net, p), w.nodes[p].s;
    assert NodeInv(net, w.log, p, w.nodes[p]);
    assert HaltExplained(c, s) && VotesKnown(net, w.log, s.votes);
    hide WorldInv, NodeInv, Inv, IsMajority, LogMajority, VotesKnown, Assumptions;
    if s.halt == InvalidPolka {
      var r, b :| !c.valid(s.height, b) && IsMajority(c, s.votes, s.height, r, Prevote, Block(b));
      SeenMajority(net, p, w.log, s.votes, s.height, r, Prevote, Block(b));
      PolkasAreValid(net, w, s.height, r, b);
    } else if s.halt == InvalidCommit {
      var r, b :| !c.valid(s.height, b) && IsMajority(c, s.votes, s.height, r, Precommit, Block(b));
      SeenMajority(net, p, w.log, s.votes, s.height, r, Precommit, Block(b));
      PrecommitsNeedPolka(net, w, s.height, r, b);
      PolkasAreValid(net, w, s.height, r, b);
    }
  }

  /** Exactly when an input stops a correct validator, on the guard of the branch that panics. */
  lemma PanicExactly(net: Net, run: seq<World>, actions: seq<Action>, i: nat)
    requires Assumptions(net) && SafeRun(net, run, actions) && i < |actions| && actions[i].Deliver?
    requires actions[i].p in run[i].nodes && run[i].nodes[actions[i].p].s.halt == Running
    ensures actions[i].p in run[i + 1].nodes
    ensures run[i + 1].nodes[actions[i].p].s.halt != Running
            <==> HitsNilLastCommit(run[i].nodes[actions[i].p].s, actions[i].e)
  {
    var p := actions[i].p;
    assert Next(net, run[i], run[i + 1], actions[i]);
    NilLastCommitExactly(ConfigOf(net, p), run[i].nodes[p].s, actions[i].e);
    hide Handle;
    NoPanic(net, run, actions, i + 1, p);
  }

  /**
   * Write-ahead recovery: unless an input was late, whatever part of the log survives a crash, as long
   * as it includes what was flushed, replaying it over the restored state gives a state that has signed
   * every vote released so far, has reached the step of each, and is still bound by each precommit.
   * With nothing lost it agrees with the state before the crash on the votes signed, the lock, the valid
   * block, the proposal and the votes of the height. With a commit timeout and without waiting for
   * transactions it is that state, but for votes counted at earlier heights.
   */
  lemma WriteAheadRecovery(net: Net, run: seq<World>, actions: seq<Action>, i: nat, p: nat, kept: nat)
    requires Assumptions(net) && SafeRun(net, run, actions) && i < |run| && p in run[i].nodes
    requires !run[i].nodes[p].late
    requires run[i].nodes[p].durable <= kept <= |run[i].nodes[p].wal|
    ensures var n := run[i].nodes[p];
            var t := Replay(ConfigOf(net, p), n.base, n.wal[..kept]);
            && Fresh(n.base) && Inv(ConfigOf(net, p), t)
            && (kept == |n.wal| ==> Tracks(ConfigOf(net, p), n.s, t))
            && (kept == |n.wal| && Strict(ConfigOf(net, p)) ==> t == n.s.(votes := t.votes) && AgreeAt(t.height, n.s.votes, t.votes))
            && t.decided == n.s.decided && LockHeld(ConfigOf(net, p), t)
            && forall v :: v in run[i].log && v.validator == p ==>
                 Ballot(v) in t.outputs && Before(v.height, v.round, VoteStep(v.kind), t.height, t.round, t.step)
  {
    RunKeeps(net, run, actions, i);
    var n := run[i].nodes[p];
    assert NodeInv(net, run[i].log, p, n);
    hide WorldInv, SafeRun, NodeInv, Fresh, Inv, Replay, Tracks, LockHeld;
    ReplayRecovers(net, run[i].log, p, n, kept);
  }

  lemma ReplayRecovers(net: Net, log: seq<Vote>, p: nat, n: Node, kept: nat)
    requires NodeInv(net, log, p, n) && !n.late && n.durable <= kept <= |n.wal|
    ensures var t := Replay(ConfigOf(net, p), n.base, n.wal[..kept]);
            && Fresh(n.base) && Inv(ConfigOf(net, p), t)
            && (kept == |n.wal| ==> Tracks(ConfigOf(net, p), n.s, t))
            && (kept == |n.wal| && Strict(ConfigOf(net, p)) ==> t == n.s.(votes := t.votes) && AgreeAt(t.height, n.s.votes, t.votes))
            && t.decided == n.s.decided && LockHeld(ConfigOf(net, p), t)
            && forall v :: v in log && v.validator == p ==>
                 Ballot(v) in t.outputs && Before(v.height, v.round, VoteStep(v.kind), t.height, t.round, t.step)
  {
    var t := At(net, p, n, kept);
    assert VotesBehind(t) && LockHeld(ConfigOf(net, p), t);
    hide LockHeld, Inv, Fresh, Replay, VotesKnown, LocksRespected, Tracks;
  }

  /** With a commit timeout and without waiting for transactions no input is ever late. */
  lemma NothingLate(net: Net, run: seq<World>, actions: seq<Action>, i: nat, p: nat)
    requires Assumptions(net) && SafeRun(net, run, actions) && i < |run| && p in run[i].nodes
    requires Strict(ConfigOf(net, p))
    ensures !run[i].nodes[p].late
  {
    RunKeeps(net, run, actions, i);
    assert NodeInv(net, run[i].log, p, run[i].nodes[p]);
  }

  /**
   * Without the marker of the previous height a restarted validator comes back with what its stores
   * hold. That is good for every vote it has released exactly as long as none is for this height.
   */
  lemma RestartWithoutMarker(net: Net, run: seq<World>, actions: seq<Action>, i: nat, p: nat)
    requires Assumptions(net) && SafeRun(net, run, actions) && i < |run| && p in run[i].nodes
    ensures var n, log := run[i].nodes[p], run[i].log;
            (forall v :: v in log && v.validator == p ==> Ballot(v) in n.base.outputs)
            <==> (forall v :: v in log && v.validator == p ==> v.height != n.base.height)
  {
    RunKeeps(net, run, actions, i);
    assert NodeInv(net, run[i].log, p, run[i].nodes[p]);
    hide WorldInv, SafeRun, NodeInv, Ballot;
    StoresAloneRestore(net, run[i].log, p, run[i].nodes[p]);
  }

  lemma StoresAloneRestore(net: Net, log: seq<Vote>, p: nat, n: Node)
    requires NodeInv(net, log, p, n)
    ensures (forall v :: v in log && v.validator == p ==> Ballot(v) in n.base.outputs)
            <==> (forall v :: v in log && v.validator == p ==> v.height != n.base.height)
  {
    assert VotesBehind(n.s);
    hide Inv, VotesKnown, LocksRespected, Recoverable;
    forall v | v in log && v.validator == p && v.height != n.base.height ensures Ballot(v) in n.base.outputs {
      assert Ballot(v) in n.s.outputs;
    }
  }
}
