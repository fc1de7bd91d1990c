/**
 * Runs of the evidence pool. AddEvidence is called from the receive routines of the peers and takes
 * no lock, so its steps fall between those of other calls, and between those of the consensus
 * routine, which checks blocks and updates the pool. A node may stop and start again at any point.
 */
module EvidenceRuns {
  import opened Common
  import opened EvidenceKeys
  import opened EvidencePool

  // ----- one call of AddEvidence -----

  /** How far a call has come: it has found its evidence not pending, not committed and valid, and has stored it. */
  datatype Progress = Received | NotPending | NotCommitted | Checked | Stored

  datatype Call = Call(ev: Evidence, at: Progress)

  /** The next step of a call; None if it returns. */
  function CallStep(env: Env, p: Pool, call: Call): (Pool, Option<Progress>) {
    var ev := call.ev;
    match call.at
    case Received => (p, if ev.hash in p.pending then None else Some(NotPending))
    case NotPending => (p, if ev.hash in p.committed then None else Some(NotCommitted))
    case NotCommitted => (p, if Verified(env, p.state, ev) then Some(Checked) else None)
    case Checked => (AddPending(p, ev), Some(Stored))
    case Stored => (p.(list := p.list + [ev]), None)
  }

  function Left(at: Progress): nat {
    match at case Received => 4 case NotPending => 3 case NotCommitted => 2 case Checked => 1 case Stored => 0
  }

  function RunCall(env: Env, p: Pool, call: Call): Pool
    decreases Left(call.at)
  {
    var (q, at) := CallStep(env, p, call);
    if at.None? then q else RunCall(env, q, call.(at := at.value))
  }

  /** Without interruption the steps are those of the whole operation. */
  lemma AddInSteps(env: Env, p: Pool, ev: Evidence)
    ensures RunCall(env, p, Call(ev, Received)) == Add(env, p, ev)
  {
    hide Verified;
    assert RunCall(env, AddPending(p, ev), Call(ev, Stored)) == AddPending(p, ev).(list := p.list + [ev]);
    assert RunCall(env, p, Call(ev, Checked)) == AddPending(p, ev).(list := p.list + [ev]);
    assert RunCall(env, p, Call(ev, NotCommitted)) == if Verified(env, p.state, ev) then RunCall(env, p, Call(ev, Checked)) else p;
    assert RunCall(env, p, Call(ev, NotPending)) == if ev.hash in p.committed then p else RunCall(env, p, Call(ev, NotCommitted));
  }

  // ----- the consensus routine -----

  /** What it is doing; of an update, the evidence that is left to mark and what has to leave the list. */
  datatype Task =
    | Idle
    | Checking(evs: seq<Evidence>, i: nat)
    | Flushing(st: State, evs: seq<Evidence>)
    | Marking(rest: seq<Evidence>, gone: set<Hash>)
    | Setting(rest: seq<Evidence>, gone: set<Hash>)
    | Unlisting(gone: set<Hash>)
    | Pruning

  predicate Updating(task: Task) {
    task.Flushing? || task.Marking? || task.Setting? || task.Unlisting? || task.Pruning?
  }

  /** Evidence of the block being applied that is not marked as committed yet. */
  function Unmarked(task: Task): set<Hash> {
    match task
    case Flushing(_, evs) => Hashes(evs)
    case Marking(rest, _) => Hashes(rest)
    case Setting(rest, _) => Hashes(rest)
    case _ => {}
  }

  function Gone(task: Task): set<Hash> {
    if task.Marking? || task.Setting? || task.Unlisting? then task.gone else {}
  }

  /** Taken out of the pending evidence, as the first half of marking it. */
  function Removed(p: Pool, h: Hash): Pool {
    if h in p.pending then p.(pending := p.pending - {h}, size := if p.size == 0 then 0 else p.size - 1) else p
  }

  // ----- runs -----

  /**
   * The pool, what the consensus routine is doing, the calls in progress by peer, the blocks whose
   * evidence has passed the check since the last block, and the evidence of all blocks applied so far.
   * Of that, `lost` was not marked as committed because the node stopped before. `again` says whether
   * a block has brought back evidence that was lost, or that was committed and pending at once.
   */
  datatype Node = Node(
    pool: Pool, task: Task, calls: map<nat, Call>, passed: set<seq<Evidence>>,
    applied: seq<Hash>, lost: set<Hash>, again: bool)

  datatype Action =
    | Receive(peer: nat, ev: Evidence)
    | Proceed(peer: nat)
    | ReportVotes(votes: VotePair)
    | CheckBlock(evs: seq<Evidence>)
    | ApplyBlock(st: State, evs: seq<Evidence>)
    | Continue(order: seq<Hash>)
    | Restart(order: seq<Hash>, left: seq<Hash>)

  function HashSeq(evs: seq<Evidence>): seq<Hash> {
    seq(|evs|, i requires 0 <= i < |evs| => evs[i].hash)
  }

  /** Evidence that is pending and committed at once. */
  function Both(p: Pool): set<Hash> {
    p.pending.Keys * p.committed
  }

  /** A call takes its next step. */
  function Stepped(env: Env, n: Node, peer: nat): Node
    requires peer in n.calls
  {
    var (p, at) := CallStep(env, n.pool, n.calls[peer]);
    n.(pool := p, calls := if at.None? then n.calls - {peer} else n.calls[peer := n.calls[peer].(at := at.value)])
  }

  function CheckNext(env: Env, n: Node, evs: seq<Evidence>, i: nat): Node {
    if i >= |evs| then n.(task := Idle, passed := n.passed + {evs})
    else
      var (p, ok) := CheckOne(env, n.pool, evs[i]);
      n.(pool := p, task := if !ok || Repeats(evs, i) then Idle else Checking(evs, i + 1))
  }

  function PruneNow(env: Env, p: Pool, order: seq<Hash>): Pool
    requires NeedsPruning(p) ==> Lists(order, p.pending)
  {
    if NeedsPruning(p) then Prune(env, p, order) else p
  }

  /** The consensus routine takes its next step; `order` is that of the database when it comes to pruning. */
  ghost function TaskNext(env: Env, n: Node, order: seq<Hash>): Node {
    match n.task
    case Idle => n
    case Checking(evs, i) => CheckNext(env, n, evs, i)
    case Flushing(st, evs) => n.(pool := Flush(env, n.pool, st, n.pool.buffer).(state := st), task := Marking(evs, {}))
    case Marking(rest, gone) =>
      if rest == [] then n.(task := Unlisting(gone))
      else n.(pool := Removed(n.pool, rest[0].hash),
              task := Setting(rest, if rest[0].hash in n.pool.pending then gone + {rest[0].hash} else gone))
    case Setting(rest, gone) =>
      if rest == [] then n.(task := Idle)
      else n.(pool := n.pool.(committed := n.pool.committed + {rest[0].hash}), task := Marking(rest[1..], gone))
    case Unlisting(gone) => n.(pool := n.pool.(list := Keep(n.pool.list, gone)), task := Pruning)
    case Pruning =>
      n.(pool := if NeedsPruning(n.pool) ==> Lists(order, n.pool.pending) then PruneNow(env, n.pool, order) else n.pool, task := Idle)
  }

  ghost predicate TaskStep(env: Env, n: Node, n': Node, order: seq<Hash>) {
    && !n.task.Idle? && (n.task.Pruning? && NeedsPruning(n.pool) ==> IsIteration(order, n.pool.pending))
    && n' == TaskNext(env, n, order)
  }

  /** The handshake has applied the block whose update had not come far, with an empty evidence pool. */
  function Resumed(n: Node): Pool {
    if n.task.Flushing? then n.pool.(state := n.task.st) else n.pool
  }

  ghost predicate Next(env: Env, n: Node, n': Node, a: Action) {
    match a
    case Receive(peer, ev) => peer !in n.calls && n' == n.(calls := n.calls[peer := Call(ev, Received)])
    case Proceed(peer) => peer in n.calls && n' == Stepped(env, n, peer)
    case ReportVotes(v) => n' == n.(pool := n.pool.(buffer := n.pool.buffer + [v]))
    case CheckBlock(evs) => n.task.Idle? && n' == n.(task := Checking(evs, 0))
    case ApplyBlock(st, evs) =>
      && n.task.Idle? && evs in n.passed && st.height > n.pool.state.height && st.time == env.time(st.height)
      && n' == n.(task := Flushing(st, evs), passed := {}, applied := n.applied + HashSeq(evs),
                  again := n.again || !(Hashes(evs) !! n.lost + Both(n.pool)))
    case Continue(order) => TaskStep(env, n, n', order)
    case Restart(order, left) =>
      && Reopened(env, Resumed(n), order, left, n'.pool)
      && n' == Node(n'.pool, Idle, map[], {}, n.applied, n.lost + Unmarked(n.task), n.again)
  }

  function Empty(env: Env, h: int): Node {
    Node(Pool(State(h, env.time(h)), map[], {}, 0, [], [], h, env.time(h)), Idle, map[], {}, [], {}, false)
  }

  ghost predicate IsRun(env: Env, run: seq<Node>, actions: seq<Action>) {
    && TimesIncrease(env) && |run| == |actions| + 1
    && (exists h :: run[0] == Empty(env, h))
    && forall i :: 0 <= i < |actions| ==> Next(env, run[i], run[i + 1], actions[i])
  }

  ghost predicate OnlyOnce(hashes: seq<Hash>) {
    forall i, j :: 0 <= i < j < |hashes| ==> hashes[i] != hashes[j]
  }

  // ----- what every step keeps -----

  ghost predicate TaskOk(env: Env, p: Pool, task: Task, passed: set<seq<Evidence>>) {
    && (task.Checking? ==> Passing(p, task.evs, task.i))
    && (task.Flushing? ==> task.st.time == env.time(task.st.height))
    && (task.Setting? ==> task.rest != [])
    && (Updating(task) ==> passed == {})
  }

  ghost predicate PassedOk(p: Pool, passed: set<seq<Evidence>>) {
    forall evs: seq<Evidence> :: evs in passed ==> Passing(p, evs, |evs|)
  }

  ghost predicate CallOk(env: Env, call: Call) {
    call.at.Checked? || call.at.Stored? ==> call.ev.time == env.time(call.ev.hash.height)
  }

  ghost predicate CallsOk(env: Env, calls: map<nat, Call>) {
    forall peer :: peer in calls ==> CallOk(env, calls[peer])
  }

  ghost predicate LogOk(applied: seq<Hash>, known: set<Hash>, again: bool) {
    (forall h :: h in applied <==> h in known) && (OnlyOnce(applied) <==> !again)
  }

  /** Each piece of evidence applied is marked, was lost, or is about to be marked. */
  function Known(n: Node): set<Hash> {
    n.pool.committed + n.lost + Unmarked(n.task)
  }

  ghost predicate Inv(env: Env, n: Node) {
    && Valid(env, n.pool) && TaskOk(env, n.pool, n.task, n.passed) && PassedOk(n.pool, n.passed)
    && CallsOk(env, n.calls) && LogOk(n.applied, Known(n), n.again)
  }

  /** Adding pending evidence takes nothing back. */
  ghost predicate Grown(p: Pool, q: Pool) {
    q.committed == p.committed && p.pending.Keys <= q.pending.Keys
  }

  lemma GrownPasses(env: Env, p: Pool, q: Pool, task: Task, passed: set<seq<Evidence>>)
    requires Grown(p, q) && TaskOk(env, p, task, passed) && PassedOk(p, passed)
    ensures TaskOk(env, q, task, passed) && PassedOk(q, passed)
  {
  }

  lemma CallStepKeeps(env: Env, p: Pool, call: Call)
    requires Valid(env, p) && CallOk(env, call)
    ensures var (q, at) := CallStep(env, p, call);
            Valid(env, q) && Grown(p, q) && (at.Some? ==> CallOk(env, call.(at := at.value)))
  {
    if call.at.Checked? { AddPendingKeeps(env, p, call.ev); }
    hide StoreOk, Expired;
  }

  lemma ProceedKeeps(env: Env, n: Node, n': Node, peer: nat)
    requires Inv(env, n) && Next(env, n, n', Proceed(peer))
    ensures Inv(env, n')
  {
    hide Valid, TaskOk, PassedOk, LogOk, Grown, CallStep, CallOk;
    CallStepKeeps(env, n.pool, n.calls[peer]);
    CommittedStays(env, n.pool, n.calls[peer]);
    var (q, at) := CallStep(env, n.pool, n.calls[peer]);
    assert n'.pool == q && Known(n') == Known(n);
    GrownPasses(env, n.pool, q, n.task, n.passed);
    assert CallsOk(env, n'.calls);
  }

  lemma CommittedStays(env: Env, p: Pool, call: Call)
    ensures CallStep(env, p, call).0.committed == p.committed
  {
    hide Verified;
  }

  lemma CheckNextKeeps(env: Env, n: Node, n': Node, order: seq<Hash>)
    requires Inv(env, n) && n.task.Checking? && TaskStep(env, n, n', order)
    ensures Inv(env, n')
  {
    hide Valid, LogOk, CallsOk, CheckOne;
    var evs, i := n.task.evs, n.task.i;
    if i < |evs| {
      CheckOneKeeps(env, n.pool, evs[i]);
      assert Grown(n.pool, n'.pool);
      GrownPasses(env, n.pool, n'.pool, n.task, n.passed);
      PassesNext(env, n.pool, evs, i);
      hide PassedOk, Passing, Grown;
    } else {
      hide Passing;
    }
  }

  lemma RemovedKeeps(env: Env, p: Pool, h: Hash)
    requires Valid(env, p)
    ensures Valid(env, Removed(p, h)) && Removed(p, h).committed == p.committed
  {
    TakeOutOne(p.pending, h);
  }

  /** A step of an update from pool p and task to q and task'. */
  lemma UpdateStepKeeps(env: Env, n: Node, n': Node)
    requires Inv(env, n) && Updating(n.task) && n' == n.(pool := n'.pool, task := n'.task) && Valid(env, n'.pool)
    requires (Updating(n'.task) || n'.task.Idle?) && !n'.task.Flushing? && (n'.task.Setting? ==> n'.task.rest != [])
    requires n'.pool.committed + Unmarked(n'.task) == n.pool.committed + Unmarked(n.task)
    ensures Inv(env, n')
  {
    hide Valid, LogOk, CallsOk, Passing, Unmarked;
    assert n'.passed == {};
    SameKnown(n.pool.committed, Unmarked(n.task), n'.pool.committed, Unmarked(n'.task), n.lost);
  }

  lemma SameKnown(a: set<Hash>, b: set<Hash>, a': set<Hash>, b': set<Hash>, lost: set<Hash>)
    requires a + b == a' + b'
    ensures a + lost + b == a' + lost + b'
  {
    assert a + lost + b == a + b + lost && a' + lost + b' == a' + b' + lost;
  }

  lemma MarkNextKeeps(env: Env, n: Node, n': Node, order: seq<Hash>)
    requires Inv(env, n) && (n.task.Marking? || n.task.Setting? || n.task.Unlisting?) && TaskStep(env, n, n', order)
    ensures Inv(env, n')
  {
    if n.task.Marking? && n.task.rest != [] {
      RemovedKeeps(env, n.pool, n.task.rest[0].hash);
    } else if n.task.Setting? {
      HashesOfRest(n.task.rest);
    } else if n.task.Marking? {
      assert Hashes([]) == {};
    }
    assert Valid(env, n'.pool) by { hide StoreOk, Removed, TaskOk, PassedOk, CallsOk, LogOk; }
    hide Hashes, Inv, Removed, Keep;
    UpdateStepKeeps(env, n, n');
  }

  lemma HashesOfRest(rest: seq<Evidence>)
    requires rest != []
    ensures Hashes(rest) == {rest[0].hash} + Hashes(rest[1..])
  {
    assert rest == [rest[0]] + rest[1..];
  }

  lemma FlushOrPruneKeeps(env: Env, n: Node, n': Node, order: seq<Hash>)
    requires TimesIncrease(env) && Inv(env, n) && (n.task.Flushing? || n.task.Pruning?) && TaskStep(env, n, n', order)
    ensures Inv(env, n')
  {
    hide TimesIncrease, IsIteration, StoreOk, PassedOk, CallsOk, LogOk, Passing, Hashes, NeedsPruning;
    if n.task.Flushing? {
      FlushKeeps(env, n.pool, n.task.st, n.pool.buffer);
    } else if NeedsPruning(n.pool) {
      PruneIsExact(env, n.pool, order);
    }
    hide Prune, Flush;
    assert Valid(env, n'.pool);
    hide Inv, Valid;
    UpdateStepKeeps(env, n, n');
  }

  lemma ContinueKeeps(env: Env, n: Node, n': Node, order: seq<Hash>)
    requires TimesIncrease(env) && Inv(env, n) && TaskStep(env, n, n', order)
    ensures Inv(env, n')
  {
    match n.task {
      case Checking(_, _) => CheckNextKeeps(env, n, n', order);
      case Flushing(_, _) => FlushOrPruneKeeps(env, n, n', order);
      case Pruning => FlushOrPruneKeeps(env, n, n', order);
      case _ => MarkNextKeeps(env, n, n', order);
    }
    hide TimesIncrease, Inv, CheckNext, Flush, Prune, IsIteration, Removed;
  }

  /** Evidence of a block occurs again exactly if it was known before. */
  lemma LogGrows(applied: seq<Hash>, known: set<Hash>, evs: seq<Evidence>)
    requires (forall h :: h in applied <==> h in known) && Distinct(evs)
    ensures forall h :: h in applied + HashSeq(evs) <==> h in known + Hashes(evs)
    ensures OnlyOnce(applied + HashSeq(evs)) <==> OnlyOnce(applied) && Hashes(evs) !! known
  {
    var more := HashSeq(evs);
    forall h ensures h in more <==> h in Hashes(evs) {
      if h in Hashes(evs) {
        var ev :| ev in evs && ev.hash == h;
        var k :| 0 <= k < |evs| && evs[k] == ev;
        assert more[k] == h;
      }
    }
    assert OnlyOnce(more);
    hide Distinct, Hashes, HashSeq;
    SplitOnce(applied, more);
  }

  lemma SplitOnce(a: seq<Hash>, b: seq<Hash>)
    requires OnlyOnce(b)
    ensures OnlyOnce(a + b) <==> OnlyOnce(a) && forall h :: h in a ==> h !in b
  {
    assert forall i :: 0 <= i < |a| ==> (a + b)[i] == a[i];
    assert forall j :: 0 <= j < |b| ==> (a + b)[|a| + j] == b[j];
    if h :| h in a && h in b {
      var i, j :| 0 <= i < |a| && a[i] == h && 0 <= j < |b| && b[j] == h;
      assert (a + b)[i] == (a + b)[|a| + j];
    } else if OnlyOnce(a) {
      forall i, j | 0 <= i < j < |a + b| ensures (a + b)[i] != (a + b)[j] {
        assert i < |a| <= j ==> a[i] in a && b[j - |a|] in b;
      }
    } else {
      var i, j :| 0 <= i < j < |a| && a[i] == a[j];
      assert (a + b)[i] == (a + b)[j];
    }
  }

  /** What a block that passed has in common with the committed evidence is pending as well. */
  lemma PassedMeets(p: Pool, evs: seq<Evidence>, lost: set<Hash>)
    requires Passing(p, evs, |evs|)
    ensures Distinct(evs) && (Hashes(evs) !! p.committed + lost <==> Hashes(evs) !! lost + Both(p))
  {
    forall h | h in Hashes(evs) && h in p.committed ensures h in p.pending {
      var ev :| ev in evs && ev.hash == h;
      var j :| 0 <= j < |evs| && evs[j] == ev;
    }
  }

  lemma ApplyBlockKeeps(env: Env, n: Node, n': Node, st: State, evs: seq<Evidence>)
    requires Inv(env, n) && Next(env, n, n', ApplyBlock(st, evs))
    ensures Inv(env, n')
  {
    PassedMeets(n.pool, evs, n.lost);
    assert Known(n) == n.pool.committed + n.lost;
    LogGrows(n.applied, Known(n), evs);
    hide Hashes, HashSeq, Both, Distinct, OnlyOnce, Valid, CallsOk, Passing;
  }

  lemma RestartKeeps(env: Env, n: Node, n': Node, order: seq<Hash>, left: seq<Hash>)
    requires TimesIncrease(env) && Inv(env, n) && Next(env, n, n', Restart(order, left))
    ensures Inv(env, n') && ListOk(n'.pool.list, n'.pool.pending) && n'.pool.committed == n.pool.committed
    ensures forall h :: h in n'.pool.pending ==> h in n.pool.pending
  {
    hide TimesIncrease, Reopened, Valid, LogOk, ListOk, Expired, Hashes, Unmarked, Passing;
    ResumedIsValid(env, n);
    ReopenKeeps(env, Resumed(n), order, left, n'.pool);
    NothingUnmarked(n');
    assert n'.pool.committed == n.pool.committed;
    assert Known(n') == Known(n);
  }

  lemma ResumedIsValid(env: Env, n: Node)
    requires Inv(env, n)
    ensures Valid(env, Resumed(n)) && Resumed(n).pending == n.pool.pending && Resumed(n).committed == n.pool.committed
  {
    hide StoreOk, PassedOk, LogOk, CallsOk;
  }

  lemma NothingUnmarked(n: Node)
    requires n.task.Idle?
    ensures Unmarked(n.task) == {}
  {
  }

  lemma NextKeeps(env: Env, n: Node, n': Node, a: Action)
    requires TimesIncrease(env) && Inv(env, n) && Next(env, n, n', a)
    ensures Inv(env, n')
  {
    match a {
      case Receive(peer, ev) => hide Valid, TaskOk, PassedOk, LogOk;
      case Proceed(peer) => ProceedKeeps(env, n, n', peer); hide *;
      case ReportVotes(_) =>
        assert Known(n') == Known(n);
        hide StoreOk, LogOk, CallsOk;
      case CheckBlock(evs) =>
        assert Known(n') == Known(n);
        hide Valid, LogOk, CallsOk, PassedOk;
      case ApplyBlock(st, evs) => ApplyBlockKeeps(env, n, n', st, evs); hide *;
      case Continue(order) => ContinueKeeps(env, n, n', order); hide *;
      case Restart(order, left) => RestartKeeps(env, n, n', order, left); hide *;
    }
  }

  lemma EmptyHolds(env: Env, h: int)
    ensures Inv(env, Empty(env, h))
  {
  }

  lemma {:induction false} RunKeeps(env: Env, run: seq<Node>, actions: seq<Action>, i: nat)
    requires IsRun(env, run, actions) && i < |run|
    ensures Inv(env, run[i])
  {
    hide Next, Empty, Inv;
    if i > 0 {
      RunKeeps(env, run, actions, i - 1);
      NextKeeps(env, run[i - 1], run[i], actions[i - 1]);
    } else {
      var h :| run[0] == Empty(env, h);
      EmptyHolds(env, h);
    }
  }

  /**
   * Over any run no evidence is committed twice if and only if no block brought back evidence that was
   * lost, or that was committed and pending at once. Other evidence that has been applied is not
   * pending any more, unless it is just being marked.
   */
  lemma CommittedOnce(env: Env, run: seq<Node>, actions: seq<Action>, i: nat)
    requires IsRun(env, run, actions) && i < |run|
    ensures var n := run[i];
            && (OnlyOnce(n.applied) <==> !n.again)
            && forall h :: h in n.applied && h in n.pool.pending ==> h in n.lost + Both(n.pool) + Unmarked(n.task)
  {
    RunKeeps(env, run, actions, i);
    hide IsRun, OnlyOnce, Valid, TaskOk, PassedOk, CallsOk, Unmarked;
  }

  // ----- when pending and committed evidence stay apart, and the list in order -----

  /**
   * The two ways in which evidence becomes pending and committed at once: a call stores it after it was
   * marked, or in the middle of that, after it was taken out of the pending evidence.
   */
  predicate StoresLate(n: Node, a: Action) {
    || (a.Proceed? && a.peer in n.calls && n.calls[a.peer].at.Checked? && n.calls[a.peer].ev.hash in n.pool.committed)
    || (a.Continue? && n.task.Setting? && n.task.rest != [] && n.task.rest[0].hash in n.pool.pending)
  }

  lemma ApartExactly(env: Env, n: Node, n': Node, a: Action)
    requires TimesIncrease(env) && Inv(env, n) && Next(env, n, n', a) && Both(n.pool) == {}
    ensures Both(n'.pool) == {} <==> !StoresLate(n, a)
  {
    match a {
      case Proceed(peer) =>
        ProceedApart(env, n, peer);
        hide Inv, TimesIncrease, Stepped, Both;
      case Continue(order) =>
        ContinueApart(env, n, n', order);
        hide TimesIncrease, TaskStep, Valid, PassedOk, CallsOk, LogOk;
      case Restart(order, left) =>
        RestartKeeps(env, n, n', order, left);
        hide TimesIncrease, Reopened, Inv, ListOk;
      case _ => hide TimesIncrease, Inv;
    }
  }

  lemma ProceedApart(env: Env, n: Node, peer: nat)
    requires Both(n.pool) == {} && peer in n.calls
    ensures Both(Stepped(env, n, peer).pool) == {} <==> !StoresLate(n, Proceed(peer))
  {
    var h := n.calls[peer].ev.hash;
    hide Verified;
    if n.calls[peer].at.Checked? {
      assert Both(Stepped(env, n, peer).pool) == if h in n.pool.committed then {h} else {};
    }
  }

  lemma ContinueApart(env: Env, n: Node, n': Node, order: seq<Hash>)
    requires TimesIncrease(env) && Inv(env, n) && TaskStep(env, n, n', order) && Both(n.pool) == {}
    ensures Both(n'.pool) == {} <==> !(n.task.Setting? && n.task.rest[0].hash in n.pool.pending)
  {
    hide TimesIncrease, IsIteration, PassedOk, CallsOk, LogOk, Passing, StoreOk, Expired;
    match n.task {
      case Checking(evs, i) =>
        if i < |evs| { CheckOneKeeps(env, n.pool, evs[i]); }
        hide Valid, CheckOne, Inv;
      case Flushing(st, _) =>
        FlushKeeps(env, n.pool, st, n.pool.buffer);
        hide Valid, Flush, Inv;
      case Setting(rest, _) =>
        assert Both(n'.pool) == if rest[0].hash in n.pool.pending then {rest[0].hash} else {};
        hide Inv;
      case Pruning =>
        if NeedsPruning(n.pool) { PruneIsExact(env, n.pool, order); }
        hide Valid, Prune, Inv;
      case _ => hide Inv;
    }
  }

  /** What is gossiped is pending, or about to leave the list, and listed once. */
  ghost predicate Gossip(n: Node) {
    && Distinct(n.pool.list)
    && forall k :: 0 <= k < |n.pool.list| ==> n.pool.list[k].hash in n.pool.pending.Keys + Gone(n.task)
  }

  /** A call lists its evidence although it is listed already, or is not pending any more. */
  predicate ListsLate(n: Node, a: Action) {
    && a.Proceed? && a.peer in n.calls && n.calls[a.peer].at.Stored?
    && var h := n.calls[a.peer].ev.hash; h in Hashes(n.pool.list) || h !in n.pool.pending.Keys + Gone(n.task)
  }

  lemma GossipExactly(env: Env, n: Node, n': Node, a: Action)
    requires TimesIncrease(env) && Inv(env, n) && Next(env, n, n', a) && Gossip(n)
    ensures Gossip(n') <==> !ListsLate(n, a)
  {
    match a {
      case Proceed(peer) =>
        ProceedGossips(env, n, peer);
        hide TimesIncrease, Inv, Gossip, ListsLate, Stepped;
      case Continue(order) =>
        ContinueGossips(env, n, n', order);
        hide TimesIncrease, Inv, TaskStep, Gossip;
      case Restart(order, left) =>
        RestartKeeps(env, n, n', order, left);
        hide TimesIncrease, Reopened, Inv, Distinct;
      case _ => hide TimesIncrease, Inv, Distinct;
    }
  }

  lemma ProceedGossips(env: Env, n: Node, peer: nat)
    requires Gossip(n) && peer in n.calls
    ensures Gossip(Stepped(env, n, peer)) <==> !ListsLate(n, Proceed(peer))
  {
    var call, n' := n.calls[peer], Stepped(env, n, peer);
    if call.at.Stored? {
      assert n'.task == n.task && n'.pool == n.pool.(list := n.pool.list + [call.ev]);
      hide Stepped;
      ListPush(n.pool.list, call.ev);
      ListedIn(n.pool.list, call.ev, n.pool.pending.Keys + Gone(n.task));
      hide Distinct, Hashes;
    } else {
      assert n'.task == n.task && n'.pool.list == n.pool.list && n.pool.pending.Keys <= n'.pool.pending.Keys by {
        hide Verified;
      }
      hide Stepped, Distinct;
    }
  }

  lemma ListedIn(list: seq<Evidence>, ev: Evidence, where: set<Hash>)
    requires forall k :: 0 <= k < |list| ==> list[k].hash in where
    ensures (forall k :: 0 <= k < |list + [ev]| ==> (list + [ev])[k].hash in where) <==> ev.hash in where
  {
    assert (list + [ev])[|list|] == ev;
  }

  lemma ListPush(list: seq<Evidence>, ev: Evidence)
    requires Distinct(list)
    ensures Distinct(list + [ev]) <==> ev.hash !in Hashes(list)
  {
    if ev.hash in Hashes(list) {
      var e :| e in list && e.hash == ev.hash;
      var k :| 0 <= k < |list| && list[k] == e;
      assert (list + [ev])[k].hash == (list + [ev])[|list|].hash;
    } else {
      assert forall k :: 0 <= k < |list| ==> list[k] in list;
    }
  }

  lemma ContinueGossips(env: Env, n: Node, n': Node, order: seq<Hash>)
    requires TimesIncrease(env) && Inv(env, n) && TaskStep(env, n, n', order) && Gossip(n)
    ensures Gossip(n')
  {
    hide TimesIncrease, IsIteration, PassedOk, CallsOk, LogOk, Passing, StoreOk, Expired;
    match n.task {
      case Checking(evs, i) =>
        if i < |evs| { CheckOneKeeps(env, n.pool, evs[i]); }
        hide Valid, CheckOne, Inv, Distinct;
      case Flushing(st, _) =>
        FlushLists(env, n.pool, st, n.pool.buffer);
        hide Flush, Inv;
      case Unlisting(gone) =>
        KeepIs(n.pool.list, gone);
        hide Inv, Keep, Distinct;
        forall k | 0 <= k < |n'.pool.list| ensures n'.pool.list[k].hash in n.pool.pending {
          assert n'.pool.list[k] in n.pool.list;
        }
      case Pruning =>
        assert ListOk(n.pool.list, n.pool.pending);
        if NeedsPruning(n.pool) { PruneLists(env, n.pool, order); }
        hide Prune, Inv;
      case _ => hide Inv, Distinct;
    }
  }

  lemma {:induction false} FlushLists(env: Env, p: Pool, st: State, buffer: seq<VotePair>)
    requires ListOk(p.list, p.pending)
    ensures ListOk(Flush(env, p, st, buffer).list, Flush(env, p, st, buffer).pending)
    decreases |buffer|
  {
    if buffer != [] {
      var ev := Formed(env, buffer[0]);
      ListGrows(p.list, p.pending, ev);
      hide ListOk;
      FlushLists(env, p, st, buffer[1..]);
      if ev.hash !in p.pending {
        FlushLists(env, AddPending(p, ev).(list := p.list + [ev]), st, buffer[1..]);
      }
    }
  }

  lemma PruneLists(env: Env, p: Pool, order: seq<Hash>)
    requires ListOk(p.list, p.pending) && IsIteration(order, p.pending)
    ensures ListOk(Prune(env, p, order).list, Prune(env, p, order).pending)
  {
    KeepListed(p.list, p.pending, Front(order, ExpiredPrefix(env, p.state, p.pending, order, 0)));
    hide ListOk, Keep, ExpiredPrefix, Front;
  }

  // ----- an update that nothing comes between -----

  function StepsLeft(task: Task): nat {
    match task
    case Flushing(_, evs) => 2 * |evs| + 4
    case Marking(rest, _) => 2 * |rest| + 3
    case Setting(rest, _) => 2 * |rest| + 2
    case Unlisting(_) => 2
    case Pruning => 1
    case _ => 0
  }

  ghost function RunUpdate(env: Env, n: Node, order: seq<Hash>): Node
    decreases StepsLeft(n.task)
  {
    if Updating(n.task) then RunUpdate(env, TaskNext(env, n, order), order) else n
  }

  /** One piece of evidence is taken out of the pending evidence, and then recorded as committed. */
  lemma MarkPair(env: Env, n: Node, order: seq<Hash>)
    requires n.task.Marking? && n.task.rest != []
    ensures var rest, h := n.task.rest, n.task.rest[0].hash;
            RunUpdate(env, n, order)
            == RunUpdate(env, n.(pool := Removed(n.pool, h).(committed := n.pool.committed + {h}),
                                 task := Marking(rest[1..], if h in n.pool.pending then n.task.gone + {h} else n.task.gone)), order)
  {
    var n1 := TaskNext(env, n, order);
    hide PruneNow, Flush, CheckNext, NeedsPruning, Lists;
    assert RunUpdate(env, n1, order) == RunUpdate(env, TaskNext(env, n1, order), order);
  }

  lemma MarkEnd(env: Env, n: Node, order: seq<Hash>)
    requires n.task.Marking? && n.task.rest == []
    ensures RunUpdate(env, n, order)
         == RunUpdate(env, n.(pool := n.pool.(list := Keep(n.pool.list, n.task.gone)), task := Pruning), order)
  {
    var n1 := TaskNext(env, n, order);
    hide PruneNow, Flush, CheckNext, NeedsPruning, Lists, Keep;
    assert RunUpdate(env, n1, order) == RunUpdate(env, TaskNext(env, n1, order), order);
  }

  /** q is p with the first k pieces of evidence marked; `gone` of them were pending. */
  ghost predicate Midway(p: Pool, q: Pool, evs: seq<Evidence>, k: nat, gone: set<Hash>) {
    && k <= |evs| && Moved(p.pending, p.size, Hashes(evs[..k]), q.pending, gone, q.size)
    && q == p.(pending := q.pending, size := q.size, committed := p.committed + Hashes(evs[..k]))
  }

  lemma MidwayStarts(p: Pool, evs: seq<Evidence>)
    requires p.size >= |p.pending|
    ensures Midway(p, p, evs, 0, {})
  {
    NoHashes(evs);
    assert p.pending - {} == p.pending;
  }

  lemma MidwayNext(p: Pool, q: Pool, evs: seq<Evidence>, k: nat, gone: set<Hash>)
    requires Midway(p, q, evs, k, gone) && k < |evs|
    ensures var h := evs[k].hash;
            Midway(p, Removed(q, h).(committed := q.committed + {h}), evs, k + 1, if h in q.pending then gone + {h} else gone)
  {
    hide Moved, Hashes;
    var h, done, next := evs[k].hash, Hashes(evs[..k]), Hashes(evs[..k + 1]);
    MovesOneMore(p.pending, p.size, done, q.pending, gone, q.size, h);
    HashesNext(evs, k);
    assert p.committed + done + {h} == p.committed + next;
    var q' := Removed(q, h).(committed := q.committed + {h});
    assert q' == p.(pending := q'.pending, size := q'.size, committed := p.committed + next);
    if h in q.pending {
      assert q'.pending == q.pending - {h} && q'.size == q.size - 1;
    } else {
      assert q'.pending == q.pending && q'.size == q.size;
    }
    hide Removed;
  }

  lemma MidwayEnds(p: Pool, q: Pool, evs: seq<Evidence>, gone: set<Hash>)
    requires Midway(p, q, evs, |evs|, gone)
    ensures q.(list := Keep(q.list, gone)) == Mark(p, evs)
  {
    assert evs[..|evs|] == evs;
    MovedIs(p.pending, p.size, Hashes(evs), q.pending, gone, q.size);
    hide Moved, Hashes, Keep;
  }

  /** The steps of the marking, with the first k pieces of evidence done. */
  lemma {:induction false} MarksInSteps(env: Env, n: Node, p: Pool, evs: seq<Evidence>, k: nat, order: seq<Hash>)
    requires n.task.Marking? && Midway(p, n.pool, evs, k, n.task.gone) && n.task.rest == evs[k..]
    ensures RunUpdate(env, n, order) == RunUpdate(env, n.(pool := Mark(p, evs), task := Pruning), order)
    decreases |evs| - k
  {
    assert k <= |evs|;
    hide Midway, RunUpdate, Mark;
    var q, gone := n.pool, n.task.gone;
    if k == |evs| {
      MidwayEnds(p, q, evs, gone);
      MarkEnd(env, n, order);
    } else {
      var h := evs[k].hash;
      MidwayNext(p, q, evs, k, gone);
      assert evs[k..][1..] == evs[k + 1..];
      MarkPair(env, n, order);
      MarksInSteps(env, n.(pool := Removed(q, h).(committed := q.committed + {h}),
                           task := Marking(evs[k + 1..], if h in q.pending then gone + {h} else gone)), p, evs, k + 1, order);
    }
  }

  lemma UpdateStarts(env: Env, n: Node, order: seq<Hash>)
    requires n.task.Flushing?
    ensures RunUpdate(env, n, order)
         == RunUpdate(env, n.(pool := Flush(env, n.pool, n.task.st, n.pool.buffer).(state := n.task.st),
                              task := Marking(n.task.evs, {})), order)
  {
    hide PruneNow, Flush, CheckNext, NeedsPruning, Lists, Keep;
  }

  lemma UpdateEnds(env: Env, n: Node, order: seq<Hash>)
    requires n.task.Pruning? && (NeedsPruning(n.pool) ==> Lists(order, n.pool.pending))
    ensures RunUpdate(env, n, order) == n.(pool := PruneNow(env, n.pool, order), task := Idle)
  {
    hide PruneNow, Flush, CheckNext, NeedsPruning, Lists, Keep;
    assert RunUpdate(env, TaskNext(env, n, order), order) == TaskNext(env, n, order);
  }

  /** Without interruption the steps of an update are those of the whole operation. */
  lemma UpdateInSteps(env: Env, n: Node, order: seq<Hash>)
    requires Valid(env, n.pool) && n.task.Flushing?
    requires var q := Applied(env, n.pool, n.task.st, n.task.evs); NeedsPruning(q) ==> Lists(order, q.pending)
    ensures var q := Applied(env, n.pool, n.task.st, n.task.evs);
            RunUpdate(env, n, order) == n.(pool := PruneNow(env, q, order), task := Idle)
  {
    var st, evs := n.task.st, n.task.evs;
    var p := Flush(env, n.pool, st, n.pool.buffer).(state := st);
    assert p.size >= |p.pending| by { FlushKeeps(env, n.pool, st, n.pool.buffer); hide Flush, Tidy; }
    assert Applied(env, n.pool, st, evs) == Mark(p, evs);
    hide Flush, Valid, Applied, Mark, PruneNow, Lists, NeedsPruning, RunUpdate, Midway;
    MidwayStarts(p, evs);
    assert evs[0..] == evs;
    UpdateStarts(env, n, order);
    var n1 := n.(pool := p, task := Marking(evs, {}));
    MarksInSteps(env, n1, p, evs, 0, order);
    UpdateEnds(env, n1.(pool := Mark(p, evs), task := Pruning), order);
  }

  // ----- calls that nothing comes between -----

  /** A call starts only when no other one and no update is in progress, and no block is applied before it returns. */
  ghost predicate Quiet(n: Node, a: Action) {
    && (a.Receive? ==> n.calls == map[] && !Updating(n.task))
    && (a.ApplyBlock? ==> n.calls == map[])
  }

  /** What a call has found out is still so. */
  ghost predicate StillTrue(p: Pool, call: Call) {
    && (!call.at.Received? ==> call.ev.hash !in Hashes(p.list))
    && (!call.at.Received? && !call.at.NotPending? ==> call.ev.hash !in p.committed)
    && (call.at.Stored? ==> call.ev.hash in p.pending)
  }

  ghost predicate CallsCalm(n: Node) {
    && (Updating(n.task) ==> n.calls == map[])
    && (forall peer, other :: peer in n.calls && other in n.calls ==> peer == other)
    && (forall peer :: peer in n.calls ==> StillTrue(n.pool, n.calls[peer]))
    && (n.task.Setting? && n.task.rest != [] ==> n.task.rest[0].hash !in n.pool.pending)
  }

  lemma NotListed(n: Node, h: Hash)
    requires Gossip(n) && !Updating(n.task) && h !in n.pool.pending
    ensures h !in Hashes(n.pool.list)
  {
  }

  lemma ProceedCalm(env: Env, n: Node, peer: nat)
    requires CallsCalm(n) && Gossip(n) && peer in n.calls
    ensures CallsCalm(Stepped(env, n, peer))
  {
    var call, n' := n.calls[peer], Stepped(env, n, peer);
    hide Verified, Hashes, Gossip;
    if call.at.Received? && call.ev.hash !in n.pool.pending {
      NotListed(n, call.ev.hash);
    }
    forall other | other in n'.calls ensures StillTrue(n'.pool, n'.calls[other]) {
      assert other == peer;
    }
  }

  lemma ContinueCalm(env: Env, n: Node, n': Node, order: seq<Hash>)
    requires Inv(env, n) && CallsCalm(n) && TaskStep(env, n, n', order)
    ensures CallsCalm(n')
  {
    if n.task.Checking? {
      CheckingCalm(env, n);
      hide Inv, CheckNext, CallsCalm;
    } else {
      hide Inv, CheckNext, Flush, PruneNow, NeedsPruning, Lists, Keep, StillTrue, IsIteration;
      assert n.calls == map[] && n'.calls == n.calls by { hide Removed; }
      if n'.task.Setting? {
        assert n'.task.rest == n.task.rest && n'.pool == Removed(n.pool, n.task.rest[0].hash);
      }
      hide TaskStep, TaskNext;
    }
  }

  lemma CheckingCalm(env: Env, n: Node)
    requires Valid(env, n.pool) && CallsCalm(n) && n.task.Checking?
    ensures CallsCalm(CheckNext(env, n, n.task.evs, n.task.i))
  {
    var evs, i := n.task.evs, n.task.i;
    if i < |evs| { CheckOneKeeps(env, n.pool, evs[i]); }
    hide CheckOne, Valid, Tidy, Hashes;
  }

  lemma CalmKeeps(env: Env, n: Node, n': Node, a: Action)
    requires Inv(env, n) && CallsCalm(n) && Gossip(n) && Next(env, n, n', a) && Quiet(n, a)
    ensures CallsCalm(n')
  {
    hide Inv, Gossip, CallsCalm, Stepped, TaskStep, Reopened, Hashes, HashSeq, Both;
    match a {
      case Proceed(peer) => ProceedCalm(env, n, peer);
      case Continue(order) => ContinueCalm(env, n, n', order);
      case Restart(order, left) => IdleCalm(n');
      case Receive(peer, ev) => ReceiveCalm(n, peer, ev);
      case _ => UpdatingCalm(n); CalmFrame(n, n');
    }
  }

  lemma UpdatingCalm(n: Node)
    requires CallsCalm(n)
    ensures Updating(n.task) ==> n.calls == map[]
  {
    hide StillTrue;
  }

  lemma IdleCalm(n: Node)
    requires n.calls == map[] && n.task.Idle?
    ensures CallsCalm(n)
  {
    hide StillTrue;
  }

  lemma ReceiveCalm(n: Node, peer: nat, ev: Evidence)
    requires CallsCalm(n) && n.calls == map[] && !Updating(n.task)
    ensures CallsCalm(n.(calls := n.calls[peer := Call(ev, Received)]))
  {
    hide Hashes;
  }

  /** Nothing that calls depend on has changed. */
  lemma CalmFrame(n: Node, n': Node)
    requires CallsCalm(n) && n'.calls == n.calls && n'.pool == n.pool.(buffer := n'.pool.buffer)
    requires (Updating(n'.task) ==> n'.calls == map[]) && (n'.task.Setting? ==> n'.task == n.task)
    ensures CallsCalm(n')
  {
    hide Hashes;
  }

  lemma NeverLate(n: Node, a: Action)
    requires CallsCalm(n)
    ensures !StoresLate(n, a) && !ListsLate(n, a)
  {
    hide Hashes;
  }

  ghost predicate QuietRun(run: seq<Node>, actions: seq<Action>) {
    |run| == |actions| + 1 && forall i :: 0 <= i < |actions| ==> Quiet(run[i], actions[i])
  }

  /** Then pending and committed evidence stay apart, and what is gossiped is pending and listed once. */
  lemma {:induction false} QuietKeeps(env: Env, run: seq<Node>, actions: seq<Action>, i: nat)
    requires IsRun(env, run, actions) && QuietRun(run, actions) && i < |run|
    ensures Both(run[i].pool) == {} && Gossip(run[i]) && CallsCalm(run[i])
  {
    hide Inv, Gossip, CallsCalm, Both, Next, TimesIncrease, Quiet;
    if i > 0 {
      var n, n', a := run[i - 1], run[i], actions[i - 1];
      QuietKeeps(env, run, actions, i - 1);
      RunKeeps(env, run, actions, i - 1);
      hide Empty, StoresLate, ListsLate;
      NeverLate(n, a);
      ApartExactly(env, n, n', a);
      GossipExactly(env, n, n', a);
      CalmKeeps(env, n, n', a);
    } else {
      var h :| run[0] == Empty(env, h);
      EmptyIsCalm(env, h);
    }
  }

  lemma EmptyIsCalm(env: Env, h: int)
    ensures Both(Empty(env, h).pool) == {} && Gossip(Empty(env, h)) && CallsCalm(Empty(env, h))
  {
  }

  /** If moreover the node does not stop in the middle of an update, no evidence is committed twice. */
  lemma {:induction false} QuietCommitsOnce(env: Env, run: seq<Node>, actions: seq<Action>, i: nat)
    requires IsRun(env, run, actions) && QuietRun(run, actions) && i < |run|
    requires forall j :: 0 <= j < |actions| && actions[j].Restart? ==> !Updating(run[j].task)
    ensures run[i].lost == {} && !run[i].again && OnlyOnce(run[i].applied)
  {
    hide OnlyOnce, Gossip, CallsCalm, Both, Next, TimesIncrease, QuietRun;
    CommittedOnce(env, run, actions, i);
    if i > 0 {
      QuietCommitsOnce(env, run, actions, i - 1);
      QuietKeeps(env, run, actions, i - 1);
      NothingLost(env, run[i - 1], run[i], actions[i - 1]);
    }
  }

  lemma NothingLost(env: Env, n: Node, n': Node, a: Action)
    requires Next(env, n, n', a) && Both(n.pool) == {} && n.lost == {} && !n.again && (a.Restart? ==> !Updating(n.task))
    ensures n'.lost == {} && !n'.again
  {
    hide Both, Hashes, HashSeq, CallStep, CheckOne, Flush, PruneNow, NeedsPruning, Lists, Reopened, IsIteration, Keep, Removed;
  }

  // ----- evidence that is committed twice, or listed twice -----

  function Any(): Env {
    Env(h => h, 100, 100, (_, _) => true)
  }

  const FOUND: Evidence := Evidence(Hash(1, "A"), 1, false, 0)

  /** Some run ends in n. */
  ghost predicate Reached(n: Node) {
    exists run: seq<Node>, actions: seq<Action> :: IsRun(Any(), run, actions) && run[|run| - 1] == n
  }

  lemma Extend(n: Node, n': Node, a: Action)
    requires Reached(n) && Next(Any(), n, n', a)
    ensures Reached(n')
  {
    var run, actions :| IsRun(Any(), run, actions) && run[|run| - 1] == n;
    hide Next, Empty, TimesIncrease;
    var run', actions' := run + [n'], actions + [a];
    forall i | 0 <= i < |actions'| ensures Next(Any(), run'[i], run'[i + 1], actions'[i]) {
      if i < |actions| {
        assert run'[i] == run[i] && run'[i + 1] == run[i + 1] && actions'[i] == actions[i];
      }
    }
    assert run'[0] == run[0];
    assert IsRun(Any(), run', actions');
  }

  const START: Node := Empty(Any(), 1)

  lemma Starts()
    ensures Reached(START)
  {
    var actions: seq<Action> := [];
    assert IsRun(Any(), [START], actions) && [START][|[START]| - 1] == START;
  }

  lemma FoundOnly()
    ensures Hashes([FOUND]) == {FOUND.hash} && HashSeq([FOUND]) == [FOUND.hash]
  {
    assert FOUND in [FOUND];
  }

  /** A block with the evidence is checked and passes. */
  lemma BlockPasses(n: Node, p: Pool)
    requires Reached(n) && n.task.Idle? && CheckOne(Any(), n.pool, FOUND) == (p, true)
    ensures Reached(n.(pool := p, passed := n.passed + {[FOUND]}))
  {
    var n1, n2 := n.(task := Checking([FOUND], 0)), n.(pool := p, task := Checking([FOUND], 1));
    hide Reached, CheckOne;
    Extend(n, n1, CheckBlock([FOUND]));
    assert TaskNext(Any(), n1, []) == n2;
    Extend(n1, n2, Continue([]));
    Extend(n2, n.(pool := p, passed := n.passed + {[FOUND]}), Continue([]));
  }

  /** The block is applied, up to the update of the pool. */
  function Executed(n: Node, h: int): Node {
    n.(task := Flushing(State(h, h), [FOUND]), passed := {}, applied := n.applied + [FOUND.hash],
    again := n.again || FOUND.hash in n.lost + Both(n.pool))
  }

  lemma BlockApplied(n: Node, h: int)
    requires Reached(n) && n.task.Idle? && [FOUND] in n.passed && h > n.pool.state.height
    ensures Reached(Executed(n, h))
  {
    FoundOnly();
    hide Reached, Hashes, HashSeq, Both;
    Extend(n, Executed(n, h), ApplyBlock(State(h, h), [FOUND]));
  }

  /** The pool of a node at height h. */
  function Holding(h: int, pending: bool, committed: bool, list: seq<Evidence>, pruningHeight: int, pruningTime: int): Pool {
    Pool(State(h, h), if pending then map[FOUND.hash := FOUND] else map[], if committed then {FOUND.hash} else {},
         if pending then 1 else 0, list, [], pruningHeight, pruningTime)
  }

  const HELD: Pool := Holding(2, true, false, [FOUND], 102, 1_000_000_101)

  lemma Reload()
    ensures Reopened(Any(), Holding(2, true, false, [], 1, 1), [FOUND.hash], [FOUND.hash], HELD)
  {
    var p := Holding(2, true, false, [], 1, 1);
    assert IsIteration([FOUND.hash], p.pending);
    assert ExpiredPrefix(Any(), p.state, p.pending, [FOUND.hash], 0) == 0;
    assert Front([FOUND.hash], 0) == {};
    assert p.pending - {} == p.pending;
    var q := Prune(Any(), p, [FOUND.hash]);
    assert q.pending == p.pending;
    assert ReadBack(q.pending, [FOUND.hash]) == [FOUND];
  }

  lemma StopsAndStarts(n: Node)
    requires Reached(n) && n.task == Flushing(State(2, 2), [FOUND]) && n.pool == Holding(1, true, false, [], 1, 1)
    requires n.applied == [FOUND.hash] && n.lost == {} && !n.again
    ensures Reached(Node(HELD, Idle, map[], {}, [FOUND.hash], {FOUND.hash}, false))
  {
    var n' := Node(HELD, Idle, map[], {}, [FOUND.hash], {FOUND.hash}, false);
    FoundOnly();
    Reload();
    assert Resumed(n) == Holding(2, true, false, [], 1, 1);
    assert {} + {FOUND.hash} == {FOUND.hash};
    hide Reached, Reopened, Hashes, Resumed;
    Extend(n, n', Restart([FOUND.hash], [FOUND.hash]));
  }

  /**
   * A block with some evidence is checked and stored, and the node stops before marking it. The
   * handshake applies the block without the pool, so the evidence is still pending, passes the check
   * again and is applied with a second block.
   */
  lemma CommittedTwice()
    ensures exists run: seq<Node>, actions: seq<Action> ::
              && IsRun(Any(), run, actions) && run[|run| - 1].applied == [FOUND.hash, FOUND.hash]
              && run[|run| - 1].lost == {FOUND.hash}
  {
    Starts();
    BlockPasses(START, Holding(1, true, false, [], 1, 1));
    var n1 := START.(pool := Holding(1, true, false, [], 1, 1), passed := {[FOUND]});
    BlockApplied(n1, 2);
    hide Reached;
    StopsAndStarts(Executed(n1, 2));
    var n3 := Node(HELD, Idle, map[], {}, [FOUND.hash], {FOUND.hash}, false);
    BlockPasses(n3, HELD);
    BlockApplied(n3.(passed := {[FOUND]}), 3);
    assert Executed(n3.(passed := {[FOUND]}), 3).applied == [FOUND.hash, FOUND.hash];
    ReachedAgain(Executed(n3.(passed := {[FOUND]}), 3));
  }

  lemma ReachedAgain(n: Node)
    requires Reached(n)
    ensures exists run: seq<Node>, actions: seq<Action> :: IsRun(Any(), run, actions) && run[|run| - 1] == n
  {
  }

  /** A call by a peer gets as far as storing its evidence. */
  lemma CallChecks(n: Node, peer: nat)
    requires Reached(n) && peer !in n.calls && n.pool == START.pool
    ensures Reached(n.(calls := n.calls[peer := Call(FOUND, Checked)]))
  {
    var n1 := n.(calls := n.calls[peer := Call(FOUND, Received)]);
    var n2 := n.(calls := n.calls[peer := Call(FOUND, NotPending)]);
    var n3 := n.(calls := n.calls[peer := Call(FOUND, NotCommitted)]);
    var n4 := n.(calls := n.calls[peer := Call(FOUND, Checked)]);
    assert Stepped(Any(), n1, peer) == n2 && Stepped(Any(), n2, peer) == n3 && Stepped(Any(), n3, peer) == n4;
    hide Reached, Stepped;
    Extend(n, n1, Receive(peer, FOUND));
    Extend(n1, n2, Proceed(peer));
    Extend(n2, n3, Proceed(peer));
    Extend(n3, n4, Proceed(peer));
  }

  /** A call stores its evidence, and returns. */
  lemma CallStores(n: Node, peer: nat)
    requires Reached(n) && peer in n.calls && n.calls[peer] == Call(FOUND, Checked)
    ensures Reached(n.(pool := AddPending(n.pool, FOUND).(list := n.pool.list + [FOUND]), calls := n.calls - {peer}))
  {
    var n1 := n.(pool := AddPending(n.pool, FOUND), calls := n.calls[peer := Call(FOUND, Stored)]);
    assert n1.calls - {peer} == n.calls - {peer};
    hide Reached;
    Extend(n, n1, Proceed(peer));
    Extend(n1, n.(pool := AddPending(n.pool, FOUND).(list := n.pool.list + [FOUND]), calls := n.calls - {peer}), Proceed(peer));
  }

  /** The update that marks the evidence. */
  lemma Marks(n: Node)
    requires Reached(n) && n.pool == Holding(1, true, false, [], 1, 1) && n.task == Flushing(State(2, 2), [FOUND])
    ensures Reached(n.(pool := Holding(2, false, true, [], 1, 1), task := Idle))
  {
    var h := FOUND.hash;
    var n1 := n.(pool := Holding(2, true, false, [], 1, 1), task := Marking([FOUND], {}));
    var n2 := n.(pool := Holding(2, false, false, [], 1, 1), task := Setting([FOUND], {h}));
    var n3 := n.(pool := Holding(2, false, true, [], 1, 1), task := Marking([], {h}));
    assert map[h := FOUND] - {h} == map[] && [FOUND][1..] == [];
    assert Removed(n1.pool, h) == n2.pool && n2.pool.(committed := {} + {h}) == n3.pool;
    assert TaskNext(Any(), n, []) == n1 && TaskNext(Any(), n1, []) == n2 && TaskNext(Any(), n2, []) == n3 by { hide Removed; }
    assert TaskNext(Any(), n3, []) == n3.(task := Unlisting({h}));
    assert TaskNext(Any(), n3.(task := Unlisting({h})), []) == n3.(task := Pruning);
    assert TaskNext(Any(), n3.(task := Pruning), []) == n3.(task := Idle);
    hide Reached, TaskNext;
    Extend(n, n1, Continue([]));
    Extend(n1, n2, Continue([]));
    Extend(n2, n3, Continue([]));
    Extend(n3, n3.(task := Unlisting({h})), Continue([]));
    Extend(n3.(task := Unlisting({h})), n3.(task := Pruning), Continue([]));
    Extend(n3.(task := Pruning), n3.(task := Idle), Continue([]));
  }

  /**
   * A call finds its evidence new and valid. Before it stores it, a block with the evidence is checked,
   * applied and marked. The evidence is then pending and committed, passes the check again and is
   * applied with a second block, although nothing was lost.
   */
  lemma StoredLate()
    ensures exists run: seq<Node>, actions: seq<Action> ::
              && IsRun(Any(), run, actions) && run[|run| - 1].applied == [FOUND.hash, FOUND.hash]
              && run[|run| - 1].lost == {}
  {
    var calls, held := map[0 := Call(FOUND, Checked)], Holding(1, true, false, [], 1, 1);
    Starts();
    hide Reached, START;
    CallChecks(START, 0);
    var n1 := START.(calls := calls);
    BlockPasses(n1, held);
    var n2 := n1.(pool := held, passed := {[FOUND]});
    BlockApplied(n2, 2);
    var n3 := Executed(n2, 2);
    Marks(n3);
    var n4 := n3.(pool := Holding(2, false, true, [], 1, 1), task := Idle);
    CallStores(n4, 0);
    var n5 := n4.(pool := Holding(2, true, true, [FOUND], 1, 1), calls := map[]);
    BlockPasses(n5, n5.pool);
    BlockApplied(n5.(passed := {[FOUND]}), 3);
    var n6 := Executed(n5.(passed := {[FOUND]}), 3);
    assert n6.applied == [FOUND.hash, FOUND.hash] && n6.lost == {};
    ReachedAgain(n6);
  }

  /** Two peers send the same evidence at the same time, and it is listed twice. */
  lemma ListedTwice()
    ensures exists run: seq<Node>, actions: seq<Action> ::
              IsRun(Any(), run, actions) && run[|run| - 1].pool.list == [FOUND, FOUND]
  {
    Starts();
    CallChecks(START, 0);
    var n1 := START.(calls := map[0 := Call(FOUND, Checked)]);
    assert START.calls[0 := Call(FOUND, Checked)] == n1.calls;
    hide Reached;
    CallChecks(n1, 1);
    var n2 := n1.(calls := n1.calls[1 := Call(FOUND, Checked)]);
    CallStores(n2, 0);
    var n3 := n2.(pool := AddPending(n2.pool, FOUND).(list := [FOUND]), calls := n2.calls - {0});
    assert n2.pool.list + [FOUND] == [FOUND];
    CallStores(n3, 1);
    var n4 := n3.(pool := AddPending(n3.pool, FOUND).(list := [FOUND] + [FOUND]), calls := n3.calls - {1});
    assert n4.pool.list == [FOUND, FOUND];
    ReachedAgain(n4);
  }
}
