/**
 * Block sync (blocksync/pool.go, blocksync/reactor.go): a window of requesters that one goroutine
 * extends at the top while another consumes it at the bottom.
 */
module BlockSync {
  import opened Common

  type PeerId = nat

  const MIN_BLOCKS_FOR_SINGLE_REQUEST := 50
  const MAX_PENDING_REQUESTS_PER_PEER := 20

  datatype Block = Block(height: int, id: nat)

  /** A requester: whom the block was requested from, who sent it, the block, and the peer it is told to give up. */
  datatype Requester = Requester(
    height: int, peer: Option<PeerId>, second: Option<PeerId>, from: Option<PeerId>, block: Option<Block>, redo: Option<PeerId>)

  datatype Peer = Peer(base: int, height: int)

  /** The pool's shared fields, all guarded by one mutex. */
  datatype Pool = Pool(
    startHeight: int, height: int, requesters: map<int, Requester>,
    peers: map<PeerId, Peer>, sortedPeers: seq<PeerId>, maxPeerHeight: int)

  // ----- what each critical section does -----

  function NextRequesterHeight(p: Pool): int { p.height + |p.requesters| }

  /** makeRequestersRoutine's first critical section: whether to extend the window. */
  predicate WantsRequester(p: Pool) {
    |p.requesters| < |p.peers| * MAX_PENDING_REQUESTS_PER_PEER && NextRequesterHeight(p) <= p.maxPeerHeight
  }

  /** makeNextRequester, for a height that was read earlier. */
  function Extended(p: Pool, h: int): Pool {
    p.(requesters := p.requesters[h := Requester(h, None, None, None, None, None)])
  }

  predicate CanPop(p: Pool) {
    p.height in p.requesters
  }

  function Pop(p: Pool): Pool {
    p.(requesters := p.requesters - {p.height}, height := p.height + 1)
  }

  function BlockAt(p: Pool, h: int): Option<Block> {
    if h in p.requesters then p.requesters[h].block else None
  }

  function SetBlock(r: Requester, b: Block, from: PeerId): Requester {
    if !Asked(r, from) then r
    else if r.block.Some? then r
    else r.(block := Some(b), from := Some(from))
  }

  function Received(p: Pool, from: PeerId, b: Block): Pool {
    if b.height in p.requesters
    then p.(requesters := p.requesters[b.height := SetBlock(p.requesters[b.height], b, from)])
    else p
  }

  /** reset: the block goes only if it came from that peer. */
  function ResetRequester(r: Requester, peer: Option<PeerId>): Requester {
    var r := if r.from == peer then r.(block := None, from := None) else r;
    if r.peer == peer then r.(peer := None) else r.(second := None)
  }

  function Reset(p: Pool, h: int, peer: Option<PeerId>): Pool {
    if h in p.requesters then p.(requesters := p.requesters[h := ResetRequester(p.requesters[h], peer)]) else p
  }

  predicate Asked(r: Requester, id: PeerId) {
    r.peer == Some(id) || r.second == Some(id)
  }

  /** The requester takes its signal: it gives up that peer, if it has asked it. */
  function TakeSignal(p: Pool, h: int): Pool {
    if h !in p.requesters || p.requesters[h].redo.None? then p
    else
      var r, id := p.requesters[h].(redo := None), p.requesters[h].redo.value;
      p.(requesters := p.requesters[h := if Asked(r, id) then ResetRequester(r, Some(id)) else r])
  }

  /** A requester has picked a peer to ask. */
  function Assign(p: Pool, h: int, peer: PeerId, second: bool): Pool {
    if h !in p.requesters then p
    else if second then p.(requesters := p.requesters[h := p.requesters[h].(second := Some(peer))])
    else p.(requesters := p.requesters[h := p.requesters[h].(peer := Some(peer))])
  }

  function Reported(p: Pool, id: PeerId, base: int, height: int, banned: bool): Pool {
    if id !in p.peers && banned then p
    else
      p.(peers := p.peers[id := Peer(base, height)],
      sortedPeers := if id in p.peers then p.sortedPeers else [id] + p.sortedPeers,
      maxPeerHeight := if height > p.maxPeerHeight then height else p.maxPeerHeight)
  }

  function Without(s: seq<PeerId>, id: PeerId): seq<PeerId> {
    if s == [] then [] else if s[0] == id then s[1..] else [s[0]] + Without(s[1..], id)
  }

  // ----- the window -----

  /**
   * Requesters occupy exactly the heights from the pool's height on, each is for the height it is
   * filed under, and a block it holds has that height.
   */
  ghost predicate Window(p: Pool) {
    && (forall h :: h in p.requesters <==> p.height <= h < p.height + |p.requesters|)
    && (forall h :: h in p.requesters ==> p.requesters[h].height == h)
    && (forall h :: h in p.requesters && p.requesters[h].block.Some? ==> p.requesters[h].block.value.height == h)
  }

  lemma OneMore(keys: set<int>, h: int)
    requires h !in keys
    ensures |keys + {h}| == |keys| + 1
  {
  }

  lemma MakeNextKeeps(p: Pool, h: int)
    requires Window(p) && h == NextRequesterHeight(p)
    ensures Window(Extended(p, h)) && NextRequesterHeight(Extended(p, h)) == h + 1
  {
    var more := Extended(p, h).requesters;
    assert more.Keys == p.requesters.Keys + {h};
    OneMore(p.requesters.Keys, h);
    assert |more| == |more.Keys| == |p.requesters| + 1;
    assert forall k :: k in more <==> k in p.requesters || k == h;
  }

  /** Popping moves the bottom up and leaves the top where it is, so a height read before is still the next one. */
  lemma PopKeeps(p: Pool)
    requires Window(p) && CanPop(p)
    ensures Window(Pop(p)) && NextRequesterHeight(Pop(p)) == NextRequesterHeight(p)
  {
    var rest := Pop(p).requesters;
    assert p.requesters.Keys == rest.Keys + {p.height};
    OneMore(rest.Keys, p.height);
    assert |rest| == |p.requesters| - 1;
  }

  lemma UpdateKeeps(p: Pool, h: int, r: Requester)
    requires Window(p) && h in p.requesters && r.height == h
    requires r.block.Some? ==> r.block.value.height == h
    ensures Window(p.(requesters := p.requesters[h := r]))
    ensures NextRequesterHeight(p.(requesters := p.requesters[h := r])) == NextRequesterHeight(p)
  {
    assert p.requesters[h := r].Keys == p.requesters.Keys;
  }

  // ----- the goroutines -----

  /** Where the reactor's loop is: between two critical sections of the pool. */
  datatype Reactor =
    | Idle
    | Peeked(first: Block, second: Block)
    | RejectingFirst(first: Block, second: Block)
    | RejectingSecond(second: Block)
    | Accepted(first: Block)
    | Popped(first: Block)

  /** The pool, the height the requester goroutine has read but not used yet, the reactor, and the node's state. */
  datatype System = System(pool: Pool, read: Option<int>, reactor: Reactor, initialHeight: int, lastBlockHeight: int)

  datatype Action =
    | ReadNextHeight | CreateRequester
    | Peek | Verify(ok: bool) | RemoveFirst | RemoveSecond | PopFirst | Apply
    | Receive(from: PeerId, block: Block)
    | ResetOne(h: int, peer: Option<PeerId>) | Redo(h: int) | AssignPeer(h: int, chosen: PeerId, second: bool)
    | PeerStatus(id: PeerId, base: int, height: int, banned: bool) | DropPeer(id: PeerId)

  /** redo: the signal is dropped if another one is pending. */
  function Told(r: Requester, id: PeerId): Requester {
    if Asked(r, id) && r.redo.None? then r.(redo := Some(id)) else r
  }

  function TellAll(requesters: map<int, Requester>, id: PeerId): map<int, Requester> {
    map h | h in requesters :: Told(requesters[h], id)
  }

  /** removePeer: the requesters that asked the peer are told to give it up, and it leaves the lists. */
  function Removed(p: Pool, id: PeerId): Pool {
    var p := p.(requesters := TellAll(p.requesters, id));
    if id !in p.peers then p
    else
      var rest := p.peers - {id};
      p.(peers := rest, sortedPeers := Without(p.sortedPeers, id),
      maxPeerHeight := if p.peers[id].height == p.maxPeerHeight then MaxHeight(rest, p.sortedPeers) else p.maxPeerHeight)
  }

  /** The largest height reported by the listed peers, at least zero. */
  function MaxHeight(peers: map<PeerId, Peer>, ids: seq<PeerId>): int {
    if ids == [] then 0
    else
      var m := MaxHeight(peers, ids[1..]);
      if ids[0] in peers && peers[ids[0]].height > m then peers[ids[0]].height else m
  }

  /** The peer that sent the block of a requester, if any. */
  function Sender(p: Pool, h: int): Option<PeerId> {
    if h in p.requesters then p.requesters[h].from else None
  }

  function DropSender(p: Pool, h: int): Pool {
    match Sender(p, h)
    case Some(id) => Removed(p, id)
    case None => p
  }

  ghost predicate Next(s: System, s': System, a: Action) {
    match a
    case ReadNextHeight => s.read.None? && WantsRequester(s.pool) && s' == s.(read := Some(NextRequesterHeight(s.pool)))
    case CreateRequester => s.read.Some? && s' == s.(pool := Extended(s.pool, s.read.value), read := None)
    case Peek =>
      && s.reactor.Idle?
      && var first, second := BlockAt(s.pool, s.pool.height), BlockAt(s.pool, s.pool.height + 1);
         first.Some? && second.Some? && s' == s.(reactor := Peeked(first.value, second.value))
    case Verify(ok) =>
      && s.reactor.Peeked?
      && s' == s.(reactor := if ok then Accepted(s.reactor.first) else RejectingFirst(s.reactor.first, s.reactor.second))
    case RemoveFirst =>
      && s.reactor.RejectingFirst?
      && s' == s.(pool := DropSender(s.pool, s.reactor.first.height), reactor := RejectingSecond(s.reactor.second))
    case RemoveSecond =>
      && s.reactor.RejectingSecond?
      && s' == s.(pool := DropSender(s.pool, s.reactor.second.height), reactor := Idle)
    case PopFirst => s.reactor.Accepted? && s' == s.(pool := Pop(s.pool), reactor := Popped(s.reactor.first))
    case Apply => s.reactor.Popped? && s' == s.(reactor := Idle, lastBlockHeight := s.reactor.first.height)
    case Receive(from, b) => s' == s.(pool := Received(s.pool, from, b))
    case ResetOne(h, peer) => s' == s.(pool := Reset(s.pool, h, peer))
    case Redo(h) => s' == s.(pool := TakeSignal(s.pool, h))
    case AssignPeer(h, peer, second) => s' == s.(pool := Assign(s.pool, h, peer, second))
    case PeerStatus(id, base, height, banned) => s' == s.(pool := Reported(s.pool, id, base, height, banned))
    case DropPeer(id) => s' == s.(pool := Removed(s.pool, id))
  }

  /** The panics and nil dereferences of the reactor and the pool, each as the test that guards it. */
  ghost predicate Panics(s: System, a: Action) {
    match a
    case Verify(_) =>
      && s.reactor.Peeked?
      && ((s.lastBlockHeight > 0 && s.lastBlockHeight + 1 != s.reactor.first.height)
          || s.reactor.first.height + 1 != s.reactor.second.height)
    case RemoveFirst => s.reactor.RejectingFirst? && s.reactor.first.height !in s.pool.requesters
    case RemoveSecond => s.reactor.RejectingSecond? && s.reactor.second.height !in s.pool.requesters
    case PopFirst => s.reactor.Accepted? && (!CanPop(s.pool) || !NotifiesSafely(Pop(s.pool)))
    case _ => false
  }

  /** PopRequest tells the lowest requesters about the new height; it expects them to be there. */
  ghost predicate NotifiesSafely(p: Pool) {
    forall h :: p.height <= h < p.height + MIN_BLOCKS_FOR_SINGLE_REQUEST && h < p.height + |p.requesters| ==> h in p.requesters
  }

  function NextHeight(initial: int, last: int): int {
    if last == 0 then initial else last + 1
  }

  /**
   * NewReactorWithAddr: it panics unless state and store agree, and the pool starts at the height
   * after them. A store that is still empty after an offline state sync counts as synced to that height.
   */
  ghost predicate Starts(s: System, initialHeight: int, lastBlockHeight: int, storeHeight: int, offlineHeight: int) {
    && initialHeight >= 1 && lastBlockHeight >= 0
    && var store := if storeHeight == 0 then offlineHeight else storeHeight;
       && lastBlockHeight == store
       && var start := if store + 1 == 1 then initialHeight else store + 1;
          s == System(Pool(start, start, map[], map[], [], 0), None, Idle, initialHeight, lastBlockHeight)
  }

  ghost predicate IsRun(run: seq<System>, actions: seq<Action>) {
    && |run| == |actions| + 1
    && (exists i, l, st, off :: Starts(run[0], i, l, st, off))
    && forall i :: 0 <= i < |actions| ==> Next(run[i], run[i + 1], actions[i])
  }

  /** What the reactor has seen is still true of the pool: only the reactor itself moves the bottom of the window. */
  ghost predicate ReactorOk(s: System) {
    match s.reactor
    case Idle => s.pool.height == NextHeight(s.initialHeight, s.lastBlockHeight)
    case Peeked(first, second) =>
      && s.pool.height == NextHeight(s.initialHeight, s.lastBlockHeight) == first.height
      && second.height == first.height + 1 && second.height in s.pool.requesters
    case RejectingFirst(first, second) =>
      && s.pool.height == NextHeight(s.initialHeight, s.lastBlockHeight) == first.height
      && second.height == first.height + 1 && second.height in s.pool.requesters
    case RejectingSecond(second) =>
      && s.pool.height == NextHeight(s.initialHeight, s.lastBlockHeight) == second.height - 1
      && second.height in s.pool.requesters
    case Accepted(first) =>
      s.pool.height == NextHeight(s.initialHeight, s.lastBlockHeight) == first.height && first.height in s.pool.requesters
    case Popped(first) =>
      s.pool.height == first.height + 1 && NextHeight(s.initialHeight, s.lastBlockHeight) == first.height
  }

  ghost predicate PeersOk(p: Pool) {
    && (forall id :: id in p.peers <==> id in p.sortedPeers)
    && (forall i, j :: 0 <= i < j < |p.sortedPeers| ==> p.sortedPeers[i] != p.sortedPeers[j])
    && (forall id :: id in p.peers ==> p.peers[id].height <= p.maxPeerHeight)
  }

  ghost predicate Inv(s: System) {
    && s.initialHeight >= 1 && s.lastBlockHeight >= 0
    && Window(s.pool) && ReactorOk(s)
    && (s.read.Some? ==> s.read.value == NextRequesterHeight(s.pool))
    && s.pool.height >= 1
  }

  /** A requester's fields change, the window does not. */
  lemma SameWindow(s: System, p: Pool)
    requires Inv(s) && Window(p) && p.height == s.pool.height && NextRequesterHeight(p) == NextRequesterHeight(s.pool)
    requires p.requesters.Keys == s.pool.requesters.Keys
    ensures Inv(s.(pool := p))
  {
  }

  lemma RequesterStepKeeps(s: System, s': System, a: Action)
    requires Inv(s) && Next(s, s', a) && (a.Receive? || a.ResetOne? || a.Redo? || a.AssignPeer?)
    ensures Inv(s')
  {
    var h := if a.Receive? then a.block.height else a.h;
    if h in s.pool.requesters {
      UpdateKeeps(s.pool, h, s'.pool.requesters[h]);
    }
    SameWindow(s, s'.pool);
  }

  lemma PeerStepKeeps(s: System, p: Pool)
    requires Inv(s) && p.height == s.pool.height
    requires p.requesters == s.pool.requesters || exists id :: p.requesters == TellAll(s.pool.requesters, id)
    ensures Inv(s.(pool := p))
  {
    if id :| p.requesters == TellAll(s.pool.requesters, id) {
      TellAllKeeps(s.pool, id);
    }
  }

  /** Signals do not change the window. */
  lemma TellAllKeeps(p: Pool, id: PeerId)
    requires Window(p)
    ensures var q := p.(requesters := TellAll(p.requesters, id));
            Window(q) && NextRequesterHeight(q) == NextRequesterHeight(p) && q.requesters.Keys == p.requesters.Keys
  {
    assert TellAll(p.requesters, id).Keys == p.requesters.Keys;
  }

  lemma NextKeeps(s: System, s': System, a: Action)
    requires Inv(s) && Next(s, s', a)
    ensures Inv(s')
  {
    match a {
      case CreateRequester => MakeNextKeeps(s.pool, s.read.value);
      case PopFirst => PopKeeps(s.pool);
      case Receive(_, _) => RequesterStepKeeps(s, s', a);
      case ResetOne(_, _) => RequesterStepKeeps(s, s', a);
      case Redo(_) => RequesterStepKeeps(s, s', a);
      case AssignPeer(_, _, _) => RequesterStepKeeps(s, s', a);
      case RemoveFirst => PeerStepKeeps(s, s'.pool);
      case RemoveSecond => PeerStepKeeps(s, s'.pool);
      case PeerStatus(_, _, _, _) => PeerStepKeeps(s, s'.pool);
      case DropPeer(_) => PeerStepKeeps(s, s'.pool);
      case _ =>
    }
  }

  lemma {:induction false} RunKeeps(run: seq<System>, actions: seq<Action>, i: nat)
    requires IsRun(run, actions) && i < |run|
    ensures Inv(run[i])
  {
    hide Next;
    if i > 0 {
      RunKeeps(run, actions, i - 1);
      NextKeeps(run[i - 1], run[i], actions[i - 1]);
    }
  }

  /**
   * Block-sync window: whatever the interleaving, requesters occupy exactly the heights from the
   * pool's height on, a block held by a requester has its height, the pool's height is in step with
   * the state's, and none of the panics is reachable.
   */
  lemma WindowHolds(run: seq<System>, actions: seq<Action>, i: nat)
    requires IsRun(run, actions) && i < |run|
    ensures Window(run[i].pool)
    ensures run[i].pool.height == NextHeight(run[i].initialHeight, run[i].lastBlockHeight) + if run[i].reactor.Popped? then 1 else 0
    ensures forall a :: !Panics(run[i], a)
  {
    RunKeeps(run, actions, i);
    var s := run[i];
    hide IsRun;
    forall a ensures !Panics(s, a) {
      if a.PopFirst? && s.reactor.Accepted? {
        PopKeeps(s.pool);
      }
    }
  }

  /** Blocks are applied one after the other: a height is never skipped and never applied twice. */
  lemma AppliedInOrder(run: seq<System>, actions: seq<Action>, i: nat)
    requires IsRun(run, actions) && i < |actions| && actions[i] == Apply
    ensures run[i + 1].lastBlockHeight == NextHeight(run[i].initialHeight, run[i].lastBlockHeight)
  {
    RunKeeps(run, actions, i);
    assert Next(run[i], run[i + 1], actions[i]);
  }

  // ----- the pool in place -----

  lemma {:induction false} WithoutIs(s: seq<PeerId>, id: PeerId)
    requires forall i, j :: 0 <= i < j < |s| ==> s[i] != s[j]
    ensures forall x :: x in Without(s, id) <==> x in s && x != id
    ensures forall i, j :: 0 <= i < j < |Without(s, id)| ==> Without(s, id)[i] != Without(s, id)[j]
  {
    if s != [] && s[0] != id {
      WithoutIs(s[1..], id);
      assert s == [s[0]] + s[1..] && s[0] !in s[1..];
      var w := Without(s[1..], id);
      assert Without(s, id) == [s[0]] + w && s[0] !in w;
    } else if s != [] {
      assert s == [s[0]] + s[1..];
    }
  }

  lemma {:induction false} MaxHeightIsLargest(peers: map<PeerId, Peer>, ids: seq<PeerId>)
    ensures MaxHeight(peers, ids) >= 0
    ensures forall id :: id in ids && id in peers ==> peers[id].height <= MaxHeight(peers, ids)
    ensures MaxHeight(peers, ids) > 0 ==> exists id :: id in ids && id in peers && peers[id].height == MaxHeight(peers, ids)
  {
    if ids != [] {
      MaxHeightIsLargest(peers, ids[1..]);
    }
  }

  /** The list of peers and the bound on their heights survive the loss of any peer. */
  lemma RemovePeerKeeps(p: Pool, id: PeerId)
    requires PeersOk(p)
    ensures PeersOk(Removed(p, id)) && id !in Removed(p, id).peers
  {
    WithoutIs(p.sortedPeers, id);
    MaxHeightIsLargest(p.peers - {id}, p.sortedPeers);
  }

  lemma SetPeerRangeKeeps(p: Pool, id: PeerId, base: int, height: int, banned: bool)
    requires PeersOk(p)
    ensures PeersOk(Reported(p, id, base, height, banned))
  {
  }

  class BlockPool {
    var startHeight: int
    var height: int
    var requesters: map<int, Requester>
    var peers: map<PeerId, Peer>
    var sortedPeers: seq<PeerId>
    var maxPeerHeight: int
    /** The requesters that were told about a new height, since the last pop. */
    var notified: seq<int>

    function Snap(): Pool
      reads this
    {
      Pool(startHeight, height, requesters, peers, sortedPeers, maxPeerHeight)
    }

    ghost predicate Valid()
      reads this
    {
      Window(Snap()) && PeersOk(Snap())
    }

    constructor (start: int)
      ensures Valid() && Snap() == Pool(start, start, map[], map[], [], 0)
    {
      startHeight, height, requesters, peers, sortedPeers, maxPeerHeight, notified := start, start, map[], map[], [], 0, [];
    }

    /** makeNextRequester with a height read in an earlier critical section, since when blocks may have been popped. */
    method MakeNextRequester(h: int)
      requires Valid() && h == NextRequesterHeight(Snap())
      modifies this`requesters
      ensures Valid() && Snap() == Extended(old(Snap()), h)
    {
      MakeNextKeeps(Snap(), h);
      requesters := requesters[h := Requester(h, None, None, None, None, None)];
    }

    /** PeekTwoBlocks: consecutive blocks at the pool's height, as far as they have arrived. */
    method PeekTwoBlocks() returns (first: Option<Block>, second: Option<Block>)
      requires Valid()
      ensures first == BlockAt(Snap(), height) && second == BlockAt(Snap(), height + 1)
      ensures first.Some? ==> first.value.height == height
      ensures second.Some? ==> second.value.height == height + 1
    {
      first, second := None, None;
      if height in requesters {
        first := requesters[height].block;
      }
      if height + 1 in requesters {
        second := requesters[height + 1].block;
      }
    }

    /** PopRequest: it panics when there is no requester at the pool's height; none of those it notifies is missing. */
    method PopRequest() returns (ok: bool)
      requires Valid()
      modifies this`requesters, this`height, this`notified
      ensures Valid() && ok == old(CanPop(Snap())) && Snap() == if ok then Pop(old(Snap())) else old(Snap())
      ensures |notified| <= MIN_BLOCKS_FOR_SINGLE_REQUEST
      ensures forall i :: 0 <= i < |notified| ==> notified[i] == height + i && notified[i] in requesters
    {
      notified := [];
      if height !in requesters { return false; }
      PopKeeps(Snap());
      ok := true;
      requesters := requesters - {height};
      height := height + 1;
      var i := 0;
      while i < MIN_BLOCKS_FOR_SINGLE_REQUEST && i < |requesters|
        invariant Valid() && Snap() == Pop(old(Snap()))
        invariant 0 <= i <= MIN_BLOCKS_FOR_SINGLE_REQUEST && |notified| == i
        invariant forall k :: 0 <= k < i ==> notified[k] == height + k && notified[k] in requesters
      {
        assert height + i in requesters;
        notified := notified + [height + i];
        i := i + 1;
      }
    }

    /**
     * AddBlock, for a block that comes with the height of its extended commit, if it has one. The block
     * is kept if it was asked from that peer. Unless it may be a block that was processed already, a
     * peer whose block is not wanted is reported.
     */
    method AddBlock(from: PeerId, b: Block, extended: Option<int>) returns (ok: bool, reported: bool)
      requires Valid()
      modifies this`requesters
      ensures Valid() && Snap() == if extended !in {None, Some(b.height)} then old(Snap()) else Received(old(Snap()), from, b)
      ensures ok <==> extended in {None, Some(b.height)} && b.height in requesters && Asked(requesters[b.height], from)
      ensures ok ==> BlockAt(Snap(), b.height).Some? && BlockAt(Snap(), b.height).value.height == b.height
      ensures reported <==> !ok && !(extended in {None, Some(b.height)} && b.height !in requesters && startHeight <= b.height <= height)
    {
      if extended.Some? && b.height != extended.value { return false, true; }
      if b.height !in requesters {
        if b.height > height || b.height < startHeight { return false, true; }
        return false, false;
      }
      var r := requesters[b.height];
      ok := Asked(r, from);
      UpdateKeeps(Snap(), b.height, SetBlock(r, b, from));
      requesters := requesters[b.height := SetBlock(r, b, from)];
      reported := !ok;
    }

    method SetPeerRange(id: PeerId, base: int, h: int, banned: bool)
      requires Valid()
      modifies this`peers, this`sortedPeers, this`maxPeerHeight
      ensures Valid() && Snap() == Reported(old(Snap()), id, base, h, banned)
    {
      SetPeerRangeKeeps(Snap(), id, base, h, banned);
      if id in peers {
        peers := peers[id := Peer(base, h)];
      } else {
        if banned { return; }
        peers := peers[id := Peer(base, h)];
        sortedPeers := [id] + sortedPeers;
      }
      if h > maxPeerHeight {
        maxPeerHeight := h;
      }
    }

    /** removePeer: every requester that has asked the peer has a signal pending afterwards. */
    method RemovePeer(id: PeerId)
      requires Valid()
      modifies this`requesters, this`peers, this`sortedPeers, this`maxPeerHeight
      ensures Valid() && Snap() == Removed(old(Snap()), id)
      ensures id !in peers && forall h :: h in requesters && Asked(requesters[h], id) ==> requesters[h].redo.Some?
    {
      RemovePeerKeeps(Snap(), id);
      TellAllKeeps(Snap(), id);
      TellRequesters(id);
      if id in peers {
        var peer := peers[id];
        var ids := sortedPeers;
        peers := peers - {id};
        RemoveSorted(id);
        if peer.height == maxPeerHeight {
          UpdateMaxPeerHeight(ids);
        }
      }
    }

    /** The loop over the requesters; the order does not matter. */
    method TellRequesters(id: PeerId)
      requires Window(Snap())
      modifies this`requesters
      ensures requesters == TellAll(old(requesters), id)
    {
      var top := height + |requesters|;
      for h := height to top
        invariant requesters.Keys == old(requesters).Keys
        invariant forall k :: k in requesters ==>
                    requesters[k] == if k < h then Told(old(requesters)[k], id) else old(requesters)[k]
      {
        requesters := requesters[h := Told(requesters[h], id)];
      }
    }

    /** The loop that takes a peer out of the sorted list. */
    method RemoveSorted(id: PeerId)
      modifies this`sortedPeers
      ensures sortedPeers == Without(old(sortedPeers), id)
    {
      var i := 0;
      while i < |sortedPeers|
        invariant 0 <= i <= |sortedPeers| && sortedPeers == old(sortedPeers)
        invariant Without(sortedPeers, id) == sortedPeers[..i] + Without(sortedPeers[i..], id)
      {
        if sortedPeers[i] == id {
          sortedPeers := sortedPeers[..i] + sortedPeers[i + 1..];
          return;
        }
        assert sortedPeers[i..][1..] == sortedPeers[i + 1..];
        assert sortedPeers[..i] + [sortedPeers[i]] == sortedPeers[..i + 1];
        i := i + 1;
      }
      assert sortedPeers[..i] == sortedPeers;
    }

    /** updateMaxPeerHeight, looking at the peers in the order of some list of their names. */
    method UpdateMaxPeerHeight(ids: seq<PeerId>)
      modifies this`maxPeerHeight
      ensures maxPeerHeight == MaxHeight(peers, ids)
    {
      var max := 0;
      var i := |ids|;
      while i > 0
        invariant 0 <= i <= |ids| && max == MaxHeight(peers, ids[i..])
      {
        i := i - 1;
        assert ids[i..][1..] == ids[i + 1..];
        if ids[i] in peers && peers[ids[i]].height > max {
          max := peers[ids[i]].height;
        }
      }
      assert ids[0..] == ids;
      maxPeerHeight := max;
    }
  }
}
