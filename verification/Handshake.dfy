/**
 * Committing a block is five separate writes (consensus/state.go, finalizeCommit, and the block
 * executor it calls), and a crash may fall between any two of them. On restart the handshake
 * (consensus/replay.go) brings the block store, the state store and the application back in step.
 */
module Handshake {
  import opened Common

  /** A hash; zero is the empty hash. */
  type Hash = nat

  /** The chain's first height, the hash in the genesis document, and the application's hash after some blocks. */
  datatype Chain = Chain(initial: int, genesisHash: Hash, hash: seq<int> -> Hash)

  /**
   * Everything that survives a crash: the block store's range, the state store's height and app hash,
   * the heights of the blocks the application has committed, the last FinalizeBlock response, and the
   * heights whose end is marked in the consensus log.
   */
  datatype Disk = Disk(
    base: int, store: int,
    state: int, stateHash: Hash,
    app: seq<int>,
    response: Option<(int, Hash)>,
    markers: set<int>)

  datatype Effect =
    | SaveBlock(h: int)
    | WriteMarker(h: int)
    | SaveResponse(h: int, hash: Hash)
    | AppCommit(h: int)
    | SaveState(h: int, hash: Hash)

  function Apply(d: Disk, e: Effect): Disk {
    match e
    case SaveBlock(h) => d.(store := h, base := if d.store == 0 then h else d.base)
    case WriteMarker(h) => d.(markers := d.markers + {h})
    case SaveResponse(h, hash) => d.(response := Some((h, hash)))
    case AppCommit(h) => d.(app := d.app + [h])
    case SaveState(h, hash) => d.(state := h, stateHash := hash)
  }

  function ApplyAll(d: Disk, es: seq<Effect>): Disk
    decreases |es|
  {
    if es == [] then d else ApplyAll(Apply(d, es[0]), es[1..])
  }

  /** The application's last block height; zero before its first block. */
  function AppHeight(d: Disk): int {
    if d.app == [] then 0 else d.app[|d.app| - 1]
  }

  function NextHeight(c: Chain, h: int): int {
    if h == 0 then c.initial else h + 1
  }

  /** The blocks from the first height to h. */
  function Blocks(c: Chain, h: int): seq<int> {
    if h < c.initial then [] else seq(h - c.initial + 1, i => c.initial + i)
  }

  function HashAt(c: Chain, h: int): Hash {
    c.hash(Blocks(c, h))
  }

  /** The app hash in the header of block h: the one before the block, which the genesis document may provide. */
  function HeaderHash(c: Chain, h: int): Hash {
    if h > c.initial then HashAt(c, h - 1) else if c.hash([]) > 0 then c.hash([]) else c.genesisHash
  }

  /** The hash that the application reports, or that InitChain gives if it has no block yet. */
  function AppHash(c: Chain, d: Disk): Hash {
    if AppHeight(d) == 0 then c.hash([]) else c.hash(d.app)
  }

  // ----- committing a block -----

  /** ApplyBlock: the response is saved before the application commits, the state after. */
  function ApplyBlock(c: Chain, h: int): seq<Effect> {
    [SaveResponse(h, HashAt(c, h)), AppCommit(h), SaveState(h, HashAt(c, h))]
  }

  /** finalizeCommit for the next height. */
  function FinalizeCommit(c: Chain, d: Disk): seq<Effect> {
    var h := NextHeight(c, d.state);
    (if d.store < h then [SaveBlock(h)] else []) + [WriteMarker(h)] + ApplyBlock(c, h)
  }

  // ----- the handshake -----

  datatype Outcome =
    | Completed | AppHeightTooLow | AppHeightTooHigh | NoResponse
    | StateAheadOfStore | StoreAheadOfState | UncoveredCase | AppHashMismatch | InvalidBlock

  predicate Panics(o: Outcome) {
    o in {StateAheadOfStore, StoreAheadOfState, UncoveredCase, AppHashMismatch}
  }

  /** What the handshake will do and how it will end. */
  datatype Plan = Plan(effects: seq<Effect>, outcome: Outcome)

  /** ExecCommitBlock for each of the blocks from i to final. */
  function ExecBlocks(i: int, final: int): seq<Effect>
    decreases final - i
  {
    if i > final then [] else [AppCommit(i)] + ExecBlocks(i + 1, final)
  }

  /** The blocks executed, what the application has committed then, whether all hashes fit, and the last hash. */
  datatype Executed = Executed(effects: seq<Effect>, app: seq<int>, ok: bool, hash: Hash)

  /** Like ExecBlocks, with the hash that the application returned last compared with the next header. */
  function ExecChecked(c: Chain, app: seq<int>, i: int, final: int, hash: Hash): Executed
    decreases final - i
  {
    if i > final then Executed([], app, true, hash)
    else if hash > 0 && hash != HeaderHash(c, i) then Executed([], app, false, hash)
    else
      var rest := ExecChecked(c, app + [i], i + 1, final, c.hash(app + [i]));
      rest.(effects := [AppCommit(i)] + rest.effects)
  }

  /** The state's app hash after InitChain: an empty hash from the application leaves the one of the genesis document. */
  function InitHash(c: Chain, d: Disk): Hash {
    if c.hash([]) > 0 then c.hash([]) else d.stateHash
  }

  function InitChain(c: Chain, d: Disk): seq<Effect> {
    if AppHeight(d) == 0 && d.state == 0 then [SaveState(0, InitHash(c, d))] else []
  }

  function Check(ok: bool): Outcome { if ok then Completed else AppHashMismatch }

  /** ReplayBlocks: the case split over the three heights. */
  function MakePlan(c: Chain, d: Disk): Plan {
    var app := AppHeight(d);
    var init := InitChain(c, d);
    var stateHash := if app == 0 && d.state == 0 then InitHash(c, d) else d.stateHash;
    if d.store == 0 then Plan(init, Check(AppHash(c, d) == stateHash))
    else if (app == 0 && c.initial < d.base) || (app > 0 && app < d.base - 1) then Plan(init, AppHeightTooLow)
    else if d.store < app then Plan(init, AppHeightTooHigh)
    else if d.store < d.state then Plan(init, StateAheadOfStore)
    else if d.store > d.state + 1 then Plan(init, StoreAheadOfState)
    else
      var rest := Missing(c, d.(stateHash := stateHash));
      Plan(init + rest.effects, rest.outcome)
  }

  /** What is missing when the store is level with the state or one block ahead of it. */
  function Missing(c: Chain, d: Disk): Plan {
    var app := AppHeight(d);
    var first := NextHeight(c, app);
    if d.store == d.state then
      if app < d.store then
        var x := ExecChecked(c, d.app, first, d.store, 0);
        Plan(x.effects, Check(x.ok && x.hash == d.stateHash))
      else if app == d.store then Plan([], Check(AppHash(c, d) == d.stateHash))
      else Plan([], UncoveredCase)
    else if app < d.state then
      var x := ExecChecked(c, d.app, first, d.store - 1, 0);
      if !x.ok then Plan(x.effects, AppHashMismatch)
      else
        var last := ReplayStored(c, d, x.app);
        Plan(x.effects + last.effects, last.outcome)
    else if app == d.state then ReplayStored(c, d, d.app)
    else if app == d.store then
      if d.response.Some? && d.response.value.0 == d.store then ReplayRecorded(c, d) else Plan([], NoResponse)
    else Plan([], UncoveredCase)
  }

  /** replayBlock of the last stored block, by an application that has committed `app`. */
  function ReplayStored(c: Chain, d: Disk, app: seq<int>): Plan {
    if d.stateHash != HeaderHash(c, d.store) then Plan([], InvalidBlock)
    else
      var hash := c.hash(app + [d.store]);
      Plan([SaveResponse(d.store, hash), AppCommit(d.store), SaveState(d.store, hash)], Completed)
  }

  /** replayBlock against the recorded response: the application is not called. An empty recorded hash is replaced. */
  function ReplayRecorded(c: Chain, d: Disk): Plan
    requires d.response.Some?
  {
    var hash := if d.response.value.1 == 0 then AppHash(c, d) else d.response.value.1;
    if d.stateHash != HeaderHash(c, d.store) then Plan([], InvalidBlock)
    else Plan([SaveResponse(d.store, hash), SaveState(d.store, hash)], Completed)
  }

  // ----- what every write keeps -----

  ghost predicate DiskOk(c: Chain, d: Disk) {
    && c.initial >= 1
    && d.app == Blocks(c, AppHeight(d))
    && (d.state == 0 || d.state >= c.initial) && (d.store == 0 || d.store >= c.initial)
    && (d.store == d.state || d.store == NextHeight(c, d.state))
    && AppHeight(d) <= d.store
    && (d.store > 0 ==> c.initial <= d.base <= d.store)
    && (d.state > 0 ==> d.stateHash == HashAt(c, d.state))
    && (d.state == 0 ==> d.stateHash == c.genesisHash || (c.hash([]) > 0 && d.stateHash == c.hash([])))
    && (d.state == 0 && d.store > 0 ==> d.stateHash == HeaderHash(c, c.initial))
    && (d.store > d.state && AppHeight(d) == d.store ==> d.response == Some((d.store, HashAt(c, d.store))))
    && (forall h :: h in d.markers ==> h == 0 || c.initial <= h <= d.store)
  }

  /** When a write may be made. */
  predicate Enabled(c: Chain, d: Disk, e: Effect) {
    match e
    case SaveBlock(h) =>
      && d.store == d.state && h == NextHeight(c, d.store)
      && (d.state == 0 ==> d.stateHash == HeaderHash(c, c.initial))
    case WriteMarker(h) => h == d.store > 0
    case SaveResponse(h, hash) => h == d.store > d.state && hash == HashAt(c, h)
    case AppCommit(h) =>
      && h == NextHeight(c, AppHeight(d)) <= d.store
      && (h <= d.state || d.response == Some((h, HashAt(c, h))))
    case SaveState(h, hash) =>
      if h == 0 then d.state == 0 && AppHeight(d) == 0 && hash == InitHash(c, d)
      else h == d.store == AppHeight(d) == NextHeight(c, d.state) && hash == HashAt(c, h)
  }

  lemma BlocksNext(c: Chain, h: int)
    requires c.initial >= 1 && (h == 0 || h >= c.initial)
    ensures Blocks(c, NextHeight(c, h)) == Blocks(c, h) + [NextHeight(c, h)]
  {
  }

  lemma ApplyKeeps(c: Chain, d: Disk, e: Effect)
    requires DiskOk(c, d) && Enabled(c, d, e)
    ensures DiskOk(c, Apply(d, e))
  {
    if e.AppCommit? {
      BlocksNext(c, AppHeight(d));
    }
  }

  ghost predicate AllEnabled(c: Chain, d: Disk, es: seq<Effect>)
    decreases |es|
  {
    es == [] || (Enabled(c, d, es[0]) && AllEnabled(c, Apply(d, es[0]), es[1..]))
  }

  lemma {:induction false} AllEnabledConcat(c: Chain, d: Disk, es: seq<Effect>, fs: seq<Effect>)
    requires AllEnabled(c, d, es) && AllEnabled(c, ApplyAll(d, es), fs)
    ensures AllEnabled(c, d, es + fs) && ApplyAll(d, es + fs) == ApplyAll(ApplyAll(d, es), fs)
    decreases |es|
  {
    ApplyAllConcat(d, es, fs);
    if es == [] {
      assert es + fs == fs;
    } else {
      AllEnabledConcat(c, Apply(d, es[0]), es[1..], fs);
      assert (es + fs)[1..] == es[1..] + fs;
    }
  }

  lemma {:induction false} ApplyAllConcat(d: Disk, es: seq<Effect>, fs: seq<Effect>)
    ensures ApplyAll(d, es + fs) == ApplyAll(ApplyAll(d, es), fs)
    decreases |es|
  {
    if es == [] {
      assert es + fs == fs;
    } else {
      ApplyAllConcat(Apply(d, es[0]), es[1..], fs);
      assert (es + fs)[1..] == es[1..] + fs;
    }
  }

  lemma {:induction false} ApplyAllKeeps(c: Chain, d: Disk, es: seq<Effect>)
    requires DiskOk(c, d) && AllEnabled(c, d, es)
    ensures DiskOk(c, ApplyAll(d, es))
    decreases |es|
  {
    if es != [] {
      ApplyKeeps(c, d, es[0]);
      ApplyAllKeeps(c, Apply(d, es[0]), es[1..]);
    }
  }

  /** Block store, state store and application are at the same height, and before the first block InitChain is done. */
  predicate Synced(c: Chain, d: Disk) {
    d.store == d.state == AppHeight(d) && (d.state == 0 ==> d.stateHash == HeaderHash(c, c.initial))
  }

  /** Applying the stored block that neither the state nor the application has. */
  lemma ApplyBlockEnabled(c: Chain, d: Disk)
    requires DiskOk(c, d) && d.store > d.state == AppHeight(d)
    ensures AllEnabled(c, d, ApplyBlock(c, d.store)) && Synced(c, ApplyAll(d, ApplyBlock(c, d.store)))
  {
    var es := ApplyBlock(c, d.store);
    var d1 := Apply(d, es[0]);
    var d2 := Apply(d1, es[1]);
    Triple(c, d, es[0], es[1], es[2]);
    assert AppHeight(d2) == d.store;
  }

  /** Unrolling a short sequence of writes. */
  lemma Triple(c: Chain, d: Disk, e0: Effect, e1: Effect, e2: Effect)
    ensures ApplyAll(d, [e0, e1, e2]) == Apply(Apply(Apply(d, e0), e1), e2)
    ensures Enabled(c, d, e0) && Enabled(c, Apply(d, e0), e1) && Enabled(c, Apply(Apply(d, e0), e1), e2)
            ==> AllEnabled(c, d, [e0, e1, e2])
  {
    hide Apply, Enabled;
    var es := [e0, e1, e2];
    assert es[1..] == [e1, e2] && [e1, e2][1..] == [e2] && [e2][1..] == [];
    var d1 := Apply(d, e0);
    var d2 := Apply(d1, e1);
    assert ApplyAll(d1, [e1, e2]) == ApplyAll(d2, [e2]);
    if Enabled(c, d2, e2) {
      assert AllEnabled(c, d2, [e2]);
      if Enabled(c, d1, e1) {
        assert AllEnabled(c, d1, [e1, e2]);
      }
    }
  }

  lemma ApplyNothing(d: Disk)
    ensures ApplyAll(d, []) == d
  {
  }

  lemma Pair(d: Disk, e0: Effect, e1: Effect)
    ensures ApplyAll(d, [e0, e1]) == Apply(Apply(d, e0), e1)
  {
    hide Apply;
    assert [e0, e1][1..] == [e1] && [e1][1..] == [];
    assert ApplyAll(Apply(d, e0), [e1]) == Apply(Apply(d, e0), e1);
  }

  /** Replaying stored blocks into an application that is behind. */
  lemma {:induction false} ExecBlocksEnabled(c: Chain, d: Disk, final: int)
    requires DiskOk(c, d) && AppHeight(d) <= final <= d.state && (final == 0 || final >= c.initial)
    ensures var es := ExecBlocks(NextHeight(c, AppHeight(d)), final);
            && AllEnabled(c, d, es)
            && AppHeight(ApplyAll(d, es)) == final
            && ApplyAll(d, es) == d.(app := ApplyAll(d, es).app)
    decreases final - AppHeight(d)
  {
    var first := NextHeight(c, AppHeight(d));
    if first <= final {
      var d1 := Apply(d, AppCommit(first));
      ApplyKeeps(c, d, AppCommit(first));
      ExecBlocksEnabled(c, d1, final);
      hide DiskOk;
      var es := ExecBlocks(first, final);
      assert es[0] == AppCommit(first) && es[1..] == ExecBlocks(first + 1, final);
    }
  }

  /** Executing the blocks from i on, with d on disk, leads to the result x and the disk `all`. */
  ghost predicate LeadsTo(c: Chain, d: Disk, i: int, final: int, hash: Hash, x: Executed, all: Disk) {
    var rest := ExecChecked(c, d.app, i, final, hash);
    rest == x.(effects := rest.effects) && ApplyAll(d, rest.effects) == all
  }

  /** Where the execution of blocks ends. */
  lemma ExecEnds(c: Chain, d: Disk, i: int, final: int, hash: Hash, x: Executed, all: Disk)
    requires LeadsTo(c, d, i, final, hash, x, all) && (i > final || (hash > 0 && hash != HeaderHash(c, i)))
    ensures x.app == d.app && x.ok == (i > final) && x.hash == hash && all == d
  {
  }

  /** One more block into the application. */
  lemma ExecNext(c: Chain, d: Disk, i: int, final: int, hash: Hash, x: Executed, all: Disk)
    requires LeadsTo(c, d, i, final, hash, x, all) && i <= final && (hash == 0 || hash == HeaderHash(c, i))
    ensures var d' := Apply(d, AppCommit(i));
            d' == d.(app := d'.app) && LeadsTo(c, d', i + 1, final, c.hash(d'.app), x, all)
  {
    var d' := Apply(d, AppCommit(i));
    var y, y' := ExecChecked(c, d.app, i, final, hash), ExecChecked(c, d'.app, i + 1, final, c.hash(d'.app));
    assert y.effects == [AppCommit(i)] + y'.effects && y.effects[1..] == y'.effects;
  }

  /** InitChain's write is harmless. */
  lemma InitChainEnabled(c: Chain, d: Disk)
    requires DiskOk(c, d)
    ensures AllEnabled(c, d, InitChain(c, d)) && DiskOk(c, ApplyAll(d, InitChain(c, d)))
    ensures var d' := ApplyAll(d, InitChain(c, d));
            d' == d.(stateHash := if AppHeight(d) == 0 && d.state == 0 then InitHash(c, d) else d.stateHash)
  {
    if AppHeight(d) == 0 && d.state == 0 {
      var e := SaveState(0, InitHash(c, d));
      assert [e][1..] == [];
      ApplyKeeps(c, d, e);
      assert ApplyAll(d, [e]) == Apply(d, e);
    }
  }

  /** On a disk that crashes can leave behind all hashes fit. */
  lemma {:induction false} HashesFit(c: Chain, app: seq<int>, i: int, final: int, hash: Hash)
    requires c.initial <= i <= final + 1 && app == Blocks(c, i - 1) && (hash == 0 || (i > c.initial && hash == HashAt(c, i - 1)))
    ensures var x := ExecChecked(c, app, i, final, hash);
            && x.effects == ExecBlocks(i, final) && x.ok && x.app == Blocks(c, final)
            && x.hash == if i > final then hash else HashAt(c, final)
    decreases final - i
  {
    if i <= final {
      assert app + [i] == Blocks(c, i);
      HashesFit(c, app + [i], i + 1, final, c.hash(app + [i]));
    }
  }

  /** The application can execute the blocks from first to final next. */
  ghost predicate Fits(c: Chain, d: Disk, first: int, final: int) {
    DiskOk(c, d) && first == NextHeight(c, AppHeight(d)) <= final <= d.state
  }

  /** What the handshake does on such a disk. */
  lemma MissingFits(c: Chain, d: Disk)
    requires DiskOk(c, d) && 0 < d.store <= d.state + 1
    ensures var p, first := Missing(c, d), NextHeight(c, AppHeight(d));
            if d.store == d.state then p == Plan(ExecBlocks(first, d.store), Completed)
            else if AppHeight(d) <= d.state then
              p == Plan(ExecBlocks(first, d.state) + ApplyBlock(c, d.store), Completed)
            else d.response == Some((d.store, HashAt(c, d.store))) && p == Plan(Recorded(c, d), Completed)
  {
    var app := AppHeight(d);
    var first := NextHeight(c, app);
    assert d.app == Blocks(c, first - 1);
    if app < d.state {
      HashesFit(c, d.app, first, d.state, 0);
    }
    assert d.stateHash == if d.state == 0 then HeaderHash(c, c.initial) else HashAt(c, d.state);
    if d.store > d.state {
      assert d.stateHash == HeaderHash(c, d.store);
      assert Blocks(c, d.state) + [d.store] == Blocks(c, d.store);
      if app == d.state { assert ExecBlocks(first, d.state) + ApplyBlock(c, d.store) == ApplyBlock(c, d.store); }
    }
    hide ExecChecked, HeaderHash;
  }

  /** The two writes of replayBlock against the recorded response. */
  function Recorded(c: Chain, d: Disk): seq<Effect>
    requires d.response.Some?
  {
    var hash := if d.response.value.1 == 0 then AppHash(c, d) else d.response.value.1;
    [SaveResponse(d.store, hash), SaveState(d.store, hash)]
  }

  /** The writes of the branch that the handshake takes, after InitChain. */
  lemma MissingEnabled(c: Chain, d: Disk)
    requires DiskOk(c, d) && 0 < d.store <= d.state + 1
    ensures var p := Missing(c, d);
            AllEnabled(c, d, p.effects) && p.outcome == Completed && Synced(c, ApplyAll(d, p.effects))
  {
    MissingFits(c, d);
    hide Missing;
    if d.store == d.state {
      ExecBlocksEnabled(c, d, d.store);
    } else if AppHeight(d) <= d.state {
      ExecBlocksEnabled(c, d, d.state);
      var es := ExecBlocks(NextHeight(c, AppHeight(d)), d.state);
      var d1 := ApplyAll(d, es);
      ApplyAllKeeps(c, d, es);
      ApplyBlockEnabled(c, d1);
      AllEnabledConcat(c, d, es, ApplyBlock(c, d.store));
    } else {
      MockEnabled(c, d);
    }
  }

  lemma MockEnabled(c: Chain, d: Disk)
    requires DiskOk(c, d) && d.store > d.state && AppHeight(d) == d.store
    ensures d.response == Some((d.store, HashAt(c, d.store)))
    ensures AllEnabled(c, d, Recorded(c, d)) && Synced(c, ApplyAll(d, Recorded(c, d)))
  {
    var es := Recorded(c, d);
    var d1 := Apply(d, es[0]);
    assert es[1..] == [es[1]] && [es[1]][1..] == [];
    assert Enabled(c, d, es[0]) && Enabled(c, d1, es[1]);
    assert AllEnabled(c, d1, [es[1]]);
    assert ApplyAll(d, es) == ApplyAll(d1, [es[1]]) == Apply(d1, es[1]);
  }

  /** Completed handshakes leave everything in step, and unfinished ones nothing out of order. */
  lemma PlanEnabled(c: Chain, d: Disk)
    requires DiskOk(c, d)
    ensures var p := MakePlan(c, d);
            && AllEnabled(c, d, p.effects)
            && (p.outcome == Completed ==> Synced(c, ApplyAll(d, p.effects)))
  {
    InitChainEnabled(c, d);
    var init := InitChain(c, d);
    var p, d' := MakePlan(c, d), ApplyAll(d, init);
    if 0 < d.store <= d.state + 1 {
      MissingEnabled(c, d');
      var rest := Missing(c, d').effects;
      AllEnabledConcat(c, d, init, rest);
      hide Missing, AllEnabled, ApplyAll, DiskOk;
      assert init + [] == init;
    }
  }

  /**
   * The handshake on any disk that crashes can leave behind: every write it makes is in order, if it
   * completes then store, state and application are at the same height, and of all the ways not to
   * complete only three are possible, each exactly when stated.
   */
  lemma HandshakeExactly(c: Chain, d: Disk)
    requires DiskOk(c, d)
    ensures var p := MakePlan(c, d);
            && AllEnabled(c, d, p.effects)
            && (p.outcome == Completed ==> Synced(c, ApplyAll(d, p.effects)))
            && p.outcome in {Completed, AppHeightTooLow, StoreAheadOfState, AppHashMismatch}
            && (p.outcome == StoreAheadOfState <==> d.state == 0 && d.store == c.initial > 1)
            && (p.outcome == AppHashMismatch <==> d.store == 0 && c.hash([]) == 0 && c.genesisHash != 0)
            && (p.outcome == AppHeightTooLow <==>
                  d.store > 0 && if AppHeight(d) == 0 then c.initial < d.base else AppHeight(d) < d.base - 1)
  {
    PlanEnabled(c, d);
    InitChainEnabled(c, d);
    if 0 < d.store <= d.state + 1 {
      MissingEnabled(c, ApplyAll(d, InitChain(c, d)));
    }
    hide AllEnabled, ApplyAll, Missing, Synced;
  }

  lemma InitChainWrites(c: Chain, d: Disk)
    ensures ApplyAll(d, InitChain(c, d))
         == d.(stateHash := if AppHeight(d) == 0 && d.state == 0 then InitHash(c, d) else d.stateHash)
  {
    var e := SaveState(0, InitHash(c, d));
    assert [e][1..] == [] && ApplyAll(d, [e]) == Apply(d, e);
  }

  /** Past its guards the handshake does InitChain's write and then what is missing. */
  lemma MissingIsPlanned(c: Chain, d: Disk)
    requires d.store != 0 && d.state <= d.store <= d.state + 1 && AppHeight(d) <= d.store
    requires !(AppHeight(d) == 0 && c.initial < d.base) && !(AppHeight(d) > 0 && AppHeight(d) < d.base - 1)
    ensures var d' := ApplyAll(d, InitChain(c, d));
            && MakePlan(c, d).outcome == Missing(c, d').outcome
            && ApplyAll(d, MakePlan(c, d).effects) == ApplyAll(d', Missing(c, d').effects)
  {
    InitChainWrites(c, d);
    ApplyAllConcat(d, InitChain(c, d), Missing(c, ApplyAll(d, InitChain(c, d))).effects);
    hide Missing, ApplyAll;
  }

  // ----- runs, with a crash between any two writes -----

  datatype Mode = Down | Replaying(outcome: Outcome) | Up

  /** The disk, what the process is doing, the writes still ahead of it, and the markers that crashes prevented. */
  datatype Node = Node(d: Disk, mode: Mode, pending: seq<Effect>, skipped: set<int>)

  /**
   * Start runs the handshake, Write makes the next write, Ready and Finalize move on once there is
   * none left. Prune drops old blocks. A crash may also take the application back to any earlier block.
   */
  datatype Action = Start | Write | Ready | Finalize | Prune(base: int) | Crash(kept: nat)

  /** The marker that is to be written next, of a block that is stored already. */
  function Due(pending: seq<Effect>): set<int> {
    if pending != [] && pending[0].WriteMarker? then {pending[0].h} else {}
  }

  ghost predicate Next(c: Chain, n: Node, n': Node, a: Action) {
    match a
    case Start => n.mode == Down && n' == n.(mode := Replaying(MakePlan(c, n.d).outcome), pending := MakePlan(c, n.d).effects)
    case Write => n.pending != [] && n' == n.(d := Apply(n.d, n.pending[0]), pending := n.pending[1..])
    case Ready => n.mode == Replaying(Completed) && n.pending == [] && n' == n.(mode := Up)
    case Finalize => n.mode == Up && n.pending == [] && n' == n.(pending := FinalizeCommit(c, n.d))
    case Prune(base) => n.mode == Up && n.pending == [] && n.d.base < base <= n.d.store && n' == n.(d := n.d.(base := base))
    case Crash(kept) =>
      && kept <= |n.d.app|
      && n' == Node(n.d.(app := n.d.app[..kept]), Down, [], n.skipped + Due(n.pending))
  }

  ghost predicate Init(c: Chain, n: Node) {
    && c.initial >= 1
    && n == Node(Disk(0, 0, 0, c.genesisHash, [], None, {0}), Down, [], {})
  }

  ghost predicate IsRun(c: Chain, run: seq<Node>, actions: seq<Action>) {
    && |run| == |actions| + 1
    && Init(c, run[0])
    && forall i :: 0 <= i < |actions| ==> Next(c, run[i], run[i + 1], actions[i])
  }

  ghost predicate Inv(c: Chain, n: Node) {
    && DiskOk(c, n.d) && AllEnabled(c, n.d, n.pending)
    && (n.mode == Up || n.mode == Replaying(Completed) ==> Synced(c, ApplyAll(n.d, n.pending)))
    && (n.mode == Down ==> n.pending == [])
  }

  /** finalizeCommit starts and ends with everything in step. */
  lemma FinalizeEnabled(c: Chain, d: Disk)
    requires DiskOk(c, d) && Synced(c, d)
    ensures AllEnabled(c, d, FinalizeCommit(c, d)) && Synced(c, ApplyAll(d, FinalizeCommit(c, d)))
  {
    var h := NextHeight(c, d.state);
    var d1 := Apply(d, SaveBlock(h));
    ApplyKeeps(c, d, SaveBlock(h));
    var d2 := Apply(d1, WriteMarker(h));
    ApplyKeeps(c, d1, WriteMarker(h));
    ApplyBlockEnabled(c, d2);
    var es := FinalizeCommit(c, d);
    assert es[1..] == [WriteMarker(h)] + ApplyBlock(c, h) && es[1..][1..] == ApplyBlock(c, h);
    hide DiskOk, ApplyBlock;
    assert AllEnabled(c, d1, es[1..]);
    assert ApplyAll(d1, es[1..]) == ApplyAll(d2, ApplyBlock(c, h));
  }

  lemma RolledBack(c: Chain, d: Disk, kept: nat)
    requires DiskOk(c, d) && kept <= |d.app|
    ensures DiskOk(c, d.(app := d.app[..kept]))
  {
    var d' := d.(app := d.app[..kept]);
    if kept > 0 {
      assert AppHeight(d') == c.initial + kept - 1;
    }
    assert d'.app == Blocks(c, AppHeight(d'));
  }

  lemma NextKeeps(c: Chain, n: Node, n': Node, a: Action)
    requires Inv(c, n) && Next(c, n, n', a)
    ensures Inv(c, n')
  {
    match a {
      case Start => HandshakeExactly(c, n.d); hide MakePlan;
      case Write => ApplyKeeps(c, n.d, n.pending[0]); hide DiskOk, Apply, Enabled;
      case Ready =>
      case Finalize => FinalizeEnabled(c, n.d); hide FinalizeCommit;
      case Prune(base) =>
      case Crash(kept) => RolledBack(c, n.d, kept); hide DiskOk;
    }
  }

  lemma {:induction false} RunKeeps(c: Chain, run: seq<Node>, actions: seq<Action>, i: nat)
    requires IsRun(c, run, actions) && i < |run|
    ensures Inv(c, run[i])
  {
    hide Next;
    if i > 0 {
      RunKeeps(c, run, actions, i - 1);
      NextKeeps(c, run[i - 1], run[i], actions[i - 1]);
    }
  }

  /**
   * Exactly-once execution: at every moment of every run the application has committed the blocks
   * from the first height on, each once and in order, and a node that is up and not in the middle
   * of a commit has store, state and application at the same height.
   */
  lemma ExactlyOnce(c: Chain, run: seq<Node>, actions: seq<Action>, i: nat)
    requires IsRun(c, run, actions) && i < |run|
    ensures var d := run[i].d;
            && d.app == Blocks(c, AppHeight(d))
            && (run[i].mode == Up && run[i].pending == [] ==>
                  Synced(c, d) && d.app == Blocks(c, d.store) && (d.state > 0 ==> d.stateHash == c.hash(d.app)))
  {
    RunKeeps(c, run, actions, i);
  }

  /**
   * However often a node crashes, its handshake panics in two cases only: the first block of a chain
   * that starts above height one was stored but not applied, or the application returned no hash and
   * the genesis document has one.
   */
  lemma HandshakeNeverPanicsOtherwise(c: Chain, run: seq<Node>, actions: seq<Action>, i: nat)
    requires IsRun(c, run, actions) && i < |run| && run[i].mode == Down
    ensures var d := run[i].d;
            Panics(MakePlan(c, d).outcome) <==>
              || (c.initial > 1 && d.store == c.initial && d.state == 0)
              || (d.store == 0 && c.hash([]) == 0 && c.genesisHash != 0)
    ensures MakePlan(c, run[i].d).outcome != NoResponse && MakePlan(c, run[i].d).outcome != AppHeightTooHigh
  {
    RunKeeps(c, run, actions, i);
    HandshakeExactly(c, run[i].d);
    hide MakePlan, IsRun;
  }

  /** A chain that starts at height five, a crash right after its first block is stored, and the restart that panics. */
  lemma FirstBlockPanics()
    ensures exists c, run: seq<Node>, actions :: IsRun(c, run, actions) && Panics(MakePlan(c, run[|run| - 1].d).outcome)
                                      && run[|run| - 1].mode == Down
  {
    var c := Chain(5, 0, (s: seq<int>) => 0);
    var d0 := Disk(0, 0, 0, 0, [], None, {0});
    var d1 := d0.(base := 5, store := 5);
    var es := FinalizeCommit(c, d0);
    var n := Node(d0, Down, [], {});
    assert MakePlan(c, d0) == Plan([SaveState(0, 0)], Completed);
    var run := [n, n.(mode := Replaying(Completed), pending := [SaveState(0, 0)]), n.(mode := Replaying(Completed)),
                n.(mode := Up), n.(mode := Up, pending := es), n.(mode := Up, d := d1, pending := es[1..]),
                Node(d1, Down, [], {5})];
    var actions := [Start, Write, Ready, Finalize, Write, Crash(0)];
    assert es[0] == SaveBlock(5) && es[1] == WriteMarker(5) && Due(es[1..]) == {5} && Due([]) == {};
    assert MakePlan(c, d1).outcome == StoreAheadOfState && FinalizeCommit(c, d0) == es;
    assert Apply(d0, SaveBlock(5)) == d1 && Apply(d0, SaveState(0, 0)) == d0 && d1.app[..0] == [];
    hide MakePlan, FinalizeCommit, Due, Apply;
    assert [SaveState(0, 0)][1..] == [];
    forall i | 0 <= i < |actions| ensures Next(c, run[i], run[i + 1], actions[i]) {
    }
    hide Next;
    assert IsRun(c, run, actions);
  }

  // ----- end-of-height markers -----

  /** Markers are written for stored blocks, right after storing them, unless a crash falls in between. */
  ghost predicate MarkersOk(c: Chain, n: Node) {
    && 0 in n.d.markers
    && (forall h :: h in n.skipped ==> c.initial <= h <= n.d.store)
    && (forall h :: c.initial <= h <= n.d.store && h !in Due(n.pending) ==> (h in n.d.markers <==> h !in n.skipped))
    && (forall h :: h in Due(n.pending) ==> h !in n.d.markers && h !in n.skipped)
    && (forall i :: 0 <= i < |n.pending| && n.pending[i].SaveBlock? ==>
          i == 0 && |n.pending| > 1 && n.pending[1] == WriteMarker(n.pending[0].h))
    && (forall i :: 1 <= i < |n.pending| && n.pending[i].WriteMarker? ==>
          i == 1 && n.pending[0] == SaveBlock(n.pending[1].h))
  }

  ghost predicate OnlyCommits(es: seq<Effect>) {
    forall k :: 0 <= k < |es| ==> es[k].AppCommit?
  }

  lemma {:induction false} ExecCheckedOnlyCommits(c: Chain, app: seq<int>, i: int, final: int, hash: Hash)
    ensures OnlyCommits(ExecChecked(c, app, i, final, hash).effects)
    decreases final - i
  {
    if i <= final {
      ExecCheckedOnlyCommits(c, app + [i], i + 1, final, c.hash(app + [i]));
    }
  }

  lemma PlanWritesNoBlocks(c: Chain, d: Disk)
    ensures forall k :: 0 <= k < |MakePlan(c, d).effects| ==>
              !MakePlan(c, d).effects[k].SaveBlock? && !MakePlan(c, d).effects[k].WriteMarker?
  {
    ExecCheckedOnlyCommits(c, d.app, NextHeight(c, AppHeight(d)), d.store, 0);
    ExecCheckedOnlyCommits(c, d.app, NextHeight(c, AppHeight(d)), d.store - 1, 0);
  }

  lemma WriteKeepsMarkers(c: Chain, n: Node)
    requires Inv(c, n) && MarkersOk(c, n) && n.pending != []
    ensures MarkersOk(c, n.(d := Apply(n.d, n.pending[0]), pending := n.pending[1..]))
  {
    var e, rest := n.pending[0], n.pending[1..];
    assert Enabled(c, n.d, e);
    forall i | 0 <= i < |rest| && (rest[i].SaveBlock? || rest[i].WriteMarker?) ensures i == 0 && rest[i].WriteMarker? && e == SaveBlock(rest[0].h) {
      assert rest[i] == n.pending[i + 1];
    }
    hide AllEnabled, ApplyAll;
  }

  lemma NextKeepsMarkers(c: Chain, n: Node, n': Node, a: Action)
    requires Inv(c, n) && MarkersOk(c, n) && Next(c, n, n', a)
    ensures MarkersOk(c, n')
  {
    match a {
      case Start => PlanWritesNoBlocks(c, n.d); hide MakePlan;
      case Write => WriteKeepsMarkers(c, n); hide Apply;
      case Ready =>
      case Finalize =>
        hide HashAt;
        assert Synced(c, n.d);
      case Prune(base) =>
      case Crash(kept) =>
        assert n.pending != [] ==> Enabled(c, n.d, n.pending[0]);
    }
    hide AllEnabled, ApplyAll;
  }

  lemma {:induction false} RunKeepsMarkers(c: Chain, run: seq<Node>, actions: seq<Action>, i: nat)
    requires IsRun(c, run, actions) && i < |run|
    ensures MarkersOk(c, run[i])
  {
    hide Next;
    if i > 0 {
      RunKeepsMarkers(c, run, actions, i - 1);
      RunKeeps(c, run, actions, i - 1);
      NextKeepsMarkers(c, run[i - 1], run[i], actions[i - 1]);
    }
  }

  /**
   * Log/store order: in every run a marker of a positive height is for a stored block. So after a
   * completed handshake the log has no marker for the height consensus is about to work on, and it
   * has the marker for the height before unless a crash fell between storing that block and writing it.
   */
  lemma LogStoreOrder(c: Chain, run: seq<Node>, actions: seq<Action>, i: nat)
    requires IsRun(c, run, actions) && i < |run|
    ensures forall h :: h in run[i].d.markers && h > 0 ==> h <= run[i].d.store
    ensures run[i].mode == Up && run[i].pending == [] ==>
              var d := run[i].d;
              && NextHeight(c, d.state) !in d.markers
              && (d.state > 0 ==> (d.state in d.markers <==> d.state !in run[i].skipped))
              && (d.state == 0 ==> 0 in d.markers)
  {
    RunKeeps(c, run, actions, i);
    RunKeepsMarkers(c, run, actions, i);
    hide IsRun;
  }

  // ----- the handshake in place -----

  class Handshaker {
    const c: Chain
    var base: int
    var store: int
    var state: int
    var stateHash: Hash
    var app: seq<int>
    var response: Option<(int, Hash)>
    var markers: set<int>
    var nBlocks: nat

    function Snap(): Disk
      reads this
    {
      Disk(base, store, state, stateHash, app, response, markers)
    }

    constructor (c: Chain, d: Disk)
      ensures this.c == c && Snap() == d && nBlocks == 0
    {
      this.c := c;
      base, store, state, stateHash, app := d.base, d.store, d.state, d.stateHash, d.app;
      response, markers, nBlocks := d.response, d.markers, 0;
    }

    /** ExecCommitBlock: the application executes and commits the block; nothing is saved. */
    method ExecCommitBlock(h: int) returns (appHash: Hash)
      modifies this`app
      ensures Snap() == Apply(old(Snap()), AppCommit(h))
      ensures appHash == c.hash(app)
    {
      app := app + [h];
      appHash := c.hash(app);
    }

    /** replayBlock: ApplyBlock with the application, or with the recorded response in its place. */
    method ReplayBlock(h: int, hash: Hash, mock: bool)
      modifies this
      ensures mock ==> Snap() == ApplyAll(old(Snap()), [SaveResponse(h, hash), SaveState(h, hash)])
      ensures !mock ==> Snap() == ApplyAll(old(Snap()), [SaveResponse(h, hash), AppCommit(h), SaveState(h, hash)])
      ensures nBlocks == old(nBlocks) + 1
    {
      ghost var d := Snap();
      response := Some((h, hash));
      if !mock {
        app := app + [h];
      }
      state, stateHash := h, hash;
      nBlocks := nBlocks + 1;
      Triple(c, d, SaveResponse(h, hash), AppCommit(h), SaveState(h, hash));
      Pair(d, SaveResponse(h, hash), SaveState(h, hash));
    }

    /**
     * replayBlocks without its last part: the application executes the stored blocks from `first` to
     * `final`. Each hash it returns is compared with the one in the next block, and if crashes left the
     * disk behind then all of them fit.
     */
    method ReplayRange(first: int, final: int) returns (ok: bool, appHash: Hash)
      modifies this`app, this`nBlocks
      ensures var x := ExecChecked(c, old(app), first, final, 0);
              ok == x.ok && appHash == x.hash && app == x.app && Snap() == ApplyAll(old(Snap()), x.effects)
      ensures Snap() == old(Snap()).(app := app)
      ensures Fits(c, old(Snap()), first, final) ==> ok && app == Blocks(c, final) && appHash == HashAt(c, final)
    {
      appHash, ok := 0, true;
      ghost var x := ExecChecked(c, app, first, final, 0);
      ghost var all := ApplyAll(Snap(), x.effects);
      if Fits(c, Snap(), first, final) {
        HashesFit(c, app, first, final, 0);
      }
      var i := first;
      assert LeadsTo(c, Snap(), first, final, 0, x, all);
      hide Fits, HashAt, HeaderHash, Blocks, ExecChecked, ApplyAll, Apply, LeadsTo;
      while i <= final
        invariant ok && Snap() == old(Snap()).(app := app)
        invariant LeadsTo(c, Snap(), i, final, appHash, x, all)
      {
        if appHash > 0 && appHash != HeaderHash(c, i) {
          ExecEnds(c, Snap(), i, final, appHash, x, all);
          return false, appHash;
        }
        ExecNext(c, Snap(), i, final, appHash, x, all);
        appHash := ExecCommitBlock(i);
        nBlocks := nBlocks + 1;
        i := i + 1;
      }
      ExecEnds(c, Snap(), i, final, appHash, x, all);
    }

    /**
     * The whole handshake, on any disk: it does what `MakePlan` says. On a disk that crashes can leave
     * behind its writes are in order, and if it completes then store, state and application are in step.
     */
    method ReplayBlocks() returns (outcome: Outcome)
      modifies this
      ensures outcome == MakePlan(c, old(Snap())).outcome
      ensures Snap() == ApplyAll(old(Snap()), MakePlan(c, old(Snap())).effects)
      ensures old(DiskOk(c, Snap())) ==>
                && AllEnabled(c, old(Snap()), MakePlan(c, old(Snap())).effects)
                && DiskOk(c, Snap()) && (outcome == Completed ==> Synced(c, Snap()))
    {
      ghost var d0 := Snap();
      if DiskOk(c, d0) {
        HandshakeExactly(c, d0);
        ApplyAllKeeps(c, d0, MakePlan(c, d0).effects);
      }
      InitChainWrites(c, d0);
      hide DiskOk, Synced, AllEnabled, HeaderHash;
      var appHeight := AppHeight(Snap());
      var appHash := c.hash(app);
      if appHeight == 0 {
        appHash := c.hash([]);
        if state == 0 && appHash > 0 { stateHash := appHash; }
      }
      assert Snap() == ApplyAll(d0, InitChain(c, d0));
      if store == 0 { return if appHash == stateHash then Completed else AppHashMismatch; }
      if appHeight == 0 && c.initial < base { return AppHeightTooLow; }
      if appHeight > 0 && appHeight < base - 1 { return AppHeightTooLow; }
      if store < appHeight { return AppHeightTooHigh; }
      if store < state { return StateAheadOfStore; }
      if store > state + 1 { return StoreAheadOfState; }
      MissingIsPlanned(c, d0);
      hide MakePlan, ApplyAll;
      outcome := ReplayMissing(appHeight, appHash);
    }

    method ReplayMissing(appHeight: int, appHash: Hash) returns (outcome: Outcome)
      requires state <= store <= state + 1
      requires appHeight == AppHeight(Snap()) && appHash == AppHash(c, Snap())
      modifies this
      ensures outcome == Missing(c, old(Snap())).outcome
      ensures Snap() == ApplyAll(old(Snap()), Missing(c, old(Snap())).effects)
    {
      ghost var d := Snap();
      var first := NextHeight(c, appHeight);
      hide ApplyAll, ExecChecked, HeaderHash, DiskOk;
      assert ApplyAll(d, []) == d by { ApplyNothing(d); }
      if store == state {
        if appHeight < store {
          var ok, hash := ReplayRange(first, store);
          return if ok && hash == stateHash then Completed else AppHashMismatch;
        } else if appHeight == store {
          return if appHash == stateHash then Completed else AppHashMismatch;
        }
      } else {
        if appHeight < state {
          var ok, hash := ReplayRange(first, store - 1);
          if !ok { return AppHashMismatch; }
          ghost var x := ExecChecked(c, d.app, first, d.store - 1, 0);
          ApplyAllConcat(d, x.effects, ReplayStored(c, d, x.app).effects);
          if stateHash != HeaderHash(c, store) {
            assert x.effects + [] == x.effects;
            return InvalidBlock;
          }
          ReplayBlock(store, c.hash(app + [store]), false);
          return Completed;
        } else if appHeight == state {
          if stateHash != HeaderHash(c, store) { return InvalidBlock; }
          ReplayBlock(store, c.hash(app + [store]), false);
          return Completed;
        } else if appHeight == store {
          if response.None? || response.value.0 != store { return NoResponse; }
          var hash := if response.value.1 == 0 then appHash else response.value.1;
          if stateHash != HeaderHash(c, store) { return InvalidBlock; }
          ReplayBlock(store, hash, true);
          return Completed;
        }
      }
      return UncoveredCase;
    }
  }
}
