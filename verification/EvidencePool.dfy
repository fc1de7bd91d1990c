/**
 * The evidence pool (evidence/pool.go, evidence/verify.go): pending and committed evidence, the list
 * that is gossiped, and pruning.
 */
module EvidencePool {
  import opened EvidenceKeys

  /** A hash covers the height of the evidence, so it determines the database key. */
  datatype Hash = Hash(height: Height, digest: string)

  datatype Evidence = Evidence(hash: Hash, time: int, isLightClientAttack: bool, content: nat)

  /** Two conflicting votes that consensus has reported; some cannot be turned into evidence. */
  datatype VotePair = VotePair(height: Height, digest: string, content: nat, usable: bool)

  datatype State = State(height: int, time: int)

  /** Block times, the evidence parameters, and the checks against loaded state that are not modelled further. */
  datatype Env = Env(time: int -> int, maxAgeBlocks: int, maxAgeDuration: int, sound: (State, Evidence) -> bool)

  ghost predicate TimesIncrease(env: Env) {
    forall h1, h2 :: h1 < h2 ==> env.time(h1) < env.time(h2)
  }

  datatype Pool = Pool(
    state: State,
    pending: map<Hash, Evidence>, committed: set<Hash>, size: nat,
    list: seq<Evidence>,
    buffer: seq<VotePair>,
    pruningHeight: int, pruningTime: int)

  predicate Expired(env: Env, st: State, height: int, time: int) {
    st.height - height > env.maxAgeBlocks && st.time - time > env.maxAgeDuration
  }

  /** verify: the evidence carries the time of the block at its height, is recent, and is sound. */
  predicate Verified(env: Env, st: State, ev: Evidence) {
    && ev.time == env.time(ev.hash.height)
    && !Expired(env, st, ev.hash.height, ev.time)
    && env.sound(st, ev)
  }

  // ----- the operations -----

  function AddPending(p: Pool, ev: Evidence): Pool {
    p.(pending := p.pending[ev.hash := ev], size := p.size + 1)
  }

  function Add(env: Env, p: Pool, ev: Evidence): Pool {
    if ev.hash in p.pending || ev.hash in p.committed || !Verified(env, p.state, ev) then p
    else AddPending(p, ev).(list := p.list + [ev])
  }

  function CheckOne(env: Env, p: Pool, ev: Evidence): (Pool, bool) {
    if !ev.isLightClientAttack && ev.hash in p.pending then (p, true)
    else if ev.hash in p.committed || !Verified(env, p.state, ev) then (p, false)
    else (AddPending(p, ev), true)
  }

  predicate Repeats(evs: seq<Evidence>, i: nat)
    requires i < |evs|
  {
    exists j :: 0 <= j < i && evs[j].hash == evs[i].hash
  }

  /** CheckEvidence from position i on; evidence must not occur twice in a block. */
  function Check(env: Env, p: Pool, evs: seq<Evidence>, i: nat): (Pool, bool)
    requires i <= |evs|
    decreases |evs| - i
  {
    if i == |evs| then (p, true)
    else
      var (p, ok) := CheckOne(env, p, evs[i]);
      if !ok || Repeats(evs, i) then (p, false)
      else Check(env, p, evs, i + 1)
  }

  function Formed(env: Env, v: VotePair): Evidence {
    Evidence(Hash(v.height, v.digest), env.time(v.height), false, v.content)
  }

  /** processConsensusBuffer for the state of the block being applied. */
  function Flush(env: Env, p: Pool, st: State, buffer: seq<VotePair>): Pool
    decreases |buffer|
  {
    if buffer == [] then p.(buffer := [])
    else
      var v := buffer[0];
      var ev := Formed(env, v);
      if v.height > st.height || !v.usable || ev.hash in p.pending || ev.hash in p.committed
      then Flush(env, p, st, buffer[1..])
      else Flush(env, AddPending(p, ev).(list := p.list + [ev]), st, buffer[1..])
  }

  /** The list without the evidence of the given hashes. */
  function Keep(list: seq<Evidence>, drop: set<Hash>): seq<Evidence> {
    if list == [] then []
    else if list[0].hash in drop then Keep(list[1..], drop)
    else [list[0]] + Keep(list[1..], drop)
  }

  function Hashes(evs: seq<Evidence>): set<Hash> {
    set ev | ev in evs :: ev.hash
  }

  /** markEvidenceAsCommitted: out of the pending set and the list, and into the committed set. */
  function Mark(p: Pool, evs: seq<Evidence>): Pool {
    var gone := Hashes(evs) * p.pending.Keys;
    p.(pending := p.pending - Hashes(evs), committed := p.committed + Hashes(evs),
    size := if p.size < |gone| then 0 else p.size - |gone|,
    list := Keep(p.list, gone))
  }

  /** The order in which the database iterates over pending evidence: that of the keys. */
  ghost predicate IsIteration(order: seq<Hash>, pending: map<Hash, Evidence>) {
    && Lists(order, pending)
    && (forall h :: h in pending ==> h in order)
    && (forall i, j :: 0 <= i < j < |order| ==>
          LexLess(KeySuffix(order[i].height, order[i].digest), KeySuffix(order[j].height, order[j].digest)))
  }

  /** Keys of pending evidence, each once. */
  ghost predicate Lists(order: seq<Hash>, pending: map<Hash, Evidence>) {
    && (forall i :: 0 <= i < |order| ==> order[i] in pending)
    && (forall i, j :: 0 <= i < j < |order| ==> order[i] != order[j])
  }

  /** How many leading entries of the iteration have expired. */
  function ExpiredPrefix(env: Env, st: State, pending: map<Hash, Evidence>, order: seq<Hash>, i: nat): (n: nat)
    requires i <= |order| && Lists(order, pending)
    ensures i <= n <= |order|
    decreases |order| - i
  {
    if i == |order| || !Expired(env, st, pending[order[i]].hash.height, pending[order[i]].time) then i
    else ExpiredPrefix(env, st, pending, order, i + 1)
  }

  function Drop(p: Pool, gone: set<Hash>): Pool {
    p.(pending := p.pending - gone, size := if p.size < |gone| then 0 else p.size - |gone|, list := Keep(p.list, gone))
  }

  /** removeExpiredPendingEvidence: stops at the first entry that has not expired. */
  function Prune(env: Env, p: Pool, order: seq<Hash>): Pool
    requires Lists(order, p.pending)
  {
    var n := ExpiredPrefix(env, p.state, p.pending, order, 0);
    var q := Drop(p, Front(order, n));
    if n == |order| then q.(pruningHeight := p.state.height, pruningTime := p.state.time)
    else
      q.(pruningHeight := order[n].height + env.maxAgeBlocks + 1,
      pruningTime := p.pending[order[n]].time + env.maxAgeDuration + 1_000_000_000)
  }

  /** Update up to the pruning. */
  function Applied(env: Env, p: Pool, st: State, evs: seq<Evidence>): Pool {
    Mark(Flush(env, p, st, p.buffer).(state := st), evs)
  }

  predicate NeedsPruning(p: Pool) {
    p.size > 0 && p.state.height > p.pruningHeight && p.state.time > p.pruningTime
  }

  // ----- what every operation keeps -----

  ghost predicate Distinct(list: seq<Evidence>) {
    forall i, j :: 0 <= i < j < |list| ==> list[i].hash != list[j].hash
  }

  /** Pending evidence carries the time of its block. */
  ghost predicate StoreOk(env: Env, pending: map<Hash, Evidence>, size: nat) {
    && (forall h :: h in pending ==> pending[h].hash == h && pending[h].time == env.time(h.height))
    && size >= |pending|
  }

  /** What is gossiped is pending, and listed once. */
  ghost predicate ListOk(list: seq<Evidence>, pending: map<Hash, Evidence>) {
    Distinct(list) && forall i :: 0 <= i < |list| ==> list[i].hash in pending
  }

  ghost predicate Valid(env: Env, p: Pool) {
    StoreOk(env, p.pending, p.size) && p.state.time == env.time(p.state.height)
  }

  /** Pending and committed evidence are disjoint, and the list is as it should be. */
  ghost predicate Tidy(p: Pool) {
    p.pending.Keys !! p.committed && ListOk(p.list, p.pending)
  }

  lemma StoreGrows(env: Env, pending: map<Hash, Evidence>, size: nat, ev: Evidence)
    requires StoreOk(env, pending, size) && ev.time == env.time(ev.hash.height)
    ensures StoreOk(env, pending[ev.hash := ev], size + 1)
  {
    var more := pending[ev.hash := ev];
    assert more.Keys == pending.Keys + {ev.hash};
    OneMore(pending.Keys, ev.hash);
    assert |more| == |more.Keys| && |pending| == |pending.Keys|;
  }

  lemma OneMore(keys: set<Hash>, h: Hash)
    ensures |keys + {h}| <= |keys| + 1
  {
    if h in keys {
      assert keys + {h} == keys;
    }
  }

  lemma ListGrows(list: seq<Evidence>, pending: map<Hash, Evidence>, ev: Evidence)
    requires ListOk(list, pending)
    ensures ListOk(list, pending[ev.hash := ev])
    ensures ev.hash !in pending ==> ListOk(list + [ev], pending[ev.hash := ev])
  {
  }

  lemma AddPendingKeeps(env: Env, p: Pool, ev: Evidence)
    requires Valid(env, p) && ev.time == env.time(ev.hash.height)
    ensures Valid(env, AddPending(p, ev))
    ensures Tidy(p) && ev.hash !in p.committed ==>
              Tidy(AddPending(p, ev)) && (ev.hash !in p.pending ==> Tidy(AddPending(p, ev).(list := p.list + [ev])))
  {
    StoreGrows(env, p.pending, p.size, ev);
    if Tidy(p) { ListGrows(p.list, p.pending, ev); }
    hide StoreOk, ListOk;
  }

  /** AddEvidence without interruption. */
  lemma AddKeeps(env: Env, p: Pool, ev: Evidence)
    requires Valid(env, p)
    ensures Valid(env, Add(env, p, ev)) && (Tidy(p) ==> Tidy(Add(env, p, ev)))
  {
    if Verified(env, p.state, ev) {
      AddPendingKeeps(env, p, ev);
    }
    hide StoreOk, ListOk;
  }

  /** Of the first i pieces of evidence none occurs twice, and none is committed unless it is pending all the same. */
  ghost predicate Passing(p: Pool, evs: seq<Evidence>, i: nat) {
    && i <= |evs| && (forall j, k :: 0 <= j < k < i ==> evs[j].hash != evs[k].hash)
    && (forall j :: 0 <= j < i && evs[j].hash in p.committed ==> evs[j].hash in p.pending)
  }

  lemma PassesNext(env: Env, p: Pool, evs: seq<Evidence>, i: nat)
    requires Valid(env, p) && i < |evs| && Passing(p, evs, i)
    ensures var (q, ok) := CheckOne(env, p, evs[i]); ok && !Repeats(evs, i) ==> Passing(q, evs, i + 1)
  {
    CheckOneKeeps(env, p, evs[i]);
    hide CheckOne, Valid, Tidy;
  }

  lemma PassedIsDistinct(p: Pool, evs: seq<Evidence>)
    requires Passing(p, evs, |evs|)
    ensures Distinct(evs) && forall j :: 0 <= j < |evs| && evs[j].hash in p.committed ==> evs[j].hash in p.pending
  {
  }

  lemma PassedBefore(p: Pool, q: Pool, evs: seq<Evidence>)
    requires q.committed == p.committed && forall h :: h in q.pending && h in p.committed ==> h in p.pending
    requires Passing(q, evs, |evs|)
    ensures Passing(p, evs, |evs|)
  {
  }

  /** What the check says about a block that passes; it leaves the list and the committed set alone. */
  lemma {:induction false} CheckKeeps(env: Env, p: Pool, evs: seq<Evidence>, i: nat)
    requires Valid(env, p) && Passing(p, evs, i)
    ensures i <= |evs|
    ensures var r := Check(env, p, evs, i);
            && Valid(env, r.0) && (Tidy(p) ==> Tidy(r.0))
            && r.0.committed == p.committed && r.0.list == p.list && r.0.state == p.state
            && (r.1 ==> Passing(p, evs, |evs|))
    decreases |evs| - i
  {
    assert i <= |evs|;
    if i < |evs| {
      var r := CheckOne(env, p, evs[i]);
      hide CheckOne, Valid, Tidy, Passing, Repeats, Check;
      CheckOneKeeps(env, p, evs[i]);
      CheckStep(env, p, evs, i);
      PassesNext(env, p, evs, i);
      if r.1 && !Repeats(evs, i) {
        CheckKeeps(env, r.0, evs, i + 1);
        if Check(env, r.0, evs, i + 1).1 { PassedBefore(p, r.0, evs); }
      }
    }
  }

  lemma CheckStep(env: Env, p: Pool, evs: seq<Evidence>, i: nat)
    requires i < |evs|
    ensures var (q, ok) := CheckOne(env, p, evs[i]);
            Check(env, p, evs, i) == if !ok || Repeats(evs, i) then (q, false) else Check(env, q, evs, i + 1)
  {
  }

  lemma CheckEnds(env: Env, p: Pool, evs: seq<Evidence>)
    ensures Check(env, p, evs, |evs|) == (p, true)
  {
  }

  lemma CheckOneKeeps(env: Env, p: Pool, ev: Evidence)
    requires Valid(env, p)
    ensures var r := CheckOne(env, p, ev);
            && Valid(env, r.0) && (Tidy(p) ==> Tidy(r.0))
            && r.0.committed == p.committed && r.0.list == p.list && r.0.state == p.state
            && p.pending.Keys <= r.0.pending.Keys && (forall h :: h in r.0.pending && h in p.committed ==> h in p.pending)
            && (r.1 && ev.hash in p.committed ==> ev.hash in p.pending)
  {
    if Verified(env, p.state, ev) {
      AddPendingKeeps(env, p, ev);
    }
    hide StoreOk, ListOk;
  }

  lemma {:induction false} FlushKeeps(env: Env, p: Pool, st: State, buffer: seq<VotePair>)
    requires Valid(env, p)
    ensures var q := Flush(env, p, st, buffer);
            && Valid(env, q) && (Tidy(p) ==> Tidy(q)) && q.committed == p.committed
            && p.pending.Keys <= q.pending.Keys && (forall h :: h in q.pending && h in p.committed ==> h in p.pending)
    decreases |buffer|
  {
    if buffer != [] {
      var ev := Formed(env, buffer[0]);
      var q := AddPending(p, ev).(list := p.list + [ev]);
      AddPendingKeeps(env, p, ev);
      assert Valid(env, q) && p.pending.Keys <= q.pending.Keys;
      assert ev.hash !in p.committed ==> forall h :: h in q.pending && h in p.committed ==> h in p.pending;
      hide Valid, Tidy;
      FlushKeeps(env, p, st, buffer[1..]);
      if ev.hash !in p.pending && ev.hash !in p.committed {
        FlushKeeps(env, q, st, buffer[1..]);
      }
    } else {
      hide ListOk;
    }
  }

  lemma {:induction false} KeepIs(list: seq<Evidence>, drop: set<Hash>)
    ensures Distinct(list) ==> Distinct(Keep(list, drop))
    ensures forall ev :: ev in Keep(list, drop) <==> ev in list && ev.hash !in drop
  {
    if list != [] {
      KeepIs(list[1..], drop);
      assert list == [list[0]] + list[1..];
      var k := Keep(list[1..], drop);
      assert Distinct(list) ==> forall ev :: ev in k ==> ev.hash != list[0].hash;
    }
  }

  lemma DropKeeps(env: Env, p: Pool, gone: set<Hash>)
    requires Valid(env, p) && gone <= p.pending.Keys
    ensures Valid(env, Drop(p, gone)) && (Tidy(p) ==> Tidy(Drop(p, gone))) && Drop(p, gone).committed == p.committed
  {
    assert (p.pending - gone).Keys == p.pending.Keys - gone;
    assert |p.pending.Keys - gone| == |p.pending.Keys| - |gone|;
    if Tidy(p) { KeepListed(p.list, p.pending, gone); }
    hide ListOk;
  }

  lemma KeepListed(list: seq<Evidence>, pending: map<Hash, Evidence>, gone: set<Hash>)
    requires ListOk(list, pending)
    ensures ListOk(Keep(list, gone), pending - gone)
  {
    KeepIs(list, gone);
    forall i | 0 <= i < |Keep(list, gone)| ensures Keep(list, gone)[i].hash in pending - gone {
      assert Keep(list, gone)[i] in list;
    }
  }

  lemma MarkKeeps(env: Env, p: Pool, evs: seq<Evidence>)
    requires Valid(env, p)
    ensures Valid(env, Mark(p, evs)) && (Tidy(p) ==> Tidy(Mark(p, evs)))
    ensures Mark(p, evs).committed == p.committed + Hashes(evs)
  {
    var gone := Hashes(evs) * p.pending.Keys;
    DropKeeps(env, p, gone);
    assert p.pending - Hashes(evs) == p.pending - gone;
    hide StoreOk, ListOk, Keep;
  }

  // ----- pruning -----

  /** Of two pieces of evidence with the times of their blocks, the one from the lower height expires first. */
  lemma LowerExpiresFirst(env: Env, st: State, h1: int, h2: int)
    requires TimesIncrease(env) && h1 <= h2 && Expired(env, st, h2, env.time(h2))
    ensures Expired(env, st, h1, env.time(h1))
  {
  }

  lemma {:induction false} PrefixIsExpired(env: Env, p: Pool, order: seq<Hash>, i: nat)
    requires i <= |order| && Lists(order, p.pending)
    ensures var n := ExpiredPrefix(env, p.state, p.pending, order, i);
            && (forall j :: i <= j < n ==> Expired(env, p.state, p.pending[order[j]].hash.height, p.pending[order[j]].time))
            && (n < |order| ==> !Expired(env, p.state, p.pending[order[n]].hash.height, p.pending[order[n]].time))
    decreases |order| - i
  {
    if i < |order| && Expired(env, p.state, p.pending[order[i]].hash.height, p.pending[order[i]].time) {
      PrefixIsExpired(env, p, order, i + 1);
    }
  }

  /** In key order everything after the first unexpired entry is unexpired too. */
  lemma SuffixIsFresh(env: Env, p: Pool, order: seq<Hash>, n: nat, j: nat)
    requires Valid(env, p) && TimesIncrease(env) && IsIteration(order, p.pending) && n <= j < |order|
    requires !Expired(env, p.state, p.pending[order[n]].hash.height, p.pending[order[n]].time)
    ensures !Expired(env, p.state, p.pending[order[j]].hash.height, p.pending[order[j]].time)
  {
    hide LexLess, KeySuffix;
    if n < j {
      KeyOrder(order[n].height, order[n].digest, order[j].height, order[j].digest);
      if Expired(env, p.state, order[j].height, env.time(order[j].height)) {
        LowerExpiresFirst(env, p.state, order[n].height, order[j].height);
      }
    }
  }

  /** The entries before the first unexpired one are all the expired ones. */
  lemma PrefixIsAll(env: Env, p: Pool, order: seq<Hash>, h: Hash)
    requires Valid(env, p) && TimesIncrease(env) && IsIteration(order, p.pending) && h in p.pending
    ensures h in order[..ExpiredPrefix(env, p.state, p.pending, order, 0)] <==> Expired(env, p.state, h.height, p.pending[h].time)
  {
    hide LexLess, KeySuffix, Expired, TimesIncrease;
    var n := ExpiredPrefix(env, p.state, p.pending, order, 0);
    PrefixIsExpired(env, p, order, 0);
    var j :| 0 <= j < |order| && order[j] == h;
    if j < n {
      assert order[..n][j] == h;
    } else {
      SuffixIsFresh(env, p, order, n, j);
    }
    hide ExpiredPrefix;
  }

  /** Prefix pruning is complete: it leaves exactly the pending evidence that has not expired. */
  lemma PruneIsExact(env: Env, p: Pool, order: seq<Hash>)
    requires Valid(env, p) && TimesIncrease(env) && IsIteration(order, p.pending)
    ensures var q := Prune(env, p, order);
            && Valid(env, q) && (Tidy(p) ==> Tidy(q)) && q.committed == p.committed && q.state == p.state
            && (forall h :: h in q.pending <==> h in p.pending && !Expired(env, p.state, h.height, p.pending[h].time))
            && (forall h :: h in q.pending ==> q.pending[h] == p.pending[h])
  {
    hide LexLess, KeySuffix, Expired, TimesIncrease;
    var n := ExpiredPrefix(env, p.state, p.pending, order, 0);
    var gone := Front(order, n);
    forall h | h in p.pending ensures h in gone <==> Expired(env, p.state, h.height, p.pending[h].time) {
      PrefixIsAll(env, p, order, h);
    }
    assert gone <= p.pending.Keys;
    DropKeeps(env, p, gone);
    assert Tidy(p) ==> Tidy(Prune(env, p, order)) by { hide Valid, ListOk, Keep, ExpiredPrefix; }
    hide IsIteration, ExpiredPrefix, StoreOk, Tidy, Keep;
  }

  // ----- restarts and updates -----

  function ReadBack(pending: map<Hash, Evidence>, order: seq<Hash>): seq<Evidence>
    requires forall i :: 0 <= i < |order| ==> order[i] in pending
  {
    seq(|order|, i requires 0 <= i < |order| => pending[order[i]])
  }

  /** NewPool on the database of p: expired evidence is removed, and the list is read back from what is left. */
  ghost predicate Reopened(env: Env, p: Pool, order: seq<Hash>, left: seq<Hash>, p': Pool) {
    && IsIteration(order, p.pending)
    && var q := Prune(env, p, order);
       && IsIteration(left, q.pending)
       && p' == q.(size := |q.pending|, list := ReadBack(q.pending, left), buffer := [])
  }

  lemma ReadBackIsAll(pending: map<Hash, Evidence>, order: seq<Hash>)
    requires Lists(order, pending) && forall h :: h in pending ==> h in order && pending[h].hash == h
    ensures ListOk(ReadBack(pending, order), pending) && Hashes(ReadBack(pending, order)) == pending.Keys
  {
    var list := ReadBack(pending, order);
    forall h | h in pending ensures h in Hashes(list) {
      var i :| 0 <= i < |order| && order[i] == h;
      assert list[i] in list;
    }
  }

  /** A restart loses nothing but the votes that consensus has reported since the last block, and lists all that is pending. */
  lemma ReopenKeeps(env: Env, p: Pool, order: seq<Hash>, left: seq<Hash>, p': Pool)
    requires TimesIncrease(env) && Valid(env, p) && Reopened(env, p, order, left, p')
    ensures Valid(env, p') && p'.committed == p.committed && p'.state == p.state && ListOk(p'.list, p'.pending)
    ensures forall h :: h in p'.pending <==> h in p.pending && !Expired(env, p.state, h.height, p.pending[h].time)
    ensures Hashes(p'.list) == p'.pending.Keys
  {
    hide LexLess, KeySuffix, TimesIncrease, Expired, ExpiredPrefix, Keep, Front;
    var q := Prune(env, p, order);
    assert q.state == p.state;
    PruneIsExact(env, p, order);
    hide Prune;
    ReadBackIsAll(q.pending, left);
    hide ListOk, ReadBack, IsIteration, Hashes;
  }

  lemma AppliedKeeps(env: Env, p: Pool, st: State, evs: seq<Evidence>)
    requires Valid(env, p) && st.time == env.time(st.height)
    ensures var q := Applied(env, p, st, evs);
            Valid(env, q) && (Tidy(p) ==> Tidy(q)) && q.committed == p.committed + Hashes(evs)
  {
    FlushKeeps(env, p, st, p.buffer);
    MarkKeeps(env, Flush(env, p, st, p.buffer).(state := st), evs);
    hide StoreOk, ListOk, Mark;
  }

  lemma UpdateKeeps(env: Env, p: Pool, st: State, evs: seq<Evidence>, order: seq<Hash>)
    requires TimesIncrease(env) && Valid(env, p) && st.time == env.time(st.height)
    requires var q := Applied(env, p, st, evs); NeedsPruning(q) ==> IsIteration(order, q.pending)
    ensures var q := Applied(env, p, st, evs);
            var r := if NeedsPruning(q) then Prune(env, q, order) else q;
            Valid(env, r) && (Tidy(p) ==> Tidy(r)) && r.committed == p.committed + Hashes(evs)
  {
    hide LexLess, KeySuffix, TimesIncrease, StoreOk, ListOk, Expired;
    AppliedKeeps(env, p, st, evs);
    var q := Applied(env, p, st, evs);
    if NeedsPruning(q) {
      PruneIsExact(env, q, order);
    }
    hide Valid, Tidy, Applied, Prune, Hashes;
  }

  // ----- the pool in place -----

  class EvidenceStore {
    const env: Env
    var state: State
    var pending: map<Hash, Evidence>
    var committed: set<Hash>
    var size: nat
    var list: seq<Evidence>
    var buffer: seq<VotePair>
    var pruningHeight: int
    var pruningTime: int

    function Snap(): Pool
      reads this
    {
      Pool(state, pending, committed, size, list, buffer, pruningHeight, pruningTime)
    }

    constructor (env: Env, st: State)
      requires st.time == env.time(st.height)
      ensures this.env == env && Valid(env, Snap()) && Tidy(Snap())
      ensures Snap() == Pool(st, map[], {}, 0, [], [], st.height, st.time)
    {
      this.env := env;
      state, pending, committed, size, list, buffer := st, map[], {}, 0, [], [];
      pruningHeight, pruningTime := st.height, st.time;
    }

    method AddPendingEvidence(ev: Evidence)
      modifies this`pending, this`size
      ensures Snap() == AddPending(old(Snap()), ev)
    {
      pending := pending[ev.hash := ev];
      size := size + 1;
    }

    method AddEvidence(ev: Evidence) returns (valid: bool)
      requires Valid(env, Snap())
      modifies this
      ensures Snap() == Add(env, old(Snap()), ev)
      ensures Valid(env, Snap()) && (Tidy(old(Snap())) ==> Tidy(Snap()))
      ensures valid <==> ev.hash in old(pending) || ev.hash in committed || Verified(env, state, ev)
    {
      AddKeeps(env, Snap(), ev);
      hide Valid, Tidy, Verified;
      if ev.hash in pending { return true; }
      if ev.hash in committed { return true; }
      if !Verified(env, state, ev) { return false; }
      AddPendingEvidence(ev);
      list := list + [ev];
      return true;
    }

    method ReportConflictingVotes(v: VotePair)
      modifies this`buffer
      ensures Snap() == old(Snap()).(buffer := old(buffer) + [v])
    {
      buffer := buffer + [v];
    }

    /** The body of the loop below, up to the search for duplicates. */
    method CheckPiece(ev: Evidence) returns (ok: bool)
      modifies this`pending, this`size
      ensures (Snap(), ok) == CheckOne(env, old(Snap()), ev)
    {
      hide Verified;
      if ev.isLightClientAttack || ev.hash !in pending {
        if ev.hash in committed { return false; }
        if !Verified(env, state, ev) { return false; }
        AddPendingEvidence(ev);
      }
      return true;
    }

    /** A block passes only if its evidence is in it once, and has not been committed or is pending all the same. */
    method CheckEvidence(evs: seq<Evidence>) returns (ok: bool)
      requires Valid(env, Snap())
      modifies this`pending, this`size
      ensures (Snap(), ok) == Check(env, old(Snap()), evs, 0)
      ensures Valid(env, Snap()) && (Tidy(old(Snap())) ==> Tidy(Snap()))
      ensures ok ==> Distinct(evs)
      ensures ok ==> forall j :: 0 <= j < |evs| && evs[j].hash in committed ==> evs[j].hash in old(pending)
    {
      CheckKeeps(env, Snap(), evs, 0);
      if Check(env, Snap(), evs, 0).1 { PassedIsDistinct(Snap(), evs); }
      hide Valid, Tidy, Distinct, Check, CheckOne, Repeats;
      var idx := 0;
      while idx < |evs|
        invariant 0 <= idx <= |evs|
        invariant Check(env, Snap(), evs, idx) == Check(env, old(Snap()), evs, 0)
      {
        CheckStep(env, Snap(), evs, idx);
        var passes := CheckPiece(evs[idx]);
        if !passes { return false; }
        var duplicate := OccursBefore(evs, idx);
        if duplicate { return false; }
        idx := idx + 1;
      }
      CheckEnds(env, Snap(), evs);
      return true;
    }

    method ProcessConsensusBuffer(st: State)
      modifies this
      ensures Snap() == Flush(env, old(Snap()), st, old(buffer))
    {
      var votes := buffer;
      var i := 0;
      while i < |votes|
        invariant 0 <= i <= |votes|
        invariant Flush(env, Snap(), st, votes[i..]) == Flush(env, old(Snap()), st, votes)
      {
        assert votes[i..][1..] == votes[i + 1..];
        var v := votes[i];
        if v.height <= st.height && v.usable {
          var ev := Formed(env, v);
          if ev.hash !in pending && ev.hash !in committed {
            AddPendingEvidence(ev);
            list := list + [ev];
          }
        }
        i := i + 1;
      }
      buffer := [];
    }

    /** removeEvidenceFromList walks the linked list once. */
    method RemoveEvidenceFromList(drop: set<Hash>)
      modifies this`list
      ensures list == Keep(old(list), drop)
    {
      var kept: seq<Evidence> := [];
      var i := 0;
      while i < |list|
        invariant 0 <= i <= |list| && list == old(list)
        invariant kept + Keep(list[i..], drop) == Keep(list, drop)
      {
        assert list[i..][1..] == list[i + 1..];
        if list[i].hash !in drop {
          kept := kept + [list[i]];
        }
        i := i + 1;
      }
      list := kept;
    }

    method MarkEvidenceAsCommitted(evs: seq<Evidence>)
      requires size >= |pending|
      modifies this`pending, this`committed, this`size, this`list
      ensures Snap() == Mark(old(Snap()), evs)
    {
      hide Hashes, Keep, Moved;
      var gone := MoveToCommitted(evs);
      MovedIs(old(pending), old(size), Hashes(evs), pending, gone, size);
      if |gone| != 0 {
        RemoveEvidenceFromList(gone);
      } else {
        assert gone == {};
        KeepAll(list);
      }
    }

    /** The body of the loop below, for the evidence of hash h. */
    method MoveOne(h: Hash, ghost p: Pool, ghost done: set<Hash>, gone: set<Hash>) returns (more: set<Hash>)
      requires Moved(p.pending, p.size, done, pending, gone, size) && Recorded(p.committed, done, committed)
      modifies this`pending, this`committed, this`size
      ensures Moved(p.pending, p.size, done + {h}, pending, more, size) && Recorded(p.committed, done + {h}, committed)
    {
      hide Moved, Recorded;
      MovesOneMore(p.pending, p.size, done, pending, gone, size, h);
      RecordsOneMore(p.committed, done, committed, h);
      more := gone;
      if h in pending {
        pending := pending - {h};
        size := size - 1;
        more := gone + {h};
      }
      committed := committed + {h};
    }

    /** The loop over the evidence of the block; what was pending has to leave the list as well. */
    method MoveToCommitted(evs: seq<Evidence>) returns (gone: set<Hash>)
      requires size >= |pending|
      modifies this`pending, this`committed, this`size
      ensures Moved(old(pending), old(size), Hashes(evs), pending, gone, size)
      ensures Recorded(old(committed), Hashes(evs), committed)
    {
      hide Hashes, Moved, Recorded;
      ghost var p := Snap();
      gone := {};
      var i := 0;
      NoHashes(evs);
      NothingMoved(pending, size);
      NothingRecorded(committed);
      while i < |evs|
        invariant 0 <= i <= |evs| && Recorded(p.committed, Hashes(evs[..i]), committed)
        invariant Moved(p.pending, p.size, Hashes(evs[..i]), pending, gone, size)
      {
        HashesNext(evs, i);
        gone := MoveOne(evs[i].hash, p, Hashes(evs[..i]), gone);
        i := i + 1;
      }
      assert evs[..i] == evs;
    }

    /** The body of the loop below: the entry of the next key goes if it has expired. */
    method DeleteNextExpired(keys: seq<Hash>, n: nat, ghost was: map<Hash, Evidence>) returns (expired: bool)
      requires n < |keys| && Lists(keys, was) && pending == Left(was, keys, n) && size >= |pending|
      modifies this`pending, this`size
      ensures expired == (ExpiredPrefix(env, state, was, keys, n) != n)
      ensures expired ==> && pending == Left(was, keys, n + 1) && size + 1 == old(size) && size >= |pending|
                          && ExpiredPrefix(env, state, was, keys, n) == ExpiredPrefix(env, state, was, keys, n + 1)
      ensures !expired ==> pending == old(pending) && size == old(size)
    {
      DeleteNext(env, state, was, keys, n);
      hide Left, Front, ExpiredPrefix, Lists;
      var ev := pending[keys[n]];
      expired := Expired(env, state, ev.hash.height, ev.time);
      if expired {
        pending := pending - {keys[n]};
        size := size - 1;
      }
    }

    /** The iteration of removeExpiredPendingEvidence, in the order of the database keys. */
    method DeleteExpired(keys: seq<Hash>) returns (n: nat)
      requires size >= |pending| && Lists(keys, pending)
      modifies this`pending, this`size
      ensures n == ExpiredPrefix(env, state, old(pending), keys, 0)
      ensures pending == Left(old(pending), keys, n) && size + n == old(size)
    {
      ghost var was := pending;
      n := 0;
      assert Left(was, keys, 0) == was;
      hide Left, ExpiredPrefix, Lists;
      while n < |keys|
        invariant 0 <= n <= |keys| && pending == Left(was, keys, n)
        invariant size >= |pending| && size + n == old(size)
        invariant ExpiredPrefix(env, state, was, keys, n) == ExpiredPrefix(env, state, was, keys, 0)
      {
        var expired := DeleteNextExpired(keys, n, was);
        if !expired { return; }
        n := n + 1;
      }
      AllExpired(env, state, was, keys);
    }

    /** The expired entries leave the database and the list. */
    method DropExpired(keys: seq<Hash>) returns (n: nat)
      requires size >= |pending| && Lists(keys, pending)
      modifies this`pending, this`size, this`list
      ensures n == ExpiredPrefix(env, state, old(pending), keys, 0)
      ensures Snap() == Drop(old(Snap()), Front(keys, n))
    {
      FrontSize(keys, ExpiredPrefix(env, state, pending, keys, 0));
      hide ExpiredPrefix, Lists, Keep;
      n := DeleteExpired(keys);
      hide Front;
      if n > 0 {
        RemoveEvidenceFromList(Front(keys, n));
      } else {
        NoFront(keys);
        KeepAll(list);
      }
    }

    method RemoveExpiredPendingEvidence(keys: seq<Hash>)
      requires Valid(env, Snap()) && TimesIncrease(env) && IsIteration(keys, pending)
      modifies this
      ensures Snap() == Prune(env, old(Snap()), keys)
      ensures Valid(env, Snap()) && (Tidy(old(Snap())) ==> Tidy(Snap()))
    {
      hide IsIteration, Lists, Valid, Tidy, TimesIncrease, Expired, ExpiredPrefix, Drop, Front;
      ghost var p := Snap();
      PruneIsExact(env, p, keys);
      SizeBounds(env, p);
      IterationLists(keys, pending);
      var all := pending;
      var n := DropExpired(keys);
      if n < |keys| {
        pruningHeight := keys[n].height + env.maxAgeBlocks + 1;
        pruningTime := all[keys[n]].time + env.maxAgeDuration + 1_000_000_000;
      } else {
        pruningHeight := state.height;
        pruningTime := state.time;
      }
      assert Snap() == Prune(env, p, keys);
      hide Prune;
    }

    /** Update for a new block; `keys` is the order of the database when it comes to pruning. */
    method Update(st: State, evs: seq<Evidence>, keys: seq<Hash>) returns (ok: bool)
      requires Valid(env, Snap()) && TimesIncrease(env) && st.time == env.time(st.height)
      requires var q := Applied(env, Snap(), st, evs); NeedsPruning(q) ==> IsIteration(keys, q.pending)
      modifies this
      ensures Valid(env, Snap()) && (Tidy(old(Snap())) ==> Tidy(Snap()))
      ensures ok <==> st.height > old(state).height
      ensures !ok ==> Snap() == old(Snap())
      ensures ok ==> var q := Applied(env, old(Snap()), st, evs);
                     Snap() == if NeedsPruning(q) then Prune(env, q, keys) else q
    {
      if st.height <= state.height { return false; }
      hide LexLess, KeySuffix, IsIteration, TimesIncrease, StoreOk, Tidy, Prune;
      ghost var p := Snap();
      AppliedKeeps(env, p, st, evs);
      FlushKeeps(env, p, st, buffer);
      ProcessConsensusBuffer(st);
      state := st;
      SizeBounds(env, Snap());
      MarkEvidenceAsCommitted(evs);
      if size > 0 && state.height > pruningHeight && state.time > pruningTime {
        RemoveExpiredPendingEvidence(keys);
      }
      return true;
    }
  }

  /** The search for a piece of evidence that is in the block already. */
  method OccursBefore(evs: seq<Evidence>, idx: nat) returns (found: bool)
    requires idx < |evs|
    ensures found <==> Repeats(evs, idx)
  {
    var i := idx - 1;
    while i >= 0
      invariant -1 <= i < idx
      invariant forall j :: i < j < idx ==> evs[j].hash != evs[idx].hash
    {
      if evs[i].hash == evs[idx].hash { return true; }
      i := i - 1;
    }
    return false;
  }

  lemma AllExpired(env: Env, st: State, was: map<Hash, Evidence>, keys: seq<Hash>)
    requires Lists(keys, was)
    ensures ExpiredPrefix(env, st, was, keys, |keys|) == |keys|
  {
  }

  /** One turn of the deletion. */
  lemma DeleteNext(env: Env, st: State, was: map<Hash, Evidence>, keys: seq<Hash>, n: nat)
    requires n < |keys| && Lists(keys, was)
    ensures keys[n] in Left(was, keys, n) && Left(was, keys, n)[keys[n]] == was[keys[n]]
    ensures Left(was, keys, n + 1) == Left(was, keys, n) - {keys[n]}
    ensures |Left(was, keys, n + 1)| == |Left(was, keys, n)| - 1
    ensures ExpiredPrefix(env, st, was, keys, n)
         == if Expired(env, st, was[keys[n]].hash.height, was[keys[n]].time)
            then ExpiredPrefix(env, st, was, keys, n + 1) else n
  {
    FrontNext(keys, n);
    TakeOut(was, Front(keys, n), keys[n]);
    hide Expired;
  }

  lemma SizeBounds(env: Env, p: Pool)
    requires Valid(env, p)
    ensures p.size >= |p.pending|
  {
  }

  lemma IterationLists(order: seq<Hash>, pending: map<Hash, Evidence>)
    requires IsIteration(order, pending)
    ensures Lists(order, pending) && forall i :: 0 <= i < |order| ==> order[i] in pending
  {
  }

  function Front(keys: seq<Hash>, n: nat): set<Hash>
    requires n <= |keys|
  {
    set h | h in keys[..n]
  }

  /** What is left when the first n keys are deleted. */
  function Left(was: map<Hash, Evidence>, keys: seq<Hash>, n: nat): map<Hash, Evidence>
    requires n <= |keys|
  {
    was - Front(keys, n)
  }

  lemma NoFront(keys: seq<Hash>)
    ensures Front(keys, 0) == {}
  {
  }

  lemma {:induction false} FrontSize(keys: seq<Hash>, n: nat)
    requires n <= |keys| && forall i, j :: 0 <= i < j < |keys| ==> keys[i] != keys[j]
    ensures |Front(keys, n)| == n
  {
    if n > 0 {
      FrontSize(keys, n - 1);
      FrontNext(keys, n - 1);
    }
  }

  lemma FrontNext(keys: seq<Hash>, n: nat)
    requires n < |keys| && forall i, j :: 0 <= i < j < |keys| ==> keys[i] != keys[j]
    ensures Front(keys, n + 1) == Front(keys, n) + {keys[n]} && keys[n] !in Front(keys, n)
    ensures |Front(keys, n + 1)| == |Front(keys, n)| + 1
  {
    assert keys[..n + 1] == keys[..n] + [keys[n]];
  }

  lemma NoHashes(evs: seq<Evidence>)
    ensures Hashes(evs[..0]) == {}
  {
  }

  ghost predicate Recorded(before: set<Hash>, done: set<Hash>, now: set<Hash>) {
    now == before + done
  }

  lemma RecordsOneMore(before: set<Hash>, done: set<Hash>, now: set<Hash>, h: Hash)
    requires Recorded(before, done, now)
    ensures Recorded(before, done + {h}, now + {h})
  {
  }

  lemma NothingRecorded(committed: set<Hash>)
    ensures Recorded(committed, {}, committed)
  {
  }

  lemma HashesNext(evs: seq<Evidence>, i: nat)
    requires i < |evs|
    ensures Hashes(evs[..i + 1]) == Hashes(evs[..i]) + {evs[i].hash}
  {
    assert evs[..i + 1] == evs[..i] + [evs[i]];
  }

  /** Of the evidence in `was`, what is in `done` has been moved: `gone` is that, and `pending` the rest. */
  ghost predicate Moved(was: map<Hash, Evidence>, all: int, done: set<Hash>, pending: map<Hash, Evidence>, gone: set<Hash>, size: int) {
    pending == was - done && gone == done * was.Keys && size >= |pending| && size + |gone| == all
  }

  lemma NothingMoved(was: map<Hash, Evidence>, all: int)
    requires all >= |was|
    ensures Moved(was, all, {}, was, {}, all)
  {
    assert was - {} == was;
  }

  lemma MovedIs(was: map<Hash, Evidence>, all: int, done: set<Hash>, pending: map<Hash, Evidence>, gone: set<Hash>, size: int)
    requires Moved(was, all, done, pending, gone, size)
    ensures pending == was - done && gone == done * was.Keys && size + |gone| == all
  {
  }

  /** Marking one more piece of evidence. */
  lemma MovesOneMore(was: map<Hash, Evidence>, all: int, done: set<Hash>, pending: map<Hash, Evidence>, gone: set<Hash>, size: int,
                     h: Hash)
    requires Moved(was, all, done, pending, gone, size)
    ensures if h in pending then size > 0 && Moved(was, all, done + {h}, pending - {h}, gone + {h}, size - 1)
            else Moved(was, all, done + {h}, pending, gone, size)
  {
    TakeOut(was, done, h);
  }

  lemma TakeOut(m: map<Hash, Evidence>, done: set<Hash>, h: Hash)
    ensures m - (done + {h}) == (m - done) - {h}
    ensures h in m - done ==> |(m - done) - {h}| == |m - done| - 1
    ensures h in m - done ==> (done + {h}) * m.Keys == done * m.Keys + {h} && h !in done * m.Keys
    ensures h !in m - done ==> (done + {h}) * m.Keys == done * m.Keys && (m - done) - {h} == m - done
  {
    TakeOutOne(m - done, h);
    TakeOutKeys(m.Keys, done, h);
    assert (m - done).Keys == m.Keys - done;
  }

  lemma TakeOutOne(m: map<Hash, Evidence>, h: Hash)
    ensures h in m ==> |m - {h}| == |m| - 1
    ensures h !in m ==> m - {h} == m
  {
    assert (m - {h}).Keys == m.Keys - {h};
    assert |m - {h}| == |(m - {h}).Keys| && |m| == |m.Keys|;
  }

  lemma TakeOutKeys(keys: set<Hash>, done: set<Hash>, h: Hash)
    ensures h in keys && h !in done ==> (done + {h}) * keys == done * keys + {h} && h !in done * keys
    ensures h !in keys || h in done ==> (done + {h}) * keys == done * keys
  {
  }

  lemma {:induction false} KeepAll(list: seq<Evidence>)
    ensures Keep(list, {}) == list
  {
    if list != [] {
      KeepAll(list[1..]);
    }
  }
}
