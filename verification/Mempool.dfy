/**
 * The transaction pool (mempool/clist_mempool.go): an ordered list with an index and a byte counter,
 * and the cursor that walks the list while the application rechecks it.
 */
module Mempool {

  /** A transaction; its key is a hash of it, and so is as good as the transaction itself. */
  datatype Tx = Tx(id: nat, size: nat)

  datatype MemTx = MemTx(tx: Tx, gasWanted: int, height: int)

  datatype Config = Config(size: int, maxTxsBytes: int, keepInvalidTxsInCache: bool, recheck: bool)

  function Bytes(txs: seq<MemTx>): nat {
    if txs == [] then 0 else Bytes(txs[..|txs| - 1]) + txs[|txs| - 1].tx.size
  }

  ghost predicate Distinct(txs: seq<MemTx>) {
    forall i, j :: 0 <= i < j < |txs| ==> txs[i].tx != txs[j].tx
  }

  /** Where a transaction is in the list; its length if it is not there. */
  function Position(txs: seq<MemTx>, tx: Tx): (i: nat)
    ensures i <= |txs|
    ensures i < |txs| ==> txs[i].tx == tx
  {
    if txs == [] then 0 else if txs[0].tx == tx then 0 else 1 + Position(txs[1..], tx)
  }

  lemma {:induction false} PositionIsFirst(txs: seq<MemTx>, tx: Tx)
    ensures forall j :: 0 <= j < Position(txs, tx) ==> txs[j].tx != tx
  {
    if txs != [] && txs[0].tx != tx {
      PositionIsFirst(txs[1..], tx);
    }
  }

  function Removed(txs: seq<MemTx>, i: nat): seq<MemTx>
    requires i < |txs|
  {
    txs[..i] + txs[i + 1..]
  }

  lemma {:induction false} BytesConcat(a: seq<MemTx>, b: seq<MemTx>)
    ensures Bytes(a + b) == Bytes(a) + Bytes(b)
  {
    if b == [] {
      assert a + b == a;
    } else {
      var n := |b| - 1;
      BytesConcat(a, b[..n]);
      assert (a + b)[..|a| + n] == a + b[..n];
    }
  }

  lemma BytesMiddle(a: seq<MemTx>, m: MemTx, c: seq<MemTx>)
    ensures Bytes(a + ([m] + c)) == Bytes(a + c) + m.tx.size
  {
    BytesConcat(a, [m] + c);
    BytesConcat([m], c);
    BytesConcat(a, c);
    assert [m][..0] == [];
  }

  lemma SplitAt(txs: seq<MemTx>, i: nat)
    requires i < |txs|
    ensures txs == txs[..i] + ([txs[i]] + txs[i + 1..])
  {
  }

  lemma BytesRemoved(txs: seq<MemTx>, i: nat)
    requires i < |txs|
    ensures Bytes(Removed(txs, i)) + txs[i].tx.size == Bytes(txs)
  {
    hide Bytes;
    SplitAt(txs, i);
    BytesMiddle(txs[..i], txs[i], txs[i + 1..]);
  }

  lemma BytesAppended(txs: seq<MemTx>, m: MemTx)
    ensures Bytes(txs + [m]) == Bytes(txs) + m.tx.size
  {
    assert (txs + [m])[..|txs|] == txs;
  }

  /** The index holds exactly the listed transactions, and none is listed twice. */
  ghost predicate Indexes(index: map<Tx, MemTx>, txs: seq<MemTx>) {
    && Distinct(txs)
    && (forall i :: 0 <= i < |txs| ==> txs[i].tx in index && index[txs[i].tx] == txs[i])
    && (forall t :: t in index ==> index[t] in txs && index[t].tx == t)
  }

  lemma Appended(index: map<Tx, MemTx>, txs: seq<MemTx>, m: MemTx)
    requires Indexes(index, txs) && m.tx !in index
    ensures Indexes(index[m.tx := m], txs + [m])
  {
  }

  lemma RemovedKeeps(index: map<Tx, MemTx>, txs: seq<MemTx>, i: nat)
    requires Indexes(index, txs) && i < |txs|
    ensures Indexes(index - {txs[i].tx}, Removed(txs, i))
  {
    var rest := Removed(txs, i);
    forall t | t in index - {txs[i].tx} ensures index[t] in rest {
      var j :| 0 <= j < |txs| && txs[j] == index[t];
      if j < i {
        assert rest[j] == txs[j];
      } else {
        assert rest[j - 1] == txs[j];
      }
    }
  }

  /** Membership in the index is membership in the list. */
  lemma Listed(index: map<Tx, MemTx>, txs: seq<MemTx>, tx: Tx)
    requires Indexes(index, txs)
    ensures tx in index <==> Position(txs, tx) < |txs|
    ensures tx in index ==> txs[Position(txs, tx)] == index[tx]
  {
    PositionIsFirst(txs, tx);
    if tx in index {
      var j :| 0 <= j < |txs| && txs[j] == index[tx];
    }
  }

  /** The recheck cursor and the last entry to recheck, while rechecking is in progress. */
  datatype Recheck = Done | At(cursor: Tx, end: Tx)

  ghost predicate RecheckOk(r: Recheck, txs: seq<MemTx>) {
    r.At? ==> |txs| > 0 && r.end == txs[|txs| - 1].tx && Position(txs, r.cursor) < |txs|
  }

  // ----- what a recheck leaves -----

  datatype Response = Response(tx: Tx, ok: bool)

  function Rejects(rs: seq<Response>): set<Tx> {
    set r | r in rs && !r.ok :: r.tx
  }

  function Without(txs: seq<MemTx>, gone: set<Tx>): seq<MemTx> {
    if txs == [] then []
    else if txs[0].tx in gone then Without(txs[1..], gone)
    else [txs[0]] + Without(txs[1..], gone)
  }

  /** The responses come in the order of the list from position `from` on; some may be missing. */
  ghost predicate InOrder(rs: seq<Response>, txs: seq<MemTx>, from: nat)
    requires from <= |txs|
    decreases |rs|
  {
    rs == [] || (var i := Position(txs, rs[0].tx); from <= i < |txs| && InOrder(rs[1..], txs, i + 1))
  }

  lemma {:induction false} WithoutConcat(a: seq<MemTx>, b: seq<MemTx>, gone: set<Tx>)
    ensures Without(a + b, gone) == Without(a, gone) + Without(b, gone)
  {
    if a == [] {
      assert a + b == b;
    } else {
      assert (a + b)[1..] == a[1..] + b;
      WithoutConcat(a[1..], b, gone);
    }
  }

  lemma {:induction false} WithoutNone(txs: seq<MemTx>, gone: set<Tx>)
    requires forall m :: m in txs ==> m.tx !in gone
    ensures Without(txs, gone) == txs
  {
    if txs != [] {
      WithoutNone(txs[1..], gone);
    }
  }

  lemma {:induction false} WithoutMore(txs: seq<MemTx>, gone: set<Tx>, more: set<Tx>)
    ensures Without(Without(txs, gone), more) == Without(txs, gone + more)
  {
    if txs != [] {
      WithoutMore(txs[1..], gone, more);
      if txs[0].tx !in gone {
        assert ([txs[0]] + Without(txs[1..], gone))[1..] == Without(txs[1..], gone);
      }
    }
  }

  /** Removing one transaction by its position. */
  lemma WithoutOne(txs: seq<MemTx>, i: nat)
    requires Distinct(txs) && i < |txs|
    ensures Without(txs, {txs[i].tx}) == Removed(txs, i)
  {
    hide Without;
    SplitAt(txs, i);
    WithoutMiddle(txs[..i], txs[i], txs[i + 1..]);
  }

  lemma WithoutMiddle(a: seq<MemTx>, m: MemTx, c: seq<MemTx>)
    requires (forall x :: x in a ==> x.tx != m.tx) && (forall x :: x in c ==> x.tx != m.tx)
    ensures Without(a + ([m] + c), {m.tx}) == a + c
  {
    WithoutConcat(a, [m] + c, {m.tx});
    WithoutNone(a, {m.tx});
    WithoutNone(c, {m.tx});
    assert ([m] + c)[1..] == c;
  }

  lemma PositionAt(index: map<Tx, MemTx>, txs: seq<MemTx>, i: nat)
    requires Indexes(index, txs) && i < |txs|
    ensures Position(txs, txs[i].tx) == i
  {
    PositionIsFirst(txs, txs[i].tx);
  }

  // ----- rechecking a list -----

  /**
   * How far rechecking has come: the first m entries are dealt with, those in `gone` are out of the
   * list, the others are untouched, and the cursor is at entry m.
   */
  ghost predicate Progress(all: seq<MemTx>, txs: seq<MemTx>, r: Recheck, gone: set<Tx>, m: nat) {
    && m <= |all| && txs == Without(all[..m], gone) + all[m..]
    && r == (if m == |all| then Done else At(all[m].tx, all[|all| - 1].tx))
    && forall i :: m <= i < |all| ==> all[i].tx !in gone
  }

  lemma ProgressStarts(all: seq<MemTx>)
    requires all != []
    ensures Progress(all, all, At(all[0].tx, all[|all| - 1].tx), {}, 0)
  {
    assert all[..0] == [] && all[0..] == all;
  }

  lemma CursorStarts(index: map<Tx, MemTx>, txs: seq<MemTx>)
    requires Indexes(index, txs) && txs != []
    ensures RecheckOk(At(txs[0].tx, txs[|txs| - 1].tx), txs)
  {
    PositionAt(index, txs, 0);
  }

  /** Whatever was not rechecked stays. */
  lemma ProgressEnds(all: seq<MemTx>, txs: seq<MemTx>, r: Recheck, gone: set<Tx>, m: nat)
    requires Progress(all, txs, r, gone, m)
    ensures txs == Without(all, gone)
  {
    assert all == all[..m] + all[m..];
    WithoutConcat(all[..m], all[m..], gone);
    WithoutNone(all[m..], gone);
  }

  /** The dealt-with part of the list after one more response, for entry k. */
  lemma DealtWith(all: seq<MemTx>, gone: set<Tx>, m: nat, k: nat, ok: bool)
    requires Distinct(all) && m <= k < |all| && forall i :: m <= i < |all| ==> all[i].tx !in gone
    ensures var gone' := if ok then gone else gone + {all[k].tx};
            Without(all[..k + 1], gone') == Without(all[..m], gone) + all[m..k] + if ok then [all[k]] else []
  {
    var t := all[k].tx;
    var gone' := if ok then gone else gone + {t};
    assert all[..k + 1] == all[..m] + (all[m..k] + [all[k]]);
    WithoutConcat(all[..m], all[m..k] + [all[k]], gone');
    WithoutConcat(all[m..k], [all[k]], gone');
    WithoutNone(all[m..k], gone');
    assert [all[k]][1..] == [];
    if !ok {
      WithoutMore(all[..m], {t}, gone);
      WithoutNone(all[..m], {t});
      assert {t} + gone == gone + {t};
    }
  }

  /** A response for entry k, at or after entry m: the cursor finds it, and rechecking goes on from k + 1. */
  lemma ProgressStep(index: map<Tx, MemTx>, all: seq<MemTx>, txs: seq<MemTx>, r: Recheck, gone: set<Tx>, m: nat, k: nat, ok: bool)
    requires Distinct(all) && Indexes(index, txs) && Progress(all, txs, r, gone, m) && m <= k < |all|
    ensures var at := Position(txs, all[k].tx);
            && r.At? && Position(txs, r.cursor) <= at < |txs|
            && Progress(all, if ok then txs else Removed(txs, at),
                        if at + 1 == |txs| then Done else At(txs[at + 1].tx, r.end),
                        if ok then gone else gone + {all[k].tx}, k + 1)
  {
    hide Without, Position, Indexes, Distinct, Removed;
    var w := Without(all[..m], gone);
    var at := |w| + (k - m);
    assert txs[at] == all[k] && txs[|w|] == all[m];
    PositionAt(index, txs, at);
    PositionAt(index, txs, |w|);
    DealtWith(all, gone, m, k, ok);
    OneTaken(w, all, m, k);
    NoneLater(all, gone, m, k);
    if k + 1 < |all| {
      assert txs[at + 1] == all[k + 1];
    }
  }

  lemma NoneLater(all: seq<MemTx>, gone: set<Tx>, m: nat, k: nat)
    requires Distinct(all) && m <= k < |all| && forall i :: m <= i < |all| ==> all[i].tx !in gone
    ensures forall i :: k + 1 <= i < |all| ==> all[i].tx !in gone + {all[k].tx}
  {
  }

  /** Entry k of the whole list, behind what is left of the first m entries. */
  lemma OneTaken(w: seq<MemTx>, all: seq<MemTx>, m: nat, k: nat)
    requires m <= k < |all|
    ensures var txs, at := w + all[m..], |w| + (k - m);
            txs == w + all[m..k] + [all[k]] + all[k + 1..] && Removed(txs, at) == w + all[m..k] + [] + all[k + 1..]
  {
    var txs, at := w + all[m..], |w| + (k - m);
    assert all[m..] == all[m..k] + [all[k]] + all[k + 1..];
    assert txs[..at] == w + all[m..k] && txs[at + 1..] == all[k + 1..];
  }

  class CListMempool {
    const config: Config
    var txs: seq<MemTx>
    var txsMap: map<Tx, MemTx>
    var txsBytes: int
    var cache: set<Tx>
    var height: int
    var recheck: Recheck
    var recheckFull: bool
    var numPending: int

    /** Index, list and counter agree, both limits hold, and the cursor is in the list. */
    ghost predicate Valid()
      reads this
    {
      && Indexes(txsMap, txs) && txsBytes == Bytes(txs)
      && |txs| <= config.size && txsBytes <= config.maxTxsBytes
      && RecheckOk(recheck, txs)
    }

    constructor (config: Config, height: int)
      requires config.size >= 0 && config.maxTxsBytes >= 0
      ensures Valid() && txs == [] && recheck == Done && this.config == config
    {
      this.config := config;
      txs, txsMap, txsBytes, cache := [], map[], 0, {};
      this.height, recheck, recheckFull, numPending := height, Done, false, 0;
    }

    predicate IsFull(txSize: nat)
      reads this
    {
      |txs| >= config.size || txSize + txsBytes > config.maxTxsBytes || recheckFull
    }

    method AddTx(m: MemTx)
      requires Valid() && recheck == Done && !IsFull(m.tx.size) && m.tx !in txsMap
      modifies this`txs, this`txsMap, this`txsBytes
      ensures Valid() && txs == old(txs) + [m]
    {
      BytesAppended(txs, m);
      Appended(txsMap, txs, m);
      hide Bytes, Indexes;
      txs := txs + [m];
      txsMap := txsMap[m.tx := m];
      txsBytes := txsBytes + m.tx.size;
    }

    /** RemoveTxByKey. Rechecking goes on only if the cursor and the end are not what is removed. */
    method RemoveTxByKey(tx: Tx) returns (ok: bool)
      requires Valid() && (recheck.At? ==> tx != recheck.cursor && tx != recheck.end)
      modifies this`txs, this`txsMap, this`txsBytes
      ensures Valid() && ok == (tx in old(txsMap))
      ensures ok ==> Position(old(txs), tx) < |old(txs)| && txs == Removed(old(txs), Position(old(txs), tx))
      ensures !ok ==> txs == old(txs) && Position(txs, tx) == |txs|
    {
      ok := tx in txsMap;
      hide Bytes, Indexes, Position, RecheckOk, Removed;
      Listed(txsMap, txs, tx);
      if ok {
        var i := Position(txs, tx);
        TakesOut(txsMap, txs, recheck, i);
        txsBytes := txsBytes - txsMap[tx].tx.size;
        txs := Removed(txs, i);
        txsMap := txsMap - {tx};
      }
    }

    /**
     * findNextEntryMatching: moves the cursor behind the matching entry, or ends the recheck there. It
     * dereferences nil exactly when no entry from the cursor on matches.
     */
    method FindNextEntryMatching(tx: Tx) returns (found: bool, panicked: bool)
      requires Valid()
      modifies this`recheck, this`recheckFull, this`numPending
      ensures old(recheck).Done? ==> !found && !panicked && recheck.Done?
      ensures old(recheck).At? ==>
                var from, k := Position(txs, old(recheck).cursor), Position(txs, tx);
                && (panicked <==> !(from <= k < |txs|))
                && (!panicked ==> found && recheck == if k + 1 == |txs| then Done else At(txs[k + 1].tx, old(recheck).end))
      ensures !panicked ==> Valid()
    {
      found, panicked := false, false;
      if recheck.Done? { return; }
      hide Bytes, Indexes, Position;
      var i;
      panicked, i := WalkTo(tx);
      if panicked { return; }
      found := true;
      numPending := numPending - 1;
      TryFinish(i);
    }

    /** The loop of findNextEntryMatching. */
    method WalkTo(tx: Tx) returns (panicked: bool, i: nat)
      requires Valid() && recheck.At?
      modifies this`recheck
      ensures panicked <==> !(Position(txs, old(recheck).cursor) <= Position(txs, tx) < |txs|)
      ensures !panicked ==> i == Position(txs, tx) < |txs| && recheck == At(tx, old(recheck).end)
    {
      ghost var from, end := Position(txs, recheck.cursor), recheck.end;
      i := Position(txs, recheck.cursor);
      assert i < |txs| && Indexes(txsMap, txs);
      hide Valid, Indexes, Position, RecheckOk;
      while recheck.cursor != tx
        invariant from <= i < |txs| && recheck == At(txs[i].tx, end)
        invariant forall j :: from <= j < i ==> txs[j].tx != tx
        decreases |txs| - i
      {
        if i + 1 == |txs| {
          assert forall j :: from <= j < |txs| ==> txs[j].tx != tx;
          return true, i;
        }
        i := i + 1;
        recheck := At(txs[i].tx, recheck.end);
      }
      PositionAt(txsMap, txs, i);
      return false, i;
    }

    /** tryFinish, and setNextEntry if there is more to come; the cursor is at position i. */
    method TryFinish(i: nat)
      requires Valid() && i < |txs| && recheck.At? && recheck.cursor == txs[i].tx
      modifies this`recheck, this`recheckFull
      ensures Valid() && recheck == if i + 1 == |txs| then Done else At(txs[i + 1].tx, old(recheck).end)
    {
      PositionAt(txsMap, txs, |txs| - 1);
      PositionAt(txsMap, txs, i);
      if i + 1 < |txs| { PositionAt(txsMap, txs, i + 1); }
      hide Bytes, Indexes, Position;
      if recheck.cursor == recheck.end {
        recheckFull := false;
        recheck := Done;
      } else {
        recheck := At(txs[i + 1].tx, recheck.end);
      }
    }

    /** resCbRecheck: an entry that the application rejects is removed, after the cursor has passed it. */
    method ResCbRecheck(r: Response) returns (panicked: bool)
      requires Valid() && recheck.At?
      modifies this`recheck, this`recheckFull, this`numPending, this`txs, this`txsMap, this`txsBytes, this`cache
      ensures panicked <==> !(Position(old(txs), old(recheck).cursor) <= Position(old(txs), r.tx) < |old(txs)|)
      ensures !panicked ==> Valid()
      ensures !panicked ==>
                var k := Position(old(txs), r.tx);
                && txs == (if r.ok then old(txs) else Removed(old(txs), k))
                && recheck == if k + 1 == |old(txs)| then Done else At(old(txs)[k + 1].tx, old(recheck).end)
      ensures !panicked ==> cache == if !r.ok && !config.keepInvalidTxsInCache then old(cache) - {r.tx} else old(cache)
    {
      hide Bytes, Indexes, Position;
      var found;
      found, panicked := FindNextEntryMatching(r.tx);
      if panicked || !found { return; }
      if !r.ok {
        Listed(txsMap, txs, r.tx);
        NotCursor(txsMap, txs, r.tx);
        var _ := RemoveTxByKey(r.tx);
        if !config.keepInvalidTxsInCache {
          cache := cache - {r.tx};
        }
      }
    }

    /**
     * recheckTxs, with the responses that arrive in time. When they are in the order of the list, the
     * cursor never passes its end, and exactly the rejected transactions go.
     */
    method RecheckTxs(rs: seq<Response>)
      requires Valid() && recheck == Done && InOrder(rs, txs, 0)
      modifies this`recheck, this`recheckFull, this`numPending, this`txs, this`txsMap, this`txsBytes, this`cache
      ensures Valid() && recheck == Done && txs == Without(old(txs), Rejects(rs))
    {
      hide Bytes, Indexes, Position, Progress, Without, Rejects, InOrder;
      NothingRejected();
      if |txs| == 0 {
        NoResponses(rs, txs);
        return;
      }
      ghost var all, m := txs, 0;
      assert Distinct(all) by { IsDistinct(txsMap, txs); }
      BeginRecheck();
      assert rs[0..] == rs;
      var i := 0;
      while i < |rs|
        invariant 0 <= i <= |rs| && m <= |all| && InOrder(rs[i..], all, m) && Distinct(all)
        invariant Valid() && Progress(all, txs, recheck, Rejects(rs[..i]), m)
      {
        hide Valid, Distinct;
        ghost var k := NextResponse(rs, i, all, m);
        RejectsNext(rs, i);
        HandleResponse(rs[i], all, Rejects(rs[..i]), m, k);
        m := k + 1;
        i := i + 1;
      }
      assert rs[..i] == rs;
      ProgressEnds(all, txs, recheck, Rejects(rs), m);
      recheckFull := false;
      recheck := Done;
    }

    /** recheck.init for a list that is not empty. */
    method BeginRecheck()
      requires Valid() && recheck == Done && |txs| > 0
      modifies this`recheck, this`numPending
      ensures Valid() && Progress(txs, txs, recheck, {}, 0)
    {
      hide Bytes, Indexes, Position, Progress;
      ProgressStarts(txs);
      CursorStarts(txsMap, txs);
      hide RecheckOk;
      recheck := At(txs[0].tx, txs[|txs| - 1].tx);
      numPending := |txs|;
    }

    method HandleResponse(r: Response, ghost all: seq<MemTx>, ghost gone: set<Tx>, ghost m: nat, ghost k: nat)
      requires Valid() && Distinct(all) && Progress(all, txs, recheck, gone, m) && m <= k < |all| && r.tx == all[k].tx
      modifies this`recheck, this`recheckFull, this`numPending, this`txs, this`txsMap, this`txsBytes, this`cache
      ensures Valid() && Progress(all, txs, recheck, if r.ok then gone else gone + {r.tx}, k + 1)
    {
      ProgressStep(txsMap, all, txs, recheck, gone, m, k, r.ok);
      hide Bytes, Indexes, Position, Progress, Removed;
      var panicked := ResCbRecheck(r);
    }

    /** Update for a committed block: its transactions go, whoever proposed them, and the rest is rechecked. */
    method Update(h: int, committed: seq<Response>, rs: seq<Response>)
      requires Valid() && recheck == Done
      requires config.recheck ==> InOrder(rs, Without(txs, Named(committed)), 0)
      modifies this
      ensures Valid() && recheck == Done && height == h
      ensures var left := Without(old(txs), Named(committed));
              txs == if config.recheck then Without(left, Rejects(rs)) else left
    {
      hide Bytes, Indexes, InOrder, Rejects;
      height := h;
      ghost var all := txs;
      assert Named(committed[..0]) == {} && Without(all, {}) == all by { WithoutNone(all, {}); }
      hide Without, Named;
      var i := 0;
      while i < |committed|
        invariant 0 <= i <= |committed| && Valid() && recheck == Done && height == h
        invariant txs == Without(all, Named(committed[..i]))
      {
        var tx := committed[i].tx;
        if committed[i].ok {
          cache := cache + {tx};
        } else if !config.keepInvalidTxsInCache {
          cache := cache - {tx};
        }
        NamedNext(committed, i);
        WithoutMore(all, Named(committed[..i]), {tx});
        RemovedIsWithout(txsMap, txs, tx);
        Listed(txsMap, txs, tx);
        hide Position;
        var _ := RemoveTxByKey(tx);
        i := i + 1;
      }
      assert committed[..i] == committed;
      if config.recheck {
        RecheckTxs(rs);
      }
    }

    /**
     * ReapMaxBytesMaxGas: the longest prefix of the list all of whose prefixes stay within both limits;
     * a negative limit does not count.
     */
    method ReapMaxBytesMaxGas(protoSize: Tx -> nat, maxBytes: int, maxGas: int) returns (reaped: seq<Tx>)
      ensures |reaped| <= |txs| && forall i :: 0 <= i < |reaped| ==> reaped[i] == txs[i].tx
      ensures forall k :: 0 < k <= |reaped| ==> Fits(protoSize, txs[..k], maxBytes, maxGas)
      ensures |reaped| < |txs| ==> !Fits(protoSize, txs[..|reaped| + 1], maxBytes, maxGas)
    {
      reaped := [];
      var totalGas, runningSize := 0, 0;
      var i := 0;
      while i < |txs|
        invariant 0 <= i <= |txs| && |reaped| == i && forall j :: 0 <= j < i ==> reaped[j] == txs[j].tx
        invariant runningSize == ProtoSize(protoSize, txs[..i]) && totalGas == Gas(txs[..i])
        invariant forall k :: 0 < k <= i ==> Fits(protoSize, txs[..k], maxBytes, maxGas)
      {
        var m := txs[i];
        assert txs[..i + 1][..i] == txs[..i];
        reaped := reaped + [m.tx];
        var dataSize := protoSize(m.tx);
        if maxBytes > -1 && runningSize + dataSize > maxBytes {
          return reaped[..|reaped| - 1];
        }
        runningSize := runningSize + dataSize;
        var newTotalGas := totalGas + m.gasWanted;
        if maxGas > -1 && newTotalGas > maxGas {
          return reaped[..|reaped| - 1];
        }
        totalGas := newTotalGas;
        i := i + 1;
      }
    }

    /** resCbFirstTime: a new transaction that the application accepts. */
    method ResCbFirstTime(tx: Tx, accepted: bool, gasWanted: int)
      requires Valid() && recheck == Done
      modifies this`txs, this`txsMap, this`txsBytes, this`cache
      ensures Valid()
      ensures txs == if accepted && !old(IsFull(tx.size)) && Position(old(txs), tx) == |old(txs)|
                     then old(txs) + [MemTx(tx, gasWanted, height)] else old(txs)
      ensures cache == if (if accepted then old(IsFull(tx.size)) else !config.keepInvalidTxsInCache)
                       then old(cache) - {tx} else old(cache)
    {
      Listed(txsMap, txs, tx);
      hide Bytes, Indexes, Position;
      if accepted {
        if IsFull(tx.size) {
          cache := cache - {tx};
          return;
        }
        if tx in txsMap { return; }
        AddTx(MemTx(tx, gasWanted, height));
      } else if !config.keepInvalidTxsInCache {
        cache := cache - {tx};
      }
    }
  }

  function ProtoSize(protoSize: Tx -> nat, txs: seq<MemTx>): nat {
    if txs == [] then 0 else ProtoSize(protoSize, txs[..|txs| - 1]) + protoSize(txs[|txs| - 1].tx)
  }

  function Gas(txs: seq<MemTx>): int {
    if txs == [] then 0 else Gas(txs[..|txs| - 1]) + txs[|txs| - 1].gasWanted
  }

  predicate Fits(protoSize: Tx -> nat, txs: seq<MemTx>, maxBytes: int, maxGas: int) {
    (maxBytes > -1 ==> ProtoSize(protoSize, txs) <= maxBytes) && (maxGas > -1 ==> Gas(txs) <= maxGas)
  }

  /** The transactions of a block. */
  function Named(committed: seq<Response>): set<Tx> {
    set r | r in committed :: r.tx
  }

  lemma NamedNext(committed: seq<Response>, i: nat)
    requires i < |committed|
    ensures Named(committed[..i + 1]) == Named(committed[..i]) + {committed[i].tx}
  {
    assert committed[..i + 1] == committed[..i] + [committed[i]];
  }

  lemma RemovedIsWithout(index: map<Tx, MemTx>, txs: seq<MemTx>, tx: Tx)
    requires Indexes(index, txs)
    ensures Without(txs, {tx}) == if Position(txs, tx) < |txs| then Removed(txs, Position(txs, tx)) else txs
  {
    PositionIsFirst(txs, tx);
    if Position(txs, tx) < |txs| {
      WithoutOne(txs, Position(txs, tx));
    } else {
      WithoutNone(txs, {tx});
    }
  }

  lemma NothingRejected()
    ensures Rejects([]) == {}
    ensures Without([], {}) == []
  {
  }

  lemma IsDistinct(index: map<Tx, MemTx>, txs: seq<MemTx>)
    requires Indexes(index, txs)
    ensures Distinct(txs)
  {
  }

  lemma NoResponses(rs: seq<Response>, txs: seq<MemTx>)
    requires txs == [] && InOrder(rs, txs, 0)
    ensures rs == []
  {
  }

  lemma NextResponse(rs: seq<Response>, i: nat, all: seq<MemTx>, m: nat) returns (k: nat)
    requires i < |rs| && m <= |all| && InOrder(rs[i..], all, m)
    ensures m <= k < |all| && rs[i].tx == all[k].tx && InOrder(rs[i + 1..], all, k + 1)
  {
    k := Position(all, rs[i].tx);
    assert rs[i..][1..] == rs[i + 1..];
  }

  lemma RejectsNext(rs: seq<Response>, i: nat)
    requires i < |rs|
    ensures Rejects(rs[..i + 1]) == if rs[i].ok then Rejects(rs[..i]) else Rejects(rs[..i]) + {rs[i].tx}
  {
    assert rs[..i + 1] == rs[..i] + [rs[i]];
  }

  lemma NotCursor(index: map<Tx, MemTx>, txs: seq<MemTx>, tx: Tx)
    requires Indexes(index, txs) && Position(txs, tx) < |txs|
    ensures var k := Position(txs, tx);
            k + 1 < |txs| ==> txs[k + 1].tx != tx && txs[|txs| - 1].tx != tx
  {
  }

  lemma TakesOut(index: map<Tx, MemTx>, txs: seq<MemTx>, r: Recheck, i: nat)
    requires Indexes(index, txs) && RecheckOk(r, txs) && i < |txs|
    requires r.At? ==> txs[i].tx != r.cursor && txs[i].tx != r.end
    ensures Indexes(index - {txs[i].tx}, Removed(txs, i)) && RecheckOk(r, Removed(txs, i))
    ensures Bytes(Removed(txs, i)) == Bytes(txs) - txs[i].tx.size && |Removed(txs, i)| == |txs| - 1
  {
    BytesRemoved(txs, i);
    RemovedKeeps(index, txs, i);
    if r.At? {
      CursorStays(r, txs, i);
    }
    hide Bytes, Position;
  }

  /** Taking out an entry that is neither the cursor nor the end. */
  lemma CursorStays(r: Recheck, txs: seq<MemTx>, i: nat)
    requires Distinct(txs) && RecheckOk(r, txs) && r.At? && i < |txs| && txs[i].tx != r.cursor && txs[i].tx != r.end
    ensures RecheckOk(r, Removed(txs, i))
  {
    var c, rest := Position(txs, r.cursor), Removed(txs, i);
    PositionIsFirst(rest, r.cursor);
    assert rest[if c < i then c else c - 1].tx == r.cursor;
    assert rest[|rest| - 1] == txs[|txs| - 1];
  }
}
