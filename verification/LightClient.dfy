/**
 * Skipping and sequential verification of the light client (light/client.go): that they terminate
 * on every validator-set history, what their traces are, and that they accept the same headers.
 */
module LightClient {
  import opened LightVerifier

  /** What a provider answers to a request for the block of some height. */
  datatype Reply = Found(block: LightBlock) | Benign | Malevolent

  /** A provider that answers has a block of the height it was asked for. */
  ghost predicate Answers(source: int -> Reply) {
    forall h :: source(h).Found? ==> source(h).block.header.height == h
  }

  datatype Outcome =
    | Verified(trace: seq<LightBlock>)
    | Failed(from: int, to: int, reason: Result)
    | CantBeTrusted
    | BadProvider(from: int, to: int)

  /** The height to try next, nine sixteenths of the way up. */
  function Pivot(low: int, high: int): (p: int)
    requires high > low + 1
    ensures low < p < high
  {
    low + (high - low) * 9 / 16
  }

  // ----- the simple form -----

  /** Blocks to verify, from the target down to the lowest one fetched; each was fetched once. */
  ghost predicate Descending(cache: seq<LightBlock>, low: int) {
    && |cache| > 0
    && (forall i, j :: 0 <= i < j < |cache| ==> cache[j].header.height < cache[i].header.height)
    && forall i :: 1 <= i < |cache| ==> cache[i].header.height > low
  }

  /**
   * Bisection with a cache that holds every block once: try from the target down; when a block can be
   * verified start over above it, and when none can fetch one below the last.
   */
  ghost function Bisect(source: int -> Reply, trace: seq<LightBlock>, cache: seq<LightBlock>, depth: nat, o: Options, now: int): Outcome
    requires Answers(source) && |trace| > 0 && depth < |cache|
    requires Descending(cache, trace[|trace| - 1].header.height)
    decreases cache[0].header.height - trace[|trace| - 1].header.height,
              cache[|cache| - 1].header.height - trace[|trace| - 1].header.height,
              |cache| - depth
  {
    var v := trace[|trace| - 1];
    var low := v.header.height;
    var r := Verify(v, cache[depth], o, now);
    if r == Ok then
      if depth == 0 then Verified(trace + [cache[0]])
      else Bisect(source, trace + [cache[depth]], cache[..depth], 0, o, now)
    else if r != NewValSetCantBeTrusted then Failed(low, cache[depth].header.height, r)
    else if depth < |cache| - 1 then Bisect(source, trace, cache, depth + 1, o, now)
    else
      var p := Pivot(low, cache[depth].header.height);
      match source(p)
      case Found(b) => Bisect(source, trace, cache + [b], depth + 1, o, now)
      case Benign => CantBeTrusted
      case Malevolent => BadProvider(low, p)
  }

  // ----- the cache of the source, which appends every fetched block twice -----

  function Doubled(cache: seq<LightBlock>): (d: seq<LightBlock>)
    requires |cache| > 0
    ensures |d| == 2 * |cache| - 1
  {
    if |cache| == 1 then cache
    else Doubled(cache[..|cache| - 1]) + [cache[|cache| - 1], cache[|cache| - 1]]
  }

  lemma {:induction false} DoubledAt(cache: seq<LightBlock>, i: nat)
    requires i < |cache|
    ensures Doubled(cache)[2 * i] == cache[i] && (i > 0 ==> Doubled(cache)[2 * i - 1] == cache[i])
    ensures i > 0 ==> Doubled(cache)[..2 * i - 1] == Doubled(cache[..i])
  {
    var n := |cache| - 1;
    if 0 < i {
      if i < n {
        DoubledAt(cache[..n], i);
        assert cache[..n][..i] == cache[..i];
        assert Doubled(cache)[..2 * i - 1] == Doubled(cache[..n])[..2 * i - 1];
      } else {
        assert cache[..i] == cache[..n];
      }
    } else if n > 0 {
      DoubledAt(cache[..n], 0);
    }
  }

  // One turn of the simple form.

  lemma StartsOver(source: int -> Reply, trace: seq<LightBlock>, cache: seq<LightBlock>, depth: nat, o: Options, now: int)
    requires Answers(source) && |trace| > 0 && 0 < depth < |cache|
    requires Descending(cache, trace[|trace| - 1].header.height)
    requires Verify(trace[|trace| - 1], cache[depth], o, now) == Ok
    ensures Descending(cache[..depth], cache[depth].header.height)
    ensures cache[depth].header.height < cache[0].header.height
    ensures Bisect(source, trace, cache, depth, o, now)
         == Bisect(source, trace + [cache[depth]], cache[..depth], 0, o, now)
  {
    hide Verify;
  }

  lemma Fetches(source: int -> Reply, trace: seq<LightBlock>, cache: seq<LightBlock>, o: Options, now: int, p: int)
    requires Answers(source) && |trace| > 0 && |cache| > 0
    requires Descending(cache, trace[|trace| - 1].header.height)
    requires Verify(trace[|trace| - 1], cache[|cache| - 1], o, now) == NewValSetCantBeTrusted
    requires p == Pivot(trace[|trace| - 1].header.height, cache[|cache| - 1].header.height)
    ensures Bisect(source, trace, cache, |cache| - 1, o, now)
         == match source(p)
            case Found(b) =>
              assert Descending(cache + [b], trace[|trace| - 1].header.height);
              Bisect(source, trace, cache + [b], |cache|, o, now)
            case Benign => CantBeTrusted
            case Malevolent => BadProvider(trace[|trace| - 1].header.height, p)
  {
    hide Verify;
  }

  lemma GoesDeeper(source: int -> Reply, trace: seq<LightBlock>, cache: seq<LightBlock>, depth: nat, o: Options, now: int)
    requires Answers(source) && |trace| > 0 && depth < |cache| - 1
    requires Descending(cache, trace[|trace| - 1].header.height)
    requires Verify(trace[|trace| - 1], cache[depth], o, now) == NewValSetCantBeTrusted
    ensures Bisect(source, trace, cache, depth, o, now) == Bisect(source, trace, cache, depth + 1, o, now)
  {
    hide Verify;
  }

  lemma DoubledAppend(cache: seq<LightBlock>, b: LightBlock)
    requires |cache| > 0
    ensures Doubled(cache + [b]) == Doubled(cache) + [b] + [b]
  {
    assert (cache + [b])[..|cache|] == cache;
  }

  /** Where the loop is: its cache doubles that of the simple form, which still has the same result to come. */
  datatype Loop = Loop(trace: seq<LightBlock>, blockCache: seq<LightBlock>, depth: nat, once: seq<LightBlock>, at: nat)

  ghost predicate Follows(source: int -> Reply, l: Loop, out: Outcome, o: Options, now: int)
    requires Answers(source)
  {
    && |l.trace| > 0 && l.at < |l.once|
    && var v := l.trace[|l.trace| - 1];
       && Descending(l.once, v.header.height)
       && l.blockCache == Doubled(l.once) && (l.depth == 2 * l.at || l.depth == 2 * l.at - 1)
       && l.blockCache[l.depth] == l.once[l.at]
       && (0 < l.depth == 2 * l.at ==> Verify(v, l.once[l.at], o, now) == NewValSetCantBeTrusted)
       && Bisect(source, l.trace, l.once, l.at, o, now) == out
  }

  lemma FollowsUp(source: int -> Reply, l: Loop, out: Outcome, o: Options, now: int)
    requires Answers(source) && Follows(source, l, out, o, now) && l.depth > 0
    requires Verify(l.trace[|l.trace| - 1], l.blockCache[l.depth], o, now) == Ok
    ensures var l' := Loop(l.trace + [l.blockCache[l.depth]], l.blockCache[..l.depth], 0, l.once[..l.at], 0);
            Follows(source, l', out, o, now) && l'.once[0] == l.once[0] && l.once[l.at].header.height < l.once[0].header.height
  {
    hide Verify, Bisect, Doubled;
    StartsOver(source, l.trace, l.once, l.at, o, now);
    DoubledAt(l.once, l.at);
    DoubledAt(l.once[..l.at], 0);
  }

  lemma FollowsDown(source: int -> Reply, l: Loop, out: Outcome, o: Options, now: int)
    requires Answers(source) && Follows(source, l, out, o, now) && l.depth < |l.blockCache| - 1
    requires Verify(l.trace[|l.trace| - 1], l.blockCache[l.depth], o, now) == NewValSetCantBeTrusted
    ensures Follows(source, l.(depth := l.depth + 1, at := if l.depth == 2 * l.at then l.at + 1 else l.at), out, o, now)
  {
    hide Verify, Bisect, Doubled;
    if l.depth == 2 * l.at {
      GoesDeeper(source, l.trace, l.once, l.at, o, now);
      DoubledAt(l.once, l.at + 1);
    } else {
      DoubledAt(l.once, l.at);
    }
  }

  lemma FollowsFetch(source: int -> Reply, l: Loop, out: Outcome, o: Options, now: int, p: int)
    requires Answers(source) && Follows(source, l, out, o, now) && l.depth == |l.blockCache| - 1
    requires Verify(l.trace[|l.trace| - 1], l.blockCache[l.depth], o, now) == NewValSetCantBeTrusted
    requires p == Pivot(l.trace[|l.trace| - 1].header.height, l.blockCache[l.depth].header.height)
    ensures match source(p)
            case Found(b) =>
              Follows(source, Loop(l.trace, l.blockCache + [b] + [b], l.depth + 1, l.once + [b], l.at + 1), out, o, now)
            case Benign => out == CantBeTrusted
            case Malevolent => out == BadProvider(l.trace[|l.trace| - 1].header.height, p)
  {
    hide Verify, Bisect, Doubled;
    Fetches(source, l.trace, l.once, o, now, p);
    if source(p).Found? {
      DoubledAppend(l.once, source(p).block);
      DoubledAt(l.once + [source(p).block], l.at + 1);
    }
  }

  lemma FollowsEnd(source: int -> Reply, l: Loop, out: Outcome, o: Options, now: int)
    requires Answers(source) && Follows(source, l, out, o, now)
    ensures |l.trace| > 0 && l.at < |l.once| && l.depth < |l.blockCache|
    ensures l.blockCache[l.depth] == l.once[l.at] && (l.depth == |l.blockCache| - 1 ==> l.at == |l.once| - 1)
    ensures var v := l.trace[|l.trace| - 1];
            var r := Verify(v, l.blockCache[l.depth], o, now);
            && (r == Ok && l.depth == 0 ==> out == Verified(l.trace + [l.once[0]]))
            && (r != Ok && r != NewValSetCantBeTrusted ==> out == Failed(v.header.height, l.blockCache[l.depth].header.height, r))
  {
    hide Verify, Doubled;
  }

  lemma StartFollows(source: int -> Reply, trusted: LightBlock, target: LightBlock, o: Options, now: int)
    requires Answers(source)
    ensures Follows(source, Loop([trusted], [target], 0, [target], 0), Bisect(source, [trusted], [target], 0, o, now), o, now)
  {
    hide Bisect, Verify;
  }

  /**
   * verifySkipping. The second copy of a block is only ever tried right after the first has failed
   * against the same verified block, so it fails again: the result is that of the simple form.
   */
  method VerifySkipping(source: int -> Reply, trusted: LightBlock, target: LightBlock, o: Options, now: int) returns (out: Outcome)
    requires Answers(source)
    ensures out == Bisect(source, [trusted], [target], 0, o, now)
  {
    var blockCache := [target];
    var depth := 0;
    var verified := trusted;
    var trace := [trusted];
    ghost var once, at := [target], 0;
    assert Descending(once, trusted.header.height);
    ghost var goal := Bisect(source, [trusted], [target], 0, o, now);
    hide Verify, Bisect, Follows, Descending, Pivot, Doubled, Answers;
    assert Follows(source, Loop(trace, blockCache, depth, once, at), goal, o, now) by {
      StartFollows(source, trusted, target, o, now);
    }
    while true
      invariant |trace| > 0 && verified == trace[|trace| - 1] && |once| > 0 && once[0] == target
      invariant Follows(source, Loop(trace, blockCache, depth, once, at), goal, o, now)
      decreases target.header.height - verified.header.height,
                once[|once| - 1].header.height - verified.header.height,
                |blockCache| - depth
    {
      ghost var l := Loop(trace, blockCache, depth, once, at);
      FollowsEnd(source, l, goal, o, now);
      var r := Verify(verified, blockCache[depth], o, now);
      if r == Ok {
        if depth == 0 {
          return Verified(trace + [target]);
        }
        FollowsUp(source, l, goal, o, now);
        verified := blockCache[depth];
        blockCache := blockCache[..depth];
        depth := 0;
        trace := trace + [verified];
        once, at := once[..at], 0;
      } else if r == NewValSetCantBeTrusted {
        if depth == |blockCache| - 1 {
          var low := verified.header.height;
          var pivot := Pivot(low, blockCache[depth].header.height);
          FollowsFetch(source, l, goal, o, now, pivot);
          match source(pivot) {
            case Found(interim) =>
              blockCache := blockCache + [interim];
              blockCache := blockCache + [interim];
              once, at := once + [interim], at + 1;
            case Benign => return CantBeTrusted;
            case Malevolent => return BadProvider(low, pivot);
          }
        } else {
          FollowsDown(source, l, goal, o, now);
          at := if depth == 2 * at then at + 1 else at;
        }
        depth := depth + 1;
      } else {
        return Failed(verified.header.height, blockCache[depth].header.height, r);
      }
    }
  }

  // ----- what the traces are -----

  /** A block of the target's cache, or one that the provider gave. */
  ghost predicate Known(source: int -> Reply, trace: seq<LightBlock>, cache: seq<LightBlock>, b: LightBlock) {
    b in trace || b in cache || source(b.header.height) == Found(b)
  }

  /** The turn of the simple form that follows, if there is one. */
  lemma {:induction false} BisectTrace(source: int -> Reply, trace: seq<LightBlock>, cache: seq<LightBlock>, depth: nat, o: Options, now: int)
    requires Answers(source) && |trace| > 0 && depth < |cache|
    requires Descending(cache, trace[|trace| - 1].header.height) && IsTrace(trace, o, now)
    ensures var out := Bisect(source, trace, cache, depth, o, now);
            out.Verified? ==>
              && IsTrace(out.trace, o, now) && trace < out.trace && out.trace[|out.trace| - 1] == cache[0]
              && forall b :: b in out.trace ==> Known(source, trace, cache, b)
    decreases cache[0].header.height - trace[|trace| - 1].header.height,
              cache[|cache| - 1].header.height - trace[|trace| - 1].header.height,
              |cache| - depth
  {
    hide Verify;
    var v := trace[|trace| - 1];
    var r := Verify(v, cache[depth], o, now);
    if r == Ok {
      if depth > 0 {
        StartsOver(source, trace, cache, depth, o, now);
        BisectTrace(source, trace + [cache[depth]], cache[..depth], 0, o, now);
      }
    } else if r == NewValSetCantBeTrusted {
      if depth < |cache| - 1 {
        BisectTrace(source, trace, cache, depth + 1, o, now);
      } else {
        var p := Pivot(v.header.height, cache[depth].header.height);
        if source(p).Found? {
          BisectTrace(source, trace, cache + [source(p).block], depth + 1, o, now);
        }
      }
    }
  }

  /** Nobody can sign for a correct validator, whatever a provider answers. */
  ghost predicate Unforgeable(w: World, source: int -> Reply) {
    forall h :: source(h).Found? ==> Authentic(w, source(h).block)
  }

  /**
   * Skipping soundness: from a canonical block, a verified trace holds canonical blocks only, with
   * strictly increasing heights and times, and ends at the target.
   */
  lemma SkippingIsSound(w: World, source: int -> Reply, trusted: LightBlock, target: LightBlock, o: Options, now: int)
    requires Answers(source) && Assumptions(w, o, now) && Unforgeable(w, source)
    requires Canonical(w, trusted) && Authentic(w, trusted) && Authentic(w, target)
    ensures var out := Bisect(source, [trusted], [target], 0, o, now);
            out.Verified? ==>
              && |out.trace| > 0 && out.trace[0] == trusted && out.trace[|out.trace| - 1] == target
              && (forall i :: 0 <= i < |out.trace| ==> Canonical(w, out.trace[i]))
              && (forall i, j :: 0 <= i < j < |out.trace| ==>
                    out.trace[i].header.height < out.trace[j].header.height && out.trace[i].header.time < out.trace[j].header.time)
  {
    var out := Bisect(source, [trusted], [target], 0, o, now);
    BisectTrace(source, [trusted], [target], 0, o, now);
    hide Bisect, Assumptions, Canonical, IsTrace;
    if out.Verified? {
      forall k | 0 <= k < |out.trace| ensures Authentic(w, out.trace[k]) {
        assert Known(source, [trusted], [target], out.trace[k]);
      }
      hide Authentic;
      TraceFacts(w, out.trace, o, now);
    }
  }

  lemma TraceFacts(w: World, trace: seq<LightBlock>, o: Options, now: int)
    requires Assumptions(w, o, now) && IsTrace(trace, o, now) && Canonical(w, trace[0])
    requires forall k :: 0 <= k < |trace| ==> Authentic(w, trace[k])
    ensures forall i :: 0 <= i < |trace| ==> Canonical(w, trace[i])
    ensures forall i, j :: 0 <= i < j < |trace| ==>
              trace[i].header.height < trace[j].header.height && trace[i].header.time < trace[j].header.time
  {
    forall i | 0 <= i < |trace| ensures Canonical(w, trace[i]) {
      TraceIsCanonical(w, trace, o, now, i);
    }
    forall i, j | 0 <= i < j < |trace|
      ensures trace[i].header.height < trace[j].header.height && trace[i].header.time < trace[j].header.time
    {
      TraceIncreases(trace, o, now, i, j);
    }
  }

  // ----- sequential verification -----

  /** Consecutive heights, each block verified against the one before it. */
  ghost predicate IsAdjacentTrace(trace: seq<LightBlock>, o: Options, now: int) {
    |trace| > 0 && forall i :: 0 <= i < |trace| - 1 ==> VerifyAdjacent(trace[i], trace[i + 1], o, now) == Ok
  }

  /**
   * verifySequential. A primary that does not give a block is replaced by a witness that does. One that
   * sends an invalid block is replaced by a witness that has the same target, and the height is tried
   * again. `sources[k]` is the primary after k replacements and `replacements[k]` its block of the
   * target's height, if it gives one.
   */
  method VerifySequential(sources: seq<int -> Reply>, replacements: seq<Reply>, trusted: LightBlock, target: LightBlock, o: Options, now: int)
    returns (out: Outcome)
    requires |sources| == |replacements| > 0 && forall k :: 0 <= k < |sources| ==> Answers(sources[k])
    ensures out.Verified? ==>
              && IsAdjacentTrace(out.trace, o, now) && out.trace[0] == trusted
              && (trusted.header.height < target.header.height ==> out.trace[|out.trace| - 1] == target)
              && forall i :: 1 <= i < |out.trace| ==>
                   out.trace[i] == target || exists k :: 0 <= k < |sources| && sources[k](out.trace[i].header.height) == Found(out.trace[i])
  {
    hide VerifyAdjacent;
    var verified := trusted;
    var trace := [trusted];
    var height := trusted.header.height + 1;
    var k := 0;
    while height <= target.header.height
      invariant 0 <= k < |sources| && |trace| > 0 && verified == trace[|trace| - 1] && trace[0] == trusted
      invariant IsAdjacentTrace(trace, o, now)
      invariant height > target.header.height > trusted.header.height ==> verified == target
      invariant forall i :: 1 <= i < |trace| ==>
                  trace[i] == target || exists k :: 0 <= k < |sources| && sources[k](trace[i].header.height) == Found(trace[i])
      decreases |sources| - k, target.header.height - height
    {
      var interim := target;
      if height != target.header.height {
        var reply := sources[k](height);
        if !reply.Found? {
          if k + 1 == |sources| || !sources[k + 1](height).Found? { return BadProvider(verified.header.height, height); }
          k := k + 1;
          reply := sources[k](height);
        }
        interim := reply.block;
      }
      var r := VerifyAdjacent(verified, interim, o, now);
      if r != Ok {
        var failed := Failed(verified.header.height, interim.header.height, r);
        if r != InvalidHeader || interim.header.height == target.header.height { return failed; }
        if k + 1 == |sources| { return failed; }
        if !replacements[k + 1].Found? || replacements[k + 1].block.header != target.header { return failed; }
        k := k + 1;
      } else {
        verified := interim;
        trace := trace + [verified];
        height := height + 1;
      }
    }
    return Verified(trace);
  }

  /** The header that skipping verification accepts at a height is the one that sequential verification accepts there. */
  lemma SkippingAgreesWithSequential(w: World, skipped: seq<LightBlock>, walked: seq<LightBlock>, o: Options, now: int)
    requires Assumptions(w, o, now) && IsTrace(skipped, o, now) && IsAdjacentTrace(walked, o, now)
    requires Canonical(w, skipped[0]) && Canonical(w, walked[0])
    requires forall b :: b in skipped + walked ==> Authentic(w, b)
    requires skipped[|skipped| - 1].header.height == walked[|walked| - 1].header.height
    ensures skipped[|skipped| - 1].header == walked[|walked| - 1].header
    ensures skipped[|skipped| - 1].vals == walked[|walked| - 1].vals
  {
    assert forall k :: 0 <= k < |skipped| ==> skipped[k] in skipped + walked;
    assert forall k :: 0 <= k < |walked| ==> walked[k] in skipped + walked;
    forall i | 0 <= i < |walked| - 1 ensures Verify(walked[i], walked[i + 1], o, now) == Ok {
      assert VerifyAdjacent(walked[i], walked[i + 1], o, now) == Ok;
    }
    TraceIsCanonical(w, skipped, o, now, |skipped| - 1);
    TraceIsCanonical(w, walked, o, now, |walked| - 1);
  }
}
