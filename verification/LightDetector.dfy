/**
 * Finding where two providers part (light/detector.go): a trace of one provider is compared with
 * what the other one has and can verify.
 */
module LightDetector {
  import opened LightVerifier
  import opened LightClient

  datatype Examined =
    | Diverged(sourceTrace: seq<LightBlock>, block: LightBlock)
    | TargetTooLow | TimeCheckFailed | ProviderError | TrustedBlockDiffers | NotVerified | NoDivergence

  /** The source's block of a height; the target is its block of the target's height. */
  function SourceBlock(source: int -> Reply, target: LightBlock, h: int): Reply {
    if h == target.header.height then Found(target) else source(h)
  }

  /** Both providers have this header. */
  predicate Agreed(source: int -> Reply, target: LightBlock, b: LightBlock) {
    var r := SourceBlock(source, target, b.header.height);
    r.Found? && r.block.header == b.header
  }

  ghost predicate Increasing(trace: seq<LightBlock>) {
    forall i, j :: 0 <= i < j < |trace| ==>
      trace[i].header.height < trace[j].header.height && trace[i].header.time < trace[j].header.time
  }

  /**
   * What an examination has to show. All blocks before `i` are agreed. The source's trace was verified,
   * starts at the block before `i`, and ends either at another header of the height of block `i`, or,
   * when that block is above the target (a forward lunatic attack), at the target, which is not older.
   */
  ghost predicate Bifurcates(source: int -> Reply, trace: seq<LightBlock>, target: LightBlock, o: Options, now: int,
                             sourceTrace: seq<LightBlock>, i: int) {
    && 1 <= i < |trace|
    && (forall j :: 0 <= j < i ==> Agreed(source, target, trace[j]))
    && |sourceTrace| > 1 && IsTrace(sourceTrace, o, now)
    && sourceTrace[0].header == trace[i - 1].header
    && var last := sourceTrace[|sourceTrace| - 1];
       if trace[i].header.height > target.header.height
       then last == target && trace[i - 1].header.height < target.header.height && trace[i].header.time <= target.header.time
       else Found(last) == SourceBlock(source, target, trace[i].header.height) && last.header != trace[i].header
  }

  /** examineConflictingHeaderAgainstTrace. The trace must not be empty, and is the result of a verification. */
  method Examine(source: int -> Reply, trace: seq<LightBlock>, target: LightBlock, o: Options, now: int) returns (out: Examined)
    requires Answers(source) && |trace| > 0 && Increasing(trace)
    ensures out.Diverged? ==> exists i :: Bifurcates(source, trace, target, o, now, out.sourceTrace, i) && out.block == trace[i]
    ensures out == NoDivergence ==>
              && (forall j :: 0 <= j < |trace| ==> Agreed(source, target, trace[j]))
              && trace[|trace| - 1].header.height <= target.header.height
  {
    hide Verify, Bisect;
    if target.header.height < trace[0].header.height { return TargetTooLow; }
    var previous := target;
    var sourceTrace: seq<LightBlock> := [];
    var i := 0;
    while i < |trace|
      invariant 0 <= i <= |trace|
      invariant forall j :: 0 <= j < i ==> Agreed(source, target, trace[j]) && trace[j].header.height <= target.header.height
      invariant i > 0 ==> Found(previous) == SourceBlock(source, target, trace[i - 1].header.height)
    {
      var b := trace[i];
      if b.header.height > target.header.height {
        if b.header.time > target.header.time { return TimeCheckFailed; }
        if previous.header.height != target.header.height {
          var r := VerifySkipping(source, previous, target, o, now);
          if !r.Verified? { return NotVerified; }
          BisectTrace(source, [previous], [target], 0, o, now);
          sourceTrace := r.trace;
        }
        assert Bifurcates(source, trace, target, o, now, sourceTrace, i);
        return Diverged(sourceTrace, b);
      }
      var reply := SourceBlock(source, target, b.header.height);
      if !reply.Found? { return ProviderError; }
      if i == 0 {
        if reply.block.header != b.header { return TrustedBlockDiffers; }
      } else {
        var r := VerifySkipping(source, previous, reply.block, o, now);
        if !r.Verified? { return NotVerified; }
        BisectTrace(source, [previous], [reply.block], 0, o, now);
        sourceTrace := r.trace;
        if reply.block.header != b.header {
          assert Bifurcates(source, trace, target, o, now, sourceTrace, i);
          return Diverged(sourceTrace, b);
        }
      }
      previous := reply.block;
      i := i + 1;
    }
    return NoDivergence;
  }

  /** The evidence against one provider: its block, the other's trusted block, and a block they share. */
  datatype Evidence = Evidence(conflicting: LightBlock, trusted: LightBlock, common: LightBlock)

  datatype Verdict = NoAttack | Attack(againstPrimary: Evidence, againstWitness: seq<Evidence>)

  /** The common block is below both others, and these are different blocks. */
  ghost predicate Sound(e: Evidence) {
    && e.common.header.height < e.conflicting.header.height
    && e.common.header.height < e.trusted.header.height
    && e.conflicting.header != e.trusted.header
  }

  /**
   * handleConflictingHeaders: the primary's trace is examined with the witness as the source, and the
   * witness's trace with the primary as the source. Every piece of evidence is sound, and indexing the
   * traces is safe because they are never empty.
   */
  method HandleConflictingHeaders(primary: int -> Reply, supporting: int -> Reply, primaryTrace: seq<LightBlock>,
                                  challenging: LightBlock, o: Options, now: int) returns (v: Verdict)
    requires Answers(primary) && Answers(supporting) && IsTrace(primaryTrace, o, now)
    ensures v.Attack? ==> Sound(v.againstPrimary) && v.againstPrimary.conflicting in primaryTrace
    ensures v.Attack? ==> forall e :: e in v.againstWitness ==> Sound(e)
  {
    IsIncreasing(primaryTrace, o, now);
    var x := Examine(supporting, primaryTrace, challenging, o, now);
    if !x.Diverged? { return NoAttack; }
    var witnessTrace := x.sourceTrace;
    ghost var i :| Bifurcates(supporting, primaryTrace, challenging, o, now, witnessTrace, i) && x.block == primaryTrace[i];
    IsIncreasing(witnessTrace, o, now);
    var against := Evidence(x.block, witnessTrace[|witnessTrace| - 1], witnessTrace[0]);
    var y := Examine(primary, witnessTrace, x.block, o, now);
    if !y.Diverged? { return Attack(against, []); }
    ghost var j :| Bifurcates(primary, witnessTrace, x.block, o, now, y.sourceTrace, j) && y.block == witnessTrace[j];
    IsIncreasing(y.sourceTrace, o, now);
    return Attack(against, [Evidence(y.block, y.sourceTrace[|y.sourceTrace| - 1], y.sourceTrace[0])]);
  }

  lemma IsIncreasing(trace: seq<LightBlock>, o: Options, now: int)
    requires IsTrace(trace, o, now)
    ensures Increasing(trace)
  {
    forall i, j | 0 <= i < j < |trace|
      ensures trace[i].header.height < trace[j].header.height && trace[i].header.time < trace[j].header.time
    {
      TraceIncreases(trace, o, now, i, j);
    }
  }
}
