/**
 * Header verification of the light client (light/verifier.go), and why an accepted header is
 * canonical. Hashes are injective, so a header holds the validator sets it commits to.
 */
module LightVerifier {
  import opened VotingPower

  /** Voting power by validator; a validator that is not in the set has none. */
  type Validators = seq<nat>

  datatype Header = Header(chain: string, height: int, time: int, validators: Validators, nextValidators: Validators, rest: nat)

  /** Who has signed which header; `sound` is whether nothing else is wrong with the commit. */
  datatype Commit = Commit(height: int, block: Header, signers: set<nat>, sound: bool)

  datatype LightBlock = LightBlock(header: Header, commit: Commit, vals: Validators)

  datatype Fraction = Fraction(numerator: nat, denominator: nat)

  datatype Options = Options(trustingPeriod: int, maxClockDrift: int, trustLevel: Fraction)

  datatype Result = Ok | OldHeaderExpired | InvalidHeader | NewValSetCantBeTrusted | OtherError

  datatype CommitCheck = Enough | NotEnoughPower | Unsound

  predicate ValidTrustLevel(l: Fraction) {
    !(l.numerator * 3 < l.denominator || l.numerator > l.denominator || l.denominator == 0)
  }

  /** VerifyCommitLightTrusting: signers with more than the trust level of the power of a set. */
  function CheckTrusting(vals: Validators, c: Commit, l: Fraction): CommitCheck {
    if l.denominator == 0 || !c.sound then Unsound
    else if Tally(vals, c.signers) > Total(vals) * l.numerator / l.denominator then Enough
    else NotEnoughPower
  }

  /** VerifyCommitLight: signers with more than two thirds of the power of the set. */
  predicate CheckTwoThirds(vals: Validators, c: Commit) {
    c.sound && Tally(vals, c.signers) > Total(vals) * 2 / 3
  }

  predicate ValidateBasic(b: LightBlock, chain: string) {
    b.header.chain == chain && b.commit.height == b.header.height && b.commit.block == b.header
  }

  predicate HeaderExpired(h: Header, o: Options, now: int) {
    h.time + o.trustingPeriod <= now
  }

  predicate ValidNewHeader(trusted: Header, new': LightBlock, now: int, o: Options) {
    && ValidateBasic(new', trusted.chain)
    && new'.header.height > trusted.height
    && new'.header.time > trusted.time
    && new'.header.time < now + o.maxClockDrift
    && new'.header.validators == new'.vals
  }

  function VerifyNonAdjacent(t: LightBlock, u: LightBlock, o: Options, now: int): Result {
    if u.header.height == t.header.height + 1 then OtherError
    else if HeaderExpired(t.header, o, now) then OldHeaderExpired
    else if !ValidNewHeader(t.header, u, now, o) then InvalidHeader
    else
      match CheckTrusting(t.vals, u.commit, o.trustLevel)
      case NotEnoughPower => NewValSetCantBeTrusted
      case Unsound => OtherError
      case Enough => if CheckTwoThirds(u.vals, u.commit) then Ok else InvalidHeader
  }

  function VerifyAdjacent(t: LightBlock, u: LightBlock, o: Options, now: int): Result {
    if u.header.height != t.header.height + 1 then OtherError
    else if HeaderExpired(t.header, o, now) then OldHeaderExpired
    else if !ValidNewHeader(t.header, u, now, o) then InvalidHeader
    else if u.header.validators != t.header.nextValidators then OtherError
    else if CheckTwoThirds(u.vals, u.commit) then Ok
    else InvalidHeader
  }

  function Verify(t: LightBlock, u: LightBlock, o: Options, now: int): (r: Result)
    ensures r == Ok ==> u.header.height > t.header.height && u.header.time > t.header.time
    ensures r == NewValSetCantBeTrusted ==> u.header.height > t.header.height + 1
  {
    if u.header.height != t.header.height + 1 then VerifyNonAdjacent(t, u, o, now)
    else VerifyAdjacent(t, u, o, now)
  }

  // ----- the chain that correct validators built -----

  /** The canonical header of each height, and the validators that may sign anything. */
  datatype World = World(canonical: int -> Header, faulty: set<nat>)

  /** While a header is within its trusting period, less than a third of its sets, by power, is faulty. */
  ghost predicate Assumptions(w: World, o: Options, now: int) {
    && ValidTrustLevel(o.trustLevel)
    && (forall h :: w.canonical(h).height == h)
    && (forall h :: w.canonical(h).nextValidators == w.canonical(h + 1).validators)
    && (forall h :: !HeaderExpired(w.canonical(h), o, now) ==>
          && 3 * Tally(w.canonical(h).validators, w.faulty) < Total(w.canonical(h).validators)
          && 3 * Tally(w.canonical(h).nextValidators, w.faulty) < Total(w.canonical(h).nextValidators))
  }

  /** A signature of a correct validator is over a canonical header. */
  ghost predicate Authentic(w: World, b: LightBlock) {
    forall i :: i in b.commit.signers && i !in w.faulty ==> b.commit.block == w.canonical(b.commit.height)
  }

  ghost predicate Canonical(w: World, b: LightBlock) {
    b.header == w.canonical(b.header.height) && b.vals == b.header.validators
  }

  /** More than the trust level is more than a third, whatever the rounding. */
  lemma TrustLevelIsThird(total: nat, tally: nat, l: Fraction)
    requires ValidTrustLevel(l) && tally > total * l.numerator / l.denominator
    ensures 3 * tally > total
  {
    var q := total * l.numerator / l.denominator;
    assert total * l.numerator < (q + 1) * l.denominator <= tally * l.denominator;
    assert total * l.denominator <= total * (3 * l.numerator) by {
      MulMonotone(total, l.denominator, 3 * l.numerator);
    }
    if 3 * tally <= total {
      MulMonotone(l.denominator, 3 * tally, total);
    }
  }

  lemma MulMonotone(a: nat, x: int, y: int)
    requires x <= y
    ensures a * x <= a * y
  {
  }

  /** A set in which the faulty hold less than a third, and signers with more than a third, has a correct signer. */
  lemma CorrectSigner(vals: Validators, signers: set<nat>, faulty: set<nat>) returns (i: nat)
    requires 3 * Tally(vals, signers) > Total(vals) && 3 * Tally(vals, faulty) < Total(vals)
    ensures i in signers && i !in faulty
  {
    i := HeavierHasOther(vals, signers, faulty);
  }

  /** What one successful verification is worth: from a canonical block it leads to a canonical block. */
  lemma VerifiedIsCanonical(w: World, t: LightBlock, u: LightBlock, o: Options, now: int)
    requires Assumptions(w, o, now) && Canonical(w, t) && Authentic(w, u)
    requires Verify(t, u, o, now) == Ok
    ensures Canonical(w, u)
  {
    var h := t.header.height;
    assert !HeaderExpired(w.canonical(h), o, now);
    if u.header.height == h + 1 {
      var i := CorrectSigner(u.vals, u.commit.signers, w.faulty);
    } else {
      TrustLevelIsThird(Total(t.vals), Tally(t.vals, u.commit.signers), o.trustLevel);
      var i := CorrectSigner(t.vals, u.commit.signers, w.faulty);
    }
  }

  // ----- traces -----

  /** Each block was verified against the one before it. */
  ghost predicate IsTrace(trace: seq<LightBlock>, o: Options, now: int) {
    |trace| > 0 && forall i :: 0 <= i < |trace| - 1 ==> Verify(trace[i], trace[i + 1], o, now) == Ok
  }

  lemma {:induction false} TraceIncreases(trace: seq<LightBlock>, o: Options, now: int, i: nat, j: nat)
    requires IsTrace(trace, o, now) && i < j < |trace|
    ensures trace[i].header.height < trace[j].header.height && trace[i].header.time < trace[j].header.time
    decreases j
  {
    assert Verify(trace[j - 1], trace[j], o, now) == Ok;
    if i < j - 1 {
      TraceIncreases(trace, o, now, i, j - 1);
    }
  }

  lemma {:induction false} TraceIsCanonical(w: World, trace: seq<LightBlock>, o: Options, now: int, i: nat)
    requires Assumptions(w, o, now) && IsTrace(trace, o, now) && i < |trace|
    requires Canonical(w, trace[0]) && forall k :: 0 <= k < |trace| ==> Authentic(w, trace[k])
    ensures Canonical(w, trace[i])
  {
    if i > 0 {
      TraceIsCanonical(w, trace, o, now, i - 1);
      VerifiedIsCanonical(w, trace[i - 1], trace[i], o, now);
    }
  }
}
