/**
 * What a node remembers of the votes a peer has (consensus/reactor.go, PeerState). The bit arrays are
 * objects: two fields may share one, and a round step moves them from field to field.
 */
module PeerTracking {
  datatype Kind = Prevote | Precommit

  /** A vote that was sent to the peer, or that the peer claims to have. */
  datatype Claim = Claim(height: int, round: int, kind: Kind, index: nat)

  predicate Bit(bits: seq<bool>, i: int) {
    0 <= i < |bits| && bits[i]
  }

  function Words(n: nat): nat { (n + 63) / 64 }

  /** BitArray.Update copies whole words of 64 bits. */
  function Updated(a: seq<bool>, b: seq<bool>): (r: seq<bool>)
    ensures |r| == |a|
  {
    seq(|a|, i requires 0 <= i < |a| => if i < 64 * Words(|b|) then Bit(b, i) else a[i])
  }

  function Minus(a: seq<bool>, b: seq<bool>): (r: seq<bool>)
    ensures |r| == |a|
  {
    seq(|a|, i requires 0 <= i < |a| => a[i] && !Bit(b, i))
  }

  function Or(a: seq<bool>, b: seq<bool>): (r: seq<bool>) {
    seq(if |a| < |b| then |b| else |a|, i => Bit(a, i) || Bit(b, i))
  }

  class BitArray {
    var bits: seq<bool>

    constructor (n: nat)
      ensures |bits| == n && Clear(bits)
    {
      bits := seq(n, i => false);
    }
  }

  /** Every set bit stands for a vote of exactly this height, round and type. */
  ghost predicate AllClaimed(bits: seq<bool>, claims: set<Claim>, h: int, r: int, k: Kind) {
    forall i :: 0 <= i < |bits| && bits[i] ==> Claim(h, r, k, i) in claims
  }

  /** NewBitArray: nil when there is nothing to track. */
  method NewBitArray(n: nat) returns (b: BitArray?)
    ensures b == null <==> n == 0
    ensures b != null ==> fresh(b) && |b.bits| == n && Clear(b.bits)
    ensures b != null ==> forall claims, h, r, k :: AllClaimed(b.bits, claims, h, r, k)
  {
    b := null;
    if n > 0 {
      b := new BitArray(n);
    }
  }

  ghost function Gap(ours: seq<bool>, theirs: seq<bool>): set<nat> {
    set i: nat | i < |ours| && ours[i] && !Bit(theirs, i)
  }

  predicate Clear(bits: seq<bool>) {
    forall i :: 0 <= i < |bits| ==> !bits[i]
  }

  predicate Blank(b: BitArray?)
    reads b
  {
    b != null && Clear(b.bits)
  }

  predicate Apart(a: BitArray?, b: BitArray?) {
    a == null || a != b
  }

  ghost function Only(b: BitArray?): set<object> {
    if b == null then {} else {b}
  }

  /** A set of votes that the node has, with the size of its validator set. */
  datatype VoteSet = VoteSet(height: int, round: int, kind: Kind, isCommit: bool, bits: seq<bool>)

  class PeerState {
    var height: int
    var round: int
    var step: int
    var proposal: bool
    var proposalBlockParts: bool
    var proposalPolRound: int
    var proposalPol: BitArray?
    var prevotes: BitArray?
    var precommits: BitArray?
    var lastCommitRound: int
    var lastCommit: BitArray?
    var catchupCommitRound: int
    var catchupCommit: BitArray?
    ghost var claims: set<Claim>

    ghost function Arrays(): set<object>
      reads this
    {
      Only(proposalPol) + Only(prevotes) + Only(precommits) + Only(lastCommit) + Only(catchupCommit)
    }

    ghost predicate Sound(b: BitArray?, h: int, r: int, k: Kind)
      reads this, b
    {
      b == null || AllClaimed(b.bits, claims, h, r, k)
    }

    /** Arrays are shared only between precommits of one height and round. */
    predicate Separate()
      reads this
    {
      && Apart(prevotes, precommits) && Apart(prevotes, lastCommit) && Apart(prevotes, catchupCommit)
      && Apart(prevotes, proposalPol) && Apart(proposalPol, precommits) && Apart(proposalPol, lastCommit)
      && Apart(proposalPol, catchupCommit) && Apart(lastCommit, precommits) && Apart(lastCommit, catchupCommit)
      && (precommits != null && precommits == catchupCommit ==> catchupCommitRound == round)
    }

    ghost predicate Valid()
      reads this, Arrays()
    {
      && Separate()
      && Sound(prevotes, height, round, Prevote)
      && Sound(precommits, height, round, Precommit)
      && Sound(catchupCommit, height, catchupCommitRound, Precommit)
      && Sound(proposalPol, height, proposalPolRound, Prevote)
      && Sound(lastCommit, height - 1, lastCommitRound, Precommit)
    }

    constructor ()
      ensures Valid() && Arrays() == {} && claims == {}
    {
      height, round, step, proposal, proposalBlockParts := 0, -1, 0, false, false;
      proposalPolRound, lastCommitRound, catchupCommitRound := -1, -1, -1;
      proposalPol, prevotes, precommits, lastCommit, catchupCommit := null, null, null, null, null;
      claims := {};
    }

    /** getVoteBitArray: the array for the votes of one height, round and type, if they are tracked. */
    function Lookup(h: int, r: int, k: Kind): (b: BitArray?)
      reads this
      ensures b != null ==> b in Arrays()
    {
      if height == h then
        if round == r then (if k == Prevote then prevotes else precommits)
        else if catchupCommitRound == r then (if k == Prevote then null else catchupCommit)
        else if proposalPolRound == r then (if k == Prevote then proposalPol else null)
        else null
      else if height == h + 1 && lastCommitRound == r && k == Precommit then lastCommit
      else null
    }

    /** The array that is found for a height, round and type holds votes of exactly that height, round and type. */
    lemma ClaimsSuffice(h: int, r: int, k: Kind)
      requires Valid() && Lookup(h, r, k) != null
      ensures Sound(Lookup(h, r, k), h, r, k)
    {
    }

    /** Overwriting an array with bits that are set already or claimed. */
    method Overwrite(h: int, r: int, k: Kind, bits: seq<bool>)
      requires Valid() && Lookup(h, r, k) != null
      requires AllClaimed(bits, claims, h, r, k)
      modifies Lookup(h, r, k)
      ensures Valid() && Lookup(h, r, k).bits == bits
    {
      hide AllClaimed;
      Lookup(h, r, k).bits := bits;
    }

    /** setHasVote, for a vote that was sent or announced. */
    method SetHasVote(h: int, r: int, k: Kind, index: nat)
      requires Valid()
      modifies Only(Lookup(h, r, k)), this`claims
      ensures Valid() && claims == old(claims) + {Claim(h, r, k, index)}
      ensures var b := Lookup(h, r, k);
              b != null ==> b.bits == if index < |old(b.bits)| then old(b.bits)[index := true] else old(b.bits)
    {
      claims := claims + {Claim(h, r, k, index)};
      var b := Lookup(h, r, k);
      if b != null && index < |b.bits| {
        Overwrite(h, r, k, b.bits[index := true]);
      }
    }

    method ApplyHasVoteMessage(h: int, r: int, k: Kind, index: nat)
      requires Valid()
      modifies Only(Lookup(h, r, k)), this`claims
      ensures Valid() && claims == if height == h then old(claims) + {Claim(h, r, k, index)} else old(claims)
      ensures var b := Lookup(h, r, k);
              b != null ==> b.bits == if height == h && index < |old(b.bits)| then old(b.bits)[index := true] else old(b.bits)
    {
      if height != h { return; }
      SetHasVote(h, r, k, index);
    }

    /** ApplyVoteSetBitsMessage; `ours` are the votes the node itself has for the peer's block, if it knows. */
    method ApplyVoteSetBitsMessage(h: int, r: int, k: Kind, votes: seq<bool>, known: bool, ours: seq<bool>)
      requires Valid()
      modifies Only(Lookup(h, r, k)), this`claims
      ensures Valid() && claims == old(claims) + Claimed(h, r, k, votes)
      ensures var b := Lookup(h, r, k);
              b != null ==>
                b.bits == Updated(old(b.bits), if known then Or(Minus(old(b.bits), ours), votes) else votes)
    {
      claims := claims + Claimed(h, r, k, votes);
      var b := Lookup(h, r, k);
      if b != null {
        if !known {
          Overwrite(h, r, k, Updated(b.bits, votes));
        } else {
          var other := Minus(b.bits, ours);
          var has := Or(other, votes);
          Overwrite(h, r, k, Updated(b.bits, has));
        }
      }
    }

    /** ApplyProposalPOLMessage: the message's array becomes the peer's. */
    method ApplyProposalPolMessage(h: int, polRound: int, pol: BitArray)
      requires Valid() && pol !in Arrays()
      modifies this`proposalPol, this`claims
      ensures Valid() && claims == old(claims) + Claimed(h, polRound, Prevote, pol.bits)
      ensures proposalPol == if height == h && proposalPolRound == polRound then pol else old(proposalPol)
    {
      claims := claims + Claimed(h, polRound, Prevote, pol.bits);
      if height != h { return; }
      if proposalPolRound != polRound { return; }
      proposalPol := pol;
    }

    method SetHasProposal(h: int, r: int, polRound: int)
      requires Valid()
      modifies this`proposal, this`proposalBlockParts, this`proposalPolRound, this`proposalPol
      ensures Valid() && (proposal <==> old(proposal) || (height == h && round == r))
      ensures if height == h && round == r && !old(proposal) && !old(proposalBlockParts)
              then proposalBlockParts && proposalPolRound == polRound && proposalPol == null
              else proposalBlockParts == old(proposalBlockParts) && proposalPolRound == old(proposalPolRound)
                   && proposalPol == old(proposalPol)
    {
      hide AllClaimed;
      if height != h || round != r { return; }
      if proposal { return; }
      proposal := true;
      if proposalBlockParts { return; }
      proposalBlockParts := true;
      proposalPolRound := polRound;
      proposalPol := null;
    }

    /** ApplyNewValidBlockMessage and InitProposalBlockParts: block parts are tracked, votes are not touched. */
    method ApplyNewValidBlockMessage(h: int, r: int, isCommit: bool)
      requires Valid()
      modifies this`proposalBlockParts
      ensures Valid() && (proposalBlockParts <==> old(proposalBlockParts) || (height == h && (round == r || isCommit)))
    {
      if height != h { return; }
      if round != r && !isCommit { return; }
      proposalBlockParts := true;
    }

    /** What belongs to one round only. */
    method ClearRound()
      requires Valid()
      modifies this`proposal, this`proposalBlockParts, this`proposalPolRound, this`proposalPol, this`prevotes, this`precommits
      ensures Valid() && proposalPol == null && prevotes == null && precommits == null
    {
      hide AllClaimed;
      proposal := false;
      proposalBlockParts := false;
      proposalPolRound := -1;
      proposalPol := null;
      prevotes := null;
      precommits := null;
    }

    /** A later round of the same height. */
    method NextRound(r: int, st: int)
      requires Valid() && r > round
      modifies this
      ensures Valid() && claims == old(claims) && Arrays() <= old(Arrays())
      ensures (height, round, step) == (old(height), r, st)
      ensures precommits == if r == old(catchupCommitRound) then old(catchupCommit) else null
      ensures catchupCommitRound == old(catchupCommitRound) && catchupCommit == old(catchupCommit)
    {
      hide AllClaimed;
      ClearRound();
      round := r;
      step := st;
      if r == catchupCommitRound {
        precommits := catchupCommit;
      }
    }

    /** A later height: the precommits may become the last commit. */
    method NextHeight(h: int, r: int, st: int, lastRound: int)
      requires Valid() && h > height
      modifies this
      ensures Valid() && claims == old(claims) && Arrays() <= old(Arrays())
      ensures (height, round, step, lastCommitRound) == (h, r, st, lastRound)
      ensures lastCommit == if old(height) + 1 == h && old(round) == lastRound then old(precommits) else null
    {
      hide AllClaimed;
      var shift := height + 1 == h && round == lastRound;
      var lastPrecommits := precommits;
      ClearRound();
      catchupCommitRound := -1;
      catchupCommit := null;
      lastCommitRound := lastRound;
      lastCommit := if shift then lastPrecommits else null;
      height := h;
      round := r;
      step := st;
    }

    /**
     * ApplyNewRoundStepMessage: arrays are moved, shared or dropped. No bit changes, no vote becomes
     * known that was not, and a vote that stays tracked under a new field stays known.
     */
    method ApplyNewRoundStepMessage(h: int, r: int, st: int, lastRound: int)
      requires Valid()
      modifies this
      ensures Valid() && claims == old(claims) && Arrays() <= old(Arrays())
      ensures CompareHRS(h, r, st, old(height), old(round), old(step)) <= 0 ==> unchanged(this)
      ensures CompareHRS(h, r, st, old(height), old(round), old(step)) > 0 ==> (height, round, step) == (h, r, st)
      ensures old(height) + 1 == h && lastRound == old(round) ==> Lookup(h - 1, lastRound, Precommit) == old(precommits)
      ensures old(height) == h && old(round) < r == old(catchupCommitRound) ==>
                Lookup(h, r, Precommit) == old(catchupCommit)
    {
      if CompareHRS(h, r, st, height, round, step) <= 0 { return; }
      hide Separate, Sound;
      if height != h {
        NextHeight(h, r, st, lastRound);
      } else if round != r {
        NextRound(r, st);
      } else {
        NextStep(st);
      }
    }

    method NextStep(st: int)
      requires Valid()
      modifies this`step
      ensures Valid() && step == st
    {
      step := st;
    }

    method EnsureCatchupCommitRound(h: int, r: int, n: nat)
      requires Valid()
      modifies this`catchupCommitRound, this`catchupCommit
      ensures Valid() && fresh(Arrays() - old(Arrays()))
      ensures height == h ==> catchupCommitRound == r
      ensures height != h || old(catchupCommitRound) == r ==> unchanged(this)
      ensures height == h && old(catchupCommitRound) != r ==>
                if r == round then catchupCommit == precommits
                else catchupCommit == null || (fresh(catchupCommit) && |catchupCommit.bits| == n && Clear(catchupCommit.bits))
    {
      hide AllClaimed;
      if height != h { return; }
      if catchupCommitRound == r { return; }
      catchupCommitRound := r;
      if r == round {
        catchupCommit := precommits;
      } else {
        catchupCommit := NewBitArray(n);
      }
    }

    method EnsureVoteBitArrays(h: int, n: nat)
      requires Valid()
      modifies this`prevotes, this`precommits, this`catchupCommit, this`proposalPol, this`lastCommit
      ensures Valid() && fresh(Arrays() - old(Arrays()))
      ensures n > 0 ==> Allocated(h)
      ensures old(Allocated(h)) ==> unchanged(this)
      ensures old(Sized(h, n)) ==> Sized(h, n)
      ensures prevotes == old(prevotes) || (old(prevotes) == null && Blank(prevotes) && fresh(prevotes))
      ensures precommits == old(precommits) || (old(precommits) == null && Blank(precommits) && fresh(precommits))
      ensures catchupCommit == old(catchupCommit) || (old(catchupCommit) == null && Blank(catchupCommit) && fresh(catchupCommit))
      ensures proposalPol == old(proposalPol) || (old(proposalPol) == null && Blank(proposalPol) && fresh(proposalPol))
      ensures lastCommit == old(lastCommit) || (old(lastCommit) == null && Blank(lastCommit) && fresh(lastCommit))
    {
      hide Separate, Sound, Clear;
      if height == h {
        EnsureThisRound(n);
        EnsureOtherRounds(n);
      } else if height == h + 1 {
        EnsureLastCommit(n);
      }
    }

    /** Votes of this height can be tracked. */
    predicate Allocated(h: int)
      reads this
    {
      && (height == h ==> prevotes != null && precommits != null && catchupCommit != null && proposalPol != null)
      && (height == h + 1 ==> lastCommit != null)
    }

    /** The arrays for votes of this height have one bit for each of its n validators. */
    predicate Sized(h: int, n: nat)
      reads this, proposalPol, prevotes, precommits, lastCommit, catchupCommit
    {
      && (height == h ==>
            && (prevotes != null ==> |prevotes.bits| == n) && (precommits != null ==> |precommits.bits| == n)
            && (catchupCommit != null ==> |catchupCommit.bits| == n) && (proposalPol != null ==> |proposalPol.bits| == n))
      && (height == h + 1 && lastCommit != null ==> |lastCommit.bits| == n)
    }

    method EnsureThisRound(n: nat)
      requires Valid()
      modifies this`prevotes, this`precommits
      ensures Valid() && fresh(Arrays() - old(Arrays()))
      ensures n > 0 ==> prevotes != null && precommits != null
      ensures old(prevotes) != null ==> prevotes == old(prevotes)
      ensures old(precommits) != null ==> precommits == old(precommits)
      ensures prevotes == old(prevotes) || (Blank(prevotes) && fresh(prevotes) && |prevotes.bits| == n)
      ensures precommits == old(precommits) || (Blank(precommits) && fresh(precommits) && |precommits.bits| == n)
    {
      hide AllClaimed;
      if prevotes == null { prevotes := NewBitArray(n); }
      if precommits == null { precommits := NewBitArray(n); }
    }

    method EnsureOtherRounds(n: nat)
      requires Valid()
      modifies this`catchupCommit, this`proposalPol
      ensures Valid() && fresh(Arrays() - old(Arrays()))
      ensures n > 0 ==> catchupCommit != null && proposalPol != null
      ensures old(catchupCommit) != null ==> catchupCommit == old(catchupCommit)
      ensures old(proposalPol) != null ==> proposalPol == old(proposalPol)
      ensures catchupCommit == old(catchupCommit) || (Blank(catchupCommit) && fresh(catchupCommit) && |catchupCommit.bits| == n)
      ensures proposalPol == old(proposalPol) || (Blank(proposalPol) && fresh(proposalPol) && |proposalPol.bits| == n)
    {
      hide AllClaimed;
      if catchupCommit == null { catchupCommit := NewBitArray(n); }
      if proposalPol == null { proposalPol := NewBitArray(n); }
    }

    method EnsureLastCommit(n: nat)
      requires Valid()
      modifies this`lastCommit
      ensures Valid() && fresh(Arrays() - old(Arrays()))
      ensures n > 0 ==> lastCommit != null
      ensures old(lastCommit) != null ==> lastCommit == old(lastCommit)
      ensures lastCommit == old(lastCommit) || (Blank(lastCommit) && fresh(lastCommit) && |lastCommit.bits| == n)
    {
      hide AllClaimed;
      if lastCommit == null { lastCommit := NewBitArray(n); }
    }

    // ----- sending -----

    /** PickVoteToSend finds the arrays for the votes in place. */
    predicate Prepared(votes: VoteSet)
      reads this
    {
      Allocated(votes.height) && (votes.isCommit && height == votes.height ==> catchupCommitRound == votes.round)
    }

    /** The votes of the set that are tracked and that the peer is not known to have. */
    ghost function Missing(votes: VoteSet): set<nat>
      reads this, Lookup(votes.height, votes.round, votes.kind)
    {
      var b := Lookup(votes.height, votes.round, votes.kind);
      if b == null then {} else Gap(votes.bits, b.bits)
    }

    /** PickVoteToSend can make an array for the votes, if it does not find one. */
    predicate Trackable(votes: VoteSet)
      reads this
    {
      if height == votes.height then
        if round == votes.round then true
        else if votes.isCommit || catchupCommitRound == votes.round then votes.kind == Precommit
        else proposalPolRound == votes.round && votes.kind == Prevote
      else height == votes.height + 1 && lastCommitRound == votes.round && votes.kind == Precommit
    }

    /** The votes that are missing once the arrays are in place: all of the set, if nothing was tracked before. */
    ghost function Needed(votes: VoteSet): set<nat>
      reads this, Lookup(votes.height, votes.round, votes.kind)
    {
      var b := Lookup(votes.height, votes.round, votes.kind);
      if !Trackable(votes) then {} else Gap(votes.bits, if b == null then [] else b.bits)
    }

    /** PickVoteToSend: some missing vote, unless there is none. */
    method PickVoteToSend(votes: VoteSet) returns (ok: bool, index: nat)
      requires Valid()
      modifies this`catchupCommitRound, this`prevotes, this`precommits, this`catchupCommit, this`proposalPol, this`lastCommit
      ensures Valid() && fresh(Arrays() - old(Arrays()))
      ensures |votes.bits| > 0 ==> Prepared(votes)
      ensures old(Prepared(votes)) || votes.bits == [] ==> unchanged(this)
      ensures old(Sized(votes.height, |votes.bits|)) ==> Sized(votes.height, |votes.bits|)
      ensures votes.bits != [] ==> Missing(votes) == old(Needed(votes))
      ensures var b := Lookup(votes.height, votes.round, votes.kind);
              b != null && b != old(Lookup(votes.height, votes.round, votes.kind)) ==> fresh(b)
      ensures ok ==> index in Missing(votes)
      ensures !ok ==> Missing(votes) == {}
    {
      ok, index := false, 0;
      if |votes.bits| == 0 {
        assert Missing(votes) == {};
        return;
      }
      hide Valid, Sized, Prepared;
      Prepare(votes);
      var b := Lookup(votes.height, votes.round, votes.kind);
      assert Missing(votes) == old(Needed(votes)) by { hide Lookup, Trackable; }
      hide Needed, Trackable, Lookup;
      if b == null { return; }
      var diff := Minus(votes.bits, b.bits);
      if i :| 0 <= i < |diff| && diff[i] {
        ok, index := true, i;
      } else {
        assert forall i :: 0 <= i < |diff| ==> !diff[i];
        assert forall i: nat :: i < |votes.bits| && votes.bits[i] && !Bit(b.bits, i) ==> diff[i];
        assert Missing(votes) == {};
      }
    }

    /** The arrays that PickVoteToSend makes: what was tracked stays, and new arrays are clear. */
    method Prepare(votes: VoteSet)
      requires Valid() && |votes.bits| > 0
      modifies this`catchupCommitRound, this`prevotes, this`precommits, this`catchupCommit, this`proposalPol, this`lastCommit
      ensures Valid() && fresh(Arrays() - old(Arrays())) && Prepared(votes)
      ensures old(Prepared(votes)) ==> unchanged(this)
      ensures old(Sized(votes.height, |votes.bits|)) ==> Sized(votes.height, |votes.bits|)
      ensures var b, was := Lookup(votes.height, votes.round, votes.kind), old(Lookup(votes.height, votes.round, votes.kind));
              if !old(Trackable(votes)) then b == null
              else if was != null then b == was
              else Blank(b) && fresh(b)
    {
      hide Separate, Sound, Clear;
      if votes.isCommit {
        EnsureCatchupCommitRound(votes.height, votes.round, |votes.bits|);
      }
      EnsureVoteBitArrays(votes.height, |votes.bits|);
    }

    /** Marking a missing vote as sent. */
    method MarkSent(votes: VoteSet, index: nat)
      requires Valid() && Sized(votes.height, |votes.bits|) && Prepared(votes) && index in Missing(votes)
      modifies Only(Lookup(votes.height, votes.round, votes.kind)), this`claims
      ensures Valid() && Sized(votes.height, |votes.bits|) && Prepared(votes)
      ensures Lookup(votes.height, votes.round, votes.kind) == old(Lookup(votes.height, votes.round, votes.kind))
      ensures Missing(votes) == old(Missing(votes)) - {index}
      ensures claims == old(claims) + {Claim(votes.height, votes.round, votes.kind, index)}
    {
      hide Valid, Separate, Sound;
      ghost var b := Lookup(votes.height, votes.round, votes.kind);
      ghost var bits := b.bits;
      SetHasVote(votes.height, votes.round, votes.kind, index);
      assert b.bits == bits[index := true];
    }

    /** PickSendVote over a connection that takes the vote. */
    method PickSendVote(votes: VoteSet) returns (ok: bool, index: nat)
      requires Valid() && Sized(votes.height, |votes.bits|)
      modifies Only(Lookup(votes.height, votes.round, votes.kind)), this
      ensures Valid() && Sized(votes.height, |votes.bits|) && (votes.bits != [] ==> Prepared(votes))
      ensures var b := Lookup(votes.height, votes.round, votes.kind);
              b != null && b != old(Lookup(votes.height, votes.round, votes.kind)) ==> fresh(b)
      ensures ok ==> index in old(Needed(votes)) && Missing(votes) == old(Needed(votes)) - {index}
      ensures !ok ==> Missing(votes) == old(Needed(votes)) == {}
      ensures claims == old(claims) + if ok then {Claim(votes.height, votes.round, votes.kind, index)} else {}
    {
      if votes.bits == [] {
        assert Needed(votes) == {} && Missing(votes) == {};
      }
      hide Valid, Sized, Prepared, Missing, Needed, Lookup;
      ok, index := PickVoteToSend(votes);
      if ok {
        assert votes.bits != [] by { assert Missing(votes) != {}; }
        MarkSent(votes, index);
      }
    }

    /** With the arrays in place, what is needed is what is missing. */
    lemma PreparedNeeds(votes: VoteSet)
      requires Prepared(votes) && votes.bits != []
      ensures Needed(votes) == Missing(votes)
    {
    }

    /**
     * Repeated PickSendVote, as the gossip routine does, while no message comes in: it stops, it sends
     * exactly the votes that are missing once the arrays are in place, each of them once, and then none
     * is missing.
     */
    method SendVotes(votes: VoteSet) returns (sent: seq<nat>)
      requires Valid() && Sized(votes.height, |votes.bits|)
      modifies Only(Lookup(votes.height, votes.round, votes.kind)), this
      ensures Valid() && Missing(votes) == {}
      ensures forall i :: i in sent <==> i in old(Needed(votes))
      ensures forall i :: i in sent ==> i < |votes.bits| && votes.bits[i]
      ensures Distinct(sent) && claims == old(claims) + SentClaims(votes, sent)
    {
      sent := [];
      if votes.bits == [] {
        assert Needed(votes) == {} && Missing(votes) == {};
        return;
      }
      ghost var all := Needed(votes);
      assert forall i :: i in all ==> i < |votes.bits| && votes.bits[i];
      hide Valid, Sized, Prepared, Missing, Needed, Lookup;
      ghost var left := all;
      var ok := true;
      while ok
        invariant Valid() && Sized(votes.height, |votes.bits|)
        invariant var b := Lookup(votes.height, votes.round, votes.kind);
                  b != null && b != old(Lookup(votes.height, votes.round, votes.kind)) ==> fresh(b)
        invariant left == Needed(votes) && left <= all && (!ok ==> Missing(votes) == left == {})
        invariant Distinct(sent) && forall i :: i in sent <==> i in all && i !in left
        invariant claims == old(claims) + SentClaims(votes, sent)
        decreases left, ok
      {
        var index;
        ok, index := PickSendVote(votes);
        PreparedNeeds(votes);
        if ok {
          left := left - {index};
          SentOneMore(votes, sent, index);
          sent := sent + [index];
        }
      }
    }
  }

  predicate Distinct(sent: seq<nat>) {
    forall i, j :: 0 <= i < j < |sent| ==> sent[i] != sent[j]
  }

  function SentClaims(votes: VoteSet, sent: seq<nat>): set<Claim> {
    set i | i in sent :: Claim(votes.height, votes.round, votes.kind, i)
  }

  lemma SentOneMore(votes: VoteSet, sent: seq<nat>, index: nat)
    ensures SentClaims(votes, sent + [index]) == SentClaims(votes, sent) + {Claim(votes.height, votes.round, votes.kind, index)}
    ensures Distinct(sent) && index !in sent ==> Distinct(sent + [index])
    ensures forall i :: i in sent + [index] <==> i in sent || i == index
  {
  }

  function Claimed(h: int, r: int, k: Kind, votes: seq<bool>): set<Claim> {
    set i: nat | i < |votes| && votes[i] :: Claim(h, r, k, i)
  }

  function CompareHRS(h1: int, r1: int, s1: int, h2: int, r2: int, s2: int): (c: int)
    ensures c == 0 <==> (h1, r1, s1) == (h2, r2, s2)
  {
    if h1 < h2 then -1 else if h1 > h2 then 1
    else if r1 < r2 then -1 else if r1 > r2 then 1
    else if s1 < s2 then -1 else if s1 > s2 then 1
    else 0
  }
}
