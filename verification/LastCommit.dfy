/**
 * The commit that is saved with a block (types/vote_set.go, types/block.go), and the vote set that a
 * restart makes of it.
 */
module LastCommit {
  import opened Common
  import opened VotingPower
  import opened ConsensusSpec

  /** Per validator, the precommit that the commit holds of it. */
  datatype Commit = Commit(height: int, round: int, sigs: seq<Option<Value>>)

  /** A precommit for another block counts as absent. */
  function SavedCommit(c: Config, votes: VoteBook, h: int, r: int): Commit {
    Commit(h, r, seq(|c.powers(h)|, i requires 0 <= i =>
      var slot := Slot(h, r, Precommit, i);
      if slot in votes && InCommit(c, votes, h, r, slot) then Some(votes[slot]) else None))
  }

  function CommitVotes(commit: Commit): VoteBook {
    map i: nat | i < |commit.sigs| && commit.sigs[i].Some? :: Slot(commit.height, commit.round, Precommit, i) := commit.sigs[i].value
  }

  /** What comes back from the store is the precommits for nil or for the committed block, and no others. */
  lemma SavedCommitVotes(c: Config, votes: VoteBook, h: int, r: int)
    ensures CommitVotes(SavedCommit(c, votes, h, r)) == SeenCommit(c, votes, h, r)
  {
    var restored, seen := CommitVotes(SavedCommit(c, votes, h, r)), SeenCommit(c, votes, h, r);
    hide TwoThirdsMajority;
    forall k | k in seen ensures k in restored && restored[k] == seen[k] {
      assert SavedCommit(c, votes, h, r).sigs[k.validator] == Some(votes[k]);
    }
    assert forall k :: k in restored ==> k in seen;
  }

  lemma {:induction false} FullTally(power: seq<nat>, who: set<nat>)
    ensures Tally(power, who) <= Total(power)
    ensures Tally(power, who) == Total(power) <==> forall i: nat :: i < |power| && power[i] > 0 ==> i in who
  {
    if |power| > 0 {
      var n := |power| - 1;
      FullTally(power[..n], who);
      assert power[n] > 0 && n !in who ==> Tally(power, who) != Total(power);
      assert forall i: nat :: i < n ==> power[..n][i] == power[i];
    }
  }

  /**
   * A restored commit lets a validator skip the commit timeout if and only if the commit of the run
   * did, and no validator with power precommitted another block.
   */
  lemma RestoredHasAll(c: Config, votes: VoteBook, h: int, r: int)
    ensures HasAll(c, SeenCommit(c, votes, h, r), h, r, Precommit)
       <==> && HasAll(c, votes, h, r, Precommit)
            && forall i: nat :: i < |c.powers(h)| && c.powers(h)[i] > 0 && Slot(h, r, Precommit, i) in votes ==>
                 InCommit(c, votes, h, r, Slot(h, r, Precommit, i))
  {
    var power, seen := c.powers(h), SeenCommit(c, votes, h, r);
    FullTally(power, AnyVoters(c, votes, h, r, Precommit));
    FullTally(power, AnyVoters(c, seen, h, r, Precommit));
    hide InCommit;
    assert forall i: nat :: Slot(h, r, Precommit, i) in seen
                      <==> Slot(h, r, Precommit, i) in votes && InCommit(c, votes, h, r, Slot(h, r, Precommit, i));
    assert forall i: nat :: i < |power| ==>
             && (i in AnyVoters(c, votes, h, r, Precommit) <==> Slot(h, r, Precommit, i) in votes)
             && (i in AnyVoters(c, seen, h, r, Precommit) <==> Slot(h, r, Precommit, i) in seen);
  }

  /** The source panics unless some value has two thirds of the precommits. */
  method MakeExtendedCommit(c: Config, votes: VoteBook, h: int, r: int) returns (commit: Option<Commit>)
    ensures commit.Some? <==> exists v :: IsMajority(c, votes, h, r, Precommit, v)
    ensures commit.Some? ==> commit.value == SavedCommit(c, votes, h, r)
  {
    var maj23 := TwoThirdsMajority(c, votes, h, r, Precommit);
    hide TwoThirdsMajority, IsMajority;
    if maj23.None? { return None; }
    assert IsMajority(c, votes, h, r, Precommit, maj23.value);
    var sigs: seq<Option<Value>> := [];
    ghost var all := SavedCommit(c, votes, h, r).sigs;
    for i := 0 to |c.powers(h)|
      invariant sigs == all[..i]
    {
      var slot := Slot(h, r, Precommit, i);
      var sig := if slot in votes then Some(votes[slot]) else None;
      if sig.Some? && sig.value.Block? && sig != maj23 {
        sig := None;
      }
      sigs := sigs + [sig];
    }
    return Some(Commit(h, r, sigs));
  }

  method ToVoteSet(commit: Commit) returns (votes: VoteBook)
    ensures votes == CommitVotes(commit)
  {
    votes := map[];
    for i := 0 to |commit.sigs|
      invariant votes == CommitVotes(commit.(sigs := commit.sigs[..i]))
    {
      if commit.sigs[i].Some? {
        votes := votes[Slot(commit.height, commit.round, Precommit, i) := commit.sigs[i].value];
      }
    }
    assert commit.sigs[..|commit.sigs|] == commit.sigs;
  }
}
