/**
 * Voting power and quorums (types/vote_set.go, types/validator_set.go).
 *
 * A validator set is the sequence of powers of the validators 0, 1, 2, ...; power 0 means that
 * the validator is not a member of the set.
 */
module VotingPower {

  /** The power held by the validators in `who`. */
  function Tally(power: seq<nat>, who: set<nat>): nat {
    if |power| == 0 then 0
    else
      var last := |power| - 1;
      Tally(power[..last], who) + (if last in who then power[last] else 0)
  }

  function Total(power: seq<nat>): nat {
    if |power| == 0 then 0 else Total(power[..|power| - 1]) + power[|power| - 1]
  }

  /** The threshold of VoteSet.addVerifiedVote and HasTwoThirdsAny. */
  predicate Quorum(power: seq<nat>, who: set<nat>) {
    Tally(power, who) >= Total(power) * 2 / 3 + 1
  }

  lemma TallyOfThree(power: seq<nat>, who: set<nat>)
    requires |power| == 3
    ensures Tally(power, who) == (if 0 in who then power[0] else 0) + (if 1 in who then power[1] else 0)
                                 + (if 2 in who then power[2] else 0)
    ensures Total(power) == power[0] + power[1] + power[2]
  {
    var two, one := power[..2], power[..1];
    assert two[..1] == one && one[..0] == [];
    assert Tally(one, who) == (if 0 in who then power[0] else 0) && Total(one) == power[0];
    assert Tally(two, who) == Tally(one, who) + (if 1 in who then power[1] else 0);
  }

  lemma TallyOfFour(power: seq<nat>, who: set<nat>)
    requires |power| == 4
    ensures Tally(power, who) == (if 0 in who then power[0] else 0) + (if 1 in who then power[1] else 0)
                                 + (if 2 in who then power[2] else 0) + (if 3 in who then power[3] else 0)
    ensures Total(power) == power[0] + power[1] + power[2] + power[3]
  {
    TallyOfThree(power[..3], who);
  }

  lemma {:induction false} TallyInclusionExclusion(power: seq<nat>, a: set<nat>, b: set<nat>)
    ensures Tally(power, a) + Tally(power, b) == Tally(power, a + b) + Tally(power, a * b)
  {
    if |power| > 0 {
      TallyInclusionExclusion(power[..|power| - 1], a, b);
    }
  }

  /** Only members that lie inside the set count. */
  lemma {:induction false} TallyMonotone(power: seq<nat>, a: set<nat>, b: set<nat>)
    requires forall i :: i in a && i < |power| && power[i] > 0 ==> i in b
    ensures Tally(power, a) <= Tally(power, b) <= Total(power)
  {
    if |power| > 0 {
      TallyMonotone(power[..|power| - 1], a, b);
    }
  }

  /** A set that outweighs `b` has a member outside `b`, and that member has power. */
  lemma HeavierHasOther(power: seq<nat>, a: set<nat>, b: set<nat>) returns (i: nat)
    requires Tally(power, a) > Tally(power, b)
    ensures i in a && i !in b && i < |power| && power[i] > 0
  {
    if forall j :: j in a && j < |power| && power[j] > 0 ==> j in b {
      TallyMonotone(power, a, b);
    }
    i :| i in a && i < |power| && power[i] > 0 && i !in b;
  }

  /** Two sets whose powers add up to more than the total plus that of `faulty` share a member outside `faulty`. */
  lemma OverlapOutside(power: seq<nat>, a: set<nat>, b: set<nat>, faulty: set<nat>) returns (i: nat)
    requires Tally(power, a) + Tally(power, b) > Total(power) + Tally(power, faulty)
    ensures i in a && i in b && i !in faulty && i < |power| && power[i] > 0
  {
    TallyInclusionExclusion(power, a, b);
    TallyMonotone(power, a + b, a + b);
    i := HeavierHasOther(power, a * b, faulty);
  }
}
