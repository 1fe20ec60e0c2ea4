/** Identifiers, proposal ids and quorums (paxos/composable_paxos.py, paxos/replicated_value.py). */
module Ballots {
  import opened Options
  import opened Sets

  /** Node ids are the integers handed out by the provisioner. */
  type Uid = int

  /** A value of the replicated log, as the string carried by the packets. */
  type Value = string

  datatype ProposalId = ProposalId(number: nat, uid: Uid)

  /** Python's tuple order: by number, then by uid. */
  predicate Less(a: ProposalId, b: ProposalId) {
    a.number < b.number || (a.number == b.number && a.uid < b.uid)
  }

  predicate AtMost(a: ProposalId, b: ProposalId) {
    a == b || Less(a, b)
  }

  /** `a < b` in Python 2, where None is below every proposal id. */
  predicate Below(a: Option<ProposalId>, b: Option<ProposalId>) {
    b.Some? && (a.None? || Less(a.value, b.value))
  }

  /** `a <= b` in Python 2. */
  predicate UpTo(a: Option<ProposalId>, b: Option<ProposalId>) {
    a == b || Below(a, b)
  }

  /** `max(a, b)` in Python 2. */
  function Later(a: Option<ProposalId>, b: Option<ProposalId>): Option<ProposalId> {
    if Below(a, b) then b else a
  }

  /** len(peers) / 2 + 1 with integer division. */
  function QuorumSize(peerCount: nat): nat {
    peerCount / 2 + 1
  }

  /** The least number that is more than half. */
  lemma QuorumIsLeastMajority(peerCount: nat)
    ensures 2 * QuorumSize(peerCount) > peerCount
    ensures forall k: nat :: 2 * k > peerCount ==> k >= QuorumSize(peerCount)
  {
  }

  /** Ids are in strict total order; the number decides, and between equal numbers the higher uid. */
  lemma IdsAreOrdered(a: ProposalId, b: ProposalId, c: ProposalId)
    ensures !Less(a, a) && (a == b || Less(a, b) || Less(b, a)) && !(Less(a, b) && Less(b, a))
    ensures Less(a, b) && Less(b, c) ==> Less(a, c)
    ensures a.number < b.number ==> Less(a, b)
    ensures a.number == b.number && a.uid < b.uid ==> Less(a, b)
    ensures Below(None, Some(a)) && !Below(Some(a), None) && !Below(None, None)
    ensures Later(Some(a), Some(b)) == Some(if Less(a, b) then b else a)
  {
  }

  predicate Distinct(peers: seq<Uid>) {
    forall i, j :: 0 <= i < j < |peers| ==> peers[i] != peers[j]
  }

  function Members(peers: seq<Uid>): set<Uid> {
    set u | u in peers
  }

  /** A list without repetitions has as many members as entries. */
  lemma {:induction false} MembersCount(peers: seq<Uid>)
    requires Distinct(peers)
    ensures |Members(peers)| == |peers|
  {
    if peers != [] {
      MembersCount(peers[1..]);
      assert peers == [peers[0]] + peers[1..];
      assert Members(peers) == {peers[0]} + Members(peers[1..]);
    }
  }

  /** Two quorums of the same peer list share a member: the fact every agreement argument rests on. */
  lemma {:induction false} QuorumsMeet(peers: seq<Uid>, q1: set<Uid>, q2: set<Uid>) returns (common: Uid)
    requires Distinct(peers)
    requires q1 <= Members(peers) && q2 <= Members(peers)
    requires |q1| >= QuorumSize(|peers|) && |q2| >= QuorumSize(|peers|)
    ensures common in q1 && common in q2
  {
    MembersCount(peers);
    SubsetSize(q1 + q2, Members(peers));
    assert |q1 + q2| + |q1 * q2| == |q1| + |q2|;
    assert q1 * q2 != {};
    common :| common in q1 * q2;
  }
}
