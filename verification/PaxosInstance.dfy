/** One link of the chain: proposer, acceptor and learner together (paxos/composable_paxos.py, class PaxosInstance). */
module PaxosInstances {
  import opened Options
  import opened Ballots
  import P = ProposerRole
  import A = AcceptorRole
  import L = LearnerRole

  datatype PaxosState = PaxosState(proposer: P.ProposerState, acceptor: A.AcceptorState, learner: L.LearnerState)

  function FreshPaxos(uid: Uid, quorumSize: nat, promisedId: Option<ProposalId>,
                      acceptedId: Option<ProposalId>, acceptedValue: Option<Value>): PaxosState
  {
    PaxosState(P.FreshProposer(uid, quorumSize),
               A.AcceptorState(uid, promisedId, acceptedId, acceptedValue),
               L.FreshLearner(uid, quorumSize))
  }

  /** Prepare and Accept messages are shown to the co-located proposer first. */
  function OnPrepare(x: PaxosState, id: ProposalId): (PaxosState, A.AcceptorReply) {
    var (acceptor, reply) := A.PrepareStep(x.acceptor, id);
    (x.(proposer := P.ObserveStep(x.proposer, Some(id)), acceptor := acceptor), reply)
  }

  function OnAccept(x: PaxosState, id: ProposalId, value: Value): (PaxosState, A.AcceptorReply) {
    var (acceptor, reply) := A.AcceptStep(x.acceptor, id, value);
    (x.(proposer := P.ObserveStep(x.proposer, Some(id)), acceptor := acceptor), reply)
  }

  /** The Python class inherits from the three roles; here it holds one object of each. */
  class PaxosInstance {
    const proposer: P.Proposer
    const acceptor: A.Acceptor
    const learner: L.Learner

    ghost predicate Valid()
      reads learner
    {
      learner.Valid()
    }

    ghost function Repr(): set<object>
      reads learner
    {
      {this, proposer, acceptor} + learner.Repr()
    }

    ghost function View(): PaxosState
      reads Repr()
    {
      PaxosState(proposer.View(), acceptor.View(), learner.View())
    }

    constructor (uid: Uid, quorumSize: nat, promisedId: Option<ProposalId>,
                 acceptedId: Option<ProposalId>, acceptedValue: Option<Value>)
      ensures Valid() && fresh(Repr())
      ensures View() == FreshPaxos(uid, quorumSize, promisedId, acceptedId, acceptedValue)
    {
      proposer := new P.Proposer(uid, quorumSize);
      acceptor := new A.Acceptor(uid, promisedId, acceptedId, acceptedValue);
      learner := new L.Learner(uid, quorumSize);
    }

    method ReceivePrepare(id: ProposalId) returns (reply: A.AcceptorReply)
      requires Valid()
      modifies proposer, acceptor
      ensures Valid() && Repr() == old(Repr())
      ensures (View(), reply) == OnPrepare(old(View()), id)
    {
      proposer.ObserveProposal(Some(id));
      reply := acceptor.ReceivePrepare(id);
    }

    method ReceiveAccept(id: ProposalId, value: Value) returns (reply: A.AcceptorReply)
      requires Valid()
      modifies proposer, acceptor
      ensures Valid() && Repr() == old(Repr())
      ensures (View(), reply) == OnAccept(old(View()), id, value)
    {
      proposer.ObserveProposal(Some(id));
      reply := acceptor.ReceiveAccept(id, value);
    }
  }
}
