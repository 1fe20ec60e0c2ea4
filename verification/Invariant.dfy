/** The inductive invariant of the whole cluster, and what never goes back from one state to the next. */
module Invariant {
  import opened Options
  import opened Ballots
  import opened PaxosInstances
  import opened Nodes
  import opened Network
  import P = ProposerRole
  import A = AcceptorRole
  import L = LearnerRole

  // ----- Nodes -----

  ghost predicate Placed(s: System, u: Uid, n: Node) {
    && n.uid == u && n.peers == s.peers
    && n.paxos.proposer.uid == u && n.paxos.proposer.quorumSize == QuorumSize(|s.peers|)
    && n.paxos.learner.quorumSize == QuorumSize(|s.peers|)
  }

  /** The Promise behind a counted answer, and that its accepted id has been taken into account. */
  ghost predicate Answered(s: System, a: Uid, instance: nat, p: P.ProposerState) {
    a in s.nodes
    && exists lastId, lastValue ::
         Packet(a, p.uid, instance, Promise(p.proposalId, lastId, lastValue)) in s.net
         && UpTo(lastId, p.highestAcceptedId)
  }

  /**
   * The adopted id may stem from an earlier round, since prepare() does not
   * reset it; all that holds is that it lies below the current proposal id
   * and that the value held is the one minted under it.
   */
  ghost predicate ProposerOk(s: System, instance: nat, p: P.ProposerState) {
    && P.OwnId(p)
    && (p.proposedValue.Some? ==> p.proposedValue.value in s.proposed)
    && (p.promises.None? ==> p.proposalId.number == 0 && !p.leader)
    && (p.highestAcceptedId.Some? ==>
          && Less(p.highestAcceptedId.value, p.proposalId)
          && p.proposedValue.Some?
          && Ballot(instance, p.highestAcceptedId.value, p.proposedValue.value) in s.minted)
    && (p.promises.Some? ==> forall a :: a in p.promises.value ==> Answered(s, a, instance, p))
  }

  ghost predicate AcceptorOk(s: System, u: Uid, instance: nat, a: A.AcceptorState) {
    A.AcceptorOk(a) && (a.acceptedId.Some? ==> Voted(s, u, instance, a.acceptedId.value, a.acceptedValue.value))
  }

  /** Disk against memory: the promise in memory is the later of the two saved ids. */
  ghost predicate DiskOk(n: Node) {
    && n.paxos.acceptor.promisedId == Later(n.saved.promisedId, n.saved.acceptedId)
    && n.paxos.acceptor.acceptedId == n.saved.acceptedId
    && n.paxos.acceptor.acceptedValue == n.saved.acceptedValue
  }

  ghost predicate ReallyCast(s: System, instance: nat, heard: set<L.Vote>) {
    forall vote :: vote in heard ==>
      vote.from in Members(s.peers) && Voted(s, vote.from, instance, vote.id, vote.value)
  }

  ghost predicate LearnerOk(s: System, instance: nat, l: L.LearnerState) {
    exists heard :: L.LearnerOk(l, heard) && ReallyCast(s, instance, heard)
  }

  /**
   * A task on air speaks in the node's own name; one that sends an Accept
   * belongs to the round of the current instance's proposer. (A Prepare may be
   * of an earlier instance when a callback has raised.)
   */
  ghost predicate TaskOk(s: System, n: Node, task: Task) {
    match task
    case PrepareTask(id) => id.uid == n.uid && id.number >= 1
    case AcceptTask(id, value) =>
      id == n.paxos.proposer.proposalId && Ballot(n.saved.instanceNumber, id, value) in s.minted
  }

  /** At most one looping call runs, and retransmit_task refers to it. */
  ghost predicate OneTask(n: Node) {
    && n.live.Keys == (if n.retransmit.Some? then {n.retransmit.value} else {})
    && (n.retransmit.Some? ==> n.retransmit.value < n.nextHandle)
  }

  ghost predicate TasksOk(s: System, n: Node) {
    OneTask(n) && forall h :: h in n.live ==> TaskOk(s, n, n.live[h])
  }

  ghost predicate IsLink(s: System, instance: nat, value: Option<Value>) {
    instance >= 1 && value.Some? && Chosen(s, instance - 1, value.value)
  }

  ghost predicate ChainOk(s: System, n: Node) {
    && (if n.saved.instanceNumber == 0 then n.saved.currentValue.None?
        else IsLink(s, n.saved.instanceNumber, n.saved.currentValue))
    && (forall i :: 0 <= i < |n.updates| ==>
          IsLink(s, n.updates[i].instanceNumber, n.updates[i].value)
          && n.updates[i].instanceNumber <= n.saved.instanceNumber)
    && (forall i, j :: 0 <= i < j < |n.updates| ==> n.updates[i].instanceNumber < n.updates[j].instanceNumber)
  }

  ghost predicate NodeOk(s: System, n: Node) {
    && ProposerOk(s, n.saved.instanceNumber, n.paxos.proposer)
    && AcceptorOk(s, n.uid, n.saved.instanceNumber, n.paxos.acceptor)
    && LearnerOk(s, n.saved.instanceNumber, n.paxos.learner)
    && DiskOk(n)
    && TasksOk(s, n)
    && ChainOk(s, n)
  }

  // ----- Packets and ballots -----

  /** `a` has left the instance or holds a promise at or above `id`. */
  ghost predicate Pledged(s: System, a: Uid, instance: nat, id: ProposalId) {
    && a in s.nodes
    && (|| s.nodes[a].saved.instanceNumber > instance
        || (s.nodes[a].saved.instanceNumber == instance
            && UpTo(Some(id), s.nodes[a].paxos.acceptor.promisedId)))
  }

  /** `a` never voted strictly between `lastId` and `id`. */
  ghost predicate SilentBetween(s: System, a: Uid, instance: nat, lastId: Option<ProposalId>, id: ProposalId) {
    forall c, v :: Below(lastId, Some(c)) && Less(c, id) ==> !Voted(s, a, instance, c, v)
  }

  ghost predicate PromiseOk(s: System, a: Uid, instance: nat, id: ProposalId,
                            lastId: Option<ProposalId>, lastValue: Option<Value>)
  {
    && id.number >= 1
    && UpTo(lastId, Some(id))
    && (lastId.Some? ==> lastValue.Some? && Voted(s, a, instance, lastId.value, lastValue.value))
    && Pledged(s, a, instance, id)
    && SilentBetween(s, a, instance, lastId, id)
  }

  ghost predicate VoteOk(s: System, a: Uid, instance: nat, id: ProposalId, value: Value) {
    && Voted(s, a, instance, id, value)
    && Ballot(instance, id, value) in s.minted
    && a in s.nodes
    && (|| s.nodes[a].saved.instanceNumber > instance
        || (s.nodes[a].saved.instanceNumber == instance
            && UpTo(Some(id), s.nodes[a].paxos.acceptor.acceptedId)))
  }

  ghost predicate PacketOk(s: System, p: Packet) {
    && p.src in s.nodes
    && match p.body
       case Prepare(id) => id.uid == p.src && id.number >= 1
       case Promise(id, lastId, lastValue) => PromiseOk(s, p.src, p.instance, id, lastId, lastValue)
       case Accept(id, value) => id.uid == p.src && Ballot(p.instance, id, value) in s.minted
       case Accepted(id, value) => VoteOk(s, p.src, p.instance, id, value)
       case Catchup(current) => IsLink(s, p.instance, current)
       case _ => true
  }

  /** A ballot's proposer has moved on from it, or still leads with its value. */
  ghost predicate Owned(s: System, b: Ballot) {
    && b.id.uid in s.nodes
    && var n := s.nodes[b.id.uid];
       var p := n.paxos.proposer;
       || n.saved.instanceNumber > b.instance
       || (n.saved.instanceNumber == b.instance
           && (|| Less(b.id, p.proposalId)
               || (b.id == p.proposalId && p.leader && p.proposedValue == Some(b.value))))
  }

  ghost predicate BallotOk(s: System, b: Ballot) {
    Owned(s, b) && SafeAt(s, b.instance, b.id, b.value) && b.value in s.proposed
  }

  /** One value per instance and proposal id. */
  ghost predicate OneValue(minted: set<Ballot>) {
    forall b, c :: b in minted && c in minted && b.instance == c.instance && b.id == c.id ==> b == c
  }

  ghost predicate Inv(s: System) {
    && s.peers != [] && Distinct(s.peers) && s.nodes.Keys == Members(s.peers)
    && (forall u {:trigger NodeOk(s, s.nodes[u])} {:trigger Placed(s, u, s.nodes[u])} ::
          u in s.nodes ==> Placed(s, u, s.nodes[u]) && NodeOk(s, s.nodes[u]))
    && (forall p {:trigger PacketOk(s, p)} :: p in s.net ==> PacketOk(s, p))
    && (forall b {:trigger BallotOk(s, b)} :: b in s.minted ==> BallotOk(s, b))
    && OneValue(s.minted)
  }

  // ----- What never goes back -----

  ghost predicate NodeMoves(m: Node, n: Node) {
    && m.saved.instanceNumber <= n.saved.instanceNumber
    && (m.saved.instanceNumber == n.saved.instanceNumber ==>
          && P.ProposerEvolves(m.paxos.proposer, n.paxos.proposer)
          && A.AcceptorEvolves(m.paxos.acceptor, n.paxos.acceptor))
  }

  /** A vote cast between `s` and `t` is cast in the voter's instance of the moment, at or above its promise. */
  ghost predicate VotesKeepPromises(s: System, t: System) {
    forall a, k, id, v :: Voted(t, a, k, id, v) && !Voted(s, a, k, id, v) ==>
      && a in s.nodes
      && s.nodes[a].saved.instanceNumber == k
      && UpTo(s.nodes[a].paxos.acceptor.promisedId, Some(id))
  }

  ghost predicate Grows(s: System, t: System) {
    && t.peers == s.peers && t.nodes.Keys == s.nodes.Keys
    && s.net <= t.net && s.proposed <= t.proposed && s.minted <= t.minted
    && (forall u {:trigger NodeMoves(s.nodes[u], t.nodes[u])} :: u in s.nodes ==> NodeMoves(s.nodes[u], t.nodes[u]))
    && VotesKeepPromises(s, t)
  }

  lemma NeverVotesStable(s: System, t: System, a: Uid, instance: nat, id: ProposalId)
    requires Grows(s, t) && NeverVotes(s, a, instance, id)
    ensures NeverVotes(t, a, instance, id)
  {
    assert NodeMoves(s.nodes[a], t.nodes[a]);
  }

  lemma SafeStable(s: System, t: System, instance: nat, id: ProposalId, value: Value)
    requires Grows(s, t) && SafeAt(s, instance, id, value)
    ensures SafeAt(t, instance, id, value)
  {
    forall lower | Less(lower, id)
      ensures exists q :: Backing(t, instance, lower, value, q)
    {
      var q :| Backing(s, instance, lower, value, q);
      forall a | a in q
        ensures Voted(t, a, instance, lower, value) || NeverVotes(t, a, instance, lower)
      {
        if !Voted(s, a, instance, lower, value) {
          NeverVotesStable(s, t, a, instance, lower);
        }
      }
      assert Backing(t, instance, lower, value, q);
    }
  }

  lemma ChosenAtStable(s: System, t: System, instance: nat, id: ProposalId, value: Value)
    requires Grows(s, t) && ChosenAt(s, instance, id, value)
    ensures ChosenAt(t, instance, id, value)
  {
    var q :| QuorumVotedFor(s, instance, id, value, q);
    assert QuorumVotedFor(t, instance, id, value, q);
  }

  lemma LinkStable(s: System, t: System, instance: nat, value: Option<Value>)
    requires Grows(s, t) && IsLink(s, instance, value)
    ensures IsLink(t, instance, value)
  {
    var id :| ChosenAt(s, instance - 1, id, value.value);
    ChosenAtStable(s, t, instance - 1, id, value.value);
  }

  lemma PromiseStable(s: System, t: System, a: Uid, instance: nat, id: ProposalId,
                      lastId: Option<ProposalId>, lastValue: Option<Value>)
    requires Grows(s, t) && PromiseOk(s, a, instance, id, lastId, lastValue)
    ensures PromiseOk(t, a, instance, id, lastId, lastValue)
  {
    assert NodeMoves(s.nodes[a], t.nodes[a]);
  }

  lemma PacketStable(s: System, t: System, p: Packet)
    requires Grows(s, t) && PacketOk(s, p)
    ensures PacketOk(t, p)
  {
    assert NodeMoves(s.nodes[p.src], t.nodes[p.src]);
    match p.body
    case Promise(id, lastId, lastValue) => PromiseStable(s, t, p.src, p.instance, id, lastId, lastValue);
    case Catchup(current) => LinkStable(s, t, p.instance, current);
    case _ =>
  }

  lemma BallotStable(s: System, t: System, b: Ballot)
    requires Grows(s, t) && BallotOk(s, b)
    ensures BallotOk(t, b)
  {
    assert NodeMoves(s.nodes[b.id.uid], t.nodes[b.id.uid]);
    SafeStable(s, t, b.instance, b.id, b.value);
  }

  lemma ProposerStable(s: System, t: System, instance: nat, p: P.ProposerState)
    requires Grows(s, t) && ProposerOk(s, instance, p)
    ensures ProposerOk(t, instance, p)
  {
    if p.promises.Some? {
      forall a | a in p.promises.value
        ensures Answered(t, a, instance, p)
      {
        assert Answered(s, a, instance, p);
      }
    }
  }

  lemma LearnerStable(s: System, t: System, instance: nat, l: L.LearnerState)
    requires Grows(s, t) && LearnerOk(s, instance, l)
    ensures LearnerOk(t, instance, l)
  {
    var heard :| L.LearnerOk(l, heard) && ReallyCast(s, instance, heard);
    assert ReallyCast(t, instance, heard);
  }

  lemma ChainStable(s: System, t: System, n: Node)
    requires Grows(s, t) && ChainOk(s, n)
    ensures ChainOk(t, n)
  {
    if n.saved.instanceNumber > 0 {
      LinkStable(s, t, n.saved.instanceNumber, n.saved.currentValue);
    }
    forall i | 0 <= i < |n.updates|
      ensures IsLink(t, n.updates[i].instanceNumber, n.updates[i].value)
    {
      LinkStable(s, t, n.updates[i].instanceNumber, n.updates[i].value);
    }
  }

  lemma NodeStable(s: System, t: System, n: Node)
    requires Grows(s, t) && NodeOk(s, n)
    ensures NodeOk(t, n)
  {
    ProposerStable(s, t, n.saved.instanceNumber, n.paxos.proposer);
    LearnerStable(s, t, n.saved.instanceNumber, n.paxos.learner);
    ChainStable(s, t, n);
    forall h | h in n.live
      ensures TaskOk(t, n, n.live[h])
    {
      assert TaskOk(s, n, n.live[h]);
    }
  }

  /** Everything old survives a step that grows; only what the step adds has to be checked. */
  lemma InvFromNew(s: System, u: Uid, o: Outcome, proposed: set<Value>, minted: set<Ballot>)
    requires Inv(s) && u in s.nodes
    requires var t := Advanced(s, u, o, proposed, minted);
             && Grows(s, t)
             && Placed(s, u, o.node) && NodeOk(t, o.node)
             && (forall p :: p in o.sent ==> PacketOk(t, p))
             && (forall b :: b in minted ==> BallotOk(t, b))
             && OneValue(t.minted)
    ensures Inv(Advanced(s, u, o, proposed, minted))
  {
    var t := Advanced(s, u, o, proposed, minted);
    forall v | v in t.nodes
      ensures Placed(t, v, t.nodes[v]) && NodeOk(t, t.nodes[v])
    {
      if v != u {
        NodeStable(s, t, s.nodes[v]);
      }
    }
    forall p | p in t.net
      ensures PacketOk(t, p)
    {
      if p in s.net {
        PacketStable(s, t, p);
      }
    }
    forall b | b in t.minted
      ensures BallotOk(t, b)
    {
      if b in s.minted {
        BallotStable(s, t, b);
      }
    }
  }

  /** A step grows the system when its node moves forward and its packets carry the node's own tag. */
  lemma UpdateGrows(s: System, u: Uid, o: Outcome, proposed: set<Value>, minted: set<Ballot>)
    requires u in s.nodes && NodeMoves(s.nodes[u], o.node)
    requires forall p :: p in o.sent ==>
               && p.src == u && p.instance == s.nodes[u].saved.instanceNumber
               && (p.body.Accepted? ==> UpTo(s.nodes[u].paxos.acceptor.promisedId, Some(p.body.id)))
    ensures Grows(s, Advanced(s, u, o, proposed, minted))
  {
  }
}
