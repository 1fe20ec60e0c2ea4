/** Every event keeps the invariant, and no handler raises. */
module Preservation {
  import opened Options
  import opened Ballots
  import opened PaxosInstances
  import opened Nodes
  import opened Network
  import opened Invariant
  import P = ProposerRole
  import L = LearnerRole

  lemma InitHolds(s: System)
    requires Init(s)
    ensures Inv(s)
  {
    MembersCount(s.peers);
    forall u | u in s.nodes
      ensures NodeOk(s, s.nodes[u])
    {
      assert s.nodes[u] == FreshNode(u, s.peers);
      FreshPaxosOk(s, s.nodes[u]);
    }
  }

  /** A node that has just entered an instance carries nothing over from the previous one. */
  lemma FreshPaxosOk(s: System, n: Node)
    requires n.paxos == FreshPaxos(n.uid, QuorumSize(|n.peers|), None, None, None)
    ensures ProposerOk(s, n.saved.instanceNumber, n.paxos.proposer)
    ensures AcceptorOk(s, n.uid, n.saved.instanceNumber, n.paxos.acceptor)
    ensures LearnerOk(s, n.saved.instanceNumber, n.paxos.learner)
  {
    assert L.LearnerOk(n.paxos.learner, {}) && ReallyCast(s, n.saved.instanceNumber, {});
  }

  lemma BroadcastPackets(n: Node, body: Body)
    ensures forall p :: p in Broadcast(n, body) ==>
              p.src == n.uid && p.instance == n.saved.instanceNumber && p.body == body
    ensures n.uid in n.peers ==> Packet(n.uid, n.uid, n.saved.instanceNumber, body) in Broadcast(n, body)
  {
    if n.uid in n.peers {
      var i :| 0 <= i < |n.peers| && n.peers[i] == n.uid;
      assert Broadcast(n, body)[i] == Packet(n.uid, n.uid, n.saved.instanceNumber, body);
    }
  }

  /** Stopping finds its looping call running and leaves none on air. */
  lemma StopLeavesNone(n: Node)
    requires OneTask(n)
    ensures StopDriving(n) == (n.(live := map[], retransmit := None), false)
  {
    if n.retransmit.Some? {
      assert n.live.Keys - {n.retransmit.value} == {};
      assert n.live - {n.retransmit.value} == map[];
    } else {
      assert n.live == map[];
    }
  }

  /** Raising the highest known id, or dropping the round's answers, keeps the proposer in order. */
  lemma ObservedOk(s: System, instance: nat, p: P.ProposerState, id: Option<ProposalId>)
    requires ProposerOk(s, instance, p)
    ensures ProposerOk(s, instance, P.ObserveStep(p, id))
  {
    P.ObserveEvolves(p, id);
    var q := P.ObserveStep(p, id);
    if p.promises.Some? {
      forall a | a in q.promises.value
        ensures Answered(s, a, instance, q)
      {
        assert Answered(s, a, instance, p);
      }
    }
  }

  lemma PreparedOk(s: System, instance: nat, p: P.ProposerState)
    requires ProposerOk(s, instance, p)
    ensures ProposerOk(s, instance, P.PrepareStep(p))
  {
    P.PrepareOutbids(p);
  }

  lemma ValueProposedOk(s: System, instance: nat, p: P.ProposerState, value: Value)
    requires ProposerOk(s, instance, p) && value in s.proposed
    ensures ProposerOk(s, instance, P.ProposeValueStep(p, value).0)
  {
    var q := P.ProposeValueStep(p, value).0;
    if p.promises.Some? {
      forall a | a in q.promises.value
        ensures Answered(s, a, instance, q)
      {
        assert Answered(s, a, instance, p);
      }
    }
  }

  // ----- Driving a new round -----

  /** What a node sends while at one place: copies of one message under its own name and instance. */
  ghost predicate Copies(n: Node, body: Body, sent: seq<Packet>) {
    && (forall p :: p in sent ==> p.src == n.uid && p.instance == n.saved.instanceNumber && p.body == body)
    && (n.uid in n.peers ==> Packet(n.uid, n.uid, n.saved.instanceNumber, body) in sent)
  }

  /** Replacing the retransmission: the old looping call is stopped, the new one is the only one on air. */
  lemma DriveEffect(m: Node)
    requires OneTask(m)
    ensures var q := P.PrepareStep(m.paxos.proposer);
            var o := DriveToResolution(m);
            && !o.raised
            && o.node == m.(paxos := m.paxos.(proposer := q), retransmit := Some(m.nextHandle),
                            live := map[m.nextHandle := PrepareTask(q.proposalId)], nextHandle := m.nextHandle + 1)
            && OneTask(o.node)
            && Copies(m, Prepare(q.proposalId), o.sent)
  {
    StopLeavesNone(m);
    var q := P.PrepareStep(m.paxos.proposer);
    var stopped := StopDriving(m).0;
    BroadcastPackets(stopped.(paxos := stopped.paxos.(proposer := q)), Prepare(q.proposalId));
  }

  lemma SendAcceptEffect(m: Node, id: ProposalId, value: Value)
    requires OneTask(m)
    ensures var o := SendAccept(m, id, value);
            && !o.raised
            && o.node == m.(retransmit := Some(m.nextHandle), live := map[m.nextHandle := AcceptTask(id, value)],
                            nextHandle := m.nextHandle + 1)
            && OneTask(o.node)
            && Copies(m, Accept(id, value), o.sent)
  {
    StopLeavesNone(m);
    BroadcastPackets(StopDriving(m).0, Accept(id, value));
  }

  /** The parts of NodeOk that neither the proposer nor the tasks touch. */
  lemma SameElsewhere(s: System, n: Node, m: Node)
    requires NodeOk(s, n)
    requires m == n.(paxos := n.paxos.(proposer := m.paxos.proposer), retransmit := m.retransmit,
                     live := m.live, nextHandle := m.nextHandle)
    requires ProposerOk(s, m.saved.instanceNumber, m.paxos.proposer) && TasksOk(s, m)
    ensures NodeOk(s, m)
  {
  }

  /** `m` is the node at `u`, its proposer perhaps given a value by this very event. */
  ghost predicate AboutToDrive(s: System, u: Uid, m: Node, proposed: set<Value>) {
    && Inv(s) && u in s.nodes
    && m == s.nodes[u].(paxos := s.nodes[u].paxos.(proposer := m.paxos.proposer))
    && P.ProposerEvolves(s.nodes[u].paxos.proposer, m.paxos.proposer)
    && ProposerOk(s.(proposed := s.proposed + proposed), m.saved.instanceNumber, m.paxos.proposer)
  }

  lemma DriveGrows(s: System, u: Uid, m: Node, proposed: set<Value>)
    requires AboutToDrive(s, u, m, proposed)
    ensures !DriveToResolution(m).raised
    ensures Grows(s, Advanced(s, u, DriveToResolution(m), proposed, {}))
  {
    assert NodeOk(s, s.nodes[u]) && Placed(s, u, s.nodes[u]);
    DriveEffect(m);
    P.PrepareOutbids(m.paxos.proposer);
    var o := DriveToResolution(m);
    assert NodeMoves(s.nodes[u], o.node);
    UpdateGrows(s, u, o, proposed, {});
  }

  lemma DriveNodeOk(s: System, u: Uid, m: Node, proposed: set<Value>)
    requires AboutToDrive(s, u, m, proposed)
    ensures NodeOk(Advanced(s, u, DriveToResolution(m), proposed, {}), DriveToResolution(m).node)
    ensures Placed(s, u, DriveToResolution(m).node)
  {
    DriveGrows(s, u, m, proposed);
    var n := s.nodes[u];
    assert NodeOk(s, n) && Placed(s, u, n);
    DriveEffect(m);
    var o := DriveToResolution(m);
    var t := Advanced(s, u, o, proposed, {});
    NodeStable(s, t, n);
    ProposedMore(s, t, proposed, m.saved.instanceNumber, m.paxos.proposer);
    PreparedOk(t, m.saved.instanceNumber, m.paxos.proposer);
    SameElsewhere(t, n, o.node);
  }

  lemma DriveKeepsInv(s: System, u: Uid, m: Node, proposed: set<Value>)
    requires AboutToDrive(s, u, m, proposed)
    ensures Inv(Advanced(s, u, DriveToResolution(m), proposed, {}))
  {
    var o := DriveToResolution(m);
    var t := Advanced(s, u, o, proposed, {});
    DriveGrows(s, u, m, proposed);
    DriveNodeOk(s, u, m, proposed);
    assert NodeOk(s, s.nodes[u]) && Placed(s, u, s.nodes[u]);
    DriveEffect(m);
    P.PrepareOutbids(m.paxos.proposer);
    forall p | p in o.sent
      ensures PacketOk(t, p)
    {
      assert p.body == Prepare(P.PrepareStep(m.paxos.proposer).proposalId);
    }
    InvFromNew(s, u, o, proposed, {});
  }

  lemma ProposedMore(s: System, t: System, proposed: set<Value>, instance: nat, p: P.ProposerState)
    requires Grows(s, t) && s.proposed + proposed <= t.proposed
    requires ProposerOk(s.(proposed := s.proposed + proposed), instance, p)
    ensures ProposerOk(t, instance, p)
  {
    var s' := s.(proposed := s.proposed + proposed);
    if p.promises.Some? {
      forall a | a in p.promises.value
        ensures Answered(t, a, instance, p)
      {
        assert Answered(s', a, instance, p);
      }
    }
  }
}
