/** Prepare and Accept messages reaching an acceptor keep the invariant. */
module AcceptorSteps {
  import opened Options
  import opened Ballots
  import opened PaxosInstances
  import opened Nodes
  import opened Network
  import opened Invariant
  import opened Preservation
  import P = ProposerRole
  import A = AcceptorRole

  /** The parts of NodeOk that an acceptor's reply does not touch. */
  lemma RolesElsewhere(s: System, n: Node, m: Node, id: ProposalId)
    requires NodeOk(s, n)
    requires m == n.(saved := m.saved,
                     paxos := PaxosState(P.ObserveStep(n.paxos.proposer, Some(id)), m.paxos.acceptor, n.paxos.learner))
    requires m.saved.instanceNumber == n.saved.instanceNumber && m.saved.currentValue == n.saved.currentValue
    requires AcceptorOk(s, m.uid, m.saved.instanceNumber, m.paxos.acceptor) && DiskOk(m)
    ensures NodeOk(s, m)
  {
    ObservedOk(s, n.saved.instanceNumber, n.paxos.proposer, Some(id));
    P.ObserveEvolves(n.paxos.proposer, Some(id));
    forall h | h in m.live
      ensures TaskOk(s, m, m.live[h])
    {
      assert TaskOk(s, n, n.live[h]);
    }
  }

  /** No vote of a node in the current instance lies above what it has accepted. */
  lemma NoVoteAboveAccepted(s: System, u: Uid, id: ProposalId, value: Value)
    requires Inv(s) && u in s.nodes
    requires Voted(s, u, s.nodes[u].saved.instanceNumber, id, value)
    ensures UpTo(Some(id), s.nodes[u].paxos.acceptor.acceptedId)
    ensures Ballot(s.nodes[u].saved.instanceNumber, id, value) in s.minted
  {
    assert PacketOk(s, Packet(u, u, s.nodes[u].saved.instanceNumber, Accepted(id, value)));
  }

  // ----- Prepare -----

  ghost predicate PrepareArrives(s: System, p: Packet) {
    && Inv(s) && p in s.net && p.dst in s.nodes && p.body.Prepare?
    && p.instance == s.nodes[p.dst].saved.instanceNumber
  }

  /** The effect of an acceptor's turn, field by field. */
  ghost predicate AcceptorTurn(n: Node, id: ProposalId, a: A.AcceptorState, o: Outcome) {
    && !o.raised
    && o.node == n.(saved := o.node.saved,
                    paxos := PaxosState(P.ObserveStep(n.paxos.proposer, Some(id)), a, n.paxos.learner))
    && o.node.saved.instanceNumber == n.saved.instanceNumber
    && o.node.saved.currentValue == n.saved.currentValue
    && DiskOk(o.node)
  }

  function PrepareReply(n: Node, from: Uid, id: ProposalId): seq<Packet> {
    Reply(n, from, if UpTo(n.paxos.acceptor.promisedId, Some(id))
                   then Promise(id, n.paxos.acceptor.acceptedId, n.paxos.acceptor.acceptedValue)
                   else Nack(id, n.saved.promisedId))
  }

  lemma PrepareTurn(n: Node, p: Packet)
    requires A.AcceptorOk(n.paxos.acceptor) && DiskOk(n)
    requires p.body.Prepare? && p.instance == n.saved.instanceNumber
    ensures AcceptorTurn(n, p.body.id, A.PrepareStep(n.paxos.acceptor, p.body.id).0, Receive(n, p, true))
    ensures Receive(n, p, true).sent == PrepareReply(n, p.src, p.body.id)
  {
  }

  /** An acceptor's turn is a growing step when its votes, if any, respect its promise. */
  lemma TurnGrows(s: System, u: Uid, id: ProposalId, a: A.AcceptorState, o: Outcome)
    requires u in s.nodes && AcceptorTurn(s.nodes[u], id, a, o)
    requires P.OwnId(s.nodes[u].paxos.proposer) && A.AcceptorEvolves(s.nodes[u].paxos.acceptor, a)
    requires forall p :: p in o.sent ==>
               && p.src == u && p.instance == s.nodes[u].saved.instanceNumber
               && (p.body.Accepted? ==> UpTo(s.nodes[u].paxos.acceptor.promisedId, Some(p.body.id)))
    ensures Grows(s, Advanced(s, u, o, {}, {}))
  {
    P.ObserveEvolves(s.nodes[u].paxos.proposer, Some(id));
    assert NodeMoves(s.nodes[u], o.node);
    UpdateGrows(s, u, o, {}, {});
  }

  lemma TurnKeepsInv(s: System, u: Uid, id: ProposalId, a: A.AcceptorState, o: Outcome)
    requires Inv(s) && u in s.nodes && AcceptorTurn(s.nodes[u], id, a, o)
    requires var t := Advanced(s, u, o, {}, {});
             && Grows(s, t)
             && AcceptorOk(t, u, s.nodes[u].saved.instanceNumber, a)
             && forall p :: p in o.sent ==> PacketOk(t, p)
    ensures Inv(Advanced(s, u, o, {}, {}))
  {
    var t := Advanced(s, u, o, {}, {});
    assert Placed(s, u, s.nodes[u]) && NodeOk(s, s.nodes[u]);
    NodeStable(s, t, s.nodes[u]);
    RolesElsewhere(t, s.nodes[u], o.node, id);
    InvFromNew(s, u, o, {}, {});
  }

  /** The votes of `u` in its current instance all lie at or below `top`. */
  ghost predicate VotesUpTo(s: System, u: Uid, instance: nat, top: Option<ProposalId>) {
    forall c, v :: Voted(s, u, instance, c, v) ==> UpTo(Some(c), top)
  }

  lemma VotesUpToAccepted(s: System, u: Uid)
    requires Inv(s) && u in s.nodes
    ensures VotesUpTo(s, u, s.nodes[u].saved.instanceNumber, s.nodes[u].paxos.acceptor.acceptedId)
  {
    forall c, v | Voted(s, u, s.nodes[u].saved.instanceNumber, c, v)
      ensures UpTo(Some(c), s.nodes[u].paxos.acceptor.acceptedId)
    {
      NoVoteAboveAccepted(s, u, c, v);
    }
  }

  /** The Promise is sound: its accepted pair was voted for, and nothing was voted for in between. */
  lemma PromiseIsSound(s: System, u: Uid, from: Uid, id: ProposalId, o: Outcome)
    requires u in s.nodes && s.nodes[u].uid == u && id.number >= 1
    requires var n := s.nodes[u];
             && AcceptorOk(s, u, n.saved.instanceNumber, n.paxos.acceptor)
             && VotesUpTo(s, u, n.saved.instanceNumber, n.paxos.acceptor.acceptedId)
             && AcceptorTurn(n, id, A.PrepareStep(n.paxos.acceptor, id).0, o)
             && o.sent == PrepareReply(n, from, id)
    ensures forall p :: p in o.sent ==> PacketOk(Advanced(s, u, o, {}, {}), p)
  {
    var n := s.nodes[u];
    var t := Advanced(s, u, o, {}, {});
    if UpTo(n.paxos.acceptor.promisedId, Some(id)) {
      assert VotesUpTo(t, u, n.saved.instanceNumber, n.paxos.acceptor.acceptedId) by {
        forall c, v | Voted(t, u, n.saved.instanceNumber, c, v)
          ensures Voted(s, u, n.saved.instanceNumber, c, v)
        {
        }
      }
      assert PromiseOk(t, u, n.saved.instanceNumber, id, n.paxos.acceptor.acceptedId, n.paxos.acceptor.acceptedValue);
    }
  }

  lemma PrepareKeepsInv(s: System, p: Packet)
    requires PrepareArrives(s, p)
    ensures !Receive(s.nodes[p.dst], p, true).raised
    ensures var t := Advanced(s, p.dst, Receive(s.nodes[p.dst], p, true), {}, {}); Grows(s, t) && Inv(t)
  {
    var n := s.nodes[p.dst];
    assert NodeOk(s, n) && Placed(s, p.dst, n) && PacketOk(s, p);
    PrepareTurn(n, p);
    VotesUpToAccepted(s, p.dst);
    PrepareKeepsInvBy(s, p.dst, p.src, p.body.id, Receive(n, p, true));
  }

  lemma PrepareKeepsInvBy(s: System, u: Uid, from: Uid, id: ProposalId, o: Outcome)
    requires Inv(s) && u in s.nodes && id.number >= 1
    requires NodeOk(s, s.nodes[u]) && Placed(s, u, s.nodes[u])
    requires VotesUpTo(s, u, s.nodes[u].saved.instanceNumber, s.nodes[u].paxos.acceptor.acceptedId)
    requires AcceptorTurn(s.nodes[u], id, A.PrepareStep(s.nodes[u].paxos.acceptor, id).0, o)
    requires o.sent == PrepareReply(s.nodes[u], from, id)
    ensures var t := Advanced(s, u, o, {}, {}); Grows(s, t) && Inv(t)
  {
    var a := A.PrepareStep(s.nodes[u].paxos.acceptor, id).0;
    A.AcceptorStepsEvolve(s.nodes[u].paxos.acceptor, id, "");
    TurnGrows(s, u, id, a, o);
    PromiseIsSound(s, u, from, id, o);
    TurnKeepsInv(s, u, id, a, o);
  }

  // ----- Accept -----

  ghost predicate AcceptArrives(s: System, p: Packet) {
    && Inv(s) && p in s.net && p.dst in s.nodes && p.body.Accept?
    && p.instance == s.nodes[p.dst].saved.instanceNumber
  }

  ghost predicate AcceptSends(n: Node, p: Packet, o: Outcome)
    requires p.body.Accept?
  {
    if UpTo(n.paxos.acceptor.promisedId, Some(p.body.id)) then
      Copies(n, Accepted(p.body.id, p.body.value), o.sent)
    else
      forall r :: r in o.sent ==> r.src == n.uid && r.instance == n.saved.instanceNumber && r.body.Nack?
  }

  lemma AcceptTurn(n: Node, p: Packet)
    requires A.AcceptorOk(n.paxos.acceptor) && DiskOk(n)
    requires p.body.Accept? && p.instance == n.saved.instanceNumber
    ensures AcceptorTurn(n, p.body.id, A.AcceptStep(n.paxos.acceptor, p.body.id, p.body.value).0, Receive(n, p, true))
    ensures AcceptSends(n, p, Receive(n, p, true))
  {
    BroadcastPackets(n.(paxos := OnAccept(n.paxos, p.body.id, p.body.value).0), Accepted(p.body.id, p.body.value));
  }

  /** The votes of a turn are backed by the ballot they answer. */
  lemma VotesAreSound(s: System, u: Uid, id: ProposalId, value: Value, o: Outcome)
    requires u in s.nodes && s.nodes[u].uid == u && u in s.nodes[u].peers
    requires Copies(s.nodes[u], Accepted(id, value), o.sent)
    requires Ballot(s.nodes[u].saved.instanceNumber, id, value) in s.minted
    requires o.node.saved.instanceNumber == s.nodes[u].saved.instanceNumber
    requires o.node.paxos.acceptor.acceptedId == Some(id)
    ensures var t := Advanced(s, u, o, {}, {});
            && Voted(t, u, s.nodes[u].saved.instanceNumber, id, value)
            && forall p :: p in o.sent ==> PacketOk(t, p)
  {
    var t := Advanced(s, u, o, {}, {});
    assert VoteOk(t, u, s.nodes[u].saved.instanceNumber, id, value);
  }

  lemma AcceptKeepsInv(s: System, p: Packet)
    requires AcceptArrives(s, p)
    ensures !Receive(s.nodes[p.dst], p, true).raised
    ensures var t := Advanced(s, p.dst, Receive(s.nodes[p.dst], p, true), {}, {}); Grows(s, t) && Inv(t)
  {
    var n := s.nodes[p.dst];
    assert NodeOk(s, n) && Placed(s, p.dst, n) && PacketOk(s, p);
    AcceptTurn(n, p);
    AcceptKeepsInvBy(s, p, Receive(n, p, true));
  }

  lemma AcceptKeepsInvBy(s: System, p: Packet, o: Outcome)
    requires AcceptArrives(s, p) && AcceptSends(s.nodes[p.dst], p, o)
    requires NodeOk(s, s.nodes[p.dst]) && Placed(s, p.dst, s.nodes[p.dst])
    requires Ballot(p.instance, p.body.id, p.body.value) in s.minted
    requires var a := A.AcceptStep(s.nodes[p.dst].paxos.acceptor, p.body.id, p.body.value).0;
             AcceptorTurn(s.nodes[p.dst], p.body.id, a, o)
    ensures var t := Advanced(s, p.dst, o, {}, {}); Grows(s, t) && Inv(t)
  {
    var n := s.nodes[p.dst];
    var a := A.AcceptStep(n.paxos.acceptor, p.body.id, p.body.value).0;
    A.AcceptorStepsEvolve(n.paxos.acceptor, p.body.id, p.body.value);
    TurnGrows(s, p.dst, p.body.id, a, o);
    if UpTo(n.paxos.acceptor.promisedId, Some(p.body.id)) {
      VotesAreSound(s, p.dst, p.body.id, p.body.value, o);
    }
    TurnKeepsInv(s, p.dst, p.body.id, a, o);
  }
}
