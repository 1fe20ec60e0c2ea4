/** Promises, Nacks, client proposals and timers keep the invariant; every ballot minted is safe. */
module ProposerSteps {
  import opened Options
  import opened Ballots
  import opened PaxosInstances
  import opened Nodes
  import opened Network
  import opened Invariant
  import opened Preservation
  import P = ProposerRole

  /** The effect of a proposer's turn: its own state and the retransmission, nothing else. */
  ghost predicate ProposerTurn(n: Node, q: P.ProposerState, o: Outcome) {
    && !o.raised
    && o.node == n.(paxos := n.paxos.(proposer := q), retransmit := o.node.retransmit,
                    live := o.node.live, nextHandle := o.node.nextHandle)
  }

  lemma ProposerTurnGrows(s: System, u: Uid, q: P.ProposerState, o: Outcome, minted: set<Ballot>)
    requires u in s.nodes && ProposerTurn(s.nodes[u], q, o)
    requires P.ProposerEvolves(s.nodes[u].paxos.proposer, q)
    requires forall p :: p in o.sent ==>
               p.src == u && p.instance == s.nodes[u].saved.instanceNumber && !p.body.Accepted?
    ensures Grows(s, Advanced(s, u, o, {}, minted))
  {
    assert NodeMoves(s.nodes[u], o.node);
    UpdateGrows(s, u, o, {}, minted);
  }

  lemma ProposerTurnKeepsInv(s: System, u: Uid, q: P.ProposerState, o: Outcome, minted: set<Ballot>)
    requires Inv(s) && u in s.nodes && ProposerTurn(s.nodes[u], q, o)
    requires q.uid == u && q.quorumSize == QuorumSize(|s.peers|)
    requires var t := Advanced(s, u, o, {}, minted);
             && Grows(s, t)
             && ProposerOk(t, s.nodes[u].saved.instanceNumber, q)
             && TasksOk(t, o.node)
             && (forall p :: p in o.sent ==> PacketOk(t, p))
             && (forall b :: b in minted ==> BallotOk(t, b))
             && OneValue(t.minted)
    ensures Inv(Advanced(s, u, o, {}, minted))
  {
    var t := Advanced(s, u, o, {}, minted);
    assert Placed(s, u, s.nodes[u]) && NodeOk(s, s.nodes[u]);
    NodeStable(s, t, s.nodes[u]);
    SameElsewhere(t, s.nodes[u], o.node);
    InvFromNew(s, u, o, {}, minted);
  }

  // ----- Nack -----

  lemma NackedOk(s: System, instance: nat, p: P.ProposerState, from: Uid, id: ProposalId,
                 promisedId: Option<ProposalId>)
    requires ProposerOk(s, instance, p)
    ensures ProposerOk(s, instance, P.NackStep(p, from, id, promisedId).0)
  {
    ObservedOk(s, instance, p, promisedId);
    var observed := P.ObserveStep(p, promisedId);
    if id == observed.proposalId && observed.nacks.Some? {
      var counted := observed.(nacks := Some(observed.nacks.value + {from}));
      assert ProposerOk(s, instance, counted) by {
        if observed.promises.Some? {
          forall a | a in counted.promises.value
            ensures Answered(s, a, instance, counted)
          {
            assert Answered(s, a, instance, observed);
          }
        }
      }
      PreparedOk(s, instance, counted);
    }
  }

  lemma NackTurn(n: Node, p: Packet)
    requires OneTask(n) && p.body.Nack? && p.instance == n.saved.instanceNumber
    ensures var q := P.NackStep(n.paxos.proposer, p.src, p.body.id, p.body.promisedId).0;
            var o := Receive(n, p, true);
            ProposerTurn(n, q, o) && o.sent == [] && o.node.live == map[] && o.node.retransmit == None
  {
    var q := P.NackStep(n.paxos.proposer, p.src, p.body.id, p.body.promisedId).0;
    StopLeavesNone(n.(paxos := n.paxos.(proposer := q)));
  }

  lemma NackKeepsInv(s: System, p: Packet)
    requires Inv(s) && p in s.net && p.dst in s.nodes && p.body.Nack?
    requires p.instance == s.nodes[p.dst].saved.instanceNumber
    ensures !Receive(s.nodes[p.dst], p, true).raised
    ensures var t := Advanced(s, p.dst, Receive(s.nodes[p.dst], p, true), {}, {}); Grows(s, t) && Inv(t)
  {
    var n := s.nodes[p.dst];
    assert NodeOk(s, n) && Placed(s, p.dst, n);
    NackTurn(n, p);
    var q := P.NackStep(n.paxos.proposer, p.src, p.body.id, p.body.promisedId).0;
    QuietTurnKeepsInv(s, p.dst, q, Receive(n, p, true)) by {
      P.NackEvolves(n.paxos.proposer, p.src, p.body.id, p.body.promisedId);
      NackedOk(s, n.saved.instanceNumber, n.paxos.proposer, p.src, p.body.id, p.body.promisedId);
    }
  }

  /** A proposer's turn that sends nothing, mints nothing, and keeps or stops its task. */
  lemma QuietTurnKeepsInv(s: System, u: Uid, q: P.ProposerState, o: Outcome)
    requires Inv(s) && u in s.nodes && ProposerTurn(s.nodes[u], q, o) && o.sent == []
    requires P.ProposerEvolves(s.nodes[u].paxos.proposer, q)
    requires ProposerOk(s, s.nodes[u].saved.instanceNumber, q) && TasksOk(s, o.node)
    ensures var t := Advanced(s, u, o, {}, {}); Grows(s, t) && Inv(t)
  {
    var t := Advanced(s, u, o, {}, {});
    assert Placed(s, u, s.nodes[u]);
    ProposerTurnGrows(s, u, q, o, {});
    ProposerStable(s, t, s.nodes[u].saved.instanceNumber, q);
    assert TasksOk(t, o.node) by {
      forall h | h in o.node.live
        ensures TaskOk(t, o.node, o.node.live[h])
      {
        assert TaskOk(s, o.node, o.node.live[h]);
      }
    }
    assert t.minted == s.minted;
    ProposerTurnKeepsInv(s, u, q, o, {});
  }

  // ----- Promise -----

  ghost predicate PromiseArrives(s: System, p: Packet) {
    && Inv(s) && p in s.net && p.dst in s.nodes && p.body.Promise?
    && p.instance == s.nodes[p.dst].saved.instanceNumber
  }

  ghost function Observed(s: System, p: Packet): P.ProposerState
    requires p.dst in s.nodes && p.body.Promise?
  {
    P.ObserveStep(s.nodes[p.dst].paxos.proposer, Some(p.body.id))
  }

  /** The proposer after counting a Promise, before the quorum test. */
  ghost function CountedPromise(s: System, p: Packet): P.ProposerState
    requires p.dst in s.nodes && p.body.Promise? && Observed(s, p).promises.Some?
  {
    var o := Observed(s, p);
    P.Adopt(o.(promises := Some(o.promises.value + {p.src})), p.body.lastId, p.body.lastValue)
  }

  /** An accepted pair reported in a Promise was minted in that instance and proposed by a client. */
  lemma ReportedPairIsMinted(s: System, a: Uid, instance: nat, id: ProposalId, value: Value)
    requires Inv(s) && Voted(s, a, instance, id, value)
    ensures Ballot(instance, id, value) in s.minted && value in s.proposed
  {
    assert PacketOk(s, Packet(a, a, instance, Accepted(id, value)));
    assert BallotOk(s, Ballot(instance, id, value));
  }

  /** A proposer that is not yet the leader of its round has minted nothing in it. */
  lemma NothingMintedYet(s: System, u: Uid)
    requires Inv(s) && u in s.nodes && !s.nodes[u].paxos.proposer.leader
    ensures forall b :: b in s.minted && b.instance == s.nodes[u].saved.instanceNumber ==>
              b.id != s.nodes[u].paxos.proposer.proposalId
  {
    assert NodeOk(s, s.nodes[u]) && Placed(s, u, s.nodes[u]);
    forall b | b in s.minted && b.instance == s.nodes[u].saved.instanceNumber
      ensures b.id != s.nodes[u].paxos.proposer.proposalId
    {
      assert BallotOk(s, b);
    }
  }

  /** A Promise that is counted reports an accepted id strictly below the id it answers. */
  lemma CountedPromiseIsOlder(s: System, p: Packet)
    requires PromiseArrives(s, p) && P.Counts(Observed(s, p), p.src, p.body.id)
    ensures Below(p.body.lastId, Some(p.body.id))
  {
    assert PacketOk(s, p);
    if p.body.lastId == Some(p.body.id) {
      ReportedPairIsMinted(s, p.src, p.instance, p.body.id, p.body.lastValue.value);
      NothingMintedYet(s, p.dst);
      assert false;
    }
  }

  /** The TypeError of a proposer that never prepared cannot happen: ids of round 0 are never promised. */
  lemma PromiseNeverRaises(s: System, p: Packet)
    requires PromiseArrives(s, p)
    requires p.body.id == Observed(s, p).proposalId
    ensures Observed(s, p).promises.Some?
  {
    assert NodeOk(s, s.nodes[p.dst]) && PacketOk(s, p);
    ObservedOk(s, p.instance, s.nodes[p.dst].paxos.proposer, Some(p.body.id));
  }

  /** Adopting a reported pair keeps the value tied to the highest reported id. */
  lemma AdoptedOk(s: System, instance: nat, o: P.ProposerState, a: Uid,
                  lastId: Option<ProposalId>, lastValue: Option<Value>)
    requires ProposerOk(s, instance, o) && o.promises.Some? && a in s.nodes
    requires Packet(a, o.uid, instance, Promise(o.proposalId, lastId, lastValue)) in s.net
    requires Below(lastId, Some(o.proposalId))
    requires lastId.Some? ==> lastValue.Some? && lastValue.value in s.proposed
                              && Ballot(instance, lastId.value, lastValue.value) in s.minted
    ensures ProposerOk(s, instance, P.Adopt(o.(promises := Some(o.promises.value + {a})), lastId, lastValue))
  {
    var q := P.Adopt(o.(promises := Some(o.promises.value + {a})), lastId, lastValue);
    assert UpTo(o.highestAcceptedId, q.highestAcceptedId) && UpTo(lastId, q.highestAcceptedId);
    forall b | b in q.promises.value
      ensures Answered(s, b, instance, q)
    {
      if b in o.promises.value {
        assert Answered(s, b, instance, o);
      }
    }
  }

  lemma CountingOk(s: System, p: Packet)
    requires PromiseArrives(s, p) && P.Counts(Observed(s, p), p.src, p.body.id)
    ensures ProposerOk(s, p.instance, CountedPromise(s, p))
  {
    var n := s.nodes[p.dst];
    assert NodeOk(s, n) && PacketOk(s, p) && Placed(s, p.dst, n);
    ObservedOk(s, p.instance, n.paxos.proposer, Some(p.body.id));
    CountedPromiseIsOlder(s, p);
    if p.body.lastId.Some? {
      ReportedPairIsMinted(s, p.src, p.instance, p.body.lastId.value, p.body.lastValue.value);
    }
    AdoptedOk(s, p.instance, Observed(s, p), p.src, p.body.lastId, p.body.lastValue);
  }

  /** What a sound Promise for `id` says about a lower id. */
  lemma PromiseBinds(s: System, a: Uid, instance: nat, id: ProposalId,
                     lastId: Option<ProposalId>, lastValue: Option<Value>, lower: ProposalId)
    requires PromiseOk(s, a, instance, id, lastId, lastValue) && Less(lower, id)
    ensures Below(lastId, Some(lower)) ==> NeverVotes(s, a, instance, lower)
    ensures (forall v :: !Voted(s, a, instance, lower, v)) ==> NeverVotes(s, a, instance, lower)
  {
  }

  /** A member of the answering quorum can have voted only at or below the highest id reported. */
  lemma AnswererBelow(s: System, a: Uid, instance: nat, p: P.ProposerState, lower: ProposalId)
    requires Inv(s) && Answered(s, a, instance, p) && Less(lower, p.proposalId)
    ensures Below(p.highestAcceptedId, Some(lower)) ==> NeverVotes(s, a, instance, lower)
    ensures (forall v :: !Voted(s, a, instance, lower, v)) ==> NeverVotes(s, a, instance, lower)
  {
    var lastId, lastValue :| Packet(a, p.uid, instance, Promise(p.proposalId, lastId, lastValue)) in s.net
                             && UpTo(lastId, p.highestAcceptedId);
    assert PacketOk(s, Packet(a, p.uid, instance, Promise(p.proposalId, lastId, lastValue)));
    PromiseBinds(s, a, instance, p.proposalId, lastId, lastValue, lower);
  }

  /** At the adopted id itself, a vote can only be for the adopted value. */
  lemma AnswererAt(s: System, a: Uid, instance: nat, p: P.ProposerState, lower: ProposalId, value: Value)
    requires Inv(s) && Answered(s, a, instance, p) && Less(lower, p.proposalId)
    requires Ballot(instance, lower, value) in s.minted
    ensures Voted(s, a, instance, lower, value) || NeverVotes(s, a, instance, lower)
  {
    AnswererBelow(s, a, instance, p, lower);
    if v :| Voted(s, a, instance, lower, v) {
      ReportedPairIsMinted(s, a, instance, lower, v);
      assert Ballot(instance, lower, v) == Ballot(instance, lower, value);
    }
  }

  lemma AnswerersAreMembers(s: System, instance: nat, p: P.ProposerState)
    requires s.nodes.Keys == Members(s.peers) && ProposerOk(s, instance, p) && p.promises.Some?
    ensures p.promises.value <= Members(s.peers)
  {
    forall a | a in p.promises.value
      ensures a in Members(s.peers)
    {
      assert Answered(s, a, instance, p);
      assert a in s.nodes.Keys;
    }
  }

  /** A proposer holding a value and the answers of a quorum. */
  ghost predicate HasQuorum(s: System, instance: nat, p: P.ProposerState) {
    && ProposerOk(s, instance, p) && p.proposedValue.Some?
    && p.promises.Some? && IsQuorum(s, p.promises.value)
    && forall a :: a in p.promises.value ==> Answered(s, a, instance, p)
  }

  /** Above the highest reported id no answerer voted or ever will. */
  lemma BackedAbove(s: System, instance: nat, p: P.ProposerState, lower: ProposalId)
    requires Inv(s) && HasQuorum(s, instance, p) && Less(lower, p.proposalId)
    requires Below(p.highestAcceptedId, Some(lower))
    ensures Backing(s, instance, lower, p.proposedValue.value, p.promises.value)
  {
    forall a | a in p.promises.value
      ensures NeverVotes(s, a, instance, lower)
    {
      AnswererBelow(s, a, instance, p, lower);
    }
  }

  lemma BackedAt(s: System, instance: nat, p: P.ProposerState, lower: ProposalId)
    requires Inv(s) && HasQuorum(s, instance, p) && Less(lower, p.proposalId)
    requires p.highestAcceptedId == Some(lower)
    ensures Backing(s, instance, lower, p.proposedValue.value, p.promises.value)
  {
    forall a | a in p.promises.value
      ensures Voted(s, a, instance, lower, p.proposedValue.value) || NeverVotes(s, a, instance, lower)
    {
      AnswererAt(s, a, instance, p, lower, p.proposedValue.value);
    }
  }

  /** Below the highest reported id the value was already safe when it was minted there. */
  lemma BackedBelow(s: System, instance: nat, p: P.ProposerState, lower: ProposalId)
    requires Inv(s) && HasQuorum(s, instance, p)
    requires Below(Some(lower), p.highestAcceptedId)
    ensures exists backers :: Backing(s, instance, lower, p.proposedValue.value, backers)
  {
    assert BallotOk(s, Ballot(instance, p.highestAcceptedId.value, p.proposedValue.value));
  }

  /**
   * The heart of the protocol: with a quorum of answers the value held is
   * safe at the round's id, although it may have been adopted in an earlier round.
   */
  lemma QuorumOfAnswersIsSafe(s: System, instance: nat, p: P.ProposerState)
    requires Inv(s) && HasQuorum(s, instance, p)
    ensures SafeAt(s, instance, p.proposalId, p.proposedValue.value)
  {
    forall lower | Less(lower, p.proposalId)
      ensures exists backers :: Backing(s, instance, lower, p.proposedValue.value, backers)
    {
      if Below(p.highestAcceptedId, Some(lower)) {
        BackedAbove(s, instance, p, lower);
      } else if p.highestAcceptedId == Some(lower) {
        BackedAt(s, instance, p, lower);
      } else {
        BackedBelow(s, instance, p, lower);
      }
    }
  }

  // ----- Election -----

  /** The proposer that has just won the election and mints a ballot. */
  ghost predicate Elected(s: System, p: Packet) {
    && PromiseArrives(s, p) && P.Counts(Observed(s, p), p.src, p.body.id)
    && |CountedPromise(s, p).promises.value| == QuorumSize(|s.peers|)
    && CountedPromise(s, p).proposedValue.Some?
  }

  ghost function NewBallot(s: System, p: Packet): Ballot
    requires Elected(s, p)
  {
    Ballot(p.instance, p.body.id, CountedPromise(s, p).proposedValue.value)
  }

  /** The minted ballot is safe, new, and carries a client's value. */
  lemma NewBallotIsSafe(s: System, p: Packet)
    requires Elected(s, p)
    ensures SafeAt(s, p.instance, p.body.id, NewBallot(s, p).value) && NewBallot(s, p).value in s.proposed
  {
    CountingOk(s, p);
    var c := CountedPromise(s, p);
    AnswerersAreMembers(s, p.instance, c);
    QuorumOfAnswersIsSafe(s, p.instance, c);
  }

  lemma NewBallotIsNew(s: System, p: Packet)
    requires Elected(s, p)
    ensures OneValue(s.minted + {NewBallot(s, p)})
  {
    NothingMintedYet(s, p.dst);
  }

  lemma LeaderOk(s: System, instance: nat, c: P.ProposerState)
    requires ProposerOk(s, instance, c) && c.promises.Some?
    ensures ProposerOk(s, instance, c.(leader := true))
  {
    forall a | a in c.promises.value
      ensures Answered(s, a, instance, c.(leader := true))
    {
      assert Answered(s, a, instance, c);
    }
  }

  /** A Promise that elects nobody, or a leader without a value. */
  lemma QuietPromiseKeepsInv(s: System, p: Packet)
    requires PromiseArrives(s, p)
    requires !P.PromiseStep(s.nodes[p.dst].paxos.proposer, p.src, p.body.id,
                            p.body.lastId, p.body.lastValue).1.SendAccept?
    ensures !Receive(s.nodes[p.dst], p, true).raised
    ensures var t := Advanced(s, p.dst, Receive(s.nodes[p.dst], p, true), {}, {}); Grows(s, t) && Inv(t)
  {
    var n := s.nodes[p.dst];
    assert NodeOk(s, n) && Placed(s, p.dst, n);
    var (q, reply) := P.PromiseStep(n.paxos.proposer, p.src, p.body.id, p.body.lastId, p.body.lastValue);
    if p.body.id == Observed(s, p).proposalId {
      PromiseNeverRaises(s, p);
    }
    assert reply == P.Quiet;
    P.PromiseEvolves(n.paxos.proposer, p.src, p.body.id, p.body.lastId, p.body.lastValue);
    ObservedOk(s, p.instance, n.paxos.proposer, Some(p.body.id));
    if P.Counts(Observed(s, p), p.src, p.body.id) {
      CountingOk(s, p);
      LeaderOk(s, p.instance, CountedPromise(s, p));
    }
    var o := Receive(n, p, true);
    assert o == Outcome(n.(paxos := n.paxos.(proposer := q)), [], false);
    forall h | h in o.node.live
      ensures TaskOk(s, o.node, o.node.live[h])
    {
      assert TaskOk(s, n, n.live[h]);
    }
    QuietTurnKeepsInv(s, p.dst, q, o);
  }

  /** The effect of winning an election with a value in hand. */
  lemma ElectionTurn(n: Node, p: Packet, c: P.ProposerState)
    requires OneTask(n) && p.body.Promise? && p.instance == n.saved.instanceNumber
    requires var o := P.ObserveStep(n.paxos.proposer, Some(p.body.id));
             && P.Counts(o, p.src, p.body.id)
             && c == P.Adopt(o.(promises := Some(o.promises.value + {p.src})), p.body.lastId, p.body.lastValue)
    requires |c.promises.value| == c.quorumSize && c.proposedValue.Some?
    ensures var q := c.(leader := true);
            var o := Receive(n, p, true);
            && P.PromiseStep(n.paxos.proposer, p.src, p.body.id, p.body.lastId, p.body.lastValue)
               == (q, P.SendAccept(p.body.id, c.proposedValue.value))
            && ProposerTurn(n, q, o)
            && OneTask(o.node) && o.node.live == map[n.nextHandle := AcceptTask(p.body.id, c.proposedValue.value)]
            && Copies(n, Accept(p.body.id, c.proposedValue.value), o.sent)
  {
    SendAcceptEffect(n.(paxos := n.paxos.(proposer := c.(leader := true))), p.body.id, c.proposedValue.value);
  }

  /** A ballot just minted is owned by the leader that minted it. */
  lemma NewBallotOk(s: System, t: System, u: Uid, b: Ballot)
    requires Grows(s, t) && u in t.nodes && b.id.uid == u
    requires SafeAt(s, b.instance, b.id, b.value) && b.value in s.proposed
    requires t.nodes[u].saved.instanceNumber == b.instance
    requires var q := t.nodes[u].paxos.proposer; q.proposalId == b.id && q.leader && q.proposedValue == Some(b.value)
    ensures BallotOk(t, b)
  {
    SafeStable(s, t, b.instance, b.id, b.value);
  }

  lemma ElectionKeepsInv(s: System, p: Packet)
    requires Elected(s, p)
    ensures !Receive(s.nodes[p.dst], p, true).raised
    ensures var t := Advanced(s, p.dst, Receive(s.nodes[p.dst], p, true), {}, {NewBallot(s, p)});
            Grows(s, t) && Inv(t)
  {
    NewBallotIsSafe(s, p);
    NewBallotIsNew(s, p);
    CountingOk(s, p);
    LeaderOk(s, p.instance, CountedPromise(s, p));
    var n := s.nodes[p.dst];
    assert NodeOk(s, n) && Placed(s, p.dst, n);
    ElectionTurn(n, p, CountedPromise(s, p));
    P.PromiseEvolves(n.paxos.proposer, p.src, p.body.id, p.body.lastId, p.body.lastValue);
    ElectionKeepsInvBy(s, p.dst, CountedPromise(s, p).(leader := true), Receive(n, p, true), NewBallot(s, p));
  }

  lemma ElectionKeepsInvBy(s: System, u: Uid, q: P.ProposerState, o: Outcome, b: Ballot)
    requires Inv(s) && u in s.nodes && ProposerTurn(s.nodes[u], q, o) && Placed(s, u, s.nodes[u])
    requires q.uid == u && q.quorumSize == QuorumSize(|s.peers|)
    requires P.ProposerEvolves(s.nodes[u].paxos.proposer, q)
    requires ProposerOk(s, b.instance, q) && b.instance == s.nodes[u].saved.instanceNumber
    requires q.leader && q.proposalId == b.id && q.proposedValue == Some(b.value)
    requires SafeAt(s, b.instance, b.id, b.value) && OneValue(s.minted + {b})
    requires OneTask(o.node) && (forall h :: h in o.node.live ==> o.node.live[h] == AcceptTask(b.id, b.value))
    requires Copies(s.nodes[u], Accept(b.id, b.value), o.sent)
    ensures var t := Advanced(s, u, o, {}, {b}); Grows(s, t) && Inv(t)
  {
    ProposerTurnGrows(s, u, q, o, {b});
    var t := Advanced(s, u, o, {}, {b});
    ProposerStable(s, t, b.instance, q);
    NewBallotOk(s, t, u, b);
    ProposerTurnKeepsInv(s, u, q, o, {b});
  }

  /** What the proposer returns for a Promise. */
  ghost function PromiseReply(n: Node, p: Packet): P.ProposerReply
    requires p.body.Promise?
  {
    P.PromiseStep(n.paxos.proposer, p.src, p.body.id, p.body.lastId, p.body.lastValue).1
  }

  /** An Accept comes back exactly from a won election. */
  lemma AcceptMeansElected(s: System, p: Packet)
    requires PromiseArrives(s, p)
    ensures PromiseReply(s.nodes[p.dst], p).SendAccept? <==> Elected(s, p)
    ensures Elected(s, p) ==> PromiseReply(s.nodes[p.dst], p) == P.SendAccept(p.body.id, NewBallot(s, p).value)
  {
    assert Placed(s, p.dst, s.nodes[p.dst]);
  }

  /** The history records exactly the ballot of a won election. */
  lemma MintedByPromise(s: System, p: Packet)
    requires PromiseArrives(s, p)
    ensures Minted(s, Deliver(p, true)) == if Elected(s, p) then {NewBallot(s, p)} else {}
    ensures PromiseReply(s.nodes[p.dst], p).SendAccept? <==> Elected(s, p)
  {
    AcceptMeansElected(s, p);
  }

  /** Any Promise for the current instance. */
  lemma PromiseKeepsInv(s: System, p: Packet)
    requires PromiseArrives(s, p)
    ensures !Receive(s.nodes[p.dst], p, true).raised
    ensures var t := Advanced(s, p.dst, Receive(s.nodes[p.dst], p, true), {}, Minted(s, Deliver(p, true)));
            Grows(s, t) && Inv(t)
  {
    MintedByPromise(s, p);
    if Elected(s, p) {
      ElectionKeepsInv(s, p);
    } else {
      QuietPromiseKeepsInv(s, p);
    }
  }

  // ----- Clients and timers -----

  lemma ProposeKeepsInv(s: System, u: Uid, value: Value)
    requires Inv(s) && u in s.nodes
    ensures !ProposeUpdate(s.nodes[u], value).raised
    ensures var t := Advanced(s, u, ProposeUpdate(s.nodes[u], value), {value}, {}); Grows(s, t) && Inv(t)
  {
    var n := s.nodes[u];
    assert NodeOk(s, n) && Placed(s, u, n);
    var q := P.ProposeValueStep(n.paxos.proposer, value).0;
    var m := n.(paxos := n.paxos.(proposer := q));
    var s' := s.(proposed := s.proposed + {value});
    assert ProposerOk(s', n.saved.instanceNumber, n.paxos.proposer) by {
      if n.paxos.proposer.promises.Some? {
        forall a | a in n.paxos.proposer.promises.value
          ensures Answered(s', a, n.saved.instanceNumber, n.paxos.proposer)
        {
          assert Answered(s, a, n.saved.instanceNumber, n.paxos.proposer);
        }
      }
    }
    P.ProposeValueEvolves(n.paxos.proposer, value);
    ValueProposedOk(s', n.saved.instanceNumber, n.paxos.proposer, value);
    DriveGrows(s, u, m, {value});
    DriveKeepsInv(s, u, m, {value});
  }

  lemma DriveTimerKeepsInv(s: System, u: Uid)
    requires Inv(s) && u in s.nodes
    ensures !DriveToResolution(s.nodes[u]).raised
    ensures var t := Advanced(s, u, DriveToResolution(s.nodes[u]), {}, {}); Grows(s, t) && Inv(t)
  {
    assert NodeOk(s, s.nodes[u]) && Placed(s, u, s.nodes[u]);
    assert s.(proposed := s.proposed + {}) == s;
    DriveGrows(s, u, s.nodes[u], {});
    DriveKeepsInv(s, u, s.nodes[u], {});
  }

  /** A retransmission repeats a message of the current round under the current instance. */
  lemma RetransmitKeepsInv(s: System, u: Uid, handle: nat)
    requires Inv(s) && u in s.nodes && handle in s.nodes[u].live
    ensures var t := Advanced(s, u, FireTask(s.nodes[u], s.nodes[u].live[handle]), {}, {}); Grows(s, t) && Inv(t)
  {
    var n := s.nodes[u];
    assert NodeOk(s, n) && Placed(s, u, n);
    var task := n.live[handle];
    assert TaskOk(s, n, task);
    BroadcastPackets(n, TaskBody(task));
    SpeakingKeepsInv(s, u, FireTask(n, task));
  }

  /** A node may say anything true about the state at any time. */
  lemma SpeakingKeepsInv(s: System, u: Uid, o: Outcome)
    requires Inv(s) && u in s.nodes && o.node == s.nodes[u]
    requires forall p :: p in o.sent ==>
               p.src == u && p.instance == o.node.saved.instanceNumber && !p.body.Accepted? && PacketOk(s, p)
    ensures var t := Advanced(s, u, o, {}, {}); Grows(s, t) && Inv(t)
  {
    var t := Advanced(s, u, o, {}, {});
    assert NodeOk(s, s.nodes[u]) && Placed(s, u, s.nodes[u]);
    UpdateGrows(s, u, o, {}, {});
    NodeStable(s, t, s.nodes[u]);
    forall p | p in o.sent
      ensures PacketOk(t, p)
    {
      PacketStable(s, t, p);
    }
    assert t.minted == s.minted;
    InvFromNew(s, u, o, {}, {});
  }
}
