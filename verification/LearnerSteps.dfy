/** Accepted messages, resolutions and catch-ups keep the invariant and the chain. */
module LearnerSteps {
  import opened Options
  import opened Ballots
  import opened PaxosInstances
  import opened Nodes
  import opened Network
  import opened Invariant
  import opened Preservation
  import opened ProposerSteps
  import L = LearnerRole

  ghost predicate AcceptedArrives(s: System, p: Packet) {
    && Inv(s) && p in s.net && p.dst in s.nodes && p.body.Accepted?
    && p.instance == s.nodes[p.dst].saved.instanceNumber
  }

  /** Votes really cast never contradict each other. */
  lemma CastVotesAgree(s: System, instance: nat, heard: set<L.Vote>)
    requires Inv(s) && ReallyCast(s, instance, heard)
    ensures L.OneValuePerId(heard)
  {
    forall a, b | a in heard && b in heard && a.id == b.id
      ensures a.value == b.value
    {
      ReportedPairIsMinted(s, a.from, instance, a.id, a.value);
      ReportedPairIsMinted(s, b.from, instance, b.id, b.value);
    }
  }

  /** The votes behind a node's learner, the arriving one included. */
  lemma HeardWith(s: System, p: Packet) returns (heard: set<L.Vote>)
    requires AcceptedArrives(s, p)
    ensures L.LearnerOk(s.nodes[p.dst].paxos.learner, heard)
    ensures ReallyCast(s, p.instance, heard + {L.Vote(p.src, p.body.id, p.body.value)})
    ensures L.OneValuePerId(heard + {L.Vote(p.src, p.body.id, p.body.value)})
  {
    var n := s.nodes[p.dst];
    assert NodeOk(s, n) && PacketOk(s, p);
    heard :| L.LearnerOk(n.paxos.learner, heard) && ReallyCast(s, p.instance, heard);
    assert p.src in s.nodes.Keys;
    CastVotesAgree(s, p.instance, heard + {L.Vote(p.src, p.body.id, p.body.value)});
  }

  ghost function LearnerTurn(n: Node, p: Packet): (L.LearnerState, L.LearnerReply)
    requires p.body.Accepted?
  {
    L.AcceptedStep(n.paxos.learner, p.src, p.body.id, p.body.value)
  }

  /** A learner that says nothing stays in order; one that resolves has seen a value chosen. */
  lemma LearnerTurnIsSound(s: System, p: Packet)
    requires AcceptedArrives(s, p)
    ensures LearnerTurn(s.nodes[p.dst], p).1 != L.Raised
    ensures LearnerTurn(s.nodes[p.dst], p).1 == L.Silent ==>
              LearnerOk(s, p.instance, LearnerTurn(s.nodes[p.dst], p).0)
    ensures LearnerTurn(s.nodes[p.dst], p).1.Resolution? ==>
              LearnerTurn(s.nodes[p.dst], p).1.value == p.body.value
              && ChosenAt(s, p.instance, p.body.id, p.body.value)
  {
    var n := s.nodes[p.dst];
    assert Placed(s, p.dst, n);
    var heard := HeardWith(s, p);
    var more := heard + {L.Vote(p.src, p.body.id, p.body.value)};
    L.AcceptedStepIsSound(n.paxos.learner, heard, p.src, p.body.id, p.body.value);
    if LearnerTurn(n, p).1.Resolution? {
      var voters :| L.QuorumVoted(more, n.paxos.learner.quorumSize, p.body.id, p.body.value, voters);
      QuorumIsReal(s, p.instance, p.body.id, p.body.value, more, voters);
    }
  }

  lemma QuorumIsReal(s: System, instance: nat, id: ProposalId, value: Value, heard: set<L.Vote>, voters: set<Uid>)
    requires ReallyCast(s, instance, heard)
    requires L.QuorumVoted(heard, QuorumSize(|s.peers|), id, value, voters)
    ensures ChosenAt(s, instance, id, value)
  {
    assert voters <= Members(s.peers) by {
      forall u | u in voters
        ensures u in Members(s.peers)
      {
        assert L.Vote(u, id, value) in heard;
      }
    }
    assert QuorumVotedFor(s, instance, id, value, voters);
  }

  // ----- Advancing -----

  /** The node once it has entered `instance`. */
  ghost function Entered(n: Node, instance: nat, value: Option<Value>, callbackOk: bool): Node {
    n.(saved := Saved(instance, value, None, None, None),
       paxos := FreshPaxos(n.uid, QuorumSize(|n.peers|), None, None, None),
       updates := n.updates + [Update(instance, value)],
       live := if callbackOk then map[] else n.live, retransmit := if callbackOk then None else n.retransmit)
  }

  lemma AdvanceEffect(n: Node, instance: nat, value: Option<Value>, callbackOk: bool)
    requires OneTask(n)
    ensures AdvanceInstance(n, instance, value, callbackOk)
            == Outcome(Entered(n, instance, value, callbackOk), [], !callbackOk)
  {
    StopLeavesNone(n.(saved := Saved(instance, value, None, None, None),
                      paxos := FreshPaxos(n.uid, QuorumSize(|n.peers|), None, None, None),
                      updates := n.updates + [Update(instance, value)]));
  }

  /**
   * A node may jump to any later instance whose predecessor's choice it knows,
   * also skipping links. A Prepare that goes on after a callback has raised
   * does no harm there.
   */
  lemma EnteringKeepsInv(s: System, u: Uid, instance: nat, value: Option<Value>, callbackOk: bool, o: Outcome)
    requires Inv(s) && u in s.nodes && (callbackOk || PreparesOnly(s.nodes[u]))
    requires instance > s.nodes[u].saved.instanceNumber && IsLink(s, instance, value)
    requires o == Outcome(Entered(s.nodes[u], instance, value, callbackOk), [], !callbackOk)
    ensures var t := Advanced(s, u, o, {}, {}); Grows(s, t) && Inv(t)
  {
    var n := s.nodes[u];
    assert NodeOk(s, n) && Placed(s, u, n);
    UpdateGrows(s, u, o, {}, {});
    var t := Advanced(s, u, o, {}, {});
    EnteredNodeOk(s, t, n, instance, value, callbackOk);
    assert t.minted == s.minted;
    InvFromNew(s, u, o, {}, {});
  }

  lemma EnteredNodeOk(s: System, t: System, n: Node, instance: nat, value: Option<Value>, callbackOk: bool)
    requires Grows(s, t) && ChainOk(s, n) && TasksOk(s, n) && (callbackOk || PreparesOnly(n))
    requires instance > n.saved.instanceNumber && IsLink(s, instance, value)
    ensures NodeOk(t, Entered(n, instance, value, callbackOk))
  {
    var m := Entered(n, instance, value, callbackOk);
    FreshPaxosOk(t, m);
    EnteredChainOk(s, t, n, instance, value, callbackOk);
    forall h | h in m.live
      ensures TaskOk(t, m, m.live[h])
    {
      assert TaskOk(s, n, n.live[h]);
    }
  }

  lemma EnteredChainOk(s: System, t: System, n: Node, instance: nat, value: Option<Value>, callbackOk: bool)
    requires Grows(s, t) && ChainOk(s, n)
    requires instance > n.saved.instanceNumber && IsLink(s, instance, value)
    ensures ChainOk(t, Entered(n, instance, value, callbackOk))
  {
    ChainStable(s, t, n);
    LinkStable(s, t, instance, value);
  }

  /** The effect of an Accepted message, by what the learner answers. */
  lemma AcceptedEffect(n: Node, p: Packet, callbackOk: bool)
    requires OneTask(n) && p.body.Accepted? && p.instance == n.saved.instanceNumber
    requires LearnerTurn(n, p).1 != L.Raised
    ensures Receive(n, p, callbackOk) ==
            if LearnerTurn(n, p).1.Resolution? then
              Outcome(Entered(n, p.instance + 1, Some(p.body.value), callbackOk), [], !callbackOk)
            else Outcome(n.(paxos := n.paxos.(learner := LearnerTurn(n, p).0)), [], false)
  {
    AdvanceEffect(n.(paxos := n.paxos.(learner := LearnerTurn(n, p).0)), p.instance + 1, Some(p.body.value), callbackOk);
  }

  /** A learner that only counts. */
  lemma CountKeepsInv(s: System, u: Uid, l: L.LearnerState, o: Outcome)
    requires Inv(s) && u in s.nodes && LearnerOk(s, s.nodes[u].saved.instanceNumber, l)
    requires l.quorumSize == s.nodes[u].paxos.learner.quorumSize
    requires o == Outcome(s.nodes[u].(paxos := s.nodes[u].paxos.(learner := l)), [], false)
    ensures var t := Advanced(s, u, o, {}, {}); Grows(s, t) && Inv(t)
  {
    var n := s.nodes[u];
    assert NodeOk(s, n) && Placed(s, u, n);
    UpdateGrows(s, u, o, {}, {});
    var t := Advanced(s, u, o, {}, {});
    NodeStable(s, t, n);
    LearnerStable(s, t, n.saved.instanceNumber, l);
    assert t.minted == s.minted;
    assert TasksOk(t, o.node) by {
      forall h | h in o.node.live
        ensures TaskOk(t, o.node, o.node.live[h])
      {
        assert TaskOk(t, n, n.live[h]);
      }
    }
    InvFromNew(s, u, o, {}, {});
  }

  /** The two outcomes of an Accepted message, with the learner's own step abstracted away. */
  ghost predicate Learned(s: System, p: Packet, callbackOk: bool, o: Outcome, l: L.LearnerState, resolved: bool)
    requires p.dst in s.nodes && p.body.Accepted?
  {
    && (o.raised <==> resolved && !callbackOk)
    && l.quorumSize == s.nodes[p.dst].paxos.learner.quorumSize
    && if resolved then
         IsLink(s, p.instance + 1, Some(p.body.value))
         && o == Outcome(Entered(s.nodes[p.dst], p.instance + 1, Some(p.body.value), callbackOk), [], !callbackOk)
       else
         LearnerOk(s, p.instance, l)
         && o == Outcome(s.nodes[p.dst].(paxos := s.nodes[p.dst].paxos.(learner := l)), [], false)
  }

  lemma AcceptedOutcome(s: System, p: Packet, callbackOk: bool, l: L.LearnerState, reply: L.LearnerReply)
    requires p.dst in s.nodes && p.body.Accepted? && p.instance == s.nodes[p.dst].saved.instanceNumber
    requires OneTask(s.nodes[p.dst]) && LearnerTurn(s.nodes[p.dst], p) == (l, reply)
    requires reply != L.Raised
    requires if reply.Resolution? then ChosenAt(s, p.instance, p.body.id, p.body.value)
             else LearnerOk(s, p.instance, l)
    ensures Learned(s, p, callbackOk, Receive(s.nodes[p.dst], p, callbackOk),
                    if reply.Resolution? then s.nodes[p.dst].paxos.learner else l, reply.Resolution?)
  {
    AcceptedEffect(s.nodes[p.dst], p, callbackOk);
  }

  lemma LearnedKeepsInv(s: System, p: Packet, callbackOk: bool, o: Outcome, l: L.LearnerState, resolved: bool)
    requires AcceptedArrives(s, p) && Learned(s, p, callbackOk, o, l, resolved)
    requires callbackOk || PreparesOnly(s.nodes[p.dst])
    ensures var t := Advanced(s, p.dst, o, {}, {}); Grows(s, t) && Inv(t)
  {
    if resolved {
      EnteringKeepsInv(s, p.dst, p.instance + 1, Some(p.body.value), callbackOk, o);
    } else {
      CountKeepsInv(s, p.dst, l, o);
    }
  }

  lemma AcceptedKeepsInv(s: System, p: Packet, callbackOk: bool)
    requires AcceptedArrives(s, p) && (callbackOk || PreparesOnly(s.nodes[p.dst]))
    ensures var o := Receive(s.nodes[p.dst], p, callbackOk);
            && (o.raised <==> !callbackOk && LearnerTurn(s.nodes[p.dst], p).1.Resolution?)
            && Grows(s, Advanced(s, p.dst, o, {}, {})) && Inv(Advanced(s, p.dst, o, {}, {}))
  {
    var n := s.nodes[p.dst];
    var (l, reply) := LearnerTurn(n, p);
    LearnerTurnIsSound(s, p);
    assert NodeOk(s, n);
    AcceptedOutcome(s, p, callbackOk, l, reply);
    LearnedKeepsInv(s, p, callbackOk, Receive(n, p, callbackOk),
                    if reply.Resolution? then n.paxos.learner else l, reply.Resolution?);
  }

  // ----- Catching up -----

  lemma CatchupKeepsInv(s: System, p: Packet, callbackOk: bool)
    requires Inv(s) && p in s.net && p.dst in s.nodes && p.body.Catchup?
    requires callbackOk || PreparesOnly(s.nodes[p.dst])
    requires p.instance > s.nodes[p.dst].saved.instanceNumber
    ensures var o := Receive(s.nodes[p.dst], p, callbackOk);
            && o.raised == !callbackOk
            && Grows(s, Advanced(s, p.dst, o, {}, {})) && Inv(Advanced(s, p.dst, o, {}, {}))
  {
    assert PacketOk(s, p) && NodeOk(s, s.nodes[p.dst]);
    AdvanceEffect(s.nodes[p.dst], p.instance, p.body.current, callbackOk);
    EnteringKeepsInv(s, p.dst, p.instance, p.body.current, callbackOk, Receive(s.nodes[p.dst], p, callbackOk));
  }

  lemma SyncRequestKeepsInv(s: System, p: Packet)
    requires Inv(s) && p in s.net && p.dst in s.nodes && p.body.SyncRequest?
    ensures !Receive(s.nodes[p.dst], p, true).raised
    ensures var t := Advanced(s, p.dst, Receive(s.nodes[p.dst], p, true), {}, {}); Grows(s, t) && Inv(t)
  {
    var n := s.nodes[p.dst];
    assert NodeOk(s, n) && Placed(s, p.dst, n);
    SyncAnswerIsTrue(s, n, p);
    SpeakingKeepsInv(s, p.dst, Receive(n, p, true));
  }

  /** A node lagging behind is told the chosen value of the link before ours. */
  lemma SyncAnswerIsTrue(s: System, n: Node, p: Packet)
    requires n.uid in s.nodes && ChainOk(s, n) && p.body.SyncRequest?
    ensures var o := Receive(n, p, true);
            && o.node == n && !o.raised
            && forall r :: r in o.sent ==>
                 r.src == n.uid && r.instance == n.saved.instanceNumber && r.body.Catchup? && PacketOk(s, r)
  {
  }
}
