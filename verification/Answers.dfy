/** What every message is answered with in a run (paxos/replicated_value.py, paxos/sync_strategy.py). */
module Answers {
  import opened Options
  import opened Ballots
  import opened PaxosInstances
  import opened Nodes
  import opened Network
  import opened Invariant
  import opened Preservation
  import opened ProposerSteps
  import opened LearnerSteps
  import opened Agreement
  import P = ProposerRole

  // ----- To all peers -----

  /** Exactly one copy for every peer, and nothing else. */
  ghost predicate ToAll(n: Node, body: Body, sent: seq<Packet>) {
    && |sent| == |n.peers|
    && forall p :: p in sent <==> p.src == n.uid && p.dst in n.peers && p.instance == n.saved.instanceNumber && p.body == body
  }

  lemma BroadcastIsToAll(n: Node, body: Body)
    ensures ToAll(n, body, Broadcast(n, body))
  {
    forall u | u in n.peers
      ensures Packet(n.uid, u, n.saved.instanceNumber, body) in Broadcast(n, body)
    {
      var i :| 0 <= i < |n.peers| && n.peers[i] == u;
      assert Broadcast(n, body)[i].dst == u;
    }
  }

  // ----- Prepare and Accept -----

  /** A datagram of its destination's current instance is delivered at event i. */
  ghost predicate Arrives(states: seq<System>, events: seq<Event>, i: nat, p: Packet) {
    && Run(states, events) && i < |events|
    && events[i].Deliver? && events[i].packet == p
    && p.instance == states[i].nodes[p.dst].saved.instanceNumber
  }

  /** What event i puts on the net. */
  function SentAt(states: seq<System>, events: seq<Event>, i: nat): seq<Packet>
    requires i < |events| && i < |states| && Possible(states[i], events[i])
  {
    Effect(states[i], events[i]).sent
  }

  /** A Nack that does not tell: only the accepted id, which it does not carry, is above the refused one. */
  predicate Silenced(n: Node, id: ProposalId) {
    Below(Some(id), n.saved.acceptedId) && !Below(Some(id), n.saved.promisedId)
  }

  /**
   * Every Prepare of the current instance is answered, to its sender and with
   * one datagram: with a Promise if no higher id is promised, else with a Nack
   * carrying the saved promise.
   */
  lemma PrepareIsAnswered(states: seq<System>, events: seq<Event>, i: nat, p: Packet)
    requires Arrives(states, events, i, p) && p.body.Prepare?
    ensures var n := states[i].nodes[p.dst];
            var id := p.body.id;
            var sent := SentAt(states, events, i);
            && |sent| == 1
            && sent[0] == Packet(p.dst, p.src, p.instance, sent[0].body)
            && (if Below(Some(id), n.paxos.acceptor.promisedId) then sent[0].body == Nack(id, n.saved.promisedId)
                else sent[0].body == Promise(id, n.paxos.acceptor.acceptedId, n.paxos.acceptor.acceptedValue))
  {
    RunHolds(states, events, i);
    assert Placed(states[i], p.dst, states[i].nodes[p.dst]);
  }

  /**
   * Every Accept of the current instance is answered: if no higher id is
   * promised with an Accepted for every peer, else with a Nack to its sender
   * carrying the saved promise.
   */
  lemma AcceptIsAnswered(states: seq<System>, events: seq<Event>, i: nat, p: Packet)
    requires Arrives(states, events, i, p) && p.body.Accept?
    ensures var n := states[i].nodes[p.dst];
            var id := p.body.id;
            var sent := SentAt(states, events, i);
            if Below(Some(id), n.paxos.acceptor.promisedId) then
              sent == [Packet(p.dst, p.src, p.instance, Nack(id, n.saved.promisedId))]
            else ToAll(n, Accepted(id, p.body.value), sent)
  {
    RunHolds(states, events, i);
    var n := states[i].nodes[p.dst];
    assert Placed(states[i], p.dst, n);
    BroadcastIsToAll(n.(paxos := OnAccept(n.paxos, p.body.id, p.body.value).0), Accepted(p.body.id, p.body.value));
  }

  /** A refusal tells its receiver of an id above the refused one, unless only the accepted id is above it. */
  lemma RefusalTellsIff(states: seq<System>, events: seq<Event>, i: nat, u: Uid, id: ProposalId)
    requires Run(states, events) && i < |states| && u in states[i].nodes
    ensures var n := states[i].nodes[u];
            Below(Some(id), n.paxos.acceptor.promisedId) ==>
              (Below(Some(id), n.saved.promisedId) <==> !Silenced(n, id))
    ensures var n := states[i].nodes[u];
            Below(Some(id), n.paxos.acceptor.promisedId)
            <==> Below(Some(id), n.saved.promisedId) || Below(Some(id), n.saved.acceptedId)
  {
    DiskMatchesMemory(states, events, i, u);
  }

  // ----- Promise, Nack and Accepted -----

  /** A Promise is answered with an Accept for every peer exactly if it wins the election with a value in hand. */
  lemma PromiseIsAnswered(states: seq<System>, events: seq<Event>, i: nat, p: Packet)
    requires Arrives(states, events, i, p) && p.body.Promise?
    ensures PromiseArrives(states[i], p)
    ensures if Elected(states[i], p)
            then ToAll(states[i].nodes[p.dst], Accept(p.body.id, NewBallot(states[i], p).value), SentAt(states, events, i))
            else SentAt(states, events, i) == []
  {
    RunHolds(states, events, i);
    var n := states[i].nodes[p.dst];
    assert NodeOk(states[i], n);
    NoCallback(n, p, events[i].callbackOk);
    AcceptMeansElected(states[i], p);
    PromiseSends(n, p);
  }

  lemma PromiseSends(n: Node, p: Packet)
    requires OneTask(n) && p.body.Promise? && p.instance == n.saved.instanceNumber
    ensures var reply := PromiseReply(n, p);
            if reply.SendAccept? then ToAll(n, Accept(reply.id, reply.value), Receive(n, p, true).sent)
            else Receive(n, p, true).sent == []
  {
    var (q, reply) := P.PromiseStep(n.paxos.proposer, p.src, p.body.id, p.body.lastId, p.body.lastValue);
    if reply.SendAccept? {
      var m := n.(paxos := n.paxos.(proposer := q));
      StopLeavesNone(m);
      BroadcastIsToAll(SendAccept(m, reply.id, reply.value).node, Accept(reply.id, reply.value));
    }
  }

  /** Nacks and Accepteds are never answered; a Nack takes the looping call off the air. */
  lemma NoAnswer(states: seq<System>, events: seq<Event>, i: nat, p: Packet)
    requires Arrives(states, events, i, p) && (p.body.Nack? || p.body.Accepted?)
    ensures SentAt(states, events, i) == []
    ensures p.body.Nack? ==> Effect(states[i], events[i]).node.live == map[]
  {
    RunHolds(states, events, i);
    var n := states[i].nodes[p.dst];
    assert NodeOk(states[i], n);
    NoCallbackOrAccepted(states[i], p, events[i].callbackOk);
  }

  lemma NoCallbackOrAccepted(s: System, p: Packet, callbackOk: bool)
    requires Inv(s) && Enabled(s, Deliver(p, callbackOk))
    requires p.instance == s.nodes[p.dst].saved.instanceNumber && (p.body.Nack? || p.body.Accepted?)
    ensures Receive(s.nodes[p.dst], p, callbackOk).sent == []
    ensures p.body.Nack? ==> Receive(s.nodes[p.dst], p, callbackOk).node.live == map[]
  {
    var n := s.nodes[p.dst];
    assert NodeOk(s, n);
    if p.body.Nack? {
      NoCallback(n, p, callbackOk);
      NackTurn(n, p);
    } else {
      LearnerTurnIsSound(s, p);
      AcceptedEffect(n, p, callbackOk);
    }
  }

  /** Messages of another instance change nothing and are not answered. */
  lemma OtherInstancesAreIgnored(states: seq<System>, events: seq<Event>, i: nat, p: Packet)
    requires Run(states, events) && i < |events| && events[i].Deliver? && events[i].packet == p
    requires p.instance != states[i].nodes[p.dst].saved.instanceNumber
    requires !p.body.SyncRequest? && !p.body.Catchup?
    ensures SentAt(states, events, i) == [] && states[i + 1].nodes == states[i].nodes
  {
    NoCallback(states[i].nodes[p.dst], p, events[i].callbackOk);
    IgnoredEffect(states[i].nodes[p.dst], p);
  }

  // ----- Drives and retransmissions -----

  /** A drive sends the Prepare of a round above all that is known to every peer; so do proposals. */
  lemma DriveSends(states: seq<System>, events: seq<Event>, i: nat)
    requires Run(states, events) && i < |events| && (events[i].DriveTimer? || events[i].Propose?)
    ensures var n := states[i].nodes[At(events[i])];
            var m := Effect(states[i], events[i]).node;
            && ToAll(n, Prepare(m.paxos.proposer.proposalId), SentAt(states, events, i))
            && Less(n.paxos.proposer.highestProposalId, m.paxos.proposer.proposalId)
            && m.retransmit.Some? && m.live == map[m.retransmit.value := PrepareTask(m.paxos.proposer.proposalId)]
  {
    RunHolds(states, events, i);
    var n := states[i].nodes[At(events[i])];
    assert NodeOk(states[i], n);
    if events[i].DriveTimer? {
      DriveReaches(n);
    } else {
      DriveReaches(n.(paxos := n.paxos.(proposer := P.ProposeValueStep(n.paxos.proposer, events[i].value).0)));
    }
  }

  lemma DriveReaches(m: Node)
    requires OneTask(m)
    ensures var o := DriveToResolution(m);
            && ToAll(m, Prepare(o.node.paxos.proposer.proposalId), o.sent)
            && Less(m.paxos.proposer.highestProposalId, o.node.paxos.proposer.proposalId)
            && o.node.retransmit.Some?
            && o.node.live == map[o.node.retransmit.value := PrepareTask(o.node.paxos.proposer.proposalId)]
  {
    DriveEffect(m);
    StopLeavesNone(m);
    BroadcastIsToAll(DriveToResolution(m).node, Prepare(DriveToResolution(m).node.paxos.proposer.proposalId));
  }

  /** A looping call that fires sends its message to every peer and changes nothing. */
  lemma RetransmitSends(states: seq<System>, events: seq<Event>, i: nat)
    requires Run(states, events) && i < |events| && events[i].RetransmitTimer?
    ensures var n := states[i].nodes[At(events[i])];
            && ToAll(n, TaskBody(n.live[events[i].handle]), SentAt(states, events, i))
            && states[i + 1].nodes == states[i].nodes
  {
    var n := states[i].nodes[At(events[i])];
    BroadcastIsToAll(n, TaskBody(n.live[events[i].handle]));
  }

  // ----- Synchronisation -----

  /** The synchronisation timer asks one peer, naming the node's own instance. */
  lemma SyncTimerAsks(states: seq<System>, events: seq<Event>, i: nat)
    requires Run(states, events) && i < |events| && events[i].SyncTimer?
    ensures var n := states[i].nodes[events[i].uid];
            && SentAt(states, events, i) == [Packet(events[i].uid, events[i].peer, n.saved.instanceNumber, SyncRequest)]
            && states[i + 1].nodes == states[i].nodes
  {
    RunHolds(states, events, i);
    assert Placed(states[i], events[i].uid, states[i].nodes[events[i].uid]);
  }

  /**
   * A node that lags is told, and only such a node: a sync request of instance
   * k delivered to a node at instance n is answered, to its sender, with one
   * catch-up carrying n and the value chosen in n - 1 if k < n, else not at all.
   */
  lemma SyncIsAnsweredIff(states: seq<System>, events: seq<Event>, i: nat, p: Packet)
    requires Run(states, events) && i < |events|
    requires events[i].Deliver? && events[i].packet == p && p.body.SyncRequest?
    ensures var saved := states[i].nodes[p.dst].saved;
            && SentAt(states, events, i)
               == (if p.instance < saved.instanceNumber
                   then [Packet(p.dst, p.src, saved.instanceNumber, Catchup(saved.currentValue))] else [])
            && (p.instance < saved.instanceNumber ==>
                  IsLink(states[i], saved.instanceNumber, saved.currentValue))
            && states[i + 1].nodes == states[i].nodes
  {
    RunHolds(states, events, i);
    assert Placed(states[i], p.dst, states[i].nodes[p.dst]);
    CurrentValueWasChosen(states, events, i, p.dst);
  }

  /** A catch-up is taken exactly by a node that lags: it is then at that instance and holds the value chosen before it. */
  lemma CatchupIsTakenIff(states: seq<System>, events: seq<Event>, i: nat, p: Packet)
    requires Run(states, events) && i < |events|
    requires events[i].Deliver? && events[i].packet == p && p.body.Catchup?
    ensures var (m, n) := (states[i].nodes[p.dst], Effect(states[i], events[i]).node);
            if m.saved.instanceNumber < p.instance then
              && n.saved == Saved(p.instance, p.body.current, None, None, None)
              && n.updates == m.updates + [Update(p.instance, p.body.current)]
              && n.paxos == FreshPaxos(p.dst, QuorumSize(|m.peers|), None, None, None)
              && (events[i].callbackOk ==> n.live == map[])
              && IsLink(states[i], p.instance, p.body.current)
            else n == m
  {
    RunHolds(states, events, i);
    var m := states[i].nodes[p.dst];
    assert NodeOk(states[i], m) && Placed(states[i], p.dst, m) && PacketOk(states[i], p);
    if m.saved.instanceNumber < p.instance {
      AdvanceEffect(m, p.instance, p.body.current, events[i].callbackOk);
    }
  }

  /** A Resolution moves the node one instance on with the value resolved, and calls back with it. */
  lemma ResolutionIsTaken(states: seq<System>, events: seq<Event>, i: nat, p: Packet, value: Value)
    requires Arrives(states, events, i, p) && Resolves(states[i], p, value)
    ensures var (m, n) := (states[i].nodes[p.dst], Effect(states[i], events[i]).node);
            && n.saved == Saved(p.instance + 1, Some(value), None, None, None)
            && n.updates == m.updates + [Update(p.instance + 1, Some(value))]
            && n.paxos == FreshPaxos(p.dst, QuorumSize(|m.peers|), None, None, None)
            && (events[i].callbackOk ==> n.live == map[])
  {
    RunHolds(states, events, i);
    var m := states[i].nodes[p.dst];
    assert NodeOk(states[i], m) && Placed(states[i], p.dst, m);
    ResolutionIsSound(states, events, i, p, value);
    AcceptedEffect(m, p, events[i].callbackOk);
  }
}
