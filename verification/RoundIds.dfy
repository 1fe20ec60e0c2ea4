/** The ids of new rounds in a run: above every id the node has been told of (paxos/composable_paxos.py, observe_proposal). */
module RoundIds {
  import opened Options
  import opened Ballots
  import opened PaxosInstances
  import opened Nodes
  import opened Network
  import opened Invariant
  import opened Preservation
  import opened ProposerSteps
  import opened LearnerSteps
  import opened Agreement
  import P = ProposerRole

  /** The proposal id a message tells its receiver of. */
  function Told(body: Body): Option<ProposalId> {
    match body
    case Prepare(id) => Some(id)
    case Promise(id, _, _) => Some(id)
    case Nack(_, promisedId) => promisedId
    case Accept(id, _) => Some(id)
    case _ => None
  }

  /** `id` is known to the node's proposer. */
  ghost predicate Knows(n: Node, id: Option<ProposalId>) {
    P.Outbids(n.paxos.proposer, id)
  }

  /** A new round of the same instance starts between two states of a node. */
  predicate StartsRound(m: Node, n: Node) {
    m.saved.instanceNumber == n.saved.instanceNumber && m.paxos.proposer.proposalId != n.paxos.proposer.proposalId
  }

  /** What the node knew is still known, and a round begun outbids it. */
  ghost predicate Remembers(m: Node, n: Node) {
    n.saved.instanceNumber == m.saved.instanceNumber ==>
      forall id :: Knows(m, id) ==>
        Knows(n, id) && (StartsRound(m, n) && id.Some? ==> Less(id.value, n.paxos.proposer.proposalId))
  }

  lemma DriveRemembers(n: Node, q: P.ProposerState)
    requires OneTask(n) && q.highestProposalId == n.paxos.proposer.highestProposalId && q.uid == n.paxos.proposer.uid
    ensures Remembers(n, DriveToResolution(n.(paxos := n.paxos.(proposer := q))).node)
  {
    DriveEffect(n.(paxos := n.paxos.(proposer := q)));
  }

  /** Delivered to its instance, a message is remembered; a Nack's quorum starts a round above all that is known. */
  lemma RoundMessageRemembers(n: Node, p: Packet)
    requires OneTask(n) && p.instance == n.saved.instanceNumber
    requires p.body.Prepare? || p.body.Promise? || p.body.Nack? || p.body.Accept?
    ensures var o := Receive(n, p, true);
            && Knows(o.node, Told(p.body)) && Remembers(n, o.node)
            && (StartsRound(n, o.node) && Told(p.body).Some? ==>
                  Less(Told(p.body).value, o.node.paxos.proposer.proposalId))
  {
    var q := n.paxos.proposer;
    match p.body
    case Prepare(id) => P.ObservedIsOutbid(q, Some(id));
    case Accept(id, _) => P.ObservedIsOutbid(q, Some(id));
    case Promise(id, lastId, lastValue) => PromiseRemembers(n, p);
    case Nack(id, promisedId) => NackRemembers(n, p);
  }

  lemma PromiseRemembers(n: Node, p: Packet)
    requires OneTask(n) && p.instance == n.saved.instanceNumber && p.body.Promise?
    ensures var o := Receive(n, p, true);
            && Knows(o.node, Told(p.body)) && Remembers(n, o.node)
            && (StartsRound(n, o.node) && Told(p.body).Some? ==>
                  Less(Told(p.body).value, o.node.paxos.proposer.proposalId))
  {
    var (q, reply) := P.PromiseStep(n.paxos.proposer, p.src, p.body.id, p.body.lastId, p.body.lastValue);
    P.PromiseIsOutbid(n.paxos.proposer, p.src, p.body.id, p.body.lastId, p.body.lastValue);
    if reply.SendAccept? {
      SendAcceptEffect(n.(paxos := n.paxos.(proposer := q)), reply.id, reply.value);
    }
  }

  lemma NackRemembers(n: Node, p: Packet)
    requires OneTask(n) && p.instance == n.saved.instanceNumber && p.body.Nack?
    ensures var o := Receive(n, p, true);
            && Knows(o.node, Told(p.body)) && Remembers(n, o.node)
            && (StartsRound(n, o.node) && Told(p.body).Some? ==>
                  Less(Told(p.body).value, o.node.paxos.proposer.proposalId))
  {
    var q := P.NackStep(n.paxos.proposer, p.src, p.body.id, p.body.promisedId).0;
    P.NackIsOutbid(n.paxos.proposer, p.src, p.body.id, p.body.promisedId);
    StopLeavesNone(n.(paxos := n.paxos.(proposer := q)));
    var observed := P.ObserveStep(n.paxos.proposer, p.body.promisedId);
    P.ObservedIsOutbid(n.paxos.proposer, p.body.promisedId);
  }

  lemma OtherMessageRemembers(s: System, p: Packet, callbackOk: bool)
    requires Inv(s) && Enabled(s, Deliver(p, callbackOk))
    requires p.instance != s.nodes[p.dst].saved.instanceNumber || Told(p.body) == None
    requires !p.body.Nack? || p.instance != s.nodes[p.dst].saved.instanceNumber
    ensures Remembers(s.nodes[p.dst], Receive(s.nodes[p.dst], p, callbackOk).node)
  {
    var n := s.nodes[p.dst];
    assert NodeOk(s, n);
    if Advances(n, p) {
      if p.body.Accepted? {
        AcceptedKeepsInv(s, p, callbackOk);
        LearnerTurnIsSound(s, p);
        AcceptedEffect(n, p, callbackOk);
      } else {
        AdvanceEffect(n, p.instance, p.body.current, callbackOk);
      }
    } else {
      NoCallback(n, p, callbackOk);
    }
  }

  lemma EventRemembers(s: System, e: Event)
    requires Inv(s) && Enabled(s, e)
    ensures Remembers(s.nodes[At(e)], Effect(s, e).node)
  {
    var n := s.nodes[At(e)];
    assert NodeOk(s, n);
    match e
    case Deliver(p, callbackOk) =>
      if p.instance == n.saved.instanceNumber && (p.body.Prepare? || p.body.Promise? || p.body.Nack? || p.body.Accept?) {
        NoCallback(n, p, callbackOk);
        RoundMessageRemembers(n, p);
      } else {
        OtherMessageRemembers(s, p, callbackOk);
      }
    case Propose(_, value) => DriveRemembers(n, P.ProposeValueStep(n.paxos.proposer, value).0);
    case DriveTimer(_) => DriveRemembers(n, n.paxos.proposer);
    case _ =>
  }

  /** From one state of a run to a later one of the same instance, the node forgets no id. */
  lemma {:induction false} RunRemembers(states: seq<System>, events: seq<Event>, i: nat, j: nat, u: Uid, id: ProposalId)
    requires Run(states, events) && i <= j < |states| && u in states[i].nodes
    requires Knows(states[i].nodes[u], Some(id))
    ensures u in states[j].nodes
    ensures states[i].nodes[u].saved.instanceNumber <= states[j].nodes[u].saved.instanceNumber
    ensures states[j].nodes[u].saved.instanceNumber == states[i].nodes[u].saved.instanceNumber ==>
              Knows(states[j].nodes[u], Some(id))
    decreases j - i
  {
    if i < j {
      RunRemembers(states, events, i, j - 1, u, id);
      StepRemembers(states, events, j - 1, u);
    }
  }

  lemma StepRemembers(states: seq<System>, events: seq<Event>, j: nat, u: Uid)
    requires Run(states, events) && j < |events| && u in states[j].nodes
    ensures u in states[j + 1].nodes && Remembers(states[j].nodes[u], states[j + 1].nodes[u])
    ensures states[j].nodes[u].saved.instanceNumber <= states[j + 1].nodes[u].saved.instanceNumber
  {
    var s, e := states[j], events[j];
    RunHolds(states, events, j);
    StepKeepsInv(s, e);
    assert NodeMoves(s.nodes[u], states[j + 1].nodes[u]);
    if u == At(e) {
      EventRemembers(s, e);
    }
  }

  /**
   * Once a message of a node's current instance has told it of an id, be it a
   * Prepare, a Promise, an Accept or the promise a Nack carries, every new
   * round the node starts in that instance has a higher id.
   */
  lemma ToldIsOutbid(states: seq<System>, events: seq<Event>, i: nat, j: nat, u: Uid, id: ProposalId)
    requires Run(states, events) && i <= j < |events|
    requires events[i].Deliver? && events[i].packet.dst == u && Told(events[i].packet.body) == Some(id)
    requires events[i].packet.instance == states[i].nodes[u].saved.instanceNumber
    requires u in states[j].nodes && u in states[j + 1].nodes
    requires states[j].nodes[u].saved.instanceNumber == events[i].packet.instance
    requires StartsRound(states[j].nodes[u], states[j + 1].nodes[u])
    ensures Less(id, states[j + 1].nodes[u].paxos.proposer.proposalId)
  {
    ToldIsKnown(states, events, i, id);
    if i < j {
      RunRemembers(states, events, i + 1, j, u, id);
      StepRemembers(states, events, j, u);
    }
  }

  lemma ToldIsKnown(states: seq<System>, events: seq<Event>, i: nat, id: ProposalId)
    requires Run(states, events) && i < |events| && events[i].Deliver?
    requires Told(events[i].packet.body) == Some(id)
    requires events[i].packet.instance == states[i].nodes[events[i].packet.dst].saved.instanceNumber
    ensures var u := events[i].packet.dst;
            && u in states[i + 1].nodes && Knows(states[i + 1].nodes[u], Some(id))
            && states[i + 1].nodes[u].saved.instanceNumber == events[i].packet.instance
            && (StartsRound(states[i].nodes[u], states[i + 1].nodes[u]) ==>
                  Less(id, states[i + 1].nodes[u].paxos.proposer.proposalId))
  {
    var s, p := states[i], events[i].packet;
    RunHolds(states, events, i);
    assert NodeOk(s, s.nodes[p.dst]);
    NoCallback(s.nodes[p.dst], p, events[i].callbackOk);
    RoundMessageRemembers(s.nodes[p.dst], p);
    SameInstance(s.nodes[p.dst], p);
  }

  lemma SameInstance(n: Node, p: Packet)
    requires OneTask(n) && p.instance == n.saved.instanceNumber
    requires p.body.Prepare? || p.body.Promise? || p.body.Nack? || p.body.Accept?
    ensures Receive(n, p, true).node.saved.instanceNumber == n.saved.instanceNumber
  {
    match p.body
    case Promise(_, _, _) =>
      var (q, reply) := P.PromiseStep(n.paxos.proposer, p.src, p.body.id, p.body.lastId, p.body.lastValue);
      if reply.SendAccept? {
        SendAcceptEffect(n.(paxos := n.paxos.(proposer := q)), reply.id, reply.value);
      }
    case Nack(_, _) =>
      StopLeavesNone(n.(paxos := n.paxos.(proposer := P.NackStep(n.paxos.proposer, p.src, p.body.id, p.body.promisedId).0)));
    case _ =>
  }
}
