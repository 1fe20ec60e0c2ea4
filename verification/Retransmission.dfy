/** Which looping calls are on air in a run (paxos/resolution_strategy.py). */
module Retransmission {
  import opened Ballots
  import opened PaxosInstances
  import opened Nodes
  import opened Network
  import opened Invariant
  import opened Preservation
  import opened ProposerSteps
  import opened LearnerSteps
  import opened Agreement
  import P = ProposerRole
  import L = LearnerRole

  function RoundOf(task: Task): ProposalId {
    match task
    case PrepareTask(id) => id
    case AcceptTask(id, _) => id
  }

  /** Every task on air repeats a message of the proposer's present round. */
  ghost predicate RepeatsRound(n: Node) {
    forall h :: h in n.live ==> RoundOf(n.live[h]) == n.paxos.proposer.proposalId
  }

  lemma DriveRepeats(m: Node)
    requires OneTask(m)
    ensures RepeatsRound(DriveToResolution(m).node)
  {
    DriveEffect(m);
  }

  lemma PromiseRepeats(n: Node, p: Packet)
    requires OneTask(n) && RepeatsRound(n) && P.OwnId(n.paxos.proposer) && p.body.Promise?
    ensures RepeatsRound(Receive(n, p, true).node)
  {
    if p.instance == n.saved.instanceNumber {
      var (q, reply) := P.PromiseStep(n.paxos.proposer, p.src, p.body.id, p.body.lastId, p.body.lastValue);
      P.PromiseEvolves(n.paxos.proposer, p.src, p.body.id, p.body.lastId, p.body.lastValue);
      if reply.SendAccept? {
        SendAcceptEffect(n.(paxos := n.paxos.(proposer := q)), reply.id, reply.value);
      }
    }
  }

  lemma NackRepeats(n: Node, p: Packet)
    requires OneTask(n) && RepeatsRound(n) && p.body.Nack?
    ensures RepeatsRound(Receive(n, p, true).node)
  {
    if p.instance == n.saved.instanceNumber {
      NackTurn(n, p);
    }
  }

  lemma AdvanceRepeats(n: Node, p: Packet)
    requires OneTask(n) && RepeatsRound(n) && (p.body.Accepted? || p.body.Catchup?)
    ensures RepeatsRound(Receive(n, p, true).node)
  {
    if p.body.Catchup? && p.instance > n.saved.instanceNumber {
      AdvanceEffect(n, p.instance, p.body.current, true);
    }
    if p.body.Accepted? && p.instance == n.saved.instanceNumber && LearnerTurn(n, p).1 != L.Raised {
      AcceptedEffect(n, p, true);
    }
  }

  lemma OthersRepeat(n: Node, p: Packet)
    requires RepeatsRound(n) && (p.body.Prepare? || p.body.Accept? || p.body.SyncRequest?)
    ensures RepeatsRound(Receive(n, p, true).node)
  {
  }

  lemma ReceiveRepeats(n: Node, p: Packet)
    requires OneTask(n) && RepeatsRound(n) && P.OwnId(n.paxos.proposer)
    ensures RepeatsRound(Receive(n, p, true).node)
  {
    match p.body
    case Promise(_, _, _) => PromiseRepeats(n, p);
    case Nack(_, _) => NackRepeats(n, p);
    case Accepted(_, _) => AdvanceRepeats(n, p);
    case Catchup(_) => AdvanceRepeats(n, p);
    case _ => OthersRepeat(n, p);
  }

  lemma EffectRepeats(s: System, e: Event)
    requires Inv(s) && Possible(s, e) && (e.Deliver? ==> e.callbackOk)
    requires RepeatsRound(s.nodes[At(e)])
    ensures RepeatsRound(Effect(s, e).node)
  {
    var n := s.nodes[At(e)];
    assert NodeOk(s, n);
    match e
    case Deliver(p, _) => ReceiveRepeats(n, p);
    case Propose(_, value) =>
      DriveRepeats(n.(paxos := n.paxos.(proposer := P.ProposeValueStep(n.paxos.proposer, value).0)));
    case DriveTimer(_) => DriveRepeats(n);
    case _ =>
  }

  /** No callback has raised before event i. */
  ghost predicate CallbacksReturn(events: seq<Event>, i: nat) {
    forall j :: 0 <= j < i && j < |events| && events[j].Deliver? ==> events[j].callbackOk
  }

  lemma {:induction false} RunRepeats(states: seq<System>, events: seq<Event>, i: nat, u: Uid)
    requires Run(states, events) && i < |states| && u in states[i].nodes && CallbacksReturn(events, i)
    ensures RepeatsRound(states[i].nodes[u])
  {
    if i > 0 {
      var s, e := states[i - 1], events[i - 1];
      RunHolds(states, events, i - 1);
      assert states[i] == Do(s, e);
      if u == At(e) {
        RunRepeats(states, events, i - 1, u);
        EffectRepeats(s, e);
      } else {
        RunRepeats(states, events, i - 1, u);
      }
    }
  }

  /**
   * At most one looping call is on air, it is the one retransmit_task names,
   * and as long as no callback has raised it repeats the current round.
   */
  lemma OneCurrentTask(states: seq<System>, events: seq<Event>, i: nat, u: Uid)
    requires Run(states, events) && i < |states| && u in states[i].nodes
    ensures TasksOk(states[i], states[i].nodes[u])
    ensures |states[i].nodes[u].live| <= 1
    ensures CallbacksReturn(events, i) ==> RepeatsRound(states[i].nodes[u])
  {
    RunHolds(states, events, i);
    var n := states[i].nodes[u];
    assert NodeOk(states[i], n);
    assert |n.live| == |n.live.Keys|;
    if CallbacksReturn(events, i) {
      RunRepeats(states, events, i, u);
    }
  }
}
