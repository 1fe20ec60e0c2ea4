/** The smallest cluster: one server, whose five events from proposal to Resolution show that choices do happen. */
module SoloRun {
  import opened Options
  import opened Ballots
  import opened PaxosInstances
  import opened Nodes
  import opened Network
  import P = ProposerRole
  import A = AcceptorRole
  import L = LearnerRole

  function ToSelf(u: Uid, body: Body): Packet {
    Packet(u, u, 0, body)
  }

  function SoloEvents(u: Uid, value: Value): seq<Event> {
    var id := ProposalId(1, u);
    [Propose(u, value),
     Deliver(ToSelf(u, Prepare(id)), true),
     Deliver(ToSelf(u, Promise(id, None, None)), true),
     Deliver(ToSelf(u, Accept(id, value)), true),
     Deliver(ToSelf(u, Accepted(id, value)), true)]
  }

  /** The node with a looping call on air. */
  function Busy(u: Uid, proposer: P.ProposerState, acceptor: A.AcceptorState, saved: Saved, task: Task, handle: nat): Node {
    Node(u, [u], saved, PaxosState(proposer, acceptor, L.FreshLearner(u, 1)), Some(handle), map[handle := task], handle + 1, [])
  }

  function Candidate(u: Uid, value: Value): P.ProposerState {
    P.ProposerState(u, 1, false, Some(value), ProposalId(1, u), ProposalId(1, u), None, Some({}), Some({}))
  }

  function Elected(u: Uid, value: Value): P.ProposerState {
    Candidate(u, value).(leader := true, promises := Some({u}))
  }

  /** The node after its first i events. */
  function SoloNode(u: Uid, value: Value, i: nat): Node {
    var id := ProposalId(1, u);
    var unbound := A.AcceptorState(u, None, None, None);
    var promised := unbound.(promisedId := Some(id));
    var prepare, accept := PrepareTask(id), AcceptTask(id, value);
    if i == 0 then FreshNode(u, [u])
    else if i == 1 then Busy(u, Candidate(u, value), unbound, Saved(0, None, None, None, None), prepare, 0)
    else if i == 2 then Busy(u, Candidate(u, value), promised, Saved(0, None, Some(id), None, None), prepare, 0)
    else if i == 3 then Busy(u, Elected(u, value), promised, Saved(0, None, Some(id), None, None), accept, 1)
    else if i == 4 then
      Busy(u, Elected(u, value), A.AcceptorState(u, Some(id), Some(id), Some(value)),
         Saved(0, None, Some(id), Some(id), Some(value)), accept, 1)
    else Node(u, [u], Saved(1, Some(value), None, None, None), FreshPaxos(u, 1, None, None, None), None, map[], 2,
              [Update(1, Some(value))])
  }

  lemma OneCopy(u: Uid, value: Value, i: nat, body: Body)
    requires 1 <= i <= 4
    ensures Broadcast(SoloNode(u, value, i), body) == [ToSelf(u, body)]
  {
  }

  lemma Proposes(u: Uid, value: Value)
    ensures ProposeUpdate(SoloNode(u, value, 0), value)
            == Outcome(SoloNode(u, value, 1), [ToSelf(u, Prepare(ProposalId(1, u)))], false)
  {
    OneCopy(u, value, 1, Prepare(ProposalId(1, u)));
    assert QuorumSize(|[u]|) == 1;
    var n := ProposeUpdate(SoloNode(u, value, 0), value).node;
    assert n.paxos == SoloNode(u, value, 1).paxos;
    assert n.live == SoloNode(u, value, 1).live;
  }

  lemma Promises(u: Uid, value: Value)
    ensures var id := ProposalId(1, u);
            Receive(SoloNode(u, value, 1), ToSelf(u, Prepare(id)), true)
            == Outcome(SoloNode(u, value, 2), [ToSelf(u, Promise(id, None, None))], false)
  {
  }

  lemma IsElected(u: Uid, value: Value)
    ensures var id := ProposalId(1, u);
            Receive(SoloNode(u, value, 2), ToSelf(u, Promise(id, None, None)), true)
            == Outcome(SoloNode(u, value, 3), [ToSelf(u, Accept(id, value))], false)
  {
    OneCopy(u, value, 3, Accept(ProposalId(1, u), value));
    var id := ProposalId(1, u);
    assert {} + {u} == {u} && |{u}| == 1;
    assert P.PromiseStep(Candidate(u, value), u, id, None, None) == (Elected(u, value), P.SendAccept(id, value));
    var n := Receive(SoloNode(u, value, 2), ToSelf(u, Promise(id, None, None)), true).node;
    assert n.live == SoloNode(u, value, 3).live;
  }

  lemma Accepts(u: Uid, value: Value)
    ensures var id := ProposalId(1, u);
            Receive(SoloNode(u, value, 3), ToSelf(u, Accept(id, value)), true)
            == Outcome(SoloNode(u, value, 4), [ToSelf(u, Accepted(id, value))], false)
  {
    OneCopy(u, value, 4, Accepted(ProposalId(1, u), value));
  }

  lemma Advances(u: Uid, value: Value)
    ensures var id := ProposalId(1, u);
            Receive(SoloNode(u, value, 4), ToSelf(u, Accepted(id, value)), true)
            == Outcome(SoloNode(u, value, 5), [], false)
  {
    var l := L.FreshLearner(u, 1);
    var id := ProposalId(1, u);
    assert L.AcceptedStep(l, u, id, value).1 == L.Resolution(value);
    var n := Receive(SoloNode(u, value, 4), ToSelf(u, Accepted(id, value)), true).node;
    assert n.live == map[];
  }

  /** The datagrams of the run, in the order of the events that send them. */
  function Mail(u: Uid, value: Value, i: nat): seq<Packet>
    requires i < 5
  {
    var id := ProposalId(1, u);
    [ToSelf(u, Prepare(id)), ToSelf(u, Promise(id, None, None)),
     ToSelf(u, Accept(id, value)), ToSelf(u, Accepted(id, value))][..i]
  }

  function SoloState(u: Uid, value: Value, i: nat): System
    requires i <= 5
  {
    System([u], map[u := SoloNode(u, value, i)], Sent(Mail(u, value, if i < 5 then i else 4)),
           if i >= 1 then {value} else {}, if i >= 3 then {Ballot(0, ProposalId(1, u), value)} else {})
  }

  lemma SoloEffect(u: Uid, value: Value, i: nat)
    requires i < 5
    ensures var (s, e) := (SoloState(u, value, i), SoloEvents(u, value)[i]);
            && Enabled(s, e)
            && Effect(s, e) == Outcome(SoloNode(u, value, i + 1), if i < 4 then [Mail(u, value, 4)[i]] else [], false)
  {
    assert i > 0 ==> Mail(u, value, i)[i - 1] in SoloState(u, value, i).net;
    if i == 0 { Proposes(u, value); }
    else if i == 1 { Promises(u, value); }
    else if i == 2 { IsElected(u, value); }
    else if i == 3 { Accepts(u, value); }
    else { Advances(u, value); }
  }

  lemma SoloMints(u: Uid, value: Value, i: nat)
    requires i < 5 && Enabled(SoloState(u, value, i), SoloEvents(u, value)[i])
    ensures Minted(SoloState(u, value, i), SoloEvents(u, value)[i])
            == if i == 2 then {Ballot(0, ProposalId(1, u), value)} else {}
  {
    var id := ProposalId(1, u);
    assert {} + {u} == {u} && |{u}| == 1;
    assert P.PromiseStep(Candidate(u, value), u, id, None, None) == (Elected(u, value), P.SendAccept(id, value));
  }

  /** What an event leads to, part by part, in a cluster of one. */
  lemma Combine(u: Uid, s: System, o: Outcome, proposed: set<Value>, minted: set<Ballot>, next: System)
    requires s.nodes.Keys == {u} && next.nodes == map[u := o.node] && next.peers == s.peers
    requires next.net == s.net + Sent(o.sent) && next.proposed == s.proposed + proposed && next.minted == s.minted + minted
    ensures Advanced(s, u, o, proposed, minted) == next
  {
    assert s.nodes[u := o.node] == next.nodes;
  }

  lemma SoloMail(u: Uid, value: Value, i: nat)
    requires i < 5
    ensures SoloState(u, value, i + 1).net
            == SoloState(u, value, i).net + Sent(if i < 4 then [Mail(u, value, 4)[i]] else [])
  {
    if i < 4 {
      assert Mail(u, value, i + 1) == Mail(u, value, i) + [Mail(u, value, 4)[i]];
    }
  }

  lemma SoloStep(u: Uid, value: Value, i: nat)
    requires i < 5
    ensures var (s, e) := (SoloState(u, value, i), SoloEvents(u, value)[i]);
            Enabled(s, e) && Do(s, e) == SoloState(u, value, i + 1)
  {
    SoloEffect(u, value, i);
    SoloMints(u, value, i);
    SoloMail(u, value, i);
    var (s, e) := (SoloState(u, value, i), SoloEvents(u, value)[i]);
    assert At(e) == u;
    Combine(u, s, Effect(s, e), if e.Propose? then {e.value} else {}, Minted(s, e), SoloState(u, value, i + 1));
  }

  /**
   * The model's runs are not empty of choices: a lone server proposing any
   * value reaches instance 1 with it, in five events, by a Resolution.
   */
  lemma SoloServerDecides(u: Uid, value: Value) returns (states: seq<System>)
    ensures Run(states, SoloEvents(u, value))
    ensures Chosen(states[5], 0, value)
    ensures u in states[5].nodes && states[5].nodes[u].saved == Saved(1, Some(value), None, None, None)
    ensures states[5].nodes[u].updates == [Update(1, Some(value))]
  {
    states := seq(6, i requires 0 <= i < 6 => SoloState(u, value, i));
    var events := SoloEvents(u, value);
    var s0 := states[0];
    assert Members([u]) == {u};
    assert s0.nodes == map w | w in Members([u]) :: FreshNode(w, [u]);
    forall i | 0 <= i < |events|
      ensures Enabled(states[i], events[i]) && states[i + 1] == Do(states[i], events[i])
    {
      SoloStep(u, value, i);
    }
    var s := states[5];
    assert Mail(u, value, 4)[3] in s.net;
    assert Voted(s, u, 0, ProposalId(1, u), value);
    assert |{u}| == 1;
    assert QuorumVotedFor(s, 0, ProposalId(1, u), value, {u});
    assert ChosenAt(s, 0, ProposalId(1, u), value);
  }
}
