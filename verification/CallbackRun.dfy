/** Runs in which onUpdateCallback may raise: one server is enough to choose two values in one instance. */
module CallbackRun {
  import opened Options
  import opened Ballots
  import opened PaxosInstances
  import opened Nodes
  import opened Network
  import opened Scenario
  import opened SoloRun
  import P = ProposerRole
  import A = AcceptorRole
  import L = LearnerRole

  // ----- The run -----

  /** A datagram of instance 1. */
  function Late(u: Uid, body: Body): Packet {
    Packet(u, u, 1, body)
  }

  /**
   * After the solo run's first four events: the Accepted, whose callback
   * raises; the looping call left behind; a second proposal, its Prepare and
   * Promise; and both Accepts.
   */
  function EventAt(u: Uid, v: Value, w: Value, i: nat): Event {
    var id := ProposalId(1, u);
    if i < 4 then SoloEvents(u, v)[i]
    else if i == 4 then Deliver(ToSelf(u, Accepted(id, v)), false)
    else if i == 5 then RetransmitTimer(u, 1)
    else if i == 6 then Propose(u, w)
    else if i == 7 then Deliver(Late(u, Prepare(id)), true)
    else if i == 8 then Deliver(Late(u, Promise(id, None, None)), true)
    else if i == 9 then Deliver(Late(u, Accept(id, v)), true)
    else Deliver(Late(u, Accept(id, w)), true)
  }

  /** The node at instance 1, having taken `v` from instance 0. */
  function Next(u: Uid, v: Value, proposer: P.ProposerState, acceptor: A.AcceptorState, task: Task, handle: nat): Node {
    Node(u, [u], Saved(1, Some(v), acceptor.promisedId, acceptor.acceptedId, acceptor.acceptedValue),
         PaxosState(proposer, acceptor, L.FreshLearner(u, 1)), Some(handle), map[handle := task], handle + 1,
         [Update(1, Some(v))])
  }

  function LeakNode(u: Uid, v: Value, w: Value, i: nat): Node {
    var id := ProposalId(1, u);
    var unbound := A.AcceptorState(u, None, None, None);
    var promised := A.AcceptorState(u, Some(id), None, None);
    if i <= 4 then SoloNode(u, v, i)
    else if i <= 6 then Next(u, v, P.FreshProposer(u, 1), unbound, AcceptTask(id, v), 1)
    else if i == 7 then Next(u, v, Candidate(u, w), unbound, PrepareTask(id), 2)
    else if i == 8 then Next(u, v, Candidate(u, w), promised, PrepareTask(id), 2)
    else if i == 9 then Next(u, v, Elected(u, w), promised, AcceptTask(id, w), 3)
    else Next(u, v, Elected(u, w), A.AcceptorState(u, Some(id), Some(id), Some(if i == 10 then v else w)), AcceptTask(id, w), 3)
  }

  /** What event i sends. */
  function Sends(u: Uid, v: Value, w: Value, i: nat): seq<Packet> {
    var id := ProposalId(1, u);
    if i < 4 then [Mail(u, v, 4)[i]]
    else if i == 4 then []
    else if i == 5 then [Late(u, Accept(id, v))]
    else if i == 6 then [Late(u, Prepare(id))]
    else if i == 7 then [Late(u, Promise(id, None, None))]
    else if i == 8 then [Late(u, Accept(id, w))]
    else if i == 9 then [Late(u, Accepted(id, v))]
    else [Late(u, Accepted(id, w))]
  }

  function LeakMail(u: Uid, v: Value, w: Value, i: nat): set<Packet> {
    if i == 0 then {} else LeakMail(u, v, w, i - 1) + Sent(Sends(u, v, w, i - 1))
  }

  function LeakState(u: Uid, v: Value, w: Value, i: nat): System {
    var id := ProposalId(1, u);
    System([u], map[u := LeakNode(u, v, w, i)], LeakMail(u, v, w, i),
           (if i >= 1 then {v} else {}) + (if i >= 7 then {w} else {}),
           (if i >= 3 then {Ballot(0, id, v)} else {}) + (if i >= 9 then {Ballot(1, id, w)} else {}))
  }

  lemma LateCopy(n: Node, u: Uid, body: Body)
    requires n.uid == u && n.peers == [u] && n.saved.instanceNumber == 1
    ensures Broadcast(n, body) == [Late(u, body)]
  {
  }

  lemma CallbackRaises(u: Uid, v: Value, w: Value)
    ensures Receive(LeakNode(u, v, w, 4), ToSelf(u, Accepted(ProposalId(1, u), v)), false)
            == Outcome(LeakNode(u, v, w, 5), [], true)
  {
    assert L.AcceptedStep(L.FreshLearner(u, 1), u, ProposalId(1, u), v).1 == L.Resolution(v);
  }

  lemma OldAcceptGoesOn(u: Uid, v: Value, w: Value)
    ensures FireTask(LeakNode(u, v, w, 5), AcceptTask(ProposalId(1, u), v))
            == Outcome(LeakNode(u, v, w, 6), [Late(u, Accept(ProposalId(1, u), v))], false)
  {
    LateCopy(LeakNode(u, v, w, 5), u, Accept(ProposalId(1, u), v));
  }

  lemma ProposesAgain(u: Uid, v: Value, w: Value)
    ensures ProposeUpdate(LeakNode(u, v, w, 6), w)
            == Outcome(LeakNode(u, v, w, 7), [Late(u, Prepare(ProposalId(1, u)))], false)
  {
    LateCopy(LeakNode(u, v, w, 7), u, Prepare(ProposalId(1, u)));
    var n := ProposeUpdate(LeakNode(u, v, w, 6), w).node;
    assert n.live == LeakNode(u, v, w, 7).live;
  }

  lemma PromisesAgain(u: Uid, v: Value, w: Value)
    ensures var id := ProposalId(1, u);
            Receive(LeakNode(u, v, w, 7), Late(u, Prepare(id)), true)
            == Outcome(LeakNode(u, v, w, 8), [Late(u, Promise(id, None, None))], false)
  {
  }

  lemma ElectedAgain(u: Uid, v: Value, w: Value)
    ensures var id := ProposalId(1, u);
            Receive(LeakNode(u, v, w, 8), Late(u, Promise(id, None, None)), true)
            == Outcome(LeakNode(u, v, w, 9), [Late(u, Accept(id, w))], false)
  {
    var id := ProposalId(1, u);
    LateCopy(LeakNode(u, v, w, 9), u, Accept(id, w));
    assert {} + {u} == {u} && |{u}| == 1;
    assert P.PromiseStep(Candidate(u, w), u, id, None, None) == (Elected(u, w), P.SendAccept(id, w));
    var n := Receive(LeakNode(u, v, w, 8), Late(u, Promise(id, None, None)), true).node;
    assert n.live == LeakNode(u, v, w, 9).live;
  }

  lemma AcceptsBoth(u: Uid, v: Value, w: Value, i: nat)
    requires i == 9 || i == 10
    ensures var id := ProposalId(1, u);
            var value := if i == 9 then v else w;
            Receive(LeakNode(u, v, w, i), Late(u, Accept(id, value)), true)
            == Outcome(LeakNode(u, v, w, i + 1), [Late(u, Accepted(id, value))], false)
  {
    LateCopy(LeakNode(u, v, w, i + 1), u, Accepted(ProposalId(1, u), if i == 9 then v else w));
  }

  lemma MailHolds(u: Uid, v: Value, w: Value, j: nat, i: nat, p: Packet)
    requires j < i && p in Sends(u, v, w, j)
    ensures p in LeakMail(u, v, w, i)
  {
  }

  /** The first four events are those of the solo run. */
  lemma StartsSolo(u: Uid, v: Value, w: Value, i: nat)
    requires i <= 4
    ensures LeakState(u, v, w, i) == SoloState(u, v, i)
  {
    if i > 0 {
      StartsSolo(u, v, w, i - 1);
      assert Mail(u, v, i) == Mail(u, v, i - 1) + [Mail(u, v, 4)[i - 1]];
    }
  }

  lemma LeakEffect(u: Uid, v: Value, w: Value, i: nat)
    requires 4 <= i <= 10
    ensures var (s, e) := (LeakState(u, v, w, i), EventAt(u, v, w, i));
            && Possible(s, e)
            && Effect(s, e).node == LeakNode(u, v, w, i + 1) && Effect(s, e).sent == Sends(u, v, w, i)
  {
    if i == 4 { MailHolds(u, v, w, 3, 4, Mail(u, v, 4)[3]); CallbackRaises(u, v, w); }
    else if i == 5 { OldAcceptGoesOn(u, v, w); }
    else if i == 6 { ProposesAgain(u, v, w); }
    else if i == 7 { MailHolds(u, v, w, 6, 7, Sends(u, v, w, 6)[0]); PromisesAgain(u, v, w); }
    else if i == 8 { MailHolds(u, v, w, 7, 8, Sends(u, v, w, 7)[0]); ElectedAgain(u, v, w); }
    else if i == 9 { MailHolds(u, v, w, 5, 9, Sends(u, v, w, 5)[0]); AcceptsBoth(u, v, w, 9); }
    else { MailHolds(u, v, w, 8, 10, Sends(u, v, w, 8)[0]); AcceptsBoth(u, v, w, 10); }
  }

  lemma ElectedMints(u: Uid, v: Value, w: Value)
    requires Possible(LeakState(u, v, w, 8), EventAt(u, v, w, 8))
    ensures Minted(LeakState(u, v, w, 8), EventAt(u, v, w, 8)) == {Ballot(1, ProposalId(1, u), w)}
  {
    assert {} + {u} == {u} && |{u}| == 1;
    assert P.PromiseStep(Candidate(u, w), u, ProposalId(1, u), None, None)
        == (Elected(u, w), P.SendAccept(ProposalId(1, u), w));
  }

  lemma LeakMints(u: Uid, v: Value, w: Value, i: nat)
    requires 4 <= i <= 10 && Possible(LeakState(u, v, w, i), EventAt(u, v, w, i))
    ensures Minted(LeakState(u, v, w, i), EventAt(u, v, w, i))
            == if i == 8 then {Ballot(1, ProposalId(1, u), w)} else {}
  {
    if i == 8 {
      ElectedMints(u, v, w);
    }
  }

  /** What the values proposed become. */
  lemma LeakProposes(u: Uid, v: Value, w: Value, i: nat)
    requires 4 <= i <= 10
    ensures var e := EventAt(u, v, w, i);
            LeakState(u, v, w, i + 1).proposed
            == LeakState(u, v, w, i).proposed + if e.Propose? then {e.value} else {}
    ensures LeakState(u, v, w, i + 1).minted
            == LeakState(u, v, w, i).minted + if i == 8 then {Ballot(1, ProposalId(1, u), w)} else {}
    ensures At(EventAt(u, v, w, i)) == u
  {
  }

  lemma LateStep(u: Uid, v: Value, w: Value, i: nat)
    requires 4 <= i <= 10
    ensures var (s, e) := (LeakState(u, v, w, i), EventAt(u, v, w, i));
            Possible(s, e) && Do(s, e) == LeakState(u, v, w, i + 1)
  {
    LeakEffect(u, v, w, i);
    LeakMints(u, v, w, i);
    LeakProposes(u, v, w, i);
    var (s, e) := (LeakState(u, v, w, i), EventAt(u, v, w, i));
    Combine(u, s, Effect(s, e), if e.Propose? then {e.value} else {}, Minted(s, e),
            LeakState(u, v, w, i + 1));
  }

  lemma LeakStep(u: Uid, v: Value, w: Value, i: nat)
    requires i <= 10
    ensures var (s, e) := (LeakState(u, v, w, i), EventAt(u, v, w, i));
            Possible(s, e) && Do(s, e) == LeakState(u, v, w, i + 1)
  {
    if i < 4 {
      EarlyStep(u, v, w, i);
    } else {
      LateStep(u, v, w, i);
    }
  }

  lemma EarlyStep(u: Uid, v: Value, w: Value, i: nat)
    requires i < 4
    ensures var (s, e) := (LeakState(u, v, w, i), EventAt(u, v, w, i));
            Possible(s, e) && Do(s, e) == LeakState(u, v, w, i + 1)
  {
    StartsSolo(u, v, w, i);
    StartsSolo(u, v, w, i + 1);
    SoloStep(u, v, i);
  }

  lemma LeakRuns(u: Uid, v: Value, w: Value) returns (states: seq<System>, events: seq<Event>)
    ensures |events| == 11 && LooseRun(states, events) && states[11] == LeakState(u, v, w, 11)
    ensures forall i :: 0 <= i < 11 ==> events[i] == EventAt(u, v, w, i)
  {
    states := seq(12, i requires 0 <= i < 12 => LeakState(u, v, w, i));
    events := seq(11, i requires 0 <= i < 11 => EventAt(u, v, w, i));
    LeakStarts(u, v, w);
    forall i | 0 <= i < |events|
      ensures Possible(states[i], events[i]) && states[i + 1] == Do(states[i], events[i])
    {
      LeakStep(u, v, w, i);
    }
  }

  lemma LeakStarts(u: Uid, v: Value, w: Value)
    ensures Init(LeakState(u, v, w, 0))
  {
    StartsSolo(u, v, w, 0);
    assert Members([u]) == {u};
    assert SoloState(u, v, 0).nodes == map x | x in Members([u]) :: FreshNode(x, [u]);
  }

  /**
   * Agreement needs the guard on runs: with a callback that raises once while an Accept is on air,
   * a lone server proposing any two values has both chosen in instance 1,
   * under the same proposal id.
   */
  lemma RaisingCallbackBreaksAgreement(u: Uid, v: Value, w: Value) returns (states: seq<System>, events: seq<Event>)
    ensures LooseRun(states, events)
    ensures forall i :: 0 <= i < |events| && i != 4 && events[i].Deliver? ==> events[i].callbackOk
    ensures var s := states[|states| - 1];
            Chosen(s, 1, v) && Chosen(s, 1, w)
  {
    states, events := LeakRuns(u, v, w);
    LeakChooses(u, v, w, v, 9);
    LeakChooses(u, v, w, w, 10);
  }

  lemma LeakChooses(u: Uid, v: Value, w: Value, x: Value, i: nat)
    requires i == 9 || i == 10
    requires x == if i == 9 then v else w
    ensures Chosen(LeakState(u, v, w, 11), 1, x)
  {
    var s := LeakState(u, v, w, 11);
    var id := ProposalId(1, u);
    MailHolds(u, v, w, i, 11, Sends(u, v, w, i)[0]);
    assert Voted(s, u, 1, id, x);
    assert Members([u]) == {u} && |{u}| == 1;
    assert QuorumVotedFor(s, 1, id, x, {u});
    assert ChosenAt(s, 1, id, x);
  }
}
