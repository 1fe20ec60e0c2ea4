/** The main results: safety of the replicated log over every run of the cluster. */
module Agreement {
  import opened Options
  import opened Ballots
  import opened PaxosInstances
  import opened Nodes
  import opened Network
  import opened Invariant
  import opened Preservation
  import opened AcceptorSteps
  import opened ProposerSteps
  import opened LearnerSteps
  import P = ProposerRole
  import L = LearnerRole

  // ----- Every event -----

  /** The message is a Resolution or a catch-up that makes its destination advance. */
  ghost predicate Advances(n: Node, p: Packet) {
    || (p.body.Accepted? && p.instance == n.saved.instanceNumber && LearnerTurn(n, p).1.Resolution?)
    || (p.body.Catchup? && p.instance > n.saved.instanceNumber)
  }

  /** A message that does not advance its destination leads to no callback. */
  lemma NoCallback(n: Node, p: Packet, callbackOk: bool)
    requires !Advances(n, p)
    ensures Receive(n, p, callbackOk) == Receive(n, p, true)
  {
  }

  lemma DeliverKeepsInv(s: System, p: Packet, callbackOk: bool)
    requires Inv(s) && Enabled(s, Deliver(p, callbackOk))
    ensures var o := Receive(s.nodes[p.dst], p, callbackOk);
            var t := Advanced(s, p.dst, o, {}, Minted(s, Deliver(p, callbackOk)));
            && (o.raised <==> !callbackOk && Advances(s.nodes[p.dst], p))
            && Grows(s, t) && Inv(t)
  {
    var n := s.nodes[p.dst];
    if Advances(n, p) {
      assert Minted(s, Deliver(p, callbackOk)) == {};
      if p.body.Accepted? {
        AcceptedKeepsInv(s, p, callbackOk);
      } else {
        CatchupKeepsInv(s, p, callbackOk);
      }
    } else {
      NoCallback(n, p, callbackOk);
      QuietKeepsInv(s, p);
    }
  }

  lemma QuietKeepsInv(s: System, p: Packet)
    requires Inv(s) && Possible(s, Deliver(p, true)) && !Advances(s.nodes[p.dst], p)
    ensures !Receive(s.nodes[p.dst], p, true).raised
    ensures var t := Advanced(s, p.dst, Receive(s.nodes[p.dst], p, true), {}, Minted(s, Deliver(p, true)));
            Grows(s, t) && Inv(t)
  {
    if p.instance == s.nodes[p.dst].saved.instanceNumber && !p.body.SyncRequest? && !p.body.Catchup? {
      RoundKeepsInv(s, p);
    } else {
      assert Minted(s, Deliver(p, true)) == {};
      if p.body.SyncRequest? {
        SyncRequestKeepsInv(s, p);
      } else {
        StalePacketKeepsInv(s, p);
      }
    }
  }

  /** A message of another instance, or news that is no news, is ignored. */
  lemma StalePacketKeepsInv(s: System, p: Packet)
    requires Inv(s) && Possible(s, Deliver(p, true)) && !p.body.SyncRequest?
    requires if p.body.Catchup? then p.instance <= s.nodes[p.dst].saved.instanceNumber
             else p.instance != s.nodes[p.dst].saved.instanceNumber
    ensures !Receive(s.nodes[p.dst], p, true).raised
    ensures var t := Advanced(s, p.dst, Receive(s.nodes[p.dst], p, true), {}, {}); Grows(s, t) && Inv(t)
  {
    IgnoredEffect(s.nodes[p.dst], p);
    SpeakingKeepsInv(s, p.dst, Receive(s.nodes[p.dst], p, true));
  }

  lemma IgnoredEffect(n: Node, p: Packet)
    requires !p.body.SyncRequest?
    requires if p.body.Catchup? then p.instance <= n.saved.instanceNumber else p.instance != n.saved.instanceNumber
    ensures Receive(n, p, true) == Outcome(n, [], false)
  {
  }

  lemma RoundKeepsInv(s: System, p: Packet)
    requires Inv(s) && Possible(s, Deliver(p, true)) && !p.body.SyncRequest? && !p.body.Catchup?
    requires p.instance == s.nodes[p.dst].saved.instanceNumber && !Advances(s.nodes[p.dst], p)
    ensures !Receive(s.nodes[p.dst], p, true).raised
    ensures var t := Advanced(s, p.dst, Receive(s.nodes[p.dst], p, true), {}, Minted(s, Deliver(p, true)));
            Grows(s, t) && Inv(t)
  {
    match p.body
    case Prepare(_) => PrepareKeepsInv(s, p);
    case Promise(_, _, _) => PromiseKeepsInv(s, p);
    case Nack(_, _) => NackKeepsInv(s, p);
    case Accept(_, _) => AcceptKeepsInv(s, p);
    case Accepted(_, _) => AcceptedKeepsInv(s, p, true);
  }

  lemma SyncTimerKeepsInv(s: System, u: Uid, peer: Uid)
    requires Inv(s) && u in s.nodes
    ensures var t := Advanced(s, u, Outcome(s.nodes[u], Reply(s.nodes[u], peer, SyncRequest), false), {}, {});
            Grows(s, t) && Inv(t)
  {
    assert Placed(s, u, s.nodes[u]);
    SpeakingKeepsInv(s, u, Outcome(s.nodes[u], Reply(s.nodes[u], peer, SyncRequest), false));
  }

  /** An event whose callback is called and raises. */
  ghost predicate CallbackRaises(s: System, e: Event)
    requires Possible(s, e)
  {
    e.Deliver? && !e.callbackOk && Advances(s.nodes[At(e)], e.packet)
  }

  /** The step lemma: every event keeps the invariant, moves forward, and lets only the callback's own exception escape. */
  lemma StepKeepsInv(s: System, e: Event)
    requires Inv(s) && Enabled(s, e)
    ensures Effect(s, e).raised <==> CallbackRaises(s, e)
    ensures Grows(s, Do(s, e)) && Inv(Do(s, e))
  {
    match e
    case Deliver(p, callbackOk) => DeliverKeepsInv(s, p, callbackOk);
    case Propose(u, value) => ProposeKeepsInv(s, u, value);
    case DriveTimer(u) => DriveTimerKeepsInv(s, u);
    case RetransmitTimer(u, h) => RetransmitKeepsInv(s, u, h);
    case SyncTimer(u, peer) => SyncTimerKeepsInv(s, u, peer);
  }

  lemma {:induction false} RunHolds(states: seq<System>, events: seq<Event>, i: nat)
    requires Run(states, events) && i < |states|
    ensures Inv(states[i])
  {
    if i == 0 {
      InitHolds(states[0]);
    } else {
      RunHolds(states, events, i - 1);
      StepKeepsInv(states[i - 1], events[i - 1]);
    }
  }

  lemma ReachableHolds(s: System)
    requires Reachable(s)
    ensures Inv(s)
  {
    var states, events :| Run(states, events) && s == states[|states| - 1];
    RunHolds(states, events, |states| - 1);
  }

  /** In no reachable state are two values chosen in one instance. */
  lemma ReachableChoiceIsUnique(s: System, k: nat, v: Value, w: Value)
    requires Reachable(s) && Chosen(s, k, v) && Chosen(s, k, w)
    ensures v == w
  {
    ReachableHolds(s);
    ChosenIsUnique(s, k, v, w);
  }

  lemma RunStepGrows(states: seq<System>, events: seq<Event>, j: nat)
    requires Run(states, events) && j < |events|
    ensures Grows(states[j], states[j + 1])
  {
    RunHolds(states, events, j);
    StepKeepsInv(states[j], events[j]);
  }

  /** What is kept from one state to a later one. */
  ghost predicate Keeps(s: System, t: System) {
    && s.net <= t.net && s.minted <= t.minted && s.peers == t.peers
    && forall k, id, v :: ChosenAt(s, k, id, v) ==> ChosenAt(t, k, id, v)
  }

  lemma GrowsKeeps(s: System, t: System)
    requires Grows(s, t)
    ensures Keeps(s, t)
  {
    forall k, id, v | ChosenAt(s, k, id, v)
      ensures ChosenAt(t, k, id, v)
    {
      ChosenAtStable(s, t, k, id, v);
    }
  }

  /** Nothing sent, minted or chosen is ever taken back. */
  lemma {:induction false} RunGrows(states: seq<System>, events: seq<Event>, i: nat, j: nat)
    requires Run(states, events) && i <= j < |states|
    ensures Keeps(states[i], states[j])
    decreases j - i
  {
    if i < j {
      RunGrows(states, events, i, j - 1);
      RunStepGrows(states, events, j - 1);
      GrowsKeeps(states[j - 1], states[j]);
    }
  }

  // ----- Choice -----

  /** A ballot above a chosen id can only carry the chosen value. */
  lemma ChosenBindsHigherBallots(s: System, k: nat, id: ProposalId, value: Value, b: Ballot)
    requires Inv(s) && ChosenAt(s, k, id, value)
    requires b in s.minted && b.instance == k && Less(id, b.id)
    ensures b.value == value
  {
    var q1 :| QuorumVotedFor(s, k, id, value, q1);
    assert BallotOk(s, b);
    var q2 :| Backing(s, k, id, b.value, q2);
    var a := QuorumsMeet(s.peers, q1, q2);
    assert Voted(s, a, k, id, value) && Voted(s, a, k, id, b.value);
    ReportedPairIsMinted(s, a, k, id, value);
    ReportedPairIsMinted(s, a, k, id, b.value);
    assert Ballot(k, id, value) == Ballot(k, id, b.value);
  }

  /** A chosen value was minted under its id, and was proposed by a client. */
  lemma ChosenWasMinted(s: System, k: nat, id: ProposalId, value: Value)
    requires Inv(s) && ChosenAt(s, k, id, value)
    ensures Ballot(k, id, value) in s.minted && value in s.proposed
  {
    var q :| QuorumVotedFor(s, k, id, value, q);
    var a := QuorumsMeet(s.peers, q, q);
    ReportedPairIsMinted(s, a, k, id, value);
  }

  /** At most one value is chosen in an instance. */
  lemma ChosenIsUnique(s: System, k: nat, v: Value, w: Value)
    requires Inv(s) && Chosen(s, k, v) && Chosen(s, k, w)
    ensures v == w
  {
    var id1 :| ChosenAt(s, k, id1, v);
    var id2 :| ChosenAt(s, k, id2, w);
    ChosenWasMinted(s, k, id1, v);
    ChosenWasMinted(s, k, id2, w);
    if Less(id1, id2) {
      ChosenBindsHigherBallots(s, k, id1, v, Ballot(k, id2, w));
    } else if Less(id2, id1) {
      ChosenBindsHigherBallots(s, k, id2, w, Ballot(k, id1, v));
    } else {
      assert Ballot(k, id1, v) == Ballot(k, id2, w);
    }
  }

  // ----- Theorems over runs -----

  /** Every exception a handler could raise of itself stays unraised in every run. */
  lemma NoHandlerRaises(states: seq<System>, events: seq<Event>, i: nat)
    requires Run(states, events) && i < |events|
    ensures Effect(states[i], events[i]).raised <==> CallbackRaises(states[i], events[i])
    ensures events[i].Deliver? && events[i].callbackOk ==> !Effect(states[i], events[i]).raised
  {
    RunHolds(states, events, i);
    StepKeepsInv(states[i], events[i]);
  }

  /**
   * Stability of choice: once (id, value) is chosen, at any time in the run,
   * every Accept under a higher id in that instance carries the same value,
   * whoever sends it and whenever it is seen.
   */
  lemma ChoiceIsStable(states: seq<System>, events: seq<Event>, i: nat, j: nat,
                       k: nat, id: ProposalId, value: Value, p: Packet)
    requires Run(states, events) && i < |states| && j < |states|
    requires ChosenAt(states[i], k, id, value)
    requires p in states[j].net && p.instance == k && p.body.Accept? && Less(id, p.body.id)
    ensures p.body.value == value
  {
    var m := if i < j then j else i;
    RunGrows(states, events, i, m);
    RunGrows(states, events, j, m);
    RunHolds(states, events, m);
    assert PacketOk(states[m], p);
    ChosenBindsHigherBallots(states[m], k, id, value, Ballot(k, p.body.id, p.body.value));
  }

  /** Delivering `p` makes the learner of its destination resolve the current instance to `value`. */
  ghost predicate Resolves(s: System, p: Packet, value: Value) {
    && Possible(s, Deliver(p, true)) && p.body.Accepted?
    && p.instance == s.nodes[p.dst].saved.instanceNumber
    && LearnerTurn(s.nodes[p.dst], p).1 == L.Resolution(value)
  }

  /** A Resolution rests on a quorum of acceptors that really sent Accepted for one id and this value. */
  lemma ResolutionIsSound(states: seq<System>, events: seq<Event>, i: nat, p: Packet, value: Value)
    requires Run(states, events) && i < |states| && Resolves(states[i], p, value)
    ensures value == p.body.value && ChosenAt(states[i], p.instance, p.body.id, value)
  {
    RunHolds(states, events, i);
    LearnerTurnIsSound(states[i], p);
  }

  /** Agreement in one instance: any two Resolutions, by any learners at any times, carry the same value. */
  lemma ResolutionsAgree(states: seq<System>, events: seq<Event>, i: nat, j: nat,
                         p: Packet, q: Packet, v: Value, w: Value)
    requires Run(states, events) && i < |states| && j < |states|
    requires Resolves(states[i], p, v) && Resolves(states[j], q, w) && p.instance == q.instance
    ensures v == w
  {
    ResolutionIsSound(states, events, i, p, v);
    ResolutionIsSound(states, events, j, q, w);
    ChosenAcrossTime(states, events, i, j, p.instance, v, w);
  }

  /** Values chosen in the same instance at two moments of a run are equal. */
  lemma ChosenAcrossTime(states: seq<System>, events: seq<Event>, i: nat, j: nat, k: nat, v: Value, w: Value)
    requires Run(states, events) && i < |states| && j < |states|
    requires Chosen(states[i], k, v) && Chosen(states[j], k, w)
    ensures v == w
  {
    var m := if i < j then j else i;
    RunGrows(states, events, i, m);
    RunGrows(states, events, j, m);
    RunHolds(states, events, m);
    assert Chosen(states[m], k, v) && Chosen(states[m], k, w);
    ChosenIsUnique(states[m], k, v, w);
  }

  /** The chain: a node at instance n >= 1 holds the value chosen in instance n - 1. */
  lemma CurrentValueWasChosen(states: seq<System>, events: seq<Event>, i: nat, u: Uid)
    requires Run(states, events) && i < |states| && u in states[i].nodes
    ensures var saved := states[i].nodes[u].saved;
            if saved.instanceNumber == 0 then saved.currentValue == None
            else IsLink(states[i], saved.instanceNumber, saved.currentValue)
  {
    RunHolds(states, events, i);
    assert NodeOk(states[i], states[i].nodes[u]);
  }

  /** Validity: only values that clients proposed are ever chosen. */
  lemma ChosenWasProposed(states: seq<System>, events: seq<Event>, i: nat, k: nat, value: Value)
    requires Run(states, events) && i < |states| && Chosen(states[i], k, value)
    ensures exists j :: 0 <= j < i && events[j].Propose? && events[j].value == value
  {
    RunHolds(states, events, i);
    var id :| ChosenAt(states[i], k, id, value);
    ChosenWasMinted(states[i], k, id, value);
    ProposedByEvent(states, events, i, value);
  }

  lemma {:induction false} ProposedByEvent(states: seq<System>, events: seq<Event>, i: nat, value: Value)
    requires Run(states, events) && i < |states| && value in states[i].proposed
    ensures exists j :: 0 <= j < i && events[j].Propose? && events[j].value == value
  {
    if i > 0 {
      var e := events[i - 1];
      assert states[i].proposed == states[i - 1].proposed + if e.Propose? then {e.value} else {};
      if value in states[i - 1].proposed {
        ProposedByEvent(states, events, i - 1, value);
      }
    }
  }

  /** Two nodes at the same instance, at any two moments, hold the same value. */
  lemma CurrentValuesAgree(states: seq<System>, events: seq<Event>, i: nat, j: nat, u: Uid, v: Uid)
    requires Run(states, events) && i < |states| && j < |states|
    requires u in states[i].nodes && v in states[j].nodes
    requires states[i].nodes[u].saved.instanceNumber == states[j].nodes[v].saved.instanceNumber
    ensures states[i].nodes[u].saved.currentValue == states[j].nodes[v].saved.currentValue
  {
    CurrentValueWasChosen(states, events, i, u);
    CurrentValueWasChosen(states, events, j, v);
    var k := states[i].nodes[u].saved.instanceNumber;
    if k > 0 {
      ChosenAcrossTime(states, events, i, j, k - 1,
                       states[i].nodes[u].saved.currentValue.value, states[j].nodes[v].saved.currentValue.value);
    }
  }

  /**
   * Chain agreement: the update histories of any two nodes agree on every
   * instance number they share, whether reached by a Resolution or by a
   * catch-up that skipped links.
   */
  lemma HistoriesAgree(states: seq<System>, events: seq<Event>, i: nat, j: nat, u: Uid, v: Uid, a: nat, b: nat)
    requires Run(states, events) && i < |states| && j < |states|
    requires u in states[i].nodes && v in states[j].nodes
    requires a < |states[i].nodes[u].updates| && b < |states[j].nodes[v].updates|
    requires states[i].nodes[u].updates[a].instanceNumber == states[j].nodes[v].updates[b].instanceNumber
    ensures states[i].nodes[u].updates[a] == states[j].nodes[v].updates[b]
  {
    UpdateWasChosen(states, events, i, u, a);
    UpdateWasChosen(states, events, j, v, b);
    var x, y := states[i].nodes[u].updates[a], states[j].nodes[v].updates[b];
    ChosenAcrossTime(states, events, i, j, x.instanceNumber - 1, x.value.value, y.value.value);
  }

  /** Every call of onUpdateCallback reports a chosen value; the instance numbers only rise. */
  lemma UpdateWasChosen(states: seq<System>, events: seq<Event>, i: nat, u: Uid, a: nat)
    requires Run(states, events) && i < |states| && u in states[i].nodes && a < |states[i].nodes[u].updates|
    ensures IsLink(states[i], states[i].nodes[u].updates[a].instanceNumber, states[i].nodes[u].updates[a].value)
    ensures forall b :: a < b < |states[i].nodes[u].updates| ==>
              states[i].nodes[u].updates[a].instanceNumber < states[i].nodes[u].updates[b].instanceNumber
  {
    RunHolds(states, events, i);
    assert NodeOk(states[i], states[i].nodes[u]);
  }

  /** Every Accept on the wire carries a value that is safe at its id. */
  lemma AcceptsAreSafe(states: seq<System>, events: seq<Event>, i: nat, p: Packet)
    requires Run(states, events) && i < |states| && p in states[i].net && p.body.Accept?
    ensures SafeAt(states[i], p.instance, p.body.id, p.body.value)
  {
    RunHolds(states, events, i);
    assert PacketOk(states[i], p);
    assert BallotOk(states[i], Ballot(p.instance, p.body.id, p.body.value));
  }

  /** A proposal id carries at most one value in an instance, and only its own proposer sends it. */
  lemma OneValuePerProposalId(states: seq<System>, events: seq<Event>, i: nat, j: nat, p: Packet, q: Packet)
    requires Run(states, events) && i < |states| && j < |states|
    requires p in states[i].net && q in states[j].net && p.body.Accept? && q.body.Accept?
    requires p.instance == q.instance && p.body.id == q.body.id
    ensures p.body.value == q.body.value && p.src == q.src == p.body.id.uid
  {
    var m := if i < j then j else i;
    RunGrows(states, events, i, m);
    RunGrows(states, events, j, m);
    RunHolds(states, events, m);
    assert PacketOk(states[m], p) && PacketOk(states[m], q);
  }

  /**
   * Promise history: the pair reported in a Promise was voted for by its
   * sender, and the sender votes nowhere strictly between the reported id and
   * the promised one, neither before nor after.
   */
  lemma PromiseHistory(states: seq<System>, events: seq<Event>, i: nat, j: nat, p: Packet, c: ProposalId, v: Value)
    requires Run(states, events) && i < |states| && j < |states|
    requires p in states[i].net && p.body.Promise?
    ensures p.body.lastId.Some? ==>
              p.body.lastValue.Some? && Voted(states[i], p.src, p.instance, p.body.lastId.value, p.body.lastValue.value)
    ensures Below(p.body.lastId, Some(c)) && Less(c, p.body.id) ==> !Voted(states[j], p.src, p.instance, c, v)
  {
    var m := if i < j then j else i;
    RunGrows(states, events, i, m);
    RunGrows(states, events, j, m);
    RunHolds(states, events, i);
    RunHolds(states, events, m);
    assert PacketOk(states[i], p) && PacketOk(states[m], p);
    assert Voted(states[j], p.src, p.instance, c, v) ==> Voted(states[m], p.src, p.instance, c, v);
  }

  /** At the moment a proposer counts a Promise, the id it reports is strictly older than the round. */
  lemma CountedPromisesAreOlder(states: seq<System>, events: seq<Event>, i: nat, p: Packet)
    requires Run(states, events) && i < |states|
    requires p in states[i].net && p.dst in states[i].nodes && p.body.Promise?
    requires p.instance == states[i].nodes[p.dst].saved.instanceNumber
    requires P.Counts(Observed(states[i], p), p.src, p.body.id)
    ensures Below(p.body.lastId, Some(p.body.id))
  {
    RunHolds(states, events, i);
    CountedPromiseIsOlder(states[i], p);
  }

  /**
   * Retransmission stays in its instance: although the instance number is read
   * only when the looping call fires, every Accept on the wire is tagged with
   * the instance whose proposer produced it.
   */
  lemma AcceptsCarryTheirInstance(states: seq<System>, events: seq<Event>, i: nat, p: Packet)
    requires Run(states, events) && i < |states| && p in states[i].net && p.body.Accept?
    ensures Ballot(p.instance, p.body.id, p.body.value) in states[i].minted
  {
    RunHolds(states, events, i);
    assert PacketOk(states[i], p);
  }

  // ----- Disk and restart -----

  /** In every run the promise in memory is the later of the two saved ids, and the accepted pair is the saved one. */
  lemma DiskMatchesMemory(states: seq<System>, events: seq<Event>, i: nat, u: Uid)
    requires Run(states, events) && i < |states| && u in states[i].nodes
    ensures var n := states[i].nodes[u];
            && n.paxos.acceptor.promisedId == Later(n.saved.promisedId, n.saved.acceptedId)
            && n.paxos.acceptor.acceptedId == n.saved.acceptedId
            && n.paxos.acceptor.acceptedValue == n.saved.acceptedValue
  {
    RunHolds(states, events, i);
    assert NodeOk(states[i], states[i].nodes[u]);
  }

  /** What __init__ rebuilds from the state file. */
  function Reloaded(n: Node): PaxosState {
    FreshPaxos(n.uid, QuorumSize(|n.peers|), n.saved.promisedId, n.saved.acceptedId, n.saved.acceptedValue)
  }

  /** A restart restores the acceptor exactly when the saved promise is not older than the saved accepted id. */
  lemma RestartKeepsAcceptor(states: seq<System>, events: seq<Event>, i: nat, u: Uid)
    requires Run(states, events) && i < |states| && u in states[i].nodes
    ensures var n := states[i].nodes[u];
            Reloaded(n).acceptor.promisedId == n.paxos.acceptor.promisedId
            <==> !Below(n.saved.promisedId, n.saved.acceptedId)
    ensures var n := states[i].nodes[u];
            Reloaded(n).acceptor.acceptedId == n.paxos.acceptor.acceptedId
            && Reloaded(n).acceptor.acceptedValue == n.paxos.acceptor.acceptedValue
  {
    DiskMatchesMemory(states, events, i, u);
  }

  /** An Accept taken without a prior Prepare is such a loss: the disk does not know the promise it implies. */
  lemma RestartCanLosePromise(u: Uid, peers: seq<Uid>, id: ProposalId, value: Value)
    ensures var n := ReceiveAccept(FreshNode(u, peers), id.uid, 0, id, value).node;
            n.paxos.acceptor.promisedId == Some(id) && Reloaded(n).acceptor.promisedId == None
  {
  }

  // ----- When the callback raises -----

  /** Advancing leaves no looping call behind exactly when the callback returned or none was on air. */
  lemma AdvanceStopsTaskIffCallbackReturns(n: Node, instance: nat, value: Option<Value>, callbackOk: bool)
    requires OneTask(n)
    ensures AdvanceInstance(n, instance, value, callbackOk).node.live == map[] <==> callbackOk || n.live == map[]
  {
    if callbackOk {
      AdvanceEffect(n, instance, value, true);
    }
  }

  /** A looping call left behind sends the old round's Accept under the new instance number. */
  lemma LeakedTaskCrossesInstances(n: Node, instance: nat, value: Option<Value>, h: nat, id: ProposalId, stale: Value)
    requires OneTask(n) && n.uid in n.peers && h in n.live && n.live[h] == AcceptTask(id, stale)
    ensures var m := AdvanceInstance(n, instance, value, false).node;
            h in m.live && Packet(n.uid, n.uid, instance, Accept(id, stale)) in FireTask(m, m.live[h]).sent
  {
    BroadcastPackets(AdvanceInstance(n, instance, value, false).node, Accept(id, stale));
  }
}
