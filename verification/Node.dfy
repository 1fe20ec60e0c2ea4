/**
 * A server of the replicated log: the chain of Paxos instances with the
 * resolution and synchronisation strategies mixed in
 * (paxos/replicated_value.py, paxos/resolution_strategy.py,
 * paxos/sync_strategy.py, as assembled in paxos/custom_server.py).
 */
module Nodes {
  import opened Options
  import opened Ballots
  import opened PaxosInstances
  import P = ProposerRole
  import L = LearnerRole

  datatype Body =
    | Prepare(id: ProposalId)
    | Promise(id: ProposalId, lastId: Option<ProposalId>, lastValue: Option<Value>)
    | Nack(id: ProposalId, promisedId: Option<ProposalId>)
    | Accept(id: ProposalId, value: Value)
    | Accepted(id: ProposalId, value: Value)
    | SyncRequest
    | Catchup(current: Option<Value>)

  /** A datagram; `instance` is its instance_number field. */
  datatype Packet = Packet(src: Uid, dst: Uid, instance: nat, body: Body)

  /** The state file. The attributes of the same names always hold the same values. */
  datatype Saved = Saved(
    instanceNumber: nat,
    currentValue: Option<Value>,
    promisedId: Option<ProposalId>,
    acceptedId: Option<ProposalId>,
    acceptedValue: Option<Value>)

  /** What a LoopingCall sends each time it fires; the instance number is read only then. */
  datatype Task = PrepareTask(id: ProposalId) | AcceptTask(id: ProposalId, value: Value)

  /** One call of onUpdateCallback. */
  datatype Update = Update(instanceNumber: nat, value: Option<Value>)

  /**
   * `live` is the reactor's set of running looping calls, `retransmit` the
   * retransmit_task attribute. The delayed drive is not stored: it may fire at any time.
   */
  datatype Node = Node(
    uid: Uid,
    peers: seq<Uid>,
    saved: Saved,
    paxos: PaxosState,
    retransmit: Option<nat>,
    live: map<nat, Task>,
    nextHandle: nat,
    updates: seq<Update>)

  /** The effect of one event: new state, datagrams sent, and whether an exception escaped. */
  datatype Outcome = Outcome(node: Node, sent: seq<Packet>, raised: bool)

  function FreshNode(uid: Uid, peers: seq<Uid>): Node {
    Node(uid, peers, Saved(0, None, None, None, None),
         FreshPaxos(uid, QuorumSize(|peers|), None, None, None), None, map[], 0, [])
  }

  /** One copy of a message for every peer, the node itself included. */
  function Broadcast(n: Node, body: Body): seq<Packet> {
    seq(|n.peers|, i requires 0 <= i < |n.peers| => Packet(n.uid, n.peers[i], n.saved.instanceNumber, body))
  }

  function Reply(n: Node, to: Uid, body: Body): seq<Packet> {
    [Packet(n.uid, to, n.saved.instanceNumber, body)]
  }

  function TaskBody(task: Task): Body {
    match task
    case PrepareTask(id) => Prepare(id)
    case AcceptTask(id, value) => Accept(id, value)
  }

  // ----- Resolution strategy -----

  /** stop_driving; the flag is LoopingCall.stop's assertion that the call is running. */
  function StopDriving(n: Node): (Node, bool) {
    if n.retransmit.None? then (n, false)
    else if n.retransmit.value !in n.live then (n, true)
    else (n.(live := n.live - {n.retransmit.value}, retransmit := None), false)
  }

  /** Starts a looping call with now=True: its first transmission is part of the same event. */
  function StartTask(n: Node, task: Task): Outcome {
    Outcome(n.(retransmit := Some(n.nextHandle), live := n.live[n.nextHandle := task], nextHandle := n.nextHandle + 1),
            Broadcast(n, TaskBody(task)), false)
  }

  function DriveToResolution(n: Node): Outcome {
    var (stopped, failed) := StopDriving(n);
    if failed then Outcome(stopped, [], true)
    else
      var proposer := P.PrepareStep(stopped.paxos.proposer);
      StartTask(stopped.(paxos := stopped.paxos.(proposer := proposer)), PrepareTask(proposer.proposalId))
  }

  function SendAccept(n: Node, id: ProposalId, value: Value): Outcome {
    var (stopped, failed) := StopDriving(n);
    if failed then Outcome(stopped, [], true) else StartTask(stopped, AcceptTask(id, value))
  }

  /** A live looping call fires. */
  function FireTask(n: Node, task: Task): Outcome {
    Outcome(n, Broadcast(n, TaskBody(task)), false)
  }

  /** `callbackOk` is false when onUpdateCallback raises: stop_driving is then not reached. */
  function AdvanceInstance(n: Node, instance: nat, value: Option<Value>, callbackOk: bool): Outcome {
    var advanced := n.(saved := Saved(instance, value, None, None, None),
                       paxos := FreshPaxos(n.uid, QuorumSize(|n.peers|), None, None, None),
                       updates := n.updates + [Update(instance, value)]);
    if !callbackOk then Outcome(advanced, [], true)
    else
      var (stopped, failed) := StopDriving(advanced);
      Outcome(stopped, [], failed)
  }

  function ProposeUpdate(n: Node, value: Value): Outcome {
    // The Accept returned by propose_value is dropped.
    DriveToResolution(n.(paxos := n.paxos.(proposer := P.ProposeValueStep(n.paxos.proposer, value).0)))
  }

  // ----- Handlers -----

  function ReceivePrepare(n: Node, from: Uid, instance: nat, id: ProposalId): Outcome {
    if instance != n.saved.instanceNumber then Outcome(n, [], false)
    else
      var (paxos, reply) := OnPrepare(n.paxos, id);
      var m := n.(paxos := paxos);
      match reply
      case Promised(_, lastId, lastValue) =>
        Outcome(m.(saved := n.saved.(promisedId := Some(id), acceptedId := lastId, acceptedValue := lastValue)),
                Reply(m, from, Promise(id, lastId, lastValue)), false)
      case _ => Outcome(m, Reply(m, from, Nack(id, n.saved.promisedId)), false)
  }

  function ReceiveNack(n: Node, from: Uid, instance: nat, id: ProposalId, promisedId: Option<ProposalId>): Outcome {
    if instance != n.saved.instanceNumber then Outcome(n, [], false)
    else
      var (proposer, _) := P.NackStep(n.paxos.proposer, from, id, promisedId);
      var (stopped, failed) := StopDriving(n.(paxos := n.paxos.(proposer := proposer)));
      Outcome(stopped, [], failed)
  }

  function ReceivePromise(n: Node, from: Uid, instance: nat, id: ProposalId,
                          lastId: Option<ProposalId>, lastValue: Option<Value>): Outcome
  {
    if instance != n.saved.instanceNumber then Outcome(n, [], false)
    else
      var (proposer, reply) := P.PromiseStep(n.paxos.proposer, from, id, lastId, lastValue);
      var m := n.(paxos := n.paxos.(proposer := proposer));
      match reply
      case SendAccept(acceptId, value) => SendAccept(m, acceptId, value)
      case _ => Outcome(m, [], reply.Raised?)
  }

  /** On acceptance the promised id written to disk is the old attribute, not the new one. */
  function ReceiveAccept(n: Node, from: Uid, instance: nat, id: ProposalId, value: Value): Outcome {
    if instance != n.saved.instanceNumber then Outcome(n, [], false)
    else
      var (paxos, reply) := OnAccept(n.paxos, id, value);
      var m := n.(paxos := paxos);
      match reply
      case Accepted(_, _) =>
        Outcome(m.(saved := n.saved.(acceptedId := Some(id), acceptedValue := Some(value))),
                Broadcast(m, Accepted(id, value)), false)
      case _ => Outcome(m, Reply(m, from, Nack(id, n.saved.promisedId)), false)
  }

  /** The value taken into the chain is the one in the packet. */
  function ReceiveAccepted(n: Node, from: Uid, instance: nat, id: ProposalId, value: Value,
                           callbackOk: bool): Outcome
  {
    if instance != n.saved.instanceNumber then Outcome(n, [], false)
    else
      var (learner, reply) := L.AcceptedStep(n.paxos.learner, from, id, value);
      var m := n.(paxos := n.paxos.(learner := learner));
      match reply
      case Resolution(_) => AdvanceInstance(m, n.saved.instanceNumber + 1, Some(value), callbackOk)
      case _ => Outcome(m, [], reply.Raised?)
  }

  function ReceiveSyncRequest(n: Node, from: Uid, instance: nat): Outcome {
    Outcome(n, if instance < n.saved.instanceNumber then Reply(n, from, Catchup(n.saved.currentValue)) else [], false)
  }

  function ReceiveCatchup(n: Node, instance: nat, current: Option<Value>, callbackOk: bool): Outcome {
    if instance > n.saved.instanceNumber then AdvanceInstance(n, instance, current, callbackOk)
    else Outcome(n, [], false)
  }

  /** Dispatch of a datagram on its message type. */
  function Receive(n: Node, p: Packet, callbackOk: bool): Outcome {
    match p.body
    case Prepare(id) => ReceivePrepare(n, p.src, p.instance, id)
    case Promise(id, lastId, lastValue) => ReceivePromise(n, p.src, p.instance, id, lastId, lastValue)
    case Nack(id, promisedId) => ReceiveNack(n, p.src, p.instance, id, promisedId)
    case Accept(id, value) => ReceiveAccept(n, p.src, p.instance, id, value)
    case Accepted(id, value) => ReceiveAccepted(n, p.src, p.instance, id, value, callbackOk)
    case SyncRequest => ReceiveSyncRequest(n, p.src, p.instance)
    case Catchup(current) => ReceiveCatchup(n, p.instance, current, callbackOk)
  }

  // ----- The server object -----

  class ReplicatedValue {
    const uid: Uid
    const peers: seq<Uid>
    const quorumSize: nat
    var instanceNumber: nat
    var currentValue: Option<Value>
    var promisedId: Option<ProposalId>
    var acceptedId: Option<ProposalId>
    var acceptedValue: Option<Value>
    var stateFile: Saved
    var paxos: PaxosInstance
    var retransmitTask: Option<nat>
    var running: map<nat, Task>  // looping calls running in the reactor
    var nextHandle: nat
    var updates: seq<Update>     // calls of onUpdateCallback
    var outbox: seq<Packet>      // datagrams handed to the messenger

    ghost predicate Valid()
      reads this, paxos, paxos.learner
    {
      && paxos.Valid()
      && this !in paxos.Repr()
      && quorumSize == QuorumSize(|peers|)
      && stateFile == Saved(instanceNumber, currentValue, promisedId, acceptedId, acceptedValue)
    }

    ghost function Repr(): set<object>
      reads this, paxos, paxos.learner
    {
      {this} + paxos.Repr()
    }

    ghost function View(): Node
      reads this, paxos.Repr(), paxos.learner
    {
      Node(uid, peers, stateFile, paxos.View(), retransmitTask, running, nextHandle, updates)
    }

    /** This object went through exactly the effect `o`, starting from the datagrams `before`. */
    ghost predicate Performed(o: Outcome, before: seq<Packet>, raised: bool)
      reads this, paxos.Repr(), paxos.learner
    {
      View() == o.node && outbox == before + o.sent && raised == o.raised
    }

    constructor (uid: Uid, peers: seq<Uid>)
      ensures Valid() && fresh(Repr())
      ensures View() == FreshNode(uid, peers) && outbox == []
    {
      this.uid, this.peers, quorumSize := uid, peers, QuorumSize(|peers|);
      instanceNumber, currentValue, promisedId, acceptedId, acceptedValue := 0, None, None, None, None;
      stateFile := Saved(0, None, None, None, None);
      retransmitTask, running, nextHandle, updates, outbox := None, map[], 0, [], [];
      paxos := new PaxosInstance(uid, QuorumSize(|peers|), None, None, None);
    }

    method SaveAttributes(instance: nat, current: Option<Value>, promised: Option<ProposalId>,
                          accepted: Option<ProposalId>, value: Option<Value>)
      modifies this`instanceNumber, this`currentValue, this`promisedId, this`acceptedId, this`acceptedValue
      ensures Saved(instanceNumber, currentValue, promisedId, acceptedId, acceptedValue)
              == Saved(instance, current, promised, accepted, value)
    {
      instanceNumber, currentValue, promisedId, acceptedId, acceptedValue := instance, current, promised, accepted, value;
    }

    method SaveState(instance: nat, current: Option<Value>, promised: Option<ProposalId>,
                     accepted: Option<ProposalId>, value: Option<Value>)
      requires Valid()
      modifies this
      ensures Valid() && paxos == old(paxos) && outbox == old(outbox)
      ensures View() == old(View()).(saved := Saved(instance, current, promised, accepted, value))
    {
      SaveAttributes(instance, current, promised, accepted, value);
      stateFile := Saved(instance, current, promised, accepted, value);
    }

    /** The loop of the send_ methods over the peer list. */
    method SendToPeers(body: Body)
      requires Valid()
      modifies this`outbox
      ensures Valid() && View() == old(View())
      ensures outbox == old(outbox) + Broadcast(View(), body)
    {
      var i := 0;
      while i < |peers|
        invariant 0 <= i <= |peers|
        invariant Valid()
        invariant View() == old(View())
        invariant outbox == old(outbox) + Broadcast(View(), body)[..i]
      {
        outbox := outbox + [Packet(uid, peers[i], instanceNumber, body)];
        i := i + 1;
      }
    }

    method SendTo(to: Uid, body: Body)
      requires Valid()
      modifies this`outbox
      ensures Valid() && View() == old(View())
      ensures outbox == old(outbox) + Reply(View(), to, body)
    {
      outbox := outbox + [Packet(uid, to, instanceNumber, body)];
    }

    method StopDrivingTask() returns (failed: bool)
      requires Valid()
      modifies this`retransmitTask, this`running
      ensures Valid()
      ensures (View(), failed) == StopDriving(old(View()))
    {
      failed := false;
      if retransmitTask.Some? {
        if retransmitTask.value !in running {
          return true;
        }
        running := running - {retransmitTask.value};
        retransmitTask := None;
      }
    }

    method StartLoopingCall(task: Task)
      requires Valid()
      modifies this`retransmitTask, this`running, this`nextHandle, this`outbox
      ensures Valid()
      ensures Performed(StartTask(old(View()), task), old(outbox), false)
    {
      retransmitTask := Some(nextHandle);
      running := running[nextHandle := task];
      nextHandle := nextHandle + 1;
      assert View() == StartTask(old(View()), task).node;
      SendToPeers(TaskBody(task));
    }

    method Drive() returns (raised: bool)
      requires Valid()
      modifies Repr()
      ensures Valid() && Repr() == old(Repr())
      ensures Performed(DriveToResolution(old(View())), old(outbox), raised)
    {
      raised := StopDrivingTask();
      if !raised {
        ghost var stopped := View();
        var _ := paxos.proposer.Prepare();
        assert View() == stopped.(paxos := stopped.paxos.(proposer := P.PrepareStep(stopped.paxos.proposer)));
        StartLoopingCall(PrepareTask(paxos.proposer.proposalId));
      }
    }

    method TransmitAccept(id: ProposalId, value: Value) returns (raised: bool)
      requires Valid()
      modifies this
      ensures Valid() && paxos == old(paxos)
      ensures Performed(SendAccept(old(View()), id, value), old(outbox), raised)
    {
      if retransmitTask.Some? {
        if retransmitTask.value !in running {
          return true;
        }
        running := running - {retransmitTask.value};
      }
      StartLoopingCall(AcceptTask(id, value));
      raised := false;
    }

    method Advance(instance: nat, value: Option<Value>, callbackOk: bool) returns (raised: bool)
      requires Valid()
      modifies this
      ensures Valid() && fresh(paxos.Repr())
      ensures Performed(AdvanceInstance(old(View()), instance, value, callbackOk), old(outbox), raised)
    {
      SaveState(instance, value, None, None, None);
      paxos := new PaxosInstance(uid, quorumSize, None, None, None);
      updates := updates + [Update(instance, value)];
      if !callbackOk {
        return true;
      }
      raised := StopDrivingTask();
    }

    method Propose(value: Value) returns (raised: bool)
      requires Valid()
      modifies Repr()
      ensures Valid() && Repr() == old(Repr())
      ensures Performed(ProposeUpdate(old(View()), value), old(outbox), raised)
    {
      if paxos.proposer.proposedValue.None? {
        var _ := paxos.proposer.ProposeValue(value);
      }
      ghost var before := old(View());
      assert View() == before.(paxos := before.paxos.(proposer := P.ProposeValueStep(before.paxos.proposer, value).0));
      raised := Drive();
    }

    method HandlePrepare(from: Uid, instance: nat, id: ProposalId) returns (raised: bool)
      requires Valid()
      modifies Repr()
      ensures Valid() && Repr() == old(Repr())
      ensures Performed(ReceivePrepare(old(View()), from, instance, id), old(outbox), raised)
    {
      raised := false;
      if instance != instanceNumber {
        return;
      }
      var reply := paxos.ReceivePrepare(id);
      if reply.Promised? {
        SaveState(instanceNumber, currentValue, Some(id), reply.lastId, reply.lastValue);
        SendTo(from, Promise(id, reply.lastId, reply.lastValue));
      } else {
        SendTo(from, Nack(id, promisedId));
      }
    }

    method HandleNack(from: Uid, instance: nat, id: ProposalId, promised: Option<ProposalId>) returns (raised: bool)
      requires Valid()
      modifies Repr()
      ensures Valid() && Repr() == old(Repr())
      ensures Performed(ReceiveNack(old(View()), from, instance, id, promised), old(outbox), raised)
    {
      raised := false;
      if instance != instanceNumber {
        return;
      }
      var _ := paxos.proposer.ReceiveNack(from, id, promised);
      raised := StopDrivingTask();
    }

    method HandlePromise(from: Uid, instance: nat, id: ProposalId,
                         lastId: Option<ProposalId>, lastValue: Option<Value>) returns (raised: bool)
      requires Valid()
      modifies Repr()
      ensures Valid() && Repr() == old(Repr())
      ensures Performed(ReceivePromise(old(View()), from, instance, id, lastId, lastValue), old(outbox), raised)
    {
      raised := false;
      if instance != instanceNumber {
        return;
      }
      ghost var before := View();
      var reply := paxos.proposer.ReceivePromise(from, id, lastId, lastValue);
      assert View() == before.(paxos := before.paxos.(proposer :=
        P.PromiseStep(before.paxos.proposer, from, id, lastId, lastValue).0));
      match reply {
        case SendAccept(acceptId, value) =>
          raised := TransmitAccept(acceptId, value);
        case _ =>
          raised := reply.Raised?;
      }
    }

    method HandleAccept(from: Uid, instance: nat, id: ProposalId, value: Value) returns (raised: bool)
      requires Valid()
      modifies Repr()
      ensures Valid() && Repr() == old(Repr())
      ensures Performed(ReceiveAccept(old(View()), from, instance, id, value), old(outbox), raised)
    {
      raised := false;
      if instance != instanceNumber {
        return;
      }
      var reply := paxos.ReceiveAccept(id, value);
      if reply.Accepted? {
        SaveState(instanceNumber, currentValue, promisedId, Some(id), Some(value));
        SendToPeers(Accepted(id, value));
      } else {
        SendTo(from, Nack(id, promisedId));
      }
    }

    /** The learner's part of an Accepted message. */
    method Learn(from: Uid, id: ProposalId, value: Value) returns (reply: L.LearnerReply)
      requires Valid()
      modifies paxos.learner.Repr()
      ensures Valid() && fresh(Repr() - old(Repr()))
      ensures outbox == old(outbox) && paxos == old(paxos)
      ensures var (learner, answer) := L.AcceptedStep(old(View()).paxos.learner, from, id, value);
              View() == old(View()).(paxos := old(View()).paxos.(learner := learner)) && reply == answer
    {
      reply := paxos.learner.ReceiveAccepted(from, id, value);
    }

    method HandleAccepted(from: Uid, instance: nat, id: ProposalId, value: Value, callbackOk: bool)
      returns (raised: bool)
      requires Valid()
      modifies Repr()
      ensures Valid() && fresh(Repr() - old(Repr()))
      ensures Performed(ReceiveAccepted(old(View()), from, instance, id, value, callbackOk), old(outbox), raised)
    {
      raised := false;
      if instance != instanceNumber {
        return;
      }
      var reply := Learn(from, id, value);
      if reply.Resolution? {
        ghost var o := AdvanceInstance(View(), instance + 1, Some(value), callbackOk);
        assert o == ReceiveAccepted(old(View()), from, instance, id, value, callbackOk);
        raised := Advance(instance + 1, Some(value), callbackOk);
      } else {
        raised := reply.Raised?;
      }
    }

    method HandleSyncRequest(from: Uid, instance: nat) returns (raised: bool)
      requires Valid()
      modifies this`outbox
      ensures Valid()
      ensures Performed(ReceiveSyncRequest(old(View()), from, instance), old(outbox), raised)
    {
      if instance < instanceNumber {
        SendTo(from, Catchup(currentValue));
      }
      raised := false;
    }

    method HandleCatchup(instance: nat, current: Option<Value>, callbackOk: bool) returns (raised: bool)
      requires Valid()
      modifies this
      ensures Valid() && fresh(Repr() - old(Repr()))
      ensures Performed(ReceiveCatchup(old(View()), instance, current, callbackOk), old(outbox), raised)
    {
      raised := false;
      if instance > instanceNumber {
        raised := Advance(instance, current, callbackOk);
      }
    }

    /** The messages between acceptors and proposers. */
    method HandleRound(p: Packet, callbackOk: bool) returns (raised: bool)
      requires Valid() && (p.body.Prepare? || p.body.Promise? || p.body.Nack? || p.body.Accept?)
      modifies Repr()
      ensures Valid() && Repr() == old(Repr())
      ensures Performed(Receive(old(View()), p, callbackOk), old(outbox), raised)
    {
      match p.body {
        case Prepare(id) => raised := HandlePrepare(p.src, p.instance, id);
        case Promise(id, lastId, lastValue) => raised := HandlePromise(p.src, p.instance, id, lastId, lastValue);
        case Nack(id, promised) => raised := HandleNack(p.src, p.instance, id, promised);
        case Accept(id, value) => raised := HandleAccept(p.src, p.instance, id, value);
      }
    }

    /** A datagram arrives. */
    method Handle(p: Packet, callbackOk: bool) returns (raised: bool)
      requires Valid()
      modifies Repr()
      ensures Valid() && fresh(Repr() - old(Repr()))
      ensures Performed(Receive(old(View()), p, callbackOk), old(outbox), raised)
    {
      match p.body {
        case Accepted(id, value) => raised := HandleAccepted(p.src, p.instance, id, value, callbackOk);
        case SyncRequest => raised := HandleSyncRequest(p.src, p.instance);
        case Catchup(current) => raised := HandleCatchup(p.instance, current, callbackOk);
        case _ => raised := HandleRound(p, callbackOk);
      }
    }
  }
}
