/**
 * All servers together over UDP. A datagram once sent stays in `net` for ever,
 * so loss, duplication and reordering are simply choices of what to deliver.
 */
module Network {
  import opened Options
  import opened Ballots
  import opened Nodes
  import P = ProposerRole

  /** An Accept produced by a proposer while its node was at `instance`. */
  datatype Ballot = Ballot(instance: nat, id: ProposalId, value: Value)

  /**
   * `proposed` and `minted` are histories: every value offered to
   * propose_update, and every Accept a proposer's receive_promise returned.
   */
  datatype System = System(
    peers: seq<Uid>,
    nodes: map<Uid, Node>,
    net: set<Packet>,
    proposed: set<Value>,
    minted: set<Ballot>)

  datatype Event =
    | Deliver(packet: Packet, callbackOk: bool)      // whether onUpdateCallback, if called, returns
    | Propose(uid: Uid, value: Value)
    | DriveTimer(uid: Uid)
    | RetransmitTimer(uid: Uid, handle: nat)
    | SyncTimer(uid: Uid, peer: Uid)

  predicate Init(s: System) {
    && s.peers != [] && Distinct(s.peers)
    && s.nodes == (map u | u in Members(s.peers) :: FreshNode(u, s.peers))
    && s.net == {} && s.proposed == {} && s.minted == {}
  }

  predicate Possible(s: System, e: Event) {
    match e
    case Deliver(p, _) => p in s.net && p.dst in s.nodes
    case Propose(u, _) => u in s.nodes
    case DriveTimer(u) => u in s.nodes
    case RetransmitTimer(u, h) => u in s.nodes && h in s.nodes[u].live
    case SyncTimer(u, peer) => u in s.nodes && peer in s.peers
  }

  /** No looping call on air sends an Accept. */
  predicate PreparesOnly(n: Node) {
    forall h :: h in n.live ==> n.live[h].PrepareTask?
  }

  /** Runs are made of possible events whose callback returns, or raises while no Accept is being retransmitted. */
  predicate Enabled(s: System, e: Event) {
    Possible(s, e) && (e.Deliver? && !e.callbackOk ==> PreparesOnly(s.nodes[At(e)]))
  }

  /** The node an event happens at. */
  function At(e: Event): Uid {
    match e
    case Deliver(p, _) => p.dst
    case Propose(u, _) => u
    case DriveTimer(u) => u
    case RetransmitTimer(u, _) => u
    case SyncTimer(u, _) => u
  }

  function Effect(s: System, e: Event): Outcome
    requires Possible(s, e)
  {
    var n := s.nodes[At(e)];
    match e
    case Deliver(p, callbackOk) => Receive(n, p, callbackOk)
    case Propose(_, value) => ProposeUpdate(n, value)
    case DriveTimer(_) => DriveToResolution(n)
    case RetransmitTimer(_, h) => FireTask(n, n.live[h])
    case SyncTimer(_, peer) => Outcome(n, Reply(n, peer, SyncRequest), false)
  }

  /** The ballot produced by an event, recorded where the proposer produces it and not where it is sent. */
  function Minted(s: System, e: Event): set<Ballot>
    requires Possible(s, e)
  {
    if e.Deliver? && e.packet.body.Promise? && e.packet.instance == s.nodes[At(e)].saved.instanceNumber then
      var m := e.packet.body;
      match P.PromiseStep(s.nodes[At(e)].paxos.proposer, e.packet.src, m.id, m.lastId, m.lastValue).1
      case SendAccept(id, value) => {Ballot(e.packet.instance, id, value)}
      case _ => {}
    else {}
  }

  function Sent(packets: seq<Packet>): set<Packet> {
    set p | p in packets
  }

  function Advanced(s: System, u: Uid, o: Outcome, proposed: set<Value>, minted: set<Ballot>): System {
    System(s.peers, s.nodes[u := o.node], s.net + Sent(o.sent), s.proposed + proposed, s.minted + minted)
  }

  function Do(s: System, e: Event): System
    requires Possible(s, e)
  {
    Advanced(s, At(e), Effect(s, e), if e.Propose? then {e.value} else {}, Minted(s, e))
  }

  /** A run from the initial state: `events[i]` leads from `states[i]` to `states[i+1]`. */
  ghost predicate Run(states: seq<System>, events: seq<Event>) {
    && |states| == |events| + 1
    && Init(states[0])
    && forall i {:trigger events[i]} :: 0 <= i < |events| ==>
         Enabled(states[i], events[i]) && states[i + 1] == Do(states[i], events[i])
  }

  ghost predicate Reachable(s: System) {
    exists states, events :: Run(states, events) && s == states[|states| - 1]
  }

  // ----- Votes and choice -----

  /** Acceptor `a` really sent Accepted for (id, value) in `instance`: seen in the copy it addressed to itself. */
  predicate Voted(s: System, a: Uid, instance: nat, id: ProposalId, value: Value) {
    Packet(a, a, instance, Accepted(id, value)) in s.net
  }

  ghost predicate IsQuorum(s: System, q: set<Uid>) {
    q <= Members(s.peers) && |q| >= QuorumSize(|s.peers|)
  }

  ghost predicate QuorumVotedFor(s: System, instance: nat, id: ProposalId, value: Value, q: set<Uid>) {
    IsQuorum(s, q) && forall a :: a in q ==> Voted(s, a, instance, id, value)
  }

  /** Value chosen in an instance under a proposal id ("Paxos Made Simple", section 2.2). */
  ghost predicate ChosenAt(s: System, instance: nat, id: ProposalId, value: Value) {
    exists q :: QuorumVotedFor(s, instance, id, value, q)
  }

  ghost predicate Chosen(s: System, instance: nat, value: Value) {
    exists id :: ChosenAt(s, instance, id, value)
  }

  /** `a` has not voted at `id` in `instance` and never will: it has left the instance or promised higher. */
  ghost predicate NeverVotes(s: System, a: Uid, instance: nat, id: ProposalId) {
    && a in s.nodes
    && (forall v :: !Voted(s, a, instance, id, v))
    && (|| s.nodes[a].saved.instanceNumber > instance
        || (s.nodes[a].saved.instanceNumber == instance
            && Below(Some(id), s.nodes[a].paxos.acceptor.promisedId)))
  }

  /** Every member of `q` voted for `value` at `id`, or can never vote there. */
  ghost predicate Backing(s: System, instance: nat, id: ProposalId, value: Value, q: set<Uid>) {
    && IsQuorum(s, q)
    && forall a :: a in q ==> Voted(s, a, instance, id, value) || NeverVotes(s, a, instance, id)
  }

  /** No value other than `value` has been or can ever be chosen below `id`. */
  ghost predicate SafeAt(s: System, instance: nat, id: ProposalId, value: Value) {
    forall lower :: Less(lower, id) ==> exists q :: Backing(s, instance, lower, value, q)
  }
}
