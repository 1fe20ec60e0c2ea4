/** Runs told event by event: what the nodes have become and which datagrams are under way. */
module Scenario {
  import opened Ballots
  import opened Nodes
  import opened Network

  /** A run in which callbacks may raise at any time. */
  ghost predicate LooseRun(states: seq<System>, events: seq<Event>) {
    && |states| == |events| + 1
    && Init(states[0])
    && forall i {:trigger events[i]} :: 0 <= i < |events| ==>
         Possible(states[i], events[i]) && states[i + 1] == Do(states[i], events[i])
  }

  /** How many of the deliveries come with a callback that would raise. */
  function Raises(events: seq<Event>): nat
    decreases |events|
  {
    if events == [] then 0
    else
      var last := events[|events| - 1];
      Raises(events[..|events| - 1]) + if last.Deliver? && !last.callbackOk then 1 else 0
  }

  /** A run ends with these nodes, at least these datagrams sent, and so many raising callbacks. */
  ghost predicate EndsWith(states: seq<System>, events: seq<Event>, peers: seq<Uid>, nodes: map<Uid, Node>,
                           mail: set<Packet>, raises: nat)
  {
    && LooseRun(states, events) && Raises(events) == raises
    && var s := states[|states| - 1];
       s.peers == peers && s.nodes == nodes && mail <= s.net
  }

  ghost predicate Reached(peers: seq<Uid>, nodes: map<Uid, Node>, mail: set<Packet>, raises: nat) {
    exists states, events :: EndsWith(states, events, peers, nodes, mail, raises)
  }

  /** What an event does to its node. */
  function NodeEffect(n: Node, e: Event): Outcome
    requires e.RetransmitTimer? ==> e.handle in n.live
  {
    match e
    case Deliver(p, callbackOk) => Receive(n, p, callbackOk)
    case Propose(_, value) => ProposeUpdate(n, value)
    case DriveTimer(_) => DriveToResolution(n)
    case RetransmitTimer(_, h) => FireTask(n, n.live[h])
    case SyncTimer(_, peer) => Outcome(n, Reply(n, peer, SyncRequest), false)
  }

  lemma Begins(peers: seq<Uid>)
    requires peers != [] && Distinct(peers)
    ensures Reached(peers, map u | u in Members(peers) :: FreshNode(u, peers), {}, 0)
  {
    var s := System(peers, map u | u in Members(peers) :: FreshNode(u, peers), {}, {}, {});
    assert EndsWith([s], [], peers, s.nodes, {}, 0);
  }

  /** One event more. */
  lemma Goes(peers: seq<Uid>, nodes: map<Uid, Node>, mail: set<Packet>, raises: nat, e: Event, o: Outcome)
    requires Reached(peers, nodes, mail, raises)
    requires At(e) in nodes && !e.SyncTimer?
    requires e.Deliver? ==> e.packet in mail
    requires e.RetransmitTimer? ==> e.handle in nodes[At(e)].live
    requires o == NodeEffect(nodes[At(e)], e)
    ensures Reached(peers, nodes[At(e) := o.node], mail + Sent(o.sent),
                    raises + if e.Deliver? && !e.callbackOk then 1 else 0)
  {
    var states, events :| EndsWith(states, events, peers, nodes, mail, raises);
    var s := states[|states| - 1];
    assert Possible(s, e);
    assert Effect(s, e) == o;
    var next := Do(s, e);
    Appended(states, events, e, next);
    assert mail + Sent(o.sent) <= next.net;
    assert EndsWith(states + [next], events + [e], peers, nodes[At(e) := o.node], mail + Sent(o.sent),
                    raises + if e.Deliver? && !e.callbackOk then 1 else 0);
  }

  lemma Appended(states: seq<System>, events: seq<Event>, e: Event, next: System)
    requires LooseRun(states, events) && Possible(states[|states| - 1], e) && next == Do(states[|states| - 1], e)
    ensures LooseRun(states + [next], events + [e])
    ensures Raises(events + [e]) == Raises(events) + if e.Deliver? && !e.callbackOk then 1 else 0
  {
    assert (events + [e])[..|events|] == events;
    var (ss, es) := (states + [next], events + [e]);
    forall i {:trigger es[i]} | 0 <= i < |es|
      ensures Possible(ss[i], es[i]) && ss[i + 1] == Do(ss[i], es[i])
    {
      if i < |events| {
        assert es[i] == events[i] && ss[i] == states[i] && ss[i + 1] == states[i + 1];
      }
    }
  }

  lemma RunOf(peers: seq<Uid>, nodes: map<Uid, Node>, mail: set<Packet>, raises: nat)
    returns (states: seq<System>, events: seq<Event>)
    requires Reached(peers, nodes, mail, raises)
    ensures LooseRun(states, events) && Raises(events) == raises && states[|states| - 1].nodes == nodes
  {
    states, events :| EndsWith(states, events, peers, nodes, mail, raises);
  }

  lemma GoesDeliver(peers: seq<Uid>, nodes: map<Uid, Node>, p: Packet, callbackOk: bool, mail: set<Packet>, raises: nat,
                    o: Outcome)
    requires Reached(peers, nodes, mail, raises)
    requires p in mail && p.dst in nodes && o == Receive(nodes[p.dst], p, callbackOk)
    ensures Reached(peers, nodes[p.dst := o.node], mail + Sent(o.sent), raises + if callbackOk then 0 else 1)
  {
    Goes(peers, nodes, mail, raises, Deliver(p, callbackOk), o);
  }
}
