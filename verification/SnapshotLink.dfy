/** A sender and a receiver of snapshots on a FIFO link. */
module SnapshotLink {
  import opened Options
  import opened ByteStrings
  import opened SnapshotTransfer

  // ----- Sender and receiver over a FIFO link -----

  /**
   * One receiver `me` of a sender that also serves others. `held` is every
   * byte string the sender ever held whole, `arrived` every chunk that reached
   * the receiver, and `received` what setTransmissionData completed there.
   */
  datatype Link = Link(
    me: Peer,
    sender: State,
    channel: seq<Chunk>,
    receiver: State,
    held: set<Bytes>,
    arrived: seq<Chunk>,
    received: seq<Bytes>)

  datatype Action =
    | SenderSerializes(data: Bytes, id: int)
    | SenderChecks
    | SenderCancels(peer: Peer)
    | SenderSends(peer: Peer)
    | SenderIsSent(chunk: Chunk)              // the sender receives a snapshot itself
    | ReceiverSerializes(data: Bytes, id: int)
    | ReceiverChecks
    | ReceiverSends(peer: Peer)
    | Arrives                                 // the oldest chunk reaches the receiver
    | LinkBreaks                              // chunks in flight are lost and the sender cancels

  function Hold(l: Link, sender: State): Link {
    l.(sender := sender, held := l.held + if sender.memory.Some? then {sender.memory.value} else {})
  }

  function Act(l: Link, a: Action): Link {
    match a
    case SenderSerializes(data, id) => Hold(l, SerializeStep(l.sender, data, id))
    case SenderChecks => Hold(l, CheckStep(l.sender).0)
    case SenderCancels(peer) => Hold(l, CancelStep(l.sender, peer))
    case SenderIsSent(chunk) => Hold(l, SetStep(l.sender, Some(chunk)).0)
    case SenderSends(peer) =>
      var (sender, chunk) := GetStep(l.sender, peer);
      Hold(l, sender).(channel := l.channel + if peer == l.me && chunk.Some? then [chunk.value] else [])
    case ReceiverSerializes(data, id) => l.(receiver := SerializeStep(l.receiver, data, id))
    case ReceiverChecks => l.(receiver := CheckStep(l.receiver).0)
    case ReceiverSends(peer) => l.(receiver := GetStep(l.receiver, peer).0)
    case Arrives =>
      if l.channel == [] then l
      else
        var (receiver, whole) := SetStep(l.receiver, Some(l.channel[0]));
        l.(channel := l.channel[1..], receiver := receiver, arrived := l.arrived + [l.channel[0]],
           received := l.received + if whole && receiver.memory.Some? then [receiver.memory.value] else [])
    case LinkBreaks => Hold(l, CancelStep(l.sender, l.me)).(channel := [])
  }

  ghost predicate LinkInit(l: Link) {
    && l.sender == State(l.sender.batch, false, 0, map[], None, None)
    && l.receiver == State(l.receiver.batch, false, 0, map[], None, None)
    && l.channel == [] && l.held == {} && l.arrived == [] && l.received == []
  }

  function Acts(l: Link, actions: seq<Action>): Link
    decreases |actions|
  {
    if actions == [] then l else Act(Acts(l, actions[..|actions| - 1]), actions[|actions| - 1])
  }

  // ----- No torn snapshot -----

  /** A transmission under way: a proper start of a snapshot once held, and the receiver will hold just that. */
  ghost predicate UnderWay(t: Transmission, held: set<Bytes>) {
    t.data in held && 0 < t.transmitted <= |t.data|
  }

  ghost predicate LinkOk(l: Link) {
    && l.sender.batch > 0
    && (l.sender.memory.Some? ==> l.sender.memory.value in l.held)
    && (forall p :: p in l.sender.transmissions ==> UnderWay(l.sender.transmissions[p], l.held))
    && (forall b :: b in l.received ==> b in l.held)
    && (forall b :: b in Assemble(l.receiver.incoming, l.channel).1 ==> b in l.held)
    && (l.me in l.sender.transmissions ==>
          Expected(l.sender.transmissions[l.me], Assemble(l.receiver.incoming, l.channel).0))
  }

  /** What the receiver will hold once one chunk more of `t` has come. */
  lemma ChunkAssembles(l: Link, t: Transmission)
    requires l.sender.batch > 0 && t.data in l.held && t.transmitted <= |t.data|
    requires forall b :: b in Assemble(l.receiver.incoming, l.channel).1 ==> b in l.held
    requires t.transmitted > 0 ==> Expected(t, Assemble(l.receiver.incoming, l.channel).0)
    ensures var c := ChunkOf(t, l.sender.batch);
            var (buffer, whole) := Assemble(l.receiver.incoming, l.channel + [c]);
            && (forall b :: b in whole ==> b in l.held)
            && (!c.isLast ==> c.data != [] && Expected(t.(transmitted := t.transmitted + |c.data|), buffer))
  {
    AssembleJoin(l.receiver.incoming, l.channel, ChunkOf(t, l.sender.batch));
    NextChunk(t, l.sender.batch, Assemble(l.receiver.incoming, l.channel).0);
  }

  /** The transmission a chunk to the receiver belongs to. */
  function Sending(l: Link): Transmission
    requires l.me in l.sender.transmissions || l.sender.memory.Some?
  {
    if l.me in l.sender.transmissions then l.sender.transmissions[l.me] else Transmission(0, l.sender.memory.value)
  }

  /** The link with one chunk more on its way to the receiver. */
  ghost predicate OneMoreSent(l: Link, next: Link, t: Transmission, c: Chunk) {
    && next.channel == l.channel + [c] && next.receiver == l.receiver && next.received == l.received
    && next.me == l.me && l.held <= next.held
    && next.sender == l.sender.(transmissions := next.sender.transmissions)
    && next.sender.transmissions == (if c.isLast then l.sender.transmissions - {l.me}
                                     else l.sender.transmissions[l.me := t.(transmitted := t.transmitted + |c.data|)])
  }

  lemma SendEffect(l: Link)
    requires !l.sender.serializing && (l.me in l.sender.transmissions || l.sender.memory.Some?)
    ensures OneMoreSent(l, Act(l, SenderSends(l.me)), Sending(l), ChunkOf(Sending(l), l.sender.batch))
  {
  }

  /** The receiver's own chunk: the channel gains it, the transmission moves by its length. */
  lemma OneMoreKeepsLink(l: Link, next: Link)
    requires LinkOk(l) && (l.me in l.sender.transmissions || l.sender.memory.Some?)
    requires OneMoreSent(l, next, Sending(l), ChunkOf(Sending(l), l.sender.batch))
    ensures LinkOk(next)
  {
    ChunkAssembles(l, Sending(l));
  }

  lemma SendKeepsLink(l: Link, peer: Peer)
    requires LinkOk(l)
    ensures LinkOk(Act(l, SenderSends(peer)))
  {
    if peer == l.me && !l.sender.serializing && (peer in l.sender.transmissions || l.sender.memory.Some?) {
      SendEffect(l);
      OneMoreKeepsLink(l, Act(l, SenderSends(peer)));
    } else {
      assert l.channel + [] == l.channel;
    }
  }

  lemma ActKeepsLink(l: Link, a: Action)
    requires LinkOk(l)
    ensures LinkOk(Act(l, a))
  {
    match a
    case SenderSends(peer) => SendKeepsLink(l, peer);
    case _ =>
  }

  lemma {:induction false} LinkHolds(l: Link, actions: seq<Action>)
    requires LinkInit(l) && l.sender.batch > 0
    ensures LinkOk(Acts(l, actions))
    decreases |actions|
  {
    if actions != [] {
      LinkHolds(l, actions[..|actions| - 1]);
      ActKeepsLink(Acts(l, actions[..|actions| - 1]), actions[|actions| - 1]);
    }
  }

  /**
   * No torn snapshot: whatever the interleaving of serialising, checking,
   * cancelling, sending to anyone, and link failures, everything the receiver
   * ever completes is a snapshot the sender held whole.
   */
  lemma NoTornSnapshot(l: Link, actions: seq<Action>, whole: Bytes)
    requires LinkInit(l) && l.sender.batch > 0
    requires whole in Acts(l, actions).received
    ensures whole in Acts(l, actions).held
  {
    LinkHolds(l, actions);
  }

  // ----- The chunks that arrived, on their own -----

  /** What has been completed, and what is left in the buffer, comes of the chunks that arrived and of nothing else. */
  ghost predicate ArrivedOnly(l: Link) {
    Assemble(None, l.arrived) == (l.receiver.incoming, l.received)
  }

  lemma ActKeepsArrived(l: Link, a: Action)
    requires ArrivedOnly(l)
    ensures ArrivedOnly(Act(l, a))
  {
    if a.Arrives? && l.channel != [] {
      AssembleJoin(None, l.arrived, l.channel[0]);
    }
  }

  /** No sender's chunks tear anything on their own: they complete only what the sender held whole. */
  lemma {:induction false} ArrivedCompletesHeld(l: Link, actions: seq<Action>)
    requires LinkInit(l) && l.sender.batch > 0
    ensures ArrivedOnly(Acts(l, actions))
    ensures forall whole :: whole in Assemble(None, Acts(l, actions).arrived).1 ==> whole in Acts(l, actions).held
    decreases |actions|
  {
    if actions != [] {
      ArrivedCompletesHeld(l, actions[..|actions| - 1]);
      ActKeepsArrived(Acts(l, actions[..|actions| - 1]), actions[|actions| - 1]);
    }
    forall whole | whole in Assemble(None, Acts(l, actions).arrived).1
      ensures whole in Acts(l, actions).held
    {
      NoTornSnapshot(l, actions, whole);
    }
  }
}
