/** Two connections joined by a TCP stream, under any splitting of sends and reads. */
module StreamRuns {
  import opened Options
  import opened ByteStrings
  import opened StreamFraming

  // ----- Frames -----

  ghost predicate AllFit<M(!new)>(codec: Codec<M>, ms: seq<Option<M>>) {
    forall i :: 0 <= i < |ms| ==> Fits(codec, ms[i])
  }

  /** What a sequence of messages looks like on the wire. */
  function Frames<M(!new)>(codec: Codec<M>, ms: seq<Option<M>>): (b: Bytes)
    requires AllFit(codec, ms)
  {
    if ms == [] then [] else Frame(codec, ms[0]) + Frames(codec, ms[1..])
  }

  lemma {:induction false} FramesJoin<M(!new)>(codec: Codec<M>, a: seq<Option<M>>, b: seq<Option<M>>)
    requires AllFit(codec, a) && AllFit(codec, b)
    ensures AllFit(codec, a + b) && Frames(codec, a + b) == Frames(codec, a) + Frames(codec, b)
    decreases |a|
  {
    if a == [] {
      assert a + b == b;
    } else {
      FramesJoin(codec, a[1..], b);
      assert (a + b)[1..] == a[1..] + b;
    }
  }

  /** The messages that are not None. */
  function Values<M>(ms: seq<Option<M>>): seq<M> {
    if ms == [] then []
    else (if ms[0].Some? then [ms[0].value] else []) + Values(ms[1..])
  }

  lemma {:induction false} ValuesJoin<M>(a: seq<Option<M>>, b: seq<Option<M>>)
    ensures Values(a + b) == Values(a) + Values(b)
    decreases |a|
  {
    if a == [] {
      assert a + b == b;
    } else {
      ValuesJoin(a[1..], b);
      assert (a + b)[1..] == a[1..] + b;
      var head := if a[0].Some? then [a[0].value] else [];
      assert head + (Values(a[1..]) + Values(b)) == (head + Values(a[1..])) + Values(b);
    }
  }

  // ----- The receive loop on a prefix of a framed stream -----

  /** A whole frame at the head of the buffer is taken off, and its message is what was encoded. */
  lemma GetMessageTakesFrame<M(!new)>(codec: Codec<M>, e: Ends, m: Option<M>, rest: Bytes)
    requires Faithful(codec) && Fits(codec, m)
    requires e.readBuffer == Frame(codec, m) + rest
    ensures GetMessageStep(codec, e)
            == (e.(readBuffer := rest), if m.Some? then Delivered(m.value) else NoMessage)
  {
    var data := codec.encode(m);
    UnpackPacked(|data|);
    assert e.readBuffer[..4] == Pack(|data|);
    assert e.readBuffer[4..4 + |data|] == data;
    assert e.readBuffer[4 + |data|..] == rest;
  }

  /** What getMessage looks at first: the buffer does not hold the frame it announces. */
  predicate NoWholeFrame(b: Bytes) {
    |b| < 4 || |b| - 4 < Unpack(b[..4])
  }

  /** On the way through a framed stream this means that the next message has not arrived whole. */
  lemma NoWholeFrameIff<M(!new)>(codec: Codec<M>, ms: seq<Option<M>>, b: Bytes)
    requires AllFit(codec, ms) && b <= Frames(codec, ms)
    ensures NoWholeFrame(b) <==> ms == [] || |b| < |Frame(codec, ms[0])|
  {
    if ms != [] && |b| >= 4 {
      var f := Frame(codec, ms[0]);
      UnpackPacked(|codec.encode(ms[0])|);
      assert b[..4] == Frames(codec, ms)[..4] == f[..4] == Pack(|codec.encode(ms[0])|);
    }
  }

  lemma CutHead(head: Bytes, a: Bytes, b: Bytes)
    requires head + a <= head + b
    ensures a <= b
  {
    forall i | 0 <= i < |a| ensures a[i] == b[i] {
      assert (head + a)[|head| + i] == (head + b)[|head| + i];
    }
  }

  /** Whatever the kernel takes is the next part of the write buffer, and the rest stays unless the socket breaks. */
  lemma {:induction false} TrySendConserves(e: Ends, rs: seq<SendResult>)
    requires !e.disconnected
    ensures var (end, taken) := TrySendStep(e, rs);
            && taken <= e.writeBuffer
            && (if end.disconnected then end == BROKE
                else end.readBuffer == e.readBuffer && taken + end.writeBuffer == e.writeBuffer)
    decreases |rs|
  {
    if rs != [] {
      var (next, bytes, again) := ProcessSendStep(e, rs[0]);
      assert again ==> bytes + next.writeBuffer == e.writeBuffer;
      if again {
        TrySendConserves(next, rs[1..]);
        var (end, more) := TrySendStep(next, rs[1..]);
        assert (bytes + more) + end.writeBuffer == bytes + (more + end.writeBuffer);
      }
    }
  }

  /** A reply that goes through leaves the read buffer alone; one that fails throws it away. */
  lemma {:induction false} ReactionKeepsRead<M(!new)>(codec: Codec<M>, e: Ends, replies: seq<Reply<M>>)
    requires !e.disconnected
    ensures var (end, effects, _) := ReactStep(codec, e, replies);
            if end.disconnected then end == BROKE && effects.dropped == e.readBuffer
            else end.readBuffer == e.readBuffer && effects.dropped == []
    decreases |replies|
  {
    if replies != [] && Fits(codec, replies[0].m) {
      var reply := replies[0];
      TrySendConserves(e.(writeBuffer := e.writeBuffer + Frame(codec, reply.m)), reply.rs);
      var (next, one, _) := ReplyStep(codec, e, reply);
      if !next.disconnected {
        ReactionKeepsRead(codec, next, replies[1..]);
      } else {
        assert one.dropped + [] == e.readBuffer;
      }
    }
  }

  /** The loop was ended neither by a failed reply nor by an exception. */
  predicate Undisturbed<M>(d: Drained<M>) {
    !d.end.disconnected && !d.last.Raised?
  }

  /** j messages were consumed by the receive loop; what it has not consumed is still buffered or was dropped. */
  ghost predicate Consumed<M(!new)>(codec: Codec<M>, buffer: Bytes, ms: seq<Option<M>>, j: nat, d: Drained<M>)
    requires AllFit(codec, ms)
  {
    && j <= |ms|
    && Frames(codec, ms[..j]) + (d.end.readBuffer + d.effects.dropped) == buffer
    && d.delivered == Values(ms[..j])
    && (!d.end.disconnected ==> d.effects.dropped == [])
    && (Undisturbed(d) && None !in ms[..j] ==> NoWholeFrame(d.end.readBuffer))
  }

  /** On a connection just broken the loop finds nothing more. */
  lemma BrokenEndsLoop<M(!new)>(codec: Codec<M>, reactions: seq<Reaction<M>>)
    requires RefusesEmpty(codec)
    ensures DrainStep(codec, BROKE, reactions) == Drained(BROKE, [], NoEffects(), NoMessage)
  {
  }

  /** The loop stops with the message handled: something raised, or an answer broke the connection. */
  predicate Stops<M(!new)>(codec: Codec<M>, next: Ends, reaction: Reaction<M>) {
    var (after, _, raised) := ReactStep(codec, next, reaction.replies);
    raised || reaction.raises || (after.disconnected && !next.disconnected)
  }

  lemma ReactionAccounts<M(!new)>(codec: Codec<M>, next: Ends, replies: seq<Reply<M>>)
    ensures var (after, effects, _) := ReactStep(codec, next, replies);
            && after.readBuffer + effects.dropped == next.readBuffer
            && (if after.disconnected && !next.disconnected then after == BROKE
                else effects.dropped == [] && after.readBuffer == next.readBuffer)
  {
    if !next.disconnected {
      ReactionKeepsRead(codec, next, replies);
    }
    assert next.readBuffer + [] == next.readBuffer && [] + next.readBuffer == next.readBuffer;
  }

  lemma StopsHere<M(!new)>(codec: Codec<M>, e: Ends, reactions: seq<Reaction<M>>)
    requires RefusesEmpty(codec) && GetMessageStep(codec, e).1.Delivered?
    requires Stops(codec, GetMessageStep(codec, e).0, FirstReaction(reactions))
    ensures var (next, fetched) := GetMessageStep(codec, e);
            var (after, effects, _) := ReactStep(codec, next, FirstReaction(reactions).replies);
            var d := DrainStep(codec, e, reactions);
            && d.delivered == [fetched.value] && d.end == after && d.effects == effects && !Undisturbed(d)
            && d.end.readBuffer + d.effects.dropped == next.readBuffer
            && (!d.end.disconnected ==> d.effects.dropped == [])
  {
    var next := GetMessageStep(codec, e).0;
    var effects := ReactStep(codec, next, FirstReaction(reactions).replies).1;
    ReactionAccounts(codec, next, FirstReaction(reactions).replies);
    BrokenEndsLoop(codec, LaterReactions(reactions));
    PlusAssociates(effects, NoEffects(), NoEffects());
  }

  lemma GoesOn<M(!new)>(codec: Codec<M>, e: Ends, reactions: seq<Reaction<M>>)
    requires RefusesEmpty(codec) && GetMessageStep(codec, e).1.Delivered?
    requires !Stops(codec, GetMessageStep(codec, e).0, FirstReaction(reactions))
    ensures var (next, fetched) := GetMessageStep(codec, e);
            var (after, effects, _) := ReactStep(codec, next, FirstReaction(reactions).replies);
            && DrainStep(codec, e, reactions)
               == Gathered([fetched.value], effects, DrainStep(codec, after, LaterReactions(reactions)))
            && after.readBuffer == next.readBuffer && effects.dropped == []
  {
    ReactionAccounts(codec, GetMessageStep(codec, e).0, FirstReaction(reactions).replies);
  }

  /** Without a whole frame at its head the buffer is left as it is. */
  lemma {:induction false} DrainWaits<M(!new)>(codec: Codec<M>, e: Ends, ms: seq<Option<M>>, reactions: seq<Reaction<M>>)
    requires RefusesEmpty(codec) && AllFit(codec, ms) && NoWholeFrame(e.readBuffer)
    ensures Consumed(codec, e.readBuffer, ms, 0, DrainStep(codec, e, reactions))
  {
    assert ms[..0] == [] && e.readBuffer + [] == e.readBuffer;
  }

  /** Otherwise the first message's frame stands there. */
  lemma {:induction false} FrontFrame<M(!new)>(codec: Codec<M>, buffer: Bytes, ms: seq<Option<M>>) returns (rest: Bytes)
    requires AllFit(codec, ms) && buffer <= Frames(codec, ms) && !NoWholeFrame(buffer)
    ensures ms != [] && buffer == Frame(codec, ms[0]) + rest && rest <= Frames(codec, ms[1..])
  {
    NoWholeFrameIff(codec, ms, buffer);
    var f := Frame(codec, ms[0]);
    rest := buffer[|f|..];
    assert buffer == f + rest;
    CutHead(f, rest, Frames(codec, ms[1..]));
  }

  /** A None ends the loop. */
  lemma {:induction false} DrainNone<M(!new)>(codec: Codec<M>, e: Ends, ms: seq<Option<M>>, rest: Bytes,
                                              reactions: seq<Reaction<M>>)
    requires Faithful(codec) && AllFit(codec, ms)
    requires ms != [] && ms[0].None? && e.readBuffer == Frame(codec, ms[0]) + rest
    ensures Consumed(codec, e.readBuffer, ms, 1, DrainStep(codec, e, reactions))
  {
    GetMessageTakesFrame(codec, e, ms[0], rest);
    assert ms[..1] == [None];
    var f := Frame(codec, ms[0]);
    assert Frames(codec, ms[..1]) == f + [] == f && rest + [] == rest;
  }

  /** On a prefix of a framed stream the loop consumes some number of messages, whatever the handlers do. */
  lemma {:induction false} DrainPrefix<M(!new)>(codec: Codec<M>, e: Ends, ms: seq<Option<M>>, reactions: seq<Reaction<M>>)
    requires Faithful(codec) && AllFit(codec, ms)
    requires e.readBuffer <= Frames(codec, ms)
    ensures exists j: nat :: Consumed(codec, e.readBuffer, ms, j, DrainStep(codec, e, reactions))
    decreases |ms|
  {
    if NoWholeFrame(e.readBuffer) {
      DrainWaits(codec, e, ms, reactions);
    } else {
      var rest := FrontFrame(codec, e.readBuffer, ms);
      if ms[0].None? {
        DrainNone(codec, e, ms, rest, reactions);
      } else {
        var stop, after := DrainTurn(codec, e, ms, rest, reactions);
        if !stop {
          DrainPrefix(codec, after, ms[1..], LaterReactions(reactions));
          var k: nat :| Consumed(codec, rest, ms[1..], k, DrainStep(codec, after, LaterReactions(reactions)));
          assert Consumed(codec, e.readBuffer, ms, k + 1, DrainStep(codec, e, reactions));
        }
      }
    }
  }

  /** One message is taken and handled; unless the loop stops there, it goes on with the rest. */
  lemma {:induction false} DrainTurn<M(!new)>(codec: Codec<M>, e: Ends, ms: seq<Option<M>>, rest: Bytes,
                                              reactions: seq<Reaction<M>>)
    returns (stop: bool, after: Ends)
    requires Faithful(codec) && AllFit(codec, ms)
    requires ms != [] && ms[0].Some? && e.readBuffer == Frame(codec, ms[0]) + rest
    ensures stop ==> Consumed(codec, e.readBuffer, ms, 1, DrainStep(codec, e, reactions))
    ensures !stop ==> after.readBuffer == rest
    ensures !stop ==>
              forall k: nat :: Consumed(codec, rest, ms[1..], k, DrainStep(codec, after, LaterReactions(reactions))) ==>
                Consumed(codec, e.readBuffer, ms, k + 1, DrainStep(codec, e, reactions))
  {
    var next := e.(readBuffer := rest);
    stop := Stops(codec, next, FirstReaction(reactions));
    after := ReactStep(codec, next, FirstReaction(reactions).replies).0;
    if stop {
      DrainStops(codec, e, ms, rest, reactions);
    } else {
      ReactionAccounts(codec, next, FirstReaction(reactions).replies);
      forall k: nat | Consumed(codec, rest, ms[1..], k, DrainStep(codec, after, LaterReactions(reactions)))
        ensures Consumed(codec, e.readBuffer, ms, k + 1, DrainStep(codec, e, reactions))
      {
        DrainGoesOn(codec, e, ms, rest, reactions, k);
      }
    }
  }

  lemma {:induction false} DrainGoesOn<M(!new)>(codec: Codec<M>, e: Ends, ms: seq<Option<M>>, rest: Bytes,
                                                reactions: seq<Reaction<M>>, k: nat)
    requires Faithful(codec) && AllFit(codec, ms)
    requires ms != [] && ms[0].Some? && e.readBuffer == Frame(codec, ms[0]) + rest
    requires !Stops(codec, e.(readBuffer := rest), FirstReaction(reactions))
    requires var after := ReactStep(codec, e.(readBuffer := rest), FirstReaction(reactions).replies).0;
             Consumed(codec, rest, ms[1..], k, DrainStep(codec, after, LaterReactions(reactions)))
    ensures Consumed(codec, e.readBuffer, ms, k + 1, DrainStep(codec, e, reactions))
  {
    var (after, effects, _) := ReactStep(codec, e.(readBuffer := rest), FirstReaction(reactions).replies);
    GetMessageTakesFrame(codec, e, ms[0], rest);
    GoesOn(codec, e, reactions);
    ConsumedOneMore(codec, rest, ms, k, effects, DrainStep(codec, after, LaterReactions(reactions)));
  }

  lemma {:induction false} DrainStops<M(!new)>(codec: Codec<M>, e: Ends, ms: seq<Option<M>>, rest: Bytes,
                                               reactions: seq<Reaction<M>>)
    requires Faithful(codec) && AllFit(codec, ms)
    requires ms != [] && ms[0].Some? && e.readBuffer == Frame(codec, ms[0]) + rest
    requires Stops(codec, e.(readBuffer := rest), FirstReaction(reactions))
    ensures Consumed(codec, e.readBuffer, ms, 1, DrainStep(codec, e, reactions))
  {
    GetMessageTakesFrame(codec, e, ms[0], rest);
    StopsHere(codec, e, reactions);
    OneConsumed(codec, e.readBuffer, ms, rest, DrainStep(codec, e, reactions));
  }

  lemma OneConsumed<M(!new)>(codec: Codec<M>, buffer: Bytes, ms: seq<Option<M>>, rest: Bytes, d: Drained<M>)
    requires AllFit(codec, ms) && ms != [] && ms[0].Some?
    requires buffer == Frame(codec, ms[0]) + rest && d.delivered == [ms[0].value] && !Undisturbed(d)
    requires d.end.readBuffer + d.effects.dropped == rest && (!d.end.disconnected ==> d.effects.dropped == [])
    ensures Consumed(codec, buffer, ms, 1, d)
  {
    assert ms[..1] == [ms[0]];
    assert Frames(codec, ms[..1]) == Frame(codec, ms[0]) + [] == Frame(codec, ms[0]);
  }

  lemma ConsumedOneMore<M(!new)>(codec: Codec<M>, rest: Bytes, ms: seq<Option<M>>, k: nat, effects: Effects<M>, d: Drained<M>)
    requires AllFit(codec, ms) && ms != [] && ms[0].Some?
    requires effects.dropped == [] && Consumed(codec, rest, ms[1..], k, d)
    ensures Consumed(codec, Frame(codec, ms[0]) + rest, ms, k + 1, Gathered([ms[0].value], effects, d))
  {
    var f := Frame(codec, ms[0]);
    assert ms[..k + 1][1..] == ms[1..][..k];
    assert effects.dropped + d.effects.dropped == d.effects.dropped;
    var left := d.end.readBuffer + d.effects.dropped;
    assert f + (Frames(codec, ms[1..][..k]) + left) == Frames(codec, ms[..k + 1]) + left;
    assert forall x :: x in ms[1..][..k] ==> x in ms[..k + 1];
  }

  // ----- What the replies do to the sending side -----

  /** The kernel took part of what had been buffered or was added, and the rest stays unless the socket breaks. */
  ghost predicate WritesOk<M(!new)>(codec: Codec<M>, buffer: Bytes, effects: Effects<M>, end: Ends) {
    && AllFit(codec, effects.sent)
    && effects.taken <= buffer + Frames(codec, effects.sent)
    && (!end.disconnected ==> effects.taken + end.writeBuffer == buffer + Frames(codec, effects.sent))
  }

  lemma WritesIdle<M(!new)>(codec: Codec<M>, e: Ends)
    ensures WritesOk(codec, e.writeBuffer, NoEffects(), e)
  {
    assert [] + e.writeBuffer == e.writeBuffer + [];
  }

  lemma WritesJoin<M(!new)>(codec: Codec<M>, buffer: Bytes, f: Effects<M>, mid: Ends, g: Effects<M>, end: Ends)
    requires WritesOk(codec, buffer, f, mid) && WritesOk(codec, mid.writeBuffer, g, end) && !mid.disconnected
    ensures WritesOk(codec, buffer, Plus(f, g), end)
  {
    FramesJoin(codec, f.sent, g.sent);
    var (a, b) := (Frames(codec, f.sent), Frames(codec, g.sent));
    Chain(f.taken, mid.writeBuffer, buffer, a, b);
    assert f.taken + g.taken <= f.taken + (mid.writeBuffer + b);
    if !end.disconnected {
      assert (f.taken + g.taken) + end.writeBuffer == f.taken + (g.taken + end.writeBuffer);
    }
  }

  lemma Chain(taken: Bytes, mid: Bytes, buffer: Bytes, a: Bytes, b: Bytes)
    requires taken + mid == buffer + a
    ensures taken + (mid + b) == buffer + (a + b)
  {
    assert taken + (mid + b) == (taken + mid) + b;
    assert buffer + (a + b) == (buffer + a) + b;
  }

  lemma ReplyWrites<M(!new)>(codec: Codec<M>, e: Ends, reply: Reply<M>)
    requires !e.disconnected && Fits(codec, reply.m)
    ensures WritesOk(codec, e.writeBuffer, ReplyStep(codec, e, reply).1, ReplyStep(codec, e, reply).0)
  {
    assert Frames(codec, [reply.m]) == Frame(codec, reply.m) + [] == Frame(codec, reply.m);
    TrySendConserves(e.(writeBuffer := e.writeBuffer + Frame(codec, reply.m)), reply.rs);
  }

  lemma {:induction false} ReactionWrites<M(!new)>(codec: Codec<M>, e: Ends, replies: seq<Reply<M>>)
    requires !e.disconnected
    ensures WritesOk(codec, e.writeBuffer, ReactStep(codec, e, replies).1, ReactStep(codec, e, replies).0)
    decreases |replies|
  {
    WritesIdle(codec, e);
    if replies != [] && Fits(codec, replies[0].m) {
      ReplyWrites(codec, e, replies[0]);
      var (next, one, _) := ReplyStep(codec, e, replies[0]);
      if next.disconnected {
        PlusAssociates(one, NoEffects(), NoEffects());
      } else {
        ReactionWrites(codec, next, replies[1..]);
        var (end, more, _) := ReactStep(codec, next, replies[1..]);
        WritesJoin(codec, e.writeBuffer, one, next, more, end);
      }
    }
  }

  /** Whatever arrives and however the handlers answer, a receive loop only appends frames to what is sent. */
  lemma {:induction false} DrainWrites<M(!new)>(codec: Codec<M>, e: Ends, reactions: seq<Reaction<M>>)
    requires RefusesEmpty(codec) && !e.disconnected
    ensures WritesOk(codec, e.writeBuffer, DrainStep(codec, e, reactions).effects, DrainStep(codec, e, reactions).end)
    decreases |e.readBuffer|
  {
    var (next, fetched) := GetMessageStep(codec, e);
    if !fetched.Delivered? {
      WritesIdle(codec, next);
    } else {
      var replies := FirstReaction(reactions).replies;
      ReactionWrites(codec, next, replies);
      if Stops(codec, next, FirstReaction(reactions)) {
        StopsHere(codec, e, reactions);
      } else {
        var after := ReactStep(codec, next, replies).0;
        DeliveryShortens(codec, e);
        ReactionShrinks(codec, next, replies);
        DrainWrites(codec, after, LaterReactions(reactions));
        WritesGoOn(codec, e, reactions);
      }
    }
  }

  lemma {:induction false} WritesGoOn<M(!new)>(codec: Codec<M>, e: Ends, reactions: seq<Reaction<M>>)
    requires RefusesEmpty(codec) && !e.disconnected && GetMessageStep(codec, e).1.Delivered?
    requires !Stops(codec, GetMessageStep(codec, e).0, FirstReaction(reactions))
    requires var (after, effects, _) := ReactStep(codec, GetMessageStep(codec, e).0, FirstReaction(reactions).replies);
             var d := DrainStep(codec, after, LaterReactions(reactions));
             WritesOk(codec, e.writeBuffer, effects, after) && WritesOk(codec, after.writeBuffer, d.effects, d.end)
    ensures WritesOk(codec, e.writeBuffer, DrainStep(codec, e, reactions).effects, DrainStep(codec, e, reactions).end)
  {
    var (after, effects, _) := ReactStep(codec, GetMessageStep(codec, e).0, FirstReaction(reactions).replies);
    var d := DrainStep(codec, after, LaterReactions(reactions));
    GoesOn(codec, e, reactions);
    WritesJoin(codec, e.writeBuffer, effects, after, d.effects, d.end);
  }

  // ----- The two ends and the wire -----

  /**
   * `got` is every byte the receiver read, `dropped` those of them a failed
   * send threw away, `sent` every message accepted for sending. `raised` tells
   * that an exception has left one of the receiver's receive loops, `misread`
   * that bytes were read after a failed flush had thrown others away.
   */
  datatype Channel<M> = Channel(
    sender: Ends,
    wire: Bytes,
    receiver: Ends,
    got: Bytes,
    dropped: Bytes,
    raised: bool,
    misread: bool,
    sent: seq<Option<M>>,
    delivered: seq<M>)

  /** What a handler sends on the same connection, inside the receive loop, is part of Reads and SenderReads. */
  datatype Event<M> =
    | Sends(m: Option<M>, rs: seq<SendResult>)
    | Flushes(rs: seq<SendResult>)
    | Reads(n: nat, reactions: seq<Reaction<M>>)     // up to 8192 of the bytes on the wire
    | ReadFails(broken: bool, n: nat)
    | ReceiverSends(m: Option<M>, rs: seq<SendResult>)
    | ReceiverFlushes(rs: seq<SendResult>)
    | SenderReads(r: RecvResult, reactions: seq<Reaction<M>>)
    | ReceiverPolls(rs: seq<SendResult>, n: nat, reactions: seq<Reaction<M>>)  // writable and readable at once
    | SenderPolls(rs: seq<SendResult>, r: RecvResult, reactions: seq<Reaction<M>>)

  const RECV_MAX: nat := 8192

  function Arriving(wire: Bytes, n: nat): (b: Bytes)
    ensures b <= wire && |b| <= RECV_MAX
  {
    Slice(wire, 0, if n < RECV_MAX then n else RECV_MAX)
  }

  /** The sending side after `effects`. */
  function SenderMoves<M>(c: Channel<M>, end: Ends, effects: Effects<M>): Channel<M> {
    c.(sender := end, wire := c.wire + effects.taken, sent := c.sent + effects.sent)
  }

  /** The receiving side after a send of its own: a failure throws the read buffer away. */
  function ReceiverMoves<M>(c: Channel<M>, end: Ends): Channel<M> {
    c.(receiver := end, dropped := if end.disconnected then c.receiver.readBuffer else c.dropped)
  }

  /** The receiver has read `b` and run its receive loop. */
  function ReceiverReads<M>(c: Channel<M>, b: Bytes, d: Drained<M>): Channel<M>
    requires b <= c.wire
  {
    c.(receiver := d.end, wire := c.wire[|b|..], got := c.got + b, dropped := c.dropped + d.effects.dropped,
       raised := c.raised || d.last.Raised?, delivered := c.delivered + d.delivered)
  }

  /**
   * A connection that is writable and readable: it flushes and then reads,
   * whether or not the flush has failed (pysyncobj/node.py:101-118).
   */
  function ReceiverFlushReads<M(!new)>(codec: Codec<M>, c: Channel<M>, rs: seq<SendResult>, n: nat,
                                       reactions: seq<Reaction<M>>): Channel<M>
    requires RefusesEmpty(codec)
  {
    var flushed := ReceiverMoves(c, TrySendStep(c.receiver, rs).0);
    var b := Arriving(flushed.wire, n);
    var read := ReceiverReads(flushed, b, ReceiveStep(codec, flushed.receiver, Got(b), reactions));
    read.(misread := c.misread || (flushed.receiver.disconnected && flushed.dropped != [] && b != []))
  }

  function SenderFlushReads<M(!new)>(codec: Codec<M>, c: Channel<M>, rs: seq<SendResult>, r: RecvResult,
                                     reactions: seq<Reaction<M>>): Channel<M>
    requires RefusesEmpty(codec)
  {
    var (end, taken) := TrySendStep(c.sender, rs);
    var d := ReceiveStep(codec, end, r, reactions);
    SenderMoves(SenderMoves(c, end, Effects(taken, [], [])), d.end, d.effects)
  }

  /** A node drops a connection that reports disconnected: no later event touches it (pysyncobj/node.py:51-59, 95-99). */
  function Act<M(!new)>(codec: Codec<M>, c: Channel<M>, ev: Event<M>): Channel<M>
    requires RefusesEmpty(codec)
  {
    match ev
    case Sends(m, rs) =>
      if c.sender.disconnected then c
      else
        var (end, effects, raised) := ReplyStep(codec, c.sender, Reply(m, rs));
        SenderMoves(c, end, effects)
    case Flushes(rs) =>
      if c.sender.disconnected then c
      else
        var (end, taken) := TrySendStep(c.sender, rs);
        SenderMoves(c, end, Effects(taken, [], []))
    case SenderReads(r, reactions) =>
      if c.sender.disconnected then c
      else
        var d := ReceiveStep(codec, c.sender, r, reactions);
        SenderMoves(c, d.end, d.effects)
    case Reads(n, reactions) =>
      if c.receiver.disconnected then c
      else
        var b := Arriving(c.wire, n);
        ReceiverReads(c, b, ReceiveStep(codec, c.receiver, Got(b), reactions))
    case ReadFails(broken, n) =>
      if c.receiver.disconnected then c
      else
        var b := if broken then Arriving(c.wire, n) else [];
        c.(receiver := ReadStep(c.receiver, if broken then GotOnBrokenSocket(b) else RecvFails).0, wire := c.wire[|b|..])
    case ReceiverSends(m, rs) =>
      if c.receiver.disconnected then c else ReceiverMoves(c, SendStep(codec, c.receiver, m, rs).0)
    case ReceiverFlushes(rs) =>
      if c.receiver.disconnected then c else ReceiverMoves(c, TrySendStep(c.receiver, rs).0)
    case ReceiverPolls(rs, n, reactions) =>
      if c.receiver.disconnected then c else ReceiverFlushReads(codec, c, rs, n, reactions)
    case SenderPolls(rs, r, reactions) =>
      if c.sender.disconnected then c else SenderFlushReads(codec, c, rs, r, reactions)
  }

  ghost predicate Fresh<M(!new)>(c: Channel<M>) {
    c == Channel(Ends([], [], false), [], Ends([], [], false), [], [], false, false, [], [])
  }

  function Acts<M(!new)>(codec: Codec<M>, c: Channel<M>, events: seq<Event<M>>): Channel<M>
    requires RefusesEmpty(codec)
    decreases |events|
  {
    if events == [] then c
    else Act(codec, Acts(codec, c, events[..|events| - 1]), events[|events| - 1])
  }

  // ----- What every event keeps -----

  ghost predicate SenderOk<M(!new)>(codec: Codec<M>, c: Channel<M>)
  {
    && AllFit(codec, c.sent)
    && c.got <= Frames(codec, c.sent)
    && (!c.receiver.disconnected ==>
          && c.got + c.wire <= Frames(codec, c.sent)
          && (!c.sender.disconnected ==> c.got + c.wire + c.sender.writeBuffer == Frames(codec, c.sent)))
  }

  /** k messages have been consumed; what was read beyond them is still buffered or was dropped. */
  ghost predicate ReceiverOk<M(!new)>(codec: Codec<M>, c: Channel<M>, k: nat)
    requires AllFit(codec, c.sent)
  {
    && k <= |c.sent|
    && c.delivered == Values(c.sent[..k])
    && c.got == Frames(codec, c.sent[..k]) + (c.receiver.readBuffer + c.dropped)
    && (!c.receiver.disconnected ==> c.dropped == [])
    && (!c.receiver.disconnected && !c.raised && None !in c.sent[..k] ==> NoWholeFrame(c.receiver.readBuffer))
  }

  ghost predicate ChannelOk<M(!new)>(codec: Codec<M>, c: Channel<M>) {
    && SenderOk(codec, c)
    && (if c.misread then c.receiver.disconnected else exists k: nat :: ReceiverOk(codec, c, k))
  }

  // ----- The sending side -----

  lemma Regroup(got: Bytes, wire: Bytes, taken: Bytes, left: Bytes)
    ensures got + wire + (taken + left) == got + (wire + taken) + left
    ensures got + (wire + taken) <= got + wire + (taken + left)
  {
    assert got + wire + (taken + left) == got + (wire + taken) + left;
  }

  /** Frames are added to the write buffer, and bytes move from there to the wire. */
  lemma WritesKeepSender<M(!new)>(codec: Codec<M>, c: Channel<M>, end: Ends, effects: Effects<M>)
    requires SenderOk(codec, c) && !c.sender.disconnected
    requires WritesOk(codec, c.sender.writeBuffer, effects, end)
    ensures SenderOk(codec, SenderMoves(c, end, effects))
  {
    FramesJoin(codec, c.sent, effects.sent);
    if !c.receiver.disconnected {
      var (read, more) := (c.got + c.wire, Frames(codec, effects.sent));
      var all := c.sender.writeBuffer + more;
      assert read + all == Frames(codec, c.sent) + more;
      var left := all[|effects.taken|..];
      assert all == effects.taken + left;
      assert !end.disconnected ==> end.writeBuffer == left;
      Regroup(c.got, c.wire, effects.taken, left);
    }
  }

  lemma MoreSentKeepsReceiver<M(!new)>(codec: Codec<M>, c: Channel<M>, end: Ends, effects: Effects<M>)
    requires ChannelOk(codec, c) && AllFit(codec, c.sent + effects.sent)
    ensures !c.misread ==> exists k: nat :: ReceiverOk(codec, SenderMoves(c, end, effects), k)
  {
    if !c.misread {
      var k: nat :| ReceiverOk(codec, c, k);
      assert (c.sent + effects.sent)[..k] == c.sent[..k];
      assert ReceiverOk(codec, SenderMoves(c, end, effects), k);
    }
  }

  lemma SenderKeepsChannel<M(!new)>(codec: Codec<M>, c: Channel<M>, end: Ends, effects: Effects<M>)
    requires ChannelOk(codec, c) && !c.sender.disconnected
    requires WritesOk(codec, c.sender.writeBuffer, effects, end)
    ensures ChannelOk(codec, SenderMoves(c, end, effects))
  {
    WritesKeepSender(codec, c, end, effects);
    MoreSentKeepsReceiver(codec, c, end, effects);
  }

  lemma FlushWrites<M(!new)>(codec: Codec<M>, e: Ends, rs: seq<SendResult>)
    requires !e.disconnected
    ensures WritesOk(codec, e.writeBuffer, Effects(TrySendStep(e, rs).1, [], []), TrySendStep(e, rs).0)
  {
    TrySendConserves(e, rs);
    assert e.writeBuffer + [] == e.writeBuffer;
  }

  lemma ReceiveWrites<M(!new)>(codec: Codec<M>, e: Ends, r: RecvResult, reactions: seq<Reaction<M>>)
    requires RefusesEmpty(codec) && !e.disconnected
    ensures WritesOk(codec, e.writeBuffer, ReceiveStep(codec, e, r, reactions).effects, ReceiveStep(codec, e, r, reactions).end)
  {
    var (next, ok) := ReadStep(e, r);
    if ok {
      DrainWrites(codec, next, reactions);
    } else {
      WritesIdle(codec, next);
    }
  }

  // ----- The receiving side -----

  /** What is in the buffer after k messages is a prefix of the frames of the others. */
  lemma BufferIsAhead<M(!new)>(codec: Codec<M>, c: Channel<M>, k: nat, b: Bytes)
    requires SenderOk(codec, c) && ReceiverOk(codec, c, k)
    requires !c.receiver.disconnected && b <= c.wire
    ensures c.got + b == Frames(codec, c.sent[..k]) + (c.receiver.readBuffer + b)
    ensures c.receiver.readBuffer + b <= Frames(codec, c.sent[k..])
  {
    var (done, ahead) := (c.sent[..k], c.sent[k..]);
    assert c.sent == done + ahead;
    FramesJoin(codec, done, ahead);
    var buffer := c.receiver.readBuffer + b;
    assert c.receiver.readBuffer + c.dropped == c.receiver.readBuffer;
    assert c.got + b == Frames(codec, done) + buffer;
    assert c.got + b <= c.got + c.wire;
    CutHead(Frames(codec, done), buffer, Frames(codec, ahead));
  }

  /** i messages consumed after k are k + i messages consumed. */
  lemma ConsumedFurther<M(!new)>(codec: Codec<M>, buffer: Bytes, sent: seq<Option<M>>, k: nat, i: nat, d: Drained<M>)
    requires AllFit(codec, sent) && k <= |sent|
    requires Consumed(codec, buffer, sent[k..], i, d)
    ensures k + i <= |sent|
    ensures Values(sent[..k]) + d.delivered == Values(sent[..k + i])
    ensures Frames(codec, sent[..k]) + buffer == Frames(codec, sent[..k + i]) + (d.end.readBuffer + d.effects.dropped)
    ensures None !in sent[..k + i] ==> None !in sent[k..][..i]
  {
    var (done, more) := (sent[..k], sent[k..][..i]);
    assert sent[..k + i] == done + more;
    FramesJoin(codec, done, more);
    ValuesJoin(done, more);
    var left := d.end.readBuffer + d.effects.dropped;
    assert Frames(codec, done) + (Frames(codec, more) + left) == Frames(codec, sent[..k + i]) + left;
  }

  /** Reading on: the messages after the first k were decoded from where the buffer stood. */
  lemma ReadKeepsReceiver<M(!new)>(codec: Codec<M>, c: Channel<M>, k: nat, b: Bytes, i: nat, d: Drained<M>)
    requires SenderOk(codec, c) && ReceiverOk(codec, c, k)
    requires !c.receiver.disconnected && b <= c.wire
    requires Consumed(codec, c.receiver.readBuffer + b, c.sent[k..], i, d)
    ensures ReceiverOk(codec, ReceiverReads(c, b, d), k + i)
  {
    BufferIsAhead(codec, c, k, b);
    ConsumedFurther(codec, c.receiver.readBuffer + b, c.sent, k, i, d);
    assert c.dropped + d.effects.dropped == d.effects.dropped;
  }

  /** Bytes move from the wire to what was read. */
  lemma ReadKeepsSender<M(!new)>(codec: Codec<M>, c: Channel<M>, b: Bytes, d: Drained<M>)
    requires SenderOk(codec, c) && !c.receiver.disconnected && b <= c.wire
    ensures SenderOk(codec, ReceiverReads(c, b, d))
  {
    assert c.wire == b + c.wire[|b|..];
    assert (c.got + b) + c.wire[|b|..] == c.got + c.wire;
    assert c.got + b <= c.got + c.wire;
  }

  lemma ReadKeepsChannel<M(!new)>(codec: Codec<M>, c: Channel<M>, n: nat, reactions: seq<Reaction<M>>)
    requires Faithful(codec) && ChannelOk(codec, c)
    ensures ChannelOk(codec, Act(codec, c, Reads(n, reactions)))
  {
    if !c.receiver.disconnected {
      var b := Arriving(c.wire, n);
      var d := ReceiveStep(codec, c.receiver, Got(b), reactions);
      ReadKeepsSender(codec, c, b, d);
      var k: nat :| ReceiverOk(codec, c, k);
      if b == [] {
        assert c.delivered + [] == c.delivered && c.got + b == c.got && c.dropped + [] == c.dropped;
        assert ReceiverOk(codec, ReceiverReads(c, b, d), k);
      } else {
        BufferIsAhead(codec, c, k, b);
        DrainPrefix(codec, c.receiver.(readBuffer := c.receiver.readBuffer + b), c.sent[k..], reactions);
        var i: nat :| Consumed(codec, c.receiver.readBuffer + b, c.sent[k..], i, d);
        ReadKeepsReceiver(codec, c, k, b, i, d);
      }
    }
  }

  lemma ReceiverMoveKeepsChannel<M(!new)>(codec: Codec<M>, c: Channel<M>, end: Ends)
    requires ChannelOk(codec, c) && !c.receiver.disconnected
    requires if end.disconnected then end == BROKE else end.readBuffer == c.receiver.readBuffer
    ensures ChannelOk(codec, ReceiverMoves(c, end))
  {
    var k: nat :| ReceiverOk(codec, c, k);
    var r := c.receiver.readBuffer;
    assert r + c.dropped == r && [] + r == r;
    assert ReceiverOk(codec, ReceiverMoves(c, end), k);
  }

  lemma ReceiverSendKeepsChannel<M(!new)>(codec: Codec<M>, c: Channel<M>, m: Option<M>, rs: seq<SendResult>)
    requires RefusesEmpty(codec) && ChannelOk(codec, c)
    ensures ChannelOk(codec, Act(codec, c, ReceiverSends(m, rs)))
  {
    if !c.receiver.disconnected {
      if Fits(codec, m) {
        TrySendConserves(c.receiver.(writeBuffer := c.receiver.writeBuffer + Frame(codec, m)), rs);
      }
      ReceiverMoveKeepsChannel(codec, c, SendStep(codec, c.receiver, m, rs).0);
    }
  }

  lemma ReceiverFlushKeepsChannel<M(!new)>(codec: Codec<M>, c: Channel<M>, rs: seq<SendResult>)
    requires RefusesEmpty(codec) && ChannelOk(codec, c)
    ensures ChannelOk(codec, Act(codec, c, ReceiverFlushes(rs)))
  {
    if !c.receiver.disconnected {
      TrySendConserves(c.receiver, rs);
      ReceiverMoveKeepsChannel(codec, c, TrySendStep(c.receiver, rs).0);
    }
  }

  /** A flush that goes through, and the read, are two events. */
  lemma PollIsTwoEvents<M(!new)>(codec: Codec<M>, c: Channel<M>, rs: seq<SendResult>, n: nat, reactions: seq<Reaction<M>>)
    requires RefusesEmpty(codec) && !c.receiver.disconnected && !TrySendStep(c.receiver, rs).0.disconnected
    ensures ReceiverFlushReads(codec, c, rs, n, reactions)
            == Act(codec, Act(codec, c, ReceiverFlushes(rs)), Reads(n, reactions))
  {
  }

  /** A read after a failed flush that has found the read buffer empty goes on where the buffer stood. */
  lemma ReadAfterFailedFlush<M(!new)>(codec: Codec<M>, c: Channel<M>, k: nat, n: nat, reactions: seq<Reaction<M>>)
    requires Faithful(codec) && SenderOk(codec, c) && ReceiverOk(codec, c, k)
    requires !c.receiver.disconnected && c.receiver.readBuffer == []
    ensures var b := Arriving(c.wire, n);
            var d := ReceiveStep(codec, BROKE, Got(b), reactions);
            SenderOk(codec, ReceiverReads(ReceiverMoves(c, BROKE), b, d))
            && exists j: nat :: ReceiverOk(codec, ReceiverReads(ReceiverMoves(c, BROKE), b, d), j)
  {
    var b := Arriving(c.wire, n);
    var d := ReceiveStep(codec, BROKE, Got(b), reactions);
    ReadKeepsSender(codec, c, b, d);
    BufferIsAhead(codec, c, k, b);
    assert [] + b == b;
    var next := ReceiverReads(ReceiverMoves(c, BROKE), b, d);
    if b == [] {
      assert c.delivered + [] == c.delivered && c.got + b == c.got;
      assert ReceiverOk(codec, next, k);
    } else {
      DrainPrefix(codec, BROKE.(readBuffer := b), c.sent[k..], reactions);
      var i: nat :| Consumed(codec, b, c.sent[k..], i, d);
      StillDisconnected(codec, BROKE.(readBuffer := b), reactions);
      ConsumedFurther(codec, b, c.sent, k, i, d);
      assert [] + d.effects.dropped == d.effects.dropped;
      assert ReceiverOk(codec, next, k + i);
    }
  }

  /** On a disconnected connection the handlers send nothing, and it stays disconnected. */
  lemma {:induction false} StillDisconnected<M(!new)>(codec: Codec<M>, e: Ends, reactions: seq<Reaction<M>>)
    requires RefusesEmpty(codec) && e.disconnected
    ensures DrainStep(codec, e, reactions).end.disconnected
    ensures DrainStep(codec, e, reactions).effects == NoEffects()
    decreases |e.readBuffer|
  {
    var (next, fetched) := GetMessageStep(codec, e);
    if fetched.Delivered? && !FirstReaction(reactions).raises {
      DeliveryShortens(codec, e);
      StillDisconnected(codec, next, LaterReactions(reactions));
      var none: Effects<M> := NoEffects();
      PlusAssociates(none, none, none);
    }
  }

  lemma ReceiverPollKeepsChannel<M(!new)>(codec: Codec<M>, c: Channel<M>, rs: seq<SendResult>, n: nat,
                                          reactions: seq<Reaction<M>>)
    requires Faithful(codec) && ChannelOk(codec, c)
    ensures ChannelOk(codec, Act(codec, c, ReceiverPolls(rs, n, reactions)))
  {
    if !c.receiver.disconnected {
      TrySendConserves(c.receiver, rs);
      if TrySendStep(c.receiver, rs).0.disconnected {
        FailedPollKeepsChannel(codec, c, rs, n, reactions);
      } else {
        PollIsTwoEvents(codec, c, rs, n, reactions);
        ReceiverFlushKeepsChannel(codec, c, rs);
        ReadKeepsChannel(codec, Act(codec, c, ReceiverFlushes(rs)), n, reactions);
      }
    }
  }

  /** What a failed flush and the read after it make of the channel. */
  lemma FailedPoll<M(!new)>(codec: Codec<M>, c: Channel<M>, rs: seq<SendResult>, n: nat, reactions: seq<Reaction<M>>)
    requires RefusesEmpty(codec) && TrySendStep(c.receiver, rs).0 == BROKE
    ensures var b := Arriving(c.wire, n);
            var d := ReceiveStep(codec, BROKE, Got(b), reactions);
            && ReceiverFlushReads(codec, c, rs, n, reactions)
               == ReceiverReads(ReceiverMoves(c, BROKE), b, d).(misread := c.misread || (c.receiver.readBuffer != [] && b != []))
            && d.end.disconnected && d.effects == NoEffects()
            && (b == [] ==> d == Drained(BROKE, [], NoEffects(), NoMessage))
  {
    var b := Arriving(c.wire, n);
    assert [] + b == b;
    if b != [] {
      StillDisconnected(codec, BROKE.(readBuffer := b), reactions);
    }
  }

  /** A failed flush with nothing to read after it: the buffered bytes are dropped. */
  lemma NothingReadAfter<M(!new)>(codec: Codec<M>, c: Channel<M>, k: nat)
    requires SenderOk(codec, c) && ReceiverOk(codec, c, k) && !c.receiver.disconnected
    ensures ReceiverOk(codec, ReceiverReads(ReceiverMoves(c, BROKE), [], Drained(BROKE, [], NoEffects(), NoMessage)), k)
  {
    var r := c.receiver.readBuffer;
    assert c.delivered + [] == c.delivered && c.got + [] == c.got;
    assert r + c.dropped == r && r + [] == r && [] + r == r;
  }

  lemma FailedPollKeepsChannel<M(!new)>(codec: Codec<M>, c: Channel<M>, rs: seq<SendResult>, n: nat,
                                        reactions: seq<Reaction<M>>)
    requires Faithful(codec) && ChannelOk(codec, c) && !c.receiver.disconnected
    requires TrySendStep(c.receiver, rs).0 == BROKE
    ensures ChannelOk(codec, ReceiverFlushReads(codec, c, rs, n, reactions))
  {
    FailedPoll(codec, c, rs, n, reactions);
    var b := Arriving(c.wire, n);
    var d := ReceiveStep(codec, BROKE, Got(b), reactions);
    ReadKeepsSender(codec, c, b, d);
    var k: nat :| ReceiverOk(codec, c, k);
    FailedPollReceiver(codec, c, k, n, reactions, c.receiver.readBuffer != [] && b != []);
  }

  /** Unless bytes are misread, some number of messages has been consumed. */
  lemma FailedPollReceiver<M(!new)>(codec: Codec<M>, c: Channel<M>, k: nat, n: nat, reactions: seq<Reaction<M>>, misread: bool)
    requires Faithful(codec) && SenderOk(codec, c) && ReceiverOk(codec, c, k) && !c.receiver.disconnected
    requires misread == (c.receiver.readBuffer != [] && Arriving(c.wire, n) != [])
    ensures var b := Arriving(c.wire, n);
            var next := ReceiverReads(ReceiverMoves(c, BROKE), b, ReceiveStep(codec, BROKE, Got(b), reactions));
            !misread ==> exists j: nat :: ReceiverOk(codec, next.(misread := misread), j)
  {
    var b := Arriving(c.wire, n);
    var next := ReceiverReads(ReceiverMoves(c, BROKE), b, ReceiveStep(codec, BROKE, Got(b), reactions));
    if c.receiver.readBuffer == [] {
      ReadAfterFailedFlush(codec, c, k, n, reactions);
      var j: nat :| ReceiverOk(codec, next, j);
      assert ReceiverOk(codec, next.(misread := misread), j);
    } else if b == [] {
      NothingReadAfter(codec, c, k);
      assert ReceiverOk(codec, next.(misread := misread), k);
    }
  }

  lemma SenderPollKeepsChannel<M(!new)>(codec: Codec<M>, c: Channel<M>, rs: seq<SendResult>, r: RecvResult,
                                        reactions: seq<Reaction<M>>)
    requires RefusesEmpty(codec) && ChannelOk(codec, c)
    ensures ChannelOk(codec, Act(codec, c, SenderPolls(rs, r, reactions)))
  {
    if !c.sender.disconnected {
      var (end, taken) := TrySendStep(c.sender, rs);
      FlushWrites(codec, c.sender, rs);
      SenderKeepsChannel(codec, c, end, Effects(taken, [], []));
      var mid := SenderMoves(c, end, Effects(taken, [], []));
      var d := ReceiveStep(codec, end, r, reactions);
      if end.disconnected {
        if r.Got? && r.data != [] {
          StillDisconnected(codec, ReadStep(end, r).0, reactions);
        }
        assert mid.wire + [] == mid.wire && mid.sent + [] == mid.sent;
        assert SenderMoves(mid, d.end, d.effects) == mid.(sender := d.end);
        SenderLost(codec, mid, d.end);
      } else {
        ReceiveWrites(codec, end, r, reactions);
        SenderKeepsChannel(codec, mid, d.end, d.effects);
      }
    }
  }

  lemma SenderLost<M(!new)>(codec: Codec<M>, c: Channel<M>, end: Ends)
    requires ChannelOk(codec, c) && end.disconnected
    ensures ChannelOk(codec, c.(sender := end))
  {
    if !c.misread {
      var k: nat :| ReceiverOk(codec, c, k);
      assert ReceiverOk(codec, c.(sender := end), k);
    }
  }

  lemma SenderActKeepsChannel<M(!new)>(codec: Codec<M>, c: Channel<M>, ev: Event<M>)
    requires RefusesEmpty(codec) && ChannelOk(codec, c)
    requires ev.Sends? || ev.Flushes? || ev.SenderReads?
    ensures ChannelOk(codec, Act(codec, c, ev))
  {
    if !c.sender.disconnected {
      match ev {
        case Sends(m, rs) =>
          WritesIdle(codec, c.sender);
          if Fits(codec, m) {
            ReplyWrites(codec, c.sender, Reply(m, rs));
          }
          var (end, effects, _) := ReplyStep(codec, c.sender, Reply(m, rs));
          SenderKeepsChannel(codec, c, end, effects);
        case Flushes(rs) =>
          FlushWrites(codec, c.sender, rs);
          SenderKeepsChannel(codec, c, TrySendStep(c.sender, rs).0, Effects(TrySendStep(c.sender, rs).1, [], []));
        case SenderReads(r, reactions) =>
          ReceiveWrites(codec, c.sender, r, reactions);
          var d := ReceiveStep(codec, c.sender, r, reactions);
          SenderKeepsChannel(codec, c, d.end, d.effects);
      }
    }
  }

  lemma ActKeepsChannel<M(!new)>(codec: Codec<M>, c: Channel<M>, ev: Event<M>)
    requires Faithful(codec) && ChannelOk(codec, c)
    ensures ChannelOk(codec, Act(codec, c, ev))
  {
    match ev
    case Reads(n, reactions) => ReadKeepsChannel(codec, c, n, reactions);
    case ReadFails(_, _) =>
      if !c.misread {
        var k: nat :| ReceiverOk(codec, c, k);
        assert ReceiverOk(codec, Act(codec, c, ev), k);
      }
    case ReceiverPolls(rs, n, reactions) => ReceiverPollKeepsChannel(codec, c, rs, n, reactions);
    case SenderPolls(rs, r, reactions) => SenderPollKeepsChannel(codec, c, rs, r, reactions);
    case ReceiverSends(m, rs) => ReceiverSendKeepsChannel(codec, c, m, rs);
    case ReceiverFlushes(rs) => ReceiverFlushKeepsChannel(codec, c, rs);
    case _ => SenderActKeepsChannel(codec, c, ev);
  }

  lemma {:induction false} ChannelHolds<M(!new)>(codec: Codec<M>, c: Channel<M>, events: seq<Event<M>>)
    requires Faithful(codec) && Fresh(c)
    ensures ChannelOk(codec, Acts(codec, c, events))
    decreases |events|
  {
    if events == [] {
      assert ReceiverOk(codec, c, 0);
    } else {
      ChannelHolds(codec, c, events[..|events| - 1]);
      ActKeepsChannel(codec, Acts(codec, c, events[..|events| - 1]), events[|events| - 1]);
    }
  }

  // ----- Main results -----

  /** While neither end has broken, no byte is lost, repeated or out of place. */
  lemma BytesConserved<M(!new)>(codec: Codec<M>, c: Channel<M>, events: seq<Event<M>>)
    requires Faithful(codec) && Fresh(c)
    ensures var d := Acts(codec, c, events);
            && AllFit(codec, d.sent)
            && d.got <= Frames(codec, d.sent)
            && (!d.sender.disconnected && !d.receiver.disconnected ==>
                  d.got + d.wire + d.sender.writeBuffer == Frames(codec, d.sent))
  {
    ChannelHolds(codec, c, events);
  }

  lemma {:induction false} AllValues<M>(ms: seq<Option<M>>)
    requires None !in ms
    ensures |Values(ms)| == |ms| && forall i :: 0 <= i < |ms| ==> ms[i] == Some(Values(ms)[i])
    decreases |ms|
  {
    if ms != [] {
      assert forall i :: 0 <= i < |ms[1..]| ==> ms[1..][i] in ms;
      AllValues(ms[1..]);
      var rest := Values(ms[1..]);
      assert ms[0].Some?;
      forall i | 0 <= i < |ms| ensures ms[i] == Some(([ms[0].value] + rest)[i]) {
        if i > 0 { assert ms[i] == ms[1..][i - 1]; }
      }
    }
  }

  /** The frames of the first j messages have been read whole. */
  ghost predicate ReadWhole<M(!new)>(codec: Codec<M>, c: Channel<M>, j: nat)
    requires AllFit(codec, c.sent)
  {
    j <= |c.sent| && Frames(codec, c.sent[..j]) <= c.got
  }

  /** Delivered are exactly the messages whose frames have been read whole. */
  ghost predicate DeliveredAllRead<M(!new)>(codec: Codec<M>, c: Channel<M>)
    requires AllFit(codec, c.sent)
  {
    forall j: nat :: ReadWhole(codec, c, j) ==> j <= |c.delivered|
  }

  /** The bytes read beyond the first k frames lie at the start of the others. */
  lemma LeftIsAhead<M(!new)>(codec: Codec<M>, c: Channel<M>, k: nat, left: Bytes)
    requires AllFit(codec, c.sent) && k <= |c.sent| && c.got <= Frames(codec, c.sent)
    requires c.got == Frames(codec, c.sent[..k]) + left
    ensures left <= Frames(codec, c.sent[k..])
  {
    assert c.sent == c.sent[..k] + c.sent[k..];
    FramesJoin(codec, c.sent[..k], c.sent[k..]);
    CutHead(Frames(codec, c.sent[..k]), left, Frames(codec, c.sent[k..]));
  }

  /** One frame more is read whole exactly if it is no longer than what is left. */
  lemma NextIsWholeIff<M(!new)>(codec: Codec<M>, c: Channel<M>, k: nat, left: Bytes)
    requires AllFit(codec, c.sent) && k < |c.sent| && c.got <= Frames(codec, c.sent)
    requires c.got == Frames(codec, c.sent[..k]) + left
    ensures ReadWhole(codec, c, k + 1) <==> |Frame(codec, c.sent[k])| <= |left|
  {
    var m := c.sent[k];
    assert c.sent[..k + 1] == c.sent[..k] + [m];
    FramesJoin(codec, c.sent[..k], [m]);
    assert Frames(codec, [m]) == Frame(codec, m) + [] == Frame(codec, m);
    FirstFrames(codec, c.sent, k + 1);
  }

  /** The frames of the first messages come first. */
  lemma FirstFrames<M(!new)>(codec: Codec<M>, ms: seq<Option<M>>, i: nat)
    requires AllFit(codec, ms) && i <= |ms|
    ensures Frames(codec, ms[..i]) <= Frames(codec, ms)
  {
    assert ms == ms[..i] + ms[i..];
    FramesJoin(codec, ms[..i], ms[i..]);
  }

  /** The next frame has been read whole exactly if it lies whole in what is left. */
  lemma NextReadWholeIff<M(!new)>(codec: Codec<M>, c: Channel<M>, k: nat, left: Bytes)
    requires AllFit(codec, c.sent) && k <= |c.sent| && c.got <= Frames(codec, c.sent)
    requires c.got == Frames(codec, c.sent[..k]) + left
    ensures NoWholeFrame(left) <==> k == |c.sent| || !ReadWhole(codec, c, k + 1)
  {
    LeftIsAhead(codec, c, k, left);
    NoWholeFrameIff(codec, c.sent[k..], left);
    if k < |c.sent| {
      NextIsWholeIff(codec, c, k, left);
    }
  }

  /** Fewer frames are read whole when more are. */
  lemma ReadWholeBelow<M(!new)>(codec: Codec<M>, c: Channel<M>, i: nat, j: nat)
    requires AllFit(codec, c.sent) && i <= j && ReadWhole(codec, c, j)
    ensures ReadWhole(codec, c, i)
  {
    assert c.sent[..j] == c.sent[..i] + c.sent[i..j];
    FramesJoin(codec, c.sent[..i], c.sent[i..j]);
    assert Frames(codec, c.sent[..i]) <= Frames(codec, c.sent[..j]);
  }

  /** Delivered are, in order, first messages whose frames have been read whole. */
  ghost predicate DeliveredInOrder<M(!new)>(codec: Codec<M>, c: Channel<M>)
    requires AllFit(codec, c.sent)
  {
    && |c.delivered| <= |c.sent|
    && (forall i :: 0 <= i < |c.delivered| ==> c.sent[i] == Some(c.delivered[i]))
    && (forall j: nat :: j <= |c.delivered| ==> ReadWhole(codec, c, j))
  }

  /**
   * When no None is sent, what has been delivered is, in order, made of first
   * messages read whole, unless bytes were read after a failed flush had
   * thrown others away. It is the longest such list if and only if the bytes
   * still buffered, or dropped by a failed send, hold no whole frame; and so
   * it is while the receiver is connected and no handler has raised.
   */
  lemma DeliversLongestPrefix<M(!new)>(codec: Codec<M>, c: Channel<M>, events: seq<Event<M>>)
    requires Faithful(codec) && Fresh(c)
    requires None !in Acts(codec, c, events).sent
    ensures var d := Acts(codec, c, events);
            && AllFit(codec, d.sent)
            && (d.misread ==> d.receiver.disconnected)
            && (!d.misread ==>
                  && DeliveredInOrder(codec, d)
                  && (DeliveredAllRead(codec, d) <==> NoWholeFrame(d.receiver.readBuffer + d.dropped)))
            && (!d.receiver.disconnected && !d.raised ==> DeliveredAllRead(codec, d))
  {
    ChannelHolds(codec, c, events);
    var d := Acts(codec, c, events);
    if !d.misread {
      var k: nat :| ReceiverOk(codec, d, k);
      ConsumedDelivers(codec, d, k);
      assert d.dropped == [] ==> d.receiver.readBuffer + d.dropped == d.receiver.readBuffer;
    }
  }

  lemma ConsumedDelivers<M(!new)>(codec: Codec<M>, d: Channel<M>, k: nat)
    requires SenderOk(codec, d) && ReceiverOk(codec, d, k) && None !in d.sent
    ensures DeliveredInOrder(codec, d) && |d.delivered| == k
    ensures DeliveredAllRead(codec, d) <==> NoWholeFrame(d.receiver.readBuffer + d.dropped)
    ensures None !in d.sent[..k]
  {
    assert forall x :: x in d.sent[..k] ==> x in d.sent;
    AllValues(d.sent[..k]);
    NextReadWholeIff(codec, d, k, d.receiver.readBuffer + d.dropped);
    assert ReadWhole(codec, d, k);
    forall j: nat | j <= k ensures ReadWhole(codec, d, j) {
      ReadWholeBelow(codec, d, j, k);
    }
    forall j: nat | k < j && ReadWhole(codec, d, j) ensures k < |d.sent| && ReadWhole(codec, d, k + 1) {
      ReadWholeBelow(codec, d, k + 1, j);
    }
  }

  /** Once everything sent has been flushed and read, all has been delivered, unless an exception left a whole frame behind. */
  lemma AllIsDelivered<M(!new)>(codec: Codec<M>, c: Channel<M>, events: seq<Event<M>>)
    requires Faithful(codec) && Fresh(c)
    requires var d := Acts(codec, c, events);
             && None !in d.sent && !d.sender.disconnected && !d.receiver.disconnected
             && d.wire == [] && d.sender.writeBuffer == []
    ensures var d := Acts(codec, c, events);
            && (|d.delivered| == |d.sent| <==> NoWholeFrame(d.receiver.readBuffer))
            && (!d.raised ==> |d.delivered| == |d.sent|)
            && |d.delivered| <= |d.sent| && forall i :: 0 <= i < |d.delivered| ==> d.sent[i] == Some(d.delivered[i])
  {
    var d := Acts(codec, c, events);
    BytesConserved(codec, c, events);
    assert d.got + [] + [] == d.got;
    assert d.sent[..|d.sent|] == d.sent;
    DeliversLongestPrefix(codec, c, events);
    assert ReadWhole(codec, d, |d.sent|);
    ChannelHolds(codec, c, events);
    assert d.receiver.readBuffer + [] == d.receiver.readBuffer;
  }

  /**
   * Where the longest list is missed: a reply that fails while a whole frame
   * is buffered. Its message is delivered, the frames behind it never are.
   */
  lemma FailedReplyEndsLoop<M(!new)>(codec: Codec<M>, e: Ends, m: M, rest: Bytes, reaction: Reaction<M>, later: seq<Reaction<M>>)
    requires Faithful(codec) && Fits(codec, Some(m)) && !e.disconnected
    requires e.readBuffer == Frame(codec, Some(m)) + rest
    requires ReactStep(codec, e.(readBuffer := rest), reaction.replies).0.disconnected
    ensures var d := DrainStep(codec, e, [reaction] + later);
            d.end == BROKE && d.delivered == [m] && d.effects.dropped == rest
  {
    GetMessageTakesFrame(codec, e, Some(m), rest);
    var next := e.(readBuffer := rest);
    ReactionKeepsRead(codec, next, reaction.replies);
    assert LaterReactions([reaction] + later) == later;
    BrokenEndsLoop(codec, later);
    PlusAssociates(ReactStep(codec, next, reaction.replies).1, NoEffects(), NoEffects());
  }

  // ----- None as a message -----

  /** No message follows the first None. */
  ghost predicate NoneComesLast<M(!new)>(ms: seq<Option<M>>) {
    forall i, j :: 0 <= i < j < |ms| && ms[i].None? ==> ms[j].None?
  }

  lemma {:induction false} ValuesEmptyIff<M(!new)>(ms: seq<Option<M>>)
    ensures Values(ms) == [] <==> forall i :: 0 <= i < |ms| ==> ms[i].None?
    decreases |ms|
  {
    if ms != [] {
      ValuesEmptyIff(ms[1..]);
      assert forall i :: 1 <= i < |ms| ==> ms[i] == ms[1..][i - 1];
    }
  }

  lemma NoneFirst<M(!new)>(ms: seq<Option<M>>)
    requires ms != [] && ms[0].None?
    ensures Values(ms) == [] <==> NoneComesLast(ms)
  {
    ValuesEmptyIff(ms);
    if NoneComesLast(ms) {
      forall i | 0 <= i < |ms| ensures ms[i].None? {
        if i > 0 { assert ms[0].None? && ms[i].None?; }
      }
    }
  }

  lemma CutFirst<M>(m: M, a: seq<M>, b: seq<M>)
    ensures [m] + a == [m] + b <==> a == b
  {
    assert ([m] + a)[1..] == a && ([m] + b)[1..] == b;
  }

  /**
   * The receive loop stops at a None that was sent: undisturbed, one read
   * delivers all the messages it completed if and only if none of them follows
   * a None. `tail` is the part of a further frame the read ended in.
   */
  lemma {:induction false} LoopDeliversAllIff<M(!new)>(codec: Codec<M>, e: Ends, ms: seq<Option<M>>, tail: Bytes, reactions: seq<Reaction<M>>)
    requires Faithful(codec) && AllFit(codec, ms)
    requires e.readBuffer == Frames(codec, ms) + tail && NoWholeFrame(tail)
    requires Undisturbed(DrainStep(codec, e, reactions))
    ensures DrainStep(codec, e, reactions).delivered == Values(ms) <==> NoneComesLast(ms)
    decreases |ms|
  {
    if ms == [] {
      assert e.readBuffer == tail;
    } else {
      assert e.readBuffer == Frame(codec, ms[0]) + (Frames(codec, ms[1..]) + tail);
      if ms[0].None? {
        GetMessageTakesFrame(codec, e, ms[0], Frames(codec, ms[1..]) + tail);
        NoneFirst(ms);
      } else {
        var after := UndisturbedTurn(codec, e, ms, Frames(codec, ms[1..]) + tail, reactions);
        LoopDeliversAllIff(codec, after, ms[1..], tail, LaterReactions(reactions));
        NoneLastTail(ms);
      }
    }
  }

  /** An undisturbed loop goes on after its first message. */
  lemma {:induction false} UndisturbedTurn<M(!new)>(codec: Codec<M>, e: Ends, ms: seq<Option<M>>, rest: Bytes,
                                                    reactions: seq<Reaction<M>>)
    returns (after: Ends)
    requires Faithful(codec) && ms != [] && ms[0].Some? && Fits(codec, ms[0])
    requires e.readBuffer == Frame(codec, ms[0]) + rest
    requires Undisturbed(DrainStep(codec, e, reactions))
    ensures after.readBuffer == rest && Undisturbed(DrainStep(codec, after, LaterReactions(reactions)))
    ensures DrainStep(codec, e, reactions).delivered == Values(ms)
            <==> DrainStep(codec, after, LaterReactions(reactions)).delivered == Values(ms[1..])
  {
    GetMessageTakesFrame(codec, e, ms[0], rest);
    var next := e.(readBuffer := rest);
    after := ReactStep(codec, next, FirstReaction(reactions).replies).0;
    if Stops(codec, next, FirstReaction(reactions)) {
      StopsHere(codec, e, reactions);
    }
    GoesOn(codec, e, reactions);
    CutFirst(ms[0].value, DrainStep(codec, after, LaterReactions(reactions)).delivered, Values(ms[1..]));
  }

  lemma NoneLastTail<M(!new)>(ms: seq<Option<M>>)
    requires ms != [] && ms[0].Some?
    ensures NoneComesLast(ms) <==> NoneComesLast(ms[1..])
  {
    assert forall i :: 1 <= i < |ms| ==> ms[i] == ms[1..][i - 1];
    if NoneComesLast(ms[1..]) {
      forall i, j | 0 <= i < j < |ms| && ms[i].None? ensures ms[j].None? {
        assert ms[1..][i - 1].None?;
        assert ms[1..][j - 1].None?;
      }
    }
    if NoneComesLast(ms) {
      forall i, j | 0 <= i < j < |ms[1..]| && ms[1..][i].None? ensures ms[1..][j].None? {
        assert ms[i + 1].None? && ms[j + 1].None?;
      }
    }
  }
}
