/** What each answer of the socket, each payload and each reply leads to (pysyncobj/connection.py, pysyncobj/node.py). */
module ConnectionAnswers {
  import opened Options
  import opened ByteStrings
  import opened StreamFraming
  import opened StreamRuns

  // ----- recv -----

  /** One recv takes 8192 bytes, or fewer if fewer have come or are asked for. */
  lemma ReadTakesAtMost(wire: Bytes, n: nat)
    ensures Arriving(wire, n) == wire[..Least(Least(n, 8192), |wire|)]
  {
  }

  /** A failing recv, or an error found on the socket, is reported; nothing else is, and only bytes that came in are buffered. */
  lemma ReadReports(e: Ends, r: RecvResult)
    ensures ReadStep(e, r).0.disconnected <==> e.disconnected || r.RecvFails? || r.GotOnBrokenSocket?
    ensures ReadStep(e, r).0.readBuffer == e.readBuffer + if r.Got? then r.data else []
    ensures ReadStep(e, r).0.writeBuffer == e.writeBuffer
    ensures ReadStep(e, r).1 <==> r.Got? && r.data != []
  {
    assert e.readBuffer + [] == e.readBuffer;
  }

  // ----- send -----

  /** The bytes the socket takes before its first answer that takes none. */
  function Taking(rs: seq<SendResult>): nat {
    if rs == [] || !rs[0].Took? || rs[0].n <= 0 then 0 else rs[0].n + Taking(rs[1..])
  }

  /** The first answer that takes nothing, if there is one. */
  function Stopping(rs: seq<SendResult>): Option<SendResult> {
    if rs == [] then None
    else if rs[0].Took? && rs[0].n > 0 then Stopping(rs[1..])
    else Some(rs[0])
  }

  predicate IsFailure(r: SendResult) {
    r.SendFails? || (r.Took? && r.n < 0)
  }

  function Least(a: nat, b: nat): nat {
    if a < b then a else b
  }

  /** As much is put out as the socket takes; the rest stays, or is thrown away when the socket fails. */
  ghost predicate FlushedBy(e: Ends, taking: nat, failing: bool, r: (Ends, Bytes)) {
    && r.1 == e.writeBuffer[..Least(taking, |e.writeBuffer|)]
    && r.0 == if taking < |e.writeBuffer| && failing then BROKE
              else e.(writeBuffer := e.writeBuffer[Least(taking, |e.writeBuffer|)..])
  }

  predicate Fails(rs: seq<SendResult>) {
    Stopping(rs).Some? && IsFailure(Stopping(rs).value)
  }

  /** The bytes of one send, and what comes after. */
  lemma FlushedFirst(e: Ends, n: nat, taking: nat, failing: bool, r: (Ends, Bytes))
    requires e.writeBuffer != [] && n > 0
    requires FlushedBy(e.(writeBuffer := e.writeBuffer[Least(n, |e.writeBuffer|)..]), taking, failing, r)
    ensures FlushedBy(e, n + taking, failing, (r.0, e.writeBuffer[..Least(n, |e.writeBuffer|)] + r.1))
  {
    var w := e.writeBuffer;
    var first := Least(n, |w|);
    assert w[..first] + w[first..][..Least(taking, |w| - first)] == w[..Least(n + taking, |w|)];
    assert w[first..][Least(taking, |w| - first)..] == w[Least(n + taking, |w|)..];
  }

  predicate TakesSome(r: SendResult) {
    r.Took? && r.n > 0
  }

  /** The socket takes something: the rest is tried with its later answers. */
  lemma {:induction false} FlushGoesOn(e: Ends, rs: seq<SendResult>)
    requires e.writeBuffer != [] && rs != [] && TakesSome(rs[0])
    ensures var first := Least(rs[0].n, |e.writeBuffer|);
            var next := e.(writeBuffer := e.writeBuffer[first..]);
            var r := TrySendStep(next, rs[1..]);
            TrySendStep(e, rs) == (r.0, e.writeBuffer[..first] + r.1)
    ensures Taking(rs) == rs[0].n + Taking(rs[1..]) && Fails(rs) == Fails(rs[1..])
  {
    var first := Least(rs[0].n, |e.writeBuffer|);
    assert ProcessSendStep(e, rs[0])
        == (e.(writeBuffer := e.writeBuffer[first..]), e.writeBuffer[..first], true);
  }

  /** Nothing to put out, or the socket takes nothing. */
  lemma {:induction false} FlushStops(e: Ends, rs: seq<SendResult>)
    requires e.writeBuffer == [] || rs == [] || !TakesSome(rs[0])
    ensures FlushedBy(e, Taking(rs), Fails(rs), TrySendStep(e, rs))
  {
    assert e.writeBuffer[..0] == [] && e.writeBuffer[0..] == e.writeBuffer;
  }

  /**
   * A flush goes on until the buffer is empty or the socket takes nothing: it
   * puts out as much as the socket takes, and breaks the connection exactly if
   * bytes are left when the socket answers with a failure.
   */
  lemma {:induction false} FlushTakesAll(e: Ends, rs: seq<SendResult>)
    ensures FlushedBy(e, Taking(rs), Fails(rs), TrySendStep(e, rs))
    decreases |rs|
  {
    if e.writeBuffer == [] || rs == [] || !TakesSome(rs[0]) {
      FlushStops(e, rs);
    } else {
      var next := e.(writeBuffer := e.writeBuffer[Least(rs[0].n, |e.writeBuffer|)..]);
      FlushGoesOn(e, rs);
      FlushTakesAll(next, rs[1..]);
      FlushedFirst(e, rs[0].n, Taking(rs[1..]), Fails(rs[1..]), TrySendStep(next, rs[1..]));
    }
  }

  /**
   * A send puts its frame behind what is still to go out and flushes at once;
   * it raises, and changes nothing, exactly if the payload is too long.
   */
  lemma SendIsFlushed<M(!new)>(codec: Codec<M>, e: Ends, m: Option<M>, rs: seq<SendResult>)
    ensures var (end, taken, raised) := SendStep(codec, e, m, rs);
            && (raised <==> |codec.encode(m)| >= 0x8000_0000)
            && (if raised then end == e && taken == []
                else FlushedBy(e.(writeBuffer := e.writeBuffer + Frame(codec, m)), Taking(rs), Fails(rs), (end, taken)))
  {
    if Fits(codec, m) {
      FlushTakesAll(e.(writeBuffer := e.writeBuffer + Frame(codec, m)), rs);
    }
  }

  // ----- getMessage -----

  /** The length comes low byte first, in two's complement. */
  lemma LowByteFirst(n: int)
    requires -LIMIT <= n < LIMIT
    ensures Pack(n)[0] as int == n % 0x100
    ensures 0 <= n < 0x100 ==> Pack(n)[1] == Pack(n)[2] == Pack(n)[3] == 0
    ensures Pack(n)[3] >= 0x80 <==> n < 0
    ensures LIMIT == 0x8000_0000
  {
  }

  /** What the decoder makes of a whole frame decides, whoever has framed it; what follows it stays. */
  lemma FrameIsHandled<M(!new)>(codec: Codec<M>, e: Ends, payload: Bytes, rest: Bytes)
    requires |payload| < LIMIT && e.readBuffer == Pack(|payload|) + payload + rest
    ensures var (end, fetched) := GetMessageStep(codec, e);
            match codec.decode(payload)
            case Message(m) => end == e.(readBuffer := rest) && fetched == Delivered(m)
            case Null => end == e.(readBuffer := rest) && fetched == NoMessage
            case Corrupt => end == e.(disconnected := true) && fetched == NoMessage
            case Broken => end == e && fetched == Raised
  {
    var n := |payload|;
    UnpackPacked(n);
    assert e.readBuffer[..4] == Pack(n);
    assert e.readBuffer[4..4 + n] == payload;
    assert e.readBuffer[4 + n..] == rest;
  }

  /** Without a whole frame nothing happens. */
  lemma NoFrameIsAwaited<M(!new)>(codec: Codec<M>, e: Ends)
    requires NoWholeFrame(e.readBuffer)
    ensures GetMessageStep(codec, e) == (e, NoMessage)
  {
  }

  // ----- Answers inside the loop -----

  function Said<M>(replies: seq<Reply<M>>): seq<Option<M>> {
    if replies == [] then [] else [replies[0].m] + Said(replies[1..])
  }

  /** Every answer is sent, in order, unless one breaks the connection or is too long to be packed. */
  lemma {:induction false} AllAnswersAreSent<M(!new)>(codec: Codec<M>, e: Ends, replies: seq<Reply<M>>)
    requires !e.disconnected
    ensures var (end, effects, raised) := ReactStep(codec, e, replies);
            && effects.sent <= Said(replies)
            && (!raised && !end.disconnected ==> effects.sent == Said(replies))
            && (raised ==> exists i :: 0 <= i < |replies| && !Fits(codec, replies[i].m))
            && (raised ==> |effects.sent| < |replies| && !Fits(codec, replies[|effects.sent|].m))
    decreases |replies|
  {
    if replies != [] && Fits(codec, replies[0].m) {
      var (next, one, _) := ReplyStep(codec, e, replies[0]);
      TrySendConserves(e.(writeBuffer := e.writeBuffer + Frame(codec, replies[0].m)), replies[0].rs);
      if next.disconnected {
        assert [replies[0].m] + [] <= Said(replies);
      } else {
        AllAnswersAreSent(codec, next, replies[1..]);
        var more := ReactStep(codec, next, replies[1..]).1;
        assert [replies[0].m] + more.sent <= [replies[0].m] + Said(replies[1..]);
      }
    }
  }

  /** The answers to the first n messages. */
  function SaidTo<M>(reactions: seq<Reaction<M>>, n: nat): seq<Option<M>>
    decreases n
  {
    if n == 0 then [] else Said(FirstReaction(reactions).replies) + SaidTo(LaterReactions(reactions), n - 1)
  }

  /** In a loop that is not disturbed the answers to all the messages delivered are sent, message by message. */
  lemma {:induction false} LoopSendsAllAnswers<M(!new)>(codec: Codec<M>, e: Ends, reactions: seq<Reaction<M>>)
    requires RefusesEmpty(codec) && !e.disconnected && Undisturbed(DrainStep(codec, e, reactions))
    ensures var d := DrainStep(codec, e, reactions);
            d.effects.sent == SaidTo(reactions, |d.delivered|)
    decreases |e.readBuffer|
  {
    var (next, fetched) := GetMessageStep(codec, e);
    if fetched.Delivered? {
      if Stops(codec, next, FirstReaction(reactions)) {
        StopsHere(codec, e, reactions);
      }
      GoesOn(codec, e, reactions);
      var (after, effects, _) := ReactStep(codec, next, FirstReaction(reactions).replies);
      AllAnswersAreSent(codec, next, FirstReaction(reactions).replies);
      DeliveryShortens(codec, e);
      ReactionShrinks(codec, next, FirstReaction(reactions).replies);
      LoopSendsAllAnswers(codec, after, LaterReactions(reactions));
    }
  }

  // ----- A connection that is lost -----

  /** The channel from any state on. */
  lemma {:induction false} LostReceiverIsLeft<M(!new)>(codec: Codec<M>, c: Channel<M>, later: seq<Event<M>>)
    requires RefusesEmpty(codec) && c.receiver.disconnected
    ensures var d := Acts(codec, c, later);
            d.receiver == c.receiver && d.delivered == c.delivered && d.got == c.got
    decreases |later|
  {
    if later != [] {
      LostReceiverIsLeft(codec, c, later[..|later| - 1]);
    }
  }

  lemma {:induction false} LostSenderIsLeft<M(!new)>(codec: Codec<M>, c: Channel<M>, later: seq<Event<M>>)
    requires RefusesEmpty(codec) && c.sender.disconnected
    ensures var d := Acts(codec, c, later);
            d.sender == c.sender && d.sent == c.sent
    decreases |later|
  {
    if later != [] {
      LostSenderIsLeft(codec, c, later[..|later| - 1]);
    }
  }

  /**
   * A read that fails, in any run, loses the connection for good: the receiver
   * is reported disconnected with its buffers as they were, and whatever
   * happens later nothing more is read or delivered and the report stands.
   */
  lemma FailedReadIsFinal<M(!new)>(codec: Codec<M>, c: Channel<M>, events: seq<Event<M>>, broken: bool, n: nat,
                                   later: seq<Event<M>>)
    requires RefusesEmpty(codec) && Fresh(c) && !Acts(codec, c, events).receiver.disconnected
    ensures var (before, after) := (Acts(codec, c, events), Act(codec, Acts(codec, c, events), ReadFails(broken, n)));
            var end := Acts(codec, after, later);
            && after.receiver == before.receiver.(disconnected := true)
            && after.delivered == before.delivered && after.got == before.got
            && end.receiver == after.receiver && end.delivered == after.delivered && end.got == after.got
  {
    LostReceiverIsLeft(codec, Act(codec, Acts(codec, c, events), ReadFails(broken, n)), later);
  }

  /** A flush that fails loses it likewise, on either side, both buffers thrown away. */
  lemma FailedFlushIsFinal<M(!new)>(codec: Codec<M>, c: Channel<M>, rs: seq<SendResult>, later: seq<Event<M>>)
    requires RefusesEmpty(codec) && !c.receiver.disconnected && !c.sender.disconnected
    requires Fails(rs)
    ensures Taking(rs) < |c.receiver.writeBuffer| ==>
              var d := Acts(codec, Act(codec, c, ReceiverFlushes(rs)), later);
              d.receiver == BROKE && d.delivered == c.delivered
    ensures Taking(rs) < |c.sender.writeBuffer| ==>
              var d := Acts(codec, Act(codec, c, Flushes(rs)), later);
              d.sender == BROKE && d.sent == c.sent
  {
    FlushTakesAll(c.receiver, rs);
    FlushTakesAll(c.sender, rs);
    if Taking(rs) < |c.receiver.writeBuffer| {
      LostReceiverIsLeft(codec, Act(codec, c, ReceiverFlushes(rs)), later);
    }
    if Taking(rs) < |c.sender.writeBuffer| {
      assert c.sent + [] == c.sent;
      LostSenderIsLeft(codec, Act(codec, c, Flushes(rs)), later);
    }
  }
}
