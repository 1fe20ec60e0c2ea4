/** A run in which a failed flush followed by a read loses a message and delivers the next one (pysyncobj/node.py:101-118). */
module MisreadRun {
  import opened Options
  import opened ByteStrings
  import opened StreamFraming
  import opened StreamRuns

  /** The sender puts out a message, all of which the kernel takes. */
  function SendWhole<M>(codec: Codec<M>, m: M): Event<M>
    requires Fits(codec, Some(m))
  {
    Sends(Some(m), [Took(|Frame(codec, Some(m))|)])
  }

  lemma {:induction false} WholeSent<M(!new)>(codec: Codec<M>, c: Channel<M>, m: M)
    requires RefusesEmpty(codec) && Fits(codec, Some(m))
    requires !c.sender.disconnected && c.sender.writeBuffer == []
    ensures Act(codec, c, SendWhole(codec, m))
            == c.(wire := c.wire + Frame(codec, Some(m)), sent := c.sent + [Some(m)])
  {
    var f := Frame(codec, Some(m));
    var full := c.sender.(writeBuffer := f);
    assert [] + f == f;
    assert Slice(f, 0, |f|) == f && Tail(f, |f|) == [];
    assert ProcessSendStep(full, Took(|f|)) == (c.sender, f, true);
    assert [Took(|f|)][1..] == [];
    assert TrySendStep(full, [Took(|f|)]) == (c.sender, f + []);
    assert f + [] == f;
  }

  /** Two messages are read at once; the handler of the first raises. */
  lemma {:induction false} FirstRaises<M(!new)>(codec: Codec<M>, c: Channel<M>, m1: M, m2: M, n: nat)
    requires Faithful(codec) && Fits(codec, Some(m1)) && Fits(codec, Some(m2))
    requires c.wire == Frame(codec, Some(m1)) + Frame(codec, Some(m2)) && |c.wire| <= n <= RECV_MAX
    requires c.receiver == Ends([], [], false)
    ensures Act(codec, c, Reads(n, [Reaction([], true)]))
            == c.(receiver := Ends(Frame(codec, Some(m2)), [], false), wire := [], got := c.got + c.wire,
                  raised := true, delivered := c.delivered + [m1])
  {
    var b := Arriving(c.wire, n);
    assert b == c.wire && c.wire[|b|..] == [] && [] + b == b;
    var e := Ends(b, [], false);
    GetMessageTakesFrame(codec, e, Some(m1), Frame(codec, Some(m2)));
    assert c.dropped + [] == c.dropped;
  }

  /** The receiver has something to send that the socket does not take. */
  lemma {:induction false} Blocked<M(!new)>(codec: Codec<M>, c: Channel<M>, x: M)
    requires RefusesEmpty(codec) && Fits(codec, Some(x)) && !c.receiver.disconnected && c.receiver.writeBuffer == []
    ensures Act(codec, c, ReceiverSends(Some(x), [SendBlocks]))
            == c.(receiver := c.receiver.(writeBuffer := Frame(codec, Some(x))))
  {
    assert [] + Frame(codec, Some(x)) == Frame(codec, Some(x));
  }

  /** One whole frame on a connection already disconnected is delivered all the same. */
  lemma {:induction false} DeliversAlone<M(!new)>(codec: Codec<M>, m: M)
    requires Faithful(codec) && Fits(codec, Some(m))
    ensures DrainStep(codec, Ends(Frame(codec, Some(m)), [], true), [])
            == Drained(BROKE, [m], NoEffects(), NoMessage)
  {
    var f := Frame(codec, Some(m));
    assert f + [] == f;
    GetMessageTakesFrame(codec, Ends(f, [], true), Some(m), []);
    BrokenEndsLoop(codec, []);
    var none: Effects<M> := NoEffects();
    PlusAssociates(none, none, none);
  }

  /** The flush fails, and the read that follows in the same poll delivers from an emptied buffer. */
  lemma {:induction false} ReadsOn<M(!new)>(codec: Codec<M>, c: Channel<M>, m3: M, n: nat)
    requires Faithful(codec) && Fits(codec, Some(m3))
    requires c.wire == Frame(codec, Some(m3)) && |c.wire| <= n <= RECV_MAX
    requires !c.receiver.disconnected && c.receiver.writeBuffer != [] && c.receiver.readBuffer != []
    ensures var d := Act(codec, c, ReceiverPolls([SendFails], n, []));
            && d.misread && d.sent == c.sent && d.delivered == c.delivered + [m3]
            && d.dropped == c.receiver.readBuffer && d.receiver.disconnected
  {
    var b := Arriving(c.wire, n);
    assert b == c.wire && [] + b == b;
    assert TrySendStep(c.receiver, [SendFails]).0 == BROKE;
    FailedPoll(codec, c, [SendFails], n, []);
    DeliversAlone(codec, m3);
    assert c.receiver.readBuffer + [] == c.receiver.readBuffer;
  }

  lemma {:induction false} OneMore<M(!new)>(codec: Codec<M>, c: Channel<M>, events: seq<Event<M>>, ev: Event<M>)
    requires RefusesEmpty(codec)
    ensures Acts(codec, c, events + [ev]) == Act(codec, Acts(codec, c, events), ev)
  {
    assert (events + [ev])[..|events|] == events;
  }

  /**
   * Any three messages: the first is delivered and its handler raises, the
   * second stays buffered and is dropped by the failed flush of the next poll,
   * and the read of that same poll delivers the third.
   */
  lemma {:induction false} SkipsMessage<M(!new)>(codec: Codec<M>, m1: M, m2: M, m3: M, x: M) returns (events: seq<Event<M>>)
    requires Faithful(codec)
    requires Fits(codec, Some(m1)) && Fits(codec, Some(m2)) && Fits(codec, Some(m3)) && Fits(codec, Some(x))
    requires |Frame(codec, Some(m1))| + |Frame(codec, Some(m2))| <= RECV_MAX && |Frame(codec, Some(m3))| <= RECV_MAX
    ensures var d := Acts(codec, Start(), events);
            && d.sent == [Some(m1), Some(m2), Some(m3)] && d.delivered == [m1, m3]
            && d.misread && d.dropped == Frame(codec, Some(m2))
  {
    var c := Start<M>();
    var (f1, f2, f3) := (Frame(codec, Some(m1)), Frame(codec, Some(m2)), Frame(codec, Some(m3)));
    events := [];
    WholeSent(codec, c, m1);
    OneMore(codec, c, events, SendWhole(codec, m1));
    events := events + [SendWhole(codec, m1)];
    var c1 := Acts(codec, c, events);
    assert c1.wire == [] + f1 == f1;
    WholeSent(codec, c1, m2);
    OneMore(codec, c, events, SendWhole(codec, m2));
    events := events + [SendWhole(codec, m2)];
    var c2 := Acts(codec, c, events);
    FirstRaises(codec, c2, m1, m2, RECV_MAX);
    OneMore(codec, c, events, Reads(RECV_MAX, [Reaction([], true)]));
    events := events + [Reads(RECV_MAX, [Reaction([], true)])];
    events := Rest(codec, c, events, f2, m3, x);
  }

  /** The second half: from the second message buffered alone. */
  lemma {:induction false} Rest<M(!new)>(codec: Codec<M>, c: Channel<M>, before: seq<Event<M>>, buffered: Bytes, m3: M, x: M)
    returns (events: seq<Event<M>>)
    requires Faithful(codec) && Fits(codec, Some(m3)) && Fits(codec, Some(x)) && |Frame(codec, Some(m3))| <= RECV_MAX
    requires buffered != []
    requires var s := Acts(codec, c, before);
             s.receiver == Ends(buffered, [], false) && s.wire == [] && s.sender == Ends([], [], false)
    ensures var (s, d) := (Acts(codec, c, before), Acts(codec, c, events));
            && d.sent == s.sent + [Some(m3)] && d.delivered == s.delivered + [m3]
            && d.misread && d.dropped == buffered
  {
    events := before;
    var s := Acts(codec, c, before);
    Blocked(codec, s, x);
    OneMore(codec, c, events, ReceiverSends(Some(x), [SendBlocks]));
    events := events + [ReceiverSends(Some(x), [SendBlocks])];
    var s1 := Acts(codec, c, events);
    WholeSent(codec, s1, m3);
    OneMore(codec, c, events, SendWhole(codec, m3));
    events := events + [SendWhole(codec, m3)];
    var s2 := Acts(codec, c, events);
    assert s2.wire == [] + Frame(codec, Some(m3)) == Frame(codec, Some(m3));
    ReadsOn(codec, s2, m3, RECV_MAX);
    OneMore(codec, c, events, ReceiverPolls([SendFails], RECV_MAX, []));
    events := events + [ReceiverPolls([SendFails], RECV_MAX, [])];
  }

  function Start<M>(): Channel<M> {
    Channel(Ends([], [], false), [], Ends([], [], false), [], [], false, false, [], [])
  }
}
