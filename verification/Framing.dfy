/** Messages framed over a byte stream: Connection (pysyncobj/connection.py) and its receive loop. */
module StreamFraming {
  import opened Options
  import opened ByteStrings

  // ----- Lengths: struct.pack('i', n), four bytes, little end first -----

  const LIMIT: int := 0x8000_0000

  function Pack(n: int): (b: Bytes)
    requires -LIMIT <= n < LIMIT
    ensures |b| == 4
  {
    var u := if n < 0 then n + 0x1_0000_0000 else n;
    [(u % 0x100) as Byte, (u / 0x100 % 0x100) as Byte, (u / 0x1_0000 % 0x100) as Byte, (u / 0x100_0000) as Byte]
  }

  function Unpack(b: Bytes): (n: int)
    requires |b| == 4
    ensures -LIMIT <= n < LIMIT
  {
    var u := b[0] as int + 0x100 * b[1] as int + 0x1_0000 * b[2] as int + 0x100_0000 * b[3] as int;
    if u >= LIMIT then u - 0x1_0000_0000 else u
  }

  lemma UnpackPacked(n: int)
    requires -LIMIT <= n < LIMIT
    ensures Unpack(Pack(n)) == n
  {
    var u := if n < 0 then n + 0x1_0000_0000 else n;
    assert u / 0x1_0000 == u / 0x100 / 0x100;
    assert u / 0x100_0000 == u / 0x1_0000 / 0x100;
  }

  // ----- Payloads -----

  /** Unpickling may yield None, fail in one of the two caught ways, or raise something else. */
  datatype Decoded<M> = Message(value: M) | Null | Corrupt | Broken

  /** Pickling and compression, taken as given. None is the Python object None. */
  datatype Codec<!M> = Codec(encode: Option<M> -> Bytes, decode: Bytes -> Decoded<M>)

  /** No message decodes from the empty string: zlib refuses it. */
  ghost predicate RefusesEmpty<M(!new)>(codec: Codec<M>) {
    codec.decode([]) == Corrupt
  }

  ghost predicate Faithful<M(!new)>(codec: Codec<M>) {
    && RefusesEmpty(codec)
    && codec.decode(codec.encode(None)) == Null
    && forall m :: codec.decode(codec.encode(Some(m))) == Message(m)
  }

  predicate Fits<M>(codec: Codec<M>, m: Option<M>) {
    |codec.encode(m)| < LIMIT
  }

  function Frame<M>(codec: Codec<M>, m: Option<M>): (f: Bytes)
    requires Fits(codec, m)
    ensures |f| >= 4
  {
    Pack(|codec.encode(m)|) + codec.encode(m)
  }

  // ----- The connection's steps -----

  datatype Ends = Ends(readBuffer: Bytes, writeBuffer: Bytes, disconnected: bool)

  const BROKE := Ends([], [], true)

  /** What the socket answers to send and recv. */
  datatype SendResult = Took(n: int) | SendBlocks | SendFails
  datatype RecvResult = Got(data: Bytes) | RecvBlocks | RecvFails | GotOnBrokenSocket(data: Bytes)

  /** Next state, the bytes the kernel took, and whether to try again. */
  function ProcessSendStep(e: Ends, r: SendResult): (Ends, Bytes, bool) {
    if e.writeBuffer == [] then (e, [], false)
    else match r
      case SendBlocks => (e, [], false)
      case SendFails => (BROKE, [], false)
      case Took(n) =>
        if n < 0 then (BROKE, [], false)
        else if n == 0 then (e, [], false)
        else (e.(writeBuffer := Tail(e.writeBuffer, n)), Slice(e.writeBuffer, 0, n), true)
  }

  /** A socket that has no more answers blocks. */
  function TrySendStep(e: Ends, rs: seq<SendResult>): (Ends, Bytes)
    decreases |rs|
  {
    if rs == [] then (e, [])
    else
      var (next, taken, again) := ProcessSendStep(e, rs[0]);
      if !again then (next, taken)
      else
        var (end, more) := TrySendStep(next, rs[1..]);
        (end, taken + more)
  }

  function Joined(taken: Bytes, rest: (Ends, Bytes)): (Ends, Bytes) {
    (rest.0, taken + rest.1)
  }

  lemma {:induction false} TrySendUnfolds(e: Ends, rs: seq<SendResult>, taken: Bytes)
    requires rs != []
    ensures var (next, bytes, again) := ProcessSendStep(e, rs[0]);
            Joined(taken, TrySendStep(e, rs))
            == if again then Joined(taken + bytes, TrySendStep(next, rs[1..])) else (next, taken + bytes)
  {
    var (next, bytes, _) := ProcessSendStep(e, rs[0]);
    var more := TrySendStep(next, rs[1..]).1;
    assert taken + (bytes + more) == (taken + bytes) + more;
  }

  /** The last component: struct.pack raised, the message is too long. */
  function SendStep<M>(codec: Codec<M>, e: Ends, m: Option<M>, rs: seq<SendResult>): (Ends, Bytes, bool) {
    if !Fits(codec, m) then (e, [], true)
    else
      var (end, taken) := TrySendStep(e.(writeBuffer := e.writeBuffer + Frame(codec, m)), rs);
      (end, taken, false)
  }

  function ReadStep(e: Ends, r: RecvResult): (Ends, bool) {
    match r
    case RecvBlocks => (e, false)
    case RecvFails => (e.(disconnected := true), false)
    case GotOnBrokenSocket(_) => (e.(disconnected := true), false)
    case Got(data) => if data == [] then (e, false) else (e.(readBuffer := e.readBuffer + data), true)
  }

  datatype Fetched<M> = Delivered(value: M) | NoMessage | Raised

  function GetMessageStep<M>(codec: Codec<M>, e: Ends): (Ends, Fetched<M>) {
    if |e.readBuffer| < 4 then (e, NoMessage)
    else
      var l := Unpack(e.readBuffer[..4]);
      if |e.readBuffer| - 4 < l then (e, NoMessage)
      else
        var rest := e.(readBuffer := Tail(e.readBuffer, 4 + l));
        match codec.decode(Slice(e.readBuffer, 4, 4 + l))
        case Corrupt => (e.(disconnected := true), NoMessage)
        case Broken => (e, Raised)
        case Null => (rest, NoMessage)
        case Message(m) => (rest, Delivered(m))
  }

  /** Every delivery shortens the buffer, even when the length read from it is negative: the receive loop ends. */
  lemma DeliveryShortens<M(!new)>(codec: Codec<M>, e: Ends)
    requires RefusesEmpty(codec)
    requires GetMessageStep(codec, e).1.Delivered?
    ensures |GetMessageStep(codec, e).0.readBuffer| < |e.readBuffer| - 4
  {
    var l := Unpack(e.readBuffer[..4]);
    if l < 0 {
      assert Slice(e.readBuffer, 4, 4 + l) != [];
    } else {
      assert Slice(e.readBuffer, 4, 4 + l) != [];
    }
  }

  // ----- The receive loop, with the answers sent inside it -----

  /** A message sent by the handler of a delivered message, and the socket's answers to it. */
  datatype Reply<M> = Reply(m: Option<M>, rs: seq<SendResult>)

  /** What the handler of one delivered message does on the same connection, and whether it raises. */
  datatype Reaction<M> = Reaction(replies: seq<Reply<M>>, raises: bool)

  /** Bytes the kernel took, messages put into the write buffer, and read bytes thrown away by a failed send. */
  datatype Effects<M> = Effects(taken: Bytes, sent: seq<Option<M>>, dropped: Bytes)

  function NoEffects<M>(): Effects<M> {
    Effects([], [], [])
  }

  function Plus<M>(a: Effects<M>, b: Effects<M>): Effects<M> {
    Effects(a.taken + b.taken, a.sent + b.sent, a.dropped + b.dropped)
  }

  /** One reply and what it does; the last component tells a message too long to be packed. */
  function ReplyStep<M>(codec: Codec<M>, e: Ends, reply: Reply<M>): (Ends, Effects<M>, bool) {
    var (next, taken, raised) := SendStep(codec, e, reply.m, reply.rs);
    if raised then (e, NoEffects(), true)
    else (next, Effects(taken, [reply.m], if next.disconnected then e.readBuffer else []), false)
  }

  /** The replies in order; a node sends nothing more on a connection that reported disconnected. */
  function ReactStep<M>(codec: Codec<M>, e: Ends, replies: seq<Reply<M>>): (Ends, Effects<M>, bool)
    decreases |replies|
  {
    if replies == [] || e.disconnected then (e, NoEffects(), false)
    else
      var (next, effects, raised) := ReplyStep(codec, e, replies[0]);
      if raised then (e, NoEffects(), true)
      else
        var (end, more, failed) := ReactStep(codec, next, replies[1..]);
        (end, Plus(effects, more), failed)
  }

  function Added<M>(effects: Effects<M>, rest: (Ends, Effects<M>, bool)): (Ends, Effects<M>, bool) {
    (rest.0, Plus(effects, rest.1), rest.2)
  }

  lemma AddedNothing<M>(effects: Effects<M>, e: Ends, rest: (Ends, Effects<M>, bool))
    ensures Added(NoEffects(), rest) == rest
    ensures Added(effects, (e, NoEffects(), false)) == (e, effects, false)
  {
    PlusAssociates(rest.1, rest.1, rest.1);
    PlusAssociates(effects, effects, effects);
  }

  /** One reply, on top of the effects of those before. */
  lemma ReactUnfolds<M>(codec: Codec<M>, e: Ends, replies: seq<Reply<M>>, effects: Effects<M>)
    requires replies != [] && !e.disconnected
    ensures var (next, one, raised) := ReplyStep(codec, e, replies[0]);
            Added(effects, ReactStep(codec, e, replies))
            == if raised then (e, effects, true) else Added(Plus(effects, one), ReactStep(codec, next, replies[1..]))
  {
    var (next, one, _) := ReplyStep(codec, e, replies[0]);
    PlusAssociates(effects, one, ReactStep(codec, next, replies[1..]).1);
  }

  /** The same at reply i of a list. */
  lemma ReactTurn<M>(codec: Codec<M>, e: Ends, replies: seq<Reply<M>>, i: nat, effects: Effects<M>)
    requires i < |replies| && !e.disconnected
    ensures var (next, one, raised) := ReplyStep(codec, e, replies[i]);
            Added(effects, ReactStep(codec, e, replies[i..]))
            == if raised then (e, effects, true) else Added(Plus(effects, one), ReactStep(codec, next, replies[i + 1..]))
  {
    var rest := replies[i..];
    assert rest[0] == replies[i] && rest[1..] == replies[i + 1..];
    ReactUnfolds(codec, e, rest, effects);
  }

  /** After the last reply, or once disconnected, nothing more is sent. */
  lemma ReactEnds<M>(codec: Codec<M>, e: Ends, replies: seq<Reply<M>>, effects: Effects<M>)
    requires replies == [] || e.disconnected
    ensures Added(effects, ReactStep(codec, e, replies)) == (e, effects, false)
  {
    AddedNothing(effects, e, ReactStep(codec, e, replies));
  }

  function FirstReaction<M>(reactions: seq<Reaction<M>>): Reaction<M> {
    if reactions == [] then Reaction([], false) else reactions[0]
  }

  function LaterReactions<M>(reactions: seq<Reaction<M>>): seq<Reaction<M>> {
    if reactions == [] then [] else reactions[1..]
  }

  lemma {:induction false} TrySendShrinks(e: Ends, rs: seq<SendResult>)
    ensures |TrySendStep(e, rs).0.readBuffer| <= |e.readBuffer|
    decreases |rs|
  {
    if rs != [] {
      TrySendShrinks(ProcessSendStep(e, rs[0]).0, rs[1..]);
    }
  }

  /** No reply lengthens the read buffer: the receive loop still ends. */
  lemma {:induction false} ReactionShrinks<M>(codec: Codec<M>, e: Ends, replies: seq<Reply<M>>)
    ensures |ReactStep(codec, e, replies).0.readBuffer| <= |e.readBuffer|
    decreases |replies|
  {
    if replies != [] && !e.disconnected {
      var reply := replies[0];
      if Fits(codec, reply.m) {
        TrySendShrinks(e.(writeBuffer := e.writeBuffer + Frame(codec, reply.m)), reply.rs);
        ReactionShrinks(codec, ReplyStep(codec, e, reply).0, replies[1..]);
      }
    }
  }

  /** The outcome of the receive loop; `last` is how it ended. */
  datatype Drained<M> = Drained(end: Ends, delivered: seq<M>, effects: Effects<M>, last: Fetched<M>)

  function DrainStep<M(!new)>(codec: Codec<M>, e: Ends, reactions: seq<Reaction<M>>): Drained<M>
    requires RefusesEmpty(codec)
    decreases |e.readBuffer|
  {
    var (next, fetched) := GetMessageStep(codec, e);
    if !fetched.Delivered? then Drained(next, [], NoEffects(), fetched)
    else
      var reaction := FirstReaction(reactions);
      var (after, effects, raised) := ReactStep(codec, next, reaction.replies);
      if raised || reaction.raises then Drained(after, [fetched.value], effects, Raised)
      else
        DeliveryShortens(codec, e);
        ReactionShrinks(codec, next, reaction.replies);
        Gathered([fetched.value], effects, DrainStep(codec, after, LaterReactions(reactions)))
  }

  function Gathered<M>(delivered: seq<M>, effects: Effects<M>, rest: Drained<M>): Drained<M> {
    Drained(rest.end, delivered + rest.delivered, Plus(effects, rest.effects), rest.last)
  }

  lemma PlusAssociates<M>(a: Effects<M>, b: Effects<M>, c: Effects<M>)
    ensures Plus(Plus(a, b), c) == Plus(a, Plus(b, c))
    ensures Plus(a, NoEffects()) == a && Plus(NoEffects(), a) == a
  {
    assert (a.taken + b.taken) + c.taken == a.taken + (b.taken + c.taken);
    assert (a.sent + b.sent) + c.sent == a.sent + (b.sent + c.sent);
    assert (a.dropped + b.dropped) + c.dropped == a.dropped + (b.dropped + c.dropped);
    assert a.taken + [] == a.taken && a.sent + [] == a.sent && a.dropped + [] == a.dropped;
    assert [] + a.taken == a.taken && [] + a.sent == a.sent && [] + a.dropped == a.dropped;
  }

  lemma GatheredAssociates<M>(d: seq<M>, f: Effects<M>, d': seq<M>, f': Effects<M>, rest: Drained<M>)
    ensures Gathered(d, f, Gathered(d', f', rest)) == Gathered(d + d', Plus(f, f'), rest)
  {
    assert d + (d' + rest.delivered) == (d + d') + rest.delivered;
    PlusAssociates(f, f', rest.effects);
  }

  /** One turn of the loop, on top of what has been delivered and done before. */
  lemma DrainUnfolds<M(!new)>(codec: Codec<M>, e: Ends, reactions: seq<Reaction<M>>, delivered: seq<M>, effects: Effects<M>)
    requires RefusesEmpty(codec)
    ensures var (next, fetched) := GetMessageStep(codec, e);
            var reaction := FirstReaction(reactions);
            var (after, more, raised) := ReactStep(codec, next, reaction.replies);
            Gathered(delivered, effects, DrainStep(codec, e, reactions))
            == if !fetched.Delivered? then Drained(next, delivered, effects, fetched)
               else if raised || reaction.raises then
                 Drained(after, delivered + [fetched.value], Plus(effects, more), Raised)
               else
                 Gathered(delivered + [fetched.value], Plus(effects, more),
                          DrainStep(codec, after, LaterReactions(reactions)))
  {
    var (next, fetched) := GetMessageStep(codec, e);
    if fetched.Delivered? {
      var (after, more, _) := ReactStep(codec, next, FirstReaction(reactions).replies);
      var rest := DrainStep(codec, after, LaterReactions(reactions));
      GatheredAssociates(delivered, effects, [fetched.value], more, rest);
    } else {
      assert delivered + [] == delivered;
      PlusAssociates(effects, NoEffects(), NoEffects());
    }
  }

  function ReceiveStep<M(!new)>(codec: Codec<M>, e: Ends, r: RecvResult, reactions: seq<Reaction<M>>): Drained<M>
    requires RefusesEmpty(codec)
  {
    var (next, ok) := ReadStep(e, r);
    if ok then DrainStep(codec, next, reactions) else Drained(next, [], NoEffects(), NoMessage)
  }

  class Connection<!M(!new)> {
    const codec: Codec<M>
    var readBuffer: Bytes
    var writeBuffer: Bytes
    var disconnected: bool

    function View(): Ends
      reads this
    {
      Ends(readBuffer, writeBuffer, disconnected)
    }

    constructor (codec: Codec<M>)
      ensures View() == Ends([], [], false) && this.codec == codec
    {
      this.codec := codec;
      readBuffer, writeBuffer, disconnected := [], [], false;
    }

    method Break()
      modifies this
      ensures View() == BROKE
    {
      writeBuffer, readBuffer, disconnected := [], [], true;
    }

    method ProcessSend(r: SendResult) returns (taken: Bytes, again: bool)
      modifies this
      ensures (View(), taken, again) == ProcessSendStep(old(View()), r)
    {
      taken, again := [], false;
      if writeBuffer == [] {
        return;
      }
      match r
      case SendBlocks =>
      case SendFails => Break();
      case Took(n) =>
        if n < 0 {
          Break();
        } else if n > 0 {
          taken, again := Slice(writeBuffer, 0, n), true;
          writeBuffer := Tail(writeBuffer, n);
        }
    }

    method TrySendBuffer(rs: seq<SendResult>) returns (taken: Bytes)
      modifies this
      ensures (View(), taken) == TrySendStep(old(View()), rs)
    {
      taken := [];
      var i, again := 0, true;
      ghost var all := TrySendStep(View(), rs);
      assert rs[0..] == rs && [] + all.1 == all.1;
      while i < |rs| && again
        invariant 0 <= i <= |rs|
        invariant all == if again then Joined(taken, TrySendStep(View(), rs[i..])) else (View(), taken)
        decreases |rs| - i
      {
        TrySendUnfolds(View(), rs[i..], taken);
        assert rs[i..][1..] == rs[i + 1..];
        var bytes;
        bytes, again := ProcessSend(rs[i]);
        taken, i := taken + bytes, i + 1;
      }
      assert taken + [] == taken;
    }

    method Send(m: Option<M>, rs: seq<SendResult>) returns (taken: Bytes, raised: bool)
      modifies this
      ensures (View(), taken, raised) == SendStep(codec, old(View()), m, rs)
    {
      taken, raised := [], false;
      var data := codec.encode(m);
      if |data| >= LIMIT {
        return taken, true;
      }
      data := Pack(|data|) + data;
      writeBuffer := writeBuffer + data;
      taken := TrySendBuffer(rs);
    }

    method Read(r: RecvResult) returns (ok: bool)
      modifies this
      ensures (View(), ok) == ReadStep(old(View()), r)
    {
      match r
      case RecvBlocks => ok := false;
      case RecvFails => disconnected, ok := true, false;
      case GotOnBrokenSocket(_) => disconnected, ok := true, false;
      case Got(data) =>
        ok := data != [];
        if ok {
          readBuffer := readBuffer + data;
        }
    }

    method GetMessage() returns (fetched: Fetched<M>)
      modifies this
      ensures (View(), fetched) == GetMessageStep(codec, old(View()))
    {
      fetched := NoMessage;
      if |readBuffer| < 4 {
        return;
      }
      var l := Unpack(readBuffer[..4]);
      if |readBuffer| - 4 < l {
        return;
      }
      var decoded := codec.decode(Slice(readBuffer, 4, 4 + l));
      match decoded {
        case Corrupt => disconnected := true; return;
        case Broken => return Raised;
        case Null =>
        case Message(m) => fetched := Delivered(m);
      }
      readBuffer := Tail(readBuffer, 4 + l);
    }

    /** One answer; a failed send throws the read buffer away. */
    method Answer(reply: Reply<M>) returns (effects: Effects<M>, raised: bool)
      modifies this
      ensures (View(), effects, raised) == ReplyStep(codec, old(View()), reply)
    {
      var buffered := readBuffer;
      var taken;
      taken, raised := Send(reply.m, reply.rs);
      effects := if raised then NoEffects() else Effects(taken, [reply.m], if disconnected then buffered else []);
    }

    /** The handler's answers to one message (pysyncobj/node.py:51-59), one send after another. */
    method React(replies: seq<Reply<M>>) returns (effects: Effects<M>, raised: bool)
      modifies this
      ensures (View(), effects, raised) == ReactStep(codec, old(View()), replies)
    {
      effects, raised := NoEffects(), false;
      var i := 0;
      ghost var all := ReactStep(codec, View(), replies);
      assert replies[0..] == replies;
      AddedNothing(effects, View(), all);
      while i < |replies| && !disconnected
        invariant 0 <= i <= |replies| && !raised
        invariant all == Added(effects, ReactStep(codec, View(), replies[i..]))
      {
        ReactTurn(codec, View(), replies, i, effects);
        var one;
        one, raised := Answer(replies[i]);
        if raised {
          return;
        }
        effects := Plus(effects, one);
        i := i + 1;
      }
      ReactEnds(codec, View(), replies[i..], effects);
    }

    /**
     * What a readable socket leads to: read, then getMessage, each message
     * being handled at once, until it returns None or something raises.
     */
    method OnReadable(r: RecvResult, reactions: seq<Reaction<M>>)
      returns (delivered: seq<M>, effects: Effects<M>, last: Fetched<M>)
      requires RefusesEmpty(codec)
      modifies this
      ensures Drained(View(), delivered, effects, last) == ReceiveStep(codec, old(View()), r, reactions)
    {
      delivered, effects, last := [], NoEffects(), NoMessage;
      var ok := Read(r);
      if !ok {
        return;
      }
      ghost var all := DrainStep(codec, View(), reactions);
      assert [] + all.delivered == all.delivered;
      PlusAssociates(all.effects, NoEffects(), NoEffects());
      var more, coming := true, reactions;
      while more
        invariant all == if more then Gathered(delivered, effects, DrainStep(codec, View(), coming))
                         else Drained(View(), delivered, effects, last)
        decreases |readBuffer|, more
      {
        ghost var before := View();
        DrainUnfolds(codec, before, coming, delivered, effects);
        last := GetMessage();
        if last.Delivered? {
          DeliveryShortens(codec, before);
          ReactionShrinks(codec, View(), FirstReaction(coming).replies);
          delivered := delivered + [last.value];
          var done, raised := React(FirstReaction(coming).replies);
          effects := Plus(effects, done);
          if raised || FirstReaction(coming).raises {
            more, last := false, Raised;
            assert all == Drained(View(), delivered, effects, last);
          } else {
            assert all == Gathered(delivered, effects, DrainStep(codec, View(), LaterReactions(coming)));
          }
          coming := LaterReactions(coming);
        } else {
          more := false;
        }
      }
    }

    /** One poll of a connection that is writable and readable: flush, then read, whatever the flush has led to. */
    method OnPoll(rs: seq<SendResult>, r: RecvResult, reactions: seq<Reaction<M>>)
      returns (taken: Bytes, delivered: seq<M>, effects: Effects<M>, last: Fetched<M>)
      requires RefusesEmpty(codec)
      modifies this
      ensures taken == TrySendStep(old(View()), rs).1
      ensures Drained(View(), delivered, effects, last)
              == ReceiveStep(codec, TrySendStep(old(View()), rs).0, r, reactions)
    {
      taken := TrySendBuffer(rs);
      delivered, effects, last := OnReadable(r, reactions);
    }
  }
}
