/** What lost chunks and several senders do to a snapshot. */
module SnapshotLoss {
  import opened Options
  import opened ByteStrings
  import opened SnapshotTransfer
  import opened SnapshotLink
  import opened SnapshotPull

  // ----- What a lost chunk does -----

  /** The bytes of some chunks. */
  function Concat(chunks: seq<Chunk>): Bytes {
    if chunks == [] then [] else chunks[0].data + Concat(chunks[1..])
  }

  /** The rest of a transfer: only the last chunk is marked as such, and only it is empty. */
  ghost predicate Continues(chunks: seq<Chunk>) {
    && chunks != []
    && forall i :: 0 <= i < |chunks| ==>
         && !chunks[i].isFirst
         && (chunks[i].isLast <==> i == |chunks| - 1)
         && (chunks[i].data == [] <==> i == |chunks| - 1)
  }

  /** A transfer of something not empty: a first chunk, and the rest. */
  ghost predicate Transfer(chunks: seq<Chunk>) {
    chunks != [] && chunks[0].isFirst && !chunks[0].isLast && chunks[0].data != [] && Continues(chunks[1..])
  }

  lemma {:induction false} RestAssembles(base: Bytes, chunks: seq<Chunk>)
    requires Continues(chunks)
    ensures Assemble(Some(base), chunks) == (None, [base + Concat(chunks)])
    decreases |chunks|
  {
    var c, rest := chunks[0], chunks[1..];
    assert chunks == [c] + rest;
    if rest == [] {
      AssembleOne(Some(base), c);
      assert chunks == [c];
      assert Concat(chunks) == c.data + [] == c.data;
    } else {
      AssembleFirst(Some(base), c, rest);
      RestAssembles(base + c.data, rest);
      assert (base + c.data) + Concat(rest) == base + (c.data + Concat(rest));
    }
  }

  /** Whatever the receiver's buffer held, a transfer assembles to the bytes of its chunks. */
  lemma TransferAssembles(buffer: Option<Bytes>, chunks: seq<Chunk>)
    requires Transfer(chunks)
    ensures Assemble(buffer, chunks) == (None, [Concat(chunks)])
  {
    assert chunks == [chunks[0]] + chunks[1..];
    AssembleFirst(buffer, chunks[0], chunks[1..]);
    assert [] + chunks[0].data == chunks[0].data;
    RestAssembles(chunks[0].data, chunks[1..]);
  }

  lemma {:induction false} PullContinues(s: State, peer: Peer)
    requires s.batch > 0 && !s.serializing && peer in s.transmissions
    requires 0 < s.transmissions[peer].transmitted <= |s.transmissions[peer].data|
    ensures Continues(Pull(s, peer).1)
    decreases Left(s, peer)
  {
    GetOne(s, peer);
    var (next, chunk) := GetStep(s, peer);
    if !chunk.value.isLast {
      PullContinues(next, peer);
      assert Pull(s, peer).1 == [chunk.value] + Pull(next, peer).1;
    }
  }

  lemma PullIsTransfer(s: State, peer: Peer, data: Bytes)
    requires s.batch > 0 && !s.serializing && peer !in s.transmissions && s.memory == Some(data)
    requires |Pull(s, peer).1| > 1
    ensures Transfer(Pull(s, peer).1) && Concat(Pull(s, peer).1) == data
  {
    GetOne(s, peer);
    var (next, chunk) := GetStep(s, peer);
    PullContinues(next, peer);
    assert Pull(s, peer).1 == [chunk.value] + Pull(next, peer).1;
    assert Pull(s, peer).1[1..] == Pull(next, peer).1;
    TransferAssembles(None, Pull(s, peer).1);
    PullCompletes(s, peer, None);
    assert [Concat(Pull(s, peer).1)][0] == [data][0];
  }

  lemma {:induction false} ConcatJoin(a: seq<Chunk>, b: seq<Chunk>)
    ensures Concat(a + b) == Concat(a) + Concat(b)
    decreases |a|
  {
    if a == [] {
      assert a + b == b;
    } else {
      ConcatJoin(a[1..], b);
      assert (a + b)[1..] == a[1..] + b;
      assert a[0].data + (Concat(a[1..]) + Concat(b)) == (a[0].data + Concat(a[1..])) + Concat(b);
    }
  }

  /**
   * Why a broken link must cancel: for any snapshot and batch size, with any
   * one chunk between the first and the last lost, the rest still completes
   * something, and that is shorter by the bytes lost.
   */
  lemma LostChunkTearsSnapshot(s: State, peer: Peer, data: Bytes, buffer: Option<Bytes>, m: nat)
    requires s.batch > 0 && !s.serializing && peer !in s.transmissions && s.memory == Some(data)
    requires 0 < m < |Pull(s, peer).1| - 1
    ensures var chunks := Pull(s, peer).1;
            var torn := Concat(chunks[..m]) + Concat(chunks[m + 1..]);
            && data == Concat(chunks[..m]) + chunks[m].data + Concat(chunks[m + 1..])
            && |torn| == |data| - |chunks[m].data| < |data|
            && Assemble(buffer, chunks[..m] + chunks[m + 1..]) == (None, [torn])
  {
    PullIsTransfer(s, peer, data);
    WithoutChunk(Pull(s, peer).1, buffer, m);
  }

  /** A transfer that lacks one of its middle chunks. */
  lemma WithoutChunk(chunks: seq<Chunk>, buffer: Option<Bytes>, m: nat)
    requires Transfer(chunks) && 0 < m < |chunks| - 1
    ensures var torn := Concat(chunks[..m]) + Concat(chunks[m + 1..]);
            && Concat(chunks) == Concat(chunks[..m]) + chunks[m].data + Concat(chunks[m + 1..])
            && chunks[m].data != []
            && Assemble(buffer, chunks[..m] + chunks[m + 1..]) == (None, [torn])
  {
    var (head, tail) := (chunks[..m], chunks[m + 1..]);
    ConcatAround(head, chunks[m], tail);
    assert chunks == head + ([chunks[m]] + tail);
    assert chunks[m] == chunks[1..][m - 1];
    ConcatJoin(head, tail);
    Shortened(chunks, m);
    TransferAssembles(buffer, head + tail);
  }

  lemma ConcatAround(head: seq<Chunk>, c: Chunk, tail: seq<Chunk>)
    ensures Concat(head + ([c] + tail)) == Concat(head) + c.data + Concat(tail)
  {
    ConcatJoin(head, [c] + tail);
    assert ([c] + tail)[1..] == tail;
    assert Concat(head) + (c.data + Concat(tail)) == Concat(head) + c.data + Concat(tail);
  }

  lemma Shortened(chunks: seq<Chunk>, m: nat)
    requires Transfer(chunks) && 0 < m < |chunks| - 1
    ensures Transfer(chunks[..m] + chunks[m + 1..])
  {
    var rest := (chunks[..m] + chunks[m + 1..])[1..];
    forall i | 0 <= i < |rest|
      ensures rest[i] == chunks[1..][if i < m - 1 then i else i + 1]
    {
    }
  }

  // ----- Several senders -----

  /** A chunk and the sender it comes from. */
  datatype Arrival = Arrival(from: Peer, chunk: Chunk)

  function Chunks(arrivals: seq<Arrival>): seq<Chunk> {
    seq(|arrivals|, i requires 0 <= i < |arrivals| => arrivals[i].chunk)
  }

  /** The chunks of one sender. */
  function Own(arrivals: seq<Arrival>, peer: Peer): seq<Chunk>
    decreases |arrivals|
  {
    if arrivals == [] then []
    else
      var last := arrivals[|arrivals| - 1];
      Own(arrivals[..|arrivals| - 1], peer) + if last.from == peer then [last.chunk] else []
  }

  /** The receiver hears from another sender than before only with a first chunk. */
  ghost predicate ChangesAtFirst(arrivals: seq<Arrival>) {
    forall i :: 0 < i < |arrivals| && arrivals[i].from != arrivals[i - 1].from ==> arrivals[i].chunk.isFirst
  }

  /** What the receiver's buffer holds is what the last sender's chunks alone would have left there. */
  lemma {:induction false} LastSenderFills(arrivals: seq<Arrival>)
    requires ChangesAtFirst(arrivals) && arrivals != []
    ensures Assemble(None, Chunks(arrivals)).0 == Assemble(None, Own(arrivals, arrivals[|arrivals| - 1].from)).0
    ensures var before, last := arrivals[..|arrivals| - 1], arrivals[|arrivals| - 1];
            Absorb(Assemble(None, Own(before, last.from)).0, last.chunk) == Absorb(Assemble(None, Chunks(before)).0, last.chunk)
    decreases |arrivals|
  {
    var before, last := arrivals[..|arrivals| - 1], arrivals[|arrivals| - 1];
    assert Chunks(arrivals) == Chunks(before) + [last.chunk];
    AssembleJoin(None, Chunks(before), last.chunk);
    AssembleJoin(None, Own(before, last.from), last.chunk);
    if before == [] {
      assert Own(before, last.from) == Chunks(before) == [];
    } else {
      LastSenderFills(before);
      if before[|before| - 1].from != last.from {
        assert last.chunk.isFirst;
      }
    }
  }

  /** `whole` is completed by the chunks of one sender alone. */
  ghost predicate CompletedBy(arrivals: seq<Arrival>, peer: Peer, whole: Bytes) {
    whole in Assemble(None, Own(arrivals, peer)).1
  }

  lemma CompletedStays(arrivals: seq<Arrival>, peer: Peer, whole: Bytes)
    requires arrivals != [] && CompletedBy(arrivals[..|arrivals| - 1], peer, whole)
    ensures CompletedBy(arrivals, peer, whole)
  {
    var before, last := arrivals[..|arrivals| - 1], arrivals[|arrivals| - 1];
    if last.from == peer {
      AssembleJoin(None, Own(before, peer), last.chunk);
    } else {
      assert Own(before, peer) + [] == Own(before, peer);
    }
  }

  lemma {:induction false} CompletedAlone(arrivals: seq<Arrival>, whole: Bytes) returns (peer: Peer)
    requires ChangesAtFirst(arrivals) && whole in Assemble(None, Chunks(arrivals)).1
    ensures CompletedBy(arrivals, peer, whole)
    decreases |arrivals|
  {
    assert Chunks(arrivals) != [];
    var before, last := arrivals[..|arrivals| - 1], arrivals[|arrivals| - 1];
    assert Chunks(arrivals) == Chunks(before) + [last.chunk];
    AssembleJoin(None, Chunks(before), last.chunk);
    if whole in Assemble(None, Chunks(before)).1 {
      peer := CompletedAlone(before, whole);
      CompletedStays(arrivals, peer, whole);
    } else {
      peer := last.from;
      LastSenderFills(arrivals);
      AssembleJoin(None, Own(before, peer), last.chunk);
    }
  }

  /** A sender's own link to the receiver, and what happened on it. */
  datatype LinkRun = LinkRun(start: Link, actions: seq<Action>)

  function EndOf(run: LinkRun): Link {
    Acts(run.start, run.actions)
  }

  /** Every arrival came over its sender's link, in order. */
  ghost predicate ComeOver(arrivals: seq<Arrival>, runs: map<Peer, LinkRun>) {
    && (forall peer :: peer in runs ==>
          LinkInit(runs[peer].start) && runs[peer].start.sender.batch > 0
          && Own(arrivals, peer) == EndOf(runs[peer]).arrived)
    && (forall i :: 0 <= i < |arrivals| ==> arrivals[i].from in runs)
  }

  lemma {:induction false} OthersSendNothing(arrivals: seq<Arrival>, peer: Peer)
    requires forall i :: 0 <= i < |arrivals| ==> arrivals[i].from != peer
    ensures Own(arrivals, peer) == []
    decreases |arrivals|
  {
    if arrivals != [] {
      OthersSendNothing(arrivals[..|arrivals| - 1], peer);
    }
  }

  /**
   * Several senders, each on a link of its own with all that may happen there,
   * tear nothing as long as each takes over from another only with a first
   * chunk: whatever the receiver completes one of them held whole.
   */
  lemma SendersCannotTear(arrivals: seq<Arrival>, runs: map<Peer, LinkRun>, whole: Bytes)
    requires ChangesAtFirst(arrivals) && ComeOver(arrivals, runs)
    requires whole in Assemble(None, Chunks(arrivals)).1
    ensures exists peer :: peer in runs && whole in EndOf(runs[peer]).held
  {
    var peer := CompletedAlone(arrivals, whole);
    if peer !in runs {
      OthersSendNothing(arrivals, peer);
    }
    assert peer in runs;
    ArrivedCompletesHeld(runs[peer].start, runs[peer].actions);
  }

  // ----- Resuming in the middle -----

  /**
   * A sender goes on in the middle of a transmission while the receiver's
   * buffer holds `x`: what is completed is `x` and the bytes not yet sent. It
   * is the sender's snapshot if and only if `x` is what it had sent.
   */
  lemma ResumeCompletes(s: State, peer: Peer, x: Bytes)
    requires s.batch > 0 && !s.serializing && peer in s.transmissions
    requires 0 < s.transmissions[peer].transmitted <= |s.transmissions[peer].data|
    ensures var t := s.transmissions[peer];
            && Assemble(Some(x), Pull(s, peer).1) == (None, [x + t.data[t.transmitted..]])
            && (Assemble(Some(x), Pull(s, peer).1) == (None, [t.data]) <==> x == t.data[..t.transmitted])
  {
    var t := s.transmissions[peer];
    var (sent, rest) := (t.data[..t.transmitted], t.data[t.transmitted..]);
    var chunks := Pull(s, peer).1;
    PullContinues(s, peer);
    RestAssembles(x, chunks);
    RestAssembles(sent, chunks);
    PullCompletes(s, peer, Some(sent));
    assert sent + rest == t.data;
    assert [sent + Concat(chunks)][0] == [t.data][0];
    SameTail(sent, Concat(chunks), rest);
    SameHead(x, sent, rest);
    assert [x + rest] == [t.data] <==> x + rest == t.data by {
      assert [x + rest][0] == x + rest && [t.data][0] == t.data;
    }
  }

  lemma SameTail(head: Bytes, a: Bytes, b: Bytes)
    requires head + a == head + b
    ensures a == b
  {
    assert (head + a)[|head|..] == a && (head + b)[|head|..] == b;
  }

  lemma SameHead(a: Bytes, b: Bytes, tail: Bytes)
    ensures a + tail == b + tail <==> a == b
  {
    if a + tail == b + tail {
      assert |a| == |b|;
      assert (a + tail)[..|a|] == a && (b + tail)[..|b|] == b;
    }
  }

  /** What the first j chunks of a fresh transfer leave in the receiver's buffer. */
  lemma BegunLeaves(s: State, peer: Peer, data: Bytes, buffer: Option<Bytes>, j: nat)
    requires s.batch > 0 && !s.serializing && peer !in s.transmissions && s.memory == Some(data)
    requires 0 < j < |Pull(s, peer).1|
    ensures var x := Concat(Pull(s, peer).1[..j]);
            && Assemble(buffer, Pull(s, peer).1[..j]) == (Some(x), [])
            && x != [] && x <= data
  {
    PullIsTransfer(s, peer, data);
    BegunAssembles(Pull(s, peer).1, buffer, j);
  }

  lemma BegunAssembles(chunks: seq<Chunk>, buffer: Option<Bytes>, j: nat)
    requires Transfer(chunks) && 0 < j < |chunks|
    ensures Assemble(buffer, chunks[..j]) == (Some(Concat(chunks[..j])), [])
    ensures Concat(chunks[..j]) != [] && Concat(chunks[..j]) <= Concat(chunks)
  {
    var (first, middle) := (chunks[0], chunks[1..][..j - 1]);
    assert chunks[..j] == [first] + middle && ([first] + middle)[1..] == middle;
    AssembleFirst(buffer, first, middle);
    assert [] + first.data == first.data;
    MiddleLeaves(first.data, chunks[1..], j - 1);
    assert chunks == chunks[..j] + chunks[j..];
    ConcatJoin(chunks[..j], chunks[j..]);
  }

  lemma {:induction false} MiddleLeaves(base: Bytes, chunks: seq<Chunk>, j: nat)
    requires Continues(chunks) && j < |chunks|
    ensures Assemble(Some(base), chunks[..j]) == (Some(base + Concat(chunks[..j])), [])
    decreases j
  {
    if j == 0 {
      assert chunks[..0] == [] && base + [] == base;
    } else {
      var (before, c) := (chunks[..j - 1], chunks[j - 1]);
      assert chunks[..j] == before + [c];
      MiddleLeaves(base, chunks, j - 1);
      AssembleJoin(Some(base), before, c);
      ConcatJoin(before, [c]);
      assert Concat([c]) == c.data + [] == c.data;
      assert (base + Concat(before)) + c.data == base + (Concat(before) + c.data);
      var none: seq<Bytes> := [];
      assert none + none == none;
    }
  }

  lemma {:induction false} AssembleAppend(incoming: Option<Bytes>, a: seq<Chunk>, b: seq<Chunk>)
    ensures var (middle, first) := Assemble(incoming, a);
            var (last, more) := Assemble(middle, b);
            Assemble(incoming, a + b) == (last, first + more)
    decreases |a|
  {
    if a == [] {
      assert a + b == b && [] + Assemble(incoming, b).1 == Assemble(incoming, b).1;
    } else {
      var (next, whole) := Absorb(incoming, a[0]);
      AssembleAppend(next, a[1..], b);
      assert (a + b)[1..] == a[1..] + b;
      var (middle, first) := Assemble(next, a[1..]);
      var more := Assemble(middle, b).1;
      assert Listed(whole) + (first + more) == (Listed(whole) + first) + more;
    }
  }

  /**
   * Sender `a` resumes in the middle after sender `b` has begun a transfer on
   * the same receiver: whatever was buffered before, what is completed is the
   * start of `b`'s snapshot followed by the rest of `a`'s. That is `a`'s
   * snapshot if and only if the two agree on all `a` had sent, and `b` had
   * sent just as much.
   */
  lemma ResumedSenderTears(a: State, b: State, peer: Peer, other: Bytes, buffer: Option<Bytes>, j: nat)
    requires a.batch > 0 && !a.serializing && peer in a.transmissions
    requires 0 < a.transmissions[peer].transmitted <= |a.transmissions[peer].data|
    requires b.batch > 0 && !b.serializing && peer !in b.transmissions && b.memory == Some(other)
    requires 0 < j < |Pull(b, peer).1|
    ensures var t := a.transmissions[peer];
            var x := Concat(Pull(b, peer).1[..j]);
            var done := Assemble(buffer, Pull(b, peer).1[..j] + Pull(a, peer).1);
            && x != [] && x <= other
            && done == (None, [x + t.data[t.transmitted..]])
            && (done == (None, [t.data]) <==> |x| == t.transmitted && x <= t.data)
  {
    var t := a.transmissions[peer];
    var begun := Pull(b, peer).1[..j];
    var x := Concat(begun);
    BegunLeaves(b, peer, other, buffer, j);
    ResumeCompletes(a, peer, x);
    AssembleAppend(buffer, begun, Pull(a, peer).1);
    assert [] + [x + t.data[t.transmitted..]] == [x + t.data[t.transmitted..]];
    assert [] + [t.data] == [t.data];
    assert x == t.data[..t.transmitted] <==> |x| == t.transmitted && x <= t.data;
  }
}
