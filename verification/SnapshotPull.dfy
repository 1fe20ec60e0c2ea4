/** One uninterrupted transfer of a snapshot. */
module SnapshotPull {
  import opened Options
  import opened ByteStrings
  import opened SnapshotTransfer

  /** What is still to be sent to a peer. */
  function Left(s: State, peer: Peer): nat {
    if peer in s.transmissions then
      var t := s.transmissions[peer];
      if t.transmitted < |t.data| then |t.data| - t.transmitted else 0
    else if s.memory.Some? then |s.memory.value| else 0
  }

  /** Asks for chunks until the last one (or None) comes. */
  function Pull(s: State, peer: Peer): (State, seq<Chunk>)
    decreases Left(s, peer)
  {
    var (next, chunk) := GetStep(s, peer);
    if chunk.None? then (next, [])
    else if chunk.value.isLast then (next, [chunk.value])
    else
      var (end, chunks) := Pull(next, peer);
      (end, [chunk.value] + chunks)
  }

  /** k is left / batch, rounded up. */
  ghost predicate RoundedUp(k: int, left: nat, batch: int) {
    (k - 1) * batch < left <= k * batch
  }

  /** What is being sent to a peer, a fresh transmission included. */
  function Current(s: State, peer: Peer): Transmission
    requires peer in s.transmissions || s.memory.Some?
  {
    if peer in s.transmissions then s.transmissions[peer] else Transmission(0, s.memory.value)
  }

  /** One chunk asked for: either the last and empty one, or a full batch or all that is left. */
  lemma GetOne(s: State, peer: Peer)
    requires s.batch > 0 && !s.serializing
    requires peer in s.transmissions || s.memory.Some?
    requires Current(s, peer).transmitted <= |Current(s, peer).data|
    ensures var t := Current(s, peer);
            var (next, chunk) := GetStep(s, peer);
            && chunk == Some(ChunkOf(t, s.batch))
            && |chunk.value.data| == (if s.batch < Left(s, peer) then s.batch else Left(s, peer))
            && (if chunk.value.isLast then next == s.(transmissions := s.transmissions - {peer}) && Left(s, peer) == 0
                else next == s.(transmissions := next.transmissions)
                     && next.transmissions - {peer} == s.transmissions - {peer}
                     && peer in next.transmissions
                     && next.transmissions[peer] == t.(transmitted := t.transmitted + |chunk.value.data|)
                     && Left(next, peer) == Left(s, peer) - |chunk.value.data|)
  {
  }

  /** From the middle of a transfer: the rest completes the snapshot and leaves no trace at the sender. */
  lemma {:induction false} PullCompletes(s: State, peer: Peer, buffer: Option<Bytes>)
    requires s.batch > 0 && !s.serializing
    requires peer in s.transmissions || s.memory.Some?
    requires peer in s.transmissions ==> s.transmissions[peer].transmitted > 0 && Expected(s.transmissions[peer], buffer)
    ensures Assemble(buffer, Pull(s, peer).1) == (None, [Current(s, peer).data])
    ensures Pull(s, peer).0 == s.(transmissions := s.transmissions - {peer})
    decreases Left(s, peer)
  {
    var t := Current(s, peer);
    var c := ChunkOf(t, s.batch);
    GetOne(s, peer);
    NextChunk(t, s.batch, buffer);
    if c.isLast {
      AssembleOne(buffer, c);
    } else {
      var next := GetStep(s, peer).0;
      PullCompletes(next, peer, Absorb(buffer, c).0);
      AssembleFirst(buffer, c, Pull(next, peer).1);
    }
  }

  /** It comes in left / batch chunks, rounded up, and then an empty one. */
  lemma {:induction false} PullCount(s: State, peer: Peer)
    requires s.batch > 0 && !s.serializing
    requires peer in s.transmissions || s.memory.Some?
    requires Current(s, peer).transmitted <= |Current(s, peer).data|
    ensures RoundedUp(|Pull(s, peer).1| - 1, Left(s, peer), s.batch)
    decreases Left(s, peer)
  {
    GetOne(s, peer);
    if Left(s, peer) > 0 {
      var next := GetStep(s, peer).0;
      PullCount(next, peer);
      var k := |Pull(next, peer).1| - 1;
      assert |Pull(s, peer).1| - 1 == k + 1;
      assert k * s.batch + s.batch == (k + 1) * s.batch;
      assert (k - 1) * s.batch + s.batch == k * s.batch;
      if Left(s, peer) <= s.batch {
        assert Left(next, peer) == 0;
        assert k == 0 by {
          assert k * s.batch >= 0 > (k - 1) * s.batch;
        }
      }
    }
  }

  /** With a batch that is not positive no chunk ever reaches the end of the data. */
  lemma {:induction false} PullStopsShort(s: State, peer: Peer, buffer: Option<Bytes>, data: Bytes)
    requires s.batch <= 0 && !s.serializing && data != []
    requires if peer in s.transmissions
             then s.transmissions[peer].data == data && 0 < s.transmissions[peer].transmitted < |data|
                  && Expected(s.transmissions[peer], buffer)
             else s.memory == Some(data)
    ensures var (last, whole) := Assemble(buffer, Pull(s, peer).1);
            last == None && |whole| == 1 && |whole[0]| < |data|
    decreases Left(s, peer)
  {
    var t := if peer in s.transmissions then s.transmissions[peer] else Transmission(0, data);
    var c := ChunkOf(t, s.batch);
    var next := GetStep(s, peer).0;
    var base: Bytes := if t.transmitted == 0 then [] else t.data[..t.transmitted];
    if c.isLast {
      AssembleOne(buffer, c);
    } else {
      assert base == data[..t.transmitted];
      assert base + c.data == data[..t.transmitted + |c.data|];
      PullStopsShort(next, peer, Absorb(buffer, c).0, data);
      AssembleFirst(buffer, c, Pull(next, peer).1);
    }
  }

  /**
   * A transfer asked for without interruption completes exactly the sender's
   * snapshot, whatever the receiver's buffer held, if and only if the batch
   * size is positive or there is nothing to send.
   */
  lemma TransferIsExactIff(s: State, peer: Peer, data: Bytes, buffer: Option<Bytes>)
    requires !s.serializing && peer !in s.transmissions && s.memory == Some(data)
    ensures Assemble(buffer, Pull(s, peer).1) == (None, [data]) <==> s.batch > 0 || data == []
    ensures s.batch > 0 ==> RoundedUp(|Pull(s, peer).1| - 1, |data|, s.batch)
  {
    if s.batch > 0 {
      PullCompletes(s, peer, buffer);
      PullCount(s, peer);
    } else if data == [] {
      var c := ChunkOf(Transmission(0, data), s.batch);
      assert [] + c.data == data;
      AssembleOne(buffer, c);
      assert Pull(s, peer).1 == [c];
    } else {
      PullStopsShort(s, peer, buffer, data);
    }
  }
}
