/** Snapshots sent in chunks: the in-memory branches of the Serializer (pysyncobj/serializer.py). */
module SnapshotTransfer {
  import opened Options
  import opened ByteStrings

  /** A node address, used as transmission id. */
  type Peer = int

  datatype Chunk = Chunk(data: Bytes, isFirst: bool, isLast: bool)

  datatype Transmission = Transmission(transmitted: nat, data: Bytes)

  datatype Progress = NotSerializing | Success(id: int)

  /** `serializing` is pid == -1; the in-memory case knows no other pid but 0. */
  datatype State = State(
    batch: int,
    serializing: bool,
    currentId: int,
    transmissions: map<Peer, Transmission>,
    incoming: Option<Bytes>,
    memory: Option<Bytes>)

  function CheckStep(s: State): (State, Progress) {
    if s.serializing then (s.(serializing := false, transmissions := map[]), Success(s.currentId))
    else (s, NotSerializing)
  }

  /** The data is taken as already pickled and compressed. */
  function SerializeStep(s: State, data: Bytes, id: int): State {
    if s.serializing then s else s.(currentId := id, memory := Some(data), serializing := true)
  }

  function ChunkOf(t: Transmission, batch: int): Chunk {
    var data := Slice(t.data, t.transmitted, t.transmitted + batch);
    Chunk(data, t.transmitted == 0, data == [])
  }

  /** getTransmissionData: None while serializing, or when there is nothing to send. */
  function GetStep(s: State, peer: Peer): (State, Option<Chunk>) {
    if s.serializing then (s, None)
    else if peer !in s.transmissions && s.memory.None? then (s, None)
    else
      var t := if peer in s.transmissions then s.transmissions[peer] else Transmission(0, s.memory.value);
      var c := ChunkOf(t, s.batch);
      if c.isLast then (s.(transmissions := s.transmissions - {peer}), Some(c))
      else (s.(transmissions := s.transmissions[peer := t.(transmitted := t.transmitted + |c.data|)]), Some(c))
  }

  /** What the incoming buffer becomes, and the bytes completed, when a chunk arrives. */
  function Absorb(incoming: Option<Bytes>, c: Chunk): (Option<Bytes>, Option<Bytes>) {
    var base := if c.isFirst then Some([]) else incoming;
    if base.None? then (None, None)
    else if c.isLast then (None, Some(base.value + c.data))
    else (Some(base.value + c.data), None)
  }

  function SetStep(s: State, chunk: Option<Chunk>): (State, bool) {
    if chunk.None? then (s, false)
    else
      var (incoming, whole) := Absorb(s.incoming, chunk.value);
      (s.(incoming := incoming, memory := if whole.Some? then whole else s.memory), whole.Some?)
  }

  function CancelStep(s: State, peer: Peer): State {
    s.(transmissions := s.transmissions - {peer})
  }

  class Serializer {
    const batch: int
    var serializing: bool
    var currentId: int
    var transmissions: map<Peer, Transmission>
    var incoming: Option<Bytes>
    var memory: Option<Bytes>

    function View(): State
      reads this
    {
      State(batch, serializing, currentId, transmissions, incoming, memory)
    }

    constructor (batch: int)
      ensures View() == State(batch, false, 0, map[], None, None)
    {
      this.batch := batch;
      serializing, currentId, transmissions, incoming, memory := false, 0, map[], None, None;
    }

    method CheckSerializing() returns (progress: Progress)
      modifies this
      ensures (View(), progress) == CheckStep(old(View()))
    {
      progress := NotSerializing;
      if serializing {
        serializing := false;
        transmissions := map[];
        progress := Success(currentId);
      }
    }

    method Serialize(data: Bytes, id: int)
      modifies this
      ensures View() == SerializeStep(old(View()), data, id)
    {
      if !serializing {
        currentId := id;
        memory := Some(data);
        serializing := true;
      }
    }

    method GetTransmissionData(peer: Peer) returns (chunk: Option<Chunk>)
      modifies this
      ensures (View(), chunk) == GetStep(old(View()), peer)
    {
      if serializing {
        return None;
      }
      if peer !in transmissions {
        if memory.None? {
          return None;
        }
        transmissions := transmissions[peer := Transmission(0, memory.value)];
      }
      var t := transmissions[peer];
      var data := Slice(t.data, t.transmitted, t.transmitted + batch);
      transmissions := transmissions[peer := t.(transmitted := t.transmitted + |data|)];
      var isLast := |data| == 0;
      if isLast {
        transmissions := transmissions - {peer};
        assert transmissions == old(transmissions) - {peer};
      } else {
        assert transmissions == old(transmissions)[peer := t.(transmitted := t.transmitted + |data|)];
      }
      chunk := Some(Chunk(data, t.transmitted == 0, isLast));
    }

    method SetTransmissionData(chunk: Option<Chunk>) returns (whole: bool)
      modifies this
      ensures (View(), whole) == SetStep(old(View()), chunk)
    {
      if chunk.None? {
        return false;
      }
      if chunk.value.isFirst {
        incoming := Some([]);
      } else if incoming.None? {
        return false;
      }
      incoming := Some(incoming.value + chunk.value.data);
      if chunk.value.isLast {
        memory := incoming;
        incoming := None;
        return true;
      }
      whole := false;
    }

    method CancelTransmission(peer: Peer)
      modifies this
      ensures View() == CancelStep(old(View()), peer)
    {
      transmissions := transmissions - {peer};
    }
  }

  // ----- Assembling chunks -----

  function Listed(b: Option<Bytes>): seq<Bytes> {
    if b.Some? then [b.value] else []
  }

  /** The incoming buffer after all chunks in flight, and everything they complete. */
  function Assemble(incoming: Option<Bytes>, chunks: seq<Chunk>): (Option<Bytes>, seq<Bytes>)
    decreases |chunks|
  {
    if chunks == [] then (incoming, [])
    else
      var (next, whole) := Absorb(incoming, chunks[0]);
      var (last, more) := Assemble(next, chunks[1..]);
      (last, Listed(whole) + more)
  }

  lemma {:induction false} AssembleJoin(incoming: Option<Bytes>, chunks: seq<Chunk>, c: Chunk)
    ensures var (middle, whole) := Assemble(incoming, chunks);
            var (last, more) := Absorb(middle, c);
            Assemble(incoming, chunks + [c]) == (last, whole + Listed(more))
    decreases |chunks|
  {
    if chunks == [] {
      assert chunks + [c] == [c];
      var (next, more) := Absorb(incoming, c);
      assert Assemble(next, [c][1..]) == (next, []);
      assert Listed(more) + [] == [] + Listed(more);
    } else {
      var (next, first) := Absorb(incoming, chunks[0]);
      AssembleJoin(next, chunks[1..], c);
      assert (chunks + [c])[1..] == chunks[1..] + [c];
      var (middle, whole) := Assemble(next, chunks[1..]);
      var more := Absorb(middle, c).1;
      assert Listed(first) + (whole + Listed(more)) == (Listed(first) + whole) + Listed(more);
    }
  }

  /** The buffer is what has been transmitted. */
  ghost predicate Expected(t: Transmission, buffer: Option<Bytes>) {
    t.transmitted <= |t.data| && buffer == Some(t.data[..t.transmitted])
  }

  /** One chunk more of a transmission: first, last or in between. */
  lemma NextChunk(t: Transmission, batch: int, buffer: Option<Bytes>)
    requires batch > 0 && t.transmitted <= |t.data|
    requires t.transmitted > 0 ==> buffer == Some(t.data[..t.transmitted])
    ensures var c := ChunkOf(t, batch);
            if c.isLast then Absorb(buffer, c) == (None, Some(t.data))
            else c.data != [] && t.transmitted + |c.data| <= |t.data|
                 && Absorb(buffer, c) == (Some(t.data[..t.transmitted + |c.data|]), None)
  {
    var c := ChunkOf(t, batch);
    var base: Bytes := if t.transmitted == 0 then [] else t.data[..t.transmitted];
    assert base == t.data[..t.transmitted];
    assert c.data == t.data[t.transmitted..t.transmitted + |c.data|];
    assert base + c.data == t.data[..t.transmitted + |c.data|];
    if c.isLast {
      assert t.transmitted == |t.data|;
      assert t.data[..|t.data|] == t.data;
    }
  }

  /** What a first chunk does to the assembly of the others. */
  lemma AssembleFirst(incoming: Option<Bytes>, c: Chunk, chunks: seq<Chunk>)
    ensures var (next, whole) := Absorb(incoming, c);
            var (last, more) := Assemble(next, chunks);
            Assemble(incoming, [c] + chunks) == (last, if whole.Some? then [whole.value] + more else more)
  {
    assert ([c] + chunks)[1..] == chunks;
    assert [] + Assemble(Absorb(incoming, c).0, chunks).1 == Assemble(Absorb(incoming, c).0, chunks).1;
  }

  lemma AssembleOne(incoming: Option<Bytes>, c: Chunk)
    ensures Assemble(incoming, [c]) == (Absorb(incoming, c).0, Listed(Absorb(incoming, c).1))
  {
    AssembleFirst(incoming, c, []);
    assert [c] + [] == [c];
    var (next, whole) := Absorb(incoming, c);
    assert Assemble(next, []) == (next, []);
    assert whole.Some? ==> [whole.value] + [] == [whole.value];
  }
}
