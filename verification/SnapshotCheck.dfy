/** What a successful check changes, and what it reports (pysyncobj/serializer.py, checkSerializing). */
module SnapshotCheck {
  import opened Options
  import opened ByteStrings
  import opened SnapshotTransfer
  import opened SnapshotLink

  // ----- After a check that reports Success -----

  /** The first bytes of a string, as a batch of at least one takes them. */
  function FirstBatch(data: Bytes, batch: int): Bytes
    requires batch > 0
  {
    if batch < |data| then data[..batch] else data
  }

  /** The next chunk for any peer, whatever it was being sent before, is the first one of the snapshot now held. */
  lemma NextChunkIsFirst(s: State, peer: Peer)
    requires CheckStep(s).1.Success?
    ensures var (chunk, memory) := (GetStep(CheckStep(s).0, peer).1, s.memory);
            if memory.None? then chunk == None
            else && chunk.Some? && chunk.value.isFirst
                 && (s.batch > 0 ==> chunk.value.data == FirstBatch(memory.value, s.batch))
                 && (s.batch > 0 ==> (chunk.value.isLast <==> memory.value == []))
  {
  }

  /** While serialising, nobody is sent anything. */
  lemma NothingWhileSerializing(s: State, peer: Peer)
    requires s.serializing
    ensures GetStep(s, peer) == (s, None)
  {
  }

  /** Every transmission of the sender is of a string in `since`. */
  ghost predicate OnlyFrom(s: State, since: set<Bytes>) {
    && (s.memory.Some? ==> s.memory.value in since)
    && forall p :: p in s.transmissions ==> s.transmissions[p].data in since
  }

  /** The link right after a check, its history of held snapshots begun anew. */
  function Since(l: Link): Link {
    l.(held := if l.sender.memory.Some? then {l.sender.memory.value} else {})
  }

  lemma ActKeepsOnlyFrom(l: Link, a: Action)
    requires OnlyFrom(l.sender, l.held)
    ensures OnlyFrom(Act(l, a).sender, Act(l, a).held)
  {
  }

  /**
   * After a check that reports Success no later chunk comes of a transmission
   * begun before: whatever happens on the link, each chunk the sender gives
   * out is one of a snapshot it has held since.
   */
  lemma {:induction false} NoStaleChunk(l: Link, actions: seq<Action>, peer: Peer)
    requires CheckStep(l.sender).1.Success?
    ensures var m := Acts(Since(Act(l, SenderChecks)), actions);
            && OnlyFrom(m.sender, m.held)
            && var chunk := GetStep(m.sender, peer).1;
               chunk.Some? ==> exists t: Transmission :: t.data in m.held && chunk == Some(ChunkOf(t, m.sender.batch))
    decreases |actions|
  {
    var m := Acts(Since(Act(l, SenderChecks)), actions);
    if actions != [] {
      NoStaleChunk(l, actions[..|actions| - 1], peer);
      ActKeepsOnlyFrom(Acts(Since(Act(l, SenderChecks)), actions[..|actions| - 1]), actions[|actions| - 1]);
    }
    assert OnlyFrom(m.sender, m.held);
    if GetStep(m.sender, peer).1.Some? {
      var t := if peer in m.sender.transmissions then m.sender.transmissions[peer]
               else Transmission(0, m.sender.memory.value);
      assert t.data in m.held && GetStep(m.sender, peer).1 == Some(ChunkOf(t, m.sender.batch));
    }
  }

  // ----- Cancelling and receiving -----

  /** A cancelled peer starts afresh with the snapshot held; the others go on as they were. */
  lemma CancelStartsAfresh(s: State, peer: Peer, other: Peer)
    requires !s.serializing
    ensures var chunk := GetStep(CancelStep(s, peer), peer).1;
            if s.memory.None? then chunk == None
            else chunk == Some(ChunkOf(Transmission(0, s.memory.value), s.batch)) && chunk.value.isFirst
    ensures other != peer ==> GetStep(CancelStep(s, peer), other).1 == GetStep(s, other).1
  {
  }

  /**
   * A snapshot is completed exactly by a last chunk with a beginning; nothing
   * else changes what is held, and a chunk without a beginning changes nothing.
   */
  lemma OnlyLastChunksComplete(s: State, chunk: Option<Chunk>)
    ensures SetStep(s, chunk).1 <==> chunk.Some? && chunk.value.isLast && (chunk.value.isFirst || s.incoming.Some?)
    ensures !SetStep(s, chunk).1 ==> SetStep(s, chunk).0.memory == s.memory
    ensures SetStep(s, chunk).1 ==>
              SetStep(s, chunk).0 ==
                s.(incoming := None,
                   memory := Some((if chunk.value.isFirst then [] else s.incoming.value) + chunk.value.data))
    ensures chunk.None? || (!chunk.value.isFirst && s.incoming.None?) ==> SetStep(s, chunk) == (s, false)
  {
  }

  // ----- What is reported -----

  datatype Call =
    | Serialize(data: Bytes, id: int)
    | Check
    | Get(peer: Peer)
    | Set(chunk: Option<Chunk>)
    | Cancel(peer: Peer)

  function Called(s: State, c: Call): State {
    match c
    case Serialize(data, id) => SerializeStep(s, data, id)
    case Check => CheckStep(s).0
    case Get(peer) => GetStep(s, peer).0
    case Set(chunk) => SetStep(s, chunk).0
    case Cancel(peer) => CancelStep(s, peer)
  }

  function AfterCalls(s: State, calls: seq<Call>): State
    decreases |calls|
  {
    if calls == [] then s else Called(AfterCalls(s, calls[..|calls| - 1]), calls[|calls| - 1])
  }

  /** The ids that checks have reported as successes. */
  function Reported(s: State, calls: seq<Call>): seq<int>
    decreases |calls|
  {
    if calls == [] then []
    else
      var (before, last) := (calls[..|calls| - 1], calls[|calls| - 1]);
      var progress := CheckStep(AfterCalls(s, before)).1;
      Reported(s, before) + if last == Check && progress.Success? then [progress.id] else []
  }

  /** Told from the calls alone: a Serialize has come since the last Check. */
  predicate Pending(calls: seq<Call>)
    decreases |calls|
  {
    calls != []
    && var last := calls[|calls| - 1];
       (last.Serialize? || (!last.Check? && Pending(calls[..|calls| - 1])))
  }

  /** The ids of the Serializes that were not ignored: those that came with none pending. */
  function Taken(calls: seq<Call>): seq<int>
    decreases |calls|
  {
    if calls == [] then []
    else
      var (before, last) := (calls[..|calls| - 1], calls[|calls| - 1]);
      Taken(before) + if last.Serialize? && !Pending(before) then [last.id] else []
  }

  /** The snapshot of the last Serialize that was not ignored, or None. */
  function LastTaken(calls: seq<Call>): Option<Bytes>
    decreases |calls|
  {
    if calls == [] then None
    else
      var (before, last) := (calls[..|calls| - 1], calls[|calls| - 1]);
      if last.Serialize? && !Pending(before) then Some(last.data) else LastTaken(before)
  }

  lemma {:induction false} PendingIffSerializing(s: State, calls: seq<Call>)
    requires !s.serializing
    ensures AfterCalls(s, calls).serializing <==> Pending(calls)
    decreases |calls|
  {
    if calls != [] {
      PendingIffSerializing(s, calls[..|calls| - 1]);
    }
  }

  /**
   * Success is reported exactly once for each Serialize that was not ignored,
   * in order and with its id; only the last one may be still to be reported.
   */
  lemma {:induction false} EachSerializeIsReportedOnce(s: State, calls: seq<Call>)
    requires !s.serializing
    ensures Pending(calls) ==> Taken(calls) != [] && AfterCalls(s, calls).currentId == Taken(calls)[|Taken(calls)| - 1]
    ensures Taken(calls) == Reported(s, calls) + if Pending(calls) then [AfterCalls(s, calls).currentId] else []
    decreases |calls|
  {
    if calls != [] {
      var (before, last) := (calls[..|calls| - 1], calls[|calls| - 1]);
      EachSerializeIsReportedOnce(s, before);
      PendingIffSerializing(s, before);
      var r := Reported(s, before);
      assert r + [] == r && Taken(before) + [] == Taken(before);
    }
  }

  /** Without chunks received, the snapshot held is that of the last Serialize that was not ignored. */
  lemma {:induction false} HeldIsLastTaken(s: State, calls: seq<Call>)
    requires !s.serializing && s.memory == None
    requires forall i :: 0 <= i < |calls| ==> !calls[i].Set?
    ensures AfterCalls(s, calls).memory == LastTaken(calls)
    decreases |calls|
  {
    if calls != [] {
      var (before, last) := (calls[..|calls| - 1], calls[|calls| - 1]);
      assert !last.Set?;
      HeldIsLastTaken(s, before);
      PendingIffSerializing(s, before);
    }
  }
}
