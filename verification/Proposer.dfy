/** The Proposer role (paxos/composable_paxos.py, class Proposer). */
module ProposerRole {
  import opened Options
  import opened Sets
  import opened Ballots

  /**
   * The fields of a Proposer. `promises` and `nacks` are None until the first
   * call of prepare(). The two cached messages are never read by the deployed
   * server and are left out.
   */
  datatype ProposerState = ProposerState(
    uid: Uid,
    quorumSize: nat,
    leader: bool,
    proposedValue: Option<Value>,
    proposalId: ProposalId,
    highestProposalId: ProposalId,
    highestAcceptedId: Option<ProposalId>,
    promises: Option<set<Uid>>,
    nacks: Option<set<Uid>>)

  /** What a call returns: nothing, a Prepare, an Accept, or an uncaught Python exception. */
  datatype ProposerReply =
    | Quiet
    | SendPrepare(id: ProposalId)
    | SendAccept(id: ProposalId, value: Value)
    | Raised

  function FreshProposer(uid: Uid, quorumSize: nat): ProposerState {
    ProposerState(uid, quorumSize, false, None, ProposalId(0, uid), ProposalId(0, uid), None, None, None)
  }

  function ProposeValueStep(p: ProposerState, value: Value): (ProposerState, ProposerReply) {
    if p.proposedValue.Some? then (p, Quiet)
    else (p.(proposedValue := Some(value)),
          if p.leader then SendAccept(p.proposalId, value) else Quiet)
  }

  function PrepareStep(p: ProposerState): ProposerState {
    var id := ProposalId(p.highestProposalId.number + 1, p.uid);
    p.(leader := false, promises := Some({}), nacks := Some({}), proposalId := id, highestProposalId := id)
  }

  /** The observed id may be None: a Nack can carry an unset promise. */
  function ObserveStep(p: ProposerState, id: Option<ProposalId>): ProposerState {
    if Below(Some(p.highestProposalId), id) then p.(highestProposalId := id.value) else p
  }

  function NackStep(p: ProposerState, from: Uid, id: ProposalId, promisedId: Option<ProposalId>)
    : (ProposerState, ProposerReply)
  {
    var observed := ObserveStep(p, promisedId);
    if id == observed.proposalId && observed.nacks.Some? then
      var counted := observed.(nacks := Some(observed.nacks.value + {from}));
      if |counted.nacks.value| == counted.quorumSize then
        var prepared := PrepareStep(counted);
        (prepared, SendPrepare(prepared.proposalId))
      else (counted, Quiet)
    else (observed, Quiet)
  }

  /** True when a Promise passes the guards of receive_promise and is counted. */
  predicate Counts(p: ProposerState, from: Uid, id: ProposalId) {
    !p.leader && id == p.proposalId && p.promises.Some? && from !in p.promises.value
  }

  /** The value and id a counted Promise leaves behind: adopted only when its accepted id is higher. */
  function Adopt(p: ProposerState, lastId: Option<ProposalId>, lastValue: Option<Value>): ProposerState {
    if Below(p.highestAcceptedId, lastId) then
      p.(highestAcceptedId := lastId,
         proposedValue := if lastValue.Some? then lastValue else p.proposedValue)
    else p
  }

  function PromiseStep(p: ProposerState, from: Uid, id: ProposalId,
                       lastId: Option<ProposalId>, lastValue: Option<Value>)
    : (ProposerState, ProposerReply)
  {
    var observed := ObserveStep(p, Some(id));
    if !observed.leader && id == observed.proposalId && observed.promises.None? then
      (observed, Raised)  // `in None` is a TypeError
    else if !Counts(observed, from, id) then
      (observed, Quiet)
    else
      var counted := Adopt(observed.(promises := Some(observed.promises.value + {from})), lastId, lastValue);
      if |counted.promises.value| == counted.quorumSize then
        var elected := counted.(leader := true);
        (elected,
         if elected.proposedValue.Some? then SendAccept(elected.proposalId, elected.proposedValue.value)
         else Quiet)
      else (counted, Quiet)
  }

  /**
   * What no proposer step ever undoes: within one round leadership stays, a
   * leader's value is frozen, and the ids only move up.
   */
  ghost predicate ProposerEvolves(p: ProposerState, q: ProposerState) {
    && q.uid == p.uid
    && q.quorumSize == p.quorumSize
    && AtMost(p.highestProposalId, q.highestProposalId)
    && (p.proposalId == q.proposalId ==>
          (p.leader ==> q.leader && (p.proposedValue.Some? ==> q.proposedValue == p.proposedValue)))
    && (p.proposalId != q.proposalId ==> Less(p.proposalId, q.proposalId))
  }

  /** The ids of a well-behaved proposer: its own uid, never above the highest id it knows of. */
  ghost predicate OwnId(p: ProposerState) {
    p.proposalId.uid == p.uid && AtMost(p.proposalId, p.highestProposalId)
  }

  lemma PrepareOutbids(p: ProposerState)
    requires OwnId(p)
    ensures OwnId(PrepareStep(p)) && ProposerEvolves(p, PrepareStep(p))
    ensures Less(p.highestProposalId, PrepareStep(p).proposalId)
  {
  }

  lemma ObserveEvolves(p: ProposerState, id: Option<ProposalId>)
    requires OwnId(p)
    ensures ProposerEvolves(p, ObserveStep(p, id)) && OwnId(ObserveStep(p, id))
    ensures ObserveStep(p, id) == p.(highestProposalId := ObserveStep(p, id).highestProposalId)
  {
  }

  lemma ProposeValueEvolves(p: ProposerState, value: Value)
    requires OwnId(p)
    ensures ProposerEvolves(p, ProposeValueStep(p, value).0) && OwnId(ProposeValueStep(p, value).0)
  {
  }

  lemma NackEvolves(p: ProposerState, from: Uid, id: ProposalId, promisedId: Option<ProposalId>)
    requires OwnId(p)
    ensures ProposerEvolves(p, NackStep(p, from, id, promisedId).0)
    ensures OwnId(NackStep(p, from, id, promisedId).0)
  {
    ObserveEvolves(p, promisedId);
    var observed := ObserveStep(p, promisedId);
    if observed.nacks.Some? {
      PrepareOutbids(observed.(nacks := Some(observed.nacks.value + {from})));
    }
  }

  /** A Promise changes a proposer only within its round; a leader is only observed, never changed. */
  lemma PromiseEvolves(p: ProposerState, from: Uid, id: ProposalId,
                       lastId: Option<ProposalId>, lastValue: Option<Value>)
    requires OwnId(p)
    ensures ProposerEvolves(p, PromiseStep(p, from, id, lastId, lastValue).0)
    ensures OwnId(PromiseStep(p, from, id, lastId, lastValue).0)
    ensures PromiseStep(p, from, id, lastId, lastValue).0.proposalId == p.proposalId
  {
    ObserveEvolves(p, Some(id));
  }

  // ----- What each message leaves behind -----

  /** A proposal id the proposer has been told of binds its next round. */
  ghost predicate Outbids(p: ProposerState, id: Option<ProposalId>) {
    id.Some? ==> AtMost(id.value, p.highestProposalId) && Less(id.value, PrepareStep(p).proposalId)
  }

  /** Whatever brings an id, observing it makes every later round outbid it. */
  lemma ObservedIsOutbid(p: ProposerState, id: Option<ProposalId>)
    ensures Outbids(ObserveStep(p, id), id)
    ensures forall known :: Outbids(p, known) ==> Outbids(ObserveStep(p, id), known)
  {
  }

  /** A Nack's promised id is outbid, and so is all that was known before. */
  lemma NackIsOutbid(p: ProposerState, from: Uid, id: ProposalId, promisedId: Option<ProposalId>)
    ensures Outbids(NackStep(p, from, id, promisedId).0, promisedId)
    ensures forall known :: Outbids(p, known) ==> Outbids(NackStep(p, from, id, promisedId).0, known)
    ensures NackStep(p, from, id, promisedId).1.SendPrepare? && promisedId.Some? ==>
              Less(promisedId.value, NackStep(p, from, id, promisedId).0.proposalId)
    ensures NackStep(p, from, id, promisedId).0.proposalId != p.proposalId ==>
              NackStep(p, from, id, promisedId).1.SendPrepare?
  {
    ObservedIsOutbid(p, promisedId);
  }

  lemma PromiseIsOutbid(p: ProposerState, from: Uid, id: ProposalId,
                        lastId: Option<ProposalId>, lastValue: Option<Value>)
    ensures Outbids(PromiseStep(p, from, id, lastId, lastValue).0, Some(id))
    ensures forall known :: Outbids(p, known) ==> Outbids(PromiseStep(p, from, id, lastId, lastValue).0, known)
  {
    ObservedIsOutbid(p, Some(id));
  }

  /** Who refuses, and the promise the refusal carries. */
  datatype Refusal = Refusal(from: Uid, promisedId: Option<ProposalId>)

  function Refusers(refusals: seq<Refusal>): set<Uid> {
    set r | r in refusals :: r.from
  }

  /** The proposer after refusals of the round `id`, one by one. */
  function Refused(p: ProposerState, id: ProposalId, refusals: seq<Refusal>): ProposerState
    decreases |refusals|
  {
    if refusals == [] then p
    else
      var last := refusals[|refusals| - 1];
      NackStep(Refused(p, id, refusals[..|refusals| - 1]), last.from, id, last.promisedId).0
  }

  lemma RefusersGrow(refusals: seq<Refusal>)
    requires refusals != []
    ensures Refusers(refusals) == Refusers(refusals[..|refusals| - 1]) + {refusals[|refusals| - 1].from}
  {
    assert refusals == refusals[..|refusals| - 1] + [refusals[|refusals| - 1]];
  }

  /** While fewer than a quorum refuse, the round goes on, and it is known who has refused. */
  lemma {:induction false} FewRefusals(p: ProposerState, refusals: seq<Refusal>)
    requires p.nacks == Some({}) && |Refusers(refusals)| < p.quorumSize
    ensures var q := Refused(p, p.proposalId, refusals);
            && q == p.(nacks := Some(Refusers(refusals)), highestProposalId := q.highestProposalId)
            && AtMost(p.highestProposalId, q.highestProposalId)
            && forall r :: r in refusals ==> Outbids(q, r.promisedId)
    decreases |refusals|
  {
    if refusals == [] {
      assert Refusers(refusals) == {};
    } else {
      var (before, last) := (refusals[..|refusals| - 1], refusals[|refusals| - 1]);
      RefusersGrow(refusals);
      SubsetSize(Refusers(before), Refusers(refusals));
      FewRefusals(p, before);
      NackIsOutbid(Refused(p, p.proposalId, before), last.from, p.proposalId, last.promisedId);
      assert refusals == before + [last];
    }
  }

  /**
   * The refusal that completes a quorum of distinct peers, and none before it,
   * starts a new round, and its id is above every promise the refusals carried.
   */
  lemma {:induction false} QuorumOfRefusalsStartsRound(p: ProposerState, refusals: seq<Refusal>)
    requires p.nacks == Some({}) && refusals != []
    requires |Refusers(refusals[..|refusals| - 1])| < p.quorumSize == |Refusers(refusals)|
    ensures var (before, last) := (refusals[..|refusals| - 1], refusals[|refusals| - 1]);
            var (q, reply) := NackStep(Refused(p, p.proposalId, before), last.from, p.proposalId, last.promisedId);
            && reply == SendPrepare(q.proposalId) && q.promises == q.nacks == Some({}) && !q.leader
            && q.proposalId.uid == p.uid && Less(p.highestProposalId, q.proposalId)
            && forall r :: r in refusals && r.promisedId.Some? ==> Less(r.promisedId.value, q.proposalId)
  {
    var (before, last) := (refusals[..|refusals| - 1], refusals[|refusals| - 1]);
    RefusersGrow(refusals);
    FewRefusals(p, before);
    LastRefusal(Refused(p, p.proposalId, before), last);
    forall r | r in refusals && r.promisedId.Some?
      ensures Less(r.promisedId.value,
                   NackStep(Refused(p, p.proposalId, before), last.from, p.proposalId, last.promisedId).0.proposalId)
    {
      assert r in before || r == last by {
        assert refusals == before + [last];
      }
    }
  }

  /** The refusal that completes the quorum, in one step. */
  lemma LastRefusal(r: ProposerState, last: Refusal)
    requires r.nacks.Some? && |r.nacks.value + {last.from}| == r.quorumSize
    ensures var (q, reply) := NackStep(r, last.from, r.proposalId, last.promisedId);
            && reply == SendPrepare(q.proposalId) && q.promises == q.nacks == Some({}) && !q.leader
            && q.proposalId.uid == r.uid && Less(r.highestProposalId, q.proposalId)
            && (last.promisedId.Some? ==> Less(last.promisedId.value, q.proposalId))
  {
  }

  /** A nack of another round, or before any, is counted for nothing. */
  lemma OtherNacksAreObservedOnly(p: ProposerState, from: Uid, id: ProposalId, promisedId: Option<ProposalId>)
    requires id != p.proposalId || p.nacks.None?
    ensures NackStep(p, from, id, promisedId).1 == Quiet
    ensures NackStep(p, from, id, promisedId).0
            == p.(highestProposalId := NackStep(p, from, id, promisedId).0.highestProposalId)
  {
  }

  /**
   * What a proposer has adopted is never given up, not even by a new round:
   * the adopted id only rises, and while it stays the value held stays too.
   */
  ghost predicate KeepsAdopted(p: ProposerState, q: ProposerState) {
    && UpTo(p.highestAcceptedId, q.highestAcceptedId)
    && (p.proposedValue.Some? ==> q.proposedValue.Some?)
    && (p.proposedValue.Some? && q.highestAcceptedId == p.highestAcceptedId ==> q.proposedValue == p.proposedValue)
  }

  lemma AdoptedIsKept(p: ProposerState, value: Value, seen: Option<ProposalId>, from: Uid, id: ProposalId,
                      lastId: Option<ProposalId>, lastValue: Option<Value>)
    ensures KeepsAdopted(p, ProposeValueStep(p, value).0)
    ensures KeepsAdopted(p, PrepareStep(p)) && PrepareStep(p).highestAcceptedId == p.highestAcceptedId
    ensures KeepsAdopted(p, ObserveStep(p, seen))
    ensures KeepsAdopted(p, NackStep(p, from, id, seen).0)
    ensures KeepsAdopted(p, PromiseStep(p, from, id, lastId, lastValue).0)
  {
  }

  /** A counted Promise leaves the higher of the two ids behind, and its value if that is the reported one. */
  lemma HigherIdIsAdopted(p: ProposerState, from: Uid, id: ProposalId,
                          lastId: Option<ProposalId>, lastValue: Option<Value>)
    requires Counts(p, from, id)
    ensures var q := PromiseStep(p, from, id, lastId, lastValue).0;
            && q.highestAcceptedId == Later(p.highestAcceptedId, lastId)
            && (Below(p.highestAcceptedId, lastId) && lastValue.Some? ==> q.proposedValue == lastValue)
            && q.promises == Some(p.promises.value + {from})
            && (q.leader <==> |p.promises.value + {from}| == p.quorumSize)
  {
  }

  /** A Promise raises exactly when it is for the id of a proposer that has never prepared. */
  lemma PromiseRaisesIff(p: ProposerState, from: Uid, id: ProposalId,
                         lastId: Option<ProposalId>, lastValue: Option<Value>)
    ensures PromiseStep(p, from, id, lastId, lastValue).1.Raised? <==>
              !p.leader && id == p.proposalId && p.promises.None?
  {
  }

  /** A value is taken once, and an Accept comes back only for a leader that takes it. */
  lemma ProposedValueIsTakenOnce(p: ProposerState, value: Value, other: Value)
    ensures ProposeValueStep(p, value).0.proposedValue == Some(if p.proposedValue.Some? then p.proposedValue.value else value)
    ensures ProposeValueStep(ProposeValueStep(p, value).0, other) == (ProposeValueStep(p, value).0, Quiet)
    ensures ProposeValueStep(p, value).1 != Quiet <==> p.leader && p.proposedValue.None?
    ensures ProposeValueStep(p, value).1 != Quiet ==> ProposeValueStep(p, value).1 == SendAccept(p.proposalId, value)
  {
  }

  class Proposer {
    const uid: Uid
    const quorumSize: nat
    var leader: bool
    var proposedValue: Option<Value>
    var proposalId: ProposalId
    var highestProposalId: ProposalId
    var highestAcceptedId: Option<ProposalId>
    var promises: Option<set<Uid>>
    var nacks: Option<set<Uid>>

    function View(): ProposerState
      reads this
    {
      ProposerState(uid, quorumSize, leader, proposedValue, proposalId, highestProposalId,
                    highestAcceptedId, promises, nacks)
    }

    constructor (uid: Uid, quorumSize: nat)
      ensures View() == FreshProposer(uid, quorumSize)
    {
      this.uid, this.quorumSize := uid, quorumSize;
      leader, proposedValue, highestAcceptedId, promises, nacks := false, None, None, None, None;
      proposalId, highestProposalId := ProposalId(0, uid), ProposalId(0, uid);
    }

    method ProposeValue(value: Value) returns (reply: ProposerReply)
      modifies this
      ensures (View(), reply) == ProposeValueStep(old(View()), value)
    {
      reply := Quiet;
      if proposedValue.None? {
        proposedValue := Some(value);
        if leader {
          reply := SendAccept(proposalId, value);
        }
      }
    }

    method Prepare() returns (reply: ProposerReply)
      modifies this
      ensures View() == PrepareStep(old(View()))
      ensures reply == SendPrepare(View().proposalId)
    {
      leader := false;
      promises, nacks := Some({}), Some({});
      proposalId := ProposalId(highestProposalId.number + 1, uid);
      highestProposalId := proposalId;
      reply := SendPrepare(proposalId);
    }

    method ObserveProposal(id: Option<ProposalId>)
      modifies this
      ensures View() == ObserveStep(old(View()), id)
    {
      if Below(Some(highestProposalId), id) {
        highestProposalId := id.value;
      }
    }

    method ReceiveNack(from: Uid, id: ProposalId, promisedId: Option<ProposalId>) returns (reply: ProposerReply)
      modifies this
      ensures (View(), reply) == NackStep(old(View()), from, id, promisedId)
    {
      ObserveProposal(promisedId);
      reply := Quiet;
      if id == proposalId && nacks.Some? {
        nacks := Some(nacks.value + {from});
        if |nacks.value| == quorumSize {
          reply := Prepare();
        }
      }
    }

    method ReceivePromise(from: Uid, id: ProposalId, lastId: Option<ProposalId>, lastValue: Option<Value>)
      returns (reply: ProposerReply)
      modifies this
      ensures (View(), reply) == PromiseStep(old(View()), from, id, lastId, lastValue)
    {
      ObserveProposal(Some(id));
      reply := Quiet;
      if !leader && id == proposalId {
        if promises.None? {
          return Raised;
        }
        if from !in promises.value {
          promises := Some(promises.value + {from});
          if Below(highestAcceptedId, lastId) {
            highestAcceptedId := lastId;
            if lastValue.Some? {
              proposedValue := lastValue;
            }
          }
          if |promises.value| == quorumSize {
            leader := true;
            if proposedValue.Some? {
              reply := SendAccept(proposalId, proposedValue.value);
            }
          }
        }
      }
    }
  }
}
