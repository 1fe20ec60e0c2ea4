/** The Acceptor role (paxos/composable_paxos.py, class Acceptor). */
module AcceptorRole {
  import opened Options
  import opened Ballots

  datatype AcceptorState = AcceptorState(
    uid: Uid,
    promisedId: Option<ProposalId>,
    acceptedId: Option<ProposalId>,
    acceptedValue: Option<Value>)

  datatype AcceptorReply =
    | Promised(id: ProposalId, lastId: Option<ProposalId>, lastValue: Option<Value>)
    | Accepted(id: ProposalId, value: Value)
    | Refused(id: ProposalId, promisedId: Option<ProposalId>)

  function PrepareStep(a: AcceptorState, id: ProposalId): (AcceptorState, AcceptorReply) {
    if UpTo(a.promisedId, Some(id)) then
      (a.(promisedId := Some(id)), Promised(id, a.acceptedId, a.acceptedValue))
    else (a, Refused(id, a.promisedId))
  }

  function AcceptStep(a: AcceptorState, id: ProposalId, value: Value): (AcceptorState, AcceptorReply) {
    if UpTo(a.promisedId, Some(id)) then
      (a.(promisedId := Some(id), acceptedId := Some(id), acceptedValue := Some(value)), Accepted(id, value))
    else (a, Refused(id, a.promisedId))
  }

  /** What an acceptor keeps: it has accepted nothing above its promise, and an accepted id has a value. */
  ghost predicate AcceptorOk(a: AcceptorState) {
    UpTo(a.acceptedId, a.promisedId) && (a.acceptedId.Some? <==> a.acceptedValue.Some?)
  }

  ghost predicate AcceptorEvolves(a: AcceptorState, b: AcceptorState) {
    b.uid == a.uid && UpTo(a.promisedId, b.promisedId) && UpTo(a.acceptedId, b.acceptedId)
  }

  /** Promises and accepted ids never go back, and a vote is never cast below the promise held. */
  lemma AcceptorStepsEvolve(a: AcceptorState, id: ProposalId, value: Value)
    requires AcceptorOk(a)
    ensures AcceptorOk(PrepareStep(a, id).0) && AcceptorEvolves(a, PrepareStep(a, id).0)
    ensures AcceptorOk(AcceptStep(a, id, value).0) && AcceptorEvolves(a, AcceptStep(a, id, value).0)
    ensures AcceptStep(a, id, value).1.Accepted? <==> !Below(Some(id), a.promisedId)
  {
  }

  class Acceptor {
    const uid: Uid
    var promisedId: Option<ProposalId>
    var acceptedId: Option<ProposalId>
    var acceptedValue: Option<Value>

    function View(): AcceptorState
      reads this
    {
      AcceptorState(uid, promisedId, acceptedId, acceptedValue)
    }

    constructor (uid: Uid, promisedId: Option<ProposalId>, acceptedId: Option<ProposalId>,
                 acceptedValue: Option<Value>)
      ensures View() == AcceptorState(uid, promisedId, acceptedId, acceptedValue)
    {
      this.uid := uid;
      this.promisedId, this.acceptedId, this.acceptedValue := promisedId, acceptedId, acceptedValue;
    }

    method ReceivePrepare(id: ProposalId) returns (reply: AcceptorReply)
      modifies this
      ensures (View(), reply) == PrepareStep(old(View()), id)
    {
      if UpTo(promisedId, Some(id)) {
        promisedId := Some(id);
        reply := Promised(id, acceptedId, acceptedValue);
      } else {
        reply := Refused(id, promisedId);
      }
    }

    method ReceiveAccept(id: ProposalId, value: Value) returns (reply: AcceptorReply)
      modifies this
      ensures (View(), reply) == AcceptStep(old(View()), id, value)
    {
      if UpTo(promisedId, Some(id)) {
        promisedId, acceptedId, acceptedValue := Some(id), Some(id), Some(value);
        reply := Accepted(id, value);
      } else {
        reply := Refused(id, promisedId);
      }
    }
  }
}
