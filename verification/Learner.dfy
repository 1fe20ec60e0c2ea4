/** The Learner role (paxos/composable_paxos.py, class Learner). */
module LearnerRole {
  import opened Options
  import opened Sets
  import opened Ballots

  datatype Status = Status(acceptCount: nat, retainCount: int, acceptors: set<Uid>, value: Value)

  /** `proposals` and `acceptors` are emptied on resolution, where Python stores None: they are not read again. */
  datatype LearnerState = LearnerState(
    uid: Uid,
    quorumSize: nat,
    proposals: map<ProposalId, Status>,
    acceptors: map<Uid, ProposalId>,
    finalValue: Option<Value>,
    finalAcceptors: Option<set<Uid>>,
    finalProposalId: Option<ProposalId>)

  /** What receive_accepted returns: None, a Resolution, or an uncaught Python exception. */
  datatype LearnerReply = Silent | Resolution(value: Value) | Raised

  /** An Accepted message as heard from `from`. */
  datatype Vote = Vote(from: Uid, id: ProposalId, value: Value)

  function FreshLearner(uid: Uid, quorumSize: nat): LearnerState {
    LearnerState(uid, quorumSize, map[], map[], None, None, None)
  }

  function LastId(l: LearnerState, from: Uid): Option<ProposalId> {
    if from in l.acceptors then Some(l.acceptors[from]) else None
  }

  /** One vote less; the set keeps its members when `from` is none of them. */
  function Released(ps: Status, from: Uid): Status {
    ps.(retainCount := ps.retainCount - 1, acceptors := ps.acceptors - {from})
  }

  /** Withdraws `from` from its previous proposal; false when a lookup or remove fails. */
  function Retire(proposals: map<ProposalId, Status>, from: Uid, last: Option<ProposalId>)
    : (map<ProposalId, Status>, bool)
  {
    if last.None? then (proposals, true)
    else if last.value !in proposals then (proposals, false)
    else
      var released := Released(proposals[last.value], from);
      if from !in proposals[last.value].acceptors then (proposals[last.value := released], false)
      else if released.retainCount == 0 then (proposals - {last.value}, true)
      else (proposals[last.value := released], true)
  }

  function Open(proposals: map<ProposalId, Status>, id: ProposalId, value: Value): map<ProposalId, Status> {
    if id in proposals then proposals else proposals[id := Status(0, 0, {}, value)]
  }

  function Counted(ps: Status, from: Uid): Status {
    ps.(acceptCount := ps.acceptCount + 1, retainCount := ps.retainCount + 1, acceptors := ps.acceptors + {from})
  }

  /** Counts the vote under its own id, once the previous vote of `from` is withdrawn. */
  function Tally(l: LearnerState, from: Uid, id: ProposalId, value: Value): (LearnerState, LearnerReply) {
    var known := Open(l.proposals, id, value);
    if value != known[id].value then (l.(proposals := known), Raised)  // the assertion fails
    else
      var ps := Counted(known[id], from);
      if ps.acceptCount == l.quorumSize then
        (LearnerState(l.uid, l.quorumSize, map[], map[], Some(value), Some(ps.acceptors), Some(id)),
         Resolution(value))
      else (l.(proposals := known[id := ps]), Silent)
  }

  function AcceptedStep(l: LearnerState, from: Uid, id: ProposalId, value: Value): (LearnerState, LearnerReply) {
    if l.finalValue.Some? then
      (if UpTo(l.finalProposalId, Some(id)) && value == l.finalValue.value && l.finalAcceptors.Some? then
         l.(finalAcceptors := Some(l.finalAcceptors.value + {from}))
       else l,
       Resolution(l.finalValue.value))
    else if UpTo(Some(id), LastId(l, from)) then (l, Silent)
    else
      var noted := l.(acceptors := l.acceptors[from := id]);
      var (retired, found) := Retire(l.proposals, from, LastId(l, from));
      if !found then (noted.(proposals := retired), Raised)
      else Tally(noted.(proposals := retired), from, id, value)
  }

  // ----- Bookkeeping -----

  /** The acceptors stored with the proposals are exactly the latest ids heard from each acceptor. */
  ghost predicate LatestIds(l: LearnerState) {
    && (forall u :: u in l.acceptors ==> l.acceptors[u] in l.proposals && u in l.proposals[l.acceptors[u]].acceptors)
    && (forall p, u :: p in l.proposals && u in l.proposals[p].acceptors ==> u in l.acceptors && l.acceptors[u] == p)
  }

  ghost predicate RetainCounts(l: LearnerState) {
    forall p :: p in l.proposals ==>
      l.proposals[p].retainCount == |l.proposals[p].acceptors| && l.proposals[p].acceptors != {}
  }

  /**
   * `voters` is everyone counted for proposal `p` so far: accept_count never
   * goes down, so the set also holds acceptors that have moved on to a higher id.
   */
  ghost predicate CountedVoters(l: LearnerState, heard: set<Vote>, p: ProposalId, voters: set<Uid>)
    requires p in l.proposals
  {
    && |voters| == l.proposals[p].acceptCount < l.quorumSize
    && l.proposals[p].acceptors <= voters
    && forall u :: u in voters ==>
         u in l.acceptors && AtMost(p, l.acceptors[u]) && Vote(u, p, l.proposals[p].value) in heard
  }

  ghost predicate AcceptCounts(l: LearnerState, heard: set<Vote>) {
    forall p :: p in l.proposals ==> exists voters :: CountedVoters(l, heard, p, voters)
  }

  /** The bookkeeping of an undecided learner that has heard the votes `heard`. */
  ghost predicate LearnerOk(l: LearnerState, heard: set<Vote>) {
    && l.finalValue.None?
    && LatestIds(l)
    && RetainCounts(l)
    && AcceptCounts(l, heard)
  }

  /** No proposal id appears with two values. */
  ghost predicate OneValuePerId(heard: set<Vote>) {
    forall a, b :: a in heard && b in heard && a.id == b.id ==> a.value == b.value
  }

  /** `voters` are a quorum of distinct acceptors, each heard voting for `value` under `id`. */
  ghost predicate QuorumVoted(heard: set<Vote>, quorumSize: nat, id: ProposalId, value: Value, voters: set<Uid>) {
    |voters| >= quorumSize && forall u :: u in voters ==> Vote(u, id, value) in heard
  }

  lemma LearnerMonotone(l: LearnerState, heard: set<Vote>, more: set<Vote>)
    requires LearnerOk(l, heard) && heard <= more
    ensures LearnerOk(l, more)
  {
    forall p | p in l.proposals
      ensures exists voters :: CountedVoters(l, more, p, voters)
    {
      var voters :| CountedVoters(l, heard, p, voters);
      assert CountedVoters(l, more, p, voters);
    }
  }

  /** LearnerOk once `from` has been noted at `id` and withdrawn, but not yet counted again. */
  ghost predicate Withdrawn(l: LearnerState, heard: set<Vote>, from: Uid, id: ProposalId) {
    && l.finalValue.None?
    && (from in l.acceptors && l.acceptors[from] == id)
    && (forall u :: u in l.acceptors && u != from ==>
          l.acceptors[u] in l.proposals && u in l.proposals[l.acceptors[u]].acceptors)
    && (forall p, u :: p in l.proposals && u in l.proposals[p].acceptors ==>
          u != from && u in l.acceptors && l.acceptors[u] == p)
    && RetainCounts(l)
    && AcceptCounts(l, heard)
    && (id in l.proposals ==> exists voters :: CountedVoters(l, heard, id, voters) && from !in voters)
  }

  /** A newer vote finds its predecessor in the tables, and withdrawing it keeps all the counts. */
  lemma RetireKeepsBooks(l: LearnerState, heard: set<Vote>, from: Uid, id: ProposalId)
    requires LearnerOk(l, heard)
    requires !UpTo(Some(id), LastId(l, from))
    ensures Retire(l.proposals, from, LastId(l, from)).1
    ensures Withdrawn(l.(acceptors := l.acceptors[from := id],
                         proposals := Retire(l.proposals, from, LastId(l, from)).0), heard, from, id)
  {
    var retired := Retire(l.proposals, from, LastId(l, from)).0;
    var m := l.(acceptors := l.acceptors[from := id], proposals := retired);
    if from in l.acceptors {
      var last := l.acceptors[from];
      var rest := l.proposals[last].acceptors - {from};
      assert |rest| == |l.proposals[last].acceptors| - 1;
      assert last in retired <==> rest != {};
    }
    forall p | p in m.proposals
      ensures exists voters :: CountedVoters(m, heard, p, voters) && (p == id ==> from !in voters)
    {
      var voters :| CountedVoters(l, heard, p, voters);
      assert CountedVoters(m, heard, p, voters);
    }
  }

  /** Counting a withdrawn vote never trips the value assertion, and resolves only on a quorum of distinct voters. */
  lemma TallyIsSound(l: LearnerState, heard: set<Vote>, from: Uid, id: ProposalId, value: Value)
    requires Withdrawn(l, heard, from, id) && l.quorumSize >= 1
    requires OneValuePerId(heard + {Vote(from, id, value)})
    ensures Tally(l, from, id, value).1 != Raised
    ensures Tally(l, from, id, value).1 == Silent ==>
              LearnerOk(Tally(l, from, id, value).0, heard + {Vote(from, id, value)})
    ensures Tally(l, from, id, value).1.Resolution? ==>
              Tally(l, from, id, value).1.value == value
              && exists voters :: QuorumVoted(heard + {Vote(from, id, value)}, l.quorumSize, id, value, voters)
  {
    var more := heard + {Vote(from, id, value)};
    var known := Open(l.proposals, id, value);
    var voters: set<Uid> := {};
    if id in l.proposals {
      voters :| CountedVoters(l, heard, id, voters) && from !in voters;
      var backer := AnyMember(l.proposals[id].acceptors);
      assert Vote(backer, id, l.proposals[id].value) in more && Vote(from, id, value) in more;
    }
    assert known[id].value == value && from !in voters;
    var (next, reply) := Tally(l, from, id, value);
    var all := voters + {from};
    assert QuorumVoted(more, |all|, id, value, all);
    if reply == Silent {
      assert CountedVoters(next, more, id, all);
      forall p | p in next.proposals && p != id
        ensures exists kept :: CountedVoters(next, more, p, kept)
      {
        var kept :| CountedVoters(l, heard, p, kept);
        assert CountedVoters(next, more, p, kept);
      }
    }
  }

  /**
   * receive_accepted on an undecided learner: no lookup, removal or assertion
   * fails, the books stay in order, and a Resolution carries the value a quorum
   * of distinct acceptors was heard voting for under one id.
   */
  lemma AcceptedStepIsSound(l: LearnerState, heard: set<Vote>, from: Uid, id: ProposalId, value: Value)
    requires LearnerOk(l, heard) && l.quorumSize >= 1
    requires OneValuePerId(heard + {Vote(from, id, value)})
    ensures AcceptedStep(l, from, id, value).1 != Raised
    ensures AcceptedStep(l, from, id, value).1 == Silent ==>
              LearnerOk(AcceptedStep(l, from, id, value).0, heard + {Vote(from, id, value)})
    ensures AcceptedStep(l, from, id, value).1.Resolution? ==>
              AcceptedStep(l, from, id, value).1.value == value
              && exists voters :: QuorumVoted(heard + {Vote(from, id, value)}, l.quorumSize, id, value, voters)
  {
    if UpTo(Some(id), LastId(l, from)) {
      LearnerMonotone(l, heard, heard + {Vote(from, id, value)});
    } else {
      RetireKeepsBooks(l, heard, from, id);
      TallyIsSound(l.(acceptors := l.acceptors[from := id],
                      proposals := Retire(l.proposals, from, LastId(l, from)).0), heard, from, id, value);
    }
  }

  /** An undecided learner leaves no quorum unresolved among the latest ids heard. */
  lemma UndecidedHasNoStandingQuorum(l: LearnerState, heard: set<Vote>, id: ProposalId, voters: set<Uid>)
    requires LearnerOk(l, heard) && l.quorumSize >= 1
    requires forall u :: u in voters ==> u in l.acceptors && l.acceptors[u] == id
    ensures |voters| < l.quorumSize
  {
    if voters != {} {
      var u := AnyMember(voters);
      var counted :| CountedVoters(l, heard, id, counted);
      assert voters <= l.proposals[id].acceptors by {
        forall w | w in voters ensures w in l.proposals[id].acceptors {}
      }
      SubsetSize(voters, counted);
    }
  }

  /**
   * But a quorum of votes heard is not always noticed: when an acceptor moves
   * on from an id before the quorum is complete, its count goes with the
   * deleted proposal.
   */
  lemma LearnerCanMissQuorum(l: LearnerState, a: Uid, b: Uid, low: ProposalId, high: ProposalId, v: Value)
    requires l == FreshLearner(l.uid, 2) && a != b && Less(low, high)
    ensures var l1 := AcceptedStep(l, a, low, v).0;
            var l2 := AcceptedStep(l1, a, high, v).0;
            var (l3, reply) := AcceptedStep(l2, b, low, v);
            && QuorumVoted({Vote(a, low, v), Vote(a, high, v), Vote(b, low, v)}, 2, low, v, {a, b})
            && reply == Silent && l3.finalValue.None?
  {
    var l1 := AcceptedStep(l, a, low, v).0;
    assert l1.proposals[low] == Status(1, 1, {a}, v);
    var l2 := AcceptedStep(l1, a, high, v).0;
    assert low !in l2.proposals;
    assert |{a, b}| == 2;
  }

  class ProposalStatus {
    var acceptCount: nat
    var retainCount: int
    var acceptors: set<Uid>
    const value: Value

    function View(): Status
      reads this
    {
      Status(acceptCount, retainCount, acceptors, value)
    }

    constructor (value: Value)
      ensures View() == Status(0, 0, {}, value)
    {
      this.value := value;
      acceptCount, retainCount, acceptors := 0, 0, {};
    }
  }

  class Learner {
    const uid: Uid
    const quorumSize: nat
    var proposals: map<ProposalId, ProposalStatus>
    var acceptors: map<Uid, ProposalId>
    var finalValue: Option<Value>
    var finalAcceptors: Option<set<Uid>>
    var finalProposalId: Option<ProposalId>

    /** Every proposal has a status object of its own. */
    ghost predicate Valid()
      reads this`proposals
    {
      forall p, q :: p in proposals && q in proposals && p != q ==> proposals[p] != proposals[q]
    }

    ghost function Repr(): set<object>
      reads this`proposals
    {
      {this} + proposals.Values
    }

    ghost function Statuses(): map<ProposalId, Status>
      reads this`proposals, proposals.Values
    {
      map p | p in proposals :: proposals[p].View()
    }

    ghost function View(): LearnerState
      reads this, proposals.Values
    {
      LearnerState(uid, quorumSize, Statuses(), acceptors, finalValue, finalAcceptors, finalProposalId)
    }

    constructor (uid: Uid, quorumSize: nat)
      ensures Valid() && fresh(Repr())
      ensures View() == FreshLearner(uid, quorumSize)
    {
      this.uid, this.quorumSize := uid, quorumSize;
      proposals, acceptors := map[], map[];
      finalValue, finalAcceptors, finalProposalId := None, None, None;
    }

    /** One vote less for a proposal; false when `from` is not among its acceptors, the count being lowered already. */
    method ReleaseVote(last: ProposalId, from: Uid) returns (found: bool)
      requires Valid() && last in proposals
      modifies proposals[last]
      ensures found <==> from in old(Statuses())[last].acceptors
      ensures Statuses() == old(Statuses())[last := Released(old(Statuses())[last], from)]
    {
      var ps := proposals[last];
      ps.retainCount := ps.retainCount - 1;
      found := from in ps.acceptors;
      ps.acceptors := ps.acceptors - {from};
    }

    /** The previous vote of `from` is withdrawn; a proposal nobody retains is deleted. */
    method RetireVote(from: Uid, last: Option<ProposalId>) returns (found: bool)
      requires Valid()
      modifies this`proposals, proposals.Values
      ensures Valid() && proposals.Values <= old(proposals.Values)
      ensures (Statuses(), found) == Retire(old(Statuses()), from, last)
    {
      found := true;
      if last.Some? {
        if last.value !in proposals {
          return false;
        }
        found := ReleaseVote(last.value, from);
        if found && proposals[last.value].retainCount == 0 {
          proposals := proposals - {last.value};
          assert Statuses() == old(Statuses()) - {last.value};
        }
      }
    }

    method OpenProposal(id: ProposalId, value: Value)
      requires Valid()
      modifies this`proposals
      ensures Valid() && fresh(Repr() - old(Repr()))
      ensures Statuses() == Open(old(Statuses()), id, value)
      ensures id in proposals
    {
      if id !in proposals {
        var ps := new ProposalStatus(value);
        proposals := proposals[id := ps];
      }
    }

    method CountVote(id: ProposalId, from: Uid)
      requires Valid() && id in proposals
      modifies proposals[id]
      ensures Statuses() == old(Statuses())[id := Counted(old(Statuses())[id], from)]
    {
      var ps := proposals[id];
      ps.acceptCount := ps.acceptCount + 1;
      ps.retainCount := ps.retainCount + 1;
      ps.acceptors := ps.acceptors + {from};
    }

    method TallyVote(from: Uid, id: ProposalId, value: Value) returns (reply: LearnerReply)
      requires Valid()
      modifies Repr()
      ensures Valid() && fresh(Repr() - old(Repr()))
      ensures (View(), reply) == Tally(old(View()), from, id, value)
    {
      OpenProposal(id, value);
      var ps := proposals[id];
      if value != ps.value {
        return Raised;
      }
      CountVote(id, from);
      if ps.acceptCount == quorumSize {
        finalProposalId, finalValue, finalAcceptors := Some(id), Some(value), Some(ps.acceptors);
        proposals, acceptors := map[], map[];
        return Resolution(value);
      }
      reply := Silent;
    }

    method ReceiveAccepted(from: Uid, id: ProposalId, value: Value) returns (reply: LearnerReply)
      requires Valid()
      modifies Repr()
      ensures Valid() && fresh(Repr() - old(Repr()))
      ensures (View(), reply) == AcceptedStep(old(View()), from, id, value)
    {
      if finalValue.Some? {
        if UpTo(finalProposalId, Some(id)) && value == finalValue.value && finalAcceptors.Some? {
          finalAcceptors := Some(finalAcceptors.value + {from});
        }
        return Resolution(finalValue.value);
      }
      var last := if from in acceptors then Some(acceptors[from]) else None;
      if UpTo(Some(id), last) {
        return Silent;
      }
      acceptors := acceptors[from := id];
      var found := RetireVote(from, last);
      if !found {
        return Raised;
      }
      reply := TallyVote(from, id, value);
    }
  }
}
