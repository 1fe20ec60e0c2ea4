/** Exactly when a Learner resolves, told from the votes it has heard (paxos/composable_paxos.py, class Learner). */
module LearnerHistory {
  import opened Options
  import opened Sets
  import opened Ballots
  import opened LearnerRole

  /** The learner after hearing the votes one by one. */
  function Learned(uid: Uid, quorumSize: nat, votes: seq<Vote>): LearnerState
    decreases |votes|
  {
    if votes == [] then FreshLearner(uid, quorumSize)
    else
      var v := votes[|votes| - 1];
      AcceptedStep(Learned(uid, quorumSize, votes[..|votes| - 1]), v.from, v.id, v.value).0
  }

  function Heard(votes: seq<Vote>): set<Vote> {
    set v | v in votes
  }

  // ----- The history -----

  /** The highest id `u` was heard voting for. */
  function Latest(votes: seq<Vote>, u: Uid): Option<ProposalId>
    decreases |votes|
  {
    if votes == [] then None
    else
      var before := Latest(votes[..|votes| - 1], u);
      var v := votes[|votes| - 1];
      if v.from == u && Below(before, Some(v.id)) then Some(v.id) else before
  }

  /** The last vote is news: its acceptor was heard at no id as high. */
  predicate LastIsNews(votes: seq<Vote>)
    requires votes != []
  {
    var v := votes[|votes| - 1];
    Below(Latest(votes[..|votes| - 1], v.from), Some(v.id))
  }

  /** Some acceptor's latest id is `id`. */
  ghost predicate Standing(votes: seq<Vote>, id: ProposalId) {
    exists u :: Latest(votes, u) == Some(id)
  }

  /** Who was counted for `id` since the last moment at which no acceptor stood at it. */
  ghost function CountedSince(votes: seq<Vote>, id: ProposalId): set<Uid>
    decreases |votes|
  {
    if votes == [] || !Standing(votes, id) then {}
    else
      var v := votes[|votes| - 1];
      CountedSince(votes[..|votes| - 1], id) + if LastIsNews(votes) && v.id == id then {v.from} else {}
  }

  /** `u` was counted for `id` by vote i, and ever since some acceptor has stood at `id`. */
  ghost predicate CountedBy(votes: seq<Vote>, id: ProposalId, u: Uid, i: nat) {
    && i < |votes|
    && votes[i].from == u && votes[i].id == id && LastIsNews(votes[..i + 1])
    && forall j :: i < j <= |votes| ==> Standing(votes[..j], id)
  }

  /** CountedSince, told without recursion. */
  lemma {:induction false} CountedSinceIff(votes: seq<Vote>, id: ProposalId, u: Uid)
    ensures u in CountedSince(votes, id) <==> exists i: nat :: CountedBy(votes, id, u, i)
    decreases |votes|
  {
    if votes != [] {
      var n := |votes| - 1;
      var w := votes[..n];
      CountedSinceIff(w, id, u);
      assert votes[..n + 1] == votes;
      forall i: nat | i < n
        ensures CountedBy(votes, id, u, i) <==> CountedBy(w, id, u, i) && Standing(votes, id)
      {
        CountedByLonger(votes, id, u, i);
      }
      assert CountedBy(votes, id, u, n) <==>
             votes[n].from == u && votes[n].id == id && LastIsNews(votes) && Standing(votes, id);
    }
  }

  lemma CountedByLonger(votes: seq<Vote>, id: ProposalId, u: Uid, i: nat)
    requires i < |votes| - 1
    ensures CountedBy(votes, id, u, i) <==> CountedBy(votes[..|votes| - 1], id, u, i) && Standing(votes, id)
  {
    var n := |votes| - 1;
    var w := votes[..n];
    assert forall j :: 0 <= j <= n ==> w[..j] == votes[..j];
    assert votes[..n + 1] == votes;
    if CountedBy(votes, id, u, i) {
      assert Standing(votes[..n + 1], id);
      forall j | i < j <= n ensures Standing(w[..j], id) {
        assert Standing(votes[..j], id);
      }
    }
    if CountedBy(w, id, u, i) && Standing(votes, id) {
      forall j | i < j <= n + 1 ensures Standing(votes[..j], id) {
        assert j <= n ==> Standing(w[..j], id);
      }
    }
  }

  // ----- The learner's tables are its history -----

  /** Counted acceptors stand at `id` or higher. */
  lemma {:induction false} CountedStandAbove(votes: seq<Vote>, id: ProposalId, u: Uid)
    requires u in CountedSince(votes, id)
    ensures UpTo(Some(id), Latest(votes, u))
    decreases |votes|
  {
    if u in CountedSince(votes[..|votes| - 1], id) {
      CountedStandAbove(votes[..|votes| - 1], id, u);
    }
  }

  ghost predicate LatestAgree(l: LearnerState, votes: seq<Vote>) {
    forall u :: LastId(l, u) == Latest(votes, u)
  }

  ghost predicate CountsAgree(l: LearnerState, votes: seq<Vote>) {
    forall id :: id in l.proposals ==> l.proposals[id].acceptCount == |CountedSince(votes, id)|
  }

  /** The undecided learner: latest ids, stored proposals and counts are those of the history. */
  ghost predicate BooksAgree(l: LearnerState, votes: seq<Vote>) {
    LearnerOk(l, Heard(votes)) && LatestAgree(l, votes) && CountsAgree(l, votes)
  }

  /** Stored are exactly the proposals some acceptor stands at. */
  lemma StoredIffStanding(l: LearnerState, votes: seq<Vote>, id: ProposalId)
    requires LatestIds(l) && RetainCounts(l) && LatestAgree(l, votes)
    ensures id in l.proposals <==> Standing(votes, id)
  {
    if id in l.proposals {
      var u := AnyMember(l.proposals[id].acceptors);
      assert LastId(l, u) == Some(id);
    }
    if u :| Latest(votes, u) == Some(id) {
      assert LastId(l, u) == Some(id);
    }
  }

  lemma LatestStep(l: LearnerState, next: LearnerState, votes: seq<Vote>)
    requires votes != [] && LatestAgree(l, votes[..|votes| - 1])
    requires var v := votes[|votes| - 1];
             next.acceptors == if LastIsNews(votes) then l.acceptors[v.from := v.id] else l.acceptors
    ensures LatestAgree(next, votes)
  {
    forall u ensures LastId(next, u) == Latest(votes, u) {
      assert LastId(l, u) == Latest(votes[..|votes| - 1], u);
    }
  }

  /** A vote for another id, or no news, leaves the count of `p` alone as long as someone stands there. */
  lemma CountedOther(votes: seq<Vote>, p: ProposalId)
    requires votes != [] && Standing(votes, p) && !(LastIsNews(votes) && votes[|votes| - 1].id == p)
    ensures CountedSince(votes, p) == CountedSince(votes[..|votes| - 1], p)
  {
    assert CountedSince(votes, p) == CountedSince(votes[..|votes| - 1], p) + {};
  }

  /** News adds its voter, who has not been counted since. */
  lemma CountedNews(votes: seq<Vote>)
    requires votes != [] && LastIsNews(votes)
    ensures var w, v := votes[..|votes| - 1], votes[|votes| - 1];
            |CountedSince(votes, v.id)| == |CountedSince(w, v.id)| + 1
  {
    var w, v := votes[..|votes| - 1], votes[|votes| - 1];
    assert Latest(votes, v.from) == Some(v.id);
    if v.from in CountedSince(w, v.id) {
      CountedStandAbove(w, v.id, v.from);
    }
    assert CountedSince(votes, v.id) == CountedSince(w, v.id) + {v.from};
  }

  lemma OldCounts(l: LearnerState, votes: seq<Vote>)
    requires votes != [] && !LastIsNews(votes)
    requires LatestIds(l) && RetainCounts(l) && LatestAgree(l, votes) && CountsAgree(l, votes[..|votes| - 1])
    ensures CountsAgree(l, votes)
  {
    forall id | id in l.proposals ensures l.proposals[id].acceptCount == |CountedSince(votes, id)| {
      StoredIffStanding(l, votes, id);
      CountedOther(votes, id);
    }
  }

  /** A vote that is no news leaves the books in agreement. */
  lemma OldVote(l: LearnerState, votes: seq<Vote>)
    requires votes != [] && BooksAgree(l, votes[..|votes| - 1]) && !LastIsNews(votes)
    ensures BooksAgree(l, votes)
  {
    HeardGrows(votes);
    LearnerMonotone(l, Heard(votes[..|votes| - 1]), Heard(votes));
    LatestStep(l, l, votes);
    OldCounts(l, votes);
  }

  /** The count of the vote's own proposal, before the quorum is looked at. */
  function CountWith(l: LearnerState, id: ProposalId): nat {
    1 + if id in l.proposals then l.proposals[id].acceptCount else 0
  }

  /** The tables after counting a vote that was news. */
  ghost predicate NewsCounted(l: LearnerState, next: LearnerState, v: Vote) {
    && next.acceptors == l.acceptors[v.from := v.id]
    && forall p :: p in next.proposals ==>
         next.proposals[p].acceptCount
         == if p == v.id then CountWith(l, p) else if p in l.proposals then l.proposals[p].acceptCount else 0
  }

  /** Withdrawing an older vote leaves the counts of accepted votes alone, and the proposal of `id` as it was. */
  lemma RetireKeepsCounts(proposals: map<ProposalId, Status>, from: Uid, last: Option<ProposalId>, id: ProposalId)
    requires Below(last, Some(id))
    ensures var retired := Retire(proposals, from, last).0;
            && (forall p :: p in retired ==> p in proposals && retired[p].acceptCount == proposals[p].acceptCount)
            && (id in retired <==> id in proposals)
  {
  }

  /** The tables after a vote that was news, as long as nothing raises. */
  lemma NewsTables(l: LearnerState, v: Vote)
    requires l.finalValue.None? && Below(LastId(l, v.from), Some(v.id))
    ensures var (next, reply) := AcceptedStep(l, v.from, v.id, v.value);
            && (reply != Raised ==> (reply.Resolution? <==> CountWith(l, v.id) == l.quorumSize))
            && (reply == Silent ==> NewsCounted(l, next, v))
  {
    RetireKeepsCounts(l.proposals, v.from, LastId(l, v.from), v.id);
  }

  /** What a vote that is news does to the tables. */
  lemma NewsEffect(l: LearnerState, heard: set<Vote>, v: Vote)
    requires LearnerOk(l, heard) && OneValuePerId(heard + {v}) && l.quorumSize >= 1
    requires Below(LastId(l, v.from), Some(v.id))
    ensures var (next, reply) := AcceptedStep(l, v.from, v.id, v.value);
            && reply != Raised
            && (reply.Resolution? <==> CountWith(l, v.id) == l.quorumSize)
            && (reply == Silent ==> LearnerOk(next, heard + {v}) && NewsCounted(l, next, v))
  {
    NewsTables(l, v);
    AcceptedStepIsSound(l, heard, v.from, v.id, v.value);
  }

  lemma CountWithAgrees(l: LearnerState, votes: seq<Vote>)
    requires votes != [] && LastIsNews(votes)
    requires var w := votes[..|votes| - 1]; LatestIds(l) && RetainCounts(l) && LatestAgree(l, w) && CountsAgree(l, w)
    ensures |CountedSince(votes, votes[|votes| - 1].id)| == CountWith(l, votes[|votes| - 1].id)
  {
    CountedNews(votes);
    StoredIffStanding(l, votes[..|votes| - 1], votes[|votes| - 1].id);
  }

  lemma NewCounts(l: LearnerState, next: LearnerState, votes: seq<Vote>)
    requires votes != [] && LastIsNews(votes)
    requires var w := votes[..|votes| - 1]; LatestIds(l) && RetainCounts(l) && LatestAgree(l, w) && CountsAgree(l, w)
    requires LatestIds(next) && RetainCounts(next) && LatestAgree(next, votes)
    requires NewsCounted(l, next, votes[|votes| - 1])
    ensures CountsAgree(next, votes)
  {
    CountWithAgrees(l, votes);
    forall p | p in next.proposals ensures next.proposals[p].acceptCount == |CountedSince(votes, p)| {
      if p != votes[|votes| - 1].id {
        StoredIffStanding(next, votes, p);
        OthersStand(votes, p);
        StoredIffStanding(l, votes[..|votes| - 1], p);
        CountedOther(votes, p);
      }
    }
  }

  /** What is heard grows by the last vote. */
  lemma HeardGrows(votes: seq<Vote>)
    requires votes != []
    ensures Heard(votes) == Heard(votes[..|votes| - 1]) + {votes[|votes| - 1]}
  {
    assert votes == votes[..|votes| - 1] + [votes[|votes| - 1]];
  }

  /** A vote that is news keeps the books in agreement, unless it resolves. */
  lemma NewBooks(l: LearnerState, next: LearnerState, votes: seq<Vote>)
    requires votes != [] && BooksAgree(l, votes[..|votes| - 1]) && LastIsNews(votes)
    requires LearnerOk(next, Heard(votes)) && NewsCounted(l, next, votes[|votes| - 1])
    ensures BooksAgree(next, votes)
  {
    LatestStep(l, next, votes);
    NewCounts(l, next, votes);
  }

  /** Who stands at another id than the last vote's stood there before. */
  lemma OthersStand(votes: seq<Vote>, p: ProposalId)
    requires votes != [] && Standing(votes, p) && p != votes[|votes| - 1].id
    ensures Standing(votes[..|votes| - 1], p)
  {
    var u :| Latest(votes, u) == Some(p);
    assert Latest(votes[..|votes| - 1], u) == Some(p);
  }

  // ----- When it resolves -----

  /** At some moment a quorum had been counted for one id. */
  ghost predicate QuorumCounted(votes: seq<Vote>, quorumSize: nat, k: nat, id: ProposalId) {
    k <= |votes| && |CountedSince(votes[..k], id)| >= quorumSize
  }

  ghost predicate EverQuorum(votes: seq<Vote>, quorumSize: nat) {
    exists k: nat, id :: QuorumCounted(votes, quorumSize, k, id)
  }

  lemma EverQuorumGrows(votes: seq<Vote>, quorumSize: nat)
    requires votes != []
    ensures EverQuorum(votes, quorumSize) <==>
              EverQuorum(votes[..|votes| - 1], quorumSize) || exists id :: QuorumCounted(votes, quorumSize, |votes|, id)
  {
    var w := votes[..|votes| - 1];
    assert votes[..|votes|] == votes;
    assert forall k :: 0 <= k <= |w| ==> w[..k] == votes[..k];
    if k: nat, id :| QuorumCounted(votes, quorumSize, k, id) {
      assert k <= |w| ==> QuorumCounted(w, quorumSize, k, id);
    }
    if k: nat, id :| QuorumCounted(w, quorumSize, k, id) {
      assert QuorumCounted(votes, quorumSize, k, id);
    }
  }

  /** While the books agree, no quorum is counted for anything. */
  lemma NoQuorumYet(l: LearnerState, votes: seq<Vote>)
    requires BooksAgree(l, votes) && l.quorumSize >= 1
    ensures forall id :: !QuorumCounted(votes, l.quorumSize, |votes|, id)
  {
    assert votes[..|votes|] == votes;
    forall id ensures |CountedSince(votes, id)| < l.quorumSize {
      StoredIffStanding(l, votes, id);
      if id in l.proposals {
        var voters :| CountedVoters(l, Heard(votes), id, voters);
      }
    }
  }

  /**
   * Exactly when a heard quorum is noticed. When no id is heard with two
   * values, the learner has resolved if and only if, at some moment, a quorum
   * of acceptors had been counted for one id since an acceptor last began to
   * stand at it; until then its tables are those of the history.
   */
  lemma {:induction false} LearnerResolvesIff(uid: Uid, quorumSize: nat, votes: seq<Vote>)
    requires quorumSize >= 1 && OneValuePerId(Heard(votes))
    ensures var l := Learned(uid, quorumSize, votes);
            && l.quorumSize == quorumSize
            && (l.finalValue.Some? <==> EverQuorum(votes, quorumSize))
            && (l.finalValue.None? ==> BooksAgree(l, votes))
    decreases |votes|
  {
    if votes == [] {
      NothingHeard(uid, quorumSize);
    } else {
      var w := votes[..|votes| - 1];
      var l := Learned(uid, quorumSize, w);
      HeardGrows(votes);
      LearnerResolvesIff(uid, quorumSize, w);
      EverQuorumGrows(votes, quorumSize);
      var v := votes[|votes| - 1];
      var (next, reply) := AcceptedStep(l, v.from, v.id, v.value);
      if l.finalValue.None? {
        if LastIsNews(votes) {
          NewsAnswer(l, votes);
        } else {
          OldAnswer(l, votes);
        }
        OneMoreVote(l, next, reply, votes);
      }
    }
  }

  lemma NothingHeard(uid: Uid, quorumSize: nat)
    requires quorumSize >= 1
    ensures BooksAgree(FreshLearner(uid, quorumSize), []) && !EverQuorum([], quorumSize)
  {
    NoQuorumYet(FreshLearner(uid, quorumSize), []);
    forall k: nat, id ensures !QuorumCounted([], quorumSize, k, id) {
      assert CountedSince([], id) == {};
    }
  }

  /** The undecided learner's answer to the last vote: it resolves exactly if the vote completes a quorum. */
  ghost predicate Answered(l: LearnerState, next: LearnerState, reply: LearnerReply, votes: seq<Vote>)
    requires votes != []
  {
    && reply != Raised
    && next.quorumSize == l.quorumSize
    && (next.finalValue.Some? <==> reply.Resolution?)
    && (reply.Resolution? <==> LastIsNews(votes) && |CountedSince(votes, votes[|votes| - 1].id)| == l.quorumSize)
    && (!reply.Resolution? ==> BooksAgree(next, votes))
  }

  lemma OldReply(l: LearnerState, v: Vote)
    requires l.finalValue.None? && UpTo(Some(v.id), LastId(l, v.from))
    ensures AcceptedStep(l, v.from, v.id, v.value) == (l, Silent)
  {
  }

  lemma ReplyTells(l: LearnerState, v: Vote)
    requires l.finalValue.None?
    ensures var (next, reply) := AcceptedStep(l, v.from, v.id, v.value);
            next.quorumSize == l.quorumSize && (next.finalValue.Some? <==> reply.Resolution?)
  {
  }

  lemma OldAnswer(l: LearnerState, votes: seq<Vote>)
    requires votes != [] && BooksAgree(l, votes[..|votes| - 1]) && !LastIsNews(votes)
    ensures Answered(l, l, Silent, votes)
    ensures var v := votes[|votes| - 1]; AcceptedStep(l, v.from, v.id, v.value) == (l, Silent)
  {
    var v := votes[|votes| - 1];
    assert LastId(l, v.from) == Latest(votes[..|votes| - 1], v.from);
    OldReply(l, v);
    OldVote(l, votes);
  }

  /** The answer to news, from what it does to the tables. */
  lemma NewsAnswered(l: LearnerState, next: LearnerState, reply: LearnerReply, votes: seq<Vote>)
    requires votes != [] && BooksAgree(l, votes[..|votes| - 1]) && LastIsNews(votes)
    requires reply != Raised && next.quorumSize == l.quorumSize && (next.finalValue.Some? <==> reply.Resolution?)
    requires reply.Resolution? <==> CountWith(l, votes[|votes| - 1].id) == l.quorumSize
    requires reply == Silent ==> LearnerOk(next, Heard(votes)) && NewsCounted(l, next, votes[|votes| - 1])
    ensures Answered(l, next, reply, votes)
  {
    CountWithAgrees(l, votes);
    if reply == Silent {
      NewBooks(l, next, votes);
    }
  }

  lemma NewsAnswer(l: LearnerState, votes: seq<Vote>)
    requires votes != [] && BooksAgree(l, votes[..|votes| - 1]) && LastIsNews(votes)
    requires OneValuePerId(Heard(votes)) && l.quorumSize >= 1
    ensures var v := votes[|votes| - 1];
            var (next, reply) := AcceptedStep(l, v.from, v.id, v.value);
            Answered(l, next, reply, votes)
  {
    var w, v := votes[..|votes| - 1], votes[|votes| - 1];
    assert LastId(l, v.from) == Latest(w, v.from);
    HeardGrows(votes);
    NewsEffect(l, Heard(w), v);
    ReplyTells(l, v);
    NewsAnswered(l, AcceptedStep(l, v.from, v.id, v.value).0, AcceptedStep(l, v.from, v.id, v.value).1, votes);
  }

  lemma OneMoreVote(l: LearnerState, next: LearnerState, reply: LearnerReply, votes: seq<Vote>)
    requires votes != [] && l.quorumSize >= 1 && Answered(l, next, reply, votes)
    ensures next.finalValue.Some? <==> exists id :: QuorumCounted(votes, l.quorumSize, |votes|, id)
  {
    if reply.Resolution? {
      assert votes[..|votes|] == votes;
      assert QuorumCounted(votes, l.quorumSize, |votes|, votes[|votes| - 1].id);
    } else {
      NoQuorumYet(next, votes);
    }
  }

  /** A vote resolves an undecided learner exactly if it is news and completes a quorum of those counted for its id. */
  lemma VoteResolvesIff(uid: Uid, quorumSize: nat, votes: seq<Vote>)
    requires quorumSize >= 1 && votes != [] && OneValuePerId(Heard(votes))
    requires Learned(uid, quorumSize, votes[..|votes| - 1]).finalValue.None?
    ensures var v := votes[|votes| - 1];
            var reply := AcceptedStep(Learned(uid, quorumSize, votes[..|votes| - 1]), v.from, v.id, v.value).1;
            reply != Raised
            && (reply.Resolution? <==> LastIsNews(votes) && |CountedSince(votes, v.id)| == quorumSize)
  {
    var l := Learned(uid, quorumSize, votes[..|votes| - 1]);
    HeardGrows(votes);
    LearnerResolvesIff(uid, quorumSize, votes[..|votes| - 1]);
    if LastIsNews(votes) {
      NewsAnswer(l, votes);
    } else {
      OldAnswer(l, votes);
    }
  }

  // ----- The decision -----

  /**
   * What a resolving vote leaves: its value and id, and as final acceptors
   * those whose latest id is that id, which may be fewer than a quorum.
   */
  lemma DecisionIsTheVotes(uid: Uid, quorumSize: nat, votes: seq<Vote>)
    requires quorumSize >= 1 && votes != [] && OneValuePerId(Heard(votes))
    requires Learned(uid, quorumSize, votes[..|votes| - 1]).finalValue.None?
    requires Learned(uid, quorumSize, votes).finalValue.Some?
    ensures var (v, l) := (votes[|votes| - 1], Learned(uid, quorumSize, votes));
            && l.finalValue == Some(v.value) && l.finalProposalId == Some(v.id) && l.finalAcceptors.Some?
            && (forall u :: u in l.finalAcceptors.value <==> Latest(votes, u) == Some(v.id))
            && AcceptedStep(Learned(uid, quorumSize, votes[..|votes| - 1]), v.from, v.id, v.value).1 == Resolution(v.value)
  {
    var w, v := votes[..|votes| - 1], votes[|votes| - 1];
    var before := Learned(uid, quorumSize, w);
    HeardGrows(votes);
    LearnerResolvesIff(uid, quorumSize, w);
    assert LastId(before, v.from) == Latest(w, v.from);
    ReplyTells(before, v);
    if !LastIsNews(votes) {
      OldReply(before, v);
    }
    ResolvingTables(before, v);
    forall u
      ensures u in Learned(uid, quorumSize, votes).finalAcceptors.value <==> Latest(votes, u) == Some(v.id)
    {
      assert LastId(before, u) == Latest(w, u);
    }
  }

  /** The acceptors of the resolved proposal are those standing at it, the voter among them. */
  lemma ResolvingTables(l: LearnerState, v: Vote)
    requires l.finalValue.None? && LatestIds(l) && RetainCounts(l) && Below(LastId(l, v.from), Some(v.id))
    requires AcceptedStep(l, v.from, v.id, v.value).1.Resolution?
    ensures var (next, reply) := AcceptedStep(l, v.from, v.id, v.value);
            && next.finalValue == Some(v.value) && next.finalProposalId == Some(v.id) && next.finalAcceptors.Some?
            && reply == Resolution(v.value)
            && forall u :: u in next.finalAcceptors.value <==> u == v.from || LastId(l, u) == Some(v.id)
  {
  }

  /** Who has been heard voting for the final value at the final id or above. */
  function Confirming(votes: seq<Vote>, id: ProposalId, value: Value): set<Uid> {
    set v | v in votes && AtMost(id, v.id) && v.value == value :: v.from
  }

  /** The learner after more votes. */
  function LearnedMore(l: LearnerState, votes: seq<Vote>): LearnerState
    decreases |votes|
  {
    if votes == [] then l
    else
      var v := votes[|votes| - 1];
      AcceptedStep(LearnedMore(l, votes[..|votes| - 1]), v.from, v.id, v.value).0
  }

  function Confirmer(v: Vote, id: ProposalId, value: Value): set<Uid> {
    if AtMost(id, v.id) && v.value == value then {v.from} else {}
  }

  lemma ConfirmingGrows(votes: seq<Vote>, id: ProposalId, value: Value)
    requires votes != []
    ensures Confirming(votes, id, value)
            == Confirming(votes[..|votes| - 1], id, value) + Confirmer(votes[|votes| - 1], id, value)
  {
    var (w, v) := (votes[..|votes| - 1], votes[|votes| - 1]);
    assert votes == w + [v];
  }

  lemma DecidedStep(l: LearnerState, v: Vote)
    requires l.finalValue.Some? && l.finalProposalId.Some? && l.finalAcceptors.Some?
    ensures AcceptedStep(l, v.from, v.id, v.value)
            == (l.(finalAcceptors := Some(l.finalAcceptors.value
                                          + Confirmer(v, l.finalProposalId.value, l.finalValue.value))),
                Resolution(l.finalValue.value))
  {
    assert l.finalAcceptors.value + {} == l.finalAcceptors.value;
  }

  /**
   * A decision is final: whatever is heard afterwards, every vote is answered
   * with it, and only the final acceptors grow, by those who confirm it.
   */
  lemma {:induction false} DecisionIsFinal(l: LearnerState, votes: seq<Vote>, next: Vote)
    requires l.finalValue.Some? && l.finalProposalId.Some? && l.finalAcceptors.Some?
    ensures var m := LearnedMore(l, votes);
            && m == l.(finalAcceptors := Some(l.finalAcceptors.value
                                              + Confirming(votes, l.finalProposalId.value, l.finalValue.value)))
            && AcceptedStep(m, next.from, next.id, next.value).1 == Resolution(l.finalValue.value)
    decreases |votes|
  {
    var (id, value, first) := (l.finalProposalId.value, l.finalValue.value, l.finalAcceptors.value);
    if votes == [] {
      assert first + Confirming(votes, id, value) == first;
    } else {
      var (w, v) := (votes[..|votes| - 1], votes[|votes| - 1]);
      DecisionIsFinal(l, w, v);
      ConfirmingGrows(votes, id, value);
      DecidedStep(LearnedMore(l, w), v);
      assert (first + Confirming(w, id, value)) + Confirmer(v, id, value) == first + Confirming(votes, id, value);
    }
    DecidedStep(LearnedMore(l, votes), next);
  }
}
