/** Two servers that end with different values at the same instance, after one raising callback. */
module TwoServers {
  import opened Options
  import opened Ballots
  import opened PaxosInstances
  import opened Nodes
  import opened Network
  import opened Invariant
  import opened Preservation
  import opened Scenario
  import P = ProposerRole
  import A = AcceptorRole
  import L = LearnerRole

  // ----- The pair -----

  function Both(a: Uid, m: Node, b: Uid, n: Node): map<Uid, Node> {
    map[a := m, b := n]
  }

  /** The pair with the node of `u` replaced. */
  function With(a: Uid, m: Node, b: Uid, n: Node, u: Uid, y: Node): map<Uid, Node> {
    if u == a then Both(a, y, b, n) else Both(a, m, b, y)
  }

  lemma Replaced(a: Uid, m: Node, b: Uid, n: Node, u: Uid, y: Node)
    requires a != b && (u == a || u == b)
    ensures Both(a, m, b, n)[u := y] == With(a, m, b, n, u, y)
  {
  }

  /** A datagram reaches one of the two. */
  lemma Delivered(a: Uid, m: Node, b: Uid, n: Node, u: Uid, y: Node, p: Packet, callbackOk: bool, mail: set<Packet>,
                  raises: nat, o: Outcome)
    requires a != b && Reached([a, b], Both(a, m, b, n), mail, raises)
    requires (u == a || u == b) && y == (if u == a then m else n)
    requires p in mail && p.dst == u && o == Receive(y, p, callbackOk)
    ensures Reached([a, b], With(a, m, b, n, u, o.node), mail + Sent(o.sent), raises + if callbackOk then 0 else 1)
  {
    GoesDeliver([a, b], Both(a, m, b, n), p, callbackOk, mail, raises, o);
    Replaced(a, m, b, n, u, o.node);
  }

  /** The id of a first round of `a`. */
  function First(a: Uid): ProposalId {
    ProposalId(1, a)
  }

  /** A node of the pair at instance k. */
  ghost predicate IsAt(n: Node, u: Uid, a: Uid, b: Uid, k: nat) {
    n.uid == u && n.peers == [a, b] && n.saved.instanceNumber == k
  }

  ghost predicate Fresh(n: Node) {
    && n.paxos == FreshPaxos(n.uid, 2, None, None, None)
    && n.saved == Saved(n.saved.instanceNumber, n.saved.currentValue, None, None, None)
  }

  /** A message of `from` for both servers. */
  function ToBoth(from: Uid, a: Uid, b: Uid, k: nat, body: Body): set<Packet> {
    {Packet(from, a, k, body), Packet(from, b, k, body)}
  }

  lemma PairCopies(n: Node, u: Uid, a: Uid, b: Uid, k: nat, body: Body)
    requires IsAt(n, u, a, b, k)
    ensures Broadcast(n, body) == [Packet(u, a, k, body), Packet(u, b, k, body)]
    ensures Sent(Broadcast(n, body)) == ToBoth(u, a, b, k, body)
  {
  }

  lemma Fewer(peers: seq<Uid>, nodes: map<Uid, Node>, mail: set<Packet>, less: set<Packet>, raises: nat)
    requires Reached(peers, nodes, mail, raises) && less <= mail
    ensures Reached(peers, nodes, less, raises)
  {
    var states, events :| EndsWith(states, events, peers, nodes, mail, raises);
    assert EndsWith(states, events, peers, nodes, less, raises);
  }

  // ----- An election -----

  function Candidate(a: Uid, x: Value, promises: set<Uid>): P.ProposerState {
    P.ProposerState(a, 2, false, Some(x), First(a), First(a), None, Some(promises), Some({}))
  }

  /** The node driving its first round, its task under handle h. */
  function Driving(n: Node, x: Value): Node {
    n.(paxos := n.paxos.(proposer := Candidate(n.uid, x, {})),
       retransmit := Some(n.nextHandle), live := map[n.nextHandle := PrepareTask(First(n.uid))],
       nextHandle := n.nextHandle + 1)
  }

  /** Having promised `id`. */
  function Promising(n: Node, id: ProposalId): Node {
    n.(paxos := n.paxos.(acceptor := A.AcceptorState(n.uid, Some(id), None, None)),
       saved := n.saved.(promisedId := Some(id)))
  }

  /** Having heard of `id`. */
  function Hearing(n: Node, id: ProposalId): Node {
    n.(paxos := n.paxos.(proposer := n.paxos.proposer.(highestProposalId := id)))
  }

  function Promised(n: Node, promises: set<Uid>): Node {
    n.(paxos := n.paxos.(proposer := n.paxos.proposer.(promises := Some(promises))))
  }

  function Leading(n: Node, a: Uid, b: Uid, x: Value): Node {
    n.(paxos := n.paxos.(proposer := n.paxos.proposer.(leader := true, promises := Some({a, b}))),
       retransmit := Some(n.nextHandle), live := map[n.nextHandle := AcceptTask(First(a), x)],
       nextHandle := n.nextHandle + 1)
  }

  lemma Drives(n: Node, a: Uid, b: Uid, k: nat, x: Value)
    requires IsAt(n, a, a, b, k) && Fresh(n) && OneTask(n)
    ensures var o := ProposeUpdate(n, x);
            && o.node == Driving(n, x)
            && Sent(o.sent) == ToBoth(a, a, b, k, Prepare(First(a)))
  {
    var m := n.(paxos := n.paxos.(proposer := P.ProposeValueStep(n.paxos.proposer, x).0));
    StopLeavesNone(m);
    var o := DriveToResolution(m);
    assert o.node == Driving(n, x);
    PairCopies(Driving(n, x), a, a, b, k, Prepare(First(a)));
  }

  lemma Promises(n: Node, u: Uid, a: Uid, b: Uid, k: nat)
    requires IsAt(n, u, a, b, k) && (u == a || u == b)
    requires n.paxos.acceptor == A.AcceptorState(u, None, None, None)
    requires n.paxos.proposer.highestProposalId == First(a) || n.paxos.proposer.highestProposalId == ProposalId(0, u)
    requires n.saved == Saved(k, n.saved.currentValue, None, None, None)
    ensures Receive(n, Packet(a, u, k, Prepare(First(a))), true)
            == Outcome(Promising(Hearing(n, First(a)), First(a)),
                       [Packet(u, a, k, Promise(First(a), None, None))], false)
  {
  }

  lemma HearsOne(n: Node, a: Uid, b: Uid, k: nat, x: Value)
    requires IsAt(n, a, a, b, k) && n.paxos.proposer == Candidate(a, x, {})
    ensures Receive(n, Packet(a, a, k, Promise(First(a), None, None)), true) == Outcome(Promised(n, {a}), [], false)
  {
    assert {} + {a} == {a} && |{a}| == 1;
  }

  lemma Wins(n: Node, a: Uid, b: Uid, k: nat, x: Value)
    requires IsAt(n, a, a, b, k) && a != b && OneTask(n)
    requires n.paxos.proposer == Candidate(a, x, {}).(promises := Some({a}))
    ensures var o := Receive(n, Packet(b, a, k, Promise(First(a), None, None)), true);
            o.node == Leading(n, a, b, x) && Sent(o.sent) == ToBoth(a, a, b, k, Accept(First(a), x))
  {
    assert {a} + {b} == {a, b} && |{a, b}| == 2;
    var q := n.paxos.proposer.(leader := true, promises := Some({a, b}));
    assert P.PromiseStep(n.paxos.proposer, b, First(a), None, None) == (q, P.SendAccept(First(a), x));
    var m := n.(paxos := n.paxos.(proposer := q));
    StopLeavesNone(m);
    assert SendAccept(m, First(a), x).node == Leading(n, a, b, x);
    PairCopies(Leading(n, a, b, x), a, a, b, k, Accept(First(a), x));
  }

  lemma StepPropose(a: Uid, m: Node, b: Uid, n: Node, k: nat, x: Value, mail: set<Packet>, raises: nat)
    requires a != b && Reached([a, b], Both(a, m, b, n), mail, raises)
    requires IsAt(m, a, a, b, k) && Fresh(m) && OneTask(m)
    ensures Reached([a, b], Both(a, Driving(m, x), b, n), mail + ToBoth(a, a, b, k, Prepare(First(a))), raises)
  {
    Drives(m, a, b, k, x);
    Goes([a, b], Both(a, m, b, n), mail, raises, Propose(a, x), ProposeUpdate(m, x));
    Replaced(a, m, b, n, a, Driving(m, x));
  }

  lemma StepPromise(a: Uid, m: Node, b: Uid, n: Node, u: Uid, y: Node, k: nat, mail: set<Packet>, raises: nat)
    requires a != b && Reached([a, b], Both(a, m, b, n), mail, raises)
    requires (u == a || u == b) && y == (if u == a then m else n) && IsAt(y, u, a, b, k)
    requires y.paxos.acceptor == A.AcceptorState(u, None, None, None)
    requires y.paxos.proposer.highestProposalId == First(a) || y.paxos.proposer.highestProposalId == ProposalId(0, u)
    requires y.saved == Saved(k, y.saved.currentValue, None, None, None)
    requires Packet(a, u, k, Prepare(First(a))) in mail
    ensures Reached([a, b], With(a, m, b, n, u, Promising(Hearing(y, First(a)), First(a))),
                    mail + {Packet(u, a, k, Promise(First(a), None, None))}, raises)
  {
    Promises(y, u, a, b, k);
    var p := Packet(a, u, k, Prepare(First(a)));
    Delivered(a, m, b, n, u, y, p, true, mail, raises, Receive(y, p, true));
    assert Sent([Packet(u, a, k, Promise(First(a), None, None))]) == {Packet(u, a, k, Promise(First(a), None, None))};
  }

  lemma StepHear(a: Uid, m: Node, b: Uid, n: Node, k: nat, x: Value, mail: set<Packet>, raises: nat)
    requires a != b && Reached([a, b], Both(a, m, b, n), mail, raises)
    requires IsAt(m, a, a, b, k) && m.paxos.proposer == Candidate(a, x, {})
    requires Packet(a, a, k, Promise(First(a), None, None)) in mail
    ensures Reached([a, b], Both(a, Promised(m, {a}), b, n), mail, raises)
  {
    HearsOne(m, a, b, k, x);
    var p := Packet(a, a, k, Promise(First(a), None, None));
    Delivered(a, m, b, n, a, m, p, true, mail, raises, Receive(m, p, true));
    assert mail + Sent([]) == mail;
  }

  lemma StepWin(a: Uid, m: Node, b: Uid, n: Node, k: nat, x: Value, mail: set<Packet>, raises: nat)
    requires a != b && Reached([a, b], Both(a, m, b, n), mail, raises)
    requires IsAt(m, a, a, b, k) && OneTask(m) && m.paxos.proposer == Candidate(a, x, {}).(promises := Some({a}))
    requires Packet(b, a, k, Promise(First(a), None, None)) in mail
    ensures Reached([a, b], Both(a, Leading(m, a, b, x), b, n), mail + ToBoth(a, a, b, k, Accept(First(a), x)), raises)
  {
    Wins(m, a, b, k, x);
    var p := Packet(b, a, k, Promise(First(a), None, None));
    Delivered(a, m, b, n, a, m, p, true, mail, raises, Receive(m, p, true));
  }

  /** The proposing server before and after its election. */
  function Runner(m: Node, a: Uid, x: Value): Node {
    Promising(Hearing(Driving(m, x), First(a)), First(a))
  }

  function Leader(m: Node, a: Uid, b: Uid, x: Value): Node {
    Leading(Promised(Runner(m, a, x), {a}), a, b, x)
  }

  function Follower(n: Node, a: Uid): Node {
    Promising(Hearing(n, First(a)), First(a))
  }

  /** The first half of an election: both have promised. */
  lemma Canvass(a: Uid, m: Node, b: Uid, n: Node, k: nat, x: Value, mail: set<Packet>, raises: nat)
    requires a != b && Reached([a, b], Both(a, m, b, n), mail, raises)
    requires IsAt(m, a, a, b, k) && IsAt(n, b, a, b, k) && Fresh(m) && Fresh(n) && OneTask(m)
    ensures Reached([a, b], Both(a, Runner(m, a, x), b, Follower(n, a)),
                    mail + {Packet(a, a, k, Promise(First(a), None, None)), Packet(b, a, k, Promise(First(a), None, None))},
                    raises)
  {
    var vow := Promise(First(a), None, None);
    StepPropose(a, m, b, n, k, x, mail, raises);
    var (m1, mail1) := (Driving(m, x), mail + ToBoth(a, a, b, k, Prepare(First(a))));
    StepPromise(a, m1, b, n, b, n, k, mail1, raises);
    StepPromise(a, m1, b, Follower(n, a), a, m1, k, mail1 + {Packet(b, a, k, vow)}, raises);
    Fewer([a, b], Both(a, Runner(m, a, x), b, Follower(n, a)),
          mail1 + {Packet(b, a, k, vow)} + {Packet(a, a, k, vow)},
          mail + {Packet(a, a, k, vow), Packet(b, a, k, vow)}, raises);
  }

  /** From two fresh nodes at an instance, `a` proposes `x` and is elected by both. */
  lemma Election(a: Uid, m: Node, b: Uid, n: Node, k: nat, x: Value, mail: set<Packet>, raises: nat)
    requires a != b && Reached([a, b], Both(a, m, b, n), mail, raises)
    requires IsAt(m, a, a, b, k) && IsAt(n, b, a, b, k) && Fresh(m) && Fresh(n) && OneTask(m)
    ensures Reached([a, b], Both(a, Leader(m, a, b, x), b, Follower(n, a)),
                    mail + ToBoth(a, a, b, k, Accept(First(a), x)), raises)
  {
    var vow := Promise(First(a), None, None);
    Canvass(a, m, b, n, k, x, mail, raises);
    var (m1, n1) := (Runner(m, a, x), Follower(n, a));
    var mail1 := mail + {Packet(a, a, k, vow), Packet(b, a, k, vow)};
    StepHear(a, m1, b, n1, k, x, mail1, raises);
    StepWin(a, Promised(m1, {a}), b, n1, k, x, mail1, raises);
    Fewer([a, b], Both(a, Leader(m, a, b, x), b, n1), mail1 + ToBoth(a, a, b, k, Accept(First(a), x)),
          mail + ToBoth(a, a, b, k, Accept(First(a), x)), raises);
  }

  // ----- Votes -----

  /** Ready to vote for `id`, having promised just that. */
  ghost predicate Ready(n: Node, id: ProposalId) {
    && n.paxos.acceptor.uid == n.uid
    && n.paxos.acceptor.promisedId == Some(id) && n.saved.promisedId == Some(id)
    && n.paxos.proposer.highestProposalId == id
  }

  function Voter(n: Node, id: ProposalId, x: Value): Node {
    n.(paxos := n.paxos.(acceptor := A.AcceptorState(n.uid, Some(id), Some(id), Some(x))),
       saved := n.saved.(acceptedId := Some(id), acceptedValue := Some(x)))
  }

  lemma Votes(n: Node, u: Uid, a: Uid, b: Uid, k: nat, x: Value)
    requires IsAt(n, u, a, b, k) && Ready(n, First(a))
    ensures var o := Receive(n, Packet(a, u, k, Accept(First(a), x)), true);
            && o.node == Voter(n, First(a), x)
            && Sent(o.sent) == ToBoth(u, a, b, k, Accepted(First(a), x))
  {
    PairCopies(n.(paxos := OnAccept(n.paxos, First(a), x).0), u, a, b, k, Accepted(First(a), x));
  }

  lemma StepVote(a: Uid, m: Node, b: Uid, n: Node, u: Uid, y: Node, k: nat, x: Value, mail: set<Packet>, raises: nat)
    requires a != b && Reached([a, b], Both(a, m, b, n), mail, raises)
    requires (u == a || u == b) && y == (if u == a then m else n) && IsAt(y, u, a, b, k) && Ready(y, First(a))
    requires Packet(a, u, k, Accept(First(a), x)) in mail
    ensures Reached([a, b], With(a, m, b, n, u, Voter(y, First(a), x)),
                    mail + ToBoth(u, a, b, k, Accepted(First(a), x)), raises)
  {
    Votes(y, u, a, b, k, x);
    var p := Packet(a, u, k, Accept(First(a), x));
    Delivered(a, m, b, n, u, y, p, true, mail, raises, Receive(y, p, true));
  }

  /** Both vote for an Accept that has been sent to both. */
  lemma Vote(a: Uid, m: Node, b: Uid, n: Node, k: nat, x: Value, mail: set<Packet>, raises: nat)
    requires a != b && Reached([a, b], Both(a, m, b, n), mail, raises)
    requires IsAt(m, a, a, b, k) && IsAt(n, b, a, b, k) && Ready(m, First(a)) && Ready(n, First(a))
    requires ToBoth(a, a, b, k, Accept(First(a), x)) <= mail
    ensures Reached([a, b], Both(a, Voter(m, First(a), x), b, Voter(n, First(a), x)),
                    mail + ToBoth(a, a, b, k, Accepted(First(a), x)) + ToBoth(b, a, b, k, Accepted(First(a), x)), raises)
  {
    StepVote(a, m, b, n, a, m, k, x, mail, raises);
    StepVote(a, Voter(m, First(a), x), b, n, b, n, k, x, mail + ToBoth(a, a, b, k, Accepted(First(a), x)), raises);
  }

  // ----- Resolutions -----

  /** One vote counted. */
  function Counting(n: Node, from: Uid, id: ProposalId, x: Value): Node {
    n.(paxos := n.paxos.(learner := n.paxos.learner.(proposals := map[id := L.Status(1, 1, {from}, x)],
                                                    acceptors := map[from := id])))
  }

  function Moved(n: Node, k: nat, x: Value, callbackOk: bool): Node {
    AdvanceInstance(n, k + 1, Some(x), callbackOk).node
  }

  lemma CountsFirst(n: Node, u: Uid, a: Uid, b: Uid, k: nat, x: Value)
    requires IsAt(n, u, a, b, k) && n.paxos.learner == L.FreshLearner(u, 2)
    ensures Receive(n, Packet(a, u, k, Accepted(First(a), x)), true) == Outcome(Counting(n, a, First(a), x), [], false)
  {
    var l := n.paxos.learner;
    assert {} + {a} == {a};
    assert L.Open(map[], First(a), x)[First(a) := L.Status(1, 1, {a}, x)] == map[First(a) := L.Status(1, 1, {a}, x)];
    assert L.AcceptedStep(l, a, First(a), x)
        == (l.(proposals := map[First(a) := L.Status(1, 1, {a}, x)], acceptors := map[a := First(a)]), L.Silent);
  }

  lemma ResolvesSecond(n: Node, u: Uid, a: Uid, b: Uid, k: nat, x: Value, callbackOk: bool)
    requires IsAt(n, u, a, b, k) && n.paxos.learner == L.FreshLearner(u, 2) && a != b
    ensures var o := Receive(Counting(n, a, First(a), x), Packet(b, u, k, Accepted(First(a), x)), callbackOk);
            o.node == Moved(n, k, x, callbackOk) && o.sent == []
  {
    var l := Counting(n, a, First(a), x).paxos.learner;
    assert L.AcceptedStep(l, b, First(a), x).1 == L.Resolution(x);
  }

  lemma StepCount(a: Uid, m: Node, b: Uid, n: Node, u: Uid, y: Node, k: nat, x: Value, mail: set<Packet>, raises: nat)
    requires a != b && Reached([a, b], Both(a, m, b, n), mail, raises)
    requires (u == a || u == b) && y == (if u == a then m else n) && IsAt(y, u, a, b, k)
    requires y.paxos.learner == L.FreshLearner(u, 2) && Packet(a, u, k, Accepted(First(a), x)) in mail
    ensures Reached([a, b], With(a, m, b, n, u, Counting(y, a, First(a), x)), mail, raises)
  {
    CountsFirst(y, u, a, b, k, x);
    var p := Packet(a, u, k, Accepted(First(a), x));
    Delivered(a, m, b, n, u, y, p, true, mail, raises, Receive(y, p, true));
    assert mail + Sent([]) == mail;
  }

  lemma StepResolve(a: Uid, m: Node, b: Uid, n: Node, u: Uid, y: Node, k: nat, x: Value, callbackOk: bool,
                    mail: set<Packet>, raises: nat)
    requires a != b && (u == a || u == b) && Packet(b, u, k, Accepted(First(a), x)) in mail
    requires IsAt(y, u, a, b, k) && y.paxos.learner == L.FreshLearner(u, 2)
    requires Reached([a, b], With(a, m, b, n, u, Counting(y, a, First(a), x)), mail, raises)
    ensures Reached([a, b], With(a, m, b, n, u, Moved(y, k, x, callbackOk)), mail, raises + if callbackOk then 0 else 1)
  {
    var c := Counting(y, a, First(a), x);
    ResolvesSecond(y, u, a, b, k, x, callbackOk);
    var p := Packet(b, u, k, Accepted(First(a), x));
    Delivered(a, if u == a then c else m, b, if u == a then n else c, u, c, p, callbackOk, mail, raises,
              Receive(c, p, callbackOk));
    assert mail + Sent([]) == mail;
  }

  /** A server hears both votes and advances. */
  lemma Resolve(a: Uid, m: Node, b: Uid, n: Node, u: Uid, y: Node, k: nat, x: Value, callbackOk: bool,
                mail: set<Packet>, raises: nat)
    requires a != b && (u == a || u == b) && Reached([a, b], Both(a, m, b, n), mail, raises)
    requires y == (if u == a then m else n) && IsAt(y, u, a, b, k) && y.paxos.learner == L.FreshLearner(u, 2)
    requires Packet(a, u, k, Accepted(First(a), x)) in mail && Packet(b, u, k, Accepted(First(a), x)) in mail
    ensures Reached([a, b], With(a, m, b, n, u, Moved(y, k, x, callbackOk)), mail, raises + if callbackOk then 0 else 1)
  {
    StepCount(a, m, b, n, u, y, k, x, mail, raises);
    StepResolve(a, m, b, n, u, y, k, x, callbackOk, mail, raises);
  }

  // ----- The story -----

  /** Both have voted for `v` in instance 0. */
  function VotedFirst(a: Uid, b: Uid, v: Value): (Node, Node) {
    (Voter(Leader(FreshNode(a, [a, b]), a, b, v), First(a), v), Voter(Follower(FreshNode(b, [a, b]), a), First(a), v))
  }

  function FirstVotes(a: Uid, b: Uid, v: Value): set<Packet> {
    ToBoth(a, a, b, 0, Accepted(First(a), v)) + ToBoth(b, a, b, 0, Accepted(First(a), v))
  }

  /** What advancing leaves of the two. */
  lemma MovedFirst(a: Uid, b: Uid, v: Value)
    ensures var (m, n) := (Moved(VotedFirst(a, b, v).0, 0, v, false), Moved(VotedFirst(a, b, v).1, 0, v, true));
            && IsAt(m, a, a, b, 1) && IsAt(n, b, a, b, 1) && Fresh(m) && Fresh(n)
            && OneTask(m) && m.live == map[1 := AcceptTask(First(a), v)]
  {
  }

  lemma VotedAt(a: Uid, b: Uid, v: Value)
    ensures var (m, n) := VotedFirst(a, b, v);
            && IsAt(m, a, a, b, 0) && IsAt(n, b, a, b, 0)
            && m.paxos.learner == L.FreshLearner(a, 2) && n.paxos.learner == L.FreshLearner(b, 2)
  {
  }

  lemma FirstBallot(a: Uid, b: Uid, v: Value)
    requires a != b
    ensures Reached([a, b], Both(a, VotedFirst(a, b, v).0, b, VotedFirst(a, b, v).1), FirstVotes(a, b, v), 0)
  {
    var (m0, n0) := (FreshNode(a, [a, b]), FreshNode(b, [a, b]));
    Begins([a, b]);
    assert (map u | u in Members([a, b]) :: FreshNode(u, [a, b])) == Both(a, m0, b, n0);
    Election(a, m0, b, n0, 0, v, {}, 0);
    var (m1, n1) := (Leader(m0, a, b, v), Follower(n0, a));
    var mail := {} + ToBoth(a, a, b, 0, Accept(First(a), v));
    Vote(a, m1, b, n1, 0, v, mail, 0);
    Fewer([a, b], Both(a, VotedFirst(a, b, v).0, b, VotedFirst(a, b, v).1),
          mail + ToBoth(a, a, b, 0, Accepted(First(a), v)) + ToBoth(b, a, b, 0, Accepted(First(a), v)),
          FirstVotes(a, b, v), 0);
  }

  /** Both servers at instance 1, `a` still retransmitting its Accept of instance 0. */
  lemma FirstInstance(a: Uid, b: Uid, v: Value) returns (m: Node, n: Node)
    requires a != b
    ensures IsAt(m, a, a, b, 1) && IsAt(n, b, a, b, 1) && Fresh(m) && Fresh(n) && OneTask(m)
    ensures m.live == map[1 := AcceptTask(First(a), v)]
    ensures Reached([a, b], Both(a, m, b, n), {}, 1)
  {
    FirstBallot(a, b, v);
    VotedAt(a, b, v);
    MovedFirst(a, b, v);
    m, n := Moved(VotedFirst(a, b, v).0, 0, v, false), Moved(VotedFirst(a, b, v).1, 0, v, true);
    FirstMoves(a, VotedFirst(a, b, v).0, b, VotedFirst(a, b, v).1, v);
  }

  lemma FirstMoves(a: Uid, m: Node, b: Uid, n: Node, v: Value)
    requires a != b && Reached([a, b], Both(a, m, b, n), FirstVotes(a, b, v), 0)
    requires IsAt(m, a, a, b, 0) && IsAt(n, b, a, b, 0)
    requires m.paxos.learner == L.FreshLearner(a, 2) && n.paxos.learner == L.FreshLearner(b, 2)
    ensures Reached([a, b], Both(a, Moved(m, 0, v, false), b, Moved(n, 0, v, true)), {}, 1)
  {
    Resolve(a, m, b, n, b, n, 0, v, true, FirstVotes(a, b, v), 0);
    CallbackRaises(a, m, b, Moved(n, 0, v, true), v);
    Fewer([a, b], Both(a, Moved(m, 0, v, false), b, Moved(n, 0, v, true)), FirstVotes(a, b, v), {}, 1);
  }

  /** The callback of `a` raises. */
  lemma CallbackRaises(a: Uid, m: Node, b: Uid, n: Node, v: Value)
    requires a != b && Reached([a, b], Both(a, m, b, n), FirstVotes(a, b, v), 0)
    requires IsAt(m, a, a, b, 0) && m.paxos.learner == L.FreshLearner(a, 2)
    ensures Reached([a, b], Both(a, Moved(m, 0, v, false), b, n), FirstVotes(a, b, v), 1)
  {
    Resolve(a, m, b, n, a, m, 0, v, false, FirstVotes(a, b, v), 0);
  }

  lemma StepRetransmit(a: Uid, m: Node, b: Uid, n: Node, v: Value)
    requires a != b && Reached([a, b], Both(a, m, b, n), {}, 1)
    requires IsAt(m, a, a, b, 1) && m.live == map[1 := AcceptTask(First(a), v)]
    ensures Reached([a, b], Both(a, m, b, n), ToBoth(a, a, b, 1, Accept(First(a), v)), 1)
  {
    PairCopies(m, a, a, b, 1, Accept(First(a), v));
    Goes([a, b], Both(a, m, b, n), {}, 1, RetransmitTimer(a, 1), FireTask(m, m.live[1]));
    Replaced(a, m, b, n, a, m);
    assert {} + ToBoth(a, a, b, 1, Accept(First(a), v)) == ToBoth(a, a, b, 1, Accept(First(a), v));
  }

  /** Both servers' votes for both values in instance 1. */
  function BothVotes(a: Uid, b: Uid, v: Value, w: Value): set<Packet> {
    ToBoth(a, a, b, 1, Accepted(First(a), v)) + ToBoth(b, a, b, 1, Accepted(First(a), v))
    + ToBoth(a, a, b, 1, Accepted(First(a), w)) + ToBoth(b, a, b, 1, Accepted(First(a), w))
  }

  /** The old Accept is retransmitted under instance 1, and a second value proposed there: both are voted for. */
  lemma SecondInstance(a: Uid, m: Node, b: Uid, n: Node, v: Value, w: Value) returns (m': Node, n': Node)
    requires a != b && Reached([a, b], Both(a, m, b, n), {}, 1)
    requires IsAt(m, a, a, b, 1) && IsAt(n, b, a, b, 1) && Fresh(m) && Fresh(n) && OneTask(m)
    requires m.live == map[1 := AcceptTask(First(a), v)]
    ensures Reached([a, b], Both(a, m', b, n'), BothVotes(a, b, v, w), 1)
    ensures IsAt(m', a, a, b, 1) && IsAt(n', b, a, b, 1)
    ensures m'.paxos.learner == L.FreshLearner(a, 2) && n'.paxos.learner == L.FreshLearner(b, 2)
  {
    StepRetransmit(a, m, b, n, v);
    var mail0 := ToBoth(a, a, b, 1, Accept(First(a), v));
    Election(a, m, b, n, 1, w, mail0, 1);
    var (m1, n1) := (Leader(m, a, b, w), Follower(n, a));
    var mail1 := mail0 + ToBoth(a, a, b, 1, Accept(First(a), w));
    Vote(a, m1, b, n1, 1, v, mail1, 1);
    var (m2, n2) := (Voter(m1, First(a), v), Voter(n1, First(a), v));
    var mail2 := mail1 + ToBoth(a, a, b, 1, Accepted(First(a), v)) + ToBoth(b, a, b, 1, Accepted(First(a), v));
    Vote(a, m2, b, n2, 1, w, mail2, 1);
    m', n' := Voter(m2, First(a), w), Voter(n2, First(a), w);
    Fewer([a, b], Both(a, m', b, n'),
          mail2 + ToBoth(a, a, b, 1, Accepted(First(a), w)) + ToBoth(b, a, b, 1, Accepted(First(a), w)),
          BothVotes(a, b, v, w), 1);
  }

  /**
   * Without the guard on runs, CurrentValuesAgree fails: one raising callback,
   * and two servers hold any two values at the same instance.
   */
  lemma ServersDisagree(a: Uid, b: Uid, v: Value, w: Value) returns (states: seq<System>, events: seq<Event>)
    requires a != b
    ensures LooseRun(states, events) && Raises(events) == 1
    ensures var s := states[|states| - 1];
            && a in s.nodes && b in s.nodes
            && s.nodes[a].saved.instanceNumber == s.nodes[b].saved.instanceNumber == 2
            && s.nodes[a].saved.currentValue == Some(v)
            && s.nodes[b].saved.currentValue == Some(w)
  {
    var m, n := FirstInstance(a, b, v);
    var m1, n1 := SecondInstance(a, m, b, n, v, w);
    LastMoves(a, m1, b, n1, v, w);
    MovedSaved(m1, 1, v);
    MovedSaved(n1, 1, w);
    states, events := RunOf([a, b], Both(a, Moved(m1, 1, v, true), b, Moved(n1, 1, w, true)), BothVotes(a, b, v, w), 1);
  }

  lemma MovedSaved(n: Node, k: nat, x: Value)
    ensures Moved(n, k, x, true).saved == Saved(k + 1, Some(x), None, None, None)
  {
  }

  lemma LastMoves(a: Uid, m: Node, b: Uid, n: Node, v: Value, w: Value)
    requires a != b && Reached([a, b], Both(a, m, b, n), BothVotes(a, b, v, w), 1)
    requires IsAt(m, a, a, b, 1) && IsAt(n, b, a, b, 1)
    requires m.paxos.learner == L.FreshLearner(a, 2) && n.paxos.learner == L.FreshLearner(b, 2)
    ensures Reached([a, b], Both(a, Moved(m, 1, v, true), b, Moved(n, 1, w, true)), BothVotes(a, b, v, w), 1)
  {
    var mail := BothVotes(a, b, v, w);
    Resolve(a, m, b, n, a, m, 1, v, true, mail, 1);
    Resolve(a, Moved(m, 1, v, true), b, n, b, n, 1, w, true, mail, 1);
  }
}
