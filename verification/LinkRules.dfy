/** The links a command changes: NetemMaster.modify_connections (test_executor.py). */
module LinkRules {

  /** A rule for the packets from one node to another, as handed to the daemon of the first. */
  datatype Rule = Rule(source: nat, target: nat)

  /** How a command ends: done, a node without daemon (a KeyError), or a daemon that refuses the netem command. */
  datatype Ending = Done | NoDaemon(id: nat) | Rejected

  /** modify_connection: nothing for a node and itself. */
  function RulesFor(source: nat, target: nat, bidirectional: bool): seq<Rule> {
    if source == target then []
    else if bidirectional then [Rule(source, target), Rule(target, source)]
    else [Rule(source, target)]
  }

  function RulesFrom(source: nat, targets: seq<nat>, bidirectional: bool): seq<Rule> {
    if targets == [] then [] else RulesFor(source, targets[0], bidirectional) + RulesFrom(source, targets[1..], bidirectional)
  }

  /** All the rules of a command, in the order in which the two sets are gone through. */
  function Rules(sources: seq<nat>, targets: seq<nat>, bidirectional: bool): seq<Rule> {
    if sources == [] then [] else RulesFrom(sources[0], targets, bidirectional) + Rules(sources[1..], targets, bidirectional)
  }

  /** The rules asked for until one fails. */
  function Ask(rules: seq<Rule>, daemons: set<nat>, accepts: Rule -> bool): (seq<Rule>, Ending) {
    if rules == [] then ([], Done)
    else if rules[0].source !in daemons then ([], NoDaemon(rules[0].source))
    else if !accepts(rules[0]) then ([rules[0]], Rejected)
    else
      var (asked, ending) := Ask(rules[1..], daemons, accepts);
      ([rules[0]] + asked, ending)
  }

  function Continue(before: seq<Rule>, rest: (seq<Rule>, Ending)): (seq<Rule>, Ending) {
    (before + rest.0, rest.1)
  }

  /** What follows is asked only if all before went well. */
  lemma {:induction false} AskJoin(before: seq<Rule>, a: seq<Rule>, b: seq<Rule>, daemons: set<nat>, accepts: Rule -> bool)
    ensures var (asked, ending) := Ask(a, daemons, accepts);
            Continue(before, Ask(a + b, daemons, accepts))
            == if ending == Done then Continue(before + asked, Ask(b, daemons, accepts)) else (before + asked, ending)
    decreases |a|
  {
    if a == [] {
      assert a + b == b && before + [] == before;
    } else {
      assert (a + b)[1..] == a[1..] + b;
      if a[0].source in daemons && accepts(a[0]) {
        AskJoin(before + [a[0]], a[1..], b, daemons, accepts);
        var rest, all := Ask(a[1..], daemons, accepts).0, Ask(a[1..] + b, daemons, accepts).0;
        assert before + ([a[0]] + rest) == (before + [a[0]]) + rest;
        assert before + ([a[0]] + all) == (before + [a[0]]) + all;
      }
    }
  }

  /** modify_connection: the two calls of a bidirectional command, the second only if the first went well. */
  method ModifyConnection(source: nat, target: nat, bidirectional: bool, daemons: set<nat>, accepts: Rule -> bool)
    returns (asked: seq<Rule>, ending: Ending)
    ensures (asked, ending) == Ask(RulesFor(source, target, bidirectional), daemons, accepts)
  {
    asked, ending := [], Done;
    if source == target {
      return;
    }
    var there, back := Rule(source, target), Rule(target, source);
    if source !in daemons {
      return asked, NoDaemon(source);
    }
    asked := [there];
    assert [there, back][1..] == [back] && [there][1..] == [] && [back][1..] == [];
    assert [there] + [] == [there] && [back] + [] == [back] && [there] + [back] == [there, back];
    assert Ask([], daemons, accepts) == ([], Done);
    assert source in daemons && accepts(there) ==>
             Ask([there], daemons, accepts) == ([there], Done)
             && Ask([there, back], daemons, accepts) == Continue([there], Ask([back], daemons, accepts));
    if !accepts(there) {
      return asked, Rejected;
    }
    if bidirectional {
      if target !in daemons {
        return asked, NoDaemon(target);
      }
      asked := asked + [back];
      if !accepts(back) {
        return asked, Rejected;
      }
    }
  }

  /** The inner loop of modify_connections. */
  method ModifyFrom(source: nat, targets: seq<nat>, bidirectional: bool, daemons: set<nat>, accepts: Rule -> bool)
    returns (asked: seq<Rule>, ending: Ending)
    ensures (asked, ending) == Ask(RulesFrom(source, targets, bidirectional), daemons, accepts)
  {
    asked, ending := [], Done;
    var i := 0;
    ghost var all := Ask(RulesFrom(source, targets, bidirectional), daemons, accepts);
    assert targets[0..] == targets && [] + all.0 == all.0;
    while i < |targets|
      invariant 0 <= i <= |targets| && ending == Done
      invariant all == Continue(asked, Ask(RulesFrom(source, targets[i..], bidirectional), daemons, accepts))
    {
      AskJoin(asked, RulesFor(source, targets[i], bidirectional), RulesFrom(source, targets[i + 1..], bidirectional),
              daemons, accepts);
      var some;
      some, ending := ModifyConnection(source, targets[i], bidirectional, daemons, accepts);
      assert targets[i..][1..] == targets[i + 1..];
      asked := asked + some;
      if ending != Done {
        return;
      }
      i := i + 1;
    }
    assert asked + [] == asked;
  }

  /** modify_connections: every source with every target, until one rule fails. */
  method ModifyConnections(sources: seq<nat>, targets: seq<nat>, bidirectional: bool, daemons: set<nat>, accepts: Rule -> bool)
    returns (asked: seq<Rule>, ending: Ending)
    ensures (asked, ending) == Ask(Rules(sources, targets, bidirectional), daemons, accepts)
  {
    asked, ending := [], Done;
    var i := 0;
    ghost var all := Ask(Rules(sources, targets, bidirectional), daemons, accepts);
    assert sources[0..] == sources && [] + all.0 == all.0;
    while i < |sources|
      invariant 0 <= i <= |sources| && ending == Done
      invariant all == Continue(asked, Ask(Rules(sources[i..], targets, bidirectional), daemons, accepts))
    {
      AskJoin(asked, RulesFrom(sources[i], targets, bidirectional), Rules(sources[i + 1..], targets, bidirectional),
              daemons, accepts);
      var some;
      some, ending := ModifyFrom(sources[i], targets, bidirectional, daemons, accepts);
      assert sources[i..][1..] == sources[i + 1..];
      asked := asked + some;
      if ending != Done {
        return;
      }
      i := i + 1;
    }
    assert asked + [] == asked;
  }

  lemma {:induction false} RulesFromAre(source: nat, targets: seq<nat>, bidirectional: bool, rule: Rule)
    ensures rule in RulesFrom(source, targets, bidirectional) <==>
              exists t :: t in targets && rule in RulesFor(source, t, bidirectional)
  {
    if targets != [] {
      RulesFromAre(source, targets[1..], bidirectional, rule);
      assert forall t :: t in targets <==> t == targets[0] || t in targets[1..];
    }
  }

  lemma {:induction false} RulesAre(sources: seq<nat>, targets: seq<nat>, bidirectional: bool, rule: Rule)
    ensures rule in Rules(sources, targets, bidirectional) <==>
              exists s, t :: s in sources && t in targets && rule in RulesFor(s, t, bidirectional)
  {
    if sources != [] {
      RulesAre(sources[1..], targets, bidirectional, rule);
      RulesFromAre(sources[0], targets, bidirectional, rule);
      assert forall s :: s in sources <==> s == sources[0] || s in sources[1..];
    }
  }

  /**
   * The links a command touches, `all` included: exactly the couples of its
   * product of sources and targets, and the reversed ones if bidirectional,
   * without any loopback.
   */
  lemma TouchedIff(sources: seq<nat>, targets: seq<nat>, bidirectional: bool, rule: Rule)
    ensures rule in Rules(sources, targets, bidirectional) <==>
              && rule.source != rule.target
              && (|| (rule.source in sources && rule.target in targets)
                  || (bidirectional && rule.target in sources && rule.source in targets))
  {
    RulesAre(sources, targets, bidirectional, rule);
    if rule.source != rule.target {
      assert rule in RulesFor(rule.source, rule.target, bidirectional);
      assert bidirectional ==> rule in RulesFor(rule.target, rule.source, bidirectional);
    }
  }

  /** Only rules of the command are asked for, and a command that is done has asked for all of them. */
  lemma {:induction false} AskedAre(rules: seq<Rule>, daemons: set<nat>, accepts: Rule -> bool, rule: Rule)
    ensures rule in Ask(rules, daemons, accepts).0 ==> rule in rules && rule.source in daemons
    ensures Ask(rules, daemons, accepts).1 == Done ==> Ask(rules, daemons, accepts).0 == rules
  {
    if rules != [] {
      AskedAre(rules[1..], daemons, accepts, rule);
    }
  }

  /**
   * No command, `all` included, ever asks a daemon for a rule from a node to
   * itself, however it ends; and when it is done every other couple of the
   * product has been asked for.
   */
  lemma NoLoopbackTouched(sources: seq<nat>, targets: seq<nat>, bidirectional: bool, daemons: set<nat>,
                          accepts: Rule -> bool, rule: Rule)
    ensures var (asked, ending) := Ask(Rules(sources, targets, bidirectional), daemons, accepts);
            && (rule in asked ==> rule.source != rule.target)
            && (ending == Done && rule.source in sources && rule.target in targets && rule.source != rule.target ==>
                  rule in asked)
  {
    AskedAre(Rules(sources, targets, bidirectional), daemons, accepts, rule);
    TouchedIff(sources, targets, bidirectional, rule);
  }

  // ----- Where a command stops -----

  /** A rule that goes through. */
  predicate GoesThrough(rule: Rule, daemons: set<nat>, accepts: Rule -> bool) {
    rule.source in daemons && accepts(rule)
  }

  /** Index of the first rule that does not go through, or the length. */
  function FirstFailure(rules: seq<Rule>, daemons: set<nat>, accepts: Rule -> bool): (k: nat)
    ensures k <= |rules|
    ensures k < |rules| ==> !GoesThrough(rules[k], daemons, accepts)
    ensures forall i :: 0 <= i < k ==> GoesThrough(rules[i], daemons, accepts)
  {
    if rules == [] || !GoesThrough(rules[0], daemons, accepts) then 0 else 1 + FirstFailure(rules[1..], daemons, accepts)
  }

  /**
   * A command stops at its first rule that does not go through: without a
   * daemon for its source that rule is not asked for, refused it is the last
   * one asked for; and it is done exactly if all go through.
   */
  lemma {:induction false} CommandStopsAt(rules: seq<Rule>, daemons: set<nat>, accepts: Rule -> bool)
    ensures var k := FirstFailure(rules, daemons, accepts);
            Ask(rules, daemons, accepts) ==
              if k == |rules| then (rules, Done)
              else if rules[k].source !in daemons then (rules[..k], NoDaemon(rules[k].source))
              else (rules[..k + 1], Rejected)
    decreases |rules|
  {
    if rules == [] {
    } else if GoesThrough(rules[0], daemons, accepts) {
      CommandStopsAt(rules[1..], daemons, accepts);
      var k := FirstFailure(rules[1..], daemons, accepts);
      assert rules == [rules[0]] + rules[1..];
      assert rules[..k + 1] == [rules[0]] + rules[1..][..k];
      if k < |rules[1..]| {
        assert rules[..k + 2] == [rules[0]] + rules[1..][..k + 1];
      }
    } else {
      assert rules[..0] == [] && rules[..1] == [rules[0]];
    }
  }

  /** The reverse direction of a couple is asked for only after the forward one has gone through. */
  lemma ForwardFirst(source: nat, target: nat, daemons: set<nat>, accepts: Rule -> bool)
    requires source != target
    ensures Rule(target, source) in Ask(RulesFor(source, target, true), daemons, accepts).0 ==>
              GoesThrough(Rule(source, target), daemons, accepts)
  {
    CommandStopsAt(RulesFor(source, target, true), daemons, accepts);
  }
}
