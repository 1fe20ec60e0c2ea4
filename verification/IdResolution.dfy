/** CommandUnwrapper.resolve_ids and resolve: node ids, `all` and `rand` in a command (test_executor.py). */
module IdResolution {
  import opened Options
  import opened Sets

  /** A word of the source or target list; digits are read by int(). */
  datatype Word = Id(n: nat) | Rand | All | Other(text: string)

  datatype Failure = TooManyRand | OutOfRange(n: nat) | NotValid(text: string) | PopFromEmpty

  /** `Drawing`: the random numbers supplied ran out before the last free id was drawn. */
  datatype Resolution =
    | Resolved(sources: set<nat>, targets: set<nat>, drawn: seq<nat>)
    | Refused(failure: Failure)
    | Drawing

  function RandCount(words: seq<Word>): nat {
    if words == [] then 0 else (if words[0].Rand? then 1 else 0) + RandCount(words[1..])
  }

  lemma {:induction false} RandCountOfJoin(a: seq<Word>, b: seq<Word>)
    ensures RandCount(a + b) == RandCount(a) + RandCount(b)
  {
    if a == [] {
      assert a + b == b;
    } else {
      RandCountOfJoin(a[1..], b);
      assert (a + b)[1..] == a[1..] + b;
    }
  }

  /** Counting up to word i, and from word i on. */
  lemma {:induction false} CountNext(words: seq<Word>, i: nat)
    requires i < |words|
    ensures RandCount(words[..i + 1]) == RandCount(words[..i]) + if words[i].Rand? then 1 else 0
    ensures RandCount(words[i..]) == RandCount(words[i + 1..]) + if words[i].Rand? then 1 else 0
    ensures RandCount(words[..i]) + RandCount(words[i..]) == RandCount(words)
  {
    assert words[..i] + words[i..] == words;
    RandCountOfJoin(words[..i], words[i..]);
    assert words[..i + 1] == words[..i] + [words[i]];
    RandCountOfJoin(words[..i], [words[i]]);
    assert words[i..] == [words[i]] + words[i + 1..];
    RandCountOfJoin([words[i]], words[i + 1..]);
  }

  /** The ids 1 to `nodes`. */
  function NodeIds(nodes: nat): (ids: set<nat>)
    ensures forall i :: i in ids <==> 1 <= i <= nodes
    ensures |ids| == nodes
  {
    if nodes == 0 then {} else NodeIds(nodes - 1) + {nodes}
  }

  // ----- resolve -----

  /** The first word that resolve refuses, if any. */
  function FirstRefusal(words: seq<Word>, nodes: nat): Option<Failure> {
    if words == [] then None
    else
      match words[0]
      case Id(n) => if n > nodes then Some(OutOfRange(n)) else FirstRefusal(words[1..], nodes)
      case Other(text) => Some(NotValid(text))
      case _ => FirstRefusal(words[1..], nodes)
  }

  /** What resolve raises when `supply` random values are left: popping from an empty list is a failure too. */
  function ResolveFailure(words: seq<Word>, nodes: nat, supply: nat): Option<Failure> {
    if words == [] then None
    else
      match words[0]
      case Id(n) => if n > nodes then Some(OutOfRange(n)) else ResolveFailure(words[1..], nodes, supply)
      case Rand => if supply == 0 then Some(PopFromEmpty) else ResolveFailure(words[1..], nodes, supply - 1)
      case All => ResolveFailure(words[1..], nodes, supply)
      case Other(text) => Some(NotValid(text))
  }

  /** With a value for every `rand`, no empty list is popped. */
  lemma {:induction false} EnoughNeverPops(words: seq<Word>, nodes: nat, supply: nat)
    requires RandCount(words) <= supply
    ensures ResolveFailure(words, nodes, supply) == FirstRefusal(words, nodes) != Some(PopFromEmpty)
  {
    if words != [] {
      EnoughNeverPops(words[1..], nodes, if words[0].Rand? then supply - 1 else supply);
    }
  }

  /** `v` is named by the list: explicitly, by `all`, or by one of its `rand`s taken from `drawn` in order. */
  ghost predicate Denotes(words: seq<Word>, nodes: nat, drawn: seq<nat>, v: nat)
    requires RandCount(words) <= |drawn|
  {
    || Id(v) in words
    || (All in words && 1 <= v <= nodes)
    || v in drawn[..RandCount(words)]
  }

  /** One word more names one set of ids more. */
  lemma DenotesNext(words: seq<Word>, i: nat, nodes: nat, drawn: seq<nat>, v: nat)
    requires i < |words| && RandCount(words[..i + 1]) <= |drawn|
    ensures RandCount(words[..i]) <= |drawn| && (words[i].Rand? ==> RandCount(words[..i]) < |drawn|)
    ensures Denotes(words[..i + 1], nodes, drawn, v) <==>
            Denotes(words[..i], nodes, drawn, v)
            || match words[i]
               case Id(n) => v == n
               case All => 1 <= v <= nodes
               case Rand => v == drawn[RandCount(words[..i])]
               case Other(_) => false
  {
    CountNext(words, i);
    InPrefix(words, i, Id(v));
    InPrefix(words, i, All);
    if words[i].Rand? {
      InPrefix(drawn, RandCount(words[..i]), v);
    }
  }

  lemma InPrefix<T>(s: seq<T>, i: nat, x: T)
    requires i < |s|
    ensures x in s[..i + 1] <==> x in s[..i] || x == s[i]
  {
    assert s[..i + 1] == s[..i] + [s[i]];
  }

  /** resolve: pops one random value for every `rand`, adds every id for `all`, and checks explicit ids from above only. */
  method Resolve(words: seq<Word>, nodes: nat, randomValues: seq<nat>)
    returns (ids: set<nat>, rest: seq<nat>, failure: Option<Failure>)
    ensures failure == ResolveFailure(words, nodes, |randomValues|)
    ensures failure == None ==>
              && RandCount(words) <= |randomValues|
              && (forall v :: v in ids <==> Denotes(words, nodes, randomValues, v))
              && rest == randomValues[RandCount(words)..]
  {
    ids, rest, failure := {}, randomValues, None;
    var i := 0;
    while i < |words|
      invariant 0 <= i <= |words|
      invariant RandCount(words[..i]) <= |randomValues|
      invariant rest == randomValues[RandCount(words[..i])..]
      invariant forall v :: v in ids <==> Denotes(words[..i], nodes, randomValues, v)
      invariant ResolveFailure(words[i..], nodes, |rest|) == ResolveFailure(words, nodes, |randomValues|)
    {
      CountNext(words, i);
      if words[i].Rand? && rest == [] {
        return ids, rest, Some(PopFromEmpty);
      }
      forall v: nat
        ensures Denotes(words[..i + 1], nodes, randomValues, v) <==>
                Denotes(words[..i], nodes, randomValues, v)
                || match words[i]
                   case Id(n) => v == n
                   case All => 1 <= v <= nodes
                   case Rand => v == randomValues[RandCount(words[..i])]
                   case Other(_) => false
      {
        DenotesNext(words, i, nodes, randomValues, v);
      }
      match words[i] {
        case Id(n) =>
          if n > nodes {
            return ids, rest, Some(OutOfRange(n));
          }
          ids := ids + {n};
        case Rand =>
          ids := ids + {rest[0]};
          rest := rest[1..];
        case All =>
          var k := 1;
          ghost var before := ids;
          while k < nodes + 1
            invariant 1 <= k <= nodes + 1
            invariant forall v :: v in ids <==> v in before || 1 <= v < k
          {
            ids := ids + {k};
            k := k + 1;
          }
        case Other(text) =>
          return ids, rest, Some(NotValid(text));
      }
      i := i + 1;
    }
    assert words[..i] == words;
  }

  // ----- resolve_ids -----

  /** The ids written out in a list. */
  function Explicit(words: seq<Word>): (ids: set<nat>)
    ensures forall v :: v in ids <==> Id(v) in words
  {
    if words == [] then {} else (if words[0].Id? then {words[0].n} else {}) + Explicit(words[1..])
  }

  predicate NoRepeats(s: seq<nat>) {
    forall i, j :: 0 <= i < j < |s| ==> s[i] != s[j]
  }

  /** While ids remain to be drawn, one of the nodes is still free. */
  lemma FreeIdExists(referred: set<nat>, remaining: nat, nodes: nat) returns (free: nat)
    requires |referred| + remaining <= nodes && remaining > 0
    ensures 1 <= free <= nodes && free !in referred
  {
    var left := NodeIds(nodes) - referred;
    assert NodeIds(nodes) <= left + referred;
    SubsetSize(NodeIds(nodes), left + referred);
    assert |left + referred| <= |left| + |referred|;
    free :| free in left;
  }

  /** Drawn ids: free nodes, no two alike, none written out in the command. */
  ghost predicate WellDrawn(drawn: seq<nat>, taken: set<nat>, nodes: nat) {
    NoRepeats(drawn) && forall v :: v in drawn ==> 1 <= v <= nodes && v !in taken
  }

  /** The ids of `draws` that could have served. */
  ghost function Usable(draws: seq<nat>, taken: set<nat>): set<nat> {
    (set v | v in draws) - taken
  }

  /** The sets belong to the lists, the drawn ids being shared out in order. */
  ghost predicate Faithful(sources: seq<Word>, targets: seq<Word>, nodes: nat, r: Resolution)
    requires r.Resolved?
  {
    && |r.drawn| == RandCount(sources) + RandCount(targets)
    && (forall v :: v in r.sources <==> Denotes(sources, nodes, r.drawn, v))
    && (forall v :: v in r.targets <==> Denotes(targets, nodes, r.drawn[RandCount(sources)..], v))
  }

  /** The first loop: the ids referred to, and how many are to be drawn. */
  method Refer(words: seq<Word>) returns (referred: set<nat>, count: nat)
    ensures referred == Explicit(words) && count == RandCount(words)
  {
    referred, count := {}, 0;
    for i := 0 to |words|
      invariant forall v :: v in referred <==> Id(v) in words[..i]
      invariant count == RandCount(words[..i])
    {
      CountNext(words, i);
      assert words[..i + 1] == words[..i] + [words[i]];
      if words[i].Id? {
        referred := referred + {words[i].n};
      }
      if words[i].Rand? {
        count := count + 1;
      }
    }
    assert words[..|words|] == words;
  }

  /** The drawing loop: numbers already referred to are thrown away. `enough` is false when the numbers run out. */
  method Draw(taken: set<nat>, count: nat, nodes: nat, draws: seq<nat>)
    returns (drawn: seq<nat>, enough: bool)
    requires |taken| + count <= nodes
    requires forall v :: v in draws ==> 1 <= v <= nodes
    ensures WellDrawn(drawn, taken, nodes)
    ensures enough ==> |drawn| == count
    ensures !enough ==> |Usable(draws, taken)| < count
  {
    drawn := [];
    var referred, remaining, next := taken, count, 0;
    while remaining > 0
      invariant remaining >= 0 && remaining + |drawn| == count && 0 <= next <= |draws|
      invariant WellDrawn(drawn, taken, nodes)
      invariant referred == taken + (set v | v in drawn)
      invariant |referred| + remaining <= nodes
      invariant forall v :: v in Usable(draws[..next], taken) ==> v in drawn
      decreases |draws| - next
    {
      var _ := FreeIdExists(referred, remaining, nodes);
      if next == |draws| {
        assert draws[..next] == draws;
        UsableIsDrawn(draws, taken, drawn);
        return drawn, false;
      }
      var ran := draws[next];
      assert draws[..next + 1] == draws[..next] + [ran];
      next := next + 1;
      if ran !in referred {
        assert ran in draws;
        WellDrawnNext(drawn, taken, nodes, ran);
        referred := referred + {ran};
        drawn := drawn + [ran];
        remaining := remaining - 1;
      }
    }
    enough := true;
  }

  lemma WellDrawnNext(drawn: seq<nat>, taken: set<nat>, nodes: nat, ran: nat)
    requires WellDrawn(drawn, taken, nodes) && 1 <= ran <= nodes && ran !in taken && ran !in drawn
    ensures WellDrawn(drawn + [ran], taken, nodes)
  {
  }

  lemma UsableIsDrawn(draws: seq<nat>, taken: set<nat>, drawn: seq<nat>)
    requires forall v :: v in Usable(draws, taken) ==> v in drawn
    ensures |Usable(draws, taken)| <= |drawn|
  {
    SeqHolds(Usable(draws, taken), drawn);
  }

  lemma {:induction false} SeqHolds(a: set<nat>, s: seq<nat>)
    requires forall v :: v in a ==> v in s
    ensures |a| <= |s|
  {
    if s == [] {
      assert a == {};
    } else {
      SeqHolds(a - {s[0]}, s[1..]);
    }
  }

  /**
   * resolve_ids. `draws` are the numbers the random source delivers. The
   * command is refused exactly for too many `rand`s or for its first bad word;
   * otherwise, once enough free ids have come up, the drawn ids are pairwise
   * distinct, differ from every id written in the command, and are shared out
   * over both lists without ever popping an empty list.
   */
  method ResolveIds(sources: seq<Word>, targets: seq<Word>, nodes: nat, draws: seq<nat>) returns (r: Resolution)
    requires forall v :: v in draws ==> 1 <= v <= nodes
    ensures r == Refused(TooManyRand) <==>
              |Explicit(sources + targets)| + RandCount(sources + targets) > nodes
    ensures r != Refused(PopFromEmpty)
    ensures r.Resolved? ==>
              && WellDrawn(r.drawn, Explicit(sources + targets), nodes)
              && Faithful(sources, targets, nodes, r)
              && FirstRefusal(sources, nodes) == FirstRefusal(targets, nodes) == None
    ensures r.Refused? && r.failure != TooManyRand ==>
              Some(r.failure) == if FirstRefusal(sources, nodes).Some? then FirstRefusal(sources, nodes)
                                 else FirstRefusal(targets, nodes)
    ensures r.Drawing? ==> |Usable(draws, Explicit(sources + targets))| < RandCount(sources + targets)
  {
    RefusalKinds(sources, nodes);
    RefusalKinds(targets, nodes);
    RandCountOfJoin(sources, targets);
    var referred, count := Refer(sources + targets);
    if |referred| + count > nodes {
      return Refused(TooManyRand);
    }
    var drawn, enough := Draw(referred, count, nodes, draws);
    if !enough {
      return Drawing;
    }
    r := ResolveBoth(sources, targets, nodes, drawn);
  }

  /** The two calls of resolve at the end of resolve_ids, sharing the drawn ids. */
  method ResolveBoth(sources: seq<Word>, targets: seq<Word>, nodes: nat, drawn: seq<nat>) returns (r: Resolution)
    requires |drawn| == RandCount(sources) + RandCount(targets)
    ensures var failure := if FirstRefusal(sources, nodes).Some? then FirstRefusal(sources, nodes)
                           else FirstRefusal(targets, nodes);
            if failure.Some? then r == Refused(failure.value)
            else r.Resolved? && r.drawn == drawn && Faithful(sources, targets, nodes, r)
  {
    EnoughNeverPops(sources, nodes, |drawn|);
    EnoughNeverPops(targets, nodes, |drawn| - RandCount(sources));
    var sourceIds, rest, failure := Resolve(sources, nodes, drawn);
    if failure.Some? {
      return Refused(failure.value);
    }
    var targetIds, _, failure' := Resolve(targets, nodes, rest);
    if failure'.Some? {
      return Refused(failure'.value);
    }
    r := Resolved(sourceIds, targetIds, drawn);
  }

  lemma {:induction false} RefusalKinds(words: seq<Word>, nodes: nat)
    ensures FirstRefusal(words, nodes) != Some(PopFromEmpty) && FirstRefusal(words, nodes) != Some(TooManyRand)
  {
    if words != [] {
      RefusalKinds(words[1..], nodes);
    }
  }

  /** What makes two lists name a common id: the same id written, or `all` against any word that names a node. */
  predicate NamesNode(words: seq<Word>, nodes: nat) {
    Rand in words || (All in words && nodes >= 1) || exists v | 1 <= v <= nodes :: Id(v) in words
  }

  ghost predicate Overlapping(sources: seq<Word>, targets: seq<Word>, nodes: nat) {
    || (exists v :: Id(v) in sources && Id(v) in targets)
    || (All in sources && NamesNode(targets, nodes))
    || (All in targets && NamesNode(sources, nodes))
  }

  /** Words that name a node name one of 1 to `nodes`. */
  lemma NodeNamed(words: seq<Word>, nodes: nat, drawn: seq<nat>) returns (v: nat)
    requires NamesNode(words, nodes) && RandCount(words) <= |drawn|
    requires forall d :: d in drawn ==> 1 <= d <= nodes
    ensures 1 <= v <= nodes && Denotes(words, nodes, drawn, v)
  {
    if Rand in words {
      RandIsCounted(words);
      v := drawn[0];
      assert v in drawn && drawn[..RandCount(words)][0] == v;
    } else if All in words && nodes >= 1 {
      v := 1;
    } else {
      v :| 1 <= v <= nodes && Id(v) in words;
    }
  }

  lemma {:induction false} RandIsCounted(words: seq<Word>)
    ensures Rand in words <==> RandCount(words) > 0
  {
    if words != [] {
      RandIsCounted(words[1..]);
    }
  }

  /** A common id comes of a word in each list; `rand` never makes one with an id written, nor with another `rand`. */
  lemma CommonIdOverlaps(sources: seq<Word>, targets: seq<Word>, nodes: nat, r: Resolution, v: nat)
    requires r.Resolved? && Faithful(sources, targets, nodes, r)
    requires WellDrawn(r.drawn, Explicit(sources + targets), nodes)
    requires v in r.sources && v in r.targets
    ensures Overlapping(sources, targets, nodes)
  {
    var k := RandCount(sources);
    RandIsCounted(sources);
    RandIsCounted(targets);
    assert r.drawn[k..][..RandCount(targets)] == r.drawn[k..];
    assert Denotes(sources, nodes, r.drawn, v) && Denotes(targets, nodes, r.drawn[k..], v);
    DrawnOnce(r.drawn, k, v);
    if Id(v) in sources || Id(v) in targets {
      assert v in Explicit(sources + targets);
    }
  }

  /** For every command, `all` included, sources and targets have an id in common exactly when their words overlap. */
  lemma SetsMeetIff(sources: seq<Word>, targets: seq<Word>, nodes: nat, r: Resolution)
    requires r.Resolved? && Faithful(sources, targets, nodes, r)
    requires WellDrawn(r.drawn, Explicit(sources + targets), nodes)
    ensures r.sources !! r.targets <==> !Overlapping(sources, targets, nodes)
  {
    forall v | v in r.sources && v in r.targets
      ensures Overlapping(sources, targets, nodes)
    {
      CommonIdOverlaps(sources, targets, nodes, r, v);
    }
    var later := r.drawn[RandCount(sources)..];
    assert forall d :: d in later ==> d in r.drawn;
    if v :| Id(v) in sources && Id(v) in targets {
      assert Denotes(sources, nodes, r.drawn, v) && Denotes(targets, nodes, later, v);
      assert v in r.sources && v in r.targets;
    } else if All in sources && NamesNode(targets, nodes) {
      var v := NodeNamed(targets, nodes, later);
      assert Denotes(sources, nodes, r.drawn, v);
      assert v in r.sources && v in r.targets;
    } else if All in targets && NamesNode(sources, nodes) {
      var v := NodeNamed(sources, nodes, r.drawn);
      assert Denotes(targets, nodes, later, v);
      assert v in r.sources && v in r.targets;
    }
  }

  /** A drawn id is used on one side only. */
  lemma DrawnOnce(drawn: seq<nat>, k: nat, v: nat)
    requires NoRepeats(drawn) && k <= |drawn|
    ensures v in drawn[..k] || v in drawn[k..] ==> v in drawn
    ensures !(v in drawn[..k] && v in drawn[k..])
  {
    if v in drawn[..k] {
      var i :| 0 <= i < k && drawn[..k][i] == v;
      assert drawn[i] == v;
    }
  }

  lemma {:induction false} ExplicitInRange(words: seq<Word>, nodes: nat)
    requires FirstRefusal(words, nodes) == None
    ensures forall v :: v in Explicit(words) ==> v <= nodes
  {
    if words != [] {
      ExplicitInRange(words[1..], nodes);
    }
  }

  /** Id 0 belongs to no node and yet is not refused: the sources are node ids exactly when 0 is not written. */
  lemma SourcesAreNodesIff(sources: seq<Word>, targets: seq<Word>, nodes: nat, r: Resolution)
    requires r.Resolved? && Faithful(sources, targets, nodes, r) && FirstRefusal(sources, nodes) == None
    requires WellDrawn(r.drawn, Explicit(sources + targets), nodes)
    ensures (forall v :: v in r.sources ==> 1 <= v <= nodes) <==> Id(0) !in sources
  {
    ExplicitInRange(sources, nodes);
    if Id(0) in sources {
      assert Denotes(sources, nodes, r.drawn, 0);
      assert 0 in r.sources;
    } else {
      forall v | v in r.sources
        ensures 1 <= v <= nodes
      {
        assert Denotes(sources, nodes, r.drawn, v);
        if Id(v) in sources {
          assert v in Explicit(sources) && v != 0;
        } else if v in r.drawn[..RandCount(sources)] {
          assert v in r.drawn;
        }
      }
    }
  }

  // ----- What is refused -----

  /** A word resolve never accepts. */
  predicate Bad(word: Word, nodes: nat) {
    (word.Id? && word.n > nodes) || word.Other?
  }

  /** Word k is the first to fail when `supply` random values are at hand: a bad word, or a `rand` too many. */
  ghost predicate FailsFirstAt(words: seq<Word>, nodes: nat, supply: nat, k: nat) {
    && k < |words|
    && (Bad(words[k], nodes) || (words[k].Rand? && RandCount(words[..k]) >= supply))
    && (forall i :: 0 <= i < k ==> !Bad(words[i], nodes))
    && RandCount(words[..k]) <= supply
  }

  /** The failure of a word. */
  function FailureOf(word: Word): Failure
    requires !word.All?
  {
    match word
    case Id(n) => OutOfRange(n)
    case Rand => PopFromEmpty
    case Other(text) => NotValid(text)
  }

  /** resolve fails exactly if some word fails, and with the failure of the first one. */
  lemma {:induction false} ResolveFailsAtFirst(words: seq<Word>, nodes: nat, supply: nat) returns (k: nat)
    ensures ResolveFailure(words, nodes, supply) == None <==>
              (forall i :: 0 <= i < |words| ==> !Bad(words[i], nodes)) && RandCount(words) <= supply
    ensures ResolveFailure(words, nodes, supply).Some? ==>
              FailsFirstAt(words, nodes, supply, k) && ResolveFailure(words, nodes, supply) == Some(FailureOf(words[k]))
    decreases |words|
  {
    k := 0;
    if words != [] {
      assert words[..0] == [];
      if !Bad(words[0], nodes) && !(words[0].Rand? && supply == 0) {
        var rest := words[1..];
        assert forall i :: 1 <= i < |words| ==> words[i] == rest[i - 1];
        var j := ResolveFailsAtFirst(rest, nodes, if words[0].Rand? then supply - 1 else supply);
        if ResolveFailure(words, nodes, supply).Some? {
          k := j + 1;
          assert words[..k] == [words[0]] + rest[..j];
          RandCountOfJoin([words[0]], rest[..j]);
        }
      }
    }
  }

  /** A list is refused exactly if it has a bad word, and for its first one. */
  lemma {:induction false} RefusedForFirstBadWord(words: seq<Word>, nodes: nat) returns (k: nat)
    ensures FirstRefusal(words, nodes) == None <==> forall i :: 0 <= i < |words| ==> !Bad(words[i], nodes)
    ensures FirstRefusal(words, nodes).Some? ==>
              && k < |words| && Bad(words[k], nodes) && (forall i :: 0 <= i < k ==> !Bad(words[i], nodes))
              && FirstRefusal(words, nodes) == Some(FailureOf(words[k]))
    decreases |words|
  {
    k := 0;
    if words != [] && !Bad(words[0], nodes) {
      var rest := words[1..];
      assert forall i :: 1 <= i < |words| ==> words[i] == rest[i - 1];
      var j := RefusedForFirstBadWord(rest, nodes);
      k := j + 1;
    }
  }
}
