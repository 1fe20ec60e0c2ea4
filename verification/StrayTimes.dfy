/** What becomes of a Times without a `do` (test_executor.py, Parser.parse). */
module StrayTimes {
  import opened TestProgram
  import opened ParserTurns
  import opened ProgramParser

  // ----- Closed programs leave no loop open -----

  lemma {:induction false} ClosedSettles(tokens: seq<Token>, t: Turn, todo: Block, stack: Stack, whole: Listing)
    requires t.Turn? && InFile(tokens, t)
    requires t.doOpen == Depth(stack) - 1
    requires Tracks(tokens, t.index, t.pointers, t.commands, todo, stack, whole)
    requires Closed(todo) && AllClosed(stack)
    ensures var end := Settle(tokens, t);
            if end.Refused? then whole == SyntaxError(end.line)
            else end.index == |tokens| && end.doOpen == -1 && whole == Listing(end.commands)
    decreases Budget(tokens, t)
  {
    if t.index == |tokens| {
      TrackEnd(tokens, t.index, t.pointers, t.commands, todo, stack, whole);
      assert Tail(stack) == [];
    } else {
      TurnSpends(tokens, t);
      var left, around := TurnTracks(tokens, t, todo, stack, whole);
      if OneTurn(tokens, t).Turn? {
        ClosedSettles(tokens, OneTurn(tokens, t), left, around, whole);
      }
    }
  }

  // ----- Slots tell whether a `do` was passed -----

  /** No slot before the first `do`, and none without one. */
  ghost predicate SlotsTell(tokens: seq<Token>, t: Turn) {
    t.Turn? && t.index <= |tokens| ==> if t.pointers == [] then Do !in tokens[..t.index] else Do in tokens
  }

  lemma TurnTells(tokens: seq<Token>, t: Turn)
    requires t.Turn? && t.index < |tokens| && SlotsTell(tokens, t)
    ensures SlotsTell(tokens, OneTurn(tokens, t))
  {
    assert tokens[..t.index + 1] == tokens[..t.index] + [tokens[t.index]];
  }

  lemma {:induction false} SettleTells(tokens: seq<Token>, t: Turn)
    requires InFile(tokens, t) && SlotsTell(tokens, t)
    ensures SlotsTell(tokens, Settle(tokens, t))
    decreases Budget(tokens, t)
  {
    if t.Turn? && t.index < |tokens| {
      TurnSpends(tokens, t);
      TurnTells(tokens, t);
      SettleTells(tokens, OneTurn(tokens, t));
    }
  }

  // ----- The first stray Times -----

  /** The lines before the first stray Times form a closed program. */
  lemma BeforeFirstStray(tokens: seq<Token>)
    requires !NoStrayTimes(tokens, 0)
    ensures var (b, left) := ReadBlock(tokens);
            Closed(b) && left != [] && left[0].Times? && tokens == Flatten(b) + left
  {
    StrayTimesStayUnread(tokens, 0);
    ReadBlockShape(tokens);
    ReadBlockFlattens(tokens);
  }

  /** A closed program with all lines known is gone through as it means, and leaves no loop open. */
  lemma ClosedProgramSettles(b: Block)
    requires Closed(b)
    ensures var end := Settle(Flatten(b), FIRST_TURN);
            if end.Refused? then Meaning(b, 0) == SyntaxError(end.line)
            else && end.index == |Flatten(b)| && end.doOpen == -1 && Meaning(b, 0) == Listing(end.commands)
                 && (end.pointers == [] <==> Do !in Flatten(b))
  {
    var tokens := Flatten(b);
    ClosedIsWellFormed(b);
    ThenEmpty(Meaning(b, 0));
    assert tokens[0..] == tokens + [];
    ClosedSettles(tokens, FIRST_TURN, b, Bottom, Meaning(b, 0));
    SettleTells(tokens, FIRST_TURN);
    assert tokens[..|tokens|] == tokens;
  }

  /**
   * The first stray Times of any file, at position k. An unknown line before
   * it is the error reported. Otherwise the parser arrives at it with no loop
   * open, having listed what stands before it, and refuses it if and only if
   * no `do` stands before it; then it is the error reported.
   */
  lemma FirstStrayTimes(tokens: seq<Token>) returns (k: nat, count: nat)
    requires !NoStrayTimes(tokens, 0)
    ensures k == |Flatten(Tree(tokens))| < |tokens| && tokens[k].Times?
    ensures FirstUnknown(tokens[..k]) < k ==> Finish(tokens, FIRST_TURN) == SyntaxError(FirstUnknown(tokens[..k]) + 1)
    ensures FirstUnknown(tokens[..k]) == k ==>
              var arrival := Turns(tokens, FIRST_TURN, count);
              && arrival.Turn? && arrival.index == k && arrival.doOpen == -1
              && Meaning(Tree(tokens), 0) == Listing(arrival.commands)
              && (OneTurn(tokens, arrival).Refused? <==> Do !in tokens[..k])
              && (Do !in tokens[..k] ==> Finish(tokens, FIRST_TURN) == SyntaxError(k + 1))
  {
    BeforeFirstStray(tokens);
    var (b, left) := ReadBlock(tokens);
    var part := Flatten(b);
    k := |part|;
    assert tokens[..k] == part && tokens[k] == left[0];
    ClosedProgramSettles(b);
    ErrorIsFirstUnknown(b, 0);
    count := ArrivesAtEnd(part, left, FIRST_TURN);
    var arrival := Settle(part, FIRST_TURN);
    if arrival.Turn? && Do !in part {
      assert OneTurn(tokens, arrival) == Refused(k + 1);
      TurnSpends(tokens, arrival);
    }
  }

  // ----- Repetitions -----

  /** What the parser makes of a program's text. */
  function Parsed(b: Block): Listing {
    Finish(Flatten(b) + [Text(Command(Reset))], FIRST_TURN)
  }

  lemma {:induction false} ParsedMeans(b: Block)
    requires WellFormed(b)
    ensures Parsed(b) == Then(Meaning(b, 0), Listing([Tagged(Reset, |Flatten(b)| + 1)]))
  {
    UnrollsTree(b);
  }

  /** A program's meaning if every loop ran exactly as often as written. */
  function AsWritten(b: Block, index: nat): Listing {
    match b
    case End => Listing([])
    case Line(item, rest) => Then(MeaningOfItem(item, index), AsWritten(rest, index + 1))
    case Loop(body, n, rest) =>
      Then(Repeat(AsWritten(body, index + 1), n), AsWritten(rest, index + 2 + |Flatten(body)|))
    case Open(rest) => AsWritten(rest, index + 1)
  }

  /** Every loop written `0 times`, that is not inside another such loop, lists nothing. */
  predicate ZeroLoopsSilent(b: Block, index: nat) {
    match b
    case End => true
    case Line(_, rest) => ZeroLoopsSilent(rest, index + 1)
    case Loop(body, n, rest) =>
      && (if n == 0 then Meaning(body, index + 1) == Listing([]) else ZeroLoopsSilent(body, index + 1))
      && ZeroLoopsSilent(rest, index + 2 + |Flatten(body)|)
    case Open(rest) => ZeroLoopsSilent(rest, index + 1)
  }

  /** Every line is known. */
  predicate AllKnown(b: Block) {
    match b
    case End => true
    case Line(item, rest) => !item.Unknown? && AllKnown(rest)
    case Loop(body, _, rest) => AllKnown(body) && AllKnown(rest)
    case Open(rest) => AllKnown(rest)
  }

  /** `w` is `m`, or shorter. */
  ghost predicate EqualOrShorter(w: Listing, m: Listing, equal: bool) {
    w.Listing? && m.Listing? && if equal then w == m else |w.commands| < |m.commands|
  }

  lemma {:induction false} RepeatShorter(w: Listing, m: Listing, times: nat, equal: bool)
    requires EqualOrShorter(w, m, equal) && times > 0
    ensures EqualOrShorter(Repeat(w, times), Repeat(m, times), equal)
  {
    ThenEmpty(w);
    ThenEmpty(m);
    if times > 1 {
      RepeatShorter(w, m, times - 1, equal);
    }
  }

  lemma ThenShorter(w: Listing, m: Listing, w': Listing, m': Listing, e: bool, e': bool)
    requires EqualOrShorter(w, m, e) && EqualOrShorter(w', m', e')
    ensures EqualOrShorter(Then(w, w'), Then(m, m'), e && e')
  {
  }

  /** Running as written lists the same, or less: it is the same exactly if the loops written `0 times` are silent. */
  lemma {:induction false} AsWrittenOrShorter(b: Block, index: nat)
    requires AllKnown(b)
    ensures EqualOrShorter(AsWritten(b, index), Meaning(b, index), ZeroLoopsSilent(b, index))
  {
    match b
    case End =>
    case Line(item, rest) =>
      AsWrittenOrShorter(rest, index + 1);
      ThenShorter(MeaningOfItem(item, index), MeaningOfItem(item, index),
                  AsWritten(rest, index + 1), Meaning(rest, index + 1), true, ZeroLoopsSilent(rest, index + 1));
    case Open(rest) => AsWrittenOrShorter(rest, index + 1);
    case Loop(body, n, rest) =>
      var (inside, after) := (index + 1, index + 2 + |Flatten(body)|);
      AsWrittenOrShorter(body, inside);
      AsWrittenOrShorter(rest, after);
      var equal := if n == 0 then Meaning(body, inside) == Listing([]) else ZeroLoopsSilent(body, inside);
      LoopAsWritten(AsWritten(body, inside), Meaning(body, inside), n, ZeroLoopsSilent(body, inside));
      ThenShorter(Repeat(AsWritten(body, inside), n), Repeat(Meaning(body, inside), Rounds(n)),
                  AsWritten(rest, after), Meaning(rest, after), equal, ZeroLoopsSilent(rest, after));
  }

  lemma LoopAsWritten(w: Listing, m: Listing, n: nat, equal: bool)
    requires EqualOrShorter(w, m, equal)
    ensures EqualOrShorter(Repeat(w, n), Repeat(m, Rounds(n)), if n == 0 then m == Listing([]) else equal)
  {
    if n == 0 {
      ThenEmpty(m);
      assert Repeat(m, 1) == Then(m, Repeat(m, 0)) == m;
    } else {
      RepeatShorter(w, m, n, equal);
    }
  }

  /**
   * Any program with all lines known runs its loops as often as written if and
   * only if those written `0 times` list nothing.
   */
  lemma LoopsRunAsWrittenIff(b: Block, last: Tagged)
    requires WellFormed(b) && AllKnown(b) && last == Tagged(Reset, |Flatten(b)| + 1)
    ensures Parsed(b) == Then(AsWritten(b, 0), Listing([last])) <==> ZeroLoopsSilent(b, 0)
  {
    ParsedMeans(b);
    AsWrittenOrShorter(b, 0);
    ThenShorter(AsWritten(b, 0), Meaning(b, 0), Listing([last]), Listing([last]), ZeroLoopsSilent(b, 0), true);
  }

  /** A file that is accepted although it has one `do` and two Times. */
  lemma StrayTimesCanPass(order: Order)
    ensures var tokens := [Do, Text(Command(order)), Times(1), Times(1)];
            !NoStrayTimes(tokens, 0)
            && Turns(tokens, FIRST_TURN, 4) == Turn(4, -2, [Pointer(0, 1)], [Tagged(order, 2)])
  {
    var tokens := [Do, Text(Command(order)), Times(1), Times(1)];
    assert tokens[1..] == [Text(Command(order)), Times(1), Times(1)];
    assert tokens[1..][1..] == [Times(1), Times(1)];
    assert tokens[1..][1..][1..] == [Times(1)];
    assert !NoStrayTimes([Times(1)], 0);
    assert !NoStrayTimes([Times(1), Times(1)], 1);
    assert !NoStrayTimes([Text(Command(order)), Times(1), Times(1)], 1);
    var t1 := OneTurn(tokens, FIRST_TURN);
    assert t1 == Turn(1, 0, [Pointer(0, 1)], []);
    var t2 := OneTurn(tokens, t1);
    assert t2 == Turn(2, 0, [Pointer(0, 1)], [Tagged(order, 2)]);
    var t3 := OneTurn(tokens, t2);
    var t4 := OneTurn(tokens, t3);
    assert Turns(tokens, FIRST_TURN, 4) == Turns(tokens, t1, 3) == Turns(tokens, t2, 2)
        == Turns(tokens, t3, 1) == Turns(tokens, t4, 0);
  }
}
