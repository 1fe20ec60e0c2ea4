/**
 * Parser.parse of test_executor.py: loops are unrolled by jumping `index`
 * backwards, with a stack of start lines and repetition counters.
 */
module ProgramParser {
  import opened TestProgram
  import opened ParserTurns

  /** The loops open at some moment, innermost first, as the program tree sees them. */
  datatype Stack =
    | Bottom
    | InLoop(body: Block, n: nat, rest: Block, outer: Stack)
    | Unclosed(outer: Stack)

  /** The tokens after the current block. */
  function Tail(s: Stack): seq<Token> {
    match s
    case Bottom => []
    case InLoop(_, n, rest, outer) => [Times(n)] + Flatten(rest) + Tail(outer)
    case Unclosed(_) => []
  }

  predicate AllUnclosed(s: Stack) {
    s.Bottom? || (s.Unclosed? && AllUnclosed(s.outer))
  }

  /** Every loop around the present position is closed inside and after it. */
  predicate AllClosed(s: Stack) {
    match s
    case Bottom => true
    case InLoop(body, _, rest, outer) => Closed(body) && Closed(rest) && AllClosed(outer)
    case Unclosed(_) => false
  }

  function Depth(s: Stack): nat {
    match s
    case Bottom => 0
    case InLoop(_, _, _, outer) => 1 + Depth(outer)
    case Unclosed(outer) => 1 + Depth(outer)
  }

  /** The first Depth(s) pointers describe the loops of the stack. */
  ghost predicate Matches(s: Stack, pointers: seq<Pointer>, tokens: seq<Token>) {
    && Depth(s) <= |pointers|
    && match s
       case Bottom => true
       case InLoop(body, n, rest, outer) =>
         var p := pointers[Depth(outer)];
         && p.start < |tokens|
         && tokens[p.start + 1..] == Flatten(body) + Tail(s)
         && 1 <= p.repetition <= Rounds(n)
         && Closed(body) && (Closed(rest) || AllUnclosed(outer)) && WellFormed(rest)
         && Matches(outer, pointers, tokens)
       case Unclosed(outer) => AllUnclosed(outer) && Matches(outer, pointers, tokens)
  }

  /** What is still to be listed once the current block is done. */
  ghost function Rest(s: Stack, pointers: seq<Pointer>): Listing
    requires Depth(s) <= |pointers|
  {
    match s
    case Bottom => Listing([])
    case Unclosed(outer) => Rest(outer, pointers)
    case InLoop(body, n, rest, outer) =>
      var p := pointers[Depth(outer)];
      Then(Repeat(Meaning(body, p.start + 1), Left(p, n)),
           Then(Meaning(rest, p.start + 2 + |Flatten(body)|), Rest(outer, pointers)))
  }

  /** Rounds still to run after the present one. */
  ghost function Left(p: Pointer, n: nat): nat {
    if p.repetition <= Rounds(n) then Rounds(n) - p.repetition else 0
  }

  // ----- Listings -----

  lemma ThenAssociates(a: Listing, b: Listing, c: Listing)
    ensures Then(Then(a, b), c) == Then(a, Then(b, c))
  {
    if a.Listing? && b.Listing? && c.Listing? {
      assert (a.commands + b.commands) + c.commands == a.commands + (b.commands + c.commands);
    }
  }

  lemma ThenEmpty(a: Listing)
    ensures Then(a, Listing([])) == a && Then(Listing([]), a) == a
  {
    if a.Listing? {
      assert a.commands + [] == a.commands && [] + a.commands == a.commands;
    }
  }

  /** Only the pointers below the stack's depth matter to it. */
  lemma {:induction false} PointersBelow(s: Stack, p: seq<Pointer>, q: seq<Pointer>, tokens: seq<Token>)
    requires Depth(s) <= |p| && Depth(s) <= |q|
    requires forall i :: 0 <= i < Depth(s) ==> p[i] == q[i]
    ensures Rest(s, p) == Rest(s, q)
    ensures Matches(s, p, tokens) ==> Matches(s, q, tokens)
  {
    if !s.Bottom? {
      PointersBelow(s.outer, p, q, tokens);
    }
  }

  // ----- The loop -----

  /** Where the parser stands in the program: `todo` is left of the current block, `stack` lies around it. */
  ghost predicate Standing(tokens: seq<Token>, index: nat, pointers: seq<Pointer>, todo: Block, stack: Stack) {
    && index <= |tokens|
    && tokens[index..] == Flatten(todo) + Tail(stack)
    && WellFormed(todo) && (Closed(todo) || AllUnclosed(stack))
    && Matches(stack, pointers, tokens)
  }

  /** What is still to be listed from here. */
  ghost function Ahead(index: nat, pointers: seq<Pointer>, todo: Block, stack: Stack): Listing
    requires Depth(stack) <= |pointers|
  {
    Then(Meaning(todo, index), Rest(stack, pointers))
  }

  /** Python's pointers.append or the overwriting of an old slot. */
  function OpenLoop(pointers: seq<Pointer>, depth: nat, index: nat): seq<Pointer>
    requires depth <= |pointers|
  {
    if |pointers| < depth + 1 then pointers + [Pointer(index, 1)] else pointers[depth := Pointer(index, 1)]
  }

  lemma AtLine(tokens: seq<Token>, index: nat, pointers: seq<Pointer>, todo: Block, stack: Stack)
    requires Standing(tokens, index, pointers, todo, stack)
    requires index < |tokens| && tokens[index].Text?
    ensures todo.Line? && todo.item == tokens[index].item
    ensures Standing(tokens, index + 1, pointers, todo.rest, stack)
    ensures Ahead(index, pointers, todo, stack)
            == Then(MeaningOfItem(todo.item, index), Ahead(index + 1, pointers, todo.rest, stack))
  {
    assert tokens[index] == (Flatten(todo) + Tail(stack))[0];
    assert todo.Line?;
    assert tokens[index + 1..] == (Flatten(todo) + Tail(stack))[1..];
    assert (Flatten(todo) + Tail(stack))[1..] == Flatten(todo.rest) + Tail(stack);
    ThenAssociates(MeaningOfItem(todo.item, index), Meaning(todo.rest, index + 1), Rest(stack, pointers));
  }

  /** The block and stack after a `do`. */
  ghost function Inside(todo: Block, stack: Stack): (Block, Stack)
    requires todo.Loop? || todo.Open?
  {
    if todo.Loop? then (todo.body, InLoop(todo.body, todo.n, todo.rest, stack)) else (todo.rest, Unclosed(stack))
  }

  /** At a `do` a loop begins, or a `do` that is never closed. */
  lemma DoOpens(tokens: seq<Token>, index: nat, pointers: seq<Pointer>, todo: Block, stack: Stack)
    requires Standing(tokens, index, pointers, todo, stack)
    requires index < |tokens| && tokens[index].Do?
    ensures todo.Loop? || todo.Open?
    ensures tokens[index + 1..] == (Flatten(todo) + Tail(stack))[1..]
  {
    assert tokens[index] == (Flatten(todo) + Tail(stack))[0];
  }

  lemma DropHead(head: Token, body: seq<Token>, end: Token, rest: seq<Token>, tail: seq<Token>)
    ensures (([head] + body + [end] + rest) + tail)[1..] == body + ([end] + rest + tail)
    ensures (([head] + body) + tail)[1..] == body + tail
  {
  }

  lemma StandingInside(tokens: seq<Token>, index: nat, pointers: seq<Pointer>, todo: Block, stack: Stack)
    requires Standing(tokens, index, pointers, todo, stack)
    requires index < |tokens| && (todo.Loop? || todo.Open?)
    requires tokens[index + 1..] == (Flatten(todo) + Tail(stack))[1..]
    ensures var (inner, deeper) := Inside(todo, stack);
            Standing(tokens, index + 1, OpenLoop(pointers, Depth(stack), index), inner, deeper)
  {
    PointersBelow(stack, pointers, OpenLoop(pointers, Depth(stack), index), tokens);
    if todo.Loop? {
      ClosedIsWellFormed(todo.body);
      DropHead(Do, Flatten(todo.body), Times(todo.n), Flatten(todo.rest), Tail(stack));
    } else {
      UnclosedTail(stack);
      DropHead(Do, Flatten(todo.rest), Do, [], Tail(stack));
    }
  }

  lemma AtDo(tokens: seq<Token>, index: nat, pointers: seq<Pointer>, todo: Block, stack: Stack)
    requires Standing(tokens, index, pointers, todo, stack)
    requires index < |tokens| && tokens[index].Do?
    ensures todo.Loop? || todo.Open?
    ensures var q := OpenLoop(pointers, Depth(stack), index);
            var (inner, deeper) := Inside(todo, stack);
            && Standing(tokens, index + 1, q, inner, deeper)
            && Ahead(index, pointers, todo, stack) == Ahead(index + 1, q, inner, deeper)
  {
    DoOpens(tokens, index, pointers, todo, stack);
    StandingInside(tokens, index, pointers, todo, stack);
    DoKeepsAhead(index, pointers, todo, stack);
  }

  lemma {:induction false} UnclosedTail(s: Stack)
    requires AllUnclosed(s)
    ensures Tail(s) == []
  {
  }

  lemma Regroup(a: Listing, b: Listing, c: Listing, d: Listing)
    ensures Then(Then(Then(a, b), c), d) == Then(a, Then(b, Then(c, d)))
  {
    ThenAssociates(a, b, c);
    ThenAssociates(a, Then(b, c), d);
    ThenAssociates(b, c, d);
  }

  /** Opening a loop splits its meaning into the round begun, the rounds left, and what follows. */
  lemma DoKeepsAhead(index: nat, pointers: seq<Pointer>, todo: Block, stack: Stack)
    requires (todo.Loop? || todo.Open?) && Depth(stack) <= |pointers|
    ensures var (inner, deeper) := Inside(todo, stack);
            Ahead(index, pointers, todo, stack)
            == Ahead(index + 1, OpenLoop(pointers, Depth(stack), index), inner, deeper)
  {
    var q := OpenLoop(pointers, Depth(stack), index);
    PointersBelow(stack, pointers, q, []);
    if todo.Loop? {
      Regroup(Meaning(todo.body, index + 1), Repeat(Meaning(todo.body, index + 1), Rounds(todo.n) - 1),
              Meaning(todo.rest, index + 2 + |Flatten(todo.body)|), Rest(stack, q));
    }
  }

  /** At a Times the block is finished and a loop is open. */
  lemma AtTimes(tokens: seq<Token>, index: nat, pointers: seq<Pointer>, todo: Block, stack: Stack)
    requires Standing(tokens, index, pointers, todo, stack)
    requires index < |tokens| && tokens[index].Times?
    ensures todo.End? && stack.InLoop? && stack.n == tokens[index].n
  {
    assert tokens[index] == (Flatten(todo) + Tail(stack))[0];
  }

  /** Jumping back starts the next round of the same loop. */
  lemma JumpBack(tokens: seq<Token>, index: nat, pointers: seq<Pointer>, stack: Stack)
    requires Standing(tokens, index, pointers, End, stack) && stack.InLoop?
    requires pointers[Depth(stack.outer)].repetition < stack.n
    ensures var slot := Depth(stack.outer);
            var q := NextRound(pointers, slot);
            && Standing(tokens, pointers[slot].start + 1, q, stack.body, stack)
            && Ahead(index, pointers, End, stack) == Ahead(pointers[slot].start + 1, q, stack.body, stack)
  {
    var slot := Depth(stack.outer);
    var q := NextRound(pointers, slot);
    PointersBelow(stack.outer, pointers, q, tokens);
    ClosedIsWellFormed(stack.body);
    var m := Meaning(stack.body, pointers[slot].start + 1);
    var k := Left(pointers[slot], stack.n);
    assert k > 0 && Left(q[slot], stack.n) == k - 1;
    var after := Then(Meaning(stack.rest, q[slot].start + 2 + |Flatten(stack.body)|), Rest(stack.outer, q));
    assert Rest(stack, pointers) == Then(Then(m, Repeat(m, k - 1)), after);
    ThenAssociates(m, Repeat(m, k - 1), after);
    ThenEmpty(Rest(stack, pointers));
  }

  /** Leaving a loop after its last round. */
  lemma LeaveLoop(tokens: seq<Token>, index: nat, pointers: seq<Pointer>, stack: Stack)
    requires Standing(tokens, index, pointers, End, stack) && stack.InLoop? && index < |tokens|
    requires pointers[Depth(stack.outer)].repetition >= stack.n
    ensures Standing(tokens, index + 1, pointers, stack.rest, stack.outer)
    ensures Ahead(index, pointers, End, stack) == Ahead(index + 1, pointers, stack.rest, stack.outer)
  {
    var p := pointers[Depth(stack.outer)];
    StandingAfter(tokens, index, pointers, stack);
    assert |tokens[p.start + 1..]| == |Flatten(stack.body)| + |Tail(stack)|;
    assert index == p.start + 1 + |Flatten(stack.body)|;
    LastRoundDone(index, pointers, stack);
  }

  lemma NextSuffix(s: seq<Token>, i: nat)
    requires i < |s|
    ensures s[i..][0] == s[i] && s[i..][1..] == s[i + 1..] && |s[i..]| == |s| - i
  {
  }

  lemma StandingAfter(tokens: seq<Token>, index: nat, pointers: seq<Pointer>, stack: Stack)
    requires Standing(tokens, index, pointers, End, stack) && stack.InLoop? && index < |tokens|
    ensures Standing(tokens, index + 1, pointers, stack.rest, stack.outer)
    ensures |tokens| - index == |Tail(stack)|
  {
    NextSuffix(tokens, index);
    assert tokens[index..] == Tail(stack);
    assert Tail(stack) == ([Times(stack.n)] + Flatten(stack.rest)) + Tail(stack.outer);
    DropHead(Times(stack.n), Flatten(stack.rest), Do, [], Tail(stack.outer));
  }

  lemma LastRoundDone(index: nat, pointers: seq<Pointer>, stack: Stack)
    requires stack.InLoop? && Depth(stack) <= |pointers|
    requires var p := pointers[Depth(stack.outer)];
             p.repetition == Rounds(stack.n) && index == p.start + 1 + |Flatten(stack.body)|
    ensures Ahead(index, pointers, End, stack) == Ahead(index + 1, pointers, stack.rest, stack.outer)
  {
    ThenEmpty(Then(Meaning(stack.rest, index + 1), Rest(stack.outer, pointers)));
    ThenEmpty(Rest(stack, pointers));
  }

  /** At the end of the tokens nothing is left to list. */
  lemma {:induction false} AtEnd(tokens: seq<Token>, index: nat, pointers: seq<Pointer>, todo: Block, stack: Stack)
    requires Standing(tokens, index, pointers, todo, stack) && index == |tokens|
    ensures Ahead(index, pointers, todo, stack) == Listing([])
  {
    assert Flatten(todo) + Tail(stack) == [];
    assert todo.End?;
    assert AllUnclosed(stack);
    NothingUnclosed(stack, pointers);
  }

  lemma {:induction false} NothingUnclosed(stack: Stack, pointers: seq<Pointer>)
    requires AllUnclosed(stack) && Depth(stack) <= |pointers|
    ensures Rest(stack, pointers) == Listing([])
  {
    if !stack.Bottom? {
      NothingUnclosed(stack.outer, pointers);
    }
  }

  /** The loop invariant: the listing so far and what lies ahead make up the whole. */
  ghost predicate Tracks(tokens: seq<Token>, index: nat, pointers: seq<Pointer>, commands: seq<Tagged>,
                         todo: Block, stack: Stack, whole: Listing)
  {
    && Standing(tokens, index, pointers, todo, stack)
    && whole == Then(Listing(commands), Ahead(index, pointers, todo, stack))
  }

  lemma TrackLine(tokens: seq<Token>, index: nat, pointers: seq<Pointer>, commands: seq<Tagged>,
                  todo: Block, stack: Stack, whole: Listing)
    requires Tracks(tokens, index, pointers, commands, todo, stack, whole)
    requires index < |tokens| && tokens[index].Text?
    ensures todo.Line? && todo.item == tokens[index].item
    ensures if todo.item.Unknown? then whole == SyntaxError(index + 1)
            else Tracks(tokens, index + 1, pointers, commands + Listed(todo.item, index), todo.rest, stack, whole)
  {
    AtLine(tokens, index, pointers, todo, stack);
    ThenAssociates(Listing(commands), MeaningOfItem(todo.item, index), Ahead(index + 1, pointers, todo.rest, stack));
  }

  lemma TrackDo(tokens: seq<Token>, index: nat, pointers: seq<Pointer>, commands: seq<Tagged>,
                todo: Block, stack: Stack, whole: Listing)
    requires Tracks(tokens, index, pointers, commands, todo, stack, whole)
    requires index < |tokens| && tokens[index].Do?
    ensures todo.Loop? || todo.Open?
    ensures var q := OpenLoop(pointers, Depth(stack), index);
            && Tracks(tokens, index + 1, q, commands, Inside(todo, stack).0, Inside(todo, stack).1, whole)
    ensures Depth(Inside(todo, stack).1) == Depth(stack) + 1
  {
    AtDo(tokens, index, pointers, todo, stack);
  }

  /** After a Times: the body again while rounds are missing, else what follows the loop. */
  lemma TrackTimes(tokens: seq<Token>, index: nat, pointers: seq<Pointer>, commands: seq<Tagged>,
                   todo: Block, stack: Stack, whole: Listing, slot: int)
    requires Tracks(tokens, index, pointers, commands, todo, stack, whole)
    requires index < |tokens| && tokens[index].Times? && slot == Depth(stack) - 1
    ensures stack.InLoop? && stack.n == tokens[index].n && 0 <= slot < |pointers| && slot == Depth(stack.outer)
    ensures if pointers[slot].repetition < tokens[index].n then
              && Tracks(tokens, pointers[slot].start + 1, NextRound(pointers, slot), commands, stack.body, stack, whole)
            else
              && Tracks(tokens, index + 1, pointers, commands, stack.rest, stack.outer, whole)
  {
    AtTimes(tokens, index, pointers, todo, stack);
    if pointers[slot].repetition < stack.n {
      JumpBack(tokens, index, pointers, stack);
    } else {
      LeaveLoop(tokens, index, pointers, stack);
    }
  }

  /** The parser's first position: the whole program with its reset, no loop open. */
  lemma {:induction false} StartTracks(b: Block)
    requires WellFormed(b)
    ensures var whole := Append(b, Command(Reset));
            Tracks(Flatten(b) + [Text(Command(Reset))], 0, [], [], whole, Bottom, Meaning(whole, 0))
  {
    ResetAppended(b);
    var tokens := Flatten(b) + [Text(Command(Reset))];
    assert tokens[0..] == tokens && tokens + [] == tokens;
    ThenEmpty(Meaning(Append(b, Command(Reset)), 0));
  }

  lemma TrackEnd(tokens: seq<Token>, index: nat, pointers: seq<Pointer>, commands: seq<Tagged>,
                 todo: Block, stack: Stack, whole: Listing)
    requires Tracks(tokens, index, pointers, commands, todo, stack, whole) && index == |tokens|
    ensures whole == Listing(commands)
  {
    AtEnd(tokens, index, pointers, todo, stack);
    ThenEmpty(Listing(commands));
  }

  /** A turn ended at a tracked position, or in the error the program means. */
  ghost predicate TurnTracked(tokens: seq<Token>, next: Turn, todo: Block, stack: Stack, whole: Listing) {
    if next.Refused? then whole == SyntaxError(next.line)
    else next.doOpen == Depth(stack) - 1
         && Tracks(tokens, next.index, next.pointers, next.commands, todo, stack, whole)
  }

  lemma TimesTracks(tokens: seq<Token>, t: Turn, todo: Block, stack: Stack, whole: Listing)
    returns (left: Block, around: Stack)
    requires t.Turn? && t.index < |tokens| && t.doOpen == Depth(stack) - 1 && tokens[t.index].Times?
    requires Tracks(tokens, t.index, t.pointers, t.commands, todo, stack, whole)
    ensures TurnTracked(tokens, OneTurn(tokens, t), left, around, whole)
    ensures Closed(todo) && AllClosed(stack) ==> Closed(left) && AllClosed(around)
  {
    TrackTimes(tokens, t.index, t.pointers, t.commands, todo, stack, whole, t.doOpen);
    if t.pointers[t.doOpen].repetition < stack.n {
      left, around := stack.body, stack;
    } else {
      left, around := stack.rest, stack.outer;
    }
  }

  /** One turn from a tracked position leads to a tracked position again. */
  lemma TurnTracks(tokens: seq<Token>, t: Turn, todo: Block, stack: Stack, whole: Listing)
    returns (left: Block, around: Stack)
    requires t.Turn? && t.index < |tokens| && t.doOpen == Depth(stack) - 1
    requires Tracks(tokens, t.index, t.pointers, t.commands, todo, stack, whole)
    ensures TurnTracked(tokens, OneTurn(tokens, t), left, around, whole)
    ensures Closed(todo) && AllClosed(stack) ==> Closed(left) && AllClosed(around)
  {
    match tokens[t.index]
    case Text(_) =>
      TrackLine(tokens, t.index, t.pointers, t.commands, todo, stack, whole);
      left, around := todo.rest, stack;
    case Do =>
      TrackDo(tokens, t.index, t.pointers, t.commands, todo, stack, whole);
      left, around := Inside(todo, stack).0, Inside(todo, stack).1;
    case Times(_) =>
      left, around := TimesTracks(tokens, t, todo, stack, whole);
  }

  /** From a tracked position the parser ends with what was still to be listed. */
  lemma {:induction false} TrackedFinish(tokens: seq<Token>, t: Turn, todo: Block, stack: Stack, whole: Listing)
    requires t.Turn? && InFile(tokens, t)
    requires t.doOpen == Depth(stack) - 1
    requires Tracks(tokens, t.index, t.pointers, t.commands, todo, stack, whole)
    ensures Finish(tokens, t) == whole
    decreases Budget(tokens, t)
  {
    if t.index == |tokens| {
      TrackEnd(tokens, t.index, t.pointers, t.commands, todo, stack, whole);
    } else {
      TurnSpends(tokens, t);
      var left, around := TurnTracks(tokens, t, todo, stack, whole);
      var next := OneTurn(tokens, t);
      assert Settle(tokens, t) == Settle(tokens, next);
      if next.Turn? {
        TrackedFinish(tokens, next, left, around, whole);
      }
    }
  }

  /** Unrolling preserves meaning: the parser's turns on a program's text yield its expansion and one reset. */
  lemma {:induction false} UnrollsTree(b: Block)
    requires WellFormed(b)
    ensures Finish(Flatten(b) + [Text(Command(Reset))], FIRST_TURN)
            == Then(Meaning(b, 0), Listing([Tagged(Reset, |Flatten(b)| + 1)]))
  {
    var whole := Append(b, Command(Reset));
    StartTracks(b);
    TrackedFinish(Flatten(b) + [Text(Command(Reset))], FIRST_TURN, whole, Bottom, Meaning(whole, 0));
    ResetAppended(b);
  }

  /** So they do on every file without a stray Times. */
  lemma {:induction false} UnrollsProgram(testFile: seq<Token>)
    requires NoStrayTimes(testFile, 0)
    ensures Finish(testFile + [Text(Command(Reset))], FIRST_TURN)
            == Then(Meaning(Tree(testFile), 0), Listing([Tagged(Reset, |testFile| + 1)]))
  {
    TreeFlattens(testFile);
    UnrollsTree(Tree(testFile));
  }

  /**
   * The parser, for every token list: it terminates, and without a stray Times
   * it yields the recursive expansion of the program followed by one reset.
   */
  method Parse(testFile: seq<Token>) returns (listing: Listing)
    ensures listing == Finish(testFile + [Text(Command(Reset))], FIRST_TURN)
    ensures NoStrayTimes(testFile, 0) ==>
              listing == Then(Meaning(Tree(testFile), 0), Listing([Tagged(Reset, |testFile| + 1)]))
  {
    var tokens := testFile + [Text(Command(Reset))];
    var doOpen := -1;
    var pointers: seq<Pointer> := [];
    var index: nat := 0;
    var commands: seq<Tagged> := [];
    if NoStrayTimes(testFile, 0) {
      UnrollsProgram(testFile);
    }
    while index < |tokens|
      invariant InFile(tokens, Turn(index, doOpen, pointers, commands))
      invariant Settle(tokens, Turn(index, doOpen, pointers, commands)) == Settle(tokens, FIRST_TURN)
      decreases Budget(tokens, Turn(index, doOpen, pointers, commands))
    {
      TurnSpends(tokens, Turn(index, doOpen, pointers, commands));
      match tokens[index] {
        case Text(item) =>
          if item.Unknown? {
            return SyntaxError(index + 1);
          }
          commands := commands + Listed(item, index);
        case Do =>
          doOpen := doOpen + 1;
          if |pointers| < doOpen + 1 {
            pointers := pointers + [Pointer(index, 1)];
          } else if Slot(doOpen, |pointers|) < 0 {
            return SyntaxError(index + 1);
          } else {
            pointers := pointers[Slot(doOpen, |pointers|) := Pointer(index, 1)];
          }
        case Times(n) =>
          var slot := Slot(doOpen, |pointers|);
          if !(0 <= slot < |pointers|) {
            return SyntaxError(index + 1);
          }
          if pointers[slot].repetition < n {
            index := pointers[slot].start;
            pointers := NextRound(pointers, slot);
          } else {
            doOpen := doOpen - 1;
          }
      }
      index := index + 1;
    }
    listing := Listing(commands);
  }
}
