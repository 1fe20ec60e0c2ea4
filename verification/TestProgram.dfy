/** The test language: programs, what they mean, and the parser that unrolls them (test_executor.py, class Parser). */
module TestProgram {

  /** The recognised commands, with their parameters as text. */
  datatype Order = Link(parameters: string) | RandomLink(parameters: string) | Reset | Run(parameters: string)

  /** A line that is not part of a loop: empty, a recognised command, or nothing the parser knows. */
  datatype Item = Blank | Command(order: Order) | Unknown

  datatype Token = Text(item: Item) | Do | Times(n: nat)

  datatype Tagged = Tagged(order: Order, line: nat)

  /** The command list, or the line of the TestException. */
  datatype Listing = Listing(commands: seq<Tagged>) | SyntaxError(line: nat)

  // ----- Programs as trees -----

  /** A block of lines and loops; `Open` is a `do` that is never closed. */
  datatype Block =
    | End
    | Line(item: Item, rest: Block)
    | Loop(body: Block, n: nat, rest: Block)
    | Open(rest: Block)

  /** No `do` is left open inside the block. */
  predicate Closed(b: Block) {
    match b
    case End => true
    case Line(_, rest) => Closed(rest)
    case Loop(body, _, rest) => Closed(body) && Closed(rest)
    case Open(_) => false
  }

  /** Loops are closed inside; open `do`s may stand only at the outermost level. */
  predicate WellFormed(b: Block) {
    match b
    case End => true
    case Line(_, rest) => WellFormed(rest)
    case Loop(body, _, rest) => Closed(body) && WellFormed(rest)
    case Open(rest) => WellFormed(rest)
  }

  function Flatten(b: Block): seq<Token> {
    match b
    case End => []
    case Line(item, rest) => [Text(item)] + Flatten(rest)
    case Loop(body, n, rest) => [Do] + Flatten(body) + [Times(n)] + Flatten(rest)
    case Open(rest) => [Do] + Flatten(rest)
  }

  // ----- Meaning -----

  /** One listing after another; an error hides what follows. */
  function Then(a: Listing, b: Listing): Listing {
    if a.SyntaxError? then a
    else if b.SyntaxError? then b
    else Listing(a.commands + b.commands)
  }

  function Repeat(a: Listing, times: nat): Listing {
    if times == 0 then Listing([]) else Then(a, Repeat(a, times - 1))
  }

  /** A loop runs its body at least once. */
  function Rounds(n: nat): nat {
    if n == 0 then 1 else n
  }

  function MeaningOfItem(item: Item, index: nat): Listing {
    match item
    case Blank => Listing([])
    case Command(order) => Listing([Tagged(order, index + 1)])
    case Unknown => SyntaxError(index + 1)
  }

  /** The recursive expansion of a block whose first token stands at `index`. */
  function Meaning(b: Block, index: nat): Listing {
    match b
    case End => Listing([])
    case Line(item, rest) => Then(MeaningOfItem(item, index), Meaning(rest, index + 1))
    case Loop(body, n, rest) =>
      Then(Repeat(Meaning(body, index + 1), Rounds(n)),
           Meaning(rest, index + 2 + |Flatten(body)|))
    case Open(rest) => Meaning(rest, index + 1)
  }

  // ----- From tokens to trees -----

  /** Reads a block up to an unmatched Times or the end. */
  function ReadBlock(tokens: seq<Token>): (r: (Block, seq<Token>))
    ensures |r.1| <= |tokens|
    ensures r.1 != [] ==> r.1[0].Times?
    decreases |tokens|
  {
    if tokens == [] then (End, [])
    else
      match tokens[0]
      case Text(item) =>
        var (rest, left) := ReadBlock(tokens[1..]);
        (Line(item, rest), left)
      case Times(_) => (End, tokens)
      case Do =>
        var (body, left) := ReadBlock(tokens[1..]);
        if left == [] then
          (Open(body), [])
        else
          var (rest, after) := ReadBlock(left[1..]);
          (Loop(body, left[0].n, rest), after)
  }

  /** Reading forward with `depth` loops open, no Times comes without one. */
  predicate NoStrayTimes(tokens: seq<Token>, depth: nat) {
    tokens == []
    || match tokens[0]
       case Text(_) => NoStrayTimes(tokens[1..], depth)
       case Do => NoStrayTimes(tokens[1..], depth + 1)
       case Times(_) => depth > 0 && NoStrayTimes(tokens[1..], depth - 1)
  }

  /** The tree of a token list. */
  function Tree(tokens: seq<Token>): Block {
    ReadBlock(tokens).0
  }

  /** A block ended by a Times has no open `do`; any block read is well formed. */
  lemma {:induction false} ReadBlockShape(tokens: seq<Token>)
    ensures WellFormed(ReadBlock(tokens).0)
    ensures ReadBlock(tokens).1 != [] ==> Closed(ReadBlock(tokens).0)
    decreases |tokens|
  {
    if tokens != [] && !tokens[0].Times? {
      ReadBlockShape(tokens[1..]);
      var left := ReadBlock(tokens[1..]).1;
      if tokens[0].Do? && left != [] {
        ReadBlockShape(left[1..]);
      }
    }
  }

  /** The block read flattens back to the tokens consumed. */
  lemma {:induction false} ReadBlockFlattens(tokens: seq<Token>)
    ensures Flatten(ReadBlock(tokens).0) + ReadBlock(tokens).1 == tokens
    decreases |tokens|
  {
    if tokens != [] && !tokens[0].Times? {
      ReadBlockFlattens(tokens[1..]);
      assert tokens == [tokens[0]] + tokens[1..];
      if tokens[0].Do? {
        var (body, left) := ReadBlock(tokens[1..]);
        if left != [] {
          ReadBlockFlattens(left[1..]);
          var (rest, after) := ReadBlock(left[1..]);
          assert left == [left[0]] + left[1..];
          JoinLoop(body, left[0].n, rest, after);
        }
      }
    }
  }

  lemma JoinLoop(body: Block, n: nat, rest: Block, after: seq<Token>)
    ensures Flatten(Loop(body, n, rest)) + after
            == [Do] + (Flatten(body) + ([Times(n)] + (Flatten(rest) + after)))
  {
  }

  /** Reading after a block whose tokens come first: blocks are read back as they were written. */
  lemma {:induction false} ReadFlattened(b: Block, tail: seq<Token>)
    requires WellFormed(b)
    requires tail != [] ==> Closed(b) && tail[0].Times?
    ensures ReadBlock(Flatten(b) + tail) == (b, tail)
  {
    match b
    case End =>
      assert Flatten(b) + tail == tail;
    case Line(item, rest) =>
      ReadFlattened(rest, tail);
      assert (Flatten(b) + tail)[1..] == Flatten(rest) + tail;
    case Open(rest) =>
      ReadFlattened(rest, []);
      assert Flatten(rest) + [] == Flatten(rest);
      assert (Flatten(b) + tail)[1..] == Flatten(rest);
    case Loop(body, n, rest) =>
      var left := [Times(n)] + (Flatten(rest) + tail);
      JoinLoop(body, n, rest, tail);
      ClosedIsWellFormed(body);
      ReadFlattened(body, left);
      ReadFlattened(rest, tail);
      assert (Flatten(b) + tail)[1..] == Flatten(body) + left;
      assert left[1..] == Flatten(rest) + tail;
  }

  lemma {:induction false} ClosedIsWellFormed(b: Block)
    requires Closed(b)
    ensures WellFormed(b)
  {
    match b
    case End =>
    case Line(_, rest) => ClosedIsWellFormed(rest);
    case Loop(body, _, rest) => ClosedIsWellFormed(rest);
  }

  /** Every well-formed program is recovered from its tokens. */
  lemma TreeOfFlattened(b: Block)
    requires WellFormed(b)
    ensures Tree(Flatten(b)) == b && NoStrayTimes(Flatten(b), 0)
  {
    ReadFlattened(b, []);
    assert Flatten(b) + [] == Flatten(b);
    StrayTimesStayUnread(Flatten(b), 0);
  }

  /** The tree of a token list without a stray Times flattens back to it. */
  lemma TreeFlattens(tokens: seq<Token>)
    requires NoStrayTimes(tokens, 0)
    ensures WellFormed(Tree(tokens)) && Flatten(Tree(tokens)) == tokens
  {
    StrayTimesStayUnread(tokens, 0);
    ReadBlockFlattens(tokens);
    ReadBlockShape(tokens);
    assert Flatten(Tree(tokens)) + [] == Flatten(Tree(tokens));
  }

  /** A token list without a stray Times is exactly one that some well-formed program flattens to. */
  lemma NoStrayIffProgram(tokens: seq<Token>)
    ensures NoStrayTimes(tokens, 0) <==> exists b :: WellFormed(b) && Flatten(b) == tokens
  {
    if NoStrayTimes(tokens, 0) {
      TreeFlattens(tokens);
    }
    if b :| WellFormed(b) && Flatten(b) == tokens {
      TreeOfFlattened(b);
    }
  }

  lemma {:induction false} StrayTimesStayUnread(tokens: seq<Token>, depth: nat)
    ensures NoStrayTimes(tokens, depth) <==>
            var left := ReadBlock(tokens).1;
            left == [] || (depth > 0 && NoStrayTimes(left[1..], depth - 1))
    decreases |tokens|
  {
    if tokens != [] && !tokens[0].Times? {
      StrayTimesStayUnread(tokens[1..], if tokens[0].Do? then depth + 1 else depth);
      var left := ReadBlock(tokens[1..]).1;
      if tokens[0].Do? && left != [] {
        StrayTimesStayUnread(left[1..], depth);
      }
    }
  }

  // ----- Appending the final reset -----

  function Append(b: Block, item: Item): Block {
    match b
    case End => Line(item, End)
    case Line(i, rest) => Line(i, Append(rest, item))
    case Loop(body, n, rest) => Loop(body, n, Append(rest, item))
    case Open(rest) => Open(Append(rest, item))
  }

  lemma {:induction false} AppendFlattens(b: Block, item: Item, index: nat)
    ensures Flatten(Append(b, item)) == Flatten(b) + [Text(item)]
    ensures WellFormed(b) ==> WellFormed(Append(b, item))
    ensures Meaning(Append(b, item), index) == Then(Meaning(b, index), MeaningOfItem(item, index + |Flatten(b)|))
  {
    match b
    case End =>
    case Line(i, rest) => AppendFlattens(rest, item, index + 1);
    case Open(rest) => AppendFlattens(rest, item, index + 1);
    case Loop(body, n, rest) => AppendFlattens(rest, item, index + 2 + |Flatten(body)|);
  }

  /** A program with a reset at its end. */
  lemma {:induction false} ResetAppended(b: Block)
    ensures WellFormed(b) ==> WellFormed(Append(b, Command(Reset)))
    ensures Flatten(Append(b, Command(Reset))) == Flatten(b) + [Text(Command(Reset))]
    ensures Meaning(Append(b, Command(Reset)), 0) == Then(Meaning(b, 0), Listing([Tagged(Reset, |Flatten(b)| + 1)]))
  {
    AppendFlattens(b, Command(Reset), 0);
  }

  // ----- What a listing says about the lines -----

  /** Every command in a listing stands on the line it is tagged with. */
  ghost predicate TagsRight(l: Listing, tokens: seq<Token>, index: nat) {
    l.Listing? ==>
      forall t :: t in l.commands ==>
        index < t.line <= index + |tokens| && tokens[t.line - 1 - index] == Text(Command(t.order))
  }

  lemma {:induction false} RepeatTags(l: Listing, times: nat, tokens: seq<Token>, index: nat)
    requires TagsRight(l, tokens, index)
    ensures TagsRight(Repeat(l, times), tokens, index)
  {
    if times > 0 {
      RepeatTags(l, times - 1, tokens, index);
    }
  }

  /** A part's tags are right in the whole. */
  lemma WidenTags(l: Listing, before: seq<Token>, part: seq<Token>, after: seq<Token>, index: nat)
    requires TagsRight(l, part, index + |before|)
    ensures TagsRight(l, before + part + after, index)
  {
  }

  lemma {:induction false} ListedWhereTagged(b: Block, index: nat)
    ensures TagsRight(Meaning(b, index), Flatten(b), index)
  {
    match b
    case End =>
    case Line(item, rest) =>
      ListedWhereTagged(rest, index + 1);
      WidenTags(Meaning(rest, index + 1), [Text(item)], Flatten(rest), [], index);
      assert Flatten(b) == [Text(item)] + Flatten(rest) + [];
    case Open(rest) =>
      ListedWhereTagged(rest, index + 1);
      WidenTags(Meaning(rest, index + 1), [Do], Flatten(rest), [], index);
      assert Flatten(b) == [Do] + Flatten(rest) + [];
    case Loop(body, n, rest) =>
      ListedWhereTagged(body, index + 1);
      ListedWhereTagged(rest, index + 2 + |Flatten(body)|);
      LoopTags(body, n, rest, index);
  }

  lemma LoopTags(body: Block, n: nat, rest: Block, index: nat)
    requires TagsRight(Meaning(body, index + 1), Flatten(body), index + 1)
    requires TagsRight(Meaning(rest, index + 2 + |Flatten(body)|), Flatten(rest), index + 2 + |Flatten(body)|)
    ensures TagsRight(Meaning(Loop(body, n, rest), index), Flatten(Loop(body, n, rest)), index)
  {
    var rounds := Repeat(Meaning(body, index + 1), Rounds(n));
    RepeatTags(Meaning(body, index + 1), Rounds(n), Flatten(body), index + 1);
    LoopPartsTags(rounds, Flatten(body), Times(n), Meaning(rest, index + 2 + |Flatten(body)|), Flatten(rest), index);
  }

  lemma LoopPartsTags(rounds: Listing, body: seq<Token>, end: Token, after: Listing, rest: seq<Token>, index: nat)
    requires TagsRight(rounds, body, index + 1) && TagsRight(after, rest, index + 2 + |body|)
    ensures TagsRight(Then(rounds, after), [Do] + body + [end] + rest, index)
  {
    var all := [Do] + body + [end] + rest;
    WidenTags(rounds, [Do], body, [end] + rest, index);
    WidenTags(after, [Do] + body + [end], rest, [], index);
    assert all == [Do] + body + ([end] + rest) && all == all + [];
    JoinTags(rounds, after, all, index);
  }

  lemma JoinTags(a: Listing, b: Listing, tokens: seq<Token>, index: nat)
    requires TagsRight(a, tokens, index) && TagsRight(b, tokens, index)
    ensures TagsRight(Then(a, b), tokens, index)
  {
  }

  /** The position of the first unknown line, or the length. */
  function FirstUnknown(tokens: seq<Token>): (k: nat)
    ensures k <= |tokens|
    ensures k < |tokens| ==> tokens[k] == Text(Unknown)
    ensures forall i :: 0 <= i < k ==> tokens[i] != Text(Unknown)
  {
    if tokens == [] || tokens[0] == Text(Unknown) then 0 else 1 + FirstUnknown(tokens[1..])
  }

  lemma {:induction false} FirstUnknownOfJoin(a: seq<Token>, b: seq<Token>)
    ensures FirstUnknown(a + b) == if FirstUnknown(a) < |a| then FirstUnknown(a) else |a| + FirstUnknown(b)
  {
    if a == [] {
      assert a + b == b;
    } else {
      FirstUnknownOfJoin(a[1..], b);
      assert (a + b)[1..] == a[1..] + b;
    }
  }

  lemma {:induction false} RepeatErrors(l: Listing, times: nat)
    requires times >= 1
    ensures l.SyntaxError? ==> Repeat(l, times) == l
    ensures l.Listing? ==> Repeat(l, times).Listing?
  {
    if times > 1 {
      RepeatErrors(l, times - 1);
    }
  }

  /** `l` is what a block with tokens `tokens` at `index` should list, as far as errors go. */
  ghost predicate ErrsAtFirstUnknown(l: Listing, tokens: seq<Token>, index: nat) {
    var k := FirstUnknown(tokens);
    if k < |tokens| then l == SyntaxError(index + k + 1) else l.Listing?
  }

  lemma ErrsOfJoin(l: Listing, a: seq<Token>, m: Listing, b: seq<Token>, index: nat)
    requires ErrsAtFirstUnknown(l, a, index) && ErrsAtFirstUnknown(m, b, index + |a|)
    ensures ErrsAtFirstUnknown(Then(l, m), a + b, index)
  {
    FirstUnknownOfJoin(a, b);
  }

  /** A program is refused exactly when it has an unknown line, and at the first such line. */
  lemma {:induction false} ErrorIsFirstUnknown(b: Block, index: nat)
    ensures ErrsAtFirstUnknown(Meaning(b, index), Flatten(b), index)
  {
    match b
    case End =>
    case Line(item, rest) =>
      ErrorIsFirstUnknown(rest, index + 1);
      ErrsOfJoin(MeaningOfItem(item, index), [Text(item)], Meaning(rest, index + 1), Flatten(rest), index);
    case Open(rest) =>
      ErrorIsFirstUnknown(rest, index + 1);
      FirstUnknownOfJoin([Do], Flatten(rest));
    case Loop(body, n, rest) =>
      ErrorIsFirstUnknown(body, index + 1);
      ErrorIsFirstUnknown(rest, index + 2 + |Flatten(body)|);
      LoopErrs(Meaning(body, index + 1), Flatten(body), n, index);
      ErrsOfJoin(Repeat(Meaning(body, index + 1), Rounds(n)), [Do] + Flatten(body) + [Times(n)],
                 Meaning(rest, index + 2 + |Flatten(body)|), Flatten(rest), index);
  }

  lemma LoopErrs(l: Listing, body: seq<Token>, n: nat, index: nat)
    requires ErrsAtFirstUnknown(l, body, index + 1)
    ensures ErrsAtFirstUnknown(Repeat(l, Rounds(n)), [Do] + body + [Times(n)], index)
  {
    RepeatErrors(l, Rounds(n));
    FirstUnknownOfJoin([Do], body);
    FirstUnknownOfJoin([Do] + body, [Times(n)]);
  }
}
