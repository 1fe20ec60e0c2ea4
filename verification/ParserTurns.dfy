/**
 * The loop of Parser.parse (test_executor.py) taken literally, on every token
 * list: one turn, why the backward jumps end, and where they end.
 */
module ParserTurns {
  import opened TestProgram

  datatype Pointer = Pointer(start: nat, repetition: nat)

  /** The parser's variables between two turns, or the line of the TestException. */
  datatype Turn = Turn(index: nat, doOpen: int, pointers: seq<Pointer>, commands: seq<Tagged>) | Refused(line: nat)

  const FIRST_TURN: Turn := Turn(0, -1, [], [])

  /** Python's list index: negative values count from the end. */
  function Slot(i: int, length: nat): int {
    if i < 0 then length + i else i
  }

  function Listed(item: Item, index: nat): seq<Tagged> {
    if item.Command? then [Tagged(item.order, index + 1)] else []
  }

  /** Replacing the counter of a loop. */
  function NextRound(pointers: seq<Pointer>, slot: nat): seq<Pointer>
    requires slot < |pointers|
  {
    pointers[slot := Pointer(pointers[slot].start, pointers[slot].repetition + 1)]
  }

  /** Any exception in a turn, a failed list index included, becomes a TestException for the line. */
  function OneTurn(tokens: seq<Token>, t: Turn): Turn
    requires t.Turn? && t.index < |tokens|
  {
    match tokens[t.index]
    case Text(item) =>
      if item.Unknown? then Refused(t.index + 1)
      else t.(index := t.index + 1, commands := t.commands + Listed(item, t.index))
    case Do =>
      var d := t.doOpen + 1;
      var slot := Slot(d, |t.pointers|);
      if |t.pointers| < d + 1 then
        t.(index := t.index + 1, doOpen := d, pointers := t.pointers + [Pointer(t.index, 1)])
      else if slot < 0 then Refused(t.index + 1)
      else t.(index := t.index + 1, doOpen := d, pointers := t.pointers[slot := Pointer(t.index, 1)])
    case Times(n) =>
      var slot := Slot(t.doOpen, |t.pointers|);
      if !(0 <= slot < |t.pointers|) then Refused(t.index + 1)
      else if t.pointers[slot].repetition < n then
        t.(index := t.pointers[slot].start + 1, pointers := NextRound(t.pointers, slot))
      else t.(index := t.index + 1, doOpen := t.doOpen - 1)
  }

  /**
   * A turn is refused, on the line it handles, exactly for an unknown line and
   * for a `do` or `times` whose counter lies outside the list of slots even
   * when counted from its end.
   */
  lemma TurnIsRefusedIff(tokens: seq<Token>, t: Turn)
    requires t.Turn? && t.index < |tokens|
    ensures var slots := |t.pointers|;
            OneTurn(tokens, t).Refused? <==>
            match tokens[t.index]
            case Text(item) => item.Unknown?
            case Do => t.doOpen + 1 < -slots
            case Times(_) => t.doOpen < -slots || t.doOpen >= slots
    ensures OneTurn(tokens, t).Refused? ==> OneTurn(tokens, t) == Refused(t.index + 1)
  {
  }

  // ----- Why it ends -----

  /** No loop of the file is repeated more often. */
  function MostTimes(tokens: seq<Token>): (k: nat)
    ensures k >= 1
    ensures forall i :: 0 <= i < |tokens| && tokens[i].Times? ==> tokens[i].n <= k
  {
    if tokens == [] then 1
    else
      var k := MostTimes(tokens[1..]);
      if tokens[0].Times? && tokens[0].n > k then tokens[0].n else k
  }

  function Total(times: nat, cost: nat): nat {
    if times == 0 then 0 else cost + Total(times - 1, cost)
  }

  /** What is spent at most from `index` on; passing a `do` also pays for all the jumps back to it. */
  function Forward(tokens: seq<Token>, index: nat): nat
    decreases |tokens| - index
  {
    if index >= |tokens| then 0
    else 1 + Forward(tokens, index + 1) + if tokens[index].Do? then Total(MostTimes(tokens), Jump(tokens, index)) else 0
  }

  /** The price of one jump back to the `do` at `start`. */
  function Jump(tokens: seq<Token>, start: nat): nat
    decreases |tokens| - start, 0
  {
    if start >= |tokens| then 0 else 1 + Forward(tokens, start + 1)
  }

  /** The jumps a slot can still make. */
  function SlotBudget(tokens: seq<Token>, p: Pointer): nat {
    Total(if p.repetition < MostTimes(tokens) then MostTimes(tokens) - p.repetition else 0, Jump(tokens, p.start))
  }

  function SlotsBudget(tokens: seq<Token>, pointers: seq<Pointer>): nat {
    if pointers == [] then 0 else SlotBudget(tokens, pointers[0]) + SlotsBudget(tokens, pointers[1..])
  }

  function Budget(tokens: seq<Token>, t: Turn): nat {
    if t.Refused? then 0 else 1 + Forward(tokens, t.index) + SlotsBudget(tokens, t.pointers)
  }

  /** Index and start lines lie in the file. */
  predicate InFile(tokens: seq<Token>, t: Turn) {
    t.Turn? ==> t.index <= |tokens| && forall i :: 0 <= i < |t.pointers| ==> t.pointers[i].start < |tokens|
  }

  lemma {:induction false} BudgetOfUpdate(tokens: seq<Token>, pointers: seq<Pointer>, slot: nat, p: Pointer)
    requires slot < |pointers|
    ensures SlotsBudget(tokens, pointers[slot := p]) + SlotBudget(tokens, pointers[slot])
            == SlotsBudget(tokens, pointers) + SlotBudget(tokens, p)
  {
    if slot > 0 {
      BudgetOfUpdate(tokens, pointers[1..], slot - 1, p);
      assert pointers[slot := p][1..] == pointers[1..][slot - 1 := p];
    }
  }

  lemma {:induction false} BudgetOfAppend(tokens: seq<Token>, pointers: seq<Pointer>, p: Pointer)
    ensures SlotsBudget(tokens, pointers + [p]) == SlotsBudget(tokens, pointers) + SlotBudget(tokens, p)
  {
    if pointers != [] {
      BudgetOfAppend(tokens, pointers[1..], p);
      assert (pointers + [p])[1..] == pointers[1..] + [p];
    } else {
      assert (pointers + [p])[1..] == [];
    }
  }

  lemma {:induction false} DoSpends(tokens: seq<Token>, t: Turn)
    requires t.Turn? && InFile(tokens, t) && t.index < |tokens| && tokens[t.index].Do?
    ensures InFile(tokens, OneTurn(tokens, t))
    ensures Budget(tokens, OneTurn(tokens, t)) < Budget(tokens, t)
  {
    var d := t.doOpen + 1;
    var slot := Slot(d, |t.pointers|);
    if |t.pointers| < d + 1 {
      BudgetOfAppend(tokens, t.pointers, Pointer(t.index, 1));
    } else if slot >= 0 {
      BudgetOfUpdate(tokens, t.pointers, slot, Pointer(t.index, 1));
    }
  }

  lemma {:induction false} TimesSpends(tokens: seq<Token>, t: Turn)
    requires t.Turn? && InFile(tokens, t) && t.index < |tokens| && tokens[t.index].Times?
    ensures InFile(tokens, OneTurn(tokens, t))
    ensures Budget(tokens, OneTurn(tokens, t)) < Budget(tokens, t)
  {
    var slot := Slot(t.doOpen, |t.pointers|);
    if 0 <= slot < |t.pointers| && t.pointers[slot].repetition < tokens[t.index].n {
      BudgetOfUpdate(tokens, t.pointers, slot, NextRound(t.pointers, slot)[slot]);
    }
  }

  /** Every turn spends some of the budget, wherever the jump goes and whichever slot it uses. */
  lemma {:induction false} TurnSpends(tokens: seq<Token>, t: Turn)
    requires t.Turn? && InFile(tokens, t) && t.index < |tokens|
    ensures InFile(tokens, OneTurn(tokens, t))
    ensures Budget(tokens, OneTurn(tokens, t)) < Budget(tokens, t)
  {
    match tokens[t.index]
    case Text(_) =>
    case Do => DoSpends(tokens, t);
    case Times(_) => TimesSpends(tokens, t);
  }

  /** Where the parser stops when it goes on from here. */
  function Settle(tokens: seq<Token>, t: Turn): Turn
    requires InFile(tokens, t)
    decreases Budget(tokens, t)
  {
    if t.Refused? || t.index == |tokens| then t
    else
      TurnSpends(tokens, t);
      Settle(tokens, OneTurn(tokens, t))
  }

  /** What it then returns or raises. */
  function Finish(tokens: seq<Token>, t: Turn): Listing
    requires InFile(tokens, t)
  {
    var end := Settle(tokens, t);
    if end.Refused? then SyntaxError(end.line) else Listing(end.commands)
  }

  function Turns(tokens: seq<Token>, t: Turn, count: nat): Turn
    decreases count
  {
    if count == 0 || t.Refused? || t.index >= |tokens| then t else Turns(tokens, OneTurn(tokens, t), count - 1)
  }

  /** The parser stops on every token list, well nested or not, within a budget known beforehand. */
  lemma {:induction false} ParserStops(tokens: seq<Token>, t: Turn, count: nat)
    requires InFile(tokens, t) && count >= Budget(tokens, t)
    ensures Turns(tokens, t, count) == Settle(tokens, t)
    ensures var end := Turns(tokens, t, count); end.Turn? ==> end.index == |tokens|
    decreases count
  {
    if t.Turn? && t.index < |tokens| {
      TurnSpends(tokens, t);
      ParserStops(tokens, OneTurn(tokens, t), count - 1);
    }
  }

  // ----- The first part of a file -----

  /** The parser goes through the first part of a file as it would if that were all. */
  lemma {:induction false} ArrivesAtEnd(part: seq<Token>, more: seq<Token>, t: Turn) returns (count: nat)
    requires InFile(part, t)
    ensures Turns(part + more, t, count) == Settle(part, t)
    ensures InFile(part + more, t) && InFile(part + more, Settle(part, t))
    ensures Settle(part + more, t) == Settle(part + more, Settle(part, t))
    decreases Budget(part, t)
  {
    count := 0;
    if t.Turn? && t.index < |part| {
      assert (part + more)[t.index] == part[t.index];
      TurnSpends(part, t);
      TurnSpends(part + more, t);
      count := ArrivesAtEnd(part, more, OneTurn(part, t));
      count := count + 1;
    }
  }

  // ----- Stray Times -----

  /** Before any `do`, the first Times or unknown line is a syntax error on its own line. */
  lemma {:induction false} TimesWithoutDoIsRefused(tokens: seq<Token>, t: Turn, k: nat)
    requires t.Turn? && t.index <= k < |tokens| && t.pointers == [] && t.doOpen == -1
    requires tokens[k].Times? || tokens[k] == Text(Unknown)
    requires forall i :: t.index <= i < k ==> tokens[i].Text? && !tokens[i].item.Unknown?
    ensures Finish(tokens, t) == SyntaxError(k + 1)
    decreases k - t.index
  {
    TurnSpends(tokens, t);
    var next := OneTurn(tokens, t);
    assert Settle(tokens, t) == Settle(tokens, next);
    if t.index < k {
      TimesWithoutDoIsRefused(tokens, next, k);
    }
  }
}
