/** The queue of staged commands in main, and attach_line (test_executor.py). */
module CommandQueue {
  import opened Options

  /** A callable: calling it leaves a trace under its name and ends in one of the ways below. */
  datatype Thunk = Thunk(name: string, ending: Ending)

  /** What a call yields: another callable, None, a TestException, or any other exception. */
  datatype Ending = Yields(next: Thunk) | Nothing | Fails(lineDefined: bool) | Breaks

  /** partial(attach_line, fun, line) */
  datatype Job = Job(fun: Option<Thunk>, line: nat)

  datatype Event = Ran(name: string, line: nat)

  /** Outcome of one job: a follow-up job, None, or a TestException that leaves attach_line. */
  datatype Answer = Again(job: Job) | Gone | Raised(line: nat)

  /** The whole execution: calls in order, and the line of the TestException that ended it, if any. */
  datatype Execution = Execution(events: seq<Event>, stopped: Option<nat>)

  /**
   * attach_line. A job without a callable ends; a TestException goes out with
   * the line attached unless it already had one, and then, like every other
   * exception, it is swallowed.
   */
  function AttachLine(job: Job): Answer {
    if job.fun.None? then Gone
    else
      match job.fun.value.ending
      case Yields(next) => Again(Job(Some(next), job.line))
      case Nothing => Again(Job(None, job.line))
      case Fails(lineDefined) => if lineDefined then Gone else Raised(job.line)
      case Breaks => Gone
  }

  function Trace(job: Job): seq<Event> {
    if job.fun.Some? then [Ran(job.fun.value.name, job.line)] else []
  }

  // ----- The reference: one round after another -----

  datatype RoundResult = RoundResult(events: seq<Event>, survivors: seq<Job>, stopped: Option<nat>)

  /** Every job once, in order, until one raises. */
  function Round(jobs: seq<Job>): RoundResult {
    if jobs == [] then RoundResult([], [], None)
    else
      match AttachLine(jobs[0])
      case Raised(line) => RoundResult(Trace(jobs[0]), [], Some(line))
      case Gone =>
        var r := Round(jobs[1..]);
        r.(events := Trace(jobs[0]) + r.events)
      case Again(job) =>
        var r := Round(jobs[1..]);
        RoundResult(Trace(jobs[0]) + r.events, if r.stopped.Some? then [] else [job] + r.survivors, r.stopped)
  }

  /** Calls a job has still ahead of it. */
  function Stages(fun: Option<Thunk>): nat {
    if fun.None? then 1 else ThunkStages(fun.value)
  }

  function ThunkStages(t: Thunk): nat {
    match t.ending
    case Yields(next) => 1 + ThunkStages(next)
    case Nothing => 2
    case _ => 1
  }

  function AllStages(jobs: seq<Job>): nat {
    if jobs == [] then 0 else Stages(jobs[0].fun) + AllStages(jobs[1..])
  }

  lemma {:induction false} RoundSpendsStages(jobs: seq<Job>)
    ensures AllStages(Round(jobs).survivors) <= AllStages(jobs)
    ensures jobs != [] ==> AllStages(Round(jobs).survivors) < AllStages(jobs)
  {
    if jobs != [] {
      RoundSpendsStages(jobs[1..]);
      var r := Round(jobs[1..]);
      var answer := AttachLine(jobs[0]);
      if answer.Again? {
        assert ([answer.job] + r.survivors)[1..] == r.survivors;
      }
    }
  }

  /** All rounds: stage k of every command runs before stage k + 1 of any. */
  function Rounds(jobs: seq<Job>): Execution
    decreases AllStages(jobs)
  {
    if jobs == [] then Execution([], None)
    else
      var r := Round(jobs);
      if r.stopped.Some? then Execution(r.events, r.stopped)
      else
        RoundSpendsStages(jobs);
        var later := Rounds(r.survivors);
        Execution(r.events + later.events, later.stopped)
  }

  // ----- The loop of main -----

  /** What is still to come when `todo` is left of this round and `done` has been queued for the next. */
  ghost function Ahead(todo: seq<Job>, done: seq<Job>): Execution {
    var r := Round(todo);
    if r.stopped.Some? then Execution(r.events, r.stopped)
    else
      var later := Rounds(done + r.survivors);
      Execution(r.events + later.events, later.stopped)
  }

  ghost function After(events: seq<Event>, e: Execution): Execution {
    Execution(events + e.events, e.stopped)
  }

  lemma {:induction false} StagesOfJoin(a: seq<Job>, b: seq<Job>)
    ensures AllStages(a + b) == AllStages(a) + AllStages(b)
  {
    if a == [] {
      assert a + b == b;
    } else {
      StagesOfJoin(a[1..], b);
      assert (a + b)[1..] == a[1..] + b;
    }
  }

  /** A round is over: the queue starts the next one. */
  lemma NextRound(done: seq<Job>)
    ensures Ahead([], done) == Ahead(done, [])
  {
    assert done + [] == done && [] + Round(done).survivors == Round(done).survivors;
    assert Round([]) == RoundResult([], [], None);
    assert [] + Rounds(done).events == Rounds(done).events;
    if done == [] {
      assert [] + Rounds([]).events == [];
    }
  }

  /** Handling the head of the round. */
  lemma HeadOfRound(todo: seq<Job>, done: seq<Job>)
    requires todo != []
    ensures match AttachLine(todo[0])
            case Raised(line) => Ahead(todo, done) == Execution(Trace(todo[0]), Some(line))
            case Gone => Ahead(todo, done) == After(Trace(todo[0]), Ahead(todo[1..], done))
            case Again(job) => Ahead(todo, done) == After(Trace(todo[0]), Ahead(todo[1..], done + [job]))
  {
    var r := Round(todo[1..]);
    match AttachLine(todo[0])
    case Raised(_) =>
    case Gone =>
      assert Trace(todo[0]) + (r.events + Rounds(done + r.survivors).events)
          == (Trace(todo[0]) + r.events) + Rounds(done + r.survivors).events;
    case Again(job) =>
      assert done + ([job] + r.survivors) == (done + [job]) + r.survivors;
      assert Trace(todo[0]) + (r.events + Rounds(done + [job] + r.survivors).events)
          == (Trace(todo[0]) + r.events) + Rounds(done + [job] + r.survivors).events;
  }

  lemma AfterAfter(a: seq<Event>, b: seq<Event>, e: Execution)
    ensures After(a, After(b, e)) == After(a + b, e)
  {
  }

  /** The loop of main: pops a job, calls it, and appends what it returns. It ends, and runs round by round. */
  method RunQueue(commands: seq<Job>) returns (execution: Execution)
    ensures execution == Rounds(commands)
  {
    var queue := commands;
    var events: seq<Event> := [];
    ghost var todo, done := commands, [];
    assert Ahead([], commands) == Rounds(commands) by {
      assert commands + [] == commands && [] + Rounds(commands).events == Rounds(commands).events;
    }
    NextRound(commands);
    while queue != []
      invariant queue == todo + done
      invariant After(events, Ahead(todo, done)) == Rounds(commands)
      decreases AllStages(queue)
    {
      if todo == [] {
        NextRound(done);
        todo, done := done, [];
      }
      var job := queue[0];
      queue := queue[1..];
      HeadOfRound(todo, done);
      events := events + Trace(job);
      var answer := AttachLine(job);
      match answer {
        case Raised(line) =>
          return Execution(events, Some(line));
        case Gone =>
          AfterAfter(events[..|events| - |Trace(job)|], Trace(job), Ahead(todo[1..], done));
        case Again(next) =>
          StagesOfJoin(queue, [next]);
          AfterAfter(events[..|events| - |Trace(job)|], Trace(job), Ahead(todo[1..], done + [next]));
          queue := queue + [next];
          done := done + [next];
      }
      todo := todo[1..];
    }
    execution := Execution(events, None);
  }

  // ----- What each ending leads to -----

  /** The call lets a TestException out: one that has no line yet. */
  predicate LetsOut(job: Job) {
    job.fun.Some? && job.fun.value.ending == Fails(false)
  }

  /** Only a TestException without a line stops the queue; everything else is queued on, or over, or swallowed. */
  lemma AttachLineAnswers(job: Job)
    ensures AttachLine(job) == Raised(job.line) <==> LetsOut(job)
    ensures AttachLine(job).Raised? ==> LetsOut(job)
    ensures forall next ::
              AttachLine(job) == Again(Job(Some(next), job.line)) <==>
              job.fun.Some? && job.fun.value.ending == Yields(next)
    ensures AttachLine(job) == Again(Job(None, job.line)) <==> job.fun.Some? && job.fun.value.ending == Nothing
    ensures AttachLine(job) == Gone <==>
              job.fun.None? || job.fun.value.ending == Fails(true) || job.fun.value.ending == Breaks
  {
  }

  /** Index of the first job that lets a TestException out, or the length. */
  function FirstOut(jobs: seq<Job>): (k: nat)
    ensures k <= |jobs|
    ensures k < |jobs| ==> LetsOut(jobs[k])
    ensures forall i :: 0 <= i < k ==> !LetsOut(jobs[i])
  {
    if jobs == [] || LetsOut(jobs[0]) then 0 else 1 + FirstOut(jobs[1..])
  }

  /** The names called one after another, under the lines of the jobs. */
  function Calls(jobs: seq<Job>): seq<Event> {
    if jobs == [] then []
    else (if jobs[0].fun.Some? then [Ran(jobs[0].fun.value.name, jobs[0].line)] else []) + Calls(jobs[1..])
  }

  /** What the jobs yield, in order, each under the line of its job. */
  function Effects(jobs: seq<Job>): seq<Job> {
    if jobs == [] then []
    else
      (if jobs[0].fun.Some? && jobs[0].fun.value.ending.Yields?
       then [Job(Some(jobs[0].fun.value.ending.next), jobs[0].line)] else [])
      + Effects(jobs[1..])
  }

  /** The jobs that have something to call. */
  function Live(jobs: seq<Job>): seq<Job> {
    if jobs == [] then [] else (if jobs[0].fun.Some? then [jobs[0]] else []) + Live(jobs[1..])
  }

  /** A round calls its jobs in order up to the first that lets a TestException out; what the others yield survives. */
  lemma {:induction false} RoundInOrder(jobs: seq<Job>)
    ensures var k := FirstOut(jobs);
            var r := Round(jobs);
            if k < |jobs| then r == RoundResult(Calls(jobs[..k + 1]), [], Some(jobs[k].line))
            else r.events == Calls(jobs) && r.stopped == None && Live(r.survivors) == Effects(jobs)
  {
    if jobs != [] {
      AttachLineAnswers(jobs[0]);
      if LetsOut(jobs[0]) {
        assert jobs[..1] == [jobs[0]];
        assert Calls([jobs[0]]) == Calls([]) + Trace(jobs[0]);
      } else {
        RoundInOrder(jobs[1..]);
        var k := FirstOut(jobs[1..]);
        if k < |jobs[1..]| {
          assert jobs[..k + 2][1..] == jobs[1..][..k + 1];
        } else {
          SurvivorFirst(jobs[0], Round(jobs[1..]).survivors);
        }
      }
    }
  }

  /** What one job adds to the survivors, and to what is yielded. */
  lemma {:induction false} SurvivorFirst(job: Job, rest: seq<Job>)
    requires !LetsOut(job)
    ensures Live((if AttachLine(job).Again? then [AttachLine(job).job] else []) + rest)
            == Effects([job]) + Live(rest)
  {
    AttachLineAnswers(job);
    assert Effects([job][1..]) == [];
    if AttachLine(job).Again? {
      assert ([AttachLine(job).job] + rest)[1..] == rest;
    } else {
      assert [] + rest == rest && [] + Live(rest) == Live(rest);
    }
  }

  /** Jobs with nothing to call change nothing. */
  lemma {:induction false} SpentChangeNothing(jobs: seq<Job>)
    ensures Round(jobs) == Round(Live(jobs))
  {
    if jobs != [] {
      SpentChangeNothing(jobs[1..]);
      assert ([jobs[0]] + Live(jobs[1..]))[1..] == Live(jobs[1..]);
      assert [] + Live(jobs[1..]) == Live(jobs[1..]);
      assert [] + Round(jobs[1..]).events == Round(jobs[1..]).events;
    }
  }

  lemma {:induction false} RoundsOfLive(jobs: seq<Job>)
    ensures Rounds(jobs) == Rounds(Live(jobs))
  {
    SpentChangeNothing(jobs);
    if jobs != [] && Live(jobs) == [] {
      assert Round(jobs) == RoundResult([], [], None);
      assert Rounds([]) == Execution([], None);
    }
  }

  // ----- Two phases -----

  /** A command as the parser makes it: a check that may yield an effect, and effects that yield no more. */
  predicate TwoStaged(job: Job) {
    job.fun.Some? && job.fun.value.ending.Yields? ==> !job.fun.value.ending.next.ending.Yields?
  }

  predicate AllTwoStaged(jobs: seq<Job>) {
    forall i :: 0 <= i < |jobs| ==> TwoStaged(jobs[i])
  }

  /** Effects yield no effects. */
  lemma {:induction false} EffectsYieldNothing(jobs: seq<Job>)
    requires AllTwoStaged(jobs)
    ensures Effects(Effects(jobs)) == []
  {
    if jobs != [] {
      EffectsYieldNothing(jobs[1..]);
      var rest := Effects(jobs[1..]);
      if jobs[0].fun.Some? && jobs[0].fun.value.ending.Yields? {
        var effect := Job(Some(jobs[0].fun.value.ending.next), jobs[0].line);
        assert ([effect] + rest)[1..] == rest;
        assert Effects([effect] + rest) == [] + Effects(rest);
      } else {
        assert [] + rest == rest;
      }
    }
  }

  /** Rounds from jobs whose first round lets nothing out: the calls, and then the rounds of what they yield. */
  lemma {:induction false} RoundByRound(jobs: seq<Job>)
    ensures var k := FirstOut(jobs);
            Rounds(jobs) ==
              if k < |jobs| then Execution(Calls(jobs[..k + 1]), Some(jobs[k].line))
              else Execution(Calls(jobs) + Rounds(Effects(jobs)).events, Rounds(Effects(jobs)).stopped)
  {
    RoundInOrder(jobs);
    if jobs != [] {
      RoundsOfLive(Round(jobs).survivors);
    }
  }

  /**
   * Two-phase execution, told by how the calls end. A check that lets a
   * TestException out ends the execution, under its line, with the checks up
   * to it and no effect at all; otherwise every check runs, in program order,
   * before the first effect, and then what the checks yielded runs in program
   * order up to the first that lets one out.
   */
  lemma {:induction false} TwoPhase(commands: seq<Job>)
    requires AllTwoStaged(commands)
    ensures var k := FirstOut(commands);
            var effects := Effects(commands);
            var m := FirstOut(effects);
            Rounds(commands) ==
              if k < |commands| then Execution(Calls(commands[..k + 1]), Some(commands[k].line))
              else if m < |effects| then
                Execution(Calls(commands) + Calls(effects[..m + 1]), Some(effects[m].line))
              else Execution(Calls(commands) + Calls(effects), None)
  {
    RoundByRound(commands);
    RoundByRound(Effects(commands));
    EffectsYieldNothing(commands);
    assert Rounds([]) == Execution([], None);
    assert Calls(Effects(commands)) + [] == Calls(Effects(commands));
  }
}
