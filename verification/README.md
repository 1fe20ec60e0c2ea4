# A verified model of the consensus test bed

The repository compares two replicated logs, a Multi-Paxos server (`paxos/`)
and PySyncObj (`pysyncobj/`), under network faults described in a small test
language (`test_executor.py`). This project models the three parts whose
correctness is hard to see from the code, and proves what they are for.

**Multi-Paxos.** The classes Proposer, Acceptor, Learner, PaxosInstance and
the replicated value with its resolution and synchronisation strategies are
Dafny classes; the contract of each method says that it performs one pure step
(`Proposer.dfy`, `Acceptor.dfy`, `Learner.dfy`, `PaxosInstance.dfy`,
`Node.dfy`). `Network.dfy` builds the cluster from those steps: sent datagrams
stay in a set for ever, so loss, duplication and reordering are choices of
what to deliver, and timers may fire at any moment. `Invariant.dfy` states the
inductive invariant; `Preservation.dfy`, `AcceptorSteps.dfy`,
`ProposerSteps.dfy` and `LearnerSteps.dfy` prove that every event keeps it;
`Agreement.dfy` draws the theorems over all runs: one chosen value per
instance, stability of choice, agreement of all update histories, safety of
every Accept, soundness of every Resolution, and no exception in any handler.
`LearnerHistory.dfy` tells from the votes heard exactly when a learner
resolves, `Retransmission.dfy` which looping calls are on air, `RoundIds.dfy`
that new rounds outbid all a node has been told of, and `Answers.dfy` what
every message and timer is answered with. `SoloRun.dfy`
exhibits a run in which a value is chosen; `CallbackRun.dfy` and, on the run
teller of `Scenario.dfy`, `TwoServers.dfy` exhibit runs in which a raising
callback breaks agreement.

A run may contain callbacks that raise, as long as the node is not
retransmitting an Accept at that moment; a Prepare that goes on under the next
instance number does no harm. All theorems on runs hold under that guard.

The invariant is not the textbook one. `prepare()` resets neither the highest
accepted id nor the proposed value, so a proposer may carry a value adopted in
an earlier round. What holds is that each Accept is *safe* at its id: for
every lower id there is a quorum whose members voted for this value there or
never can vote there.

**The test language.** `TestProgram.dfy` gives programs a recursive meaning;
`ParserTurns.dfy` is the parser's loop with its backward jumps, taken literally
on every token list, with a budget that each turn spends, so that it stops
however badly `do` and `times` are nested; `Parser.dfy` proves that on every
program the loop yields the program's expansion; `StrayTimes.dfy` tells what
becomes of a `times` without a `do`. `CommandQueue.dfy` is the queue of staged
commands, `IdResolution.dfy` the resolution of `all` and `rand`, and
`LinkRules.dfy` the links a command changes.

**Byte transfer in PySyncObj.** `Snapshot.dfy` is the in-memory Serializer,
`SnapshotLink.dfy` a sender and receiver on a FIFO link, `SnapshotPull.dfy` one
uninterrupted transfer, `SnapshotLoss.dfy` lost chunks and several senders,
`SnapshotCheck.dfy` what a successful check changes and what is reported.
`Framing.dfy` is the Connection with its length prefix and its receive loop,
inside which the handlers answer on the same connection; `Stream.dfy` joins two
connections by a TCP stream under any splitting of sends and reads, polls that
flush and read included; `ConnectionAnswers.dfy` tells what each answer of the socket, each
payload and each reply leads to; `Misread.dfy` is a run in which such a poll
loses a message.

## Findings

- A restart restores the acceptor's promise exactly when the saved promised id
  is not below the saved accepted id: `receive_accept` writes the old
  `promised_id` (paxos/replicated_value.py:177-178).
  See `RestartKeepsAcceptor` and `RestartCanLosePromise`.
- A refusal's Nack carries the saved promise (paxos/replicated_value.py:146,
  181), which the accepted id may exceed: then it does not tell the proposer of
  an id above the refused one. See `RefusalTellsIff`.
- If `onUpdateCallback` raises, `stop_driving` is skipped and the old round's
  looping call goes on under the new instance number
  (paxos/resolution_strategy.py:57-60, paxos/replicated_value.py:108-124).
  See `AdvanceStopsTaskIffCallbackReturns` and `LeakedTaskCrossesInstances`.
  When that call sends an Accept, one server is enough to have two values
  chosen in one instance under one proposal id
  (`RaisingCallbackBreaksAgreement`), and two servers can hold any two values
  at the same instance (`ServersDisagree`). When it sends a Prepare, all
  theorems still hold: they are proved for runs whose callbacks return, or
  raise while no Accept is on air.
- A learner can have heard a quorum for one id without resolving, when an
  acceptor moved on before the quorum was complete
  (paxos/composable_paxos.py:325-343); `LearnerCanMissQuorum` is such a
  history. It resolves exactly when a quorum has been counted for one id since
  the last moment at which no acceptor stood at that id (`LearnerResolvesIff`,
  `VoteResolvesIff`).
- A program runs its loops as often as written exactly when those written
  `0 times`, which run once, list nothing (`LoopsRunAsWrittenIff`).
- The first `times` without a `do` is refused exactly when no `do` stands
  before it in the file (test_executor.py:313-318): otherwise index -1 finds
  the slot of a loop already closed. See `FirstStrayTimes`; `StrayTimesCanPass`
  is a file accepted that way.
- Id 0 in a command belongs to no node and is not refused
  (test_executor.py:142-146). See `SourcesAreNodesIff`.
- The documentation has the restriction on `rand` keep commands off loopback
  links (report/sections/testing_language.tex:12). No command touches one,
  `all` included, but because `modify_connection` skips equal ids
  (test_executor.py:69-70); see `NoLoopbackTouched`. The sets themselves have
  an id in common exactly when their words overlap, in which `rand` counts only
  against `all`; see `SetsMeetIff`.
- With a batch size that is not positive, a transfer completes something
  shorter than the snapshot (pysyncobj/serializer.py:110-126).
  See `TransferIsExactIff`.
- A message None stops the receive loop (pysyncobj/node.py:113-117): messages
  behind it wait for the next read. See `LoopDeliversAllIff`.
- A reply that fails inside the receive loop throws away the frames still
  buffered (pysyncobj/connection.py:69-72, pysyncobj/node.py:118). Delivery is
  complete for what has been read exactly when the bytes buffered or thrown
  away hold no whole frame. See `DeliversLongestPrefix` and
  `FailedReplyEndsLoop`.
- A poll that is writable and readable reads on after its flush has failed
  (pysyncobj/node.py:101-118). Order is kept when the flush found the read
  buffer empty; otherwise a message can be lost and the next one delivered. See
  `ReadAfterFailedFlush`, `DeliversLongestPrefix` and `SkipsMessage`.
- A sender that goes on with a snapshot after another has begun one on the same
  receiver completes the start of the one and the rest of the other. That is
  its own snapshot exactly when the two agree on all it had sent and the other
  had sent as much. Senders that take over only with a first chunk tear
  nothing. See `ResumedSenderTears`, `ResumeCompletes` and `SendersCannotTear`.

## Model

| member | source | states |
|---|---|---|
| ProposerRole.Proposer.ProposeValue | paxos/composable_paxos.py:148-159 | the value is set only if none is held; an Accept is returned only by a leader |
| ProposerRole.Proposer.Prepare | paxos/composable_paxos.py:162-176 | a new round above the highest id seen; adopted id and value survive |
| ProposerRole.Proposer.ObserveProposal | paxos/composable_paxos.py:179-189 | the highest id seen only rises; a None id changes nothing |
| ProposerRole.Proposer.ReceiveNack | paxos/composable_paxos.py:192-203 | nacks of distinct peers for the current round are counted, and a quorum of them starts a new round |
| ProposerRole.Proposer.ReceivePromise | paxos/composable_paxos.py:206-226 | a promise counts once per peer and round, a higher accepted pair is adopted, and the quorum-th makes a leader |
| ProposerRole.PrepareOutbids | paxos/composable_paxos.py:162-176 | a new round's id is above every id observed and is the proposer's own |
| ProposerRole.NackIsOutbid | paxos/composable_paxos.py:197-203 | the promise a Nack carries is observed: every later round, one the Nack starts included, has a higher id |
| ProposerRole.QuorumOfRefusalsStartsRound | paxos/composable_paxos.py:192-203 | over any refusals of a round, the one that completes a quorum of distinct peers, and none before, starts a new round above every promise they carried |
| ProposerRole.FewRefusals | paxos/composable_paxos.py:199-200 | with fewer than a quorum refusing the round goes on, the refusers known as a set |
| ProposerRole.OtherNacksAreObservedOnly | paxos/composable_paxos.py:197-199 | a nack of another round, or before any, is observed and counted for nothing |
| ProposerRole.AdoptedIsKept | paxos/composable_paxos.py:148-226 | the adopted id only rises and the value goes only with it: no step, a new round included, gives it up |
| ProposerRole.HigherIdIsAdopted | paxos/composable_paxos.py:214-222 | a counted promise leaves the higher accepted id and its value, and the quorum-th distinct one a leader |
| ProposerRole.PromiseRaisesIff | paxos/composable_paxos.py:212 | the TypeError comes exactly for the id of a proposer that has never prepared |
| ProposerRole.ProposedValueIsTakenOnce | paxos/composable_paxos.py:148-159 | the first value offered stays, and only a leader that takes it returns an Accept |
| ProposerRole.NackEvolves | paxos/composable_paxos.py:192-203 | leadership and the leader's value change only with the round, ids only rise |
| ProposerRole.PromiseEvolves | paxos/composable_paxos.py:206-226 | a promise never changes the round, nor a leader's value |
| AcceptorRole.Acceptor.ReceivePrepare | paxos/composable_paxos.py:254-263 | promises any id not below the promise held and reports the accepted pair, otherwise refuses |
| AcceptorRole.Acceptor.ReceiveAccept | paxos/composable_paxos.py:266-277 | votes for any id not below the promise held, which it raises, otherwise refuses |
| AcceptorRole.AcceptorStepsEvolve | paxos/composable_paxos.py:254-277 | promise and accepted id never fall, accepted never exceeds promised, a vote is cast iff the id is not below the promise |
| LearnerRole.Learner.ReceiveAccepted | paxos/composable_paxos.py:306-350 | the tables of the learner, updated in place, follow the counting steps, exceptions included |
| LearnerRole.RetireKeepsBooks | paxos/composable_paxos.py:318-330 | the lookup and removal of a previous vote never fail, and all counts stay right |
| LearnerRole.TallyIsSound | paxos/composable_paxos.py:332-350 | the value assertion holds and only a quorum of distinct voters resolves |
| LearnerRole.AcceptedStepIsSound | paxos/composable_paxos.py:306-350 | no exception; retain_count is the number of acceptors, stored ids are the latest ids, accept_count counts distinct voters; a Resolution has a quorum behind it |
| LearnerRole.UndecidedHasNoStandingQuorum | paxos/composable_paxos.py:306-350 | an undecided learner has no quorum among the latest ids heard |
| LearnerHistory.LearnerResolvesIff | paxos/composable_paxos.py:306-350 | over any history of votes with one value per id, the learner has resolved iff at some moment a quorum had been counted for one id since that id was last opened |
| LearnerHistory.VoteResolvesIff | paxos/composable_paxos.py:318-350 | an undecided learner resolves at a vote iff the vote is news and completes a quorum of those counted since its id was last opened |
| LearnerHistory.CountedSinceIff | paxos/composable_paxos.py:325-341 | counted are those whose vote for the id was news and since which some acceptor has always stood at the id |
| LearnerHistory.DecisionIsTheVotes | paxos/composable_paxos.py:343-350 | the decision is the resolving vote's value and id, the final acceptors exactly those standing at that id |
| LearnerHistory.DecisionIsFinal | paxos/composable_paxos.py:313-316 | afterwards every vote is answered with the decision, and only the final acceptors grow, by those who confirm it |
| PaxosInstances.PaxosInstance.ReceivePrepare | paxos/composable_paxos.py:364-366 | the co-located proposer observes the id before the acceptor answers |
| PaxosInstances.PaxosInstance.ReceiveAccept | paxos/composable_paxos.py:368-370 | the co-located proposer observes the id before the acceptor answers |
| Nodes.ReplicatedValue.constructor | paxos/replicated_value.py:26-38 | quorum is half the peers, rounded down, plus one; a fresh instance 0 |
| Nodes.ReplicatedValue.SaveState | paxos/replicated_value.py:45-73 | file and attributes take the same values |
| Nodes.ReplicatedValue.SendToPeers | paxos/replicated_value.py:117-129 | one datagram for every peer, tagged with the instance number of the moment |
| Nodes.ReplicatedValue.StopDrivingTask | paxos/resolution_strategy.py:44-51 | the looping call named by retransmit_task leaves the reactor |
| Nodes.ReplicatedValue.Drive | paxos/resolution_strategy.py:35-41 | stops the old task, starts a round and retransmits its Prepare |
| Nodes.ReplicatedValue.TransmitAccept | paxos/resolution_strategy.py:69-74 | replaces the task by one that retransmits the Accept |
| Nodes.ReplicatedValue.Advance | paxos/replicated_value.py:108-114 | a new instance with nothing promised or accepted; the callback's exception skips the stopping |
| Nodes.ReplicatedValue.Propose | paxos/resolution_strategy.py:64-66 | offers the value if none is held and drives; the returned Accept is dropped |
| Nodes.ReplicatedValue.HandlePrepare | paxos/replicated_value.py:132-146 | stale instances ignored; state saved before the Promise; refusals carry the saved promise |
| Nodes.ReplicatedValue.HandleNack | paxos/resolution_strategy.py:89-103 | counts the nack and stops the task |
| Nodes.ReplicatedValue.HandlePromise | paxos/replicated_value.py:157-166 | an Accept produced by the proposer is transmitted |
| Nodes.ReplicatedValue.HandleAccept | paxos/replicated_value.py:169-181 | a vote is saved with the old promised id and sent to every peer |
| Nodes.ReplicatedValue.HandleAccepted | paxos/replicated_value.py:184-192 | a Resolution advances the instance by one with the packet's value |
| Nodes.ReplicatedValue.HandleSyncRequest | paxos/sync_strategy.py:24-26 | answers only nodes that lag behind |
| Nodes.ReplicatedValue.HandleCatchup | paxos/sync_strategy.py:29-32 | jumps forward to a later instance, never back |
| Nodes.ReplicatedValue.Handle | paxos/messenger.py:36-62 | a datagram is handled by the handler of its type |
| Ballots.QuorumIsLeastMajority | paxos/replicated_value.py:30 | the quorum is the least number that is more than half of the peers |
| Ballots.IdsAreOrdered | paxos/composable_paxos.py:8-24 | ids are strictly and totally ordered by number and then uid, None below all |
| Ballots.QuorumsMeet | paxos/replicated_value.py:30 | any two quorums of the peer list share a member |
| Invariant.SafeStable | paxos/composable_paxos.py:254-277 | a value safe at an id stays safe in every later state |
| AcceptorSteps.PromiseIsSound | paxos/composable_paxos.py:254-263 | the pair reported in a Promise was voted for and nothing was voted for between it and the promised id |
| AcceptorSteps.PrepareKeepsInv | paxos/replicated_value.py:132-146 | a Prepare keeps the cluster invariant and raises nothing |
| AcceptorSteps.AcceptKeepsInv | paxos/replicated_value.py:169-181 | an Accept keeps the cluster invariant and raises nothing |
| ProposerSteps.QuorumOfAnswersIsSafe | paxos/composable_paxos.py:206-226 | with a quorum of answers the value held is safe at the round's id, even if adopted in an earlier round |
| ProposerSteps.NewBallotIsNew | paxos/composable_paxos.py:162-176 | the id of a new Accept carried no other value before |
| ProposerSteps.PromiseKeepsInv | paxos/replicated_value.py:157-166 | a Promise keeps the cluster invariant and raises nothing |
| ProposerSteps.ProposeKeepsInv | paxos/resolution_strategy.py:64-66 | a client's proposal keeps the cluster invariant |
| ProposerSteps.RetransmitKeepsInv | paxos/resolution_strategy.py:35-41 | a looping call that fires keeps the cluster invariant |
| ProposerSteps.NackKeepsInv | paxos/resolution_strategy.py:89-103 | a Nack keeps the cluster invariant and raises nothing |
| LearnerSteps.AcceptedKeepsInv | paxos/replicated_value.py:184-192 | an Accepted keeps the cluster invariant, also when its callback raises while no Accept is on air; nothing else raises |
| LearnerSteps.CatchupKeepsInv | paxos/sync_strategy.py:29-32 | a catch-up that skips links keeps the cluster invariant, also when its callback raises while no Accept is on air |
| Agreement.StepKeepsInv | paxos/replicated_value.py:99-192 | every event, with a callback that returns or raises while no Accept is on air, keeps the invariant and moves forward; no other exception escapes |
| Agreement.RunHolds | paxos/replicated_value.py:99-192 | the invariant holds in every state of every run |
| Agreement.NoHandlerRaises | paxos/composable_paxos.py:212-341 | in no run does a lookup, a removal, the value-mismatch assertion or a task's stop fail: an exception escapes iff it is the callback's |
| Agreement.ChosenAcrossTime | paxos/composable_paxos.py:206-277 | at most one value is ever chosen in an instance, at whatever moments of a run one looks |
| Agreement.ReachableChoiceIsUnique | paxos/composable_paxos.py:206-277 | no reachable state has two values chosen in one instance |
| Agreement.ChoiceIsStable | paxos/composable_paxos.py:206-277 | after (id, v) is chosen every Accept above id, whenever sent, carries v |
| Agreement.ResolutionIsSound | paxos/composable_paxos.py:306-350 | a Resolution rests on a quorum that really sent Accepted for that id and value |
| Agreement.ResolutionsAgree | paxos/composable_paxos.py:306-350 | any two Resolutions in one instance, by any learners at any times, carry the same value |
| Agreement.CurrentValueWasChosen | paxos/replicated_value.py:108-114 | a node at instance n >= 1 holds the value chosen in instance n - 1 |
| Agreement.CurrentValuesAgree | paxos/replicated_value.py:108-192 | two nodes at one instance number, at any two moments, hold the same value |
| Agreement.HistoriesAgree | paxos/sync_strategy.py:24-32 | update histories agree on every shared instance number, by Resolution or by catch-up |
| Agreement.UpdateWasChosen | paxos/replicated_value.py:108-114 | every callback reports a chosen value, with rising instance numbers |
| Agreement.ChosenWasProposed | paxos/replicated_value.py:99-105 | only values offered to propose_update are chosen |
| Agreement.AcceptsAreSafe | paxos/composable_paxos.py:148-226 | every Accept on the wire carries a value safe at its id |
| Agreement.OneValuePerProposalId | paxos/composable_paxos.py:148-226 | an id carries one value per instance and only its own proposer sends it |
| Agreement.PromiseHistory | paxos/composable_paxos.py:254-277 | a Promise's pair was accepted by its sender, which votes nowhere between it and the promised id, before or after |
| Agreement.CountedPromisesAreOlder | paxos/composable_paxos.py:206-219 | a promise being counted reports an id strictly below the round |
| Agreement.AcceptsCarryTheirInstance | paxos/resolution_strategy.py:69-74 | every Accept on the wire is tagged with the instance whose proposer produced it |
| RoundIds.ToldIsOutbid | paxos/composable_paxos.py:179-210 | once a Prepare, Promise, Accept or the promise of a Nack has told a node of an id, every new round it starts in that instance has a higher one |
| Answers.PrepareIsAnswered | paxos/replicated_value.py:132-146 | every Prepare of the instance gets one answer: a Promise with the accepted pair iff no higher id is promised, else a Nack with the saved promise |
| Answers.AcceptIsAnswered | paxos/replicated_value.py:169-181 | every Accept of the instance gets an Accepted for every peer iff no higher id is promised, else one Nack with the saved promise |
| Answers.RefusalTellsIff | paxos/replicated_value.py:146-181 | a refusal tells of an id above the refused one unless only the accepted id is above it |
| Answers.PromiseIsAnswered | paxos/replicated_value.py:157-166 | a Promise is answered with an Accept for every peer iff it wins the election with a value in hand |
| Answers.NoAnswer | paxos/resolution_strategy.py:89-96 | Nacks and Accepteds are not answered; a Nack takes the looping call off the air |
| Answers.OtherInstancesAreIgnored | paxos/replicated_value.py:134-187 | messages of another instance change nothing and are not answered |
| Answers.DriveSends | paxos/resolution_strategy.py:35-41 | a drive or proposal sends every peer the Prepare of a round above all that is known, and keeps sending it |
| Answers.RetransmitSends | paxos/replicated_value.py:117-124 | a looping call that fires sends its message to every peer and changes nothing |
| Answers.SyncTimerAsks | paxos/sync_strategy.py:17-18 | the timer asks one peer, naming the own instance |
| Answers.SyncIsAnsweredIff | paxos/sync_strategy.py:24-26 | a sync request is answered, with the instance number and the value chosen before it, iff the asker lags |
| Answers.CatchupIsTakenIff | paxos/sync_strategy.py:29-32 | a catch-up is taken exactly by a node that lags, which then is at that instance with the value chosen before it |
| Answers.ResolutionIsTaken | paxos/replicated_value.py:191-192 | a Resolution moves the node one instance on with the resolved value, reported to the callback |
| Retransmission.OneCurrentTask | paxos/resolution_strategy.py:35-61 | at most one looping call runs, it is the one retransmit_task names, and until a callback raises it repeats the current round |
| Agreement.DiskMatchesMemory | paxos/replicated_value.py:137-179 | the promise in memory is the later of the two saved ids, the accepted pair is the saved one |
| Agreement.RestartKeepsAcceptor | paxos/replicated_value.py:36-38 | a restart restores the promise iff the saved promise is not below the saved accepted id; the accepted pair always |
| Agreement.RestartCanLosePromise | paxos/replicated_value.py:177-178 | an Accept taken without a Prepare leaves a promise the disk does not know |
| Agreement.AdvanceStopsTaskIffCallbackReturns | paxos/resolution_strategy.py:57-60 | advancing leaves no looping call iff the callback returned or none ran |
| Agreement.LeakedTaskCrossesInstances | paxos/replicated_value.py:122-124 | a looping call left behind sends the old Accept under the new instance number |
| CallbackRun.RaisingCallbackBreaksAgreement | paxos/resolution_strategy.py:57-60 | with a callback that raises once, a lone server has any two values chosen in one instance |
| TwoServers.ServersDisagree | paxos/replicated_value.py:108-124 | with one callback raising while an Accept is on air, two servers end with any two values at the same instance |
| SoloRun.SoloServerDecides | paxos/replicated_value.py:99-192 | one server proposing any value reaches instance 1 with it in five events |
| TestProgram.NoStrayIffProgram | test_executor.py:306-318 | a token list has no stray `times` iff it is some program's text |
| TestProgram.TreeOfFlattened | test_executor.py:306-318 | every program is recovered from its tokens |
| TestProgram.ListedWhereTagged | test_executor.py:327-328 | every listed command stands on the line it is tagged with |
| TestProgram.ErrorIsFirstUnknown | test_executor.py:319-325 | a program is refused iff it has an unknown line, and at the first one |
| ParserTurns.TurnIsRefusedIff | test_executor.py:306-325 | a turn is refused, on its own line, exactly for an unknown line or a counter outside the list of slots, counted from the end included |
| ParserTurns.TurnSpends | test_executor.py:279-329 | every turn of the loop spends budget, whichever slot a jump uses |
| ParserTurns.ParserStops | test_executor.py:279-329 | the parser stops on every token list within a budget known beforehand |
| ParserTurns.TimesWithoutDoIsRefused | test_executor.py:313-325 | before any `do` the first `times` or unknown line is the syntax error reported |
| ProgramParser.Parse | test_executor.py:273-330 | the loop over index, do_open and pointers yields the expansion of every program and one reset, and ends on every input |
| ProgramParser.UnrollsProgram | test_executor.py:273-330 | unrolling preserves meaning: n rounds of a loop, at least one, inner counters restarting, then one reset |
| StrayTimes.FirstStrayTimes | test_executor.py:306-325 | for any file: the parser reaches the first `times` without a `do` with no loop open, having listed all before it, and refuses it iff no `do` stands before it; an unknown line before it is the error instead |
| StrayTimes.BeforeFirstStray | test_executor.py:306-318 | the lines before the first stray `times` form a closed program |
| StrayTimes.LoopsRunAsWrittenIff | test_executor.py:313-318 | any program without unknown lines runs its loops as often as written iff those written 0 list nothing |
| CommandQueue.RunQueue | test_executor.py:393-400 | the queue ends and calls the commands round by round |
| CommandQueue.AttachLineAnswers | test_executor.py:39-50 | only a TestException without a line stops the queue, under the job's line; a callable yielded is queued, everything else is over or swallowed |
| CommandQueue.RoundInOrder | test_executor.py:39-50 | a round calls its jobs in order up to the first whose call ends in a TestException without a line; what the others yield survives in order |
| CommandQueue.TwoPhase | test_executor.py:393-400 | told by how the calls end: every check runs before the first effect, effects in program order under their own lines, a check that raises means no effect |
| IdResolution.Resolve | test_executor.py:139-154 | the ids named by the list, `rand` values taken in order; fails at the first bad word or when values run out |
| IdResolution.ResolveFailsAtFirst | test_executor.py:139-154 | resolve fails iff a word is bad or there are too few values, and for the first word that fails |
| IdResolution.RefusedForFirstBadWord | test_executor.py:142-153 | a list is refused iff it has an id above the number of nodes or an unknown word, and for the first of them |
| IdResolution.EnoughNeverPops | test_executor.py:139-154 | with a value for every `rand` no empty list is popped |
| IdResolution.FreeIdExists | test_executor.py:169-178 | while ids remain to be drawn a free node exists |
| IdResolution.Draw | test_executor.py:172-178 | drawn ids are distinct free nodes; the loop ends once enough usable numbers have come |
| IdResolution.ResolveIds | test_executor.py:156-186 | refused iff too many `rand`s or a bad word; drawn ids are distinct and differ from every written id; no empty pop |
| IdResolution.SetsMeetIff | test_executor.py:139-186 | for every command, `all` included, sources and targets share an id iff an id is written on both sides or `all` faces a word that names a node |
| LinkRules.ModifyConnections | test_executor.py:84-87 | every source with every target in turn, until a rule fails |
| LinkRules.ModifyConnection | test_executor.py:67-82 | nothing for a node and itself; the second direction only if the first went well |
| LinkRules.CommandStopsAt | test_executor.py:69-87 | a command stops at its first rule without a daemon or refused, and is done iff all go through |
| LinkRules.ForwardFirst | test_executor.py:74-76 | the reverse direction is asked for only after the forward one has gone through |
| LinkRules.TouchedIff | test_executor.py:67-87 | the rules of a command are exactly the couples of its product without loopback, and their reverses if bidirectional |
| LinkRules.NoLoopbackTouched | report/sections/testing_language.tex:12 | no command, however it ends, touches a link from a node to itself; a command that is done has touched every other couple |
| IdResolution.SourcesAreNodesIff | test_executor.py:142-146 | the resolved sources are node ids iff 0 is not written |
| SnapshotTransfer.Serializer.CheckSerializing | pysyncobj/serializer.py:25-32 | a finished serialisation is reported once and drops all transmissions |
| SnapshotTransfer.Serializer.Serialize | pysyncobj/serializer.py:52-62 | ignored while serialising, otherwise the snapshot is replaced |
| SnapshotTransfer.Serializer.GetTransmissionData | pysyncobj/serializer.py:88-126 | the next chunk of the peer's transmission, which ends with an empty one |
| SnapshotTransfer.Serializer.SetTransmissionData | pysyncobj/serializer.py:128-144 | a first chunk starts the buffer afresh, a last one completes it, others without a start are ignored |
| SnapshotTransfer.Serializer.CancelTransmission | pysyncobj/serializer.py:179-180 | the peer's transmission is forgotten |
| SnapshotCheck.NextChunkIsFirst | pysyncobj/serializer.py:28-31 | after a check that reports Success the next chunk for any peer is the first of the snapshot held |
| SnapshotCheck.NoStaleChunk | pysyncobj/serializer.py:28-31 | and no later chunk, whatever happens, comes of a transmission begun before |
| SnapshotCheck.NothingWhileSerializing | pysyncobj/serializer.py:89-90 | nobody is sent anything while serialising |
| SnapshotCheck.EachSerializeIsReportedOnce | pysyncobj/serializer.py:25-62 | over any calls, Success is reported exactly once for each serialize that was not ignored, in order and with its id |
| SnapshotCheck.HeldIsLastTaken | pysyncobj/serializer.py:52-62 | without chunks received, the snapshot held is that of the last serialize that was not ignored |
| SnapshotCheck.CancelStartsAfresh | pysyncobj/serializer.py:179-180 | a cancelled peer starts afresh with the snapshot held, the others go on |
| SnapshotCheck.OnlyLastChunksComplete | pysyncobj/serializer.py:128-144 | a snapshot is completed exactly by a last chunk with a beginning; nothing else changes what is held |
| SnapshotLink.ActKeepsLink | pysyncobj/serializer.py:88-144 | any action leaves the chunks in flight completing to exactly what the sender has sent of a held snapshot |
| SnapshotLink.NoTornSnapshot | pysyncobj/serializer.py:25-144 | under every interleaving, whatever the receiver completes is a snapshot the sender held whole |
| SnapshotPull.PullCompletes | pysyncobj/serializer.py:88-144 | from any point of a transfer the rest completes the snapshot and leaves no transmission |
| SnapshotPull.PullCount | pysyncobj/serializer.py:110-125 | the rest takes length / batch chunks, rounded up, and an empty one |
| SnapshotPull.TransferIsExactIff | pysyncobj/serializer.py:88-144 | an uninterrupted transfer is exact iff the batch is positive or the snapshot empty |
| SnapshotLoss.LostChunkTearsSnapshot | pysyncobj/serializer.py:128-144 | for any snapshot and batch, any one middle chunk lost without a cancel completes something shorter by its bytes |
| SnapshotLink.ArrivedCompletesHeld | pysyncobj/serializer.py:25-144 | on any link the chunks that arrived complete, on their own, only what their sender held whole |
| SnapshotLoss.SendersCannotTear | pysyncobj/serializer.py:88-144 | senders on links of their own, with all that may happen there, tear nothing when each takes over only with a first chunk |
| SnapshotLoss.ResumeCompletes | pysyncobj/serializer.py:91-144 | a transmission going on over a foreign buffer completes the buffer and the bytes not yet sent; its own snapshot iff the buffer is what it had sent |
| SnapshotLoss.ResumedSenderTears | pysyncobj/serializer.py:91-144 | going on after another sender has begun completes the start of the other's snapshot and the rest of its own; its own iff both agree on all it had sent |
| StreamFraming.UnpackPacked | pysyncobj/connection.py:45-97 | the length prefix survives packing and unpacking, negative lengths included |
| StreamFraming.DeliveryShortens | pysyncobj/connection.py:94-107 | every delivery shortens the buffer, even under a negative length, so the receive loop ends |
| StreamFraming.Connection.ProcessSend | pysyncobj/connection.py:53-73 | the kernel takes a prefix of the write buffer; an error clears both buffers and disconnects |
| StreamFraming.Connection.TrySendBuffer | pysyncobj/connection.py:49-51 | repeats until the socket stops taking bytes |
| StreamFraming.Connection.Send | pysyncobj/connection.py:43-47 | appends one frame and tries to send; a message too long for the prefix raises |
| StreamFraming.Connection.Read | pysyncobj/connection.py:78-92 | appends what arrived, or disconnects |
| StreamFraming.Connection.GetMessage | pysyncobj/connection.py:94-107 | one frame off the buffer, or nothing; corrupt data disconnects and stays |
| StreamFraming.Connection.React | pysyncobj/node.py:51-59 | the handler's sends one after another, none on a connection that reported disconnected |
| StreamFraming.Connection.OnReadable | pysyncobj/node.py:112-118 | reads once, then delivers and handles message by message until getMessage returns None or something raises |
| StreamFraming.Connection.OnPoll | pysyncobj/node.py:101-118 | flushes and then reads, whatever the flush has led to |
| StreamFraming.ReactionShrinks | pysyncobj/node.py:114-118 | no answer of a handler lengthens the read buffer, so the loop ends |
| ConnectionAnswers.ReadReports | pysyncobj/connection.py:78-92 | a failing recv or an error on the socket is reported, nothing else; only bytes that came in are buffered |
| ConnectionAnswers.FlushTakesAll | pysyncobj/connection.py:49-73 | a flush puts out as much as the socket takes before its first answer that takes nothing, and breaks the connection iff bytes are left when that answer is a failure |
| ConnectionAnswers.SendIsFlushed | pysyncobj/connection.py:43-51 | a send puts its frame behind what is still to go out and flushes at once; it raises, changing nothing, iff the payload has 2^31 bytes or more |
| ConnectionAnswers.ReadTakesAtMost | pysyncobj/connection.py:80 | one recv takes 8192 bytes at most |
| ConnectionAnswers.LowByteFirst | pysyncobj/connection.py:45 | the length prefix has its low byte first, in two's complement |
| ConnectionAnswers.FrameIsHandled | pysyncobj/connection.py:94-107 | what the decoder makes of a whole frame decides, whoever framed it; what follows it stays |
| ConnectionAnswers.NoFrameIsAwaited | pysyncobj/connection.py:95-99 | without a whole frame getMessage changes nothing |
| ConnectionAnswers.AllAnswersAreSent | pysyncobj/node.py:51-59 | a handler's answers are all sent, in order, unless one breaks the connection or is too long |
| ConnectionAnswers.LoopSendsAllAnswers | pysyncobj/node.py:112-118 | an undisturbed loop sends the answers to all the messages delivered, message by message |
| ConnectionAnswers.FailedReadIsFinal | pysyncobj/connection.py:81-87 | in any run a read that fails reports the connection with its buffers as they were; nothing is read or delivered later and the report stands |
| ConnectionAnswers.FailedFlushIsFinal | pysyncobj/connection.py:58-73 | a flush that fails with bytes left loses the connection for good, on either side |
| StreamRuns.TrySendConserves | pysyncobj/connection.py:49-73 | what is taken and what stays make up the write buffer |
| StreamRuns.ReactionKeepsRead | pysyncobj/connection.py:53-73 | answers that go through leave the read buffer alone, one that fails throws it away |
| StreamRuns.DrainPrefix | pysyncobj/node.py:112-118 | on a prefix of a framed stream, with any answers, the loop delivers messages in order; the rest is kept or was dropped by a failed answer |
| StreamRuns.DrainWrites | pysyncobj/node.py:112-118 | whatever arrives, the loop only appends frames to what is sent |
| StreamRuns.ActKeepsChannel | pysyncobj/connection.py:43-107 | every event, answers inside the loop and polls that flush and read included, keeps the bytes accounted for, and the messages unless bytes are read after a failed flush has thrown others away |
| StreamRuns.ReadAfterFailedFlush | pysyncobj/node.py:101-118 | a read after a failed flush that found the read buffer empty keeps the order and accounts for every message |
| MisreadRun.SkipsMessage | pysyncobj/node.py:101-118 | otherwise: for any three messages a run delivers the first and the third, the second dropped by the flush |
| StreamRuns.BytesConserved | pysyncobj/connection.py:43-92 | read, in flight and unsent bytes are exactly the frames sent, in order |
| StreamRuns.DeliversLongestPrefix | pysyncobj/node.py:101-118 | unless bytes are read after a failed flush has thrown others away, delivered are first messages read whole, and all of them iff no whole frame is left buffered or dropped; so it is while connected and nothing raised |
| StreamRuns.FailedReplyEndsLoop | pysyncobj/connection.py:69-72 | an answer that fails ends the loop after its message; the bytes behind it are dropped |
| StreamRuns.AllIsDelivered | pysyncobj/connection.py:43-107 | once everything is flushed and read, everything sent has been delivered iff no whole frame is still buffered, and so if nothing raised |
| StreamRuns.LoopDeliversAllIff | pysyncobj/node.py:113-117 | an undisturbed loop delivers all the messages a read completed iff none follows a None, whatever part of a frame the read ends in |

## Left out

- Restarts and crashes with recovery in the agreement theorems: the proposer's counter is not saved and the promise may be lost; a crashed node is a silent one.
- Liveness, backoff delays and retransmit intervals: a timer may fire at any moment, which covers every schedule. The delayed drive is not stored for the same reason.
- A null value proposed to the Paxos server: it leaves the proposer without a value, so it behaves as a drive, which the runs contain; values in messages are strings.
- The proposer's cached messages `current_prepare_msg` and `current_accept_msg`: the deployed server never reads them.
- The learner's tables after a Resolution: emptied where Python stores None, since they are not read again.
- The proposer, acceptor and learner of an instance are three objects held by one, where Python inherits from three classes; of their attributes only the constants `network_uid` and `quorum_size` are common.
- Datagrams from addresses outside the peer list and malformed packets: the messenger drops them by its catch-all (paxos/messenger.py:64-67).
- Threads: the XML-RPC listener calls propose_update off the reactor (paxos/custom_server.py:43-46); one event happens at a time here.
- The master strategy (paxos/master_strategy.py): the deployed server does not mix it in (paxos/custom_server.py:59-63).
- Raft's own safety in pysyncobj/syncobj.py.
- Regular expressions of the test language: programs start from tokens, with a line's match and parameters given.
- ProgramParser.Parse: for token lists with a stray `times` it is proved to end and to follow the turns literally, but their result has no meaning as an expansion to compare with.
- IdResolution.ResolveIds: the random numbers are an input list; that enough of them come up is not claimed.
- The targets' half of SourcesAreNodesIff, which is the same argument with the lists exchanged.
- `modify_random_link`, local mode, the effects themselves and the remote daemons; a call is a name and the way it ends.
- Pickling and compression: a codec that decodes what it encoded and refuses the empty string; the file branches of the Serializer.
- A connection that reports disconnected is dropped when the event ends: no later event touches it (pysyncobj/node.py:51-59, 95-99).
- StreamRuns.DeliversLongestPrefix: what is delivered from bytes read after a failed flush has thrown others away is decoded from the middle of the stream; nothing is claimed of it.
- SnapshotLink.NoTornSnapshot: a broken link loses the chunks in flight and the sender cancels the transmission (pysyncobj/syncobj.py:495-497); a link that reconnects before the sender notices is not modelled.
- The byte order of the length prefix is little-endian, as struct's native order is on x86.
- The read timeout of a connection, pollers, sockets and name resolution.
