# Cornus, verified

Cornus is a pair of atomic-commit protocols for transactions whose participants log to a shared DBMS. This
project models both, together with the code they stand on, and proves what they guarantee in every run.
`dafny verify dfyconfig.toml` checks all of it.

## What is modelled

**Cornus 1** (the "Paper" version). A coordinator asks the participants to vote. A willing participant claims
its own transaction log with `LOG_ONCE("VOTEYES")`; whoever times out walks over all logs with
`LOG_ONCE("ABORT")` and decides by the answers.

- `PaperProtocol` is the transition system. One step is one log call, one send, one queue operation, one
  timeout, one delivery, one loss or one crash; a schedule is any sequence of them.
- `PaperInvariant` has the inductive invariant, built on the first value each log took.
- `AtomicCommit` is one-shot atomic commitment; every run of Cornus 1, seen from the outside, is one of its
  runs. `PaperTheorems` has this and the other safety theorems over all schedules, `PaperProgress` the step
  bounds.
- `PaperFaultFree` says what happens when nothing goes wrong: nothing sent gets lost, every such run ends, and
  it ends in COMMIT for everybody unless a worker refused. `PaperOvertaken` shows what an ABORT that comes too
  early does.
- `PaperHandlers` has the handlers as the sequential code they are, with the rest of the cluster running
  between any two of their steps. The cluster's state is always the one its recorded run leads to, and every
  method only extends that run: whatever the handler code does is a run of the transition system.

**Cornus 2** (the "New" version). Nobody logs while voting. The coordinator announces COMMIT to f replicators
(WILLCOMMIT), answers the client, and logs afterwards; a replicator that does not hear DECISIONCOMPLETED logs
COMMIT itself. A host may run two handlers that share its log (the coordinator and its finishing
thread, or a participant and a replicator), and logs are read and then written.

- `NewProtocol`, `NewInvariant`, `NewTheorems`, `NewProgress`, `NewFaultFree`, `NewOvertaken` and `NewHandlers`
  correspond to the modules above. `NewValidity` ties the decisions to the workers' answers in the run.
- `NewCounterexamples` has general runs, for every configuration of the kind concerned, in which a stronger
  guarantee fails, and the exact condition under which it holds.

**Support code.** `TransactionLog`, `LogManager` and `LogTexts` are the DBMS; `Wire`, `Pipelining`, `Params`,
`TransactionConfig` and `VoteRequest` carry a vote request from the coordinator's object to the
participant's; `MessageRouting` and `TransactionIds` are the node's front end; `ReplicatorRing` chooses
replicators. `DbmsAgrees`, `RoutingAgrees`, `PaperOneHandler` and `NewOneHandler` tie the DBMS and the front end
to the protocols over whole runs.

## Assumptions

- Each log call is atomic (the locks at DBMS/include/log.hpp:34, 40 and 48) and returns.
- Each message is delivered at most once, at any time and in any order, or never.
- Participants are distinct and the coordinator is not one of them (Testing/basic/client.py:45-49). Replicators
  are distinct and exclude the coordinator, which `ReplicatorRing.RingChoice` proves of the configuration code.
- A crashed host takes no further step and receives nothing (`PaperTheorems.CrashedStands`,
  `NewValidity.CrashedStands`), a lost message is gone (`LostIsLost` in both modules), and no host restarts. That
  a host never gets a second handler of the same role for the transaction is proved (`PaperOneHandler`,
  `NewOneHandler`).
- A timeout may fire whenever a handler waits on an empty queue; a queue that is not empty never times out
  (Cornus/include/messaging/messageQueue.hpp:19-34). Nothing depends on how long anything takes.
- A handler waits for every call it makes to another host (Cornus/include/transactionHandlers/Sender.hpp:57-77),
  but never looks at the reply. A call may end at any time, in a reply or because the connection breaks; only
  of a WILLCOMMIT call it matters that a reply needs the replicator to have been started, and failed ones are
  remembered in `unacked`. The end of a call is a step of the handler that made it. The client has no receive
  timeout, so a peer that keeps a connection open and never answers can hold up a handler there; the step
  bounds say that this is the only place (`PaperProgress.NeverStuck`, `NewProgress.NeverStuck`).
- The worker's vote is arbitrary. Calls on one client object and on the id generator are serialised.
- `src` in messages, and the history variables named as such in the transition systems, influence no guard.

## Where the code does not do what it is said to do

- `logFinal` takes a host and a transaction id and uses neither: it always reads and writes the log at the
  address of the host it runs on (Cornus/include/transactionHandlers/TransactionHandler2.hpp:35-40). A
  replicator therefore logs at its own address, not the coordinator's, and a participant that times out looks
  only at its own log. Two-sided agreement of Cornus 2 fails in every transaction that has a participant
  (`NewCounterexamples.TwoSidedIff`).
- A replicator that is also a participant of the transaction can have its COMMIT overwritten by the
  participant's ABORT, because both read before they write. A written COMMIT stays in every run exactly when
  no replicator is a participant (`NewCounterexamples.CommitStaysIff`). That is also exactly when COMMIT is
  always stored or owed after at most f crashes (`NewCounterexamples.DurabilityStoredIff`): for every replicator
  that is a participant there is a run with f crashes that loses the COMMIT the client was told
  (`NewCounterexamples.CommitLost`).
- The coordinator answers COMMIT whatever became of its WILLCOMMIT calls
  (Cornus/include/transactionHandlers/Coordinator2.h:53-57). Tolerating f crashes therefore rests on the delivery
  of WILLCOMMIT to the live replicators; without it the number of tolerated crashes is 0, whatever f is
  (`NewCounterexamples.SurvivesUndeliveredIff`).
- The server keeps the last delimiter it sees (Cornus/include/messaging/tcp.hpp:241-254). A request is served
  under every fragmentation exactly if it fits into the buffer and has no delimiter in the wrong place
  (`Wire.DecodedRightIff`); a buffer that is full without holding a request closes the connection. Two requests
  sent without waiting are both served exactly if some read ends between the first one's end and the second
  one's header mark (`Pipelining.PipelinedIff`). Otherwise they are read as one request
  (`Pipelining.ReadAsOne`), or the decoder builds a string of negative length
  (`Pipelining.ThrowsInside`): nothing catches that exception, and it ends the server process.
- A decision that reaches a host before the thread launched by VOTEREQ has created the handler is dropped
  (Cornus/include/messaging/GlobalMessageHandler.hpp:49-50 and 178-185), and VOTEREQ is answered before that. COMMIT
  cannot come so early, but ABORT can: even when nothing is lost and nobody fails, a participant may be left
  waiting for its timeout, exactly in transactions with more than one participant
  (`PaperOvertaken.AllReturnIff`, `NewOvertaken.AllReturnIff`). A participant told while its handler is at work
  returns what it was told (`PaperFaultFree.DecisionReaches`, `NewFaultFree.DecisionReaches`).
- The transaction id is documented to hold a 32-bit counter in bits 47-16
  (Cornus/include/messaging/GlobalMessageHandler.hpp:190-194). The shift is done in 32 bits, so only the low 16
  bits of the counter reach the id, and ids repeat after 2^16 requests (`TransactionIds.WindowDistinctIff`).

## Model

| member | source | states |
|---|---|---|
| PaperTheorems.Agreement | Cornus/include/transactionHandlers/TransactionHandler.hpp:13-37 | Decisions shown anywhere (decided, returned, or stored in a log) at any two moments of any run are equal, under every interleaving, loss, delay, timeout and crash |
| PaperTheorems.Validity | Cornus/include/transactionHandlers/Participant.h:18-68 | COMMIT is shown only if in the run every worker was asked and agreed, none refused, and every log first took VOTEYES; ABORT only if some worker refused or some handler timed out |
| PaperTheorems.ExecHistory | Cornus/include/transactionHandlers/Participant.h:18-26 | In every run a participant counts as refusing exactly if its worker was asked and refused, gets past the prepare phase only if it agreed, and a timeout is on record exactly if one happened |
| PaperTheorems.Refinement | Cornus/include/transactionHandlers/Participant.h:21-28 | Every step of every run is a step or a stutter of one-shot atomic commitment |
| PaperTheorems.RefinementInit | Cornus/include/transactionHandlers/Coordinator.h:13-17 | When Cornus 1 starts, no ballot is cast and nothing announced |
| PaperTheorems.RunRefines | Cornus/include/transactionHandlers/Participant.h:18-68 | Every run of Cornus 1, state by state, is a run of one-shot atomic commitment |
| PaperTheorems.AnnouncedIsOutcome | Cornus/include/transactionHandlers/Coordinator.h:48-51 | In every reachable state, whatever any handler has returned is the outcome |
| PaperTheorems.OutcomeForever | DBMS/include/log.hpp:46-56 | An outcome a run has reached it keeps in every continuation |
| PaperTheorems.OutcomeMeaning | Cornus/include/transactionHandlers/Participant.h:21-28 | The abstract outcome is COMMIT exactly when all logs have first taken VOTEYES, and ABORT exactly when a worker refused or a log first took ABORT |
| AtomicCommit.OutcomeStable | DBMS/include/log.hpp:46-56 | In the abstract protocol a known outcome never changes |
| AtomicCommit.ConsistentStep | Cornus/include/transactionHandlers/Coordinator.h:48-51 | A step of the abstract protocol announces nothing but the outcome, and keeps what was announced equal to it |
| AtomicCommit.RunConsistent | Cornus/include/transactionHandlers/Coordinator.h:48-51 | In every state of every abstract run everything announced is the outcome |
| AtomicCommit.RunStable | DBMS/include/log.hpp:46-56 | An outcome reached in an abstract run is its outcome in every later state |
| PaperTheorems.LogLifeCycle | DBMS/include/log.hpp:38-56 | A log only moves WORKING to VOTEYES, WORKING to ABORT, or VOTEYES to its owner's decision; every LOG_WRITE finds the writer's own VOTEYES |
| PaperTheorems.VoteCounterFaithful | Cornus/include/transactionHandlers/Coordinator.h:29-36 | The integer counter is the number of distinct voters; when it decides COMMIT they are exactly the participants and all their logs first took VOTEYES |
| PaperTheorems.TerminationSound | Cornus/include/transactionHandlers/TransactionHandler.hpp:15-36 | A loop that ends in COMMIT means that all logs first took VOTEYES; one that ends in ABORT names a participant whose log never will, in any continuation |
| PaperTheorems.BackedForever | Cornus/include/transactionHandlers/TransactionHandler.hpp:15-36 | What a decision rests on lasts: for COMMIT the first VOTEYES of all logs, for ABORT one participant whose log takes VOTEYES in no continuation |
| PaperTheorems.NoFailureExit | Cornus/include/transactionHandlers/TransactionHandler.hpp:30-33 | No handler reaches "Unknown response from transaction log" or the participant's failing assertion |
| PaperFaultFree.NothingLost | Cornus/include/transactionHandlers/Sender.hpp:57-77 | Without loss, crash and timeout: an asked participant has its request under way or was started; as long as votes are collected, every vote sent is under way, queued or counted; a waiting participant that was told COMMIT has it under way or queued |
| PaperFaultFree.FaultFreeOutcome | Cornus/include/transactionHandlers/Coordinator.h:13-52 | A fault-free run in which nothing more can happen: the coordinator has returned, ABORT exactly if some worker refused; otherwise every participant has returned COMMIT and its log holds it |
| PaperFaultFree.DecisionReaches | Cornus/include/transactionHandlers/Participant.h:34-61 | Without faults a participant that is told while its handler is at work, COMMIT or ABORT, ends up returning that |
| PaperFaultFree.FaultFreeBounded | Cornus/include/transactionHandlers/Coordinator.h:13-52 | A fault-free run has at most 2n^2 + 28n + 8 actions |
| PaperFaultFree.EverybodyCanCommit | Cornus/include/transactionHandlers/Participant.h:18-68 | For every transaction with participants there is a fault-free run, which can go no further, in which everybody returns COMMIT and all logs hold it |
| PaperOvertaken.LeftWaiting | Cornus/include/messaging/GlobalMessageHandler.hpp:178-185 | For any two participants: a fault-free run at whose end, after the first refused, the second waits for a decision that nobody will send it |
| PaperOvertaken.AllReturnIff | Cornus/include/messaging/GlobalMessageHandler.hpp:49-59 | Every participant has returned at the end of every fault-free run exactly in transactions with at most one participant |
| PaperInvariant.ExecInv | Cornus/include/transactionHandlers/Participant.h:18-68 | The invariant tying logs, handlers, queues, messages and the counter together holds in every reachable state |
| PaperInvariant.NextVote | Cornus/include/transactionHandlers/Coordinator.h:29-36 | A yes-vote at the head of the queue is always from a participant not counted yet |
| PaperInvariant.TermAnswer | Cornus/include/transactionHandlers/TransactionHandler.hpp:17-33 | What LOG_ONCE("ABORT") answers is never WORKING and proves what it says about the whole transaction |
| PaperProgress.NonBlocking | Cornus/include/transactionHandlers/Coordinator.h:24-47 | At any moment of any run a live started handler finishes by at most 6n + 4 (coordinator) or n + 7 (participant) steps, log calls and ends of calls of its own, with the outcome everybody will return |
| PaperProgress.DecidesAlone | Cornus/include/transactionHandlers/Participant.h:34-54 | A live coordinator collecting votes (a live participant waiting) decides by at most 2n + 2 (n + 2) own steps and log calls, none of them the end of a call, and decides the outcome |
| PaperProgress.HandlerReturns | Cornus/include/transactionHandlers/Coordinator.h:13-52 | In every run a handler takes no more own steps than that, the ends of its calls included, and has returned once it has taken them |
| PaperProgress.NeverStuck | Cornus/include/transactionHandlers/Sender.hpp:57-77 | A running handler always has an enabled step; exactly where it waits for its calls every step needs one of them to end, which may be in failure |
| PaperProgress.WaitingStep | Cornus/include/messaging/messageQueue.hpp:19-34 | A handler waiting at its queue takes the request at the head, and times out only if there is none |
| PaperProgress.QueuedIsObeyed | Cornus/include/transactionHandlers/Participant.h:34-61 | With a decision at the head of its queue, a waiting participant returns that decision or nothing, in every continuation |
| PaperProgress.AtMostOneVoteEach | Cornus/include/transactionHandlers/Coordinator.h:24-47 | In every run the coordinator consumes at most n messages, all before it decides or times out |
| PaperProgress.OthersBudget | Cornus/include/messaging/messageQueue.hpp:11-34 | Nobody else's step, and no fault, moves a started handler |
| PaperHandlers.Cluster.constructor | Cornus/include/transactionHandlers/Coordinator.h:9-11 | The initial state satisfies the invariant |
| PaperHandlers.Cluster.Perform | Cornus/include/transactionHandlers/Sender.hpp:57-77 | One step of a handler (a send, an end of a call, ...): exactly this step is added to the run, the next state is the step's, the message of a send is put on the network, first log values are kept, and the step budget shrinks |
| PaperHandlers.Cluster.Interfere | Cornus/include/messaging/GlobalMessageHandler.hpp:48-68 | Any steps of all others, none of them this handler's or its host's crash, extend the run and leave the handler where it stands; the first value of its log is kept |
| PaperHandlers.Cluster.LogOnceAbort | Cornus/include/transactionHandlers/TransactionHandler.hpp:17-33 | One round of the loop: the log's answer, its new contents, and where the loop goes |
| PaperHandlers.Cluster.TerminationProtocol | Cornus/include/transactionHandlers/TransactionHandler.hpp:13-37 | With arbitrary steps of others between its log calls, the loop never reaches its throw and ends in a decision that the logs and votes back |
| PaperHandlers.Cluster.TimeOut | Cornus/include/transactionHandlers/Coordinator.h:43-46 | A timeout is followed by the termination loop and a backed decision |
| PaperHandlers.Cluster.SendVoteRequests | Cornus/include/transactionHandlers/Sender.hpp:68-76 | In the run a VOTEREQ message is put on the network for every participant |
| PaperHandlers.Cluster.SendDecision | Cornus/include/transactionHandlers/Sender.hpp:68-76 | In the run a COMMIT or an ABORT message, as decided, is put on the network for every participant |
| PaperHandlers.Cluster.AwaitCalls | Cornus/include/transactionHandlers/Sender.hpp:77 | The coordinator goes on only when all its calls have ended |
| PaperHandlers.Cluster.CollectVotes | Cornus/include/transactionHandlers/Coordinator.h:19-47 | The voting loop terminates: with COMMIT when exactly all participants are counted, with ABORT on taking an ABORT request from the queue, or after a timeout with what the termination loop finds |
| PaperHandlers.Cluster.HandleAsCoordinator | Cornus/include/transactionHandlers/Coordinator.h:13-52 | What the coordinator returns is backed by the participants' logs and votes; a VOTEREQ and then the message of the decision it returns were put on the network for every participant |
| PaperHandlers.Cluster.Announce | Cornus/include/transactionHandlers/Coordinator.h:49-51 | The message of the decision has been put on the network for every participant before the coordinator returns |
| PaperHandlers.Cluster.ClaimAndTell | Cornus/include/transactionHandlers/Participant.h:26-31 | The answer is what LOG_ONCE makes of the log; the vote put on the network is yes exactly if the answer is VOTEYES, and then the participant waits; otherwise the log first took ABORT |
| PaperHandlers.Cluster.SendVote | Cornus/include/transactionHandlers/Sender.hpp:43-52 | The vote is put on the network, yes or ABORT by what stands, and its call has ended; after a yes-vote the participant waits, after a no it returns ABORT |
| PaperHandlers.Cluster.AwaitDecision | Cornus/include/transactionHandlers/Participant.h:34-54 | Waiting ends by taking the first message, or after a timeout by the termination loop; never in the failing assertion |
| PaperHandlers.Cluster.Execute | Cornus/include/transactionHandlers/Participant.h:34-61 | At its return the own log holds the decision that is returned |
| PaperHandlers.Cluster.HandleAsParticipant | Cornus/include/transactionHandlers/Participant.h:18-68 | The worker's answer is taken as it is. A refusal sends ABORT and returns ABORT; after an agreement the log is claimed and the vote sent is yes, unless ABORT is found in the log, which then still holds it at the return; what is returned is backed; after COMMIT the own log holds COMMIT |
| NewTheorems.OneSidedAgreement | Cornus/include/transactionHandlers/Coordinator2.h:28-68 | Every commit effect or commit message anywhere means the coordinator decided COMMIT and all workers agreed |
| NewTheorems.AbortMeansNobodyCommits | Cornus/include/transactionHandlers/Coordinator2.h:28-50 | If the coordinator ever decides ABORT, no host shows any commit effect before or after |
| NewValidity.Validity | Cornus/include/transactionHandlers/Participant2.h:17-28 | COMMIT is found anywhere, in whatever form, only if in the run every worker was asked and agreed and none refused; the coordinator decides ABORT only if some worker refused or it timed out |
| NewValidity.ExecHistory | Cornus/include/transactionHandlers/Participant2.h:17-28 | In every run a participant counts as agreeing (refusing) exactly if its worker was asked and agreed (refused) |
| NewValidity.ExecRefusals | Cornus/include/transactionHandlers/Participant2.h:20-24 | In every run an ABORT request that reaches the coordinator comes from a participant whose worker refused |
| NewValidity.OverrideReaches | Cornus/include/transactionHandlers/Committer.h:13-18 | An OVERRIDECOMMIT request that is not lost stays on the network until a Committer runs at its receiver, unless that has crashed |
| NewTheorems.VoteCounterFaithful | Cornus/include/transactionHandlers/Coordinator2.h:27-42 | The counter is the number of distinct voters; at COMMIT they are exactly the participants, and all agreed |
| NewTheorems.DisagreementIsTimeout | Cornus/include/transactionHandlers/Participant2.h:20-52 | After COMMIT was decided, a participant returns ABORT exactly if it timed out and did not find COMMIT in its log |
| NewTheorems.NoFailureExit | Cornus/include/transactionHandlers/Participant2.h:43-46 | No participant reaches its failing assertion |
| NewFaultFree.NothingLost | Cornus/include/transactionHandlers/Sender.hpp:57-77 | Without loss, crash and timeout of coordinator or participant: requests, votes, COMMIT and WILLCOMMIT that were sent are under way or queued, or have had their effect |
| NewFaultFree.FaultFreeOutcome | Cornus/include/transactionHandlers/Coordinator2.h:18-69 | A fault-free run in which nothing more can happen: the client was answered, ABORT exactly if some worker refused, and the finishing thread is through; on COMMIT every participant was told COMMIT and returned it, the coordinator's log holds it and every replicator has returned; on ABORT no commit effect exists |
| NewFaultFree.DecisionReaches | Cornus/include/transactionHandlers/Participant2.h:29-60 | Without faults a participant that is told while its handler is at work, COMMIT or ABORT, ends up returning that |
| NewFaultFree.FaultFreeBounded | Cornus/include/transactionHandlers/Coordinator2.h:18-69 | A fault-free run has at most 26n + 20f + 4nf + 24 actions |
| NewFaultFree.EverybodyCanCommit | Cornus/include/transactionHandlers/Coordinator2.h:18-69 | For every transaction with participants there is a fault-free run, which can go no further, in which the client and every participant are told COMMIT, the coordinator's log holds it and every replicator has returned |
| NewOvertaken.LeftWaiting | Cornus/include/messaging/GlobalMessageHandler.hpp:178-185 | For any two participants: a fault-free run at whose end, after the first refused, the second waits for a decision that nobody will send it |
| NewOvertaken.AllReturnIff | Cornus/include/messaging/GlobalMessageHandler.hpp:49-59 | Every participant has returned at the end of every fault-free run exactly in transactions with at most one participant |
| NewTheorems.Handover | Cornus/include/transactionHandlers/Replicator.h:13-18 | A replicator that skips logging can rely on COMMIT in the coordinator's log, then and in every later state |
| NewTheorems.OverwrittenExactlyBy | Cornus/include/transactionHandlers/TransactionHandler2.hpp:13-26 | A stored COMMIT is overwritten exactly by the write half of a timed-out participant's read-then-write |
| NewTheorems.CommitKept | Cornus/include/transactionHandlers/TransactionHandler2.hpp:35-40 | Where COMMIT was written it still is, unless the participant on that host timed out and aborted; only coordinator and replicators write it |
| NewTheorems.DisjointRolesKeepCommit | Cornus/include/transactionHandlers/TransactionHandler2.hpp:35-40 | If no replicator is a participant, COMMIT stays wherever it was ever written |
| NewTheorems.Durability | Cornus/include/transactionHandlers/Coordinator2.h:53-68 | f-crash durability: once the client was told COMMIT, with at most f crashes and WILLCOMMIT with every live replicator (even if its call failed), COMMIT was written to some log or a live host still owes that write |
| NewTheorems.DurabilityStored | Cornus/include/transactionHandlers/Coordinator2.h:53-68 | If no replicator is a participant, COMMIT is then still stored, or a live host owes it |
| NewTheorems.CommitGetsWritten | Cornus/include/transactionHandlers/Replicator.h:10-21 | Under the same conditions one live host gets COMMIT written by at most four steps of its own |
| NewTheorems.DebtKept | Cornus/include/transactionHandlers/Replicator.h:10-21 | Only its own steps or its crash relieve a host of that debt |
| NewTheorems.ReplicatorPays | Cornus/include/transactionHandlers/Replicator.h:10-21 | A live replicator in debt gets COMMIT written or finds it stored, on its own, within its remaining steps |
| NewTheorems.FinisherPays | Cornus/include/transactionHandlers/Coordinator2.h:60-64 | So does the coordinator's finishing thread, within two |
| NewInvariant.ExecInv | Cornus/include/transactionHandlers/Coordinator2.h:18-69 | The invariant over logs, the handlers of each host, messages, votes and acknowledgements holds in every reachable state |
| NewInvariant.NextVote | Cornus/include/transactionHandlers/Coordinator2.h:33-42 | A yes-vote at the head of the queue is always from a participant not counted yet |
| NewProgress.HandlerReturns | Cornus/include/transactionHandlers/Coordinator2.h:18-69 | In every run the coordinator takes at most 3n + 2f + 6 own steps, a participant 6, the finishing thread 4n + 2f + 6, a replicator 2n + 6, the ends of calls included, and each has returned once it has taken them |
| NewProgress.NeverStuck | Cornus/include/transactionHandlers/Sender.hpp:57-77 | A live handler that has not returned always has an enabled step; exactly where it waits for its calls every step needs one of them to end, which may be in failure |
| NewProgress.WaitingStep | Cornus/include/messaging/messageQueue.hpp:19-34 | Coordinator, participant and replicator, waiting at their queue, take the request at the head, and time out only if there is none |
| NewProgress.QueuedIsObeyed | Cornus/include/transactionHandlers/Participant2.h:29-60 | With a decision at the head of its queue, a waiting participant returns that decision, as told, or nothing, in every continuation |
| NewCounterexamples.AgreementFails | Cornus/include/transactionHandlers/TransactionHandler2.hpp:13-26 | For every configuration and participant: a run in which all hosts stay up, the client is told COMMIT and the participant returns ABORT |
| NewCounterexamples.TwoSidedIff | Cornus/include/transactionHandlers/TransactionHandler2.hpp:13-26 | The participants always return what the client was told, COMMIT or ABORT, exactly if there are none |
| NewCounterexamples.AbortAgrees | Cornus/include/transactionHandlers/Coordinator2.h:60-68 | The answer ABORT is never contradicted by a participant |
| NewCounterexamples.Overwrite | Cornus/include/transactionHandlers/TransactionHandler2.hpp:13-41 | For every participant that is also a replicator: a run in which its ABORT replaces the COMMIT written on the same host |
| NewCounterexamples.CommitStaysIff | Cornus/include/transactionHandlers/TransactionHandler2.hpp:13-41 | A written COMMIT stays in every run exactly if no replicator is a participant |
| NewCounterexamples.CommitLost | Cornus/include/transactionHandlers/Coordinator2.h:53-68 | For every participant that is also a replicator: a run within the tolerated faults after which no log holds COMMIT and nobody owes it, although the client was told COMMIT |
| NewCounterexamples.DurabilityStoredIff | Cornus/include/transactionHandlers/Coordinator2.h:53-68 | Within the tolerated faults COMMIT is always stored or owed exactly if no replicator is a participant |
| NewCounterexamples.AllCallsFail | Cornus/include/transactionHandlers/Coordinator2.h:53-57 | A run in which all WILLCOMMIT calls fail and only the coordinator crashes: the client was told COMMIT, and it is neither written nor owed |
| NewCounterexamples.SurvivesUndeliveredIff | Cornus/include/transactionHandlers/Coordinator2.h:53-57 | If nothing is known about the delivery of WILLCOMMIT, COMMIT is sure to be stored or owed after at most k crashes exactly for k = 0 (or without participants) |
| NewTheorems.LiveCoordinatorDurable | Cornus/include/transactionHandlers/Coordinator2.h:60-64 | While the coordinator is up, its log holds COMMIT or its finishing thread owes it |
| NewTheorems.CommitNeedsVoters | Cornus/include/transactionHandlers/Coordinator2.h:33-42 | A transaction without participants is never decided COMMIT |
| NewHandlers.Cluster.Perform | Cornus/include/transactionHandlers/Sender.hpp:57-77 | One step of a handler (a send, an end of a call, ...): exactly this step is added to the run, the next state is the step's, the message of a send is put on the network, and no evidence is taken back |
| NewHandlers.Cluster.Interfere | Cornus/include/messaging/GlobalMessageHandler.hpp:88-132 | Any steps of all others, also of the other handlers of the host, but none of this handler's, extend the run and leave the handler where it stands |
| NewHandlers.Cluster.StartCalls | Cornus/include/transactionHandlers/Sender.hpp:68-76 | In the run the message of the request is put on the network for every member of the group |
| NewHandlers.Cluster.AwaitCalls | Cornus/include/transactionHandlers/Sender.hpp:77 | The handler goes on only when all these calls have ended |
| NewHandlers.Cluster.Send | Cornus/include/transactionHandlers/Sender.hpp:57-78 | Vote requests, DECISIONCOMPLETED, decisions and overrides alike: the message is put on the network for everybody and all calls end, with arbitrary steps of others in between |
| NewHandlers.Cluster.TerminationProtocol | Cornus/include/transactionHandlers/TransactionHandler2.hpp:13-27 | COMMIT is returned exactly if it was read; what is returned is in the own log at the end |
| NewHandlers.Cluster.PerformLog | Cornus/include/transactionHandlers/TransactionHandler2.hpp:37-46 | One log call or send of logFinal, and what it leaves in the log |
| NewHandlers.Cluster.LogFinal | Cornus/include/transactionHandlers/TransactionHandler2.hpp:35-47 | With others running between read and write, COMMIT has been written at this host, at the coordinator it is stored; where COMMIT was read nothing but the read happens, otherwise COMMIT is written; OVERRIDECOMMIT is put on the network for every participant if ABORT was read, and for nobody otherwise |
| NewHandlers.Cluster.WriteCommit | Cornus/include/transactionHandlers/TransactionHandler2.hpp:38-46 | After a read of anything but COMMIT: the write takes place, and the overrides go out exactly if ABORT was read |
| NewHandlers.Cluster.SendOverrides | Cornus/include/transactionHandlers/TransactionHandler2.hpp:42-45 | In the run an OVERRIDECOMMIT message is put on the network for every participant |
| NewHandlers.Cluster.CollectVotes | Cornus/include/transactionHandlers/Coordinator2.h:24-49 | The voting loop terminates: with COMMIT only when exactly all participants are counted, with ABORT on taking an ABORT request from the queue or timing out |
| NewHandlers.Cluster.SendWillCommit | Cornus/include/transactionHandlers/Coordinator2.h:53-56 | In the run a WILLCOMMIT message is put on the network for every replicator |
| NewHandlers.Cluster.AwaitWillCommit | Cornus/include/transactionHandlers/Sender.hpp:77 | Every one of these calls has ended before the coordinator goes on |
| NewHandlers.Cluster.AnnounceCommit | Cornus/include/transactionHandlers/Coordinator2.h:53-57 | The coordinator returns COMMIT only after a WILLCOMMIT message was put on the network for every replicator; each is then at work unless its call failed |
| NewHandlers.Cluster.HandleAsCoordinator | Cornus/include/transactionHandlers/Coordinator2.h:18-58 | A VOTEREQ message was put on the network for every participant. COMMIT: all workers agreed, WILLCOMMIT was sent to every replicator, and each was started unless its call failed; ABORT: no commit effect exists anywhere |
| NewHandlers.Cluster.FinishTransaction | Cornus/include/transactionHandlers/Coordinator2.h:60-69 | When it is through, COMMIT is in the coordinator's log exactly if that was the decision; a message of the decision was put on the network for every participant, and after COMMIT a DECISIONCOMPLETED message for every replicator |
| NewHandlers.Cluster.LogAndHandOver | Cornus/include/transactionHandlers/Coordinator2.h:62-66 | After logFinal a DECISIONCOMPLETED message is put on the network for every replicator |
| NewHandlers.Cluster.HandOver | Cornus/include/transactionHandlers/Coordinator2.h:65 | In the run a DECISIONCOMPLETED message is put on the network for every replicator |
| NewHandlers.Cluster.SendDecision | Cornus/include/transactionHandlers/Coordinator2.h:67 | In the run a COMMIT or an ABORT message, as the coordinator decided, is put on the network for every participant |
| NewHandlers.Cluster.SendVote | Cornus/include/transactionHandlers/Sender.hpp:43-52 | The vote is put on the network, yes or ABORT by what stands, and its call has ended; after a yes-vote the participant waits, after a no it returns ABORT |
| NewHandlers.Cluster.AwaitDecision | Cornus/include/transactionHandlers/Participant2.h:32-52 | Waiting ends by a message, or by a timeout with the result in the own log |
| NewHandlers.Cluster.HandleAsParticipant | Cornus/include/transactionHandlers/Participant2.h:18-61 | The worker's answer is taken as it is and sent as the vote; it refuses exactly if the worker does, commits only what all agreed to, and after a timeout has its result in its log |
| NewHandlers.Cluster.AwaitCompletion | Cornus/include/transactionHandlers/Replicator.h:13-14 | The replicator is spared the logging exactly if it takes a request; that is then DECISIONCOMPLETED and COMMIT is in the coordinator's log |
| NewHandlers.Cluster.HandleAsReplicator | Cornus/include/transactionHandlers/Replicator.h:10-21 | At its return it has written COMMIT itself, or COMMIT is in the coordinator's log |
| TransactionLog.TransactionLog.constructor | DBMS/include/log.hpp:64 | A new transaction log is WORKING |
| TransactionLog.TransactionLog.LOG_READ | DBMS/include/log.hpp:32-36 | Reading returns the contents and changes nothing |
| TransactionLog.TransactionLog.LOG_WRITE | DBMS/include/log.hpp:38-44 | Writing overwrites anything with one of the three decisions, throws on all other data |
| TransactionLog.TransactionLog.LOG_ONCE | DBMS/include/log.hpp:46-56 | An earlier value wins, and even undefined data is then not noticed; otherwise as writing |
| TransactionLog.DataLog.LOG_WRITE | DBMS/include/log.hpp:76-83 | The data is appended, behind a semicolon unless the log was empty, and returned |
| TransactionLog.DataLog.LOG_ONCE | DBMS/include/log.hpp:85-87 | Always throws |
| LogTexts.CallsAgree | DBMS/include/log.hpp:46-63 | The protocols' calls never reach the undefined-decision throw and do to the stored text what the transition systems do to the word |
| DbmsAgrees.PaperLogs | DBMS/include/logManager.hpp:16-74 | If the calls of one transaction in a DBMS history are those of a Cornus 1 run, its logs hold what the run says, whatever other transactions call in between |
| DbmsAgrees.PaperAnswers | DBMS/include/log.hpp:38-63 | and the run's next call is answered, without a throw, with what the log holds after it |
| DbmsAgrees.NewLogs | DBMS/include/logManager.hpp:16-74 | The same for Cornus 2 |
| DbmsAgrees.NewAnswers | DBMS/include/log.hpp:32-63 | The same for Cornus 2, reads included |
| LogManager.LogManager.GetLogPair | DBMS/include/logManager.hpp:64-74 | First touch creates a pair, and no address reads differently for it |
| LogManager.LogManager.LOG_ONCE | DBMS/include/logManager.hpp:16-31 | The answer and new contents at the address are those of its own log; all other addresses keep theirs |
| LogManager.LogManager.LOG_READ | DBMS/include/logManager.hpp:33-46 | The answer is the contents at the address; nothing changes anywhere |
| LogManager.LogManager.LOG_WRITE | DBMS/include/logManager.hpp:48-61 | As LOG_ONCE, with the overwriting rule |
| LogManager.Dispatch | DBMS/main.cpp:56-83 | Each request reaches the call it names |
| LogManager.Serve | DBMS/main.cpp:56-83 | Any sequence of calls on a new manager is answered as its history says |
| LogManager.FirstValueStays | DBMS/include/log.hpp:46-56 | Without LOG_WRITE on it, a transaction log keeps its first value, whatever else is called |
| LogManager.WriteOnce | DBMS/include/log.hpp:46-63 | All successful LOG_ONCE calls on one log return the first accepted value |
| LogManager.Isolation | DBMS/include/logManager.hpp:64-74 | What a call answers depends only on the earlier calls on its own log, first touches elsewhere included |
| LogManager.ReadsBack | DBMS/include/log.hpp:32-56 | An accepted LOG_WRITE, or the first accepted LOG_ONCE, is what a transaction log reads from then on, up to the next LOG_WRITE |
| LogManager.ReadsWorking | DBMS/include/log.hpp:32-64 | A transaction log reads WORKING until a call with one of the three decisions touches it |
| LogManager.DataReadsIff | DBMS/include/log.hpp:70-83 | A data log reads as the texts written to it, joined by semicolons, exactly unless several were written and the first was empty |
| Wire.EncodeIntoBuffer | Cornus/include/messaging/tcp.hpp:525-536 | The buffer holds exactly endpoint, header mark, body and end mark if together they have fewer than 512 bytes; otherwise the answer is -1 and the buffer is untouched |
| Wire.GetRequest | Cornus/include/messaging/tcp.hpp:236-267 | The scan splits at the last header mark and the last end mark, waits if one is missing, throws if they are in the wrong order |
| Wire.Connection.constructor | Cornus/include/messaging/tcp.hpp:334-339 | A new connection has an empty buffer |
| Wire.Connection.Append | Cornus/include/messaging/tcp.hpp:345-352 | Received bytes land behind those already there |
| Wire.Connection.Discard | Cornus/include/messaging/tcp.hpp:380-383 | Shifting in place removes exactly the served bytes |
| Wire.Connection.ServeOne | Cornus/include/messaging/tcp.hpp:354-384 | A complete request runs its callback if there is one and leaves the buffer either way |
| Wire.Connection.Round | Cornus/include/messaging/tcp.hpp:340-386 | One round of the receive loop acts on buffer, callbacks and connection as `Receive` says |
| Wire.Connection.Read | Cornus/include/messaging/tcp.hpp:340-386 | The loop takes arrived bytes as far as they fit at each recv; a full buffer ends it |
| Wire.Serve | Cornus/include/messaging/tcp.hpp:331-391 | For every byte stream in every division into pieces, the in-place loop does what `Feed` says |
| Wire.FeedRequest | Cornus/include/messaging/tcp.hpp:331-391 | However a clean request that fits is cut, its callback runs once, with that request, and the buffer ends empty; without a callback it is skipped |
| Wire.FragmentationIndependent | Cornus/include/messaging/tcp.hpp:331-391 | The same of any sequence of such requests sent one at a time |
| Wire.ServeAll | Cornus/include/messaging/tcp.hpp:331-391 | The same of a connection with its in-place buffer |
| Wire.DecodedRightIff | Cornus/include/messaging/tcp.hpp:236-267 | A request is served right under every fragmentation exactly if it has at most 512 bytes, its body no mark and its endpoint no end mark |
| Pipelining.PipelinedIff | Cornus/include/messaging/tcp.hpp:331-391 | Two requests sent without waiting are both served, in order, exactly if a piece ends between the first one's end and the second one's header mark, or the buffer does |
| Pipelining.ReadAsOne | Cornus/include/messaging/tcp.hpp:241-261 | Two requests in one buffer are read as one |
| Pipelining.ThrowsInside | Cornus/include/messaging/tcp.hpp:256-261 | The first request and part of the second, header mark included, make the decoder throw |
| Params.TCPRequest.FromText | Cornus/include/messaging/tcp.hpp:120-136 | The parsing loop computes `Parse` |
| Params.TCPRequest.FromParams | Cornus/include/messaging/tcp.hpp:138-146 | The request text prints the map, in some order of its entries |
| Params.TCPRequest.SetParam | Cornus/include/messaging/tcp.hpp:148-152 | The text prints the updated map |
| Params.TCPRequest.WriteParams | Cornus/include/messaging/tcp.hpp:178-185 | Whatever order the map is walked in, every entry is printed once |
| Params.PrintedFirst | Cornus/include/messaging/tcp.hpp:178-185 | Every entry is printed as key, record separator (1e), value, unit separator (1f) |
| Params.RoundTripIff | Cornus/include/messaging/tcp.hpp:102-136 | For every printing order, parsing gives the same map exactly if no key and no value contains a delimiter |
| TransactionConfig.TransactionConfig.constructor | Cornus/include/config/TransactionConfig.h:10-19 | The first word is the coordinator, the others the participants |
| TransactionConfig.TransactionConfig.ToText | Cornus/include/config/TransactionConfig.h:21-29 | The accumulating loop prints each host and a blank |
| TransactionConfig.RoundTripIff | Cornus/include/config/TransactionConfig.h:10-29 | Printing and parsing gives the configuration back exactly if all hosts are words, or there are none |
| VoteRequest.DecimalRoundTrip | Cornus/include/transactionHandlers/Sender.hpp:62 | The printed transaction id reads back as itself, has only digits and no leading zero |
| VoteRequest.Sender.Send | Cornus/include/transactionHandlers/Sender.hpp:57-77 | One request per member in order, holding kind, configuration, empty command, transaction id and sender; clients created on demand, and an end for every call before it returns; a request of 512 bytes or more goes to nobody, never truncated, and every shorter one to everybody |
| VoteRequest.BodyArrives | Cornus/include/messaging/tcp.hpp:102-136 | A printed map of delimiter-free texts is a clean body and parses back |
| VoteRequest.VoteRequestArrives | Cornus/include/transactionHandlers/Sender.hpp:57-77 | A vote request whose addresses and id have fewer than 458 characters in all is sent, and, cut and printed in any way, arrives with all five parameters and lets the participant rebuild coordinator, participants and transaction id |
| VoteRequest.VoteRequestFitsIff | Cornus/include/messaging/tcp.hpp:525-536 | Whether a vote request can be sent depends on the lengths of the addresses and the id alone: exactly if they have fewer than 458 characters in all, blanks included, whatever order the parameters are printed in |
| TransactionConfig.TextLength | Cornus/include/config/TransactionConfig.h:21-29 | The printed configuration is as long as its addresses and one blank for each |
| MessageRouting.GlobalMessageHandler.CreateNode | Cornus/include/messaging/GlobalMessageHandler.hpp:151-167 | One table gets a fresh entry, the others are unchanged |
| MessageRouting.GlobalMessageHandler.RemoveFromMap | Cornus/include/messaging/GlobalMessageHandler.hpp:169-176 | One table loses the entry, the others are unchanged |
| MessageRouting.GlobalMessageHandler.SendMessage | Cornus/include/messaging/GlobalMessageHandler.hpp:178-185 | The handler of the transaction in that table is pushed the request; without one nothing happens |
| MessageRouting.GlobalMessageHandler.Process | Cornus/include/messaging/GlobalMessageHandler.hpp:45-68 | After every event all handlers have been pushed exactly what the history says |
| MessageRouting.SeesExactly | Cornus/include/messaging/GlobalMessageHandler.hpp:88-132 | A handler sees exactly the requests for its transaction and table between its creation and its return, in order |
| MessageRouting.MissesEarlier | Cornus/include/messaging/GlobalMessageHandler.hpp:178-185 | Requests before any creation are dropped |
| MessageRouting.Lands | Cornus/include/messaging/GlobalMessageHandler.hpp:49-68 | After any history, a vote, a refusal, a decision or DECISIONCOMPLETED is pushed as what it is to the one table it is for, if a handler is there; VOTEREQ, WILLCOMMIT and OVERRIDECOMMIT create one in theirs; all other tables stay |
| MessageRouting.RoutedTypes | Cornus/include/messaging/GlobalMessageHandler.hpp:49-68 | Coordinators and participants only ever see votes and decisions, replicators only DECISIONCOMPLETED, Committers nothing |
| RoutingAgrees.PaperDelivers | Cornus/include/messaging/GlobalMessageHandler.hpp:49-59 | In every Cornus 1 run every delivery changes the handler map as the routing says, and what is queued is what the handler takes the message for: a yes-vote as VoteYes, ABORT as Abort, COMMIT as Commit |
| RoutingAgrees.NewDelivers | Cornus/include/messaging/GlobalMessageHandler.hpp:49-68 | In every Cornus 2 run every delivery changes the entries of handlers and replicators as the routing says, each message queued as what its receiver takes it for; WILLCOMMIT finds no replicator and launches one |
| RoutingAgrees.NewRegisters | Cornus/include/messaging/GlobalMessageHandler.hpp:61-62 | In every run a replicator enters its map, with an empty queue, when the thread that WILLCOMMIT starts comes to it |
| PaperOneHandler.AtMostOneHandler | Cornus/include/messaging/GlobalMessageHandler.hpp:150-167 | In every Cornus 1 run a vote request finds a host without handler, so none is ever replaced in its map |
| NewOneHandler.AtMostOneHandler | Cornus/include/messaging/GlobalMessageHandler.hpp:150-167 | In every Cornus 2 run a vote request or WILLCOMMIT finds a host without a handler of that role |
| TransactionIds.IdGenerator.constructor | Cornus/include/messaging/GlobalMessageHandler.hpp:42 | The node id is the host number cut to 16 bits |
| TransactionIds.IdGenerator.GetUniqueTransactionId | Cornus/include/messaging/GlobalMessageHandler.hpp:135-141 | The k-th request gets the k-th id, also after the 32-bit counter wraps |
| TransactionIds.SameIdIff | Cornus/include/messaging/GlobalMessageHandler.hpp:135-141 | Two ids are equal exactly if the 16-bit node ids agree and the request numbers are congruent modulo 2^16 |
| TransactionIds.WindowDistinctIff | Cornus/include/messaging/GlobalMessageHandler.hpp:135-141 | The ids of n consecutive requests of a node are pairwise distinct exactly if n is at most 2^16 |
| TransactionIds.AsDocumentedIff | Cornus/include/messaging/GlobalMessageHandler.hpp:190-194 | An id has the documented layout exactly while the counter fits in 16 bits |
| ReplicatorRing.Walk | Cornus/include/config/HostConfig.hpp:39-55 | The three loops, never out of range, take the first f hosts met walking on from the own position |
| ReplicatorRing.LessIff | Cornus/include/config/HostConfig.hpp:36-42 | One address is less than another exactly if it is a proper prefix of it or smaller where they first differ |
| ReplicatorRing.FirstChosen | Cornus/include/config/HostConfig.hpp:38-49 | The first replicator is the least other host not less than the own address, or the least of all if there is none |
| ReplicatorRing.ChooseReplicators | Cornus/include/config/HostConfig.hpp:30-55 | Fails exactly if there are fewer than f others; otherwise sorts them and walks |
| ReplicatorRing.RingChoice | Cornus/include/config/HostConfig.hpp:38-55 | In a cluster of n hosts with f < n, the host at position j gets positions j + 1 to j + f modulo n: distinct, never itself, whatever order the others were listed in |
| ReplicatorRing.LoadBalanced | Cornus/include/config/HostConfig.hpp:39-55 | On the ring every position is among the next f of exactly f others |
| ReplicatorRing.EveryHostServesF | Cornus/include/config/HostConfig.hpp:39-55 | Every host is chosen as replicator by exactly f hosts, never by itself |

## Left out

- NewTheorems.Durability: says that COMMIT has been written or is owed, not that it is still stored; the stronger statement holds exactly if no replicator is a participant (DurabilityStored, DurabilityStoredIff).
- NewTheorems.CommitGetsWritten: gets COMMIT written, for the same reason not necessarily still stored when the participant on that host aborts later.
- Wire.FragmentationIndependent: one request at a time per connection, as the clients send them; PipelinedIff says what happens to two.
- Wire.Connection.Round: a reply that cannot be sent ends the connection after the callback has run; in the model every reply is sent.
- Wire.Receive: an exception of the decoder ends the whole server process; the model only closes the connection.
- MessageRouting.GlobalMessageHandler.Process: keeps what each handler was pushed, not what it has consumed, and does not model that a handler replaced in its table lives on outside it, which no protocol run brings about (PaperOneHandler.AtMostOneHandler, NewOneHandler.AtMostOneHandler).
- PaperHandlers.Cluster.Interfere: whatever others do is a schedule of the transition system, so several transactions at once are not modelled.
- Two-sided and eventual agreement of Cornus 2, which do not hold of the code.
- Committer, workers, and what a worker does on COMMIT beyond being told.
- The text of a vote (`Sender::sendToCoordinator` builds it as `send` does) and the client's decoding of responses: nobody looks at a reply.
- Sockets, DNS, HTTP endpoints, JSON, command lines, console output, and both copies of httplib.
- Error returns of the socket calls: a receive that fails inside the client lets its buffer index wrap (Cornus/include/messaging/tcp.hpp:631-639), and a send to a closed connection can raise SIGPIPE (Cornus/include/messaging/tcp.hpp:212), so a reset connection need not simply end the call as the model has it.
- Clocks, `timeout * 10`, simulated latency and event timers.
- C++ memory-level races: the reference a log returns after releasing its lock, the unsynchronised transaction counter, a client shared between threads.
- `std::stoul` on texts that are not decimal numbers, and `getParam` on a missing parameter.
- `std::sort` is a library function; an insertion sort with the same contract stands in its place.
- Testing/, benchmarks and plots.
