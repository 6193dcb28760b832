# Naxos: the Paxos replicated log, verified

This project models the replicated log of `libndnpaxos` and proves what it is for: every node delivers
the same values in the same slot order, whatever is lost, duplicated or reordered on the way; and as long
as no COMMIT is delivered twice, no submitted value is delivered twice. That last condition is needed
exactly where COMMITs are sent at all: in every cluster of more than one node.

The core is there twice. The objects `Acceptors.Acceptor`, `Proposers.Proposer`, `Captains.Captain`,
`Views.View`, `Views.Commo` and `Pool.PoolCore` change their fields as the code does; each method is
proved equal to a specification function of the old state. The specification functions (`Acceptors.On…`,
`Proposers.On…`, `Replica.On…`, `Pool…`) are then the steps of transition systems, over which the protocol
properties are proved for all runs.

How the parts fit:

- `Types`, `Collections`, `Quorum`: messages, ballots, the quorum threshold.
- `Acceptor`, `Proposer`: one slot at one node.
- `SlotPaxos`, `SlotSafety`: one slot across the cluster. Any node may run a phase-I proposer, the master
  may start in phase II. The invariant, single-slot agreement in every run.
- `FastPath`: exactly where skipping phase I is sound, depending on who may come to the slot.
- `Restart` (module `RestartBound`): how often a proposer without contention restarts, and what requests
  that arrive twice do to it.
- `ChosenLog`: the log with holes and its delivery.
- `Replica`, `ReplicaSafety`: a whole node, and what it keeps by itself.
- `Captain`: the object that implements `Replica`.
- `Refinement`: each operation of a node is, in each slot, nothing or one step of `SlotPaxos`; in its own slot
  a message is never nothing.
- `Reactions`: for each message and each submission, what changes at the node and which packets leave.
- `Cluster`: all nodes, all packets, and the events. `ClusterNode`: the object takes these events.
- `ClusterLocal`: what every run keeps wherever the master skips phase I. `ClusterSafety`, `ClusterRuns`:
  what holds where it may.
- `Submissions`: what holds if no COMMIT is delivered twice.
- `Reports`: what proposers remember of promises, over all their rounds.
- `Conservation`: no submitted value is dropped.
- `ReplicatedLog`: the main theorems.
- `CommitTwice`: exactly where a COMMIT may be delivered twice.
- `View`: configuration, who is asked, and the exchange of a member that refuses.
- `Pool`: the thread pool as a monitor. `PoolSteps`: what each region under its lock does.

## Assumptions

- All nodes read the same configuration; at most 65536 nodes, so that a node id fits the 16 low bits.
- Nodes stop for good: `crash()` only mutes a node, and nothing is kept on disk.
- A branch of a handler is one atomic step, so the status CHOSEN, which the code sets and removes within
  one branch, is never seen between steps. A message a node sends itself is treated like any other packet.
- Packets, a COMMIT too, may be lost, duplicated and reordered. Acknowledgements go to the requester. Only
  the two theorems about values that appear once, `ReplicatedLog.RunOneSlotPerValue` and
  `ReplicatedLog.RunDeliveredOnce`, ask for runs in which no COMMIT is delivered twice
  (`Submissions.CommitsOnce`). `CommitTwice.OnceIff` says that without it each of the two holds if and only
  if the cluster has one node.
- Slots are numbered from 1 and windows are at least 1.
- Fast path: the theorems about agreement are about runs in which each slot that the master starts in
  phase II is one of the first `length_`, or is one to which no node with a smaller id than the master's
  comes (`Cluster.InRange`). If the master is node 0, or as long as no node below it proposes by itself,
  that is so for every slot (`ClusterRuns.RunInRange`). What does not depend on the fast path, such as
  unique ids, queue order, windows and announcements, is proved for all runs.
- The bound on restarts is about rounds in which each request is handled once by each node it was sent to;
  `RestartBound.RepeatsDecide` is about the others.
- Ballots and ids are unbounded; `Ballots.FitsIn64Bits` says for how many rounds the 64 bits are exact.
- In `Cluster` any node may at any time bring a value of its own into any slot above those it has used,
  in phase I (`Contends`). The code does this only when a slot was lost; the model allows more.
- A broadcast may ask any set of nodes, so nothing depends on how the sets of members change.

The code is followed also where it looks unintended: a node that receives an ACCEPT with a piggybacked
decision it knows already returns before it acknowledges (`captain.cpp` lines 366 to 368), a restart
keeps the best value reported in earlier rounds, and stale acknowledgements are recognised by `<` only.

## What the proofs show about the code

- The fast path is sound in a slot exactly if its acceptors were promised to the master in advance or no
  node with a smaller id than the master's may come to the slot (`FastPath.AgreementIff`). Otherwise the
  slot protocol, in which every node may start phase I, reaches two choices: `FastPath.TwoChosen` builds
  the run for every cluster size and every such node. With the master fixed the code does not take it: a
  client's data is sent to the master (`captain.cpp` lines 125 to 156), and a slot is entered in phase I
  only by a node whose own proposer has lost another one (lines 517 to 537). Such runs agree however far
  the slots go (`ReplicatedLog.RunFixedMasterAgrees`); the pre-promise is what safety rests on as soon as
  anyone else proposes.
- A COMMIT that is delivered k times gets its value settled in k slots and delivered k times, in every
  cluster of more than one node, with every window and also where the fast path is sound
  (`CommitTwice.SettledAsOften`).
- Keeping the best reported value across restarts, comparing values by id only, and the `<` test for stale
  acknowledgements are all harmless, and `SlotSafety` says why.
- Without contention a proposer restarts at most floor((M-curr)/65536)+1 times, and that bound is reached.
  It holds while each request is handled once. A second copy of a PREPARE is refused at the ballot just
  promised, and that refusal replaces the promise stored for its sender; a round restarts exactly if such
  an answer is the last word of one of the q senders that count, and there is then no bound at all.
- A value that loses its slot is never dropped: at every moment each submission waits in the queue, or has a
  slot that it has not lost, where it is being proposed or the outcome is known; where the fast path is sound
  that outcome is the value itself (`Conservation.RunConservesValues`).
- While there are more workers than the target, no worker that is ready takes a task, but each of those that
  were parked may take one (`PoolSteps.RunSurplusFetchesFew`).
- Exchanging a refusing node that is no member makes the set of asked nodes grow; it never shrinks. It does
  grow in every cluster of at least five nodes in which node 0 refuses twice, and by one more node for each
  further refusal while there are spare nodes.
- The pool loses no wake-up, but its workers may all leave. A task can be left pending with nobody to
  execute it, without a further resize, shutdown or death, exactly if there are more workers than the
  target or all workers are leaving already (`Pool.StrandsIff`). So it can happen after every resize that
  makes the pool smaller than the number of its workers, and after one that does not if they were all
  leaving and no new one was made; and after a death exactly if all others were leaving and no thread is
  left for a replacement.

## Model

| member | source | states |
|---|---|---|
| Quorum.SizeIsMajority | libndnpaxos/view.cpp:42 | the real-valued ceiling formula is floor(n/2)+1, more than half and attainable, for every n |
| Quorum.Intersect | libndnpaxos/proposer.cpp:90-110 | any two sets of distinct nodes that pass the count share a node, whoever was asked |
| Ballots.KthBallot | libndnpaxos/proposer.cpp:175-187 | the k-th ballot of node i is k*65536+i |
| Ballots.OrderIsLexicographic | libndnpaxos/proposer.cpp:175-187 | ballots order by counter, then node id; two nodes never share one |
| Ballots.FitsIn64Bits | libndnpaxos/proposer.cpp:175-187 | a ballot fits 64 bits exactly for the first 2^48-1 rounds |
| Acceptors.Acceptor.HandleMsgPrepare | libndnpaxos/acceptor.cpp:27-59 | promise state and reply: yes with the last accepted pair only for a larger ballot |
| Acceptors.Acceptor.HandleMsgAccept | libndnpaxos/acceptor.cpp:70-101 | accepts at or above the promise; a value with the stored id is not stored again |
| Acceptors.PrepareAdvances | libndnpaxos/acceptor.cpp:44-53 | a prepare request never lowers a promise and never withdraws a vote |
| Acceptors.AcceptAdvances | libndnpaxos/acceptor.cpp:84-94 | a new vote respects the promise it finds; refused only below it |
| Proposers.BestIsMaximum | libndnpaxos/proposer.cpp:97-113 | the scan finds the largest reported ballot with the value reported there, or keeps the one it had |
| Proposers.Proposer.RestartMsgPrepare | libndnpaxos/proposer.cpp:45-51 | a new round: acks and current value go, the best reported pair stays |
| Proposers.Proposer.HandleMsgPromise | libndnpaxos/proposer.cpp:79-125 | drops stale acks, counts one per sender, decides between waiting, phase II and restart |
| Proposers.Proposer.ScanPromises | libndnpaxos/proposer.cpp:97-113 | the counting loop: number of yes answers and best reported pair |
| Proposers.Proposer.HandleMsgAccepted | libndnpaxos/proposer.cpp:132-169 | drops stale acks, decides between waiting, CHOOSE and restart |
| SlotPaxos.Agreement | libndnpaxos/proposer.cpp:79-169 | two ids chosen in a slot, at any ballots, are the same |
| SlotSafety.AckIsCurrent | libndnpaxos/proposer.cpp:83-90 | an ack that is not below the current ballot is exactly at it: `<` is as strong as `!=` |
| SlotSafety.BestIsReported | libndnpaxos/proposer.cpp:45-51 | the pair kept across restarts was proposed, at a ballot below the current one |
| SlotSafety.GapIsDead | libndnpaxos/proposer.cpp:97-118 | after a quorum of promises no ballot strictly between the best and the current one is or can be chosen |
| SlotSafety.ContinueIsSafe | libndnpaxos/proposer.cpp:97-118 | the value of phase II agrees with everything that is or can be chosen at a smaller ballot |
| SlotSafety.AcceptKeepsAcceptor | libndnpaxos/acceptor.cpp:84-94 | comparing values by id only, the acceptor still stores the proposal of its last accepted ballot |
| SlotSafety.FastStartIsSafe | libndnpaxos/captain.cpp:196-206 | where acceptors are pre-promised, no ballot below the master's first one can be chosen |
| SlotSafety.ChooseIsChosen | libndnpaxos/captain.cpp:428-434 | a CHOOSE outcome is a value that a quorum has accepted at the proposer's ballot |
| SlotSafety.StepCoherent | libndnpaxos/captain.cpp:246-555 | every step of every node in a slot, a fast start anywhere included, keeps packets, acceptors and proposers coherent and withdraws no vote, message or promise |
| SlotSafety.StepKeeps | libndnpaxos/captain.cpp:246-555 | every step keeps every proposal safe, a fast start where the slot is pre-promised or nobody can use a smaller ballot |
| SlotSafety.RunKeepsInv | libndnpaxos/captain.cpp:246-555 | every state of a slot satisfies the invariant if the slot is pre-promised, or nobody below the master has come to it, or the master has not started in phase II |
| SlotSafety.RunKeepsChosen | libndnpaxos/acceptor.cpp:27-101 | what is chosen stays chosen for the rest of any run |
| SlotSafety.RunAgreement | libndnpaxos/captain.cpp:391-434 | in every such run, ids chosen at any two moments are the same, with loss, duplication, reordering and any number of proposers |
| Reports.RunRetains | libndnpaxos/proposer.cpp:45-51 | over any run of a slot the ballot a proposer remembers never falls, its value changes only when it rises, and a proposer that is done does not run again |
| Reports.RunProposesBest | libndnpaxos/proposer.cpp:97-118 | whenever a proposer is in phase II its value is the remembered one, or its own if it remembers none |
| Reports.RunRemembers | libndnpaxos/proposer.cpp:45-118 | once a round has ended in RESTART or CONTINUE, every ballot it reported is at most the remembered one, through all later rounds |
| Reports.RunNodeRetains | libndnpaxos/proposer.cpp:45-51 | the same of the proposers of every node of the cluster, in every slot and run |
| Reports.RunNodeRemembers | libndnpaxos/captain.cpp:274-339 | and of the promises a working node counts |
| FastPath.TwoChosen | libndnpaxos/captain.cpp:48-53 | for every cluster, every slot without pre-promise and every node below the master, a run of just these two in which two ids are chosen |
| FastPath.AgreementIff | libndnpaxos/captain.cpp:48-53 | whoever may come to the slot: it agrees in all reachable states if and only if it is pre-promised, or the master does not come, or nobody below the master does |
| RestartBound.PlayDecides | libndnpaxos/proposer.cpp:79-169 | a delivered round settles the slot, or restarts because the ballot was not above every promise |
| RestartBound.SettledWithin | libndnpaxos/proposer.cpp:45-51 | without contention CHOOSE comes after at most floor((M-curr)/65536)+1 restarts, in any order of replies, and the bound is reached |
| RestartBound.RepeatsDecide | libndnpaxos/proposer.cpp:90-118 | in a round whose ballot is above every promise, phase I restarts if and only if the last word of one of the first q senders heard is the answer to a second copy of the request |
| RestartBound.EchoesNeverSettle | libndnpaxos/acceptor.cpp:44-53 | with such an order of answers every one of n rounds restarts, for any n; without one none does |
| RestartBound.EchoExists | libndnpaxos/acceptor.cpp:44-53 | such an order exists among any acceptors that include nodes 0 to q-1, for a quorum q of at least two |
| RestartBound.RestartsAreUnbounded | libndnpaxos/proposer.cpp:90-118 | so a proposer above every promise may restart n times in n rounds, for every n |
| ChosenLog.AddRefinesFirstWrite | libndnpaxos/captain.cpp:810-836 | the vector with holes is a map in which the first write of a slot wins; deliveries only grow; the delivered prefix is the longest gap-free one |
| ChosenLog.AdvanceDelivers | libndnpaxos/captain.cpp:848-889 | calling back delivers slots 1..k once each, in order, up to the first hole |
| ChosenLog.Canonical | libndnpaxos/captain.cpp:810-889 | counters and callbacks are determined by which slots are filled and with what |
| ChosenLog.ReplayIsFirstWrites | libndnpaxos/captain.cpp:810-836 | for every input sequence the log holds exactly the first value given to each slot |
| ChosenLog.OrderDoesNotMatter | libndnpaxos/captain.cpp:810-889 | consistent inputs give the same log and the same callbacks in any order and with any repetitions |
| ReplicaSafety.CommitKeeps | libndnpaxos/captain.cpp:162-221 | committing keeps window, queue order, status, placement and announcement invariants |
| ReplicaSafety.CommitAccepts | libndnpaxos/captain.cpp:167-194 | no commit is refused: it is queued exactly if the window is full, started exactly if not |
| ReplicaSafety.AnnouncesNext | libndnpaxos/captain.cpp:210-217 | an announcement is made exactly if the next slot is settled here, and it is the slot after the last one announced |
| ReplicaSafety.ChooseKeeps | libndnpaxos/captain.cpp:428-540 | CHOOSE keeps all of a node's invariants whether the next value starts or the losing one moves |
| ReplicaSafety.HandleMsgKeeps | libndnpaxos/captain.cpp:234-620 | every message keeps all of a node's invariants |
| Refinement.HandleMsgFollows | libndnpaxos/captain.cpp:234-620 | handling a message is, in every slot, nothing or one legal step of the slot protocol |
| Refinement.HandleMsgTakes | libndnpaxos/captain.cpp:246-555 | at a working node a PREPARE, PROMISE, ACCEPT or ACCEPTED is in its own slot exactly the step that the slot protocol takes for it, never ignored |
| Refinement.CommitFollows | libndnpaxos/captain.cpp:162-221 | so is committing a value; a fast start only at the master and only in a fresh slot |
| Refinement.ContendFollows | libndnpaxos/captain.cpp:517-537 | so is bringing a value to a new slot in phase I |
| Reactions.PrepareIsAnswered | libndnpaxos/captain.cpp:246-271 | the promise of the slot becomes the larger of itself and the ballot, nothing else changes, and one PROMISE goes to the sender, positive exactly if the ballot was larger, with the accepted pair |
| Reactions.AcceptIsVoted | libndnpaxos/captain.cpp:341-359 | the slot's acceptor votes exactly if nothing larger was promised; only another id replaces the stored value; no other slot changes |
| Reactions.AnnouncementIsLearned | libndnpaxos/captain.cpp:361-387 | a piggybacked decision is learned and published exactly if its slot was unknown and the acceptor now stores the id; the ACCEPT is answered exactly unless the slot was known |
| Reactions.DecideIsLearned | libndnpaxos/captain.cpp:557-582 | an unknown slot is learned if the acceptor stores the id, and asked for if not |
| Reactions.LearnIsTaught | libndnpaxos/captain.cpp:584-599 | the value is taught exactly if it is known |
| Reactions.TeachIsLearned | libndnpaxos/captain.cpp:601-620 | what is taught is learned unless the slot was known |
| Reactions.LogDataIsLearned | libndnpaxos/commo.cpp:391-405 | so is what is fetched from the published log |
| Reactions.CrashedIsMute | libndnpaxos/captain.cpp:236-242 | a crashed node changes nothing and sends nothing, whatever it gets |
| Reactions.PromiseIsCounted | libndnpaxos/captain.cpp:274-339 | a promise that is not stale is kept; a quorum of answers ends the round: phase II with the best report if a quorum said yes, else a new round at the next ballot; the largest report is remembered either way |
| Reactions.VoteIsCounted | libndnpaxos/captain.cpp:391-426 | a vote that does not settle the slot is stale, or is kept, or ends the round with a new one that keeps what is remembered |
| Reactions.LosingValueMoves | libndnpaxos/captain.cpp:514-537 | if the slot went to another id, the node's own value has a phase-I proposer in the next slot, every asked node is sent its PREPARE, and the queue is untouched |
| Reactions.WinnerLetsNextStart | libndnpaxos/captain.cpp:454-512 | if it went to the node's own value, the first waiting value, if any, starts in phase II in the next slot with its client, and the ACCEPT to every asked node announces the next slot exactly if that is known |
| Reactions.CommitIsQueuedOrStarts | libndnpaxos/captain.cpp:162-221 | a committed value joins the queue with its client exactly if the window is full; otherwise it starts in the next slot in the same way |
| Captains.Captain.constructor | libndnpaxos/captain.cpp:37-54 | the object starts as the initial state of the model: acceptors 1..length promised to the master's first ballot |
| Captains.Captain.HandlePromise | libndnpaxos/captain.cpp:274-339 | the PROMISE case, all branches |
| Captains.Captain.HandleAccept | libndnpaxos/captain.cpp:341-389 | the ACCEPT case with the piggybacked decision and the early return |
| Captains.Captain.HandleAccepted | libndnpaxos/captain.cpp:391-555 | the ACCEPTED case, all branches |
| Captains.Captain.HandleChoose | libndnpaxos/captain.cpp:428-540 | CHOOSE: log, then the next queued value or the own value in a new slot |
| Captains.Captain.Commit | libndnpaxos/captain.cpp:162-221 | committing a value, all branches |
| Captains.Captain.CommitData | libndnpaxos/captain.cpp:115-160 | a client's data gets the next id; the master commits, another node sends it to the master |
| Captains.Captain.HandleCommit | libndnpaxos/captain.cpp:622-631 | the COMMIT case at the master |
| Captains.Captain.HandleDecide | libndnpaxos/captain.cpp:557-582 | the DECIDE case: learn on an id match, ask otherwise |
| Captains.Captain.HandleTeach | libndnpaxos/captain.cpp:601-620 | the TEACH case: store unless known |
| Captains.Captain.HandleMsg | libndnpaxos/captain.cpp:234-675 | the dispatcher; a crashed node is mute |
| Captains.Captain.AddChosenValue | libndnpaxos/captain.cpp:810-836 | fills a hole or grows the vector, never replaces, then calls back; nothing else changes |
| Captains.Captain.AddCallback | libndnpaxos/captain.cpp:848-889 | the callback loop |
| Captains.Captain.OnDataLog | libndnpaxos/commo.cpp:391-405 | a fetched log entry is stored like a chosen value, and the next one is fetched unless the node is a member |
| ClusterNode.Receive | libndnpaxos/captain.cpp:234-675 | what the object does on a packet that was sent is a delivery event of the cluster |
| ClusterNode.Submit | libndnpaxos/captain.cpp:115-160 | what it does with a client's data is a commit event, and what it sends the master is what the event sends |
| ClusterNode.ReceiveCommit | libndnpaxos/captain.cpp:622-631 | what the master's object does on a COMMIT is the arrival of that COMMIT |
| ClusterSafety.StoredIsSettled | libndnpaxos/captain.cpp:569-572 | what an acceptor stores under the id of a settled slot is the value of that slot |
| ClusterSafety.ChosenIsSettled | libndnpaxos/captain.cpp:428-434 | the value of a CHOOSE is the value its slot is settled on |
| ClusterSafety.SettledWasPlaced | libndnpaxos/captain.cpp:196-206 | a settled id is that of a value some node brought to that very slot |
| ClusterLocal.NewIdIsFresh | libndnpaxos/captain.cpp:117-123 | a new value id is one that no node has given out or can give out |
| ClusterLocal.EventLocal | libndnpaxos/captain.cpp:115-644 | every event, wherever the master skips phase I, keeps every slot coherent, every node's own invariant and the ids apart |
| ClusterLocal.RunLocal | libndnpaxos/captain.cpp:115-644 | so it is at every moment of every run |
| ClusterRuns.EventKeeps | libndnpaxos/captain.cpp:115-644 | every event that leaves the cluster in range, a COMMIT that comes again included, keeps all proposals safe and all that is learned or said true |
| ClusterRuns.RunOk | libndnpaxos/captain.cpp:115-644 | so every reachable state in range satisfies the invariant |
| ClusterRuns.RunInRange | libndnpaxos/captain.cpp:115-160 | a run in which no node below the master proposes by itself is always in range, whatever `length_` is |
| Submissions.ChooseHomed | libndnpaxos/captain.cpp:443-537 | CHOOSE leaves a value at most one slot that it has not lost, if values are submitted once |
| Submissions.RunHomed | libndnpaxos/captain.cpp:443-537 | so it is at every node and at every moment of every run |
| Submissions.RunSubmitsOnce | libndnpaxos/captain.cpp:622-631 | if no COMMIT is delivered twice, no node ever has two submissions with one id |
| Conservation.RunConserved | libndnpaxos/captain.cpp:428-540 | at every moment of every run each value that has started has a slot it has not lost, and a slot without its proposer is known |
| Conservation.RunForgetsNothing | libndnpaxos/captain.cpp:162-221 | so each submission waits, or has a slot not lost in which it is being proposed or the outcome is known |
| Conservation.RunConservesValues | libndnpaxos/captain.cpp:428-540 | and where the fast path is sound, it waits, is being proposed, or is itself the value of a settled slot that its node knows |
| CommitTwice.SettledAsOften | libndnpaxos/captain.cpp:622-631 | in every cluster of two nodes or more, for every k, a run in which one COMMIT delivered k times is settled in slots 1 to k and delivered k times |
| CommitTwice.OnceIff | libndnpaxos/captain.cpp:622-631 | without a promise about COMMITs no id is settled in two slots, and no node delivers an id twice, if and only if there is one node |
| ReplicatedLog.RunDeliveriesAgree | libndnpaxos/captain.cpp:848-889 | in every run, the callback sequences of two nodes at any two moments are prefixes of one another |
| ReplicatedLog.RunFixedMasterAgrees | libndnpaxos/captain.cpp:115-160 | so it is for slots far beyond `length_` while no node below the master proposes by itself |
| ReplicatedLog.RunKnownAgree | libndnpaxos/captain.cpp:810-836 | two nodes that know a slot, at any two moments of a run, know the same value, also above a hole |
| ReplicatedLog.RunLearnsTheChosen | libndnpaxos/captain.cpp:557-620 | whatever way a value was learned, it is the one chosen for its slot |
| ReplicatedLog.RunOneSlotPerValue | libndnpaxos/captain.cpp:443-537 | over a whole run in which no COMMIT is delivered twice, no value id is chosen in two slots |
| ReplicatedLog.RunDeliveredOnce | libndnpaxos/captain.cpp:848-889 | in such a run no submission is delivered twice at a node |
| ReplicatedLog.RunNodesOrderly | libndnpaxos/captain.cpp:162-221 | at every moment: at most a window of proposers, waiting only while it is full, first starts plus queue are the submissions in order with their clients, status and proposer agree, announcements are the first deliveries in order |
| ReplicatedLog.RunCountsCurrent | libndnpaxos/captain.cpp:289-331 | at every moment all stored acks answer the current ballot, which only this node generates |
| ReplicatedLog.RunIdsUnique | libndnpaxos/captain.cpp:117-123 | over a run no two values share an id |
| Views.View.constructor | libndnpaxos/view.cpp:13-119 | members are the first q hosts, the rest spare; an id out of range becomes 0 |
| Views.FirstOk | libndnpaxos/view.cpp:80-84 | members and spare nodes are apart, exactly q and n-q of them |
| Views.ExchangeOk | libndnpaxos/commo.cpp:435-440 | an exchange keeps the sets apart and a quorum asked; the number asked stays the same exactly if nothing is exchanged or the refuser was a member |
| Views.ExchangesAreBounded | libndnpaxos/commo.cpp:435-440 | over any sequence of refusals at most n-q exchanges happen, and a quorum is asked throughout |
| Views.AskedGrows | libndnpaxos/commo.cpp:435-440 | after k refusals by node 0 in a row, with s spare nodes at first, q + min(k, s) - 1 nodes are asked, or q if min(k, s) is 0: more than a quorum if and only if k is at least 2 and the cluster has at least five nodes |
| Views.Commo.BroadcastMsg | libndnpaxos/commo.cpp:121-154 | one packet to every node that is asked and to no other |
| Views.Commo.OnNack | libndnpaxos/commo.cpp:422-455 | who is exchanged and who is asked instead |
| Pool.StepPoolOk | libndnpaxos/threadpool/detail/pool_core.hpp:182-445 | every lock region keeps counters, tasks and sleepers in order |
| Pool.RunCounters | libndnpaxos/threadpool/detail/pool_core.hpp:329-431 | active is the number of workers not parked, between 0 and the number of live workers, at every moment |
| Pool.RunConserves | libndnpaxos/threadpool/detail/pool_core.hpp:182-445 | each task is in exactly one place: pending, with one worker, finished, died with its worker, or cleared |
| Pool.RunFetchesInOrder | libndnpaxos/threadpool/scheduling_policies.hpp:45-104 | tasks are fetched in the order of scheduling, ahead of everything pending |
| Pool.RunWaitMeansDone | libndnpaxos/threadpool/detail/pool_core.hpp:241-260 | when wait(t) may return at most t tasks are pending or executed; with t=0 everything scheduled is over |
| Pool.RunLosesNoWakeUp | libndnpaxos/threadpool/detail/pool_core.hpp:401-436 | a worker sleeps beside pending tasks only if a woken worker is on its way for each of them, and that one fetches a task |
| Pool.SurplusStrands | libndnpaxos/threadpool/detail/pool_core.hpp:401-436 | any pool with more workers than its target, whatever they are doing, may lose them all and leave a task behind |
| Pool.StrandsIff | libndnpaxos/threadpool/detail/pool_core.hpp:401-436 | in whatever state: a task can be left behind if and only if there are more workers than the target or none that is not leaving |
| Pool.ResizeStrands | libndnpaxos/threadpool/detail/pool_core.hpp:329-365 | after a resize a task can be left behind if and only if the new size is below the number of workers, or all were leaving and no new one was made |
| Pool.DeathStrands | libndnpaxos/threadpool/detail/pool_core.hpp:369-385 | after a death a task can be left behind if and only if every other worker was leaving and there is no thread for another |
| Pool.AllMayLeave | libndnpaxos/threadpool/detail/pool_core.hpp:410-413 | so a pool of any size, started from nothing and made smaller, can end with a task and no worker |
| Pool.CountersInRange | libndnpaxos/threadpool/detail/pool_core.hpp:369-398 | no decrement of a counter wraps around |
| Pool.PoolCore.ExecuteTask | libndnpaxos/threadpool/detail/pool_core.hpp:401-436 | leave, sleep or fetch the first pending task |
| Pool.PoolCore.Awake | libndnpaxos/threadpool/detail/pool_core.hpp:416-436 | the same after a wait, which does not look at the target if there is a task |
| Pool.PoolCore.ResizeTo | libndnpaxos/threadpool/detail/pool_core.hpp:329-365 | new workers up to the target or as many as there are threads, or all sleepers woken |
| Pool.PoolCore.WorkerDiedUnexpectedly | libndnpaxos/threadpool/detail/pool_core.hpp:369-385 | the counters drop and the worker is replaced unless the pool shuts down |
| Pool.PoolCore.WaitIsOver | libndnpaxos/threadpool/detail/pool_core.hpp:241-260 | the condition under which a wait returns |
| PoolSteps.ReadyIsTold | libndnpaxos/threadpool/detail/pool_core.hpp:401-436 | a ready worker leaves if and only if there are more workers than the target, whatever is pending; otherwise it sleeps if and only if nothing is, and else takes the first task |
| PoolSteps.WokenIsTold | libndnpaxos/threadpool/detail/pool_core.hpp:416-436 | a woken worker takes the first task if there is one, surplus or not; only without one does it leave or sleep |
| PoolSteps.FetchesIff | libndnpaxos/threadpool/detail/pool_core.hpp:401-436 | tasks are fetched by these two and by nothing else |
| PoolSteps.RunSurplusLeaves | libndnpaxos/threadpool/detail/pool_core.hpp:410-413 | in no run does a ready worker take a task while there is a surplus |
| PoolSteps.RunSurplusFetchesFew | libndnpaxos/threadpool/detail/pool_core.hpp:401-436 | over any stretch with a surplus at most as many tasks are fetched as workers were parked when it began |
| PoolSteps.ScheduledIsLast | libndnpaxos/threadpool/detail/pool_core.hpp:182-195 | a task joins the end of the queue, and one sleeper is woken exactly if there is one |
| PoolSteps.ResizeGrowsOrWakes | libndnpaxos/threadpool/detail/pool_core.hpp:329-365 | a larger pool gets the workers that are missing, or as many as there are threads, all ready; in a smaller one exactly the sleepers are woken |
| PoolSteps.DeadIsReplaced | libndnpaxos/threadpool/detail/pool_core.hpp:369-385 | the dead worker and its task are gone; one takes its place if there is a thread and no shutdown |
| PoolSteps.ShutdownWakes | libndnpaxos/threadpool/detail/pool_core.hpp:296-304 | exactly the sleepers are woken, and the target becomes 0 |
| PoolSteps.LeaverIsGone | libndnpaxos/threadpool/detail/pool_core.hpp:387-399 | counters drop by one, and the worker is kept for joining only in a shutdown |

## Left out

- NDN faces, names, signing, protobuf encoding, YAML, shell commands, SQLite, logging and pointer ownership: foreign input and output; messages are datatypes and a value is an immutable id with its data.
- MODE_TYPE 1 takeover and the SET_QUORUM command: a new master would use the fast path at a ballot that nobody was promised to, so agreement does not hold for that mode; the master here is fixed.
- SET_MASTER values and `master_change`: their only caller is commented out, and they queue a value without its client.
- Pairing of client names on the recommit path: the code uses the name of the acknowledgement there, so the model passes that name on and claims nothing about it.
- An acknowledgement for every ACCEPT: the early return drops it, and `SlotPaxos` allows an acceptor not to answer.
- The `int` counters of the loops that grow vectors: slots beyond 2^31 are not modelled.
- Captains.Captain.HandleMsg: requires slots from 1 on, since slot 0 has no acceptor object; the COMMAND case, which takes a node into the set of members, is not modelled, and the COMMIT case is the method HandleCommit.
- Captains.Captain.HandleChoose: does not model `inform_client` and `callback_latency_`, which tell the client and change nothing the protocol reads.
- Captains.Captain.CommitData: does not model that a node other than the master blocks until the reply to its COMMIT comes.
- Captains.Captain.HandleCommit: does not model the reply to the sender, which changes nothing there but ends that wait.
- Captains.Captain.HandleTeach: does not model the REPLY_TEACH command sent before the value is stored, for which the receiver has no case.
- Captains.Captain.AddCallback: does not model the SET_MASTER branch, which is about values that nothing submits any more.
- ClusterRuns.EventKeeps: holds where each slot that the master started in phase II is pre-promised or has no proposer of a node below the master; FastPath.AgreementIff shows that a slot needs this.
- ClusterRuns.RunOk: holds for runs that end in such a state, for the same reason.
- ReplicatedLog.RunDeliveriesAgree: the same, and with it RunKnownAgree and RunLearnsTheChosen.
- ReplicatedLog.RunOneSlotPerValue: holds for runs in which no COMMIT is delivered twice; CommitTwice.OnceIff shows that every cluster of more than one node needs this.
- ReplicatedLog.RunDeliveredOnce: the same.
- Views.Commo.OnNack: does not model that the mutex stays locked when there is no spare node, nor the SET_QUORUM message it sends; this branch is compiled for MODE_TYPE 1 only.
- Pool.PoolCore.ExecuteTask: the body of a task and the notification of those who wait for the pool are not modelled; finishing and dying are events. An empty task function counts as a task.
- Pool.PoolCore.TerminateWorkers: joining the terminated workers is not modelled, and no claim is made that the number of workers reaches its target.
- Pool.RunWaitMeansDone: says what holds when a wait returns, not that it returns; waits with a time limit are left out.
- Recovery, timeouts and progress under contention: nothing is persisted and the timeout handlers are empty.
- Client, Producer, Consumer, DBManager, futures, the other schedulers, size and shutdown policies, scripts: they carry data to and from the replicated log and the pool and take no part in either.
