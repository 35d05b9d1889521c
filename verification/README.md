# A model of the Raft node and its cluster

The program is a Raft node. It is a follower, a candidate or a leader, and a *cycle* object handles its input
while it stays in one role. Four messages go between nodes: a request for a vote, a request to append entries, and
the response to each. A driver loop runs one cycle after the other. A node that meets a message of a higher term
puts the message back on a queue of its own, becomes a follower and reads it again.

The model has two levels, and lemmas that join them.

- **The node.** `NodeSpec` says as functions what one node does with one input. `Nodes` and `Receivers` are the
  imperative form: a class `Node` with the program's fields and the arrays `matchIndex` and `nextIndex`, a class
  `Cycle` with `voteCount`, `nextState` and the array `hasVotedForMe`, a class `Receiver` with the queue, and one
  method per handler and loop. Each method is proved equal to its function of `NodeSpec` or `DriverSpec`.
- **The cluster.** `Clusters` has any number n >= 2 of nodes and the packets in transit. A step is a delivery, the
  resumption of a message that was put back, a timeout, a crash, a recovery or a client request. A run is any finite
  sequence of steps from the start. The theorems are about all runs.
- **The bridge.** `Refinement` proves that at every point of every run a node is in the state, and has sent the
  messages, that the driver loop of a new node produces from the events that reached the node, and that it has begun
  as many cycles. Its method `Replay` runs an object of class `Node` on them. The converse is there too: whatever is
  offered to a node and can be done by the driver is a step with which the run can go on.

The theorems about safety say what a node must not do. `Broadcasts`, `Answers`, `Votes`, `Progress` and `Steps` say
what it must do, in any run and for any number of nodes: whom it sends what, which votes it counts, what it commits
and answers.

The proofs carry two records beside a run: `History` (who led each term, with which votes and which log) and `Marks`
(how long a log each node has taken over from each term's leader). Neither appears in the theorems.

| files | content |
|---|---|
| `Types`, `NodeSpec` | messages, abstract node state, handlers as functions, `Defined`: where no assertion of the program fails |
| `Receiver`, `Driver`, `Node`, `Refinement` | the classes, the driver loop, and their tie to the cluster |
| `Cluster`, `Sends`, `Moves` | runs, and what a step sends and changes |
| `Terms`, `Appends`, `NodeFacts` | what holds in any run, with no hypothesis on the network |
| `Broadcasts`, `Answers`, `Votes`, `Progress`, `Steps` | what a node does in any run: sends to all, answers, votes, commits; which steps there are |
| `Bounds` | indices inside logs, with fresh acknowledgements alone |
| `History`, `BaseProof`, `BaseStep`, `BaseRuns` | election safety and log matching, with fresh votes alone |
| `Order`, `Truncation` | what FIFO channels and fresh votes add |
| `Shape`, `Marks`, `MarkStep`, `MarkSends`, `Acks` | the three together |
| `Completeness`, `Commits`, `Safety`, `Permanence`, `Replication`, `Repair` | the safety theorems, and the repair of a log |
| `Script`, `Opening` | how a run is written down step by step, and how each such run begins |
| `StaleVote`, `StaleAck`, `Reordered`, `Figure8`, `TwoRejections`, `CommitFalls` | runs that show what can go wrong |

## Hypotheses on runs

What the code leaves to the network, to timing or to luck is a named predicate, and each theorem names those it uses.

- `FifoRun`: packets of one sender to one receiver arrive in the order of sending (MPI 3.1, section 3.5).
  `Reordered.FifoIsNeeded` is a run without it. In every run no packet arrives twice (`Steps.DeliveredOnce`), and
  packets are lost only at a crashed node.
- `FreshVotes`: a vote that is counted carries the candidate's present term, which `candidateCycle.cc:32` does not
  check. `StaleVote.FreshVotesAreNeeded` is a run without it, with two leaders of one term.
- `FreshAcks`: a success response that a leader handles carries its present term (not checked at
  `leaderCycle.cc:65-70`). `StaleAck.FreshAcksAreNeeded` is a run without it, in which `matchIndex` tells of a node
  what that node never had in the leader's term.
- `OwnTermCommits`: a commit loop that advances stops on an entry of the leader's own term (section 5.4.2 of the
  Raft paper, not checked at `leaderCycle.cc:42-49`). `Figure8.OwnTermCommitsAreNeeded` is the run of the paper's
  Figure 8, which this code takes: two nodes save different entries at one index.
- A run takes only steps on which no assertion of the program fails and no vector is read out of bounds.
  `Bounds.AssertionsNeverFire` says exactly which messages that rules out, and `TwoRejections.RejectionAtZeroHappens`
  that they occur.

`Orderly` is the first three together; `OrderlyCommits` is all four.

## Where the code and its comments differ

The model follows the code. `node.hh:128-129` says that `commitIndex` increases monotonically, but
`followerCycle.cc:66` assigns whatever the leader sent. `CommitFalls.CommitIndexFalls` is a run, with every hypothesis
kept, in which a new leader's first append takes a follower's `commitIndex` from 0 to -1, and
`CommitFalls.SavedTwice` goes on until the follower has saved one entry twice. `Replication.CommitIndexFallsExactly`
says for any run when a step lowers `commitIndex`, and `Replication.CommitIndexFallsFirst` that in an orderly run it
is only with the first append accepted in a term; `Safety.StateMachineSafety` covers what is saved again.
`node.hh:116-119` says the same of `matchIndex`: it is true within one leadership (`Replication.MatchIndexMonotone`).

## Model

| member | source | states |
|---|---|---|
| Safety.StateMachineSafety | src/runners/node/cycle/followerCycle.cc:61-66 | in an orderly run with own-term commits, entries saved at one index are equal, whichever nodes saved them and whenever, a second saving included |
| Safety.LeaderCompleteness | src/runners/node/cycle/leaderCycle.cc:32-52 | what a leader of term t has committed is a prefix of the log of every leader of every later term, at any moment |
| Safety.MajorityDurability | src/runners/node/cycle/leaderCycle.cc:36-50 | when a leader advances to c, more than half of the nodes, it included, have each had its first c + 1 entries while in its term |
| Permanence.CommittedStays | src/runners/node/cycle/followerCycle.cc:36 | in an orderly run with own-term commits the first commitIndex + 1 entries of a node's log at one moment begin its log at every later moment: no leader's append, of this term or a later one, drops or overwrites what the node has committed, although its commitIndex may fall |
| BaseRuns.ElectionSafety | src/runners/node/cycle/candidateCycle.cc:8-40 | under fresh votes at most one node is ever leader in a term, for any n |
| BaseRuns.LeaderAppendOnly | src/runners/node/cycle/leaderCycle.cc:89-97 | while it leads a term a leader only appends to its log |
| BaseRuns.LogMatching | src/runners/node/cycle/followerCycle.cc:11-42 | under fresh votes two logs with the same term at an index are equal up to it, whoever's they are and whenever |
| Replication.AcceptedEqualsSent | src/runners/node/cycle/followerCycle.cc:33-59 | under fresh votes an accepted append leaves the follower with exactly the log the sender had, leading that term, in the state in which the append entered the network |
| Truncation.TruncationHarmless | src/runners/node/cycle/followerCycle.cc:33-42 | under FIFO and fresh votes a follower that stays in a term keeps everything an accepted append of that term gave it, although each append first drops all after prevLogIndex |
| Replication.OnceAcceptedAlwaysAccepted | src/runners/node/cycle/followerCycle.cc:11-19 | in an orderly run no rejection follows an acceptance in the same term |
| Replication.AppliedOutput | src/runners/node/cycle/followerCycle.cc:61-66 | after the first accept of a leadership each further append leaves commitIndex no lower and saves exactly the entries in between, once and in order |
| Replication.MatchIndexSound | src/runners/node/cycle/leaderCycle.cc:68-70 | matchIndex[f] = m means that f has had the leader's first m + 1 entries in this term and still has them while it is in this term |
| Replication.MatchIndexMonotone | src/runners/node.hh:116-120 | from any state of a leadership to any later one, neither matchIndex for any node nor the leader's commitIndex falls |
| Replication.CommitIndexFallsExactly | src/runners/node/cycle/followerCycle.cc:66 | in any run a step lowers a node's commitIndex if and only if the node then accepts an append whose leaderCommit is below it |
| Replication.CommitIndexFallsFirst | src/runners/node/cycle/followerCycle.cc:66 | in an orderly run such an append is the first that the node accepts in its term |
| CommitFalls.CommitIndexFalls | src/runners/node.hh:128-131 | a run with every hypothesis kept in which a follower's commitIndex falls from 0 to -1 |
| CommitFalls.SavedTwice | src/runners/node/cycle/followerCycle.cc:62-65 | that run continued until the follower has saved the same entry twice |
| Bounds.IndicesInside | src/runners/node/cycle/followerCycle.cc:36-61 | with fresh acknowledgements, in every state and for every node: entry x of the log has index x and a term between 1 and the node's, commitIndex is inside the log, and a leader's matchIndex and nextIndex are too |
| Bounds.AssertionsNeverFire | src/runners/node/cycle/leaderCycle.cc:32-34 | with fresh acknowledgements, handling a message in a reachable state breaks no assertion and no bound if and only if it is not a rejection that finds nextIndex at 0 |
| Terms.LogTermsClimb | src/runners/node/cycle/leaderCycle.cc:95 | in any run entry x of a log has index x, and terms never fall along a log, start at 1 or more and end at most at the node's term |
| Appends.AppendIsSuffix | src/runners/node/cycle/leaderCycle.cc:9-19 | in any run an append on its way was sent by a leader of its term and carries all of that leader's log after prevLogIndex, as it was then, with the term of the entry there; or it starts beyond that log and is empty |
| Appends.AppendIsTrueSuffix | src/runners/node/cycle/leaderCycle.cc:9-19 | with fresh acknowledgements the second case does not arise |
| TwoRejections.RejectionAtZeroHappens | src/runners/node/cycle/leaderCycle.cc:71-74 | an orderly run whose next message is such a rejection |
| Figure8.OwnTermCommitsAreNeeded | src/runners/node/cycle/leaderCycle.cc:42-49 | an orderly run in which an old-term entry is committed by count and later overwritten, and two nodes save different entries at index 0 |
| StaleVote.FreshVotesAreNeeded | src/runners/node/cycle/candidateCycle.cc:30-39 | a run that breaks fresh votes alone and has two leaders of term 2 |
| StaleAck.FreshAcksAreNeeded | src/runners/node/cycle/leaderCycle.cc:68-70 | a run that breaks fresh acknowledgements alone, in which a leader of term 3 holds matchIndex 0 for a node that never had its entry in term 3 |
| Reordered.FifoIsNeeded | src/runners/node/cycle/followerCycle.cc:36 | a run that breaks FIFO alone and in which a follower loses an entry whose acknowledgement is under way |
| Repair.RepairConverges | src/runners/node/cycle/leaderCycle.cc:71-74 | for any two logs that match, the exchange of send, reject and step back ends at the largest nextIndex at or below the first at which the logs agree, after one rejection per step, with nextIndex never below 0 and the follower's log equal to the leader's |
| Repair.RepairInRuns | src/runners/node/cycle/leaderCycle.cc:9-19 | a leader and any node that comes to its term, in every state of every run with fresh votes and acknowledgements, are such a pair |
| NodeFacts.CommitIsOrderStatistic | src/runners/node/cycle/leaderCycle.cc:32-52 | the commit loop never lowers commitIndex, and above the old value commits exactly the indices that a majority, counting the leader, matches |
| NodeSpec.MajorityBoundsCommit | src/runners/node/cycle/leaderCycle.cc:47-51 | with two or more nodes a majority never reaches past the largest matchIndex, so the commit loop stops |
| NodeFacts.OneVotePerTerm | src/runners/node/cycle/cycle.cc:46-48 | in any run a node's term never falls and its vote never changes within a term, across roles and crashes |
| NodeFacts.OneGrantPerTerm | src/runners/node/cycle/followerCycle.cc:75-90 | in any run a node that told one candidate it has its vote in term t never has another vote in t |
| NodeFacts.VoteCountIsCardinality | src/runners/node/cycle/candidateCycle.cc:30-34 | in any run a candidate's voteCount is 1 plus the number of nodes marked in hasVotedForMe |
| NodeFacts.LeadershipIsMajority | src/runners/node/cycle/candidateCycle.cc:35-38 | a message makes a candidate leader if and only if it is a vote of a node not yet counted and the distinct granters with the candidate then pass n/2 |
| NodeFacts.LeadersAreElected | src/runners/node.cc:42-45 | no step of a run makes a node leader in any other way |
| NodeFacts.QueueHoldsOne | src/wrappers/mpi/rpcRecieverReinjecter.hh:21-23 | in any run the queue holds at most one message put back by a cycle, it is then a follower's, and resuming it leaves the queue empty (the message that start looks at and puts back is the subject of Nodes.Node.Peek) |
| NodeFacts.ReinjectionIsDirect | src/runners/node/cycle/cycle.cc:46-54 | when a candidate or leader puts a message back in one step of a run and reads it again in a later one, then whatever happened in between it ends in the state, and sends the replies, of a follower with its earlier memory that receives the message at once |
| NodeFacts.UpToDateIsPreorder | src/runners/node/cycle/followerCycle.cc:81-83 | on the logs of any run the test of the voter is the lexicographic comparison of last term and last index, -1 and -1 for empty logs, and it is total and transitive |
| NodeFacts.ElectionRestriction | src/runners/node/cycle/followerCycle.cc:81-90 | in any run a follower that has not voted in the term grants, and replies so, if and only if the candidate's last term and index are at least its own in that order |
| Refinement.StepsAreReactions | src/runners/node.cc:21-40 | in any state of a run the cluster can take a step if and only if the network, the queue, the timer, the controller or a client offers it to the node and the driver can handle it there, whatever the node's role |
| Steps.EveryOfferIsTaken | src/runners/node/cycle/cycle.cc:77-95 | with fresh acknowledgements that is every step offered, crash and recovery in any role included, but for a rejection that finds nextIndex at 0 |
| Steps.OnItsWayUntilDelivered | src/wrappers/mpi_include.cc:15-18 | in any run each message sent makes one packet, on its way from the step that sends it until the step that delivers it and never again |
| Steps.DeliveredOnce | src/wrappers/mpi_include.cc:15-18 | in any run no packet is delivered twice |
| Broadcasts.LeaderUpdatesAll | src/runners/node/cycle/leaderCycle.cc:21-30 | in any run a node that becomes leader, or a leader that times out or recovers, sends each of the n - 1 other nodes one append, in rank order, with the leader's term, rank and commitIndex and its log from that node's nextIndex on; a new leader's indices are -1 and the length of its log |
| Broadcasts.CandidateAsksAll | src/runners/node/cycle/candidateCycle.cc:8-23 | in any run a follower or candidate that times out, or a candidate that recovers, has the next term, its own vote and no other, and each of the n - 1 other nodes is sent one request with that term and the end of its log, in rank order |
| Answers.FollowersAnswer | src/runners/node/cycle/followerCycle.cc:44-115 | in any run a follower takes the higher term, answers each request with whether the sender has its vote in that term, stores exactly the appends that fit, with their commitIndex and what is to be saved, and answers these if they have entries and the others with a rejection; it sends nothing else |
| Answers.LeadersAnswer | src/runners/node/cycle/leaderCycle.cc:59-75 | in any run and for any sender a leader yields to a higher term, takes both indices from a success response, and answers a rejection, and nothing else, with one append that brings the sender the log from one index earlier |
| Answers.NodesWithoutMessage | src/runners/node/cycle/cycle.cc:67-107 | in any run a crash only takes the node down and drops what is delivered, recovery and a leader's timeout keep role, term, vote and record, and a client's command is appended by a leader alone |
| Votes.MarksAreVoters | src/runners/node/cycle/candidateCycle.cc:30-39 | in any run the marks of a candidate are exactly the senders of the granted votes that reached it in its present candidacy, other nodes all, and with itself at most n/2; a leader has had more than n/2 with itself |
| Votes.CandidatesAnswer | src/runners/node/cycle/candidateCycle.cc:25-52 | in any run a candidate marks each granted vote that comes, leads and updates all if and only if that makes a majority, yields to a higher term or to an append of its own, and otherwise waits in silence |
| Progress.NothingLeftUncommitted | src/runners/node/cycle/leaderCycle.cc:77-81 | in any state of any run, an index that a leader knows more than half the nodes, itself included, to have is not above its commitIndex |
| Progress.CommitsExactlyMajorities | src/runners/node/cycle/leaderCycle.cc:32-52 | in an orderly run, of the indices above its commitIndex at one moment of its leadership, a leader has at any later moment of it committed exactly those that a majority by matchIndex then has |
| Progress.LeadershipRecord | src/runners/node/cycle/leaderCycle.cc:54-97 | in any run, from any moment of a leadership to any later one, the log has grown by exactly one entry per client command that reached the leader, in order, and what was committed in between was saved, and answered to its clients, each entry once and in order |
| Refinement.NodeIsDriver | src/runners/node.cc:12-76 | at every point of every run a node with nothing put back has the state, the sends and the number of cycles begun that the driver of a new node has after the events that reached the node |
| Refinement.Replay | src/runners/node.cc:48-76 | a new object of class Node, started on the events of node i in a run, ends in the state that i has in the run, has sent the same messages in the same order, and has begun one cycle at the start and one after each step that ends a cycle |
| Refinement.RunIsDriver | src/runners/node.cc:12-76 | the same with a message put back, as the first of whatever comes next |
| DriverSpec.CrashedSkips | src/runners/node/cycle/cycle.cc:67-75 | a crashed node drops everything but the command to recover |
| Nodes.Node.constructor | src/runners/node.hh:60-71 | a new node has the initial abstract state and has sent nothing |
| Nodes.Node.Start | src/runners/node.cc:48-76 | the outer loop does with the whole feed exactly what the function Begin says: final state, everything sent in order, and the number of cycles |
| Nodes.Node.Update | src/runners/node.cc:12-46 | one cycle from pre_cycle to the change of state, or to the end of the feed, is a segment of Begin, and leaves less to do |
| Nodes.Node.Peek | src/runners/node.cc:53-61 | looking for a message and putting it back changes nothing that is still to come, given at most one message in the queue |
| Nodes.Node.ChangeState | src/runners/node.cc:42-45 | post_cycle and the assignment of the role give the state that the next cycle starts from |
| Nodes.Node.InitLeader | src/runners/node.cc:86-89 | every matchIndex is -1 and every nextIndex the length of the log |
| Nodes.Node.SaveCommit | src/runners/node.cc:78-84 | one entry is added at the end of what was saved |
| Nodes.Cycle.constructor | src/runners/node/cycle/candidateCycle.hh:19-22 | a new cycle has no next state, no votes and no marks |
| Nodes.Cycle.ChangeNextState | src/runners/node/cycle/cycle.cc:15-18 | the assertion that a cycle changes its next state at most once is a precondition, proved at every call |
| Nodes.Cycle.CheckAlwaysShouldStop | src/runners/node/cycle/cycle.cc:24-56 | a higher term is adopted and clears the vote; the cycle stops, with the message put back, exactly when the node was no follower |
| Nodes.Cycle.CheckEntryConsistency | src/runners/node/cycle/followerCycle.cc:11-19 | true if and only if prevLogIndex is -1 or the log has an entry of prevLogTerm there |
| Nodes.Cycle.AppendEntries | src/runners/node/cycle/followerCycle.cc:33-42 | the log becomes its part up to prevLogIndex followed by the entries, each at the index it carries |
| Nodes.Cycle.CommitUpTo | src/runners/node/cycle/followerCycle.cc:62-66 | saves the entries from the old commitIndex + 1 to leaderCommit in order and takes leaderCommit, lower or not |
| Nodes.Cycle.HandleAppendEntries | src/runners/node/cycle/followerCycle.cc:44-70 | new state and reply are those of the specification the theorems are about |
| Nodes.Cycle.HandleRequestVote | src/runners/node/cycle/followerCycle.cc:72-91 | new state and reply are those of the specification |
| Nodes.Cycle.StandForElection | src/runners/node/cycle/candidateCycle.cc:8-23 | new term, own vote, and n - 1 requests: the one to each other node at its place in rank order |
| Nodes.Cycle.CountVote | src/runners/node/cycle/candidateCycle.cc:30-51 | marks the sender of every granted vote and counts it if it was not marked, asks for leadership past n/2, yields to a leader by putting its append back |
| Nodes.Cycle.SendUpdateToFollower | src/runners/node/cycle/leaderCycle.cc:9-19 | sends the whole suffix of the log from nextIndex, with the index and term before it |
| Nodes.Cycle.SendUpdates | src/runners/node/cycle/leaderCycle.cc:21-30 | sends n - 1 appends: the one to each other node, with its own suffix, at its place in rank order |
| Nodes.Cycle.UpdateCommitIndex | src/runners/node/cycle/leaderCycle.cc:32-52 | advances by one if and only if the set of nodes that match the next index, with the leader, has more than n/2 members |
| Nodes.Cycle.CommitWhileMajority | src/runners/node/cycle/leaderCycle.cc:77-81 | the while loop ends at the index the order statistic gives, and has saved once, and answered to its client once, each entry passed, in order, and nothing else |
| Nodes.Cycle.HandleAck | src/runners/node/cycle/leaderCycle.cc:65-75 | success sets nextIndex and matchIndex of the sender; rejection steps back by one and sends again |
| Nodes.Cycle.FollowerRequest | src/runners/node/cycle/followerCycle.cc:98-114 | a follower's cycle ends with a request for its vote and with an append, and with no other message |
| Nodes.Cycle.LeaderRequest | src/runners/node/cycle/leaderCycle.cc:65-82 | a response is taken, and then all that a majority has is committed, answered and saved |
| Nodes.Cycle.HandleNodeRequest | src/runners/node/cycle/followerCycle.cc:93-115 | for each role (leaderCycle.cc:59-83 and candidateCycle.cc:25-52 as well), state, sends and next state are those of the specification, and the cycle ends exactly on: a request or an append for a follower, a higher term for a leader, and for a candidate a higher term, an append of its term or the vote that wins |
| Nodes.Cycle.HandleClientRequest | src/runners/node/cycle/leaderCycle.cc:93-96 | a leader appends the command with its index, term and client; other roles ignore it |
| Nodes.Cycle.PreCycle | src/runners/node/cycle/leaderCycle.cc:21-30 | the start of a cycle of any role has the state and sends of Enter |
| Nodes.Cycle.PostCycle | src/runners/node/cycle/candidateCycle.cc:57-63 | a timed out follower stands for election, and an elected candidate resets the index arrays |
| Nodes.Cycle.CrashLoop | src/runners/node/cycle/cycle.cc:67-75 | everything up to the command to recover is dropped, and memory is kept |
| Nodes.Cycle.HandleControllerRequest | src/runners/node/cycle/cycle.cc:88-95 | a crash command drops everything up to recovery (the case at 102-107) and then ends the cycle, and either command, given to a node that is in that condition already, changes nothing |
| Nodes.Cycle.Turn | src/runners/node.cc:21-40 | one pass of the inner loop does with the next event what React says and leaves less to do; the cycle is left exactly on an event that EndsCycle names, a timeout among them, or on a crash from which the node recovers |
| Receivers.Receiver.GetTimeout | src/wrappers/mpi/rpcRecieverReinjecter.cc:22-29 | the queue is served first, in order, and only an empty queue lets the network be read |
| Receivers.Receiver.GetBlocking | src/wrappers/mpi/rpcRecieverReinjecter.cc:5-11 | returns the first thing that is not silence, and skips nothing else |
| Receivers.Receiver.Reinject | src/wrappers/mpi/rpcRecieverReinjecter.hh:21-23 | the message goes to the end of the queue |

## Left out

- MPI, JSON and buffers: messages are typed values, and a receiver reads a given list of events in the order in which they come.
- Real time: a timeout may happen at any step, and no liveness is claimed beyond the repair of a log.
- `leaderId`, look-up of the leader, and the clients' polling: a hint that no safety claim depends on; a client request is any command that reaches a leader.
- The controller's printing and speed commands, the console and the process start: only crash and recovery are modelled.
- One node (n = 1): it can never win, since the majority is tested only when a vote arrives; every run has n >= 2.
- Integer width: terms and indices are unbounded.
- Cycle: the base class and its three subclasses are one class that acts by the role of its node, which is fixed while a cycle lives.
- PostCycle: the empty nextState that `candidateCycle.cc:60` reads when a candidate times out, or crashes and recovers (`cycle.cc:92-93`), is taken as "not leader".
- HandleNodeRequest: requires that no assertion of the program fails on the message; AssertionsNeverFire says when that is so.
- Start: the program's endless loop ends here when the list of events does.
- StateMachineSafety: false of the code without own-term commits (Figure8.OwnTermCommitsAreNeeded), so it is stated with them.
- HandleClientRequest: the reply to a look-up of the leader is not modelled, as `leaderId` is not.
- HandleControllerRequest: the commands that print the state or the log or set the speed are not modelled.
- AppliedOutput: leaves out the first append that a follower accepts from a leader, where commitIndex may fall (CommitIndexFallsExactly, CommitIndexFallsFirst).
