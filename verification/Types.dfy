/** The values that cross a node's boundary and the abstract value of one node. */
module Types {

  datatype Option<+T> = None | Some(value: T)

  datatype Role = Follower | Leader | Candidate

  /** One line of the replicated log. */
  datatype Entry = Entry(index: int, term: int, cmd: string, clientId: int)

  datatype Message =
    | RequestVote(term: int, candidateId: int, lastLogIndex: int, lastLogTerm: int)
    | RequestVoteResponse(term: int, voteGranted: bool)
    | AppendEntries(term: int, leaderId: int, prevLogIndex: int, prevLogTerm: int,
                    leaderCommit: int, entries: seq<Entry>)
    | AppendEntriesResponse(term: int, success: bool, newIndex: int)

  /** A message a node hands to the network. */
  datatype Send = Send(dst: int, msg: Message)

  /** A message in transit. Identifiers grow in the order of sending. */
  datatype Packet = Packet(id: int, src: int, dst: int, msg: Message)

  /** The fields of a node, of its current cycle (granted, voteCount), and its outputs (saved, replied). */
  datatype NodeState = NodeState(
    role: Role,
    term: int,
    votedFor: Option<int>,
    log: seq<Entry>,
    commitIndex: int,
    matchIndex: seq<int>,
    nextIndex: seq<int>,
    crashed: bool,
    queue: seq<Packet>,
    granted: seq<bool>,
    voteCount: int,
    saved: seq<Entry>,
    replied: seq<int>)
}
