/**
  What a run leaves behind, written down beside the cluster. No node reads it.
    lead     for each term with a leader: who, elected by whom, its log at election and its log now
    ballots  for each term and voter: the candidate voted for and the voter's log at that moment
    bids     for each term and candidate: the candidate's log when it asked for votes
 */
module History {
  import opened Types
  import opened NodeSpec

  datatype Key = Key(term: int, node: int)
  datatype Lead = Lead(leader: int, quorum: set<int>, elected: seq<Entry>, log: seq<Entry>)
  datatype Ballot = Ballot(cand: int, log: seq<Entry>)
  datatype History = History(lead: map<int, Lead>, ballots: map<Key, Ballot>, bids: map<Key, seq<Entry>>)

  const EMPTY := History(map[], map[], map[])

  ghost predicate IsQuorum(n: int, q: set<int>) {
    |q| > n / 2 && forall v | v in q :: 0 <= v < n
  }

  function Voters(n: int, h: History, t: int, cand: int): set<int> {
    set v | 0 <= v < n && Key(t, v) in h.ballots && h.ballots[Key(t, v)].cand == cand
  }

  /** The history after node i has gone from s to s'. */
  function Observe(n: int, i: int, s: NodeState, s': NodeState, h: History): History {
    var key := Key(s'.term, i);
    if s'.role == Candidate && s'.term > s.term then
      h.(bids := h.bids[key := s'.log], ballots := h.ballots[key := Ballot(i, s'.log)])
    else if s'.votedFor.Some? && (s'.term > s.term || s.votedFor.None?) then
      h.(ballots := h.ballots[key := Ballot(s'.votedFor.value, s'.log)])
    else if s'.role == Leader && s.role != Leader then
      h.(lead := h.lead[s'.term := Lead(i, Voters(n, h, s'.term, i), s'.log, s'.log)])
    else if s'.role == Leader && s'.term in h.lead && s'.log != h.lead[s'.term].log then
      h.(lead := h.lead[s'.term := h.lead[s'.term].(log := s'.log)])
    else
      h
  }

  // ---------------------------------------------------------------- logs against the history

  ghost predicate Numbered(log: seq<Entry>, maxTerm: int) {
    forall k | 0 <= k < |log| :: log[k].index == k && 1 <= log[k].term <= maxTerm
  }

  /** Up to index k, the log is what the leader of that entry's term had. */
  ghost predicate CoveredAt(h: History, log: seq<Entry>, k: int)
    requires 0 <= k < |log|
  {
    log[k].term in h.lead && log[..k + 1] <= h.lead[log[k].term].log
  }

  ghost predicate Covered(h: History, log: seq<Entry>) {
    forall k {:trigger CoveredAt(h, log, k)} | 0 <= k < |log| :: CoveredAt(h, log, k)
  }

  /** The election restriction between a candidate's log and a voter's. */
  predicate UpToDate(cand: seq<Entry>, voter: seq<Entry>) {
    Grants(voter, |cand| - 1, LastTerm(cand))
  }

  // ---------------------------------------------------------------- invariants of the history

  ghost predicate Voted(h: History, t: int, v: int, cand: int) {
    Key(t, v) in h.ballots && h.ballots[Key(t, v)].cand == cand
  }

  ghost predicate LeadOk(n: int, h: History, t: int)
    requires t in h.lead
  {
    var l := h.lead[t];
    && 1 <= t
    && 0 <= l.leader < n
    && IsQuorum(n, l.quorum)
    && (forall v | v in l.quorum :: Voted(h, t, v, l.leader))
    && l.elected <= l.log
    && Numbered(l.elected, t - 1)
    && Numbered(l.log, t)
    && (forall k | |l.elected| <= k < |l.log| :: l.log[k].term == t)
    && Covered(h, l.log)
    && Key(t, l.leader) in h.bids
    && h.bids[Key(t, l.leader)] == l.elected
  }

  ghost predicate BallotOk(h: History, key: Key)
    requires key in h.ballots
  {
    var b := h.ballots[key];
    && Key(key.term, b.cand) in h.bids
    && UpToDate(h.bids[Key(key.term, b.cand)], b.log)
    && Covered(h, b.log)
    && Numbered(b.log, key.term)
  }

  ghost predicate BidOk(h: History, key: Key)
    requires key in h.bids
  {
    1 <= key.term && Covered(h, h.bids[key]) && Numbered(h.bids[key], key.term - 1)
  }

  ghost predicate HistoryOk(n: int, h: History) {
    && (forall t {:trigger LeadOk(n, h, t)} | t in h.lead :: LeadOk(n, h, t))
    && (forall key {:trigger BallotOk(h, key)} | key in h.ballots :: BallotOk(h, key))
    && (forall key {:trigger BidOk(h, key)} | key in h.bids :: BidOk(h, key))
  }

  /** From h to h' only node i acted: nothing is forgotten and only its own records are new. */
  ghost predicate Grows(h: History, h': History, i: int) {
    && Extends(h, h')
    && (forall t | t in h'.lead :: t in h.lead || h'.lead[t].leader == i)
    && (forall t | t in h.lead && h.lead[t].leader != i :: h'.lead[t] == h.lead[t])
    && (forall key | key in h'.ballots :: key in h.ballots || key.node == i)
    && (forall key | key in h'.bids :: key in h.bids || key.node == i)
  }

  ghost predicate Extends(h: History, h': History) {
    && (forall t | t in h.lead ::
          && t in h'.lead
          && h'.lead[t].leader == h.lead[t].leader
          && h'.lead[t].quorum == h.lead[t].quorum
          && h'.lead[t].elected == h.lead[t].elected
          && h.lead[t].log <= h'.lead[t].log)
    && (forall key | key in h.ballots :: key in h'.ballots && h'.ballots[key] == h.ballots[key])
    && (forall key | key in h.bids :: key in h'.bids && h'.bids[key] == h.bids[key])
  }

  // ---------------------------------------------------------------- invariants of nodes and messages

  function GrantedSet(granted: seq<bool>): set<int> {
    set v | 0 <= v < |granted| && granted[v]
  }

  ghost predicate LogOk(s: NodeState, h: History) {
    s.term >= 0 && Covered(h, s.log) && Numbered(s.log, s.term)
  }

  /** votedFor is the record of the present term, and no record lies in a later term. */
  ghost predicate VoteOk(i: int, s: NodeState, h: History) {
    && (s.votedFor.Some? ==> Voted(h, s.term, i, s.votedFor.value))
    && (s.votedFor.None? ==> Key(s.term, i) !in h.ballots)
    && (forall key | key in h.ballots && key.node == i :: key.term <= s.term)
    && (forall key | key in h.bids && key.node == i :: key.term <= s.term)
  }

  ghost predicate CandidateOk(i: int, s: NodeState, h: History) {
    s.role == Candidate ==>
      && Key(s.term, i) in h.bids
      && h.bids[Key(s.term, i)] == s.log
      && s.votedFor == Some(i)
      && (s.term in h.lead ==> h.lead[s.term].leader != i)
      && (0 <= i < |s.granted| ==> !s.granted[i])
      && s.voteCount == 1 + |GrantedSet(s.granted)|
      && (forall v | 0 <= v < |s.granted| && s.granted[v] :: Voted(h, s.term, v, i))
  }

  ghost predicate LeaderOk(i: int, s: NodeState, h: History) {
    s.role == Leader ==>
      s.term in h.lead && h.lead[s.term].leader == i && h.lead[s.term].log == s.log
  }

  /** An append is a slice of its term's leader log that reaches the end that log had at sending. */
  ghost predicate SliceOk(h: History, m: Message)
    requires m.AppendEntries? && m.term in h.lead
  {
    var l := h.lead[m.term];
    && m.prevLogIndex >= -1
    && |l.elected| <= Total(m) <= |l.log|
    && (forall x {:trigger m.entries[x]} | 0 <= x < |m.entries| :: m.entries[x] == l.log[m.prevLogIndex + 1 + x])
    && (m.prevLogIndex >= 0 ==> m.prevLogTerm == l.log[m.prevLogIndex].term)
  }

  /** An append built from a nextIndex beyond the leader's log; no follower accepts it. */
  ghost predicate BeyondLog(m: Message)
    requires m.AppendEntries?
  {
    m.prevLogIndex >= 0 && m.prevLogTerm == 0 && m.entries == []
  }

  ghost predicate MessageOk(n: int, h: History, src: int, dst: int, m: Message) {
    && 0 <= src < n
    && 0 <= dst < n
    && src != dst
    && match m
       case RequestVote(t, _, lastIndex, lastTerm) =>
         Key(t, src) in h.bids && lastIndex == |h.bids[Key(t, src)]| - 1 && lastTerm == LastTerm(h.bids[Key(t, src)])
       case RequestVoteResponse(t, granted) => granted ==> Voted(h, t, src, dst)
       case AppendEntries(t, _, _, _, _, _) =>
         t in h.lead && src == h.lead[t].leader && (SliceOk(h, m) || BeyondLog(m))
       case AppendEntriesResponse(t, success, newIndex) =>
         success ==> t in h.lead && 1 <= newIndex <= |h.lead[t].log|
  }

  ghost predicate NodeOk(n: int, i: int, s: NodeState, h: History) {
    && Shaped(n, i, s)
    && (forall f | 0 <= f < n :: s.nextIndex[f] >= 0)
    && LogOk(s, h)
    && VoteOk(i, s, h)
    && CandidateOk(i, s, h)
    && LeaderOk(i, s, h)
    && (forall p | p in s.queue :: p.dst == i && MessageOk(n, h, p.src, i, p.msg))
  }
}
