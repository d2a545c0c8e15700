/** One Raft node on an uncompacted log: for every lock-held block of the implementation, the function
    from the node before to the node after. Module `RaftObject` proves the in-place methods against
    these functions; module `Cluster` runs them on a network. */
module RaftNode {
  import opened RaftLog

  /** `votedFor` when no vote has been cast in the current term. */
  const NOBODY: int := -1

  datatype Role = Follower | Candidate | Leader

  datatype Node = Node(
    role: Role,
    currentTerm: nat,
    votedFor: int,
    log: Log,
    commitIndex: nat,
    lastApplied: nat,
    nextIndex: seq<int>,
    matchIndex: seq<int>)

  datatype RequestVoteArgs = RequestVoteArgs(term: nat, candidateId: nat, lastLogIndex: nat, lastLogTerm: nat)

  datatype RequestVoteReply = RequestVoteReply(term: nat, voteGranted: bool)

  datatype AppendEntriesArgs = AppendEntriesArgs(
    term: nat, leaderId: nat, prevLogIndex: int, prevLogTerm: nat, entries: seq<Entry>, leaderCommit: nat)

  datatype AppendEntriesReply = AppendEntriesReply(
    term: nat, success: bool, conflict: bool, xTerm: int, xIndex: int, xLen: int)

  /** What `appendEntries` does for one peer: nothing, an entries message, or starting a snapshot send. */
  datatype Outgoing = Quiet | SendEntries(args: AppendEntriesArgs) | SendSnapshot

  ghost predicate Sized(nd: Node, n: nat) {
    |nd.nextIndex| == n && |nd.matchIndex| == n
  }

  function Max(a: int, b: int): int {
    if a > b then a else b
  }

  function Min(a: int, b: int): int {
    if a > b then b else a
  }

  /** `Make` on an empty persister. */
  function InitialNode(n: nat): (nd: Node)
    ensures Sized(nd, n)
  {
    Node(Follower, 0, NOBODY, [SENTINEL], 0, 0, seq(n, _ => 0), seq(n, _ => 0))
  }

  /** `Make` on the state that `nd` left in its persister. */
  function Restarted(nd: Node): (nd': Node)
    ensures Sized(nd', |nd.nextIndex|)
  {
    InitialNode(|nd.nextIndex|).(currentTerm := nd.currentTerm, votedFor := nd.votedFor, log := nd.log)
  }

  // ----- Terms and votes ---------------------------------------------------------------------------

  function SetNewTerm(nd: Node, term: nat): Node {
    if term > nd.currentTerm || nd.currentTerm == 0
    then nd.(role := Follower, currentTerm := term, votedFor := NOBODY)
    else nd
  }

  function LeaderElection(nd: Node, me: nat): Node {
    nd.(currentTerm := nd.currentTerm + 1, role := Candidate, votedFor := me)
  }

  /** The ballot sent after `LeaderElection`; `last` is the entry in the last stored slot. */
  function Ballot(nd: Node, me: nat, last: Entry): RequestVoteArgs {
    RequestVoteArgs(nd.currentTerm, me, last.index, last.term)
  }

  predicate UpToDate(args: RequestVoteArgs, last: Entry) {
    args.lastLogTerm > last.term || (args.lastLogTerm == last.term && args.lastLogIndex >= last.index)
  }

  function HandleRequestVote(nd: Node, last: Entry, args: RequestVoteArgs): (Node, RequestVoteReply) {
    var nd1 := if args.term > nd.currentTerm then SetNewTerm(nd, args.term) else nd;
    if args.term < nd1.currentTerm then
      (nd1, RequestVoteReply(nd1.currentTerm, false))
    else if (nd1.votedFor == NOBODY || nd1.votedFor == args.candidateId) && UpToDate(args, last) then
      (nd1.(votedFor := args.candidateId), RequestVoteReply(nd1.currentTerm, true))
    else
      (nd1, RequestVoteReply(nd1.currentTerm, false))
  }

  function BecomeLeader(nd: Node, me: nat, last: Entry): (nd': Node)
    ensures |nd.matchIndex| == |nd.nextIndex| ==> Sized(nd', |nd.nextIndex|)
  {
    nd.(role := Leader,
        nextIndex := seq(|nd.nextIndex|, _ => last.index + 1),
        matchIndex := seq(|nd.nextIndex|, p => if p == me then last.index else 0))
  }

  /** One vote reply; `votes` is the counter shared by the goroutines of the election `args.term`. */
  function HandleVoteReply(nd: Node, me: nat, last: Entry, votes: nat,
                           args: RequestVoteArgs, reply: RequestVoteReply): (Node, nat)
  {
    if reply.term > args.term then
      (SetNewTerm(nd, reply.term), votes)
    else if reply.term < args.term || !reply.voteGranted then
      (nd, votes)
    else if votes + 1 > |nd.nextIndex| / 2 && nd.currentTerm == args.term && nd.role == Candidate then
      (BecomeLeader(nd, me, last), votes + 1)
    else
      (nd, votes + 1)
  }

  // ----- Leader side -------------------------------------------------------------------------------

  function Start(nd: Node, command: Command): Node {
    if nd.role == Leader
    then nd.(log := nd.log + [Entry(command, nd.currentTerm, |nd.log|)])
    else nd
  }

  /** `appendEntries` for one peer, when the log is compacted up to `base`. */
  function MessageFor(nd: Node, base: nat, me: nat, peer: nat, heartbeat: bool): Outgoing
    requires peer < |nd.nextIndex| && base <= LastIndex(nd.log)
  {
    var next := nd.nextIndex[peer];
    if next - 1 < base then
      SendSnapshot
    else if LastIndex(nd.log) >= next || heartbeat then
      var prev := Min(next - 1, LastIndex(nd.log));
      var entries := if LastIndex(nd.log) >= next then nd.log[next..] else [];
      SendEntries(AppendEntriesArgs(nd.currentTerm, me, prev, nd.log[prev].term, entries, nd.commitIndex))
    else
      Quiet
  }

  /** The last index above `base` whose entry has term `x`, scanning down from `i` and giving up at the
      first smaller term; -1 if the scan finds none. */
  function FindLastLogInTerm(log: seq<Entry>, x: int, base: nat, i: nat): int
    requires i < |log|
  {
    if i <= base then -1
    else if log[i].term == x then i
    else if log[i].term < x then -1
    else FindLastLogInTerm(log, x, base, i - 1)
  }

  /** `nextIndex` after a reply that reports a conflict. */
  function NextAfterConflict(nd: Node, base: nat, reply: AppendEntriesReply): int {
    if reply.xTerm == -1 then
      reply.xLen
    else
      var hint := FindLastLogInTerm(nd.log, reply.xTerm, base, LastIndex(nd.log));
      if hint > 0 then hint else reply.xIndex
  }

  /** The servers that hold entry `n` as far as the leader knows: itself and the peers it has matched. */
  function Replicas(nd: Node, me: nat, n: nat): set<nat> {
    set p: nat | p < |nd.matchIndex| && (p == me || nd.matchIndex[p] >= n)
  }

  /** A strict majority holds entry `n` and, under the commit guard, it is stored above the snapshot and of
      the current term. */
  predicate Committable(nd: Node, base: nat, me: nat, guard: bool, n: nat)
    requires n < |nd.log|
  {
    && (guard ==> base < n && nd.log[n].term == nd.currentTerm)
    && |Replicas(nd, me, n)| > |nd.matchIndex| / 2
  }

  /** The greatest committable index in (low, high], or `low` if there is none. */
  function HighestCommittable(nd: Node, base: nat, me: nat, guard: bool, low: nat, high: nat): nat
    requires high < |nd.log|
  {
    if high <= low then low
    else if Committable(nd, base, me, guard, high) then high
    else HighestCommittable(nd, base, me, guard, low, high - 1)
  }

  function LeaderCommitRule(nd: Node, base: nat, me: nat, guard: bool): Node {
    if nd.role == Leader
    then nd.(commitIndex := HighestCommittable(nd, base, me, guard, nd.commitIndex, LastIndex(nd.log)))
    else nd
  }

  /** The reply's effect on `nextIndex` and `matchIndex`. */
  function Acknowledge(nd: Node, base: nat, peer: nat, args: AppendEntriesArgs, reply: AppendEntriesReply): (nd': Node)
    requires peer < |nd.nextIndex| && peer < |nd.matchIndex|
    ensures Sized(nd', |nd.nextIndex|) <==> |nd.matchIndex| == |nd.nextIndex|
  {
    if reply.success then
      var matched := args.prevLogIndex + |args.entries|;
      nd.(nextIndex := nd.nextIndex[peer := Max(nd.nextIndex[peer], matched + 1)],
          matchIndex := nd.matchIndex[peer := Max(nd.matchIndex[peer], matched)])
    else if reply.conflict then
      nd.(nextIndex := nd.nextIndex[peer := NextAfterConflict(nd, base, reply)])
    else if nd.nextIndex[peer] > 1 then
      nd.(nextIndex := nd.nextIndex[peer := nd.nextIndex[peer] - 1])
    else
      nd
  }

  function HandleAppendReply(nd: Node, base: nat, me: nat, guard: bool, peer: nat,
                             args: AppendEntriesArgs, reply: AppendEntriesReply): (nd': Node)
    requires peer < |nd.nextIndex| && peer < |nd.matchIndex|
  {
    if reply.term > nd.currentTerm then
      SetNewTerm(nd, reply.term)
    else if args.term == nd.currentTerm then
      LeaderCommitRule(Acknowledge(nd, base, peer, args, reply), base, me, guard)
    else
      nd
  }

  // ----- Follower side -----------------------------------------------------------------------------

  /** The first index of the run of entries of term `x` that ends at `i`; 0 if the run reaches slot 0. */
  function FirstOfRun(log: seq<Entry>, x: nat, i: nat): nat
    requires i < |log|
  {
    if i == 0 then 0
    else if log[i - 1].term != x then i
    else FirstOfRun(log, x, i - 1)
  }

  /** The log after the write of an accepted message: everything after `prev` is replaced. */
  function Overwrite(log: Log, prev: nat, entries: seq<Entry>): Log
    requires prev < |log|
  {
    log[..prev + 1] + entries
  }

  function HandleAppendEntries(nd: Node, args: AppendEntriesArgs): (Node, AppendEntriesReply) {
    var refused := AppendEntriesReply(nd.currentTerm, false, false, 0, 0, 0);
    if args.term > nd.currentTerm then
      (SetNewTerm(nd, args.term), refused)
    else if args.term < nd.currentTerm then
      (nd, refused)
    else
      var nd1 := if nd.role == Candidate then nd.(role := Follower) else nd;
      if 0 > args.prevLogIndex then
        (nd1, refused.(xIndex := 1))
      else if LastIndex(nd.log) < args.prevLogIndex then
        (nd1, refused.(conflict := true, xTerm := -1, xIndex := -1, xLen := LastIndex(nd.log)))
      else if nd.log[args.prevLogIndex].term != args.prevLogTerm then
        var xTerm := nd.log[args.prevLogIndex].term;
        (nd1, refused.(conflict := true, xTerm := xTerm,
                       xIndex := FirstOfRun(nd.log, xTerm, args.prevLogIndex), xLen := LastIndex(nd.log)))
      else
        var log' := Overwrite(nd.log, args.prevLogIndex, args.entries);
        var commit' := if args.leaderCommit > nd.commitIndex
                       then Min(args.leaderCommit, LastIndex(log'))
                       else nd.commitIndex;
        (nd1.(log := log', commitIndex := commit'), refused.(success := true))
  }

  // ----- Snapshots of an uncompacted node ----------------------------------------------------------

  /** `InstallSnapShot` when the snapshot covers no more than the receiver's own: only the term, the role
      and the vote change. The code clears the vote even in the same term; `keepVote` is the rule that
      a vote is cleared only with a new term. */
  function HandleEmptySnapshot(nd: Node, keepVote: bool, term: nat): (Node, nat) {
    if nd.currentTerm > term then
      (nd, nd.currentTerm)
    else
      (nd.(currentTerm := term, role := Follower,
           votedFor := if keepVote && nd.currentTerm == term then nd.votedFor else NOBODY), term)
  }

  /** The sender's half of a snapshot exchange that covers up to `covered`. */
  function HandleSnapshotReply(nd: Node, keepVote: bool, peer: nat, term: nat, covered: nat, replyTerm: nat): Node
    requires peer < |nd.nextIndex| && peer < |nd.matchIndex|
  {
    if nd.role != Leader || nd.currentTerm != term then
      nd
    else if replyTerm > nd.currentTerm then
      nd.(role := Follower, votedFor := if keepVote then nd.votedFor else NOBODY)
    else
      nd.(matchIndex := nd.matchIndex[peer := covered], nextIndex := nd.nextIndex[peer := covered + 1])
  }

  // ----- Applying ----------------------------------------------------------------------------------

  predicate CanApply(nd: Node) {
    nd.commitIndex > nd.lastApplied && LastIndex(nd.log) > nd.lastApplied
  }

  /** One turn of `applier`: the node after it; the command sent is `log[lastApplied + 1]`. */
  function ApplyNext(nd: Node): Node {
    nd.(lastApplied := nd.lastApplied + 1)
  }
}
