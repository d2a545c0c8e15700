/** What each operation of one node answers and changes, for all its inputs, in terms of the node's fields and
    the message alone. Safety over runs leaves some of these answers open: it never needs a message to be
    sent, a vote to be granted or an old leader to be told. */
module Operations {
  import opened RaftLog
  import opened RaftNode
  import opened Invariants
  import opened Claims

  /** The node follows in the later `term`, without a vote, and keeps everything else. */
  ghost predicate Deposed(nd: Node, nd': Node, term: nat) {
    && nd'.role == Follower && nd'.currentTerm == term && nd'.votedFor == NOBODY
    && SameRecord(nd, nd') && nd'.commitIndex == nd.commitIndex
    && nd'.nextIndex == nd.nextIndex && nd'.matchIndex == nd.matchIndex
  }

  /** The log and what has been applied of it. */
  ghost predicate SameRecord(nd: Node, nd': Node) {
    nd'.log == nd.log && nd'.lastApplied == nd.lastApplied
  }

  // ----- Votes -------------------------------------------------------------------------------------

  /** The ballot that a server whose last entry is `last` sends in `term`. */
  function BallotOf(term: nat, candidate: nat, last: Entry): RequestVoteArgs {
    RequestVoteArgs(term, candidate, last.index, last.term)
  }

  /** Of any two last entries at least one is up to date for the other, and both are only if their terms and
      indices are equal. */
  lemma UpToDateTotal(a: Entry, b: Entry, t: nat, c: nat)
    ensures UpToDate(BallotOf(t, c, a), b) || UpToDate(BallotOf(t, c, b), a)
    ensures UpToDate(BallotOf(t, c, a), b) && UpToDate(BallotOf(t, c, b), a) <==> a.term == b.term && a.index == b.index
  {
  }

  lemma UpToDateTransitive(a: Entry, b: Entry, d: Entry, t: nat, c: nat)
    requires UpToDate(BallotOf(t, c, a), b) && UpToDate(BallotOf(t, c, b), d)
    ensures UpToDate(BallotOf(t, c, a), d)
  {
  }

  /** A vote is granted exactly to the first candidate of a term that asks, or again to the same one, if its
      last entry is of a later term, or of the same term and not before the voter's. */
  lemma VoteAnswered(nd: Node, last: Entry, args: RequestVoteArgs)
    ensures var (nd', reply) := HandleRequestVote(nd, last, args);
            && reply.term == nd'.currentTerm == Max(nd.currentTerm, args.term)
            && (reply.voteGranted <==>
                  && args.term >= nd.currentTerm
                  && (args.term > nd.currentTerm || nd.votedFor == NOBODY || nd.votedFor == args.candidateId)
                  && last.term <= args.lastLogTerm
                  && (last.term == args.lastLogTerm ==> last.index <= args.lastLogIndex))
            && nd'.votedFor == (if reply.voteGranted then args.candidateId
                                else if args.term > nd.currentTerm then NOBODY else nd.votedFor)
            && nd'.role == (if args.term > nd.currentTerm then Follower else nd.role)
            && SameRecord(nd, nd') && nd'.commitIndex == nd.commitIndex
            && nd'.nextIndex == nd.nextIndex && nd'.matchIndex == nd.matchIndex
  {
  }

  /** A voter of an earlier term grants the ballot of every log that extends its own. */
  lemma ExtensionElectable(nd: Node, log: Log, term: nat, candidate: nat)
    requires nd.currentTerm < term && nd.log <= log && Indexed(log) && Sorted(log)
    ensures var (nd', reply) := HandleRequestVote(nd, Last(nd.log), BallotOf(term, candidate, Last(log)));
            && reply == RequestVoteReply(term, true)
            && nd'.votedFor == candidate && nd'.currentTerm == term && nd'.log == nd.log
  {
    assert Last(nd.log) == log[|nd.log| - 1];
    LastIsGreatest(log, |nd.log| - 1);
  }

  /** A vote reply: a later term ends the candidacy; a granted vote is counted; the vote that makes a strict
      majority makes a candidate of that term, and nobody else, the leader. */
  lemma VoteCounted(nd: Node, me: nat, last: Entry, votes: nat, args: RequestVoteArgs, reply: RequestVoteReply)
    requires |nd.matchIndex| == |nd.nextIndex|
    ensures var (nd', votes') := HandleVoteReply(nd, me, last, votes, args, reply);
            var counted := reply.term == args.term && reply.voteGranted;
            var wins := counted && 2 * (votes + 1) > |nd.nextIndex|
                        && nd.currentTerm == args.term && nd.role == Candidate;
            && (reply.term > args.term && reply.term > nd.currentTerm ==> Deposed(nd, nd', reply.term))
            && votes' == (if counted then votes + 1 else votes)
            && (wins ==>
                  && nd'.role == Leader && nd'.currentTerm == nd.currentTerm && nd'.votedFor == nd.votedFor
                  && SameRecord(nd, nd') && nd'.commitIndex == nd.commitIndex
                  && Sized(nd', |nd.nextIndex|)
                  && forall p :: 0 <= p < |nd'.nextIndex| ==>
                       && nd'.nextIndex[p] == last.index + 1
                       && nd'.matchIndex[p] == if p == me then last.index else 0)
            && (!wins && !(reply.term > args.term && reply.term > nd.currentTerm) ==> nd' == nd)
  {
  }

  /** A timeout forgets nothing, and the new candidate's own ballot is one that it would grant. */
  lemma CandidacyStarted(nd: Node, me: nat)
    ensures var nd' := LeaderElection(nd, me);
            && nd'.role == Candidate && nd'.currentTerm == nd.currentTerm + 1
            && SameRecord(nd, nd') && nd'.commitIndex == nd.commitIndex
            && nd'.nextIndex == nd.nextIndex && nd'.matchIndex == nd.matchIndex
            && HandleRequestVote(nd', Last(nd.log), Ballot(nd', me, Last(nd.log)))
               == (nd', RequestVoteReply(nd.currentTerm + 1, true))
  {
  }

  /** A restart keeps what is durable and nothing else. */
  lemma RestartForgets(nd: Node)
    ensures var nd' := Restarted(nd);
            && nd'.currentTerm == nd.currentTerm && nd'.votedFor == nd.votedFor && nd'.log == nd.log
            && nd'.role == Follower && nd'.commitIndex == 0 && nd'.lastApplied == 0
            && |nd'.nextIndex| == |nd'.matchIndex| == |nd.nextIndex|
            && forall p :: 0 <= p < |nd.nextIndex| ==> nd'.nextIndex[p] == nd'.matchIndex[p] == 0
  {
  }

  // ----- Messages of a leader ----------------------------------------------------------------------

  /** Which message goes out: a snapshot exactly to a peer whose next entry is not stored any more, nothing
      exactly to an up-to-date peer outside a heartbeat, and otherwise everything from the next entry on. */
  lemma MessageChosen(nd: Node, base: nat, me: nat, peer: nat, heartbeat: bool)
    requires peer < |nd.nextIndex| && base <= LastIndex(nd.log)
    ensures var m := MessageFor(nd, base, me, peer, heartbeat);
            var next := nd.nextIndex[peer];
            && (m.SendSnapshot? <==> next <= base)
            && (m.Quiet? <==> next > base && next > LastIndex(nd.log) && !heartbeat)
            && (m.SendEntries? ==>
                  && m.args.term == nd.currentTerm && m.args.leaderId == me && m.args.leaderCommit == nd.commitIndex
                  && m.args.prevLogIndex == (if next <= LastIndex(nd.log) then next - 1 else LastIndex(nd.log))
                  && m.args.prevLogTerm == nd.log[m.args.prevLogIndex].term
                  && m.args.entries == nd.log[m.args.prevLogIndex + 1..])
  {
    assert nd.log[|nd.log|..] == [];
  }

  // ----- Replies to a leader -----------------------------------------------------------------------

  /** `j` is the last index above `base` with term `x`. */
  ghost predicate LastOfTerm(log: seq<Entry>, x: int, base: nat, j: int) {
    && base < j < |log| && log[j].term == x
    && forall l :: j < l < |log| ==> log[l].term != x
  }

  ghost predicate HasTerm(log: seq<Entry>, x: int, base: nat) {
    exists j :: base < j < |log| && log[j].term == x
  }

  /** Only `commitIndex` and the two entries of `peer` may change. */
  ghost predicate OnlyPeer(nd: Node, nd': Node, peer: nat) {
    && nd'.role == nd.role && nd'.currentTerm == nd.currentTerm && nd'.votedFor == nd.votedFor
    && SameRecord(nd, nd')
    && |nd'.nextIndex| == |nd.nextIndex| && |nd'.matchIndex| == |nd.matchIndex|
    && (forall p :: 0 <= p < |nd.nextIndex| && p != peer ==> nd'.nextIndex[p] == nd.nextIndex[p])
    && (forall p :: 0 <= p < |nd.matchIndex| && p != peer ==> nd'.matchIndex[p] == nd.matchIndex[p])
  }

  /** A reply of a later term deposes; a reply to a message of another term is ignored. */
  lemma ReplyOfOtherTerm(nd: Node, base: nat, me: nat, guard: bool, peer: nat,
                         args: AppendEntriesArgs, reply: AppendEntriesReply)
    requires peer < |nd.nextIndex| && peer < |nd.matchIndex|
    ensures var nd' := HandleAppendReply(nd, base, me, guard, peer, args, reply);
            && (reply.term > nd.currentTerm ==> Deposed(nd, nd', reply.term))
            && (reply.term <= nd.currentTerm && args.term != nd.currentTerm ==> nd' == nd)
  {
  }

  /** A reply to a message of the current term moves `nextIndex` and `matchIndex` of its sender alone: a
      success up to what the message carried, never back; a conflict to the follower's last index, to the
      leader's last entry of the conflicting term, or to the first entry of the follower's run; a plain
      refusal back by one, never below 1. */
  lemma ReplyOfThisTerm(nd: Node, base: nat, me: nat, guard: bool, peer: nat,
                        args: AppendEntriesArgs, reply: AppendEntriesReply)
    requires peer < |nd.nextIndex| && peer < |nd.matchIndex| && Sorted(nd.log)
    requires reply.term <= nd.currentTerm && args.term == nd.currentTerm
    ensures var nd' := HandleAppendReply(nd, base, me, guard, peer, args, reply);
            var carried := args.prevLogIndex + |args.entries|;
            && OnlyPeer(nd, nd', peer)
            && (reply.success ==>
                  && nd'.matchIndex[peer] == Max(nd.matchIndex[peer], carried)
                  && nd'.nextIndex[peer] == Max(nd.nextIndex[peer], carried + 1))
            && (!reply.success ==> nd'.matchIndex[peer] == nd.matchIndex[peer])
            && (!reply.success && reply.conflict && reply.xTerm == -1 ==> nd'.nextIndex[peer] == reply.xLen)
            && (!reply.success && reply.conflict && reply.xTerm != -1 ==>
                  if HasTerm(nd.log, reply.xTerm, base)
                  then LastOfTerm(nd.log, reply.xTerm, base, nd'.nextIndex[peer])
                  else nd'.nextIndex[peer] == reply.xIndex)
            && (!reply.success && !reply.conflict ==>
                  nd'.nextIndex[peer] == if nd.nextIndex[peer] > 1 then nd.nextIndex[peer] - 1 else nd.nextIndex[peer])
  {
    if !reply.success && reply.conflict && reply.xTerm != -1 {
      FindLastComplete(nd.log, reply.xTerm, base, LastIndex(nd.log));
    }
  }

  /** Entry `j` is held by more than half of the servers, the leader and those that have matched it, and under
      the guard it is stored and of the leader's term. */
  ghost predicate HeldByMajority(nd: Node, base: nat, me: nat, guard: bool, j: int) {
    && 0 <= j < |nd.log|
    && (guard ==> j > base && nd.log[j].term == nd.currentTerm)
    && 2 * |set p: nat | p < |nd.matchIndex| && (p == me || nd.matchIndex[p] >= j)| > |nd.matchIndex|
  }

  /** After any reply of this term, a leader's commit index is the greatest index that a majority holds, if
      that is above the old one; anyone else's does not move. */
  lemma ReplyCommitsGreatest(nd: Node, base: nat, me: nat, guard: bool, peer: nat,
                             args: AppendEntriesArgs, reply: AppendEntriesReply)
    requires peer < |nd.nextIndex| && peer < |nd.matchIndex|
    requires reply.term <= nd.currentTerm && args.term == nd.currentTerm
    ensures var nd' := HandleAppendReply(nd, base, me, guard, peer, args, reply);
            && (nd.role != Leader ==> nd'.commitIndex == nd.commitIndex)
            && (nd'.commitIndex != nd.commitIndex ==>
                  nd'.commitIndex > nd.commitIndex && HeldByMajority(nd', base, me, guard, nd'.commitIndex))
            && (nd.role == Leader ==>
                  forall j: nat :: HeldByMajority(nd', base, me, guard, j) ==> j <= nd'.commitIndex)
  {
    var nd1 := Acknowledge(nd, base, peer, args, reply);
    if nd.role == Leader {
      var nd' := LeaderCommitRule(nd1, base, me, guard);
      CommitRuleIsGreatest(nd1, base, me, guard);
      forall j: nat | j < |nd.log|
        ensures HeldByMajority(nd', base, me, guard, j) <==> Committable(nd1, base, me, guard, j)
      {
        assert Replicas(nd1, me, j) == set p: nat | p < |nd'.matchIndex| && (p == me || nd'.matchIndex[p] >= j);
      }
    }
  }

  // ----- Messages of a leader, at the follower ------------------------------------------------------

  /** The reply carries the receiver's term before the message, so an old leader learns of a later one. */
  lemma EntriesTerm(nd: Node, args: AppendEntriesArgs)
    ensures var (nd', reply) := HandleAppendEntries(nd, args);
            && reply.term == nd.currentTerm && nd'.currentTerm == Max(nd.currentTerm, args.term)
            && (args.term > nd.currentTerm ==> Deposed(nd, nd', args.term))
            && (args.term < nd.currentTerm ==> nd' == nd)
            && (args.term != nd.currentTerm ==> !reply.success && !reply.conflict)
  {
  }

  /** A message of this term: accepted exactly if the receiver has an entry of the previous term at the
      previous index; a candidate gives way in any case. */
  lemma EntriesAnswered(nd: Node, args: AppendEntriesArgs)
    requires args.term == nd.currentTerm
    ensures var (nd', reply) := HandleAppendEntries(nd, args);
            var prev := args.prevLogIndex;
            && nd'.role == (if nd.role == Candidate then Follower else nd.role)
            && nd'.votedFor == nd.votedFor && nd'.lastApplied == nd.lastApplied
            && nd'.nextIndex == nd.nextIndex && nd'.matchIndex == nd.matchIndex
            && (reply.success <==> 0 <= prev < |nd.log| && nd.log[prev].term == args.prevLogTerm)
            && (reply.success ==>
                  && !reply.conflict
                  && |nd'.log| == prev + 1 + |args.entries|
                  && nd'.log[..prev + 1] == nd.log[..prev + 1] && nd'.log[prev + 1..] == args.entries
                  && nd'.commitIndex == (if args.leaderCommit <= nd.commitIndex then nd.commitIndex
                                         else if args.leaderCommit < |nd'.log| then args.leaderCommit
                                         else LastIndex(nd'.log)))
            && (!reply.success ==> nd'.log == nd.log && nd'.commitIndex == nd.commitIndex)
            && (reply.conflict <==> !reply.success && prev >= 0)
  {
    if HandleAppendEntries(nd, args).1.success {
      var log' := nd.log[..args.prevLogIndex + 1] + args.entries;
      assert log'[..args.prevLogIndex + 1] == nd.log[..args.prevLogIndex + 1];
      assert log'[args.prevLogIndex + 1..] == args.entries;
    }
  }

  /** What a conflict reports: that the log is too short and its last index, or the term found at the
      previous index and the first index of the run of entries of that term. */
  lemma ConflictReported(nd: Node, args: AppendEntriesArgs)
    requires HandleAppendEntries(nd, args).1.conflict
    ensures var reply := HandleAppendEntries(nd, args).1;
            var prev := args.prevLogIndex;
            && reply.xLen == LastIndex(nd.log)
            && (prev > LastIndex(nd.log) ==> reply.xTerm == -1)
            && (prev <= LastIndex(nd.log) ==>
                  && reply.xTerm == nd.log[prev].term
                  && 0 <= reply.xIndex <= prev
                  && (forall j :: reply.xIndex <= j <= prev ==> nd.log[j].term == reply.xTerm)
                  && (reply.xIndex > 0 ==> nd.log[reply.xIndex - 1].term != reply.xTerm))
  {
    if args.prevLogIndex <= LastIndex(nd.log) {
      RunStarts(nd.log, nd.log[args.prevLogIndex].term, args.prevLogIndex);
    }
  }

  lemma {:induction false} RunStarts(log: seq<Entry>, x: nat, i: nat)
    requires i < |log| && log[i].term == x
    ensures var j := FirstOfRun(log, x, i);
            && 0 <= j <= i && (forall l :: j <= l <= i ==> log[l].term == x)
            && (j > 0 ==> log[j - 1].term != x)
  {
    if i > 0 && log[i - 1].term == x {
      RunStarts(log, x, i - 1);
    }
  }

  // ----- Snapshots ---------------------------------------------------------------------------------

  /** The receiver of a snapshot that it does not need: it answers with its term after the message. */
  lemma SnapshotAnswered(nd: Node, keepVote: bool, term: nat)
    ensures var (nd', replyTerm) := HandleEmptySnapshot(nd, keepVote, term);
            && replyTerm == nd'.currentTerm == Max(nd.currentTerm, term)
            && (term < nd.currentTerm ==> nd' == nd)
            && (term > nd.currentTerm ==> Deposed(nd, nd', term))
            && (term == nd.currentTerm ==>
                  && nd'.role == Follower && nd'.votedFor == (if keepVote then nd.votedFor else NOBODY)
                  && SameRecord(nd, nd') && nd'.commitIndex == nd.commitIndex
                  && nd'.nextIndex == nd.nextIndex && nd'.matchIndex == nd.matchIndex)
  {
  }

  /** After a success the sender goes on right after the snapshot: its next message starts at the index that
      the snapshot covers and carries everything above it. */
  lemma SnapshotAcknowledged(nd: Node, keepVote: bool, me: nat, peer: nat, covered: nat, replyTerm: nat)
    requires peer < |nd.nextIndex| && peer < |nd.matchIndex| && nd.role == Leader
    requires replyTerm <= nd.currentTerm && covered <= LastIndex(nd.log)
    ensures var nd' := HandleSnapshotReply(nd, keepVote, peer, nd.currentTerm, covered, replyTerm);
            var m := MessageFor(nd', covered, me, peer, true);
            && OnlyPeer(nd, nd', peer) && nd'.commitIndex == nd.commitIndex
            && nd'.matchIndex[peer] == covered
            && m.SendEntries? && m.args.prevLogIndex == covered && m.args.entries == nd.log[covered + 1..]
  {
    assert nd.log[|nd.log|..] == [];
  }

  /** Otherwise: a reply of a later term makes the leader of the snapshot's term a follower, in its own
      term; whoever does not lead that term ignores the reply. */
  lemma SnapshotRejected(nd: Node, keepVote: bool, peer: nat, term: nat, covered: nat, replyTerm: nat)
    requires peer < |nd.nextIndex| && peer < |nd.matchIndex|
    ensures var nd' := HandleSnapshotReply(nd, keepVote, peer, term, covered, replyTerm);
            && (nd.role == Leader && nd.currentTerm == term && replyTerm > term ==>
                  && nd'.role == Follower && nd'.currentTerm == nd.currentTerm
                  && nd'.votedFor == (if keepVote then nd.votedFor else NOBODY)
                  && SameRecord(nd, nd') && nd'.commitIndex == nd.commitIndex
                  && nd'.nextIndex == nd.nextIndex && nd'.matchIndex == nd.matchIndex)
            && (nd.role != Leader || nd.currentTerm != term ==> nd' == nd)
  {
  }
}
