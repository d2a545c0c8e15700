/** Runs of three servers that break a claim: for each rule, whatever the other two are, what happens when it
    does not hold. */
module Violations {
  import opened RaftLog
  import opened RaftNode
  import opened Cluster
  import opened Invariants
  import opened Claims
  import opened CatchUp
  import opened Scenario

  function Entered(v: int, term: nat, index: nat): Entry {
    Entry(Value(v), term, index)
  }

  ghost predicate NextIs(s: System, l: nat, f: nat, next: int)
    requires Shape(s) && l < |s.servers| && f < |s.servers|
  {
    s.servers[l].node.nextIndex[f] == next
  }

  ghost predicate KnowsAtLeast(s: System, i: nat, k: nat) {
    i < |s.servers| && s.servers[i].node.commitIndex >= k
  }

  ghost predicate KnowsAtMost(s: System, i: nat, k: nat) {
    i < |s.servers| && s.servers[i].node.commitIndex <= k
  }

  // ----- What goes wrong -----------------------------------------------------------------------------

  /** Two services were sent different commands at index `i`. */
  ghost predicate Diverged(s: System, i: nat, a: Applied, b: Applied) {
    a in s.applied && b in s.applied && a.index == b.index == i && a.command != b.command
  }

  /** Server `v` has lost entries it knew to be committed, and can still be elected with the vote of `w`. */
  ghost predicate Shortened(r: Rules, s: System, v: nat, w: nat) {
    && Reached(r, s) && v < 3 && w < 3 && v != w
    && var a, b := s.servers[v].node, s.servers[w].node;
       && a.commitIndex > LastIndex(a.log) > 0
       && b.currentTerm <= a.currentTerm
       && UpToDate(RequestVoteArgs(0, 0, Last(a.log).index, Last(a.log).term), Last(b.log))
       && Last(a.log).index == LastIndex(a.log)
  }

  /** Event `e` cuts the log of `v` below what `v` knows to be committed. */
  ghost predicate Cut(r: Rules, s: System, e: Event, v: nat, w: nat) {
    && Reached(r, s) && Shortened(r, Next(r, s, e), v, w)
    && s.servers[v].node.commitIndex > LastIndex(Next(r, s, e).servers[v].node.log)
  }

  // ----- The first leader ----------------------------------------------------------------------------

  /** Server 0 leads term 1, voted for by server 2, and has stored an entry. */
  lemma FirstTerm(r: Rules) returns (s: System)
    ensures Reached(r, s)
    ensures Is(s, 0, Leader, 1, [SENTINEL, Entered(1, 1, 1)], 0) && KnowsAtMost(s, 0, 0) && NextIs(s, 0, 2, 1)
    ensures Is(s, 1, Follower, 0, [SENTINEL], 0)
    ensures Is(s, 2, Follower, 1, [SENTINEL], 0) && s.servers[2].stored == map[]
  {
    StartReached(r);
    var s1 := Electing(r, Init(3), 0, 2);
    s := Starting(r, s1, 0, Value(1));
  }

  /** A message in which `LeaderCommit` is the last index it carries. */
  lemma EverythingCommitted(r: Rules) returns (s: System, k: nat)
    ensures Reached(r, s) && k < |s.net| && s.net[k].EntriesRequest?
    ensures var args := s.net[k].args; 0 < args.leaderCommit == args.prevLogIndex + |args.entries|
  {
    var s1 := FirstTerm(r);
    var s2 := Accepting(r, s1, 0, 2);
    k := |s2.net|;
    s := Sending(r, s2, 0, 2);
  }

  // ----- Without `keepVote`: two leaders in term 2 --------------------------------------------------

  /** Server 0 led term 1, restarted, and leads term 2 with the vote of server 2; server 1 is a candidate
      of term 2 whose ballot is packet `k`. */
  ghost predicate Rivals(r: Rules, s: System, k: nat) {
    && Reached(r, s)
    && Is(s, 0, Leader, 2, [SENTINEL, Entered(1, 1, 1)], 0) && NextIs(s, 0, 2, 2) && KnowsAtMost(s, 0, 1)
    && Is(s, 1, Candidate, 2, [SENTINEL], 0) && s.servers[1].voteCounter == 1 && s.servers[1].awaiting == Ids(3) - {1}
    && Is(s, 2, Follower, 2, [SENTINEL], 0) && s.servers[2].stored == map[]
    && k < |s.net| && s.net[k] == VoteRequest(1, RequestVoteArgs(2, 1, 0, 0))
    && (2, 0) in s.won
  }

  lemma RivalsMeet(r: Rules) returns (s: System, k: nat)
    ensures Rivals(r, s, k)
  {
    var s1 := FirstTerm(r);
    var s2 := Restarting(r, s1, 0);
    var s3 := TimingOut(r, s2, 1);
    k := |s3.net|;
    var s4 := TimingOut(r, s3, 1);
    s := Electing(r, s4, 0, 2);
  }

  /** As before, and the snapshot exchange has cleared the vote of server 2. */
  ghost predicate VoteCleared(r: Rules, s: System, k: nat) {
    && Reached(r, s)
    && Is(s, 0, Leader, 2, [SENTINEL, Entered(1, 1, 1)], 0) && NextIs(s, 0, 2, 1) && KnowsAtMost(s, 0, 1)
    && Is(s, 1, Candidate, 2, [SENTINEL], 0) && s.servers[1].voteCounter == 1 && s.servers[1].awaiting == Ids(3) - {1}
    && Is(s, 2, Follower, 2, [SENTINEL], 0) && s.servers[2].stored == map[]
    && s.servers[2].node.votedFor == NOBODY
    && k < |s.net| && s.net[k] == VoteRequest(1, RequestVoteArgs(2, 1, 0, 0))
    && (2, 0) in s.won
  }

  lemma ClearingVote(r: Rules) returns (s: System, k: nat)
    requires !r.keepVote
    ensures VoteCleared(r, s, k)
  {
    var s1, k1 := RivalsMeet(r);
    k := k1;
    var s2 := TooShort(r, s1, 0, 2);
    s := Snapshotting(r, s2, 0, 2);
  }

  /** Servers 0 and 1 both lead term 2, and both would now send their whole log to server 2. */
  ghost predicate TwoLeaders(r: Rules, s: System) {
    && Reached(r, s)
    && Is(s, 0, Leader, 2, [SENTINEL, Entered(1, 1, 1)], 0) && NextIs(s, 0, 2, 1) && KnowsAtMost(s, 0, 1)
    && Is(s, 1, Leader, 2, [SENTINEL], 0) && NextIs(s, 1, 2, 1)
    && Is(s, 2, Follower, 2, [SENTINEL], 0) && s.servers[2].stored == map[]
    && (2, 0) in s.won && (2, 1) in s.won
  }

  /** Server 2 votes again in term 2. */
  lemma VotingTwice(r: Rules) returns (s: System)
    requires !r.keepVote
    ensures TwoLeaders(r, s)
  {
    var s1, k := ClearingVote(r);
    var s2 := Granting(r, s1, k, 1, 2);
    s := Winning(r, s2, |s1.net|, 1, 2);
  }

  /** Each leader of term 2 commits an entry of term 2 with server 2 alone. */
  lemma VoteResetDiverges(r: Rules) returns (s: System, a: Applied, b: Applied)
    requires !r.keepVote
    ensures Reached(r, s) && (2, 0) in s.won && (2, 1) in s.won && Diverged(s, 1, a, b)
  {
    hide LeadsTo, MarksSent;
    var s1 := FirstCommits(r);
    a := Applied(1, 1, Value(2));
    var s2 := Starting(r, s1, 0, Value(3));
    var s3 := Accepting(r, s2, 0, 2);
    s := Applying(r, s3, 0);
    b := Applied(0, 1, Value(1));
  }

  /** Server 1 has applied its own first entry. */
  lemma FirstCommits(r: Rules) returns (s: System)
    requires !r.keepVote
    ensures Reached(r, s) && (2, 0) in s.won && (2, 1) in s.won
    ensures Is(s, 0, Leader, 2, [SENTINEL, Entered(1, 1, 1)], 0) && NextIs(s, 0, 2, 1)
    ensures Is(s, 2, Follower, 2, [SENTINEL, Entered(2, 2, 1)], 0)
    ensures Applied(1, 1, Value(2)) in s.applied
  {
    var s1 := VotingTwice(r);
    var s2 := Starting(r, s1, 1, Value(2));
    var s3 := Accepting(r, s2, 1, 2);
    s := Applying(r, s3, 1);
  }

  lemma VoteResetMismatches(r: Rules) returns (s: System)
    requires !r.keepVote
    ensures Reached(r, s) && !LogsMatch(s)
  {
    var s1 := VotingTwice(r);
    var s2 := Starting(r, s1, 0, Value(3));
    var s3 := Starting(r, s2, 1, Value(2));
    s := Starting(r, s3, 1, Value(4));
    var a, b := s.servers[0].node.log, s.servers[1].node.log;
    assert a[2].term == b[2].term;
    assert a[..3][1] != b[..3][1];
  }

  /** Server 2 knows two entries of server 1 to be committed; server 0 would now overwrite both. */
  ghost predicate Informed(r: Rules, s: System) {
    && Reached(r, s)
    && Is(s, 0, Leader, 2, [SENTINEL, Entered(1, 1, 1)], 0) && NextIs(s, 0, 2, 1) && KnowsAtMost(s, 0, 1)
    && Is(s, 2, Follower, 2, [SENTINEL, Entered(2, 2, 1), Entered(3, 2, 2)], 0) && KnowsAtLeast(s, 2, 2)
  }

  lemma VoteResetInforms(r: Rules) returns (s: System)
    requires !r.keepVote
    ensures Informed(r, s)
  {
    var s1 := VotingTwice(r);
    var s2 := Starting(r, s1, 1, Value(2));
    var s3 := Starting(r, s2, 1, Value(3));
    s := AcceptingAndInforming(r, s3, 1, 2);
  }

  lemma VoteResetCuts(r: Rules) returns (s: System, e: Event, v: nat, w: nat)
    requires !r.keepVote
    ensures Cut(r, s, e, v, w)
  {
    var s1 := VoteResetInforms(r);
    var s2: System;
    s, s2 := Overwriting(r, s1, 0, 2);
    e, v, w := Deliver(|s.net| - 1), 2, 0;
  }

  // ----- Without `keepVote`: success without equal logs ---------------------------------------------

  /** Server 2 holds the log of leader 1, which equals that of leader 0 in length and last term, and leader 0
      takes it for its own. */
  ghost predicate Confused(r: Rules, s: System) {
    && Reached(r, s)
    && Is(s, 0, Leader, 2, [SENTINEL, Entered(1, 1, 1), Entered(3, 2, 2)], 0) && NextIs(s, 0, 2, 3)
    && KnowsAtMost(s, 0, 2)
    && Is(s, 1, Leader, 2, [SENTINEL, Entered(2, 2, 1), Entered(4, 2, 2)], 0)
    && StoredLog(s, 1, 2) == [SENTINEL, Entered(2, 2, 1), Entered(4, 2, 2)]
    && Is(s, 2, Follower, 2, [SENTINEL, Entered(2, 2, 1), Entered(4, 2, 2)], 0)
    && |StoredLog(s, 2, 2)| == 3
  }

  ghost function StoredLog(s: System, i: nat, t: nat): seq<Entry> {
    if i < |s.servers| && t in s.servers[i].stored then s.servers[i].stored[t] else []
  }

  lemma FirstAccepted(r: Rules) returns (s: System)
    requires !r.keepVote
    ensures Reached(r, s)
    ensures Is(s, 0, Leader, 2, [SENTINEL, Entered(1, 1, 1), Entered(3, 2, 2)], 0) && NextIs(s, 0, 2, 3)
    ensures KnowsAtMost(s, 0, 2)
    ensures Is(s, 1, Leader, 2, [SENTINEL], 0) && NextIs(s, 1, 2, 1)
    ensures Is(s, 2, Follower, 2, [SENTINEL, Entered(1, 1, 1), Entered(3, 2, 2)], 0) && |StoredLog(s, 2, 2)| == 3
  {
    var s1 := VotingTwice(r);
    var s2 := Starting(r, s1, 0, Value(3));
    s := Accepting(r, s2, 0, 2);
  }

  lemma Confusing(r: Rules) returns (s: System)
    requires !r.keepVote
    ensures Confused(r, s)
  {
    hide LeadsTo, MarksSent;
    var s1 := FirstAccepted(r);
    var s2 := Starting(r, s1, 1, Value(2));
    var s3 := Starting(r, s2, 1, Value(4));
    s := Accepting(r, s3, 1, 2);
  }

  /** A heartbeat of leader 0 succeeds although the logs differ. */
  lemma SuccessWithoutEquality(r: Rules) returns (s: System, k: nat)
    requires !r.keepVote
    ensures Reached(r, s) && k < |s.net| && s.net[k].EntriesRequest?
    ensures var (nd, reply) := HandleAppendEntries(s.servers[s.net[k].dst].node, s.net[k].args);
            reply.success && nd.log != s.net[k].built
  {
    var s1 := Confusing(r);
    k := |s1.net|;
    s := Sending(r, s1, 0, 2);
    var nd := HandleAppendEntries(s.servers[2].node, s.net[k].args).0;
    assert nd.log[1] == Entered(2, 2, 1);
  }

  /** Leader 0 adds an entry; its message is the newest. */
  ghost predicate Counting(r: Rules, s: System, args: AppendEntriesArgs) {
    && Reached(r, s)
    && Is(s, 0, Leader, 2, [SENTINEL, Entered(1, 1, 1), Entered(3, 2, 2), Entered(5, 2, 3)], 0)
    && KnowsAtMost(s, 0, 2)
    && StoredLog(s, 1, 2) == [SENTINEL, Entered(2, 2, 1), Entered(4, 2, 2)]
    && StoredLog(s, 2, 2) == [SENTINEL, Entered(2, 2, 1), Entered(4, 2, 2), Entered(5, 2, 3)]
    && |s.net| > 0 && s.net[|s.net| - 1] == EntriesReply(2, 0, args, AppendEntriesReply(2, true, false, 0, 0, 0))
    && args.term == 2 && args.prevLogIndex + |args.entries| == 3
  }

  lemma CountingWrongly(r: Rules) returns (s: System, args: AppendEntriesArgs)
    requires !r.keepVote
    ensures Counting(r, s, args)
  {
    hide LeadsTo, MarksSent;
    var s1 := Confusing(r);
    var s2 := Starting(r, s1, 0, Value(5));
    var s3 := Sending(r, s2, 0, 2);
    args := MessageFor(s2.servers[0].node, 0, 0, 2, true).args;
    assert args == AppendEntriesArgs(2, 0, 2, 2, [Entered(5, 2, 3)], args.leaderCommit);
    s := ReceivingLast(r, s3, 0, 2, args, s2.servers[0].node.log);
    var nd := s.servers[2].node;
    assert nd.log == [SENTINEL, Entered(2, 2, 1), Entered(4, 2, 2), Entered(5, 2, 3)];
  }

  /** Leader 0 commits index 3, with `matchIndex` 3 for server 2; nobody else has stored its first entry in
      term 2. */
  lemma CommitWithoutEvidence(r: Rules) returns (s: System, e: Event)
    requires !r.keepVote
    ensures Reached(r, s) && Reached(r, Next(r, s, e)) && Commits(s, Next(r, s, e), 0)
    ensures var s' := Next(r, s, e);
            && (forall q :: !Witnesses(s', 0, s'.servers[0].node.commitIndex, q))
            && s'.servers[0].node.matchIndex[2] > 0
            && !Evidence(s'.servers[2], 2, s'.servers[0].node.log, s'.servers[0].node.matchIndex[2])
            && s'.servers[0].node.currentTerm == 2
  {
    hide LeadsTo, MarksSent;
    var args: AppendEntriesArgs;
    s, args := CountingWrongly(r);
    e := Deliver(|s.net| - 1);
    var s' := One(r, s, e);
    var reply := AppendEntriesReply(2, true, false, 0, 0, 0);
    AckEffect(r, s, 0, 2, args, reply);
    AcceptedReply(s.servers[0].node, 0, 2, r.commitGuard, args, reply);
    NoEvidence(s', s'.servers[0].node.log);
  }

  lemma NoEvidence(s: System, log: seq<Entry>)
    requires |s.servers| == 3 && |log| == 4 && log[1] == Entered(1, 1, 1)
    requires StoredLog(s, 1, 2) == [SENTINEL, Entered(2, 2, 1), Entered(4, 2, 2)]
    requires StoredLog(s, 2, 2) == [SENTINEL, Entered(2, 2, 1), Entered(4, 2, 2), Entered(5, 2, 3)]
    ensures forall v: nat, k: nat :: 1 <= v < 3 && 3 <= k ==> !Evidence(s.servers[v], 2, log, k)
    ensures forall q :: Majority(3, q) && 0 in q ==> 1 in q || 2 in q
  {
    forall v: nat, k: nat | 1 <= v < 3 && 3 <= k ensures !Evidence(s.servers[v], 2, log, k) {
      if v == 2 && Evidence(s.servers[v], 2, log, k) {
        AgreeAt(s.servers[v].stored[2], log, k + 1, 1);
      }
    }
    forall q | Majority(3, q) && 0 in q ensures 1 in q || 2 in q {
      assert q == {0} ==> |q| == 1;
      assert 1 !in q && 2 !in q ==> q == {0};
    }
  }

  // ----- Without `keepVote`: a hint that goes forward -------------------------------------------------

  /** Server 2 has refused index 1 with term 2, and leader 0 has an entry of term 2 above. */
  ghost predicate Hinted(r: Rules, s: System, k: nat) {
    && Reached(r, s)
    && Is(s, 0, Leader, 2, [SENTINEL, Entered(1, 1, 1), Entered(3, 2, 2)], 0)
    && k < |s.net| && s.net[k].EntriesReply? && s.net[k].dst == 0 && s.net[k].args.term == 2
    && s.net[k].args.prevLogIndex == 1 && s.net[k].reply.conflict && s.net[k].reply.xTerm == 2
  }

  lemma Hinting(r: Rules) returns (s: System, k: nat)
    requires !r.keepVote
    ensures Hinted(r, s, k)
  {
    var s1 := VotingTwice(r);
    var s2 := Accepting(r, s1, 0, 2);
    var s3 := Starting(r, s2, 1, Value(2));
    var s4 := Accepting(r, s3, 1, 2);
    s, k := HintSent(r, s4);
  }

  lemma HintSent(r: Rules, s: System) returns (s': System, k: nat)
    requires Reached(r, s)
    requires Is(s, 0, Leader, 2, [SENTINEL, Entered(1, 1, 1)], 0) && NextIs(s, 0, 2, 2)
    requires Is(s, 2, Follower, 2, [SENTINEL, Entered(2, 2, 1)], 0)
    ensures Hinted(r, s', k)
  {
    hide LeadsTo, MarksSent;
    var s1 := Starting(r, s, 0, Value(3));
    var s2 := Sending(r, s1, 0, 2);
    var args := MessageFor(s1.servers[0].node, 0, 0, 2, true).args;
    assert args.prevLogIndex == 1 && args.prevLogTerm == 1;
    k := |s2.net|;
    s' := ReceivingLast(r, s2, 0, 2, args, s1.servers[0].node.log);
  }

  // ----- Without `keepVote`: catch-up that never ends -------------------------------------------------

  /** The leader takes the follower's log for its own, and the two differ. */
  ghost predicate Stuck(s: System) {
    && Shape(s) && |s.servers| == 3 && MarksSent(s) && Leads(s, 0, 2)
    && var a, b := s.servers[0].node, s.servers[2].node;
       && b.role == Follower && b.currentTerm == a.currentTerm
       && |a.log| == |b.log| == a.nextIndex[2] && |a.log| > 1
       && Last(a.log).term == Last(b.log).term && a.log != b.log
  }

  /** Each exchange is a success that changes no log. */
  lemma StillStuck(r: Rules, s: System)
    requires Stuck(s)
    ensures Exchange(s, 0, 2) == EntriesExchange(s, 0, 2)
    ensures Stuck(After(r, s, EntriesExchange(s, 0, 2)))
  {
    hide HandleAppendReply;
    var a, b := s.servers[0].node, s.servers[2].node;
    var args := MessageFor(a, 0, 0, 2, true).args;
    assert Overwrite(b.log, args.prevLogIndex, args.entries) == b.log;
    EntriesExchangeEffect(r, s, 0, 2);
    AfterLater(r, s, EntriesExchange(s, 0, 2));
    AcceptedReply(a, 0, 2, r.commitGuard, args, HandleAppendEntries(b, args).1);
  }

  lemma {:induction false} NeverCaughtUp(r: Rules, s: System, events: seq<Event>)
    requires Stuck(s)
    ensures !Exchanges(r, s, 0, 2, events)
    decreases |events|
  {
    hide After;
    if events != [] {
      StillStuck(r, s);
      var x := Exchange(s, 0, 2);
      if x <= events {
        NeverCaughtUp(r, After(r, s, x), events[|x|..]);
      }
    }
  }

  lemma StuckReached(r: Rules) returns (s: System)
    requires !r.keepVote
    ensures Reached(r, s) && Stuck(s)
  {
    s := Confusing(r);
    assert s.servers[0].node.log[1] != s.servers[2].node.log[1];
  }

  /** The follower accepts the leader's log and, with the next heartbeat, learns that it is committed. */
  lemma AcceptingAndInforming(r: Rules, s: System, l: nat, f: nat) returns (s': System)
    requires Reached(r, s) && Leads(s, l, f) && s.servers[f].node.role == Follower
    requires s.servers[f].node.currentTerm == s.servers[l].node.currentTerm
    requires var a, b := s.servers[l].node, s.servers[f].node;
             && 1 == a.nextIndex[f] <= LastIndex(a.log) && a.log[0] == b.log[0]
             && (r.commitGuard ==> Last(a.log).term == a.currentTerm)
    ensures Reached(r, s') && Later(s, s') && Between(s, s', l, f)
    ensures var a, b := s.servers[l].node, s.servers[f].node;
            && Is(s', l, Leader, a.currentTerm, a.log, a.lastApplied) && KnowsAtLeast(s', l, LastIndex(a.log))
            && Is(s', f, Follower, a.currentTerm, a.log, b.lastApplied) && KnowsAtLeast(s', f, LastIndex(a.log))
  {
    hide LeadsTo, MarksSent;
    assert s.servers[l].node.log[..1] == s.servers[f].node.log[..1];
    var s1 := Accepting(r, s, l, f);
    s' := Informing(r, s1, l, f);
  }

  // ----- Without `inOrder`: a stale message undoes a commit ------------------------------------------

  /** Packet `k` carries only the first entry of leader 0, to server 1. */
  ghost predicate FirstEntry(s: System, k: nat) {
    && k < |s.net| && s.net[k].EntriesRequest? && s.net[k].dst == 1
    && s.net[k].args == AppendEntriesArgs(1, 0, 0, 0, [Entered(1, 1, 1)], 0)
  }

  /** Server 0 has sent its first entry to server 1. */
  ghost predicate Sent(r: Rules, s: System, k: nat) {
    && Reached(r, s)
    && Is(s, 0, Leader, 1, [SENTINEL, Entered(1, 1, 1)], 0) && NextIs(s, 0, 1, 1)
    && Is(s, 1, Follower, 1, [SENTINEL], 0)
    && Is(s, 2, Follower, 0, [SENTINEL], 0)
    && FirstEntry(s, k)
  }

  lemma EntrySent(r: Rules) returns (s: System, k: nat)
    ensures Sent(r, s, k)
  {
    StartReached(r);
    var s1 := Electing(r, Init(3), 0, 1);
    var s2 := Starting(r, s1, 0, Value(1));
    k := |s2.net|;
    s := Sending(r, s2, 0, 1);
  }

  /** Two entries are committed and known to be so by both servers that hold them, and packet `k` is still
      on its way. */
  ghost predicate Delayed(r: Rules, s: System, k: nat) {
    && Reached(r, s)
    && Is(s, 0, Leader, 1, [SENTINEL, Entered(1, 1, 1), Entered(2, 1, 2)], 0) && KnowsAtLeast(s, 0, 2)
    && Is(s, 1, Follower, 1, [SENTINEL, Entered(1, 1, 1), Entered(2, 1, 2)], 0) && KnowsAtLeast(s, 1, 2)
    && Is(s, 2, Follower, 0, [SENTINEL], 0)
    && FirstEntry(s, k)
  }

  lemma MessageDelayed(r: Rules) returns (s: System, k: nat)
    ensures Delayed(r, s, k)
  {
    var s1, k1 := EntrySent(r);
    k := k1;
    var s2 := Starting(r, s1, 0, Value(2));
    s := AcceptingAndInforming(r, s2, 0, 1);
  }

  lemma ReorderCuts(r: Rules) returns (s: System, e: Event, v: nat, w: nat)
    requires !r.inOrder
    ensures Cut(r, s, e, v, w)
  {
    var k: nat;
    s, k := MessageDelayed(r);
    var s1 := Receiving(r, s, k, 0, 1);
    assert s1.servers[1].node.log == [SENTINEL, Entered(1, 1, 1)];
    e, v, w := Deliver(k), 1, 2;
  }

  /** Server 0 has applied its second entry, which server 1 has lost. */
  ghost predicate Lost(r: Rules, s: System) {
    && Reached(r, s)
    && Is(s, 0, Leader, 1, [SENTINEL, Entered(1, 1, 1), Entered(2, 1, 2)], 2)
    && Is(s, 1, Follower, 1, [SENTINEL, Entered(1, 1, 1)], 0) && KnowsAtLeast(s, 1, 2)
    && Is(s, 2, Follower, 0, [SENTINEL], 0)
    && Applied(0, 2, Value(2)) in s.applied
  }

  lemma CommitLost(r: Rules) returns (s: System)
    requires !r.inOrder
    ensures Lost(r, s)
  {
    var s1, k := MessageDelayed(r);
    var s2 := Applying(r, s1, 0);
    var s3 := Applying(r, s2, 0);
    s := Receiving(r, s3, k, 0, 1);
    assert s.servers[1].node.log == [SENTINEL, Entered(1, 1, 1)];
  }

  /** Server 1 leads term 2 with another second entry, and server 0 follows. */
  ghost predicate Replaced(r: Rules, s: System) {
    && Reached(r, s)
    && Is(s, 0, Follower, 2, [SENTINEL, Entered(1, 1, 1), Entered(2, 1, 2)], 2)
    && Is(s, 1, Leader, 2, [SENTINEL, Entered(1, 1, 1), Entered(3, 2, 2)], 0) && NextIs(s, 1, 0, 1)
    && KnowsAtLeast(s, 1, 2)
    && Applied(0, 2, Value(2)) in s.applied
  }

  lemma NextLeader(r: Rules) returns (s: System)
    requires !r.inOrder
    ensures Reached(r, s)
    ensures Is(s, 0, Leader, 1, [SENTINEL, Entered(1, 1, 1), Entered(2, 1, 2)], 2)
    ensures Is(s, 1, Leader, 2, [SENTINEL, Entered(1, 1, 1)], 0) && NextIs(s, 1, 0, 2) && KnowsAtLeast(s, 1, 2)
    ensures Applied(0, 2, Value(2)) in s.applied
  {
    var s1 := CommitLost(r);
    s := Electing(r, s1, 1, 2);
  }

  lemma Replacing(r: Rules) returns (s: System)
    requires !r.inOrder
    ensures Replaced(r, s)
  {
    hide LeadsTo, MarksSent;
    var s1 := NextLeader(r);
    var s2 := Starting(r, s1, 1, Value(3));
    s := Lagging(r, s2, 1, 0);
  }

  lemma ReorderDiverges(r: Rules) returns (s: System, a: Applied, b: Applied)
    requires !r.inOrder
    ensures Reached(r, s) && Diverged(s, 2, a, b)
  {
    var s1 := Replacing(r);
    a := Applied(0, 2, Value(2));
    var s2 := Accepting(r, s1, 1, 0);
    s := ApplyingTwice(r, s2, 1);
    b := Applied(1, 2, Value(3));
  }

  lemma ApplyingTwice(r: Rules, s: System, i: nat) returns (s': System)
    requires Reached(r, s) && i < 3
    requires var nd := s.servers[i].node; nd.lastApplied == 0 && nd.commitIndex >= 2 && |nd.log| >= 3
    ensures Reached(r, s') && Later(s, s')
    ensures Applied(i, 2, s.servers[i].node.log[2].command) in s'.applied
  {
    var s1 := Applying(r, s, i);
    s' := Applying(r, s1, i);
  }

  // ----- Without `commitGuard`: an old entry is committed by counting ---------------------------------

  /** Server 0 stored two entries in term 1; server 1 leads term 2 and has stored one. */
  ghost predicate SecondTerm(r: Rules, s: System) {
    && Reached(r, s)
    && Is(s, 0, Leader, 1, [SENTINEL, Entered(1, 1, 1), Entered(3, 1, 2)], 0)
    && Is(s, 1, Leader, 2, [SENTINEL, Entered(2, 2, 1)], 0)
    && Is(s, 2, Follower, 2, [SENTINEL], 0)
  }

  lemma TwoTerms(r: Rules) returns (s: System)
    ensures SecondTerm(r, s)
  {
    var s1 := FirstTerm(r);
    var s2 := Starting(r, s1, 0, Value(3));
    var s3 := TimingOut(r, s2, 1);
    var s4 := Electing(r, s3, 1, 2);
    s := Starting(r, s4, 1, Value(2));
  }

  /** As before, but server 0 leads term 3. */
  ghost predicate Split(r: Rules, s: System) {
    && Reached(r, s)
    && Is(s, 0, Leader, 3, [SENTINEL, Entered(1, 1, 1), Entered(3, 1, 2)], 0) && NextIs(s, 0, 2, 3)
    && Is(s, 1, Leader, 2, [SENTINEL, Entered(2, 2, 1)], 0)
    && Is(s, 2, Follower, 3, [SENTINEL], 0)
  }

  lemma Splitting(r: Rules) returns (s: System)
    ensures Split(r, s)
  {
    var s1 := TwoTerms(r);
    var s2 := Restarting(r, s1, 0);
    var s3 := TimingOut(r, s2, 0);
    s := Electing(r, s3, 0, 2);
  }

  /** In term 3, server 0 has committed its entries of term 1, and server 2 holds them and knows. */
  ghost predicate OldCommitted(r: Rules, s: System) {
    && Reached(r, s)
    && Is(s, 0, Leader, 3, [SENTINEL, Entered(1, 1, 1), Entered(3, 1, 2)], 0) && KnowsAtLeast(s, 0, 2)
    && Is(s, 1, Leader, 2, [SENTINEL, Entered(2, 2, 1)], 0)
    && Is(s, 2, Follower, 3, [SENTINEL, Entered(1, 1, 1), Entered(3, 1, 2)], 0) && KnowsAtLeast(s, 2, 2)
  }

  lemma CommittingOld(r: Rules) returns (s: System)
    requires !r.commitGuard
    ensures OldCommitted(r, s)
  {
    var s1 := Splitting(r);
    var s2 := TooShort(r, s1, 0, 2);
    var s3 := Snapshotting(r, s2, 0, 2);
    s := AcceptingAndInforming(r, s3, 0, 2);
  }

  /** Server 1 leads term 4 and would now overwrite what server 0 has committed. */
  ghost predicate Returned(r: Rules, s: System) {
    && Reached(r, s)
    && Is(s, 1, Leader, 4, [SENTINEL, Entered(2, 2, 1)], 0) && NextIs(s, 1, 2, 1) && KnowsAtMost(s, 1, 1)
    && Is(s, 2, Follower, 4, [SENTINEL, Entered(1, 1, 1), Entered(3, 1, 2)], 0) && KnowsAtLeast(s, 2, 2)
  }

  /** From any state with an old entry committed. */
  lemma Returning(r: Rules, s: System) returns (s': System)
    requires Reached(r, s)
    requires Is(s, 1, Leader, 2, [SENTINEL, Entered(2, 2, 1)], 0)
    requires Is(s, 2, Follower, 3, [SENTINEL, Entered(1, 1, 1), Entered(3, 1, 2)], 0) && KnowsAtLeast(s, 2, 2)
    ensures Later(s, s') && Returned(r, s')
  {
    var s1 := Restarting(r, s, 1);
    var s2 := TimingOut(r, s1, 1);
    var s3 := Electing(r, s2, 1, 2);
    s' := Mismatching(r, s3, 1, 2);
  }

  lemma CountingCuts(r: Rules) returns (s: System, e: Event, v: nat, w: nat)
    requires !r.commitGuard
    ensures Cut(r, s, e, v, w)
    ensures v == 2 && s.servers[2].node.log == [SENTINEL, Entered(1, 1, 1), Entered(3, 1, 2)]
    ensures Next(r, s, e).servers[2].node.log == [SENTINEL, Entered(2, 2, 1)]
  {
    var s1 := CommittingOld(r);
    var s2 := Returning(r, s1);
    var s3: System;
    s, s3 := Overwriting(r, s2, 1, 2);
    e, v, w := Deliver(|s.net| - 1), 2, 1;
  }

  lemma CountingDiverges(r: Rules) returns (s: System, a: Applied, b: Applied)
    requires !r.commitGuard
    ensures Reached(r, s) && Diverged(s, 1, a, b)
  {
    var s1 := CommittingOld(r);
    var s2 := Applying(r, s1, 0);
    a := Applied(0, 1, Value(1));
    var s3 := Returning(r, s2);
    var s4 := Accepting(r, s3, 1, 2);
    s := Applying(r, s4, 1);
    b := Applied(1, 1, Value(2));
  }

  // ----- A leader without what it knows to be committed -----------------------------------------------

  /** A server that has lost committed entries becomes leader, and sends more `LeaderCommit` than log. */
  lemma ShortLeader(r: Rules, s: System, v: nat, w: nat) returns (s': System, k: nat)
    requires Shortened(r, s, v, w)
    ensures Reached(r, s') && v < 3 && s'.servers[v].node.role == Leader
    ensures s'.servers[v].node.commitIndex > LastIndex(s'.servers[v].node.log)
    ensures k < |s'.net| && s'.net[k].EntriesRequest?
    ensures s'.net[k].args.leaderCommit > s'.net[k].args.prevLogIndex + |s'.net[k].args.entries|
  {
    var s1 := Electing(r, s, v, w);
    k := |s1.net|;
    s' := Sending(r, s1, v, w);
  }
}
