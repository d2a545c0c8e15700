/** Building blocks for concrete runs of three servers. Each block takes a state to a later one and says what
    it does to the servers involved; everything else stays. */
module Scenario {
  import opened RaftLog
  import opened RaftNode
  import opened Cluster
  import opened Invariants
  import opened StateMachineSafety
  import opened CatchUp

  /** Some events lead from `s` to `s'`. */
  ghost predicate LeadsTo(r: Rules, s: System, s': System)
    requires Shape(s)
  {
    exists events :: After(r, s, events) == s'
  }

  /** What any events keep: sent packets, applied commands and elections won. */
  ghost predicate Later(s: System, s': System) {
    && |s'.servers| == |s.servers|
    && |s.net| <= |s'.net|
    && (forall k :: 0 <= k < |s.net| ==> s'.net[k] == s.net[k])
    && s.applied <= s'.applied && s.won <= s'.won
  }

  lemma NextLater(r: Rules, s: System, e: Event)
    requires Shape(s)
    ensures Later(s, Next(r, s, e))
  {
  }

  lemma NextMarksSent(r: Rules, s: System, e: Event)
    requires Shape(s) && MarksSent(s)
    ensures MarksSent(Next(r, s, e))
  {
    var s' := Next(r, s, e);
    forall v, key | 0 <= v < |s'.servers| && key in s'.servers[v].marks ensures s'.servers[v].marks[key] < |s'.net| {
      NextMarks(r, s, e, v);
    }
  }

  lemma {:induction false} AfterLater(r: Rules, s: System, events: seq<Event>)
    requires Shape(s)
    ensures Later(s, After(r, s, events)) && (MarksSent(s) ==> MarksSent(After(r, s, events)))
    decreases |events|
  {
    if events != [] {
      NextLater(r, s, events[0]);
      AfterLater(r, Next(r, s, events[0]), events[1..]);
      if MarksSent(s) {
        NextMarksSent(r, s, events[0]);
      }
    }
  }

  lemma {:induction false} AfterConcat(r: Rules, s: System, a: seq<Event>, b: seq<Event>)
    requires Shape(s)
    ensures After(r, s, a + b) == After(r, After(r, s, a), b)
    decreases |a|
  {
    if a == [] {
      assert a + b == b;
    } else {
      assert (a + b)[0] == a[0] && (a + b)[1..] == a[1..] + b;
      AfterConcat(r, Next(r, s, a[0]), a[1..], b);
    }
  }

  lemma LeadsOn(r: Rules, s: System, t: System, u: System)
    requires Shape(s) && LeadsTo(r, s, t) && Shape(t) && LeadsTo(r, t, u)
    ensures LeadsTo(r, s, u)
  {
    var a :| After(r, s, a) == t;
    var b :| After(r, t, b) == u;
    AfterConcat(r, s, a, b);
  }

  /** A state of three servers that some run reaches. */
  ghost predicate Reached(r: Rules, s: System) {
    Shape(s) && |s.servers| == 3 && MarksSent(s) && LeadsTo(r, Init(3), s)
  }

  lemma StartReached(r: Rules)
    ensures Reached(r, Init(3))
  {
    assert After(r, Init(3), []) == Init(3);
  }

  lemma ReachedByRun(r: Rules, s: System) returns (run: seq<Event>)
    requires Reached(r, s)
    ensures s == Exec(r, 3, run)
  {
    run :| After(r, Init(3), run) == s;
    ExecAfter(r, 3, [], run);
    assert [] + run == run;
  }

  lemma ReachedAfter(r: Rules, s: System, events: seq<Event>)
    requires Reached(r, s)
    ensures Reached(r, After(r, s, events)) && Later(s, After(r, s, events))
  {
    AfterLater(r, s, events);
    assert LeadsTo(r, s, After(r, s, events));
    LeadsOn(r, Init(3), s, After(r, s, events));
  }

  ghost predicate Is(s: System, i: nat, role: Role, term: nat, log: Log, applied: nat) {
    i < |s.servers| &&
    var nd := s.servers[i].node;
    nd.role == role && nd.currentTerm == term && nd.log == log && nd.lastApplied == applied
  }

  // ----- Single events -----------------------------------------------------------------------------

  lemma One(r: Rules, s: System, e: Event) returns (s': System)
    requires Reached(r, s)
    ensures s' == Next(r, s, e) && Reached(r, s') && Later(s, s')
  {
    s' := Next(r, s, e);
    AfterSplit(r, s, [], e);
    AfterSplit(r, s', [], e);
    assert [e] + [] == [e];
    ReachedAfter(r, s, [e]);
  }

  lemma Restarting(r: Rules, s: System, i: nat) returns (s': System)
    requires Reached(r, s) && i < 3
    ensures Reached(r, s') && Later(s, s') && Elsewhere(s, s', i)
    ensures var nd := s.servers[i].node; Is(s', i, Follower, nd.currentTerm, nd.log, 0)
    ensures s'.servers[i].node.commitIndex == 0
  {
    s' := One(r, s, Event.Restart(i));
  }

  lemma TimingOut(r: Rules, s: System, i: nat) returns (s': System)
    requires Reached(r, s) && i < 3
    ensures Reached(r, s') && Later(s, s') && Elsewhere(s, s', i)
    ensures var nd := s.servers[i].node;
            && s'.servers[i].node == RaftNode.LeaderElection(nd, i)
            && s'.servers[i].voteCounter == 1 && s'.servers[i].awaiting == Ids(3) - {i}
            && |s'.net| == |s.net| + 1
            && s'.net[|s.net|] == VoteRequest(i, Ballot(s'.servers[i].node, i, Last(nd.log)))
  {
    s' := One(r, s, Timeout(i));
  }

  lemma Starting(r: Rules, s: System, i: nat, command: Command) returns (s': System)
    requires Reached(r, s) && i < 3 && s.servers[i].node.role == Leader
    ensures Reached(r, s') && Later(s, s') && Elsewhere(s, s', i)
    ensures var nd := Start(s.servers[i].node, command);
            && s'.servers[i].node == nd
            && s'.servers[i].stored == s.servers[i].stored[nd.currentTerm := nd.log]
  {
    s' := One(r, s, ClientStart(i, command));
  }

  lemma Applying(r: Rules, s: System, i: nat) returns (s': System)
    requires Reached(r, s) && i < 3 && CanApply(s.servers[i].node)
    ensures Reached(r, s') && Later(s, s') && Elsewhere(s, s', i)
    ensures var nd := s.servers[i].node;
            && s'.servers[i].node == ApplyNext(nd)
            && Applied(i, nd.lastApplied + 1, nd.log[nd.lastApplied + 1].command) in s'.applied
  {
    hide LeadsTo, MarksSent, Later;
    s' := One(r, s, Apply(i));
  }

  // ----- Elections ---------------------------------------------------------------------------------

  /** Server `v` gets the ballot `k` of candidate `c` and grants it. */
  lemma Granting(r: Rules, s: System, k: nat, c: nat, v: nat) returns (s': System)
    requires Reached(r, s) && c < 3 && v < 3 && c != v && k < |s.net| && s.net[k].VoteRequest? && s.net[k].src == c
    requires var nd := s.servers[v].node;
             var b := s.net[k].ballot;
             && b.candidateId == c && UpToDate(b, Last(nd.log))
             && (nd.currentTerm < b.term || (nd.currentTerm == b.term && nd.votedFor == NOBODY))
    ensures Reached(r, s') && Later(s, s') && Elsewhere(s, s', v)
    ensures var nd := s.servers[v].node;
            var b := s.net[k].ballot;
            && s'.servers[v].node == HandleRequestVote(nd, Last(nd.log), b).0
            && s'.servers[v].node.currentTerm == b.term && s'.servers[v].stored == s.servers[v].stored
            && |s'.net| == |s.net| + 1
            && s'.net[|s.net|] == VoteReply(v, c, b, RequestVoteReply(b.term, true))
  {
    hide LeadsTo, MarksSent, Later;
    s' := One(r, s, DeliverBallot(k, v));
  }

  /** The vote of `v` is the second of three: candidate `c` leads. */
  lemma Winning(r: Rules, s: System, k: nat, c: nat, v: nat) returns (s': System)
    requires Reached(r, s) && c < 3 && v < 3 && c != v && k < |s.net|
    requires var x := s.servers[c];
             && x.node.role == Candidate && x.voteCounter == 1 && v in x.awaiting
             && s.net[k].VoteReply? && s.net[k].src == v && s.net[k].dst == c
             && s.net[k].ballot.term == x.node.currentTerm
             && s.net[k].vote == RequestVoteReply(x.node.currentTerm, true)
    ensures Reached(r, s') && Later(s, s') && Elsewhere(s, s', c)
    ensures var nd := s.servers[c].node;
            && s'.servers[c].node == RaftNode.BecomeLeader(nd, c, Last(nd.log))
            && (nd.currentTerm, c) in s'.won
  {
    hide LeadsTo, MarksSent, Later;
    s' := One(r, s, Deliver(k));
  }

  /** Candidacy of `c`; the vote of `v`, whose term is older, is on its way. */
  lemma Polling(r: Rules, s: System, c: nat, v: nat) returns (s': System)
    requires Reached(r, s) && c < 3 && v < 3 && c != v
    requires var a, b := s.servers[c].node, s.servers[v].node;
             && b.currentTerm <= a.currentTerm
             && UpToDate(RequestVoteArgs(0, 0, Last(a.log).index, Last(a.log).term), Last(b.log))
    ensures Reached(r, s') && Later(s, s') && Between(s, s', c, v)
    ensures var a, b, x := s.servers[c].node, s.servers[v].node, s'.servers[c];
            && x.node == RaftNode.LeaderElection(a, c) && x.voteCounter == 1 && x.awaiting == Ids(3) - {c}
            && Is(s', v, Follower, a.currentTerm + 1, b.log, b.lastApplied)
            && s'.servers[v].node.commitIndex == b.commitIndex && s'.servers[v].stored == s.servers[v].stored
            && |s'.net| == |s.net| + 2
            && s'.net[|s.net| + 1] == VoteReply(v, c, Ballot(x.node, c, Last(a.log)),
                                                RequestVoteReply(a.currentTerm + 1, true))
  {
    hide LeadsTo, MarksSent;
    var s1 := TimingOut(r, s, c);
    s' := Granting(r, s1, |s.net|, c, v);
  }

  /** Candidacy of `c` with the vote of `v`, whose term is older. */
  lemma Electing(r: Rules, s: System, c: nat, v: nat) returns (s': System)
    requires Reached(r, s) && c < 3 && v < 3 && c != v
    requires var a, b := s.servers[c].node, s.servers[v].node;
             && b.currentTerm <= a.currentTerm
             && UpToDate(RequestVoteArgs(0, 0, Last(a.log).index, Last(a.log).term), Last(b.log))
    ensures Reached(r, s') && Later(s, s') && Between(s, s', c, v)
    ensures var a, b := s.servers[c].node, s.servers[v].node;
            && Is(s', c, Leader, a.currentTerm + 1, a.log, a.lastApplied)
            && Is(s', v, Follower, a.currentTerm + 1, b.log, b.lastApplied)
            && s'.servers[c].node.commitIndex == a.commitIndex && s'.servers[v].node.commitIndex == b.commitIndex
            && s'.servers[v].stored == s.servers[v].stored
            && (forall p :: 0 <= p < 3 ==> s'.servers[c].node.nextIndex[p] == Last(a.log).index + 1)
            && (a.currentTerm + 1, c) in s'.won
  {
    var s1 := Polling(r, s, c, v);
    s' := Winning(r, s1, |s.net| + 1, c, v);
  }

  // ----- Messages ----------------------------------------------------------------------------------

  lemma Sending(r: Rules, s: System, l: nat, f: nat) returns (s': System)
    requires Reached(r, s) && Leads(s, l, f) && s.servers[l].node.nextIndex[f] >= 1
    ensures Reached(r, s') && Later(s, s') && s'.servers == s.servers
    ensures |s'.net| == |s.net| + 1
    ensures s'.net[|s.net|] ==
              EntriesRequest(l, f, MessageFor(s.servers[l].node, 0, l, f, true).args, s.servers[l].node.log)
  {
    s' := One(r, s, AppendTo(l, f, true));
    SendEffect(r, s, l, f);
  }

  /** A message processed at any time. */
  lemma Receiving(r: Rules, s: System, k: nat, l: nat, f: nat) returns (s': System)
    requires Reached(r, s) && !r.inOrder && k < |s.net| && l < 3 && f < 3 && l != f
    requires s.net[k].EntriesRequest? && s.net[k].dst == f
    ensures s' == Next(r, s, Deliver(k)) && Reached(r, s') && Later(s, s') && Elsewhere(s, s', f)
    ensures s'.servers[f].node == HandleAppendEntries(s.servers[f].node, s.net[k].args).0
  {
    hide HandleAppendEntries;
    s' := One(r, s, Deliver(k));
  }

  /** The newest message processed at once: in order, whatever the rules. */
  lemma ReceivingLast(r: Rules, s: System, l: nat, f: nat, args: AppendEntriesArgs, built: Log) returns (s': System)
    requires Reached(r, s) && |s.net| > 0 && l < 3 && f < 3 && l != f
    requires s.net[|s.net| - 1] == EntriesRequest(l, f, args, built)
    ensures s' == Next(r, s, Deliver(|s.net| - 1)) && Reached(r, s') && Later(s, s') && Elsewhere(s, s', f)
    ensures var (nd, reply) := HandleAppendEntries(s.servers[f].node, args);
            && s'.servers[f].node == nd
            && s'.servers[f].stored == StoredAfter(s.servers[f], nd, reply)
            && |s'.net| == |s.net| + 1 && s'.net[|s.net|] == EntriesReply(f, l, args, reply)
  {
    hide Next, HandleAppendEntries;
    s' := One(r, s, Deliver(|s.net| - 1));
    ReceiveEffect(r, s, l, f, args, built);
  }

  // ----- Exchanges ---------------------------------------------------------------------------------

  /** Leader `l` and follower `f` of a term not later than the leader's exchange a message and its reply. */
  lemma Exchanging(r: Rules, s: System, l: nat, f: nat) returns (s': System)
    requires Reached(r, s) && Leads(s, l, f) && s.servers[l].node.nextIndex[f] >= 1
    ensures Reached(r, s') && Later(s, s') && Between(s, s', l, f)
    ensures var a := s.servers[l].node;
            var args := MessageFor(a, 0, l, f, true).args;
            var (nd, reply) := HandleAppendEntries(s.servers[f].node, args);
            && s'.servers[f].node == nd
            && s'.servers[l].node == HandleAppendReply(a, 0, l, r.commitGuard, f, args, reply)
            && s'.servers[f].stored == StoredAfter(s.servers[f], nd, reply)
            && s'.servers[l].stored == s.servers[l].stored
  {
    s' := After(r, s, EntriesExchange(s, l, f));
    ReachedAfter(r, s, EntriesExchange(s, l, f));
    EntriesExchangeEffect(r, s, l, f);
  }

  /** The parties of an exchange keep their roles, terms and applied indices, and the leader commits
      nothing past its log. */
  ghost predicate Exchanged(s: System, s': System, l: nat, f: nat) {
    && Between(s, s', l, f) && l < |s.servers| && f < |s.servers|
    && var a, b := s.servers[l].node, s.servers[f].node;
       && Is(s', l, Leader, a.currentTerm, a.log, a.lastApplied)
       && Is(s', f, Follower, a.currentTerm, s'.servers[f].node.log, b.lastApplied)
       && a.commitIndex <= s'.servers[l].node.commitIndex <= Max(a.commitIndex, LastIndex(a.log))
       && s'.servers[l].stored == s.servers[l].stored
  }

  /** The follower's log, commit index and record stay. */
  ghost predicate Refused(s: System, s': System, f: nat) {
    && f < |s.servers| == |s'.servers|
    && s'.servers[f].node.log == s.servers[f].node.log
    && s'.servers[f].node.commitIndex == s.servers[f].node.commitIndex
    && s'.servers[f].stored == s.servers[f].stored
  }

  /** Handling a reply commits nothing past the log. */
  lemma ReplyCommitBound(nd: Node, me: nat, guard: bool, peer: nat, args: AppendEntriesArgs, reply: AppendEntriesReply)
    requires peer < |nd.nextIndex| && peer < |nd.matchIndex|
    ensures var nd' := HandleAppendReply(nd, 0, me, guard, peer, args, reply);
            nd.commitIndex <= nd'.commitIndex <= Max(nd.commitIndex, LastIndex(nd.log))
  {
    var nd1 := Acknowledge(nd, 0, peer, args, reply);
    GreatestCommittable(nd1, 0, me, guard, nd1.commitIndex, LastIndex(nd1.log));
  }

  /** A reply that is no success: `nextIndex` becomes what the reply asks for. */
  lemma RefusedReply(a: Node, l: nat, guard: bool, f: nat, args: AppendEntriesArgs, reply: AppendEntriesReply)
    requires f < |a.nextIndex| && f < |a.matchIndex| && a.role == Leader
    requires args.term == a.currentTerm && reply.term <= a.currentTerm && !reply.success
    ensures var a' := HandleAppendReply(a, 0, l, guard, f, args, reply);
            && a' == a.(commitIndex := a'.commitIndex, nextIndex := a'.nextIndex)
            && a.commitIndex <= a'.commitIndex <= Max(a.commitIndex, LastIndex(a.log))
            && |a'.nextIndex| == |a.nextIndex|
            && a'.nextIndex[f] == if reply.conflict then NextAfterConflict(a, 0, reply)
                                  else if a.nextIndex[f] > 1 then a.nextIndex[f] - 1 else a.nextIndex[f]
  {
    ReplyCommitBound(a, l, guard, f, args, reply);
  }

  /** The follower's term is older: it only adopts the term, and `nextIndex` goes back by one. */
  lemma Lagging(r: Rules, s: System, l: nat, f: nat) returns (s': System)
    requires Reached(r, s) && Leads(s, l, f) && s.servers[l].node.nextIndex[f] > 1
    requires s.servers[f].node.currentTerm < s.servers[l].node.currentTerm
    ensures Reached(r, s') && Later(s, s') && Exchanged(s, s', l, f) && Refused(s, s', f)
    ensures s'.servers[l].node.nextIndex[f] == s.servers[l].node.nextIndex[f] - 1
  {
    hide HandleAppendReply;
    s' := Exchanging(r, s, l, f);
    var a := s.servers[l].node;
    var args := MessageFor(a, 0, l, f, true).args;
    RefusedReply(a, l, r.commitGuard, f, args, HandleAppendEntries(s.servers[f].node, args).1);
  }

  /** The follower's log is too short: `nextIndex` becomes its last index. */
  lemma TooShort(r: Rules, s: System, l: nat, f: nat) returns (s': System)
    requires Reached(r, s) && Leads(s, l, f) && s.servers[f].node.role == Follower
    requires s.servers[f].node.currentTerm == s.servers[l].node.currentTerm
    requires var a, b := s.servers[l].node, s.servers[f].node;
             a.nextIndex[f] == |a.log| && LastIndex(b.log) < LastIndex(a.log)
    ensures Reached(r, s') && Later(s, s') && Exchanged(s, s', l, f) && Refused(s, s', f)
    ensures s'.servers[l].node.nextIndex[f] == LastIndex(s.servers[f].node.log)
  {
    hide HandleAppendReply;
    s' := Exchanging(r, s, l, f);
    var a := s.servers[l].node;
    var args := MessageFor(a, 0, l, f, true).args;
    RefusedReply(a, l, r.commitGuard, f, args, HandleAppendEntries(s.servers[f].node, args).1);
  }

  /** The terms at index 1 differ and the leader has no entry of the follower's term there. */
  lemma Mismatching(r: Rules, s: System, l: nat, f: nat) returns (s': System)
    requires Reached(r, s) && Leads(s, l, f) && s.servers[f].node.role == Follower
    requires s.servers[f].node.currentTerm == s.servers[l].node.currentTerm
    requires var a, b := s.servers[l].node, s.servers[f].node;
             && a.nextIndex[f] == |a.log| == 2 <= |b.log|
             && a.log[1].term > b.log[1].term > 0 && b.log[0] == SENTINEL
    ensures Reached(r, s') && Later(s, s') && Exchanged(s, s', l, f) && Refused(s, s', f)
    ensures s'.servers[l].node.nextIndex[f] == 1
  {
    hide HandleAppendReply;
    var a, b := s.servers[l].node, s.servers[f].node;
    var x := b.log[1].term;
    assert FindLastLogInTerm(a.log, x, 0, 0) == -1;
    assert FindLastLogInTerm(a.log, x, 0, 1) == -1;
    assert FirstOfRun(b.log, x, 1) == 1;
    s' := Exchanging(r, s, l, f);
    var args := MessageFor(a, 0, l, f, true).args;
    RefusedReply(a, l, r.commitGuard, f, args, HandleAppendEntries(b, args).1);
  }

  /** The follower accepts the whole log. Two of three servers then hold it, so the leader commits all of
      it, unless the guard forbids that for its last entry. */
  lemma Accepting(r: Rules, s: System, l: nat, f: nat) returns (s': System)
    requires Reached(r, s) && Leads(s, l, f) && s.servers[f].node.role == Follower
    requires s.servers[f].node.currentTerm == s.servers[l].node.currentTerm
    requires var a, b := s.servers[l].node, s.servers[f].node;
             && 1 <= a.nextIndex[f] <= LastIndex(a.log)
             && a.nextIndex[f] <= |b.log| && a.log[..a.nextIndex[f]] == b.log[..a.nextIndex[f]]
    ensures Reached(r, s') && Later(s, s') && Exchanged(s, s', l, f)
    ensures var a, a', x, x' := s.servers[l].node, s'.servers[l].node, s.servers[f], s'.servers[f];
            && x'.node.log == a.log
            && x'.stored == Longer(x.stored, a.currentTerm, a.log)
            && a'.nextIndex[f] == |a.log|
            && ((r.commitGuard ==> Last(a.log).term == a.currentTerm) ==> a'.commitIndex >= LastIndex(a.log))
  {
    hide HandleAppendEntries, HandleAppendReply;
    s' := Exchanging(r, s, l, f);
    AcceptedLogs(s.servers[l].node, s.servers[f].node, l, f);
    var a := s.servers[l].node;
    var args := MessageFor(a, 0, l, f, true).args;
    AcceptedReply(a, l, f, r.commitGuard, args, HandleAppendEntries(s.servers[f].node, args).1);
  }

  lemma AcceptedLogs(a: Node, b: Node, l: nat, f: nat)
    requires f < |a.nextIndex| && b.currentTerm == a.currentTerm && b.role == Follower
    requires 1 <= a.nextIndex[f] <= LastIndex(a.log) && a.nextIndex[f] <= |b.log|
    requires a.log[..a.nextIndex[f]] == b.log[..a.nextIndex[f]]
    ensures var args := MessageFor(a, 0, l, f, true).args;
            var (b', reply) := HandleAppendEntries(b, args);
            && b' == b.(log := a.log, commitIndex := b'.commitIndex)
            && reply.success && reply.term == a.currentTerm
            && args.term == a.currentTerm && args.prevLogIndex + |args.entries| == LastIndex(a.log)
            && (a.commitIndex <= b.commitIndex ==> b'.commitIndex == b.commitIndex)
  {
    var next := a.nextIndex[f];
    assert a.log[next - 1] == a.log[..next][next - 1] == b.log[..next][next - 1] == b.log[next - 1];
    assert a.log == a.log[..next] + a.log[next..];
  }

  /** A success for the leader's whole log. */
  lemma AcceptedReply(a: Node, l: nat, f: nat, guard: bool, args: AppendEntriesArgs, reply: AppendEntriesReply)
    requires Sized(a, 3) && l < 3 && f < 3 && l != f && a.role == Leader
    requires reply.success && reply.term == args.term == a.currentTerm
    requires args.prevLogIndex + |args.entries| == LastIndex(a.log) > 0
    ensures var a' := HandleAppendReply(a, 0, l, guard, f, args, reply);
            && a' == a.(commitIndex := a'.commitIndex, nextIndex := a'.nextIndex, matchIndex := a'.matchIndex)
            && Sized(a', 3)
            && a'.nextIndex[f] == Max(a.nextIndex[f], |a.log|) && a'.matchIndex[f] >= LastIndex(a.log)
            && a.commitIndex <= a'.commitIndex <= Max(a.commitIndex, LastIndex(a.log))
            && ((guard ==> Last(a.log).term == a.currentTerm) ==> a'.commitIndex >= LastIndex(a.log))
  {
    ReplyCommitBound(a, l, guard, f, args, reply);
    var a1 := Acknowledge(a, 0, f, args, reply);
    if guard ==> Last(a.log).term == a.currentTerm {
      TwoOfThree(a1, l, f, guard, LastIndex(a.log));
      GreatestCommittable(a1, 0, l, guard, a.commitIndex, LastIndex(a.log));
    }
  }

  /** The same without the reply: `s1` is the state in which the message waits, `s'` the one after it is
      processed. */
  lemma Overwriting(r: Rules, s: System, l: nat, f: nat) returns (s1: System, s': System)
    requires Reached(r, s) && Leads(s, l, f) && s.servers[f].node.role == Follower
    requires s.servers[f].node.currentTerm == s.servers[l].node.currentTerm
    requires var a, b := s.servers[l].node, s.servers[f].node;
             && 1 <= a.nextIndex[f] <= LastIndex(a.log)
             && a.nextIndex[f] <= |b.log| && a.log[..a.nextIndex[f]] == b.log[..a.nextIndex[f]]
             && a.commitIndex <= b.commitIndex
    ensures Reached(r, s1) && s1.servers == s.servers && |s1.net| > 0
    ensures s' == Next(r, s1, Deliver(|s1.net| - 1)) && Reached(r, s') && Elsewhere(s, s', f)
    ensures s'.servers[f].node == s.servers[f].node.(log := s.servers[l].node.log)
  {
    hide HandleAppendEntries, Next;
    s1 := Sending(r, s, l, f);
    AcceptedLogs(s.servers[l].node, s.servers[f].node, l, f);
    var args := MessageFor(s.servers[l].node, 0, l, f, true).args;
    s' := ReceivingLast(r, s1, l, f, args, s.servers[l].node.log);
  }

  lemma TwoOfThree(nd: Node, l: nat, f: nat, guard: bool, n: nat)
    requires |nd.matchIndex| == 3 && l < 3 && f < 3 && l != f && nd.matchIndex[f] >= n
    requires 0 < n < |nd.log| && (guard ==> nd.log[n].term == nd.currentTerm)
    ensures Committable(nd, 0, l, guard, n)
  {
    var q := {l, f};
    assert |q| == 2 && q <= Replicas(nd, l, n);
    SubsetCard(q, Replicas(nd, l, n));
  }

  /** The follower holds the leader's log and learns its commit index. */
  lemma Informing(r: Rules, s: System, l: nat, f: nat) returns (s': System)
    requires Reached(r, s) && Leads(s, l, f) && s.servers[f].node.role == Follower
    requires s.servers[f].node.currentTerm == s.servers[l].node.currentTerm
    requires var a, b := s.servers[l].node, s.servers[f].node;
             a.log == b.log && a.nextIndex[f] == |a.log| > 1
    ensures Reached(r, s') && Later(s, s') && Exchanged(s, s', l, f)
    ensures var a, b' := s.servers[l].node, s'.servers[f].node;
            b'.log == a.log && b'.commitIndex >= Min(a.commitIndex, LastIndex(a.log))
  {
    hide HandleAppendReply;
    s' := Exchanging(r, s, l, f);
    var a, b := s.servers[l].node, s.servers[f].node;
    var args := MessageFor(a, 0, l, f, true).args;
    assert Overwrite(b.log, args.prevLogIndex, args.entries) == b.log;
    AcceptedReply(a, l, f, r.commitGuard, args, HandleAppendEntries(b, args).1);
  }

  /** The snapshot exchange that `nextIndex` 0 triggers. Without the rule it clears the follower's vote. */
  lemma Snapshotting(r: Rules, s: System, l: nat, f: nat) returns (s': System)
    requires Reached(r, s) && Leads(s, l, f) && s.servers[l].node.nextIndex[f] == 0
    requires s.servers[f].node.currentTerm == s.servers[l].node.currentTerm
    ensures Reached(r, s') && Later(s, s') && Exchanged(s, s', l, f) && Refused(s, s', f)
    ensures s'.servers[l].node.nextIndex[f] == 1
    ensures !r.keepVote ==> s'.servers[f].node.votedFor == NOBODY
  {
    s' := After(r, s, SnapshotExchange(s, l, f));
    ReachedAfter(r, s, SnapshotExchange(s, l, f));
    SnapshotExchangeEffect(r, s, l, f);
  }
}
