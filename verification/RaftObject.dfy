/** A Raft server as an object (src/raft/raft.go, append_entry.go, request_vote.go, leader_election.go): its
    fields are updated in place and its log is stored at an offset. The ghost field `full` is the logical
    log; every method is proved against the function of module `RaftNode` on the uncompacted node `Abs()`,
    and leaves stable storage holding exactly the live durable state. */
module RaftObject {
  import opened RaftLog
  import opened RaftNode
  import opened Storage
  import opened Compaction
  import opened Operations

  datatype InstallSnapshotArgs = InstallSnapshotArgs(
    term: nat, leaderId: nat, lastIncludeIndex: nat, lastIncludeTerm: nat, data: Bytes)

  datatype ApplyMsg =
    | NoMsg
    | CommandMsg(command: Command, index: nat)
    | SnapshotMsg(data: Bytes, term: nat, index: nat)

  /** The counter and the `sync.Once` shared by the goroutines of one election. */
  class Election {
    var voteCounter: nat
    var done: bool
    const args: RequestVoteArgs

    constructor (args: RequestVoteArgs)
      ensures voteCounter == 1 && !done && this.args == args
    {
      voteCounter, done := 1, false;
      this.args := args;
    }
  }

  /** The first durable state, before anything has been saved. */
  function Recovered(state: State): Durable {
    if state.NoState? then Durable(0, NOBODY, [SENTINEL], 0, 0) else state.durable
  }

  /** What `appendEntries` sends to the peers from `from` on: it stops at the first peer that needs a
      snapshot. */
  function Broadcast(nd: Node, base: nat, me: nat, heartbeat: bool, from: nat): seq<(nat, Outgoing)>
    requires base <= LastIndex(nd.log)
    decreases |nd.nextIndex| - from
  {
    if from >= |nd.nextIndex| then []
    else if from == me then Broadcast(nd, base, me, heartbeat, from + 1)
    else
      match MessageFor(nd, base, me, from, heartbeat)
      case SendSnapshot => [(from, SendSnapshot)]
      case Quiet => Broadcast(nd, base, me, heartbeat, from + 1)
      case SendEntries(args) => [(from, SendEntries(args))] + Broadcast(nd, base, me, heartbeat, from + 1)
  }

  lemma BroadcastStep(nd: Node, base: nat, me: nat, heartbeat: bool, from: nat, out: seq<(nat, Outgoing)>)
    requires base <= LastIndex(nd.log) && from < |nd.nextIndex| && from != me
    ensures var m := MessageFor(nd, base, me, from, heartbeat);
            out + Broadcast(nd, base, me, heartbeat, from) ==
              if m == SendSnapshot then out + [(from, m)]
              else if m == Quiet then out + Broadcast(nd, base, me, heartbeat, from + 1)
              else (out + [(from, m)]) + Broadcast(nd, base, me, heartbeat, from + 1)
  {
    var m := MessageFor(nd, base, me, from, heartbeat);
    var rest := Broadcast(nd, base, me, heartbeat, from + 1);
    assert out + ([(from, m)] + rest) == (out + [(from, m)]) + rest;
  }

  /** Peer `p` is due a message, and no peer before it needs a snapshot. */
  ghost predicate Addressed(nd: Node, base: nat, me: nat, heartbeat: bool, p: nat)
    requires base <= LastIndex(nd.log)
  {
    && p < |nd.nextIndex| && p != me && MessageFor(nd, base, me, p, heartbeat) != Quiet
    && forall q: nat :: q < p && q != me ==> MessageFor(nd, base, me, q, heartbeat) != SendSnapshot
  }

  /** `out` is the message of each addressed peer from `from` on, in the order of the peers, and nothing else. */
  ghost predicate SentFrom(nd: Node, base: nat, me: nat, heartbeat: bool, from: nat, out: seq<(nat, Outgoing)>)
    requires base <= LastIndex(nd.log)
  {
    && (forall p: nat :: from <= p && Addressed(nd, base, me, heartbeat, p) ==>
          (p, MessageFor(nd, base, me, p, heartbeat)) in out)
    && (forall k :: 0 <= k < |out| ==>
          && from <= out[k].0 && Addressed(nd, base, me, heartbeat, out[k].0)
          && out[k].1 == MessageFor(nd, base, me, out[k].0, heartbeat))
    && (forall j, k :: 0 <= j < k < |out| ==> out[j].0 < out[k].0)
  }

  lemma SkipPeer(nd: Node, base: nat, me: nat, heartbeat: bool, from: nat, out: seq<(nat, Outgoing)>)
    requires base <= LastIndex(nd.log) && SentFrom(nd, base, me, heartbeat, from + 1, out)
    requires !Addressed(nd, base, me, heartbeat, from)
    ensures SentFrom(nd, base, me, heartbeat, from, out)
  {
    hide MessageFor, Addressed;
  }

  lemma FirstPeer(nd: Node, base: nat, me: nat, heartbeat: bool, from: nat, out: seq<(nat, Outgoing)>)
    requires base <= LastIndex(nd.log) && SentFrom(nd, base, me, heartbeat, from + 1, out)
    requires Addressed(nd, base, me, heartbeat, from)
    ensures SentFrom(nd, base, me, heartbeat, from, [(from, MessageFor(nd, base, me, from, heartbeat))] + out)
  {
    hide MessageFor;
    var first := (from, MessageFor(nd, base, me, from, heartbeat));
    var all := [first] + out;
    assert all[0] == first;
    forall p: nat | from <= p && Addressed(nd, base, me, heartbeat, p)
      ensures (p, MessageFor(nd, base, me, p, heartbeat)) in all
    {
      assert p == from || (p, MessageFor(nd, base, me, p, heartbeat)) in out;
    }
  }

  /** `Broadcast` sends to all addressed peers, if none before `from` needs a snapshot. */
  lemma {:induction false} BroadcastSends(nd: Node, base: nat, me: nat, heartbeat: bool, from: nat)
    requires base <= LastIndex(nd.log)
    requires forall q: nat :: q < from && q < |nd.nextIndex| && q != me ==>
               MessageFor(nd, base, me, q, heartbeat) != SendSnapshot
    ensures SentFrom(nd, base, me, heartbeat, from, Broadcast(nd, base, me, heartbeat, from))
    decreases |nd.nextIndex| - from
  {
    hide MessageFor, SentFrom;
    if from >= |nd.nextIndex| {
      NobodyLeft(nd, base, me, heartbeat, from);
    } else if from != me && MessageFor(nd, base, me, from, heartbeat) == SendSnapshot {
      NobodyLeft(nd, base, me, heartbeat, from + 1);
      FirstPeer(nd, base, me, heartbeat, from, []);
      assert [(from, SendSnapshot)] + [] == [(from, SendSnapshot)];
    } else {
      var rest := Broadcast(nd, base, me, heartbeat, from + 1);
      BroadcastSends(nd, base, me, heartbeat, from + 1);
      if from == me || MessageFor(nd, base, me, from, heartbeat) == Quiet {
        SkipPeer(nd, base, me, heartbeat, from, rest);
      } else {
        var m := MessageFor(nd, base, me, from, heartbeat);
        assert m == SendEntries(m.args);
        FirstPeer(nd, base, me, heartbeat, from, rest);
        assert Broadcast(nd, base, me, heartbeat, from) == [(from, m)] + rest;
      }
    }
  }

  lemma NobodyLeft(nd: Node, base: nat, me: nat, heartbeat: bool, from: nat)
    requires base <= LastIndex(nd.log)
    requires from >= |nd.nextIndex|
             || (0 < from && from - 1 != me && MessageFor(nd, base, me, from - 1, heartbeat) == SendSnapshot)
    ensures SentFrom(nd, base, me, heartbeat, from, [])
  {
    hide MessageFor;
  }

  class Raft {
    const me: nat
    const peers: nat
    const persister: Persister
    /** The two rules that are not in the code as written; with both false the object is the code. */
    const commitGuard: bool
    const keepVote: bool

    var state: Role
    var currentTerm: nat
    var votedFor: int
    var entries: Log
    var commitIndex: nat
    var lastApplied: nat
    var lastIncludeIndex: nat
    var lastIncludeTerm: nat
    const nextIndex: array<int>
    const matchIndex: array<int>

    ghost var full: Log

    /** The stored log represents the logical log, and the applier is never behind the snapshot. */
    ghost predicate Consistent()
      reads this
    {
      && me < peers && nextIndex.Length == peers && matchIndex.Length == peers && nextIndex != matchIndex
      && Stores(full, entries, lastIncludeIndex, lastIncludeTerm)
      && Indexed(full)
      && lastIncludeIndex <= lastApplied
    }

    /** Stable storage holds the live durable state and a snapshot that covers exactly the snapshot index. */
    ghost predicate Durably()
      reads this, persister
    {
      && Recovered(persister.raftstate) == Live()
      && Covers(persister.snapshot) == lastIncludeIndex
    }

    ghost predicate Valid()
      reads this, persister
    {
      Consistent() && Durably()
    }

    /** The durable fields. */
    function Live(): Durable
      reads this
    {
      Durable(currentTerm, votedFor, entries, lastIncludeIndex, lastIncludeTerm)
    }

    /** The uncompacted node that this object represents. */
    ghost function Abs(): (nd: Node)
      reads this, nextIndex, matchIndex
    {
      Node(state, currentTerm, votedFor, full, commitIndex, lastApplied, nextIndex[..], matchIndex[..])
    }

    // ----- Reading the stored log ------------------------------------------------------------------

    function LastLog(): Entry
      reads this
    {
      entries[|entries| - 1]
    }

    function GetLastIndex(): (i: nat)
      reads this
      ensures Consistent() ==> i == LastIndex(full)
    {
      |entries| - 1 + lastIncludeIndex
    }

    function GetLastTerm(): (t: nat)
      reads this
      ensures Consistent() ==> t == Last(full).term
    {
      if |entries| - 1 == 0 then lastIncludeTerm else entries[|entries| - 1].term
    }

    function RestoreLog(i: nat): (e: Entry)
      requires lastIncludeIndex <= i <= GetLastIndex()
      reads this
      ensures Consistent() && lastIncludeIndex < i ==> e == full[i]
    {
      entries[i - lastIncludeIndex]
    }

    function RestoreLogTerm(i: nat): (t: nat)
      requires lastIncludeIndex <= i <= GetLastIndex()
      reads this
      ensures Consistent() ==> t == full[i].term
    {
      if i - lastIncludeIndex == 0 then lastIncludeTerm else entries[i - lastIncludeIndex].term
    }

    /** The last entry read by votes and heartbeats is the logical last entry unless nothing is stored above
        a snapshot. */
    predicate SuffixStored()
      reads this
    {
      |entries| > 1 || lastIncludeIndex == 0
    }

    lemma LastLogIsLogical()
      requires Consistent()
      ensures SuffixStored() ==> LastLog() == Last(full)
    {
    }

    // ----- Start-up and stable storage -------------------------------------------------------------

    /** `Make`: a node started on what the persister holds. `logical` is the log that the stored entries
        stand for. */
    constructor (peers: nat, me: nat, persister: Persister, commitGuard: bool, keepVote: bool, ghost logical: Log)
      requires me < peers
      requires var d := Recovered(persister.raftstate);
               && Stores(logical, d.entries, d.lastIncludeIndex, d.lastIncludeTerm) && Indexed(logical)
               && Covers(persister.snapshot) == d.lastIncludeIndex
      ensures Valid() && full == logical && Live() == Recovered(persister.raftstate)
      ensures this.peers == peers && this.me == me && this.persister == persister
      ensures this.commitGuard == commitGuard && this.keepVote == keepVote
      ensures fresh(nextIndex) && fresh(matchIndex)
      ensures Abs() == InitialNode(peers).(currentTerm := Recovered(persister.raftstate).currentTerm,
                                           votedFor := Recovered(persister.raftstate).votedFor,
                                           log := logical,
                                           lastApplied := Recovered(persister.raftstate).lastIncludeIndex)
    {
      this.me, this.peers, this.persister := me, peers, persister;
      this.commitGuard, this.keepVote := commitGuard, keepVote;
      state, currentTerm, votedFor := Follower, 0, NOBODY;
      entries := [SENTINEL];
      commitIndex, lastApplied := 0, 0;
      lastIncludeIndex, lastIncludeTerm := 0, 0;
      nextIndex := new int[peers](_ => 0);
      matchIndex := new int[peers](_ => 0);
      full := logical;
      new;
      ReadPersist();
      if lastIncludeIndex > 0 {
        lastApplied := lastIncludeIndex;
      }
    }

    method ReadPersist()
      requires Live() == Durable(0, NOBODY, [SENTINEL], 0, 0)
      modifies this
      ensures Live() == Recovered(persister.raftstate)
      ensures state == old(state) && full == old(full)
      ensures commitIndex == old(commitIndex) && lastApplied == old(lastApplied)
    {
      var stored := persister.ReadRaftState();
      match stored
      case NoState =>
      case Saved(d) =>
        currentTerm, votedFor, entries := d.currentTerm, d.votedFor, d.entries;
        lastIncludeIndex, lastIncludeTerm := d.lastIncludeIndex, d.lastIncludeTerm;
    }

    method PersistData() returns (d: Durable)
      ensures d == Live()
    {
      d := Durable(currentTerm, votedFor, entries, lastIncludeIndex, lastIncludeTerm);
    }

    method Persist()
      modifies persister
      ensures persister.raftstate == Saved(Live()) && persister.snapshot == old(persister.snapshot)
    {
      var d := PersistData();
      persister.SaveRaftState(d);
    }

    // ----- Terms and votes -------------------------------------------------------------------------

    method SetNewTerm(term: nat)
      requires Valid()
      modifies this, persister
      ensures Valid() && Abs() == RaftNode.SetNewTerm(old(Abs()), term)
      ensures lastIncludeIndex == old(lastIncludeIndex) && entries == old(entries)
    {
      if term > currentTerm || currentTerm == 0 {
        state := Follower;
        currentTerm := term;
        votedFor := NOBODY;
        Persist();
      }
    }

    method LeaderElection() returns (e: Election)
      requires Valid()
      modifies this, persister
      ensures Valid() && Abs() == RaftNode.LeaderElection(old(Abs()), me)
      ensures fresh(e) && e.voteCounter == 1 && !e.done && e.args == Ballot(Abs(), me, LastLog())
      ensures SuffixStored() ==> e.args == Ballot(Abs(), me, Last(full))
      ensures lastIncludeIndex == old(lastIncludeIndex) && entries == old(entries)
    {
      LastLogIsLogical();
      currentTerm := currentTerm + 1;
      state := Candidate;
      votedFor := me;
      Persist();
      var lastLog := LastLog();
      e := new Election(RequestVoteArgs(currentTerm, me, lastLog.index, lastLog.term));
    }

    method RequestVote(args: RequestVoteArgs) returns (reply: RequestVoteReply)
      requires Valid()
      modifies this, persister
      ensures Valid() && (Abs(), reply) == HandleRequestVote(old(Abs()), old(LastLog()), args)
      ensures SuffixStored() ==> (Abs(), reply) == HandleRequestVote(old(Abs()), Last(full), args)
      ensures lastIncludeIndex == old(lastIncludeIndex) && entries == old(entries)
    {
      LastLogIsLogical();
      if args.term > currentTerm {
        SetNewTerm(args.term);
      }
      if args.term < currentTerm {
        return RequestVoteReply(currentTerm, false);
      }
      var myLastLog := LastLog();
      var upToDate := args.lastLogTerm > myLastLog.term
                      || (args.lastLogTerm == myLastLog.term && args.lastLogIndex >= myLastLog.index);
      var granted := false;
      if (votedFor == NOBODY || votedFor == args.candidateId) && upToDate {
        granted := true;
        votedFor := args.candidateId;
        Persist();
      }
      reply := RequestVoteReply(currentTerm, granted);
    }

    /** One vote reply. The `sync.Once` is spent only by this election's own win. */
    method CandidateRequestVote(e: Election, reply: RequestVoteReply) returns (out: seq<(nat, Outgoing)>)
      requires Valid() && (e.done ==> !(currentTerm == e.args.term && state == Candidate))
      modifies this, persister, nextIndex, matchIndex, e
      ensures Valid() && (e.done ==> !(currentTerm == e.args.term && state == Candidate))
      ensures (Abs(), e.voteCounter) ==
                HandleVoteReply(old(Abs()), me, old(LastLog()), old(e.voteCounter), e.args, reply)
      ensures SuffixStored() ==>
                (Abs(), e.voteCounter) == HandleVoteReply(old(Abs()), me, Last(full), old(e.voteCounter), e.args, reply)
      ensures out == if old(state) != Leader && state == Leader
                     then Broadcast(Abs(), lastIncludeIndex, me, true, 0) else []
      ensures lastIncludeIndex == old(lastIncludeIndex) && entries == old(entries)
    {
      LastLogIsLogical();
      out := [];
      if reply.term > e.args.term {
        SetNewTerm(reply.term);
        return;
      }
      if reply.term < e.args.term {
        return;
      }
      if !reply.voteGranted {
        return;
      }
      e.voteCounter := e.voteCounter + 1;
      if e.voteCounter > peers / 2 && currentTerm == e.args.term && state == Candidate {
        if !e.done {
          e.done := true;
          BecomeLeader();
          out := AppendEntriesToPeers(true);
        }
      }
    }

    /** What the `sync.Once` of an election runs. */
    method BecomeLeader()
      requires Valid()
      modifies this`state, nextIndex, matchIndex
      ensures Valid() && Abs() == RaftNode.BecomeLeader(old(Abs()), me, LastLog())
    {
      state := Leader;
      var lastLogIndex := LastLog().index;
      for i := 0 to peers
        modifies nextIndex, matchIndex
        invariant forall p :: 0 <= p < i ==> nextIndex[p] == lastLogIndex + 1 && matchIndex[p] == 0
      {
        nextIndex[i] := lastLogIndex + 1;
        matchIndex[i] := 0;
      }
      matchIndex[me] := lastLogIndex;
      assert nextIndex[..] == seq(peers, _ => lastLogIndex + 1);
      assert matchIndex[..] == seq(peers, p => if p == me then lastLogIndex else 0);
    }

    // ----- Leader side -----------------------------------------------------------------------------

    method Start(command: Command) returns (index: int, term: nat, isLeader: bool, out: seq<(nat, Outgoing)>)
      requires Valid()
      modifies this, persister
      ensures Valid() && Abs() == RaftNode.Start(old(Abs()), command)
      ensures isLeader == (old(state) == Leader) && term == old(currentTerm)
      ensures index == if isLeader then |old(full)| else -1
      ensures isLeader ==> Last(full) == Entry(command, term, index)
      ensures out == if isLeader then Broadcast(Abs(), lastIncludeIndex, me, false, 0) else []
      ensures lastIncludeIndex == old(lastIncludeIndex)
    {
      if state != Leader {
        return -1, currentTerm, false, [];
      }
      index := GetLastIndex() + 1;
      term := currentTerm;
      var entry := Entry(command, term, index);
      StoresAppended(full, entries, lastIncludeIndex, lastIncludeTerm, LastIndex(full), [entry]);
      assert full[..|full|] == full && entries[..|entries|] == entries;
      entries := entries + [entry];
      full := full + [entry];
      Persist();
      out := AppendEntriesToPeers(false);
      isLeader := true;
    }

    /** `appendEntries`: the messages for all peers, up to the first one that needs a snapshot. */
    method AppendEntriesToPeers(heartbeat: bool) returns (out: seq<(nat, Outgoing)>)
      requires Consistent()
      ensures out == Broadcast(Abs(), lastIncludeIndex, me, heartbeat, 0)
      ensures SentFrom(Abs(), lastIncludeIndex, me, heartbeat, 0, out)
    {
      hide MessageFor, SentFrom, Addressed;
      BroadcastSends(Abs(), lastIncludeIndex, me, heartbeat, 0);
      out := [];
      ghost var nd := Abs();
      var peer := 0;
      while peer < peers
        invariant 0 <= peer <= peers
        invariant Broadcast(nd, lastIncludeIndex, me, heartbeat, 0)
               == out + Broadcast(nd, lastIncludeIndex, me, heartbeat, peer)
      {
        if peer != me {
          var m := MessageTo(peer, heartbeat);
          BroadcastStep(nd, lastIncludeIndex, me, heartbeat, peer, out);
          if m != Quiet {
            out := out + [(peer, m)];
          }
          if m == SendSnapshot {
            return;
          }
        }
        peer := peer + 1;
      }
    }

    /** The body of the loop of `appendEntries`. Whatever `nextIndex` is, no slice is out of range. */
    method MessageTo(peer: nat, heartbeat: bool) returns (m: Outgoing)
      requires Consistent() && peer < peers
      ensures m == MessageFor(Abs(), lastIncludeIndex, me, peer, heartbeat)
    {
      if nextIndex[peer] - 1 < lastIncludeIndex {
        return SendSnapshot;
      }
      var lastLog := LastLog();
      if lastLog.index >= nextIndex[peer] || heartbeat {
        var next := nextIndex[peer];
        if next <= 0 {
          next := 1;
        }
        if lastLog.index < next {
          next := lastLog.index;
        }
        var prevLogIndex, prevLogTerm := GetPrevLogInfo(peer);
        var suffix := [];
        if GetLastIndex() >= nextIndex[peer] {
          suffix := entries[next - lastIncludeIndex..];
          assert suffix == full[next..];
        }
        m := SendEntries(AppendEntriesArgs(currentTerm, me, prevLogIndex, prevLogTerm, suffix, commitIndex));
      } else {
        m := Quiet;
      }
    }

    method GetPrevLogInfo(server: nat) returns (prevIndex: nat, prevTerm: nat)
      requires Consistent() && server < peers && nextIndex[server] - 1 >= lastIncludeIndex
      ensures prevIndex == Min(nextIndex[server] - 1, LastIndex(full)) && prevTerm == full[prevIndex].term
    {
      prevIndex := nextIndex[server] - 1;
      var lastIndex := GetLastIndex();
      if prevIndex > lastIndex {
        prevIndex := lastIndex;
      }
      prevTerm := RestoreLogTerm(prevIndex);
    }

    method FindLastLogInTerm(x: int) returns (i: int)
      requires Consistent()
      ensures i == RaftNode.FindLastLogInTerm(full, x, lastIncludeIndex, LastIndex(full))
    {
      i := GetLastIndex();
      while i > lastIncludeIndex
        invariant lastIncludeIndex <= i <= LastIndex(full)
        invariant RaftNode.FindLastLogInTerm(full, x, lastIncludeIndex, LastIndex(full))
               == RaftNode.FindLastLogInTerm(full, x, lastIncludeIndex, i)
      {
        var term := RestoreLogTerm(i);
        if term == x {
          return;
        } else if term < x {
          break;
        }
        i := i - 1;
      }
      i := -1;
    }

    /** `leaderSendEntries`, from the reply on. */
    method LeaderSendEntries(serverId: nat, args: AppendEntriesArgs, reply: AppendEntriesReply)
      requires Valid() && serverId < peers
      modifies this, persister, nextIndex, matchIndex
      ensures Valid()
      ensures Abs() == HandleAppendReply(old(Abs()), lastIncludeIndex, me, commitGuard, serverId, args, reply)
      ensures lastIncludeIndex == old(lastIncludeIndex) && entries == old(entries)
    {
      if reply.term > currentTerm {
        SetNewTerm(reply.term);
        return;
      }
      if args.term == currentTerm {
        if reply.success {
          var matched := args.prevLogIndex + |args.entries|;
          var next := matched + 1;
          nextIndex[serverId] := Max(nextIndex[serverId], next);
          matchIndex[serverId] := Max(matchIndex[serverId], matched);
        } else if reply.conflict {
          if reply.xTerm == -1 {
            nextIndex[serverId] := reply.xLen;
          } else {
            var lastLogInXTerm := FindLastLogInTerm(reply.xTerm);
            if lastLogInXTerm > 0 {
              nextIndex[serverId] := lastLogInXTerm;
            } else {
              nextIndex[serverId] := reply.xIndex;
            }
          }
        } else if nextIndex[serverId] > 1 {
          nextIndex[serverId] := nextIndex[serverId] - 1;
        }
        assert Abs() == Acknowledge(old(Abs()), lastIncludeIndex, serverId, args, reply);
        LeaderCommitRule();
      }
    }

    /** `matchIndex` of server `me` is not read: the counter starts at 1 for it. */
    static function ReplicasBelow(nd: Node, me: nat, n: nat, k: nat): set<nat> {
      set p: nat | p < |nd.matchIndex| && (p == me || (p < k && nd.matchIndex[p] >= n))
    }

    static lemma OneReplica(nd: Node, me: nat, n: nat)
      requires me < |nd.matchIndex|
      ensures ReplicasBelow(nd, me, n, 0) == {me}
    {
    }

    static lemma NextReplica(nd: Node, me: nat, n: nat, k: nat)
      requires k < |nd.matchIndex|
      ensures |ReplicasBelow(nd, me, n, k + 1)|
           == |ReplicasBelow(nd, me, n, k)| + if k != me && nd.matchIndex[k] >= n then 1 else 0
    {
      if k != me && nd.matchIndex[k] >= n {
        assert ReplicasBelow(nd, me, n, k + 1) == ReplicasBelow(nd, me, n, k) + {k};
      } else {
        assert ReplicasBelow(nd, me, n, k + 1) == ReplicasBelow(nd, me, n, k);
      }
    }

    static lemma AllReplicas(nd: Node, me: nat, n: nat, k: nat)
      requires k <= |nd.matchIndex|
      ensures |ReplicasBelow(nd, me, n, k)| <= |Replicas(nd, me, n)|
      ensures k == |nd.matchIndex| ==> ReplicasBelow(nd, me, n, k) == Replicas(nd, me, n)
    {
      assert Replicas(nd, me, n) == ReplicasBelow(nd, me, n, k) + (Replicas(nd, me, n) - ReplicasBelow(nd, me, n, k));
    }

    /** The nested loops of `leaderCommitRule` end at the greatest index that may be committed. */
    method LeaderCommitRule()
      requires Valid()
      modifies this`commitIndex
      ensures Valid() && Abs() == RaftNode.LeaderCommitRule(old(Abs()), lastIncludeIndex, me, commitGuard)
    {
      if state != Leader {
        return;
      }
      ghost var nd := Abs();
      var n := commitIndex + 1;
      while n <= GetLastIndex()
        invariant nd.commitIndex + 1 <= n && (n == nd.commitIndex + 1 || n <= LastIndex(full) + 1)
        invariant Consistent() && nd == Abs().(commitIndex := nd.commitIndex)
        invariant if n <= LastIndex(full) + 1
                  then commitIndex == HighestCommittable(nd, lastIncludeIndex, me, commitGuard, nd.commitIndex, n - 1)
                  else commitIndex == nd.commitIndex
        decreases LastIndex(full) - n
      {
        if !commitGuard || (n > lastIncludeIndex && RestoreLogTerm(n) == currentTerm) {
          var reached := MajorityMatched(n);
          assert Replicas(nd, me, n) == Replicas(Abs(), me, n);
          if reached {
            commitIndex := n;
          }
        }
        n := n + 1;
      }
    }

    /** The inner loop: is the counter above half of the cluster at some point? */
    method MajorityMatched(n: nat) returns (reached: bool)
      requires Consistent()
      ensures reached <==> |Replicas(Abs(), me, n)| > peers / 2
    {
      ghost var nd := Abs();
      var counter := 1;
      OneReplica(nd, me, n);
      var serverId := 0;
      reached := false;
      while serverId < peers
        invariant 0 <= serverId <= peers
        invariant counter == |ReplicasBelow(nd, me, n, serverId)|
        invariant serverId > 0 ==> counter <= peers / 2
      {
        NextReplica(nd, me, n, serverId);
        if serverId != me && matchIndex[serverId] >= n {
          counter := counter + 1;
        }
        if counter > peers / 2 {
          AllReplicas(nd, me, n, serverId + 1);
          return true;
        }
        serverId := serverId + 1;
      }
      AllReplicas(nd, me, n, serverId);
    }

    // ----- Follower side ---------------------------------------------------------------------------

    /** The entries of a message carry consecutive indices from `prevLogIndex` + 1 on. */
    ghost static predicate Consecutive(args: AppendEntriesArgs) {
      forall j :: 0 <= j < |args.entries| ==> args.entries[j].index == args.prevLogIndex + 1 + j
    }

    /** The reply on a compacted log: as on the full log, except that the first index of a conflicting run
        is reported only if it is above the snapshot. */
    static function CompactedReply(reply: AppendEntriesReply, base: nat): AppendEntriesReply {
      if reply.conflict && reply.xTerm != -1 && reply.xIndex <= base then reply.(xIndex := 0) else reply
    }

    /** Only a run that reaches the snapshot reports another first index, 0, to which a leader without the
        term answers with a snapshot; without a snapshot nothing is changed. */
    static lemma CompactedReplyFaithful(nd: Node, args: AppendEntriesArgs, base: nat)
      requires Indexed(nd.log) && nd.log[0] == SENTINEL && base <= args.prevLogIndex
      requires forall i :: 1 <= i < |nd.log| ==> nd.log[i].term > 0
      ensures var full := HandleAppendEntries(nd, args).1;
              var reply := CompactedReply(full, base);
              && (base == 0 || full.xIndex > base || !full.conflict || full.xTerm == -1 ==> reply == full)
              && reply == full.(xIndex := reply.xIndex)
              && (reply.xIndex != full.xIndex ==>
                    && reply.xIndex == 0 && full.xIndex <= base <= args.prevLogIndex
                    && nd.log[base].term == full.xTerm)
    {
      if HandleAppendEntries(nd, args).1.conflict {
        ConflictReported(nd, args);
      }
    }

    /** `AppendEntries`: at or above the snapshot index it does what the full-log node does. */
    method AppendEntries(args: AppendEntriesArgs) returns (reply: AppendEntriesReply)
      requires Valid() && Consecutive(args)
      modifies this, persister
      ensures Valid() && lastIncludeIndex == old(lastIncludeIndex)
      ensures args.term != old(currentTerm) || args.prevLogIndex >= lastIncludeIndex ==>
                var (nd, r) := HandleAppendEntries(old(Abs()), args);
                Abs() == nd && reply == CompactedReply(r, lastIncludeIndex)
      ensures args.term == old(currentTerm) && args.prevLogIndex < lastIncludeIndex ==>
                && Abs() == old(Abs()).(role := if old(state) == Candidate then Follower else old(state))
                && reply == AppendEntriesReply(currentTerm, false, false, 0, lastIncludeIndex + 1, 0)
    {
      reply := AppendEntriesReply(currentTerm, false, false, 0, 0, 0);
      if args.term > currentTerm {
        SetNewTerm(args.term);
        return;
      }
      if args.term < currentTerm {
        return;
      }
      if state == Candidate {
        state := Follower;
      }
      if lastIncludeIndex > args.prevLogIndex {
        reply := reply.(xIndex := lastIncludeIndex + 1);
        return;
      }
      if GetLastIndex() < args.prevLogIndex {
        reply := reply.(conflict := true, xTerm := -1, xIndex := -1, xLen := GetLastIndex());
        return;
      }
      if RestoreLogTerm(args.prevLogIndex) != args.prevLogTerm {
        var xTerm := RestoreLogTerm(args.prevLogIndex);
        var first := FirstIndexOfRun(xTerm, args.prevLogIndex);
        reply := reply.(conflict := true, xIndex := first, xTerm := xTerm, xLen := GetLastIndex());
        return;
      }
      WriteEntries(args);
      reply := reply.(success := true);
    }

    /** The write of an accepted message: everything after `prevLogIndex` is replaced. */
    method WriteEntries(args: AppendEntriesArgs)
      requires Consistent() && Consecutive(args) && Covers(persister.snapshot) == lastIncludeIndex
      requires lastIncludeIndex <= args.prevLogIndex <= LastIndex(full)
      modifies this, persister
      ensures Valid() && lastIncludeIndex == old(lastIncludeIndex)
      ensures var nd := old(Abs());
              var log' := Overwrite(nd.log, args.prevLogIndex, args.entries);
              Abs() == nd.(log := log',
                           commitIndex := if args.leaderCommit > nd.commitIndex
                                          then Min(args.leaderCommit, LastIndex(log')) else nd.commitIndex)
    {
      StoresAppended(full, entries, lastIncludeIndex, lastIncludeTerm, args.prevLogIndex, args.entries);
      entries := entries[..args.prevLogIndex + 1 - lastIncludeIndex] + args.entries;
      full := Overwrite(full, args.prevLogIndex, args.entries);
      Persist();
      if args.leaderCommit > commitIndex {
        commitIndex := Min(args.leaderCommit, GetLastIndex());
      }
    }

    /** The loop of `AppendEntries` that looks for the first index of the conflicting term. */
    method FirstIndexOfRun(xTerm: nat, prev: nat) returns (xIndex: nat)
      requires Consistent() && lastIncludeIndex <= prev <= LastIndex(full) && full[prev].term == xTerm
      ensures var first := FirstOfRun(full, xTerm, prev);
              xIndex == if first > lastIncludeIndex then first else 0
    {
      xIndex := 0;
      var i := prev;
      while i > lastIncludeIndex
        invariant lastIncludeIndex <= i <= prev
        invariant FirstOfRun(full, xTerm, prev) == FirstOfRun(full, xTerm, i)
      {
        if RestoreLogTerm(i - 1) != xTerm {
          xIndex := i;
          return;
        }
        i := i - 1;
      }
      FirstOfRunAtMost(full, xTerm, i);
    }

    static lemma FirstOfRunAtMost(log: seq<Entry>, x: nat, i: nat)
      requires i < |log|
      ensures FirstOfRun(log, x, i) <= i
    {
    }

    // ----- Applying --------------------------------------------------------------------------------

    /** One turn of `applier`: the next index after the last applied one, with its own command. */
    method ApplierTurn() returns (msg: ApplyMsg)
      requires Valid()
      modifies this`lastApplied
      ensures Valid()
      ensures if CanApply(old(Abs()))
              then && Abs() == ApplyNext(old(Abs())) && lastIncludeIndex < lastApplied <= LastIndex(full)
                   && msg == CommandMsg(full[lastApplied].command, old(lastApplied) + 1)
              else Abs() == old(Abs()) && msg == NoMsg
    {
      if commitIndex > lastApplied && LastLog().index > lastApplied {
        lastApplied := lastApplied + 1;
        msg := CommandMsg(entries[lastApplied - lastIncludeIndex].command, lastApplied);
      } else {
        msg := NoMsg;
      }
    }

    // ----- Snapshots -------------------------------------------------------------------------------

    /** The temporary log of `Snapshot` and `InstallSnapShot`: a zero slot and everything stored above `index`. */
    method CutAbove(index: nat) returns (temp: Log)
      requires Consistent() && lastIncludeIndex <= index
      ensures temp == [PLACEHOLDER] + if index <= GetLastIndex() then entries[index - lastIncludeIndex + 1..] else []
    {
      temp := [PLACEHOLDER];
      var i := index + 1;
      while i <= GetLastIndex()
        invariant index < i && (i <= GetLastIndex() + 1 || i == index + 1)
        invariant temp == [PLACEHOLDER] + (if index <= GetLastIndex()
                                           then entries[index - lastIncludeIndex + 1..i - lastIncludeIndex] else [])
      {
        temp := temp + [RestoreLog(i)];
        i := i + 1;
      }
    }

    /** `Snapshot`: the service has saved everything up to `index` in `bytes`. Nothing changes for the
        full-log node but `lastApplied`; what is stored now starts at `index`. The code would read past the
        log for an index more than one past its end. */
    method Snapshot(index: nat, bytes: Bytes)
      requires Valid() && Covers(bytes) == index
      requires index <= commitIndex ==> index <= GetLastIndex() + 1
      modifies this, persister
      ensures Valid()
      ensures index <= old(lastIncludeIndex) || index > old(commitIndex) ==>
                Abs() == old(Abs()) && Live() == old(Live()) && persister.snapshot == old(persister.snapshot)
      ensures old(lastIncludeIndex) < index <= old(commitIndex) ==>
                && lastIncludeIndex == index && persister.snapshot == bytes
                && Abs() == old(Abs()).(lastApplied := Max(old(lastApplied), index), log := full)
      ensures old(lastIncludeIndex) < index <= old(commitIndex) && index <= old(GetLastIndex()) ==> full == old(full)
      ensures old(lastIncludeIndex) < index <= old(commitIndex) && index == old(GetLastIndex()) + 1 ==>
                entries == [PLACEHOLDER] && lastIncludeTerm == old(GetLastTerm()) && full[..index] == old(full)
    {
      if lastIncludeIndex >= index || index > commitIndex {
        return;
      }
      var temp := CutAbove(index);
      if index == GetLastIndex() + 1 {
        Compact(index, GetLastTerm(), temp, bytes, full + [Entry(Nil, GetLastTerm(), index)]);
      } else {
        StoresAt(full, entries, lastIncludeIndex, lastIncludeTerm, index);
        Compact(index, RestoreLogTerm(index), temp, bytes, full);
      }
    }

    /** The common end of `Snapshot` and `InstallSnapShot`: `temp` is stored at offset `index`, and the state
        and the snapshot are saved together. */
    method Compact(index: nat, term: nat, temp: Log, bytes: Bytes, ghost log: Log)
      requires Consistent() && Covers(bytes) == index && Stores(log, temp, index, term) && Indexed(log)
      modifies this, persister
      ensures Valid() && Live() == Durable(currentTerm, votedFor, temp, index, term) && persister.snapshot == bytes
      ensures Abs() == old(Abs()).(log := log, commitIndex := Max(old(commitIndex), index),
                                   lastApplied := Max(old(lastApplied), index))
    {
      full := log;
      lastIncludeTerm := term;
      lastIncludeIndex := index;
      entries := temp;
      if index > commitIndex {
        commitIndex := index;
      }
      if index > lastApplied {
        lastApplied := index;
      }
      var d := PersistData();
      persister.SaveStateAndSnapshot(d, bytes);
    }

    /** `InstallSnapShot` of a snapshot that stands for the log `covered`. The log becomes `covered` followed
        by what is stored above it; `InstalledExact` says when that is a log of the protocol. */
    method InstallSnapShot(args: InstallSnapshotArgs, ghost covered: Log) returns (replyTerm: nat, msg: ApplyMsg)
      requires Valid() && Covers(args.data) == args.lastIncludeIndex
      requires LastIndex(covered) == args.lastIncludeIndex && Last(covered).term == args.lastIncludeTerm
      requires covered[0] == SENTINEL && Indexed(covered)
      modifies this, persister
      ensures Valid()
      ensures old(currentTerm) > args.term || old(lastIncludeIndex) >= args.lastIncludeIndex ==>
                && (Abs(), replyTerm) == HandleEmptySnapshot(old(Abs()), keepVote, args.term)
                && lastIncludeIndex == old(lastIncludeIndex) && entries == old(entries) && msg == NoMsg
                && persister.snapshot == old(persister.snapshot)
      ensures old(currentTerm) <= args.term && old(lastIncludeIndex) < args.lastIncludeIndex ==>
                var (nd, t) := HandleEmptySnapshot(old(Abs()), keepVote, args.term);
                && replyTerm == t
                && Abs() == nd.(log := Installed(covered, old(full)),
                                commitIndex := Max(nd.commitIndex, args.lastIncludeIndex),
                                lastApplied := Max(nd.lastApplied, args.lastIncludeIndex))
                && lastIncludeIndex == args.lastIncludeIndex && persister.snapshot == args.data
                && msg == SnapshotMsg(args.data, args.lastIncludeTerm, args.lastIncludeIndex)
    {
      msg := NoMsg;
      if currentTerm > args.term {
        return currentTerm, NoMsg;
      }
      if !(keepVote && currentTerm == args.term) {
        votedFor := NOBODY;
      }
      currentTerm := args.term;
      replyTerm := args.term;
      state := Follower;
      Persist();
      if lastIncludeIndex >= args.lastIncludeIndex {
        return;
      }
      var index := args.lastIncludeIndex;
      var temp := CutAbove(index);
      InstalledStores(index, temp, covered);
      Compact(index, args.lastIncludeTerm, temp, args.data, Installed(covered, full));
      msg := SnapshotMsg(args.data, lastIncludeTerm, lastIncludeIndex);
    }

    lemma InstalledStores(index: nat, temp: Log, covered: Log)
      requires Consistent() && lastIncludeIndex < index
      requires temp == [PLACEHOLDER] + if index <= GetLastIndex() then entries[index - lastIncludeIndex + 1..] else []
      requires LastIndex(covered) == index && covered[0] == SENTINEL && Indexed(covered)
      ensures Stores(Installed(covered, full), temp, index, Last(covered).term)
      ensures Indexed(Installed(covered, full))
    {
    }

    /** The first half of `leaderSendSnapShot`: the message carries data that covers exactly its index. */
    method BuildSnapshot() returns (args: InstallSnapshotArgs)
      requires Valid()
      ensures args == InstallSnapshotArgs(currentTerm, me, lastIncludeIndex, lastIncludeTerm, persister.snapshot)
      ensures Covers(args.data) == args.lastIncludeIndex
      ensures args.lastIncludeIndex <= LastIndex(full) && full[args.lastIncludeIndex].term == args.lastIncludeTerm
    {
      var data := persister.ReadSnapshot();
      args := InstallSnapshotArgs(currentTerm, me, lastIncludeIndex, lastIncludeTerm, data);
    }

    /** The second half of `leaderSendSnapShot`. */
    method SnapshotReplied(server: nat, args: InstallSnapshotArgs, replyTerm: nat)
      requires Valid() && server < peers
      modifies this, persister, nextIndex, matchIndex
      ensures Valid()
      ensures Abs() == HandleSnapshotReply(old(Abs()), keepVote, server, args.term, args.lastIncludeIndex, replyTerm)
      ensures lastIncludeIndex == old(lastIncludeIndex) && entries == old(entries)
    {
      if state != Leader || currentTerm != args.term {
        return;
      }
      if replyTerm > currentTerm {
        state := Follower;
        if !keepVote {
          votedFor := NOBODY;
        }
        Persist();
        return;
      }
      matchIndex[server] := args.lastIncludeIndex;
      nextIndex[server] := args.lastIncludeIndex + 1;
    }
  }

  /** A crash and restart: a new object on a copy of the stable storage. Whenever the lock is free, nothing
      durable is lost. */
  method CrashAndRestart(rf: Raft) returns (rf': Raft)
    requires rf.Valid()
    ensures fresh(rf') && rf'.Valid()
    ensures rf'.Live() == rf.Live() && rf'.persister.snapshot == rf.persister.snapshot
    ensures rf'.Abs() == Restarted(rf.Abs()).(lastApplied := rf.lastIncludeIndex)
  {
    var ps := rf.persister.Copy();
    rf' := new Raft(rf.peers, rf.me, ps, rf.commitGuard, rf.keepVote, rf.full);
  }
}
