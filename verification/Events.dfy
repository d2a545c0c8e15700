/** Event by event, the invariant of module `Invariants` is kept. */
module Events {
  import opened RaftLog
  import opened RaftNode
  import opened Cluster
  import opened Invariants
  import opened Preservation

  /** Server `i` becomes `x` and sends `out`; no reign starts or grows. */
  ghost predicate Becomes(s: System, s': System, i: nat, x: Server, out: seq<Packet>)
    requires i < |s.servers|
  {
    && Shape(s) && Shape(s')
    && s'.servers == s.servers[i := x]
    && s'.net == s.net + out
    && s'.reigns == s.reigns && s'.won == s.won
  }

  /** Nothing happens, or server `i` acts. */
  ghost predicate Moves(s: System, s': System, i: nat)
    requires i < |s.servers|
  {
    s' == s || Acts(s, s', i)
  }

  /** The packets may be sent. */
  ghost predicate Sendable(s: System, out: seq<Packet>) {
    forall k :: 0 <= k < |out| ==> PacketShape(|s.servers|, out[k]) && PacketOk(s, out[k])
  }

  lemma SameReigns(reigns: map<nat, Reign>)
    ensures ReignsGrow(reigns, reigns)
  {
  }

  /** The record of terms led is kept when the stored logs of those terms do not change. */
  lemma OwnReigns(s: System, i: nat)
    requires Inv(s) && i < |s.servers|
    ensures HoldsOwnReigns(s, i)
  {
    forall t | t in s.reigns && s.reigns[t].id == i
      ensures t in s.servers[i].stored && s.servers[i].stored[t] == s.reigns[t].log
    {
      assert ReignOk(s, t);
    }
  }

  /** Enough for an event without a new reign: the server grows and is again in order. */
  lemma Settle(s: System, s': System, i: nat, x: Server, out: seq<Packet>)
    requires Inv(s) && i < |s.servers| && Becomes(s, s', i, x, out)
    requires ServerGrows(s.servers[i], x) && HoldsOwnReigns(s', i)
    requires x.node.log != s.servers[i].node.log ==>
               x.node.currentTerm == s.servers[i].node.currentTerm && Follows(s', x)
    requires ServerOk(s', i)
    requires Sendable(s', out)
    ensures Inv(s') && Acts(s, s', i)
  {
    SameReigns(s.reigns);
    Assemble(s, s', i);
  }

  /** A leader that keeps its term, log and `matchIndex` stays in order. */
  lemma StillLeads(s: System, s': System, i: nat, x: Server, out: seq<Packet>)
    requires Shape(s) && i < |s.servers| && Becomes(s, s', i, x, out)
    requires LeaderOk(s, i) && x.stored == s.servers[i].stored
    requires var a := s.servers[i].node;
             && x.node.role == a.role && x.node.currentTerm == a.currentTerm
             && x.node.log == a.log && x.node.matchIndex == a.matchIndex
    ensures LeaderOk(s', i)
  {
    forall p: nat | p < |s'.servers| && x.node.role == Leader ensures MatchOk(s', i, p) {
      assert MatchOk(s, i, p);
    }
  }

  /** A candidate that keeps its node and votes, and has counted no more than it may, stays in order. */
  lemma StillStands(s: System, s': System, i: nat, x: Server, out: seq<Packet>)
    requires Shape(s) && i < |s.servers| && Becomes(s, s', i, x, out)
    requires CandidateOk(s, i)
    requires var a := s.servers[i];
             && x.node.role == a.node.role && x.node.currentTerm == a.node.currentTerm
             && x.node.log == a.node.log && x.votes == a.votes && x.awaiting <= a.awaiting
    requires x.node.role == Candidate ==>
               x.voteCounter <= |Counted(s', i)| || x.voteCounter == s.servers[i].voteCounter
    ensures CandidateOk(s', i)
  {
    SubsetCard(Counted(s, i), Counted(s', i));
  }

  /** The server's term, role, votes, log and records stay. */
  lemma Unmoved(s: System, s': System, i: nat, x: Server, out: seq<Packet>)
    requires Inv(s) && i < |s.servers| && Becomes(s, s', i, x, out)
    requires var a := s.servers[i];
             && x.node == a.node.(commitIndex := x.node.commitIndex, lastApplied := x.node.lastApplied,
                                  nextIndex := x.node.nextIndex, matchIndex := x.node.matchIndex)
             && x.votes == a.votes && x.stored == a.stored
    requires LeaderOk(s', i) && CandidateOk(s', i)
    requires Sendable(s', out)
    ensures Inv(s') && Acts(s, s', i)
  {
    OwnReigns(s, i);
    assert ServerOk(s, i);
    Settle(s, s', i, x, out);
  }

  /** Nothing changes that the invariant reads. */
  lemma Idles(s: System, s': System, i: nat, x: Server, out: seq<Packet>)
    requires Inv(s) && i < |s.servers| && Becomes(s, s', i, x, out)
    requires var a := s.servers[i];
             && x.node == a.node.(commitIndex := x.node.commitIndex, lastApplied := x.node.lastApplied)
             && x.votes == a.votes && x.stored == a.stored
             && x.awaiting == a.awaiting && x.voteCounter == a.voteCounter
    requires Sendable(s', out)
    ensures Inv(s') && Acts(s, s', i)
  {
    assert ServerOk(s, i);
    StillLeads(s, s', i, x, out);
    StillStands(s, s', i, x, out);
    Unmoved(s, s', i, x, out);
  }

  /** The server becomes a follower, in a later term without a vote or in the same term with its vote. */
  lemma StepsDown(s: System, s': System, i: nat, x: Server, out: seq<Packet>)
    requires Inv(s) && i < |s.servers| && Becomes(s, s', i, x, out)
    requires var a := s.servers[i];
             && x.node.role == Follower && x.node.log == a.node.log
             && x.votes == a.votes && x.stored == a.stored
             && x.node.currentTerm >= a.node.currentTerm
             && x.node.votedFor == (if x.node.currentTerm == a.node.currentTerm then a.node.votedFor else NOBODY)
    requires Sendable(s', out)
    ensures Inv(s') && Acts(s, s', i)
  {
    OwnReigns(s, i);
    assert ServerOk(s, i);
    Settle(s, s', i, x, out);
  }

  lemma TimeoutKeeps(s: System, i: nat)
    requires Inv(s) && i < |s.servers|
    ensures Inv(OnTimeout(s, i)) && Moves(s, OnTimeout(s, i), i)
  {
    var s' := OnTimeout(s, i);
    var x := s'.servers[i];
    var t := x.node.currentTerm;
    OwnReigns(s, i);
    assert ServerOk(s, i);
    assert CandidateOk(s', i) by {
      assert VotedFor(x, t, i);
      assert {i} <= Counted(s', i);
      SubsetCard({i}, Counted(s', i));
      assert t in s.reigns ==> ReignOk(s, t);
    }
    assert PacketOk(s', VoteRequest(i, Ballot(x.node, i, Last(x.node.log))));
    Settle(s, s', i, x, [VoteRequest(i, Ballot(x.node, i, Last(x.node.log)))]);
  }

  /** A granted vote: the server is not a candidate, and its vote is on record. */
  lemma Grants(s: System, s': System, i: nat, x: Server, c: nat, out: seq<Packet>)
    requires Inv(s) && i < |s.servers| && c != i && Becomes(s, s', i, x, out)
    requires var a := s.servers[i];
             var t := x.node.currentTerm;
             && x == a.(node := x.node, votes := a.votes[t := c])
             && x.node.log == a.node.log && x.node.votedFor == c
             && if t == a.node.currentTerm
                then x.node == a.node.(votedFor := c) && (a.node.votedFor == NOBODY || a.node.votedFor == c)
                else t > a.node.currentTerm && x.node.role == Follower
    requires Sendable(s', out)
    ensures Inv(s') && Acts(s, s', i)
  {
    OwnReigns(s, i);
    assert ServerOk(s, i);
    if x.node.role == Leader {
      StillLeads(s, s', i, x, out);
    }
    Settle(s, s', i, x, out);
  }

  lemma BallotKeeps(s: System, p: Packet, dst: nat)
    requires Inv(s) && p.VoteRequest? && PacketShape(|s.servers|, p) && PacketOk(s, p) && dst < |s.servers|
    ensures Inv(OnBallot(s, p, dst)) && Moves(s, OnBallot(s, p, dst), dst)
  {
    if p.src != dst {
      var s' := OnBallot(s, p, dst);
      var a, x := s.servers[dst], s'.servers[dst];
      var (nd, vote) := HandleRequestVote(a.node, Last(a.node.log), p.ballot);
      var out := VoteReply(dst, p.src, p.ballot, vote);
      assert PacketOk(s', out);
      if vote.voteGranted {
        Grants(s, s', dst, x, p.src, [out]);
      } else if p.ballot.term > a.node.currentTerm {
        StepsDown(s, s', dst, x, [out]);
      } else {
        Idles(s, s', dst, x, [out]);
      }
    }
  }

  lemma SnapshotKeeps(r: Rules, s: System, p: Packet)
    requires Inv(s) && r.keepVote && p.SnapshotRequest? && PacketShape(|s.servers|, p)
    ensures Inv(OnSnapshot(r, s, p)) && Moves(s, OnSnapshot(r, s, p), p.dst)
  {
    var s' := OnSnapshot(r, s, p);
    var a, x := s.servers[p.dst], s'.servers[p.dst];
    var (nd, term) := HandleEmptySnapshot(a.node, r.keepVote, p.term);
    var out := SnapshotReply(p.dst, p.src, p.term, term);
    assert PacketOk(s', out);
    if a.node.currentTerm > p.term {
      Idles(s, s', p.dst, x, [out]);
    } else {
      StepsDown(s, s', p.dst, x, [out]);
    }
  }

  lemma RestartKeeps(s: System, i: nat)
    requires Inv(s) && i < |s.servers|
    ensures Inv(OnRestart(s, i)) && Moves(s, OnRestart(s, i), i)
  {
    StepsDown(s, OnRestart(s, i), i, OnRestart(s, i).servers[i], []);
  }

  lemma ApplyKeeps(s: System, i: nat)
    requires Inv(s) && i < |s.servers|
    ensures Inv(OnApply(s, i)) && Moves(s, OnApply(s, i), i)
  {
    if CanApply(s.servers[i].node) {
      Idles(s, OnApply(s, i), i, OnApply(s, i).servers[i], []);
    }
  }

  lemma BuildSnapshotKeeps(s: System, i: nat, peer: nat)
    requires Inv(s) && i < |s.servers| && peer < |s.servers|
    ensures Inv(OnBuildSnapshot(s, i, peer)) && Moves(s, OnBuildSnapshot(s, i, peer), i)
  {
    var s' := OnBuildSnapshot(s, i, peer);
    if s' != s {
      Idles(s, s', i, s'.servers[i], [SnapshotRequest(i, peer, s.servers[i].node.currentTerm)]);
    }
  }

  // ----- Votes counted and elections won -----------------------------------------------------------

  lemma CountsVote(s: System, s': System, i: nat, x: Server, q: nat)
    requires Shape(s) && i < |s.servers| && Becomes(s, s', i, x, [])
    requires CandidateOk(s, i) && s.servers[i].node.role == Candidate
    requires var a := s.servers[i];
             && x == a.(voteCounter := a.voteCounter + 1, awaiting := a.awaiting - {q})
             && q in a.awaiting && q < |s.servers| && VotedFor(s.servers[q], a.node.currentTerm, i)
    ensures x.voteCounter <= |Counted(s', i)|
  {
    OneMore(Counted(s, i), Counted(s', i), q);
  }

  /** A candidate with a majority is the first and only leader of its term. */
  lemma TermIsOpen(s: System, i: nat)
    requires Inv(s) && i < |s.servers| && s.servers[i].node.role == Candidate
    requires Majority(|s.servers|, Voters(s, s.servers[i].node.currentTerm, i))
    ensures s.servers[i].node.currentTerm !in s.reigns
  {
    var t := s.servers[i].node.currentTerm;
    assert ServerOk(s, i);
    if t in s.reigns {
      assert ReignOk(s, t);
      var v := MajoritiesMeet(|s.servers|, Voters(s, t, i), Voters(s, t, s.reigns[t].id));
      assert false;
    }
  }

  /** Candidate `i` wins its term and becomes `x`. */
  ghost predicate Elected(s: System, s': System, i: nat, x: Server)
    requires i < |s.servers|
  {
    var a := s.servers[i];
    var t := a.node.currentTerm;
    && Shape(s) && Shape(s') && s'.servers == s.servers[i := x] && s'.net == s.net
    && a.node.role == Candidate && t !in s.reigns
    && x.node == BecomeLeader(a.node, i, Last(a.node.log))
    && x.votes == a.votes && x.stored == a.stored[t := a.node.log]
    && s'.reigns == s.reigns[t := Reign(i, |a.node.log|, a.node.log)]
    && s'.won == s.won + {(t, i)}
  }

  lemma NewReign(s: System, s': System, i: nat, x: Server)
    requires i < |s.servers| && Elected(s, s', i, x)
    requires LogOk(s, s.servers[i]) && CandidateOk(s, i)
    requires Majority(|s.servers|, Voters(s', x.node.currentTerm, i))
    ensures ReignsGrow(s.reigns, s'.reigns) && ReignOk(s', x.node.currentTerm)
  {
    WellFormedGrows(s.reigns, s'.reigns, x.node.log);
    forall j | 0 <= j < |x.node.log| ensures x.node.log[j].term < x.node.currentTerm {
      LastIsGreatest(x.node.log, j);
    }
  }

  lemma NewLeader(s: System, s': System, i: nat, x: Server)
    requires i < |s.servers| && Elected(s, s', i, x)
    requires ServerOk(s, i) && ReignsGrow(s.reigns, s'.reigns)
    ensures ServerOk(s', i)
  {
    WellFormedGrows(s.reigns, s'.reigns, x.node.log);
    StoredGrows(s, s', s.servers[i]);
    assert LeaderOk(s', i) by {
      forall p: nat | p < |s'.servers| ensures MatchOk(s', i, p) {
      }
    }
  }

  lemma WinnerActs(s: System, s': System, i: nat, x: Server)
    requires i < |s.servers| && Elected(s, s', i, x)
    requires HoldsOwnReigns(s, i) && StoredOk(s, s.servers[i]) && ReignsGrow(s.reigns, s'.reigns)
    ensures Acts(s, s', i)
  {
  }

  lemma Wins(s: System, s': System, i: nat, x: Server)
    requires Inv(s) && i < |s.servers| && Elected(s, s', i, x)
    requires Majority(|s.servers|, Voters(s', x.node.currentTerm, i))
    ensures Inv(s') && Acts(s, s', i)
  {
    hide Acts, ReignOk, LogOk, VotesOk, StoredOk, PacketOk;
    OwnReigns(s, i);
    assert ServerOk(s, i);
    NewReign(s, s', i, x);
    NewLeader(s, s', i, x);
    WinnerActs(s, s', i, x);
    Assemble(s, s', i);
  }

  lemma VoteReplyKeeps(s: System, p: Packet)
    requires Inv(s) && p.VoteReply? && PacketShape(|s.servers|, p) && PacketOk(s, p)
    ensures Inv(OnVoteReply(s, p)) && Moves(s, OnVoteReply(s, p), p.dst)
  {
    var i := p.dst;
    var a := s.servers[i];
    var s' := OnVoteReply(s, p);
    var x := s'.servers[i];
    if p.ballot.term == a.node.currentTerm && p.src in a.awaiting {
      if p.vote.term > p.ballot.term {
        StepsDown(s, s', i, x, []);
      } else if p.vote.term < p.ballot.term || !p.vote.voteGranted {
        assert ServerOk(s, i);
        StillLeads(s, s', i, x, []);
        StillStands(s, s', i, x, []);
        Unmoved(s, s', i, x, []);
      } else {
        VoteGrantedKeeps(s, p);
      }
    } else if p.vote.term > p.ballot.term {
      if x.node.currentTerm == a.node.currentTerm {
        Idles(s, s', i, x, []);
      } else {
        StepsDown(s, s', i, x, []);
      }
    }
  }

  /** The vote of `p` counts: what the candidate's counter and the awaited replies become. */
  function Tallied(s: System, p: Packet): (s1: System)
    requires Shape(s) && p.VoteReply? && PacketShape(|s.servers|, p)
    ensures Shape(s1) && |s1.servers| == |s.servers|
  {
    var a := s.servers[p.dst];
    Put(s, p.dst, a.(voteCounter := a.voteCounter + 1, awaiting := a.awaiting - {p.src}), [])
  }

  /** The counter passes half of the cluster while the candidate still stands. */
  predicate Decisive(s: System, p: Packet)
    requires p.VoteReply? && PacketShape(|s.servers|, p)
  {
    s.servers[p.dst].voteCounter + 1 > |s.servers| / 2 && s.servers[p.dst].node.role == Candidate
  }

  lemma TallyEffect(s: System, p: Packet)
    requires Shape(s) && p.VoteReply? && PacketShape(|s.servers|, p)
    requires p.ballot.term == s.servers[p.dst].node.currentTerm && p.src in s.servers[p.dst].awaiting
    requires p.vote.term == p.ballot.term && p.vote.voteGranted
    requires Decisive(s, p) ==> p.ballot.term !in s.reigns
    ensures var s' := OnVoteReply(s, p);
            if Decisive(s, p)
            then Elected(s, s', p.dst, s'.servers[p.dst]) && s'.servers[p.dst].node.currentTerm == p.ballot.term
            else s' == Tallied(s, p)
  {
  }

  lemma TallyMajority(s: System, i: nat, s1: System)
    requires i < |s.servers| && |s1.servers| == |s.servers|
    requires forall v :: 0 <= v < |s.servers| ==> s1.servers[v].votes == s.servers[v].votes
    requires s1.servers[i].node.currentTerm == s.servers[i].node.currentTerm
    requires |s.servers| / 2 < |Counted(s1, i)|
    ensures Majority(|s.servers|, Voters(s, s.servers[i].node.currentTerm, i))
  {
    MajorityGrows(|s.servers|, Counted(s1, i), Voters(s, s.servers[i].node.currentTerm, i));
  }

  lemma SameVoters(s: System, s': System, t: nat, c: nat)
    requires |s'.servers| == |s.servers|
    requires forall v :: 0 <= v < |s.servers| ==> s'.servers[v].votes == s.servers[v].votes
    ensures Voters(s', t, c) == Voters(s, t, c)
  {
  }

  /** The candidate's count of the vote that `p` reports is backed by the votes cast for it. */
  lemma TallyCounted(s: System, p: Packet)
    requires Inv(s) && p.VoteReply? && PacketShape(|s.servers|, p) && PacketOk(s, p)
    requires p.ballot.term == s.servers[p.dst].node.currentTerm && p.src in s.servers[p.dst].awaiting
    requires p.vote.term == p.ballot.term && p.vote.voteGranted
    requires s.servers[p.dst].node.role == Candidate
    ensures s.servers[p.dst].voteCounter + 1 <= |Counted(Tallied(s, p), p.dst)|
  {
    hide ReignOk, LogOk, StoredOk, VotesOk;
    var s1 := Tallied(s, p);
    assert ServerOk(s, p.dst);
    CountsVote(s, s1, p.dst, s1.servers[p.dst], p.src);
  }

  lemma DecisiveVoteKeeps(s: System, p: Packet)
    requires Inv(s) && p.VoteReply? && PacketShape(|s.servers|, p) && PacketOk(s, p) && Decisive(s, p)
    requires p.ballot.term == s.servers[p.dst].node.currentTerm && p.src in s.servers[p.dst].awaiting
    requires p.vote.term == p.ballot.term && p.vote.voteGranted
    ensures Inv(OnVoteReply(s, p)) && Moves(s, OnVoteReply(s, p), p.dst)
  {
    hide OnVoteReply, Acts, ServerOk, ReignOk, PacketOk, Counted, Voters, Majority;
    TallyCounted(s, p);
    TallyMajority(s, p.dst, Tallied(s, p));
    TermIsOpen(s, p.dst);
    TallyEffect(s, p);
    var s' := OnVoteReply(s, p);
    SameVoters(s, s', p.ballot.term, p.dst);
    Wins(s, s', p.dst, s'.servers[p.dst]);
  }

  lemma VoteGrantedKeeps(s: System, p: Packet)
    requires Inv(s) && p.VoteReply? && PacketShape(|s.servers|, p) && PacketOk(s, p)
    requires p.ballot.term == s.servers[p.dst].node.currentTerm && p.src in s.servers[p.dst].awaiting
    requires p.vote.term == p.ballot.term && p.vote.voteGranted
    ensures Inv(OnVoteReply(s, p)) && Moves(s, OnVoteReply(s, p), p.dst)
  {
    hide OnVoteReply, ReignOk, LogOk, StoredOk, VotesOk;
    if Decisive(s, p) {
      DecisiveVoteKeeps(s, p);
    } else {
      var i, s1 := p.dst, Tallied(s, p);
      assert ServerOk(s, i);
      if s.servers[i].node.role == Candidate {
        TallyCounted(s, p);
      }
      TallyEffect(s, p);
      StillLeads(s, s1, i, s1.servers[i], []);
      StillStands(s, s1, i, s1.servers[i], []);
      Unmoved(s, s1, i, s1.servers[i], []);
    }
  }

  // ----- Replication -------------------------------------------------------------------------------

  lemma AppendWellFormed(reigns: map<nat, Reign>, reigns': map<nat, Reign>, t: nat, log: Log, e: Entry)
    requires WellFormed(reigns, log) && ReignsGrow(reigns, reigns') && Last(log).term <= t
    requires e.term == t && e.index == |log| && t in reigns' && reigns'[t].log == log + [e]
    ensures WellFormed(reigns', log + [e])
  {
    WellFormedGrows(reigns, reigns', log);
    var log' := log + [e];
    forall i | 1 <= i < |log'| ensures Owned(reigns', log', i) {
      if i < |log| {
        assert Owned(reigns', log, i);
        assert log'[..i + 1] == log[..i + 1];
      }
    }
    forall i, j | 0 <= i < j < |log'| ensures log'[i].term <= log'[j].term {
      LastIsGreatest(log, i);
    }
  }

  /** Leader `i` appends `e` in its own term. */
  ghost predicate Extends(s: System, s': System, i: nat, x: Server, e: Entry)
    requires i < |s.servers|
  {
    var a := s.servers[i];
    var t := a.node.currentTerm;
    && Shape(s) && Shape(s') && s'.servers == s.servers[i := x] && s'.net == s.net && s'.won == s.won
    && a.node.role == Leader && t in s.reigns
    && e.term == t && e.index == |a.node.log|
    && x == a.(node := a.node.(log := a.node.log + [e]), stored := a.stored[t := a.node.log + [e]])
    && s'.reigns == s.reigns[t := s.reigns[t].(log := a.node.log + [e])]
  }

  lemma ExtendsReigns(s: System, s': System, i: nat, x: Server, e: Entry)
    requires i < |s.servers| && Extends(s, s', i, x, e) && LeaderOk(s, i)
    ensures ReignsGrow(s.reigns, s'.reigns)
  {
    var a := s.servers[i].node;
    assert (a.log + [e])[..|a.log|] == a.log;
  }

  lemma ExtendedReign(s: System, s': System, i: nat, x: Server, e: Entry)
    requires i < |s.servers| && Extends(s, s', i, x, e) && LeaderOk(s, i) && LogOk(s, s.servers[i])
    requires ReignOk(s, e.term)
    ensures ReignOk(s', e.term)
  {
    hide MatchOk, Sorted, Indexed, Owned, Coherent, Majority, Voters;
    ExtendsReigns(s, s', i, x, e);
    AppendWellFormed(s.reigns, s'.reigns, e.term, s.servers[i].node.log, e);
    SameVoters(s, s', e.term, i);
  }

  lemma ExtendedLeader(s: System, s': System, i: nat, x: Server, e: Entry)
    requires i < |s.servers| && Extends(s, s', i, x, e) && ServerOk(s, i)
    ensures ServerOk(s', i)
  {
    ExtendsReigns(s, s', i, x, e);
    AppendWellFormed(s.reigns, s'.reigns, e.term, s.servers[i].node.log, e);
    StoredGrows(s, s', s.servers[i]);
    forall p: nat | p < |s'.servers| ensures MatchOk(s', i, p) {
      assert MatchOk(s, i, p);
    }
  }

  lemma ExtenderActs(s: System, s': System, i: nat, x: Server, e: Entry)
    requires i < |s.servers| && Extends(s, s', i, x, e) && LeaderOk(s, i) && HoldsOwnReigns(s, i)
    requires ReignOk(s, e.term)
    ensures Acts(s, s', i)
  {
    hide WellFormed, OwnTerm, Majority, MatchOk, Voters;
    ExtendsReigns(s, s', i, x, e);
  }

  lemma ClientStartEffect(s: System, i: nat, command: Command)
    requires Shape(s) && i < |s.servers| && s.servers[i].node.role == Leader && LeaderOk(s, i)
    ensures var a := s.servers[i].node;
            var s' := OnClientStart(s, i, command);
            Extends(s, s', i, s'.servers[i], Entry(command, a.currentTerm, |a.log|))
  {
  }

  lemma ClientStartKeeps(s: System, i: nat, command: Command)
    requires Inv(s) && i < |s.servers|
    ensures Inv(OnClientStart(s, i, command)) && Moves(s, OnClientStart(s, i, command), i)
  {
    var a := s.servers[i].node;
    if a.role == Leader {
      assert ServerOk(s, i);
      assert ReignOk(s, a.currentTerm);
      OwnReigns(s, i);
      ClientStartEffect(s, i, command);
      ExtensionKeeps(s, OnClientStart(s, i, command), i, Entry(command, a.currentTerm, |a.log|));
    }
  }

  lemma ExtensionKeeps(s: System, s': System, i: nat, e: Entry)
    requires Inv(s) && i < |s.servers| && i < |s'.servers| && Extends(s, s', i, s'.servers[i], e)
    requires ServerOk(s, i) && ReignOk(s, e.term) && HoldsOwnReigns(s, i)
    ensures Inv(s') && Acts(s, s', i)
  {
    hide Acts, ReignOk, LogOk, VotesOk, CandidateOk, StoredOk;
    ExtenderActs(s, s', i, s'.servers[i], e);
    ExtendedReign(s, s', i, s'.servers[i], e);
    ExtendedLeader(s, s', i, s'.servers[i], e);
    Assemble(s, s', i);
  }

  /** A message of any leader, whatever its `nextIndex`, carries the whole suffix of its log. */
  lemma MessageCarriesSuffix(nd: Node, me: nat, peer: nat, heartbeat: bool)
    requires peer < |nd.nextIndex| && MessageFor(nd, 0, me, peer, heartbeat).SendEntries?
    ensures CarriesSuffix(MessageFor(nd, 0, me, peer, heartbeat).args, nd.log)
  {
    assert nd.log[|nd.log|..] == [];
  }

  lemma MessageOk(s: System, i: nat, peer: nat, heartbeat: bool)
    requires Shape(s) && i < |s.servers| && peer < |s.servers| && LeaderOk(s, i)
    requires s.servers[i].node.role == Leader && ReignOk(s, s.servers[i].node.currentTerm)
    requires MessageFor(s.servers[i].node, 0, i, peer, heartbeat).SendEntries?
    ensures var a := s.servers[i].node;
            FromLeader(s, i, MessageFor(a, 0, i, peer, heartbeat).args, a.log)
  {
    MessageCarriesSuffix(s.servers[i].node, i, peer, heartbeat);
  }

  /** Whatever a leader sends is its whole suffix. */
  lemma LeaderMessageOk(s: System, i: nat, peer: nat, heartbeat: bool)
    requires Inv(s) && i < |s.servers| && peer < |s.servers| && s.servers[i].node.role == Leader
    requires MessageFor(s.servers[i].node, 0, i, peer, heartbeat).SendEntries?
    ensures var a := s.servers[i].node;
            FromLeader(s, i, MessageFor(a, 0, i, peer, heartbeat).args, a.log)
  {
    assert ServerOk(s, i);
    assert ReignOk(s, s.servers[i].node.currentTerm);
    MessageOk(s, i, peer, heartbeat);
  }

  /** A leader may send what it built from its log. */
  lemma SendsKeeps(s: System, i: nat, peer: nat, args: AppendEntriesArgs)
    requires Inv(s) && i < |s.servers| && peer < |s.servers| && peer != i
    requires FromLeader(s, i, args, s.servers[i].node.log)
    ensures var s' := Put(s, i, s.servers[i], [EntriesRequest(i, peer, args, s.servers[i].node.log)]);
            Inv(s') && Moves(s, s', i)
  {
    var out := EntriesRequest(i, peer, args, s.servers[i].node.log);
    Idles(s, Put(s, i, s.servers[i], [out]), i, s.servers[i], [out]);
  }

  lemma LaunchKeeps(s: System, i: nat, peer: nat)
    requires Inv(s) && i < |s.servers|
    ensures var x := s.servers[i].(snapshotsDue := s.servers[i].snapshotsDue + multiset{peer});
            Inv(Put(s, i, x, [])) && Moves(s, Put(s, i, x, []), i)
  {
    var x := s.servers[i].(snapshotsDue := s.servers[i].snapshotsDue + multiset{peer});
    Idles(s, Put(s, i, x, []), i, x, []);
  }

  lemma AppendToKeeps(s: System, i: nat, peer: nat, heartbeat: bool)
    requires Inv(s) && i < |s.servers| && peer < |s.servers|
    ensures Inv(OnAppendTo(s, i, peer, heartbeat)) && Moves(s, OnAppendTo(s, i, peer, heartbeat), i)
  {
    hide ReignOk, ServerOk, PacketOk, Acts;
    var a := s.servers[i];
    if a.node.role == Leader && peer != i {
      match MessageFor(a.node, 0, i, peer, heartbeat)
      case Quiet =>
      case SendSnapshot =>
        LaunchKeeps(s, i, peer);
      case SendEntries(args) =>
        LeaderMessageOk(s, i, peer, heartbeat);
        SendsKeeps(s, i, peer, args);
    }
  }

  // ----- Receiving entries -------------------------------------------------------------------------

  lemma {:induction false} FirstOfRunBounds(log: seq<Entry>, x: nat, i: nat)
    requires i < |log| && log[i].term == x && log[0].term != x
    ensures 1 <= FirstOfRun(log, x, i) <= i
    ensures forall j :: FirstOfRun(log, x, i) <= j <= i ==> log[j].term == x
    ensures log[FirstOfRun(log, x, i) - 1].term != x
  {
    if i > 0 && log[i - 1].term == x {
      FirstOfRunBounds(log, x, i - 1);
    }
  }

  /** The reply to an accepted or refused message is in order when its claims are. */
  lemma ReplySendable(s: System, s': System, p: Packet, reply: AppendEntriesReply)
    requires p.EntriesRequest? && PacketShape(|s.servers|, p) && FromLeader(s, p.src, p.args, p.built)
    requires s'.reigns == s.reigns && |s'.servers| == |s.servers|
    requires reply.success ==> Stored(s'.servers[p.dst], p.args.term, |p.built|)
    requires reply.conflict ==> ConflictOk(s, p.args, reply)
    ensures PacketOk(s', EntriesReply(p.dst, p.src, p.args, reply))
  {
    AgreeAt(p.built, s.reigns[p.args.term].log, |p.built|, p.args.prevLogIndex);
  }

  /** A mismatch at `prevLogIndex` names a term that really has an entry there. */
  lemma MismatchOk(s: System, p: Packet, log: Log)
    requires p.EntriesRequest? && FromLeader(s, p.src, p.args, p.built)
    requires WellFormed(s.reigns, log) && WellFormed(s.reigns, p.built) && 0 !in s.reigns
    requires p.args.prevLogIndex < |log| && log[p.args.prevLogIndex].term != p.args.prevLogTerm
    ensures var xTerm := log[p.args.prevLogIndex].term;
            ConflictOk(s, p.args, AppendEntriesReply(p.args.term, false, true, xTerm,
                                    FirstOfRun(log, xTerm, p.args.prevLogIndex), LastIndex(log)))
  {
    var i := p.args.prevLogIndex;
    assert i >= 1;
    assert Owned(s.reigns, log, i);
    AgreeAt(log, s.reigns[log[i].term].log, i + 1, i);
    FirstOfRunBounds(log, log[i].term, i);
  }

  /** Success means whole-log equality: the log after the write is the log the message was built from. */
  lemma AcceptedLog(reigns: map<nat, Reign>, log: Log, args: AppendEntriesArgs, built: Log)
    requires Coherent(reigns, log) && Coherent(reigns, built) && CarriesSuffix(args, built)
    requires args.prevLogIndex < |log| && log[args.prevLogIndex].term == args.prevLogTerm
    ensures Overwrite(log, args.prevLogIndex, args.entries) == built
  {
    CoherentMatch(reigns, log, built, args.prevLogIndex);
    assert built == built[..args.prevLogIndex + 1] + built[args.prevLogIndex + 1..];
  }

  /** Follower `i` stores the log `built` of the leader of its term. */
  ghost predicate Accepts(s: System, s': System, i: nat, x: Server, out: seq<Packet>, built: Log)
    requires i < |s.servers|
  {
    var a := s.servers[i];
    var t := a.node.currentTerm;
    && Becomes(s, s', i, x, out)
    && t in s.reigns && s.reigns[t].id != i && Agree(built, s.reigns[t].log, |built|)
    && x.node.role == Follower && x.node.log == built
    && x.node.currentTerm == t && x.node.votedFor == a.node.votedFor
    && x.votes == a.votes && x.stored == Longer(a.stored, t, built)
    && s.reigns[t].start <= |built|
  }

  lemma AcceptedServer(s: System, s': System, i: nat, x: Server, out: seq<Packet>, built: Log)
    requires Shape(s) && i < |s.servers| && Accepts(s, s', i, x, out, built) && ServerOk(s, i)
    requires WellFormed(s.reigns, built) && Last(built).term <= x.node.currentTerm
    ensures ServerOk(s', i) && ServerGrows(s.servers[i], x)
    ensures (HoldsOwnReigns(s, i) ==> HoldsOwnReigns(s', i)) && Follows(s', x)
  {
  }

  lemma AcceptsKeeps(s: System, s': System, i: nat, x: Server, out: seq<Packet>, built: Log)
    requires Inv(s) && i < |s.servers| && Accepts(s, s', i, x, out, built)
    requires WellFormed(s.reigns, built) && Last(built).term <= x.node.currentTerm
    requires Sendable(s', out)
    ensures Inv(s') && Acts(s, s', i)
  {
    OwnReigns(s, i);
    assert ServerOk(s, i);
    AcceptedServer(s, s', i, x, out, built);
    Settle(s, s', i, x, out);
  }

  /** What the invariant says of a received message and of the receiver. */
  lemma BuiltWellFormed(s: System, p: Packet)
    requires Inv(s) && p.EntriesRequest? && PacketShape(|s.servers|, p) && PacketOk(s, p)
    ensures WellFormed(s.reigns, p.built) && Last(p.built).term <= p.args.term && 0 !in s.reigns
    ensures s.servers[p.dst].node.role == Leader ==> s.servers[p.dst].node.currentTerm != p.args.term
    ensures LogOk(s, s.servers[p.dst])
  {
    hide VotesOk, StoredOk, CandidateOk, MatchOk, Majority;
    var g := s.reigns[p.args.term];
    assert ReignOk(s, p.args.term);
    PrefixWellFormed(s.reigns, p.built, g.log);
    AgreeAt(p.built, g.log, |p.built|, |p.built| - 1);
    assert ServerOk(s, p.dst);
    assert 0 in s.reigns ==> ReignOk(s, 0);
  }

  lemma OtherTermKeeps(r: Rules, s: System, k: nat, p: Packet)
    requires Inv(s) && p.EntriesRequest? && PacketShape(|s.servers|, p) && PacketOk(s, p)
    requires !r.inOrder || InSendOrder(s.servers[p.dst], p, k)
    requires p.args.term != s.servers[p.dst].node.currentTerm
    ensures Inv(OnEntries(r, s, k, p)) && Moves(s, OnEntries(r, s, k, p), p.dst)
  {
    hide ReignOk, LogOk, StoredOk, VotesOk, CandidateOk, LeaderOk;
    var s' := OnEntries(r, s, k, p);
    var a, x := s.servers[p.dst], s'.servers[p.dst];
    var (nd, reply) := HandleAppendEntries(a.node, p.args);
    var out := EntriesReply(p.dst, p.src, p.args, reply);
    ReplySendable(s, s', p, reply);
    if p.args.term > a.node.currentTerm {
      StepsDown(s, s', p.dst, x, [out]);
    } else {
      Idles(s, s', p.dst, x, [out]);
    }
  }

  lemma RefusalEffect(r: Rules, s: System, k: nat, p: Packet)
    requires Shape(s) && p.EntriesRequest? && PacketShape(|s.servers|, p)
    requires !r.inOrder || InSendOrder(s.servers[p.dst], p, k)
    requires p.args.term == s.servers[p.dst].node.currentTerm && s.servers[p.dst].node.role != Leader
    requires !HandleAppendEntries(s.servers[p.dst].node, p.args).1.success
    ensures var s' := OnEntries(r, s, k, p);
            var a, x := s.servers[p.dst], s'.servers[p.dst];
            var reply := HandleAppendEntries(a.node, p.args).1;
            && Becomes(s, s', p.dst, x, [EntriesReply(p.dst, p.src, p.args, reply)])
            && x.node == a.node.(role := Follower) && x == a.(node := x.node, marks := x.marks)
  {
  }

  lemma RefusedKeeps(r: Rules, s: System, k: nat, p: Packet)
    requires Inv(s) && p.EntriesRequest? && PacketShape(|s.servers|, p) && PacketOk(s, p)
    requires !r.inOrder || InSendOrder(s.servers[p.dst], p, k)
    requires p.args.term == s.servers[p.dst].node.currentTerm && s.servers[p.dst].node.role != Leader
    requires var reply := HandleAppendEntries(s.servers[p.dst].node, p.args).1;
             !reply.success && (reply.conflict ==> ConflictOk(s, p.args, reply))
    ensures Inv(OnEntries(r, s, k, p)) && Moves(s, OnEntries(r, s, k, p), p.dst)
  {
    hide HandleAppendEntries, ReignOk, LogOk, StoredOk, VotesOk;
    var s' := OnEntries(r, s, k, p);
    var reply := HandleAppendEntries(s.servers[p.dst].node, p.args).1;
    RefusalEffect(r, s, k, p);
    ReplySendable(s, s', p, reply);
    StepsDown(s, s', p.dst, s'.servers[p.dst], [EntriesReply(p.dst, p.src, p.args, reply)]);
  }

  /** An accepted message leaves the receiver with exactly the log it was built from. */
  lemma AcceptanceEffect(r: Rules, s: System, k: nat, p: Packet)
    requires Shape(s) && p.EntriesRequest? && PacketShape(|s.servers|, p) && PacketOk(s, p)
    requires !r.inOrder || InSendOrder(s.servers[p.dst], p, k)
    requires p.args.term == s.servers[p.dst].node.currentTerm && s.servers[p.dst].node.role != Leader
    requires HandleAppendEntries(s.servers[p.dst].node, p.args).1.success
    requires WellFormed(s.reigns, p.built) && LogOk(s, s.servers[p.dst])
    ensures var s' := OnEntries(r, s, k, p);
            var reply := HandleAppendEntries(s.servers[p.dst].node, p.args).1;
            var out := [EntriesReply(p.dst, p.src, p.args, reply)];
            Accepts(s, s', p.dst, s'.servers[p.dst], out, p.built) && Sendable(s', out)
  {
    AcceptedLog(s.reigns, s.servers[p.dst].node.log, p.args, p.built);
    var reply := HandleAppendEntries(s.servers[p.dst].node, p.args).1;
    ReplySendable(s, OnEntries(r, s, k, p), p, reply);
  }

  lemma AcceptanceKeeps(r: Rules, s: System, k: nat, p: Packet)
    requires Inv(s) && p.EntriesRequest? && PacketShape(|s.servers|, p) && PacketOk(s, p)
    requires !r.inOrder || InSendOrder(s.servers[p.dst], p, k)
    requires p.args.term == s.servers[p.dst].node.currentTerm && s.servers[p.dst].node.role != Leader
    requires HandleAppendEntries(s.servers[p.dst].node, p.args).1.success
    requires WellFormed(s.reigns, p.built) && Last(p.built).term <= p.args.term && LogOk(s, s.servers[p.dst])
    ensures Inv(OnEntries(r, s, k, p)) && Moves(s, OnEntries(r, s, k, p), p.dst)
  {
    AcceptanceEffect(r, s, k, p);
    var s' := OnEntries(r, s, k, p);
    var reply := HandleAppendEntries(s.servers[p.dst].node, p.args).1;
    AcceptsKeeps(s, s', p.dst, s'.servers[p.dst], [EntriesReply(p.dst, p.src, p.args, reply)], p.built);
  }

  lemma EntriesKeeps(r: Rules, s: System, k: nat, p: Packet)
    requires Inv(s) && p.EntriesRequest? && PacketShape(|s.servers|, p) && PacketOk(s, p)
    ensures Inv(OnEntries(r, s, k, p)) && Moves(s, OnEntries(r, s, k, p), p.dst)
  {
    hide ReignOk, ServerOk, Acts;
    var a := s.servers[p.dst];
    if !r.inOrder || InSendOrder(a, p, k) {
      if p.args.term != a.node.currentTerm {
        OtherTermKeeps(r, s, k, p);
      } else {
        BuiltWellFormed(s, p);
        if HandleAppendEntries(a.node, p.args).1.success {
          AcceptanceKeeps(r, s, k, p);
        } else {
          if LastIndex(a.node.log) >= p.args.prevLogIndex {
            MismatchOk(s, p, a.node.log);
          }
          RefusedKeeps(r, s, k, p);
        }
      }
    }
  }

  // ----- Receiving replies -------------------------------------------------------------------------

  lemma AcknowledgedMatch(s: System, s': System, r: Rules, p: Packet)
    requires Shape(s) && p.EntriesReply? && PacketShape(|s.servers|, p) && ReplyOk(s, p)
    requires s' == OnEntriesReply(r, s, p) && LeaderOk(s, p.dst)
    requires s.servers[p.dst].node.currentTerm == p.args.term && p.reply.term <= p.args.term
    ensures LeaderOk(s', p.dst)
  {
    forall q: nat | q < |s'.servers| && s.servers[p.dst].node.role == Leader ensures MatchOk(s', p.dst, q) {
      assert MatchOk(s, p.dst, q);
    }
  }

  /** A reply in another term, or from a later one. */
  lemma LateReplyKeeps(r: Rules, s: System, p: Packet)
    requires Inv(s) && p.EntriesReply? && PacketShape(|s.servers|, p)
    requires p.reply.term > s.servers[p.dst].node.currentTerm || p.args.term != s.servers[p.dst].node.currentTerm
    ensures Inv(OnEntriesReply(r, s, p)) && Moves(s, OnEntriesReply(r, s, p), p.dst)
  {
    var s' := OnEntriesReply(r, s, p);
    var a, x := s.servers[p.dst].node, s'.servers[p.dst];
    if p.reply.term > a.currentTerm {
      StepsDown(s, s', p.dst, x, []);
    } else {
      Idles(s, s', p.dst, x, []);
    }
  }

  lemma AcknowledgedEffect(r: Rules, s: System, p: Packet)
    requires Shape(s) && p.EntriesReply? && PacketShape(|s.servers|, p)
    requires p.reply.term <= s.servers[p.dst].node.currentTerm == p.args.term
    ensures var s' := OnEntriesReply(r, s, p);
            var a, x := s.servers[p.dst], s'.servers[p.dst];
            && Becomes(s, s', p.dst, x, [])
            && x == a.(node := x.node)
            && x.node == a.node.(commitIndex := x.node.commitIndex, nextIndex := x.node.nextIndex,
                                 matchIndex := x.node.matchIndex)
  {
  }

  lemma EntriesReplyKeeps(r: Rules, s: System, p: Packet)
    requires Inv(s) && p.EntriesReply? && PacketShape(|s.servers|, p) && PacketOk(s, p)
    ensures Inv(OnEntriesReply(r, s, p)) && Moves(s, OnEntriesReply(r, s, p), p.dst)
  {
    var a := s.servers[p.dst].node;
    if p.reply.term > a.currentTerm || p.args.term != a.currentTerm {
      LateReplyKeeps(r, s, p);
    } else {
      var s' := OnEntriesReply(r, s, p);
      assert ServerOk(s, p.dst);
      AcknowledgedMatch(s, s', r, p);
      AcknowledgedEffect(r, s, p);
      StillStands(s, s', p.dst, s'.servers[p.dst], []);
      Unmoved(s, s', p.dst, s'.servers[p.dst], []);
    }
  }

  lemma SnapshotReplyKeeps(r: Rules, s: System, p: Packet)
    requires Inv(s) && r.keepVote && p.SnapshotReply? && PacketShape(|s.servers|, p)
    ensures Inv(OnSnapshotReply(r, s, p)) && Moves(s, OnSnapshotReply(r, s, p), p.dst)
  {
    hide ReignOk, PacketOk, LogOk, StoredOk, VotesOk;
    var s' := OnSnapshotReply(r, s, p);
    var a := s.servers[p.dst].node;
    var x := s'.servers[p.dst];
    if a.role == Leader && a.currentTerm == p.term && p.replyTerm > a.currentTerm {
      StepsDown(s, s', p.dst, x, []);
    } else {
      assert ServerOk(s, p.dst);
      forall q: nat | q < |s'.servers| && a.role == Leader ensures MatchOk(s', p.dst, q) {
        assert MatchOk(s, p.dst, q);
      }
      StillStands(s, s', p.dst, x, []);
      Unmoved(s, s', p.dst, x, []);
    }
  }

  // ----- Every run ---------------------------------------------------------------------------------

  lemma InitKeeps(n: nat)
    ensures Inv(Init(n))
  {
    forall v: nat | v < n ensures ServerOk(Init(n), v) {
    }
  }

  /** The server that an event is about. */
  function Actor(s: System, e: Event): nat {
    match e
    case Timeout(i) => i
    case ClientStart(i, _) => i
    case AppendTo(i, _, _) => i
    case BuildSnapshot(i, _) => i
    case Apply(i) => i
    case Restart(i) => i
    case DeliverBallot(_, dst) => dst
    case Deliver(k) => if k < |s.net| && !s.net[k].VoteRequest? then s.net[k].dst else 0
  }

  lemma DeliverKeeps(r: Rules, s: System, k: nat)
    requires Inv(s) && r.keepVote && k < |s.net|
    ensures var s' := OnDelivery(r, s, k);
            Inv(s') && (s' == s || (!s.net[k].VoteRequest? && Acts(s, s', s.net[k].dst)))
  {
    var p := s.net[k];
    match p
    case VoteRequest(_, _) =>
    case VoteReply(_, _, _, _) => VoteReplyKeeps(s, p);
    case EntriesRequest(_, _, _, _) => EntriesKeeps(r, s, k, p);
    case EntriesReply(_, _, _, _) => EntriesReplyKeeps(r, s, p);
    case SnapshotRequest(_, _, _) => SnapshotKeeps(r, s, p);
    case SnapshotReply(_, _, _, _) => SnapshotReplyKeeps(r, s, p);
  }

  lemma NextKeeps(r: Rules, s: System, e: Event)
    requires Inv(s) && r.keepVote
    ensures var s' := Next(r, s, e);
            Inv(s') && (s' == s || (Actor(s, e) < |s.servers| && Acts(s, s', Actor(s, e))))
  {
    hide OnTimeout, OnClientStart, OnAppendTo, OnBuildSnapshot, OnApply, OnRestart, OnBallot, OnDelivery;
    hide Acts, ReignOk, ServerOk, PacketOk;
    var n := |s.servers|;
    match e
    case Timeout(i) => if i < n { TimeoutKeeps(s, i); }
    case ClientStart(i, command) => if i < n { ClientStartKeeps(s, i, command); }
    case AppendTo(i, peer, heartbeat) => if i < n && peer < n { AppendToKeeps(s, i, peer, heartbeat); }
    case BuildSnapshot(i, peer) => if i < n && peer < n { BuildSnapshotKeeps(s, i, peer); }
    case Apply(i) => if i < n { ApplyKeeps(s, i); }
    case Restart(i) => if i < n { RestartKeeps(s, i); }
    case DeliverBallot(k, dst) =>
      if k < |s.net| && s.net[k].VoteRequest? && dst < n { BallotKeeps(s, s.net[k], dst); }
    case Deliver(k) => if k < |s.net| { DeliverKeeps(r, s, k); }
  }

  /** The invariant holds after every run. */
  lemma {:induction false} Always(r: Rules, n: nat, run: seq<Event>)
    requires r.keepVote
    ensures Inv(Exec(r, n, run))
  {
    if run == [] {
      InitKeeps(n);
    } else {
      Always(r, n, run[..|run| - 1]);
      NextKeeps(r, Exec(r, n, run[..|run| - 1]), run[|run| - 1]);
    }
  }
}
