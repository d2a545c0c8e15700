/** Every event keeps the invariant of module `Invariants`. One event changes one server, so each proof
    looks at that server, at the reign it may start or extend, and at the packet it may send. */
module Preservation {
  import opened RaftLog
  import opened RaftNode
  import opened Cluster
  import opened Invariants

  // ----- One server acts ---------------------------------------------------------------------------

  /** Terms, votes and stored logs only grow; only the log stored in the current term may change. */
  ghost predicate ServerGrows(a: Server, b: Server) {
    && a.node.currentTerm <= b.node.currentTerm
    && (forall t :: t in a.votes ==> t in b.votes && b.votes[t] == a.votes[t])
    && (forall t :: t in a.stored ==> t in b.stored && |a.stored[t]| <= |b.stored[t]|)
    && (forall t :: t in b.stored ==> StoredNow(a, b, t) || (t in a.stored && b.stored[t] == a.stored[t]))
    && (b.node.role == Candidate && b.node.currentTerm == a.node.currentTerm ==>
          a.node.role == Candidate && b.node.log == a.node.log)
  }

  ghost predicate StoredNow(a: Server, b: Server, t: nat) {
    t == a.node.currentTerm == b.node.currentTerm
  }

  /** Candidate `i` becomes the leader of term `t` with the log it had. */
  ghost predicate Crowned(s: System, s': System, i: nat, t: nat)
    requires i < |s.servers| && i < |s'.servers| && t in s'.reigns
  {
    var a, b := s.servers[i].node, s'.servers[i].node;
    && a.role == Candidate && b.role == Leader
    && a.currentTerm == t && b.currentTerm == t && b.log == a.log
    && s'.reigns[t] == Reign(i, |a.log|, a.log)
  }

  /** A log that changes becomes the log of the current term's leader, up to some point after its start. */
  ghost predicate Follows(s: System, x: Server) {
    var t := x.node.currentTerm;
    && t in s.reigns && t in x.stored
    && s.reigns[t].start <= |x.node.log|
    && Agree(x.node.log, s.reigns[t].log, |x.node.log|)
  }

  /** A server that leads or led a term has stored the whole log of that reign. */
  ghost predicate HoldsOwnReigns(s: System, i: nat)
    requires i < |s.servers|
  {
    forall t :: t in s.reigns && s.reigns[t].id == i ==>
      t in s.servers[i].stored && s.servers[i].stored[t] == s.reigns[t].log
  }

  /** Only server `i` acts: it grows, and only its own reigns are started or extended. */
  ghost predicate Acts(s: System, s': System, i: nat)
    requires i < |s.servers|
  {
    && Shape(s) && Shape(s') && |s'.servers| == |s.servers|
    && (forall v :: 0 <= v < |s.servers| && v != i ==> s'.servers[v] == s.servers[v])
    && ServerGrows(s.servers[i], s'.servers[i])
    && HoldsOwnReigns(s', i)
    && ReignsGrow(s.reigns, s'.reigns)
    && (forall t :: t in s.reigns && s.reigns[t].id != i ==> s'.reigns[t] == s.reigns[t])
    && (forall t :: t in s'.reigns && t !in s.reigns ==> Crowned(s, s', i, t))
    && (s'.servers[i].node.log != s.servers[i].node.log ==>
          s'.servers[i].node.currentTerm == s.servers[i].node.currentTerm && Follows(s', s'.servers[i]))
    && |s.net| <= |s'.net|
    && (forall k :: 0 <= k < |s.net| ==> s'.net[k] == s.net[k])
  }

  lemma VotersGrow(s: System, s': System, i: nat, t: nat, c: nat)
    requires i < |s.servers| && Acts(s, s', i)
    ensures Voters(s, t, c) <= Voters(s', t, c)
  {
  }

  lemma StoredStays(s: System, s': System, i: nat, v: nat, t: nat, n: int)
    requires i < |s.servers| && Acts(s, s', i)
    requires v < |s.servers| && Stored(s.servers[v], t, n)
    ensures Stored(s'.servers[v], t, n)
  {
  }

  lemma OtherLeader(s: System, s': System, i: nat, v: nat)
    requires i < |s.servers| && Acts(s, s', i)
    requires v < |s.servers| && v != i && LeaderOk(s, v)
    ensures LeaderOk(s', v)
  {
    if s.servers[v].node.role == Leader {
      forall p: nat | p < |s'.servers| ensures MatchOk(s', v, p) {
        assert MatchOk(s, v, p);
      }
    }
  }

  lemma OtherCandidate(s: System, s': System, i: nat, v: nat)
    requires i < |s.servers| && Acts(s, s', i)
    requires v < |s.servers| && v != i && CandidateOk(s, v)
    ensures CandidateOk(s', v)
  {
    VotersGrow(s, s', i, s.servers[v].node.currentTerm, v);
    SubsetCard(Counted(s, v), Counted(s', v));
    var t := s.servers[v].node.currentTerm;
    assert t in s.reigns ==> t in s'.reigns && ReignGrows(s.reigns[t], s'.reigns[t]);
  }

  lemma StoredGrows(s: System, s': System, x: Server)
    requires StoredOk(s, x) && ReignsGrow(s.reigns, s'.reigns)
    ensures StoredOk(s', x)
  {
    forall t | t in x.stored
      ensures t <= x.node.currentTerm && t in s'.reigns && Agree(x.stored[t], s'.reigns[t].log, |x.stored[t]|)
    {
      assert ReignGrows(s.reigns[t], s'.reigns[t]);
      AgreeTrans(x.stored[t], s.reigns[t].log, s'.reigns[t].log, |x.stored[t]|, |s.reigns[t].log|);
    }
  }

  lemma OtherServer(s: System, s': System, i: nat, v: nat)
    requires i < |s.servers| && Acts(s, s', i)
    requires v < |s.servers| && v != i && ServerOk(s, v)
    ensures ServerOk(s', v)
  {
    WellFormedGrows(s.reigns, s'.reigns, s.servers[v].node.log);
    StoredGrows(s, s', s.servers[v]);
    OtherLeader(s, s', i, v);
    OtherCandidate(s, s', i, v);
  }

  lemma OldReign(s: System, s': System, i: nat, t: nat)
    requires i < |s.servers| && Acts(s, s', i)
    requires t in s.reigns && ReignOk(s, t) && s'.reigns[t] == s.reigns[t]
    ensures ReignOk(s', t)
  {
    WellFormedGrows(s.reigns, s'.reigns, s.reigns[t].log);
    VotersGrow(s, s', i, t, s.reigns[t].id);
    MajorityGrows(|s.servers|, Voters(s, t, s.reigns[t].id), Voters(s', t, s.reigns[t].id));
  }

  lemma OldConflict(s: System, s': System, args: AppendEntriesArgs, reply: AppendEntriesReply)
    requires ReignsGrow(s.reigns, s'.reigns) && ConflictOk(s, args, reply)
    ensures ConflictOk(s', args, reply)
  {
    if reply.xTerm != -1 {
      var a, b := s.reigns[reply.xTerm], s'.reigns[reply.xTerm];
      assert ReignGrows(a, b);
      AgreeAt(a.log, b.log, |a.log|, args.prevLogIndex);
    }
  }

  lemma OldPacket(s: System, s': System, i: nat, p: Packet)
    requires i < |s.servers| && Acts(s, s', i)
    requires PacketShape(|s.servers|, p) && PacketOk(s, p)
    ensures PacketOk(s', p)
  {
    match p
    case VoteRequest(src, ballot) =>
    case VoteReply(src, dst, ballot, vote) =>
    case EntriesRequest(src, dst, args, built) =>
      var a, b := s.reigns[args.term], s'.reigns[args.term];
      assert ReignGrows(a, b);
      AgreeTrans(built, a.log, b.log, |built|, |a.log|);
    case EntriesReply(src, dst, args, reply) =>
      var a, b := s.reigns[args.term], s'.reigns[args.term];
      assert ReignGrows(a, b);
      AgreeAt(a.log, b.log, |a.log|, args.prevLogIndex);
      if reply.conflict {
        OldConflict(s, s', args, reply);
      }
    case SnapshotRequest(_, _, _) =>
    case SnapshotReply(_, _, _, _) =>
  }

  /** It is enough to look at what the acting server changes. */
  lemma Assemble(s: System, s': System, i: nat)
    requires Inv(s) && i < |s.servers| && Acts(s, s', i)
    requires ServerOk(s', i)
    requires forall t :: t in s'.reigns && !(t in s.reigns && s'.reigns[t] == s.reigns[t]) ==> ReignOk(s', t)
    requires forall k :: |s.net| <= k < |s'.net| ==> PacketOk(s', s'.net[k])
    requires forall t, v :: (t, v) in s'.won <==>
               (t, v) in s.won || (t !in s.reigns && t in s'.reigns && s'.reigns[t].id == v)
    ensures Inv(s')
  {
    forall v: nat | v < |s'.servers| ensures ServerOk(s', v) {
      if v != i {
        OtherServer(s, s', i, v);
      }
    }
    forall t | t in s'.reigns ensures ReignOk(s', t) {
      if t in s.reigns && s'.reigns[t] == s.reigns[t] {
        OldReign(s, s', i, t);
      }
    }
    forall k | 0 <= k < |s'.net| ensures PacketOk(s', s'.net[k]) {
      if k < |s.net| {
        OldPacket(s, s', i, s.net[k]);
      }
    }
    forall t, v ensures (t, v) in s'.won <==> t in s'.reigns && s'.reigns[t].id == v {
      assert t in s.reigns ==> ReignGrows(s.reigns[t], s'.reigns[t]);
    }
  }
}
