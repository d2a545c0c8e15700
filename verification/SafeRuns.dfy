/** Every event keeps leader completeness, under all three rules. */
module SafeRuns {
  import opened RaftLog
  import opened RaftNode
  import opened Cluster
  import opened Invariants
  import opened Preservation
  import opened Events
  import opened Completeness

  /** No vote is cast and no message of a leader is processed; only a leader's log may change. */
  ghost predicate Calm(s: System, s': System, i: nat)
    requires i < |s.servers| && |s'.servers| == |s.servers|
  {
    var a, b := s.servers[i], s'.servers[i];
    && b.votes == a.votes && b.marks == a.marks
    && (b.node.role == Leader || (b.stored == a.stored && b.node.log == a.node.log))
    && NewestIsLongest(s, s')
  }

  lemma CalmKeeps(s: System, s': System, i: nat)
    requires Inv(s) && Inv(s') && i < |s.servers| && Acts(s, s', i) && Safe(s) && Calm(s, s', i)
    ensures Safe(s')
  {
    assert InStep(s.servers[i]) && VoteTerms(s, i) && LinksOk(s, i);
    InStepKeeps(s, s', i);
    KeptKeeps(s, s', i);
    VoteTermsKeep(s, s', i, i);
    CalmLinks(s, s', i);
    SafeKeeps(s, s', i);
  }

  lemma CalmStored(s: System, s': System, i: nat, t: nat)
    requires i < |s.servers| && Acts(s, s', i) && LeaderOk(s', i) && Calm(s, s', i)
    requires t in s'.servers[i].stored && t in s'.reigns && s'.reigns[t].id != i
    ensures t in s.servers[i].stored && s'.servers[i].stored[t] == s.servers[i].stored[t]
  {
    assert StoredNow(s.servers[i], s'.servers[i], t)
           || (t in s.servers[i].stored && s'.servers[i].stored[t] == s.servers[i].stored[t]);
  }

  lemma CalmLinks(s: System, s': System, i: nat)
    requires Inv(s) && Inv(s') && i < |s.servers| && Acts(s, s', i) && LinksOk(s, i) && Calm(s, s', i)
    ensures LinksOk(s', i)
  {
    assert ServerOk(s', i);
    forall t | t in s'.servers[i].stored && t in s'.reigns && s'.reigns[t].id != i
      ensures t in s.servers[i].stored && s'.servers[i].stored[t] == s.servers[i].stored[t]
    {
      CalmStored(s, s', i, t);
    }
    OtherLinks(s, s', i, i);
  }

  lemma CalmReply(r: Rules, s: System, p: Packet)
    requires Shape(s) && PacketShape(|s.servers|, p)
    ensures p.EntriesReply? ==> Calm(s, OnEntriesReply(r, s, p), p.dst)
    ensures p.SnapshotReply? ==> Calm(s, OnSnapshotReply(r, s, p), p.dst)
  {
  }

  lemma CalmSnapshot(r: Rules, s: System, p: Packet)
    requires Shape(s) && PacketShape(|s.servers|, p) && p.SnapshotRequest?
    ensures Calm(s, OnSnapshot(r, s, p), p.dst)
  {
  }

  lemma CalmVoteReply(s: System, p: Packet)
    requires Shape(s) && PacketShape(|s.servers|, p) && p.VoteReply?
    ensures Calm(s, OnVoteReply(s, p), p.dst)
  {
  }

  lemma CalmStart(s: System, i: nat, command: Command)
    requires Shape(s) && i < |s.servers|
    ensures Calm(s, OnClientStart(s, i, command), i)
  {
  }

  lemma CalmAppend(s: System, i: nat, peer: nat, heartbeat: bool)
    requires Shape(s) && i < |s.servers| && peer < |s.servers| && LeaderOk(s, i)
    ensures Calm(s, OnAppendTo(s, i, peer, heartbeat), i)
  {
  }

  lemma CalmOther(s: System, i: nat, peer: nat)
    requires Shape(s) && i < |s.servers|
    ensures Calm(s, OnApply(s, i), i) && Calm(s, OnRestart(s, i), i)
    ensures peer < |s.servers| ==> Calm(s, OnBuildSnapshot(s, i, peer), i)
  {
  }

  /** Only votes and terms change, and perhaps one packet is sent. */
  ghost predicate Voting(s: System, s': System, i: nat)
    requires i < |s.servers| && |s'.servers| == |s.servers|
  {
    var a, b := s.servers[i], s'.servers[i];
    && s'.reigns == s.reigns && NewestIsLongest(s, s')
    && b.stored == a.stored && b.marks == a.marks && b.node.log == a.node.log
  }

  ghost predicate AtLeastUpToDate(a: Log, b: Log) {
    Last(a).term > Last(b).term || (Last(a).term == Last(b).term && |a| >= |b|)
  }

  ghost predicate NewVotesUpToDate(s: System, s': System, i: nat)
    requires i < |s.servers| && |s'.servers| == |s.servers|
  {
    forall c: nat :: c < |s.servers| && c != i && NewVote(s, s', i, c) ==>
      AtLeastUpToDate(s'.servers[c].node.log, s'.servers[i].node.log)
  }

  lemma VotingSafe(s: System, s': System, i: nat)
    requires Inv(s) && Inv(s') && Safe(s) && i < |s.servers| && Acts(s, s', i)
    requires Voting(s, s', i) && VoteTerms(s', i) && NewVotesUpToDate(s, s', i)
    ensures Safe(s')
  {
    assert LinksOk(s, i) && InStep(s.servers[i]);
    InStepKeeps(s, s', i);
    KeptKeeps(s, s', i);
    OtherLinks(s, s', i, i);
    forall c: nat | c < |s.servers| && c != i && NewVote(s, s', i, c) ensures Pledged(s', i, c) {
      GrantPledges(s', i, c);
    }
    SafeKeeps(s, s', i);
  }

  /** A timeout casts only the vote of the candidate for itself. */
  lemma TimeoutVotes(s: System, i: nat)
    requires Shape(s) && i < |s.servers| && VoteTerms(s, i)
    ensures var s' := OnTimeout(s, i);
            Voting(s, s', i) && VoteTerms(s', i) && NewVotesUpToDate(s, s', i)
  {
  }

  lemma BallotVoting(s: System, p: Packet, dst: nat)
    requires Shape(s) && p.VoteRequest? && PacketShape(|s.servers|, p) && dst < |s.servers|
    requires PacketOk(s, p) && VoteTerms(s, dst)
    ensures var s' := OnBallot(s, p, dst); Voting(s, s', dst) && VoteTerms(s', dst)
  {
  }

  /** A granted ballot was at least as up to date as the voter's log. */
  lemma BallotUpToDate(s: System, p: Packet, dst: nat, c: nat)
    requires Shape(s) && p.VoteRequest? && PacketShape(|s.servers|, p) && PacketOk(s, p) && dst < |s.servers|
    requires c < |s.servers| && c != dst && NewVote(s, OnBallot(s, p, dst), dst, c)
    requires Indexed(s.servers[dst].node.log)
    ensures var s' := OnBallot(s, p, dst); AtLeastUpToDate(s'.servers[c].node.log, s'.servers[dst].node.log)
  {
  }

  lemma BallotVotes(s: System, p: Packet, dst: nat)
    requires Inv(s) && p.VoteRequest? && PacketShape(|s.servers|, p) && PacketOk(s, p) && dst < |s.servers|
    requires VoteTerms(s, dst)
    ensures var s' := OnBallot(s, p, dst);
            Voting(s, s', dst) && VoteTerms(s', dst) && NewVotesUpToDate(s, s', dst)
  {
    var s' := OnBallot(s, p, dst);
    BallotVoting(s, p, dst);
    assert ServerOk(s, dst);
    forall c: nat | c < |s.servers| && c != dst && NewVote(s, s', dst, c)
      ensures AtLeastUpToDate(s'.servers[c].node.log, s'.servers[dst].node.log)
    {
      BallotUpToDate(s, p, dst, c);
    }
  }

  // ----- Processing a message of a leader ----------------------------------------------------------

  /** Server `i` processes message `k`, in send order. */
  ghost predicate Processes(s: System, s': System, i: nat, k: nat)
    requires i < |s.servers| && |s'.servers| == |s.servers| && k < |s.net|
  {
    var p := s.net[k];
    var a, b := s.servers[i], s'.servers[i];
    && p.EntriesRequest? && p.dst == i && InSendOrder(a, p, k)
    && s'.reigns == s.reigns && NewestIsLongest(s, s')
    && b.votes == a.votes && b.marks == a.marks[(p.src, p.args.term) := k]
    && if b.stored == a.stored && b.node.log == a.node.log then true
       else
         && p.args.term == a.node.currentTerm == b.node.currentTerm
         && b.node.log == p.built && b.stored == Longer(a.stored, p.args.term, p.built)
  }

  lemma MarkBound(s: System, i: nat, k: nat)
    requires Inv(s) && SentInOrder(s) && i < |s.servers| && k < |s.net| && LinksOk(s, i)
    requires var p := s.net[k]; p.EntriesRequest? && p.dst == i && InSendOrder(s.servers[i], p, k)
    ensures var p := s.net[k];
            p.args.term in s.reigns && s.reigns[p.args.term].id == p.src && p.src != i
    ensures var p := s.net[k];
            p.args.term in s.servers[i].stored ==> |s.servers[i].stored[p.args.term]| <= |p.built|
  {
    var p := s.net[k];
    var x := s.servers[i];
    var t := p.args.term;
    assert PacketOk(s, p);
    assert LinkOk(s, x, i, t);
    if t in x.stored {
      assert OfTerm(s, x.marks[(p.src, t)], t) && OfTerm(s, k, t);
    }
  }

  lemma ProcessedLinks(s: System, s': System, i: nat, k: nat)
    requires Inv(s) && i < |s.servers| && k < |s.net| && Acts(s, s', i) && LinksOk(s, i)
    requires Processes(s, s', i, k)
    requires var p := s.net[k];
             && p.args.term in s.reigns && s.reigns[p.args.term].id == p.src
             && (p.args.term in s.servers[i].stored ==> |s.servers[i].stored[p.args.term]| <= |p.built|)
    ensures LinksOk(s', i)
  {
    hide ReignOk, ServerOk, PacketOk;
    var p := s.net[k];
    var x, x' := s.servers[i], s'.servers[i];
    assert MarksOk(s', x');
    forall t | t in s'.reigns ensures LinkOk(s', x', i, t) {
      assert LinkOk(s, x, i, t);
    }
  }

  lemma ProcessedInStep(s: System, s': System, i: nat, k: nat)
    requires i < |s.servers| && k < |s.net| && Acts(s, s', i) && Processes(s, s', i, k)
    requires InStep(s.servers[i]) && StoredOk(s, s.servers[i]) && PacketOk(s, s.net[k])
    requires PacketShape(|s.servers|, s.net[k])
    requires var p := s.net[k];
             p.args.term in s.servers[i].stored ==> |s.servers[i].stored[p.args.term]| <= |p.built|
    ensures InStep(s'.servers[i])
  {
    var p := s.net[k];
    var a, b := s.servers[i], s'.servers[i];
    if b.node.log == a.node.log && b.stored == a.stored && b.node.currentTerm in b.stored {
      assert a.node.currentTerm == b.node.currentTerm;
    }
  }

  lemma ProcessedSafe(s: System, s': System, i: nat, k: nat)
    requires Inv(s) && Inv(s') && Safe(s) && i < |s.servers| && k < |s.net| && Acts(s, s', i)
    requires Processes(s, s', i, k)
    ensures Safe(s')
  {
    assert LinksOk(s, i) && InStep(s.servers[i]) && VoteTerms(s, i) && ServerOk(s, i);
    assert PacketOk(s, s.net[k]);
    MarkBound(s, i, k);
    ProcessedInStep(s, s', i, k);
    ProcessedLinks(s, s', i, k);
    KeptKeeps(s, s', i);
    VoteTermsKeep(s, s', i, i);
    SafeKeeps(s, s', i);
  }

  lemma EntriesProcesses(r: Rules, s: System, k: nat)
    requires Inv(s) && r.inOrder && k < |s.net| && s.net[k].EntriesRequest?
    ensures var s' := OnEntries(r, s, k, s.net[k]);
            s' == s || Processes(s, s', s.net[k].dst, k)
  {
    var p := s.net[k];
    assert PacketOk(s, p);
    BuiltWellFormed(s, p);
    EntriesProcessesHere(r, s, k);
  }

  lemma EntriesProcessesHere(r: Rules, s: System, k: nat)
    requires Shape(s) && r.inOrder && k < |s.net| && s.net[k].EntriesRequest?
    requires var p := s.net[k];
             FromLeader(s, p.src, p.args, p.built) && Coherent(s.reigns, p.built)
             && Coherent(s.reigns, s.servers[p.dst].node.log)
    ensures var s' := OnEntries(r, s, k, s.net[k]);
            s' == s || Processes(s, s', s.net[k].dst, k)
  {
    var p := s.net[k];
    var a := s.servers[p.dst].node;
    if a.currentTerm == p.args.term && HandleAppendEntries(a, p.args).1.success {
      AcceptedLog(s.reigns, a.log, p.args, p.built);
    }
  }

  // ----- Every run ---------------------------------------------------------------------------------

  ghost predicate AllRules(r: Rules) {
    r.commitGuard && r.inOrder && r.keepVote
  }

  lemma DeliverySafe(r: Rules, s: System, k: nat)
    requires Inv(s) && Safe(s) && AllRules(r) && k < |s.net|
    ensures Safe(OnDelivery(r, s, k))
  {
    var p := s.net[k];
    var s' := OnDelivery(r, s, k);
    DeliverKeeps(r, s, k);
    if s' != s {
      match p
      case EntriesRequest(_, _, _, _) => EntriesProcesses(r, s, k); ProcessedSafe(s, s', p.dst, k);
      case VoteReply(_, _, _, _) => CalmVoteReply(s, p); CalmKeeps(s, s', p.dst);
      case EntriesReply(_, _, _, _) => CalmReply(r, s, p); CalmKeeps(s, s', p.dst);
      case SnapshotReply(_, _, _, _) => CalmReply(r, s, p); CalmKeeps(s, s', p.dst);
      case SnapshotRequest(_, _, _) => CalmSnapshot(r, s, p); CalmKeeps(s, s', p.dst);
    }
  }

  lemma NextSafe(r: Rules, s: System, e: Event)
    requires Inv(s) && Safe(s) && AllRules(r)
    ensures Safe(Next(r, s, e))
  {
    hide OnTimeout, OnClientStart, OnAppendTo, OnBuildSnapshot, OnApply, OnRestart, OnBallot, OnDelivery;
    hide Acts, ReignOk, PacketOk, LogOk, StoredOk, VotesOk;
    hide AllComplete, Held, Pledged, VoteTerms, LinksOk, InStep, SentInOrder;
    var s' := Next(r, s, e);
    NextKeeps(r, s, e);
    if s' != s {
      match e
      case Timeout(i) =>
        assert VoteTerms(s, i);
        TimeoutVotes(s, i);
        VotingSafe(s, s', i);
      case ClientStart(i, command) => CalmStart(s, i, command); CalmKeeps(s, s', i);
      case AppendTo(i, peer, heartbeat) =>
        assert ServerOk(s, i);
        CalmAppend(s, i, peer, heartbeat);
        CalmKeeps(s, s', i);
      case BuildSnapshot(i, peer) => CalmOther(s, i, peer); CalmKeeps(s, s', i);
      case Apply(i) => CalmOther(s, i, 0); CalmKeeps(s, s', i);
      case Restart(i) => CalmOther(s, i, 0); CalmKeeps(s, s', i);
      case DeliverBallot(k, dst) =>
        assert VoteTerms(s, dst);
        BallotVotes(s, s.net[k], dst);
        VotingSafe(s, s', dst);
      case Deliver(k) => DeliverySafe(r, s, k);
    }
  }

  lemma InitSafe(n: nat)
    ensures Safe(Init(n))
  {
  }

  lemma {:induction false} AlwaysSafe(r: Rules, n: nat, run: seq<Event>)
    requires AllRules(r)
    ensures Inv(Exec(r, n, run)) && Safe(Exec(r, n, run))
  {
    Always(r, n, run);
    if run == [] {
      InitSafe(n);
    } else {
      AlwaysSafe(r, n, run[..|run| - 1]);
      NextSafe(r, Exec(r, n, run[..|run| - 1]), run[|run| - 1]);
    }
  }
}
