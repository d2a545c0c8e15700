/** State machine safety: with all three rules on, whatever two servers apply at an index is the same. */
module StateMachineSafety {
  import opened RaftLog
  import opened RaftNode
  import opened Cluster
  import opened Invariants
  import opened Preservation
  import opened Events
  import opened Completeness
  import opened SafeRuns

  /** `log` up to `k` is part of what a majority stored as the log of term `t` up to `m`. */
  ghost predicate Certifies(s: System, t: nat, m: nat, log: seq<Entry>, k: nat) {
    k <= m && Chosen(s, t, m) && Covers(s, log, t, k)
  }

  /** A certificate of a term up to `term`; one of that very term counts only if `now`. */
  ghost predicate Committed(s: System, term: nat, now: bool, log: seq<Entry>, k: nat) {
    k == 0 || exists t: nat, m: nat :: t <= term && (t == term ==> now) && Certifies(s, t, m, log, k)
  }

  /** The log of server `v` up to `k` is committed. */
  ghost predicate CommittedAt(s: System, v: nat, k: nat)
    requires v < |s.servers|
  {
    var x := s.servers[v];
    Committed(s, x.node.currentTerm, x.node.currentTerm in x.stored, x.node.log, k)
  }

  ghost predicate NodeCommitted(s: System, v: nat)
    requires v < |s.servers|
  {
    CommittedAt(s, v, s.servers[v].node.commitIndex)
  }

  ghost predicate MessageCommitted(s: System, p: Packet) {
    p.EntriesRequest? ==>
      p.args.leaderCommit < |p.built| && Committed(s, p.args.term, true, p.built, p.args.leaderCommit)
  }

  ghost predicate AppliedAt(s: System, t: nat, m: nat, a: Applied) {
    Chosen(s, t, m) && a.index <= m && s.reigns[t].log[a.index].command == a.command
  }

  ghost predicate AppliedOk(s: System, a: Applied) {
    exists t: nat, m: nat :: AppliedAt(s, t, m, a)
  }

  ghost predicate CommitsOk(s: System) {
    && (forall v: nat :: v < |s.servers| ==> NodeCommitted(s, v))
    && (forall k :: 0 <= k < |s.net| ==> MessageCommitted(s, s.net[k]))
    && (forall a :: a in s.applied ==> AppliedOk(s, a))
  }

  // ----- Certificates ------------------------------------------------------------------------------

  lemma CertificateStays(s: System, s': System, i: nat, t: nat, m: nat, log: seq<Entry>, k: nat)
    requires i < |s.servers| && Acts(s, s', i) && Certifies(s, t, m, log, k)
    ensures Certifies(s', t, m, log, k)
  {
    ChosenStays(s, s', i, t, m);
    CoversGrows(s, s', log, t, k);
  }

  /** What is committed stays committed, in later terms and in longer logs. */
  lemma CommittedStays(s: System, s': System, i: nat, term: nat, now: bool, log: seq<Entry>, k: nat,
                       term': nat, now': bool, log': seq<Entry>)
    requires i < |s.servers| && Acts(s, s', i) && Committed(s, term, now, log, k)
    requires term <= term' && (term == term' && now ==> now') && Agree(log, log', |log|)
    ensures Committed(s', term', now', log', k)
  {
    hide Acts, Majority;
    if k > 0 {
      var t: nat, m: nat :| t <= term && (t == term ==> now) && Certifies(s, t, m, log, k);
      AgreeTrans(s.reigns[t].log, log, log', k + 1, |log|);
      CertificateStays(s, s', i, t, m, log', k);
    }
  }

  /** A log that is replaced by the current leader's keeps everything committed. */
  lemma CommittedFollows(s: System, term: nat, now: bool, log: seq<Entry>, built: seq<Entry>, k: nat)
    requires AllComplete(s) && term in s.reigns && Committed(s, term, now, log, k)
    requires s.reigns[term].start <= |built| && Agree(built, s.reigns[term].log, |built|)
    requires now ==> |log| <= |built|
    ensures Committed(s, term, true, built, k)
    ensures k > 0 ==> Agree(log, built, k + 1)
  {
    if k > 0 {
      var t: nat, m: nat :| t <= term && (t == term ==> now) && Certifies(s, t, m, log, k);
      if t < term {
        ChosenIsChoosable(s, t, m);
        assert Complete(s, t, term);
        AgreeTrans(s.reigns[t].log, s.reigns[term].log, built, m + 1, |built|);
        AgreeFewer(s.reigns[t].log, built, m + 1, k + 1);
      } else {
        AgreeFewer(s.reigns[t].log, built, |built|, k + 1);
      }
      assert Certifies(s, t, m, built, k);
    }
  }

  // ----- One step ----------------------------------------------------------------------------------

  /** The log is kept or extended, and the commit index is kept or, by a restart, forgotten. */
  lemma CommitKept(s: System, s': System, i: nat)
    requires i < |s.servers| && Acts(s, s', i) && NodeCommitted(s, i)
    requires var a, b := s.servers[i].node, s'.servers[i].node;
             (b.commitIndex == a.commitIndex || b.commitIndex == 0) && Agree(a.log, b.log, |a.log|)
    ensures NodeCommitted(s', i)
  {
    var x, x' := s.servers[i], s'.servers[i];
    if x'.node.commitIndex != 0 {
      CommittedStays(s, s', i, x.node.currentTerm, x.node.currentTerm in x.stored, x.node.log, x.node.commitIndex,
                     x'.node.currentTerm, x'.node.currentTerm in x'.stored, x'.node.log);
    }
  }

  lemma AppliedStays(s: System, s': System, i: nat, a: Applied)
    requires i < |s.servers| && Acts(s, s', i) && AppliedOk(s, a)
    ensures AppliedOk(s', a)
  {
    var t: nat, m: nat :| AppliedAt(s, t, m, a);
    ChosenStays(s, s', i, t, m);
    assert ReignGrows(s.reigns[t], s'.reigns[t]);
    AgreeAt(s.reigns[t].log, s'.reigns[t].log, |s.reigns[t].log|, a.index);
    assert AppliedAt(s', t, m, a);
  }

  /** It is enough to look at the acting server, at what it sends and at what it applies. */
  lemma CommitsKeep(s: System, s': System, i: nat)
    requires i < |s.servers| && Acts(s, s', i) && CommitsOk(s)
    requires NodeCommitted(s', i)
    requires forall k :: |s.net| <= k < |s'.net| ==> MessageCommitted(s', s'.net[k])
    requires forall a :: a in s'.applied && a !in s.applied ==> AppliedOk(s', a)
    ensures CommitsOk(s')
  {
    forall v: nat | v < |s'.servers| ensures NodeCommitted(s', v) {
      if v != i {
        var x := s.servers[v];
        assert NodeCommitted(s, v);
        assert x.node.log[..|x.node.log|] == x.node.log;
        CommittedStays(s, s', i, x.node.currentTerm, x.node.currentTerm in x.stored, x.node.log, x.node.commitIndex,
                       x.node.currentTerm, x.node.currentTerm in x.stored, x.node.log);
      }
    }
    forall k | 0 <= k < |s'.net| ensures MessageCommitted(s', s'.net[k]) {
      if k < |s.net| && s.net[k].EntriesRequest? {
        var p := s.net[k];
        assert MessageCommitted(s, p);
        CommittedStays(s, s', i, p.args.term, true, p.built, p.args.leaderCommit, p.args.term, true, p.built);
      }
    }
    forall a | a in s'.applied ensures AppliedOk(s', a) {
      if a in s.applied {
        AppliedStays(s, s', i, a);
      }
    }
  }

  // ----- Commits by a leader -----------------------------------------------------------------------

  lemma {:induction false} GreatestCommittable(nd: Node, base: nat, me: nat, guard: bool, low: nat, high: nat)
    requires high < |nd.log|
    ensures var k := HighestCommittable(nd, base, me, guard, low, high);
            && k >= low && (k > low ==> k <= high && Committable(nd, base, me, guard, k))
            && (forall j: nat :: low < j <= high && Committable(nd, base, me, guard, j) ==> j <= k)
  {
    if high > low {
      GreatestCommittable(nd, base, me, guard, low, high - 1);
    }
  }

  /** The servers a leader counts have stored its log up to `n` in its term. */
  lemma ReplicasHold(s: System, i: nat, n: nat)
    requires Inv(s) && i < |s.servers| && s.servers[i].node.role == Leader
    requires 0 < n < |s.servers[i].node.log|
    ensures Replicas(s.servers[i].node, i, n) <= Holders(s, s.servers[i].node.currentTerm, n)
  {
    hide VotesOk, StoredOk, CandidateOk, LogOk, WellFormed, OwnTerm, Majority, PacketOk;
    var nd := s.servers[i].node;
    assert ServerOk(s, i) && ReignOk(s, nd.currentTerm);
    forall p: nat | p in Replicas(nd, i, n) ensures p in Holders(s, nd.currentTerm, n) {
      assert MatchOk(s, i, p);
    }
  }

  /** What a leader may commit under the guard has been chosen in its term. */
  lemma CommittableIsChosen(s: System, i: nat, n: nat)
    requires Inv(s) && i < |s.servers| && s.servers[i].node.role == Leader
    requires 0 < n < |s.servers[i].node.log| && Committable(s.servers[i].node, 0, i, true, n)
    ensures Chosen(s, s.servers[i].node.currentTerm, n)
  {
    var nd := s.servers[i].node;
    assert ServerOk(s, i) && ReignOk(s, nd.currentTerm);
    ReplicasHold(s, i, n);
    SubsetCard(Replicas(nd, i, n), Holders(s, nd.currentTerm, n));
  }

  lemma LeaderCommits(s: System, i: nat, n: nat)
    requires Inv(s) && i < |s.servers| && s.servers[i].node.role == Leader
    requires 0 < n < |s.servers[i].node.log| && Committable(s.servers[i].node, 0, i, true, n)
    requires s.servers[i].node.commitIndex == n
    ensures NodeCommitted(s, i)
  {
    var nd := s.servers[i].node;
    CommittableIsChosen(s, i, n);
    assert ServerOk(s, i) && ReignOk(s, nd.currentTerm);
    assert Certifies(s, nd.currentTerm, n, nd.log, n);
  }

  // ----- Events ------------------------------------------------------------------------------------

  /** The log is kept or extended, the commit index is kept or forgotten, nothing is sent or applied. */
  ghost predicate Uncommitting(s: System, s': System, i: nat)
    requires i < |s.servers| && i < |s'.servers|
  {
    var a, b := s.servers[i].node, s'.servers[i].node;
    && (b.commitIndex == a.commitIndex || b.commitIndex == 0)
    && (b.log == a.log || (|b.log| == |a.log| + 1 && b.log[..|a.log|] == a.log))
    && (forall k :: |s.net| <= k < |s'.net| ==> !s'.net[k].EntriesRequest?)
    && s'.applied == s.applied
  }

  lemma UncommittingKeeps(s: System, s': System, i: nat)
    requires i < |s.servers| && Acts(s, s', i) && CommitsOk(s) && Uncommitting(s, s', i)
    ensures CommitsOk(s')
  {
    var a, b := s.servers[i].node, s'.servers[i].node;
    assert a.log[..|a.log|] == a.log && b.log[..|b.log|] == b.log;
    assert NodeCommitted(s, i);
    CommitKept(s, s', i);
    CommitsKeep(s, s', i);
  }

  lemma UncommittingEvent(r: Rules, s: System, e: Event)
    requires Shape(s) && Actor(s, e) < |s.servers|
    requires e.Timeout? || e.ClientStart? || e.BuildSnapshot? || e.Restart? || e.DeliverBallot?
    ensures Uncommitting(s, Next(r, s, e), Actor(s, e))
  {
    var i := Actor(s, e);
    var a := s.servers[i].node;
    if e.ClientStart? {
      assert (a.log + [Entry(e.command, a.currentTerm, |a.log|)])[..|a.log|] == a.log;
    }
  }

  /** The reply reaches the leader of its term, still leading. */
  ghost predicate Acknowledges(s: System, p: Packet)
    requires p.EntriesReply? && p.dst < |s.servers|
  {
    var a := s.servers[p.dst].node;
    a.role == Leader && p.args.term == a.currentTerm && p.reply.term <= a.currentTerm
  }

  lemma UncommittingDelivery(r: Rules, s: System, p: Packet)
    requires Shape(s) && PacketShape(|s.servers|, p)
    ensures p.VoteReply? ==> Uncommitting(s, OnVoteReply(s, p), p.dst)
    ensures p.SnapshotRequest? ==> Uncommitting(s, OnSnapshot(r, s, p), p.dst)
    ensures p.SnapshotReply? ==> Uncommitting(s, OnSnapshotReply(r, s, p), p.dst)
    ensures p.EntriesReply? && !Acknowledges(s, p) ==> Uncommitting(s, OnEntriesReply(r, s, p), p.dst)
  {
  }

  /** A leader's message carries its own commit index and its own log. */
  lemma AppendToCommits(s: System, i: nat, peer: nat, heartbeat: bool)
    requires Inv(s) && CommitsOk(s) && i < |s.servers| && peer < |s.servers|
    requires var s' := OnAppendTo(s, i, peer, heartbeat); s' != s && Acts(s, s', i)
    ensures CommitsOk(OnAppendTo(s, i, peer, heartbeat))
  {
    hide Certifies, VotesOk, StoredOk, CandidateOk, MatchOk, PacketOk, AppliedOk;
    var x := s.servers[i];
    var s' := OnAppendTo(s, i, peer, heartbeat);
    assert x.node.log[..|x.node.log|] == x.node.log;
    assert NodeCommitted(s, i);
    CommitKept(s, s', i);
    if MessageFor(x.node, 0, i, peer, heartbeat).SendEntries? {
      assert ServerOk(s, i) && ReignOk(s, x.node.currentTerm);
      assert x.node.commitIndex < |x.node.log| by {
        CommitBelowLength(s, i);
      }
      CommittedStays(s, s', i, x.node.currentTerm, x.node.currentTerm in x.stored, x.node.log, x.node.commitIndex,
                     x.node.currentTerm, true, x.node.log);
    }
    CommitsKeep(s, s', i);
  }

  /** No commit index is past the end of the log. */
  lemma CommitBelowLength(s: System, v: nat)
    requires v < |s.servers| && NodeCommitted(s, v)
    ensures s.servers[v].node.commitIndex < |s.servers[v].node.log|
  {
  }

  lemma CommittedApplies(s: System, term: nat, now: bool, log: seq<Entry>, k: nat, v: nat, n: nat)
    requires Committed(s, term, now, log, k) && 0 < n <= k && n < |log|
    ensures AppliedOk(s, Applied(v, n, log[n].command))
  {
    var t: nat, m: nat :| t <= term && (t == term ==> now) && Certifies(s, t, m, log, k);
    AgreeAt(s.reigns[t].log, log, k + 1, n);
    assert AppliedAt(s, t, m, Applied(v, n, log[n].command));
  }

  lemma ApplyCommits(s: System, i: nat)
    requires Shape(s) && i < |s.servers| && CommitsOk(s) && CanApply(s.servers[i].node)
    requires Acts(s, OnApply(s, i), i)
    ensures CommitsOk(OnApply(s, i))
  {
    var nd := s.servers[i].node;
    var s' := OnApply(s, i);
    assert NodeCommitted(s, i);
    assert nd.log[..|nd.log|] == nd.log;
    CommitKept(s, s', i);
    CommittedApplies(s, nd.currentTerm, nd.currentTerm in s.servers[i].stored, nd.log, nd.commitIndex,
                     i, nd.lastApplied + 1);
    AppliedStays(s, s', i, Applied(i, nd.lastApplied + 1, nd.log[nd.lastApplied + 1].command));
    CommitsKeep(s, s', i);
  }

  /** A leader's commit index after a reply: what it was, or an index that it may commit. */
  lemma ReplyCommitIndex(r: Rules, s: System, p: Packet)
    requires Shape(s) && r.commitGuard && p.EntriesReply? && PacketShape(|s.servers|, p)
    requires Acknowledges(s, p)
    ensures var a, b := s.servers[p.dst].node, OnEntriesReply(r, s, p).servers[p.dst].node;
            && b.log == a.log && b.currentTerm == a.currentTerm && b.role == a.role
            && (b.commitIndex == a.commitIndex
                || (a.commitIndex < b.commitIndex < |b.log| && Committable(b, 0, p.dst, true, b.commitIndex)))
  {
    var a := s.servers[p.dst].node;
    var b := OnEntriesReply(r, s, p).servers[p.dst].node;
    var nd1 := Acknowledge(a, 0, p.src, p.args, p.reply);
    GreatestCommittable(nd1, 0, p.dst, true, a.commitIndex, LastIndex(a.log));
    if b.commitIndex != a.commitIndex {
      assert Replicas(b, p.dst, b.commitIndex) == Replicas(nd1, p.dst, b.commitIndex);
    }
  }

  lemma EntriesReplyCommits(r: Rules, s: System, p: Packet)
    requires Inv(s) && CommitsOk(s) && r.commitGuard && p.EntriesReply? && PacketShape(|s.servers|, p)
    requires var s' := OnEntriesReply(r, s, p); Inv(s') && Acts(s, s', p.dst)
    ensures CommitsOk(OnEntriesReply(r, s, p))
  {
    hide HandleAppendReply, Acts, ReignOk, ServerOk, PacketOk, Committed, AppliedOk, MessageCommitted;
    var s' := OnEntriesReply(r, s, p);
    var a, b := s.servers[p.dst].node, s'.servers[p.dst].node;
    if !Acknowledges(s, p) {
      UncommittingDelivery(r, s, p);
      UncommittingKeeps(s, s', p.dst);
    } else {
      ReplyCommitIndex(r, s, p);
      assert NodeCommitted(s, p.dst);
      if b.commitIndex == a.commitIndex {
        assert a.log[..|a.log|] == a.log;
        CommitKept(s, s', p.dst);
      } else {
        LeaderCommits(s', p.dst, b.commitIndex);
      }
      CommitsKeep(s, s', p.dst);
    }
  }

  /** What a processed message does to the log and the commit index: nothing, or the log becomes the
      sender's and the commit index at most becomes the sender's. */
  ghost predicate CommitFollows(a: Server, b: Server, p: Packet)
    requires p.EntriesRequest?
  {
    || (b.node.commitIndex == a.node.commitIndex && b.node.log == a.node.log)
    || (&& p.args.term == a.node.currentTerm == b.node.currentTerm && b.node.log == p.built
        && p.args.term in b.stored
        && (b.node.commitIndex == a.node.commitIndex || b.node.commitIndex == p.args.leaderCommit))
  }

  lemma ProcessedCommitIndex(r: Rules, s: System, k: nat, p: Packet)
    requires Shape(s) && p.EntriesRequest? && PacketShape(|s.servers|, p)
    requires p.args.leaderCommit < |p.built| && CarriesSuffix(p.args, p.built)
    requires Coherent(s.reigns, p.built) && Coherent(s.reigns, s.servers[p.dst].node.log)
    ensures CommitFollows(s.servers[p.dst], OnEntries(r, s, k, p).servers[p.dst], p)
  {
    var a := s.servers[p.dst].node;
    if a.currentTerm == p.args.term && HandleAppendEntries(a, p.args).1.success {
      AcceptedLog(s.reigns, a.log, p.args, p.built);
    }
  }

  lemma CommittedNow(s: System, s': System, i: nat, built: Log, k: nat)
    requires i < |s.servers| && Acts(s, s', i)
    requires var x' := s'.servers[i];
             x'.node.log == built && x'.node.commitIndex == k && x'.node.currentTerm in x'.stored
    requires Committed(s, s'.servers[i].node.currentTerm, true, built, k)
    ensures NodeCommitted(s', i)
  {
    var t := s'.servers[i].node.currentTerm;
    assert built[..|built|] == built;
    CommittedStays(s, s', i, t, true, built, k, t, true, built);
  }

  lemma ProcessedCommits(s: System, s': System, k: nat)
    requires Inv(s) && Safe(s) && k < |s.net| && s.net[k].EntriesRequest?
    requires MessageCommitted(s, s.net[k]) && NodeCommitted(s, s.net[k].dst)
    requires InSendOrder(s.servers[s.net[k].dst], s.net[k], k)
    requires Shape(s') && Acts(s, s', s.net[k].dst)
    requires CommitFollows(s.servers[s.net[k].dst], s'.servers[s.net[k].dst], s.net[k])
    ensures NodeCommitted(s', s.net[k].dst)
  {
    hide ReignOk, ServerOk, PacketOk, Certifies, Safe;
    var p := s.net[k];
    var x, x' := s.servers[p.dst], s'.servers[p.dst];
    if x'.node.commitIndex == x.node.commitIndex && x'.node.log == x.node.log {
      assert x.node.log[..|x.node.log|] == x.node.log;
      CommitKept(s, s', p.dst);
    } else {
      if x'.node.commitIndex != p.args.leaderCommit {
        FollowerKeepsCommits(s, k, x.node.commitIndex);
      }
      CommittedNow(s, s', p.dst, p.built, x'.node.commitIndex);
    }
  }

  /** Overwriting the log with the leader's loses nothing that is committed up to `m`. */
  lemma FollowerKeepsCommits(s: System, k: nat, m: nat)
    requires Inv(s) && Safe(s) && k < |s.net| && s.net[k].EntriesRequest?
    requires var p := s.net[k];
             var x := s.servers[p.dst];
             InSendOrder(x, p, k) && CommittedAt(s, p.dst, m) && p.args.term == x.node.currentTerm
    ensures var p := s.net[k];
            && Committed(s, p.args.term, true, p.built, m)
            && (m > 0 ==> Agree(s.servers[p.dst].node.log, p.built, m + 1))
  {
    hide ReignOk, ServerOk, PacketOk, Committed, Complete, Held, Pledged, VoteTerms, SentInOrder, LinksOk;
    ReceiverBehind(s, k);
    FollowedCommits(s, s.net[k].dst, s.net[k], m);
  }

  lemma FollowedCommits(s: System, v: nat, p: Packet, m: nat)
    requires AllComplete(s) && v < |s.servers| && p.EntriesRequest? && CommittedAt(s, v, m)
    requires p.args.term == s.servers[v].node.currentTerm && Following(s, s.servers[v], p)
    ensures Committed(s, p.args.term, true, p.built, m)
    ensures m > 0 ==> Agree(s.servers[v].node.log, p.built, m + 1)
  {
    var x := s.servers[v];
    CommittedFollows(s, p.args.term, p.args.term in x.stored, x.node.log, p.built, m);
  }

  /** The message was built by the leader of its term and does not go back behind what `x` stored. */
  ghost predicate Following(s: System, x: Server, p: Packet)
    requires p.EntriesRequest?
  {
    && p.args.term in s.reigns && s.reigns[p.args.term].start <= |p.built|
    && Agree(p.built, s.reigns[p.args.term].log, |p.built|)
    && (p.args.term in x.stored ==> |x.node.log| <= |p.built|)
  }

  /** In send order, a message never goes back behind what its receiver stored in the term. */
  lemma ReceiverBehind(s: System, k: nat)
    requires Inv(s) && Safe(s) && k < |s.net| && s.net[k].EntriesRequest?
    requires var p := s.net[k];
             var x := s.servers[p.dst];
             InSendOrder(x, p, k) && p.args.term == x.node.currentTerm
    ensures Following(s, s.servers[s.net[k].dst], s.net[k])
  {
    var p := s.net[k];
    assert PacketOk(s, p) && LinksOk(s, p.dst) && InStep(s.servers[p.dst]);
    MarkBound(s, p.dst, k);
  }

  lemma EntriesSent(r: Rules, s: System, k: nat, p: Packet)
    requires Shape(s) && r.inOrder && p.EntriesRequest? && PacketShape(|s.servers|, p)
    ensures var s' := OnEntries(r, s, k, p);
            && s'.applied == s.applied
            && (forall j :: |s.net| <= j < |s'.net| ==> !s'.net[j].EntriesRequest?)
            && (s' != s ==> InSendOrder(s.servers[p.dst], p, k))
  {
  }

  lemma EntriesCommits(r: Rules, s: System, k: nat)
    requires Inv(s) && Safe(s) && CommitsOk(s) && r.inOrder && k < |s.net| && s.net[k].EntriesRequest?
    requires var p := s.net[k]; var s' := OnEntries(r, s, k, p); s' != s && Acts(s, s', p.dst)
    ensures CommitsOk(OnEntries(r, s, k, s.net[k]))
  {
    var p := s.net[k];
    var s' := OnEntries(r, s, k, p);
    assert PacketOk(s, p) && MessageCommitted(s, p) && NodeCommitted(s, p.dst);
    BuiltWellFormed(s, p);
    ProcessedCommitIndex(r, s, k, p);
    EntriesSent(r, s, k, p);
    ProcessedCommits(s, s', k);
    CommitsKeep(s, s', p.dst);
  }

  lemma NextCommits(r: Rules, s: System, e: Event)
    requires Inv(s) && Safe(s) && CommitsOk(s) && AllRules(r)
    ensures CommitsOk(Next(r, s, e))
  {
    var s' := Next(r, s, e);
    NextKeeps(r, s, e);
    NextSafe(r, s, e);
    if s' != s {
      var i := Actor(s, e);
      match e
      case AppendTo(_, peer, heartbeat) => AppendToCommits(s, i, peer, heartbeat);
      case Apply(_) => ApplyCommits(s, i);
      case Deliver(k) =>
        var p := s.net[k];
        if p.EntriesRequest? {
          EntriesCommits(r, s, k);
        } else if p.EntriesReply? {
          EntriesReplyCommits(r, s, p);
        } else {
          UncommittingDelivery(r, s, p);
          UncommittingKeeps(s, s', i);
        }
      case _ =>
        UncommittingEvent(r, s, e);
        UncommittingKeeps(s, s', i);
    }
  }

  lemma {:induction false} AlwaysCommitted(r: Rules, n: nat, run: seq<Event>)
    requires AllRules(r)
    ensures Inv(Exec(r, n, run)) && Safe(Exec(r, n, run)) && CommitsOk(Exec(r, n, run))
  {
    AlwaysSafe(r, n, run);
    if run != [] {
      AlwaysCommitted(r, n, run[..|run| - 1]);
      NextCommits(r, Exec(r, n, run[..|run| - 1]), run[|run| - 1]);
    }
  }

  // ----- The claims --------------------------------------------------------------------------------

  /** Two certificates agree where both reach. */
  lemma ChosenAgree(s: System, t: nat, m: nat, u: nat, l: nat, i: nat)
    requires Shape(s) && Safe(s) && Chosen(s, t, m) && Chosen(s, u, l) && i <= m && i <= l
    ensures s.reigns[t].log[i] == s.reigns[u].log[i]
  {
    ChosenIsChoosable(s, t, m);
    ChosenIsChoosable(s, u, l);
    if t < u {
      assert Complete(s, t, u);
      AgreeAt(s.reigns[t].log, s.reigns[u].log, m + 1, i);
    } else if u < t {
      assert Complete(s, u, t);
      AgreeAt(s.reigns[u].log, s.reigns[t].log, l + 1, i);
    }
  }

  /** No two servers ever apply different commands at the same index. */
  ghost predicate StateMachinesAgree(s: System) {
    forall a, b :: a in s.applied && b in s.applied && a.index == b.index ==> a.command == b.command
  }

  lemma {:induction false} StateMachineSafetyHolds(r: Rules, n: nat, run: seq<Event>)
    requires AllRules(r)
    ensures StateMachinesAgree(Exec(r, n, run))
  {
    var s := Exec(r, n, run);
    AlwaysCommitted(r, n, run);
    forall a, b | a in s.applied && b in s.applied && a.index == b.index ensures a.command == b.command {
      var t: nat, m: nat :| AppliedAt(s, t, m, a);
      var u: nat, l: nat :| AppliedAt(s, u, l, b);
      ChosenAgree(s, t, m, u, l, a.index);
    }
  }

  /** No message carries a commit index past its own last entry. */
  lemma {:induction false} LeaderCommitWithinMessage(r: Rules, n: nat, run: seq<Event>, k: nat)
    requires AllRules(r)
    requires k < |Exec(r, n, run).net| && Exec(r, n, run).net[k].EntriesRequest?
    ensures var args := Exec(r, n, run).net[k].args;
            args.leaderCommit <= args.prevLogIndex + |args.entries|
  {
    var s := Exec(r, n, run);
    AlwaysCommitted(r, n, run);
    assert PacketOk(s, s.net[k]) && MessageCommitted(s, s.net[k]);
  }
}
