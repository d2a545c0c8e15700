/** Claims over every run, under any delivery order and with or without the commit guard. Those that rest on
    the rule that a vote is cleared only with a new term require `keepVote`; the others hold of any rules. */
module Claims {
  import opened RaftLog
  import opened RaftNode
  import opened Cluster
  import opened Invariants
  import opened Events
  import opened Terms
  import opened Completeness
  import opened SafeRuns
  import opened StateMachineSafety

  // ----- Election safety (section 5.2 of the extended Raft paper) ----------------------------------

  /** No term has ever had two leaders. */
  ghost predicate OneLeaderPerTerm(s: System) {
    forall t, a, b :: (t, a) in s.won && (t, b) in s.won ==> a == b
  }

  lemma {:induction false} ElectionSafety(r: Rules, n: nat, run: seq<Event>)
    requires r.keepVote
    ensures var s := Exec(r, n, run);
            && OneLeaderPerTerm(s)
            && (forall v: nat :: v < n && s.servers[v].node.role == Leader ==>
                  (s.servers[v].node.currentTerm, v) in s.won)
  {
    var s := Exec(r, n, run);
    Always(r, n, run);
    forall v: nat | v < n && s.servers[v].node.role == Leader ensures (s.servers[v].node.currentTerm, v) in s.won {
      assert ServerOk(s, v);
    }
  }

  /** The node is no longer, or not yet again, a candidate of term `t`, and no earlier than `t`. */
  predicate Past(nd: Node, t: nat) {
    t <= nd.currentTerm && !(nd.currentTerm == t && nd.role == Candidate)
  }

  lemma RepliesKeepPast(nd: Node, t: nat, r: Rules, me: nat, peer: nat, args: AppendEntriesArgs,
                        reply: AppendEntriesReply, term: nat, covered: nat, replyTerm: nat)
    requires Past(nd, t) && peer < |nd.nextIndex| && peer < |nd.matchIndex|
    ensures Past(HandleAppendReply(nd, 0, me, r.commitGuard, peer, args, reply), t)
    ensures Past(HandleSnapshotReply(nd, r.keepVote, peer, term, covered, replyTerm), t)
  {
  }

  lemma DeliveryKeepsPast(r: Rules, s: System, k: nat, i: nat, t: nat)
    requires Shape(s) && i < |s.servers| && k < |s.net| && Past(s.servers[i].node, t)
    ensures Past(OnDelivery(r, s, k).servers[i].node, t)
  {
    hide HandleAppendReply, HandleSnapshotReply;
    var p := s.net[k];
    if p.EntriesReply? && p.dst == i {
      RepliesKeepPast(s.servers[p.dst].node, t, r, p.dst, p.src, p.args, p.reply, 0, 0, 0);
    } else if p.SnapshotReply? && p.dst == i {
      RepliesKeepPast(s.servers[p.dst].node, t, r, p.dst, p.src,
                      AppendEntriesArgs(0, 0, 0, 0, [], 0), AppendEntriesReply(0, false, false, 0, 0, 0),
                      p.term, 0, p.replyTerm);
    }
  }

  lemma NextKeepsPast(r: Rules, s: System, e: Event, i: nat, t: nat)
    requires Shape(s) && i < |s.servers| && Past(s.servers[i].node, t)
    ensures Past(Next(r, s, e).servers[i].node, t)
  {
    if e.Deliver? && e.k < |s.net| {
      hide OnDelivery;
      DeliveryKeepsPast(r, s, e.k, i, t);
    }
  }

  /** Once a server has stopped being a candidate of term `t` it is never one again in the rest of the run,
      so an election that has spent its one chance to become leader never misses a later one. */
  lemma {:induction false} CandidacyEnds(r: Rules, n: nat, run: seq<Event>, more: seq<Event>, i: nat, t: nat)
    requires i < n && Past(Exec(r, n, run).servers[i].node, t)
    ensures Past(Exec(r, n, run + more).servers[i].node, t)
    decreases |more|
  {
    hide Next;
    if more == [] {
      assert run + more == run;
    } else {
      var fewer, whole := more[..|more| - 1], run + more;
      CandidacyEnds(r, n, run, fewer, i, t);
      ExecStep(r, n, whole);
      assert whole[..|whole| - 1] == run + fewer;
      NextKeepsPast(r, Exec(r, n, run + fewer), whole[|whole| - 1], i, t);
    }
  }

  // ----- Log matching (section 5.3) ----------------------------------------------------------------

  /** Two entries with the same index and term are preceded by the same entries. */
  ghost predicate LogsMatch(s: System) {
    forall u, v, i {:trigger s.servers[u].node.log[i], s.servers[v].node.log[i]} ::
      0 <= u < |s.servers| && 0 <= v < |s.servers| &&
      0 <= i < |s.servers[u].node.log| && i < |s.servers[v].node.log| &&
      s.servers[u].node.log[i].term == s.servers[v].node.log[i].term ==>
        s.servers[u].node.log[..i + 1] == s.servers[v].node.log[..i + 1]
  }

  lemma {:induction false} LogMatching(r: Rules, n: nat, run: seq<Event>)
    requires r.keepVote
    ensures LogsMatch(Exec(r, n, run))
  {
    var s := Exec(r, n, run);
    Always(r, n, run);
    forall u, v, i | 0 <= u < |s.servers| && 0 <= v < |s.servers| &&
                     0 <= i < |s.servers[u].node.log| && i < |s.servers[v].node.log| &&
                     s.servers[u].node.log[i].term == s.servers[v].node.log[i].term
      ensures s.servers[u].node.log[..i + 1] == s.servers[v].node.log[..i + 1]
    {
      assert ServerOk(s, u) && ServerOk(s, v);
      CoherentMatch(s.reigns, s.servers[u].node.log, s.servers[v].node.log, i);
    }
  }

  // ----- Services see every index in order -----------------------------------------------------------

  /** Since its last restart the service was sent exactly the indices 1, 2, ..., `lastApplied`. */
  ghost predicate InOrder(s: System, v: nat)
    requires v < |s.servers|
  {
    var x := s.servers[v];
    && |x.sent| == x.node.lastApplied
    && forall j :: 0 <= j < |x.sent| ==> x.sent[j].server == v && x.sent[j].index == j + 1 && x.sent[j] in s.applied
  }

  ghost predicate Unsent(a: Server, b: Server) {
    b.sent == a.sent && b.node.lastApplied == a.node.lastApplied
  }

  ghost predicate Forgot(b: Server) {
    b.sent == [] && b.node.lastApplied == 0
  }

  ghost predicate SentNext(a: Server, b: Server, v: nat, applied: set<Applied>) {
    && b.node.lastApplied == a.node.lastApplied + 1
    && |b.sent| == |a.sent| + 1 && b.sent[..|a.sent|] == a.sent
    && var last := b.sent[|a.sent|];
       last.server == v && last.index == b.node.lastApplied && last in applied
  }

  lemma SentStep(r: Rules, s: System, e: Event, v: nat)
    requires Shape(s) && v < |s.servers|
    ensures var s' := Next(r, s, e);
            var a, b := s.servers[v], s'.servers[v];
            Unsent(a, b) || Forgot(b) || SentNext(a, b, v, s'.applied)
  {
    hide OnDelivery, MessageFor, UpToDate, Ids;
    if e.Deliver? {
      if e.k < |s.net| {
        DeliverySends(r, s, e.k, v);
      }
    }
  }

  lemma HandlersSend(r: Rules, s: System, k: nat, p: Packet)
    requires Shape(s) && PacketShape(|s.servers|, p)
    ensures p.VoteReply? ==> Unsent(s.servers[p.dst], OnVoteReply(s, p).servers[p.dst])
    ensures p.EntriesRequest? ==> Unsent(s.servers[p.dst], OnEntries(r, s, k, p).servers[p.dst])
    ensures p.EntriesReply? ==> Unsent(s.servers[p.dst], OnEntriesReply(r, s, p).servers[p.dst])
    ensures p.SnapshotRequest? ==> Unsent(s.servers[p.dst], OnSnapshot(r, s, p).servers[p.dst])
    ensures p.SnapshotReply? ==> Unsent(s.servers[p.dst], OnSnapshotReply(r, s, p).servers[p.dst])
  {
    hide FirstOfRun, HighestCommittable, NextAfterConflict;
  }

  lemma DeliverySends(r: Rules, s: System, k: nat, v: nat)
    requires Shape(s) && k < |s.net| && v < |s.servers|
    ensures Unsent(s.servers[v], OnDelivery(r, s, k).servers[v])
  {
    hide OnVoteReply, OnEntries, OnEntriesReply, OnSnapshot, OnSnapshotReply;
    var p := s.net[k];
    if p.VoteRequest? || p.dst != v {
      DeliveryElsewhere(r, s, k, v);
    } else {
      HandlersSend(r, s, k, p);
    }
  }

  lemma DeliveryApplies(r: Rules, s: System, k: nat)
    requires Shape(s) && k < |s.net|
    ensures OnDelivery(r, s, k).applied == s.applied
  {
    hide HandleAppendEntries, HandleAppendReply, HandleVoteReply, HandleEmptySnapshot, HandleSnapshotReply;
  }

  /** What is applied stays so; what is new was sent just now. */
  lemma NewlyApplied(r: Rules, s: System, e: Event)
    requires Shape(s)
    ensures var s' := Next(r, s, e);
            && s.applied <= s'.applied
            && forall a :: a in s'.applied && a !in s.applied ==>
                 a.server < |s'.servers| && a in s'.servers[a.server].sent
  {
    if e.Deliver? && e.k < |s.net| {
      hide OnDelivery;
      DeliveryApplies(r, s, e.k);
    }
  }

  lemma NextInOrder(r: Rules, s: System, e: Event, v: nat)
    requires Shape(s) && v < |s.servers| && InOrder(s, v)
    ensures InOrder(Next(r, s, e), v)
  {
    hide Next;
    SentStep(r, s, e, v);
    NewlyApplied(r, s, e);
  }

  /** In every run and under any rules, what a service has been sent since its last restart is the
      sequence of indices 1, 2, ..., `lastApplied`, each once and in this order. */
  lemma {:induction false} AppliedInOrder(r: Rules, n: nat, run: seq<Event>, v: nat)
    requires v < n
    ensures InOrder(Exec(r, n, run), v)
  {
    hide Next;
    if run != [] {
      AppliedInOrder(r, n, run[..|run| - 1], v);
      ExecStep(r, n, run);
      NextInOrder(r, Exec(r, n, run[..|run| - 1]), run[|run| - 1], v);
    }
  }

  ghost predicate SentTo(s: System, v: nat, j: nat) {
    exists c :: Applied(v, j, c) in s.applied
  }

  lemma SentSoFar(s: System, a: Applied, j: nat)
    requires a.server < |s.servers| && InOrder(s, a.server) && a in s.servers[a.server].sent && 1 <= j <= a.index
    ensures SentTo(s, a.server, j)
  {
    var b := s.servers[a.server].sent[j - 1];
    assert b == Applied(a.server, j, b.command);
  }

  /** Over all restarts too, a service that was ever sent an index was sent every smaller one. */
  lemma {:induction false} AppliedWithoutGaps(r: Rules, n: nat, run: seq<Event>, a: Applied, j: nat)
    requires a in Exec(r, n, run).applied && 1 <= j <= a.index
    ensures SentTo(Exec(r, n, run), a.server, j)
  {
    hide Next;
    if run != [] {
      var s, e := Exec(r, n, run[..|run| - 1]), run[|run| - 1];
      ExecStep(r, n, run);
      NewlyApplied(r, s, e);
      if a in s.applied {
        AppliedWithoutGaps(r, n, run[..|run| - 1], a, j);
        var c :| Applied(a.server, j, c) in s.applied;
        assert Applied(a.server, j, c) in Exec(r, n, run).applied;
      } else {
        AppliedInOrder(r, n, run, a.server);
        SentSoFar(Exec(r, n, run), a, j);
      }
    }
  }

  /** Under the rules, of the sequences that two services have been sent, one is a prefix of the other. */
  lemma {:induction false} ServicesAgree(r: Rules, n: nat, run: seq<Event>, u: nat, v: nat, j: nat)
    requires AllRules(r) && u < n && v < n
    requires j < |Exec(r, n, run).servers[u].sent| && j < |Exec(r, n, run).servers[v].sent|
    ensures var a, b := Exec(r, n, run).servers[u].sent[j], Exec(r, n, run).servers[v].sent[j];
            a.index == b.index == j + 1 && a.command == b.command
  {
    hide Exec;
    AppliedInOrder(r, n, run, u);
    AppliedInOrder(r, n, run, v);
    StateMachineSafetyHolds(r, n, run);
  }

  // ----- What is committed is applied ---------------------------------------------------------------

  lemma OneTurn(r: Rules, s: System, i: nat)
    requires Shape(s) && i < |s.servers|
    requires var nd := s.servers[i].node; nd.lastApplied < nd.commitIndex && nd.lastApplied < LastIndex(nd.log)
    ensures var a, s' := s.servers[i].node, Next(r, s, Apply(i));
            var b := s'.servers[i].node;
            && b == a.(lastApplied := a.lastApplied + 1)
            && s.applied <= s'.applied
            && Applied(i, b.lastApplied, a.log[b.lastApplied].command) in s'.applied
  {
  }

  lemma {:induction false} CommitWithinLog(r: Rules, n: nat, run: seq<Event>, i: nat)
    requires AllRules(r) && i < n
    ensures var nd := Exec(r, n, run).servers[i].node; nd.commitIndex <= LastIndex(nd.log)
  {
    hide Exec, Inv, Safe, NodeCommitted;
    AlwaysCommitted(r, n, run);
    assert NodeCommitted(Exec(r, n, run), i);
    CommitBelowLength(Exec(r, n, run), i);
  }

  /** Under the rules, as many turns of `applier` as a server is behind send its service everything up to its
      commit index, with the commands of its log. */
  lemma {:induction false} CommittedIsApplied(r: Rules, n: nat, run: seq<Event>, i: nat, turns: nat)
    requires AllRules(r) && i < n
    requires var nd := Exec(r, n, run).servers[i].node; nd.lastApplied + turns <= nd.commitIndex
    ensures var a, s' := Exec(r, n, run).servers[i].node, Exec(r, n, run + seq(turns, _ => Apply(i)));
            && a.commitIndex <= LastIndex(a.log)
            && s'.servers[i].node == a.(lastApplied := a.lastApplied + turns)
            && forall j :: a.lastApplied < j <= a.lastApplied + turns ==> Applied(i, j, a.log[j].command) in s'.applied
  {
    hide Exec, Next;
    CommitWithinLog(r, n, run, i);
    if turns == 0 {
      assert run + seq(turns, _ => Apply(i)) == run;
    } else {
      var before, whole := run + seq(turns - 1, _ => Apply(i)), run + seq(turns, _ => Apply(i));
      CommittedIsApplied(r, n, run, i, turns - 1);
      assert whole[..|whole| - 1] == before && whole[|whole| - 1] == Apply(i);
      ExecStep(r, n, whole);
      OneTurn(r, Exec(r, n, before), i);
    }
  }

  // ----- Success means whole-log equality ----------------------------------------------------------

  /** Whoever accepts a message ends with exactly the log the message was built from. */
  lemma {:induction false} SuccessMeansEqualLogs(r: Rules, n: nat, run: seq<Event>, k: nat)
    requires r.keepVote
    requires var s := Exec(r, n, run);
             && k < |s.net| && s.net[k].EntriesRequest?
             && HandleAppendEntries(s.servers[s.net[k].dst].node, s.net[k].args).1.success
    ensures var s := Exec(r, n, run);
            HandleAppendEntries(s.servers[s.net[k].dst].node, s.net[k].args).0.log == s.net[k].built
  {
    hide ReignOk, ServerOk, FirstOfRun;
    var s := Exec(r, n, run);
    var p := s.net[k];
    Always(r, n, run);
    assert PacketOk(s, p);
    BuiltWellFormed(s, p);
    AcceptedLog(s.reigns, s.servers[p.dst].node.log, p.args, p.built);
  }

  /** Every message was built at some moment of the run from the whole log that its sender then had as
      leader. */
  lemma {:induction false} MessageOrigin(r: Rules, n: nat, run: seq<Event>, k: nat) returns (j: nat)
    requires k < |Exec(r, n, run).net| && Exec(r, n, run).net[k].EntriesRequest?
    ensures j < |run| && SentBy(Exec(r, n, run[..j]), Exec(r, n, run).net[k])
  {
    hide Next;
    assert run != [];
    var before := run[..|run| - 1];
    var s := Exec(r, n, before);
    ExecStep(r, n, run);
    NewMessage(r, s, run[|run| - 1]);
    if k < |s.net| {
      j := MessageOrigin(r, n, before, k);
      assert before[..j] == run[..j];
    } else {
      j := |run| - 1;
    }
  }

  // ----- Commit evidence ---------------------------------------------------------------------------

  /** In its term, server `v` has stored a log that agrees with `log` through `n`. */
  ghost predicate Evidence(x: Server, t: nat, log: seq<Entry>, n: nat) {
    t in x.stored && Agree(x.stored[t], log, n + 1)
  }

  /** A leader's `matchIndex` never overstates what a follower has stored in the leader's term. */
  lemma {:induction false} MatchIndexIsEvidence(r: Rules, n: nat, run: seq<Event>, i: nat, p: nat)
    requires r.keepVote && i < n && p < n && p != i
    requires var nd := Exec(r, n, run).servers[i].node; nd.role == Leader && nd.matchIndex[p] > 0
    ensures var s := Exec(r, n, run);
            var nd := s.servers[i].node;
            Evidence(s.servers[p], nd.currentTerm, nd.log, nd.matchIndex[p])
  {
    var s := Exec(r, n, run);
    Always(r, n, run);
    assert ServerOk(s, i) && MatchOk(s, i, p) && ServerOk(s, p);
    var t := s.servers[i].node.currentTerm;
    AgreeFewer(s.servers[p].stored[t], s.reigns[t].log, |s.servers[p].stored[t]|, s.servers[i].node.matchIndex[p] + 1);
  }

  ghost predicate Witnesses(s: System, i: nat, n: nat, q: set<nat>)
    requires i < |s.servers|
  {
    var nd := s.servers[i].node;
    && Majority(|s.servers|, q) && i in q
    && forall v :: v in q ==> Evidence(s.servers[v], nd.currentTerm, nd.log, n)
  }

  lemma ReplicasWitness(s: System, i: nat, guard: bool, n: nat) returns (q: set<nat>)
    requires Inv(s) && i < |s.servers| && s.servers[i].node.role == Leader
    requires 0 < n < |s.servers[i].node.log| && Committable(s.servers[i].node, 0, i, guard, n)
    ensures Witnesses(s, i, n, q)
  {
    hide ReignOk, PacketOk, VotesOk, LogOk, CandidateOk, MatchOk;
    var nd := s.servers[i].node;
    q := Replicas(nd, i, n);
    ReplicasHold(s, i, n);
    assert ServerOk(s, i);
    forall v | v in q ensures Evidence(s.servers[v], nd.currentTerm, nd.log, n) {
      assert v in Holders(s, nd.currentTerm, n) && ServerOk(s, v);
      AgreeFewer(s.servers[v].stored[nd.currentTerm], nd.log, |s.servers[v].stored[nd.currentTerm]|, n + 1);
    }
  }

  lemma StillEvent(r: Rules, s: System, e: Event, i: nat)
    requires Shape(s) && i < |s.servers| && !e.Deliver?
    ensures Next(r, s, e).servers[i].node.commitIndex <= s.servers[i].node.commitIndex
  {
    hide MessageFor, UpToDate;
  }

  lemma StillDelivery(r: Rules, s: System, k: nat, i: nat)
    requires Shape(s) && i < |s.servers| && k < |s.net| && !s.net[k].EntriesReply?
    requires s.net[k].EntriesRequest? && s.net[k].dst == i && s.servers[i].node.role == Leader ==>
               s.net[k].args.term != s.servers[i].node.currentTerm
    ensures var nd := OnDelivery(r, s, k).servers[i].node;
            nd.role == Leader ==> nd.commitIndex <= s.servers[i].node.commitIndex
  {
    hide FirstOfRun;
    var p := s.net[k];
    if p.VoteRequest? || p.dst != i {
      DeliveryElsewhere(r, s, k, i);
    } else {
      hide OnEntriesReply;
    }
  }

  /** The reply that raises a leader's commit index raises it to an index that it may commit. */
  lemma ReplyCommits(r: Rules, s: System, p: Packet, i: nat)
    requires Shape(s) && i < |s.servers| && p.EntriesReply? && PacketShape(|s.servers|, p)
    requires var nd := OnEntriesReply(r, s, p).servers[i].node;
             nd.role == Leader && nd.commitIndex > s.servers[i].node.commitIndex
    ensures var nd := OnEntriesReply(r, s, p).servers[i].node;
            0 < nd.commitIndex < |nd.log| && Committable(nd, 0, i, r.commitGuard, nd.commitIndex)
  {
    var nd := OnEntriesReply(r, s, p).servers[i].node;
    var nd1 := Acknowledge(s.servers[i].node, 0, p.src, p.args, p.reply);
    GreatestCommittable(nd1, 0, i, r.commitGuard, nd1.commitIndex, LastIndex(nd1.log));
    assert Replicas(nd, i, nd.commitIndex) == Replicas(nd1, i, nd.commitIndex);
  }

  /** Server `i` leads after the step with a higher commit index than before. */
  ghost predicate Commits(s: System, s': System, i: nat) {
    && i < |s.servers| && i < |s'.servers|
    && s'.servers[i].node.role == Leader
    && s'.servers[i].node.commitIndex > s.servers[i].node.commitIndex
  }

  lemma CommitStep(r: Rules, s: System, e: Event, i: nat) returns (q: set<nat>)
    requires Inv(s) && r.keepVote && Commits(s, Next(r, s, e), i)
    ensures var s' := Next(r, s, e); Witnesses(s', i, s'.servers[i].node.commitIndex, q)
  {
    NextKeeps(r, s, e);
    if e.Deliver? && e.k < |s.net| {
      var p := s.net[e.k];
      assert PacketOk(s, p);
      if p.EntriesReply? {
        ReplyCommits(r, s, p, i);
      } else {
        if p.EntriesRequest? {
          BuiltWellFormed(s, p);
        }
        StillDelivery(r, s, e.k, i);
      }
    } else if !e.Deliver? {
      StillEvent(r, s, e, i);
    }
    var s' := Next(r, s, e);
    q := ReplicasWitness(s', i, r.commitGuard, s'.servers[i].node.commitIndex);
  }

  /** When a leader raises its commit index to `n`, a majority that includes it has stored, in its term, a
      log equal to its own through `n`. */
  lemma {:induction false} CommitEvidence(r: Rules, n: nat, run: seq<Event>, e: Event, i: nat)
    requires r.keepVote && i < n
    ensures var s, s' := Exec(r, n, run), Exec(r, n, run + [e]);
            Commits(s, s', i) ==> exists q :: Witnesses(s', i, s'.servers[i].node.commitIndex, q)
  {
    hide Next;
    var s, whole := Exec(r, n, run), run + [e];
    ExecStep(r, n, whole);
    assert whole[..|whole| - 1] == run;
    if Commits(s, Exec(r, n, whole), i) {
      Always(r, n, run);
      var q := CommitStep(r, s, e, i);
    }
  }

  // ----- Conflict hints ----------------------------------------------------------------------------

  lemma {:induction false} FindLastSound(log: seq<Entry>, x: int, base: nat, i: nat)
    requires i < |log|
    ensures var j := FindLastLogInTerm(log, x, base, i);
            j == -1 || (base < j <= i && log[j].term == x)
  {
    if i > base {
      FindLastSound(log, x, base, i - 1);
    }
  }

  /** On a log whose terms never decrease, giving up at the first smaller term loses nothing: the scan
      finds the last index of the term above `base`, or -1 exactly if there is none. */
  lemma {:induction false} FindLastComplete(log: seq<Entry>, x: int, base: nat, i: nat)
    requires i < |log| && Sorted(log)
    ensures var j := FindLastLogInTerm(log, x, base, i);
            && (j == -1 || (base < j <= i && log[j].term == x))
            && (forall l :: base < l <= i && log[l].term == x ==> l <= j)
  {
    if i > base && log[i].term > x {
      FindLastComplete(log, x, base, i - 1);
    }
  }

  /** In every run, under any rules, every log is sorted and no entry is from a later term than the
      server's; so giving up early loses nothing. */
  lemma {:induction false} EarlyExitIsSound(r: Rules, n: nat, run: seq<Event>, v: nat, x: int)
    requires v < n
    ensures var nd := Exec(r, n, run).servers[v].node;
            var j := FindLastLogInTerm(nd.log, x, 0, LastIndex(nd.log));
            && Sorted(nd.log) && (forall i :: 0 <= i < |nd.log| ==> nd.log[i].term <= nd.currentTerm)
            && (j == -1 || (0 < j < |nd.log| && nd.log[j].term == x))
            && (forall l :: 0 < l < |nd.log| && nd.log[l].term == x ==> l <= j)
  {
    hide Exec;
    var nd := Exec(r, n, run).servers[v].node;
    AlwaysTerms(r, n, run);
    forall i | 0 <= i < |nd.log| ensures nd.log[i].term <= nd.currentTerm {
      LastIsGreatest(nd.log, i);
    }
    FindLastComplete(nd.log, x, 0, LastIndex(nd.log));
  }

  /** Below the conflict: if the leader has an entry of the follower's term at or after the rejected
      index, it has the follower's entry at that index too. */
  lemma HintBelow(reigns: map<nat, Reign>, leader: Log, follower: Log, prev: nat, j: nat)
    requires Coherent(reigns, leader) && Coherent(reigns, follower)
    requires 0 < prev < |leader| && prev < |follower| && leader[prev].term != follower[prev].term
    requires 0 < j < |leader| && leader[j].term == follower[prev].term
    ensures j < prev
  {
    if prev <= j {
      assert Owned(reigns, leader, j) && Owned(reigns, follower, prev);
      AgreeTrans(follower, reigns[follower[prev].term].log, leader, prev + 1, j + 1);
      AgreeAt(follower, leader, prev + 1, prev);
    }
  }

  /** Handling a conflict reply in the same term moves `nextIndex` to at most the rejected index, and a
      positive hint is strictly below it. */
  lemma {:induction false} HintsGoBackward(r: Rules, n: nat, run: seq<Event>, k: nat)
    requires r.keepVote
    requires var s := Exec(r, n, run);
             && k < |s.net| && s.net[k].EntriesReply? && s.net[k].reply.conflict
             && s.servers[s.net[k].dst].node.role == Leader
             && s.servers[s.net[k].dst].node.currentTerm == s.net[k].args.term
    ensures var s := Exec(r, n, run);
            var p := s.net[k];
            var nd := s.servers[p.dst].node;
            && 0 <= NextAfterConflict(nd, 0, p.reply) <= p.args.prevLogIndex
            && (p.reply.xTerm != -1 ==>
                  FindLastLogInTerm(nd.log, p.reply.xTerm, 0, LastIndex(nd.log)) < p.args.prevLogIndex)
  {
    var s := Exec(r, n, run);
    var p := s.net[k];
    var nd := s.servers[p.dst].node;
    Always(r, n, run);
    assert PacketOk(s, p) && ServerOk(s, p.dst);
    if p.reply.xTerm != -1 {
      assert ReignOk(s, p.reply.xTerm);
      var j := FindLastLogInTerm(nd.log, p.reply.xTerm, 0, LastIndex(nd.log));
      FindLastSound(nd.log, p.reply.xTerm, 0, LastIndex(nd.log));
      if j > 0 {
        HintBelow(s.reigns, nd.log, s.reigns[p.reply.xTerm].log, p.args.prevLogIndex, j);
      }
    }
  }

  // ----- Messages and commits of one node ----------------------------------------------------------

  /** A sent message is well formed whatever `nextIndex` is: it starts at or above the compaction point,
      reaches exactly to the leader's last index, and names the term before its first entry. */
  lemma MessageWellFormed(nd: Node, base: nat, me: nat, peer: nat, heartbeat: bool)
    requires peer < |nd.nextIndex| && base <= LastIndex(nd.log) && Indexed(nd.log)
    requires MessageFor(nd, base, me, peer, heartbeat).SendEntries?
    ensures var args := MessageFor(nd, base, me, peer, heartbeat).args;
            && base <= args.prevLogIndex
            && args.prevLogIndex + |args.entries| == LastIndex(nd.log)
            && args.prevLogTerm == nd.log[args.prevLogIndex].term
            && nd.log == nd.log[..args.prevLogIndex + 1] + args.entries
            && (forall j :: 0 <= j < |args.entries| ==> args.entries[j].index == args.prevLogIndex + 1 + j)
  {
  }

  /** The commit rule computes an order statistic: the greatest index that a strict majority has matched
      (and, under the guard, of the current term), if that is above the old commit index. */
  lemma CommitRuleIsGreatest(nd: Node, base: nat, me: nat, guard: bool)
    requires nd.role == Leader
    ensures var k := LeaderCommitRule(nd, base, me, guard).commitIndex;
            && k >= nd.commitIndex
            && (k > nd.commitIndex ==> k <= LastIndex(nd.log) && Committable(nd, base, me, guard, k))
            && (forall j: nat :: nd.commitIndex < j <= LastIndex(nd.log) && Committable(nd, base, me, guard, j) ==>
                  j <= k)
  {
    GreatestCommittable(nd, base, me, guard, nd.commitIndex, LastIndex(nd.log));
  }
}
