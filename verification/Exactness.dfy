/** For each claim that rests on rules: all runs of all clusters keep it if and only if those rules hold. The
    runs that break it otherwise are in module `Violations`. */
module Exactness {
  import opened RaftLog
  import opened RaftNode
  import opened Cluster
  import opened SafeRuns
  import opened StateMachineSafety
  import opened CommittedForever
  import opened Claims
  import opened CatchUp
  import opened Scenario
  import opened Violations

  // ----- Claims that rest on all three rules -----------------------------------------------------------

  /** Without one of the rules, some run of three servers sends two services different commands at the
      same index. */
  lemma EachRuleIsNeeded(r: Rules) returns (run: seq<Event>, i: nat, a: Applied, b: Applied)
    requires !AllRules(r)
    ensures Diverged(Exec(r, 3, run), i, a, b)
  {
    var s: System;
    if !r.keepVote {
      s, a, b := VoteResetDiverges(r);
      i := 1;
    } else if !r.inOrder {
      s, a, b := ReorderDiverges(r);
      i := 2;
    } else {
      s, a, b := CountingDiverges(r);
      i := 1;
    }
    run := ReachedByRun(r, s);
  }

  /** State machine safety holds of all runs exactly under the three rules. */
  lemma StateMachineSafetyExact(r: Rules)
    ensures (forall n, run :: StateMachinesAgree(Exec(r, n, run))) <==> AllRules(r)
  {
    if AllRules(r) {
      forall n, run ensures StateMachinesAgree(Exec(r, n, run)) {
        StateMachineSafetyHolds(r, n, run);
      }
    } else {
      var run, i, a, b := EachRuleIsNeeded(r);
      assert !StateMachinesAgree(Exec(r, 3, run));
      assert !(forall n, run :: StateMachinesAgree(Exec(r, n, run)));
    }
  }

  /** Without one of the rules, some event of some run cuts a log below what its server knows to be
      committed. */
  lemma EachRuleKeepsLogs(r: Rules) returns (s: System, e: Event, v: nat, w: nat)
    requires !AllRules(r)
    ensures Cut(r, s, e, v, w)
  {
    if !r.keepVote {
      s, e, v, w := VoteResetCuts(r);
    } else if !r.inOrder {
      s, e, v, w := ReorderCuts(r);
    } else {
      s, e, v, w := CountingCuts(r);
    }
  }

  /** What a server knew to be committed in `s` is in the log of every leader in `s'` of its term then or of a
      later one. */
  ghost predicate LeadersComplete(s: System, s': System) {
    forall v: nat, i: nat {:trigger s.servers[v].node.log, s'.servers[i].node.log} ::
      v < |s.servers| && i < |s'.servers| && s'.servers[i].node.role == Leader
      && s.servers[v].node.currentTerm <= s'.servers[i].node.currentTerm ==>
        Agree(s.servers[v].node.log, s'.servers[i].node.log, s.servers[v].node.commitIndex + 1)
  }

  /** Leader completeness between any two moments of any run. */
  lemma LeaderCompletenessExact(r: Rules)
    ensures (forall n, run, more :: LeadersComplete(Exec(r, n, run), Exec(r, n, run + more))) <==> AllRules(r)
  {
    hide Next, Exec;
    if AllRules(r) {
      forall n, run, more ensures LeadersComplete(Exec(r, n, run), Exec(r, n, run + more)) {
        CompleteEverywhere(r, n, run, more);
      }
    } else {
      var s, e, v, w := EachRuleKeepsLogs(r);
      var s', k := ShortLeader(r, Next(r, s, e), v, w);
      IncompleteLeader(s', v);
      var run := ReachedByRun(r, s');
      assert run + [] == run;
      assert !LeadersComplete(Exec(r, 3, run), Exec(r, 3, run + []));
    }
  }

  lemma {:induction false} CompleteEverywhere(r: Rules, n: nat, run: seq<Event>, more: seq<Event>)
    requires AllRules(r)
    ensures LeadersComplete(Exec(r, n, run), Exec(r, n, run + more))
  {
    hide Exec;
    var s, s' := Exec(r, n, run), Exec(r, n, run + more);
    forall v: nat, i: nat | v < n && i < n && s'.servers[i].node.role == Leader
                            && s.servers[v].node.currentTerm <= s'.servers[i].node.currentTerm
      ensures Agree(s.servers[v].node.log, s'.servers[i].node.log, s.servers[v].node.commitIndex + 1)
    {
      LeaderCompleteness(r, n, run, more, v, i);
    }
  }

  lemma IncompleteLeader(s: System, v: nat)
    requires v < |s.servers| && s.servers[v].node.role == Leader
    requires s.servers[v].node.commitIndex > LastIndex(s.servers[v].node.log)
    ensures !LeadersComplete(s, s)
  {
    assert !Agree(s.servers[v].node.log, s.servers[v].node.log, s.servers[v].node.commitIndex + 1);
  }

  /** What a server knew to be committed in `s` is in its own log in `s'`. */
  ghost predicate KeepsCommitted(s: System, s': System) {
    forall v: nat :: v < |s.servers| && v < |s'.servers| ==>
      Agree(s.servers[v].node.log, s'.servers[v].node.log, s.servers[v].node.commitIndex + 1)
  }

  /** No log ever loses what its server once knew to be committed. */
  lemma TruncationExact(r: Rules)
    ensures (forall n, run, more :: KeepsCommitted(Exec(r, n, run), Exec(r, n, run + more))) <==> AllRules(r)
  {
    hide Next, Exec;
    if AllRules(r) {
      forall n, run, more ensures KeepsCommitted(Exec(r, n, run), Exec(r, n, run + more)) {
        forall v: nat | v < n
          ensures Agree(Exec(r, n, run).servers[v].node.log, Exec(r, n, run + more).servers[v].node.log,
                        Exec(r, n, run).servers[v].node.commitIndex + 1)
        {
          CommittedNeverTruncated(r, n, run, more, v);
        }
      }
    } else {
      var s, e, v, w := EachRuleKeepsLogs(r);
      var run := ReachedByRun(r, s);
      ExecStep(r, 3, run + [e]);
      assert (run + [e])[..|run + [e]| - 1] == run;
      assert !KeepsCommitted(Exec(r, 3, run), Exec(r, 3, run + [e]));
    }
  }

  ghost predicate CommitsCarried(s: System) {
    forall k :: 0 <= k < |s.net| && s.net[k].EntriesRequest? ==>
      s.net[k].args.leaderCommit <= s.net[k].args.prevLogIndex + |s.net[k].args.entries|
  }

  lemma LeaderCommitExact(r: Rules)
    ensures (forall n, run :: CommitsCarried(Exec(r, n, run))) <==> AllRules(r)
  {
    hide Next;
    if AllRules(r) {
      forall n, run ensures CommitsCarried(Exec(r, n, run)) {
        forall k | 0 <= k < |Exec(r, n, run).net| && Exec(r, n, run).net[k].EntriesRequest?
          ensures var args := Exec(r, n, run).net[k].args; args.leaderCommit <= args.prevLogIndex + |args.entries|
        {
          LeaderCommitWithinMessage(r, n, run, k);
        }
      }
    } else {
      var s, e, v, w := EachRuleKeepsLogs(r);
      var s', k := ShortLeader(r, Next(r, s, e), v, w);
      var run := ReachedByRun(r, s');
      assert !CommitsCarried(Exec(r, 3, run));
    }
  }

  /** Under any rules the bound is attained: some message commits the last index it carries. */
  lemma LeaderCommitAttained(r: Rules) returns (run: seq<Event>, k: nat)
    ensures var s := Exec(r, 3, run);
            && k < |s.net| && s.net[k].EntriesRequest?
            && 0 < s.net[k].args.leaderCommit == s.net[k].args.prevLogIndex + |s.net[k].args.entries|
  {
    hide Next;
    var s: System;
    s, k := EverythingCommitted(r);
    run := ReachedByRun(r, s);
  }

  // ----- Claims that rest on the vote rule alone -------------------------------------------------------

  /** Election safety holds of all runs exactly if handling a snapshot message keeps the vote. */
  lemma ElectionSafetyExact(r: Rules)
    ensures (forall n, run :: OneLeaderPerTerm(Exec(r, n, run))) <==> r.keepVote
  {
    if r.keepVote {
      forall n, run ensures OneLeaderPerTerm(Exec(r, n, run)) {
        ElectionSafety(r, n, run);
      }
    } else {
      var s := VotingTwice(r);
      var run := ReachedByRun(r, s);
      assert !OneLeaderPerTerm(Exec(r, 3, run));
    }
  }

  /** Log matching needs no order and no commit guard. */
  lemma LogMatchingExact(r: Rules)
    ensures (forall n, run :: LogsMatch(Exec(r, n, run))) <==> r.keepVote
  {
    if r.keepVote {
      forall n, run ensures LogsMatch(Exec(r, n, run)) {
        LogMatching(r, n, run);
      }
    } else {
      var s := VoteResetMismatches(r);
      var run := ReachedByRun(r, s);
    }
  }

  /** Whoever would accept a message would end with the log it was built from. */
  ghost predicate SuccessIsEquality(s: System)
    requires Shape(s)
  {
    forall k :: 0 <= k < |s.net| && s.net[k].EntriesRequest? ==>
      var (nd, reply) := HandleAppendEntries(s.servers[s.net[k].dst].node, s.net[k].args);
      reply.success ==> nd.log == s.net[k].built
  }

  lemma SuccessExact(r: Rules)
    ensures (forall n, run :: SuccessIsEquality(Exec(r, n, run))) <==> r.keepVote
  {
    hide Next, HandleAppendEntries;
    if r.keepVote {
      forall n, run ensures SuccessIsEquality(Exec(r, n, run)) {
        var s := Exec(r, n, run);
        forall k | 0 <= k < |s.net| && s.net[k].EntriesRequest?
                   && HandleAppendEntries(s.servers[s.net[k].dst].node, s.net[k].args).1.success
          ensures HandleAppendEntries(s.servers[s.net[k].dst].node, s.net[k].args).0.log == s.net[k].built
        {
          SuccessMeansEqualLogs(r, n, run, k);
        }
      }
    } else {
      var s, k := SuccessWithoutEquality(r);
      var run := ReachedByRun(r, s);
      assert !SuccessIsEquality(Exec(r, 3, run));
    }
  }

  ghost predicate MatchesEvident(s: System)
    requires Shape(s)
  {
    forall i: nat, p: nat {:trigger s.servers[i].node.matchIndex[p]} ::
      i < |s.servers| && p < |s.servers| && p != i
      && s.servers[i].node.role == Leader && s.servers[i].node.matchIndex[p] > 0 ==>
        Evidence(s.servers[p], s.servers[i].node.currentTerm, s.servers[i].node.log, s.servers[i].node.matchIndex[p])
  }

  lemma MatchIndexExact(r: Rules)
    ensures (forall n, run :: MatchesEvident(Exec(r, n, run))) <==> r.keepVote
  {
    hide Next;
    if r.keepVote {
      forall n, run ensures MatchesEvident(Exec(r, n, run)) {
        var s := Exec(r, n, run);
        forall i: nat, p: nat | i < n && p < n && p != i
                                && s.servers[i].node.role == Leader && s.servers[i].node.matchIndex[p] > 0
          ensures Evidence(s.servers[p], s.servers[i].node.currentTerm, s.servers[i].node.log,
                           s.servers[i].node.matchIndex[p])
        {
          MatchIndexIsEvidence(r, n, run, i, p);
        }
      }
    } else {
      var s, e := CommitWithoutEvidence(r);
      var run := ReachedByRun(r, Next(r, s, e));
      assert !MatchesEvident(Exec(r, 3, run));
    }
  }

  /** A leader that raises its commit index has a majority that stored its log that far in its term. */
  ghost predicate CommitsEvident(s: System, s': System) {
    forall i: nat :: Commits(s, s', i) ==> exists q :: Witnesses(s', i, s'.servers[i].node.commitIndex, q)
  }

  lemma CommitEvidenceExact(r: Rules)
    ensures (forall n, run, e :: CommitsEvident(Exec(r, n, run), Exec(r, n, run + [e]))) <==> r.keepVote
  {
    hide Next, Exec;
    if r.keepVote {
      forall n, run, e ensures CommitsEvident(Exec(r, n, run), Exec(r, n, run + [e])) {
        forall i: nat | Commits(Exec(r, n, run), Exec(r, n, run + [e]), i)
          ensures exists q :: Witnesses(Exec(r, n, run + [e]), i, Exec(r, n, run + [e]).servers[i].node.commitIndex, q)
        {
          CommitEvidence(r, n, run, e, i);
        }
      }
    } else {
      var s, e := CommitWithoutEvidence(r);
      var run := ReachedByRun(r, s);
      ExecStep(r, 3, run + [e]);
      assert (run + [e])[..|run + [e]| - 1] == run;
      assert !CommitsEvident(Exec(r, 3, run), Exec(r, 3, run + [e]));
    }
  }

  /** A conflict reply of the leader's term moves `nextIndex` to at most the rejected index, and a positive
      hint is strictly below it. */
  ghost predicate HintsBackward(s: System)
    requires Shape(s)
  {
    forall k :: 0 <= k < |s.net| && s.net[k].EntriesReply? ==>
      var p, nd := s.net[k], s.servers[s.net[k].dst].node;
      p.reply.conflict && nd.role == Leader && nd.currentTerm == p.args.term ==>
        && 0 <= NextAfterConflict(nd, 0, p.reply) <= p.args.prevLogIndex
        && (p.reply.xTerm != -1 ==>
              FindLastLogInTerm(nd.log, p.reply.xTerm, 0, LastIndex(nd.log)) < p.args.prevLogIndex)
  }

  lemma HintsExact(r: Rules)
    ensures (forall n, run :: HintsBackward(Exec(r, n, run))) <==> r.keepVote
  {
    hide Next;
    if r.keepVote {
      forall n, run ensures HintsBackward(Exec(r, n, run)) {
        BackwardEverywhere(r, n, run);
      }
    } else {
      var s, k := Hinting(r);
      var run := ReachedByRun(r, s);
      assert !HintsBackward(Exec(r, 3, run));
    }
  }

  lemma {:induction false} BackwardEverywhere(r: Rules, n: nat, run: seq<Event>)
    requires r.keepVote
    ensures HintsBackward(Exec(r, n, run))
  {
    hide Exec, NextAfterConflict, FindLastLogInTerm;
    var s := Exec(r, n, run);
    forall k | 0 <= k < |s.net| && s.net[k].EntriesReply? && s.net[k].reply.conflict
               && s.servers[s.net[k].dst].node.role == Leader
               && s.servers[s.net[k].dst].node.currentTerm == s.net[k].args.term
      ensures var p, nd := s.net[k], s.servers[s.net[k].dst].node;
              && 0 <= NextAfterConflict(nd, 0, p.reply) <= p.args.prevLogIndex
              && (p.reply.xTerm != -1 ==>
                    FindLastLogInTerm(nd.log, p.reply.xTerm, 0, LastIndex(nd.log)) < p.args.prevLogIndex)
    {
      HintsGoBackward(r, n, run, k);
    }
  }

  /** Finitely many exchanges between leader `i` and follower `f` make their logs equal. */
  ghost predicate CatchesUp(r: Rules, s: System, i: nat, f: nat) {
    Shape(s) && Leads(s, i, f) ==> exists more :: Exchanges(r, s, i, f, more)
  }

  lemma CatchUpExact(r: Rules)
    ensures (forall n, run, i, f :: CatchesUp(r, Exec(r, n, run), i, f)) <==> r.keepVote
  {
    hide Next, Exec, Exchanges;
    if r.keepVote {
      forall n, run, i, f ensures CatchesUp(r, Exec(r, n, run), i, f) {
        if Leads(Exec(r, n, run), i, f) {
          var more := CatchUp.CatchUp(r, n, run, i, f);
        }
      }
    } else {
      var s := StuckReached(r);
      forall more ensures !Exchanges(r, s, 0, 2, more) {
        NeverCaughtUp(r, s, more);
      }
      var run := ReachedByRun(r, s);
      assert !CatchesUp(r, Exec(r, 3, run), 0, 2);
    }
  }
}
