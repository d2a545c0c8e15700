/** What has been committed stays committed at every later moment of a run, in the logs of later leaders and
    in the logs of the servers that knew of it, even when a restart has made all of them forget. */
module CommittedForever {
  import opened RaftLog
  import opened RaftNode
  import opened Cluster
  import opened Invariants
  import opened Preservation
  import opened Events
  import opened Terms
  import opened Completeness
  import opened SafeRuns
  import opened StateMachineSafety

  // ----- Later leaders -----------------------------------------------------------------------------

  lemma StillCommitted(r: Rules, s: System, e: Event, term: nat, now: bool, log: seq<Entry>, k: nat)
    requires Inv(s) && r.keepVote && Committed(s, term, now, log, k) && WellFormed(s.reigns, log)
    ensures var s' := Next(r, s, e); Committed(s', term, now, log, k) && WellFormed(s'.reigns, log)
  {
    hide Next, ServerOk, ReignOk, PacketOk, Committed, WellFormed;
    var s' := Next(r, s, e);
    NextKeeps(r, s, e);
    if s' != s {
      assert log[..|log|] == log;
      CommittedStays(s, s', Actor(s, e), term, now, log, k, term, now, log);
      WellFormedGrows(s.reigns, s'.reigns, log);
    }
  }

  /** A committed log stays committed for the rest of the run, in terms of the moment it was seen. */
  lemma {:induction false} CommittedLater(r: Rules, n: nat, run: seq<Event>, more: seq<Event>,
                                          term: nat, now: bool, log: seq<Entry>, k: nat)
    requires AllRules(r)
    requires Committed(Exec(r, n, run), term, now, log, k) && WellFormed(Exec(r, n, run).reigns, log)
    ensures Committed(Exec(r, n, run + more), term, now, log, k) && WellFormed(Exec(r, n, run + more).reigns, log)
    decreases |more|
  {
    hide Next, Committed, WellFormed, Inv, Safe;
    if more == [] {
      assert run + more == run;
    } else {
      var fewer, whole := more[..|more| - 1], run + more;
      CommittedLater(r, n, run, fewer, term, now, log, k);
      Always(r, n, run + fewer);
      ExecStep(r, n, whole);
      assert whole[..|whole| - 1] == run + fewer;
      StillCommitted(r, Exec(r, n, run + fewer), whole[|whole| - 1], term, now, log, k);
    }
  }

  /** Leader completeness: what a server once knew to be committed is in the log of every leader of that
      server's term then or of a later one, at that moment and at any later one. */
  lemma {:induction false} LeaderCompleteness(r: Rules, n: nat, run: seq<Event>, more: seq<Event>, v: nat, i: nat)
    requires AllRules(r) && v < n && i < n
    requires var a, b := Exec(r, n, run).servers[v].node, Exec(r, n, run + more).servers[i].node;
             b.role == Leader && a.currentTerm <= b.currentTerm
    ensures var a, b := Exec(r, n, run).servers[v].node, Exec(r, n, run + more).servers[i].node;
            Agree(a.log, b.log, a.commitIndex + 1)
  {
    hide Exec, Committed, WellFormed, AllComplete;
    var x := Exec(r, n, run).servers[v];
    var now := x.node.currentTerm in x.stored;
    KnownThen(r, n, run, v);
    CommittedLater(r, n, run, more, x.node.currentTerm, now, x.node.log, x.node.commitIndex);
    LeaderFacts(r, n, run + more, i);
    CommittedInLeader(Exec(r, n, run + more), x.node.currentTerm, now, x.node.log, x.node.commitIndex,
                      Exec(r, n, run + more).servers[i].node.currentTerm);
  }

  lemma {:induction false} KnownThen(r: Rules, n: nat, run: seq<Event>, v: nat)
    requires AllRules(r) && v < n
    ensures var s := Exec(r, n, run);
            var x := s.servers[v];
            && Committed(s, x.node.currentTerm, x.node.currentTerm in x.stored, x.node.log, x.node.commitIndex)
            && CommittedAt(s, v, x.node.commitIndex)
            && WellFormed(s.reigns, x.node.log)
  {
    hide Exec, Committed, Safe, ReignOk, PacketOk, WellFormed;
    var s := Exec(r, n, run);
    AlwaysCommitted(r, n, run);
    assert NodeCommitted(s, v) && ServerOk(s, v);
  }

  lemma {:induction false} LeaderFacts(r: Rules, n: nat, run: seq<Event>, i: nat)
    requires AllRules(r) && i < n && Exec(r, n, run).servers[i].node.role == Leader
    ensures var s := Exec(r, n, run);
            var u := s.servers[i].node.currentTerm;
            && AllComplete(s) && u in s.reigns && s.reigns[u].log == s.servers[i].node.log
            && WellFormed(s.reigns, s.reigns[u].log)
  {
    hide Exec, AllComplete, ReignOk, PacketOk, WellFormed;
    AlwaysSafe(r, n, run);
    assert ServerOk(Exec(r, n, run), i);
  }

  lemma CommittedInLeader(s: System, term: nat, now: bool, log: seq<Entry>, k: nat, u: nat)
    requires AllComplete(s) && Committed(s, term, now, log, k) && u in s.reigns && term <= u
    requires WellFormed(s.reigns, log) && WellFormed(s.reigns, s.reigns[u].log)
    ensures Agree(log, s.reigns[u].log, k + 1)
  {
    hide Holders, Possible, Majority, Sorted, Indexed, Owned;
    if k == 0 {
      assert log[..1] == [log[0]] && s.reigns[u].log[..1] == [s.reigns[u].log[0]];
    } else {
      var t: nat, m: nat :| t <= term && (t == term ==> now) && Certifies(s, t, m, log, k);
      if t < u {
        ChosenIsChoosable(s, t, m);
        assert Complete(s, t, u);
        AgreeTrans(log, s.reigns[t].log, s.reigns[u].log, k + 1, m + 1);
      }
    }
  }

  // ----- The server's own log ------------------------------------------------------------------------

  /** What a server once knew to be committed stays in its own log at every later moment. */
  lemma {:induction false} CommittedNeverTruncated(r: Rules, n: nat, run: seq<Event>, more: seq<Event>, v: nat)
    requires AllRules(r) && v < n
    ensures var a, b := Exec(r, n, run).servers[v].node, Exec(r, n, run + more).servers[v].node;
            Agree(a.log, b.log, a.commitIndex + 1)
  {
    hide Exec, Committed, CommittedAt;
    KnownThen(r, n, run, v);
    KeptLater(r, n, run, more, v, Exec(r, n, run).servers[v].node.commitIndex);
  }

  lemma {:induction false} KeptLater(r: Rules, n: nat, run: seq<Event>, more: seq<Event>, v: nat, m: nat)
    requires AllRules(r) && v < n && CommittedAt(Exec(r, n, run), v, m)
    ensures CommittedAt(Exec(r, n, run + more), v, m)
    ensures Agree(Exec(r, n, run).servers[v].node.log, Exec(r, n, run + more).servers[v].node.log, m + 1)
    decreases |more|
  {
    hide Next, CommittedAt, Inv, Safe;
    if more == [] {
      assert run + more == run;
      CommittedBelowLength(Exec(r, n, run), v, m);
    } else {
      var fewer, whole := more[..|more| - 1], run + more;
      var s := Exec(r, n, run + fewer);
      KeptLater(r, n, run, fewer, v, m);
      AlwaysSafe(r, n, run + fewer);
      ExecStep(r, n, whole);
      assert whole[..|whole| - 1] == run + fewer;
      StepKeepsCommitted(r, s, whole[|whole| - 1], v, m);
      AgreeTrans(Exec(r, n, run).servers[v].node.log, s.servers[v].node.log,
                 Exec(r, n, whole).servers[v].node.log, m + 1, m + 1);
    }
  }

  lemma CommittedBelowLength(s: System, v: nat, m: nat)
    requires v < |s.servers| && CommittedAt(s, v, m)
    ensures Agree(s.servers[v].node.log, s.servers[v].node.log, m + 1)
  {
    if m > 0 {
      var x := s.servers[v];
      var t: nat, k: nat :| Certifies(s, t, k, x.node.log, m);
    }
  }

  /** One event keeps what is committed up to `m`, whether or not the server still knows. */
  lemma StepKeepsCommitted(r: Rules, s: System, e: Event, v: nat, m: nat)
    requires Inv(s) && Safe(s) && AllRules(r) && v < |s.servers| && CommittedAt(s, v, m)
    ensures var s' := Next(r, s, e);
            CommittedAt(s', v, m) && Agree(s.servers[v].node.log, s'.servers[v].node.log, m + 1)
  {
    hide Next, ServerOk, ReignOk, PacketOk, Safe, CommittedAt, Agree, LogStep;
    var s' := Next(r, s, e);
    NextKeeps(r, s, e);
    LogStepHolds(r, s, e, v);
    if s' == s {
      CommittedBelowLength(s, v, m);
    } else if Agree(s.servers[v].node.log, s'.servers[v].node.log, |s.servers[v].node.log|) {
      GrownKeepsCommitted(s, s', Actor(s, e), v, m);
    } else {
      WrittenKeepsCommitted(s, s', e, v, m);
    }
  }

  lemma GrownKeepsCommitted(s: System, s': System, i: nat, v: nat, m: nat)
    requires i < |s.servers| && Acts(s, s', i) && v < |s.servers| && CommittedAt(s, v, m)
    requires Agree(s.servers[v].node.log, s'.servers[v].node.log, |s.servers[v].node.log|)
    ensures CommittedAt(s', v, m)
    ensures Agree(s.servers[v].node.log, s'.servers[v].node.log, m + 1)
  {
    hide Committed;
    var x, x' := s.servers[v], s'.servers[v];
    CommittedStays(s, s', i, x.node.currentTerm, x.node.currentTerm in x.stored, x.node.log, m,
                   x'.node.currentTerm, x'.node.currentTerm in x'.stored, x'.node.log);
    CommittedBelowLength(s, v, m);
    AgreeFewer(x.node.log, x'.node.log, |x.node.log|, m + 1);
  }

  lemma WrittenKeepsCommitted(s: System, s': System, e: Event, v: nat, m: nat)
    requires Inv(s) && Safe(s) && v < |s.servers| && CommittedAt(s, v, m)
    requires Actor(s, e) < |s.servers| && Acts(s, s', Actor(s, e))
    requires LogStep(s, e, v, s'.servers[v].node.log)
    requires !Agree(s.servers[v].node.log, s'.servers[v].node.log, |s.servers[v].node.log|)
    ensures CommittedAt(s', v, m)
    ensures Agree(s.servers[v].node.log, s'.servers[v].node.log, m + 1)
  {
    hide Committed, Safe, ReignOk, ServerOk, PacketOk, InSendOrder, Follows;
    var x, x', p := s.servers[v], s'.servers[v], s.net[e.k];
    FollowerKeepsCommits(s, e.k, m);
    WriteFacts(s, e.k);
    SameStart(x.node.log, p.built);
    WrittenTerm(s, s', Actor(s, e), v);
    assert p.built[..|p.built|] == p.built;
    CommittedStays(s, s', Actor(s, e), p.args.term, true, p.built, m, x'.node.currentTerm, true, p.built);
  }

  /** A server rewrites its log only in its current term, of which it then has stored it. */
  lemma WrittenTerm(s: System, s': System, i: nat, v: nat)
    requires i < |s.servers| && Acts(s, s', i) && v < |s.servers|
    requires !Agree(s.servers[v].node.log, s'.servers[v].node.log, |s.servers[v].node.log|)
    ensures var x, x' := s.servers[v], s'.servers[v];
            x'.node.currentTerm == x.node.currentTerm && x'.node.currentTerm in x'.stored
  {
    var log := s.servers[v].node.log;
    assert log[..|log|] == log;
  }

  // ----- One event and one log -----------------------------------------------------------------------

  /** Server `v` processes a message of a leader. */
  predicate Writes(s: System, e: Event, v: nat) {
    e.Deliver? && e.k < |s.net| && s.net[e.k].EntriesRequest? && s.net[e.k].dst == v
  }

  /** The log is kept or extended, or becomes the log of the leader whose message is processed. */
  ghost predicate LogStep(s: System, e: Event, v: nat, log': Log)
    requires v < |s.servers|
  {
    var a := s.servers[v].node;
    || Agree(a.log, log', |a.log|)
    || (&& Writes(s, e, v) && log' == s.net[e.k].built
        && s.net[e.k].args.term == a.currentTerm && InSendOrder(s.servers[v], s.net[e.k], e.k))
  }

  lemma LogStepHolds(r: Rules, s: System, e: Event, v: nat)
    requires Inv(s) && r.inOrder && v < |s.servers|
    ensures LogStep(s, e, v, Next(r, s, e).servers[v].node.log)
  {
    hide ReignOk, ServerOk, PacketOk;
    if Writes(s, e, v) {
      WriteFacts(s, e.k);
      WriteEffect(r, s, e.k, s.net[e.k]);
      assert s.servers[v].node.log[..|s.servers[v].node.log|] == s.servers[v].node.log;
    } else {
      LogOnlyGrows(r, s, e, v);
    }
  }

  lemma SameStart(a: Log, b: Log)
    requires a[0] == b[0]
    ensures Agree(a, b, 1)
  {
    assert a[..1] == [a[0]] && b[..1] == [b[0]];
  }

  lemma WriteFacts(s: System, k: nat)
    requires Inv(s) && k < |s.net| && s.net[k].EntriesRequest?
    ensures var p := s.net[k];
            && CarriesSuffix(p.args, p.built)
            && Coherent(s.reigns, p.built) && Coherent(s.reigns, s.servers[p.dst].node.log)
  {
    assert PacketOk(s, s.net[k]);
    BuiltWellFormed(s, s.net[k]);
  }

  /** Nothing but a message of a leader shortens or rewrites a log. */
  lemma LogOnlyGrows(r: Rules, s: System, e: Event, v: nat)
    requires Shape(s) && v < |s.servers| && !Writes(s, e, v)
    ensures var a, b := s.servers[v].node, Next(r, s, e).servers[v].node; Agree(a.log, b.log, |a.log|)
  {
    hide OnDelivery;
    var a := s.servers[v].node;
    assert a.log[..|a.log|] == a.log;
    if e.ClientStart? {
      hide Next;
      StartedNode(r, s, e.i, e.command, v);
      assert (a.log + [Entry(e.command, a.currentTerm, |a.log|)])[..|a.log|] == a.log;
    } else if e.Deliver? {
      if e.k < |s.net| {
        DeliveryKeepsLog(r, s, e.k, v);
      }
    } else {
      hide Next;
      OtherEventAges(r, s, e, v);
    }
  }

  lemma DeliveryKeepsLog(r: Rules, s: System, k: nat, v: nat)
    requires Shape(s) && v < |s.servers| && k < |s.net|
    requires !(s.net[k].EntriesRequest? && s.net[k].dst == v)
    ensures OnDelivery(r, s, k).servers[v].node.log == s.servers[v].node.log
  {
    hide OnVoteReply, OnEntries, OnEntriesReply, OnSnapshot, OnSnapshotReply;
    if s.net[k].VoteRequest? || s.net[k].dst != v {
      DeliveryElsewhere(r, s, k, v);
    } else {
      RepliesAge(r, s, s.net[k]);
    }
  }

  /** The write of a processed message: the log is kept or becomes the sender's. */
  lemma WriteEffect(r: Rules, s: System, k: nat, p: Packet)
    requires Shape(s) && r.inOrder && p.EntriesRequest? && PacketShape(|s.servers|, p)
    requires CarriesSuffix(p.args, p.built)
    requires Coherent(s.reigns, p.built) && Coherent(s.reigns, s.servers[p.dst].node.log)
    ensures var a, b := s.servers[p.dst].node, OnEntries(r, s, k, p).servers[p.dst].node;
            b.log == a.log
            || (b.log == p.built && p.args.term == a.currentTerm && InSendOrder(s.servers[p.dst], p, k))
  {
    var a := s.servers[p.dst].node;
    if a.currentTerm == p.args.term && HandleAppendEntries(a, p.args).1.success {
      AcceptedLog(s.reigns, a.log, p.args, p.built);
    }
  }
}
