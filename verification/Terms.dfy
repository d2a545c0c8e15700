/** The order of terms along a log, of the code as written: whatever the rules, in every run terms never
    decrease along a log and never exceed the server's term. Nothing here needs one leader per term. */
module Terms {
  import opened RaftLog
  import opened RaftNode
  import opened Cluster
  import opened Invariants
  import opened Events

  ghost predicate Bounded(log: Log, t: nat) {
    Sorted(log) && Last(log).term <= t
  }

  ghost predicate MessageBounded(p: Packet)
    requires p.EntriesRequest?
  {
    CarriesSuffix(p.args, p.built) && Bounded(p.built, p.args.term)
  }

  ghost predicate TermsOk(s: System) {
    && (forall v: nat :: v < |s.servers| ==> Bounded(s.servers[v].node.log, s.servers[v].node.currentTerm))
    && (forall k :: 0 <= k < |s.net| && s.net[k].EntriesRequest? ==> MessageBounded(s.net[k]))
  }

  /** A write keeps the log up to an entry of the message's previous term and appends a sorted suffix. */
  lemma WriteBounded(nd: Node, args: AppendEntriesArgs, built: Log)
    requires Bounded(nd.log, nd.currentTerm) && CarriesSuffix(args, built) && Bounded(built, args.term)
    ensures var nd' := HandleAppendEntries(nd, args).0; Bounded(nd'.log, nd'.currentTerm)
  {
    hide FirstOfRun, Sorted;
    var nd' := HandleAppendEntries(nd, args).0;
    if nd'.log != nd.log {
      assert nd'.log == nd.log[..args.prevLogIndex + 1] + built[args.prevLogIndex + 1..];
      JoinedSorted(nd.log, built, args.prevLogIndex);
    }
  }

  /** Two sorted logs with the same term at `prev` can be joined there. */
  lemma JoinedSorted(a: Log, b: Log, prev: nat)
    requires Sorted(a) && Sorted(b) && prev < |a| && prev < |b| && a[prev].term == b[prev].term
    ensures var log := a[..prev + 1] + b[prev + 1..];
            Sorted(log) && Last(log).term == if prev + 1 < |b| then Last(b).term else a[prev].term
    ensures a[prev].term <= Last(a).term && b[prev].term <= Last(b).term
  {
    var log := a[..prev + 1] + b[prev + 1..];
    forall i, j | 0 <= i < j < |log| ensures log[i].term <= log[j].term {
      assert i <= prev ==> log[i] == a[i] && a[i].term <= a[prev].term;
      assert j > prev ==> log[j] == b[j] && b[prev].term <= b[j].term;
    }
  }

  lemma StartBounded(nd: Node, command: Command)
    requires Bounded(nd.log, nd.currentTerm)
    ensures Bounded(Start(nd, command).log, nd.currentTerm)
  {
    forall i | 0 <= i < |nd.log| ensures nd.log[i].term <= nd.currentTerm {
      LastIsGreatest(nd.log, i);
    }
  }

  /** The log is kept and the term does not fall. */
  ghost predicate Ages(a: Node, b: Node) {
    b.log == a.log && a.currentTerm <= b.currentTerm
  }

  lemma RepliesAge(r: Rules, s: System, p: Packet)
    requires Shape(s) && PacketShape(|s.servers|, p)
    ensures p.EntriesReply? ==> Ages(s.servers[p.dst].node, OnEntriesReply(r, s, p).servers[p.dst].node)
    ensures p.SnapshotReply? ==> Ages(s.servers[p.dst].node, OnSnapshotReply(r, s, p).servers[p.dst].node)
    ensures p.VoteReply? ==> Ages(s.servers[p.dst].node, OnVoteReply(s, p).servers[p.dst].node)
    ensures p.SnapshotRequest? ==> Ages(s.servers[p.dst].node, OnSnapshot(r, s, p).servers[p.dst].node)
  {
    hide HighestCommittable, NextAfterConflict;
  }

  lemma EntriesBounded(r: Rules, s: System, k: nat, p: Packet)
    requires Shape(s) && p.EntriesRequest? && PacketShape(|s.servers|, p) && MessageBounded(p)
    requires Bounded(s.servers[p.dst].node.log, s.servers[p.dst].node.currentTerm)
    ensures var nd := OnEntries(r, s, k, p).servers[p.dst].node; Bounded(nd.log, nd.currentTerm)
  {
    hide HandleAppendEntries;
    WriteBounded(s.servers[p.dst].node, p.args, p.built);
  }

  lemma DeliveryElsewhere(r: Rules, s: System, k: nat, v: nat)
    requires Shape(s) && k < |s.net| && v < |s.servers| && (s.net[k].VoteRequest? || s.net[k].dst != v)
    ensures OnDelivery(r, s, k).servers[v] == s.servers[v]
  {
    hide HandleAppendEntries, HandleAppendReply, HandleVoteReply, HandleEmptySnapshot, HandleSnapshotReply;
  }

  lemma DeliveryBounded(r: Rules, s: System, k: nat, v: nat)
    requires Shape(s) && TermsOk(s) && k < |s.net| && v < |s.servers|
    ensures var nd := OnDelivery(r, s, k).servers[v].node; Bounded(nd.log, nd.currentTerm)
  {
    hide OnVoteReply, OnEntries, OnEntriesReply, OnSnapshot, OnSnapshotReply, MessageBounded, Bounded;
    var p := s.net[k];
    assert Bounded(s.servers[v].node.log, s.servers[v].node.currentTerm);
    if p.VoteRequest? || p.dst != v {
      DeliveryElsewhere(r, s, k, v);
    } else if p.EntriesRequest? {
      EntriesBounded(r, s, k, p);
    } else {
      RepliesAge(r, s, p);
      AgedBounded(s.servers[v].node, OnDelivery(r, s, k).servers[v].node);
    }
  }

  lemma AgedBounded(a: Node, b: Node)
    requires Bounded(a.log, a.currentTerm) && Ages(a, b)
    ensures Bounded(b.log, b.currentTerm)
  {
  }

  lemma OtherEventAges(r: Rules, s: System, e: Event, v: nat)
    requires Shape(s) && v < |s.servers| && !e.Deliver? && !e.ClientStart?
    ensures Ages(s.servers[v].node, Next(r, s, e).servers[v].node)
  {
  }

  lemma StartedNode(r: Rules, s: System, i: nat, command: Command, v: nat)
    requires Shape(s) && v < |s.servers|
    ensures var nd := Next(r, s, ClientStart(i, command)).servers[v].node;
            nd == s.servers[v].node || nd == Start(s.servers[v].node, command)
  {
  }

  lemma NextBounded(r: Rules, s: System, e: Event, v: nat)
    requires Shape(s) && TermsOk(s) && v < |s.servers|
    ensures var nd := Next(r, s, e).servers[v].node; Bounded(nd.log, nd.currentTerm)
  {
    var a := s.servers[v].node;
    if e.Deliver? {
      hide OnDelivery, MessageBounded, Bounded;
      if e.k < |s.net| {
        DeliveryBounded(r, s, e.k, v);
      }
    } else {
      hide Next, MessageBounded, Bounded;
      if e.ClientStart? {
        StartedNode(r, s, e.i, e.command, v);
        StartBounded(a, e.command);
      } else {
        OtherEventAges(r, s, e, v);
        AgedBounded(a, Next(r, s, e).servers[v].node);
      }
    }
  }

  /** A new message is built by the then leader of its term from its whole log. */
  ghost predicate SentBy(s: System, p: Packet) {
    p.EntriesRequest? && p.src < |s.servers| &&
    var nd := s.servers[p.src].node;
    && nd.role == Leader && nd.currentTerm == p.args.term && nd.log == p.built
    && nd.commitIndex == p.args.leaderCommit && CarriesSuffix(p.args, p.built)
  }

  lemma SendingSuffix(s: System, i: nat, peer: nat, heartbeat: bool)
    requires Shape(s) && i < |s.servers| && peer < |s.servers|
    ensures var s' := OnAppendTo(s, i, peer, heartbeat);
            && |s.net| <= |s'.net| <= |s.net| + 1
            && (forall k :: 0 <= k < |s.net| ==> s'.net[k] == s.net[k])
            && (|s.net| < |s'.net| ==> SentBy(s, s'.net[|s.net|]))
  {
    if MessageFor(s.servers[i].node, 0, i, peer, heartbeat).SendEntries? {
      MessageCarriesSuffix(s.servers[i].node, i, peer, heartbeat);
    }
  }

  lemma NewMessage(r: Rules, s: System, e: Event)
    requires Shape(s)
    ensures var s' := Next(r, s, e);
            && |s.net| <= |s'.net| <= |s.net| + 1
            && (forall k :: 0 <= k < |s.net| ==> s'.net[k] == s.net[k])
            && (|s.net| < |s'.net| && s'.net[|s.net|].EntriesRequest? ==> SentBy(s, s'.net[|s.net|]))
  {
    if e.AppendTo? && e.i < |s.servers| && e.peer < |s.servers| {
      hide OnAppendTo, SentBy;
      SendingSuffix(s, e.i, e.peer, e.heartbeat);
    }
  }

  // ----- Terms only grow ---------------------------------------------------------------------------

  lemma EntriesAge(nd: Node, args: AppendEntriesArgs)
    ensures nd.currentTerm <= HandleAppendEntries(nd, args).0.currentTerm
  {
  }

  lemma DeliveryTerm(r: Rules, s: System, k: nat, v: nat)
    requires Shape(s) && k < |s.net| && v < |s.servers|
    ensures s.servers[v].node.currentTerm <= OnDelivery(r, s, k).servers[v].node.currentTerm
  {
    hide OnVoteReply, OnEntriesReply, OnSnapshot, OnSnapshotReply, HandleAppendEntries;
    var p := s.net[k];
    if p.VoteRequest? || p.dst != v {
      DeliveryElsewhere(r, s, k, v);
    } else if p.EntriesRequest? {
      EntriesAge(s.servers[v].node, p.args);
    } else {
      RepliesAge(r, s, p);
    }
  }

  lemma NextTermGrows(r: Rules, s: System, e: Event, v: nat)
    requires Shape(s) && v < |s.servers|
    ensures s.servers[v].node.currentTerm <= Next(r, s, e).servers[v].node.currentTerm
  {
    if e.Deliver? {
      hide OnDelivery;
      if e.k < |s.net| {
        DeliveryTerm(r, s, e.k, v);
      }
    } else {
      hide Next;
      if e.ClientStart? {
        StartedNode(r, s, e.i, e.command, v);
      } else {
        OtherEventAges(r, s, e, v);
      }
    }
  }

  /** No ballot and no vote reply is of a later term than its candidate's. */
  ghost predicate BallotTermOk(s: System, p: Packet) {
    && (p.VoteRequest? && p.src < |s.servers| ==> p.ballot.term <= s.servers[p.src].node.currentTerm)
    && (p.VoteReply? && p.dst < |s.servers| ==> p.ballot.term <= s.servers[p.dst].node.currentTerm)
  }

  ghost predicate BallotTermsOk(s: System) {
    forall k :: 0 <= k < |s.net| ==> BallotTermOk(s, s.net[k])
  }

  lemma NewBallot(r: Rules, s: System, e: Event)
    requires Shape(s) && BallotTermsOk(s)
    ensures var s' := Next(r, s, e);
            && |s.net| <= |s'.net| && (forall k :: 0 <= k < |s.net| ==> s'.net[k] == s.net[k])
            && |s'.net| <= |s.net| + 1
            && (|s.net| < |s'.net| ==> BallotTermOk(s', s'.net[|s.net|]))
  {
    hide MessageFor;
    if e.Deliver? {
      hide OnDelivery;
      if e.k < |s.net| {
        NoNewBallot(r, s, e.k);
      }
    }
  }

  lemma NoNewBallot(r: Rules, s: System, k: nat)
    requires Shape(s) && k < |s.net|
    ensures var s' := OnDelivery(r, s, k);
            && |s.net| <= |s'.net| <= |s.net| + 1 && (forall j :: 0 <= j < |s.net| ==> s'.net[j] == s.net[j])
            && (|s.net| < |s'.net| ==> !s'.net[|s.net|].VoteRequest? && !s'.net[|s.net|].VoteReply?)
  {
    hide HandleAppendEntries, HandleAppendReply, HandleVoteReply, HandleEmptySnapshot, HandleSnapshotReply;
  }

  lemma OldBallot(r: Rules, s: System, e: Event, p: Packet)
    requires Shape(s) && BallotTermOk(s, p)
    ensures BallotTermOk(Next(r, s, e), p)
  {
    hide Next;
    if p.VoteRequest? && p.src < |s.servers| {
      NextTermGrows(r, s, e, p.src);
    } else if p.VoteReply? && p.dst < |s.servers| {
      NextTermGrows(r, s, e, p.dst);
    }
  }

  lemma NextBallotTerms(r: Rules, s: System, e: Event)
    requires Shape(s) && BallotTermsOk(s)
    ensures BallotTermsOk(Next(r, s, e))
  {
    hide Next, BallotTermOk;
    var s' := Next(r, s, e);
    NewBallot(r, s, e);
    forall k | 0 <= k < |s'.net| ensures BallotTermOk(s', s'.net[k]) {
      if k < |s.net| {
        OldBallot(r, s, e, s.net[k]);
      }
    }
  }

  lemma {:induction false} AlwaysBallotTerms(r: Rules, n: nat, run: seq<Event>)
    ensures BallotTermsOk(Exec(r, n, run))
  {
    if run != [] {
      hide Next, BallotTermsOk;
      AlwaysBallotTerms(r, n, run[..|run| - 1]);
      ExecStep(r, n, run);
      NextBallotTerms(r, Exec(r, n, run[..|run| - 1]), run[|run| - 1]);
    }
  }

  lemma RepliesTerm(r: Rules, s: System, p: Packet)
    requires Shape(s) && PacketShape(|s.servers|, p) && BallotTermOk(s, p)
    ensures p.EntriesReply? ==> p.reply.term <= OnEntriesReply(r, s, p).servers[p.dst].node.currentTerm
    ensures p.VoteReply? ==> p.vote.term <= OnVoteReply(s, p).servers[p.dst].node.currentTerm
  {
    hide HighestCommittable, NextAfterConflict;
  }

  /** In every run and under any rules, whoever processes a reply to an entries message or to a ballot, even
      one of an old election, is then of the reply's term or a later one. */
  lemma {:induction false} ReplyRaisesTerm(r: Rules, n: nat, run: seq<Event>, k: nat)
    requires k < |Exec(r, n, run).net|
    ensures var p, s' := Exec(r, n, run).net[k], Exec(r, n, run + [Deliver(k)]);
            && (p.EntriesReply? ==> p.reply.term <= s'.servers[p.dst].node.currentTerm)
            && (p.VoteReply? ==> p.vote.term <= s'.servers[p.dst].node.currentTerm)
  {
    hide OnEntriesReply, OnVoteReply, OnEntries, OnSnapshot, OnSnapshotReply;
    var s, whole := Exec(r, n, run), run + [Deliver(k)];
    AlwaysBallotTerms(r, n, run);
    assert whole[..|whole| - 1] == run;
    ExecStep(r, n, whole);
    RepliesTerm(r, s, s.net[k]);
  }

  // ----- Every run ---------------------------------------------------------------------------------

  lemma NextTerms(r: Rules, s: System, e: Event)
    requires Shape(s) && TermsOk(s)
    ensures TermsOk(Next(r, s, e))
  {
    hide Next, Bounded;
    var s' := Next(r, s, e);
    NewMessage(r, s, e);
    forall v: nat | v < |s'.servers| ensures Bounded(s'.servers[v].node.log, s'.servers[v].node.currentTerm) {
      NextBounded(r, s, e, v);
    }
    forall k | 0 <= k < |s'.net| && s'.net[k].EntriesRequest? ensures MessageBounded(s'.net[k]) {
      if k < |s.net| {
        assert MessageBounded(s.net[k]);
      } else {
        assert Bounded(s.servers[s'.net[k].src].node.log, s.servers[s'.net[k].src].node.currentTerm);
      }
    }
  }

  lemma {:induction false} AlwaysTerms(r: Rules, n: nat, run: seq<Event>)
    ensures TermsOk(Exec(r, n, run))
  {
    if run != [] {
      hide Next, TermsOk;
      AlwaysTerms(r, n, run[..|run| - 1]);
      ExecStep(r, n, run);
      NextTerms(r, Exec(r, n, run[..|run| - 1]), run[|run| - 1]);
    }
  }
}
