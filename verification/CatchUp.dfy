/** Catch-up: from any reachable state, a leader that exchanges messages with one follower at a time ends
    with the follower holding its whole log. Each exchange either succeeds or makes the pair (is the
    follower's term behind?, rank of `nextIndex`) smaller. */
module CatchUp {
  import opened RaftLog
  import opened RaftNode
  import opened Cluster
  import opened Invariants
  import opened Events
  import opened Claims
  import opened Operations

  /** `nextIndex` 1 always succeeds; 0 first takes a snapshot exchange that sets it to 1. */
  function Rank(next: int): nat {
    if next < 1 then 1 else if next == 1 then 0 else next
  }

  function Lag(leader: Node, follower: Node): nat {
    if follower.currentTerm < leader.currentTerm then 1 else 0
  }

  ghost predicate Closer(l: Node, f: Node, l': Node, f': Node, peer: nat)
    requires peer < |l.nextIndex| && peer < |l'.nextIndex|
  {
    || Lag(l', f') < Lag(l, f)
    || (Lag(l', f') == Lag(l, f) && Rank(l'.nextIndex[peer]) < Rank(l.nextIndex[peer]))
  }

  /** The leader still leads its term with its log, and the follower is not ahead. */
  ghost predicate StillAhead(l: Node, l': Node, f': Node) {
    l'.role == Leader && l'.currentTerm == l.currentTerm && l'.log == l.log && f'.currentTerm <= l'.currentTerm
  }

  // ----- One exchange between two nodes ------------------------------------------------------------

  lemma ReplyEffect(l: Node, me: nat, guard: bool, peer: nat, args: AppendEntriesArgs, reply: AppendEntriesReply)
    requires peer < |l.nextIndex| && peer < |l.matchIndex| && l.role == Leader
    requires args.term == l.currentTerm && reply.term <= l.currentTerm
    ensures var l' := HandleAppendReply(l, 0, me, guard, peer, args, reply);
            && l'.role == Leader && l'.currentTerm == l.currentTerm && l'.log == l.log
            && |l'.nextIndex| == |l.nextIndex|
            && l'.nextIndex[peer] ==
                 if reply.success then Max(l.nextIndex[peer], args.prevLogIndex + |args.entries| + 1)
                 else if reply.conflict then NextAfterConflict(l, 0, reply)
                 else if l.nextIndex[peer] > 1 then l.nextIndex[peer] - 1
                 else l.nextIndex[peer]
  {
  }

  /** A conflict in the leader's term moves `nextIndex` to at most the rejected index. */
  lemma ConflictProgress(reigns: map<nat, Reign>, l: Node, f: Node, args: AppendEntriesArgs)
    requires WellFormed(reigns, l.log) && WellFormed(reigns, f.log) && 0 !in reigns
    requires CarriesSuffix(args, l.log) && args.term == f.currentTerm
    requires HandleAppendEntries(f, args).1.conflict
    ensures var reply := HandleAppendEntries(f, args).1;
            1 <= args.prevLogIndex && 0 <= NextAfterConflict(l, 0, reply) <= args.prevLogIndex
  {
    var prev := args.prevLogIndex;
    if prev <= LastIndex(f.log) {
      assert prev >= 1;
      assert Owned(reigns, f.log, prev);
      var x := f.log[prev].term;
      FirstOfRunBounds(f.log, x, prev);
      var j := FindLastLogInTerm(l.log, x, 0, LastIndex(l.log));
      FindLastSound(l.log, x, 0, LastIndex(l.log));
      if j > 0 {
        HintBelow(reigns, l.log, f.log, prev, j);
      }
    }
  }

  /** One entries message and its reply. */
  lemma EntriesProgress(reigns: map<nat, Reign>, l: Node, f: Node, me: nat, peer: nat, guard: bool)
    requires peer < |l.nextIndex| && peer < |l.matchIndex| && l.role == Leader
    requires f.currentTerm <= l.currentTerm && l.nextIndex[peer] >= 1
    requires WellFormed(reigns, l.log) && WellFormed(reigns, f.log) && 0 !in reigns
    ensures var args := MessageFor(l, 0, me, peer, true).args;
            var (f', reply) := HandleAppendEntries(f, args);
            var l' := HandleAppendReply(l, 0, me, guard, peer, args, reply);
            && |l'.nextIndex| == |l.nextIndex|
            && StillAhead(l, l', f') && (f'.log == l'.log || Closer(l, f, l', f', peer))
  {
    var args := MessageFor(l, 0, me, peer, true).args;
    var (f', reply) := HandleAppendEntries(f, args);
    MessageCarriesSuffix(l, me, peer, true);
    ReplyEffect(l, me, guard, peer, args, reply);
    if f.currentTerm == l.currentTerm {
      if reply.success {
        AcceptedLog(reigns, f.log, args, l.log);
      } else {
        ConflictProgress(reigns, l, f, args);
      }
    }
  }

  // ----- One exchange on the network ---------------------------------------------------------------

  ghost predicate SendsTo(s: System, i: nat, f: nat) {
    i < |s.servers| && f < |s.servers| && i != f && s.servers[i].node.role == Leader
  }

  ghost predicate Leads(s: System, i: nat, f: nat) {
    SendsTo(s, i, f) && s.servers[f].node.currentTerm <= s.servers[i].node.currentTerm
  }

  /** Marks name packets that have been sent. */
  ghost predicate MarksSent(s: System) {
    forall v, key {:trigger s.servers[v].marks[key]} ::
      0 <= v < |s.servers| && key in s.servers[v].marks ==> s.servers[v].marks[key] < |s.net|
  }

  ghost predicate MarkedBy(s: System, s': System, v: nat, k: int)
    requires v < |s.servers| && v < |s'.servers|
  {
    && |s.net| <= |s'.net|
    && forall key :: key in s'.servers[v].marks ==>
         (key in s.servers[v].marks && s'.servers[v].marks[key] == s.servers[v].marks[key])
         || (s'.servers[v].marks[key] == k && k < |s.net|)
  }

  lemma DeliveryMarks(r: Rules, s: System, k: nat, v: nat)
    requires Shape(s) && v < |s.servers| && k < |s.net|
    ensures MarkedBy(s, OnDelivery(r, s, k), v, k)
  {
  }

  /** Only processing a packet sets a mark, to that packet's number. */
  lemma NextMarks(r: Rules, s: System, e: Event, v: nat)
    requires Shape(s) && v < |s.servers|
    ensures MarkedBy(s, Next(r, s, e), v, if e.Deliver? then e.k else -1)
  {
    if e.Deliver? {
      hide OnDelivery;
      if e.k < |s.net| {
        DeliveryMarks(r, s, e.k, v);
      }
    }
  }

  lemma {:induction false} AlwaysMarksSent(r: Rules, n: nat, run: seq<Event>)
    ensures MarksSent(Exec(r, n, run))
  {
    if run != [] {
      var s := Exec(r, n, run[..|run| - 1]);
      AlwaysMarksSent(r, n, run[..|run| - 1]);
      ExecStep(r, n, run);
      forall v, key | 0 <= v < |s.servers| && key in Exec(r, n, run).servers[v].marks
        ensures Exec(r, n, run).servers[v].marks[key] < |Exec(r, n, run).net|
      {
        NextMarks(r, s, run[|run| - 1], v);
      }
    }
  }

  /** The state after more events. */
  function After(r: Rules, s: System, events: seq<Event>): (s': System)
    requires Shape(s)
    ensures Shape(s') && |s'.servers| == |s.servers|
    decreases |events|
  {
    if events == [] then s else After(r, Next(r, s, events[0]), events[1..])
  }

  lemma {:induction false} ExecAfter(r: Rules, n: nat, run: seq<Event>, events: seq<Event>)
    ensures Exec(r, n, run + events) == After(r, Exec(r, n, run), events)
    decreases |events|
  {
    hide Next;
    if events == [] {
      assert run + events == run;
    } else {
      var run1 := run + [events[0]];
      ExecStep(r, n, run1);
      assert run1[..|run1| - 1] == run;
      assert run + events == run1 + events[1..];
      ExecAfter(r, n, run1, events[1..]);
    }
  }

  /** A heartbeat, its processing by the follower, and the processing of the reply. */
  function EntriesExchange(s: System, i: nat, f: nat): seq<Event> {
    [AppendTo(i, f, true), Deliver(|s.net|), Deliver(|s.net| + 1)]
  }

  /** The snapshot exchange that `nextIndex` 0 triggers. */
  function SnapshotExchange(s: System, i: nat, f: nat): seq<Event> {
    [AppendTo(i, f, true), BuildSnapshot(i, f), Deliver(|s.net|), Deliver(|s.net| + 1)]
  }

  lemma AfterSplit(r: Rules, s: System, events: seq<Event>, e: Event)
    requires Shape(s)
    ensures After(r, s, [e] + events) == After(r, Next(r, s, e), events)
    ensures After(r, s, []) == s
  {
    assert ([e] + events)[1..] == events;
  }

  lemma AfterThree(r: Rules, s: System, a: Event, b: Event, c: Event)
    requires Shape(s)
    ensures After(r, s, [a, b, c]) == Next(r, Next(r, Next(r, s, a), b), c)
  {
    var s1 := Next(r, s, a);
    AfterSplit(r, s, [b, c], a);
    AfterSplit(r, s1, [c], b);
    AfterSplit(r, Next(r, s1, b), [], c);
    assert [a] + [b, c] == [a, b, c] && [b] + [c] == [b, c] && [c] + [] == [c];
  }

  lemma AfterFour(r: Rules, s: System, a: Event, b: Event, c: Event, d: Event)
    requires Shape(s)
    ensures After(r, s, [a, b, c, d]) == Next(r, Next(r, Next(r, Next(r, s, a), b), c), d)
  {
    AfterSplit(r, s, [b, c, d], a);
    AfterThree(r, Next(r, s, a), b, c, d);
    assert [a] + [b, c, d] == [a, b, c, d];
  }

  /** No server but `i` and `j` changes. */
  ghost predicate Between(s: System, s': System, i: nat, j: nat) {
    && |s'.servers| == |s.servers|
    && forall v :: 0 <= v < |s.servers| && v != i && v != j ==> s'.servers[v] == s.servers[v]
  }

  lemma SendEffect(r: Rules, s: System, i: nat, f: nat)
    requires Shape(s) && SendsTo(s, i, f) && s.servers[i].node.nextIndex[f] >= 1
    ensures var args := MessageFor(s.servers[i].node, 0, i, f, true).args;
            Next(r, s, AppendTo(i, f, true)) ==
              Put(s, i, s.servers[i], [EntriesRequest(i, f, args, s.servers[i].node.log)])
  {
  }

  /** The follower's record of stored logs after processing a message. */
  function StoredAfter(x: Server, nd: Node, reply: AppendEntriesReply): map<nat, Log> {
    if reply.success then Longer(x.stored, nd.currentTerm, nd.log) else x.stored
  }

  /** The last packet sent is a message for `f`: it is processed, whatever the rules on order. */
  lemma ReceiveEffect(r: Rules, s: System, i: nat, f: nat, args: AppendEntriesArgs, built: Log)
    requires Shape(s) && i < |s.servers| && f < |s.servers| && i != f && |s.net| > 0
    requires s.net[|s.net| - 1] == EntriesRequest(i, f, args, built)
    requires forall key :: key in s.servers[f].marks ==> s.servers[f].marks[key] < |s.net|
    ensures var s' := Next(r, s, Deliver(|s.net| - 1));
            var (nd, reply) := HandleAppendEntries(s.servers[f].node, args);
            && |s'.net| == |s.net| + 1 && s'.net[|s.net|] == EntriesReply(f, i, args, reply)
            && s'.servers[f].node == nd && s'.servers[i] == s.servers[i]
            && s'.servers[f].stored == StoredAfter(s.servers[f], nd, reply)
            && Elsewhere(s, s', f)
  {
  }

  lemma AckEffect(r: Rules, s: System, i: nat, f: nat, args: AppendEntriesArgs, reply: AppendEntriesReply)
    requires Shape(s) && i < |s.servers| && f < |s.servers| && i != f && |s.net| > 0
    requires s.net[|s.net| - 1] == EntriesReply(f, i, args, reply)
    ensures var s' := Next(r, s, Deliver(|s.net| - 1));
            && s'.servers[i].node == HandleAppendReply(s.servers[i].node, 0, i, r.commitGuard, f, args, reply)
            && s'.servers[i].stored == s.servers[i].stored
            && Elsewhere(s, s', i)
  {
  }

  lemma EntriesExchangeEffect(r: Rules, s: System, i: nat, f: nat)
    requires Shape(s) && SendsTo(s, i, f) && MarksSent(s) && s.servers[i].node.nextIndex[f] >= 1
    ensures var l := s.servers[i].node;
            var args := MessageFor(l, 0, i, f, true).args;
            var (nd, reply) := HandleAppendEntries(s.servers[f].node, args);
            var s' := After(r, s, EntriesExchange(s, i, f));
            && s'.servers[f].node == nd
            && s'.servers[i].node == HandleAppendReply(l, 0, i, r.commitGuard, f, args, reply)
            && s'.servers[f].stored == StoredAfter(s.servers[f], nd, reply)
            && s'.servers[i].stored == s.servers[i].stored
            && Between(s, s', i, f)
  {
    hide Next, HandleAppendEntries, HandleAppendReply;
    var args := MessageFor(s.servers[i].node, 0, i, f, true).args;
    AfterThree(r, s, AppendTo(i, f, true), Deliver(|s.net|), Deliver(|s.net| + 1));
    SendEffect(r, s, i, f);
    var s1 := Next(r, s, AppendTo(i, f, true));
    ReceiveEffect(r, s1, i, f, args, s.servers[i].node.log);
    var s2 := Next(r, s1, Deliver(|s.net|));
    AckEffect(r, s2, i, f, args, HandleAppendEntries(s.servers[f].node, args).1);
  }

  lemma LaunchEffect(r: Rules, s: System, i: nat, f: nat)
    requires Shape(s) && Leads(s, i, f) && s.servers[i].node.nextIndex[f] < 1
    ensures var s' := Next(r, Next(r, s, AppendTo(i, f, true)), BuildSnapshot(i, f));
            && |s'.net| == |s.net| + 1
            && s'.net[|s.net|] == SnapshotRequest(i, f, s.servers[i].node.currentTerm)
            && s'.servers[i].node == s.servers[i].node && s'.servers[i].stored == s.servers[i].stored
            && Elsewhere(s, s', i)
  {
  }

  lemma InstallEffect(r: Rules, s: System, i: nat, f: nat, term: nat)
    requires Shape(s) && i < |s.servers| && f < |s.servers| && i != f && |s.net| > 0
    requires s.net[|s.net| - 1] == SnapshotRequest(i, f, term) && s.servers[f].node.currentTerm <= term
    ensures var s' := Next(r, s, Deliver(|s.net| - 1));
            && |s'.net| == |s.net| + 1 && s'.net[|s.net|] == SnapshotReply(f, i, term, term)
            && s'.servers[f].node == HandleEmptySnapshot(s.servers[f].node, r.keepVote, term).0
            && s'.servers[f].stored == s.servers[f].stored
            && Elsewhere(s, s', f)
  {
  }

  lemma InstalledEffect(r: Rules, s: System, i: nat, f: nat, term: nat)
    requires Shape(s) && i < |s.servers| && f < |s.servers| && i != f && |s.net| > 0
    requires s.net[|s.net| - 1] == SnapshotReply(f, i, term, term)
    requires s.servers[i].node.role == Leader && s.servers[i].node.currentTerm == term
    ensures var s' := Next(r, s, Deliver(|s.net| - 1));
            var l, l' := s.servers[i].node, s'.servers[i].node;
            && l'.role == Leader && l'.currentTerm == term && l'.log == l.log && l'.nextIndex[f] == 1
            && l'.lastApplied == l.lastApplied && l'.commitIndex == l.commitIndex
            && s'.servers[i].stored == s.servers[i].stored
            && Elsewhere(s, s', i)
  {
  }

  lemma SnapshotExchangeEffect(r: Rules, s: System, i: nat, f: nat)
    requires Shape(s) && Leads(s, i, f) && s.servers[i].node.nextIndex[f] < 1
    ensures var s' := After(r, s, SnapshotExchange(s, i, f));
            var l, l', f' := s.servers[i].node, s'.servers[i].node, s'.servers[f].node;
            && StillAhead(l, l', f') && l'.nextIndex[f] == 1
            && l'.lastApplied == l.lastApplied && l'.commitIndex == l.commitIndex
            && s'.servers[i].stored == s.servers[i].stored && s'.servers[f].stored == s.servers[f].stored
            && f' == HandleEmptySnapshot(s.servers[f].node, r.keepVote, l.currentTerm).0
            && Between(s, s', i, f)
  {
    hide Next;
    var term := s.servers[i].node.currentTerm;
    AfterFour(r, s, AppendTo(i, f, true), BuildSnapshot(i, f), Deliver(|s.net|), Deliver(|s.net| + 1));
    LaunchEffect(r, s, i, f);
    var s2 := Next(r, Next(r, s, AppendTo(i, f, true)), BuildSnapshot(i, f));
    InstallEffect(r, s2, i, f, term);
    InstalledEffect(r, Next(r, s2, Deliver(|s.net|)), i, f, term);
  }

  /** In every run and under any rules, a leader that exchanges messages with a server of a later term
      follows in that term, and the other server does not change. */
  lemma {:induction false} DeposedByExchange(r: Rules, n: nat, run: seq<Event>, i: nat, f: nat)
    requires var s := Exec(r, n, run);
             && SendsTo(s, i, f) && s.servers[i].node.nextIndex[f] >= 1
             && s.servers[f].node.currentTerm > s.servers[i].node.currentTerm
    ensures var s := Exec(r, n, run);
            var s' := Exec(r, n, run + EntriesExchange(s, i, f));
            && Deposed(s.servers[i].node, s'.servers[i].node, s.servers[f].node.currentTerm)
            && s'.servers[f].node == s.servers[f].node
  {
    hide Exec, HandleAppendEntries, HandleAppendReply, Deposed;
    var s := Exec(r, n, run);
    var a := s.servers[i].node;
    var args := MessageFor(a, 0, i, f, true).args;
    AlwaysMarksSent(r, n, run);
    EntriesExchangeEffect(r, s, i, f);
    ExecAfter(r, n, run, EntriesExchange(s, i, f));
    EntriesTerm(s.servers[f].node, args);
    ReplyOfOtherTerm(a, 0, i, r.commitGuard, f, args, HandleAppendEntries(s.servers[f].node, args).1);
  }

  // ----- Catching up -------------------------------------------------------------------------------

  /** One exchange from `s`: entries, or the snapshot exchange if `nextIndex` is 0. */
  function Exchange(s: System, i: nat, f: nat): seq<Event>
    requires Shape(s) && i < |s.servers| && f < |s.servers|
  {
    if s.servers[i].node.nextIndex[f] < 1 then SnapshotExchange(s, i, f) else EntriesExchange(s, i, f)
  }

  lemma ExchangeProgress(r: Rules, s: System, i: nat, f: nat)
    requires Inv(s) && Leads(s, i, f) && MarksSent(s)
    ensures var s' := After(r, s, Exchange(s, i, f));
            var l, l', f' := s.servers[i].node, s'.servers[i].node, s'.servers[f].node;
            && StillAhead(l, l', f')
            && (f'.log == l'.log || Closer(l, s.servers[f].node, l', f', f))
  {
    var l := s.servers[i].node;
    if l.nextIndex[f] < 1 {
      SnapshotExchangeEffect(r, s, i, f);
    } else {
      assert ServerOk(s, i) && ServerOk(s, f);
      assert 0 in s.reigns ==> ReignOk(s, 0);
      EntriesExchangeEffect(r, s, i, f);
      EntriesProgress(s.reigns, l, s.servers[f].node, i, f, r.commitGuard);
    }
  }

  /** The exchanges from `s`, one after the other, until the logs are equal. */
  ghost predicate Exchanges(r: Rules, s: System, i: nat, f: nat, events: seq<Event>)
    requires Shape(s) && i < |s.servers| && f < |s.servers|
    decreases |events|
  {
    if events == [] then s.servers[f].node.log == s.servers[i].node.log
    else
      var x := Exchange(s, i, f);
      x <= events && Exchanges(r, After(r, s, x), i, f, events[|x|..])
  }

  function Unequal(leader: Node, follower: Node): nat {
    if leader.log == follower.log then 0 else 1
  }

  lemma {:induction false} ExchangeInRun(r: Rules, n: nat, run: seq<Event>, i: nat, f: nat)
    requires r.keepVote && Leads(Exec(r, n, run), i, f)
    ensures var s := Exec(r, n, run);
            var s' := Exec(r, n, run + Exchange(s, i, f));
            var l, l', f' := s.servers[i].node, s'.servers[i].node, s'.servers[f].node;
            && s' == After(r, s, Exchange(s, i, f))
            && StillAhead(l, l', f')
            && (f'.log == l'.log || Closer(l, s.servers[f].node, l', f', f))
  {
    var s := Exec(r, n, run);
    Always(r, n, run);
    AlwaysMarksSent(r, n, run);
    ExchangeProgress(r, s, i, f);
    ExecAfter(r, n, run, Exchange(s, i, f));
  }

  lemma OneMoreExchange(r: Rules, s: System, i: nat, f: nat, rest: seq<Event>)
    requires Shape(s) && i < |s.servers| && f < |s.servers|
    requires Exchanges(r, After(r, s, Exchange(s, i, f)), i, f, rest)
    ensures Exchanges(r, s, i, f, Exchange(s, i, f) + rest)
  {
    var x := Exchange(s, i, f);
    assert (x + rest)[|x|..] == rest;
  }

  /** From any reachable state, a leader that is not behind its follower's term brings the follower to its
      own log by exchanges alone, and still leads its term then. */
  lemma {:induction false} CatchUp(r: Rules, n: nat, run: seq<Event>, i: nat, f: nat) returns (more: seq<Event>)
    requires r.keepVote && Leads(Exec(r, n, run), i, f)
    ensures Exchanges(r, Exec(r, n, run), i, f, more)
    ensures var s, s' := Exec(r, n, run), Exec(r, n, run + more);
            StillAhead(s.servers[i].node, s'.servers[i].node, s'.servers[f].node)
            && s'.servers[f].node.log == s.servers[i].node.log
    decreases Unequal(Exec(r, n, run).servers[i].node, Exec(r, n, run).servers[f].node),
              Lag(Exec(r, n, run).servers[i].node, Exec(r, n, run).servers[f].node),
              Rank(Exec(r, n, run).servers[i].node.nextIndex[f])
  {
    hide Next, After, Exec, Exchange;
    var s := Exec(r, n, run);
    if Unequal(s.servers[i].node, s.servers[f].node) == 0 {
      more := [];
      assert run + more == run;
    } else {
      var x := Exchange(s, i, f);
      ExchangeInRun(r, n, run, i, f);
      var rest := CatchUp(r, n, run + x, i, f);
      OneMoreExchange(r, s, i, f, rest);
      more := x + rest;
      assert run + more == run + x + rest;
    }
  }
}
