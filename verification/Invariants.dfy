/** What every run keeps, under any delivery order and with or without the commit guard, as long as a
    vote is cleared only with a new term. */
module Invariants {
  import opened RaftLog
  import opened RaftNode
  import opened Cluster

  // ----- Quorums -----------------------------------------------------------------------------------

  ghost predicate Majority(n: nat, q: set<nat>) {
    q <= Ids(n) && 2 * |q| > n
  }

  lemma MajoritiesMeet(n: nat, a: set<nat>, b: set<nat>) returns (v: nat)
    requires Majority(n, a) && Majority(n, b)
    ensures v in a && v in b && v < n
  {
    if a * b == {} {
      assert |a + b| == |a| + |b|;
      SubsetCard(a + b, Ids(n));
      assert false;
    }
    v :| v in a * b;
  }

  lemma SubsetCard(a: set<nat>, b: set<nat>)
    requires a <= b
    ensures |a| <= |b|
  {
    assert b == a + (b - a);
  }

  lemma OneMore(a: set<nat>, b: set<nat>, q: nat)
    requires a <= b && q in b && q !in a
    ensures |a| < |b|
  {
    assert |a + {q}| == |a| + 1;
    SubsetCard(a + {q}, b);
  }

  lemma MajorityGrows(n: nat, a: set<nat>, b: set<nat>)
    requires Majority(n, a) && a <= b <= Ids(n)
    ensures Majority(n, b)
  {
    SubsetCard(a, b);
  }

  // ----- Logs and reigns ---------------------------------------------------------------------------

  /** Up to slot `i`, the log is the log of the leader that created the entry in slot `i`. */
  ghost predicate Owned(reigns: map<nat, Reign>, log: seq<Entry>, i: int)
    requires 0 <= i < |log|
  {
    log[i].term in reigns && Agree(log, reigns[log[i].term].log, i + 1)
  }

  ghost predicate Coherent(reigns: map<nat, Reign>, log: seq<Entry>) {
    && 0 < |log| && log[0] == SENTINEL
    && forall i :: 1 <= i < |log| ==> Owned(reigns, log, i)
  }

  /** Terms never decrease, every entry carries its position, and every entry was created by a leader. */
  ghost predicate WellFormed(reigns: map<nat, Reign>, log: seq<Entry>) {
    Coherent(reigns, log) && Sorted(log) && Indexed(log)
  }

  /** Coherent logs with the same term at an index are identical up to that index. */
  lemma CoherentMatch(reigns: map<nat, Reign>, a: seq<Entry>, b: seq<Entry>, i: int)
    requires Coherent(reigns, a) && Coherent(reigns, b)
    requires 0 <= i < |a| && i < |b| && a[i].term == b[i].term
    ensures Agree(a, b, i + 1)
  {
    if i > 0 {
      assert Owned(reigns, a, i) && Owned(reigns, b, i);
    } else {
      assert a[..1] == [a[0]] && b[..1] == [b[0]];
    }
  }

  /** A prefix of a well-formed log is well formed. */
  lemma PrefixWellFormed(reigns: map<nat, Reign>, a: seq<Entry>, b: seq<Entry>)
    requires WellFormed(reigns, b) && 0 < |a| && Agree(a, b, |a|)
    ensures WellFormed(reigns, a)
  {
    AgreeSorted(a, b);
    AgreeIndexed(a, b);
    AgreeAt(a, b, |a|, 0);
    forall i | 1 <= i < |a| ensures Owned(reigns, a, i) {
      assert Owned(reigns, b, i);
      AgreeAt(a, b, |a|, i);
      AgreeFewer(a, b, |a|, i + 1);
    }
  }

  /** Leaders keep their identity and only append. */
  ghost predicate ReignsGrow(a: map<nat, Reign>, b: map<nat, Reign>) {
    forall t :: t in a ==> t in b && ReignGrows(a[t], b[t])
  }

  ghost predicate ReignGrows(a: Reign, b: Reign) {
    b.id == a.id && b.start == a.start && Agree(a.log, b.log, |a.log|)
  }

  lemma WellFormedGrows(a: map<nat, Reign>, b: map<nat, Reign>, log: seq<Entry>)
    requires WellFormed(a, log) && ReignsGrow(a, b)
    ensures WellFormed(b, log)
  {
    forall i | 1 <= i < |log| ensures Owned(b, log, i) {
      assert Owned(a, log, i);
      var t := log[i].term;
      assert ReignGrows(a[t], b[t]);
      AgreeTrans(log, a[t].log, b[t].log, i + 1, |a[t].log|);
    }
  }

  // ----- The state of one server, one reign, one packet --------------------------------------------

  ghost predicate VotedFor(x: Server, t: nat, c: nat) {
    t in x.votes && x.votes[t] == c
  }

  ghost function Voters(s: System, t: nat, c: nat): set<nat> {
    set v: nat | v in Ids(|s.servers|) && VotedFor(s.servers[v], t, c)
  }

  /** The voters whose reply the candidate has counted. */
  ghost function Counted(s: System, c: nat): set<nat>
    requires c < |s.servers|
  {
    set v: nat | v in Ids(|s.servers|) && VotedFor(s.servers[v], s.servers[c].node.currentTerm, c)
                 && v !in s.servers[c].awaiting
  }

  ghost predicate VotesOk(x: Server) {
    && (forall t :: t in x.votes ==> t <= x.node.currentTerm)
    && (x.node.votedFor == NOBODY <==> x.node.currentTerm !in x.votes)
    && (x.node.currentTerm in x.votes ==> x.votes[x.node.currentTerm] == x.node.votedFor)
  }

  ghost predicate LogOk(s: System, x: Server) {
    WellFormed(s.reigns, x.node.log) && Last(x.node.log).term <= x.node.currentTerm
  }

  /** In term `t`, server `x` stored `log` or an extension of it. */
  ghost predicate Stored(x: Server, t: nat, n: int) {
    t in x.stored && n <= |x.stored[t]|
  }

  ghost predicate StoredOk(s: System, x: Server) {
    forall t :: t in x.stored ==>
      t <= x.node.currentTerm && t in s.reigns && Agree(x.stored[t], s.reigns[t].log, |x.stored[t]|)
  }

  ghost predicate CandidateOk(s: System, v: nat)
    requires v < |s.servers|
  {
    var x := s.servers[v];
    var t := x.node.currentTerm;
    x.node.role == Candidate ==>
      && Last(x.node.log).term < t
      && VotedFor(x, t, v)
      && (t in s.reigns ==> s.reigns[t].id != v)
      && v !in x.awaiting
      && x.voteCounter <= |Counted(s, v)|
  }

  ghost predicate MatchOk(s: System, v: nat, p: nat)
    requires v < |s.servers| && Shape(s) && p < |s.servers|
  {
    p != v && s.servers[v].node.matchIndex[p] > 0 ==>
      Stored(s.servers[p], s.servers[v].node.currentTerm, s.servers[v].node.matchIndex[p] + 1)
  }

  ghost predicate LeaderOk(s: System, v: nat)
    requires v < |s.servers| && Shape(s)
  {
    var nd := s.servers[v].node;
    nd.role == Leader ==>
      && nd.currentTerm in s.reigns
      && s.reigns[nd.currentTerm].id == v
      && s.reigns[nd.currentTerm].log == nd.log
      && forall p: nat :: p < |s.servers| ==> MatchOk(s, v, p)
  }

  ghost predicate ServerOk(s: System, v: nat)
    requires v < |s.servers| && Shape(s)
  {
    && VotesOk(s.servers[v])
    && LogOk(s, s.servers[v])
    && StoredOk(s, s.servers[v])
    && CandidateOk(s, v)
    && LeaderOk(s, v)
  }

  /** The entries of a leader's own term are exactly those from `start` on. */
  ghost predicate OwnTerm(g: Reign, t: nat) {
    forall i :: 0 <= i < |g.log| ==> if i < g.start then g.log[i].term < t else g.log[i].term == t
  }

  ghost predicate ReignOk(s: System, t: nat)
    requires t in s.reigns
  {
    var g := s.reigns[t];
    && 0 < t
    && g.id < |s.servers|
    && 1 <= g.start <= |g.log|
    && WellFormed(s.reigns, g.log)
    && OwnTerm(g, t)
    && Majority(|s.servers|, Voters(s, t, g.id))
    && s.servers[g.id].node.currentTerm >= t
    && t in s.servers[g.id].stored && s.servers[g.id].stored[t] == g.log
  }

  lemma LastIsGreatest(log: seq<Entry>, i: int)
    requires Sorted(log) && 0 <= i < |log|
    ensures log[i].term <= log[|log| - 1].term
  {
  }

  /** A message carries the whole suffix of the log that its sender had as leader. */
  ghost predicate CarriesSuffix(args: AppendEntriesArgs, built: seq<Entry>) {
    && 0 <= args.prevLogIndex < |built|
    && args.prevLogTerm == built[args.prevLogIndex].term
    && args.entries == built[args.prevLogIndex + 1..]
  }

  ghost predicate FromLeader(s: System, src: nat, args: AppendEntriesArgs, built: seq<Entry>) {
    && args.term in s.reigns && s.reigns[args.term].id == src
    && s.reigns[args.term].start <= |built|
    && Agree(built, s.reigns[args.term].log, |built|)
    && CarriesSuffix(args, built)
  }

  /** What the sender of a conflict knew: its log, at `prevLogIndex`, had an entry of term `xTerm`. */
  ghost predicate ConflictOk(s: System, args: AppendEntriesArgs, reply: AppendEntriesReply) {
    if reply.xTerm == -1 then
      0 <= reply.xLen < args.prevLogIndex
    else
      && 1 <= reply.xIndex <= args.prevLogIndex
      && 0 <= reply.xTerm && reply.xTerm != args.prevLogTerm
      && reply.xTerm in s.reigns
      && args.prevLogIndex < |s.reigns[reply.xTerm].log|
      && s.reigns[reply.xTerm].log[args.prevLogIndex].term == reply.xTerm
  }

  ghost predicate ReplyOk(s: System, p: Packet)
    requires p.EntriesReply? && p.src < |s.servers|
  {
    && p.args.term in s.reigns && s.reigns[p.args.term].id == p.dst
    && 0 <= p.args.prevLogIndex < |s.reigns[p.args.term].log|
    && s.reigns[p.args.term].log[p.args.prevLogIndex].term == p.args.prevLogTerm
    && (p.reply.success ==> Stored(s.servers[p.src], p.args.term, p.args.prevLogIndex + |p.args.entries| + 1))
    && (p.reply.conflict ==> ConflictOk(s, p.args, p.reply))
  }

  ghost predicate BallotOk(x: Server, src: nat, ballot: RequestVoteArgs) {
    && ballot.candidateId == src
    && ballot.term <= x.node.currentTerm
    && (x.node.role == Candidate && x.node.currentTerm == ballot.term ==>
          ballot.lastLogIndex == LastIndex(x.node.log) && ballot.lastLogTerm == Last(x.node.log).term)
  }

  ghost predicate PacketOk(s: System, p: Packet)
    requires PacketShape(|s.servers|, p)
  {
    match p
    case VoteRequest(src, ballot) => BallotOk(s.servers[src], src, ballot)
    case VoteReply(src, dst, ballot, vote) =>
      && ballot.candidateId == dst
      && (vote.voteGranted ==> vote.term == ballot.term && VotedFor(s.servers[src], ballot.term, dst))
    case EntriesRequest(src, dst, args, built) => FromLeader(s, src, args, built)
    case EntriesReply(_, _, _, _) => ReplyOk(s, p)
    case SnapshotRequest(_, _, _) => true
    case SnapshotReply(_, _, _, _) => true
  }

  ghost predicate Inv(s: System) {
    && Shape(s)
    && (forall v: nat :: v < |s.servers| ==> ServerOk(s, v))
    && (forall t :: t in s.reigns ==> ReignOk(s, t))
    && (forall k :: 0 <= k < |s.net| ==> PacketOk(s, s.net[k]))
    && (forall t, v :: (t, v) in s.won <==> t in s.reigns && s.reigns[t].id == v)
  }
}
