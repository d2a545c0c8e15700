/** The cluster as a state machine: `Exec(rules, n, events)` is the state of `n` servers after any
    sequence of events. One event is one lock-held block of one server. The network keeps every packet
    ever sent, in send order; a packet may be delivered at any time, any number of times, or never.

    The events are exactly those of an implementation whose service never calls `Snapshot`; the snapshot
    exchange that `nextIndex` 0 triggers then covers index 0 and is part of the model.

    `Rules` are the three places where the implementation as written does not keep the claims of its
    design: with all three false, the model is the code as written on an arbitrary network. */
module Cluster {
  import opened RaftLog
  import opened RaftNode

  datatype Rules = Rules(
    /** A leader commits only entries of its own term (commented out in the code). */
    commitGuard: bool,
    /** AppendEntries of one leader to one follower in one term are processed in send order. */
    inOrder: bool,
    /** Handling a snapshot message clears the vote only with a new term. */
    keepVote: bool)

  datatype Packet =
    /** One value stands for the copies sent to all peers. */
    | VoteRequest(src: nat, ballot: RequestVoteArgs)
    | VoteReply(src: nat, dst: nat, ballot: RequestVoteArgs, vote: RequestVoteReply)
    /** `built` records the sender's log when the message was built; no handler reads it. */
    | EntriesRequest(src: nat, dst: nat, args: AppendEntriesArgs, built: Log)
    | EntriesReply(src: nat, dst: nat, args: AppendEntriesArgs, reply: AppendEntriesReply)
    | SnapshotRequest(src: nat, dst: nat, term: nat)
    | SnapshotReply(src: nat, dst: nat, term: nat, replyTerm: nat)

  /** A server: the node, its goroutines, and a record of its past that survives restarts. */
  datatype Server = Server(
    node: Node,
    /** The counter of the latest election and the peers whose reply it still awaits. */
    voteCounter: nat,
    awaiting: set<nat>,
    /** Goroutines of `leaderSendSnapShot` that have not yet built their message, by peer. */
    snapshotsDue: multiset<nat>,
    /** For each term, whom this server voted for. */
    votes: map<nat, nat>,
    /** For each term, the longest log this server has stored as leader or by accepting a message. */
    stored: map<nat, Log>,
    /** For each (leader, term), the latest of its messages that this server has processed. */
    marks: map<(nat, nat), nat>,
    /** What this server's service has been sent since its last restart, in order. */
    sent: seq<Applied>)

  /** The leader of a term: who it is, how long its log was when elected, and its log since then. */
  datatype Reign = Reign(id: nat, start: nat, log: Log)

  datatype Applied = Applied(server: nat, index: nat, command: Command)

  datatype System = System(
    servers: seq<Server>,
    net: seq<Packet>,
    reigns: map<nat, Reign>,
    /** Every (term, server) that has ever become leader. */
    won: set<(nat, nat)>,
    /** Everything ever sent to a service. */
    applied: set<Applied>)

  datatype Event =
    | Timeout(i: nat)
    | ClientStart(i: nat, command: Command)
    | AppendTo(i: nat, peer: nat, heartbeat: bool)
    | BuildSnapshot(i: nat, peer: nat)
    | Apply(i: nat)
    | Restart(i: nat)
    | DeliverBallot(k: nat, dst: nat)
    | Deliver(k: nat)

  ghost predicate PacketShape(n: nat, p: Packet) {
    p.src < n && (!p.VoteRequest? ==> p.dst < n && p.dst != p.src)
  }

  ghost predicate Shape(s: System) {
    && (forall v :: 0 <= v < |s.servers| ==> Sized(s.servers[v].node, |s.servers|))
    && (forall k :: 0 <= k < |s.net| ==> PacketShape(|s.servers|, s.net[k]))
  }

  /** No server but `i` changes. */
  ghost predicate Elsewhere(s: System, s': System, i: nat) {
    |s'.servers| == |s.servers| && forall v :: 0 <= v < |s.servers| && v != i ==> s'.servers[v] == s.servers[v]
  }

  /** The server identities 0, ..., n - 1. */
  function Ids(n: nat): (ids: set<nat>)
    ensures |ids| == n
    ensures forall p: nat :: p in ids <==> p < n
  {
    if n == 0 then {} else Ids(n - 1) + {n - 1}
  }

  function Init(n: nat): (s: System)
    ensures Shape(s) && |s.servers| == n
  {
    System(seq(n, _ => Server(InitialNode(n), 0, {}, multiset{}, map[], map[], map[], [])), [], map[], {}, {})
  }

  // ----- Events ------------------------------------------------------------------------------------

  /** Server `i` becomes `x` and the packets `out` are sent. */
  function Put(s: System, i: nat, x: Server, out: seq<Packet>): (s': System)
    requires Shape(s) && i < |s.servers| && Sized(x.node, |s.servers|)
    requires forall k :: 0 <= k < |out| ==> PacketShape(|s.servers|, out[k])
    ensures Shape(s') && |s'.servers| == |s.servers|
  {
    s.(servers := s.servers[i := x], net := s.net + out)
  }

  function OnTimeout(s: System, i: nat): (s': System)
    requires Shape(s) && i < |s.servers|
    ensures Shape(s') && |s'.servers| == |s.servers|
  {
    var x := s.servers[i];
    var nd := LeaderElection(x.node, i);
    var x' := x.(node := nd, voteCounter := 1, awaiting := Ids(|s.servers|) - {i},
                 votes := x.votes[nd.currentTerm := i]);
    Put(s, i, x', [VoteRequest(i, Ballot(nd, i, Last(nd.log)))])
  }

  function OnClientStart(s: System, i: nat, command: Command): (s': System)
    requires Shape(s) && i < |s.servers|
    ensures Shape(s') && |s'.servers| == |s.servers|
  {
    var x := s.servers[i];
    var nd := Start(x.node, command);
    var t := nd.currentTerm;
    if x.node.role == Leader then
      Put(s, i, x.(node := nd, stored := x.stored[t := nd.log]), [])
        .(reigns := if t in s.reigns then s.reigns[t := s.reigns[t].(log := nd.log)] else s.reigns)
    else
      s
  }

  function OnAppendTo(s: System, i: nat, peer: nat, heartbeat: bool): (s': System)
    requires Shape(s) && i < |s.servers| && peer < |s.servers|
    ensures Shape(s') && |s'.servers| == |s.servers|
  {
    var x := s.servers[i];
    if x.node.role != Leader || peer == i then
      s
    else
      match MessageFor(x.node, 0, i, peer, heartbeat)
      case Quiet => s
      case SendSnapshot => Put(s, i, x.(snapshotsDue := x.snapshotsDue + multiset{peer}), [])
      case SendEntries(args) => Put(s, i, x, [EntriesRequest(i, peer, args, x.node.log)])
  }

  function OnBuildSnapshot(s: System, i: nat, peer: nat): (s': System)
    requires Shape(s) && i < |s.servers| && peer < |s.servers|
    ensures Shape(s') && |s'.servers| == |s.servers|
  {
    var x := s.servers[i];
    if peer in x.snapshotsDue && peer != i then
      Put(s, i, x.(snapshotsDue := x.snapshotsDue - multiset{peer}), [SnapshotRequest(i, peer, x.node.currentTerm)])
    else
      s
  }

  function OnApply(s: System, i: nat): (s': System)
    requires Shape(s) && i < |s.servers|
    ensures Shape(s') && |s'.servers| == |s.servers|
  {
    var x := s.servers[i];
    if CanApply(x.node) then
      var nd := ApplyNext(x.node);
      var a := Applied(i, nd.lastApplied, nd.log[nd.lastApplied].command);
      Put(s, i, x.(node := nd, sent := x.sent + [a]), []).(applied := s.applied + {a})
    else
      s
  }

  /** A crash and restart: the persisted state and the record of the past survive, goroutines do not. */
  function OnRestart(s: System, i: nat): (s': System)
    requires Shape(s) && i < |s.servers|
    ensures Shape(s') && |s'.servers| == |s.servers|
  {
    var x := s.servers[i];
    Put(s, i, x.(node := Restarted(x.node), voteCounter := 0, awaiting := {}, snapshotsDue := multiset{},
                 sent := []), [])
  }

  function OnBallot(s: System, p: Packet, dst: nat): (s': System)
    requires Shape(s) && p.VoteRequest? && PacketShape(|s.servers|, p) && dst < |s.servers|
    ensures Shape(s') && |s'.servers| == |s.servers|
  {
    var x := s.servers[dst];
    if p.src == dst then
      s
    else
      var (nd, vote) := HandleRequestVote(x.node, Last(x.node.log), p.ballot);
      var votes := if vote.voteGranted then x.votes[nd.currentTerm := p.ballot.candidateId] else x.votes;
      Put(s, dst, x.(node := nd, votes := votes), [VoteReply(dst, p.src, p.ballot, vote)])
  }

  /** A reply to a goroutine of the latest election is counted once; for an older election the only
      effect left is adopting a higher term. */
  function OnVoteReply(s: System, p: Packet): (s': System)
    requires Shape(s) && p.VoteReply? && PacketShape(|s.servers|, p)
    ensures Shape(s') && |s'.servers| == |s.servers|
  {
    var i := p.dst;
    var x := s.servers[i];
    if p.ballot.term == x.node.currentTerm && p.src in x.awaiting then
      var (nd, votes) := HandleVoteReply(x.node, i, Last(x.node.log), x.voteCounter, p.ballot, p.vote);
      var x' := x.(node := nd, voteCounter := votes, awaiting := x.awaiting - {p.src});
      if nd.role == Leader && x.node.role == Candidate then
        Put(s, i, x'.(stored := x.stored[nd.currentTerm := nd.log]), [])
          .(reigns := s.reigns[nd.currentTerm := Reign(i, |nd.log|, nd.log)],
            won := s.won + {(nd.currentTerm, i)})
      else
        Put(s, i, x', [])
    else if p.vote.term > p.ballot.term then
      Put(s, i, x.(node := SetNewTerm(x.node, p.vote.term)), [])
    else
      s
  }

  function Longer(stored: map<nat, Log>, t: nat, log: Log): map<nat, Log> {
    if t in stored && |stored[t]| >= |log| then stored else stored[t := log]
  }

  predicate InSendOrder(x: Server, p: Packet, k: nat)
    requires p.EntriesRequest?
  {
    (p.src, p.args.term) in x.marks ==> x.marks[(p.src, p.args.term)] <= k
  }

  /** Processing packet number `k`. */
  function OnEntries(r: Rules, s: System, k: nat, p: Packet): (s': System)
    requires Shape(s) && p.EntriesRequest? && PacketShape(|s.servers|, p)
    ensures Shape(s') && |s'.servers| == |s.servers|
  {
    var x := s.servers[p.dst];
    if r.inOrder && !InSendOrder(x, p, k) then
      s
    else
      var (nd, reply) := HandleAppendEntries(x.node, p.args);
      var x' := x.(node := nd,
                   stored := if reply.success then Longer(x.stored, nd.currentTerm, nd.log) else x.stored,
                   marks := x.marks[(p.src, p.args.term) := k]);
      Put(s, p.dst, x', [EntriesReply(p.dst, p.src, p.args, reply)])
  }

  function OnEntriesReply(r: Rules, s: System, p: Packet): (s': System)
    requires Shape(s) && p.EntriesReply? && PacketShape(|s.servers|, p)
    ensures Shape(s') && |s'.servers| == |s.servers|
  {
    var x := s.servers[p.dst];
    Put(s, p.dst, x.(node := HandleAppendReply(x.node, 0, p.dst, r.commitGuard, p.src, p.args, p.reply)), [])
  }

  function OnSnapshot(r: Rules, s: System, p: Packet): (s': System)
    requires Shape(s) && p.SnapshotRequest? && PacketShape(|s.servers|, p)
    ensures Shape(s') && |s'.servers| == |s.servers|
  {
    var x := s.servers[p.dst];
    var (nd, term) := HandleEmptySnapshot(x.node, r.keepVote, p.term);
    Put(s, p.dst, x.(node := nd), [SnapshotReply(p.dst, p.src, p.term, term)])
  }

  function OnSnapshotReply(r: Rules, s: System, p: Packet): (s': System)
    requires Shape(s) && p.SnapshotReply? && PacketShape(|s.servers|, p)
    ensures Shape(s') && |s'.servers| == |s.servers|
  {
    var x := s.servers[p.dst];
    Put(s, p.dst, x.(node := HandleSnapshotReply(x.node, r.keepVote, p.src, p.term, 0, p.replyTerm)), [])
  }

  function OnDelivery(r: Rules, s: System, k: nat): (s': System)
    requires Shape(s) && k < |s.net|
    ensures Shape(s') && |s'.servers| == |s.servers|
  {
    var p := s.net[k];
    match p
    case VoteRequest(_, _) => s
    case VoteReply(_, _, _, _) => OnVoteReply(s, p)
    case EntriesRequest(_, _, _, _) => OnEntries(r, s, k, p)
    case EntriesReply(_, _, _, _) => OnEntriesReply(r, s, p)
    case SnapshotRequest(_, _, _) => OnSnapshot(r, s, p)
    case SnapshotReply(_, _, _, _) => OnSnapshotReply(r, s, p)
  }

  /** One event. An event that is not enabled changes nothing. */
  function Next(r: Rules, s: System, e: Event): (s': System)
    requires Shape(s)
    ensures Shape(s') && |s'.servers| == |s.servers|
  {
    var n := |s.servers|;
    match e
    case Timeout(i) => if i < n then OnTimeout(s, i) else s
    case ClientStart(i, command) => if i < n then OnClientStart(s, i, command) else s
    case AppendTo(i, peer, heartbeat) => if i < n && peer < n then OnAppendTo(s, i, peer, heartbeat) else s
    case BuildSnapshot(i, peer) => if i < n && peer < n then OnBuildSnapshot(s, i, peer) else s
    case Apply(i) => if i < n then OnApply(s, i) else s
    case Restart(i) => if i < n then OnRestart(s, i) else s
    case DeliverBallot(k, dst) =>
      if k < |s.net| && s.net[k].VoteRequest? && dst < n then OnBallot(s, s.net[k], dst) else s
    case Deliver(k) => if k < |s.net| then OnDelivery(r, s, k) else s
  }

  /** The state after a run. */
  function Exec(r: Rules, n: nat, run: seq<Event>): (s: System)
    ensures Shape(s) && |s.servers| == n
  {
    if run == [] then Init(n) else Next(r, Exec(r, n, run[..|run| - 1]), run[|run| - 1])
  }

  lemma ExecStep(r: Rules, n: nat, run: seq<Event>)
    requires run != []
    ensures Exec(r, n, run) == Next(r, Exec(r, n, run[..|run| - 1]), run[|run| - 1])
  {
  }
}
