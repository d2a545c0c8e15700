# Raft: a verified model

A model of the Go implementation of Raft under `src/raft` (leader election, log replication with fast conflict
backup, commit, persistence, log compaction), with the safety claims of the extended Raft paper proved over every
run of a lossy, duplicating, crashing cluster of any size.

## Layout

Layer 1, the protocol:

- `RaftLog.dfy`, `RaftNode.dfy` — entries, logs, and one node on an uncompacted log: for every lock-held block of
  the code, the function from the node before to the node after.
- `Cluster.dfy` — `n` servers and a network that keeps every packet ever sent; a packet may be delivered at any
  time, any number of times, or never. `Exec(rules, n, run)` is the state after any sequence of events: timeout,
  `Start`, one message of `appendEntries`, the delivery of any packet or reply, one turn of `applier`, a crash and
  restart. Each server also carries a record of its past (votes, logs stored per term) that no handler reads.
- `Invariants.dfy`, `Preservation.dfy`, `Events.dfy` — what every run keeps, event by event.
- `Completeness.dfy`, `SafeRuns.dfy`, `StateMachineSafety.dfy`, `CommittedForever.dfy` — the invariant behind leader
  completeness, committed entries, state machine safety, and what stays committed at later moments of a run.
- `Terms.dfy` — sorted logs and well-built messages, in every run and under any rules.
- `Operations.dfy` — what each operation of one node answers and changes, for all its inputs.
- `Claims.dfy`, `CatchUp.dfy` — the other claims over runs, and termination of catch-up.
- `Scenario.dfy`, `Violations.dfy` — steps of concrete runs of three servers, and the runs that break a claim.
- `Exactness.dfy` — for each claim that rests on rules, the rules are exactly what it needs.

Layer 2, one server as an object:

- `Storage.dfy` — the persister. `Compaction.dfy` — a log stored at an offset.
- `RaftObject.dfy` — class `Raft` with the fields of the code, updated in place. A ghost log `full` is the logical
  log; every method is proved against the layer-1 function on `Abs()`, the uncompacted node it stands for, and
  `Valid()` says that stable storage decodes to the live durable state and that the stored snapshot covers exactly
  `lastIncludeIndex`. As long as the service never calls `Snapshot`, `lastIncludeIndex` stays 0 and each method is
  the handler that layer 1 runs.

## Where the code does not keep its own claims

`Cluster.Rules` holds three flags; with all three false, layer 1 is the code as written on an arbitrary network.

- `commitGuard`: a leader commits only entries of its own term. README.md:162 of the repository requires it; the test
  is commented out (src/raft/append_entry.go:138-140). With the guard on, indices at or below `lastIncludeIndex` are
  skipped, because `commitIndex` restarts at 0 (src/raft/raft.go:262, 277-280) and their terms are not stored.
- `inOrder`: AppendEntries of one leader to one follower in one term are processed in send order, with loss and
  duplication allowed. It is an assumption on links: src/raft/append_entry.go:235 truncates the log even for a
  stale message, and the line is modelled as it is.
- `keepVote`: a snapshot message clears the vote only with a new term. README.md:362 says a server never votes twice
  in a term; src/raft/raft.go:402-408 and 368-372 clear `votedFor` in the same term. No compaction is needed to get
  there: a conflict reply with `XLen` 0 sets `nextIndex` to 0 (src/raft/append_entry.go:33, 95), and the snapshot
  exchange that this starts is part of layer 1.

`Exactness` proves which rules each claim needs, as equivalences over all runs of all clusters. State machine safety,
leader completeness, no truncation of committed entries and the bound on `LeaderCommit` hold if and only if all three
rules do. Election safety, log matching, success meaning equal logs, evidence for `matchIndex` and for commits, backward
hints and catch-up hold if and only if `keepVote` does. Sorted logs, the early exit of the scan, the origin of messages
and the order of what is applied need none of them.

One more disagreement with the documentation concerns layer 1: README.md:351 says that `LeaderCommit` is below the
leader's last index. It is at most that (`LeaderCommitWithinMessage`), and some run has a message in which it is equal
(`LeaderCommitAttained`).

Two more places are in layer 2:

- Votes after compaction read slot 0 when nothing is stored above the snapshot (src/raft/request_vote.go:48-51);
  `VoteTestExact` gives the exact condition under which the up-to-date test then differs, `VoteTestFails` an instance.
- `InstallSnapShot` keeps the stored suffix without comparing terms (src/raft/raft.go:423-425); `InstalledExact` gives
  the exact condition under which the result is a log of the protocol, `InstalledFails` an instance in which it is not.

## Model

| member | source | states |
|---|---|---|
| StateMachineSafety.StateMachineSafetyHolds | src/raft/config.go:141-164 | Under the three rules, in every run, whatever two services (or one service before and after a restart) were sent at the same index is the same command. |
| Exactness.StateMachineSafetyExact | src/raft/raft.go:295-321 | State machine safety of all runs of all clusters is equivalent to the three rules. |
| Exactness.EachRuleIsNeeded | src/raft/append_entry.go:131-154 | Without one of the rules, whatever the other two are, a run of three servers sends two services different commands at one index. |
| Claims.ServicesAgree | src/raft/config.go:141-164 | Under the three rules, of the sequences that two services have been sent since their restarts, one is a prefix of the other. |
| Claims.AppliedInOrder | src/raft/raft.go:300-315 | In every run and under any rules, what a service has been sent since its last restart is exactly the sequence of indices 1, 2, ..., lastApplied. |
| Claims.AppliedWithoutGaps | src/raft/raft.go:300-315 | In every run and under any rules, restarts included, a service that was ever sent an index was sent every smaller one. |
| CommittedForever.LeaderCompleteness | src/raft/request_vote.go:48-58 | Under the three rules, everything a server knows to be committed at some moment of a run is, entry by entry, in the log of every leader of that server's term or a later one at that moment and at every later one, even after every server that knew has restarted. |
| Exactness.LeaderCompletenessExact | src/raft/request_vote.go:48-58 | Leader completeness between any two moments of all runs is equivalent to the three rules. |
| CommittedForever.CommittedNeverTruncated | src/raft/append_entry.go:235 | Under the three rules, what a server knows to be committed at some moment stays in its own log at every later moment of the run, although the write truncates and a restart forgets the commit index. |
| Exactness.TruncationExact | src/raft/append_entry.go:235-243 | That no log of any run ever loses what its server once knew to be committed is equivalent to the three rules. |
| StateMachineSafety.LeaderCommitWithinMessage | src/raft/append_entry.go:239-243 | Under the three rules, in every run, LeaderCommit is at most PrevLogIndex plus the number of entries carried. |
| Exactness.LeaderCommitExact | src/raft/append_entry.go:239-243 | That bound, for all messages of all runs, is equivalent to the three rules. |
| Exactness.LeaderCommitAttained | src/raft/append_entry.go:47-62 | Under any rules some run sends a message whose LeaderCommit equals PrevLogIndex plus the number of entries, above 0. |
| Violations.CommittingOld | src/raft/append_entry.go:137-153 | With the commit guard off, a run reaches a state in which the leader of term 3 has committed two entries of term 1 that two of three servers hold. |
| Violations.CountingCuts | src/raft/append_entry.go:137-153 | With the commit guard off, an event of some run replaces two entries of term 1 that server 2 knows to be committed by one entry of term 2. |
| Violations.ReorderCuts | src/raft/append_entry.go:235-243 | With messages out of order, an event of some run cuts a log below its server's commit index. |
| Violations.VotingTwice | src/raft/raft.go:402-408 | With the vote cleared in the same term, a run reaches a state with two leaders of term 2, each of which would next send its whole log to the same follower. |
| SafeRuns.AlwaysSafe | src/raft/request_vote.go:48-58 | Under the three rules, every run keeps the inductive invariant behind leader completeness: votes are for candidates that hold whatever the voter helped to make committable. |
| StateMachineSafety.ChosenAgree | src/raft/append_entry.go:142-148 | In a state that keeps the invariant of AlwaysSafe, two majorities that stored entries of two leaders, each in that leader's term, agree on every index both cover. |
| Claims.LogMatching | src/raft/append_entry.go:185-237 | Under keepVote, in every run and any delivery order, with or without the commit guard, two logs with the same term at an index are identical up to it. |
| Exactness.LogMatchingExact | src/raft/raft.go:402-408 | Log matching of all runs is equivalent to keepVote. |
| Claims.SuccessMeansEqualLogs | src/raft/append_entry.go:202-244 | Under keepVote, whenever a message is accepted in any run, the follower's whole log becomes the leader's whole log at the moment the message was built. |
| Exactness.SuccessExact | src/raft/append_entry.go:202-244 | That success means equal logs in all runs is equivalent to keepVote. |
| Claims.MessageOrigin | src/raft/append_entry.go:47-62 | Under any rules, every message in the network was built at some earlier moment of the run by a then leader of its term, with its whole log and its commit index of that moment. |
| Claims.ElectionSafety | src/raft/request_vote.go:131-148 | Under keepVote, in every run with crashes and restarts at most one server ever becomes leader of a term, and whoever is leader became it in its current term. |
| Exactness.ElectionSafetyExact | src/raft/raft.go:402-408 | Election safety of all runs is equivalent to keepVote. |
| Claims.CandidacyEnds | src/raft/leader_election.go:35-52 | Under any rules, in every run, a server past its candidacy of a term is never again a candidate of it, so a spent `sync.Once` never blocks a win. |
| Claims.CommitEvidence | src/raft/append_entry.go:131-154 | Under keepVote, guard on or off and any order: when a leader raises its commit index to n, a strict majority with itself included has each stored, in the leader's term, a log that agrees with the leader's through n. |
| Exactness.CommitEvidenceExact | src/raft/append_entry.go:131-154 | Commit evidence at every step of all runs is equivalent to keepVote. |
| Claims.MatchIndexIsEvidence | src/raft/append_entry.go:85-90 | Under keepVote, in every run, a leader's matchIndex never overstates what the follower has stored in the leader's term. |
| Exactness.MatchIndexExact | src/raft/append_entry.go:85-90 | Evidence for every matchIndex in all runs is equivalent to keepVote. |
| CatchUp.CatchUp | src/raft/append_entry.go:85-113 | Under keepVote, from any reachable state, a leader not behind its follower's term ends, by single exchanges, with the follower holding its log, and still leads its term. |
| Exactness.CatchUpExact | src/raft/append_entry.go:85-113 | That catch-up ends from all states of all runs is equivalent to keepVote. |
| Violations.NeverCaughtUp | src/raft/append_entry.go:202-244 | A leader whose follower has another log of the same length and last term never makes it equal by exchanges. |
| CatchUp.EntriesProgress | src/raft/append_entry.go:166-217 | One exchange between well-formed logs either makes them equal or makes the pair (term lag, rank of nextIndex with 0 just above 1) lexicographically smaller. |
| CatchUp.SnapshotExchangeEffect | src/raft/append_entry.go:32-36 | The exchange that nextIndex 0 triggers leaves the leader leading with its log and nextIndex 1, and no other server changed. |
| Claims.HintsGoBackward | src/raft/append_entry.go:94-104 | Under keepVote, in every run, a conflict reply of the leader's term moves nextIndex to at most the rejected index, and the last entry found with the follower's term is strictly below it. |
| Exactness.HintsExact | src/raft/append_entry.go:94-104 | That hints go backward in all runs is equivalent to keepVote. |
| Claims.EarlyExitIsSound | src/raft/append_entry.go:119-129 | Under any rules, in every run logs are sorted by term with no term above currentTerm, so the early exit of the scan returns the last index with the wanted term, or -1 exactly if there is none. |
| Terms.WriteBounded | src/raft/append_entry.go:202-237 | The truncating write keeps a log sorted and bounded by its term for any message that carries a sorted suffix, whoever sent it. |
| Claims.CommitRuleIsGreatest | src/raft/append_entry.go:137-153 | The commit index becomes the greatest index up to the last one that a strict majority has matched (of the current term under the guard), if that is above the old value. |
| Claims.CommittedIsApplied | src/raft/raft.go:300-315 | Under the three rules, from any reachable state, as many turns of the applier as a server is behind its commit index send its service exactly those indices, with the commands of its log. |
| Terms.ReplyRaisesTerm | src/raft/append_entry.go:79-82 | Under any rules, in every run, whoever processes a reply to an entries message or to a ballot, even of an old election, is then of the reply's term or a later one. |
| CatchUp.DeposedByExchange | src/raft/append_entry.go:163-175 | Under any rules, in every run, a leader that exchanges messages with a server of a later term ends as a follower of that term with its log kept; the other server does not change. |
| Operations.UpToDateTotal | src/raft/request_vote.go:51 | Of any two last entries at least one is up to date for the other, and both only if term and index are equal. |
| Operations.UpToDateTransitive | src/raft/request_vote.go:51 | Being up to date is transitive. |
| Operations.ExtensionElectable | src/raft/request_vote.go:50-57 | A voter of an earlier term grants, and records, the ballot of every sorted log that extends its own. |
| Operations.VoteAnswered | src/raft/request_vote.go:31-61 | A vote is granted if and only if the term is not older, no other candidate of it has the vote, and the candidate's last entry is of a later term, or of the same term and not before the voter's; the reply carries the later of the two terms, and a refusal changes no vote of the term. |
| Operations.CandidacyStarted | src/raft/leader_election.go:35-50 | A timeout enters the next term with a vote for itself, keeps log, commit index and the rest, and sends a ballot that its sender would grant again. |
| Operations.VoteCounted | src/raft/request_vote.go:110-146 | A reply of a later term makes the candidate a follower of it; a granted vote of the election's term adds one; the vote that makes a strict majority, and only it, makes a candidate of that term leader with nextIndex after its last entry for all. |
| Operations.MessageChosen | src/raft/append_entry.go:32-63 | A snapshot exactly if the next entry is not stored, nothing exactly for an up-to-date peer outside a heartbeat, otherwise term, leader, commit index and everything from the next entry on. |
| Operations.ReplyOfOtherTerm | src/raft/append_entry.go:79-85 | A reply of a later term makes any node a follower of that term without a vote; a reply to a message of another term changes nothing. |
| Operations.ReplyOfThisTerm | src/raft/append_entry.go:85-113 | On a sorted log, a reply of this term moves only its sender's entries: a success up to what was carried and never back, a conflict to the follower's last index, else to the leader's last entry of the conflicting term, else to the first entry of the follower's run, a plain refusal back by one and not below 1. |
| Operations.ReplyCommitsGreatest | src/raft/append_entry.go:131-154 | After such a reply a leader's commit index is the greatest index that more than half of the servers hold (of its term under the guard) or the old one, whichever is greater; nobody else's moves. |
| Operations.EntriesTerm | src/raft/append_entry.go:163-175 | The reply always carries the receiver's term before the message; a later term makes the receiver its follower, an older one changes nothing, and neither is accepted. |
| Operations.EntriesAnswered | src/raft/append_entry.go:180-245 | In the receiver's term, success if and only if it has an entry of the previous term at the previous index; then everything after that index is the message's, and the commit index follows the leader's within the log; otherwise nothing but a candidacy changes. |
| Operations.ConflictReported | src/raft/append_entry.go:193-217 | A conflict reports the last index, and either that the log is too short or the term found and the first index of its run. |
| Operations.SnapshotAnswered | src/raft/raft.go:396-408 | The reply to a snapshot message that is not needed carries the receiver's term after it, the later of the two. |
| Operations.SnapshotAcknowledged | src/raft/raft.go:378-379 | After a snapshot up to any stored index is acknowledged, matchIndex is exactly that index and the next message starts there and carries everything above it. |
| Operations.SnapshotRejected | src/raft/raft.go:362-376 | A reply of a later term makes the leader of the snapshot's term a follower in its own term; whoever does not lead that term ignores the reply. |
| Claims.MessageWellFormed | src/raft/append_entry.go:32-62 | Whatever nextIndex is, a message starts at or above the snapshot, its entries reach exactly the leader's last index, carry consecutive indices, and together with the prefix are the leader's log. |
| Events.Always | src/raft/request_vote.go:31-61 | Under keepVote, every run keeps the base invariant: votes, logs owned by the leaders that created them, acknowledgements and packets all accounted for. |
| Compaction.VoteTestExact | src/raft/request_vote.go:48-51 | The last stored entry accepts the same ballots as the logical last entry if and only if something is stored above the snapshot or there is none. |
| Compaction.VoteTestFails | src/raft/request_vote.go:48-51 | A compacted log with nothing stored above its snapshot accepts a candidate with an empty log that the logical log refuses. |
| Compaction.InstalledExact | src/raft/raft.go:423-437 | Keeping the suffix above an installed snapshot yields a log of the protocol if and only if the terms at the snapshot index agree or there is no suffix to keep. |
| Compaction.InstalledFails | src/raft/raft.go:423-425 | Two well-formed logs of two leaders for which keeping the suffix yields a log that is not made of prefixes of leaders' logs. |
| Compaction.InstalledKeepsLog | src/raft/raft.go:423-437 | Under term agreement at its index, installing a snapshot leaves the logical log unchanged. |
| RaftObject.Raft.constructor | src/raft/raft.go:247-287 | A node started on stored state has exactly that durable state, with commitIndex 0 and lastApplied at the snapshot index. |
| RaftObject.Raft.SetNewTerm | src/raft/leader_election.go:25-33 | Simulates the full-log node; what is stored decodes to the live state afterwards. |
| RaftObject.Raft.LeaderElection | src/raft/leader_election.go:35-52 | Simulates the full-log candidacy; the ballot carries the last stored entry, which is the logical last entry unless nothing is stored above a snapshot. |
| RaftObject.Raft.RequestVote | src/raft/request_vote.go:26-62 | Same node and same reply as the full-log voter given the last stored entry, and as the full-log voter itself unless nothing is stored above a snapshot; a vote is stored before the reply. |
| RaftObject.Raft.CandidateRequestVote | src/raft/request_vote.go:96-150 | One vote reply: same counter, same node, and on a win the first heartbeats to all peers. |
| RaftObject.Raft.Start | src/raft/raft.go:171-196 | A leader appends one entry at the next logical index and returns that index and term; others change nothing. |
| RaftObject.BroadcastSends | src/raft/append_entry.go:26-36 | The broadcast holds, in the order of the peers, exactly the message of every other peer that is due one and has no peer before it that needs a snapshot. |
| RaftObject.Raft.AppendEntriesToPeers | src/raft/append_entry.go:22-66 | The loop sends exactly those messages: one to every other peer that is due one, in order, ending at the first that needs a snapshot. |
| RaftObject.Raft.MessageTo | src/raft/append_entry.go:32-63 | From the stored suffix, the same message as from the full log, with no slice out of range whatever nextIndex is. |
| RaftObject.Raft.FindLastLogInTerm | src/raft/append_entry.go:119-129 | The scan of the stored suffix finds what the scan of the full log above the snapshot finds. |
| RaftObject.Raft.LeaderSendEntries | src/raft/append_entry.go:75-115 | Simulates the full-log leader on success, on conflict with and without a hint, on a plain refusal and on a higher term. |
| RaftObject.Raft.LeaderCommitRule | src/raft/append_entry.go:131-154 | The nested loops, with the counter that starts at 1, end at the greatest committable index. |
| RaftObject.Raft.MajorityMatched | src/raft/append_entry.go:141-152 | The inner loop stops early exactly if a strict majority has matched n. |
| RaftObject.Raft.AppendEntries | src/raft/append_entry.go:157-245 | For PrevLogIndex at or above the snapshot: same success, conflict, XTerm, XLen and logical log as the uncompacted handler, and the same XIndex if it is above the snapshot; below the snapshot a plain refusal. |
| RaftObject.Raft.CompactedReplyFaithful | src/raft/append_entry.go:207-214 | The reply of a compacted log differs from the full log's only in XIndex, and only for a conflict whose run of entries reaches down to the snapshot, where it is 0. |
| RaftObject.Raft.ApplierTurn | src/raft/raft.go:300-315 | Sends the entry right after the last applied index, read from the logical log strictly above the snapshot and never past its end, or nothing. |
| RaftObject.Raft.Snapshot | src/raft/raft.go:512-557 | For an index the node has, the logical log and thus every index and term are unchanged, and stored bytes and index change together; for one past the end, a bare placeholder. |
| RaftObject.Raft.InstallSnapShot | src/raft/raft.go:393-452 | The logical log becomes what the snapshot stands for followed by the entries stored above it, with bytes and index stored together; an old snapshot changes only term, role and vote. |
| RaftObject.Raft.BuildSnapshot | src/raft/raft.go:342-353 | A snapshot message carries data that covers exactly its LastIncludeIndex, and the logical term at that index. |
| RaftObject.Raft.SnapshotReplied | src/raft/raft.go:358-383 | Simulates the full-log sender on a stale reply, a higher term and a success. |
| RaftObject.CrashAndRestart | src/raft/raft.go:131-154 | Whenever the lock is free, a restart on a copy of stable storage gives back term, vote, log, snapshot index and snapshot term exactly. |
| Storage.Persister.SaveStateAndSnapshot | src/raft/persister.go:59-64 | State and snapshot are replaced together. |
| Storage.Persister.Copy | src/raft/persister.go:30-37 | A restart reads a separate copy with the same contents. |

## Left out

- Layer 1 is the cluster whose service never calls `Snapshot`. InstallSnapshot with a snapshot above index 0 is only
  a layer-2 operation, and no claim over runs with such snapshots is made.
- Layer 1 allows more than the code in these ways: a timeout at any moment, `appendEntries` for one peer at a time,
  and a reply handled more than once or after a restart.
- RaftObject.Raft.AppendEntries: assumes entries with consecutive indices after PrevLogIndex, which `MessageWellFormed`
  gives for every message sent; the handler itself does not check it.
- RaftObject.Raft.Snapshot: assumes that a committed index is at most one past the last index; beyond that the code
  indexes past the end of its log.
- RaftObject.Raft.InstallSnapShot: assumes that data covers exactly the index it is sent with; `BuildSnapshot` gives
  this for every message sent, and `Snapshot` given that the service's bytes cover the index it passes.
- RaftObject.Raft.CandidateRequestVote: assumes that an election whose `sync.Once` is spent is over; `CandidacyEnds`
  shows that this never changes back.
- Logs are immutable sequences: sharing of the backing array between a log and a message built from it is not modelled.
- Liveness of the cluster, and catch-up on compacted logs: a follower whose snapshot is ahead of the leader's can make
  nextIndex cycle (src/raft/append_entry.go:107-108, 186-190).
- Timers, sleeps, random timeouts and goroutine scheduling; each lock-held block is one atomic step.
- `src/labrpc` and `src/labgob`: the network is a collection of packets, and encoded state is the value it decodes to.
- The order on `applyCh` between a pending command and a snapshot message, sent after the lock is released
  (src/raft/raft.go:313-315, 448-450).
- `CondInstallSnapshot`, `voteNum`, `votedTimer`, `commits`, `truncate`, `slice`, debug printing, and the test harness apart
  from the claim that `checkLogs` checks.
