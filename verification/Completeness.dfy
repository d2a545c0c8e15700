/** Leader completeness: with all three rules on, every leader of a later term holds everything that an
    earlier leader may have committed. The argument never looks at the time of a commit. It follows the
    entries that could still be committed: those that a majority either stored in the term of the entry
    or may yet store, because it has not moved past that term. */
module Completeness {
  import opened RaftLog
  import opened RaftNode
  import opened Cluster
  import opened Invariants
  import opened Preservation
  import opened Events

  // ----- Entries that may be committed -------------------------------------------------------------

  /** `m` is an index that the leader of `t` filled in its own term. */
  ghost predicate Own(s: System, t: nat, m: nat) {
    t in s.reigns && s.reigns[t].start <= m < |s.reigns[t].log|
  }

  ghost predicate MayHold(x: Server, t: nat, m: nat) {
    x.node.currentTerm <= t || Stored(x, t, m + 1)
  }

  ghost function Possible(s: System, t: nat, m: nat): set<nat> {
    set v: nat | v in Ids(|s.servers|) && MayHold(s.servers[v], t, m)
  }

  ghost function Holders(s: System, t: nat, m: nat): set<nat> {
    set v: nat | v in Ids(|s.servers|) && Stored(s.servers[v], t, m + 1)
  }

  /** A majority stored, or may yet store, entry `m` of term `t` in that term. */
  ghost predicate Choosable(s: System, t: nat, m: nat) {
    Own(s, t, m) && Majority(|s.servers|, Possible(s, t, m))
  }

  /** A majority stored entry `m` of term `t` in that term. */
  ghost predicate Chosen(s: System, t: nat, m: nat) {
    Own(s, t, m) && Majority(|s.servers|, Holders(s, t, m))
  }

  lemma ChosenIsChoosable(s: System, t: nat, m: nat)
    requires Chosen(s, t, m)
    ensures Choosable(s, t, m)
  {
    MajorityGrows(|s.servers|, Holders(s, t, m), Possible(s, t, m));
  }

  /** The log of term `t` up to `m` is a prefix of `log`. */
  ghost predicate Covers(s: System, log: seq<Entry>, t: nat, m: nat)
    requires t in s.reigns
  {
    Agree(s.reigns[t].log, log, m + 1)
  }

  // ----- The invariant -----------------------------------------------------------------------------

  /** The leader of `u` was elected with every entry of `t` that may be committed. */
  ghost predicate Complete(s: System, t: nat, u: nat)
    requires t in s.reigns && u in s.reigns
  {
    forall m: nat :: Choosable(s, t, m) ==> m < s.reigns[u].start && Covers(s, s.reigns[u].log, t, m)
  }

  /** In its current term a server's log is what it stored last. */
  ghost predicate InStep(x: Server) {
    x.node.currentTerm in x.stored ==> x.node.log == x.stored[x.node.currentTerm]
  }

  /** A server keeps what it stored in an earlier term, as far as it may be committed. */
  ghost predicate Held(s: System, v: nat, t: nat)
    requires v < |s.servers|
  {
    forall m: nat :: Choosable(s, t, m) && Stored(s.servers[v], t, m + 1) ==> Covers(s, s.servers[v].node.log, t, m)
  }

  /** A candidate has everything that its voters stored and that may be committed. */
  ghost predicate Pledged(s: System, v: nat, c: nat)
    requires v < |s.servers| && c < |s.servers|
  {
    var nd := s.servers[c].node;
    nd.role == Candidate && VotedFor(s.servers[v], nd.currentTerm, c) ==>
      forall t: nat, m: nat :: t < nd.currentTerm && Choosable(s, t, m) && Stored(s.servers[v], t, m + 1) ==>
        Covers(s, nd.log, t, m)
  }

  ghost predicate VoteTerms(s: System, v: nat)
    requires v < |s.servers|
  {
    forall t :: t in s.servers[v].votes ==>
      s.servers[v].votes[t] < |s.servers| && t <= s.servers[s.servers[v].votes[t]].node.currentTerm
  }

  /** Packet `k` is a message of the leader of term `t`. */
  ghost predicate OfTerm(s: System, k: nat, t: nat) {
    k < |s.net| && s.net[k].EntriesRequest? && s.net[k].args.term == t
  }

  ghost predicate SentInOrder(s: System) {
    forall j: nat, k: nat, t: nat :: j <= k && OfTerm(s, j, t) && OfTerm(s, k, t) ==>
      |s.net[j].built| <= |s.net[k].built|
  }

  ghost predicate MarksOk(s: System, x: Server) {
    forall src: nat, t: nat :: (src, t) in x.marks ==>
      OfTerm(s, x.marks[(src, t)], t) && s.net[x.marks[(src, t)]].src == src
  }

  /** A follower has stored no more than the latest message it processed was built from. */
  ghost predicate LinkOk(s: System, x: Server, v: nat, t: nat)
    requires t in s.reigns && MarksOk(s, x)
  {
    var g := s.reigns[t];
    t in x.stored && g.id != v ==>
      (g.id, t) in x.marks && |x.stored[t]| <= |s.net[x.marks[(g.id, t)]].built|
  }

  ghost predicate LinksOk(s: System, v: nat)
    requires v < |s.servers|
  {
    MarksOk(s, s.servers[v]) && forall t :: t in s.reigns ==> LinkOk(s, s.servers[v], v, t)
  }

  /** Every leader of a later term was elected with every entry that may be committed. */
  ghost predicate AllComplete(s: System) {
    forall t, u :: t in s.reigns && u in s.reigns && t < u ==> Complete(s, t, u)
  }

  ghost predicate Safe(s: System)
    requires Shape(s)
  {
    && AllComplete(s)
    && (forall v: nat :: v < |s.servers| ==> InStep(s.servers[v]))
    && (forall v: nat, t: nat :: v < |s.servers| ==> Held(s, v, t))
    && (forall v: nat, c: nat :: v < |s.servers| && c < |s.servers| ==> Pledged(s, v, c))
    && (forall v: nat :: v < |s.servers| ==> VoteTerms(s, v))
    && (forall v: nat :: v < |s.servers| ==> LinksOk(s, v))
    && SentInOrder(s)
  }

  // ----- What one step does to the entries that may be committed -----------------------------------

  lemma OwnBack(s: System, s': System, i: nat, t: nat, m: nat)
    requires i < |s.servers| && Acts(s, s', i) && Own(s', t, m)
    requires t in s.reigns && m < |s.reigns[t].log|
    ensures Own(s, t, m)
  {
    assert ReignGrows(s.reigns[t], s'.reigns[t]);
  }

  /** An existing entry that may be committed after a step could be committed before it. */
  lemma ChoosableBack(s: System, s': System, i: nat, t: nat, m: nat)
    requires i < |s.servers| && Acts(s, s', i) && Choosable(s', t, m)
    requires t in s.reigns && m < |s.reigns[t].log|
    ensures Choosable(s, t, m)
  {
    OwnBack(s, s', i, t, m);
    MajorityGrows(|s.servers|, Possible(s', t, m), Possible(s, t, m));
  }

  /** What is chosen stays chosen. */
  lemma ChosenStays(s: System, s': System, i: nat, t: nat, m: nat)
    requires i < |s.servers| && Acts(s, s', i) && Chosen(s, t, m)
    ensures Chosen(s', t, m)
  {
    assert ReignGrows(s.reigns[t], s'.reigns[t]);
    forall v: nat | v in Holders(s, t, m) ensures v in Holders(s', t, m) {
      StoredStays(s, s', i, v, t, m + 1);
    }
    MajorityGrows(|s.servers|, Holders(s, t, m), Holders(s', t, m));
  }

  /** A stored log of an earlier term does not change. */
  lemma StoredBack(s: System, s': System, i: nat, v: nat, t: nat, n: int)
    requires i < |s.servers| && Acts(s, s', i) && v < |s.servers|
    requires Stored(s'.servers[v], t, n) && t != s'.servers[v].node.currentTerm
    ensures Stored(s.servers[v], t, n)
  {
  }

  lemma CoversGrows(s: System, s': System, log: seq<Entry>, t: nat, m: nat)
    requires t in s.reigns && ReignsGrow(s.reigns, s'.reigns) && Covers(s, log, t, m)
    ensures Covers(s', log, t, m)
  {
    var a, b := s.reigns[t], s'.reigns[t];
    assert ReignGrows(a, b);
    AgreeFewer(a.log, b.log, |a.log|, m + 1);
  }

  /** An entry that is new in this step cannot be committed if a later term already has a leader: the
      voters of that leader are past term `t` and do not hold it. */
  lemma NewEntryTooLate(s: System, s': System, i: nat, t: nat, u: nat, m: nat)
    requires Inv(s) && Inv(s') && i < |s.servers| && Acts(s, s', i)
    requires t in s.reigns && u in s.reigns && t < u && |s.reigns[t].log| <= m
    ensures !Choosable(s', t, m)
  {
    if Choosable(s', t, m) {
      assert ReignOk(s, u);
      var v := MajoritiesMeet(|s.servers|, Possible(s', t, m), Voters(s, u, s.reigns[u].id));
      assert ServerOk(s, v);
      StoredBack(s, s', i, v, t, m + 1);
      assert false;
    }
  }

  // ----- Complete ----------------------------------------------------------------------------------

  lemma OldPairComplete(s: System, s': System, i: nat, t: nat, u: nat)
    requires Inv(s) && Inv(s') && i < |s.servers| && Acts(s, s', i)
    requires t in s.reigns && u in s.reigns && t < u && Complete(s, t, u)
    ensures Complete(s', t, u)
  {
    var a, b := s.reigns[u], s'.reigns[u];
    assert ReignGrows(a, b);
    forall m: nat | Choosable(s', t, m) ensures m < b.start && Covers(s', b.log, t, m) {
      if m < |s.reigns[t].log| {
        ChoosableBack(s, s', i, t, m);
        AgreeTrans(s.reigns[t].log, a.log, b.log, m + 1, |a.log|);
        assert Covers(s, b.log, t, m);
        CoversGrows(s, s', b.log, t, m);
      } else {
        NewEntryTooLate(s, s', i, t, u, m);
      }
    }
  }

  /** A new leader got the vote of a server that holds the entry. */
  lemma NewLeaderComplete(s: System, s': System, i: nat, t: nat, u: nat)
    requires Inv(s) && Inv(s') && i < |s.servers| && Acts(s, s', i)
    requires u !in s.reigns && u in s'.reigns && t in s.reigns && t < u
    requires forall v: nat :: v < |s.servers| ==> Pledged(s, v, i)
    requires SameVotes(s, s')
    ensures Complete(s', t, u)
  {
    assert Crowned(s, s', i, u);
    assert ReignOk(s', u);
    SameVoters(s, s', u, i);
    forall m: nat | Choosable(s', t, m) ensures m < s'.reigns[u].start && Covers(s', s'.reigns[u].log, t, m) {
      assert s.reigns[t].id != i ==> s'.reigns[t] == s.reigns[t];
      OldReignAtElection(s, s', i, t, u);
      ChoosableBack(s, s', i, t, m);
      var v := MajoritiesMeet(|s.servers|, Possible(s, t, m), Voters(s, u, i));
      assert ServerOk(s, v);
      assert Pledged(s, v, i);
      CoversGrows(s, s', s.servers[i].node.log, t, m);
    }
  }

  ghost predicate SameVotes(s: System, s': System) {
    && |s'.servers| == |s.servers|
    && forall v :: 0 <= v < |s.servers| ==> s'.servers[v].votes == s.servers[v].votes
  }

  lemma OldReignAtElection(s: System, s': System, i: nat, t: nat, u: nat)
    requires Inv(s) && Inv(s') && i < |s.servers| && Acts(s, s', i)
    requires u !in s.reigns && u in s'.reigns && t in s.reigns && t < u
    ensures s'.reigns[t] == s.reigns[t]
  {
    assert Crowned(s, s', i, u);
    if s.reigns[t].id == i {
      assert ReignOk(s, t);
      assert ReignGrows(s.reigns[t], s'.reigns[t]);
      assert ReignOk(s', t);
      assert StoredNow(s.servers[i], s'.servers[i], t) || s'.servers[i].stored[t] == s.servers[i].stored[t];
    }
  }

  lemma CompleteKeeps(s: System, s': System, i: nat)
    requires Inv(s) && Inv(s') && i < |s.servers| && Acts(s, s', i) && Safe(s)
    requires s'.reigns.Keys != s.reigns.Keys ==> SameVotes(s, s')
    ensures AllComplete(s')
  {
    forall t, u | t in s'.reigns && u in s'.reigns && t < u ensures Complete(s', t, u) {
      if t in s.reigns && u in s.reigns {
        assert Complete(s, t, u);
        OldPairComplete(s, s', i, t, u);
      } else if t in s.reigns {
        assert u in s'.reigns.Keys && u !in s.reigns.Keys;
        NewLeaderComplete(s, s', i, t, u);
      } else {
        assert Crowned(s, s', i, t);
      }
    }
  }

  // ----- Held --------------------------------------------------------------------------------------

  /** In the current term the log is exactly what was stored. */
  lemma HeldNow(s: System, v: nat)
    requires v < |s.servers| && InStep(s.servers[v]) && StoredOk(s, s.servers[v])
    ensures Held(s, v, s.servers[v].node.currentTerm)
  {
    var x := s.servers[v];
    var t := x.node.currentTerm;
    forall m: nat | Choosable(s, t, m) && Stored(x, t, m + 1) ensures Covers(s, x.node.log, t, m) {
      AgreeFewer(x.stored[t], s.reigns[t].log, |x.stored[t]|, m + 1);
    }
  }

  /** A log that follows the leader of the current term holds what that leader was elected with. */
  lemma HeldByFollowing(s: System, v: nat, t: nat)
    requires v < |s.servers| && Follows(s, s.servers[v]) && t < s.servers[v].node.currentTerm
    requires t in s.reigns ==> Complete(s, t, s.servers[v].node.currentTerm)
    ensures Held(s, v, t)
  {
    var x := s.servers[v];
    var g := s.reigns[x.node.currentTerm];
    forall m: nat | Choosable(s, t, m) && Stored(x, t, m + 1) ensures Covers(s, x.node.log, t, m) {
      AgreeTrans(s.reigns[t].log, g.log, x.node.log, m + 1, |x.node.log|);
    }
  }

  lemma HeldStill(s: System, s': System, i: nat, v: nat, t: nat)
    requires Inv(s) && i < |s.servers| && Acts(s, s', i) && v < |s.servers|
    requires s'.servers[v].node.log == s.servers[v].node.log && t != s'.servers[v].node.currentTerm
    requires Held(s, v, t)
    ensures Held(s', v, t)
  {
    var x, x' := s.servers[v], s'.servers[v];
    forall m: nat | Choosable(s', t, m) && Stored(x', t, m + 1) ensures Covers(s', x'.node.log, t, m) {
      StoredBack(s, s', i, v, t, m + 1);
      assert ServerOk(s, v);
      ChoosableBack(s, s', i, t, m);
      CoversGrows(s, s', x.node.log, t, m);
    }
  }

  lemma HeldKeeps(s: System, s': System, i: nat, v: nat, t: nat)
    requires Inv(s) && Inv(s') && i < |s.servers| && Acts(s, s', i) && v < |s.servers|
    requires Held(s, v, t) && InStep(s'.servers[v])
    requires AllComplete(s')
    ensures Held(s', v, t)
  {
    assert ServerOk(s', v);
    var now := s'.servers[v].node.currentTerm;
    if t == now {
      HeldNow(s', v);
    } else if s'.servers[v].node.log == s.servers[v].node.log {
      HeldStill(s, s', i, v, t);
    } else if t < now {
      HeldByFollowing(s', v, t);
    }
  }

  /** Every earlier leader's entries are in every later leader's log; every server keeps what it stored. */
  ghost predicate Kept(s: System) {
    && AllComplete(s)
    && (forall v: nat, t: nat :: v < |s.servers| ==> Held(s, v, t))
  }

  lemma KeptKeeps(s: System, s': System, i: nat)
    requires Inv(s) && Inv(s') && i < |s.servers| && Acts(s, s', i) && Safe(s)
    requires s'.reigns.Keys != s.reigns.Keys ==> SameVotes(s, s')
    requires InStep(s'.servers[i])
    ensures Kept(s')
  {
    CompleteKeeps(s, s', i);
    forall v: nat, t: nat | v < |s'.servers| ensures Held(s', v, t) {
      assert Held(s, v, t) && InStep(s.servers[v]);
      HeldKeeps(s, s', i, v, t);
    }
  }

  // ----- Votes -------------------------------------------------------------------------------------

  /** A log at least as up to date as one that covers a committable entry covers it too: its last entry
      belongs to a leader of the same or of a later term. */
  lemma UpToDateCovers(s: System, t: nat, m: nat, voter: Log, cand: Log)
    requires WellFormed(s.reigns, voter) && WellFormed(s.reigns, cand)
    requires Choosable(s, t, m) && Covers(s, voter, t, m) && ReignOk(s, t)
    requires Last(cand).term > Last(voter).term
             || (Last(cand).term == Last(voter).term && |cand| >= |voter|)
    requires Last(cand).term in s.reigns && Last(cand).term > t ==>
               Complete(s, t, Last(cand).term) && ReignOk(s, Last(cand).term)
    ensures Covers(s, cand, t, m)
  {
    AgreeAt(s.reigns[t].log, voter, m + 1, m);
    LastIsGreatest(voter, m);
    var u := Last(cand).term;
    assert Owned(s.reigns, cand, |cand| - 1);
    if u == Last(voter).term {
      assert Owned(s.reigns, voter, |voter| - 1);
      AgreeTrans(voter, s.reigns[u].log, cand, |voter|, |cand|);
      AgreeTrans(s.reigns[t].log, voter, cand, m + 1, |voter|);
    } else {
      var g := s.reigns[u];
      AgreeAt(cand, g.log, |cand|, |cand| - 1);
      AgreeTrans(s.reigns[t].log, g.log, cand, m + 1, |cand|);
    }
  }

  /** Whoever votes for an up-to-date candidate keeps the pledge. */
  lemma GrantPledges(s: System, v: nat, c: nat)
    requires Inv(s) && Kept(s) && v < |s.servers| && c < |s.servers|
    requires var a, b := s.servers[c].node.log, s.servers[v].node.log;
             Last(a).term > Last(b).term || (Last(a).term == Last(b).term && |a| >= |b|)
    ensures Pledged(s, v, c)
  {
    var nd := s.servers[c].node;
    assert ServerOk(s, c) && ServerOk(s, v);
    forall t: nat, m: nat | t < nd.currentTerm && Choosable(s, t, m) && Stored(s.servers[v], t, m + 1)
      ensures Covers(s, nd.log, t, m)
    {
      assert Held(s, v, t) && ReignOk(s, t);
      assert Last(nd.log).term in s.reigns ==> ReignOk(s, Last(nd.log).term);
      UpToDateCovers(s, t, m, s.servers[v].node.log, nd.log);
    }
  }

  lemma OldPledge(s: System, s': System, i: nat, v: nat, c: nat)
    requires Inv(s) && Inv(s') && i < |s.servers| && Acts(s, s', i) && v < |s.servers| && c < |s.servers|
    requires Pledged(s, v, c) && s.servers[c].node.role == Candidate
    requires VotedFor(s.servers[v], s.servers[c].node.currentTerm, c)
    requires s'.servers[c].node.currentTerm == s.servers[c].node.currentTerm
    requires s'.servers[c].node.log == s.servers[c].node.log
    ensures Pledged(s', v, c)
  {
    var nd := s'.servers[c].node;
    assert ServerOk(s, v);
    forall t: nat, m: nat | t < nd.currentTerm && Choosable(s', t, m) && Stored(s'.servers[v], t, m + 1)
      ensures Covers(s', nd.log, t, m)
    {
      StoredBack(s, s', i, v, t, m + 1);
      ChoosableBack(s, s', i, t, m);
      CoversGrows(s, s', nd.log, t, m);
    }
  }

  ghost predicate NewVote(s: System, s': System, i: nat, c: nat)
    requires i < |s.servers| && |s'.servers| == |s.servers| && c < |s.servers|
  {
    var nd := s'.servers[c].node;
    && nd.role == Candidate
    && VotedFor(s'.servers[i], nd.currentTerm, c) && !VotedFor(s.servers[i], nd.currentTerm, c)
  }

  /** The votes that server `i` has newly cast for others are pledged. */
  ghost predicate NewVotesPledged(s: System, s': System, i: nat)
    requires i < |s.servers| && |s'.servers| == |s.servers|
  {
    forall c: nat :: c < |s.servers| && c != i && NewVote(s, s', i, c) ==> Pledged(s', i, c)
  }

  /** A candidate's own vote pledges what it holds itself. */
  lemma OwnPledge(s: System, c: nat)
    requires c < |s.servers| && Kept(s)
    ensures Pledged(s, c, c)
  {
    hide AllComplete;
    var nd := s.servers[c].node;
    forall t: nat, m: nat | t < nd.currentTerm && Choosable(s, t, m) && Stored(s.servers[c], t, m + 1)
      ensures Covers(s, nd.log, t, m)
    {
      assert Held(s, c, t);
    }
  }

  /** A candidate with an old vote for its term has been that candidate all along. */
  lemma StillCandidate(s: System, s': System, i: nat, v: nat, c: nat)
    requires i < |s.servers| && Acts(s, s', i) && v < |s.servers| && c < |s.servers| && VoteTerms(s, v)
    requires var b := s'.servers[c].node; b.role == Candidate && VotedFor(s.servers[v], b.currentTerm, c)
    ensures var a, b := s.servers[c].node, s'.servers[c].node;
            a.role == Candidate && b.currentTerm == a.currentTerm && b.log == a.log
  {
  }

  lemma NewVoter(s: System, s': System, i: nat, v: nat, t: nat, c: nat)
    requires i < |s.servers| && Acts(s, s', i) && v < |s.servers|
    requires VotedFor(s'.servers[v], t, c) && !VotedFor(s.servers[v], t, c)
    ensures v == i
  {
  }

  lemma PledgedKeeps(s: System, s': System, i: nat, v: nat, c: nat)
    requires Inv(s) && Inv(s') && i < |s.servers| && Acts(s, s', i) && v < |s.servers| && c < |s.servers|
    requires Safe(s) && Kept(s') && NewVotesPledged(s, s', i)
    ensures Pledged(s', v, c)
  {
    hide ReignOk, PacketOk, ServerOk, LinksOk, Kept, Held, AllComplete, SentInOrder, VoteTerms, InStep;
    var b := s'.servers[c].node;
    if b.role == Candidate && VotedFor(s'.servers[v], b.currentTerm, c) {
      if v == c {
        OwnPledge(s', c);
      } else if VotedFor(s.servers[v], b.currentTerm, c) {
        assert Pledged(s, v, c) && VoteTerms(s, v);
        StillCandidate(s, s', i, v, c);
        OldPledge(s, s', i, v, c);
      } else {
        NewVoter(s, s', i, v, b.currentTerm, c);
        assert NewVote(s, s', i, c);
      }
    }
  }

  // ----- Putting it together -----------------------------------------------------------------------

  lemma InStepKeeps(s: System, s': System, i: nat)
    requires Inv(s) && Inv(s') && i < |s.servers| && Acts(s, s', i) && InStep(s.servers[i])
    requires s'.servers[i].node.role == Leader
             || (s'.servers[i].stored == s.servers[i].stored && s'.servers[i].node.log == s.servers[i].node.log)
    ensures InStep(s'.servers[i])
  {
    assert ServerOk(s, i) && ServerOk(s', i);
  }

  lemma OtherLinks(s: System, s': System, i: nat, v: nat)
    requires Inv(s) && i < |s.servers| && Acts(s, s', i) && v < |s.servers| && LinksOk(s, v)
    requires s'.servers[v].marks == s.servers[v].marks
    requires forall t :: t in s'.servers[v].stored && t in s'.reigns && s'.reigns[t].id != v ==>
               t in s.servers[v].stored && s'.servers[v].stored[t] == s.servers[v].stored[t]
    ensures LinksOk(s', v)
  {
    var x := s'.servers[v];
    assert ServerOk(s, v);
    assert MarksOk(s', x);
    forall t | t in s'.reigns ensures LinkOk(s', x, v, t) {
      if t in s.reigns {
        assert ReignGrows(s.reigns[t], s'.reigns[t]);
        assert LinkOk(s, s.servers[v], v, t);
      }
    }
  }

  /** A newly sent message is built from the whole log of its leader. */
  ghost predicate NewestIsLongest(s: System, s': System) {
    && |s'.net| <= |s.net| + 1
    && (|s'.net| == |s.net| + 1 && s'.net[|s.net|].EntriesRequest? ==>
          (var p := s'.net[|s.net|];
           p.args.term in s.reigns && |p.built| == |s.reigns[p.args.term].log|))
  }

  lemma SentBound(s: System, j: nat, t: nat)
    requires Inv(s) && OfTerm(s, j, t)
    ensures t in s.reigns && |s.net[j].built| <= |s.reigns[t].log|
  {
    assert PacketOk(s, s.net[j]);
  }

  lemma SentInOrderKeeps(s: System, s': System, i: nat)
    requires i < |s.servers| && Acts(s, s', i) && SentInOrder(s) && NewestIsLongest(s, s')
    requires forall j: nat, t: nat :: OfTerm(s, j, t) ==> t in s.reigns && |s.net[j].built| <= |s.reigns[t].log|
    ensures SentInOrder(s')
  {
    forall j: nat, k: nat, t: nat | j <= k && OfTerm(s', j, t) && OfTerm(s', k, t)
      ensures |s'.net[j].built| <= |s'.net[k].built|
    {
      if j < |s.net| {
        assert OfTerm(s, j, t);
      }
      if k < |s.net| {
        assert OfTerm(s, k, t);
      }
    }
  }

  lemma VoteTermsKeep(s: System, s': System, i: nat, v: nat)
    requires i < |s.servers| && Acts(s, s', i) && v < |s.servers| && VoteTerms(s, v)
    requires s'.servers[v].votes == s.servers[v].votes
    ensures VoteTerms(s', v)
  {
  }

  lemma SafeKeeps(s: System, s': System, i: nat)
    requires Inv(s) && Inv(s') && i < |s.servers| && Acts(s, s', i) && Safe(s) && Kept(s')
    requires InStep(s'.servers[i]) && NewVotesPledged(s, s', i) && VoteTerms(s', i)
    requires LinksOk(s', i) && NewestIsLongest(s, s')
    ensures Safe(s')
  {
    forall v: nat, c: nat | v < |s'.servers| && c < |s'.servers| ensures Pledged(s', v, c) {
      PledgedKeeps(s, s', i, v, c);
    }
    forall v: nat | v < |s'.servers| ensures VoteTerms(s', v) && LinksOk(s', v) && InStep(s'.servers[v]) {
      if v != i {
        assert VoteTerms(s, v) && LinksOk(s, v) && InStep(s.servers[v]);
        VoteTermsKeep(s, s', i, v);
        OtherLinks(s, s', i, v);
      }
    }
    forall j: nat, t: nat | OfTerm(s, j, t) ensures t in s.reigns && |s.net[j].built| <= |s.reigns[t].log| {
      SentBound(s, j, t);
    }
    SentInOrderKeeps(s, s', i);
  }
}
