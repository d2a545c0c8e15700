/** A log stored at an offset: slot 0 stands for everything up to the snapshot index `base`, slot `k` holds
    the entry of index `base + k`. */
module Compaction {
  import opened RaftLog
  import opened RaftNode
  import opened Cluster
  import opened Invariants

  /** `entries` stores the logical log `full`, compacted up to `base`, whose term is `baseTerm`. */
  ghost predicate Stores(full: seq<Entry>, entries: seq<Entry>, base: nat, baseTerm: nat) {
    && 0 < |entries| && |full| == base + |entries|
    && full[0] == SENTINEL && full[base].term == baseTerm
    && entries[0] == (if base == 0 then SENTINEL else PLACEHOLDER)
    && (forall k :: 1 <= k < |entries| ==> entries[k] == full[base + k])
  }

  /** Dropping the first slots is storing the same log at a higher offset. */
  lemma StoresAt(full: seq<Entry>, entries: seq<Entry>, base: nat, baseTerm: nat, index: nat)
    requires Stores(full, entries, base, baseTerm) && base < index < |full|
    ensures Stores(full, [PLACEHOLDER] + entries[index - base + 1..], index, full[index].term)
  {
  }

  lemma StoresAppended(full: seq<Entry>, entries: seq<Entry>, base: nat, baseTerm: nat, prev: nat, more: seq<Entry>)
    requires Stores(full, entries, base, baseTerm) && base <= prev < |full|
    ensures Stores(full[..prev + 1] + more, entries[..prev + 1 - base] + more, base, baseTerm)
  {
  }

  /** The two last entries accept the same ballots. */
  ghost predicate SameVoteTest(a: Entry, b: Entry) {
    forall args :: UpToDate(args, a) <==> UpToDate(args, b)
  }

  /** The votes of a compacted server: `lastLog` reads slot 0 when nothing is stored above the snapshot.
      The up-to-date test then differs from the test on the logical log, and only then. */
  lemma VoteTestExact(full: seq<Entry>, entries: seq<Entry>, base: nat, baseTerm: nat)
    requires Stores(full, entries, base, baseTerm) && Indexed(full)
    ensures SameVoteTest(entries[|entries| - 1], full[|full| - 1]) <==> (|entries| > 1 || base == 0)
  {
    if |entries| == 1 && base > 0 {
      var args := RequestVoteArgs(0, 0, 0, 0);
      assert UpToDate(args, entries[|entries| - 1]) && !UpToDate(args, full[|full| - 1]);
    }
  }

  /** A log of one entry, compacted up to it: a candidate with an empty log is accepted. */
  lemma VoteTestFails() returns (full: Log, entries: Log)
    ensures Stores(full, entries, 1, 1) && Indexed(full)
    ensures var args := RequestVoteArgs(2, 0, 0, 0);
            UpToDate(args, entries[|entries| - 1]) && !UpToDate(args, full[|full| - 1])
    ensures !SameVoteTest(entries[|entries| - 1], full[|full| - 1])
  {
    full, entries := [SENTINEL, Entry(Value(1), 1, 1)], [PLACEHOLDER];
    VoteTestExact(full, entries, 1, 1);
  }

  // ----- Installing a snapshot ---------------------------------------------------------------------

  /** The logical log after installing a snapshot that stands for `covered`: the code keeps whatever is
      stored above the snapshot index. */
  function Installed(covered: Log, log: Log): Log {
    if |covered| < |log| then covered + log[|covered|..] else covered
  }

  lemma InstalledPrefix(covered: Log, log: Log, i: nat)
    requires |covered| <= i < |log|
    ensures Installed(covered, log)[i] == log[i]
    ensures Installed(covered, log)[|covered| - 1] == covered[|covered| - 1]
  {
  }

  /** Keeping the suffix yields a log of the protocol exactly if the two logs agree on the term at the
      snapshot index, or there is nothing above it to keep. */
  lemma InstalledExact(reigns: map<nat, Reign>, covered: Log, log: Log)
    requires WellFormed(reigns, covered) && WellFormed(reigns, log)
    ensures Coherent(reigns, Installed(covered, log))
            <==> (|log| <= |covered| || log[|covered| - 1].term == covered[|covered| - 1].term)
  {
    var k := |covered| - 1;
    if |covered| < |log| {
      var result := Installed(covered, log);
      if log[k].term == covered[k].term {
        InstalledKeepsLog(reigns, covered, log);
      } else if Coherent(reigns, result) {
        InstalledPrefix(covered, log, k + 1);
        assert Owned(reigns, result, k + 1) && Owned(reigns, log, k + 1);
        AgreeTrans(result, reigns[log[k + 1].term].log, log, k + 2, k + 2);
        AgreeAt(result, log, k + 2, k);
      }
    }
  }

  /** Two logs that elections of two terms can produce: the snapshot stands for an entry of term 1, and the
      receiver has two entries of term 2 from index 1 on. */
  lemma InstalledFails() returns (reigns: map<nat, Reign>, covered: Log, log: Log)
    ensures WellFormed(reigns, covered) && WellFormed(reigns, log)
    ensures |log| > |covered| && log[|covered| - 1].term != covered[|covered| - 1].term
    ensures !Coherent(reigns, Installed(covered, log))
  {
    covered := [SENTINEL, Entry(Value(1), 1, 1)];
    log := [SENTINEL, Entry(Value(2), 2, 1), Entry(Value(3), 2, 2)];
    reigns := map[1 := Reign(0, 1, covered), 2 := Reign(1, 1, log)];
    assert covered[..2] == covered && log[..3] == log;
    assert log[..2] == [SENTINEL, Entry(Value(2), 2, 1)];
    assert Owned(reigns, covered, 1) && Owned(reigns, log, 1) && Owned(reigns, log, 2);
    InstalledExact(reigns, covered, log);
  }

  /** Under term agreement the logical log does not change at all. */
  lemma InstalledKeepsLog(reigns: map<nat, Reign>, covered: Log, log: Log)
    requires WellFormed(reigns, covered) && WellFormed(reigns, log)
    requires |covered| < |log| && log[|covered| - 1].term == covered[|covered| - 1].term
    ensures Installed(covered, log) == log
  {
    CoherentMatch(reigns, covered, log, |covered| - 1);
    assert log == log[..|covered|] + log[|covered|..];
    assert covered == covered[..|covered|];
  }
}
