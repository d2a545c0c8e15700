/** The replicated log (src/raft/log.go) and the facts about prefixes that every proof uses. */
module RaftLog {

  /** A client command. `Nil` is the command of a zero `Entry{}`, the slot left behind by a snapshot. */
  datatype Command = Nil | Value(v: int)

  datatype Entry = Entry(command: Command, term: nat, index: nat)

  /** The empty entry that `Make` puts at index 0. */
  const SENTINEL := Entry(Value(-1), 0, 0)

  /** The zero entry that `Snapshot` and `InstallSnapShot` put in slot 0. */
  const PLACEHOLDER := Entry(Nil, 0, 0)

  /** A log always has a slot 0. */
  type Log = l: seq<Entry> | 0 < |l| witness [SENTINEL]

  function LastIndex(log: Log): nat {
    |log| - 1
  }

  function Last(log: Log): Entry {
    log[|log| - 1]
  }

  /** Terms never decrease along the log. */
  ghost predicate Sorted(log: seq<Entry>) {
    forall i, j :: 0 <= i < j < |log| ==> log[i].term <= log[j].term
  }

  /** Every entry carries its own position. */
  ghost predicate Indexed(log: seq<Entry>) {
    forall i :: 0 <= i < |log| ==> log[i].index == i
  }

  /** The two logs have their first `n` entries and agree on them. */
  ghost predicate Agree(a: seq<Entry>, b: seq<Entry>, n: int) {
    0 <= n <= |a| && n <= |b| && a[..n] == b[..n]
  }

  lemma AgreeAt(a: seq<Entry>, b: seq<Entry>, n: int, i: int)
    requires Agree(a, b, n) && 0 <= i < n
    ensures a[i] == b[i]
  {
    assert a[..n][i] == b[..n][i];
  }

  lemma AgreeFewer(a: seq<Entry>, b: seq<Entry>, n: int, m: int)
    requires Agree(a, b, n) && 0 <= m <= n
    ensures Agree(a, b, m)
  {
    assert a[..m] == a[..n][..m];
    assert b[..m] == b[..n][..m];
  }

  lemma AgreeTrans(a: seq<Entry>, b: seq<Entry>, c: seq<Entry>, n: int, m: int)
    requires Agree(a, b, n) && Agree(b, c, m)
    ensures n <= m ==> Agree(a, c, n)
    ensures m <= n ==> Agree(a, c, m)
  {
    if n <= m {
      AgreeFewer(b, c, m, n);
    } else {
      AgreeFewer(a, b, n, m);
    }
  }

  /** A shared entry term by term: what is sorted and agrees up to `n` is sorted there. */
  lemma AgreeSorted(a: seq<Entry>, b: seq<Entry>)
    requires Agree(a, b, |a|) && Sorted(b)
    ensures Sorted(a)
  {
    forall i, j | 0 <= i < j < |a| ensures a[i].term <= a[j].term {
      AgreeAt(a, b, |a|, i);
      AgreeAt(a, b, |a|, j);
    }
  }

  lemma AgreeIndexed(a: seq<Entry>, b: seq<Entry>)
    requires Agree(a, b, |a|) && Indexed(b)
    ensures Indexed(a)
  {
    forall i | 0 <= i < |a| ensures a[i].index == i {
      AgreeAt(a, b, |a|, i);
    }
  }
}
