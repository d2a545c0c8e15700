/** Stable storage (src/raft/persister.go). Encoded state is the value that decoding gives back. */
module Storage {
  import opened RaftLog

  /** What `persistData` encodes. `entries` is the stored log: slot 0, then the entries above the snapshot. */
  datatype Durable = Durable(
    currentTerm: nat, votedFor: int, entries: Log, lastIncludeIndex: nat, lastIncludeTerm: nat)

  datatype State = NoState | Saved(durable: Durable)

  /** The service's snapshot: the last index whose effect it contains, and its bytes. */
  datatype Bytes = NoBytes | Bytes(upTo: nat, payload: seq<int>)

  function Covers(bytes: Bytes): nat {
    if bytes.NoBytes? then 0 else bytes.upTo
  }

  class Persister {
    var raftstate: State
    var snapshot: Bytes

    constructor ()
      ensures raftstate == NoState && snapshot == NoBytes
    {
      raftstate, snapshot := NoState, NoBytes;
    }

    method Copy() returns (ps: Persister)
      ensures fresh(ps) && ps.raftstate == raftstate && ps.snapshot == snapshot
    {
      ps := new Persister();
      ps.raftstate := raftstate;
      ps.snapshot := snapshot;
    }

    method SaveRaftState(state: Durable)
      modifies this
      ensures raftstate == Saved(state) && snapshot == old(snapshot)
    {
      raftstate := Saved(state);
    }

    method ReadRaftState() returns (state: State)
      ensures state == raftstate
    {
      state := raftstate;
    }

    method SaveStateAndSnapshot(state: Durable, bytes: Bytes)
      modifies this
      ensures raftstate == Saved(state) && snapshot == bytes
    {
      raftstate, snapshot := Saved(state), bytes;
    }

    method ReadSnapshot() returns (bytes: Bytes)
      ensures bytes == snapshot
    {
      bytes := snapshot;
    }
  }
}
