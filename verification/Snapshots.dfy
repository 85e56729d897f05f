/** What a tick reads: every readable row in the given statuses, once. */
module Snapshots {
  import opened Lifecycle
  import opened Reachability
  import opened Runs
  import opened Storage

  predicate ReadableIn(s: State, statuses: set<Status>, id: ProposalId) {
    id in s.rows && s.rows[id].proposal.status in statuses && Readable(s.rows[id])
  }

  /** Each entry is a readable row as it stands, none twice. */
  ghost predicate IsSnapshot(s: State, statuses: set<Status>, ps: seq<Proposal>) {
    && (forall i :: 0 <= i < |ps| ==> ReadableIn(s, statuses, ps[i].id) && HoldsRow(s, ps[i]))
    && (forall i, j :: 0 <= i < j < |ps| ==> ps[i].id != ps[j].id)
  }

  function SnapshotBelow(s: State, statuses: set<Status>, n: nat): seq<Proposal> {
    DecodeRows(RowsInStatus(s, statuses, n))
  }

  lemma SnapshotGrows(s: State, statuses: set<Status>, n: nat)
    ensures SnapshotBelow(s, statuses, n + 1) ==
            SnapshotBelow(s, statuses, n) + if ReadableIn(s, statuses, n) then [s.rows[n].proposal] else []
  {
    var rows := RowsInStatus(s, statuses, n);
    assert rows + [] == rows && DecodeRows(rows) + [] == DecodeRows(rows);
    if n in s.rows && s.rows[n].proposal.status in statuses {
      DecodeAppend(rows, s.rows[n]);
    }
  }

  ghost predicate SnapshotUpTo(s: State, statuses: set<Status>, ps: seq<Proposal>, n: nat) {
    IsSnapshot(s, statuses, ps) && forall i :: 0 <= i < |ps| ==> ps[i].id < n
  }

  lemma OneMoreRow(s: State, statuses: set<Status>, ps: seq<Proposal>, n: nat)
    requires SnapshotUpTo(s, statuses, ps, n) && (n in s.rows ==> s.rows[n].proposal.id == n)
    ensures SnapshotUpTo(s, statuses, ps + if ReadableIn(s, statuses, n) then [s.rows[n].proposal] else [], n + 1)
  {
  }

  lemma {:induction false} BelowIsSnapshot(s: State, statuses: set<Status>, n: nat)
    requires forall id :: id in s.rows ==> s.rows[id].proposal.id == id
    ensures SnapshotUpTo(s, statuses, SnapshotBelow(s, statuses, n), n)
  {
    if n > 0 {
      BelowIsSnapshot(s, statuses, n - 1);
      SnapshotGrows(s, statuses, n - 1);
      OneMoreRow(s, statuses, SnapshotBelow(s, statuses, n - 1), n - 1);
    }
  }

  lemma InExtended(ps: seq<Proposal>, more: seq<Proposal>, p: Proposal)
    requires p in ps || more == [p]
    ensures p in ps + more
  {
  }

  lemma {:induction false} BelowMisses(s: State, statuses: set<Status>, n: nat, id: ProposalId)
    requires id < n && ReadableIn(s, statuses, id)
    ensures s.rows[id].proposal in SnapshotBelow(s, statuses, n)
  {
    var more := if ReadableIn(s, statuses, n - 1) then [s.rows[n - 1].proposal] else [];
    SnapshotGrows(s, statuses, n - 1);
    if id < n - 1 {
      BelowMisses(s, statuses, n - 1, id);
    }
    InExtended(SnapshotBelow(s, statuses, n - 1), more, s.rows[id].proposal);
  }

  /** A snapshot holds exactly the readable rows in its statuses, each once and as it stands. */
  lemma SnapshotExact(s: State, statuses: set<Status>)
    requires Inv(s)
    ensures IsSnapshot(s, statuses, SnapshotByStatuses(s, statuses))
    ensures forall id :: id in s.rows ==>
              (s.rows[id].proposal in SnapshotByStatuses(s, statuses) <==> ReadableIn(s, statuses, id))
  {
    assert forall id :: id in s.rows ==> RowOk(s, id);
    BelowIsSnapshot(s, statuses, s.nextId);
    forall id | id in s.rows
      ensures s.rows[id].proposal in SnapshotByStatuses(s, statuses) <==> ReadableIn(s, statuses, id)
    {
      assert RowOk(s, id);
      if ReadableIn(s, statuses, id) {
        BelowMisses(s, statuses, s.nextId, id);
      }
    }
  }
}
