/**
 The proposal store: the tables and the audit channel as fields, each
 operation a method that writes them in place. Every method is proved against
 the step it stands for.
 */
module Storage {
  import opened Lifecycle
  import opened Orders
  import opened Uint256
  import opened Wrappers

  datatype StoreError =
    | NotFound(id: ProposalId)
    | NotOwner(id: ProposalId, caller: Address)
    | StaleTransition(id: ProposalId, actual: Status)
    | CorruptRow
    | Database

  datatype OutcomeEffect = Applied(from: Status, to: Status) | Ignored(from: Status)

  /** Why a write conditioned on a snapshot's status failed. */
  function StaleOrMissing(s: State, id: ProposalId): StoreError {
    if id in s.rows then StaleTransition(id, s.rows[id].proposal.status) else NotFound(id)
  }

  // -------------------------------------------------------------------------
  // Reads
  // -------------------------------------------------------------------------

  predicate ActiveFor(s: State, uids: seq<OrderUid>, id: ProposalId) {
    && id in s.rows && s.rows[id].proposal.status.Active?
    && s.rows[id].proposal.body.orderUid in uids
  }

  /** The active rows of the given orders, in id order, below id `n`. */
  function ActiveRows(s: State, uids: seq<OrderUid>, n: nat): seq<Row> {
    if n == 0 then []
    else ActiveRows(s, uids, n - 1) + if ActiveFor(s, uids, n - 1) then [s.rows[n - 1]] else []
  }

  function RowsInStatus(s: State, statuses: set<Status>, n: nat): seq<Row> {
    if n == 0 then []
    else
      RowsInStatus(s, statuses, n - 1) +
      if n - 1 in s.rows && s.rows[n - 1].proposal.status in statuses then [s.rows[n - 1]] else []
  }

  predicate Readable(row: Row) {
    row.keysReadable && row.bodyReadable
  }

  /** Decode a batch, dropping the rows that cannot be read. */
  function DecodeRows(rows: seq<Row>): seq<Proposal> {
    if rows == [] then []
    else
      DecodeRows(rows[..|rows| - 1]) +
      if Readable(rows[|rows| - 1]) then [rows[|rows| - 1].proposal] else []
  }

  /** The per-order read. */
  function ListByOrderUid(s: State, uid: OrderUid): seq<Proposal> {
    DecodeRows(ActiveRows(s, [uid], s.nextId))
  }

  function SnapshotByStatuses(s: State, statuses: set<Status>): seq<Proposal> {
    DecodeRows(RowsInStatus(s, statuses, s.nextId))
  }

  /** The solution ids among `ids` that the auction attributes to the proposal. */
  function Matches(s: State, auction: int, ids: seq<nat>, id: ProposalId): set<nat> {
    set n | n in ids && (auction, n) in s.solutions && s.solutions[(auction, n)] == id
  }

  /** The attributed rows below id `n`, in id order, once for each solution that names them. */
  function JoinedRows(s: State, auction: int, ids: seq<nat>, n: nat): seq<Row> {
    if n == 0 then []
    else
      JoinedRows(s, auction, ids, n - 1) +
      if n - 1 in s.rows
      then seq(|Matches(s, auction, ids, n - 1)|, _ => s.rows[n - 1])
      else []
  }

  /** The proposals that a notification's solution ids point at. */
  function SolutionProposals(s: State, auction: int, ids: seq<nat>): seq<Proposal> {
    DecodeRows(JoinedRows(s, auction, ids, s.nextId))
  }

  /** The charges not yet debited, in queue order, below position `n`. */
  function PendingPenalties(s: State, n: nat): seq<PendingPenalty>
    requires n <= |s.penalties|
  {
    if n == 0 then []
    else
      var row := s.penalties[n - 1];
      PendingPenalties(s, n - 1) +
      if row.tx.None? then [PendingPenalty(n - 1, row.proposalId, row.subSolver, row.orderUid)] else []
  }

  /** The rows of one batch read that belong to one order. */
  function RowsOf(rows: seq<Row>, uid: OrderUid): seq<Row> {
    if rows == [] then []
    else
      RowsOf(rows[..|rows| - 1], uid) +
      if rows[|rows| - 1].proposal.body.orderUid == uid then [rows[|rows| - 1]] else []
  }

  lemma RowsOfAppend(rows: seq<Row>, row: Row, uid: OrderUid)
    ensures RowsOf(rows + [row], uid) ==
            RowsOf(rows, uid) + if row.proposal.body.orderUid == uid then [row] else []
  {
    assert (rows + [row])[..|rows|] == rows;
  }

  lemma DecodeAppend(rows: seq<Row>, row: Row)
    ensures DecodeRows(rows + [row]) ==
            DecodeRows(rows) + if Readable(row) then [row.proposal] else []
  {
    assert (rows + [row])[..|rows|] == rows;
  }

  lemma DecodedAppend(rows: seq<Row>, row: Row, uid: OrderUid)
    ensures DecodeRows(RowsOf(rows + [row], uid)) ==
            DecodeRows(RowsOf(rows, uid)) +
            if row.proposal.body.orderUid == uid && Readable(row) then [row.proposal] else []
  {
    RowsOfAppend(rows, row, uid);
    if row.proposal.body.orderUid == uid {
      DecodeAppend(RowsOf(rows, uid), row);
    } else {
      assert RowsOf(rows, uid) + [] == RowsOf(rows, uid);
    }
  }

  lemma ActiveRowsGrow(s: State, uids: seq<OrderUid>, n: nat)
    ensures ActiveRows(s, uids, n + 1) ==
            ActiveRows(s, uids, n) +
            if ActiveFor(s, uids, n) then [s.rows[n]] else []
  {
  }

  /** Within a batch, one order's rows are exactly what its own query would select. */
  lemma {:induction false} BatchHoldsEachOrder(s: State, uids: seq<OrderUid>, uid: OrderUid, n: nat)
    ensures RowsOf(ActiveRows(s, uids, n), uid) == if uid in uids then ActiveRows(s, [uid], n) else []
  {
    if n > 0 {
      BatchHoldsEachOrder(s, uids, uid, n - 1);
      ActiveRowsGrow(s, uids, n - 1);
      ActiveRowsGrow(s, [uid], n - 1);
      if ActiveFor(s, uids, n - 1) {
        RowsOfAppend(ActiveRows(s, uids, n - 1), s.rows[n - 1], uid);
      } else {
        assert ActiveRows(s, uids, n - 1) + [] == ActiveRows(s, uids, n - 1);
      }
    }
  }

  /** An entry for each order with a readable row, holding that order's readable rows. */
  ghost predicate GroupsRows(grouped: map<OrderUid, seq<Proposal>>, rows: seq<Row>) {
    forall uid :: if uid in grouped then grouped[uid] == DecodeRows(RowsOf(rows, uid)) != []
                  else DecodeRows(RowsOf(rows, uid)) == []
  }

  /** One more row put under its order, unless it cannot be read. */
  function Grouped(grouped: map<OrderUid, seq<Proposal>>, row: Row): map<OrderUid, seq<Proposal>> {
    var uid := row.proposal.body.orderUid;
    if Readable(row)
    then grouped[uid := (if uid in grouped then grouped[uid] else []) + [row.proposal]]
    else grouped
  }

  lemma GroupsRowsAppend(grouped: map<OrderUid, seq<Proposal>>, rows: seq<Row>, row: Row)
    requires GroupsRows(grouped, rows)
    ensures GroupsRows(Grouped(grouped, row), rows + [row])
  {
    forall uid: OrderUid {
      DecodedAppend(rows, row, uid);
    }
  }

  /** A grouped batch has each requested order's own read, where that is not empty. */
  lemma GroupedIsPerOrder(s: State, uids: seq<OrderUid>, grouped: map<OrderUid, seq<Proposal>>)
    requires GroupsRows(grouped, ActiveRows(s, uids, s.nextId))
    ensures forall uid :: uid in grouped <==> uid in uids && ListByOrderUid(s, uid) != []
    ensures forall uid :: uid in grouped ==> grouped[uid] == ListByOrderUid(s, uid)
  {
    forall uid: OrderUid
      ensures uid in grouped <==> uid in uids && ListByOrderUid(s, uid) != []
      ensures uid in grouped ==> grouped[uid] == ListByOrderUid(s, uid)
    {
      BatchHoldsEachOrder(s, uids, uid, s.nextId);
    }
  }

  lemma SweptCount(s: State, age: nat)
    ensures |s.rows| == |SweepDropped(s, age).rows| + |set id | id in s.rows && IsSwept(s, id, age)|
  {
    var gone := set id | id in s.rows && IsSwept(s, id, age);
    var kept := SweepDropped(s, age).rows;
    assert s.rows.Keys == kept.Keys + gone;
    assert |s.rows| == |s.rows.Keys| && |kept| == |kept.Keys|;
  }

  // -------------------------------------------------------------------------
  // The store
  // -------------------------------------------------------------------------

  class ProposalStore {
    var rows: map<ProposalId, Row>
    var nextId: ProposalId
    var penalties: seq<PenaltyRow>
    var solutions: map<(int, nat), ProposalId>
    var log: seq<Event>
    var clock: nat

    function Contents(): State
      reads this
    {
      State(rows, nextId, penalties, solutions, log, clock)
    }

    /** Ids come from the sequence, so none is ahead of it. */
    predicate Valid()
      reads this
    {
      forall id :: id in rows ==> id < nextId
    }

    constructor ()
      ensures Valid() && Contents() == EMPTY
    {
      rows, nextId, penalties, solutions, log, clock := map[], 1, [], map[], [], 0;
    }

    method EmitEvent(e: Event)
      modifies this`log
      ensures Contents() == Emit(old(Contents()), e)
    {
      log := log + [e];
    }

    method InsertProposal(p: Proposal) returns (id: ProposalId)
      requires Valid()
      modifies this
      ensures Valid() && Contents() == Insert(old(Contents()), p)
      ensures id == old(nextId) && id !in old(rows) && rows[id].proposal == p.(id := id)
    {
      id := nextId;
      nextId := nextId + 1;
      var stored := p.(id := id);
      rows := rows[id := Row(stored, clock, true, true)];
      EmitEvent(ReceivedEvent(id, stored));
    }

    method TransitionTo(p: Proposal, to: Status) returns (r: Result<(), StoreError>)
      requires Valid()
      modifies this
      ensures Valid() && Contents() == Transition(old(Contents()), p, to)
      ensures r == if StillAt(old(Contents()), p) then Ok(()) else Err(StaleOrMissing(old(Contents()), p.id))
    {
      if p.id !in rows || rows[p.id].proposal.status != p.status {
        return Err(StaleOrMissing(Contents(), p.id));
      }
      rows := rows[p.id := rows[p.id].(proposal := rows[p.id].proposal.(status := to), changedAt := clock)];
      EmitEvent(StatusChangedEvent(p.id, p.body.subSolver, p.body.orderUid, p.status, to, None, None));
      r := Ok(());
    }

    method RecordRevertDebit(p: Proposal, amount: U256, tx: Hash) returns (r: Result<(), StoreError>)
      requires Valid()
      modifies this
      ensures Valid() && Contents() == RecordPenalty(old(Contents()), p, amount, tx)
      ensures r == if StillAt(old(Contents()), p) then Ok(()) else Err(StaleOrMissing(old(Contents()), p.id))
    {
      if p.id !in rows || rows[p.id].proposal.status != p.status {
        return Err(StaleOrMissing(Contents(), p.id));
      }
      var penalized := rows[p.id].proposal.(status := Penalized, penaltyTx := Some(tx));
      rows := rows[p.id := rows[p.id].(proposal := penalized, changedAt := clock)];
      EmitEvent(PenalizedEvent(p.id, p.body.subSolver, p.body.orderUid, amount, p.settlementTx, tx));
      r := Ok(());
    }

    method Resolve(id: ProposalId, verdict: Verdict) returns (r: Result<Status, StoreError>)
      requires Valid()
      modifies this
      ensures Valid() && Contents() == ResolveVerdict(old(Contents()), id, verdict)
      ensures r.Ok? <==> id in old(rows) && old(rows)[id].keysReadable && old(rows)[id].proposal.status.IsLive()
      ensures r.Ok? ==> r.value == VerdictStatus(verdict) == rows[id].proposal.status
      ensures r.Err? ==> r.error == if id in old(rows) && !old(rows)[id].keysReadable then CorruptRow
                                    else StaleOrMissing(old(Contents()), id)
    {
      if id !in rows {
        return Err(NotFound(id));
      }
      var row := rows[id];
      if !row.keysReadable {
        return Err(CorruptRow);
      }
      var from := row.proposal.status;
      if !from.IsLive() {
        return Err(StaleTransition(id, from));
      }
      var p := row.proposal;
      var reason: Option<RejectionReason> := None;
      var to := Active;
      match verdict {
        case Accept(sim) =>
          if sim.Some? {
            p := p.(gasUsed := Some(sim.value.gasUsed), trampoline := Some(sim.value.trampoline),
                    sellToken := sim.value.sellToken, buyToken := sim.value.buyToken);
          }
        case Reject(why) =>
          to, reason := Rejected, Some(why);
        case FailSimulation =>
          to := SimFailed;
      }
      p := p.(status := to, rejection := reason);
      rows := rows[id := row.(proposal := p, changedAt := if from == to then row.changedAt else clock)];
      if from != to {
        EmitEvent(StatusChangedEvent(id, p.body.subSolver, p.body.orderUid, from, to, reason, None));
      }
      r := Ok(to);
    }

    method CancelProposal(id: ProposalId, caller: Address) returns (r: Result<(), StoreError>)
      requires Valid()
      modifies this
      ensures Valid() && Contents() == Cancel(old(Contents()), id, caller)
      ensures r.Ok? <==>
              && id in old(rows) && old(rows)[id].keysReadable
              && old(rows)[id].proposal.body.subSolver == caller
              && old(rows)[id].proposal.status.IsLive()
      ensures r.Err? ==>
              r.error == if id !in old(rows) then NotFound(id)
                         else if !old(rows)[id].keysReadable then CorruptRow
                         else if old(rows)[id].proposal.body.subSolver != caller then NotOwner(id, caller)
                         else StaleTransition(id, old(rows)[id].proposal.status)
    {
      if id !in rows {
        return Err(NotFound(id));
      }
      var row := rows[id];
      if !row.keysReadable {
        return Err(CorruptRow);
      }
      if row.proposal.body.subSolver != caller {
        return Err(NotOwner(id, caller));
      }
      if !row.proposal.status.IsLive() {
        return Err(StaleTransition(id, row.proposal.status));
      }
      rows := rows[id := row.(proposal := row.proposal.(status := Cancelled), changedAt := clock)];
      EmitEvent(CancelledEvent(id, caller, row.proposal.body.orderUid));
      r := Ok(());
    }

    method ApplySettlementOutcome(p: Proposal, outcome: Outcome) returns (r: Result<OutcomeEffect, StoreError>)
      requires Valid()
      modifies this
      ensures Valid() && Contents() == ApplyOutcome(old(Contents()), p, outcome)
      ensures r == if p.id !in old(rows) then Err(NotFound(p.id))
                   else
                     var from := old(rows)[p.id].proposal.status;
                     if OutcomeTarget(outcome, from).None? then Ok(Ignored(from))
                     else Ok(Applied(from, OutcomeTarget(outcome, from).value))
    {
      if p.id !in rows {
        return Err(NotFound(p.id));
      }
      var row := rows[p.id];
      var from := row.proposal.status;
      var to;
      match outcome {
        case Started =>
          if !from.Active? { return Ok(Ignored(from)); }
          to := Executing;
        case Succeeded(_) =>
          if !from.Executing? && !from.Active? { return Ok(Ignored(from)); }
          to := Settled;
        case Reverted(_) =>
          if !from.Executing? && !from.Active? { return Ok(Ignored(from)); }
          to := SettleFailed;
        case Abandoned =>
          if !from.Executing? { return Ok(Ignored(from)); }
          to := Active;
      }
      var cited := outcome.SettlementTx();
      var settlementTx := if cited.Some? then cited else row.proposal.settlementTx;
      rows := rows[p.id := row.(proposal := row.proposal.(status := to, settlementTx := settlementTx),
                                changedAt := clock)];
      if outcome.Abandoned? {
        penalties := penalties + [PenaltyRow(p.id, p.body.subSolver, p.body.orderUid, None)];
      }
      EmitEvent(StatusChangedEvent(p.id, p.body.subSolver, p.body.orderUid, from, to, None, cited));
      r := Ok(Applied(from, to));
    }

    method NoteDriverNotification(p: Proposal, kind: string)
      requires Valid()
      modifies this
      ensures Valid() && Contents() == NoteNotification(old(Contents()), p, kind)
    {
      EmitEvent(DriverNotifiedEvent(p.id, p.body.subSolver, p.body.orderUid, kind));
    }

    /** One bulk update, read back and checked before it commits, then one event a row. */
    method ReleaseStale(age: nat) returns (r: Result<nat, StoreError>)
      requires Valid()
      modifies this
      ensures Valid() && Contents() == ReleaseStaleExecuting(old(Contents()), age)
      ensures r == if ReleaseAborts(old(Contents()), age) then Err(CorruptRow)
                   else Ok(|ReleaseEvents(old(Contents()), old(nextId), age)|)
    {
      var before := Contents();
      var updated := map id | id in rows ::
        if IsStaleExecuting(before, id, age) then Released(before, rows[id]) else rows[id];
      var released: seq<Event> := [];
      var id := 0;
      while id < nextId
        invariant 0 <= id <= nextId
        invariant released == ReleaseEvents(before, id, age)
        invariant forall k :: 0 <= k < id && IsStaleExecuting(before, k, age) ==> rows[k].keysReadable
      {
        if IsStaleExecuting(before, id, age) {
          if !rows[id].keysReadable {
            return Err(CorruptRow);
          }
          var p := rows[id].proposal;
          released := released +
            [StatusChangedEvent(id, p.body.subSolver, p.body.orderUid, Executing, Active, None, None)];
        }
        id := id + 1;
      }
      rows := updated;
      var sent := 0;
      while sent < |released|
        invariant 0 <= sent <= |released|
        invariant Contents() == before.(rows := updated, log := before.log + released[..sent])
      {
        EmitEvent(released[sent]);
        assert before.log + released[..sent + 1] == before.log + released[..sent] + [released[sent]];
        sent := sent + 1;
      }
      r := Ok(|released|);
    }

    method Sweep(age: nat) returns (deleted: nat)
      requires Valid()
      modifies this
      ensures Valid() && Contents() == SweepDropped(old(Contents()), age)
      ensures deleted == |old(rows)| - |rows|
    {
      var before := Contents();
      deleted := |set id | id in rows && IsSwept(before, id, age)|;
      SweptCount(before, age);
      rows := map id | id in rows && !IsSwept(before, id, age) :: rows[id];
      solutions := map key | key in solutions && !IsSwept(before, solutions[key], age) :: solutions[key];
    }

    method RecordNonSettlement(pending: PendingPenalty, amount: U256, tx: Hash)
      requires Valid()
      modifies this
      ensures Valid() && Contents() == RecordNonSettlementDebit(old(Contents()), pending, amount, tx)
    {
      if pending.id < |penalties| {
        penalties := penalties[pending.id := penalties[pending.id].(tx := Some(tx))];
      }
      EmitEvent(NonSettlementDebitedEvent(pending.proposalId, pending.subSolver, pending.orderUid, amount, tx));
    }

    method RecordBid(auction: int, solution: nat, id: ProposalId) returns (r: Result<(), StoreError>)
      requires Valid()
      modifies this
      ensures Valid() && Contents() == RecordSolution(old(Contents()), auction, solution, id)
      ensures r == if id in old(rows) then Ok(()) else Err(Database)
    {
      if id !in rows {
        return Err(Database);
      }
      solutions := solutions[(auction, solution) := id];
      r := Ok(());
    }

    /**
     The whole auction's read, grouped by order: an entry exactly for the
     requested orders that have a readable active row, and in it exactly what
     the order's own read returns, in the same order.
     */
    method ActiveByOrderUids(uids: seq<OrderUid>) returns (grouped: map<OrderUid, seq<Proposal>>)
      requires Valid()
      ensures forall uid :: uid in grouped <==> uid in uids && ListByOrderUid(Contents(), uid) != []
      ensures forall uid :: uid in grouped ==> grouped[uid] == ListByOrderUid(Contents(), uid)
    {
      grouped := map[];
      if uids == [] {
        return;
      }
      var selected := ActiveRows(Contents(), uids, nextId);
      var i := 0;
      while i < |selected|
        invariant 0 <= i <= |selected|
        invariant GroupsRows(grouped, selected[..i])
      {
        assert selected[..i + 1] == selected[..i] + [selected[i]];
        GroupsRowsAppend(grouped, selected[..i], selected[i]);
        grouped := Grouped(grouped, selected[i]);
        i := i + 1;
      }
      assert selected[..i] == selected;
      GroupedIsPerOrder(Contents(), uids, grouped);
    }

    /** One committed write of whatever kind. */
    method Perform(step: Step)
      requires Valid()
      modifies this
      ensures Valid() && Contents() == Apply(old(Contents()), step)
    {
      match step {
        case Receive(body) => var _ := InsertProposal(Fresh(body));
        case Wait(seconds) => clock := clock + seconds;
        case Expire(p) => var _ := TransitionTo(p, Expired);
        case Judge(id, verdict) => var _ := Resolve(id, verdict);
        case Withdraw(id, caller) => var _ := CancelProposal(id, caller);
        case Report(p, outcome) => var _ := ApplySettlementOutcome(p, outcome);
        case Note(p, kind) => NoteDriverNotification(p, kind);
        case Release(age) => var _ := ReleaseStale(age);
        case Sweep(age) => var _ := Sweep(age);
        case Bid(auction, solution, id) => var _ := RecordBid(auction, solution, id);
        case Penalize(p, amount, tx) => var _ := RecordRevertDebit(p, amount, tx);
        case Debit(pending, amount, tx) => RecordNonSettlement(pending, amount, tx);
        case Damage(id, keys) =>
          if id in rows {
            rows := if keys then rows[id := rows[id].(keysReadable := false)]
                    else rows[id := rows[id].(bodyReadable := false)];
          }
      }
    }
  }
}
