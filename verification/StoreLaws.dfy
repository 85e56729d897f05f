/**
 What each write leaves behind, written out: the status tables, the columns a
 verdict fills, the two ages, and the evidence.
 */
module StoreLaws {
  import opened Lifecycle
  import opened Orders
  import opened Reachability
  import opened Runs
  import opened Storage
  import opened Uint256
  import opened Wrappers

  /** Every row but one, and everything beside the rows and the log. */
  ghost predicate OnlyRow(s: State, s': State, id: ProposalId) {
    && s'.rows.Keys == s.rows.Keys && s'.nextId == s.nextId
    && s'.solutions == s.solutions && s'.clock == s.clock
    && forall other :: other in s.rows && other != id ==> s'.rows[other] == s.rows[other]
  }

  // -------------------------------------------------------------------------
  // Verdicts, cancellation, expiry
  // -------------------------------------------------------------------------

  /** A receipt stores the body as submitted, with nothing else filled in, under the next id. */
  lemma ReceiptExact(s: State, body: Body)
    ensures var p := Proposal(s.nextId, body, Submitted, None, None, None, 0, 0, None, None);
            Insert(s, Fresh(body)) ==
            s.(rows := s.rows[s.nextId := Row(p, s.clock, true, true)], nextId := s.nextId + 1,
               log := s.log + [ReceivedEvent(s.nextId, p)])
  {
  }

  /**
   A verdict finds a readable row submitted or active, or changes nothing. An
   acceptance activates, and fills gas, addresses and tokens if it carries
   them; a rejection rejects for its reason; a failed simulation fails it.
   */
  lemma VerdictExact(s: State, id: ProposalId, verdict: Verdict)
    requires id in s.rows
    ensures var s', p := ResolveVerdict(s, id, verdict), s.rows[id].proposal;
            if s.rows[id].keysReadable && (p.status == Submitted || p.status == Active) then
              var q := s'.rows[id].proposal;
              && OnlyRow(s, s', id) && s'.penalties == s.penalties
              && (match verdict
                  case Accept(None) => q == p.(status := Active, rejection := None)
                  case Accept(Some(sim)) =>
                    q == p.(status := Active, rejection := None, gasUsed := Some(sim.gasUsed),
                            trampoline := Some(sim.trampoline), sellToken := sim.sellToken, buyToken := sim.buyToken)
                  case Reject(reason) => q == p.(status := Rejected, rejection := Some(reason))
                  case FailSimulation => q == p.(status := SimFailed, rejection := None))
              && s'.log == (if q.status == p.status then s.log
                            else s.log + [StatusChangedEvent(id, p.body.subSolver, p.body.orderUid,
                                                             p.status, q.status, q.rejection, None)])
            else s' == s
  {
  }

  /** A cancellation finds the owner's readable row submitted or active and cancels it, or changes nothing. */
  lemma CancelExact(s: State, id: ProposalId, caller: Address)
    requires id in s.rows
    ensures var s', p := Cancel(s, id, caller), s.rows[id].proposal;
            if s.rows[id].keysReadable && p.body.subSolver == caller && (p.status == Submitted || p.status == Active)
            then
              && OnlyRow(s, s', id) && s'.penalties == s.penalties
              && s'.rows[id].proposal == p.(status := Cancelled)
              && s'.log == s.log + [CancelledEvent(id, caller, p.body.orderUid)]
            else s' == s
  {
  }

  /** A compare-and-swap moves the row only from the status the snapshot saw. */
  lemma TransitionExact(s: State, p: Proposal, to: Status)
    requires p.id in s.rows
    ensures var s', row := Transition(s, p, to), s.rows[p.id].proposal;
            if row.status == p.status then
              && OnlyRow(s, s', p.id) && s'.penalties == s.penalties
              && s'.rows[p.id].proposal == row.(status := to)
              && s'.log == s.log + [StatusChangedEvent(p.id, p.body.subSolver, p.body.orderUid,
                                                       p.status, to, None, None)]
            else s' == s
  {
  }

  // -------------------------------------------------------------------------
  // Settlement outcomes
  // -------------------------------------------------------------------------

  /** What the driver's report makes of each status; `None` where it is ignored. */
  function Reaches(outcome: Outcome, from: Status): Option<Status> {
    match (outcome, from)
    case (Started, Active) => Some(Executing)
    case (Succeeded(_), Active) => Some(Settled)
    case (Succeeded(_), Executing) => Some(Settled)
    case (Reverted(_), Active) => Some(SettleFailed)
    case (Reverted(_), Executing) => Some(SettleFailed)
    case (Abandoned, Executing) => Some(Active)
    case _ => None
  }

  /** Written out as a table, with the transaction recorded and the charge queued. */
  lemma OutcomeExact(s: State, p: Proposal, outcome: Outcome)
    requires p.id in s.rows
    ensures var s', row := ApplyOutcome(s, p, outcome), s.rows[p.id].proposal;
            match Reaches(outcome, row.status)
            case None => s' == s
            case Some(to) =>
              var tx := if outcome.Succeeded? || outcome.Reverted? then Some(outcome.tx) else None;
              && OnlyRow(s, s', p.id)
              && s'.rows[p.id].proposal ==
                 row.(status := to, settlementTx := if tx.Some? then tx else row.settlementTx)
              && s'.penalties == (if outcome == Abandoned
                                  then s.penalties + [PenaltyRow(p.id, p.body.subSolver, p.body.orderUid, None)]
                                  else s.penalties)
              && s'.log == s.log + [StatusChangedEvent(p.id, p.body.subSolver, p.body.orderUid,
                                                       row.status, to, None, tx)]
  {
  }

  // -------------------------------------------------------------------------
  // Evidence
  // -------------------------------------------------------------------------

  /** The evidence of a notification, a debit and a penalty, word for word. */
  lemma EvidenceExact(s: State, p: Proposal, kind: string, pending: PendingPenalty, amount: U256, tx: Hash)
    requires pending.id < |s.penalties|
    ensures NoteNotification(s, p, kind) ==
            s.(log := s.log + [DriverNotifiedEvent(p.id, p.body.subSolver, p.body.orderUid, kind)])
    ensures RecordNonSettlementDebit(s, pending, amount, tx) ==
            s.(penalties := s.penalties[pending.id := s.penalties[pending.id].(tx := Some(tx))],
               log := s.log + [NonSettlementDebitedEvent(pending.proposalId, pending.subSolver, pending.orderUid,
                                                         amount, tx)])
    ensures p.id in s.rows && s.rows[p.id].proposal.status == p.status ==>
            RecordPenalty(s, p, amount, tx) ==
            s.(rows := s.rows[p.id := s.rows[p.id].(
                         proposal := s.rows[p.id].proposal.(status := Penalized, penaltyTx := Some(tx)),
                         changedAt := s.clock)],
               log := s.log + [PenalizedEvent(p.id, p.body.subSolver, p.body.orderUid, amount, p.settlementTx, tx)])
  {
  }

  // -------------------------------------------------------------------------
  // The two ages
  // -------------------------------------------------------------------------

  /** Some overdue execution cannot be read. */
  predicate Unreleasable(s: State, age: nat) {
    exists id :: id in s.rows && s.rows[id].proposal.status == Executing && s.rows[id].changedAt + age < s.clock
                 && !s.rows[id].keysReadable
  }

  /** The timeout releases exactly what has executed for longer than the age; one unreadable row among them stops it. */
  lemma TimeoutExact(s: State, age: nat, id: ProposalId)
    requires id in s.rows
    ensures var s', row := ReleaseStaleExecuting(s, age), s.rows[id];
            && s' == s.(rows := s'.rows, log := s'.log) && s'.rows.Keys == s.rows.Keys
            && s'.rows[id] ==
               if row.proposal.status == Executing && row.changedAt + age < s.clock && !Unreleasable(s, age)
               then row.(proposal := row.proposal.(status := Active), changedAt := s.clock)
               else row
    ensures Unreleasable(s, age) ==> ReleaseStaleExecuting(s, age) == s
  {
    assert Unreleasable(s, age) <==> ReleaseAborts(s, age) by {
      if Unreleasable(s, age) {
        var i :| i in s.rows && s.rows[i].proposal.status == Executing && s.rows[i].changedAt + age < s.clock
                 && !s.rows[i].keysReadable;
        assert IsStaleExecuting(s, i, age);
      }
    }
  }

  /** The sweep deletes exactly the rows dropped for longer than the age, and their attributions. */
  lemma SweepExact(s: State, age: nat)
    ensures var s' := SweepDropped(s, age);
            && s' == s.(rows := s'.rows, solutions := s'.solutions)
            && (forall id :: id in s'.rows <==>
                  id in s.rows &&
                  !(s.rows[id].proposal.status in {Rejected, SimFailed, Expired, Cancelled}
                    && s.rows[id].changedAt + age < s.clock))
            && (forall id :: id in s'.rows ==> s'.rows[id] == s.rows[id])
    ensures (forall key :: key in s.solutions ==> s.solutions[key] in s.rows) ==>
            var s' := SweepDropped(s, age);
            && (forall key :: key in s'.solutions <==> key in s.solutions && s.solutions[key] in s'.rows)
            && (forall key :: key in s'.solutions ==> s'.solutions[key] == s.solutions[key])
  {
  }

  /** When the proposal last changed status along a run. */
  function EnteredAt(run: seq<Step>, id: ProposalId): nat {
    if run == [] then 0
    else
      var before := run[..|run| - 1];
      if StatusIn(After(EMPTY, run), id) != StatusIn(After(EMPTY, before), id)
      then After(EMPTY, before).clock
      else EnteredAt(before, id)
  }

  /** A step stamps a row exactly when it changes its status. */
  lemma StepStamps(s: State, step: Step, id: ProposalId)
    requires Allowed(s, step) && id in Apply(s, step).rows && (id in s.rows ==> RowOk(s, id))
    ensures Apply(s, step).rows[id].changedAt ==
            if StatusIn(Apply(s, step), id) != StatusIn(s, id) then s.clock else s.rows[id].changedAt
  {
    match step
    case Receive(_) =>
    case Expire(p) =>
    case Judge(_, _) =>
    case Withdraw(_, _) =>
    case Report(_, _) =>
    case Release(_) =>
    case Penalize(_, _, _) =>
    case _ =>
  }

  /** In every reachable state a row's stamp is the moment it entered its status. */
  lemma {:induction false} StampIsEntry(run: seq<Step>, id: ProposalId)
    requires ValidRun(run) && id in After(EMPTY, run).rows
    ensures After(EMPTY, run).rows[id].changedAt == EnteredAt(run, id)
  {
    if run != [] {
      var before, step := run[..|run| - 1], run[|run| - 1];
      var s := After(EMPTY, before);
      RunsAreAllowed(before);
      RunsAreAllowed(run);
      assert id in s.rows ==> RowOk(s, id);
      StepStamps(s, step, id);
      if id in s.rows {
        StampIsEntry(before, id);
      }
    }
  }

  /** So an execution times out exactly once it has lasted longer than the age, counted from when it began. */
  lemma TimesOutIff(run: seq<Step>, age: nat, id: ProposalId)
    requires ValidRun(run) && ExecutingIn(After(EMPTY, run), id) && !Unreleasable(After(EMPTY, run), age)
    ensures ActiveIn(ReleaseStaleExecuting(After(EMPTY, run), age), id) <==>
            EnteredAt(run, id) + age < After(EMPTY, run).clock
  {
    StampIsEntry(run, id);
    TimeoutExact(After(EMPTY, run), age, id);
  }

  /** And a row is swept exactly once it has been dropped for longer than the age, counted from when it was. */
  lemma SweptIff(run: seq<Step>, age: nat, id: ProposalId)
    requires ValidRun(run) && id in After(EMPTY, run).rows
    ensures id !in SweepDropped(After(EMPTY, run), age).rows <==>
            && After(EMPTY, run).rows[id].proposal.status in {Rejected, SimFailed, Expired, Cancelled}
            && EnteredAt(run, id) + age < After(EMPTY, run).clock
  {
    StampIsEntry(run, id);
    SweepExact(After(EMPTY, run), age);
  }

  // -------------------------------------------------------------------------
  // The per-order read
  // -------------------------------------------------------------------------

  predicate Lists(s: State, uid: OrderUid, id: ProposalId) {
    && id in s.rows && s.rows[id].proposal.status == Active && s.rows[id].proposal.body.orderUid == uid
    && s.rows[id].keysReadable && s.rows[id].bodyReadable
  }

  lemma ActiveRowsDecode(s: State, uid: OrderUid, n: nat)
    ensures DecodeRows(ActiveRows(s, [uid], n + 1)) ==
            DecodeRows(ActiveRows(s, [uid], n)) + if Lists(s, uid, n) then [s.rows[n].proposal] else []
  {
    var rows := ActiveRows(s, [uid], n);
    assert rows + [] == rows && DecodeRows(rows) + [] == DecodeRows(rows);
    if ActiveFor(s, [uid], n) {
      DecodeAppend(rows, s.rows[n]);
    }
  }

  predicate KeyOk(s: State, id: ProposalId) {
    id in s.rows ==> s.rows[id].proposal.id == id
  }

  ghost predicate InIdOrder(ps: seq<Proposal>, n: nat) {
    && (forall i, j :: 0 <= i < j < |ps| ==> ps[i].id < ps[j].id)
    && (forall i :: 0 <= i < |ps| ==> ps[i].id < n)
  }

  lemma InOneMore(ps: seq<Proposal>, last: Proposal, taken: bool, p: Proposal)
    ensures p in ps + (if taken then [last] else []) <==> p in ps || (taken && p == last)
  {
  }

  lemma OneMoreInOrder(ps: seq<Proposal>, last: Proposal, taken: bool, n: nat)
    requires InIdOrder(ps, n) && (taken ==> last.id == n)
    ensures InIdOrder(ps + (if taken then [last] else []), n + 1)
  {
  }

  lemma ListedNext(s: State, uid: OrderUid, n: nat, p: Proposal)
    ensures p in DecodeRows(ActiveRows(s, [uid], n + 1)) <==>
            p in DecodeRows(ActiveRows(s, [uid], n)) || (Lists(s, uid, n) && p == s.rows[n].proposal)
  {
    ActiveRowsDecode(s, uid, n);
    if n in s.rows {
      InOneMore(DecodeRows(ActiveRows(s, [uid], n)), s.rows[n].proposal, Lists(s, uid, n), p);
    }
  }

  lemma {:induction false} ListedBelowExact(s: State, uid: OrderUid, n: nat, p: Proposal)
    requires forall id :: KeyOk(s, id)
    ensures p in DecodeRows(ActiveRows(s, [uid], n)) <==>
            p.id < n && Lists(s, uid, p.id) && s.rows[p.id].proposal == p
  {
    if n > 0 {
      ListedBelowExact(s, uid, n - 1, p);
      assert KeyOk(s, n - 1);
      ListedNext(s, uid, n - 1, p);
    }
  }

  lemma {:induction false} ListedInOrder(s: State, uid: OrderUid, n: nat)
    requires forall id :: KeyOk(s, id)
    ensures InIdOrder(DecodeRows(ActiveRows(s, [uid], n)), n)
  {
    if n > 0 {
      ListedInOrder(s, uid, n - 1);
      assert KeyOk(s, n - 1);
      ActiveRowsDecode(s, uid, n - 1);
      if n - 1 in s.rows {
        OneMoreInOrder(DecodeRows(ActiveRows(s, [uid], n - 1)), s.rows[n - 1].proposal,
                       Lists(s, uid, n - 1), n - 1);
      }
    }
  }

  /** An order's read lists exactly its active rows whose columns all parse, each once, in id order. */
  lemma ListedExactly(s: State, uid: OrderUid, p: Proposal)
    requires Inv(s)
    ensures p in ListByOrderUid(s, uid) <==>
            && p.id in s.rows && s.rows[p.id].proposal == p && p.status == Active && p.body.orderUid == uid
            && s.rows[p.id].keysReadable && s.rows[p.id].bodyReadable
    ensures InIdOrder(ListByOrderUid(s, uid), s.nextId)
  {
    forall id: ProposalId
      ensures KeyOk(s, id)
    {
      assert id in s.rows ==> RowOk(s, id);
    }
    ListedBelowExact(s, uid, s.nextId, p);
    ListedInOrder(s, uid, s.nextId);
  }
}
