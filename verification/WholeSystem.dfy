/**
 Laws across the whole service: from commit to the evidence table, and from a
 bid to the debit that follows its reverted settlement.
 */
module WholeSystem {
  import opened AuditTrail
  import opened AuditWriter
  import opened Chains
  import opened Interleaving
  import opened Lifecycle
  import opened Money
  import opened Notify
  import opened Penalty
  import opened PenaltyRuns
  import opened Quiescence
  import opened Reachability
  import opened Runs
  import opened Solve
  import opened Storage
  import opened Uint256
  import opened Validation
  import opened Wrappers

  // -------------------------------------------------------------------------
  // From commit to the evidence table
  // -------------------------------------------------------------------------

  /**
   A writer fed what the tasks sent, in any rounds and through any failed
   inserts. Once everything committed has been sent, the evidence table is a
   permutation of the commits; and each proposal with nothing waiting replays
   from it to the table exactly when its receipt came first and its status
   changes in commit order.
   */
  method PersistTrail(moves: seq<Move>, rounds: seq<Round>, failures: nat -> nat) returns (persisted: seq<Event>)
    requires SentIn(rounds) == Trailed(moves).emitted
    ensures Trailed(moves).pending == [] ==> multiset(persisted) == multiset(Trailed(moves).store.log)
    ensures forall id :: About(Trailed(moves).pending, id) == [] ==>
              var sent, made := About(persisted, id), About(Trailed(moves).store.log, id);
              (Replay(persisted, id) == Replay(Trailed(moves).store.log, id) <==>
                 made == [] || (sent != [] && sent[0].ReceivedEvent? && Telling(sent) == Telling(made)))
  {
    var writer := new Writer();
    writer.Run(rounds, failures);
    persisted := writer.persisted;
    assert [] + SentIn(rounds) == SentIn(rounds);
    TrailIsPermutation(moves);
    forall id | About(Trailed(moves).pending, id) == [] {
      ReplaysToTableIff(moves, id);
    }
  }

  // -------------------------------------------------------------------------
  // From a bid to its debit
  // -------------------------------------------------------------------------

  /** The driver reports that the solution's settlement reverted. */
  function RevertOf(auction: int, solution: Solution, tx: Hash): Notification {
    Notification(Some(auction), Some([solution.id]), "revert", Some(tx))
  }

  predicate InFlightRow(s: State, id: ProposalId) {
    && id in s.rows && Readable(s.rows[id])
    && (s.rows[id].proposal.status.Active? || s.rows[id].proposal.status.Executing?)
  }

  /** Left alone, the endpoint makes exactly one write. */
  lemma NotifiedOnce(s: State, auction: int, solution: Solution, tx: Hash, turns: nat -> Turn)
    requires Inv(s) && Attributed(s, auction, solution)
    requires InFlightRow(s, solution.proposal) && Validation.Undisturbed(turns)
    ensures Notified(s, RevertOf(auction, solution, tx), turns) ==
            ApplyOutcome(s, s.rows[solution.proposal].proposal, Reverted(tx))
  {
    var p := s.rows[solution.proposal].proposal;
    LookupFindsProposal(s, auction, solution);
    assert OutcomeOf(RevertOf(auction, solution, tx)) == Some(Reverted(tx));
    assert [p][..1] == [p] && [p][..0] == [];
    UndisturbedReport(s, [p], 1, Reverted(tx), "revert", turns);
    assert RowOk(s, solution.proposal);
  }

  lemma OneWrite(s: State, step: Step)
    requires MeanwhileMay(s, step, Debiting)
    ensures Meanwhile(s, [step], Debiting) == Apply(s, step)
  {
    assert [step][..0] == [];
  }

  lemma InFlightReverts(s: State, id: ProposalId, tx: Hash)
    requires InFlightRow(s, id) && s.rows[id].proposal.id == id
    ensures var s' := ApplyOutcome(s, s.rows[id].proposal, Reverted(tx));
            OwesRevert(s', id) && s'.rows[id].proposal.settlementTx == Some(tx)
  {
  }

  /** A report is one more write by another actor. */
  lemma ReportSound(w: World, p: Proposal, outcome: Outcome, cl: U256)
    requires SoundWorld(w, cl) && HoldsRow(w.store, p)
    ensures SoundWorld(w.(store := ApplyOutcome(w.store, p, outcome)), cl)
  {
    RowIsView(w.store, p);
    OneWrite(w.store, Report(p, outcome));
    InterferenceSound(w, [Report(p, outcome)], cl);
  }

  /** It leaves the books balanced and its proposal owing. */
  lemma ReportOwes(w: World, auction: int, solution: Solution, tx: Hash, turns: nat -> Turn, cl: U256)
    requires SoundWorld(w, cl) && Attributed(w.store, auction, solution)
    requires InFlightRow(w.store, solution.proposal) && Validation.Undisturbed(turns)
    ensures var w1 := AfterReport(w, auction, solution, tx, turns);
            && SoundWorld(w1, cl)
            && OwesRevert(w1.store, solution.proposal)
            && w1.store.rows[solution.proposal].proposal.settlementTx == Some(tx)
  {
    NotifiedOnce(w.store, auction, solution, tx, turns);
    assert RowOk(w.store, solution.proposal);
    InFlightReverts(w.store, solution.proposal, tx);
    ReportSound(w, w.store.rows[solution.proposal].proposal, Reverted(tx), cl);
  }

  /** The world once the endpoint has taken the report. */
  function AfterReport(w: World, auction: int, solution: Solution, tx: Hash, turns: nat -> Turn): World {
    w.(store := Notified(w.store, RevertOf(auction, solution, tx), turns))
  }

  /** A debit on chain for that proposal, under that settlement, charged to its sub-solver, and on record. */
  ghost predicate DebitedFor(w: World, id: ProposalId, tx: Hash, cl: U256)
    requires id in w.store.rows
  {
    exists i :: 0 <= i < |w.chain| && w.chain[i].RevertDebit? && Justified(w.store, w.chain[i], cl)
      && w.chain[i].id == id && w.chain[i].settlementTx == tx
      && w.store.rows[id].proposal.penaltyTx == Some(w.chain[i].tx)
  }

  lemma PaidIsDebited(w: World, id: ProposalId, tx: Hash, cl: U256)
    requires SoundWorld(w, cl) && PaidRevert(w.store, id)
    requires w.store.rows[id].proposal.settlementTx == Some(tx)
    ensures DebitedFor(w, id, tx, cl)
  {
    var item := RevertItem(id);
    assert Paid(w.store, item) && Evidenced(w.store, w.chain, item);
    var i :| 0 <= i < |w.chain| && IsFor(w.chain[i], item) && RecordedTx(w.store, item) == Some(w.chain[i].tx);
    assert RowOk(w.store, id) && Justified(w.store, w.chain[i], cl);
  }

  lemma OwedIsDebited(w: World, id: ProposalId, tx: Hash, life: seq<Happening>, cl: U256)
    requires SoundWorld(w, cl) && OwesRevert(w.store, id) && w.store.rows[id].proposal.settlementTx == Some(tx)
    ensures var w', item := Live(w, life, cl), RevertItem(id);
            && (OwesRevert(w'.store, id) || PaidRevert(w'.store, id))
            && w'.store.rows[id].proposal.settlementTx == Some(tx)
            && DebitsFor(w'.chain, item) ==
                 (if PaidRevert(w'.store, id) then 1 else 0) + DebitsFor(w'.lost, item) + DebitsFor(w'.late, item)
            && (PaidRevert(w'.store, id) ==> DebitedFor(w', id, tx, cl))
            && (ServedLife(w, life, cl, item) && TickCount(life) >= MAX_DEBIT_ATTEMPTS ==>
                  PaidRevert(w'.store, id) || Tries(w', item) >= MAX_DEBIT_ATTEMPTS)
  {
    var w', item := Live(w, life, cl), RevertItem(id);
    LiveKeeps(w, life, cl);
    RevertNeverLost(w, life, cl, id);
    assert Paid(w'.store, item) <==> PaidRevert(w'.store, id);
    if PaidRevert(w'.store, id) {
      PaidIsDebited(w', id, tx, cl);
    }
    if ServedLife(w, life, cl, item) && TickCount(life) >= MAX_DEBIT_ATTEMPTS {
      TenTicksSettle(w, life, cl, item);
    }
  }

  /**
   A reported revert on a bid follows the bid to its end. Through any life
   after the report the proposal the solution was built on owes the debit or
   has paid it, under the transaction reported; when it has paid, the chain
   holds a debit for it, of the right amount and from the right sub-solver;
   and after ten ticks that the database serves it has paid or is parked.
   */
  lemma RevertedBidIsDebited(w: World, auction: int, solution: Solution, tx: Hash, turns: nat -> Turn,
                             life: seq<Happening>, cl: U256)
    requires SoundWorld(w, cl) && Attributed(w.store, auction, solution)
    requires InFlightRow(w.store, solution.proposal) && Validation.Undisturbed(turns)
    ensures var id, item := solution.proposal, RevertItem(solution.proposal);
            var w1 := AfterReport(w, auction, solution, tx, turns);
            var w2 := Live(w1, life, cl);
            && (OwesRevert(w2.store, id) || PaidRevert(w2.store, id))
            && w2.store.rows[id].proposal.settlementTx == Some(tx)
            && DebitsFor(w2.chain, item) ==
                 (if PaidRevert(w2.store, id) then 1 else 0) + DebitsFor(w2.lost, item) + DebitsFor(w2.late, item)
            && (PaidRevert(w2.store, id) ==> DebitedFor(w2, id, tx, cl))
            && (ServedLife(w1, life, cl, item) && TickCount(life) >= MAX_DEBIT_ATTEMPTS ==>
                  PaidRevert(w2.store, id) || Tries(w2, item) >= MAX_DEBIT_ATTEMPTS)
  {
    ReportOwes(w, auction, solution, tx, turns, cl);
    OwedIsDebited(AfterReport(w, auction, solution, tx, turns), solution.proposal, tx, life, cl);
  }
}
