/**
 The penalty loop as a value: each tick reads the two queues, then for each
 entry asks the chain for the debit and records it, while the other actors go
 on writing between any two of its steps.
 */
module Penalty {
  import opened Interleaving
  import opened Lifecycle
  import opened Storage
  import opened Uint256
  import opened Wrappers

  const MAX_DEBIT_ATTEMPTS: nat := 10

  /** The settlement's on-chain cost plus the collateral unit. */
  function RevertAmount(cost: U256, cl: U256): U256 {
    SaturatingAdd(cost, cl)
  }

  /** A tenth of the collateral unit. */
  function ChargeAmount(cl: U256): U256 {
    FloorDiv(cl, 10)
  }

  /** A debit sent to the chain, and what it is for: the failed settlement, or the order won and abandoned. */
  datatype Landed =
    | RevertDebit(id: ProposalId, settlementTx: Hash, cost: U256, subSolver: Address, amount: U256, tx: Hash)
    | ChargeDebit(position: nat, orderUid: OrderUid, subSolver: Address, amount: U256, tx: Hash)

  /** A queue entry the operator was asked to act on. */
  datatype Item = RevertItem(id: ProposalId) | ChargeItem(position: nat)

  /**
   The store, the chain and the loop's memory. `chain` holds every landed
   debit, `lost` those that were confirmed but not recorded, `late` those that
   landed after their confirmation was given up on; `unconfirmed` debits may
   still land. `asked` is every entry taken to the operator.
   */
  datatype World = World(
    store: State,
    chain: seq<Landed>,
    lost: seq<Landed>,
    late: seq<Landed>,
    unconfirmed: seq<Landed>,
    asked: seq<Item>,
    revertAttempts: map<ProposalId, nat>,
    chargeAttempts: map<nat, nat>
  )

  /** The operator's reply to a debit: an unconfirmed one was sent, and reads as a failure. */
  datatype Reply = Confirmed(tx: Hash) | Refused | Unconfirmed(tx: Hash)

  /** What happens around one entry: the others' writes, then the chain's and the database's answers. */
  datatype Answer = Answer(others: seq<Step>, cost: Option<U256>, debit: Reply, recorded: bool)

  /**
   One tick's answers, entry by entry, whether each queue could be read, and
   what the others write between the two sweeps.
   */
  datatype TickAnswers = TickAnswers(
    readsReverts: bool,
    reverts: nat -> Answer,
    between: seq<Step>,
    readsCharges: bool,
    charges: nat -> Answer
  )

  // -------------------------------------------------------------------------
  // The tick
  // -------------------------------------------------------------------------

  function Attempts<K>(attempts: map<K, nat>, key: K): nat {
    if key in attempts then attempts[key] else 0
  }

  predicate Parked<K>(attempts: map<K, nat>, key: K) {
    Attempts(attempts, key) >= MAX_DEBIT_ATTEMPTS
  }

  function NoteFailure<K>(attempts: map<K, nat>, key: K): map<K, nat> {
    attempts[key := Attempts(attempts, key) + 1]
  }

  function RevertFails(w: World, id: ProposalId): World {
    w.(asked := w.asked + [RevertItem(id)], revertAttempts := NoteFailure(w.revertAttempts, id))
  }

  /** The debit landed; the write that records it is conditioned on the row still owing. */
  function RevertLands(w: World, p: Proposal, debit: Landed, recorded: bool): World {
    var landed := w.(asked := w.asked + [RevertItem(p.id)], chain := w.chain + [debit],
                     revertAttempts := w.revertAttempts - {p.id});
    if recorded && StillAt(w.store, p)
    then landed.(store := RecordPenalty(w.store, p, debit.amount, debit.tx))
    else landed.(lost := w.lost + [debit])
  }

  function DebitForRevert(p: Proposal, cost: U256, cl: U256, tx: Hash): Landed
    requires p.settlementTx.Some?
  {
    RevertDebit(p.id, p.settlementTx.value, cost, p.body.subSolver, RevertAmount(cost, cl), tx)
  }

  /** The debit was sent, and may land yet. */
  function Leaves(w: World, debit: Landed): World {
    w.(unconfirmed := w.unconfirmed + [debit])
  }

  /** One failed settlement's turn. */
  function RevertTurn(w: World, p: Proposal, a: Answer, cl: U256): World {
    if Parked(w.revertAttempts, p.id) || p.settlementTx.None? then w
    else if a.cost.None? then RevertFails(w, p.id)
    else match a.debit
      case Refused => RevertFails(w, p.id)
      case Unconfirmed(tx) => RevertFails(Leaves(w, DebitForRevert(p, a.cost.value, cl, tx)), p.id)
      case Confirmed(tx) => RevertLands(w, p, DebitForRevert(p, a.cost.value, cl, tx), a.recorded)
  }

  /** The others write, then the entry has its turn. */
  function RevertOne(w: World, p: Proposal, a: Answer, cl: U256): World {
    RevertTurn(w.(store := Meanwhile(w.store, a.others, Debiting)), p, a, cl)
  }

  function RevertSweep(w: World, queue: seq<Proposal>, answers: nat -> Answer, cl: U256): World {
    if queue == [] then w
    else
      var last := |queue| - 1;
      RevertOne(RevertSweep(w, queue[..last], answers, cl), queue[last], answers(last), cl)
  }

  function ChargeFails(w: World, position: nat): World {
    w.(asked := w.asked + [ChargeItem(position)], chargeAttempts := NoteFailure(w.chargeAttempts, position))
  }

  function ChargeLands(w: World, pending: PendingPenalty, debit: Landed, recorded: bool): World {
    var landed := w.(asked := w.asked + [ChargeItem(pending.id)], chain := w.chain + [debit],
                     chargeAttempts := w.chargeAttempts - {pending.id});
    if recorded
    then landed.(store := RecordNonSettlementDebit(w.store, pending, debit.amount, debit.tx))
    else landed.(lost := w.lost + [debit])
  }

  function DebitForCharge(pending: PendingPenalty, cl: U256, tx: Hash): Landed {
    ChargeDebit(pending.id, pending.orderUid, pending.subSolver, ChargeAmount(cl), tx)
  }

  /** One queued non-settlement charge's turn. */
  function ChargeTurn(w: World, pending: PendingPenalty, a: Answer, cl: U256): World {
    if Parked(w.chargeAttempts, pending.id) then w
    else match a.debit
      case Refused => ChargeFails(w, pending.id)
      case Unconfirmed(tx) => ChargeFails(Leaves(w, DebitForCharge(pending, cl, tx)), pending.id)
      case Confirmed(tx) => ChargeLands(w, pending, DebitForCharge(pending, cl, tx), a.recorded)
  }

  function ChargeOne(w: World, pending: PendingPenalty, a: Answer, cl: U256): World {
    ChargeTurn(w.(store := Meanwhile(w.store, a.others, Debiting)), pending, a, cl)
  }

  function ChargeSweep(w: World, queue: seq<PendingPenalty>, answers: nat -> Answer, cl: U256): World {
    if queue == [] then w
    else
      var last := |queue| - 1;
      ChargeOne(ChargeSweep(w, queue[..last], answers, cl), queue[last], answers(last), cl)
  }

  function Reverts(s: State): seq<Proposal> {
    SnapshotByStatuses(s, {SettleFailed})
  }

  function Charges(s: State): seq<PendingPenalty> {
    PendingPenalties(s, |s.penalties|)
  }

  /** The first sweep, and the others' writes before the second queue is read. */
  function AfterReverts(w: World, t: TickAnswers, cl: U256): World {
    var debited := if t.readsReverts then RevertSweep(w, Reverts(w.store), t.reverts, cl) else w;
    debited.(store := Meanwhile(debited.store, t.between, Debiting))
  }

  function Tick(w: World, t: TickAnswers, cl: U256): World {
    var mid := AfterReverts(w, t, cl);
    if t.readsCharges then ChargeSweep(mid, Charges(mid.store), t.charges, cl) else mid
  }

  /** An unconfirmed debit lands after all. Nothing the loop reads changes. */
  function LandLate(w: World, k: nat): World {
    if k < |w.unconfirmed|
    then w.(chain := w.chain + [w.unconfirmed[k]], late := w.late + [w.unconfirmed[k]],
            unconfirmed := w.unconfirmed[..k] + w.unconfirmed[k + 1..])
    else w
  }

  // -------------------------------------------------------------------------
  // The loop
  // -------------------------------------------------------------------------

  /** The loop's in-memory attempt counts over a store, with the chain it spends on. */
  class PenaltyLoop {
    const store: ProposalStore
    const cl: U256
    var revertAttempts: map<ProposalId, nat>
    var chargeAttempts: map<nat, nat>
    ghost var chain: seq<Landed>
    ghost var lost: seq<Landed>
    ghost var late: seq<Landed>
    ghost var unconfirmed: seq<Landed>
    ghost var asked: seq<Item>

    ghost function View(): World
      reads this, store
    {
      World(store.Contents(), chain, lost, late, unconfirmed, asked, revertAttempts, chargeAttempts)
    }

    constructor (store: ProposalStore, cl: U256)
      ensures this.store == store && this.cl == cl
      ensures View() == World(store.Contents(), [], [], [], [], [], map[], map[])
    {
      this.store := store;
      this.cl := cl;
      revertAttempts, chargeAttempts := map[], map[];
      chain, lost, late, unconfirmed, asked := [], [], [], [], [];
    }

    method RevertDebits(readsQueue: bool, answers: nat -> Answer)
      requires store.Valid()
      modifies this, store
      ensures store.Valid()
      ensures View() == if readsQueue
                        then RevertSweep(old(View()), Reverts(old(store.Contents())), answers, cl)
                        else old(View())
    {
      if !readsQueue {
        return;
      }
      RevertEach(Reverts(store.Contents()), answers);
    }

    method RevertEach(pending: seq<Proposal>, answers: nat -> Answer)
      requires store.Valid()
      modifies this, store
      ensures store.Valid() && View() == RevertSweep(old(View()), pending, answers, cl)
    {
      var i := 0;
      while i < |pending|
        invariant 0 <= i <= |pending|
        invariant store.Valid()
        invariant View() == RevertSweep(old(View()), pending[..i], answers, cl)
      {
        assert pending[..i + 1][..i] == pending[..i];
        RevertDebitFor(pending[i], answers(i));
        i := i + 1;
      }
      assert pending[..i] == pending;
    }

    method RevertDebitFor(p: Proposal, a: Answer)
      requires store.Valid()
      modifies this, store
      ensures store.Valid() && View() == RevertOne(old(View()), p, a, cl)
    {
      LetOthers(store, a.others, Debiting);
      if p.id in revertAttempts && revertAttempts[p.id] >= MAX_DEBIT_ATTEMPTS {
        return;
      }
      if p.settlementTx.None? {
        return;
      }
      asked := asked + [RevertItem(p.id)];
      if a.cost.None? {
        NoteRevertFailure(p.id);
        return;
      }
      var amount := RevertAmount(a.cost.value, cl);
      match a.debit {
        case Refused =>
          NoteRevertFailure(p.id);
        case Unconfirmed(tx) =>
          unconfirmed := unconfirmed + [DebitForRevert(p, a.cost.value, cl, tx)];
          NoteRevertFailure(p.id);
        case Confirmed(tx) =>
          ghost var debit := DebitForRevert(p, a.cost.value, cl, tx);
          chain := chain + [debit];
          revertAttempts := revertAttempts - {p.id};
          var r: Result<(), StoreError> := Err(Database);
          if a.recorded {
            r := store.RecordRevertDebit(p, amount, tx);
          }
          if r.Err? {
            lost := lost + [debit];
          }
      }
    }

    method NoteRevertFailure(id: ProposalId)
      modifies this`revertAttempts
      ensures revertAttempts == NoteFailure(old(revertAttempts), id)
    {
      var n := if id in revertAttempts then revertAttempts[id] else 0;
      revertAttempts := revertAttempts[id := n + 1];
    }

    method NonSettlementDebits(readsQueue: bool, answers: nat -> Answer)
      requires store.Valid()
      modifies this, store
      ensures store.Valid()
      ensures View() == if readsQueue
                        then ChargeSweep(old(View()), Charges(old(store.Contents())), answers, cl)
                        else old(View())
    {
      if !readsQueue {
        return;
      }
      ChargeEach(Charges(store.Contents()), answers);
    }

    method ChargeEach(pending: seq<PendingPenalty>, answers: nat -> Answer)
      requires store.Valid()
      modifies this, store
      ensures store.Valid() && View() == ChargeSweep(old(View()), pending, answers, cl)
    {
      var i := 0;
      while i < |pending|
        invariant 0 <= i <= |pending|
        invariant store.Valid()
        invariant View() == ChargeSweep(old(View()), pending[..i], answers, cl)
      {
        assert pending[..i + 1][..i] == pending[..i];
        ChargeDebitFor(pending[i], answers(i));
        i := i + 1;
      }
      assert pending[..i] == pending;
    }

    method ChargeDebitFor(pending: PendingPenalty, a: Answer)
      requires store.Valid()
      modifies this, store
      ensures store.Valid() && View() == ChargeOne(old(View()), pending, a, cl)
    {
      LetOthers(store, a.others, Debiting);
      if pending.id in chargeAttempts && chargeAttempts[pending.id] >= MAX_DEBIT_ATTEMPTS {
        return;
      }
      var amount := ChargeAmount(cl);
      asked := asked + [ChargeItem(pending.id)];
      match a.debit {
        case Refused =>
          NoteChargeFailure(pending.id);
        case Unconfirmed(tx) =>
          unconfirmed := unconfirmed + [DebitForCharge(pending, cl, tx)];
          NoteChargeFailure(pending.id);
        case Confirmed(tx) =>
          ghost var debit := DebitForCharge(pending, cl, tx);
          chain := chain + [debit];
          chargeAttempts := chargeAttempts - {pending.id};
          if a.recorded {
            store.RecordNonSettlement(pending, amount, tx);
          } else {
            lost := lost + [debit];
          }
      }
    }

    method NoteChargeFailure(position: nat)
      modifies this`chargeAttempts
      ensures chargeAttempts == NoteFailure(old(chargeAttempts), position)
    {
      var n := if position in chargeAttempts then chargeAttempts[position] else 0;
      chargeAttempts := chargeAttempts[position := n + 1];
    }

    /** One pass: the revert debits, then the non-settlement charges. */
    method RunTick(t: TickAnswers)
      requires store.Valid()
      modifies this, store
      ensures store.Valid() && View() == Tick(old(View()), t, cl)
    {
      RevertDebits(t.readsReverts, t.reverts);
      LetOthers(store, t.between, Debiting);
      NonSettlementDebits(t.readsCharges, t.charges);
    }
  }
}
