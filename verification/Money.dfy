/**
 Where the money goes: over any interleaving of penalty ticks with the other
 actors, and any answers from the chain and the database, every charge is
 debited once plus once for each recording that failed, and the audit log
 accounts for every amount that was recorded.
 */
module Money {
  import opened Interleaving
  import opened Lifecycle
  import opened Penalty
  import opened Reachability
  import opened Runs
  import opened Uint256
  import opened Wrappers

  // -------------------------------------------------------------------------
  // Sums and counts
  // -------------------------------------------------------------------------

  function Total(debits: seq<Landed>): nat {
    if debits == [] then 0 else Total(debits[..|debits| - 1]) + debits[|debits| - 1].amount
  }

  /** The debit an event is evidence of, in wei. */
  function DebitedBy(e: Event): nat {
    match e
    case PenalizedEvent(_, _, _, amount, _, _) => amount
    case NonSettlementDebitedEvent(_, _, _, amount, _) => amount
    case _ => 0
  }

  /** What the audit log says was debited. */
  function Logged(log: seq<Event>): nat {
    if log == [] then 0 else Logged(log[..|log| - 1]) + DebitedBy(log[|log| - 1])
  }

  predicate IsFor(debit: Landed, item: Item) {
    match item
    case RevertItem(id) => debit.RevertDebit? && debit.id == id
    case ChargeItem(position) => debit.ChargeDebit? && debit.position == position
  }

  /** How many landed debits an item has. */
  function DebitsFor(debits: seq<Landed>, item: Item): nat {
    if debits == [] then 0
    else DebitsFor(debits[..|debits| - 1], item) + if IsFor(debits[|debits| - 1], item) then 1 else 0
  }

  /** How many times an item was taken to the operator. */
  function TimesAsked(asked: seq<Item>, item: Item): nat {
    multiset(asked)[item]
  }

  lemma DebitsAppend(debits: seq<Landed>, debit: Landed)
    ensures Total(debits + [debit]) == Total(debits) + debit.amount
    ensures forall item :: DebitsFor(debits + [debit], item) ==
                           DebitsFor(debits, item) + if IsFor(debit, item) then 1 else 0
  {
    assert (debits + [debit])[..|debits|] == debits;
  }

  lemma LoggedAppend(log: seq<Event>, e: Event)
    ensures Logged(log + [e]) == Logged(log) + DebitedBy(e)
  {
    assert (log + [e])[..|log|] == log;
  }

  lemma {:induction false} LoggedReleases(s: State, n: nat, age: nat)
    ensures Logged(s.log + ReleaseEvents(s, n, age)) == Logged(s.log)
  {
    if n == 0 {
      assert s.log + ReleaseEvents(s, n, age) == s.log;
    } else {
      LoggedReleases(s, n - 1, age);
      var earlier := s.log + ReleaseEvents(s, n - 1, age);
      if IsStaleExecuting(s, n - 1, age) {
        var e := StatusChange(n - 1, s.rows[n - 1].proposal, Active, None);
        LoggedAppend(earlier, e);
        assert s.log + ReleaseEvents(s, n, age) == earlier + [e];
      } else {
        assert s.log + ReleaseEvents(s, n, age) == earlier;
      }
    }
  }

  // -------------------------------------------------------------------------
  // What the other actors leave alone
  // -------------------------------------------------------------------------

  predicate OwesRevert(s: State, id: ProposalId) {
    id in s.rows && s.rows[id].proposal.status.SettleFailed?
  }

  predicate PaidRevert(s: State, id: ProposalId) {
    id in s.rows && s.rows[id].proposal.status.Penalized?
  }

  predicate PaidCharge(s: State, position: nat) {
    position < |s.penalties| && s.penalties[position].tx.Some?
  }

  /** Failed settlements and their debits, queued charges and logged amounts stay as they are. */
  ghost predicate MoneyKept(s: State, s': State) {
    && (forall id :: OwesRevert(s, id) || PaidRevert(s, id) ==>
          id in s'.rows && s'.rows[id].proposal == s.rows[id].proposal)
    && (forall id :: PaidRevert(s', id) ==> PaidRevert(s, id))
    && |s.penalties| <= |s'.penalties|
    && (forall k :: 0 <= k < |s.penalties| ==> s'.penalties[k] == s.penalties[k])
    && (forall k :: |s.penalties| <= k < |s'.penalties| ==> s'.penalties[k].tx.None?)
    && Logged(s'.log) == Logged(s.log)
  }

  /** The step's one new event, if it has one, is no debit. */
  lemma OthersEmitNoDebit(s: State, step: Step) returns (e: Event)
    requires MeanwhileMay(s, step, Debiting) && !step.Release?
    ensures Apply(s, step).log == s.log || (Apply(s, step).log == s.log + [e] && DebitedBy(e) == 0)
  {
    var s' := Apply(s, step);
    if s'.log == s.log {
      e := DriverNotifiedEvent(0, 0, 0, "");
    } else {
      e := s'.log[|s.log|];
    }
  }

  lemma OthersLogNoDebit(s: State, step: Step)
    requires MeanwhileMay(s, step, Debiting)
    ensures Logged(Apply(s, step).log) == Logged(s.log)
  {
    if step.Release? {
      LoggedReleases(s, s.nextId, step.age);
    } else {
      var e := OthersEmitNoDebit(s, step);
      LoggedAppend(s.log, e);
    }
  }

  /** A failed settlement, debited or not, is out of every other actor's reach. */
  lemma OthersLeaveFailures(s: State, step: Step, id: ProposalId)
    requires MeanwhileMay(s, step, Debiting)
    requires (OwesRevert(s, id) || PaidRevert(s, id)) && RowOk(s, id)
    ensures id in Apply(s, step).rows && Apply(s, step).rows[id].proposal == s.rows[id].proposal
  {
    match step
    case Expire(p) =>
    case Report(p, outcome) =>
    case _ =>
  }

  lemma OthersPayNothing(s: State, step: Step, id: ProposalId)
    requires MeanwhileMay(s, step, Debiting) && PaidRevert(Apply(s, step), id)
    ensures PaidRevert(s, id)
  {
    match step
    case Expire(p) =>
    case Report(p, outcome) =>
    case _ =>
  }

  lemma OthersOnlyQueueCharges(s: State, step: Step)
    requires MeanwhileMay(s, step, Debiting)
    ensures Apply(s, step).penalties == s.penalties
            || (step.Report? && Apply(s, step).penalties == s.penalties + [Charge(step.snapshot)])
  {
  }

  lemma OthersKeepMoney(s: State, step: Step)
    requires Inv(s) && MeanwhileMay(s, step, Debiting)
    ensures MoneyKept(s, Apply(s, step))
  {
    OthersLogNoDebit(s, step);
    OthersOnlyQueueCharges(s, step);
    forall id | OwesRevert(s, id) || PaidRevert(s, id)
      ensures id in Apply(s, step).rows && Apply(s, step).rows[id].proposal == s.rows[id].proposal
    {
      assert RowOk(s, id);
      OthersLeaveFailures(s, step, id);
    }
    forall id | PaidRevert(Apply(s, step), id)
      ensures PaidRevert(s, id)
    {
      OthersPayNothing(s, step, id);
    }
  }

  lemma {:induction false} MeanwhileKeepsMoney(s: State, others: seq<Step>)
    requires Inv(s)
    ensures Inv(Meanwhile(s, others, Debiting)) && Grows(s, Meanwhile(s, others, Debiting))
    ensures MoneyKept(s, Meanwhile(s, others, Debiting))
  {
    if others != [] {
      var before, step := Meanwhile(s, others[..|others| - 1], Debiting), others[|others| - 1];
      MeanwhileKeepsMoney(s, others[..|others| - 1]);
      if MeanwhileMay(before, step, Debiting) {
        StepKeeps(before, step);
        OthersKeepMoney(before, step);
        GrowsTransitive(s, before, Meanwhile(s, others, Debiting));
        MoneyKeptTransitive(s, before, Meanwhile(s, others, Debiting));
      }
    }
  }

  lemma MoneyKeptTransitive(a: State, b: State, c: State)
    requires MoneyKept(a, b) && MoneyKept(b, c)
    ensures MoneyKept(a, c)
  {
    forall id | OwesRevert(a, id) || PaidRevert(a, id)
      ensures id in c.rows && c.rows[id].proposal == a.rows[id].proposal
    {
      assert OwesRevert(b, id) || PaidRevert(b, id);
    }
    forall id | PaidRevert(c, id)
      ensures PaidRevert(a, id)
    {
      assert PaidRevert(b, id);
    }
    forall k | 0 <= k < |a.penalties|
      ensures c.penalties[k] == a.penalties[k]
    {
      assert b.penalties[k] == a.penalties[k];
    }
    forall k | |a.penalties| <= k < |c.penalties|
      ensures c.penalties[k].tx.None?
    {
      if k < |b.penalties| {
        assert c.penalties[k] == b.penalties[k];
      }
    }
  }

  // -------------------------------------------------------------------------
  // Conservation
  // -------------------------------------------------------------------------

  predicate Paid(s: State, item: Item) {
    match item
    case RevertItem(id) => PaidRevert(s, id)
    case ChargeItem(position) => PaidCharge(s, position)
  }

  /** A landed debit charges the right party the right amount for a failure still on record. */
  predicate Justified(s: State, debit: Landed, cl: U256) {
    match debit
    case RevertDebit(id, settlementTx, cost, subSolver, amount, _) =>
      && (OwesRevert(s, id) || PaidRevert(s, id))
      && s.rows[id].proposal.settlementTx == Some(settlementTx)
      && s.rows[id].proposal.body.subSolver == subSolver
      && amount == (if cost + cl <= MAX then cost + cl else MAX)
    case ChargeDebit(position, orderUid, subSolver, amount, _) =>
      && position < |s.penalties|
      && s.penalties[position].orderUid == orderUid && s.penalties[position].subSolver == subSolver
      && amount == cl / 10
  }

  /** Where a paid item keeps the transaction that paid it. */
  function RecordedTx(s: State, item: Item): Option<Hash> {
    if !Paid(s, item) then None
    else match item
      case RevertItem(id) => s.rows[id].proposal.penaltyTx
      case ChargeItem(position) => s.penalties[position].tx
  }

  /** A landed debit for the item carries the recorded transaction. */
  ghost predicate Evidenced(s: State, chain: seq<Landed>, item: Item) {
    exists i :: 0 <= i < |chain| && IsFor(chain[i], item) && RecordedTx(s, item) == Some(chain[i].tx)
  }

  ghost predicate AllJustified(s: State, debits: seq<Landed>, cl: U256) {
    forall i :: 0 <= i < |debits| ==> Justified(s, debits[i], cl)
  }

  /** The books balance. */
  ghost predicate Conserved(s: State, chain: seq<Landed>, lost: seq<Landed>, late: seq<Landed>, cl: U256) {
    && (forall item :: DebitsFor(chain, item) ==
                       (if Paid(s, item) then 1 else 0) + DebitsFor(lost, item) + DebitsFor(late, item))
    && AllJustified(s, chain, cl)
    && (forall item :: Paid(s, item) ==> Evidenced(s, chain, item))
    && Total(chain) == Logged(s.log) + Total(lost) + Total(late)
  }

  lemma PaymentKept(s: State, s': State, item: Item)
    requires MoneyKept(s, s')
    ensures Paid(s', item) <==> Paid(s, item)
    ensures RecordedTx(s', item) == RecordedTx(s, item)
  {
    assert item.RevertItem? ==> (PaidRevert(s, item.id) <==> PaidRevert(s', item.id));
  }

  lemma JustifiedStays(s: State, s': State, debits: seq<Landed>, cl: U256)
    requires MoneyKept(s, s') && AllJustified(s, debits, cl)
    ensures AllJustified(s', debits, cl)
  {
    forall i | 0 <= i < |debits|
      ensures Justified(s', debits[i], cl)
    {
      assert Justified(s, debits[i], cl);
    }
  }

  lemma InterferenceConserves(s: State, others: seq<Step>, chain: seq<Landed>, lost: seq<Landed>,
                              late: seq<Landed>, cl: U256)
    requires Inv(s) && Conserved(s, chain, lost, late, cl)
    ensures Conserved(Meanwhile(s, others, Debiting), chain, lost, late, cl)
  {
    var s' := Meanwhile(s, others, Debiting);
    MeanwhileKeepsMoney(s, others);
    forall item
      ensures Paid(s', item) <==> Paid(s, item)
      ensures RecordedTx(s', item) == RecordedTx(s, item)
    {
      PaymentKept(s, s', item);
    }
    forall item | Paid(s', item)
      ensures Evidenced(s', chain, item)
    {
      assert Evidenced(s, chain, item);
    }
    JustifiedStays(s, s', chain, cl);
  }

  lemma EvidenceSurvives(s: State, s': State, chain: seq<Landed>, debit: Landed, item: Item)
    requires Evidenced(s, chain, item) && RecordedTx(s', item) == RecordedTx(s, item)
    ensures Evidenced(s', chain + [debit], item)
  {
    var i :| 0 <= i < |chain| && IsFor(chain[i], item) && RecordedTx(s, item) == Some(chain[i].tx);
    assert (chain + [debit])[i] == chain[i];
  }

  /** A confirmed debit is not recorded: one more landed, one more lost. */
  lemma LostDebitConserves(s: State, chain: seq<Landed>, lost: seq<Landed>, late: seq<Landed>,
                           debit: Landed, cl: U256)
    requires Conserved(s, chain, lost, late, cl) && Justified(s, debit, cl)
    ensures Conserved(s, chain + [debit], lost + [debit], late, cl)
  {
    DebitsAppend(chain, debit);
    DebitsAppend(lost, debit);
    forall item | Paid(s, item)
      ensures Evidenced(s, chain + [debit], item)
    {
      EvidenceSurvives(s, s, chain, debit, item);
    }
  }

  /** An unconfirmed debit lands: one more landed, one more late. */
  lemma LateDebitConserves(s: State, chain: seq<Landed>, lost: seq<Landed>, late: seq<Landed>,
                           debit: Landed, cl: U256)
    requires Conserved(s, chain, lost, late, cl) && Justified(s, debit, cl)
    ensures Conserved(s, chain + [debit], lost, late + [debit], cl)
  {
    DebitsAppend(chain, debit);
    DebitsAppend(late, debit);
    forall item | Paid(s, item)
      ensures Evidenced(s, chain + [debit], item)
    {
      EvidenceSurvives(s, s, chain, debit, item);
    }
  }

  /** A debit lands and its recording marks exactly its own item paid. */
  lemma RecordedDebitConserves(s: State, s': State, chain: seq<Landed>, lost: seq<Landed>, late: seq<Landed>,
                               debit: Landed, item: Item, e: Event, cl: U256)
    requires Conserved(s, chain, lost, late, cl) && IsFor(debit, item)
    requires s'.log == s.log + [e] && DebitedBy(e) == debit.amount
    requires !Paid(s, item) && Paid(s', item) && RecordedTx(s', item) == Some(debit.tx)
    requires forall other :: other != item ==>
               (Paid(s', other) <==> Paid(s, other)) && RecordedTx(s', other) == RecordedTx(s, other)
    requires Justified(s', debit, cl)
    requires AllJustified(s', chain, cl)
    ensures Conserved(s', chain + [debit], lost, late, cl)
  {
    var chain' := chain + [debit];
    DebitsAppend(chain, debit);
    LoggedAppend(s.log, e);
    forall other
      ensures DebitsFor(chain', other) ==
              (if Paid(s', other) then 1 else 0) + DebitsFor(lost, other) + DebitsFor(late, other)
      ensures Paid(s', other) ==> Evidenced(s', chain', other)
    {
      assert IsFor(debit, other) <==> other == item;
      if other == item {
        assert IsFor(chain'[|chain|], item);
      } else if Paid(s, other) {
        EvidenceSurvives(s, s', chain, debit, other);
      }
    }
  }

  // -------------------------------------------------------------------------
  // One turn
  // -------------------------------------------------------------------------

  /** Every debit that landed or may yet was asked for. */
  ghost predicate AllAskedFor(w: World) {
    forall item :: DebitsFor(w.chain, item) + DebitsFor(w.unconfirmed, item) <= TimesAsked(w.asked, item)
  }

  ghost predicate SoundWorld(w: World, cl: U256) {
    && Inv(w.store)
    && Conserved(w.store, w.chain, w.lost, w.late, cl)
    && AllJustified(w.store, w.unconfirmed, cl)
    && AllAskedFor(w)
  }

  /** A queue entry as the sweep finds it: still the row that was read, still owing. */
  predicate StillOwes(s: State, p: Proposal) {
    HoldsRow(s, p) && p.status.SettleFailed?
  }

  predicate StillQueued(s: State, pending: PendingPenalty) {
    PendingView(s, pending) && s.penalties[pending.id].tx.None?
  }

  lemma RecordedRevertConserves(s: State, p: Proposal, chain: seq<Landed>, lost: seq<Landed>, late: seq<Landed>,
                                debit: Landed, cl: U256)
    requires Inv(s) && Conserved(s, chain, lost, late, cl) && StillOwes(s, p)
    requires IsFor(debit, RevertItem(p.id)) && Justified(s, debit, cl)
    ensures var s' := RecordPenalty(s, p, debit.amount, debit.tx);
            Inv(s') && Grows(s, s') && Conserved(s', chain + [debit], lost, late, cl)
  {
    var s' := RecordPenalty(s, p, debit.amount, debit.tx);
    RowIsView(s, p);
    StepKeeps(s, Penalize(p, debit.amount, debit.tx));
    RevertPaymentJustifies(s, p, debit.amount, debit.tx, chain, cl);
    RecordedDebitConserves(s, s', chain, lost, late, debit, RevertItem(p.id),
      PenalizedEvent(p.id, p.body.subSolver, p.body.orderUid, debit.amount, p.settlementTx, debit.tx), cl);
  }

  lemma RevertPaymentJustifies(s: State, p: Proposal, amount: U256, tx: Hash, debits: seq<Landed>, cl: U256)
    requires StillOwes(s, p) && AllJustified(s, debits, cl)
    ensures AllJustified(RecordPenalty(s, p, amount, tx), debits, cl)
  {
    forall i | 0 <= i < |debits|
      ensures Justified(RecordPenalty(s, p, amount, tx), debits[i], cl)
    {
      assert Justified(s, debits[i], cl);
    }
  }

  lemma RecordedChargeConserves(s: State, pending: PendingPenalty, chain: seq<Landed>, lost: seq<Landed>,
                                late: seq<Landed>, debit: Landed, cl: U256)
    requires Inv(s) && Conserved(s, chain, lost, late, cl) && StillQueued(s, pending)
    requires IsFor(debit, ChargeItem(pending.id)) && Justified(s, debit, cl)
    ensures var s' := RecordNonSettlementDebit(s, pending, debit.amount, debit.tx);
            Inv(s') && Grows(s, s') && Conserved(s', chain + [debit], lost, late, cl)
  {
    var s' := RecordNonSettlementDebit(s, pending, debit.amount, debit.tx);
    StepKeeps(s, Debit(pending, debit.amount, debit.tx));
    ChargePaymentJustifies(s, pending, debit.amount, debit.tx, chain, cl);
    RecordedDebitConserves(s, s', chain, lost, late, debit, ChargeItem(pending.id),
      NonSettlementDebitedEvent(pending.proposalId, pending.subSolver, pending.orderUid,
                                debit.amount, debit.tx), cl);
  }

  lemma ChargePaymentJustifies(s: State, pending: PendingPenalty, amount: U256, tx: Hash, debits: seq<Landed>,
                               cl: U256)
    requires AllJustified(s, debits, cl)
    ensures AllJustified(RecordNonSettlementDebit(s, pending, amount, tx), debits, cl)
  {
    forall i | 0 <= i < |debits|
      ensures Justified(RecordNonSettlementDebit(s, pending, amount, tx), debits[i], cl)
    {
      assert Justified(s, debits[i], cl);
    }
  }

  /** The others write: the books are as balanced as before. */
  lemma InterferenceSound(w: World, others: seq<Step>, cl: U256)
    requires SoundWorld(w, cl)
    ensures var w' := w.(store := Meanwhile(w.store, others, Debiting));
            SoundWorld(w', cl) && Grows(w.store, w'.store) && MoneyKept(w.store, w'.store)
  {
    MeanwhileKeepsMoney(w.store, others);
    InterferenceConserves(w.store, others, w.chain, w.lost, w.late, cl);
    JustifiedStays(w.store, Meanwhile(w.store, others, Debiting), w.unconfirmed, cl);
  }

  /** One more question, whether it failed outright or left a debit that may land. */
  lemma QuestionAsked(w: World, item: Item, sent: seq<Landed>)
    requires AllAskedFor(w) && (sent == [] || (|sent| == 1 && IsFor(sent[0], item)))
    ensures AllAskedFor(w.(asked := w.asked + [item], unconfirmed := w.unconfirmed + sent))
  {
    if sent == [] {
      assert w.unconfirmed + sent == w.unconfirmed;
    } else {
      assert sent == [sent[0]];
      DebitsAppend(w.unconfirmed, sent[0]);
    }
  }

  lemma DebitAskedFor(w: World, item: Item, debit: Landed)
    requires AllAskedFor(w) && IsFor(debit, item)
    ensures AllAskedFor(w.(asked := w.asked + [item], chain := w.chain + [debit]))
  {
    DebitsAppend(w.chain, debit);
  }

  lemma OneMoreJustified(s: State, debits: seq<Landed>, debit: Landed, cl: U256)
    requires AllJustified(s, debits, cl) && Justified(s, debit, cl)
    ensures AllJustified(s, debits + [debit], cl)
  {
  }

  lemma RevertTurnSound(w: World, p: Proposal, a: Answer, cl: U256)
    requires SoundWorld(w, cl) && StillOwes(w.store, p)
    ensures SoundWorld(RevertTurn(w, p, a, cl), cl) && Grows(w.store, RevertTurn(w, p, a, cl).store)
  {
    GrowsReflexive(w.store);
    assert OwesRevert(w.store, p.id) && RowOk(w.store, p.id);
    var item := RevertItem(p.id);
    if !Parked(w.revertAttempts, p.id) {
      if a.cost.None? || a.debit.Refused? {
        QuestionAsked(w, item, []);
        assert w.unconfirmed + [] == w.unconfirmed;
      } else {
        var debit := DebitForRevert(p, a.cost.value, cl, a.debit.tx);
        assert Justified(w.store, debit, cl);
        if a.debit.Unconfirmed? {
          QuestionAsked(w, item, [debit]);
          OneMoreJustified(w.store, w.unconfirmed, debit, cl);
        } else {
          RevertLandsSound(w, p, debit, a.recorded, cl);
        }
      }
    }
  }

  lemma RevertLandsSound(w: World, p: Proposal, debit: Landed, recorded: bool, cl: U256)
    requires SoundWorld(w, cl) && StillOwes(w.store, p)
    requires IsFor(debit, RevertItem(p.id)) && Justified(w.store, debit, cl)
    ensures var w' := RevertLands(w, p, debit, recorded);
            SoundWorld(w', cl) && Grows(w.store, w'.store)
  {
    GrowsReflexive(w.store);
    DebitAskedFor(w, RevertItem(p.id), debit);
    if recorded {
      RecordedRevertConserves(w.store, p, w.chain, w.lost, w.late, debit, cl);
      RevertPaymentJustifies(w.store, p, debit.amount, debit.tx, w.unconfirmed, cl);
    } else {
      LostDebitConserves(w.store, w.chain, w.lost, w.late, debit, cl);
    }
  }

  lemma RevertOneConserves(w: World, p: Proposal, a: Answer, cl: U256)
    requires SoundWorld(w, cl) && StillOwes(w.store, p)
    ensures SoundWorld(RevertOne(w, p, a, cl), cl) && Grows(w.store, RevertOne(w, p, a, cl).store)
  {
    var w1 := w.(store := Meanwhile(w.store, a.others, Debiting));
    InterferenceSound(w, a.others, cl);
    assert OwesRevert(w.store, p.id);
    RevertTurnSound(w1, p, a, cl);
    GrowsTransitive(w.store, w1.store, RevertOne(w, p, a, cl).store);
  }

  lemma ChargeTurnSound(w: World, pending: PendingPenalty, a: Answer, cl: U256)
    requires SoundWorld(w, cl) && StillQueued(w.store, pending)
    ensures SoundWorld(ChargeTurn(w, pending, a, cl), cl) && Grows(w.store, ChargeTurn(w, pending, a, cl).store)
  {
    GrowsReflexive(w.store);
    var item := ChargeItem(pending.id);
    if !Parked(w.chargeAttempts, pending.id) {
      if a.debit.Refused? {
        QuestionAsked(w, item, []);
        assert w.unconfirmed + [] == w.unconfirmed;
      } else {
        var debit := DebitForCharge(pending, cl, a.debit.tx);
        assert Justified(w.store, debit, cl);
        if a.debit.Unconfirmed? {
          QuestionAsked(w, item, [debit]);
          OneMoreJustified(w.store, w.unconfirmed, debit, cl);
        } else {
          ChargeLandsSound(w, pending, debit, a.recorded, cl);
        }
      }
    }
  }

  lemma ChargeLandsSound(w: World, pending: PendingPenalty, debit: Landed, recorded: bool, cl: U256)
    requires SoundWorld(w, cl) && StillQueued(w.store, pending)
    requires IsFor(debit, ChargeItem(pending.id)) && Justified(w.store, debit, cl)
    ensures var w' := ChargeLands(w, pending, debit, recorded);
            SoundWorld(w', cl) && Grows(w.store, w'.store)
  {
    GrowsReflexive(w.store);
    DebitAskedFor(w, ChargeItem(pending.id), debit);
    if recorded {
      RecordedChargeConserves(w.store, pending, w.chain, w.lost, w.late, debit, cl);
      ChargePaymentJustifies(w.store, pending, debit.amount, debit.tx, w.unconfirmed, cl);
    } else {
      LostDebitConserves(w.store, w.chain, w.lost, w.late, debit, cl);
    }
  }

  lemma ChargeOneConserves(w: World, pending: PendingPenalty, a: Answer, cl: U256)
    requires SoundWorld(w, cl) && StillQueued(w.store, pending)
    ensures SoundWorld(ChargeOne(w, pending, a, cl), cl) && Grows(w.store, ChargeOne(w, pending, a, cl).store)
  {
    var w1 := w.(store := Meanwhile(w.store, a.others, Debiting));
    InterferenceSound(w, a.others, cl);
    assert w1.store.penalties[pending.id] == w.store.penalties[pending.id];
    ChargeTurnSound(w1, pending, a, cl);
    GrowsTransitive(w.store, w1.store, ChargeOne(w, pending, a, cl).store);
  }

  // -------------------------------------------------------------------------
  // Late landings
  // -------------------------------------------------------------------------

  lemma {:induction false} DebitsConcat(a: seq<Landed>, b: seq<Landed>, item: Item)
    ensures DebitsFor(a + b, item) == DebitsFor(a, item) + DebitsFor(b, item)
  {
    if b == [] {
      assert a + b == a;
    } else {
      var rest, last := b[..|b| - 1], b[|b| - 1];
      DebitsConcat(a, rest, item);
      DebitsAppend(a + rest, last);
      ConcatAssociates(a, rest, [last]);
      assert b == rest + [last];
    }
  }

  lemma DebitTakenOut(debits: seq<Landed>, k: nat, item: Item)
    requires k < |debits|
    ensures DebitsFor(debits, item) ==
            DebitsFor(debits[..k] + debits[k + 1..], item) + if IsFor(debits[k], item) then 1 else 0
  {
    assert debits == debits[..k] + [debits[k]] + debits[k + 1..];
    DebitsConcat(debits[..k] + [debits[k]], debits[k + 1..], item);
    DebitsAppend(debits[..k], debits[k]);
    DebitsConcat(debits[..k], debits[k + 1..], item);
  }

  /** A late landing balances too, and was asked for when it was sent. */
  lemma LandLateSound(w: World, k: nat, cl: U256)
    requires SoundWorld(w, cl)
    ensures SoundWorld(LandLate(w, k), cl)
  {
    if k < |w.unconfirmed| {
      var debit := w.unconfirmed[k];
      LateDebitConserves(w.store, w.chain, w.lost, w.late, debit, cl);
      DebitsAppend(w.chain, debit);
      forall item
        ensures DebitsFor(LandLate(w, k).chain, item) + DebitsFor(LandLate(w, k).unconfirmed, item)
                <= TimesAsked(w.asked, item)
      {
        DebitTakenOut(w.unconfirmed, k, item);
      }
    }
  }
}
