/**
 The retry budget: no item is taken to the operator more often than its
 budget allows, every tick that can read and record spends some of it, and
 once it is spent the loop is silent.
 */
module Quiescence {
  import opened Interleaving
  import opened Lifecycle
  import opened Money
  import opened Penalty
  import opened PenaltyRuns
  import opened Reachability
  import opened Storage
  import opened Uint256

  predicate Owing(s: State, item: Item) {
    match item
    case RevertItem(id) => OwesRevert(s, id)
    case ChargeItem(position) => position < |s.penalties| && s.penalties[position].tx.None?
  }

  function Tries(w: World, item: Item): nat {
    match item
    case RevertItem(id) => Attempts(w.revertAttempts, id)
    case ChargeItem(position) => Attempts(w.chargeAttempts, position)
  }

  /** The attempts an owing item has left; nothing once it is paid or parked. */
  function AttemptsLeft(owing: bool, tries: nat): nat {
    if owing && tries < MAX_DEBIT_ATTEMPTS then MAX_DEBIT_ATTEMPTS - tries else 0
  }

  /** One item's side of the books. */
  datatype Account = Account(owing: bool, paid: bool, tries: nat, asked: nat, lost: nat) {

    predicate Incurred() {
      owing || paid
    }

    function Left(): nat {
      AttemptsLeft(owing, tries)
    }

    /** Never asked about before it is owing, and never beyond ten attempts a landed debit and a restart. */
    predicate WithinBudget(restarts: nat) {
      && tries <= MAX_DEBIT_ATTEMPTS
      && (!Incurred() ==> asked == 0)
      && asked + Left() <= 10 * (1 + lost + restarts)
    }

    /** What its own turn may do to an owing item. */
    predicate Turns(later: Account, recorded: bool) {
      if tries >= MAX_DEBIT_ATTEMPTS then later == this
      else
        || later == this.(asked := asked + 1, tries := tries + 1)
        || (if recorded
            then later == this.(asked := asked + 1, tries := 0, owing := false, paid := true)
            else later == this.(asked := asked + 1, tries := 0, lost := lost + 1))
    }

    /** What the other actors may do: incur it, at most. */
    predicate Drifts(later: Account) {
      later == this || (!Incurred() && later == this.(owing := true))
    }
  }

  function AccountOf(w: World, item: Item): Account {
    Account(Owing(w.store, item), Paid(w.store, item), Tries(w, item),
            TimesAsked(w.asked, item), DebitsFor(w.lost, item))
  }

  /** Whether the entry whose turn it is moved this account as it may, or another's stayed put. */
  predicate Moved(before: Account, after: Account, own: bool, recorded: bool) {
    if own then before.owing && before.Turns(after, recorded) else after == before
  }

  // -------------------------------------------------------------------------
  // What a turn does to every account
  // -------------------------------------------------------------------------

  lemma InterferenceDrifts(w: World, others: seq<Step>, item: Item)
    requires Inv(w.store)
    ensures AccountOf(w, item).Drifts(AccountOf(w.(store := Meanwhile(w.store, others, Debiting)), item))
  {
    var s, s' := w.store, Meanwhile(w.store, others, Debiting);
    MeanwhileKeepsMoney(s, others);
    match item
    case RevertItem(id) =>
      assert PaidRevert(s, id) <==> PaidRevert(s', id);
      assert OwesRevert(s, id) ==> OwesRevert(s', id);
    case ChargeItem(position) =>
      assert position < |s.penalties| ==> s'.penalties[position] == s.penalties[position];
  }

  /** One more question, one more lost debit: the only counts a turn can raise. */
  lemma CountsAppend(asked: seq<Item>, asking: Item, lost: seq<Landed>, debit: Landed, item: Item)
    ensures TimesAsked(asked + [asking], item) == TimesAsked(asked, item) + if asking == item then 1 else 0
    ensures DebitsFor(lost + [debit], item) == DebitsFor(lost, item) + if IsFor(debit, item) then 1 else 0
  {
    assert (lost + [debit])[..|lost|] == lost;
  }

  lemma RevertFailureMoves(w: World, id: ProposalId, recorded: bool, item: Item)
    requires OwesRevert(w.store, id) && !Parked(w.revertAttempts, id)
    ensures Moved(AccountOf(w, item), AccountOf(RevertFails(w, id), item), item == RevertItem(id), recorded)
  {
  }

  lemma RecordedRevertPays(s: State, p: Proposal, debit: Landed, item: Item)
    requires StillOwes(s, p)
    ensures var s' := RecordPenalty(s, p, debit.amount, debit.tx);
            && Owing(s', item) == (Owing(s, item) && item != RevertItem(p.id))
            && Paid(s', item) == (Paid(s, item) || item == RevertItem(p.id))
  {
  }

  lemma RevertLandingTries(w: World, p: Proposal, debit: Landed, recorded: bool, item: Item)
    ensures Tries(RevertLands(w, p, debit, recorded), item) ==
            if item == RevertItem(p.id) then 0 else Tries(w, item)
  {
  }

  lemma RevertLandingStands(w: World, p: Proposal, debit: Landed, recorded: bool, item: Item)
    requires StillOwes(w.store, p)
    ensures var s' := RevertLands(w, p, debit, recorded).store;
            var pays := recorded && item == RevertItem(p.id);
            Owing(s', item) == (Owing(w.store, item) && !pays) && Paid(s', item) == (Paid(w.store, item) || pays)
  {
    RecordedRevertPays(w.store, p, debit, item);
  }

  lemma RevertLandingCounts(w: World, p: Proposal, debit: Landed, recorded: bool, item: Item)
    requires StillOwes(w.store, p) && IsFor(debit, RevertItem(p.id))
    ensures var w' := RevertLands(w, p, debit, recorded);
            var own := if item == RevertItem(p.id) then 1 else 0;
            && TimesAsked(w'.asked, item) == TimesAsked(w.asked, item) + own
            && DebitsFor(w'.lost, item) == DebitsFor(w.lost, item) + if recorded then 0 else own
  {
    CountsAppend(w.asked, RevertItem(p.id), w.lost, debit, item);
  }

  lemma RevertLandingMoves(w: World, p: Proposal, debit: Landed, recorded: bool, item: Item)
    requires StillOwes(w.store, p) && !Parked(w.revertAttempts, p.id) && IsFor(debit, RevertItem(p.id))
    ensures Moved(AccountOf(w, item), AccountOf(RevertLands(w, p, debit, recorded), item),
                  item == RevertItem(p.id), recorded)
  {
    RevertLandingTries(w, p, debit, recorded, item);
    RevertLandingStands(w, p, debit, recorded, item);
    RevertLandingCounts(w, p, debit, recorded, item);
  }

  lemma RevertTurnMoves(w: World, p: Proposal, a: Answer, cl: U256, item: Item)
    requires Inv(w.store) && StillOwes(w.store, p)
    ensures Moved(AccountOf(w, item), AccountOf(RevertTurn(w, p, a, cl), item), item == RevertItem(p.id), a.recorded)
  {
    assert RowOk(w.store, p.id);
    if !Parked(w.revertAttempts, p.id) {
      if a.cost.None? || a.debit.Refused? {
        RevertFailureMoves(w, p.id, a.recorded, item);
      } else {
        var debit := DebitForRevert(p, a.cost.value, cl, a.debit.tx);
        if a.debit.Confirmed? {
          RevertLandingMoves(w, p, debit, a.recorded, item);
        } else {
          RevertFailureMoves(Leaves(w, debit), p.id, a.recorded, item);
        }
      }
    }
  }

  lemma ChargeFailureMoves(w: World, position: nat, recorded: bool, item: Item)
    requires Owing(w.store, ChargeItem(position)) && !Parked(w.chargeAttempts, position)
    ensures Moved(AccountOf(w, item), AccountOf(ChargeFails(w, position), item),
                  item == ChargeItem(position), recorded)
  {
  }

  lemma RecordedChargePays(s: State, pending: PendingPenalty, debit: Landed, item: Item)
    requires StillQueued(s, pending)
    ensures var s' := RecordNonSettlementDebit(s, pending, debit.amount, debit.tx);
            && Owing(s', item) == (Owing(s, item) && item != ChargeItem(pending.id))
            && Paid(s', item) == (Paid(s, item) || item == ChargeItem(pending.id))
  {
  }

  lemma ChargeLandingTries(w: World, pending: PendingPenalty, debit: Landed, recorded: bool, item: Item)
    ensures Tries(ChargeLands(w, pending, debit, recorded), item) ==
            if item == ChargeItem(pending.id) then 0 else Tries(w, item)
  {
  }

  lemma ChargeLandingStands(w: World, pending: PendingPenalty, debit: Landed, recorded: bool, item: Item)
    requires StillQueued(w.store, pending)
    ensures var s' := ChargeLands(w, pending, debit, recorded).store;
            var pays := recorded && item == ChargeItem(pending.id);
            Owing(s', item) == (Owing(w.store, item) && !pays) && Paid(s', item) == (Paid(w.store, item) || pays)
  {
    RecordedChargePays(w.store, pending, debit, item);
  }

  lemma ChargeLandingCounts(w: World, pending: PendingPenalty, debit: Landed, recorded: bool, item: Item)
    requires IsFor(debit, ChargeItem(pending.id))
    ensures var w' := ChargeLands(w, pending, debit, recorded);
            var own := if item == ChargeItem(pending.id) then 1 else 0;
            && TimesAsked(w'.asked, item) == TimesAsked(w.asked, item) + own
            && DebitsFor(w'.lost, item) == DebitsFor(w.lost, item) + if recorded then 0 else own
  {
    CountsAppend(w.asked, ChargeItem(pending.id), w.lost, debit, item);
  }

  lemma ChargeLandingMoves(w: World, pending: PendingPenalty, debit: Landed, recorded: bool, item: Item)
    requires StillQueued(w.store, pending) && !Parked(w.chargeAttempts, pending.id)
    requires IsFor(debit, ChargeItem(pending.id))
    ensures Moved(AccountOf(w, item), AccountOf(ChargeLands(w, pending, debit, recorded), item),
                  item == ChargeItem(pending.id), recorded)
  {
    ChargeLandingTries(w, pending, debit, recorded, item);
    ChargeLandingStands(w, pending, debit, recorded, item);
    ChargeLandingCounts(w, pending, debit, recorded, item);
  }

  lemma ChargeTurnMoves(w: World, pending: PendingPenalty, a: Answer, cl: U256, item: Item)
    requires StillQueued(w.store, pending)
    ensures Moved(AccountOf(w, item), AccountOf(ChargeTurn(w, pending, a, cl), item),
                  item == ChargeItem(pending.id), a.recorded)
  {
    if !Parked(w.chargeAttempts, pending.id) {
      match a.debit
      case Refused => ChargeFailureMoves(w, pending.id, a.recorded, item);
      case Unconfirmed(tx) =>
        ChargeFailureMoves(Leaves(w, DebitForCharge(pending, cl, tx)), pending.id, a.recorded, item);
      case Confirmed(tx) => ChargeLandingMoves(w, pending, DebitForCharge(pending, cl, tx), a.recorded, item);
    }
  }

  /** An owing item is asked about once a turn until its tenth failure in a row, and not again. */
  lemma TurnAsksUntilTen(w: World, p: Proposal, pending: PendingPenalty, a: Answer, cl: U256)
    requires p.settlementTx.Some?
    ensures RevertTurn(w, p, a, cl).asked ==
            if Attempts(w.revertAttempts, p.id) < 10 then w.asked + [RevertItem(p.id)] else w.asked
    ensures ChargeTurn(w, pending, a, cl).asked ==
            if Attempts(w.chargeAttempts, pending.id) < 10 then w.asked + [ChargeItem(pending.id)] else w.asked
  {
  }

  /** The entry's row is untouched by the others before its turn. */
  lemma QueuesHold(w: World, others: seq<Step>)
    requires Inv(w.store)
    ensures Inv(Meanwhile(w.store, others, Debiting))
    ensures forall p :: StillOwes(w.store, p) ==> StillOwes(Meanwhile(w.store, others, Debiting), p)
    ensures forall q :: StillQueued(w.store, q) ==> StillQueued(Meanwhile(w.store, others, Debiting), q)
  {
    MeanwhileKeepsMoney(w.store, others);
    forall p | StillOwes(w.store, p)
      ensures StillOwes(Meanwhile(w.store, others, Debiting), p)
    {
      assert OwesRevert(w.store, p.id);
    }
    forall q | StillQueued(w.store, q)
      ensures StillQueued(Meanwhile(w.store, others, Debiting), q)
    {
      assert Meanwhile(w.store, others, Debiting).penalties[q.id] == w.store.penalties[q.id];
    }
  }

  // -------------------------------------------------------------------------
  // One account along a sweep
  // -------------------------------------------------------------------------

  /** The others write, then somebody's entry has its turn. */
  predicate AccountStep(before: Account, after: Account, own: bool, recorded: bool) {
    || Moved(before, after, own, recorded)
    || (!before.Incurred() && Moved(before.(owing := true), after, own, recorded))
  }

  /** Every step of the path is a step of the account, at its own turn or another's. */
  predicate AccountPath(path: seq<Account>, owns: seq<bool>, recorded: seq<bool>) {
    && |path| == |owns| + 1 == |recorded| + 1
    && forall k :: 0 <= k < |owns| ==> AccountStep(path[k], path[k + 1], owns[k], recorded[k])
  }

  lemma {:induction false} PathKeepsBudget(
      path: seq<Account>, owns: seq<bool>, recorded: seq<bool>, n: nat, restarts: nat)
    requires AccountPath(path, owns, recorded) && n < |path| && path[0].WithinBudget(restarts)
    ensures path[n].WithinBudget(restarts)
  {
    if n > 0 {
      PathKeepsBudget(path, owns, recorded, n - 1, restarts);
      assert AccountStep(path[n - 1], path[n - 1 + 1], owns[n - 1], recorded[n - 1]);
    }
  }

  /** Owing and paid are exclusive. */
  predicate Coherent(account: Account) {
    account.Incurred() && !(account.owing && account.paid)
  }

  predicate Spent(before: nat, after: nat) {
    after == 0 || after < before
  }

  lemma StepSpends(before: Account, after: Account, own: bool)
    requires Coherent(before) && AccountStep(before, after, own, true)
    ensures Coherent(after) && after.Left() <= before.Left()
    ensures own ==> Spent(before.Left(), after.Left())
  {
  }

  /** With every recording succeeding an incurred account never gets richer, and its own turn spends. */
  lemma {:induction false} PathSpends(path: seq<Account>, owns: seq<bool>, recorded: seq<bool>, n: nat)
    requires AccountPath(path, owns, recorded) && n < |path| && Coherent(path[0])
    requires forall k :: 0 <= k < |recorded| ==> recorded[k]
    ensures Coherent(path[n]) && path[n].Left() <= path[0].Left()
    ensures true in owns[..n] ==> Spent(path[0].Left(), path[n].Left())
  {
    if n > 0 {
      PathSpends(path, owns, recorded, n - 1);
      assert AccountStep(path[n - 1], path[n - 1 + 1], owns[n - 1], recorded[n - 1]);
      StepSpends(path[n - 1], path[n], owns[n - 1]);
      assert owns[..n] == owns[..n - 1] + [owns[n - 1]];
    }
  }

  lemma RevertSweepUnrolls(w: World, queue: seq<Proposal>, n: nat, answers: nat -> Answer, cl: U256)
    requires SoundWorld(w, cl) && RevertQueue(w.store, queue) && n < |queue|
    ensures var before := RevertSweep(w, queue[..n], answers, cl);
            && Inv(before.store) && StillOwes(before.store, queue[n])
            && RevertSweep(w, queue[..n + 1], answers, cl) == RevertOne(before, queue[n], answers(n), cl)
  {
    RevertSweepKeeps(w, queue, n, answers, cl);
    assert queue[..n + 1][..n] == queue[..n];
  }

  lemma RevertSweepStep(w: World, queue: seq<Proposal>, n: nat, answers: nat -> Answer, cl: U256, item: Item)
    requires SoundWorld(w, cl) && RevertQueue(w.store, queue) && n < |queue|
    ensures AccountStep(AccountOf(RevertSweep(w, queue[..n], answers, cl), item),
                        AccountOf(RevertSweep(w, queue[..n + 1], answers, cl), item),
                        item == RevertItem(queue[n].id), answers(n).recorded)
  {
    var before := RevertSweep(w, queue[..n], answers, cl);
    RevertSweepUnrolls(w, queue, n, answers, cl);
    RevertOneSteps(before, queue[n], answers(n), cl, item);
  }

  lemma RevertOneSteps(w: World, entry: Proposal, a: Answer, cl: U256, item: Item)
    requires Inv(w.store) && StillOwes(w.store, entry)
    ensures AccountStep(AccountOf(w, item), AccountOf(RevertOne(w, entry, a, cl), item),
                        item == RevertItem(entry.id), a.recorded)
  {
    var w1 := w.(store := Meanwhile(w.store, a.others, Debiting));
    InterferenceDrifts(w, a.others, item);
    QueuesHold(w, a.others);
    RevertTurnMoves(w1, entry, a, cl, item);
  }

  /** The account before each turn of a sweep and after the last. */
  lemma RevertPath(w: World, queue: seq<Proposal>, answers: nat -> Answer, cl: U256, item: Item)
    returns (path: seq<Account>, owns: seq<bool>, recorded: seq<bool>)
    requires SoundWorld(w, cl) && RevertQueue(w.store, queue)
    ensures AccountPath(path, owns, recorded) && |owns| == |queue|
    ensures forall k :: 0 <= k < |queue| ==> owns[k] == (item == RevertItem(queue[k].id))
    ensures forall k :: 0 <= k < |queue| ==> recorded[k] == answers(k).recorded
    ensures path[0] == AccountOf(w, item)
    ensures path[|queue|] == AccountOf(RevertSweep(w, queue, answers, cl), item)
  {
    path := seq(|queue| + 1, k requires 0 <= k <= |queue| =>
                  AccountOf(RevertSweep(w, queue[..k], answers, cl), item));
    owns := seq(|queue|, k requires 0 <= k < |queue| => item == RevertItem(queue[k].id));
    recorded := seq(|queue|, k requires 0 <= k < |queue| => answers(k).recorded);
    forall k | 0 <= k < |queue|
      ensures AccountStep(path[k], path[k + 1], owns[k], recorded[k])
    {
      RevertSweepStep(w, queue, k, answers, cl, item);
    }
    assert queue[..|queue|] == queue;
  }

  lemma RevertSweepKeepsBudget(
      w: World, queue: seq<Proposal>, answers: nat -> Answer, cl: U256, item: Item, restarts: nat)
    requires SoundWorld(w, cl) && RevertQueue(w.store, queue) && AccountOf(w, item).WithinBudget(restarts)
    ensures AccountOf(RevertSweep(w, queue, answers, cl), item).WithinBudget(restarts)
  {
    var path, owns, recorded := RevertPath(w, queue, answers, cl, item);
    PathKeepsBudget(path, owns, recorded, |queue|, restarts);
  }

  lemma RevertSweepSpends(w: World, queue: seq<Proposal>, answers: nat -> Answer, cl: U256, item: Item, at: int)
    requires SoundWorld(w, cl) && RevertQueue(w.store, queue) && Coherent(AccountOf(w, item))
    requires forall i: nat :: answers(i).recorded
    ensures var before, after := AccountOf(w, item), AccountOf(RevertSweep(w, queue, answers, cl), item);
            && Coherent(after) && after.Left() <= before.Left()
            && (0 <= at < |queue| && item == RevertItem(queue[at].id) ==> Spent(before.Left(), after.Left()))
  {
    var path, owns, recorded := RevertPath(w, queue, answers, cl, item);
    PathSpends(path, owns, recorded, |queue|);
    assert 0 <= at < |queue| && item == RevertItem(queue[at].id) ==> owns[at] && owns[at] in owns;
    assert owns[..|queue|] == owns;
  }

  lemma ChargeSweepUnrolls(w: World, queue: seq<PendingPenalty>, n: nat, answers: nat -> Answer, cl: U256)
    requires SoundWorld(w, cl) && ChargeQueue(w.store, queue) && n < |queue|
    ensures var before := ChargeSweep(w, queue[..n], answers, cl);
            && Inv(before.store) && StillQueued(before.store, queue[n])
            && ChargeSweep(w, queue[..n + 1], answers, cl) == ChargeOne(before, queue[n], answers(n), cl)
  {
    ChargeSweepKeeps(w, queue, n, answers, cl);
    assert queue[..n + 1][..n] == queue[..n];
  }

  lemma ChargeSweepStep(w: World, queue: seq<PendingPenalty>, n: nat, answers: nat -> Answer, cl: U256, item: Item)
    requires SoundWorld(w, cl) && ChargeQueue(w.store, queue) && n < |queue|
    ensures AccountStep(AccountOf(ChargeSweep(w, queue[..n], answers, cl), item),
                        AccountOf(ChargeSweep(w, queue[..n + 1], answers, cl), item),
                        item == ChargeItem(queue[n].id), answers(n).recorded)
  {
    var before := ChargeSweep(w, queue[..n], answers, cl);
    ChargeSweepUnrolls(w, queue, n, answers, cl);
    ChargeOneSteps(before, queue[n], answers(n), cl, item);
  }

  lemma ChargeOneSteps(w: World, entry: PendingPenalty, a: Answer, cl: U256, item: Item)
    requires Inv(w.store) && StillQueued(w.store, entry)
    ensures AccountStep(AccountOf(w, item), AccountOf(ChargeOne(w, entry, a, cl), item),
                        item == ChargeItem(entry.id), a.recorded)
  {
    var w1 := w.(store := Meanwhile(w.store, a.others, Debiting));
    InterferenceDrifts(w, a.others, item);
    QueuesHold(w, a.others);
    ChargeTurnMoves(w1, entry, a, cl, item);
  }

  /** The account before each turn of a sweep and after the last. */
  lemma ChargePath(w: World, queue: seq<PendingPenalty>, answers: nat -> Answer, cl: U256, item: Item)
    returns (path: seq<Account>, owns: seq<bool>, recorded: seq<bool>)
    requires SoundWorld(w, cl) && ChargeQueue(w.store, queue)
    ensures AccountPath(path, owns, recorded) && |owns| == |queue|
    ensures forall k :: 0 <= k < |queue| ==> owns[k] == (item == ChargeItem(queue[k].id))
    ensures forall k :: 0 <= k < |queue| ==> recorded[k] == answers(k).recorded
    ensures path[0] == AccountOf(w, item)
    ensures path[|queue|] == AccountOf(ChargeSweep(w, queue, answers, cl), item)
  {
    path := seq(|queue| + 1, k requires 0 <= k <= |queue| =>
                  AccountOf(ChargeSweep(w, queue[..k], answers, cl), item));
    owns := seq(|queue|, k requires 0 <= k < |queue| => item == ChargeItem(queue[k].id));
    recorded := seq(|queue|, k requires 0 <= k < |queue| => answers(k).recorded);
    forall k | 0 <= k < |queue|
      ensures AccountStep(path[k], path[k + 1], owns[k], recorded[k])
    {
      ChargeSweepStep(w, queue, k, answers, cl, item);
    }
    assert queue[..|queue|] == queue;
  }

  lemma ChargeSweepKeepsBudget(
      w: World, queue: seq<PendingPenalty>, answers: nat -> Answer, cl: U256, item: Item, restarts: nat)
    requires SoundWorld(w, cl) && ChargeQueue(w.store, queue) && AccountOf(w, item).WithinBudget(restarts)
    ensures AccountOf(ChargeSweep(w, queue, answers, cl), item).WithinBudget(restarts)
  {
    var path, owns, recorded := ChargePath(w, queue, answers, cl, item);
    PathKeepsBudget(path, owns, recorded, |queue|, restarts);
  }

  lemma ChargeSweepSpends(w: World, queue: seq<PendingPenalty>, answers: nat -> Answer, cl: U256, item: Item, at: int)
    requires SoundWorld(w, cl) && ChargeQueue(w.store, queue) && Coherent(AccountOf(w, item))
    requires forall i: nat :: answers(i).recorded
    ensures var before, after := AccountOf(w, item), AccountOf(ChargeSweep(w, queue, answers, cl), item);
            && Coherent(after) && after.Left() <= before.Left()
            && (0 <= at < |queue| && item == ChargeItem(queue[at].id) ==> Spent(before.Left(), after.Left()))
  {
    var path, owns, recorded := ChargePath(w, queue, answers, cl, item);
    PathSpends(path, owns, recorded, |queue|);
    assert 0 <= at < |queue| && item == ChargeItem(queue[at].id) ==> owns[at] && owns[at] in owns;
    assert owns[..|queue|] == owns;
  }

  // -------------------------------------------------------------------------
  // No item is asked about beyond its budget
  // -------------------------------------------------------------------------

  predicate BudgetKept(w: World, item: Item, restarts: nat) {
    AccountOf(w, item).WithinBudget(restarts)
  }

  /** The attempts the item has left. */
  function Potential(w: World, item: Item): nat {
    AccountOf(w, item).Left()
  }

  /** The revert sweep's result, before the others write again. */
  function Debited(w: World, t: TickAnswers, cl: U256): World {
    if t.readsReverts then RevertSweep(w, Reverts(w.store), t.reverts, cl) else w
  }

  lemma DebitedKeeps(w: World, t: TickAnswers, cl: U256)
    requires SoundWorld(w, cl)
    ensures SoundWorld(Debited(w, t, cl), cl)
    ensures AfterReverts(w, t, cl) ==
            Debited(w, t, cl).(store := Meanwhile(Debited(w, t, cl).store, t.between, Debiting))
  {
    var queue := Reverts(w.store);
    SnapshotQueues(w.store);
    RevertSweepKeeps(w, queue, |queue|, t.reverts, cl);
    assert queue[..|queue|] == queue;
  }

  lemma HalfTickKeepsBudget(w: World, t: TickAnswers, cl: U256, item: Item, restarts: nat)
    requires SoundWorld(w, cl) && BudgetKept(w, item, restarts)
    ensures BudgetKept(AfterReverts(w, t, cl), item, restarts)
  {
    DebitedKeeps(w, t, cl);
    if t.readsReverts {
      SnapshotQueues(w.store);
      RevertSweepKeepsBudget(w, Reverts(w.store), t.reverts, cl, item, restarts);
    }
    InterferenceDrifts(Debited(w, t, cl), t.between, item);
  }

  lemma TickKeepsBudget(w: World, t: TickAnswers, cl: U256, item: Item, restarts: nat)
    requires SoundWorld(w, cl) && BudgetKept(w, item, restarts)
    ensures BudgetKept(Tick(w, t, cl), item, restarts)
  {
    HalfTickKeeps(w, t, cl);
    HalfTickKeepsBudget(w, t, cl, item, restarts);
    if t.readsCharges {
      var mid := AfterReverts(w, t, cl);
      ChargeSweepKeepsBudget(mid, Charges(mid.store), t.charges, cl, item, restarts);
    }
  }

  function RestartCount(life: seq<Happening>): nat {
    if life == [] then 0
    else RestartCount(life[..|life| - 1]) + if life[|life| - 1].Restart? then 1 else 0
  }

  lemma HappeningKeepsBudget(w: World, h: Happening, cl: U256, item: Item, restarts: nat)
    requires SoundWorld(w, cl) && BudgetKept(w, item, restarts)
    ensures BudgetKept(Happened(w, h, cl), item, if h.Restart? then restarts + 1 else restarts)
  {
    match h
    case OtherWrites(steps) => InterferenceDrifts(w, steps, item);
    case PenaltyTick(t) => TickKeepsBudget(w, t, cl, item, restarts);
    case Restart =>
    case LandsLate(position) =>
  }

  lemma {:induction false} LifeKeepsBudget(w: World, life: seq<Happening>, cl: U256, item: Item)
    requires SoundWorld(w, cl) && BudgetKept(w, item, 0)
    ensures BudgetKept(Live(w, life, cl), item, RestartCount(life))
  {
    if life != [] {
      var earlier, last := life[..|life| - 1], life[|life| - 1];
      LifeKeepsBudget(w, earlier, cl, item);
      LiveKeeps(w, earlier, cl);
      HappeningKeepsBudget(Live(w, earlier, cl), last, cl, item, RestartCount(earlier));
    }
  }

  /**
   Over every life, whatever the chain answers, an item is taken to the
   operator at most ten times, and ten more for each landed debit whose
   recording failed and for each restart of the loop, and never before it owes.
   Every debit that landed or may yet was one of those times, so this caps the
   double charges.
   */
  lemma AskedAtMostTenTimes(life: seq<Happening>, cl: U256, item: Item)
    ensures var w := Live(START, life, cl);
            && DebitsFor(w.chain, item) + DebitsFor(w.unconfirmed, item) <= TimesAsked(w.asked, item)
            && TimesAsked(w.asked, item) <= 10 * (1 + DebitsFor(w.lost, item) + RestartCount(life))
            && (!AccountOf(w, item).Incurred() ==> TimesAsked(w.asked, item) == 0)
  {
    StartSound(cl);
    LiveKeeps(START, life, cl);
    LifeKeepsBudget(START, life, cl, item);
  }

  // -------------------------------------------------------------------------
  // Every tick spends
  // -------------------------------------------------------------------------

  /** A tick the database does not fail for the item: it reads the item's queue and records what lands. */
  ghost predicate Serves(t: TickAnswers, item: Item) {
    (if item.RevertItem? then t.readsReverts else t.readsCharges) && AllRecorded(t)
  }

  predicate ItemReadable(s: State, item: Item) {
    item.RevertItem? && item.id in s.rows ==> Readable(s.rows[item.id])
  }

  lemma TickSpends(w: World, t: TickAnswers, cl: U256, item: Item)
    requires SoundWorld(w, cl) && Serves(t, item) && AccountOf(w, item).Incurred() && ItemReadable(w.store, item)
    ensures AccountOf(Tick(w, t, cl), item).Incurred()
    ensures Spent(Potential(w, item), Potential(Tick(w, t, cl), item))
  {
    HalfTickKeeps(w, t, cl);
    DebitedKeeps(w, t, cl);
    var mid := AfterReverts(w, t, cl);
    var r := RevertTurnOf(w.store, item);
    if t.readsReverts {
      RevertSweepSpends(w, Reverts(w.store), t.reverts, cl, item, r);
    }
    InterferenceDrifts(Debited(w, t, cl), t.between, item);
    var c := ChargeTurnOf(mid.store, item);
    if t.readsCharges {
      ChargeSweepSpends(mid, Charges(mid.store), t.charges, cl, item, c);
    }
  }

  /** Where in the tick's queue an owing item is found. */
  lemma RevertTurnOf(s: State, item: Item) returns (at: int)
    requires Inv(s) && ItemReadable(s, item)
    ensures item.RevertItem? && Owing(s, item) ==> 0 <= at < |Reverts(s)| && item == RevertItem(Reverts(s)[at].id)
  {
    at := -1;
    if item.RevertItem? && OwesRevert(s, item.id) {
      assert RowOk(s, item.id);
      SnapshotQueues(s);
      assert ReadableOwes(s, item.id);
      at :| 0 <= at < |Reverts(s)| && Reverts(s)[at] == s.rows[item.id].proposal;
    }
  }

  lemma ChargeTurnOf(s: State, item: Item) returns (at: int)
    ensures item.ChargeItem? && Owing(s, item) ==> 0 <= at < |Charges(s)| && item == ChargeItem(Charges(s)[at].id)
  {
    at := -1;
    if item.ChargeItem? && Owing(s, item) {
      PendingMisses(s, |s.penalties|, item.position);
      at :| 0 <= at < |Charges(s)| && Charges(s)[at] == PendingAt(s, item.position);
    }
  }

  function TickCount(life: seq<Happening>): nat {
    if life == [] then 0
    else TickCount(life[..|life| - 1]) + if life[|life| - 1].PenaltyTick? then 1 else 0
  }

  /** Along this life the loop keeps running, and the database serves every tick and can read the item. */
  ghost predicate ServedLife(w: World, life: seq<Happening>, cl: U256, item: Item) {
    life == [] ||
    var earlier, last := life[..|life| - 1], life[|life| - 1];
    && ServedLife(w, earlier, cl, item) && !last.Restart?
    && (last.PenaltyTick? ==> Serves(last.answers, item) && ItemReadable(Live(w, earlier, cl).store, item))
  }

  lemma ServedSpends(w: World, h: Happening, cl: U256, item: Item)
    requires SoundWorld(w, cl) && AccountOf(w, item).Incurred() && !h.Restart?
    requires h.PenaltyTick? ==> Serves(h.answers, item) && ItemReadable(w.store, item)
    ensures AccountOf(Happened(w, h, cl), item).Incurred()
    ensures Potential(Happened(w, h, cl), item) <= Potential(w, item)
    ensures h.PenaltyTick? ==> Spent(Potential(w, item), Potential(Happened(w, h, cl), item))
  {
    match h
    case OtherWrites(steps) => InterferenceDrifts(w, steps, item);
    case PenaltyTick(t) => TickSpends(w, t, cl, item);
    case LandsLate(position) =>
  }

  lemma {:induction false} ServedLifeSpends(w: World, life: seq<Happening>, cl: U256, item: Item)
    requires SoundWorld(w, cl) && AccountOf(w, item).Incurred() && ServedLife(w, life, cl, item)
    ensures AccountOf(Live(w, life, cl), item).Incurred()
    ensures Potential(Live(w, life, cl), item) == 0
            || Potential(Live(w, life, cl), item) + TickCount(life) <= Potential(w, item)
  {
    if life != [] {
      var earlier, last := life[..|life| - 1], life[|life| - 1];
      ServedLifeSpends(w, earlier, cl, item);
      LiveKeeps(w, earlier, cl);
      ServedSpends(Live(w, earlier, cl), last, cl, item);
    }
  }

  /**
   The retry budget is a termination measure: each served tick spends it, under
   any chain answers and any other writes, so after ten of them every item
   that was owing is paid or parked.
   */
  lemma TenTicksSettle(w: World, life: seq<Happening>, cl: U256, item: Item)
    requires SoundWorld(w, cl) && AccountOf(w, item).Incurred() && ServedLife(w, life, cl, item)
    requires TickCount(life) >= MAX_DEBIT_ATTEMPTS
    ensures Potential(Live(w, life, cl), item) == 0
    ensures Paid(Live(w, life, cl).store, item) || Tries(Live(w, life, cl), item) >= MAX_DEBIT_ATTEMPTS
  {
    ServedLifeSpends(w, life, cl, item);
  }

  // -------------------------------------------------------------------------
  // Silence
  // -------------------------------------------------------------------------

  ghost predicate LeftAlone(t: TickAnswers) {
    t.between == [] && forall i: nat :: t.reverts(i).others == [] && t.charges(i).others == []
  }

  /** Every readable item is paid or parked. */
  ghost predicate NothingLeft(w: World) {
    forall item :: ItemReadable(w.store, item) ==> Potential(w, item) == 0
  }

  lemma SpentReverts(w: World)
    requires Inv(w.store) && NothingLeft(w)
    ensures forall i :: 0 <= i < |Reverts(w.store)| ==> Parked(w.revertAttempts, Reverts(w.store)[i].id)
  {
    forall i | 0 <= i < |Reverts(w.store)|
      ensures Parked(w.revertAttempts, Reverts(w.store)[i].id)
    {
      SnapshotQueues(w.store);
      assert ReadableOwes(w.store, Reverts(w.store)[i].id);
      assert ItemReadable(w.store, RevertItem(Reverts(w.store)[i].id));
    }
  }

  lemma SpentCharges(w: World)
    requires NothingLeft(w)
    ensures forall i :: 0 <= i < |Charges(w.store)| ==> Parked(w.chargeAttempts, Charges(w.store)[i].id)
  {
    PendingQueues(w.store, |w.store.penalties|);
    forall i | 0 <= i < |Charges(w.store)|
      ensures Parked(w.chargeAttempts, Charges(w.store)[i].id)
    {
      assert ItemReadable(w.store, ChargeItem(Charges(w.store)[i].id));
    }
  }

  /** With every readable item paid or parked and nobody writing, a tick does nothing at all. */
  lemma SpentTickIsSilent(w: World, t: TickAnswers, cl: U256)
    requires SoundWorld(w, cl) && LeftAlone(t) && NothingLeft(w)
    ensures Tick(w, t, cl) == w
  {
    var reverts, charges := Reverts(w.store), Charges(w.store);
    SpentReverts(w);
    SpentCharges(w);
    ParkedRevertsSilent(w, reverts, |reverts|, t.reverts, cl);
    ParkedChargesSilent(w, charges, |charges|, t.charges, cl);
    assert reverts[..|reverts|] == reverts && charges[..|charges|] == charges;
  }

  lemma {:induction false} ParkedRevertsSilent(
      w: World, queue: seq<Proposal>, n: nat, answers: nat -> Answer, cl: U256)
    requires n <= |queue| && forall i: nat :: answers(i).others == []
    requires forall i :: 0 <= i < |queue| ==> Parked(w.revertAttempts, queue[i].id)
    ensures RevertSweep(w, queue[..n], answers, cl) == w
  {
    if n > 0 {
      ParkedRevertsSilent(w, queue, n - 1, answers, cl);
      assert queue[..n][..n - 1] == queue[..n - 1];
    }
  }

  lemma {:induction false} ParkedChargesSilent(
      w: World, queue: seq<PendingPenalty>, n: nat, answers: nat -> Answer, cl: U256)
    requires n <= |queue| && forall i: nat :: answers(i).others == []
    requires forall i :: 0 <= i < |queue| ==> Parked(w.chargeAttempts, queue[i].id)
    ensures ChargeSweep(w, queue[..n], answers, cl) == w
  {
    if n > 0 {
      ParkedChargesSilent(w, queue, n - 1, answers, cl);
      assert queue[..n][..n - 1] == queue[..n - 1];
    }
  }

  // -------------------------------------------------------------------------
  // A loop left alone goes quiet
  // -------------------------------------------------------------------------

  /** Nothing new is owing, and rows stay as readable as they were. */
  ghost predicate Shrinks(s: State, s': State) {
    && (forall item :: Owing(s', item) ==> Owing(s, item))
    && s'.rows.Keys == s.rows.Keys
    && (forall id :: id in s.rows ==> Readable(s'.rows[id]) == Readable(s.rows[id]))
  }

  lemma RevertTurnShrinks(w: World, p: Proposal, a: Answer, cl: U256)
    ensures Shrinks(w.store, RevertTurn(w, p, a, cl).store)
  {
  }

  lemma ChargeTurnShrinks(w: World, pending: PendingPenalty, a: Answer, cl: U256)
    ensures Shrinks(w.store, ChargeTurn(w, pending, a, cl).store)
  {
  }

  lemma {:induction false} RevertSweepShrinks(w: World, queue: seq<Proposal>, answers: nat -> Answer, cl: U256)
    requires forall i: nat :: answers(i).others == []
    ensures Shrinks(w.store, RevertSweep(w, queue, answers, cl).store)
  {
    if queue != [] {
      var last := |queue| - 1;
      var before := RevertSweep(w, queue[..last], answers, cl);
      RevertSweepShrinks(w, queue[..last], answers, cl);
      RevertTurnShrinks(before, queue[last], answers(last), cl);
      assert RevertSweep(w, queue, answers, cl) == RevertTurn(before, queue[last], answers(last), cl);
    }
  }

  lemma {:induction false} ChargeSweepShrinks(w: World, queue: seq<PendingPenalty>, answers: nat -> Answer, cl: U256)
    requires forall i: nat :: answers(i).others == []
    ensures Shrinks(w.store, ChargeSweep(w, queue, answers, cl).store)
  {
    if queue != [] {
      var last := |queue| - 1;
      var before := ChargeSweep(w, queue[..last], answers, cl);
      ChargeSweepShrinks(w, queue[..last], answers, cl);
      ChargeTurnShrinks(before, queue[last], answers(last), cl);
      assert ChargeSweep(w, queue, answers, cl) == ChargeTurn(before, queue[last], answers(last), cl);
    }
  }

  /** A tick the database does not fail at all. */
  ghost predicate Served(t: TickAnswers) {
    t.readsReverts && t.readsCharges && AllRecorded(t)
  }

  /** Nothing but late landings and ticks that the database serves and nobody disturbs. */
  ghost predicate QuietLife(life: seq<Happening>) {
    forall i :: 0 <= i < |life| ==>
      life[i].LandsLate? || (life[i].PenaltyTick? && Served(life[i].answers) && LeftAlone(life[i].answers))
  }

  lemma LoneTickShrinks(w: World, t: TickAnswers, cl: U256)
    requires LeftAlone(t) && Served(t)
    ensures Shrinks(w.store, Tick(w, t, cl).store)
  {
    RevertSweepShrinks(w, Reverts(w.store), t.reverts, cl);
    var mid := AfterReverts(w, t, cl);
    assert mid.store == RevertSweep(w, Reverts(w.store), t.reverts, cl).store;
    ChargeSweepShrinks(mid, Charges(mid.store), t.charges, cl);
  }

  lemma {:induction false} QuietLifeShrinks(w: World, life: seq<Happening>, cl: U256)
    requires QuietLife(life)
    ensures Shrinks(w.store, Live(w, life, cl).store)
  {
    if life != [] {
      var earlier, last := life[..|life| - 1], life[|life| - 1];
      QuietLifeShrinks(w, earlier, cl);
      if last.PenaltyTick? {
        LoneTickShrinks(Live(w, earlier, cl), last.answers, cl);
      }
    }
  }

  lemma {:induction false} QuietLifeServes(w: World, life: seq<Happening>, cl: U256, item: Item)
    requires QuietLife(life) && ItemReadable(w.store, item)
    ensures ServedLife(w, life, cl, item)
  {
    if life != [] {
      var earlier := life[..|life| - 1];
      QuietLifeServes(w, earlier, cl, item);
      QuietLifeShrinks(w, earlier, cl);
    }
  }

  /**
   With no new work, and reads and recordings succeeding, ten ticks are
   enough under any chain answers: no later undisturbed tick changes anything
   or calls the operator.
   */
  lemma LoopGoesQuiet(w: World, life: seq<Happening>, t: TickAnswers, cl: U256)
    requires SoundWorld(w, cl) && QuietLife(life) && TickCount(life) >= MAX_DEBIT_ATTEMPTS && LeftAlone(t)
    ensures Tick(Live(w, life, cl), t, cl) == Live(w, life, cl)
  {
    var w' := Live(w, life, cl);
    LiveKeeps(w, life, cl);
    QuietLifeShrinks(w, life, cl);
    forall item | ItemReadable(w'.store, item)
      ensures Potential(w', item) == 0
    {
      if Owing(w'.store, item) {
        QuietLifeServes(w, life, cl, item);
        TenTicksSettle(w, life, cl, item);
        assert !Paid(w'.store, item);
      }
    }
    SpentTickIsSilent(w', t, cl);
  }
}
