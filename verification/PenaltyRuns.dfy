/**
 Whole lives of the service: penalty ticks and the other actors' writes in any
 order. The books stay balanced and no failed settlement is lost.
 */
module PenaltyRuns {
  import opened Interleaving
  import opened Lifecycle
  import opened Money
  import opened Penalty
  import opened Reachability
  import opened Runs
  import opened Snapshots
  import opened Storage
  import opened Uint256

  // -------------------------------------------------------------------------
  // The queues a tick reads
  // -------------------------------------------------------------------------

  /** Every entry still owes, and no settlement is queued twice. */
  ghost predicate RevertQueue(s: State, queue: seq<Proposal>) {
    && (forall i :: 0 <= i < |queue| ==> StillOwes(s, queue[i]))
    && (forall i, j :: 0 <= i < j < |queue| ==> queue[i].id != queue[j].id)
  }

  ghost predicate ChargeQueue(s: State, queue: seq<PendingPenalty>) {
    && (forall i :: 0 <= i < |queue| ==> StillQueued(s, queue[i]))
    && (forall i, j :: 0 <= i < j < |queue| ==> queue[i].id != queue[j].id)
  }

  predicate ReadableOwes(s: State, id: ProposalId) {
    OwesRevert(s, id) && Readable(s.rows[id])
  }

  /** The snapshot queues exactly the readable failed settlements, each once. */
  lemma SnapshotQueues(s: State)
    requires Inv(s)
    ensures RevertQueue(s, Reverts(s))
    ensures forall i :: 0 <= i < |Reverts(s)| ==> ReadableOwes(s, Reverts(s)[i].id)
    ensures forall id :: ReadableOwes(s, id) ==> s.rows[id].proposal in Reverts(s)
  {
    SnapshotExact(s, {SettleFailed});
    forall i | 0 <= i < |Reverts(s)|
      ensures StillOwes(s, Reverts(s)[i]) && ReadableOwes(s, Reverts(s)[i].id)
    {
      assert ReadableIn(s, {SettleFailed}, Reverts(s)[i].id);
    }
    forall id | ReadableOwes(s, id)
      ensures s.rows[id].proposal in Reverts(s)
    {
      assert ReadableIn(s, {SettleFailed}, id);
    }
  }

  lemma {:induction false} PendingQueues(s: State, n: nat)
    requires n <= |s.penalties|
    ensures ChargeQueue(s, PendingPenalties(s, n))
    ensures forall i :: 0 <= i < |PendingPenalties(s, n)| ==> PendingPenalties(s, n)[i].id < n
  {
    if n > 0 {
      PendingQueues(s, n - 1);
    }
  }

  function PendingAt(s: State, position: nat): PendingPenalty
    requires position < |s.penalties|
  {
    var row := s.penalties[position];
    PendingPenalty(position, row.proposalId, row.subSolver, row.orderUid)
  }

  lemma {:induction false} PendingMisses(s: State, n: nat, position: nat)
    requires position < n <= |s.penalties| && s.penalties[position].tx.None?
    ensures PendingAt(s, position) in PendingPenalties(s, n)
  {
    if position < n - 1 {
      PendingMisses(s, n - 1, position);
    }
  }

  // -------------------------------------------------------------------------
  // Sweeps
  // -------------------------------------------------------------------------

  /** One turn leaves the later entries owing. */
  lemma TurnKeepsOthersOwing(w: World, p: Proposal, a: Answer, cl: U256, q: Proposal)
    requires Inv(w.store) && StillOwes(w.store, q) && q.id != p.id
    ensures StillOwes(RevertOne(w, p, a, cl).store, q)
  {
    MeanwhileKeepsMoney(w.store, a.others);
    assert OwesRevert(w.store, q.id);
  }

  lemma TurnKeepsOthersQueued(w: World, pending: PendingPenalty, a: Answer, cl: U256, q: PendingPenalty)
    requires Inv(w.store) && StillQueued(w.store, q) && q.id != pending.id
    ensures StillQueued(ChargeOne(w, pending, a, cl).store, q)
  {
    MeanwhileKeepsMoney(w.store, a.others);
    assert Meanwhile(w.store, a.others, Debiting).penalties[q.id] == w.store.penalties[q.id];
  }

  /** With its entry still owing, a turn loses a debit only to a failed recording. */
  lemma TurnLosesNothing(w: World, p: Proposal, a: Answer, cl: U256)
    requires Inv(w.store) && StillOwes(w.store, p) && a.recorded
    ensures RevertOne(w, p, a, cl).lost == w.lost
  {
    MeanwhileKeepsMoney(w.store, a.others);
    assert OwesRevert(w.store, p.id);
  }

  lemma ChargeLosesNothing(w: World, pending: PendingPenalty, a: Answer, cl: U256)
    requires a.recorded
    ensures ChargeOne(w, pending, a, cl).lost == w.lost
  {
  }

  /** The queue from position `n` on is still as it was read, and no entry comes twice. */
  ghost predicate RevertRest(s: State, queue: seq<Proposal>, n: nat) {
    && (forall i :: n <= i < |queue| ==> StillOwes(s, queue[i]))
    && (forall i, j :: 0 <= i < j < |queue| ==> queue[i].id != queue[j].id)
  }

  lemma RevertNextKeeps(w: World, queue: seq<Proposal>, n: nat, a: Answer, cl: U256)
    requires SoundWorld(w, cl) && n < |queue| && RevertRest(w.store, queue, n)
    ensures var w' := RevertOne(w, queue[n], a, cl);
            && SoundWorld(w', cl) && Grows(w.store, w'.store) && RevertRest(w'.store, queue, n + 1)
            && w'.late == w.late
            && (a.recorded ==> w'.lost == w.lost)
  {
    RevertOneConserves(w, queue[n], a, cl);
    if a.recorded {
      TurnLosesNothing(w, queue[n], a, cl);
    }
    forall i | n + 1 <= i < |queue|
      ensures StillOwes(RevertOne(w, queue[n], a, cl).store, queue[i])
    {
      TurnKeepsOthersOwing(w, queue[n], a, cl, queue[i]);
    }
  }

  lemma {:induction false} RevertSweepKeeps(
      w: World, queue: seq<Proposal>, n: nat, answers: nat -> Answer, cl: U256)
    requires SoundWorld(w, cl) && RevertQueue(w.store, queue) && n <= |queue|
    ensures var w' := RevertSweep(w, queue[..n], answers, cl);
            && SoundWorld(w', cl) && Grows(w.store, w'.store) && RevertRest(w'.store, queue, n)
            && w'.late == w.late
            && ((forall i: nat :: answers(i).recorded) ==> w'.lost == w.lost)
  {
    if n == 0 {
      GrowsReflexive(w.store);
    } else {
      RevertSweepKeeps(w, queue, n - 1, answers, cl);
      assert queue[..n][..n - 1] == queue[..n - 1];
      var before := RevertSweep(w, queue[..n - 1], answers, cl);
      RevertNextKeeps(before, queue, n - 1, answers(n - 1), cl);
      GrowsTransitive(w.store, before.store, RevertSweep(w, queue[..n], answers, cl).store);
    }
  }

  /** The queue from position `n` on is still as it was read, and no entry comes twice. */
  ghost predicate ChargeRest(s: State, queue: seq<PendingPenalty>, n: nat) {
    && (forall i :: n <= i < |queue| ==> StillQueued(s, queue[i]))
    && (forall i, j :: 0 <= i < j < |queue| ==> queue[i].id != queue[j].id)
  }

  lemma ChargeNextKeeps(w: World, queue: seq<PendingPenalty>, n: nat, a: Answer, cl: U256)
    requires SoundWorld(w, cl) && n < |queue| && ChargeRest(w.store, queue, n)
    ensures var w' := ChargeOne(w, queue[n], a, cl);
            && SoundWorld(w', cl) && Grows(w.store, w'.store) && ChargeRest(w'.store, queue, n + 1)
            && w'.late == w.late
            && (a.recorded ==> w'.lost == w.lost)
  {
    ChargeOneConserves(w, queue[n], a, cl);
    if a.recorded {
      ChargeLosesNothing(w, queue[n], a, cl);
    }
    forall i | n + 1 <= i < |queue|
      ensures StillQueued(ChargeOne(w, queue[n], a, cl).store, queue[i])
    {
      TurnKeepsOthersQueued(w, queue[n], a, cl, queue[i]);
    }
  }

  lemma {:induction false} ChargeSweepKeeps(
      w: World, queue: seq<PendingPenalty>, n: nat, answers: nat -> Answer, cl: U256)
    requires SoundWorld(w, cl) && ChargeQueue(w.store, queue) && n <= |queue|
    ensures var w' := ChargeSweep(w, queue[..n], answers, cl);
            && SoundWorld(w', cl) && Grows(w.store, w'.store) && ChargeRest(w'.store, queue, n)
            && w'.late == w.late
            && ((forall i: nat :: answers(i).recorded) ==> w'.lost == w.lost)
  {
    if n == 0 {
      GrowsReflexive(w.store);
    } else {
      ChargeSweepKeeps(w, queue, n - 1, answers, cl);
      assert queue[..n][..n - 1] == queue[..n - 1];
      var before := ChargeSweep(w, queue[..n - 1], answers, cl);
      ChargeNextKeeps(before, queue, n - 1, answers(n - 1), cl);
      GrowsTransitive(w.store, before.store, ChargeSweep(w, queue[..n], answers, cl).store);
    }
  }

  ghost predicate AllRecorded(t: TickAnswers) {
    forall i: nat :: t.reverts(i).recorded && t.charges(i).recorded
  }

  /** Half a tick: both queues are sound when they are read. */
  lemma HalfTickKeeps(w: World, t: TickAnswers, cl: U256)
    requires SoundWorld(w, cl)
    ensures RevertQueue(w.store, Reverts(w.store))
    ensures var mid := AfterReverts(w, t, cl);
            && SoundWorld(mid, cl) && Grows(w.store, mid.store) && ChargeQueue(mid.store, Charges(mid.store))
            && mid.late == w.late
            && (AllRecorded(t) ==> mid.lost == w.lost)
  {
    var queue := Reverts(w.store);
    SnapshotQueues(w.store);
    RevertSweepKeeps(w, queue, |queue|, t.reverts, cl);
    assert queue[..|queue|] == queue;
    GrowsReflexive(w.store);
    var debited := if t.readsReverts then RevertSweep(w, queue, t.reverts, cl) else w;
    var mid := AfterReverts(w, t, cl);
    InterferenceSound(debited, t.between, cl);
    GrowsTransitive(w.store, debited.store, mid.store);
    PendingQueues(mid.store, |mid.store.penalties|);
  }

  lemma TickKeeps(w: World, t: TickAnswers, cl: U256)
    requires SoundWorld(w, cl)
    ensures SoundWorld(Tick(w, t, cl), cl) && Grows(w.store, Tick(w, t, cl).store)
    ensures Tick(w, t, cl).late == w.late
    ensures AllRecorded(t) ==> Tick(w, t, cl).lost == w.lost
  {
    HalfTickKeeps(w, t, cl);
    if t.readsCharges {
      var mid := AfterReverts(w, t, cl);
      var queue := Charges(mid.store);
      ChargeSweepKeeps(mid, queue, |queue|, t.charges, cl);
      assert queue[..|queue|] == queue;
      GrowsTransitive(w.store, mid.store, Tick(w, t, cl).store);
    }
  }

  // -------------------------------------------------------------------------
  // Lives
  // -------------------------------------------------------------------------

  /**
   A restart forgets the attempts, which are kept in memory only. A late
   landing is a debit whose confirmation was given up on; it touches nothing a
   tick reads, so one that falls within a tick is no different from one after.
   */
  datatype Happening =
    | OtherWrites(steps: seq<Step>)
    | PenaltyTick(answers: TickAnswers)
    | Restart
    | LandsLate(position: nat)

  const START: World := World(EMPTY, [], [], [], [], [], map[], map[])

  function Happened(w: World, h: Happening, cl: U256): World {
    match h
    case OtherWrites(steps) => w.(store := Meanwhile(w.store, steps, Debiting))
    case PenaltyTick(t) => Tick(w, t, cl)
    case Restart => w.(revertAttempts := map[], chargeAttempts := map[])
    case LandsLate(position) => LandLate(w, position)
  }

  function Live(w: World, life: seq<Happening>, cl: U256): World {
    if life == [] then w else Happened(Live(w, life[..|life| - 1], cl), life[|life| - 1], cl)
  }

  lemma HappeningKeeps(w: World, h: Happening, cl: U256)
    requires SoundWorld(w, cl)
    ensures SoundWorld(Happened(w, h, cl), cl) && Grows(w.store, Happened(w, h, cl).store)
    ensures (h.PenaltyTick? ==> AllRecorded(h.answers)) ==> Happened(w, h, cl).lost == w.lost
    ensures !h.LandsLate? ==> Happened(w, h, cl).late == w.late
  {
    match h
    case OtherWrites(steps) => InterferenceSound(w, steps, cl);
    case PenaltyTick(t) => TickKeeps(w, t, cl);
    case Restart => GrowsReflexive(w.store);
    case LandsLate(position) =>
      GrowsReflexive(w.store);
      LandLateSound(w, position, cl);
  }

  /** The database records every debit that is confirmed. */
  ghost predicate EverRecorded(life: seq<Happening>) {
    forall i :: 0 <= i < |life| && life[i].PenaltyTick? ==> AllRecorded(life[i].answers)
  }

  /** No debit lands once its confirmation has been given up on. */
  predicate NeverLate(life: seq<Happening>) {
    forall i :: 0 <= i < |life| ==> !life[i].LandsLate?
  }

  lemma {:induction false} LiveKeeps(w: World, life: seq<Happening>, cl: U256)
    requires SoundWorld(w, cl)
    ensures SoundWorld(Live(w, life, cl), cl) && Grows(w.store, Live(w, life, cl).store)
    ensures EverRecorded(life) ==> Live(w, life, cl).lost == w.lost
    ensures NeverLate(life) ==> Live(w, life, cl).late == w.late
  {
    if life == [] {
      GrowsReflexive(w.store);
    } else {
      var before, h := Live(w, life[..|life| - 1], cl), life[|life| - 1];
      LiveKeeps(w, life[..|life| - 1], cl);
      HappeningKeeps(before, h, cl);
      GrowsTransitive(w.store, before.store, Happened(before, h, cl).store);
    }
  }

  lemma StartSound(cl: U256)
    ensures SoundWorld(START, cl)
  {
    EmptyInv();
  }

  /**
   Money is conserved over every life: an item has been debited once if it is
   on record as paid, once more for each debit that was confirmed but not
   recorded, and once more for each that landed after it was given up on; each
   debit is justified by a failure still on record; and what landed on chain is
   what the audit log says plus what was never recorded.
   */
  lemma MoneyConserved(life: seq<Happening>, cl: U256, item: Item)
    ensures var w := Live(START, life, cl);
            && DebitsFor(w.chain, item) ==
                 (if Paid(w.store, item) then 1 else 0) + DebitsFor(w.lost, item) + DebitsFor(w.late, item)
            && (Paid(w.store, item) ==> Evidenced(w.store, w.chain, item))
            && Total(w.chain) == Logged(w.store.log) + Total(w.lost) + Total(w.late)
            && AllJustified(w.store, w.chain, cl)
  {
    StartSound(cl);
    LiveKeeps(START, life, cl);
  }

  /**
   When recordings never fail and no debit lands late, nothing is lost: exactly
   one debit for each paid item, none for the rest.
   */
  lemma DebitedExactlyOnce(life: seq<Happening>, cl: U256, item: Item)
    requires EverRecorded(life) && NeverLate(life)
    ensures var w := Live(START, life, cl);
            && DebitsFor(w.chain, item) == (if Paid(w.store, item) then 1 else 0)
            && Total(w.chain) == Logged(w.store.log)
  {
    StartSound(cl);
    LiveKeeps(START, life, cl);
  }

  /**
   No revert is lost: once a settlement has failed, its row is forever either
   waiting for the debit or penalized by it, under the same settlement
   transaction.
   */
  lemma RevertNeverLost(w: World, life: seq<Happening>, cl: U256, id: ProposalId)
    requires SoundWorld(w, cl) && (OwesRevert(w.store, id) || PaidRevert(w.store, id))
    ensures var s, s' := w.store, Live(w, life, cl).store;
            && (OwesRevert(s', id) || PaidRevert(s', id))
            && (PaidRevert(s, id) ==> PaidRevert(s', id))
            && s'.rows[id].proposal.settlementTx == s.rows[id].proposal.settlementTx
            && s'.rows[id].proposal.settlementTx.Some?
  {
    var s, s' := w.store, Live(w, life, cl).store;
    LiveKeeps(w, life, cl);
    assert RowOk(s, id) && StoryMatches(s, id) && StoryMatches(s', id);
    assert StoryFollows(Replay(s.log, id), Replay(s'.log, id));
  }
}
