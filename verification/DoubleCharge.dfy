/**
 The double charge the operator's confirmation timeout accepts: a debit is
 given up on, lands all the same, and its retry is confirmed and recorded.
 */
module DoubleCharge {
  import opened Interleaving
  import opened Lifecycle
  import opened Money
  import opened Orders
  import opened Penalty
  import opened PenaltyRuns
  import opened Reachability
  import opened Runs
  import opened Uint256
  import opened Wrappers

  function Replying(cost: U256, reply: Reply): Answer {
    Answer([], Some(cost), reply, true)
  }

  /** A tick that reads and records everything, left alone, with one reply to every debit. */
  function PlainTick(cost: U256, reply: Reply): Happening {
    PenaltyTick(TickAnswers(true, _ => Replying(cost, reply), [], true, _ => Replying(cost, reply)))
  }

  /** One failed settlement is all there is to debit. */
  ghost predicate OnlyOwes(s: State, p: Proposal) {
    StillOwes(s, p) && p.settlementTx.Some? && Reverts(s) == [p] && s.penalties == []
  }

  lemma PlainTickIsTurn(w: World, p: Proposal, cost: U256, reply: Reply, cl: U256)
    requires OnlyOwes(w.store, p)
    ensures Happened(w, PlainTick(cost, reply), cl) == RevertTurn(w, p, Replying(cost, reply), cl)
  {
    var answers: nat -> Answer := PlainTick(cost, reply).answers.reverts;
    assert [p][..0] == [];
    assert RevertSweep(w, [p], answers, cl) == RevertOne(w, p, answers(0), cl);
    var mid := RevertTurn(w, p, Replying(cost, reply), cl);
    assert mid.store.penalties == [] && Charges(mid.store) == [];
  }

  /** The tick that gives up, the landing, and the retry. */
  function Timeout(cost: U256, late: Hash, retry: Hash, position: nat): seq<Happening> {
    [PlainTick(cost, Unconfirmed(late))] + [LandsLate(position)] + [PlainTick(cost, Confirmed(retry))]
  }

  lemma LiveAppend(w: World, life: seq<Happening>, h: Happening, cl: U256)
    ensures Live(w, life + [h], cl) == Happened(Live(w, life, cl), h, cl)
  {
    assert (life + [h])[..|life|] == life;
  }

  lemma LiveThree(w: World, a: Happening, b: Happening, c: Happening, cl: U256)
    ensures Live(w, [a] + [b] + [c], cl) == Happened(Happened(Happened(w, a, cl), b, cl), c, cl)
  {
    LiveAppend(w, [], a, cl);
    assert [] + [a] == [a];
    LiveAppend(w, [a], b, cl);
    LiveAppend(w, [a] + [b], c, cl);
  }

  lemma GivesUp(w: World, p: Proposal, cost: U256, late: Hash, cl: U256)
    requires OnlyOwes(w.store, p) && !Parked(w.revertAttempts, p.id)
    ensures Happened(w, PlainTick(cost, Unconfirmed(late)), cl) ==
            RevertFails(Leaves(w, DebitForRevert(p, cost, cl, late)), p.id)
  {
    PlainTickIsTurn(w, p, cost, Unconfirmed(late), cl);
  }

  lemma LandsAfterAll(w: World, p: Proposal, debit: Landed)
    ensures LandLate(RevertFails(Leaves(w, debit), p.id), |w.unconfirmed|) ==
            RevertFails(w, p.id).(chain := w.chain + [debit], late := w.late + [debit])
  {
    var sent := w.unconfirmed + [debit];
    assert sent[..|w.unconfirmed|] + sent[|w.unconfirmed| + 1..] == w.unconfirmed;
  }

  /** The books after a failed attempt whose debit landed all the same. */
  function AfterTimeout(w: World, p: Proposal, debit: Landed): World {
    RevertFails(w, p.id).(chain := w.chain + [debit], late := w.late + [debit])
  }

  lemma TimeoutLands(w: World, p: Proposal, cost: U256, late: Hash, cl: U256)
    requires OnlyOwes(w.store, p) && !Parked(w.revertAttempts, p.id)
    ensures Happened(Happened(w, PlainTick(cost, Unconfirmed(late)), cl), LandsLate(|w.unconfirmed|), cl) ==
            AfterTimeout(w, p, DebitForRevert(p, cost, cl, late))
  {
    GivesUp(w, p, cost, late, cl);
    LandsAfterAll(w, p, DebitForRevert(p, cost, cl, late));
  }

  lemma RetryPays(w: World, p: Proposal, cost: U256, retry: Hash, cl: U256)
    requires OnlyOwes(w.store, p) && !Parked(w.revertAttempts, p.id)
    ensures var w' := Happened(w, PlainTick(cost, Confirmed(retry)), cl);
            && w'.chain == w.chain + [DebitForRevert(p, cost, cl, retry)]
            && w'.lost == w.lost && w'.unconfirmed == w.unconfirmed
            && PaidRevert(w'.store, p.id)
  {
    PlainTickIsTurn(w, p, cost, Confirmed(retry), cl);
  }

  /** Whenever a settlement alone owes and has attempts left, a late landing before the retry charges it twice. */
  lemma TimeoutChargesTwice(w: World, p: Proposal, cost: U256, late: Hash, retry: Hash, cl: U256)
    requires OnlyOwes(w.store, p) && Attempts(w.revertAttempts, p.id) + 1 < MAX_DEBIT_ATTEMPTS
    ensures var w' := Live(w, Timeout(cost, late, retry, |w.unconfirmed|), cl);
            && w'.chain == w.chain + [DebitForRevert(p, cost, cl, late)] + [DebitForRevert(p, cost, cl, retry)]
            && w'.lost == w.lost && w'.unconfirmed == w.unconfirmed
            && PaidRevert(w'.store, p.id)
  {
    LiveThree(w, PlainTick(cost, Unconfirmed(late)), LandsLate(|w.unconfirmed|), PlainTick(cost, Confirmed(retry)), cl);
    TimeoutLands(w, p, cost, late, cl);
    RetryPays(AfterTimeout(w, p, DebitForRevert(p, cost, cl, late)), p, cost, retry, cl);
  }

  // -------------------------------------------------------------------------
  // One such life
  // -------------------------------------------------------------------------

  const BODY: Body := Body(7, 1, Quote(1, 1), 100)
  const SIM: SimulationOutcome := SimulationOutcome(21_000, 8, 3, 4)
  const ACTIVE: Proposal := Proposal(1, BODY, Active, None, Some(21_000), Some(8), 3, 4, None, None)
  const FAILED: Proposal := ACTIVE.(status := SettleFailed, settlementTx := Some(9))

  /** A proposal is received and activated, and its settlement reverts. */
  const REVERTING: seq<Step> := [Receive(BODY)] + [Judge(1, Accept(Some(SIM)))] + [Report(ACTIVE, Reverted(9))]

  const DOUBLE: seq<Happening> := [OtherWrites(REVERTING)] + Timeout(5, 70, 71, 0)

  lemma MeanwhileAppend(s: State, steps: seq<Step>, step: Step)
    ensures Meanwhile(s, steps + [step], Debiting) ==
            var before := Meanwhile(s, steps, Debiting);
            if MeanwhileMay(before, step, Debiting) then Apply(before, step) else before
  {
    assert (steps + [step])[..|steps|] == steps;
  }

  lemma RevertingLeaves()
    ensures var s := Meanwhile(EMPTY, REVERTING, Debiting);
            && s.rows == map[1 := Row(FAILED, 0, true, true)] && s.nextId == 2 && s.penalties == []
  {
    var received, judged := [Receive(BODY)], [Receive(BODY)] + [Judge(1, Accept(Some(SIM)))];
    MeanwhileAppend(EMPTY, [], received[0]);
    MeanwhileAppend(EMPTY, received, Judge(1, Accept(Some(SIM))));
    MeanwhileAppend(EMPTY, judged, Report(ACTIVE, Reverted(9)));
    assert [] + received == received;
    var first, second := Meanwhile(EMPTY, received, Debiting), Meanwhile(EMPTY, judged, Debiting);
    assert first.rows == map[1 := Row(Fresh(BODY).(id := 1), 0, true, true)];
    assert second.rows == map[1 := Row(ACTIVE, 0, true, true)];
    EmptyInv();
    MeanwhileKeeps(EMPTY, judged, Debiting);
    RowIsView(second, ACTIVE);
  }

  lemma TwoEntriesDiffer(queue: seq<Proposal>, id: ProposalId)
    requires forall i, j :: 0 <= i < j < |queue| ==> queue[i].id != queue[j].id
    ensures |queue| > 1 ==> exists i :: 0 <= i < |queue| && queue[i].id != id
  {
    if |queue| > 1 {
      assert queue[0].id != queue[1].id;
    }
  }

  lemma OneRowOwes(s: State)
    requires Inv(s) && s.rows == map[1 := Row(FAILED, 0, true, true)] && s.penalties == []
    ensures OnlyOwes(s, FAILED)
  {
    var queue := Reverts(s);
    SnapshotQueues(s);
    assert ReadableOwes(s, 1) && FAILED in queue;
    assert forall i :: 0 <= i < |queue| ==> StillOwes(s, queue[i]);
    TwoEntriesDiffer(queue, 1);
  }

  lemma RevertingOwes(cl: U256)
    ensures var w := Live(START, [OtherWrites(REVERTING)], cl);
            && w == START.(store := w.store) && OnlyOwes(w.store, FAILED)
  {
    LiveAppend(START, [], OtherWrites(REVERTING), cl);
    assert [] + [OtherWrites(REVERTING)] == [OtherWrites(REVERTING)];
    RevertingLeaves();
    EmptyInv();
    MeanwhileKeeps(EMPTY, REVERTING, Debiting);
    OneRowOwes(Meanwhile(EMPTY, REVERTING, Debiting));
  }

  lemma TwoDebits(d: Landed, e: Landed, item: Item)
    requires IsFor(d, item) && IsFor(e, item)
    ensures DebitsFor([] + [d] + [e], item) == 2
  {
    DebitsAppend([], d);
    DebitsAppend([] + [d], e);
  }

  /** It happens: every recording succeeds, one settlement is on record as paid, and it was debited twice. */
  lemma DoubleChargeHappens(cl: U256)
    ensures EverRecorded(DOUBLE) && !NeverLate(DOUBLE)
    ensures var w := Live(START, DOUBLE, cl);
            Paid(w.store, RevertItem(1)) && DebitsFor(w.chain, RevertItem(1)) == 2 && w.lost == []
  {
    RevertingOwes(cl);
    TimeoutChargesTwice(Live(START, [OtherWrites(REVERTING)], cl), FAILED, 5, 70, 71, cl);
    LiveConcat(START, [OtherWrites(REVERTING)], Timeout(5, 70, 71, 0), cl);
    TwoDebits(DebitForRevert(FAILED, 5, cl, 70), DebitForRevert(FAILED, 5, cl, 71), RevertItem(1));
    assert DOUBLE[2].LandsLate?;
  }

  lemma {:induction false} LiveConcat(w: World, first: seq<Happening>, second: seq<Happening>, cl: U256)
    ensures Live(w, first + second, cl) == Live(Live(w, first, cl), second, cl)
  {
    if second == [] {
      assert first + second == first;
    } else {
      var rest, last := second[..|second| - 1], second[|second| - 1];
      LiveConcat(w, first, rest, cl);
      LiveAppend(w, first + rest, last, cl);
      LiveAppend(Live(w, first, cl), rest, last, cl);
      ConcatAssociates(first, rest, [last]);
      assert second == rest + [last];
    }
  }
}
