/**
 Whole runs: any interleaving of the actors' steps, each on a snapshot read at
 any earlier moment, and what can be said of every state they reach.
 */
module Runs {
  import opened Lifecycle
  import opened Reachability
  import opened Wrappers

  function After(s: State, steps: seq<Step>): State {
    if steps == [] then s else Apply(After(s, steps[..|steps| - 1]), steps[|steps| - 1])
  }

  /** Every step is one its actor may take, given what had happened by then. */
  predicate AllowedRun(s: State, steps: seq<Step>) {
    steps == [] ||
    var before := steps[..|steps| - 1];
    AllowedRun(s, before) && Allowed(After(s, before), steps[|steps| - 1])
  }

  // -------------------------------------------------------------------------
  // Snapshots that were really read
  // -------------------------------------------------------------------------

  predicate HoldsRow(s: State, p: Proposal) {
    p.id in s.rows && s.rows[p.id].proposal == p
  }

  ghost predicate ReadEarlier(run: seq<Step>, p: Proposal) {
    exists j :: 0 <= j <= |run| && HoldsRow(After(EMPTY, run[..j]), p)
  }

  ghost predicate QueuedEarlier(run: seq<Step>, pending: PendingPenalty) {
    exists j :: 0 <= j <= |run| && PendingView(After(EMPTY, run[..j]), pending)
  }

  /** What the callers of the store do: act on what they read, in the statuses they select. */
  ghost predicate Taken(run: seq<Step>, step: Step) {
    match step
    case Expire(p) => ReadEarlier(run, p) && p.status.IsLive()
    case Report(p, _) => ReadEarlier(run, p)
    case Note(p, _) => ReadEarlier(run, p)
    case Penalize(p, _, _) => ReadEarlier(run, p) && p.status.SettleFailed?
    case Debit(pending, _, _) => QueuedEarlier(run, pending)
    case _ => true
  }

  ghost predicate ValidRun(run: seq<Step>) {
    run == [] ||
    var before := run[..|run| - 1];
    ValidRun(before) && Taken(before, run[|run| - 1])
  }

  // -------------------------------------------------------------------------
  // Growth along a run
  // -------------------------------------------------------------------------

  lemma GrowsReflexive(s: State)
    ensures Grows(s, s)
  {
  }

  lemma GrowsTransitive(a: State, b: State, c: State)
    requires Grows(a, b) && Grows(b, c)
    ensures Grows(a, c)
  {
    forall id | Replay(a.log, id).Told?
      ensures StoryFollows(Replay(a.log, id), Replay(c.log, id))
    {
      assert StoryFollows(Replay(a.log, id), Replay(b.log, id));
      assert StoryFollows(Replay(b.log, id), Replay(c.log, id));
    }
    forall k | 0 <= k < |a.penalties|
      ensures c.penalties[k].(tx := a.penalties[k].tx) == a.penalties[k]
    {
      assert b.penalties[k].(tx := a.penalties[k].tx) == a.penalties[k];
      assert c.penalties[k].(tx := b.penalties[k].tx) == b.penalties[k];
    }
  }

  lemma {:induction false} AfterKeeps(s: State, steps: seq<Step>)
    requires Inv(s) && AllowedRun(s, steps)
    ensures Inv(After(s, steps)) && Grows(s, After(s, steps))
  {
    if steps != [] {
      var before := steps[..|steps| - 1];
      AfterKeeps(s, before);
      StepKeeps(After(s, before), steps[|steps| - 1]);
      GrowsTransitive(s, After(s, before), After(s, steps));
    }
  }

  lemma AfterAppend(s: State, steps: seq<Step>, step: Step)
    ensures After(s, steps + [step]) == Apply(After(s, steps), step)
    ensures AllowedRun(s, steps + [step]) <==> AllowedRun(s, steps) && Allowed(After(s, steps), step)
  {
    assert (steps + [step])[..|steps|] == steps;
  }

  /** A view stays a view, and a queue entry keeps naming the same charge. */
  lemma ViewsPersist(s: State, s': State)
    requires Grows(s, s')
    ensures forall p :: StaleView(s, p) ==> StaleView(s', p)
    ensures forall pending :: PendingView(s, pending) ==> PendingView(s', pending)
  {
    forall p | StaleView(s, p)
      ensures StaleView(s', p)
    {
      assert StoryFollows(Replay(s.log, p.id), Replay(s'.log, p.id));
    }
    forall pending | PendingView(s, pending)
      ensures PendingView(s', pending)
    {
      assert s'.penalties[pending.id].(tx := s.penalties[pending.id].tx) == s.penalties[pending.id];
    }
  }

  lemma EmptyInv()
    ensures Inv(EMPTY)
  {
  }

  /** A row read now is a view of the state. */
  lemma RowIsView(s: State, p: Proposal)
    requires Inv(s) && HoldsRow(s, p)
    ensures StaleView(s, p)
  {
    assert StoryMatches(s, p.id) && RowOk(s, p.id);
  }

  /** However stale, a snapshot read along a run is still a view at its end. */
  lemma {:induction false} RunsAreAllowed(run: seq<Step>)
    requires ValidRun(run)
    ensures AllowedRun(EMPTY, run) && Inv(After(EMPTY, run))
    ensures forall p :: ReadEarlier(run, p) ==> StaleView(After(EMPTY, run), p)
    ensures forall pending :: QueuedEarlier(run, pending) ==> PendingView(After(EMPTY, run), pending)
  {
    var s := After(EMPTY, run);
    if run == [] {
      EmptyInv();
      assert run[..0] == run;
    } else {
      var before := run[..|run| - 1];
      RunsAreAllowed(before);
      StepKeeps(After(EMPTY, before), run[|run| - 1]);
      ViewsPersist(After(EMPTY, before), s);
      forall j | 0 <= j <= |run|
        ensures j < |run| ==> run[..j] == before[..j]
        ensures j == |run| ==> run[..j] == run
      {
      }
    }
    forall p | ReadEarlier(run, p)
      ensures StaleView(s, p)
    {
      var j :| 0 <= j <= |run| && HoldsRow(After(EMPTY, run[..j]), p);
      if j < |run| {
        assert ReadEarlier(run[..|run| - 1], p);
      } else {
        RowIsView(s, p);
      }
    }
    forall pending | QueuedEarlier(run, pending)
      ensures PendingView(s, pending)
    {
      var j :| 0 <= j <= |run| && PendingView(After(EMPTY, run[..j]), pending);
      if j < |run| {
        assert QueuedEarlier(run[..|run| - 1], pending);
      }
    }
  }

  // -------------------------------------------------------------------------
  // The audit log replays to the table
  // -------------------------------------------------------------------------

  /**
   In every reachable state the events of each proposal form one connected
   chain, whose end is the row's status, rejection reason and transactions, or
   a dropped status if the row is gone.
   */
  lemma AuditReplaysToTable(run: seq<Step>, id: ProposalId)
    requires ValidRun(run)
    ensures var s := After(EMPTY, run);
            && (id in s.rows ==> Replay(s.log, id) == StoryOf(s.rows[id].proposal))
            && (id !in s.rows && 1 <= id < s.nextId ==>
                  Replay(s.log, id).Told? && Replay(s.log, id).status.IsDropped())
            && (Replay(s.log, id) == Unborn <==> !(1 <= id < s.nextId))
  {
    RunsAreAllowed(run);
    var s := After(EMPTY, run);
    assert StoryMatches(s, id) && (id in s.rows ==> RowOk(s, id));
  }

  /** In every reachable state each optional column is set in exactly the statuses that write it. */
  lemma ReachableRows(run: seq<Step>, id: ProposalId)
    requires ValidRun(run) && id in After(EMPTY, run).rows
    ensures var p := After(EMPTY, run).rows[id].proposal;
            && (p.settlementTx.Some? <==> p.status in {Settled, SettleFailed, Penalized})
            && (p.penaltyTx.Some? <==> p.status == Penalized)
            && (p.rejection.Some? <==> p.status == Rejected)
  {
    RunsAreAllowed(run);
    assert RowOk(After(EMPTY, run), id);
  }

  // -------------------------------------------------------------------------
  // Terminal statuses
  // -------------------------------------------------------------------------

  /**
   A terminal proposal stays as it is, but for a failed settlement's debit;
   only dropped-tier rows are ever deleted.
   */
  lemma TerminalIsForever(s: State, steps: seq<Step>, id: ProposalId)
    requires Inv(s) && AllowedRun(s, steps)
    requires id in s.rows && s.rows[id].proposal.status.IsTerminal()
    ensures var from, s' := s.rows[id].proposal, After(s, steps);
            if id in s'.rows then
              var to := s'.rows[id].proposal;
              && to.status.IsTerminal()
              && (to.status == from.status || (from.status.SettleFailed? && to.status.Penalized?))
              && to.settlementTx == from.settlementTx
            else from.status.IsDropped()
  {
    var s' := After(s, steps);
    AfterKeeps(s, steps);
    assert StoryMatches(s, id) && StoryMatches(s', id);
    assert RowOk(s, id) && (id in s'.rows ==> RowOk(s', id));
    assert StoryFollows(Replay(s.log, id), Replay(s'.log, id));
  }

  /** Never judged: its owner and order cannot be read, and only a verdict leads out of `Submitted` to competing. */
  predicate Stuck(row: Row) {
    row.proposal.status.Submitted? && !row.keysReadable
  }

  lemma StuckStep(s: State, step: Step, id: ProposalId)
    requires Allowed(s, step) && id < s.nextId
    requires id in s.rows ==> Stuck(s.rows[id]) || s.rows[id].proposal.status.Expired?
    requires id in s.rows ==> s.rows[id].proposal.id == id && !s.rows[id].keysReadable
    ensures id in Apply(s, step).rows ==>
              && (Stuck(Apply(s, step).rows[id]) || Apply(s, step).rows[id].proposal.status.Expired?)
              && !Apply(s, step).rows[id].keysReadable
  {
  }

  lemma {:induction false} StuckNeverActive(s: State, steps: seq<Step>, id: ProposalId)
    requires Inv(s) && AllowedRun(s, steps) && id in s.rows && Stuck(s.rows[id])
    ensures var s' := After(s, steps);
            id in s'.rows ==> (Stuck(s'.rows[id]) || s'.rows[id].proposal.status.Expired?) && !s'.rows[id].keysReadable
  {
    if steps != [] {
      var before := steps[..|steps| - 1];
      var t := After(s, before);
      StuckNeverActive(s, before, id);
      AfterKeeps(s, before);
      assert RowOk(s, id) && StoryMatches(s, id) && StoryMatches(t, id);
      assert StoryFollows(Replay(s.log, id), Replay(t.log, id));
      assert id in t.rows ==> RowOk(t, id);
      StuckStep(t, steps[|steps| - 1], id);
    }
  }

  /** One step back to competing, from every status that is not terminal. */
  lemma CanCompeteAgain(s: State, id: ProposalId) returns (step: Step)
    requires Inv(s) && id in s.rows && !Stuck(s.rows[id])
    requires !s.rows[id].proposal.status.IsTerminal() && !s.rows[id].proposal.status.Active?
    ensures Allowed(s, step) && Simulated(step) && ActiveIn(Apply(s, step), id)
  {
    var p := s.rows[id].proposal;
    assert RowOk(s, id);
    if p.status.Submitted? {
      step := Judge(id, Accept(Some(SimulationOutcome(0, 0, 0, 0))));
    } else {
      step := Report(p, Abandoned);
      RowIsView(s, p);
    }
  }

  /** Some run leads to the proposal competing. */
  ghost predicate MayCompete(s: State, id: ProposalId) {
    exists steps :: AllowedRun(s, steps) && ActiveIn(After(s, steps), id)
  }

  /** Some run on the production validator's verdicts does. */
  ghost predicate MayCompeteSimulated(s: State, id: ProposalId) {
    exists steps :: AllowedRun(s, steps) && AllSimulated(steps) && ActiveIn(After(s, steps), id)
  }

  lemma CompetesAfter(s: State, steps: seq<Step>, id: ProposalId)
    requires AllowedRun(s, steps) && AllSimulated(steps) && ActiveIn(After(s, steps), id)
    ensures MayCompete(s, id) && MayCompeteSimulated(s, id)
  {
  }

  /**
   `IsTerminal` names exactly the statuses from which no run leads back to
   competing, but for a submission that can never be judged because its owner
   or order does not parse; and where a run does, one on the production
   validator's verdicts does.
   */
  lemma TerminalIffNeverActive(s: State, id: ProposalId)
    requires Inv(s) && id in s.rows
    ensures s.rows[id].proposal.status.IsTerminal() || Stuck(s.rows[id]) <==> !MayCompete(s, id)
    ensures MayCompete(s, id) <==> MayCompeteSimulated(s, id)
  {
    if s.rows[id].proposal.status.IsTerminal() || Stuck(s.rows[id]) {
      forall steps | AllowedRun(s, steps)
        ensures !ActiveIn(After(s, steps), id)
      {
        if Stuck(s.rows[id]) {
          StuckNeverActive(s, steps, id);
        } else {
          TerminalIsForever(s, steps, id);
        }
      }
    } else if s.rows[id].proposal.status.Active? {
      CompetesAfter(s, [], id);
    } else {
      var step := CanCompeteAgain(s, id);
      AfterAppend(s, [], step);
      CompetesAfter(s, [] + [step], id);
    }
  }

  predicate ActiveIn(s: State, id: ProposalId) {
    id in s.rows && s.rows[id].proposal.status.Active?
  }

  /** A deleted row had reached a dropped status; a row in flight or holding money is never deleted. */
  lemma OnlyDroppedRowsDeleted(s: State, steps: seq<Step>, id: ProposalId)
    requires Inv(s) && AllowedRun(s, steps)
    requires id in s.rows && id !in After(s, steps).rows
    ensures !s.rows[id].proposal.status.IsMoney()
    ensures Replay(After(s, steps).log, id).Told? && Replay(After(s, steps).log, id).status.IsDropped()
  {
    AfterKeeps(s, steps);
    assert StoryMatches(s, id) && RowOk(s, id) && StoryMatches(After(s, steps), id);
    assert StoryFollows(Replay(s.log, id), Replay(After(s, steps).log, id));
  }

  // -------------------------------------------------------------------------
  // Simulation data
  // -------------------------------------------------------------------------

  /** The production validator's verdicts: an acceptance always carries a simulation. */
  predicate Simulated(step: Step) {
    step.Judge? && step.verdict.Accept? ==> step.verdict.sim.Some?
  }

  predicate AllSimulated(steps: seq<Step>) {
    forall i :: 0 <= i < |steps| ==> Simulated(steps[i])
  }

  predicate HasSimulation(p: Proposal) {
    p.status.Active? || p.status.Executing? || p.status.IsMoney() ==> p.gasUsed.Some? && p.trampoline.Some?
  }

  lemma SimulationKept(s: State, step: Step, id: ProposalId)
    requires Inv(s) && Allowed(s, step) && Simulated(step)
    requires id in s.rows ==> HasSimulation(s.rows[id].proposal)
    ensures id in Apply(s, step).rows ==> HasSimulation(Apply(s, step).rows[id].proposal)
  {
    assert id in s.rows ==> RowOk(s, id);
    if id in s.rows && id in Apply(s, step).rows {
      RowSimulationKept(s, step, id);
    }
  }

  /** A step keeps a row's gas and trampoline, and reaches `Active` only from a status that has them. */
  lemma RowSimulationKept(s: State, step: Step, id: ProposalId)
    requires Allowed(s, step) && Simulated(step)
    requires id in s.rows && id < s.nextId && HasSimulation(s.rows[id].proposal)
    requires id in Apply(s, step).rows
    ensures HasSimulation(Apply(s, step).rows[id].proposal)
  {
    match step
    case Expire(p) =>
    case Judge(_, _) =>
    case Report(_, _) =>
    case Penalize(p, _, _) => assert StillAt(s, p) ==> s.rows[p.id].proposal.status.IsMoney();
    case _ =>
  }

  /** With that validator every row that can be bid or settled has its gas and trampoline. */
  lemma {:induction false} BiddableRowsSimulated(run: seq<Step>, id: ProposalId)
    requires ValidRun(run) && AllSimulated(run)
    requires id in After(EMPTY, run).rows
    ensures HasSimulation(After(EMPTY, run).rows[id].proposal)
  {
    var before := run[..|run| - 1];
    var s := After(EMPTY, before);
    RunsAreAllowed(before);
    RunsAreAllowed(run);
    if id in s.rows {
      BiddableRowsSimulated(before, id);
    }
    SimulationKept(s, run[|run| - 1], id);
  }

  // -------------------------------------------------------------------------
  // Driver notifications
  // -------------------------------------------------------------------------

  /** The steps that end a competing proposal for reasons of their own. */
  predicate Ends(step: Step, id: ProposalId) {
    match step
    case Judge(judged, verdict) => judged == id && !verdict.Accept?
    case Withdraw(withdrawn, _) => withdrawn == id
    case Expire(p) => p.id == id
    case _ => false
  }

  predicate CitesTx(step: Step, id: ProposalId) {
    step.Report? && step.snapshot.id == id && step.outcome.SettlementTx().Some?
  }

  /** The first reported outcome that names a settlement transaction. */
  function FirstCited(steps: seq<Step>, id: ProposalId): Option<Outcome> {
    if steps == [] then None
    else
      var earlier, last := FirstCited(steps[..|steps| - 1], id), steps[|steps| - 1];
      if earlier.Some? then earlier
      else if CitesTx(last, id) then Some(last.outcome)
      else None
  }

  /** What has become of a proposal that was competing. */
  datatype Fate = InFlight | Landed(outcome: Outcome) | Dropped(status: Status)

  /**
   Decided by whichever comes first: a report citing a transaction, or a
   cancellation, expiry or adverse verdict that still takes effect.
   */
  function FateOf(s: State, steps: seq<Step>, id: ProposalId): Fate {
    if steps == [] then InFlight
    else
      var earlier, last := FateOf(s, steps[..|steps| - 1], id), steps[|steps| - 1];
      if earlier.InFlight? then NextFate(After(s, steps[..|steps| - 1]), last, id) else earlier
  }

  function NextFate(s: State, step: Step, id: ProposalId): Fate {
    if CitesTx(step, id) then Landed(step.outcome)
    else if Ends(step, id) && id in s.rows && TakesEffect(s, step, id) then Dropped(EndStatus(step))
    else InFlight
  }

  /** The write finds the row as it must: readable and live, and owned or still as the snapshot had it. */
  predicate TakesEffect(s: State, step: Step, id: ProposalId)
    requires Ends(step, id) && id in s.rows
  {
    var row := s.rows[id];
    match step
    case Judge(_, _) => row.keysReadable && row.proposal.status.IsLive()
    case Withdraw(_, caller) =>
      row.keysReadable && row.proposal.status.IsLive() && row.proposal.body.subSolver == caller
    case Expire(p) => StillAt(s, p)
  }

  function EndStatus(step: Step): Status
    requires step.Judge? || step.Withdraw? || step.Expire?
  {
    match step
    case Judge(_, verdict) => VerdictStatus(verdict)
    case Withdraw(_, _) => Cancelled
    case Expire(_) => Expired
  }

  /** What the table must show of a fate; a dropped row may have been swept since. */
  predicate Shows(s: State, id: ProposalId, fate: Fate) {
    match fate
    case InFlight =>
      && id in s.rows
      && (s.rows[id].proposal.status.Active? || s.rows[id].proposal.status.Executing?)
      && s.rows[id].proposal.settlementTx.None?
    case Landed(outcome) =>
      && id in s.rows
      && s.rows[id].proposal.settlementTx == outcome.SettlementTx()
      && var status := s.rows[id].proposal.status;
         if outcome.Succeeded? then status.Settled? else status.SettleFailed? || status.Penalized?
    case Dropped(status) =>
      id in s.rows ==> s.rows[id].proposal.status == status && s.rows[id].proposal.settlementTx.None?
  }

  lemma InFlightStep(s: State, step: Step, id: ProposalId)
    requires Allowed(s, step)
    requires id in s.rows && RowOk(s, id) && Shows(s, id, InFlight)
    ensures Shows(Apply(s, step), id, NextFate(s, step, id))
    ensures NextFate(s, step, id).Dropped? ==> NextFate(s, step, id).status.IsDropped()
  {
    assert !IsSwept(s, id, 0);
  }

  /** A dropped id is never used again: its row stays as it was dropped, or is gone for good. */
  lemma DroppedStep(s: State, step: Step, id: ProposalId, status: Status)
    requires Inv(s) && Allowed(s, step) && 1 <= id < s.nextId
    requires status.IsDropped() && Shows(s, id, Dropped(status))
    ensures Shows(Apply(s, step), id, Dropped(status))
  {
    if id in s.rows {
      AfterAppend(s, [], step);
      assert [step] == [] + [step];
      TerminalIsForever(s, [step], id);
    } else {
      OthersKeepIds(s, step, id);
    }
  }

  lemma OthersKeepIds(s: State, step: Step, id: ProposalId)
    requires id !in s.rows && id < s.nextId
    ensures id !in Apply(s, step).rows
  {
  }

  lemma LandedStep(s: State, step: Step, id: ProposalId, outcome: Outcome)
    requires Inv(s) && Allowed(s, step)
    requires outcome.SettlementTx().Some? && Shows(s, id, Landed(outcome))
    ensures Shows(Apply(s, step), id, Landed(outcome))
  {
    AfterAppend(s, [], step);
    assert [step] == [] + [step];
    TerminalIsForever(s, [step], id);
  }

  /**
   Over any interleaving of reports in any order, duplicates, timeouts,
   cancellations, expiries, verdicts and other actors, what becomes of a
   competing proposal is decided once, by the first step that can decide it,
   and the table shows it ever after.
   */
  lemma {:induction false} FateIsDecidedOnce(s: State, steps: seq<Step>, id: ProposalId)
    requires Inv(s) && AllowedRun(s, steps) && ActiveIn(s, id)
    ensures Shows(After(s, steps), id, FateOf(s, steps, id))
    ensures FateOf(s, steps, id).Dropped? ==> FateOf(s, steps, id).status.IsDropped()
    ensures FateOf(s, steps, id).Landed? ==> FateOf(s, steps, id).outcome.SettlementTx().Some?
  {
    assert RowOk(s, id);
    if steps != [] {
      var before, step := steps[..|steps| - 1], steps[|steps| - 1];
      var t := After(s, before);
      FateIsDecidedOnce(s, before, id);
      AfterKeeps(s, before);
      assert StoryMatches(s, id) && StoryMatches(t, id);
      match FateOf(s, before, id)
      case InFlight =>
        assert RowOk(t, id);
        InFlightStep(t, step, id);
      case Landed(outcome) => LandedStep(t, step, id, outcome);
      case Dropped(status) => DroppedStep(t, step, id, status);
    }
  }

  function CitedFate(cited: Option<Outcome>): Fate {
    match cited
    case None => InFlight
    case Some(outcome) => Landed(outcome)
  }

  /** Unless something else ended it first, the first report citing a transaction decides. */
  lemma FirstCitedOutcomeDecides(s: State, steps: seq<Step>, id: ProposalId)
    requires Inv(s) && AllowedRun(s, steps) && ActiveIn(s, id)
    requires !FateOf(s, steps, id).Dropped?
    ensures Shows(After(s, steps), id, CitedFate(FirstCited(steps, id)))
  {
    FateIsDecidedOnce(s, steps, id);
    UndroppedFate(s, steps, id);
  }

  lemma {:induction false} NothingEndsIt(s: State, steps: seq<Step>, id: ProposalId)
    requires forall i :: 0 <= i < |steps| ==> !Ends(steps[i], id)
    ensures !FateOf(s, steps, id).Dropped?
  {
    if steps != [] {
      NothingEndsIt(s, steps[..|steps| - 1], id);
    }
  }

  /**
   Notification order does not matter: after any run of reports, duplicates,
   timeouts and other proposals' steps, status and settlement transaction are
   those of the first report citing a transaction, or the proposal is still in
   flight when there is none.
   */
  lemma NotificationOrderIrrelevant(s: State, steps: seq<Step>, id: ProposalId)
    requires Inv(s) && AllowedRun(s, steps) && ActiveIn(s, id)
    requires forall i :: 0 <= i < |steps| ==> !Ends(steps[i], id)
    ensures Shows(After(s, steps), id, CitedFate(FirstCited(steps, id)))
  {
    NothingEndsIt(s, steps, id);
    FirstCitedOutcomeDecides(s, steps, id);
  }

  lemma {:induction false} UndroppedFate(s: State, steps: seq<Step>, id: ProposalId)
    requires !FateOf(s, steps, id).Dropped?
    ensures FateOf(s, steps, id) == CitedFate(FirstCited(steps, id))
  {
    if steps != [] {
      UndroppedFate(s, steps[..|steps| - 1], id);
    }
  }

  // -------------------------------------------------------------------------
  // Executing episodes
  // -------------------------------------------------------------------------

  datatype Passage = Enter | AbandonedRelease | TimeoutRelease | Landing | Other

  function StatusIn(s: State, id: ProposalId): Option<Status> {
    if id in s.rows then Some(s.rows[id].proposal.status) else None
  }

  predicate ExecutingIn(s: State, id: ProposalId) {
    StatusIn(s, id) == Some(Executing)
  }

  /** How one step moves a proposal into or out of `Executing`. */
  function PassageOf(s: State, step: Step, id: ProposalId): Passage {
    var after := StatusIn(Apply(s, step), id);
    if !ExecutingIn(s, id) then
      if after == Some(Executing) then Enter else Other
    else if step.Report? && step.outcome.Abandoned? && after == Some(Active) then AbandonedRelease
    else if step.Release? && after == Some(Active) then TimeoutRelease
    else if step.Report? && (after == Some(Settled) || after == Some(SettleFailed)) then Landing
    else Other
  }

  function Count(steps: seq<Step>, id: ProposalId, passage: Passage): nat {
    if steps == [] then 0
    else
      var before := steps[..|steps| - 1];
      Count(before, id, passage) +
      if PassageOf(After(EMPTY, before), steps[|steps| - 1], id) == passage then 1 else 0
  }

  function ChargesFor(penalties: seq<PenaltyRow>, id: ProposalId): nat {
    if penalties == [] then 0
    else
      ChargesFor(penalties[..|penalties| - 1], id) +
      if penalties[|penalties| - 1].proposalId == id then 1 else 0
  }

  lemma ChargesForPaid(penalties: seq<PenaltyRow>, k: nat, tx: Option<Hash>, id: ProposalId)
    requires k < |penalties|
    ensures ChargesFor(penalties[k := penalties[k].(tx := tx)], id) == ChargesFor(penalties, id)
  {
    var paid, last := penalties[k := penalties[k].(tx := tx)], |penalties| - 1;
    if k < last {
      ChargesForPaid(penalties[..last], k, tx, id);
      assert paid[..last] == penalties[..last][k := penalties[k].(tx := tx)];
    } else {
      assert paid[..last] == penalties[..last];
    }
  }

  /** Leaving `Executing` is always by one of the three exits. */
  lemma ExitsAreThree(s: State, step: Step, id: ProposalId)
    requires ExecutingIn(s, id) && RowOk(s, id) && !ExecutingIn(Apply(s, step), id)
    requires Allowed(s, step)
    ensures PassageOf(s, step, id) in {AbandonedRelease, TimeoutRelease, Landing}
  {
    match step
    case Report(p, outcome) => assert p.id == id;
    case Release(age) => assert IsStaleExecuting(s, id, age);
    case _ =>
  }

  lemma ChargesForAppend(penalties: seq<PenaltyRow>, charge: PenaltyRow, id: ProposalId)
    ensures ChargesFor(penalties + [charge], id) ==
            ChargesFor(penalties, id) + if charge.proposalId == id then 1 else 0
  {
    assert (penalties + [charge])[..|penalties|] == penalties;
  }

  /** A report queues a charge exactly when it finds the row executing and abandons it. */
  lemma ReportQueues(s: State, p: Proposal, outcome: Outcome)
    ensures ApplyOutcome(s, p, outcome).penalties ==
            if outcome.Abandoned? && ExecutingIn(s, p.id) then s.penalties + [Charge(p)] else s.penalties
  {
  }

  lemma ReportReleases(s: State, p: Proposal, outcome: Outcome, id: ProposalId)
    ensures PassageOf(s, Report(p, outcome), id) == AbandonedRelease <==>
            p.id == id && outcome.Abandoned? && ExecutingIn(s, id)
  {
  }

  lemma ReportCharges(s: State, p: Proposal, outcome: Outcome, id: ProposalId)
    ensures ChargesFor(ApplyOutcome(s, p, outcome).penalties, id) ==
            ChargesFor(s.penalties, id) +
            if PassageOf(s, Report(p, outcome), id) == AbandonedRelease then 1 else 0
  {
    ReportQueues(s, p, outcome);
    ReportReleases(s, p, outcome, id);
    ChargesForAppend(s.penalties, Charge(p), id);
  }

  /** Only abandonment charges, and always once. */
  lemma ChargeIffAbandoned(s: State, step: Step, id: ProposalId)
    requires Inv(s) && Allowed(s, step)
    ensures ChargesFor(Apply(s, step).penalties, id) ==
            ChargesFor(s.penalties, id) + if PassageOf(s, step, id) == AbandonedRelease then 1 else 0
  {
    if step.Report? {
      ReportCharges(s, step.snapshot, step.outcome, id);
    } else if step.Debit? {
      ChargesForPaid(s.penalties, step.pending.id, Some(step.tx), id);
    } else {
      OthersLeaveCharges(s, step);
    }
  }

  lemma OthersLeaveCharges(s: State, step: Step)
    requires !step.Report? && !step.Debit?
    ensures Apply(s, step).penalties == s.penalties
  {
  }

  /**
   Executing is conserved: entries are matched by abandoned releases, timeout
   releases and landings, and charges number exactly the abandoned releases,
   so a timeout charges nothing and an episode is charged at most once.
   */
  lemma {:induction false} ExecutingConserved(run: seq<Step>, id: ProposalId)
    requires ValidRun(run)
    ensures Count(run, id, Enter) ==
            Count(run, id, AbandonedRelease) + Count(run, id, TimeoutRelease) + Count(run, id, Landing)
            + if ExecutingIn(After(EMPTY, run), id) then 1 else 0
    ensures ChargesFor(After(EMPTY, run).penalties, id) == Count(run, id, AbandonedRelease)
  {
    if run != [] {
      var before := run[..|run| - 1];
      ExecutingConserved(before, id);
      RunsAreAllowed(before);
      RunsAreAllowed(run);
      var s, step := After(EMPTY, before), run[|run| - 1];
      if ExecutingIn(s, id) && !ExecutingIn(Apply(s, step), id) {
        assert RowOk(s, id);
        ExitsAreThree(s, step, id);
      }
      ChargeIffAbandoned(s, step, id);
    }
  }
}
