/**
 The proposal store as a value: what each store operation does to the table,
 the penalty queue, the solutions map and the audit log, all in one step.
 */
module Lifecycle {
  import opened Orders
  import opened Uint256
  import opened Wrappers

  type ProposalId = nat
  type Address = nat
  type Hash = nat
  type OrderUid = nat

  /** A gas value the BIGINT column can hold. */
  type ColumnGas = g: int | 0 <= g <= 0x7FFF_FFFF_FFFF_FFFF

  datatype Status =
    | Submitted
    | Active
    | Rejected
    | Expired
    | Executing
    | Settled
    | SettleFailed
    | Penalized
    | SimFailed
    | Cancelled
  {
    /** Not yet bid into a settlement: judged, cancelled and expired from here. */
    predicate IsLive() {
      Submitted? || Active?
    }

    /** Deleted by the retention sweep. */
    predicate IsDropped() {
      Rejected? || SimFailed? || Expired? || Cancelled?
    }

    /** Kept indefinitely. */
    predicate IsMoney() {
      Settled? || SettleFailed? || Penalized?
    }

    /** The wire's signal that the proposal can never become executable again. */
    predicate IsTerminal() {
      || Rejected? || Expired? || Settled? || SettleFailed?
      || Penalized? || SimFailed? || Cancelled?
    }
  }

  /** The fields fixed at insert. */
  datatype Body = Body(
    subSolver: Address,
    orderUid: OrderUid,
    quote: Quote,
    validUntil: U256
  )

  datatype Proposal = Proposal(
    id: ProposalId,
    body: Body,
    status: Status,
    rejection: Option<RejectionReason>,
    gasUsed: Option<ColumnGas>,
    trampoline: Option<Address>,
    sellToken: Address,
    buyToken: Address,
    settlementTx: Option<Hash>,
    penaltyTx: Option<Hash>
  )

  /**
   A stored proposal. `keysReadable` says that the sub-solver and order uid
   columns parse, `bodyReadable` that all the other columns do.
   */
  datatype Row = Row(proposal: Proposal, changedAt: nat, keysReadable: bool, bodyReadable: bool)

  /** A queued non-settlement charge; its id is its position in the queue. */
  datatype PenaltyRow = PenaltyRow(
    proposalId: ProposalId,
    subSolver: Address,
    orderUid: OrderUid,
    tx: Option<Hash>
  )

  datatype PendingPenalty = PendingPenalty(
    id: nat,
    proposalId: ProposalId,
    subSolver: Address,
    orderUid: OrderUid
  )

  datatype Event =
    | ReceivedEvent(id: ProposalId, proposal: Proposal)
    | CancelledEvent(id: ProposalId, subSolver: Address, orderUid: OrderUid)
    | StatusChangedEvent(
        id: ProposalId, subSolver: Address, orderUid: OrderUid,
        from: Status, to: Status,
        rejection: Option<RejectionReason>, settlementTx: Option<Hash>)
    | PenalizedEvent(
        id: ProposalId, subSolver: Address, orderUid: OrderUid,
        amount: U256, settlementTx: Option<Hash>, penaltyTx: Hash)
    | NonSettlementDebitedEvent(
        id: ProposalId, subSolver: Address, orderUid: OrderUid,
        amount: U256, penaltyTx: Hash)
    | DriverNotifiedEvent(id: ProposalId, subSolver: Address, orderUid: OrderUid, kind: string)

  datatype SimulationOutcome = SimulationOutcome(
    gasUsed: ColumnGas,
    trampoline: Address,
    sellToken: Address,
    buyToken: Address
  )

  datatype Verdict =
    | Accept(sim: Option<SimulationOutcome>)
    | Reject(reason: RejectionReason)
    | FailSimulation

  datatype Outcome = Started | Succeeded(tx: Hash) | Reverted(tx: Hash) | Abandoned {
    function SettlementTx(): Option<Hash> {
      match this
      case Succeeded(tx) => Some(tx)
      case Reverted(tx) => Some(tx)
      case _ => None
    }
  }

  datatype State = State(
    rows: map<ProposalId, Row>,
    nextId: ProposalId,
    penalties: seq<PenaltyRow>,
    solutions: map<(int, nat), ProposalId>,
    log: seq<Event>,
    clock: nat
  )

  /** An empty database: the id sequence starts at one. */
  const EMPTY: State := State(map[], 1, [], map[], [], 0)

  // -------------------------------------------------------------------------
  // Single-row writes
  // -------------------------------------------------------------------------

  function Emit(s: State, e: Event): State {
    s.(log := s.log + [e])
  }

  /** Write one row's proposal, stamping the change, and emit its event. */
  function Commit(s: State, id: ProposalId, p: Proposal, e: Event): State
    requires id in s.rows
  {
    Emit(s.(rows := s.rows[id := s.rows[id].(proposal := p, changedAt := s.clock)]), e)
  }

  /** A row's status change, citing the row's own identity. */
  function StatusChange(id: ProposalId, p: Proposal, to: Status, rejection: Option<RejectionReason>): Event {
    StatusChangedEvent(id, p.body.subSolver, p.body.orderUid, p.status, to, rejection, None)
  }

  function Insert(s: State, p: Proposal): State {
    var stored := p.(id := s.nextId);
    Emit(s.(rows := s.rows[s.nextId := Row(stored, s.clock, true, true)], nextId := s.nextId + 1),
         ReceivedEvent(s.nextId, stored))
  }

  /** The only shape production inserts. */
  function Fresh(body: Body): Proposal {
    Proposal(0, body, Submitted, None, None, None, 0, 0, None, None)
  }

  /** Whether a write conditioned on the snapshot's status finds it unchanged. */
  predicate StillAt(s: State, p: Proposal) {
    p.id in s.rows && s.rows[p.id].proposal.status == p.status
  }

  function Transition(s: State, p: Proposal, to: Status): State {
    if StillAt(s, p)
    then Commit(s, p.id, s.rows[p.id].proposal.(status := to), StatusChange(p.id, p, to, None))
    else s
  }

  function RecordPenalty(s: State, p: Proposal, amount: U256, tx: Hash): State {
    if StillAt(s, p)
    then Commit(s, p.id, s.rows[p.id].proposal.(status := Penalized, penaltyTx := Some(tx)),
                PenalizedEvent(p.id, p.body.subSolver, p.body.orderUid, amount, p.settlementTx, tx))
    else s
  }

  function VerdictStatus(verdict: Verdict): Status {
    match verdict
    case Accept(_) => Active
    case Reject(_) => Rejected
    case FailSimulation => SimFailed
  }

  function VerdictReason(verdict: Verdict): Option<RejectionReason> {
    if verdict.Reject? then Some(verdict.reason) else None
  }

  function Judged(p: Proposal, verdict: Verdict): Proposal {
    var q := p.(status := VerdictStatus(verdict), rejection := VerdictReason(verdict));
    match verdict
    case Accept(Some(sim)) =>
      q.(gasUsed := Some(sim.gasUsed), trampoline := Some(sim.trampoline),
         sellToken := sim.sellToken, buyToken := sim.buyToken)
    case _ => q
  }

  function ResolveVerdict(s: State, id: ProposalId, verdict: Verdict): State {
    if id !in s.rows || !s.rows[id].keysReadable then s
    else
      var p := s.rows[id].proposal;
      if !p.status.IsLive() then s
      else if p.status == VerdictStatus(verdict) then
        s.(rows := s.rows[id := s.rows[id].(proposal := Judged(p, verdict))])
      else
        Commit(s, id, Judged(p, verdict),
               StatusChange(id, p, VerdictStatus(verdict), VerdictReason(verdict)))
  }

  function Cancel(s: State, id: ProposalId, caller: Address): State {
    if id !in s.rows || !s.rows[id].keysReadable then s
    else
      var p := s.rows[id].proposal;
      if p.body.subSolver != caller || !p.status.IsLive() then s
      else
        Commit(s, id, p.(status := Cancelled), CancelledEvent(id, caller, p.body.orderUid))
  }

  /** The legality table: where an outcome takes a row from the status it holds. */
  function OutcomeTarget(outcome: Outcome, from: Status): Option<Status> {
    match outcome
    case Started => if from.Active? then Some(Executing) else None
    case Succeeded(_) => if from.Executing? || from.Active? then Some(Settled) else None
    case Reverted(_) => if from.Executing? || from.Active? then Some(SettleFailed) else None
    case Abandoned => if from.Executing? then Some(Active) else None
  }

  function Coalesce<T>(value: Option<T>, fallback: Option<T>): Option<T> {
    if value.Some? then value else fallback
  }

  function ApplyOutcome(s: State, p: Proposal, outcome: Outcome): State {
    if p.id !in s.rows then s
    else
      var row := s.rows[p.id].proposal;
      match OutcomeTarget(outcome, row.status)
      case None => s
      case Some(to) =>
        var written := row.(status := to,
                            settlementTx := Coalesce(outcome.SettlementTx(), row.settlementTx));
        var queued := if outcome.Abandoned?
                      then s.(penalties := s.penalties + [Charge(p)])
                      else s;
        Commit(queued, p.id, written,
               StatusChangedEvent(p.id, p.body.subSolver, p.body.orderUid, row.status, to,
                                  None, outcome.SettlementTx()))
  }

  function Charge(p: Proposal): PenaltyRow {
    PenaltyRow(p.id, p.body.subSolver, p.body.orderUid, None)
  }

  function NoteNotification(s: State, p: Proposal, kind: string): State {
    Emit(s, DriverNotifiedEvent(p.id, p.body.subSolver, p.body.orderUid, kind))
  }

  function RecordNonSettlementDebit(s: State, pending: PendingPenalty, amount: U256, tx: Hash): State {
    var written := if pending.id < |s.penalties|
                   then s.(penalties := s.penalties[pending.id := s.penalties[pending.id].(tx := Some(tx))])
                   else s;
    Emit(written, NonSettlementDebitedEvent(pending.proposalId, pending.subSolver, pending.orderUid, amount, tx))
  }

  /** An upsert; the row's foreign key makes it fail on a proposal already gone. */
  function RecordSolution(s: State, auction: int, solution: nat, proposal: ProposalId): State {
    if proposal in s.rows then s.(solutions := s.solutions[(auction, solution) := proposal]) else s
  }

  // -------------------------------------------------------------------------
  // Bulk writes
  // -------------------------------------------------------------------------

  predicate OlderThan(s: State, row: Row, age: nat) {
    row.changedAt + age < s.clock
  }

  predicate IsStaleExecuting(s: State, id: ProposalId, age: nat) {
    id in s.rows && s.rows[id].proposal.status.Executing? && OlderThan(s, s.rows[id], age)
  }

  /** The timeout releases all overdue rows or, when one cannot be read, none. */
  predicate ReleaseAborts(s: State, age: nat) {
    exists id :: id in s.rows && IsStaleExecuting(s, id, age) && !s.rows[id].keysReadable
  }

  function ReleaseEvents(s: State, n: nat, age: nat): seq<Event> {
    if n == 0 then []
    else
      ReleaseEvents(s, n - 1, age) +
      if IsStaleExecuting(s, n - 1, age)
      then [StatusChange(n - 1, s.rows[n - 1].proposal, Active, None)]
      else []
  }

  function Released(s: State, row: Row): Row {
    row.(proposal := row.proposal.(status := Active), changedAt := s.clock)
  }

  function ReleaseStaleExecuting(s: State, age: nat): State {
    if ReleaseAborts(s, age) then s
    else
      s.(rows := map id | id in s.rows ::
           if IsStaleExecuting(s, id, age) then Released(s, s.rows[id]) else s.rows[id],
         log := s.log + ReleaseEvents(s, s.nextId, age))
  }

  predicate IsSwept(s: State, id: ProposalId, age: nat) {
    id in s.rows && s.rows[id].proposal.status.IsDropped() && OlderThan(s, s.rows[id], age)
  }

  /** Deletes old dropped-tier rows; their solutions rows go with them. */
  function SweepDropped(s: State, age: nat): State {
    s.(rows := map id | id in s.rows && !IsSwept(s, id, age) :: s.rows[id],
       solutions := map key | key in s.solutions && !IsSwept(s, s.solutions[key], age) :: s.solutions[key])
  }

  // -------------------------------------------------------------------------
  // Steps
  // -------------------------------------------------------------------------

  /** One committed write by any actor, or time passing, or a row going bad. */
  datatype Step =
    | Receive(body: Body)
    | Wait(seconds: nat)
    | Expire(snapshot: Proposal)
    | Judge(id: ProposalId, verdict: Verdict)
    | Withdraw(id: ProposalId, caller: Address)
    | Report(snapshot: Proposal, outcome: Outcome)
    | Note(snapshot: Proposal, kind: string)
    | Release(age: nat)
    | Sweep(age: nat)
    | Bid(auction: int, solution: nat, id: ProposalId)
    | Penalize(snapshot: Proposal, amount: U256, tx: Hash)
    | Debit(pending: PendingPenalty, amount: U256, tx: Hash)
    | Damage(id: ProposalId, keys: bool)

  function Apply(s: State, step: Step): State {
    match step
    case Receive(body) => Insert(s, Fresh(body))
    case Wait(seconds) => s.(clock := s.clock + seconds)
    case Expire(p) => Transition(s, p, Expired)
    case Judge(id, verdict) => ResolveVerdict(s, id, verdict)
    case Withdraw(id, caller) => Cancel(s, id, caller)
    case Report(p, outcome) => ApplyOutcome(s, p, outcome)
    case Note(p, kind) => NoteNotification(s, p, kind)
    case Release(age) => ReleaseStaleExecuting(s, age)
    case Sweep(age) => SweepDropped(s, age)
    case Bid(auction, solution, id) => RecordSolution(s, auction, solution, id)
    case Penalize(p, amount, tx) => RecordPenalty(s, p, amount, tx)
    case Debit(pending, amount, tx) => RecordNonSettlementDebit(s, pending, amount, tx)
    case Damage(id, keys) =>
      if id !in s.rows then s
      else if keys then s.(rows := s.rows[id := s.rows[id].(keysReadable := false)])
      else s.(rows := s.rows[id := s.rows[id].(bodyReadable := false)])
  }

  // -------------------------------------------------------------------------
  // Replaying the audit log
  // -------------------------------------------------------------------------

  /** What the audit events of one proposal, read in order, add up to. */
  datatype Story =
    | Unborn
    | Told(
        body: Body,
        status: Status,
        rejection: Option<RejectionReason>,
        settlementTx: Option<Hash>,
        penaltyTx: Option<Hash>)
    | Broken

  function StoryOf(p: Proposal): Story {
    Told(p.body, p.status, p.rejection, p.settlementTx, p.penaltyTx)
  }

  predicate Cites(story: Story, subSolver: Address, orderUid: OrderUid) {
    story.Told? && story.body.subSolver == subSolver && story.body.orderUid == orderUid
  }

  /**
   One more event. The chain breaks when a change does not start at the status
   the previous one ended at, or cites the wrong proposal or settlement.
   */
  function Advance(story: Story, e: Event): Story {
    match e
    case ReceivedEvent(_, p) => if story.Unborn? then StoryOf(p) else Broken
    case CancelledEvent(_, sub, uid) =>
      if Cites(story, sub, uid) && story.status.IsLive()
      then story.(status := Cancelled) else Broken
    case StatusChangedEvent(_, sub, uid, from, to, rejection, tx) =>
      if Cites(story, sub, uid) && story.status == from
      then story.(status := to, rejection := rejection, settlementTx := Coalesce(tx, story.settlementTx))
      else Broken
    case PenalizedEvent(_, sub, uid, _, settlementTx, penaltyTx) =>
      if Cites(story, sub, uid) && story.status.SettleFailed? && story.settlementTx == settlementTx
      then story.(status := Penalized, penaltyTx := Some(penaltyTx)) else Broken
    case NonSettlementDebitedEvent(_, sub, uid, _, _) => if Cites(story, sub, uid) then story else Broken
    case DriverNotifiedEvent(_, sub, uid, _) => if Cites(story, sub, uid) then story else Broken
  }

  function Replay(log: seq<Event>, id: ProposalId): Story {
    if log == [] then Unborn
    else
      var before, e := Replay(log[..|log| - 1], id), log[|log| - 1];
      if e.id == id then Advance(before, e) else before
  }
}
