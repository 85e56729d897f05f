/**
 What every step of the store keeps, whatever stale snapshot it acts on, and
 what therefore holds in every reachable state.
 */
module Reachability {
  import opened Lifecycle
  import opened Uint256
  import opened Wrappers

  // -------------------------------------------------------------------------
  // The invariant
  // -------------------------------------------------------------------------

  /** Which optional columns a status carries: exactly the ones its history wrote. */
  predicate ShapeOk(p: Proposal) {
    && (p.settlementTx.Some? <==> p.status.IsMoney())
    && (p.penaltyTx.Some? <==> p.status.Penalized?)
    && (p.rejection.Some? <==> p.status.Rejected?)
  }

  /** The audit log of one proposal replays to its row, or to a dropped end if it was swept. */
  predicate StoryMatches(s: State, id: ProposalId) {
    var story := Replay(s.log, id);
    if id in s.rows then story == StoryOf(s.rows[id].proposal)
    else if 1 <= id < s.nextId then story.Told? && story.status.IsDropped()
    else story == Unborn
  }

  predicate RowOk(s: State, id: ProposalId)
    requires id in s.rows
  {
    1 <= id < s.nextId && s.rows[id].proposal.id == id && ShapeOk(s.rows[id].proposal)
  }

  ghost predicate Inv(s: State) {
    && s.nextId >= 1
    && (forall id :: id in s.rows ==> RowOk(s, id))
    && (forall id :: StoryMatches(s, id))
    && (forall k :: 0 <= k < |s.penalties| ==> ChargeCitesOwner(s, s.penalties[k]))
    && (forall key :: key in s.solutions ==> s.solutions[key] in s.rows)
  }

  predicate ChargeCitesOwner(s: State, charge: PenaltyRow) {
    Cites(Replay(s.log, charge.proposalId), charge.subSolver, charge.orderUid)
  }

  // -------------------------------------------------------------------------
  // Stale snapshots
  // -------------------------------------------------------------------------

  /** The statuses a proposal can move on to from `from`, however many steps later. */
  predicate Follows(from: Status, to: Status) {
    || from == to
    || (match from
        case Submitted => true
        case Active => !to.Submitted?
        case Executing => !to.Submitted?
        case SettleFailed => to.Penalized?
        case _ => false)
  }

  predicate StoryFollows(earlier: Story, later: Story) {
    && earlier.Told? && later.Told?
    && earlier.body == later.body
    && Follows(earlier.status, later.status)
    && (earlier.settlementTx.Some? ==> later.settlementTx == earlier.settlementTx)
    && (earlier.penaltyTx.Some? ==> later.penaltyTx == earlier.penaltyTx)
  }

  /** `p` is a view of the proposal that the present state has grown out of. */
  predicate StaleView(s: State, p: Proposal) {
    ShapeOk(p) && StoryFollows(StoryOf(p), Replay(s.log, p.id))
  }

  predicate PendingView(s: State, pending: PendingPenalty) {
    && pending.id < |s.penalties|
    && var row := s.penalties[pending.id];
       && row.proposalId == pending.proposalId
       && row.subSolver == pending.subSolver
       && row.orderUid == pending.orderUid
  }

  /** The steps an actor working from possibly stale views may take. */
  predicate Allowed(s: State, step: Step) {
    match step
    case Expire(p) => StaleView(s, p) && p.status.IsLive()
    case Report(p, _) => StaleView(s, p)
    case Note(p, _) => StaleView(s, p)
    case Penalize(p, _, _) => StaleView(s, p) && p.status.SettleFailed?
    case Debit(pending, _, _) => PendingView(s, pending)
    case _ => true
  }

  /** Every story only moves forward, and no queued charge changes hands. */
  ghost predicate Grows(s: State, s': State) {
    && (forall id :: Replay(s.log, id).Told? ==> StoryFollows(Replay(s.log, id), Replay(s'.log, id)))
    && |s.penalties| <= |s'.penalties|
    && (forall k :: 0 <= k < |s.penalties| ==> s'.penalties[k].(tx := s.penalties[k].tx) == s.penalties[k])
  }

  // -------------------------------------------------------------------------
  // Replay over appended events
  // -------------------------------------------------------------------------

  lemma ReplayAppend(log: seq<Event>, e: Event, id: ProposalId)
    ensures Replay(log + [e], id) ==
            if e.id == id then Advance(Replay(log, id), e) else Replay(log, id)
  {
    assert (log + [e])[..|log|] == log;
  }

  lemma ReplayReleased(s: State, n: nat, age: nat, id: ProposalId)
    requires Inv(s)
    ensures Replay(s.log + ReleaseEvents(s, n, age), id) ==
            if id < n && IsStaleExecuting(s, id, age)
            then StoryOf(Released(s, s.rows[id]).proposal)
            else Replay(s.log, id)
  {
    if n == 0 {
      assert s.log + ReleaseEvents(s, n, age) == s.log;
    } else {
      ReplayReleased(s, n - 1, age, id);
      var earlier := s.log + ReleaseEvents(s, n - 1, age);
      if IsStaleExecuting(s, n - 1, age) {
        var e := StatusChange(n - 1, s.rows[n - 1].proposal, Active, None);
        ReplayAppend(earlier, e, id);
        assert s.log + ReleaseEvents(s, n, age) == earlier + [e];
        assert StoryMatches(s, id) && (id in s.rows ==> RowOk(s, id));
      } else {
        assert s.log + ReleaseEvents(s, n, age) == earlier;
      }
    }
  }

  // -------------------------------------------------------------------------
  // Preservation
  // -------------------------------------------------------------------------

  /** One row moves on and one event says so. */
  lemma CommitKeeps(s: State, id: ProposalId, p: Proposal, e: Event)
    requires Inv(s) && id in s.rows
    requires e.id == id && p.id == id && ShapeOk(p)
    requires Advance(StoryOf(s.rows[id].proposal), e) == StoryOf(p)
    requires StoryFollows(StoryOf(s.rows[id].proposal), StoryOf(p))
    ensures Inv(Commit(s, id, p, e)) && Grows(s, Commit(s, id, p, e))
  {
    var s' := Commit(s, id, p, e);
    assert StoryMatches(s, id);
    forall other
      ensures StoryMatches(s', other)
      ensures Replay(s.log, other).Told? ==> StoryFollows(Replay(s.log, other), Replay(s'.log, other))
    {
      assert StoryMatches(s, other);
      ReplayAppend(s.log, e, other);
    }
    StoriesCarryCharges(s, s');
  }

  /** Growing stories keep every charge citing its owner. */
  lemma StoriesCarryCharges(s: State, s': State)
    requires Inv(s) && s'.penalties == s.penalties
    requires forall id :: Replay(s.log, id).Told? ==> StoryFollows(Replay(s.log, id), Replay(s'.log, id))
    ensures forall k :: 0 <= k < |s'.penalties| ==> ChargeCitesOwner(s', s'.penalties[k])
  {
    forall k | 0 <= k < |s'.penalties|
      ensures ChargeCitesOwner(s', s'.penalties[k])
    {
      assert ChargeCitesOwner(s, s.penalties[k]);
    }
  }

  /** Evidence that changes no status. */
  lemma NoteKeeps(s: State, e: Event)
    requires Inv(s)
    requires Replay(s.log, e.id).Told? && Advance(Replay(s.log, e.id), e) == Replay(s.log, e.id)
    ensures Inv(Emit(s, e)) && Grows(s, Emit(s, e))
  {
    forall other
      ensures Replay(Emit(s, e).log, other) == Replay(s.log, other)
    {
      ReplayAppend(s.log, e, other);
    }
    forall other
      ensures StoryMatches(Emit(s, e), other)
    {
      assert StoryMatches(s, other);
    }
    StoriesCarryCharges(s, Emit(s, e));
  }

  lemma InsertKeeps(s: State, body: Body)
    requires Inv(s)
    ensures Inv(Insert(s, Fresh(body))) && Grows(s, Insert(s, Fresh(body)))
  {
    var s' := Insert(s, Fresh(body));
    var e := s'.log[|s.log|];
    assert forall known :: known in s.rows ==> RowOk(s, known);
    forall id
      ensures StoryMatches(s', id)
      ensures Replay(s.log, id).Told? ==> StoryFollows(Replay(s.log, id), Replay(s'.log, id))
    {
      assert StoryMatches(s, id) && StoryMatches(s, s.nextId);
      ReplayAppend(s.log, e, id);
    }
    StoriesCarryCharges(s, s');
  }

  lemma ReleaseKeeps(s: State, age: nat)
    requires Inv(s)
    ensures Inv(ReleaseStaleExecuting(s, age)) && Grows(s, ReleaseStaleExecuting(s, age))
  {
    if !ReleaseAborts(s, age) {
      var s' := ReleaseStaleExecuting(s, age);
      forall id
        ensures StoryMatches(s', id)
        ensures Replay(s.log, id).Told? ==> StoryFollows(Replay(s.log, id), Replay(s'.log, id))
      {
        assert StoryMatches(s, id) && (id in s.rows ==> RowOk(s, id));
        ReplayReleased(s, s.nextId, age, id);
      }
      forall id | id in s'.rows
        ensures RowOk(s', id)
      {
        assert RowOk(s, id);
      }
      StoriesCarryCharges(s, s');
    }
  }

  lemma SweepKeeps(s: State, age: nat)
    requires Inv(s)
    ensures Inv(SweepDropped(s, age)) && Grows(s, SweepDropped(s, age))
  {
    var s' := SweepDropped(s, age);
    forall id
      ensures StoryMatches(s', id)
    {
      assert StoryMatches(s, id) && (id in s.rows ==> RowOk(s, id));
    }
    forall id | id in s'.rows
      ensures RowOk(s', id)
    {
      assert RowOk(s, id);
    }
    StoriesCarryCharges(s, s');
  }

  lemma OutcomeKeeps(s: State, p: Proposal, outcome: Outcome)
    requires Inv(s) && StaleView(s, p)
    ensures Inv(ApplyOutcome(s, p, outcome)) && Grows(s, ApplyOutcome(s, p, outcome))
  {
    if p.id in s.rows {
      var row := s.rows[p.id].proposal;
      var target := OutcomeTarget(outcome, row.status);
      if target.Some? {
        assert RowOk(s, p.id) && StoryMatches(s, p.id);
        var queued := if outcome.Abandoned? then s.(penalties := s.penalties + [Charge(p)]) else s;
        assert Inv(queued) by {
          forall id
            ensures StoryMatches(queued, id) && (id in queued.rows ==> RowOk(queued, id))
          {
            assert StoryMatches(s, id) && (id in s.rows ==> RowOk(s, id));
          }
          forall k | 0 <= k < |queued.penalties|
            ensures ChargeCitesOwner(queued, queued.penalties[k])
          {
            if k < |s.penalties| {
              assert ChargeCitesOwner(s, s.penalties[k]);
            }
          }
        }
        var written := row.(status := target.value,
                            settlementTx := Coalesce(outcome.SettlementTx(), row.settlementTx));
        CommitKeeps(queued, p.id, written,
          StatusChangedEvent(p.id, p.body.subSolver, p.body.orderUid, row.status, target.value,
                             None, outcome.SettlementTx()));
      }
    }
  }

  lemma VerdictKeeps(s: State, id: ProposalId, verdict: Verdict)
    requires Inv(s)
    ensures Inv(ResolveVerdict(s, id, verdict)) && Grows(s, ResolveVerdict(s, id, verdict))
  {
    if id in s.rows && s.rows[id].keysReadable && s.rows[id].proposal.status.IsLive() {
      var p := s.rows[id].proposal;
      assert RowOk(s, id) && StoryMatches(s, id);
      if p.status == VerdictStatus(verdict) {
        RewriteKeeps(s, id, s.rows[id].(proposal := Judged(p, verdict)));
      } else {
        CommitKeeps(s, id, Judged(p, verdict),
          StatusChange(id, p, VerdictStatus(verdict), VerdictReason(verdict)));
      }
    }
  }

  /** A rewrite that leaves the told part of a row alone needs no event. */
  lemma RewriteKeeps(s: State, id: ProposalId, row: Row)
    requires Inv(s) && id in s.rows
    requires row.proposal.id == id && StoryOf(row.proposal) == StoryOf(s.rows[id].proposal)
    ensures Inv(s.(rows := s.rows[id := row])) && Grows(s, s.(rows := s.rows[id := row]))
  {
    var s' := s.(rows := s.rows[id := row]);
    assert RowOk(s, id) && StoryMatches(s, id);
    forall other
      ensures StoryMatches(s', other) && (other in s'.rows ==> RowOk(s', other))
    {
      assert StoryMatches(s, other) && (other in s.rows ==> RowOk(s, other));
    }
    StoriesCarryCharges(s, s');
  }

  lemma DebitKeeps(s: State, pending: PendingPenalty, amount: U256, tx: Hash)
    requires Inv(s) && PendingView(s, pending)
    ensures Inv(RecordNonSettlementDebit(s, pending, amount, tx))
    ensures Grows(s, RecordNonSettlementDebit(s, pending, amount, tx))
  {
    var written := s.(penalties := s.penalties[pending.id := s.penalties[pending.id].(tx := Some(tx))]);
    assert ChargeCitesOwner(s, s.penalties[pending.id]);
    assert Inv(written) by {
      forall id
        ensures StoryMatches(written, id) && (id in written.rows ==> RowOk(written, id))
      {
        assert StoryMatches(s, id) && (id in s.rows ==> RowOk(s, id));
      }
      forall k | 0 <= k < |written.penalties|
        ensures ChargeCitesOwner(written, written.penalties[k])
      {
        assert ChargeCitesOwner(s, s.penalties[k]);
      }
    }
    NoteKeeps(written,
      NonSettlementDebitedEvent(pending.proposalId, pending.subSolver, pending.orderUid, amount, tx));
  }

  /** Every step, from every view that could have been read, keeps the invariant and moves stories forward. */
  lemma StepKeeps(s: State, step: Step)
    requires Inv(s) && Allowed(s, step)
    ensures Inv(Apply(s, step)) && Grows(s, Apply(s, step))
  {
    match step
    case Receive(body) => InsertKeeps(s, body);
    case Wait(_) => SameTables(s, Apply(s, step));
    case Expire(p) =>
      if StillAt(s, p) {
        assert RowOk(s, p.id) && StoryMatches(s, p.id);
        CommitKeeps(s, p.id, s.rows[p.id].proposal.(status := Expired), StatusChange(p.id, p, Expired, None));
      }
    case Judge(id, verdict) => VerdictKeeps(s, id, verdict);
    case Withdraw(id, caller) =>
      if Cancel(s, id, caller) != s {
        var p := s.rows[id].proposal;
        assert RowOk(s, id) && StoryMatches(s, id);
        CommitKeeps(s, id, p.(status := Cancelled), CancelledEvent(id, caller, p.body.orderUid));
      }
    case Report(p, outcome) => OutcomeKeeps(s, p, outcome);
    case Note(p, kind) => NoteKeeps(s, DriverNotifiedEvent(p.id, p.body.subSolver, p.body.orderUid, kind));
    case Release(age) => ReleaseKeeps(s, age);
    case Sweep(age) => SweepKeeps(s, age);
    case Bid(_, _, _) => SameTables(s, Apply(s, step));
    case Penalize(p, amount, tx) =>
      if StillAt(s, p) {
        assert RowOk(s, p.id) && StoryMatches(s, p.id);
        CommitKeeps(s, p.id, s.rows[p.id].proposal.(status := Penalized, penaltyTx := Some(tx)),
          PenalizedEvent(p.id, p.body.subSolver, p.body.orderUid, amount, p.settlementTx, tx));
      }
    case Debit(pending, amount, tx) => DebitKeeps(s, pending, amount, tx);
    case Damage(id, keys) =>
      if id in s.rows {
        assert RowOk(s, id);
        RewriteKeeps(s, id, Apply(s, step).rows[id]);
      }
  }

  lemma SameTables(s: State, s': State)
    requires Inv(s)
    requires s' == s.(solutions := s'.solutions, clock := s'.clock)
    requires forall key :: key in s'.solutions ==> s'.solutions[key] in s.rows
    ensures Inv(s') && Grows(s, s')
  {
    forall id
      ensures StoryMatches(s', id) && (id in s'.rows ==> RowOk(s', id))
    {
      assert StoryMatches(s, id) && (id in s.rows ==> RowOk(s, id));
    }
    StoriesCarryCharges(s, s');
  }
}
