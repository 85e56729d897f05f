/**
 Commit and emission as two separate steps. A store method commits its write
 first and sends the event afterwards, so events of different tasks can reach
 the channel out of commit order.
 */
module AuditTrail {
  import opened Chains
  import opened Lifecycle
  import opened Orders
  import opened Reachability
  import opened Runs
  import opened Wrappers

  /** `store.log` is in commit order, `emitted` in the order the channel saw. */
  datatype Trail = Trail(store: State, pending: seq<Event>, emitted: seq<Event>)

  datatype Move = Commit(step: Step) | Send(position: nat)

  const NOTHING: Trail := Trail(EMPTY, [], [])

  /** Steps only ever append to the log. */
  lemma LogExtends(s: State, step: Step)
    ensures s.log <= Apply(s, step).log
  {
  }

  function NewEvents(s: State, step: Step): seq<Event> {
    LogExtends(s, step);
    Apply(s, step).log[|s.log|..]
  }

  function Committed(t: Trail, step: Step): Trail {
    t.(store := Apply(t.store, step), pending := t.pending + NewEvents(t.store, step))
  }

  function Sent(t: Trail, i: nat): Trail
    requires i < |t.pending|
  {
    t.(pending := t.pending[..i] + t.pending[i + 1..], emitted := t.emitted + [t.pending[i]])
  }

  function Moved(t: Trail, move: Move): Trail {
    match move
    case Commit(step) => if Allowed(t.store, step) then Committed(t, step) else t
    case Send(i) => if i < |t.pending| then Sent(t, i) else t
  }

  function Trailed(moves: seq<Move>): Trail {
    if moves == [] then NOTHING else Moved(Trailed(moves[..|moves| - 1]), moves[|moves| - 1])
  }

  lemma CommitAppends(s: State, step: Step)
    ensures Apply(s, step).log == s.log + NewEvents(s, step)
  {
    LogExtends(s, step);
  }

  // -------------------------------------------------------------------------
  // Nothing is lost or invented
  // -------------------------------------------------------------------------

  lemma TakenOut(events: seq<Event>, i: nat)
    requires i < |events|
    ensures multiset(events) == multiset(events[..i] + events[i + 1..]) + multiset{events[i]}
  {
    SplitAt(events, i);
  }

  /** Nothing is lost or invented between commit and channel. */
  predicate Permuted(t: Trail) {
    multiset(t.emitted) + multiset(t.pending) == multiset(t.store.log)
  }

  lemma CommitPermutes(t: Trail, step: Step)
    requires Permuted(t)
    ensures Permuted(Committed(t, step))
  {
    CommitAppends(t.store, step);
  }

  lemma SendPermutes(t: Trail, i: nat)
    requires i < |t.pending| && Permuted(t)
    ensures Permuted(Sent(t, i))
  {
    TakenOut(t.pending, i);
  }

  /** Emitted and not yet emitted events together are always a permutation of the commits. */
  lemma {:induction false} TrailIsPermutation(moves: seq<Move>)
    ensures Permuted(Trailed(moves))
  {
    if moves != [] {
      var before, move := Trailed(moves[..|moves| - 1]), moves[|moves| - 1];
      TrailIsPermutation(moves[..|moves| - 1]);
      if move.Commit? {
        CommitPermutes(before, move.step);
      } else if move.position < |before.pending| {
        SendPermutes(before, move.position);
      }
    }
  }

  // -------------------------------------------------------------------------
  // When order is kept
  // -------------------------------------------------------------------------

  /** Sending does not take the proposal's event past an earlier one still waiting. */
  predicate SendsInOrder(t: Trail, move: Move, id: ProposalId) {
    move.Send? && move.position < |t.pending| && t.pending[move.position].id == id ==>
      About(t.pending[..move.position], id) == []
  }

  predicate InOrder(moves: seq<Move>, id: ProposalId) {
    moves == [] ||
    var earlier := moves[..|moves| - 1];
    InOrder(earlier, id) && SendsInOrder(Trailed(earlier), moves[|moves| - 1], id)
  }

  /** What has been sent and what is waiting are, in this order, what was committed. */
  predicate Ordered(t: Trail, id: ProposalId) {
    About(t.emitted, id) + About(t.pending, id) == About(t.store.log, id)
  }

  lemma CommitKeepsOrder(t: Trail, step: Step, id: ProposalId)
    requires Ordered(t, id)
    ensures Ordered(Committed(t, step), id)
  {
    var more := NewEvents(t.store, step);
    CommitAppends(t.store, step);
    AboutConcat(t.store.log, more, id);
    AboutConcat(t.pending, more, id);
    ConcatAssociates(About(t.emitted, id), About(t.pending, id), About(more, id));
  }

  lemma SendKeepsOrder(t: Trail, i: nat, id: ProposalId)
    requires i < |t.pending| && SendsInOrder(t, Send(i), id) && Ordered(t, id)
    ensures Ordered(Sent(t, i), id)
  {
    AboutSplit(t.pending, i, id);
    AboutConcat(t.pending[..i], t.pending[i + 1..], id);
    AboutAppend(t.emitted, t.pending[i], id);
    PassedBy(About(t.emitted, id), About(t.pending[..i], id), OnlyIf(t.pending[i], id), About(t.pending[i + 1..], id));
  }

  lemma PassedBy<T>(sent: seq<T>, early: seq<T>, e: seq<T>, late: seq<T>)
    requires early == [] || e == []
    ensures (sent + e) + (early + late) == sent + (early + e + late)
  {
    if e == [] {
      assert sent + e == sent && early + e == early;
    } else {
      assert early + late == late && early + e == e;
    }
  }

  /** Sent in order, a proposal's emitted events are always a prefix of its committed ones. */
  lemma {:induction false} EmittedIsPrefix(moves: seq<Move>, id: ProposalId)
    requires InOrder(moves, id)
    ensures Ordered(Trailed(moves), id)
  {
    if moves != [] {
      var before, move := Trailed(moves[..|moves| - 1]), moves[|moves| - 1];
      EmittedIsPrefix(moves[..|moves| - 1], id);
      if move.Commit? {
        CommitKeepsOrder(before, move.step, id);
      } else if move.position < |before.pending| {
        SendKeepsOrder(before, move.position, id);
      }
    }
  }

  lemma {:induction false} TrailInv(moves: seq<Move>)
    ensures Inv(Trailed(moves).store)
  {
    if moves == [] {
      EmptyInv();
    } else {
      var before, move := Trailed(moves[..|moves| - 1]), moves[|moves| - 1];
      TrailInv(moves[..|moves| - 1]);
      if move.Commit? && Allowed(before.store, move.step) {
        StepKeeps(before.store, move.step);
      }
    }
  }

  /**
   Sent in order, what the channel saw replays to the table as soon as nothing
   about the proposal is waiting.
   */
  lemma EmittedReplaysToTable(moves: seq<Move>, id: ProposalId)
    requires InOrder(moves, id) && About(Trailed(moves).pending, id) == []
    ensures var t := Trailed(moves);
            && Replay(t.emitted, id) == Replay(t.store.log, id)
            && (id in t.store.rows ==> Replay(t.emitted, id) == StoryOf(t.store.rows[id].proposal))
  {
    var t := Trailed(moves);
    EmittedIsPrefix(moves, id);
    assert About(t.emitted, id) + [] == About(t.emitted, id);
    ReplayIsChain(t.emitted, id);
    ReplayIsChain(t.store.log, id);
    TrailInv(moves);
    assert StoryMatches(t.store, id);
  }

  // -------------------------------------------------------------------------
  // When the replay holds
  // -------------------------------------------------------------------------

  lemma {:induction false} ReleasesPlain(s: State, n: nat, age: nat)
    ensures forall e :: e in ReleaseEvents(s, n, age) ==> Plain(e)
  {
    if n > 0 {
      ReleasesPlain(s, n - 1, age);
    }
  }

  /** Every event a step commits is an edge of the lifecycle. */
  lemma CommitsPlain(s: State, step: Step)
    requires Allowed(s, step)
    ensures forall e :: e in NewEvents(s, step) ==> Plain(e)
  {
    if step.Release? {
      ReleasesPlain(s, s.nextId, step.age);
    } else if NewEvents(s, step) != [] {
      SingleEvent(s, step);
      SinglePlain(s, step);
    }
  }

  lemma SinglePlain(s: State, step: Step)
    requires Allowed(s, step) && !step.Release? && NewEvents(s, step) != []
    ensures Plain(NewEvents(s, step)[0])
  {
  }

  lemma {:induction false} LogPlain(moves: seq<Move>)
    ensures forall e :: e in Trailed(moves).store.log ==> Plain(e)
  {
    if moves != [] {
      var before, move := Trailed(moves[..|moves| - 1]), moves[|moves| - 1];
      LogPlain(moves[..|moves| - 1]);
      if move.Commit? && Allowed(before.store, move.step) {
        CommitsPlain(before.store, move.step);
        CommitAppends(before.store, move.step);
      }
    }
  }

  /** With none of its events waiting, a proposal's sent events are its committed ones in some order. */
  lemma AllSent(moves: seq<Move>, id: ProposalId)
    requires About(Trailed(moves).pending, id) == []
    ensures multiset(About(Trailed(moves).emitted, id)) == multiset(About(Trailed(moves).store.log, id))
  {
    var t := Trailed(moves);
    TrailIsPermutation(moves);
    forall e: Event
      ensures multiset(About(t.emitted, id))[e] == multiset(About(t.store.log, id))[e]
    {
      AboutCount(t.emitted, id, e);
      AboutCount(t.pending, id, e);
      AboutCount(t.store.log, id, e);
      assert (multiset(t.emitted) + multiset(t.pending))[e] == multiset(t.store.log)[e];
    }
  }

  lemma ToldIfMade(s: State, id: ProposalId)
    requires Inv(s) && About(s.log, id) != []
    ensures Chain(About(s.log, id)).Told?
  {
    assert StoryMatches(s, id);
    ReplayIsChain(s.log, id);
  }

  lemma PlainAbout(log: seq<Event>, id: ProposalId)
    requires forall e :: e in log ==> Plain(e)
    ensures forall e :: e in About(log, id) ==> e.id == id && Plain(e)
  {
    forall e | e in About(log, id)
      ensures e.id == id && Plain(e)
    {
      AboutFrom(log, id, e);
    }
  }

  lemma MadeTold(moves: seq<Move>, id: ProposalId)
    requires About(Trailed(moves).store.log, id) != []
    ensures Chain(About(Trailed(moves).store.log, id)).Told?
    ensures forall e :: e in About(Trailed(moves).store.log, id) ==> e.id == id && Plain(e)
  {
    TrailInv(moves);
    ToldIfMade(Trailed(moves).store, id);
    LogPlain(moves);
    PlainAbout(Trailed(moves).store.log, id);
  }

  /**
   Exactly when what the channel saw replays to the table, once nothing about
   the proposal is waiting: its receipt was sent first, and its status changes
   were sent in commit order. Evidence may have been overtaken.
   */
  lemma ReplaysToTableIff(moves: seq<Move>, id: ProposalId)
    requires About(Trailed(moves).pending, id) == []
    ensures var t := Trailed(moves);
            var sent, made := About(t.emitted, id), About(t.store.log, id);
            && (Replay(t.emitted, id) == Replay(t.store.log, id) <==>
                  made == [] || (sent != [] && sent[0].ReceivedEvent? && Telling(sent) == Telling(made)))
            && (id in t.store.rows ==> Replay(t.store.log, id) == StoryOf(t.store.rows[id].proposal))
  {
    var t := Trailed(moves);
    var sent, made := About(t.emitted, id), About(t.store.log, id);
    AllSent(moves, id);
    ReplayIsChain(t.emitted, id);
    ReplayIsChain(t.store.log, id);
    TrailInv(moves);
    assert StoryMatches(t.store, id);
    if made == [] {
      SameSize(sent, made);
    } else {
      MadeTold(moves, id);
      SameStoryIff(made, sent, id);
    }
  }

  // -------------------------------------------------------------------------
  // A condition that ensures order
  // -------------------------------------------------------------------------

  /** A proposal's next event is committed only when none of its events is waiting. */
  predicate CommitsAlone(t: Trail, move: Move, id: ProposalId) {
    move.Commit? && About(NewEvents(t.store, move.step), id) != [] ==> About(t.pending, id) == []
  }

  predicate NeverOverlaps(moves: seq<Move>, id: ProposalId) {
    moves == [] ||
    var earlier := moves[..|moves| - 1];
    NeverOverlaps(earlier, id) && CommitsAlone(Trailed(earlier), moves[|moves| - 1], id)
  }

  lemma SingleEvent(s: State, step: Step)
    requires !step.Release?
    ensures |NewEvents(s, step)| <= 1
  {
  }

  /** A step commits at most one event about a proposal. */
  lemma OneEventEach(s: State, step: Step, id: ProposalId)
    ensures |About(NewEvents(s, step), id)| <= 1
  {
    if step.Release? && !ReleaseAborts(s, step.age) {
      assert NewEvents(s, step) == ReleaseEvents(s, s.nextId, step.age);
      ReleasesOnce(s, s.nextId, step.age, id);
    } else if !step.Release? {
      SingleEvent(s, step);
    }
  }

  lemma {:induction false} ReleasesOnce(s: State, n: nat, age: nat, id: ProposalId)
    ensures |About(ReleaseEvents(s, n, age), id)| <= if id < n then 1 else 0
  {
    if n > 0 {
      ReleasesOnce(s, n - 1, age, id);
      var earlier := ReleaseEvents(s, n - 1, age);
      if IsStaleExecuting(s, n - 1, age) {
        AboutAppend(earlier, StatusChange(n - 1, s.rows[n - 1].proposal, Active, None), id);
      } else {
        assert ReleaseEvents(s, n, age) == earlier;
      }
    }
  }

  lemma {:induction false} AtMostOneWaiting(moves: seq<Move>, id: ProposalId)
    requires NeverOverlaps(moves, id)
    ensures |About(Trailed(moves).pending, id)| <= 1
  {
    if moves != [] {
      var before, move := Trailed(moves[..|moves| - 1]), moves[|moves| - 1];
      AtMostOneWaiting(moves[..|moves| - 1], id);
      if move.Commit? {
        OneEventEach(before.store, move.step, id);
        AboutConcat(before.pending, NewEvents(before.store, move.step), id);
      } else if move.position < |before.pending| {
        AboutSplit(before.pending, move.position, id);
        AboutConcat(before.pending[..move.position], before.pending[move.position + 1..], id);
      }
    }
  }

  /** Then sending is in order by itself, whatever the tasks do. */
  lemma {:induction false} NeverOverlapsIsInOrder(moves: seq<Move>, id: ProposalId)
    requires NeverOverlaps(moves, id)
    ensures InOrder(moves, id)
  {
    if moves != [] {
      var before, move := Trailed(moves[..|moves| - 1]), moves[|moves| - 1];
      NeverOverlapsIsInOrder(moves[..|moves| - 1], id);
      AtMostOneWaiting(moves[..|moves| - 1], id);
      if move.Send? && move.position < |before.pending| {
        AboutSplit(before.pending, move.position, id);
      }
    }
  }

  // -------------------------------------------------------------------------
  // When it is not
  // -------------------------------------------------------------------------

  const BODY: Body := Body(7, 1, Quote(1, 1), 100)

  /** A proposal is received, activated and cancelled by three tasks. */
  const COMMITTED: seq<Move> := [Commit(Receive(BODY))] + [Commit(Judge(1, Accept(None)))] + [Commit(Withdraw(1, 7))]

  /** The activation, committed before the cancellation, is sent after it. */
  const OVERTAKEN: seq<Move> := COMMITTED + [Send(0)] + [Send(1)] + [Send(0)]

  lemma TrailedAppend(moves: seq<Move>, move: Move)
    ensures Trailed(moves + [move]) == Moved(Trailed(moves), move)
  {
    assert (moves + [move])[..|moves|] == moves;
  }

  const RECEIVED: Event := ReceivedEvent(1, Fresh(BODY).(id := 1))
  const ACTIVATED: Event := StatusChangedEvent(1, 7, 1, Submitted, Active, None, None)
  const CANCELLED: Event := CancelledEvent(1, 7, 1)

  lemma ThreeCommits()
    ensures Trailed(COMMITTED).pending == [RECEIVED, ACTIVATED, CANCELLED]
    ensures Trailed(COMMITTED).store.log == [RECEIVED, ACTIVATED, CANCELLED]
    ensures Trailed(COMMITTED).emitted == []
  {
    var stored := Fresh(BODY).(id := 1);
    var first := State(map[1 := Row(stored, 0, true, true)], 2, [], map[], [RECEIVED], 0);
    var active := Row(stored.(status := Active), 0, true, true);
    var second := State(map[1 := active], 2, [], map[], [RECEIVED, ACTIVATED], 0);
    var moves: seq<Move> := [Commit(Receive(BODY))];
    TrailedAppend([], moves[0]);
    assert [] + moves == moves && Trailed(moves) == Trail(first, [RECEIVED], []);
    TrailedAppend(moves, Commit(Judge(1, Accept(None))));
    assert Apply(first, Judge(1, Accept(None))) == second;
    moves := moves + [Commit(Judge(1, Accept(None)))];
    assert Trailed(moves) == Trail(second, [RECEIVED, ACTIVATED], []);
    TrailedAppend(moves, Commit(Withdraw(1, 7)));
  }

  lemma SecondOvertaken(t: Trail, a: Event, b: Event, c: Event)
    requires t.pending == [a, b, c]
    ensures Moved(Moved(Moved(t, Send(0)), Send(1)), Send(0)) ==
            t.(pending := [], emitted := t.emitted + [a, c, b])
  {
    assert Moved(t, Send(0)).pending == [b, c];
    assert Moved(Moved(t, Send(0)), Send(1)).pending == [b];
    assert t.emitted + [a, c, b] == t.emitted + [a] + [c] + [b];
  }

  /** Overtaking really breaks the replay: everything was sent, yet the chain does not connect. */
  lemma OvertakingBreaksReplay()
    ensures var t := Trailed(OVERTAKEN);
            && t.pending == []
            && Replay(t.store.log, 1).Told? && Replay(t.store.log, 1).status.Cancelled?
            && Replay(t.emitted, 1) == Broken
  {
    ThreeCommits();
    TrailedAppend(COMMITTED, Send(0));
    TrailedAppend(COMMITTED + [Send(0)], Send(1));
    TrailedAppend(COMMITTED + [Send(0)] + [Send(1)], Send(0));
    SecondOvertaken(Trailed(COMMITTED), RECEIVED, ACTIVATED, CANCELLED);
    assert Trailed(OVERTAKEN).emitted == [RECEIVED, CANCELLED, ACTIVATED];
    BothOrders();
  }

  lemma BothOrders()
    ensures Replay([RECEIVED, ACTIVATED, CANCELLED], 1).Told?
    ensures Replay([RECEIVED, ACTIVATED, CANCELLED], 1).status.Cancelled?
    ensures Replay([RECEIVED, CANCELLED, ACTIVATED], 1) == Broken
  {
    ReplayThree(RECEIVED, ACTIVATED, CANCELLED);
    ReplayThree(RECEIVED, CANCELLED, ACTIVATED);
  }

  lemma ReplayThree(a: Event, b: Event, c: Event)
    requires a.id == b.id == c.id
    ensures Replay([a, b, c], a.id) == Advance(Advance(Advance(Unborn, a), b), c)
  {
    ReplayAppend([], a, a.id);
    ReplayAppend([a], b, a.id);
    ReplayAppend([a, b], c, a.id);
    assert [] + [a] == [a] && [a] + [b] == [a, b] && [a, b] + [c] == [a, b, c];
  }
}
