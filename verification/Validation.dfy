/**
 One tick of the validation loop: the executing timeout, the expiry sweep, and
 a verdict on every other live proposal, all on one snapshot that goes stale
 as the other actors write.
 */
module Validation {
  import opened Interleaving
  import opened Lifecycle
  import opened Reachability
  import opened Runs
  import opened Snapshots
  import opened Storage
  import opened Wrappers

  /** What happens around one write: the others' writes, and whether the database takes it. */
  datatype Turn = Turn(others: seq<Step>, written: bool)

  /**
   One tick's circumstances. Verdicts come from concurrent validations;
   `finished` is the order in which they arrive, by position in the list that
   was sent out.
   */
  datatype TickTurns = TickTurns(
    released: bool,
    beforeSnapshot: seq<Step>,
    snapshotRead: bool,
    expiry: nat -> Turn,
    finished: seq<nat>,
    verdicts: nat -> Option<Verdict>,
    resolving: nat -> Turn
  )

  predicate IsPast(p: Proposal, now: nat) {
    p.body.validUntil < now
  }

  function ExpireOne(s: State, p: Proposal, now: nat, turn: Turn): State {
    var t := Meanwhile(s, turn.others, Another);
    if IsPast(p, now) && turn.written then Transition(t, p, Expired) else t
  }

  function ExpirySweep(s: State, live: seq<Proposal>, now: nat, turns: nat -> Turn): State {
    if live == [] then s
    else
      var last := |live| - 1;
      ExpireOne(ExpirySweep(s, live[..last], now, turns), live[last], now, turns(last))
  }

  /** The proposals that go on to be validated. */
  function Unexpired(live: seq<Proposal>, now: nat): seq<Proposal> {
    if live == [] then []
    else
      var last := |live| - 1;
      Unexpired(live[..last], now) + if IsPast(live[last], now) then [] else [live[last]]
  }

  /** A missing verdict defers the proposal to the next tick. */
  function ResolveOne(s: State, p: Proposal, verdict: Option<Verdict>, turn: Turn): State {
    var t := Meanwhile(s, turn.others, Another);
    if verdict.Some? && turn.written then ResolveVerdict(t, p.id, verdict.value) else t
  }

  /** The verdicts resolved, in the order they arrive. */
  function VerdictSweep(s: State, todo: seq<Proposal>, finished: seq<nat>,
                        verdicts: nat -> Option<Verdict>, turns: nat -> Turn): State {
    if finished == [] then s
    else
      var before := VerdictSweep(s, todo, finished[..|finished| - 1], verdicts, turns);
      var i := finished[|finished| - 1];
      if i < |todo| then ResolveOne(before, todo[i], verdicts(i), turns(i)) else before
  }

  function Snapshot(s: State, age: nat, t: TickTurns): State {
    Meanwhile(Timed(s, age, t), t.beforeSnapshot, Another)
  }

  const LIVE: set<Status> := {Submitted, Active}

  function LiveBook(s: State): seq<Proposal> {
    SnapshotByStatuses(s, LIVE)
  }

  function Tick(s: State, now: nat, age: nat, t: TickTurns): State {
    var read := Snapshot(s, age, t);
    if !t.snapshotRead then read
    else
      var live := LiveBook(read);
      VerdictSweep(ExpirySweep(read, live, now, t.expiry), Unexpired(live, now),
                   t.finished, t.verdicts, t.resolving)
  }

  // -------------------------------------------------------------------------
  // The loop
  // -------------------------------------------------------------------------

  method ExpireLive(store: ProposalStore, live: seq<Proposal>, now: nat, turns: nat -> Turn)
    returns (todo: seq<Proposal>)
    requires store.Valid()
    modifies store
    ensures store.Valid() && store.Contents() == ExpirySweep(old(store.Contents()), live, now, turns)
    ensures todo == Unexpired(live, now)
  {
    todo := [];
    var i := 0;
    while i < |live|
      invariant 0 <= i <= |live|
      invariant store.Valid() && store.Contents() == ExpirySweep(old(store.Contents()), live[..i], now, turns)
      invariant todo == Unexpired(live[..i], now)
    {
      assert live[..i + 1][..i] == live[..i];
      LetOthers(store, turns(i).others, Another);
      if live[i].body.validUntil < now {
        if turns(i).written {
          var _ := store.TransitionTo(live[i], Expired);
        }
      } else {
        todo := todo + [live[i]];
      }
      i := i + 1;
    }
    assert live[..i] == live;
  }

  method ResolveAll(store: ProposalStore, todo: seq<Proposal>, finished: seq<nat>,
                    verdicts: nat -> Option<Verdict>, turns: nat -> Turn)
    requires store.Valid()
    modifies store
    ensures store.Valid()
    ensures store.Contents() == VerdictSweep(old(store.Contents()), todo, finished, verdicts, turns)
  {
    var n := 0;
    while n < |finished|
      invariant 0 <= n <= |finished|
      invariant store.Valid()
      invariant store.Contents() == VerdictSweep(old(store.Contents()), todo, finished[..n], verdicts, turns)
    {
      assert finished[..n + 1][..n] == finished[..n];
      var i := finished[n];
      if i < |todo| {
        LetOthers(store, turns(i).others, Another);
        if verdicts(i).Some? && turns(i).written {
          var _ := store.Resolve(todo[i].id, verdicts(i).value);
        }
      }
      n := n + 1;
    }
    assert finished[..n] == finished;
  }

  method RunTick(store: ProposalStore, now: nat, age: nat, t: TickTurns)
    requires store.Valid()
    modifies store
    ensures store.Valid() && store.Contents() == Tick(old(store.Contents()), now, age, t)
  {
    if t.released {
      var _ := store.ReleaseStale(age);
    }
    LetOthers(store, t.beforeSnapshot, Another);
    if !t.snapshotRead {
      return;
    }
    var live := LiveBook(store.Contents());
    var todo := ExpireLive(store, live, now, t.expiry);
    ResolveAll(store, todo, t.finished, t.verdicts, t.resolving);
  }

  // -------------------------------------------------------------------------
  // A tick is a run
  // -------------------------------------------------------------------------

  lemma ExpiryGrows(s: State, live: seq<Proposal>, n: nat, now: nat, turns: nat -> Turn)
    requires 0 < n <= |live|
    ensures ExpirySweep(s, live[..n], now, turns) ==
            ExpireOne(ExpirySweep(s, live[..n - 1], now, turns), live[n - 1], now, turns(n - 1))
  {
    assert live[..n][..n - 1] == live[..n - 1];
  }

  /** An entry of the book is a row as it stands, and live. */
  lemma BookEntry(s: State, live: seq<Proposal>, i: nat)
    requires IsSnapshot(s, LIVE, live) && i < |live|
    ensures HoldsRow(s, live[i]) && live[i].status.IsLive()
  {
    assert ReadableIn(s, LIVE, live[i].id);
  }

  lemma {:induction false} ExpiryReaches(s: State, live: seq<Proposal>, n: nat, now: nat, turns: nat -> Turn)
    requires Inv(s) && IsSnapshot(s, LIVE, live) && n <= |live|
    ensures Reaches(s, ExpirySweep(s, live[..n], now, turns))
  {
    if n == 0 {
      ReachesItself(s);
    } else {
      ExpiryReaches(s, live, n - 1, now, turns);
      ExpiryGrows(s, live, n, now, turns);
      BookEntry(s, live, n - 1);
      ExpireOneReaches(s, ExpirySweep(s, live[..n - 1], now, turns), live[n - 1], now, turns(n - 1));
    }
  }

  lemma ExpireOneReaches(s: State, before: State, p: Proposal, now: nat, turn: Turn)
    requires Inv(s) && Reaches(s, before) && HoldsRow(s, p) && p.status.IsLive()
    ensures Reaches(s, ExpireOne(before, p, now, turn))
  {
    var t := Meanwhile(before, turn.others, Another);
    MeanwhileReaches(before, turn.others, Another);
    ReachesTransitive(s, before, t);
    ReachedKeeps(s, t);
    RowIsView(s, p);
    ViewsPersist(s, t);
    ReachesByStep(s, t, Expire(p));
  }

  lemma {:induction false} VerdictsReach(s: State, todo: seq<Proposal>, finished: seq<nat>,
                                         verdicts: nat -> Option<Verdict>, turns: nat -> Turn)
    ensures Reaches(s, VerdictSweep(s, todo, finished, verdicts, turns))
  {
    ReachesItself(s);
    if finished != [] {
      VerdictsReach(s, todo, finished[..|finished| - 1], verdicts, turns);
      var before := VerdictSweep(s, todo, finished[..|finished| - 1], verdicts, turns);
      var i := finished[|finished| - 1];
      if i < |todo| {
        ResolveOneReaches(s, before, todo[i], verdicts(i), turns(i));
      }
    }
  }

  lemma ResolveOneReaches(s: State, before: State, p: Proposal, verdict: Option<Verdict>, turn: Turn)
    requires Reaches(s, before)
    ensures Reaches(s, ResolveOne(before, p, verdict, turn))
  {
    var t := Meanwhile(before, turn.others, Another);
    MeanwhileReaches(before, turn.others, Another);
    ReachesTransitive(s, before, t);
    if verdict.Some? {
      ReachesByStep(s, t, Judge(p.id, verdict.value));
    }
  }

  /**
   However stale its snapshot gets and in whatever order verdicts arrive, a
   tick is a run of allowed steps: it keeps the invariant, and every law of
   runs holds across it.
   */
  lemma TickReaches(s: State, now: nat, age: nat, t: TickTurns)
    requires Inv(s)
    ensures Reaches(s, Tick(s, now, age, t))
    ensures Inv(Tick(s, now, age, t)) && Grows(s, Tick(s, now, age, t))
  {
    ReachesItself(s);
    ReachesByStep(s, s, Release(age));
    var released := if t.released then ReleaseStaleExecuting(s, age) else s;
    var read := Snapshot(s, age, t);
    MeanwhileReaches(released, t.beforeSnapshot, Another);
    ReachesTransitive(s, released, read);
    ReachedKeeps(s, read);
    if t.snapshotRead {
      var live := LiveBook(read);
      SnapshotExact(read, LIVE);
      ExpiryReaches(read, live, |live|, now, t.expiry);
      assert live[..|live|] == live;
      var swept := ExpirySweep(read, live, now, t.expiry);
      ReachesTransitive(s, read, swept);
      VerdictsReach(swept, Unexpired(live, now), t.finished, t.verdicts, t.resolving);
      ReachesTransitive(s, swept, Tick(s, now, age, t));
    }
    ReachedKeeps(s, Tick(s, now, age, t));
  }

  /**
   Each write of a tick, on whatever the others have left by then: an expiry
   compares and swaps, a verdict is judged on the row as it stands, and a write
   the database does not take, or a verdict that never comes, changes nothing.
   */
  lemma WritesExact(s: State, p: Proposal, now: nat, verdict: Option<Verdict>, turn: Turn)
    ensures var t := Meanwhile(s, turn.others, Another);
            && ExpireOne(s, p, now, turn) ==
                 (if p.body.validUntil < now && turn.written then Transition(t, p, Expired) else t)
            && ResolveOne(s, p, verdict, turn) ==
                 (if verdict.Some? && turn.written then ResolveVerdict(t, p.id, verdict.value) else t)
  {
  }

  // -------------------------------------------------------------------------
  // What an undisturbed tick does to each proposal
  // -------------------------------------------------------------------------

  ghost predicate Undisturbed(turns: nat -> Turn) {
    forall i: nat :: turns(i) == Turn([], true)
  }

  lemma UndisturbedExpiry(s: State, live: seq<Proposal>, n: nat, now: nat, turns: nat -> Turn)
    requires 0 < n <= |live| && Undisturbed(turns)
    ensures var before, p := ExpirySweep(s, live[..n - 1], now, turns), live[n - 1];
            ExpirySweep(s, live[..n], now, turns) == if IsPast(p, now) then Transition(before, p, Expired) else before
  {
    ExpiryGrows(s, live, n, now, turns);
    assert turns(n - 1) == Turn([], true);
  }

  /** The sweep expires a row exactly when the book holds it with its deadline past. */
  lemma {:induction false} ExpirySweepAt(
      s: State, live: seq<Proposal>, n: nat, now: nat, turns: nat -> Turn, id: ProposalId)
    requires IsSnapshot(s, LIVE, live) && n <= |live| && Undisturbed(turns)
    requires id in s.rows && s.rows[id].proposal.id == id
    ensures id in ExpirySweep(s, live[..n], now, turns).rows
    ensures var row := s.rows[id];
            var expires := row.proposal in live[..n] && IsPast(row.proposal, now);
            var after := ExpirySweep(s, live[..n], now, turns).rows[id];
            if expires then after.proposal == row.proposal.(status := Expired) else after == row
  {
    if n > 0 {
      ExpirySweepAt(s, live, n - 1, now, turns, id);
      UndisturbedExpiry(s, live, n, now, turns);
      InPrefix(live, n, s.rows[id].proposal);
      assert HoldsRow(s, live[n - 1]);
      if live[n - 1].id == id {
        assert s.rows[id].proposal !in live[..n - 1];
      }
    }
  }

  /** A verdict for each of the `m` validations sent out, in any order. */
  ghost predicate Schedule(finished: seq<nat>, m: nat) {
    && (forall i: nat :: i in finished <==> i < m)
    && (forall j, k :: 0 <= j < k < |finished| ==> finished[j] != finished[k])
  }

  /** Each proposal sent out is judged by its own verdict once that has arrived. */
  lemma {:induction false} VerdictSweepAt(
      s: State, todo: seq<Proposal>, finished: seq<nat>, n: nat,
      verdicts: nat -> Option<Verdict>, turns: nat -> Turn, i: nat)
    requires IsSnapshot(s, LIVE, todo) && Schedule(finished, |todo|) && n <= |finished| && i < |todo|
    requires Undisturbed(turns)
    ensures todo[i].id in VerdictSweep(s, todo, finished[..n], verdicts, turns).rows
    ensures var row := VerdictSweep(s, todo, finished[..n], verdicts, turns).rows[todo[i].id];
            row.keysReadable &&
            row.proposal ==
              if i in finished[..n] && verdicts(i).Some? then Judged(todo[i], verdicts(i).value) else todo[i]
  {
    assert HoldsRow(s, todo[i]) && ReadableIn(s, LIVE, todo[i].id);
    if n > 0 {
      VerdictSweepAt(s, todo, finished, n - 1, verdicts, turns, i);
      assert finished[..n][..n - 1] == finished[..n - 1];
      assert finished[..n] == finished[..n - 1] + [finished[n - 1]];
      var k := finished[n - 1];
      assert k in finished && turns(k) == Turn([], true);
      if k == i {
        assert i !in finished[..n - 1];
      } else {
        assert todo[k].id != todo[i].id;
      }
    }
  }

  /** A row that was not sent out is left alone. */
  lemma {:induction false} VerdictSweepLeaves(
      s: State, todo: seq<Proposal>, finished: seq<nat>, verdicts: nat -> Option<Verdict>, turns: nat -> Turn,
      id: ProposalId)
    requires Undisturbed(turns) && id in s.rows && forall i :: 0 <= i < |todo| ==> todo[i].id != id
    ensures id in VerdictSweep(s, todo, finished, verdicts, turns).rows
    ensures VerdictSweep(s, todo, finished, verdicts, turns).rows[id] == s.rows[id]
  {
    if finished != [] {
      VerdictSweepLeaves(s, todo, finished[..|finished| - 1], verdicts, turns, id);
      var i := finished[|finished| - 1];
      assert turns(i) == Turn([], true);
    }
  }

  /** What is sent to the validator: the book without what has expired. */
  lemma {:induction false} UnexpiredHolds(live: seq<Proposal>, now: nat, p: Proposal)
    ensures p in Unexpired(live, now) <==> p in live && !IsPast(p, now)
  {
    if live != [] {
      var last := |live| - 1;
      UnexpiredHolds(live[..last], now, p);
      assert live == live[..last] + [live[last]];
    }
  }

  lemma {:induction false} UnexpiredDistinct(live: seq<Proposal>, now: nat)
    requires forall i, j :: 0 <= i < j < |live| ==> live[i].id != live[j].id
    ensures forall i, j :: 0 <= i < j < |Unexpired(live, now)| ==>
              Unexpired(live, now)[i].id != Unexpired(live, now)[j].id
  {
    if live != [] {
      var last := |live| - 1;
      var rest := Unexpired(live[..last], now);
      UnexpiredDistinct(live[..last], now);
      forall i | 0 <= i < |rest|
        ensures rest[i].id != live[last].id
      {
        UnexpiredHolds(live[..last], now, rest[i]);
      }
    }
  }

  /** It is still a snapshot once the sweep has been through. */
  lemma UnexpiredIsSnapshot(s: State, live: seq<Proposal>, now: nat, turns: nat -> Turn)
    requires IsSnapshot(s, LIVE, live) && Undisturbed(turns)
    ensures IsSnapshot(ExpirySweep(s, live, now, turns), LIVE, Unexpired(live, now))
  {
    var todo, swept := Unexpired(live, now), ExpirySweep(s, live, now, turns);
    UnexpiredDistinct(live, now);
    assert live[..|live|] == live;
    forall i | 0 <= i < |todo|
      ensures ReadableIn(swept, LIVE, todo[i].id) && HoldsRow(swept, todo[i])
    {
      UnexpiredHolds(live, now, todo[i]);
      assert HoldsRow(s, todo[i]) && ReadableIn(s, LIVE, todo[i].id);
      ExpirySweepAt(s, live, |live|, now, turns, todo[i].id);
    }
  }

  /** A submitted or active row whose columns all parse. */
  predicate IsOpen(row: Row) {
    (row.proposal.status == Submitted || row.proposal.status == Active) && row.keysReadable && row.bodyReadable
  }

  /** What the tick makes of a row as the timeout left it, given the verdict it drew. */
  function AfterTick(row: Row, now: nat, verdict: Option<Verdict>): Proposal {
    var p := row.proposal;
    if !IsOpen(row) then p
    else if p.body.validUntil < now then p.(status := Expired)
    else if verdict.Some? then Judged(p, verdict.value)
    else p
  }

  /** The rows as the timeout leaves them; a failed release does not stop the tick. */
  function Timed(s: State, age: nat, t: TickTurns): State {
    if t.released then ReleaseStaleExecuting(s, age) else s
  }

  /** The proposals an undisturbed tick sends to the validator. */
  function SentOut(read: State, now: nat): seq<Proposal> {
    Unexpired(LiveBook(read), now)
  }

  ghost predicate UndisturbedTick(read: State, now: nat, t: TickTurns) {
    && t.beforeSnapshot == [] && Undisturbed(t.expiry) && Undisturbed(t.resolving)
    && Schedule(t.finished, |SentOut(read, now)|)
  }

  /** The verdict on the proposal, when it is sent out. */
  ghost predicate Draws(read: State, now: nat, t: TickTurns, p: Proposal, verdict: Option<Verdict>) {
    exists i :: 0 <= i < |SentOut(read, now)| && SentOut(read, now)[i] == p && verdict == t.verdicts(i)
  }

  /** Everything but what the rows say: the ids, the penalty queue, the attributions and the clock. */
  predicate SameFrame(s: State, s': State) {
    && s'.rows.Keys == s.rows.Keys && s'.nextId == s.nextId
    && s'.penalties == s.penalties && s'.solutions == s.solutions && s'.clock == s.clock
  }

  lemma {:induction false} ExpiryFrame(s: State, live: seq<Proposal>, now: nat, turns: nat -> Turn)
    requires Undisturbed(turns)
    ensures SameFrame(s, ExpirySweep(s, live, now, turns))
  {
    if live != [] {
      ExpiryFrame(s, live[..|live| - 1], now, turns);
      assert turns(|live| - 1) == Turn([], true);
    }
  }

  lemma {:induction false} VerdictFrame(s: State, todo: seq<Proposal>, finished: seq<nat>,
                                        verdicts: nat -> Option<Verdict>, turns: nat -> Turn)
    requires Undisturbed(turns)
    ensures SameFrame(s, VerdictSweep(s, todo, finished, verdicts, turns))
  {
    if finished != [] {
      VerdictFrame(s, todo, finished[..|finished| - 1], verdicts, turns);
      assert turns(finished[|finished| - 1]) == Turn([], true);
    }
  }

  /** A row the sweep left and the validator was not asked about. */
  lemma UnsentRow(read: State, live: seq<Proposal>, now: nat, t: TickTurns, id: ProposalId)
    requires IsSnapshot(read, LIVE, live) && id in read.rows && read.rows[id].proposal.id == id
    requires Undisturbed(t.expiry) && Undisturbed(t.resolving)
    requires read.rows[id].proposal !in Unexpired(live, now)
    ensures var swept, todo := ExpirySweep(read, live, now, t.expiry), Unexpired(live, now);
            var after := VerdictSweep(swept, todo, t.finished, t.verdicts, t.resolving);
            && id in swept.rows && id in after.rows && after.rows[id] == swept.rows[id]
  {
    var swept, todo := ExpirySweep(read, live, now, t.expiry), Unexpired(live, now);
    forall i | 0 <= i < |todo|
      ensures todo[i].id != id
    {
      UnexpiredHolds(live, now, todo[i]);
      assert HoldsRow(read, todo[i]);
    }
    ExpiryFrame(read, live, now, t.expiry);
    VerdictSweepLeaves(swept, todo, t.finished, t.verdicts, t.resolving, id);
  }

  /** A row the validator was asked about, at position `i`. */
  lemma SentRow(read: State, live: seq<Proposal>, now: nat, t: TickTurns, i: nat)
    requires IsSnapshot(read, LIVE, live) && Undisturbed(t.expiry) && Undisturbed(t.resolving)
    requires Schedule(t.finished, |Unexpired(live, now)|) && i < |Unexpired(live, now)|
    ensures var swept, todo := ExpirySweep(read, live, now, t.expiry), Unexpired(live, now);
            var after := VerdictSweep(swept, todo, t.finished, t.verdicts, t.resolving);
            && todo[i].id in after.rows
            && after.rows[todo[i].id].proposal ==
               (if t.verdicts(i).Some? then Judged(todo[i], t.verdicts(i).value) else todo[i])
  {
    var swept, todo := ExpirySweep(read, live, now, t.expiry), Unexpired(live, now);
    UnexpiredIsSnapshot(read, live, now, t.expiry);
    VerdictSweepAt(swept, todo, t.finished, |t.finished|, t.verdicts, t.resolving, i);
    assert t.finished[..|t.finished|] == t.finished;
  }

  /** Both sweeps, seen from one row of the book's state. */
  lemma SweepsExact(read: State, live: seq<Proposal>, now: nat, t: TickTurns, id: ProposalId)
    returns (verdict: Option<Verdict>)
    requires IsSnapshot(read, LIVE, live) && id in read.rows && read.rows[id].proposal.id == id
    requires read.rows[id].proposal in live <==> ReadableIn(read, LIVE, id)
    requires Undisturbed(t.expiry) && Undisturbed(t.resolving) && Schedule(t.finished, |Unexpired(live, now)|)
    ensures var swept, todo := ExpirySweep(read, live, now, t.expiry), Unexpired(live, now);
            var after := VerdictSweep(swept, todo, t.finished, t.verdicts, t.resolving);
            var p := read.rows[id].proposal;
            && id in after.rows
            && after.rows[id].proposal == AfterTick(read.rows[id], now, verdict)
            && (p in todo ==> exists i :: 0 <= i < |todo| && todo[i] == p && verdict == t.verdicts(i))
  {
    var todo, p := Unexpired(live, now), read.rows[id].proposal;
    UnexpiredHolds(live, now, p);
    if p in todo {
      var i :| 0 <= i < |todo| && todo[i] == p;
      verdict := t.verdicts(i);
      SentRow(read, live, now, t, i);
    } else {
      verdict := None;
      UnsentRow(read, live, now, t, id);
      ExpirySweepAt(read, live, |live|, now, t.expiry, id);
      assert live[..|live|] == live;
    }
  }

  /**
   Undisturbed, and in whatever order verdicts arrive: an overdue settlement is
   released and takes part in the same tick, an expired proposal expires and is
   never judged, every other readable live proposal takes its own verdict, and
   nothing else changes: no row comes or goes, no charge, no attribution. When
   the release fails the rest goes on, and when the book cannot be read the
   tick ends there.
   */
  lemma TickExact(s: State, now: nat, age: nat, t: TickTurns, id: ProposalId) returns (verdict: Option<Verdict>)
    requires Inv(s) && id in s.rows
    requires UndisturbedTick(if t.released then ReleaseStaleExecuting(s, age) else s, now, t)
    ensures SameFrame(s, Tick(s, now, age, t))
    ensures var read := if t.released then ReleaseStaleExecuting(s, age) else s;
            var row := read.rows[id];
            if t.snapshotRead then
              && Tick(s, now, age, t).rows[id].proposal == AfterTick(row, now, verdict)
              && (IsOpen(row) && row.proposal.body.validUntil >= now ==>
                    Draws(read, now, t, row.proposal, verdict))
            else Tick(s, now, age, t) == read
  {
    var read := Timed(s, age, t);
    var live := LiveBook(read);
    UndisturbedSweeps(s, now, age, t);
    TimedBook(s, age, t, id);
    verdict := None;
    if t.snapshotRead {
      TickFrame(read, live, SentOut(read, now), now, t);
      verdict := SweepsExact(read, live, now, t, id);
      UnexpiredHolds(live, now, read.rows[id].proposal);
    }
  }

  lemma UndisturbedSweeps(s: State, now: nat, age: nat, t: TickTurns)
    requires UndisturbedTick(Timed(s, age, t), now, t)
    ensures var read := Timed(s, age, t);
            Tick(s, now, age, t) ==
            if t.snapshotRead
            then VerdictSweep(ExpirySweep(read, LiveBook(read), now, t.expiry), SentOut(read, now),
                              t.finished, t.verdicts, t.resolving)
            else read
  {
  }

  /** What the timeout leaves, and what the book then holds of one row. */
  lemma TimedBook(s: State, age: nat, t: TickTurns, id: ProposalId)
    requires Inv(s) && id in s.rows
    ensures var read := Timed(s, age, t);
            && SameFrame(s, read) && read.rows[id].proposal.id == id
            && IsSnapshot(read, LIVE, LiveBook(read))
            && (read.rows[id].proposal in LiveBook(read) <==> ReadableIn(read, LIVE, id))
  {
    var read := Timed(s, age, t);
    ReleaseKeeps(s, age);
    assert read.rows.Keys == s.rows.Keys;
    assert RowOk(read, id);
    SnapshotExact(read, LIVE);
  }

  lemma TickFrame(read: State, live: seq<Proposal>, todo: seq<Proposal>, now: nat, t: TickTurns)
    requires Undisturbed(t.expiry) && Undisturbed(t.resolving)
    ensures SameFrame(read, VerdictSweep(ExpirySweep(read, live, now, t.expiry), todo,
                                         t.finished, t.verdicts, t.resolving))
  {
    ExpiryFrame(read, live, now, t.expiry);
    VerdictFrame(ExpirySweep(read, live, now, t.expiry), todo, t.finished, t.verdicts, t.resolving);
  }
}
