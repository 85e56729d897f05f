/**
 `/notify`: the driver's report on solutions it was offered, joined to the
 proposals they were built on and applied to each.
 */
module Notify {
  import opened Chains
  import opened Interleaving
  import opened Lifecycle
  import opened Money
  import opened Reachability
  import opened Runs
  import opened Storage
  import opened Validation
  import opened Wrappers

  /** The wire notification, its auction id parsed and its solution ids listed. */
  datatype Notification = Notification(
    auction: Option<int>,
    solutions: Option<seq<nat>>,
    kind: string,
    transaction: Option<Hash>
  )

  /** `None` for the kinds that are evidence only. */
  function OutcomeOf(note: Notification): Option<Outcome> {
    match note.kind
    case "settlementStarted" => Some(Started)
    case "success" =>
      var tx :- note.transaction;
      Some(Succeeded(tx))
    case "revert" =>
      var tx :- note.transaction;
      Some(Reverted(tx))
    case "cancelled" => Some(Abandoned)
    case "expired" => Some(Abandoned)
    case "fail" => Some(Abandoned)
    case _ => None
  }

  function AttributedProposals(s: State, note: Notification): seq<Proposal> {
    if note.auction.None? || note.solutions.None? then []
    else SolutionProposals(s, note.auction.value, note.solutions.value)
  }

  /** The row takes the outcome, or the notification is kept as evidence that it did not. */
  function Reported(s: State, p: Proposal, outcome: Outcome, kind: string): State {
    if p.id !in s.rows then s
    else if OutcomeTarget(outcome, s.rows[p.id].proposal.status).None? then NoteNotification(s, p, kind)
    else ApplyOutcome(s, p, outcome)
  }

  function ReportOne(s: State, p: Proposal, outcome: Outcome, kind: string, turn: Turn): State {
    var t := Meanwhile(s, turn.others, Another);
    if turn.written then Reported(t, p, outcome, kind) else t
  }

  function ReportAll(s: State, ps: seq<Proposal>, outcome: Outcome, kind: string, turns: nat -> Turn): State {
    if ps == [] then s
    else
      var last := |ps| - 1;
      ReportOne(ReportAll(s, ps[..last], outcome, kind, turns), ps[last], outcome, kind, turns(last))
  }

  function NoteAll(s: State, ps: seq<Proposal>, kind: string): State {
    if ps == [] then s
    else NoteNotification(NoteAll(s, ps[..|ps| - 1], kind), ps[|ps| - 1], kind)
  }

  function Notified(s: State, note: Notification, turns: nat -> Turn): State {
    var ps := AttributedProposals(s, note);
    match OutcomeOf(note)
    case None => NoteAll(s, ps, note.kind)
    case Some(outcome) => ReportAll(s, ps, outcome, note.kind, turns)
  }

  // -------------------------------------------------------------------------
  // The endpoint
  // -------------------------------------------------------------------------

  method Handle(store: ProposalStore, note: Notification, readOk: bool, turns: nat -> Turn)
    requires store.Valid()
    modifies store
    ensures store.Valid()
    ensures store.Contents() == if readOk then Notified(old(store.Contents()), note, turns) else old(store.Contents())
  {
    if !readOk {
      return;
    }
    var ps := AttributedProposals(store.Contents(), note);
    var outcome := OutcomeOf(note);
    if outcome.None? {
      NoteEach(store, ps, note.kind);
    } else {
      ReportEach(store, ps, outcome.value, note.kind, turns);
    }
  }

  method NoteEach(store: ProposalStore, ps: seq<Proposal>, kind: string)
    requires store.Valid()
    modifies store
    ensures store.Valid() && store.Contents() == NoteAll(old(store.Contents()), ps, kind)
  {
    var i := 0;
    while i < |ps|
      invariant 0 <= i <= |ps|
      invariant store.Valid() && store.Contents() == NoteAll(old(store.Contents()), ps[..i], kind)
    {
      assert ps[..i + 1][..i] == ps[..i];
      store.NoteDriverNotification(ps[i], kind);
      i := i + 1;
    }
    assert ps[..i] == ps;
  }

  method ReportEach(store: ProposalStore, ps: seq<Proposal>, outcome: Outcome, kind: string, turns: nat -> Turn)
    requires store.Valid()
    modifies store
    ensures store.Valid() && store.Contents() == ReportAll(old(store.Contents()), ps, outcome, kind, turns)
  {
    var i := 0;
    while i < |ps|
      invariant 0 <= i <= |ps|
      invariant store.Valid()
      invariant store.Contents() == ReportAll(old(store.Contents()), ps[..i], outcome, kind, turns)
    {
      assert ps[..i + 1][..i] == ps[..i];
      Apportion(store, ps[i], outcome, kind, turns(i));
      i := i + 1;
    }
    assert ps[..i] == ps;
  }

  /** One attributed proposal's share of the report. */
  method Apportion(store: ProposalStore, p: Proposal, outcome: Outcome, kind: string, turn: Turn)
    requires store.Valid()
    modifies store
    ensures store.Valid() && store.Contents() == ReportOne(old(store.Contents()), p, outcome, kind, turn)
  {
    LetOthers(store, turn.others, Another);
    if !turn.written {
      return;
    }
    var effect := store.ApplySettlementOutcome(p, outcome);
    if effect.Ok? && effect.value.Ignored? {
      store.NoteDriverNotification(p, kind);
    }
  }

  // -------------------------------------------------------------------------
  // Attribution
  // -------------------------------------------------------------------------

  lemma JoinGrows(s: State, auction: int, ids: seq<nat>, n: nat, p: Proposal)
    ensures p in DecodeRows(JoinedRows(s, auction, ids, n + 1)) <==>
            || p in DecodeRows(JoinedRows(s, auction, ids, n))
            || (n in s.rows && Matches(s, auction, ids, n) != {} && Readable(s.rows[n]) && p == s.rows[n].proposal)
  {
    var rows := JoinedRows(s, auction, ids, n);
    if n in s.rows {
      var copies := seq(|Matches(s, auction, ids, n)|, _ => s.rows[n]);
      DecodeConcat(rows, copies);
      DecodeCopies(copies, s.rows[n], p);
    } else {
      assert rows + [] == rows;
    }
  }

  /** The join finds exactly the readable rows that some reported solution names. */
  lemma {:induction false} JoinHolds(s: State, auction: int, ids: seq<nat>, n: nat, p: Proposal)
    requires forall id :: id in s.rows ==> s.rows[id].proposal.id == id
    ensures p in DecodeRows(JoinedRows(s, auction, ids, n)) <==>
            && p.id < n && HoldsRow(s, p) && Readable(s.rows[p.id])
            && Matches(s, auction, ids, p.id) != {}
  {
    if n > 0 {
      JoinHolds(s, auction, ids, n - 1, p);
      JoinGrows(s, auction, ids, n - 1, p);
    }
  }

  lemma {:induction false} DecodeConcat(a: seq<Row>, b: seq<Row>)
    ensures DecodeRows(a + b) == DecodeRows(a) + DecodeRows(b)
  {
    if b == [] {
      assert a + b == a;
    } else {
      DecodeConcat(a, b[..|b| - 1]);
      DecodeAppend(a + b[..|b| - 1], b[|b| - 1]);
      assert a + b == a + b[..|b| - 1] + [b[|b| - 1]];
    }
  }

  lemma {:induction false} DecodeCopies(copies: seq<Row>, row: Row, p: Proposal)
    requires forall i :: 0 <= i < |copies| ==> copies[i] == row
    ensures p in DecodeRows(copies) <==> copies != [] && Readable(row) && p == row.proposal
  {
    if copies != [] {
      DecodeCopies(copies[..|copies| - 1], row, p);
    }
  }

  /** A notification reaches exactly the readable proposals its solution ids were recorded for. */
  lemma AttributedExactly(s: State, note: Notification, p: Proposal)
    requires Inv(s)
    ensures p in AttributedProposals(s, note) <==>
            && HoldsRow(s, p) && Readable(s.rows[p.id])
            && note.auction.Some? && note.solutions.Some?
            && exists n :: n in note.solutions.value && (note.auction.value, n) in s.solutions
                           && s.solutions[(note.auction.value, n)] == p.id
  {
    if note.auction.Some? && note.solutions.Some? {
      var auction, ids := note.auction.value, note.solutions.value;
      assert forall id :: id in s.rows ==> RowOk(s, id);
      JoinHolds(s, auction, ids, s.nextId, p);
      assert HoldsRow(s, p) ==> RowOk(s, p.id);
      if n :| n in ids && (auction, n) in s.solutions && s.solutions[(auction, n)] == p.id {
        assert n in Matches(s, auction, ids, p.id);
      } else {
        assert forall n :: n !in Matches(s, auction, ids, p.id);
      }
    }
  }

  // -------------------------------------------------------------------------
  // A notification is a run
  // -------------------------------------------------------------------------

  ghost predicate AllHeld(s: State, ps: seq<Proposal>) {
    forall i :: 0 <= i < |ps| ==> HoldsRow(s, ps[i])
  }

  /** A proposal read at `s` can be reported on at any later state. */
  lemma ReportOneReaches(s: State, before: State, p: Proposal, outcome: Outcome, kind: string, turn: Turn)
    requires Inv(s) && Reaches(s, before) && HoldsRow(s, p)
    ensures Reaches(before, ReportOne(before, p, outcome, kind, turn))
  {
    var t := Meanwhile(before, turn.others, Another);
    MeanwhileReaches(before, turn.others, Another);
    ReachesTransitive(s, before, t);
    ReachedKeeps(s, t);
    RowIsView(s, p);
    ViewsPersist(s, t);
    ReachesByStep(before, t, Report(p, outcome));
    ReachesByStep(before, t, Note(p, kind));
  }

  lemma ReportsGrow(s: State, ps: seq<Proposal>, n: nat, outcome: Outcome, kind: string, turns: nat -> Turn)
    requires 0 < n <= |ps|
    ensures ReportAll(s, ps[..n], outcome, kind, turns) ==
            ReportOne(ReportAll(s, ps[..n - 1], outcome, kind, turns), ps[n - 1], outcome, kind, turns(n - 1))
  {
    assert ps[..n][..n - 1] == ps[..n - 1];
  }

  lemma {:induction false} ReportsReach(
      s: State, ps: seq<Proposal>, n: nat, outcome: Outcome, kind: string, turns: nat -> Turn)
    requires Inv(s) && AllHeld(s, ps) && n <= |ps|
    ensures Reaches(s, ReportAll(s, ps[..n], outcome, kind, turns))
  {
    if n == 0 {
      ReachesItself(s);
    } else {
      var before := ReportAll(s, ps[..n - 1], outcome, kind, turns);
      ReportsReach(s, ps, n - 1, outcome, kind, turns);
      ReportsGrow(s, ps, n, outcome, kind, turns);
      ReportOneReaches(s, before, ps[n - 1], outcome, kind, turns(n - 1));
      ReachesTransitive(s, before, ReportAll(s, ps[..n], outcome, kind, turns));
    }
  }

  lemma NextReportReaches(
      s: State, ps: seq<Proposal>, n: nat, outcome: Outcome, kind: string, turns: nat -> Turn)
    requires Inv(s) && AllHeld(s, ps) && 0 < n <= |ps|
    ensures Reaches(ReportAll(s, ps[..n - 1], outcome, kind, turns), ReportAll(s, ps[..n], outcome, kind, turns))
  {
    ReportsReach(s, ps, n - 1, outcome, kind, turns);
    ReportsGrow(s, ps, n, outcome, kind, turns);
    assert HoldsRow(s, ps[n - 1]);
    ReportOneReaches(s, ReportAll(s, ps[..n - 1], outcome, kind, turns), ps[n - 1], outcome, kind, turns(n - 1));
  }

  /** The rest of a report is a run from wherever its first part left the store. */
  lemma {:induction false} ReportsReachOn(
      s: State, ps: seq<Proposal>, k: nat, n: nat, outcome: Outcome, kind: string, turns: nat -> Turn)
    requires Inv(s) && AllHeld(s, ps) && k <= n <= |ps|
    ensures Reaches(ReportAll(s, ps[..k], outcome, kind, turns), ReportAll(s, ps[..n], outcome, kind, turns))
  {
    if n == k {
      ReachesItself(ReportAll(s, ps[..k], outcome, kind, turns));
    } else {
      ReportsReachOn(s, ps, k, n - 1, outcome, kind, turns);
      NextReportReaches(s, ps, n, outcome, kind, turns);
      ReachesTransitive(ReportAll(s, ps[..k], outcome, kind, turns),
                        ReportAll(s, ps[..n - 1], outcome, kind, turns),
                        ReportAll(s, ps[..n], outcome, kind, turns));
    }
  }

  lemma {:induction false} NotesReach(s: State, ps: seq<Proposal>, n: nat, kind: string)
    requires Inv(s) && AllHeld(s, ps) && n <= |ps|
    ensures Reaches(s, NoteAll(s, ps[..n], kind))
  {
    if n == 0 {
      ReachesItself(s);
    } else {
      NotesReach(s, ps, n - 1, kind);
      assert ps[..n][..n - 1] == ps[..n - 1];
      var before := NoteAll(s, ps[..n - 1], kind);
      ReachedKeeps(s, before);
      RowIsView(s, ps[n - 1]);
      ViewsPersist(s, before);
      ReachesByStep(s, before, Note(ps[n - 1], kind));
    }
  }

  lemma AttributedHeld(s: State, note: Notification)
    requires Inv(s)
    ensures AllHeld(s, AttributedProposals(s, note))
  {
    var ps := AttributedProposals(s, note);
    forall i | 0 <= i < |ps|
      ensures HoldsRow(s, ps[i])
    {
      AttributedExactly(s, note, ps[i]);
    }
  }

  /** Whatever it says and whenever it comes, a notification keeps the invariant and every law of runs. */
  lemma NotifiedReaches(s: State, note: Notification, turns: nat -> Turn)
    requires Inv(s)
    ensures Reaches(s, Notified(s, note, turns))
    ensures Inv(Notified(s, note, turns)) && Grows(s, Notified(s, note, turns))
  {
    var ps := AttributedProposals(s, note);
    AttributedHeld(s, note);
    assert ps[..|ps|] == ps;
    match OutcomeOf(note) {
      case None => NotesReach(s, ps, |ps|, note.kind);
      case Some(outcome) => ReportsReach(s, ps, |ps|, outcome, note.kind, turns);
    }
    ReachedKeeps(s, Notified(s, note, turns));
  }

  /** A report's write, on whatever the others have left by then: one the database does not take changes nothing. */
  lemma ReportWritesExact(s: State, p: Proposal, outcome: Outcome, kind: string, turn: Turn)
    ensures var t := Meanwhile(s, turn.others, Another);
            ReportOne(s, p, outcome, kind, turn) ==
            if !turn.written || p.id !in t.rows then t
            else if ApplyOutcome(t, p, outcome) == t
            then t.(log := t.log + [DriverNotifiedEvent(p.id, p.body.subSolver, p.body.orderUid, kind)])
            else ApplyOutcome(t, p, outcome)
  {
    var t := Meanwhile(s, turn.others, Another);
    if p.id in t.rows && OutcomeTarget(outcome, t.rows[p.id].proposal.status).Some? {
      assert |ApplyOutcome(t, p, outcome).log| == |t.log| + 1;
    }
  }

  // -------------------------------------------------------------------------
  // What an undisturbed notification does
  // -------------------------------------------------------------------------

  /** No outcome applies twice in a row: the second is only noted. */
  lemma OutcomesAreIdempotent(outcome: Outcome, from: Status)
    ensures OutcomeTarget(outcome, from).Some? ==> OutcomeTarget(outcome, OutcomeTarget(outcome, from).value).None?
  {
  }

  /** The row as the outcome leaves it: moved once, however often it was named. */
  function WithOutcome(p: Proposal, outcome: Outcome): Proposal {
    match OutcomeTarget(outcome, p.status)
    case None => p
    case Some(to) => p.(status := to, settlementTx := Coalesce(outcome.SettlementTx(), p.settlementTx))
  }

  /** A charge is queued for a proposal named in the report that was executing and is now abandoned. */
  predicate QueuesCharge(s: State, outcome: Outcome, named: bool, id: ProposalId) {
    named && outcome.Abandoned? && ExecutingIn(s, id)
  }

  /** `s'` is `s` after some reports, as seen from one row, which they named or did not. */
  ghost predicate ReportedExactly(s: State, s': State, outcome: Outcome, named: bool, id: ProposalId)
    requires id in s.rows
  {
    && s'.rows.Keys == s.rows.Keys
    && s'.rows[id].proposal == (if named then WithOutcome(s.rows[id].proposal, outcome) else s.rows[id].proposal)
    && ChargesFor(s'.penalties, id) ==
         ChargesFor(s.penalties, id) + (if QueuesCharge(s, outcome, named, id) then 1 else 0)
  }

  /**
   Applied to every named proposal exactly once, duplicates included: each
   named row takes the outcome, the others stay as they are, and one charge is
   queued for each that was executing when its settlement was abandoned.
   */
  lemma {:induction false} ReportsExact(
      s: State, ps: seq<Proposal>, n: nat, outcome: Outcome, kind: string, turns: nat -> Turn, id: ProposalId)
    requires AllHeld(s, ps) && n <= |ps| && Undisturbed(turns)
    requires id in s.rows && s.rows[id].proposal.id == id
    ensures ReportedExactly(s, ReportAll(s, ps[..n], outcome, kind, turns), outcome,
                            s.rows[id].proposal in ps[..n], id)
  {
    if n > 0 {
      ReportsExact(s, ps, n - 1, outcome, kind, turns, id);
      var before, p := ReportAll(s, ps[..n - 1], outcome, kind, turns), ps[n - 1];
      UndisturbedReport(s, ps, n, outcome, kind, turns);
      assert HoldsRow(s, p);
      OneMoreReport(s, before, p, outcome, kind, id, s.rows[id].proposal in ps[..n - 1]);
      InPrefix(ps, n, s.rows[id].proposal);
    }
  }

  /** Only an abandonment touches the penalty queue. */
  lemma {:induction false} ReportsChargeNothing(
      s: State, ps: seq<Proposal>, n: nat, outcome: Outcome, kind: string, turns: nat -> Turn)
    requires n <= |ps| && Undisturbed(turns) && !outcome.Abandoned?
    ensures ReportAll(s, ps[..n], outcome, kind, turns).penalties == s.penalties
  {
    if n > 0 {
      ReportsChargeNothing(s, ps, n - 1, outcome, kind, turns);
      UndisturbedReport(s, ps, n, outcome, kind, turns);
    }
  }

  /** An attributed report of a known outcome, seen from one row. */
  lemma OutcomeReported(s: State, note: Notification, turns: nat -> Turn, outcome: Outcome, id: ProposalId)
    requires Inv(s) && Undisturbed(turns) && id in s.rows && OutcomeOf(note) == Some(outcome)
    ensures ReportedExactly(s, Notified(s, note, turns), outcome,
                            s.rows[id].proposal in AttributedProposals(s, note), id)
    ensures !outcome.Abandoned? ==> Notified(s, note, turns).penalties == s.penalties
  {
    var ps := AttributedProposals(s, note);
    AttributedHeld(s, note);
    assert ps[..|ps|] == ps && RowOk(s, id);
    ReportsExact(s, ps, |ps|, outcome, note.kind, turns, id);
    if !outcome.Abandoned? {
      ReportsChargeNothing(s, ps, |ps|, outcome, note.kind, turns);
    }
  }

  predicate InFlight(p: Proposal) {
    p.status == Active || p.status == Executing
  }

  /**
   What each notification does, kind by kind, undisturbed: a success settles
   and a revert fails every attributed proposal in flight, under the
   transaction reported; a start freezes the active ones; an abandonment sends
   the executing ones back with one charge each; and anything else, a success
   or revert without its transaction included, changes no row and charges
   nothing.
   */
  lemma NotificationExact(s: State, note: Notification, turns: nat -> Turn, id: ProposalId)
    requires Inv(s) && Undisturbed(turns) && id in s.rows
    ensures var s', p := Notified(s, note, turns), s.rows[id].proposal;
            var named := p in AttributedProposals(s, note);
            && s'.rows.Keys == s.rows.Keys
            && var q := s'.rows[id].proposal;
               match note.kind
               case "success" =>
                 && s'.penalties == s.penalties
                 && q == (if named && InFlight(p) && note.transaction.Some?
                          then p.(status := Settled, settlementTx := note.transaction) else p)
               case "revert" =>
                 && s'.penalties == s.penalties
                 && q == (if named && InFlight(p) && note.transaction.Some?
                          then p.(status := SettleFailed, settlementTx := note.transaction) else p)
               case "settlementStarted" =>
                 && s'.penalties == s.penalties
                 && q == (if named && p.status == Active then p.(status := Executing) else p)
               case kind =>
                 if kind == "cancelled" || kind == "expired" || kind == "fail" then
                   && q == (if named && p.status == Executing then p.(status := Active) else p)
                   && ChargesFor(s'.penalties, id) ==
                        ChargesFor(s.penalties, id) + (if named && p.status == Executing then 1 else 0)
                 else q == p && s'.penalties == s.penalties
  {
    match OutcomeOf(note) {
      case Some(outcome) => OutcomeReported(s, note, turns, outcome, id);
      case None => NotesTell(s, AttributedProposals(s, note), note.kind, id);
    }
  }

  lemma UndisturbedReport(s: State, ps: seq<Proposal>, n: nat, outcome: Outcome, kind: string, turns: nat -> Turn)
    requires 0 < n <= |ps| && Undisturbed(turns)
    ensures ReportAll(s, ps[..n], outcome, kind, turns) ==
            Reported(ReportAll(s, ps[..n - 1], outcome, kind, turns), ps[n - 1], outcome, kind)
  {
    ReportsGrow(s, ps, n, outcome, kind, turns);
    assert turns(n - 1) == Turn([], true);
  }

  lemma OneMoreReport(s: State, before: State, p: Proposal, outcome: Outcome, kind: string, id: ProposalId,
                      named: bool)
    requires id in s.rows && p.id in s.rows && ReportedExactly(s, before, outcome, named, id)
    ensures ReportedExactly(s, Reported(before, p, outcome, kind), outcome, named || p.id == id, id)
  {
    OutcomesAreIdempotent(outcome, s.rows[id].proposal.status);
    ReportOnce(before, p, outcome, kind, id);
  }

  lemma ReportOnce(before: State, p: Proposal, outcome: Outcome, kind: string, id: ProposalId)
    requires p.id in before.rows && id in before.rows
    ensures var after := Reported(before, p, outcome, kind);
            && after.rows.Keys == before.rows.Keys
            && after.rows[id].proposal ==
                 (if p.id == id then WithOutcome(before.rows[id].proposal, outcome) else before.rows[id].proposal)
            && ChargesFor(after.penalties, id) ==
                 ChargesFor(before.penalties, id) + (if QueuesCharge(before, outcome, p.id == id, id) then 1 else 0)
  {
    assert (before.penalties + [Charge(p)])[..|before.penalties|] == before.penalties;
  }

  /** In flight when the `k`-th proposal's turn comes, whatever the others have written by then. */
  predicate InFlightAtTurn(s: State, ps: seq<Proposal>, k: nat, outcome: Outcome, kind: string, turns: nat -> Turn)
    requires k < |ps|
  {
    var t := Meanwhile(ReportAll(s, ps[..k], outcome, kind, turns), turns(k).others, Another);
    ps[k].id in t.rows && (t.rows[ps[k].id].proposal.status.Active? || t.rows[ps[k].id].proposal.status.Executing?)
  }

  /**
   A revert the driver reports reaches the money path and stays on it: every
   named proposal that is still in flight at its turn, and whose write the
   database takes, owes the debit or has paid it by the end, under the
   transaction reported, whatever else is written before, between and after.
   */
  lemma RevertOwed(s: State, note: Notification, turns: nat -> Turn, k: nat)
    requires Inv(s) && note.kind == "revert" && note.transaction.Some?
    requires k < |AttributedProposals(s, note)| && turns(k).written
    requires InFlightAtTurn(s, AttributedProposals(s, note), k, Reverted(note.transaction.value), note.kind, turns)
    ensures var s', id := Notified(s, note, turns), AttributedProposals(s, note)[k].id;
            && (OwesRevert(s', id) || PaidRevert(s', id))
            && s'.rows[id].proposal.settlementTx == note.transaction
  {
    var ps, outcome := AttributedProposals(s, note), Reverted(note.transaction.value);
    AttributedHeld(s, note);
    assert OutcomeOf(note) == Some(outcome) && ps[..|ps|] == ps;
    ReportsGrow(s, ps, k + 1, outcome, note.kind, turns);
    ReportsReach(s, ps, k + 1, outcome, note.kind, turns);
    ReportsReachOn(s, ps, k + 1, |ps|, outcome, note.kind, turns);
    OweForever(s, ReportAll(s, ps[..k + 1], outcome, note.kind, turns), Notified(s, note, turns), ps[k].id);
  }

  lemma OweForever(s: State, mid: State, end: State, id: ProposalId)
    requires Inv(s) && Reaches(s, mid) && Reaches(mid, end) && OwesRevert(mid, id)
    ensures OwesRevert(end, id) || PaidRevert(end, id)
    ensures end.rows[id].proposal.settlementTx == mid.rows[id].proposal.settlementTx
  {
    ReachedKeeps(s, mid);
    var run :| AllowedRun(mid, run) && After(mid, run) == end;
    TerminalIsForever(mid, run, id);
  }

  /** How often a report names a proposal. */
  function TimesNamed(ps: seq<Proposal>, id: ProposalId): nat {
    if ps == [] then 0
    else TimesNamed(ps[..|ps| - 1], id) + if ps[|ps| - 1].id == id then 1 else 0
  }

  lemma NamedOnceMore(ps: seq<Proposal>, n: nat, id: ProposalId)
    requires 0 < n <= |ps|
    ensures TimesNamed(ps[..n], id) == TimesNamed(ps[..n - 1], id) + if ps[n - 1].id == id then 1 else 0
  {
    assert ps[..n][..n - 1] == ps[..n - 1];
  }

  /** Exactly one event, about the proposal reported on. */
  lemma ReportTells(before: State, p: Proposal, outcome: Outcome, kind: string, id: ProposalId)
    requires p.id in before.rows
    ensures var after := Reported(before, p, outcome, kind);
            && after.rows.Keys == before.rows.Keys
            && |after.log| == |before.log| + 1
            && |About(after.log, id)| == |About(before.log, id)| + if p.id == id then 1 else 0
  {
    var after := Reported(before, p, outcome, kind);
    var e := after.log[|before.log|];
    AboutAppend(before.log, e, id);
    assert after.log == before.log + [e];
  }

  lemma {:induction false} ReportsTell(
      s: State, ps: seq<Proposal>, n: nat, outcome: Outcome, kind: string, turns: nat -> Turn, id: ProposalId)
    requires AllHeld(s, ps) && n <= |ps| && Undisturbed(turns)
    ensures var s' := ReportAll(s, ps[..n], outcome, kind, turns);
            && s'.rows.Keys == s.rows.Keys && |s'.log| == |s.log| + n
            && |About(s'.log, id)| == |About(s.log, id)| + TimesNamed(ps[..n], id)
  {
    if n > 0 {
      ReportsTell(s, ps, n - 1, outcome, kind, turns, id);
      UndisturbedReport(s, ps, n, outcome, kind, turns);
      NamedOnceMore(ps, n, id);
      assert HoldsRow(s, ps[n - 1]);
      ReportTells(ReportAll(s, ps[..n - 1], outcome, kind, turns), ps[n - 1], outcome, kind, id);
    }
  }

  /** Every attributed notification leaves one event about each proposal for each time it names it, acted on or not. */
  lemma EveryReportIsEvidence(s: State, note: Notification, turns: nat -> Turn, id: ProposalId)
    requires Inv(s) && Undisturbed(turns)
    ensures |Notified(s, note, turns).log| == |s.log| + |AttributedProposals(s, note)|
    ensures |About(Notified(s, note, turns).log, id)| ==
            |About(s.log, id)| + TimesNamed(AttributedProposals(s, note), id)
  {
    var ps := AttributedProposals(s, note);
    AttributedHeld(s, note);
    assert ps[..|ps|] == ps;
    match OutcomeOf(note) {
      case Some(outcome) => ReportsTell(s, ps, |ps|, outcome, note.kind, turns, id);
      case None => NotesTell(s, ps, note.kind, id);
    }
  }

  /** Evidence alone touches no table. */
  lemma {:induction false} NotesTell(s: State, ps: seq<Proposal>, kind: string, id: ProposalId)
    ensures NoteAll(s, ps, kind) == s.(log := NoteAll(s, ps, kind).log)
    ensures |NoteAll(s, ps, kind).log| == |s.log| + |ps|
    ensures |About(NoteAll(s, ps, kind).log, id)| == |About(s.log, id)| + TimesNamed(ps, id)
  {
    if ps != [] {
      var before, p := NoteAll(s, ps[..|ps| - 1], kind), ps[|ps| - 1];
      NotesTell(s, ps[..|ps| - 1], kind, id);
      AboutAppend(before.log, DriverNotifiedEvent(p.id, p.body.subSolver, p.body.orderUid, kind), id);
    }
  }
}
