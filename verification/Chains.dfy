/**
 One proposal's audit events as a chain of statuses, and when two orders of
 the same events tell the same story.
 */
module Chains {
  import opened Lifecycle
  import opened Wrappers

  // -------------------------------------------------------------------------
  // One proposal's events
  // -------------------------------------------------------------------------

  /** The events about one proposal. */
  function About(events: seq<Event>, id: ProposalId): seq<Event> {
    if events == [] then []
    else About(events[..|events| - 1], id) + OnlyIf(events[|events| - 1], id)
  }

  function OnlyIf(e: Event, id: ProposalId): seq<Event> {
    if e.id == id then [e] else []
  }

  lemma AboutAppend(events: seq<Event>, e: Event, id: ProposalId)
    ensures About(events + [e], id) == About(events, id) + OnlyIf(e, id)
  {
    assert (events + [e])[..|events|] == events;
  }

  lemma {:induction false} AboutConcat(a: seq<Event>, b: seq<Event>, id: ProposalId)
    ensures About(a + b, id) == About(a, id) + About(b, id)
  {
    if b == [] {
      assert a + b == a;
    } else {
      var rest, last := b[..|b| - 1], b[|b| - 1];
      AboutConcat(a, rest, id);
      AboutAppend(a + rest, last, id);
      ConcatAssociates(a, rest, [last]);
      ConcatAssociates(About(a, id), About(rest, id), OnlyIf(last, id));
      assert b == rest + [last];
    }
  }

  lemma SplitAt<T>(s: seq<T>, i: nat)
    requires i < |s|
    ensures s == s[..i] + [s[i]] + s[i + 1..]
  {
  }

  /** What a proposal's events are made of, around any one event. */
  lemma AboutSplit(events: seq<Event>, i: nat, id: ProposalId)
    requires i < |events|
    ensures About(events, id) == About(events[..i], id) + OnlyIf(events[i], id) + About(events[i + 1..], id)
  {
    var early, e, late := events[..i], events[i], events[i + 1..];
    SplitAt(events, i);
    AboutAppend(early, e, id);
    AboutConcat(early + [e], late, id);
  }

  /** How often an event occurs. */
  function Times(events: seq<Event>, e: Event): nat {
    if events == [] then 0
    else Times(events[..|events| - 1], e) + if events[|events| - 1] == e then 1 else 0
  }

  lemma TimesAppend(events: seq<Event>, last: Event, e: Event)
    ensures Times(events + [last], e) == Times(events, e) + if last == e then 1 else 0
  {
    assert (events + [last])[..|events|] == events;
  }

  lemma CountAppend(events: seq<Event>, last: Event, e: Event)
    ensures multiset(events + [last])[e] == multiset(events)[e] + if last == e then 1 else 0
  {
  }

  lemma {:induction false} TimesCounts(events: seq<Event>, e: Event)
    ensures Times(events, e) == multiset(events)[e]
  {
    if events != [] {
      var rest, last := events[..|events| - 1], events[|events| - 1];
      TimesCounts(rest, e);
      CountAppend(rest, last, e);
      assert events == rest + [last];
    }
  }

  lemma AboutTimesAppend(events: seq<Event>, last: Event, id: ProposalId, e: Event)
    ensures Times(About(events + [last], id), e) ==
            Times(About(events, id), e) + if last.id == id && last == e then 1 else 0
  {
    AboutAppend(events, last, id);
    if last.id == id {
      TimesAppend(About(events, id), last, e);
    } else {
      assert About(events, id) + OnlyIf(last, id) == About(events, id);
    }
  }

  lemma {:induction false} AboutTimes(events: seq<Event>, id: ProposalId, e: Event)
    ensures Times(About(events, id), e) == if e.id == id then Times(events, e) else 0
  {
    if events != [] {
      var rest, last := events[..|events| - 1], events[|events| - 1];
      AboutTimes(rest, id, e);
      assert events == rest + [last];
      AboutTimesAppend(rest, last, id, e);
      TimesAppend(rest, last, e);
    }
  }

  lemma AboutCount(events: seq<Event>, id: ProposalId, e: Event)
    ensures multiset(About(events, id))[e] == if e.id == id then multiset(events)[e] else 0
  {
    AboutTimes(events, id, e);
    TimesCounts(events, e);
    TimesCounts(About(events, id), e);
  }

  lemma {:induction false} AboutFrom(events: seq<Event>, id: ProposalId, e: Event)
    requires e in About(events, id)
    ensures e.id == id && e in events
  {
    var rest, last := events[..|events| - 1], events[|events| - 1];
    if e in About(rest, id) {
      AboutFrom(rest, id, e);
    } else {
      assert e in OnlyIf(last, id);
    }
  }

  // -------------------------------------------------------------------------
  // Chains
  // -------------------------------------------------------------------------

  /** What events of one proposal, in this order, add up to. */
  function Chain(events: seq<Event>): Story {
    if events == [] then Unborn
    else Advance(Chain(events[..|events| - 1]), events[|events| - 1])
  }

  /** A replay reads nothing but the proposal's own events. */
  lemma {:induction false} ReplayIsChain(log: seq<Event>, id: ProposalId)
    ensures Replay(log, id) == Chain(About(log, id))
  {
    if log != [] {
      var rest, last := log[..|log| - 1], log[|log| - 1];
      ReplayIsChain(rest, id);
      if last.id == id {
        ChainAppend(About(rest, id), last);
      } else {
        assert About(rest, id) + [] == About(rest, id);
      }
    }
  }

  lemma ChainAppend(events: seq<Event>, e: Event)
    ensures Chain(events + [e]) == Advance(Chain(events), e)
  {
    assert (events + [e])[..|events|] == events;
  }

  lemma ChainPrefix(events: seq<Event>, k: nat)
    requires k < |events|
    ensures Chain(events[..k + 1]) == Advance(Chain(events[..k]), events[k])
  {
    assert events[..k + 1][..k] == events[..k];
  }

  /** A told chain was told all along. */
  lemma {:induction false} ToldThroughout(events: seq<Event>, k: nat)
    requires Chain(events).Told? && 0 < k <= |events|
    ensures Chain(events[..k]).Told? && Chain(events[..k]).body == Chain(events).body
  {
    var n := |events| - 1;
    if k <= n {
      assert events[..n] != [] && Chain(events[..n]) != Unborn;
      ToldThroughout(events[..n], k);
      assert events[..n][..k] == events[..k];
    } else {
      assert events[..k] == events;
    }
  }

  /** It starts with the receipt, and has no other. */
  lemma ToldFromReceipt(events: seq<Event>, i: nat)
    requires Chain(events).Told? && i < |events|
    ensures events[i].ReceivedEvent? <==> i == 0
    ensures events[0].ReceivedEvent? && events[0].proposal.body == Chain(events).body
  {
    assert events[..0] == [];
    ChainPrefix(events, 0);
    ToldThroughout(events, 1);
    ChainPrefix(events, i);
    ToldThroughout(events, i + 1);
    if i > 0 {
      ToldThroughout(events, i);
    }
  }

  // -------------------------------------------------------------------------
  // Evidence
  // -------------------------------------------------------------------------

  /** Events that change what is told; the rest are evidence only. */
  predicate Tells(e: Event) {
    !e.DriverNotifiedEvent? && !e.NonSettlementDebitedEvent?
  }

  function Telling(events: seq<Event>): seq<Event> {
    if events == [] then []
    else
      var last := events[|events| - 1];
      Telling(events[..|events| - 1]) + if Tells(last) then [last] else []
  }

  lemma TellingAppend(events: seq<Event>, e: Event)
    ensures Telling(events + [e]) == if Tells(e) then Telling(events) + [e] else Telling(events)
    ensures Chain(Telling(events + [e])) ==
            if Tells(e) then Advance(Chain(Telling(events)), e) else Chain(Telling(events))
  {
    assert (events + [e])[..|events|] == events;
    assert Telling(events) + [] == Telling(events);
    ChainAppend(Telling(events), e);
  }

  lemma {:induction false} TellingTimes(events: seq<Event>, e: Event)
    ensures Times(Telling(events), e) == if Tells(e) then Times(events, e) else 0
  {
    if events != [] {
      var rest, last := events[..|events| - 1], events[|events| - 1];
      TellingTimes(rest, e);
      assert events == rest + [last];
      TellingAppend(rest, last);
      TimesAppend(Telling(rest), last, e);
      TimesAppend(rest, last, e);
    }
  }

  lemma TellingCount(events: seq<Event>, e: Event)
    ensures multiset(Telling(events))[e] == if Tells(e) then multiset(events)[e] else 0
  {
    TellingTimes(events, e);
    TimesCounts(events, e);
    TimesCounts(Telling(events), e);
  }

  /** Evidence cites the proposal it is about. */
  predicate Evident(e: Event, body: Body) {
    !Tells(e) ==> e.subSolver == body.subSolver && e.orderUid == body.orderUid
  }

  lemma ToldIsEvident(events: seq<Event>, i: nat)
    requires Chain(events).Told? && i < |events|
    ensures Evident(events[i], Chain(events).body)
  {
    ChainPrefix(events, i);
    ToldThroughout(events, i + 1);
    if i > 0 {
      ToldThroughout(events, i);
    } else {
      assert events[..0] == [];
    }
  }

  /** Once there is a receipt, evidence moves nothing and nothing changes the body. */
  lemma AdvanceKeepsBody(story: Story, e: Event, body: Body)
    requires story == Broken || (story.Told? && story.body == body)
    requires Evident(e, body)
    ensures !Tells(e) ==> Advance(story, e) == story
    ensures Advance(story, e) == Broken || (Advance(story, e).Told? && Advance(story, e).body == body)
  {
  }

  /** After the receipt, evidence can come anywhere without changing the story. */
  lemma {:induction false} TellingDecides(events: seq<Event>, body: Body)
    requires events != [] && events[0].ReceivedEvent? && events[0].proposal.body == body
    requires forall i :: 0 <= i < |events| ==> Evident(events[i], body)
    ensures Chain(events) == Chain(Telling(events))
    ensures Chain(events) == Broken || (Chain(events).Told? && Chain(events).body == body)
  {
    var rest, last := events[..|events| - 1], events[|events| - 1];
    if rest == [] {
      ChainAppend([], last);
      assert Telling(events) == [] + [last];
    } else {
      TellingDecides(rest, body);
      AdvanceKeepsBody(Chain(rest), last, body);
      TellingAppend(rest, last);
      assert events == rest + [last];
    }
  }

  // -------------------------------------------------------------------------
  // The events that steps commit
  // -------------------------------------------------------------------------

  /** An edge that some step can commit. */
  predicate Plain(e: Event) {
    match e
    case ReceivedEvent(_, p) => p.status.Submitted?
    case StatusChangedEvent(_, _, _, from, to, rejection, tx) =>
      && (from.Submitted? || from.Active? || from.Executing?)
      && from != to && !to.Submitted? && !to.Penalized?
      && (to.Active? || to.Executing? ==> rejection.None? && tx.None?)
      && (to.Executing? ==> from.Active?)
    case _ => true
  }

  ghost predicate Connected(a: seq<Event>, id: ProposalId) {
    Chain(a).Told? && forall i :: 0 <= i < |a| ==> a[i].id == id && Plain(a[i]) && Tells(a[i])
  }

  lemma PrefixConnected(a: seq<Event>, id: ProposalId, k: nat)
    requires Connected(a, id) && 0 < k <= |a|
    ensures Connected(a[..k], id)
  {
    ToldThroughout(a, k);
  }

  /** Nothing but the debit follows a terminal status, and it follows only a failed settlement. */
  lemma {:induction false} AfterTerminal(a: seq<Event>, id: ProposalId, k: nat)
    requires Connected(a, id) && 0 < k <= |a|
    requires Chain(a[..k]).Told? && Chain(a[..k]).status.IsTerminal()
    ensures k == |a| || (k == |a| - 1 && a[k].PenalizedEvent? && Chain(a[..k]).status.SettleFailed?)
  {
    if k < |a| {
      var n := |a| - 1;
      PrefixConnected(a, id, n);
      assert a[..n][..k] == a[..k];
      ChainPrefix(a, k);
      if k == n - 1 {
        assert a[..n] == a[..k + 1];
      }
      AfterTerminal(a[..n], id, k);
      assert Plain(a[n]) && Tells(a[n]);
    }
  }

  /** The event leads into a terminal status. */
  predicate Finishes(e: Event) {
    e.CancelledEvent? || e.PenalizedEvent? || (e.StatusChangedEvent? && e.to.IsTerminal())
  }

  lemma FinishesLate(a: seq<Event>, id: ProposalId, i: nat)
    requires Connected(a, id) && i < |a| && Finishes(a[i])
    ensures i == |a| - 1 || (i == |a| - 2 && a[i + 1].PenalizedEvent? && !a[i].PenalizedEvent?)
  {
    ChainPrefix(a, i);
    ToldThroughout(a, i + 1);
    AfterTerminal(a, id, i + 1);
  }

  /** A chain is at the first status exactly when it has only the receipt. */
  lemma SubmittedIsFirst(a: seq<Event>, id: ProposalId)
    requires Connected(a, id)
    ensures Chain(a).status.Submitted? <==> |a| == 1
  {
    var n := |a| - 1;
    assert Plain(a[n]) && Tells(a[n]);
    ToldFromReceipt(a, n);
    if n == 0 {
      assert a[..0] == [];
    }
  }

  /** What the last event of a connected chain is, by the status it ends at. */
  lemma LastEvent(a: seq<Event>, id: ProposalId)
    requires Connected(a, id) && |a| > 1
    ensures var last, before, s := a[|a| - 1], Chain(a[..|a| - 1]), Chain(a);
            && before.Told? && before.body == s.body
            && (s.status.IsTerminal() ==> Finishes(last) && (last.PenalizedEvent? <==> s.status.Penalized?))
            && (s.status.Executing? || s.status.Active? ==>
                  last == StatusChangedEvent(id, s.body.subSolver, s.body.orderUid,
                                             before.status, s.status, None, None))
            && (s.status.Executing? ==> before.status.Active?)
            && (s.status.Active? ==> before.status.Submitted? || before.status.Executing?)
  {
    var n := |a| - 1;
    ToldThroughout(a, n);
    assert Plain(a[n]) && Tells(a[n]) && a[n].id == id;
  }

  lemma SameLast(a: seq<Event>, b: seq<Event>, id: ProposalId)
    requires Connected(a, id) && Connected(b, id) && |a| == |b| > 1 && multiset(a) == multiset(b)
    requires Chain(a).body == Chain(b).body && Chain(a).status == Chain(b).status
    ensures a[|a| - 1] == b[|b| - 1]
  {
    var n := |a| - 1;
    LastEvent(a, id);
    LastEvent(b, id);
    if Chain(a).status.IsTerminal() {
      assert b[n] in multiset(a);
      var i :| 0 <= i < |a| && a[i] == b[n];
      FinishesLate(a, id, i);
    } else {
      SubmittedIsFirst(a, id);
      PrefixConnected(a, id, n);
      PrefixConnected(b, id, n);
      SubmittedIsFirst(a[..n], id);
      SubmittedIsFirst(b[..n], id);
    }
  }

  lemma SameBefore(a: seq<Event>, b: seq<Event>, id: ProposalId)
    requires Connected(a, id) && Connected(b, id) && |a| == |b| > 1 && a[|a| - 1] == b[|b| - 1]
    ensures Connected(a[..|a| - 1], id) && Connected(b[..|b| - 1], id)
    ensures Chain(a[..|a| - 1]).status == Chain(b[..|b| - 1]).status
  {
    var n := |a| - 1;
    PrefixConnected(a, id, n);
    PrefixConnected(b, id, n);
    SubmittedIsFirst(a[..n], id);
    SubmittedIsFirst(b[..n], id);
    ToldFromReceipt(a, n);
    assert Plain(a[n]) && Tells(a[n]);
  }

  lemma ButLast<T>(a: seq<T>)
    requires a != []
    ensures multiset(a[..|a| - 1]) == multiset(a) - multiset{a[|a| - 1]}
  {
    assert a == a[..|a| - 1] + [a[|a| - 1]];
  }

  lemma SameEnds<T>(a: seq<T>, b: seq<T>)
    requires |a| == |b| > 0 && a[..|a| - 1] == b[..|b| - 1] && a[|a| - 1] == b[|b| - 1]
    ensures a == b
  {
    assert a == a[..|a| - 1] + [a[|a| - 1]] && b == b[..|b| - 1] + [b[|b| - 1]];
  }

  lemma SameSize<T>(a: seq<T>, b: seq<T>)
    requires multiset(a) == multiset(b)
    ensures |a| == |b| && (|a| == 1 ==> a == b)
  {
    assert |a| == |multiset(a)| == |multiset(b)| == |b|;
    if |a| == 1 {
      assert a[0] in multiset(b);
    }
  }

  lemma SameMembers<T>(a: seq<T>, b: seq<T>)
    requires multiset(a) == multiset(b)
    ensures forall e :: e in a ==> e in b
  {
    forall e | e in a
      ensures e in b
    {
      assert e in multiset(b);
    }
  }

  /** The same events have one connected order: two chains that end alike are equal. */
  lemma {:induction false} OneOrder(a: seq<Event>, b: seq<Event>, id: ProposalId)
    requires Connected(a, id) && Connected(b, id) && multiset(a) == multiset(b)
    requires Chain(a).body == Chain(b).body && Chain(a).status == Chain(b).status
    ensures a == b
  {
    SameSize(a, b);
    if |a| > 1 {
      SameLast(a, b, id);
      SameBefore(a, b, id);
      ToldThroughout(a, |a| - 1);
      ToldThroughout(b, |b| - 1);
      ButLast(a);
      ButLast(b);
      OneOrder(a[..|a| - 1], b[..|b| - 1], id);
      SameEnds(a, b);
    }
  }

  // -------------------------------------------------------------------------
  // When a reordering tells the same story
  // -------------------------------------------------------------------------

  /** The telling part of a told chain of plain events is connected. */
  lemma TellingConnected(events: seq<Event>, id: ProposalId)
    requires Chain(events).Told?
    requires forall e :: e in events ==> e.id == id && Plain(e)
    ensures Chain(Telling(events)) == Chain(events) && Connected(Telling(events), id)
  {
    forall i | 0 <= i < |events|
      ensures Evident(events[i], Chain(events).body)
    {
      ToldIsEvident(events, i);
    }
    ToldFromReceipt(events, 0);
    TellingDecides(events, Chain(events).body);
    var telling := Telling(events);
    forall i | 0 <= i < |telling|
      ensures telling[i].id == id && Plain(telling[i]) && Tells(telling[i])
    {
      TellingCount(events, telling[i]);
      assert telling[i] in multiset(telling);
      assert telling[i] in multiset(events);
    }
  }

  /**
   A reordering of a told chain tells the same story exactly when the receipt
   still comes first and the events that tell something keep their order;
   evidence may move anywhere after the receipt.
   */
  lemma SameStoryIff(made: seq<Event>, sent: seq<Event>, id: ProposalId)
    requires Chain(made).Told? && multiset(sent) == multiset(made)
    requires forall e :: e in made ==> e.id == id && Plain(e)
    ensures Chain(sent) == Chain(made) <==>
            sent != [] && sent[0].ReceivedEvent? && Telling(sent) == Telling(made)
  {
    SameMembers(sent, made);
    SameSize(sent, made);
    TellingConnected(made, id);
    if Chain(sent) == Chain(made) {
      ToldFromReceipt(sent, 0);
      TellingConnected(sent, id);
      SameTelling(made, sent);
      OneOrder(Telling(sent), Telling(made), id);
    }
    if sent != [] && sent[0].ReceivedEvent? {
      ReceiptCarried(made, sent);
      TellingDecides(sent, Chain(made).body);
    }
  }

  lemma SameTelling(made: seq<Event>, sent: seq<Event>)
    requires multiset(sent) == multiset(made)
    ensures multiset(Telling(sent)) == multiset(Telling(made))
  {
    forall e: Event
      ensures multiset(Telling(sent))[e] == multiset(Telling(made))[e]
    {
      TellingCount(sent, e);
      TellingCount(made, e);
    }
  }

  lemma ReceiptCarried(made: seq<Event>, sent: seq<Event>)
    requires Chain(made).Told? && multiset(sent) == multiset(made)
    requires sent != [] && sent[0].ReceivedEvent?
    ensures sent[0].proposal.body == Chain(made).body
    ensures forall i :: 0 <= i < |sent| ==> Evident(sent[i], Chain(made).body)
  {
    forall i | 0 <= i < |sent|
      ensures Evident(sent[i], Chain(made).body)
      ensures sent[i].ReceivedEvent? ==> sent[i].proposal.body == Chain(made).body
    {
      assert sent[i] in multiset(made);
      var j :| 0 <= j < |made| && made[j] == sent[i];
      ToldIsEvident(made, j);
      ToldFromReceipt(made, j);
    }
  }
}
