/**
 The write-behind audit writer: events queue in a channel and are inserted one
 by one, each retried until it lands.
 */
module AuditWriter {
  import opened Lifecycle
  import opened Wrappers

  /** Milliseconds. */
  const INITIAL_BACKOFF: nat := 100
  const MAX_BACKOFF: nat := 5_000

  /** The wait after the `n`-th failure in a row. */
  function Backoff(n: nat): nat {
    if n == 0 then INITIAL_BACKOFF
    else if Backoff(n - 1) * 2 < MAX_BACKOFF then Backoff(n - 1) * 2
    else MAX_BACKOFF
  }

  function Doubled(n: nat): nat {
    if n == 0 then 100 else 2 * Doubled(n - 1)
  }

  /** The waits of an event that fails `n` times. */
  function Waits(n: nat): seq<nat> {
    if n == 0 then [] else Waits(n - 1) + [Backoff(n - 1)]
  }

  /** One wait a failure; they double from the first, are capped, and so never shrink. */
  lemma {:induction false} BackoffLaw(n: nat)
    ensures |Waits(n)| == n
    ensures forall i :: 0 <= i < n ==>
              Waits(n)[i] == if Doubled(i) < 5_000 then Doubled(i) else 5_000
    ensures forall i :: 0 <= i < n ==> 100 <= Waits(n)[i] <= 5_000
    ensures forall i, j :: 0 <= i < j < n ==> Waits(n)[i] <= Waits(n)[j]
  {
    if n > 0 {
      BackoffLaw(n - 1);
      CappedDoubling(n - 1);
      if n > 1 {
        CappedDoubling(n - 2);
      }
    }
  }

  lemma {:induction false} CappedDoubling(n: nat)
    ensures INITIAL_BACKOFF <= Backoff(n) <= MAX_BACKOFF && Backoff(n) <= Backoff(n + 1)
    ensures Backoff(n) == if Doubled(n) < MAX_BACKOFF then Doubled(n) else MAX_BACKOFF
  {
    if n > 0 {
      CappedDoubling(n - 1);
    }
  }

  /** Around one receive: what is sent before it, how often its insert fails, and what is sent during each wait. */
  datatype Round = Round(before: seq<Event>, failures: nat, during: nat -> seq<Event>)

  function SentDuring(during: nat -> seq<Event>, n: nat): seq<Event> {
    if n == 0 then [] else SentDuring(during, n - 1) + during(n - 1)
  }

  /** Everything sent in a life, in order. */
  function SentIn(rounds: seq<Round>): seq<Event> {
    if rounds == [] then []
    else
      var last := rounds[|rounds| - 1];
      SentIn(rounds[..|rounds| - 1]) + last.before + SentDuring(last.during, last.failures)
  }

  class Writer {
    var channel: seq<Event>
    var hand: seq<Event>
    var persisted: seq<Event>
    ghost var emitted: seq<Event>

    /** Nothing is lost and nothing overtakes: at every moment the three parts in order are what was emitted. */
    ghost predicate Whole()
      reads this
    {
      persisted + hand + channel == emitted && |hand| <= 1
    }

    constructor ()
      ensures Whole() && emitted == [] && hand == []
    {
      channel, hand, persisted, emitted := [], [], [], [];
    }

    method Send(events: seq<Event>)
      requires Whole()
      modifies this`channel, this`emitted
      ensures Whole() && channel == old(channel) + events && emitted == old(emitted) + events
    {
      ConcatAssociates(persisted + hand, channel, events);
      channel := channel + events;
      emitted := emitted + events;
    }

    /** Receive the oldest queued event. */
    method Take()
      requires Whole() && hand == [] && channel != []
      modifies this`channel, this`hand
      ensures Whole() && hand == [old(channel)[0]] && channel == old(channel)[1..]
    {
      assert channel == [channel[0]] + channel[1..];
      hand, channel := [channel[0]], channel[1..];
    }

    /** The insert lands. */
    method Land()
      requires Whole()
      modifies this`persisted, this`hand
      ensures Whole() && hand == [] && persisted == old(persisted) + old(hand)
    {
      persisted, hand := persisted + hand, [];
    }

    /** The insert fails, over and over: wait each time, while senders go on. */
    method Retry(failures: nat, during: nat -> seq<Event>) returns (waits: seq<nat>)
      requires Whole()
      modifies this`channel, this`emitted
      ensures Whole() && channel == old(channel) + SentDuring(during, failures)
      ensures emitted == old(emitted) + SentDuring(during, failures)
      ensures waits == Waits(failures)
    {
      waits := [];
      var backoff := INITIAL_BACKOFF;
      var failed := 0;
      while failed < failures
        invariant 0 <= failed <= failures && backoff == Backoff(failed)
        invariant Whole() && channel == old(channel) + SentDuring(during, failed)
        invariant waits == Waits(failed)
      {
        ConcatAssociates(old(channel), SentDuring(during, failed), during(failed));
        waits := waits + [backoff];
        Send(during(failed));
        backoff := if backoff * 2 < MAX_BACKOFF then backoff * 2 else MAX_BACKOFF;
        failed := failed + 1;
      }
      ConcatAssociates(persisted + hand, old(channel), SentDuring(during, failures));
    }

    /** One event from the channel, tried until it lands. */
    method InsertNext(failures: nat, during: nat -> seq<Event>) returns (waits: seq<nat>)
      requires Whole() && hand == [] && channel != []
      modifies this
      ensures Whole() && hand == []
      ensures persisted == old(persisted) + [old(channel)[0]]
      ensures channel == old(channel)[1..] + SentDuring(during, failures)
      ensures emitted == old(emitted) + SentDuring(during, failures)
      ensures waits == Waits(failures)
    {
      Take();
      waits := Retry(failures, during);
      Land();
    }

    /** One round; what would be sent while an insert is retried is sent anyway when there is none. */
    method Turn(round: Round)
      requires Whole() && hand == []
      modifies this
      ensures Whole() && hand == []
      ensures emitted == old(emitted) + round.before + SentDuring(round.during, round.failures)
    {
      Send(round.before);
      if channel != [] {
        var _ := InsertNext(round.failures, round.during);
      } else {
        Send(SentDuring(round.during, round.failures));
      }
    }

    /**
     The writer's whole life: rounds while senders remain, then the drain. It
     exits with everything that was sent persisted, in order.
     */
    method Run(rounds: seq<Round>, failures: nat -> nat)
      requires Whole() && hand == []
      modifies this
      ensures Whole() && channel == [] && hand == [] && persisted == emitted
      ensures emitted == old(emitted) + SentIn(rounds)
    {
      var i := 0;
      while i < |rounds|
        invariant 0 <= i <= |rounds| && Whole() && hand == []
        invariant emitted == old(emitted) + SentIn(rounds[..i])
      {
        assert rounds[..i + 1][..i] == rounds[..i];
        Turn(rounds[i]);
        i := i + 1;
      }
      assert rounds[..i] == rounds;
      Drain(failures);
    }

    /** Every sender dropped: what is queued is inserted, and nothing more comes. */
    method Drain(failures: nat -> nat)
      requires Whole() && hand == []
      modifies this
      ensures Whole() && channel == [] && hand == [] && persisted == emitted == old(emitted)
    {
      while channel != []
        invariant Whole() && hand == [] && emitted == old(emitted)
        decreases |channel|
      {
        SilentWaits(failures(|channel|));
        var _ := InsertNext(failures(|channel|), Silence);
      }
    }
  }

  /** Nothing is sent once every sender is dropped. */
  function Silence(failed: nat): seq<Event> {
    []
  }

  lemma {:induction false} SilentWaits(n: nat)
    ensures SentDuring(Silence, n) == []
  {
    if n > 0 {
      SilentWaits(n - 1);
    }
  }
}
