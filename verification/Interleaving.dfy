/**
 Other actors' writes between two steps of one actor's method, and the runs
 that such interleavings add up to.
 */
module Interleaving {
  import opened Lifecycle
  import opened Reachability
  import opened Runs
  import opened Storage
  import opened Wrappers

  // -------------------------------------------------------------------------
  // Runs end to end
  // -------------------------------------------------------------------------

  /** Some run of allowed steps leads from `s` to `s'`. */
  ghost predicate Reaches(s: State, s': State) {
    exists run :: AllowedRun(s, run) && After(s, run) == s'
  }

  lemma ReachesItself(s: State)
    ensures Reaches(s, s)
  {
    assert AllowedRun(s, []) && After(s, []) == s;
  }

  lemma {:induction false} RunsConcatenate(s: State, first: seq<Step>, second: seq<Step>)
    requires AllowedRun(s, first) && AllowedRun(After(s, first), second)
    ensures AllowedRun(s, first + second) && After(s, first + second) == After(After(s, first), second)
  {
    if second == [] {
      assert first + second == first;
    } else {
      var before, step := second[..|second| - 1], second[|second| - 1];
      RunsConcatenate(s, first, before);
      AfterAppend(s, first + before, step);
      AfterAppend(After(s, first), before, step);
      ConcatAssociates(first, before, [step]);
      assert second == before + [step];
    }
  }

  lemma ReachesTransitive(a: State, b: State, c: State)
    requires Reaches(a, b) && Reaches(b, c)
    ensures Reaches(a, c)
  {
    var first :| AllowedRun(a, first) && After(a, first) == b;
    var second :| AllowedRun(b, second) && After(b, second) == c;
    RunsConcatenate(a, first, second);
  }

  lemma ReachesByStep(s: State, before: State, step: Step)
    requires Reaches(s, before) && Allowed(before, step)
    ensures Reaches(s, Apply(before, step))
  {
    var run :| AllowedRun(s, run) && After(s, run) == before;
    AfterAppend(s, run, step);
  }

  /** Whatever is reached keeps the invariant and has grown out of the start. */
  lemma ReachedKeeps(s: State, s': State)
    requires Inv(s) && Reaches(s, s')
    ensures Inv(s') && Grows(s, s')
  {
    var run :| AllowedRun(s, run) && After(s, run) == s';
    AfterKeeps(s, run);
  }

  // -------------------------------------------------------------------------
  // Interference
  // -------------------------------------------------------------------------

  /** Who is at work, of whom there is only one. */
  datatype Actor = Debiting | Answering(auction: int) | Another

  /** What the others may do meanwhile: anything but the work of the one who is at it. */
  predicate MeanwhileMay(s: State, step: Step, actor: Actor) {
    && Allowed(s, step)
    && (match actor
        case Debiting => !step.Penalize? && !step.Debit?
        case Answering(auction) => !(step.Bid? && step.auction == auction)
        case Another => true)
  }

  function Meanwhile(s: State, others: seq<Step>, actor: Actor): State {
    if others == [] then s
    else
      var before, step := Meanwhile(s, others[..|others| - 1], actor), others[|others| - 1];
      if MeanwhileMay(before, step, actor) then Apply(before, step) else before
  }

  lemma {:induction false} MeanwhileReaches(s: State, others: seq<Step>, actor: Actor)
    ensures Reaches(s, Meanwhile(s, others, actor))
  {
    ReachesItself(s);
    if others != [] {
      var before, step := Meanwhile(s, others[..|others| - 1], actor), others[|others| - 1];
      MeanwhileReaches(s, others[..|others| - 1], actor);
      if MeanwhileMay(before, step, actor) {
        ReachesByStep(s, before, step);
      }
    }
  }

  lemma MeanwhileKeeps(s: State, others: seq<Step>, actor: Actor)
    requires Inv(s)
    ensures Inv(Meanwhile(s, others, actor)) && Grows(s, Meanwhile(s, others, actor))
  {
    MeanwhileReaches(s, others, actor);
    ReachedKeeps(s, Meanwhile(s, others, actor));
  }

  method LetOthers(store: ProposalStore, others: seq<Step>, actor: Actor)
    requires store.Valid()
    modifies store
    ensures store.Valid() && store.Contents() == Meanwhile(old(store.Contents()), others, actor)
  {
    var i := 0;
    while i < |others|
      invariant 0 <= i <= |others|
      invariant store.Valid() && store.Contents() == Meanwhile(old(store.Contents()), others[..i], actor)
    {
      assert others[..i + 1][..i] == others[..i];
      if MeanwhileMay(store.Contents(), others[i], actor) {
        store.Perform(others[i]);
      }
      i := i + 1;
    }
    assert others[..i] == others;
  }
}
