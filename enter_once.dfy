/** The visibility latch useEnterOnce in src/App.jsx. An intersection observer is
    armed on the element until the element is first seen intersecting; then the
    latch `entered` is set, the observer disconnected, and none is armed again.
    The observer itself is abstracted to two events: a run of the hook's effect
    (with or without a mounted element) and a callback from the armed observer. */
module EnterOnce {

  /** `entered` is the React state; `observing` says whether an observer is armed. */
  datatype LatchState = LatchState(entered: bool, observing: bool)

  datatype Event =
    | EffectRun(hasTarget: bool)     // the effect runs; hasTarget is `ref.current != null`
    | Callback(isIntersecting: bool) // the armed observer reports its entry

  const Initial := LatchState(false, false)

  /** An entered latch never has an observer armed. */
  predicate Consistent(s: LatchState) {
    s.entered ==> !s.observing
  }

  /** One event. A rerun of the effect first disconnects the previous observer and
      arms a new one only if there is an element and the latch is not yet set; a
      callback can only come from an armed observer. */
  function Step(s: LatchState, e: Event): (r: LatchState)
    ensures Consistent(s) ==> Consistent(r)
    ensures s.entered ==> r.entered
    ensures e.Callback? && !e.isIntersecting ==> r == s
    ensures !s.entered ==> (r.entered <==> s.observing && e == Callback(true))
  {
    match e
    case EffectRun(hasTarget) => s.(observing := hasTarget && !s.entered)
    case Callback(isIntersecting) =>
      if s.observing && isIntersecting then LatchState(true, false) else s
  }

  /** The state after a sequence of events. */
  function Run(s: LatchState, events: seq<Event>): LatchState
    decreases |events|
  {
    if events == [] then s else Run(Step(s, events[0]), events[1..])
  }

  /** How many times `entered` goes from false to true along the events. */
  function Rises(s: LatchState, events: seq<Event>): nat
    decreases |events|
  {
    if events == [] then 0
    else
      var t := Step(s, events[0]);
      (if !s.entered && t.entered then 1 else 0) + Rises(t, events[1..])
  }

  /** The latch is monotonic: once entered, it stays entered. */
  lemma {:induction false} RunMonotone(s: LatchState, events: seq<Event>)
    requires s.entered
    ensures Run(s, events).entered
    decreases |events|
  {
    if events != [] {
      RunMonotone(Step(s, events[0]), events[1..]);
    }
  }

  /** Consistency holds along every sequence of events. */
  lemma {:induction false} RunConsistent(s: LatchState, events: seq<Event>)
    requires Consistent(s)
    ensures Consistent(Run(s, events))
    decreases |events|
  {
    if events != [] {
      RunConsistent(Step(s, events[0]), events[1..]);
    }
  }

  /** Once entered, nothing changes any more: no observer is armed again. */
  lemma {:induction false} EnteredIsFinal(s: LatchState, events: seq<Event>)
    requires s.entered && Consistent(s)
    ensures Run(s, events) == s
    decreases |events|
  {
    if events != [] {
      EnteredIsFinal(Step(s, events[0]), events[1..]);
    }
  }

  /** However often the observer fires, the latch is set at most once. */
  lemma {:induction false} AtMostOneRise(s: LatchState, events: seq<Event>)
    requires Consistent(s)
    ensures Rises(s, events) <= if s.entered then 0 else 1
    decreases |events|
  {
    if events != [] {
      var t := Step(s, events[0]);
      AtMostOneRise(t, events[1..]);
      if t.entered && !s.entered {
        EnteredIsFinal(t, events[1..]);
      }
    }
  }

  /** A sequence of events with no intersecting callback leaves the latch unset. */
  lemma {:induction false} NoIntersectionNoEntry(s: LatchState, events: seq<Event>)
    requires !s.entered
    requires forall k :: 0 <= k < |events| ==> events[k] != Callback(true)
    ensures !Run(s, events).entered
    decreases |events|
  {
    if events != [] {
      NoIntersectionNoEntry(Step(s, events[0]), events[1..]);
    }
  }

  /** The hook's state, updated in place. */
  class Latch {
    var entered: bool
    var observing: bool

    function State(): LatchState
      reads this
    {
      LatchState(entered, observing)
    }

    ghost predicate Valid()
      reads this
    {
      Consistent(State())
    }

    constructor ()
      ensures Valid() && State() == Initial
    {
      entered, observing := false, false;
    }

    /** The effect of lines 65-76, after the cleanup of its previous run. */
    method RunEffect(hasTarget: bool)
      requires Valid()
      modifies this
      ensures Valid() && State() == Step(old(State()), EffectRun(hasTarget))
    {
      observing := false;
      if !hasTarget || entered {
        return;
      }
      observing := true;
    }

    /** The observer's callback (lines 66-71); ignored when no observer is armed. */
    method Notify(isIntersecting: bool)
      requires Valid()
      modifies this
      ensures Valid() && State() == Step(old(State()), Callback(isIntersecting))
    {
      if observing && isIntersecting {
        entered := true;
        observing := false;
      }
    }
  }
}
