/** The reveal-once typewriter of the summary paragraph (TypewriterOnView in
    src/App.jsx). Nothing is shown until the EnterOnce latch is set; then an
    interval reveals one more character of the text per tick and clears itself
    once the whole text is out. Each interval firing is one Tick. */
module TypewriterOnView {
  import EnterOnce
  import opened JsString

  /** The interval's counter `i`, the React state `out` and whether the interval runs. */
  datatype RevealState = RevealState(i: nat, out: string, running: bool)

  /** Before entry: nothing shown, no interval. */
  const Idle := RevealState(0, "", false)

  /** The effect's start on entry (lines 86-89): counter reset, output cleared, interval set. */
  const Started := RevealState(0, "", true)

  /** The tick at which the interval clears itself: the first i with i >= |text|,
      counting from 1, so one tick for the empty text. */
  function StopTick(text: string): (r: nat)
    ensures r >= 1 && r >= |text|
    ensures r == 1 || r == |text|
  {
    if |text| == 0 then 1 else |text|
  }

  /** One firing of the interval (lines 91-94); a cleared interval never fires.
      A running interval advances the counter by one and keeps `out` the slice of
      the text up to the counter, never shorter than before, and it stops once
      the counter reaches the text's length. */
  function Fire(text: string, s: RevealState): (r: RevealState)
    ensures !s.running ==> r == s
    ensures s.running ==> r.i == s.i + 1 && r.out == Slice(text, r.i)
    ensures r.running ==> r.i < |text|
    ensures s.out == Slice(text, s.i) ==> |s.out| <= |r.out|
  {
    if !s.running then s
    else
      var i := s.i + 1;
      RevealState(i, Slice(text, i), i < |text|)
  }

  /** The state after k firings. */
  function Ticks(text: string, s: RevealState, k: nat): RevealState
    decreases k
  {
    if k == 0 then s else Fire(text, Ticks(text, s, k - 1))
  }

  /** The state k ticks after entry, for k up to the stopping tick, in closed form. */
  function Revealed(text: string, k: nat): (r: RevealState)
    requires k <= StopTick(text)
    ensures r.i == k
    ensures r.out == Slice(text, k)
    ensures r.running <==> k < StopTick(text)
  {
    if k < StopTick(text) then RevealState(k, text[..k], true)
    else RevealState(k, text, false)
  }

  /** A tick moves the closed form one step on until the interval stops, and then
      changes nothing. */
  lemma FireRevealed(text: string, k: nat)
    requires k <= StopTick(text)
    ensures Fire(text, Revealed(text, k)) == if k < StopTick(text) then Revealed(text, k + 1) else Revealed(text, k)
  {
  }

  /** After k ticks following entry the output is the first min(k, |text|) characters
      of the text; the interval runs exactly until tick max(1, |text|). */
  lemma {:induction false} AfterTicks(text: string, k: nat)
    ensures Ticks(text, Started, k) == Revealed(text, if k < StopTick(text) then k else StopTick(text))
    decreases k
  {
    if k > 0 {
      AfterTicks(text, k - 1);
      FireRevealed(text, if k - 1 < StopTick(text) then k - 1 else StopTick(text));
    }
  }

  /** The stated consequences: prefix output, completion and the stopping tick. */
  lemma RevealOutcome(text: string, k: nat)
    ensures Ticks(text, Started, k).out == Slice(text, k)
    ensures Ticks(text, Started, k).running <==> k < StopTick(text)
    ensures k >= StopTick(text) ==> Ticks(text, Started, k).out == text
  {
    AfterTicks(text, k);
  }

  /** The output never gets shorter from one tick to the next. */
  lemma OutGrows(text: string, k: nat)
    ensures |Ticks(text, Started, k).out| <= |Ticks(text, Started, k + 1).out|
  {
    RevealOutcome(text, k);
    RevealOutcome(text, k + 1);
  }

  /** Before entry no interval runs, so any number of ticks shows nothing. */
  lemma {:induction false} SilentBeforeEntry(text: string, k: nat)
    ensures Ticks(text, Idle, k) == Idle
    decreases k
  {
    if k > 0 {
      SilentBeforeEntry(text, k - 1);
    }
  }

  /** The component's state, with the latch of its useEnterOnce hook. */
  class Typewriter {
    const text: string
    const latch: EnterOnce.Latch
    var i: nat
    var out: string
    var running: bool

    function State(): RevealState
      reads this
    {
      RevealState(i, out, running)
    }

    ghost predicate Valid()
      reads this, latch
    {
      latch.Valid() &&
      (!latch.entered ==> State() == Idle) &&
      (latch.entered ==> i <= StopTick(text) && State() == Revealed(text, i))
    }

    constructor (text: string)
      ensures Valid() && fresh(latch) && this.text == text
      ensures latch.State() == EnterOnce.Initial && State() == Idle
    {
      this.text := text;
      latch := new EnterOnce.Latch();
      i, out, running := 0, "", false;
    }

    /** A run of the hook's effect; this component's own effect returns early
        unless `entered` changed, which only a callback does. */
    method Observe(hasTarget: bool)
      requires Valid()
      modifies latch
      ensures Valid()
      ensures latch.State() == EnterOnce.Step(old(latch.State()), EnterOnce.EffectRun(hasTarget))
    {
      latch.RunEffect(hasTarget);
    }

    /** An observer callback; when it sets the latch, the reveal effect starts. */
    method Intersect(isIntersecting: bool)
      requires Valid()
      modifies this, latch
      ensures Valid()
      ensures latch.State() == EnterOnce.Step(old(latch.State()), EnterOnce.Callback(isIntersecting))
      ensures State() == if latch.entered && !old(latch.entered) then Started else old(State())
      ensures |old(out)| <= |out|
    {
      var was := latch.entered;
      latch.Notify(isIntersecting);
      if latch.entered && !was {
        i := 0;
        out := "";
        running := true;
      }
    }

    /** One firing of the interval. */
    method Tick()
      requires Valid()
      modifies this
      ensures Valid()
      ensures State() == Fire(text, old(State()))
      ensures |old(out)| <= |out|
    {
      if running {
        i := i + 1;
        out := Slice(text, i);
        if i >= |text| {
          running := false;
        }
        FireRevealed(text, i - 1);
      }
    }
  }
}
