/** The looping typewriter of the hero subtitle (TypewriterLoop in src/App.jsx).
    It types the current text one character at a time, holds it, deletes it one
    character at a time, and moves on to the next text, wrapping around.
    Timers are abstracted away: each call of Next is one timer firing (or one
    synchronous effect run), and the wait before it is returned as a label. */
module TypewriterLoop {
  import JsString

  /** Which of the component's durations the step waits for before it happens. */
  datatype Wait =
    | TypingSpeed    // one character typed after `typingSpeed`
    | DeletingSpeed  // one character deleted after `deletingSpeed`
    | Delay          // the full text held for `delay`, then deletion starts
    | Immediate      // the effect advances to the next text without a timer
    | Stalled        // `index` is out of range: the effect schedules nothing

  /** The three pieces of React state the effect depends on. */
  datatype LoopState = LoopState(index: nat, subIndex: nat, deleting: bool)

  datatype Step = Step(next: LoopState, wait: Wait)

  /** The state on mount. */
  const Start := LoopState(0, 0, false)

  /** The state is usable: it names an existing text and a prefix length within it. */
  predicate InBounds(texts: seq<string>, s: LoopState) {
    s.index < |texts| && s.subIndex <= |texts[s.index]|
  }

  /** One step of the effect on lines 25-44. */
  function Next(texts: seq<string>, s: LoopState): (r: Step)
    ensures InBounds(texts, s) ==> InBounds(texts, r.next)
    ensures s.index >= |texts| ==> r == Step(s, Stalled)
  {
    if s.index >= |texts| then Step(s, Stalled)
    else if !s.deleting && s.subIndex == |texts[s.index]| then Step(s.(deleting := true), Delay)
    else if s.deleting && s.subIndex == 0 then Step(LoopState((s.index + 1) % |texts|, 0, false), Immediate)
    else if s.deleting then Step(s.(subIndex := s.subIndex - 1), DeletingSpeed)
    else Step(s.(subIndex := s.subIndex + 1), TypingSpeed)
  }

  /** The displayed string, `texts[index].substring(0, subIndex)` (which clamps). */
  function Displayed(texts: seq<string>, s: LoopState): (r: string)
    requires s.index < |texts|
    ensures r <= texts[s.index]
    ensures |r| == if s.subIndex <= |texts[s.index]| then s.subIndex else |texts[s.index]|
  {
    JsString.Slice(texts[s.index], s.subIndex)
  }

  /** The state after k steps. */
  function Run(texts: seq<string>, s: LoopState, k: nat): LoopState
    decreases k
  {
    if k == 0 then s else Run(texts, Next(texts, s).next, k - 1)
  }

  /** The displayed strings of the first k states starting at s. */
  function Frames(texts: seq<string>, s: LoopState, k: nat): (r: seq<string>)
    requires InBounds(texts, s)
    ensures |r| == k
    ensures k > 0 ==> r[0] == Displayed(texts, s)
    decreases k
  {
    if k == 0 then [] else [Displayed(texts, s)] + Frames(texts, Next(texts, s).next, k - 1)
  }

  /** The four step rules of lines 28-41, for a state in bounds, with the wait
      each one is scheduled after. */
  lemma NextRules(texts: seq<string>, s: LoopState)
    requires InBounds(texts, s)
    ensures var r := Next(texts, s);
      var n := |texts[s.index]|;
      (!s.deleting && s.subIndex < n ==> r == Step(s.(subIndex := s.subIndex + 1), TypingSpeed)) &&
      (!s.deleting && s.subIndex == n ==> r == Step(s.(deleting := true), Delay)) &&
      (s.deleting && s.subIndex > 0 ==> r == Step(s.(subIndex := s.subIndex - 1), DeletingSpeed)) &&
      (s.deleting && s.subIndex == 0 ==> r == Step(LoopState((s.index + 1) % |texts|, 0, false), Immediate))
  {
  }

  /** Running a+b steps is running a steps and then b. */
  lemma {:induction false} RunAdd(texts: seq<string>, s: LoopState, a: nat, b: nat)
    ensures Run(texts, s, a + b) == Run(texts, Run(texts, s, a), b)
    decreases a
  {
    if a > 0 {
      RunAdd(texts, Next(texts, s).next, a - 1, b);
    }
  }

  /** Every state reached from a state in bounds is in bounds. */
  lemma {:induction false} RunInBounds(texts: seq<string>, s: LoopState, k: nat)
    requires InBounds(texts, s)
    ensures InBounds(texts, Run(texts, s, k))
    decreases k
  {
    if k > 0 {
      RunInBounds(texts, Next(texts, s).next, k - 1);
    }
  }

  /** From mount on, the displayed value is always the prefix of the current text
      whose length is subIndex. */
  lemma DisplayedIsPrefix(texts: seq<string>, k: nat)
    requires |texts| > 0
    ensures var s := Run(texts, Start, k);
      InBounds(texts, s) && Displayed(texts, s) == texts[s.index][..s.subIndex]
  {
    RunInBounds(texts, Start, k);
  }

  /** While typing, k steps add exactly k characters. */
  lemma {:induction false} TypeToEnd(texts: seq<string>, s: LoopState, k: nat)
    requires s.index < |texts| && !s.deleting && s.subIndex + k == |texts[s.index]|
    ensures Run(texts, s, k) == s.(subIndex := |texts[s.index]|)
    decreases k
  {
    if k > 0 {
      assert Next(texts, s).next == s.(subIndex := s.subIndex + 1);
      TypeToEnd(texts, s.(subIndex := s.subIndex + 1), k - 1);
    }
  }

  /** While deleting, subIndex steps delete everything. */
  lemma {:induction false} DeleteToStart(texts: seq<string>, s: LoopState, k: nat)
    requires s.index < |texts| && s.deleting && s.subIndex == k
    ensures Run(texts, s, k) == s.(subIndex := 0)
    decreases k
  {
    if k > 0 {
      assert Next(texts, s).next == s.(subIndex := s.subIndex - 1);
      DeleteToStart(texts, s.(subIndex := s.subIndex - 1), k - 1);
    }
  }

  /** The number of steps one text takes: type, hold, delete, advance. */
  function CycleLength(t: string): nat {
    2 * |t| + 2
  }

  /** From the start of text i, one full cycle reaches the start of the next text. */
  lemma FullCycle(texts: seq<string>, i: nat)
    requires i < |texts|
    ensures Run(texts, LoopState(i, 0, false), CycleLength(texts[i])) == LoopState((i + 1) % |texts|, 0, false)
  {
    var n := |texts[i]|;
    var s0 := LoopState(i, 0, false);
    TypeToEnd(texts, s0, n);
    var s1 := LoopState(i, n, false);
    var s2 := LoopState(i, n, true);
    assert Run(texts, s1, 1) == s2;
    DeleteToStart(texts, s2, n);
    var s3 := LoopState(i, 0, true);
    assert Run(texts, s3, 1) == LoopState((i + 1) % |texts|, 0, false);
    RunAdd(texts, s0, n, 1);
    RunAdd(texts, s0, n + 1, n);
    RunAdd(texts, s0, n + 1 + n, 1);
  }

  /** The number of steps the first i texts take together. */
  function RoundLength(texts: seq<string>, i: nat): nat
    requires i <= |texts|
  {
    if i == 0 then 0 else RoundLength(texts, i - 1) + CycleLength(texts[i - 1])
  }

  /** After the first i texts have cycled, the machine is at the start of text i
      (modulo the number of texts); with i == |texts| it is back where it started,
      so the animation repeats forever. */
  lemma {:induction false} Rounds(texts: seq<string>, i: nat)
    requires 0 < |texts| && i <= |texts|
    ensures Run(texts, Start, RoundLength(texts, i)) == LoopState(i % |texts|, 0, false)
  {
    if i > 0 {
      var before, cycle := RoundLength(texts, i - 1), CycleLength(texts[i - 1]);
      Rounds(texts, i - 1);
      assert (i - 1) % |texts| == i - 1;
      FullCycle(texts, i - 1);
      RunAdd(texts, Start, before, cycle);
    }
  }

  /** One unfolding of Frames, with the displayed value and the next state given. */
  lemma FramesStep(texts: seq<string>, s: LoopState, k: nat, d: string, n: LoopState)
    requires InBounds(texts, s) && Displayed(texts, s) == d && Next(texts, s).next == n
    ensures Frames(texts, s, k + 1) == [d] + Frames(texts, n, k)
  {
  }

  /** The frames for texts ["A", "BB"]: a held text and the empty text after deletion
      each show for two steps (the hold and the advance). */
  lemma ScenarioAB()
    ensures Frames(["A", "BB"], Start, 12) == ["", "A", "A", "", "", "B", "BB", "BB", "B", "", "", "A"]
  {
    var t := ["A", "BB"];
    assert Frames(t, LoopState(0, 1, false), 1) == ["A"] by { assert t[0][..1] == "A"; }
    FramesStep(t, LoopState(0, 0, false), 1, "", LoopState(0, 1, false));
    FramesStep(t, LoopState(1, 0, true), 2, "", LoopState(0, 0, false));
    FramesStep(t, LoopState(1, 1, true), 3, "B", LoopState(1, 0, true));
    FramesStep(t, LoopState(1, 2, true), 4, "BB", LoopState(1, 1, true));
    FramesStep(t, LoopState(1, 2, false), 5, "BB", LoopState(1, 2, true));
    FramesStep(t, LoopState(1, 1, false), 6, "B", LoopState(1, 2, false));
    FramesStep(t, LoopState(1, 0, false), 7, "", LoopState(1, 1, false));
    FramesStep(t, LoopState(0, 0, true), 8, "", LoopState(1, 0, false));
    FramesStep(t, LoopState(0, 1, true), 9, "A", LoopState(0, 0, true));
    FramesStep(t, LoopState(0, 1, false), 10, "A", LoopState(0, 1, true));
    FramesStep(t, LoopState(0, 0, false), 11, "", LoopState(0, 1, false));
  }

  /** The component's state, updated in place by its setters. */
  class Typewriter {
    const texts: seq<string>
    var index: nat
    var subIndex: nat
    var deleting: bool
    var displayed: string

    function State(): LoopState
      reads this
    {
      LoopState(index, subIndex, deleting)
    }

    ghost predicate Valid()
      reads this
    {
      InBounds(texts, State()) && displayed == Displayed(texts, State())
    }

    /** Mounting: the display effect reads texts[0], so the list must not be empty. */
    constructor (texts: seq<string>)
      requires |texts| > 0
      ensures Valid() && this.texts == texts && State() == Start && displayed == ""
    {
      this.texts := texts;
      index, subIndex, deleting := 0, 0, false;
      displayed := texts[0][..0];
    }

    /** One firing of the step effect, followed by the display effect. */
    method Tick() returns (wait: Wait)
      requires Valid()
      modifies this
      ensures Valid()
      ensures Step(State(), wait) == Next(texts, old(State()))
    {
      if !deleting && subIndex == |texts[index]| {
        wait := Delay;
        deleting := true;
      } else if deleting && subIndex == 0 {
        wait := Immediate;
        deleting := false;
        index := (index + 1) % |texts|;
      } else {
        wait := if deleting then DeletingSpeed else TypingSpeed;
        subIndex := if deleting then subIndex - 1 else subIndex + 1;
      }
      displayed := texts[index][..subIndex];
    }
  }
}
