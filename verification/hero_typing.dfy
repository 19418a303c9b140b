/**
 * The hero section's typing effect: every tick the displayed phrase grows by one
 * character, holds for a pause once complete, shrinks character by character, and then
 * the next of four phrases begins.
 */
module HeroTyping {

  const TypingPhrases: seq<string> := [
    "LLM Integration",
    "Rapid Prototyping",
    "Context Engineering",
    "Agentic Workflows"
  ]

  /** Ticks a complete phrase stays on screen before deletion starts. */
  const PauseTicks: nat := 8

  datatype TypingState = TypingState(wordIndex: nat, charIndex: nat, isDeleting: bool, display: string, pauseCount: nat)

  /** The state at the start of phrase `w`. */
  function Reset(w: nat): TypingState {
    TypingState(w, 0, false, "", 0)
  }

  const Initial: TypingState := Reset(0)

  /** `word.slice(0, end)`, which stops at the end of the word. */
  function Slice(word: string, end: nat): string {
    if end <= |word| then word[..end] else word
  }

  /**
   * The invariant of the effect: a valid phrase, a position inside it, the display equal
   * to the phrase up to that position, and a pause counter that only runs, within its
   * bound, while the complete phrase is shown and not yet being deleted.
   */
  predicate Valid(s: TypingState) {
    && s.wordIndex < |TypingPhrases|
    && s.charIndex <= |TypingPhrases[s.wordIndex]|
    && s.display == TypingPhrases[s.wordIndex][..s.charIndex]
    && s.pauseCount <= PauseTicks
    && (s.pauseCount > 0 ==> !s.isDeleting && s.charIndex == |TypingPhrases[s.wordIndex]|)
  }

  /** One tick of the interval: the function passed to `setTypingState`. */
  function Step(prev: TypingState): (next: TypingState)
    requires prev.wordIndex < |TypingPhrases|
    ensures Valid(prev) ==> Valid(next)
    // typing adds exactly one character and changes nothing else but the display
    ensures !prev.isDeleting && prev.charIndex < |TypingPhrases[prev.wordIndex]| ==>
      next.charIndex == prev.charIndex + 1 && next == prev.(charIndex := next.charIndex, display := next.display)
    // deleting removes exactly one character and changes nothing else but the display
    ensures prev.isDeleting && prev.charIndex > 0 ==>
      next.charIndex == prev.charIndex - 1 && next == prev.(charIndex := next.charIndex, display := next.display)
    // the pause counter grows only on a complete phrase that is not being deleted, by one
    ensures next.pauseCount > prev.pauseCount ==>
      && !prev.isDeleting && prev.charIndex >= |TypingPhrases[prev.wordIndex]|
      && prev.pauseCount < PauseTicks && next == prev.(pauseCount := prev.pauseCount + 1)
    // deletion starts only after the full pause, and resets the counter
    ensures !prev.isDeleting && next.isDeleting ==>
      prev.pauseCount >= PauseTicks && next == prev.(isDeleting := true, pauseCount := 0)
    // the phrase changes exactly when deletion has emptied it, to the next phrase, afresh
    ensures next.wordIndex != prev.wordIndex <==> prev.isDeleting && prev.charIndex == 0
    ensures next.wordIndex != prev.wordIndex ==> next == Reset((prev.wordIndex + 1) % |TypingPhrases|)
    ensures next.wordIndex < |TypingPhrases|
  {
    var currentWord := TypingPhrases[prev.wordIndex];
    if !prev.isDeleting then
      if prev.charIndex < |currentWord| then
        var nextCharIndex := prev.charIndex + 1;
        prev.(charIndex := nextCharIndex, display := Slice(currentWord, nextCharIndex))
      else if prev.pauseCount < PauseTicks then
        prev.(pauseCount := prev.pauseCount + 1)
      else
        prev.(isDeleting := true, pauseCount := 0)
    else if prev.charIndex > 0 then
      var nextCharIndex := prev.charIndex - 1;
      prev.(charIndex := nextCharIndex, display := Slice(currentWord, nextCharIndex))
    else
      Reset((prev.wordIndex + 1) % |TypingPhrases|)
  }

  /** `k` ticks of the interval. */
  function Steps(s: TypingState, k: nat): (r: TypingState)
    requires s.wordIndex < |TypingPhrases|
    ensures r.wordIndex < |TypingPhrases|
    decreases k
  {
    if k == 0 then s else Steps(Step(s), k - 1)
  }

  /** Any number of ticks keeps the invariant. */
  lemma {:induction false} StepsValid(s: TypingState, k: nat)
    requires Valid(s)
    ensures Valid(Steps(s, k))
    decreases k
  {
    if k > 0 {
      StepsValid(Step(s), k - 1);
    }
  }

  /** Every state the effect ever shows satisfies the invariant. */
  lemma Reachable(k: nat)
    ensures Valid(Steps(Initial, k))
  {
    assert Valid(Initial);
    StepsValid(Initial, k);
  }

  lemma {:induction false} StepsAdd(s: TypingState, a: nat, b: nat)
    requires s.wordIndex < |TypingPhrases|
    ensures Steps(s, a + b) == Steps(Steps(s, a), b)
    decreases a
  {
    if a > 0 {
      StepsAdd(Step(s), a - 1, b);
    }
  }

  /** While typing, `k` ticks add exactly `k` characters. */
  lemma {:induction false} TypingPhase(s: TypingState, k: nat)
    requires Valid(s) && !s.isDeleting && s.pauseCount == 0
    requires s.charIndex + k <= |TypingPhrases[s.wordIndex]|
    ensures Steps(s, k) == s.(charIndex := s.charIndex + k, display := TypingPhrases[s.wordIndex][..s.charIndex + k])
    decreases k
  {
    if k > 0 {
      TypingPhase(Step(s), k - 1);
    }
  }

  /** On a complete phrase, `k` ticks of the pause only count. */
  lemma {:induction false} PausePhase(s: TypingState, k: nat)
    requires Valid(s) && !s.isDeleting && s.charIndex == |TypingPhrases[s.wordIndex]|
    requires s.pauseCount + k <= PauseTicks
    ensures Steps(s, k) == s.(pauseCount := s.pauseCount + k)
    decreases k
  {
    if k > 0 {
      PausePhase(Step(s), k - 1);
    }
  }

  /** While deleting, `k` ticks remove exactly `k` characters. */
  lemma {:induction false} DeletingPhase(s: TypingState, k: nat)
    requires Valid(s) && s.isDeleting && k <= s.charIndex
    ensures Steps(s, k) == s.(charIndex := s.charIndex - k, display := TypingPhrases[s.wordIndex][..s.charIndex - k])
    decreases k
  {
    if k > 0 {
      DeletingPhase(Step(s), k - 1);
    }
  }

  /** The number of ticks one phrase of length `n` occupies. */
  function CycleTicks(n: nat): nat {
    2 * n + PauseTicks + 2
  }

  /** The states of one phrase's cycle at the ends of its phases. */
  function Typed(w: nat): TypingState
    requires w < |TypingPhrases|
  {
    Reset(w).(charIndex := |TypingPhrases[w]|, display := TypingPhrases[w])
  }

  function Deleting(w: nat): TypingState
    requires w < |TypingPhrases|
  {
    Typed(w).(isDeleting := true)
  }

  /** Typing the phrase, the pause and the switch to deletion take n + 8 + 1 ticks. */
  lemma {:induction false} ToDeleting(w: nat)
    requires w < |TypingPhrases|
    ensures Steps(Reset(w), |TypingPhrases[w]| + PauseTicks + 1) == Deleting(w)
  {
    var n := |TypingPhrases[w]|;
    assert TypingPhrases[w][..n] == TypingPhrases[w];
    TypingPhase(Reset(w), n);
    PausePhase(Typed(w), PauseTicks);
    StepsAdd(Reset(w), n, PauseTicks);
    StepsAdd(Reset(w), n + PauseTicks, 1);
    assert Steps(Typed(w).(pauseCount := PauseTicks), 1) == Deleting(w);
  }

  /**
   * From the start of phrase `w` of length n, n ticks type it, the pause takes 8, one
   * tick starts deletion, n ticks delete it and one more starts the next phrase: exactly
   * 2n + 10 ticks.
   */
  lemma {:induction false} CycleLength(w: nat)
    requires w < |TypingPhrases|
    ensures Steps(Reset(w), CycleTicks(|TypingPhrases[w]|)) == Reset((w + 1) % |TypingPhrases|)
  {
    var n := |TypingPhrases[w]|;
    var m := n + PauseTicks + 1;
    ToDeleting(w);
    DeletingPhase(Deleting(w), n);
    var emptied := Steps(Deleting(w), n);
    assert emptied == Deleting(w).(charIndex := 0, display := "");
    StepsAdd(Reset(w), m, n);
    StepsAdd(Reset(w), m + n, 1);
    assert Steps(Reset(w), m + n) == emptied;
    assert Steps(emptied, 1) == Step(emptied) == Reset((w + 1) % |TypingPhrases|);
    assert CycleTicks(n) == m + n + 1;
  }

  /** Before those 2n + 10 ticks are over, the effect stays on phrase `w`. */
  lemma {:induction false} CycleStaysOnPhrase(w: nat, k: nat)
    requires w < |TypingPhrases| && k < CycleTicks(|TypingPhrases[w]|)
    ensures Steps(Reset(w), k).wordIndex == w
  {
    var n := |TypingPhrases[w]|;
    if k <= n {
      TypingPhase(Reset(w), k);
    } else if k <= n + PauseTicks {
      PauseStays(w, k - n);
    } else {
      DeletingStays(w, k - (n + PauseTicks + 1));
    }
  }

  lemma PauseStays(w: nat, j: nat)
    requires w < |TypingPhrases| && j <= PauseTicks
    ensures Steps(Reset(w), |TypingPhrases[w]| + j) == Typed(w).(pauseCount := j)
  {
    var n := |TypingPhrases[w]|;
    TypingPhase(Reset(w), n);
    assert TypingPhrases[w][..n] == TypingPhrases[w];
    StepsAdd(Reset(w), n, j);
    PausePhase(Typed(w), j);
  }

  lemma DeletingStays(w: nat, j: nat)
    requires w < |TypingPhrases| && j <= |TypingPhrases[w]|
    ensures Steps(Reset(w), |TypingPhrases[w]| + PauseTicks + 1 + j).wordIndex == w
  {
    ToDeleting(w);
    StepsAdd(Reset(w), |TypingPhrases[w]| + PauseTicks + 1, j);
    DeletingPhase(Deleting(w), j);
  }

  /** The four phrases take 40 + 44 + 48 + 44 = 176 ticks, after which the effect starts over. */
  lemma FullCycle()
    ensures Steps(Initial, 176) == Initial
  {
    var a, b, c := CycleTicks(|TypingPhrases[0]|), CycleTicks(|TypingPhrases[1]|), CycleTicks(|TypingPhrases[2]|);
    var d := CycleTicks(|TypingPhrases[3]|);
    assert a + b + c + d == 176;
    CycleLength(0);
    CycleLength(1);
    StepsAdd(Reset(0), a, b);
    assert Steps(Reset(0), a + b) == Reset(2);
    CycleLength(2);
    StepsAdd(Reset(0), a + b, c);
    assert Steps(Reset(0), a + b + c) == Reset(3);
    CycleLength(3);
    StepsAdd(Reset(0), a + b + c, d);
    assert Steps(Reset(3), d) == Reset(0);
  }
}
