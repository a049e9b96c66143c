/** The typewriter animation (`TypingEffect`): each change of `text` restarts it from nothing;
    each interval tick shows one more character; the tick after the last character stops the
    interval, marks the text completed and calls `onComplete` once. */
module TypingEffect {

  class TypingEffect {
    var text: string
    /** Whether the caller passed an `onComplete` callback. */
    var hasOnComplete: bool
    var displayedText: string
    var isCompleted: bool
    /** The interval callback's counter `i`. */
    var i: nat
    var intervalRunning: bool
    /** How many times `onComplete` ran since the effect last started. */
    var onCompleteCalls: nat

    /** The shown text is always the first `i` characters; an empty text starts no interval
        and never completes; a completed text has been shown in full, and `onComplete` ran
        exactly once for it. */
    predicate Valid()
      reads this
    {
      && i <= |text|
      && displayedText == text[..i]
      && (intervalRunning ==> text != "" && !isCompleted)
      && (isCompleted ==> i == |text| && !intervalRunning)
      && (text == "" ==> !intervalRunning && !isCompleted)
      && (text != "" ==> intervalRunning || isCompleted)
      && onCompleteCalls == (if isCompleted && hasOnComplete then 1 else 0)
    }

    /** Mounting runs the effect for the first `text`. */
    constructor (text: string, hasOnComplete: bool)
      ensures Valid()
      ensures this.text == text && this.hasOnComplete == hasOnComplete
      ensures displayedText == "" && !isCompleted && (intervalRunning <==> text != "")
    {
      this.text := text;
      this.hasOnComplete := hasOnComplete;
      displayedText := "";
      isCompleted := false;
      i := 0;
      intervalRunning := text != "";
      onCompleteCalls := 0;
    }

    /** The `useEffect` run for a new `text` (or `onComplete`): the cleanup clears the old
        interval, the state is reset, and an interval starts only for non-empty text. */
    method Restart(newText: string, newHasOnComplete: bool)
      modifies this
      ensures Valid()
      ensures text == newText && hasOnComplete == newHasOnComplete
      ensures displayedText == "" && !isCompleted && i == 0 && (intervalRunning <==> newText != "")
      ensures onCompleteCalls == 0
    {
      intervalRunning := false;
      text := newText;
      hasOnComplete := newHasOnComplete;
      isCompleted := false;
      displayedText := "";
      i := 0;
      onCompleteCalls := 0;
      if text != "" {
        intervalRunning := true;
      }
    }

    /** One firing of the interval callback; once the interval is cleared nothing fires. */
    method Tick()
      requires Valid()
      modifies this
      ensures Valid()
      ensures text == old(text) && hasOnComplete == old(hasOnComplete)
      ensures !old(intervalRunning) ==>
        displayedText == old(displayedText) && isCompleted == old(isCompleted) && i == old(i)
        && !intervalRunning && onCompleteCalls == old(onCompleteCalls)
      ensures old(intervalRunning) && old(i) < |text| ==>
        i == old(i) + 1 && displayedText == text[..i] && intervalRunning && !isCompleted
      ensures old(intervalRunning) && old(i) == |text| ==>
        i == old(i) && displayedText == text && !intervalRunning && isCompleted
        && onCompleteCalls == old(onCompleteCalls) + (if hasOnComplete then 1 else 0)
    {
      if !intervalRunning {
        return;
      }
      if i < |text| {
        displayedText := text[..i + 1];
        i := i + 1;
      } else {
        intervalRunning := false;
        isCompleted := true;
        if hasOnComplete {
          onCompleteCalls := onCompleteCalls + 1;
        }
      }
    }

    /** The blinking cursor is shown until the text is completed, and for ever when the text
        is empty. */
    function CursorShown(): (r: bool)
      reads this
      requires Valid()
      ensures r <==> !isCompleted
      ensures !r ==> displayedText == text
      ensures text == "" ==> r
    {
      !isCompleted
    }

    /** Lets the interval fire until it clears itself: a non-empty text is typed out in
        `|text| + 1` ticks, ending completed with `onComplete` called once. */
    method TypeOut() returns (ticks: nat)
      requires Valid()
      modifies this
      ensures Valid()
      ensures text == old(text) && !intervalRunning
      ensures old(intervalRunning) ==> ticks == |text| - old(i) + 1
      ensures text != "" ==> displayedText == text && isCompleted
      ensures text != "" ==> onCompleteCalls == (if hasOnComplete then 1 else 0)
    {
      ticks := 0;
      while intervalRunning
        invariant Valid()
        invariant text == old(text) && hasOnComplete == old(hasOnComplete)
        invariant old(intervalRunning) ==> (intervalRunning ==> ticks == i - old(i))
        invariant old(intervalRunning) ==> (!intervalRunning ==> ticks == |text| - old(i) + 1)
        invariant !old(intervalRunning) ==> !intervalRunning
        decreases |text| - i + (if intervalRunning then 1 else 0)
      {
        Tick();
        ticks := ticks + 1;
      }
    }
  }
}
