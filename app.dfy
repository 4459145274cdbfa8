/**
 * The demo pane of project/src/App.tsx: the "AI typing" effect that reveals the
 * active demo's example one UTF-16 code unit per timer tick, the pane's
 * fallback to the full example, and the Escape key that closes the modal.
 */
module App {
  import opened JsText

  /** `currentExample || example`: an empty string is falsy, so the pane then shows the whole example. */
  function PaneText(currentExample: seq<CodeUnit>, example: seq<CodeUnit>): (shown: seq<CodeUnit>)
    ensures currentExample != [] ==> shown == currentExample
    ensures currentExample == [] ==> shown == example
  {
    if currentExample != [] then currentExample else example
  }

  /**
   * The keydown listener installed while the solution modal is open: Escape
   * closes it, any other key leaves it as it was. While the modal is closed no
   * listener is installed, which has the same effect on `showSolutionModal`.
   */
  function AfterKeyDown(showSolutionModal: bool, key: string): (open: bool)
    ensures key == "Escape" ==> !open
    ensures key != "Escape" ==> open == showSolutionModal
    ensures open ==> showSolutionModal
  {
    if key == "Escape" then false else showSolutionModal
  }

  /**
   * The typing effect for one demo: `text` is the example's code units,
   * `index` the interval closure's local counter, `currentExample` and
   * `aiTyping` the two pieces of React state it publishes, and `timerRunning`
   * whether the interval is still installed.
   */
  class Typewriter {
    var text: seq<CodeUnit>
    var index: nat
    var currentExample: seq<CodeUnit>
    var aiTyping: bool
    var timerRunning: bool

    /** What every tick preserves: the display is the first `index` units of the text. */
    ghost predicate Valid()
      reads this
    {
      && index <= |text|
      && currentExample == text[..index]
      && aiTyping == timerRunning
      && (!timerRunning ==> index == |text|)
    }

    /** Ticks still to come: one per unrevealed unit, plus the final tick that stops the timer. */
    ghost function Remaining(): nat
      reads this
      requires Valid()
    {
      |text| - index + (if timerRunning then 1 else 0)
    }

    /** What the pane shows right now. */
    function Shown(): seq<CodeUnit>
      reads this
    {
      PaneText(currentExample, text)
    }

    /** The effect's first run for the initial demo. */
    constructor (example: seq<CodeUnit>)
      ensures Valid()
      ensures text == example && index == 0 && currentExample == []
      ensures aiTyping && timerRunning
    {
      text := example;
      index := 0;
      currentExample := [];
      aiTyping := true;
      timerRunning := true;
    }

    /**
     * The effect re-running for a newly selected demo: the previous interval is
     * cleared, typing turns on, the display empties and the counter restarts.
     */
    method SelectDemo(example: seq<CodeUnit>)
      modifies this
      ensures Valid()
      ensures text == example && index == 0 && currentExample == []
      ensures aiTyping && timerRunning
    {
      aiTyping := true;
      currentExample := [];
      text := example;
      index := 0;
      timerRunning := true;
    }

    /** One firing of the 30 ms interval. */
    method Tick()
      requires Valid() && timerRunning
      modifies this
      ensures Valid() && text == old(text)
      ensures old(index) < |text| ==>
        index == old(index) + 1 && currentExample == text[..old(index) + 1] && aiTyping && timerRunning
      ensures old(index) == |text| ==>
        index == old(index) && currentExample == text && !aiTyping && !timerRunning
      ensures Remaining() < old(Remaining())
    {
      if index < |text| {
        currentExample := text[..index + 1];
        index := index + 1;
      } else {
        aiTyping := false;
        timerRunning := false;
      }
    }

    /**
     * Lets the interval fire until it clears itself. The reveal terminates
     * after exactly one tick per remaining code unit plus the stopping tick,
     * and leaves the whole example on display.
     */
    method RunToCompletion() returns (ticks: nat)
      requires Valid()
      modifies this
      ensures Valid() && text == old(text)
      ensures currentExample == text && !aiTyping && !timerRunning
      ensures old(timerRunning) ==> ticks == |text| - old(index) + 1
      ensures !old(timerRunning) ==> ticks == 0
    {
      ticks := 0;
      while timerRunning
        invariant Valid() && text == old(text)
        invariant ticks + Remaining() == old(Remaining())
        decreases Remaining()
      {
        Tick();
        ticks := ticks + 1;
      }
    }
  }

  /** While typing, the pane shows either the whole example (before the first tick) or a non-empty prefix of it. */
  lemma ShownIsPrefix(t: Typewriter)
    requires t.Valid()
    ensures t.Shown() <= t.text
    ensures t.Shown() == t.text || (t.Shown() != [] && |t.Shown()| == t.index)
  {
  }
}
