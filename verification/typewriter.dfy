/** The typing animation: a growing prefix of a message's text, revealed one character per tick. */
module Typewriter {

  /**
   * The typewriter hook's state for the current `text`: the prefix shown so
   * far, whether it is still typing, the tick counter of the running
   * animation and whether its interval is still scheduled.
   */
  class TypingEffect {
    var text: string
    var displayedText: string
    var isTyping: bool
    var currentIndex: nat
    var intervalActive: bool

    /** What is shown is the first `currentIndex` characters; typing goes on exactly while the text is not all shown. */
    ghost predicate Valid()
      reads this
    {
      && currentIndex <= |text|
      && displayedText == text[..currentIndex]
      && isTyping == (currentIndex < |text|)
      && intervalActive == isTyping
    }

    /** Mounting the hook: the initial state followed by the first run of the effect. */
    constructor (text: string)
      ensures Valid() && this.text == text && displayedText == "" && currentIndex == 0
    {
      this.text := text;
      displayedText := "";
      isTyping := true;
      currentIndex := 0;
      intervalActive := false;
      new;
      Restart(text);
    }

    /**
     * The effect for a new `text` (or a new speed): the old interval is
     * cleared, the display reset, and an empty text stops typing at once.
     */
    method Restart(newText: string)
      modifies this
      ensures Valid() && text == newText && displayedText == "" && currentIndex == 0
      ensures isTyping == (newText != "")
    {
      intervalActive := false;
      text := newText;
      displayedText := "";
      isTyping := true;
      currentIndex := 0;
      if newText == "" {
        isTyping := false;
        return;
      }
      intervalActive := true;
    }

    /** One interval tick: reveal one more character; stop once the whole text is shown. */
    method Tick()
      requires Valid() && intervalActive
      modifies this
      ensures Valid() && text == old(text)
      ensures currentIndex == old(currentIndex) + 1
      ensures displayedText == old(displayedText) + [text[old(currentIndex)]]
      ensures !isTyping <==> displayedText == text
    {
      currentIndex := currentIndex + 1;
      if currentIndex <= |text| {
        displayedText := text[..currentIndex];
      }
      if currentIndex >= |text| {
        isTyping := false;
        intervalActive := false;
      }
    }

    /** The interval runs until it clears itself: one tick per character, the whole text shown at the end. */
    method Animate() returns (ticks: nat)
      requires Valid()
      modifies this
      ensures Valid() && text == old(text)
      ensures displayedText == text && !isTyping && !intervalActive
      ensures ticks == |text| - old(currentIndex)
    {
      ticks := 0;
      while intervalActive
        invariant Valid() && text == old(text)
        invariant currentIndex == old(currentIndex) + ticks
        invariant old(displayedText) <= displayedText
        decreases |text| - currentIndex
      {
        Tick();
        ticks := ticks + 1;
      }
    }
  }
}
