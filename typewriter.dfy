/** The typewriter effect (src/components/ui/TypewriterText.tsx): after a
    start delay, one more character of a fixed text is revealed per timer
    tick, with a blinking cursor until the whole text is shown. The two
    timers are the methods StartTimerFired and Tick. */
module Typewriter {
  import opened Common

  const DefaultDelay := 0
  const DefaultTypingSpeed := 50

  class TypewriterText {
    const text: string
    const delay: int
    const typingSpeed: int
    var started: bool
    var currentIndex: nat
    var displayedText: string

    /** The displayed text is always the prefix of the text up to the
        counter. */
    ghost predicate Valid()
      reads this
    {
      currentIndex <= |text| && displayedText == text[..currentIndex]
    }

    /** Mounting: nothing shown, counter at zero, not started. Omitted
        props take their defaults. */
    constructor (text: string, delay: Option<int>, typingSpeed: Option<int>)
      ensures Valid()
      ensures this.text == text && displayedText == "" && currentIndex == 0 && !started
      ensures this.delay == (if delay.Some? then delay.value else DefaultDelay)
      ensures this.typingSpeed == (if typingSpeed.Some? then typingSpeed.value else DefaultTypingSpeed)
    {
      this.text := text;
      this.delay := if delay.Some? then delay.value else DefaultDelay;
      this.typingSpeed := if typingSpeed.Some? then typingSpeed.value else DefaultTypingSpeed;
      started := false;
      currentIndex := 0;
      displayedText := "";
    }

    /** The start timer: the only way `started` becomes true. */
    method StartTimerFired()
      requires Valid()
      modifies this
      ensures Valid()
      ensures started
      ensures currentIndex == old(currentIndex) && displayedText == old(displayedText)
    {
      started := true;
    }

    /** One typing timer. It is only armed once started and while
        characters remain; otherwise nothing happens. */
    method Tick()
      requires Valid()
      modifies this
      ensures Valid()
      ensures started == old(started)
      ensures old(started) && old(currentIndex) < |text| ==>
                currentIndex == old(currentIndex) + 1 &&
                displayedText == old(displayedText) + [text[old(currentIndex)]]
      ensures !(old(started) && old(currentIndex) < |text|) ==>
                currentIndex == old(currentIndex) && displayedText == old(displayedText)
    {
      if started && currentIndex < |text| {
        displayedText := displayedText + [text[currentIndex]];
        currentIndex := currentIndex + 1;
      }
    }

    /** The cursor is rendered while characters remain to be typed. */
    function ShowsCursor(): (r: bool)
      reads this
      requires Valid()
      ensures r <==> |displayedText| < |text|
      ensures !r ==> displayedText == text
    {
      currentIndex < |text|
    }
  }
}
