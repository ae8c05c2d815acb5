/** The footer's terminal-style social link (`TerminalSocialLink` in
    src/components/layout/Footer.tsx): while hovered, an interval types the
    link's command one more character per tick; leaving clears it. */
module FooterTerminal {

  /** `command.slice(0, n)`: a prefix that stops at the end of the string. */
  function Slice(s: string, n: nat): (r: string)
    ensures r <= s
    ensures |r| == if n <= |s| then n else |s|
  {
    if n <= |s| then s[..n] else s
  }

  /** How many ticks the interval runs for before it clears itself: one per
      character, and a single one for an empty command. */
  function TickBudget(command: string): (r: nat)
    ensures r >= 1 && r >= |command|
    ensures |command| > 0 ==> r == |command|
    ensures |command| == 0 ==> r == 1
  {
    if |command| == 0 then 1 else |command|
  }

  class TerminalSocialLink {
    const command: string
    var isHovered: bool
    var typed: string
    /** The interval callback's local counter `i`. */
    var i: nat
    var intervalActive: bool
    /** Interval ticks delivered since the pointer entered. */
    ghost var ticks: nat

    ghost predicate Valid()
      reads this
    {
      && (!isHovered ==> typed == "" && !intervalActive)
      && (isHovered ==>
            && i == (if ticks <= TickBudget(command) then ticks else TickBudget(command))
            && typed == Slice(command, ticks)
            && (intervalActive <==> i < TickBudget(command)))
    }

    constructor (command: string)
      ensures Valid()
      ensures this.command == command && !isHovered && typed == "" && !intervalActive
    {
      this.command := command;
      isHovered := false;
      typed := "";
      i := 0;
      intervalActive := false;
      ticks := 0;
    }

    /** `onMouseEnter`: the effect starts a fresh interval with `i = 0`; a
        repeated enter changes nothing, as the state does not change. */
    method MouseEnter()
      requires Valid()
      modifies this
      ensures Valid()
      ensures isHovered
      ensures !old(isHovered) ==> i == 0 && ticks == 0 && intervalActive && typed == ""
      ensures old(isHovered) ==> i == old(i) && typed == old(typed) && intervalActive == old(intervalActive) && ticks == old(ticks)
    {
      if !isHovered {
        isHovered := true;
        i := 0;
        ticks := 0;
        intervalActive := true;
      }
    }

    /** `onMouseLeave`: the effect's cleanup clears the interval and the
        re-run sets `typed` back to empty. */
    method MouseLeave()
      requires Valid()
      modifies this
      ensures Valid()
      ensures !isHovered && typed == "" && !intervalActive
      ensures i == old(i) && ticks == old(ticks)
    {
      if isHovered {
        isHovered := false;
        intervalActive := false;
        typed := "";
      }
    }

    /** One firing of the 50 ms interval, if one is running. */
    method IntervalTick()
      requires Valid()
      modifies this
      ensures Valid()
      ensures isHovered == old(isHovered)
      ensures old(intervalActive) ==>
                typed == Slice(command, old(i) + 1) && i == old(i) + 1 &&
                (intervalActive <==> i < |command|)
      ensures !old(intervalActive) ==>
                typed == old(typed) && i == old(i) && !intervalActive
      ensures isHovered ==> typed == Slice(command, ticks)
      ensures isHovered ==> ticks == old(ticks) + 1
      ensures !isHovered ==> ticks == old(ticks)
    {
      if isHovered {
        ticks := ticks + 1;
      }
      if intervalActive {
        typed := Slice(command, i + 1);
        i := i + 1;
        if i >= |command| {
          intervalActive := false;
        }
      }
    }

    /** The command line under the label. */
    function Line(): (r: string)
      reads this
      requires Valid()
      ensures isHovered ==> |r| >= 2 && r[..2] == "$ " && r[2..] == typed && r[2..] <= command
      ensures !isHovered ==> r == "$ ..."
    {
      if isHovered then "$ " + typed else "$ ..."
    }
  }
}
