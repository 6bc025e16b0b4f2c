/**
 * The typewriter effect. On the client, a non-empty text starts a run: the displayed text is
 * reset to empty, and after the start delay an interval appends the text's next character
 * (`text.charAt(i)`) on each tick while the counter `i` is below the length, and clears
 * itself on the first tick that finds `i` at the length. The cursor shows while the displayed
 * text is shorter than the text. Before client mount the component renders an empty span.
 *
 * Timers are not modelled as time: the delay firing and each interval tick are method calls.
 */
module Typewriter {

  /** What `k` ticks of a run display: each tick below the length appends the next character, later ticks nothing. */
  function TypedAfter(text: string, k: nat): string {
    if k == 0 then ""
    else if k - 1 < |text| then TypedAfter(text, k - 1) + [text[k - 1]]
    else TypedAfter(text, k - 1)
  }

  function Min(a: nat, b: nat): nat { if a <= b then a else b }

  /** After `k` ticks the display is the text's prefix of length `min(k, length)`. */
  lemma {:induction false} TypedAfterIsPrefix(text: string, k: nat)
    ensures TypedAfter(text, k) == text[..Min(k, |text|)]
  {
    if k > 0 {
      TypedAfterIsPrefix(text, k - 1);
      if k - 1 < |text| {
        assert text[..k] == text[..k - 1] + [text[k - 1]];
      }
    }
  }

  /** The display never outgrows the text, is the whole text from tick `length` on, and is short exactly before. */
  lemma TypedAfterBounds(text: string, k: nat)
    ensures |TypedAfter(text, k)| <= |text|
    ensures |TypedAfter(text, k)| < |text| <==> k < |text|
    ensures k >= |text| ==> TypedAfter(text, k) == text
  {
    TypedAfterIsPrefix(text, k);
  }

  /** What the component renders: an empty span on the server, else the typed text and maybe a cursor. */
  datatype TypewriterView = EmptySpan | Typed(shown: string, cursor: bool)

  class TypewriterWidget {
    var text: string
    var displayedText: string
    var isClient: bool
    /** The start-delay timeout is pending. */
    var timerPending: bool
    /** The typing interval is live. */
    var typing: bool
    /** The interval's counter. */
    var i: nat
    /** Ticks of the current run so far. */
    ghost var ticks: nat

    /**
     * A pending start has a blank display; a live interval's counter is `min(ticks, length)`
     * and the display is what that many ticks type.
     */
    ghost predicate Valid()
      reads this
    {
      && (timerPending ==> !typing && displayedText == "")
      && (typing ==> i == Min(ticks, |text|) && ticks <= |text| && displayedText == TypedAfter(text, ticks))
    }

    constructor (t: string)
      ensures Valid()
      ensures text == t && displayedText == "" && !isClient && !timerPending && !typing
    {
      text := t;
      displayedText := "";
      isClient := false;
      timerPending := false;
      typing := false;
      i := 0;
      ticks := 0;
    }

    /** The typing effect's body: on the client with a non-empty text, blank the display and schedule the start. */
    method StartEffect()
      requires Valid() && !timerPending && !typing
      modifies this
      ensures Valid()
      ensures text == old(text) && isClient == old(isClient) && !typing
      ensures isClient && text != "" ==> displayedText == "" && timerPending
      ensures !(isClient && text != "") ==> displayedText == old(displayedText) && !timerPending
    {
      if !isClient || text == "" {
        return;
      }
      displayedText := "";
      timerPending := true;
    }

    /** The effect's cleanup before it runs again: cancel the pending start and stop the interval. */
    method CleanupEffect()
      requires Valid()
      modifies this
      ensures Valid()
      ensures !timerPending && !typing
      ensures text == old(text) && isClient == old(isClient) && displayedText == old(displayedText)
    {
      timerPending := false;
      typing := false;
    }

    /** Mounting marks the component as client-rendered, which runs the effect. */
    method Mount()
      requires Valid() && !timerPending && !typing
      modifies this
      ensures Valid()
      ensures isClient && text == old(text) && !typing
      ensures text != "" ==> displayedText == "" && timerPending
      ensures text == "" ==> displayedText == old(displayedText) && !timerPending
    {
      isClient := true;
      StartEffect();
    }

    /**
     * A render with `text` prop `t`. The effect depends on the text, so it re-runs only when
     * `t` differs from the text it last saw; a re-render with the same text leaves the run
     * alone. For a new text the old run is cleaned up and the effect runs for the new text.
     */
    method SetText(t: string)
      requires Valid()
      modifies this
      ensures Valid()
      ensures t == old(text) ==>
        text == old(text) && displayedText == old(displayedText) && isClient == old(isClient) &&
        timerPending == old(timerPending) && typing == old(typing) && i == old(i) && ticks == old(ticks)
      ensures text == t && isClient == old(isClient)
      ensures t != old(text) ==> !typing
      ensures t != old(text) && isClient && t != "" ==> displayedText == "" && timerPending
      ensures t != old(text) && !(isClient && t != "") ==> displayedText == old(displayedText) && !timerPending
    {
      if t == text {
        return;
      }
      CleanupEffect();
      text := t;
      StartEffect();
    }

    /** The start delay elapses: the interval starts with `i = 0`. */
    method StartTyping()
      requires Valid() && timerPending
      modifies this
      ensures Valid()
      ensures typing && !timerPending && i == 0 && ticks == 0 && displayedText == ""
      ensures text == old(text) && isClient == old(isClient)
    {
      timerPending := false;
      typing := true;
      i := 0;
      ticks := 0;
    }

    /** One interval tick: append `text.charAt(i)` and count it while `i < length`; otherwise clear the interval. */
    method Tick()
      requires Valid() && typing
      modifies this
      ensures Valid()
      ensures old(i) < |text| ==>
        displayedText == old(displayedText) + [text[old(i)]] && i == old(i) + 1 && typing
      ensures old(i) >= |text| ==>
        displayedText == old(displayedText) && i == old(i) && !typing
      ensures !typing ==> displayedText == text
      ensures ticks == old(ticks) + 1 && text == old(text) && isClient == old(isClient) && !timerPending
    {
      TypedAfterBounds(text, ticks);
      if i < |text| {
        displayedText := displayedText + [text[i]];
        i := i + 1;
      } else {
        typing := false;
      }
      ticks := ticks + 1;
    }

    /** Ticks a run from its start until the interval clears: `length + 1` ticks, ending on the whole text. */
    method TypeAll() returns (count: nat)
      requires Valid() && typing && ticks == 0
      modifies this
      ensures Valid()
      ensures count == |text| + 1 && !typing && displayedText == text && i == |text|
      ensures text == old(text) && isClient == old(isClient)
    {
      count := 0;
      while typing
        invariant Valid() && text == old(text) && isClient == old(isClient) && !timerPending
        invariant count == ticks && ticks <= |text| + 1
        invariant typing ==> ticks <= |text|
        invariant !typing ==> ticks == |text| + 1 && displayedText == text && i == |text|
        decreases |text| + 1 - ticks
      {
        Tick();
        count := count + 1;
      }
    }

    /** The render: nothing before client mount; afterwards the typed text, with the cursor while it is short. */
    function View(): (v: TypewriterView)
      reads this
      ensures v == EmptySpan <==> !isClient
      ensures v.Typed? ==> v.shown == displayedText && (v.cursor <==> |displayedText| < |text|)
    {
      if !isClient then EmptySpan else Typed(displayedText, |displayedText| < |text|)
    }
  }

  /** During a run the cursor shows exactly until the last character is typed. */
  lemma CursorWhileTyping(text: string, k: nat)
    ensures |TypedAfter(text, k)| < |text| <==> TypedAfter(text, k) != text
  {
    TypedAfterBounds(text, k);
  }
}
