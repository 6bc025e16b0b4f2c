/**
 * The text-scramble effect. Starting a scramble hides the cursor, stops any running
 * interval and starts a new one with a counter `iteration` at 0. Each tick emits a frame as
 * long as the text: positions below `iteration` show the text's own character, the others
 * a random block glyph. When a tick finds `iteration` at the text's length, that frame is
 * the text itself; the interval stops there and the cursor appears. Otherwise `iteration`
 * grows by one half per tick.
 *
 * `iteration` takes the values 0, 1/2, 1, ...; the model keeps `halfSteps = 2 * iteration`,
 * a natural number, so "index < iteration" reads `2 * index < halfSteps`. Timer scheduling
 * and React's state batching are not modelled: a tick is one call of `Tick`, and the random
 * glyph choices are parameters.
 */
module TextScramble {

  /** The scramble glyphs "█▓▒░". */
  const Glyphs: string := "\U{2588}\U{2593}\U{2592}\U{2591}"

  /** `Math.floor(Math.random() * letters.length)`: an index into the glyphs. */
  type GlyphIndex = k: nat | k < 4

  /** Position `i` shows the text's character when `i < iteration`, that is `2 * i < halfSteps`. */
  predicate Revealed(i: nat, halfSteps: nat) {
    2 * i < halfSteps
  }

  /** The frame a tick builds, choosing glyph `draw(i)` for each position `i` still hidden. */
  function Frame(text: string, halfSteps: nat, draw: nat -> GlyphIndex): (f: string)
    ensures |f| == |text|
    ensures forall i :: 0 <= i < |text| && Revealed(i, halfSteps) ==> f[i] == text[i]
    ensures forall i :: 0 <= i < |text| && !Revealed(i, halfSteps) ==> f[i] in Glyphs
  {
    seq(|text|, i requires 0 <= i < |text| => if Revealed(i, halfSteps) then text[i] else Glyphs[draw(i)])
  }

  /** The stop rule: a tick stops the interval when `iteration >= text.length`. */
  predicate Stops(text: string, halfSteps: nat) {
    2 * |text| <= halfSteps
  }

  /**
   * Counting ticks from 0, position `i` of a text whose character there is not a glyph shows
   * that character from tick 2i + 1 on and a glyph before, whatever glyphs are drawn; so
   * once shown it stays.
   */
  lemma RevealTick(text: string, i: nat, tick: nat, draw: nat -> GlyphIndex)
    requires i < |text| && text[i] !in Glyphs
    ensures Frame(text, tick, draw)[i] == text[i] <==> tick >= 2 * i + 1
    ensures forall later: nat, d: nat -> GlyphIndex :: later >= tick && Frame(text, tick, draw)[i] == text[i] ==>
      Frame(text, later, d)[i] == text[i]
  {
  }

  /** Tick 2 * length is the first that stops, and its frame is the text, whatever glyphs were drawn. */
  lemma StopFrameIsText(text: string, draw: nat -> GlyphIndex)
    ensures Stops(text, 2 * |text|)
    ensures forall t: nat :: t < 2 * |text| ==> !Stops(text, t)
    ensures Frame(text, 2 * |text|, draw) == text
  {
    var f := Frame(text, 2 * |text|, draw);
    forall i | 0 <= i < |text| ensures f[i] == text[i] {
      assert Revealed(i, 2 * |text|);
    }
  }

  /**
   * Before tick 2 * length - 1 the frame differs from the text whenever the text's last
   * character is not itself a glyph: the last position is still hidden. (Tick 2 * length - 1
   * already shows the whole text; the stop check only fires one tick later.)
   */
  lemma EarlyFramesDiffer(text: string, halfSteps: nat, draw: nat -> GlyphIndex)
    requires |text| > 0 && text[|text| - 1] !in Glyphs
    requires halfSteps + 1 < 2 * |text|
    ensures Frame(text, halfSteps, draw) != text
  {
    var f := Frame(text, halfSteps, draw);
    assert !Revealed(|text| - 1, halfSteps);
    assert f[|text| - 1] in Glyphs;
  }

  /** What the component renders: the text shown, and whether the blinking cursor follows it. */
  datatype ScrambleView = ScrambleView(shown: string, cursor: bool)

  class TextScrambleWidget {
    /** `textRef.current`: the text the ticks read. */
    var text: string
    var currentText: string
    var isRevealed: bool
    var isClient: bool
    /** Whether `intervalRef.current` holds a live interval. */
    var intervalActive: bool
    /** Whether the 500 ms `initialDelay` timeout that scrambles again is pending. */
    var delayPending: bool
    /** `2 * iteration` for the interval started last. */
    var halfSteps: nat
    /** The frames emitted since the last start. */
    ghost var frames: seq<string>

    /**
     * An interval only runs on the client and never past the stop tick, and it has emitted
     * one frame per tick.
     */
    ghost predicate Valid()
      reads this
    {
      && |frames| == halfSteps
      && (intervalActive ==> isClient && halfSteps <= 2 * |text|)
      && (delayPending ==> isClient)
    }

    constructor (t: string)
      ensures Valid()
      ensures text == t && currentText == "" && !isRevealed && !isClient && !intervalActive && !delayPending
    {
      text := t;
      currentText := "";
      isRevealed := false;
      isClient := false;
      intervalActive := false;
      delayPending := false;
      halfSteps := 0;
      frames := [];
    }

    /** The `scramble` callback: hide the cursor, clear any running interval, start a fresh one at iteration 0. */
    method Scramble()
      requires isClient
      modifies this
      ensures Valid()
      ensures !isRevealed && intervalActive && halfSteps == 0 && frames == []
      ensures text == old(text) && currentText == old(currentText) && isClient == old(isClient)
      ensures delayPending == old(delayPending)
    {
      isRevealed := false;
      intervalActive := false;
      halfSteps := 0;
      frames := [];
      intervalActive := true;
    }

    /**
     * The first effect after mount marks the component as client-rendered. That runs the
     * text effect, which scrambles at once, and the delay effect, which schedules a second
     * scramble 500 ms later.
     */
    method Mount()
      modifies this
      ensures Valid()
      ensures isClient && !isRevealed && intervalActive && halfSteps == 0 && frames == [] && delayPending
      ensures text == old(text) && currentText == old(currentText)
    {
      isClient := true;
      delayPending := false;
      Scramble();
      delayPending := true;
    }

    /** The `initialDelay` timeout fires: the run restarts with a fresh scramble. */
    method InitialDelayElapsed()
      requires Valid() && delayPending
      modifies this
      ensures Valid()
      ensures !delayPending && !isRevealed && intervalActive && halfSteps == 0 && frames == []
      ensures text == old(text) && currentText == old(currentText) && isClient == old(isClient)
    {
      delayPending := false;
      Scramble();
    }

    /**
     * A render with `text` prop `t`. The text effect depends on the text, so it re-runs only
     * when `t` differs from the text it last saw; a re-render with the same text leaves the
     * running animation alone. For a new text the ref takes it, and on the client a new
     * scramble starts.
     */
    method SetText(t: string)
      requires Valid()
      modifies this
      ensures Valid()
      ensures t == old(text) ==>
        text == old(text) && currentText == old(currentText) && isRevealed == old(isRevealed) &&
        isClient == old(isClient) && intervalActive == old(intervalActive) &&
        delayPending == old(delayPending) && halfSteps == old(halfSteps) && frames == old(frames)
      ensures text == t && isClient == old(isClient) && currentText == old(currentText)
      ensures t != old(text) && isClient ==> !isRevealed && intervalActive && halfSteps == 0
      ensures t != old(text) && !isClient ==>
        isRevealed == old(isRevealed) && intervalActive == old(intervalActive) && halfSteps == old(halfSteps)
      ensures delayPending == old(delayPending)
    {
      if t == text {
        return;
      }
      if isClient {
        text := t;
        Scramble();
      } else {
        text := t;
      }
    }

    /**
     * One interval tick: emit the frame for the current counter; at or past the stop tick
     * clear the interval and show the cursor; then advance the counter by one half.
     */
    method Tick(draw: nat -> GlyphIndex)
      requires Valid() && intervalActive
      modifies this
      ensures Valid()
      ensures currentText == Frame(text, old(halfSteps), draw)
      ensures halfSteps == old(halfSteps) + 1 && frames == old(frames) + [currentText]
      ensures intervalActive == !Stops(text, old(halfSteps))
      ensures isRevealed == (old(isRevealed) || Stops(text, old(halfSteps)))
      ensures text == old(text) && isClient == old(isClient) && delayPending == old(delayPending)
    {
      currentText := Frame(text, halfSteps, draw);
      frames := frames + [currentText];
      if Stops(text, halfSteps) {
        intervalActive := false;
        isRevealed := true;
      }
      halfSteps := halfSteps + 1;
    }

    /**
     * Ticks until the interval clears itself, tick `k` drawing its glyphs from `draws(k)`.
     * A run started afresh emits exactly 2 * length + 1 frames, frame `k` being the frame
     * for counter `k`, ends on the text itself and shows the cursor.
     */
    method RunInterval(draws: nat -> nat -> GlyphIndex) returns (ticks: nat)
      requires Valid() && intervalActive && halfSteps == 0 && frames == []
      modifies this
      ensures Valid()
      ensures ticks == 2 * |text| + 1 && |frames| == ticks
      ensures forall k :: 0 <= k < ticks ==> frames[k] == Frame(text, k, draws(k))
      ensures currentText == text && frames[ticks - 1] == text
      ensures isRevealed && !intervalActive
      ensures text == old(text) && isClient == old(isClient) && delayPending == old(delayPending)
    {
      ticks := 0;
      while intervalActive
        invariant Valid()
        invariant text == old(text) && isClient == old(isClient) && delayPending == old(delayPending)
        invariant ticks == halfSteps
        invariant forall k :: 0 <= k < ticks ==> frames[k] == Frame(text, k, draws(k))
        invariant !intervalActive ==> ticks == 2 * |text| + 1 && isRevealed && currentText == Frame(text, 2 * |text|, draws(2 * |text|))
        decreases 2 * |text| + 1 - halfSteps
      {
        Tick(draws(ticks));
        ticks := ticks + 1;
      }
      StopFrameIsText(text, draws(2 * |text|));
    }

    /** Unmounting clears the pending delay and the interval. */
    method Unmount()
      requires Valid()
      modifies this
      ensures Valid()
      ensures !intervalActive && !delayPending
      ensures text == old(text) && currentText == old(currentText) && isRevealed == old(isRevealed)
      ensures halfSteps == old(halfSteps) && frames == old(frames) && isClient == old(isClient)
    {
      intervalActive := false;
      delayPending := false;
    }

    /** The render: the plain text before client mount; afterwards the current frame, with the cursor once revealed. */
    function View(): (v: ScrambleView)
      reads this
      ensures v.cursor <==> isClient && isRevealed
      ensures v.shown == if isClient then currentText else text
    {
      if !isClient then ScrambleView(text, false) else ScrambleView(currentText, isRevealed)
    }
  }
}
