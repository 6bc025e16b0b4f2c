/**
 * The face-feature rules of the eye-tracking console. Each animation frame the face
 * landmarker reports landmarks and blendshape scores for at most one face; the console turns
 * them into four flags: face seen, both eyes seen, an emotion read from the blendshapes, and
 * a hair tone read from canvas pixels just above the forehead.
 *
 * The detector, the camera, the canvas and the animation-frame loop are outside the model:
 * a frame's detection result and the canvas pixel sampler are parameters.
 */
module EyeTracking {
  import opened Common

  datatype Emotion = Happy | Sad | Angry | Neutral
  datatype HairColor = Light | Dark | Unknown

  /** The blendshape categories that signal an emotion, and which one each signals. */
  const Emotions: map<string, Emotion> := map[
    "mouthSmileLeft" := Happy,
    "mouthSmileRight" := Happy,
    "eyeSquintLeft" := Happy,
    "eyeSquintRight" := Happy,
    "mouthFrownLeft" := Sad,
    "mouthFrownRight" := Sad,
    "browDownLeft" := Angry,
    "browDownRight" := Angry
  ]

  /** A score must lie strictly above this for its category to count. */
  const ScoreThreshold: real := 0.5

  /** One blendshape score reported by the detector. */
  datatype Category = Category(categoryName: string, score: real)

  /** The category names a table entry and scores above the threshold. */
  predicate Qualifies(c: Category) {
    c.categoryName in Emotions && c.score > ScoreThreshold
  }

  /** `blendshapes.filter(...)`: the qualifying categories, in their original order. */
  function Candidates(cs: seq<Category>): (qs: seq<Category>)
    ensures |qs| <= |cs|
    ensures forall c :: c in qs <==> c in cs && Qualifies(c)
  {
    if cs == [] then []
    else
      var rest := Candidates(cs[..|cs| - 1]);
      var c := cs[|cs| - 1];
      assert forall d :: d in cs <==> d in cs[..|cs| - 1] || d == c;
      if Qualifies(c) then rest + [c] else rest
  }

  /** Filtering keeps order: the candidates of a concatenation are the candidates of each part, in turn. */
  lemma {:induction false} CandidatesAppend(a: seq<Category>, b: seq<Category>)
    ensures Candidates(a + b) == Candidates(a) + Candidates(b)
  {
    if b == [] {
      assert a + b == a;
    } else {
      var b0 := b[..|b| - 1];
      assert (a + b)[..|a + b| - 1] == a + b0;
      assert (a + b)[|a + b| - 1] == b[|b| - 1];
      CandidatesAppend(a, b0);
    }
  }

  /**
   * The index of the element a stable sort by descending score puts first: a maximal score,
   * and, among equal maxima, the earliest.
   */
  function {:induction false} SortedFirst(qs: seq<Category>): (r: nat)
    requires |qs| > 0
    ensures r < |qs|
    ensures forall j :: 0 <= j < |qs| ==> qs[j].score <= qs[r].score
    ensures forall j :: 0 <= j < r ==> qs[j].score < qs[r].score
  {
    if |qs| == 1 then 0
    else
      var best := SortedFirst(qs[..|qs| - 1]);
      if qs[|qs| - 1].score > qs[best].score then |qs| - 1 else best
  }

  /** The category a stable descending sort of the candidates puts first. */
  function Top(cs: seq<Category>): Category
    requires |Candidates(cs)| > 0
  {
    var qs := Candidates(cs);
    qs[SortedFirst(qs)]
  }

  /**
   * `cs[i]` qualifies with a maximal qualifying score, and every qualifying category before it
   * scores strictly less: it is the earliest of the best.
   */
  predicate EarliestMaximum(cs: seq<Category>, i: nat) {
    && i < |cs| && Qualifies(cs[i])
    && (forall j :: 0 <= j < |cs| && Qualifies(cs[j]) ==> cs[j].score <= cs[i].score)
    && (forall j :: 0 <= j < i && Qualifies(cs[j]) ==> cs[j].score < cs[i].score)
  }

  /** A category that does not beat the earliest best leaves it in place. */
  lemma EarliestMaximumKept(init: seq<Category>, c: Category, i: nat)
    requires EarliestMaximum(init, i)
    requires Qualifies(c) ==> c.score <= init[i].score
    ensures EarliestMaximum(init + [c], i)
  {
    var cs := init + [c];
    assert forall j :: 0 <= j < |init| ==> cs[j] == init[j];
  }

  /** A qualifying category that beats every earlier one becomes the earliest best. */
  lemma EarliestMaximumNew(init: seq<Category>, c: Category)
    requires Qualifies(c)
    requires forall j :: 0 <= j < |init| && Qualifies(init[j]) ==> init[j].score < c.score
    ensures EarliestMaximum(init + [c], |init|)
  {
    var cs := init + [c];
    assert forall j :: 0 <= j < |init| ==> cs[j] == init[j];
  }

  /** Without candidates, no category qualifies. */
  lemma NoCandidates(cs: seq<Category>)
    requires |Candidates(cs)| == 0
    ensures forall j :: 0 <= j < |cs| ==> !Qualifies(cs[j])
  {
    forall j | 0 <= j < |cs| ensures !Qualifies(cs[j]) {
      assert cs[j] in cs;
    }
  }

  /**
   * Located in the blendshapes, the first sorted candidate is the earliest qualifying
   * category with a maximal score: ties go to the earliest.
   */
  lemma {:induction false} TopIsEarliestMaximum(cs: seq<Category>)
    requires |Candidates(cs)| > 0
    ensures exists i: nat :: EarliestMaximum(cs, i) && cs[i] == Top(cs)
  {
    var init, c := cs[..|cs| - 1], cs[|cs| - 1];
    assert cs == init + [c];
    var qs, rest := Candidates(cs), Candidates(init);
    if |rest| == 0 {
      assert qs == [c];
      NoCandidates(init);
      EarliestMaximumNew(init, c);
      assert cs[|init|] == Top(cs);
    } else {
      TopIsEarliestMaximum(init);
      var i: nat :| EarliestMaximum(init, i) && init[i] == Top(init);
      if !Qualifies(c) {
        EarliestMaximumKept(init, c, i);
        assert cs[i] == Top(cs);
      } else {
        assert qs == rest + [c] && qs[..|qs| - 1] == rest;
        var best := SortedFirst(rest);
        if c.score > rest[best].score {
          EarliestMaximumNew(init, c);
          assert cs[|init|] == Top(cs);
        } else {
          EarliestMaximumKept(init, c, i);
          assert cs[i] == Top(cs);
        }
      }
    }
  }

  /**
   * The emotion read from one face's blendshapes: NEUTRAL when nothing qualifies, otherwise
   * the table's emotion for the first category of the filtered list sorted by descending
   * score, which is the earliest qualifying category with a maximal score.
   */
  function ProminentEmotion(cs: seq<Category>): (e: Emotion)
    ensures e == Neutral <==> forall c :: c in cs ==> !Qualifies(c)
    ensures e != Neutral ==> exists i: nat :: EarliestMaximum(cs, i) && Emotions[cs[i].categoryName] == e
  {
    var qs := Candidates(cs);
    if |qs| == 0 then Neutral
    else
      var top := qs[SortedFirst(qs)];
      assert top in qs;
      NoTableEntryIsNeutral(top.categoryName);
      TopIsEarliestMaximum(cs);
      Emotions[top.categoryName]
  }

  /** Every table entry names HAPPY, SAD or ANGRY. */
  lemma NoTableEntryIsNeutral(name: string)
    requires name in Emotions
    ensures Emotions[name] != Neutral
  {
  }

  /** Of two qualifying categories with the same score, the earlier one decides. */
  lemma TieGoesToEarliest(a: Category, b: Category)
    requires Qualifies(a) && Qualifies(b) && a.score == b.score
    ensures ProminentEmotion([a, b]) == Emotions[a.categoryName]
  {
    assert [a, b][..1] == [a] && [a, b][..1][..0] == [];
    assert Candidates([a, b]) == [a, b];
  }

  /** A score of exactly the threshold never counts, whatever the category. */
  lemma ThresholdIsStrict(name: string)
    ensures ProminentEmotion([Category(name, ScoreThreshold)]) == Neutral
  {
  }

  /** One pixel read from the canvas. */
  datatype Rgba = Rgba(r: Byte, g: Byte, b: Byte, a: Byte)

  /** Channel sums and the number of opaque (alpha above 0) samples. */
  datatype Totals = Totals(r: nat, g: nat, b: nat, count: nat)

  /** What `getAverageColor` has accumulated after the given samples. */
  function {:induction false} Tally(ps: seq<Rgba>): (t: Totals)
    ensures t.count <= |ps|
    ensures t.r <= 255 * t.count && t.g <= 255 * t.count && t.b <= 255 * t.count
    ensures t.count == 0 <==> forall i :: 0 <= i < |ps| ==> ps[i].a == 0
  {
    if ps == [] then Totals(0, 0, 0, 0)
    else
      var t := Tally(ps[..|ps| - 1]);
      var p := ps[|ps| - 1];
      assert forall i :: 0 <= i < |ps| - 1 ==> ps[..|ps| - 1][i] == ps[i];
      if p.a > 0 then Totals(t.r + p.r, t.g + p.g, t.b + p.b, t.count + 1) else t
  }

  /** The brightness of accumulated totals: the mean of the three channel means, if any sample counted. */
  function Brightness(t: Totals): (v: Option<real>)
    ensures v.None? <==> t.count == 0
  {
    if t.count == 0 then None
    else
      var c := t.count as real;
      Some((t.r as real / c + t.g as real / c + t.b as real / c) / 3.0)
  }

  /**
   * `getAverageColor` over the sampled pixels: `None` (null) exactly when no sample is
   * opaque, otherwise the brightness of the opaque samples' totals.
   */
  method GetAverageColor(ps: seq<Rgba>) returns (avg: Option<real>)
    ensures avg == Brightness(Tally(ps))
    ensures avg.None? <==> forall i :: 0 <= i < |ps| ==> ps[i].a == 0
  {
    var r: nat, g: nat, b: nat, count: nat := 0, 0, 0, 0;
    var i := 0;
    while i < |ps|
      invariant 0 <= i <= |ps|
      invariant Tally(ps[..i]) == Totals(r, g, b, count)
    {
      assert ps[..i + 1][..i] == ps[..i];
      if ps[i].a > 0 {
        r, g, b, count := r + ps[i].r, g + ps[i].g, b + ps[i].b, count + 1;
      }
      i := i + 1;
    }
    assert ps[..i] == ps;
    if count == 0 {
      return None;
    }
    var c := count as real;
    return Some((r as real / c + g as real / c + b as real / c) / 3.0);
  }

  /** A channel sum over `c` samples, each at most 255, has a mean in [0, 255]. */
  lemma MeanInByteRange(sum: nat, c: nat)
    requires 0 < c && sum <= 255 * c
    ensures 0.0 <= sum as real / c as real <= 255.0
  {
    var q := sum as real / c as real;
    assert q * c as real == sum as real;
    if q > 255.0 {
      assert q * c as real > 255.0 * c as real;
    }
  }

  /** Dividing each of three sums by `c` and averaging is dividing their total by `3 * c`. */
  lemma MeanOfQuotients(x: real, y: real, z: real, c: real)
    requires c > 0.0
    ensures (x / c + y / c + z / c) / 3.0 == (x + y + z) / (3.0 * c)
  {
    var q := (x + y + z) / (3.0 * c);
    assert q * (3.0 * c) == x + y + z;
    assert (x / c) * c == x && (y / c) * c == y && (z / c) * c == z;
    assert (x / c + y / c + z / c) * c == x + y + z;
  }

  /** The brightness of totals with a positive count is (r + g + b) / (3 * count), within [0, 255]. */
  lemma BrightnessOfTotals(t: Totals)
    requires t.count > 0
    requires t.r <= 255 * t.count && t.g <= 255 * t.count && t.b <= 255 * t.count
    ensures Brightness(t).Some?
    ensures Brightness(t).value == (t.r + t.g + t.b) as real / (3 * t.count) as real
    ensures 0.0 <= Brightness(t).value <= 255.0
  {
    var c := t.count as real;
    MeanInByteRange(t.r, t.count);
    MeanInByteRange(t.g, t.count);
    MeanInByteRange(t.b, t.count);
    MeanOfQuotients(t.r as real, t.g as real, t.b as real, c);
  }

  /**
   * With some opaque sample, the brightness is the mean over opaque samples of (r + g + b) / 3,
   * and it lies in [0, 255].
   */
  lemma BrightnessIsMeanInRange(ps: seq<Rgba>)
    requires exists i :: 0 <= i < |ps| && ps[i].a > 0
    ensures var t := Tally(ps);
      Brightness(t).Some? &&
      Brightness(t).value == (t.r + t.g + t.b) as real / (3 * t.count) as real &&
      0.0 <= Brightness(t).value <= 255.0
  {
    var t := Tally(ps);
    assert t.count > 0;
    BrightnessOfTotals(t);
  }

  /** Hair tone from the average brightness: LIGHT above 128, DARK otherwise, UNKNOWN for null. */
  function HairFromBrightness(v: Option<real>): (h: HairColor)
    ensures h == Light <==> v.Some? && v.value > 128.0
    ensures h == Dark <==> v.Some? && v.value <= 128.0
    ensures h == Unknown <==> v.None?
  {
    match v
    case None => Unknown
    case Some(x) => if x > 128.0 then Light else Dark
  }

  /** A normalised face landmark. */
  datatype Landmark = Landmark(x: real, y: real)

  /** The least of the landmarks' coordinates, along x when `alongX`, else along y. */
  function {:induction false} Least(lm: seq<Landmark>, alongX: bool): (m: real)
    requires |lm| > 0
    ensures forall i :: 0 <= i < |lm| ==> m <= Coord(lm[i], alongX)
    ensures exists i :: 0 <= i < |lm| && m == Coord(lm[i], alongX)
  {
    if |lm| == 1 then Coord(lm[0], alongX)
    else
      var rest := Least(lm[1..], alongX);
      assert forall i :: 1 <= i < |lm| ==> lm[1..][i - 1] == lm[i];
      if Coord(lm[0], alongX) <= rest then Coord(lm[0], alongX) else rest
  }

  /** The greatest of the landmarks' coordinates, along x when `alongX`, else along y. */
  function {:induction false} Greatest(lm: seq<Landmark>, alongX: bool): (m: real)
    requires |lm| > 0
    ensures forall i :: 0 <= i < |lm| ==> Coord(lm[i], alongX) <= m
    ensures exists i :: 0 <= i < |lm| && m == Coord(lm[i], alongX)
  {
    if |lm| == 1 then Coord(lm[0], alongX)
    else
      var rest := Greatest(lm[1..], alongX);
      assert forall i :: 1 <= i < |lm| ==> lm[1..][i - 1] == lm[i];
      if Coord(lm[0], alongX) >= rest then Coord(lm[0], alongX) else rest
  }

  function Coord(l: Landmark, alongX: bool): real {
    if alongX then l.x else l.y
  }

  /** A rectangle on the canvas, in pixels: top-left corner and size. */
  datatype Box = Box(x: real, y: real, width: real, height: real)

  /**
   * The face box drawn around the landmarks on a `videoWidth` by `videoHeight` canvas: from
   * the least to the greatest coordinate on each axis, scaled to pixels. An empty landmark
   * list gives no finite box (`Math.min()` of nothing is Infinity), here `None`.
   */
  function FaceBox(lm: seq<Landmark>, videoWidth: nat, videoHeight: nat): (box: Option<Box>)
    ensures box.None? <==> |lm| == 0
    ensures box.Some? ==> box.value.width >= 0.0 && box.value.height >= 0.0
  {
    if |lm| == 0 then None
    else
      var w, h := videoWidth as real, videoHeight as real;
      var spanX := Greatest(lm, true) - Least(lm, true);
      var spanY := Greatest(lm, false) - Least(lm, false);
      assert spanX >= 0.0 && spanY >= 0.0 by {
        assert Least(lm, true) <= Coord(lm[0], true) <= Greatest(lm, true);
        assert Least(lm, false) <= Coord(lm[0], false) <= Greatest(lm, false);
      }
      ProductNonNegative(spanX, w);
      ProductNonNegative(spanY, h);
      Some(Box(Least(lm, true) * w, Least(lm, false) * h, spanX * w, spanY * h))
  }

  lemma ProductNonNegative(a: real, b: real)
    requires a >= 0.0 && b >= 0.0
    ensures a * b >= 0.0
  {
  }

  /** The landmarks whose neighbourhood is sampled for the hair tone. */
  const HairRegionIndices: seq<nat> := [10, 109, 67, 103]

  /** The pupil landmarks whose presence makes up the eyes flag. */
  const LeftEyeCenterIndex: nat := 473
  const RightEyeCenterIndex: nat := 468

  /** A canvas point in pixels. */
  datatype Point = Point(x: real, y: real)

  /**
   * The hair sample points: each hair landmark scaled to pixels and moved up by 5% of the
   * video height. Only defined when every hair landmark exists.
   */
  function HairPoints(lm: seq<Landmark>, videoWidth: nat, videoHeight: nat): (pts: seq<Point>)
    requires |lm| > 109
    ensures |pts| == |HairRegionIndices|
    ensures forall k :: 0 <= k < |pts| ==>
      var l := lm[HairRegionIndices[k]];
      pts[k] == Point(l.x * videoWidth as real, l.y * videoHeight as real - 0.05 * videoHeight as real)
  {
    seq(|HairRegionIndices|, k requires 0 <= k < |HairRegionIndices| =>
      var l := lm[HairRegionIndices[k]];
      Point(l.x * videoWidth as real, l.y * videoHeight as real - 0.05 * videoHeight as real))
  }

  /** The eyes flag: both pupil landmarks exist (the eye boxes report whether they drew). */
  function EyesFound(lm: seq<Landmark>): (found: bool)
    ensures found <==> LeftEyeCenterIndex < |lm| && RightEyeCenterIndex < |lm|
  {
    var left := LeftEyeCenterIndex < |lm|;
    var right := RightEyeCenterIndex < |lm|;
    left && right
  }

  /** What the landmarker reports for one frame: landmarks and blendshapes per detected face. */
  datatype Detection = Detection(faceLandmarks: seq<seq<Landmark>>, faceBlendshapes: seq<seq<Category>>)

  /** The emotion of a detection whose first face has blendshapes, NEUTRAL otherwise. */
  function DetectedEmotion(d: Detection): (e: Emotion)
    ensures |d.faceBlendshapes| == 0 ==> e == Neutral
    ensures |d.faceBlendshapes| > 0 ==> e == ProminentEmotion(d.faceBlendshapes[0])
  {
    if |d.faceBlendshapes| > 0 then ProminentEmotion(d.faceBlendshapes[0]) else Neutral
  }

  /** The module-level last video time when the page first loads. */
  const FirstLoadVideoTime: real := -1.0

  /**
   * The console's state: the four flags it shows, the module-level time of the last processed
   * video frame, and whether another animation frame is requested.
   */
  class FaceTracker {
    var faceDetected: bool
    var eyesDetected: bool
    var detectedEmotion: Emotion
    var hairColor: HairColor
    var lastVideoTime: real
    var frameRequested: bool

    /** Without a face, none of the face-derived flags is set. */
    ghost predicate Valid()
      reads this
    {
      !faceDetected ==> !eyesDetected && detectedEmotion == Neutral && hairColor == Unknown
    }

    /**
     * Opening the console: nothing detected and the loop requested. The last video time is
     * module-level, so it is what the previous session left, or `FirstLoadVideoTime`
     * on the page's first load.
     */
    constructor (moduleLastVideoTime: real)
      ensures Valid()
      ensures !faceDetected && !eyesDetected && detectedEmotion == Neutral && hairColor == Unknown
      ensures lastVideoTime == moduleLastVideoTime && frameRequested
    {
      faceDetected, eyesDetected := false, false;
      detectedEmotion, hairColor := Neutral, Unknown;
      lastVideoTime := moduleLastVideoTime;
      frameRequested := true;
    }

    /**
     * One run of `predictWebcam`. When the video, canvas or landmarker is not ready it only
     * requests the next frame. Detection runs only for a video time other than the last
     * processed one, which it records. With no face every flag is reset. With a face the
     * face flag is set first; a face with too few landmarks for the hair region then makes
     * the handler throw, so no further frame is requested. Otherwise hair, eyes and emotion
     * are read from the detection and the pixels `sample` returns.
     */
    method ProcessFrame(ready: bool, currentTime: real, videoWidth: nat, videoHeight: nat,
                        detect: real -> Detection, sample: Point -> Rgba)
      requires frameRequested
      modifies this
      ensures !ready || currentTime == old(lastVideoTime) ==>
        faceDetected == old(faceDetected) && eyesDetected == old(eyesDetected) &&
        detectedEmotion == old(detectedEmotion) && hairColor == old(hairColor) &&
        lastVideoTime == old(lastVideoTime) && frameRequested
      ensures ready && currentTime != old(lastVideoTime) ==> lastVideoTime == currentTime
      ensures ready && currentTime != old(lastVideoTime) && |detect(currentTime).faceLandmarks| == 0 ==>
        !faceDetected && !eyesDetected && detectedEmotion == Neutral && hairColor == Unknown &&
        frameRequested
      ensures ready && currentTime != old(lastVideoTime) && |detect(currentTime).faceLandmarks| > 0 ==>
        var lm := detect(currentTime).faceLandmarks[0];
        faceDetected &&
        (|lm| <= 109 ==>
          !frameRequested && eyesDetected == old(eyesDetected) &&
          detectedEmotion == old(detectedEmotion) && hairColor == old(hairColor)) &&
        (|lm| > 109 ==>
          frameRequested && eyesDetected == EyesFound(lm) &&
          detectedEmotion == DetectedEmotion(detect(currentTime)) &&
          hairColor == HairFromBrightness(
            Brightness(Tally(seq(4, k requires 0 <= k < 4 => sample(HairPoints(lm, videoWidth, videoHeight)[k]))))))
      ensures old(Valid()) && frameRequested ==> Valid()
    {
      if !ready || currentTime == lastVideoTime {
        return;
      }
      lastVideoTime := currentTime;
      var results := detect(currentTime);
      if |results.faceLandmarks| == 0 {
        faceDetected, eyesDetected := false, false;
        detectedEmotion, hairColor := Neutral, Unknown;
        return;
      }
      faceDetected := true;
      var lm := results.faceLandmarks[0];
      if |lm| <= 109 {
        // Reading a missing hair landmark throws: the frame loop ends here.
        frameRequested := false;
        return;
      }
      var pts := HairPoints(lm, videoWidth, videoHeight);
      var samples := seq(4, k requires 0 <= k < 4 => sample(pts[k]));
      var avg := GetAverageColor(samples);
      hairColor := HairFromBrightness(avg);
      eyesDetected := EyesFound(lm);
      detectedEmotion := DetectedEmotion(results);
    }
  }
}
