# Portfolio site rules, modelled in Dafny

This project models the deterministic rules inside a Next.js portfolio site and proves
properties of them. Each component or flow is a Dafny module. `src/app/page.tsx` yields two: the
home page and the embedded prototype script. The two server actions share the modules for
strings, data URIs and file naming. The modules are:

- **TextScramble**: the scramble effect. Frames are built from a half-step counter. Positions
  below the counter show the text, and the others show one of the four block glyphs.
  The run stops on the frame that equals the text.
- **Typewriter**: the typing effect. The display grows one character per tick as a prefix of
  the text, and the cursor shows while the display is shorter than the text.
- **Noise**: `generateNoise`. It fills an RGBA byte buffer four bytes per pixel. Which colour
  channels get the noise depends on the colour mode, and alpha is fixed.
- **EyeTracking**: the eye-tracking console. It picks an emotion from blendshape scores,
  averages the brightness of opaque pixel samples and classifies the hair tone. It also
  computes the face box and the eyes flag, and implements the per-frame update with its
  reset when no face is found.
- **StackSimulation**: the falling tech-stack widget. It covers badge sizes, spawn points,
  colours, the four walls, what a resize moves, and the mount and cleanup of the resize
  listener.
- **StackTilt**: the tilt-to-gravity flow. It has a sine-and-clamp branch and a fixed
  fallback.
- **HomePage**: the home page. It covers section navigation, the CV avatar flag, the visible
  navigation buttons, service dispatch with upper-cased toast titles, the header GIF, the
  eye-tracking console and the full-screen prototype.
- **Prototype**: the script embedded in the UI/UX prototype page. It covers the category tabs
  (exactly one active), the popups and overlay, and the language display on cards and
  profiles.
- **DataUri**, **ImageUpload**, **Actions** and **SitevActions**: the two `saveImage` server
  actions. They cover payload extraction after the last `;base64,`, the empty-payload
  refusal, the timestamped file name, the `sitev` variant's JPEG re-encoding, and the
  guarantee that the action never throws.
- **JsString**: the JavaScript string operations the others rely on: `split` with a string
  separator, `join` and `pop`.

Randomness, the clock, `Math.sin`, base64 decoding, image re-encoding, the blob store, the
face detector and canvas pixel reads are parameters of the functions and methods that use
them. Numbers are mathematical reals or integers. Where the stored value is a byte, the
conversion is written out: `Uint8ClampedArray` clamps, then rounds half to even.

Where the code and its own descriptions disagree, the model follows the code:

- The tilt flow's input schema lets both tilts be missing even when orientation is reported.
  The code then reads them with a non-null assertion, so a missing tilt yields a NaN gravity
  component, not a finite one (`StackTilt.GravityFiniteExactlyWithTilts`).
- The tilt flow never asks for a re-simulation. The unused prompt text beside it asks for a
  re-simulation with random gravity when orientation is missing. The code instead answers
  the fixed gravity (0, 1) with `shouldResimulate` false (`StackTilt.TiltControlledGravity`).
- A window resize moves only the floor and the right wall. It resizes no wall and leaves the
  ceiling at its mount-time position (`StackSimulation.WideningLeavesFloorShort`).
- A tick that reaches `iteration == length` emits a frame equal to the text. The frame one
  half-step earlier already shows every character, so a run emits 2·length + 1 frames.

## Model

| member | source | states |
|---|---|---|
| JsString.IndexOfFrom | src/app/actions.ts:8 | The index found is an occurrence of the separator at or after the start, with none between. Finding nothing means no occurrence at all from the start on. |
| JsString.Split | src/app/actions.ts:8 | `split` with a non-empty separator always yields at least one piece. |
| JsString.Pop | src/app/actions.ts:8 | `pop` gives `undefined` exactly for an empty array, and otherwise the last element. |
| JsString.SplitPieces | src/app/actions.ts:8 | No piece of a split contains the separator. |
| JsString.SplitJoin | src/app/actions.ts:8 | Joining the pieces with the separator gives back the input. |
| JsString.LastPieceAfterLastSeparator | src/app/actions.ts:8 | The last piece is a separator-free suffix of the input. A separator ends right before it, or, when there is none, the piece is the whole input. |
| JsString.JoinSplit | src/app/page.tsx:134-142 | With a one-character separator that no piece contains, splitting the joined pieces returns the pieces. |
| DataUri.Payload | src/app/actions.ts:8 | The payload is the value `pop` returns for the split on `;base64,`, and that value is always defined. |
| DataUri.PayloadAfterLastMarker | src/app/actions.ts:8 | The payload is the marker-free text after the last `;base64,`, or the whole input when there is no marker. |
| DataUri.PayloadEmpty | src/app/actions.ts:8-11 | The payload is empty exactly when the input is empty or ends with `;base64,`. |
| ImageUpload.Caught | src/app/actions.ts:23-26 | The `catch` turns every thrown failure into a null file path and passes an uploaded URL through. |
| ImageUpload.FileName | src/app/actions.ts:14 | The file name is decimal digits followed by `.jpg`. |
| ImageUpload.DecimalRoundTrip | src/app/actions.ts:14 | Reading the timestamp's decimal notation back gives the timestamp. |
| ImageUpload.FileNameInjective | src/app/actions.ts:14 | Different timestamps give different file names. |
| Actions.SaveImage | src/app/actions.ts:6-27 | It never throws. It answers a URL exactly when the payload is non-empty and the upload of the decoded payload under `${now}.jpg` succeeds, and the URL is the store's. Otherwise it answers null. |
| Actions.InvalidDataUriExactly | src/app/actions.ts:8-11 | 'Invalid data URI' is thrown exactly for an empty input or one ending in the marker. |
| SitevActions.SaveImage | sitev/src/app/actions.ts:7-35 | Same as the main action, with the quality-80 JPEG re-encoding as an extra step that can fail. Any failure answers null. |
| StackTilt.Clamp | src/ai/flows/dynamic-stack-tilt.ts:57-58 | The result lies in [-1, 1], equals the input when it is in range, and saturates outside it. |
| StackTilt.ClampIdempotent | src/ai/flows/dynamic-stack-tilt.ts:57-58 | Clamping twice is clamping once. |
| StackTilt.ClampMonotoneAndSignPreserving | src/ai/flows/dynamic-stack-tilt.ts:57-58 | Clamping keeps order and sign. |
| StackTilt.Component | src/ai/flows/dynamic-stack-tilt.ts:54-58 | A component is NaN exactly when its tilt is missing. Otherwise it is the clamped sine of the tilt in radians. |
| StackTilt.TiltControlledGravity | src/ai/flows/dynamic-stack-tilt.ts:52-69 | With orientation, each component is computed from its own tilt. Without orientation the result is the fixed (0, 1). `shouldResimulate` is never set. |
| StackTilt.GravityFiniteExactlyWithTilts | src/ai/flows/dynamic-stack-tilt.ts:52-69 | Finite components lie in [-1, 1]. The schema makes both tilts optional, and the answer is finite exactly when orientation is missing or both tilts are given. |
| StackTilt.RightAngleIsFullScale | src/ai/flows/dynamic-stack-tilt.ts:53-60 | A 90° sideways tilt gives gravity (1, 0). |
| StackTilt.InRangeSineIsKept | src/ai/flows/dynamic-stack-tilt.ts:54-58 | With a left-right tilt, gravityX is finite. An in-range sine passes through unchanged, and a positive tilt sine gives a positive gravityX. |
| StackSimulation.Badges | src/components/stack-simulation.tsx:60-83 | There is one badge per stack item, 14 in all, in order. Badge k is coloured `colors[k mod 6]`. |
| StackSimulation.BadgeSize | src/components/stack-simulation.tsx:61-62 | Every badge is 24 high and `6·length + 16` wide, so at least 16 wide. |
| StackSimulation.ColorsCycle | src/components/stack-simulation.tsx:72 | Badges six apart share a colour, and neighbours differ. |
| StackSimulation.SpawnInRange | src/components/stack-simulation.tsx:64-65 | The spawn y lies in [0, H/2). If W ≥ width, the spawn x lies in [width/2, W − width/2], strictly below the upper end when W > width. |
| StackSimulation.SpawnBadgeInRange | src/components/stack-simulation.tsx:63-67 | The same spawn bounds, for a single badge. |
| StackSimulation.WallsFor | src/components/stack-simulation.tsx:53-56 | The floor sits at y = H, the ceiling at y = 0, the left wall at x = 0 and the right wall at x = W. |
| StackSimulation.Repositioned | src/components/stack-simulation.tsx:131-132 | A resize leaves the left wall and the ceiling untouched and changes no wall size. |
| StackSimulation.RepositionMatchesFreshCentres | src/components/stack-simulation.tsx:127-133 | After a resize, the floor and right-wall centres are those a fresh build for the new size would have. |
| StackSimulation.WideningLeavesFloorShort | src/components/stack-simulation.tsx:127-133 | After widening, the floor no longer spans the scene and the ceiling is off-centre. |
| StackSimulation.StackWidget.constructor | src/components/stack-simulation.tsx:26-27 | Nothing runs and no listener is attached. Gravity is the library default. |
| StackSimulation.StackWidget.Mount | src/components/stack-simulation.tsx:29-135 | Gravity is set to 0.6. With a scene element, the canvas size, walls and badges are built and the listener is attached. Without one, nothing else changes. |
| StackSimulation.StackWidget.WindowResized | src/components/stack-simulation.tsx:127-133 | The canvas takes the new size and the walls are repositioned. Badges and everything else stay the same. |
| StackSimulation.StackWidget.Cleanup | src/components/stack-simulation.tsx:137-145 | The world is stopped and emptied, and the resize listener is removed. Gravity, canvas size, walls and badges stay as they were. |
| TextScramble.Frame | src/components/text-scramble.tsx:25-33 | A frame is as long as the text. Positions with index < iteration hold the text's character, and the rest hold one of "█▓▒░". |
| TextScramble.RevealTick | src/components/text-scramble.tsx:28-42 | Take a position whose character is not a glyph. Its frame shows that character exactly from tick 2i + 1 on, whatever glyphs were drawn, and never hides it again. |
| TextScramble.StopFrameIsText | src/components/text-scramble.tsx:37-40 | Tick 2·length is the first to stop, and its frame equals the text. |
| TextScramble.EarlyFramesDiffer | src/components/text-scramble.tsx:25-40 | Before tick 2·length − 1, a frame is never the text while its last character is hidden. |
| TextScramble.TextScrambleWidget.constructor | src/components/text-scramble.tsx:7-11 | Starts holding the text prop, with an empty current text, not revealed, not on the client, and no interval. |
| TextScramble.TextScrambleWidget.Scramble | src/components/text-scramble.tsx:17-24 | Hides the cursor, replaces any running interval and restarts the counter at 0. |
| TextScramble.TextScrambleWidget.Mount | src/components/text-scramble.tsx:13-61 | Mounting marks the client. That starts a scramble at once and schedules a second one after the 500 ms delay. |
| TextScramble.TextScrambleWidget.InitialDelayElapsed | src/components/text-scramble.tsx:55 | When the delay fires, the run restarts: the cursor is hidden, the counter is back at 0 and the interval is live. |
| TextScramble.TextScrambleWidget.SetText | src/components/text-scramble.tsx:46-51 | A re-render with the same text changes nothing, because the effect's dependencies are unchanged. A different text is stored, and on the client it restarts the scramble; off the client nothing else changes. |
| TextScramble.TextScrambleWidget.Tick | src/components/text-scramble.tsx:24-43 | Emits the frame for the counter. At the stop tick it clears the interval and reveals. The counter then grows by one half. |
| TextScramble.TextScrambleWidget.RunInterval | src/components/text-scramble.tsx:24-43 | A fresh run emits exactly 2·length + 1 frames, each the frame for its counter. It ends on the text, revealed, with the interval cleared. |
| TextScramble.TextScrambleWidget.Unmount | src/components/text-scramble.tsx:56-59 | Unmounting clears both the pending delay and the interval. |
| TextScramble.TextScrambleWidget.View | src/components/text-scramble.tsx:63-72 | Before client mount the plain text is rendered. The cursor shows only once revealed. |
| Typewriter.TypedAfterIsPrefix | src/components/typewriter.tsx:20-24 | After k ticks the display is the prefix of length min(k, length). |
| Typewriter.TypedAfterBounds | src/components/typewriter.tsx:21-26 | The display never exceeds the text, is short exactly before tick `length`, and equals the text from then on. |
| Typewriter.CursorWhileTyping | src/components/typewriter.tsx:45 | The display is shorter than the text exactly while it differs from the text. |
| Typewriter.TypewriterWidget.constructor | src/components/typewriter.tsx:7-8 | Starts holding the text prop, with an empty display and no client, timer or interval. |
| Typewriter.TypewriterWidget.StartEffect | src/components/typewriter.tsx:14-19 | On the client with a non-empty text, the display is reset to empty and the start is scheduled. Otherwise nothing happens. |
| Typewriter.TypewriterWidget.CleanupEffect | src/components/typewriter.tsx:33 | The pending start and the interval are cancelled. |
| Typewriter.TypewriterWidget.Mount | src/components/typewriter.tsx:10-12 | Mounting marks the client and runs the effect. |
| Typewriter.TypewriterWidget.SetText | src/components/typewriter.tsx:14-34 | A re-render with the same text changes nothing, because the effect's dependencies are unchanged. A different text cleans up the old run and starts the effect again. |
| Typewriter.TypewriterWidget.StartTyping | src/components/typewriter.tsx:19-21 | The interval starts with i = 0 and an empty display. |
| Typewriter.TypewriterWidget.Tick | src/components/typewriter.tsx:21-28 | While i < length, it appends `text.charAt(i)` and increments i. Otherwise it stops, with the display equal to the text. |
| Typewriter.TypewriterWidget.TypeAll | src/components/typewriter.tsx:20-28 | A run takes length + 1 ticks and ends with the whole text displayed and i = length. |
| Typewriter.TypewriterWidget.View | src/components/typewriter.tsx:36-47 | The server render is an empty span. Afterwards the display is shown, with the cursor iff it is shorter than the text. |
| Noise.ClampedByte | src/components/ui/shadcn-io/noise.tsx:50 | A Number is stored as 0 at or below 0 and 255 at or above 255, and otherwise as the byte within 0.5 of it. |
| Noise.Pixel | src/components/ui/shadcn-io/noise.tsx:48-70 | Each step writes four bytes. |
| Noise.NoiseImage | src/components/ui/shadcn-io/noise.tsx:45-71 | The image has four bytes per pixel. |
| Noise.NoiseImageAt | src/components/ui/shadcn-io/noise.tsx:45-71 | Byte r of pixel p sits at index 4p + r. |
| Noise.PixelBytes | src/components/ui/shadcn-io/noise.tsx:45-71 | Bytes 4p to 4p + 3 are pixel p's bytes. |
| Noise.ChannelsByMode | src/components/ui/shadcn-io/noise.tsx:48-70 | Red mode writes (v, 0, 0), blue (0, 0, v), green (0, v, 0) and white (v, v, v). Alpha is always patternAlpha. |
| Noise.AlphaEverywhere | src/components/ui/shadcn-io/noise.tsx:70 | Every byte at an index ≡ 3 (mod 4) holds the alpha. |
| Noise.NoiseBytes | src/components/ui/shadcn-io/noise.tsx:46 | One stored byte per draw, each within 0.5 of its draw. |
| Noise.NoiseImageSnoc | src/components/ui/shadcn-io/noise.tsx:45-71 | One more pixel appends its four bytes to the image. |
| Noise.WritePixel | src/components/ui/shadcn-io/noise.tsx:48-70 | One step writes pixel i's four bytes and changes nothing before them. |
| Noise.WriteNoise | src/components/ui/shadcn-io/noise.tsx:45-71 | The loop leaves the whole buffer equal to the noise image. |
| Noise.GenerateNoise | src/components/ui/shadcn-io/noise.tsx:38-74 | Fails exactly when the canvas has a zero side, where `createImageData` throws. Otherwise it produces a fresh buffer of 4·w·h bytes holding the noise image of the draws. |
| EyeTracking.Candidates | src/components/eye-tracking-modal.tsx:211 | Keeps exactly the categories that name a table entry and score above 0.5. |
| EyeTracking.CandidatesAppend | src/components/eye-tracking-modal.tsx:211 | Filtering keeps order. The candidates of a concatenation are each part's candidates, in turn. |
| EyeTracking.TopIsEarliestMaximum | src/components/eye-tracking-modal.tsx:210-212 | The first element of the stable descending sort is, in the blendshape list, the earliest qualifying category with a maximal score. |
| EyeTracking.SortedFirst | src/components/eye-tracking-modal.tsx:212 | The stable descending sort's first element has a maximal score and is the earliest with that score. |
| EyeTracking.ProminentEmotion | src/components/eye-tracking-modal.tsx:207-216 | NEUTRAL exactly when no category qualifies. Otherwise the table's emotion of the qualifying category with maximal score that comes earliest among equal scores. |
| EyeTracking.NoTableEntryIsNeutral | src/components/eye-tracking-modal.tsx:30-39 | The table maps only to HAPPY, SAD or ANGRY. |
| EyeTracking.TieGoesToEarliest | src/components/eye-tracking-modal.tsx:210-214 | Of two equal qualifying scores, the earlier category decides. |
| EyeTracking.ThresholdIsStrict | src/components/eye-tracking-modal.tsx:211 | A score of exactly 0.5 does not count. |
| EyeTracking.Tally | src/components/eye-tracking-modal.tsx:106-116 | Counts at most one per sample. Channel sums are at most 255 per counted sample. The count is 0 exactly when no sample is opaque. |
| EyeTracking.Brightness | src/components/eye-tracking-modal.tsx:117-118 | null exactly when nothing was counted. |
| EyeTracking.GetAverageColor | src/components/eye-tracking-modal.tsx:105-119 | The loop computes the brightness of the opaque samples' totals. It is null iff no sample has alpha > 0. |
| EyeTracking.BrightnessIsMeanInRange | src/components/eye-tracking-modal.tsx:105-118 | With some opaque sample, the average is the mean over opaque samples of (r+g+b)/3 and lies in [0, 255]. |
| EyeTracking.BrightnessOfTotals | src/components/eye-tracking-modal.tsx:117-118 | For a positive count with channel sums at most 255 per sample, the brightness is (r+g+b)/(3·count), within [0, 255]. |
| EyeTracking.MeanInByteRange | src/components/eye-tracking-modal.tsx:118 | A channel mean lies in [0, 255]. |
| EyeTracking.HairFromBrightness | src/components/eye-tracking-modal.tsx:179-184 | LIGHT iff the brightness is > 128. DARK iff it is ≤ 128, including exactly 128. UNKNOWN iff it is null. |
| EyeTracking.Least | src/components/eye-tracking-modal.tsx:164-165 | `Math.min` over the landmarks is a lower bound that some landmark attains. |
| EyeTracking.Greatest | src/components/eye-tracking-modal.tsx:166-167 | `Math.max` over the landmarks is an upper bound that some landmark attains. |
| EyeTracking.FaceBox | src/components/eye-tracking-modal.tsx:164-167 | The face box has non-negative width and height. An empty landmark list has no finite box. |
| EyeTracking.HairPoints | src/components/eye-tracking-modal.tsx:173-177 | Four sample points, at landmarks 10, 109, 67 and 103, scaled to pixels and moved up by 5 % of the height. |
| EyeTracking.EyesFound | src/components/eye-tracking-modal.tsx:187-205 | The eyes flag holds iff landmarks 473 and 468 both exist. |
| EyeTracking.DetectedEmotion | src/components/eye-tracking-modal.tsx:207-217 | With no blendshapes the emotion is NEUTRAL. Otherwise it is the first face's prominent emotion. |
| EyeTracking.FaceTracker.constructor | src/components/eye-tracking-modal.tsx:11 | Opening the console shows nothing detected. The last video time is the module-level value the previous session left, or −1 on the page's first load. |
| EyeTracking.FaceTracker.ProcessFrame | src/components/eye-tracking-modal.tsx:122-228 | Detection runs only for a new video time, which is then recorded. With no face, all flags reset. A face sets the face flag. With too few landmarks the handler throws and the loop stops. Otherwise hair, eyes and emotion are updated. |
| HomePage.NavButtons | src/app/page.tsx:440-442 | main shows CV, PROJECTS and CONTACT. cv shows .., PROJECTS and CONTACT. projects shows .. only. |
| HomePage.NavTarget | src/app/page.tsx:366-370 | '..' leads to main and CV/PROJECTS lead to their sections. CONTACT keeps the section. |
| HomePage.VisibleButtonTargets | src/app/page.tsx:366-370 | For every visible button: '..' is shown exactly off the main page, and each button's click target is as stated. |
| HomePage.MainOneClickAway | src/app/page.tsx:440-442 | From every section, a visible button leads to main. |
| HomePage.UpperChar | src/app/page.tsx:214 | The result is never a lower-case letter, and only lower-case letters change. |
| HomePage.ToUpper | src/app/page.tsx:214 | Upper-casing maps each character on its own and keeps the length. |
| HomePage.ToUpperIdempotent | src/app/page.tsx:214 | Upper-casing leaves no lower-case letter and is idempotent. |
| HomePage.ServiceToast | src/app/page.tsx:213-216 | The title is the prompt `C:\> `, then the upper-cased name, then the file type. The description is passed through. |
| HomePage.BotsToast | src/app/page.tsx:244 | The bots service toasts `C:\> БОТЫ.EXE`. |
| HomePage.HomePage.constructor | src/app/page.tsx:195-200 | The page starts on main with every flag off. |
| HomePage.HomePage.View | src/app/page.tsx:378-443 | Shows the full-screen prototype iff it is open. Otherwise shows the section, its nav buttons, the console iff its modal is open, and the header: GIF first, then the avatar. |
| HomePage.HomePage.HandleNavClick | src/app/page.tsx:202-205 | Switches the section. showCvAvatar is true iff the new section is cv. |
| HomePage.HomePage.NavButtonClicked | src/app/page.tsx:366-370 | Moves to the click target. CONTACT only toasts "Раздел в разработке.". |
| HomePage.HomePage.HandleServiceClick | src/app/page.tsx:207-218 | 'CV' opens the console and 'UI/UX' the full-screen prototype. Others only toast. |
| HomePage.HomePage.EyeButtonClicked | src/app/page.tsx:298 | The eye button, shown only on the CV page, opens the console and changes nothing else. |
| HomePage.HomePage.HeaderCardClicked | src/app/page.tsx:411 | Clicking the header card starts the GIF only when it is not already showing. |
| HomePage.HomePage.GifTimerElapsed | src/app/page.tsx:421 | The GIF is hidden again. |
| HomePage.HomePage.CloseCvModal | src/app/page.tsx:405 | Closing the console clears its flag only. |
| HomePage.HomePage.LeavePrototype | src/app/page.tsx:393 | Leaving the prototype clears its flag only. |
| Prototype.ClosedAll | src/app/page.tsx:166-171 | Afterwards no popup and no overlay is shown, and no class is removed. |
| Prototype.ClosedAllIdempotent | src/app/page.tsx:166-171 | Closing everything twice is closing it once. |
| Prototype.Opened | src/app/page.tsx:158-165 | The chosen popup and the overlay are shown, and the other popups are untouched. |
| Prototype.OpenThenCloseHidesAll | src/app/page.tsx:158-171 | After opening a popup, closing everything hides everything. |
| Prototype.PrototypePage.constructor | src/app/page.tsx:50-90 | In the markup's initial state only the first tab is active and everything is hidden. |
| Prototype.PrototypePage.OpenPopup | src/app/page.tsx:158-165 | The popups become `Opened` of the old ones. The tabs are untouched. |
| Prototype.PrototypePage.CloseAllPopups | src/app/page.tsx:166-171 | The popups become `ClosedAll` of the old ones. The tabs are untouched. |
| Prototype.PrototypePage.ClickTab | src/app/page.tsx:180-185 | Afterwards exactly the clicked tab has 'tab-active'. The others lose it and gain the idle classes. |
| Prototype.LangAbbr | src/app/page.tsx:112-130 | 'ru' becomes RUS and 'en' becomes ENG. Any other language gives ''. |
| Prototype.LanguageName | src/app/page.tsx:142 | 'ru' becomes 'Русский'. Anything else becomes 'Английский'. |
| Prototype.ProfileNamesEachLanguage | src/app/page.tsx:134-142 | The languages stored on a card, read back on the profile, name each language in order. |
| Prototype.NoLanguagesReadAsEnglish | src/app/page.tsx:134-142 | An empty language list reads back as 'Английский'. |
| Prototype.BilingualInstructor | src/app/page.tsx:106-142 | ['ru', 'en'] shows "RUS, ENG" on the card and "Русский, Английский" on the profile. |

## Left out

- The physics engine, runner, collision handling, mouse dragging and canvas text drawing of
  the stack widget are left out. They belong to the physics library and work in floating
  point. Only the positions and sizes the widget sets itself are modelled.
- The face-landmarker model, its loading, camera permission, `drawImage`, the eye and face
  box drawing, and the animation-frame loop's scheduling are left out. These are machine
  learning and I/O. Detections and pixel samples are parameters, and readiness is a flag.
- `getImageData` at fractional coordinates is not modelled. The browser's rounding of the
  sample point is inside the sampler parameter.
- `Math.sin` is a parameter, and floating-point rounding of the tilt and of the
  brightness average is not modelled; both use reals.
- The language-model prompt defined beside the tilt flow is left out. The flow never calls
  it.
- `Math.random` is left out. Noise values, glyph choices and spawn fractions are
  parameters within their ranges.
- Timers and React's effect scheduling are not modelled. Each tick, timeout or effect run is
  one method call.
- Typewriter: the `speed` and `delay` props are not fields. Changing either re-runs the
  effect and restarts the run, and the model does not capture that; the page passes
  constants for both.
- Typewriter: the state updater reads `i` lazily. So does the typing interval. The cleanup
  returned from inside the timeout callback is discarded. The model takes the eager reading
  and cancels the interval on cleanup.
- Noise.ClampedByte: NaN, which `Uint8ClampedArray` stores as 0, is not modelled. Draws are
  finite reals in [0, 255), and patternAlpha is a finite real.
- `Buffer.from` base64 decoding, the `sharp` JPEG encoder and the blob store are
  parameters. Logging to the console is left out.
- The China-time clock (`toLocaleTimeString`), the page markup and styling, and the
  prototype's HTML strings are left out.
- Prototype.LangAbbr: a language code that names a property every object inherits (such as
  `toString`) would render that property's text. Only own keys are modelled.
- HomePage.ToUpper: only ASCII letters and the Cyrillic block U+0430–U+045F are
  upper-cased. Other scripts, and letters whose upper case is longer (such as ß), are not
  modelled.
- EyeTracking.FaceBox: an empty landmark list gives a box at ±Infinity in the source. The
  model reports it as `None`.
- EyeTracking.SortedFirst: the whole sorted array is not built. Only its first element is
  modelled, which is all the code reads.
- Text is a sequence of Unicode scalar values, while JavaScript's `length`, `split("")` and
  `charAt` count UTF-16 code units. Frame counts, tick counts and typed prefixes are
  therefore modelled only for text in the Basic Multilingual Plane, which covers all of the
  site's text.
- The canvas's integer width and height are parameters. How assigning the bounding
  rectangle's fractional size truncates them is not modelled.
- Class lists are modelled as sets, so the order of class tokens is not captured.
- The prototype's instructor list rendering, profile screen markup and rating stars are left
  out. They are markup and hover styling.
