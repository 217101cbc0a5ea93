# Interactive lines background, modelled in Dafny

`script.js` animates a full-window canvas of drifting points. Points closer than
`maxDistance` are joined by gradient lines. The mouse pulls nearby points towards
it. A small panel shows the line count and the frame rate, and holds controls,
a "reset" button and a "random preset" button. All of this lives in one class,
`InteractiveLinesBackground`.

This project models the part of that class that decides what gets drawn. The
canvas, the DOM and the browser loop are removed.

- `Background.InteractiveLinesBackground` holds the object's fields: canvas size,
  `points`, `mouse`, `connectionCount`, `fps`, `frameCount`, `lastTime` and
  `config`.
  - Its methods are `createPoints`, `updatePoints`, `drawLines`, `updateStats`,
    `resetToDefaults` and `randomPreset`, plus one `animate` frame.
  - Each method changes only the fields its `modifies` clause names.
  - Each method is proved against a specification function.
- `Kinematics` is one frame of one point.
  - First comes the Euler step, then the velocity flip, then the clamp
    (`Integrate`).
  - Then comes the mouse pull (`Pull`).
  - `Seeded` builds the point set.
- `Connections` defines the lines one `drawLines` call draws: `DrawnLines`, built
  row by row as the nested loops visit the pairs i < j. It proves what that
  sequence contains.
- `FrameStats` is the frame-rate counter as a state machine (`Tick`), including
  `Math.round`.
- `Colour` is `hexToRgba`. It models `String.prototype.slice` and
  `parseInt(s, 16)` faithfully: leading white space, sign, `0x` prefix, longest
  digit run, NaN.
- `Presets` holds the default configuration, the six random palettes and the
  mapping from random draws to settings.
- `Randomness` treats the sequence of `Math.random()` results as a stream
  `rand: nat -> real`. The k-th draw an operation makes is `rand(k)`.

## Environment and known behaviour

- **Parameters for the environment.**
  - `performance.now()` is the parameter `now`.
  - `Math.sqrt` is a parameter `sqrt: real -> NonNeg`. A property that needs it
    to be exact says so: `IsSqrt` means exact everywhere, and `IsRootAt` means
    exact at one value.
  - `Math.cos(Math.atan2(dy, dx))` and `Math.sin(...)` are taken as exactly
    `dx / d` and `dy / d`, and as `(1, 0)` when `d = 0`, because
    `atan2(0, 0) = 0`.
- **Bounds after a step.** The clamp at script.js:251-252 is there to keep every
  point on the canvas, `[0, width] x [0, height]`. But the mouse pull at
  script.js:258-262 runs *after* the clamp, so the bounds hold at the clamp
  (`Kinematics.Integrate`), not at the end of `updatePoints`. The model follows
  the code:
  - the end-of-step guarantee is the weaker `NearCanvas`, which allows 2 pixels
    of slack (`Kinematics.StepNearCanvas`);
  - `Kinematics.PullCanLeaveCanvas` gives a concrete point that ends a step off
    the canvas.

## Model

| member | source | states |
|---|---|---|
| Colour.ParseHexDigits | script.js:342-344 | parseInt(s, 16) of a non-empty string of hex digits is the number the digits denote (no white space, sign or 0x prefix applies) |
| Colour.ParsePair | script.js:342-344 | two hex digits parse to the byte 16 * digit(hi) + digit(lo), which is at most 255 |
| Colour.DecodeChannel | script.js:342-344 | the slice at k, k + 2 of a string whose characters k and k + 1 are hex digits decodes to their byte |
| Colour.DecodeHexColour | script.js:341-346 | when characters 1-6 are hex digits, hexToRgba gives exactly (byte(1,2), byte(3,4), byte(5,6), alpha), each byte in 0..255 |
| Colour.HexColourChannels | script.js:341-346 | a "#RRGGBB" colour decodes to three integer channels in 0..255, and alpha passes through |
| Colour.ChannelBounded | script.js:342-344 | for any string at all, each channel is NaN or an integer in -255..255, because a slice of at most two characters is parsed |
| Colour.MalformedChannel | script.js:342 | a colour whose second character is not a digit, white space or sign has a NaN red channel |
| Colour.HexRoundTrip | script.js:341-346 | hexToRgba inverts hex formatting: "#rrggbb" written from (r, g, b) decodes to (r, g, b) |
| Colour.HexValueBound | script.js:342-344 | k hex digits denote a number below 16^k |
| Kinematics.Clamp | script.js:251-252 | Math.max(0, Math.min(hi, v)) lies in [0, hi], is v inside the range, 0 below it and hi above it |
| Kinematics.Integrate | script.js:245-252 | after the Euler step, flip and clamp, the point is inside [0, w] x [0, h] whatever its velocity; speed magnitudes are kept; an axis that stayed inside moved by its velocity with the velocity kept |
| Kinematics.VelocityFlip | script.js:248-249 | a velocity component changes exactly when it is non-zero and its integrated coordinate is < 0 or > the edge; it is then negated |
| Kinematics.FlipTurnsInward | script.js:245-249 | a point on the canvas that crosses an edge leaves the phase with its velocity pointing back inside |
| Kinematics.ForceRange | script.js:259 | for 0 <= d < radius the force (radius - d) / radius is in (0, 1], and is 1 exactly at d = 0 |
| Kinematics.ForceDecreasing | script.js:259 | the force strictly falls as the distance grows |
| Kinematics.Pull | script.js:254-263 | the pull never changes the velocity, and leaves a point at or beyond the influence radius where it is |
| Kinematics.PullLength | script.js:254-263 | inside the radius the pull moves the point by a distance 2 * force, so by at most 2 pixels |
| Kinematics.PullTowardsMouse | script.js:258-262 | inside the radius the point moves along the line to the mouse, towards it; under the cursor it moves right by 2 * force |
| Kinematics.StepNearCanvas | script.js:243-265 | with an exact square root, after a full step every point is within 2 pixels of the canvas |
| Kinematics.SteppedNearCanvas | script.js:243-265 | the same for every point of the set, and the set keeps its size |
| Kinematics.PullCanLeaveCanvas | script.js:251-263 | a point at x = 98.5 on a 100-pixel canvas, pulled by a cursor at x = 99, ends the step at x > 100 |
| Kinematics.SeededPush | script.js:53-59 | one more turn of the seeding loop appends the point from the next four draws |
| Kinematics.SeededShape | script.js:51-61 | with draws in [0, 1), createPoints makes max(pointCount, 0) points, each on the canvas (before its far edges) with velocity components in [-speed/2, speed/2) |
| Connections.ConnectedBySquares | script.js:283-287 | with the square root exact at the pair, distance < maxDistance is the same as dx * dx + dy * dy < maxDistance^2 |
| Connections.OpacityRange | script.js:289 | for 0 <= d < maxDistance the opacity lies in (0, lineOpacity], and is lineOpacity at d = 0 |
| Connections.OpacityDecreasing | script.js:289 | closer pairs get strictly more opaque lines |
| Connections.LoopDistance | script.js:281-285 | the loop's Math.sqrt(dx * dx + dy * dy) is the pair's distance |
| Connections.DrawPair | script.js:287-289 | one inner-loop turn: appending the pair's line when it is close enough, and nothing otherwise, extends the row by pair (i, j) |
| Connections.LinesBeforeStep | script.js:278-279 | one outer-loop turn appends the lines of row i |
| Connections.RowLinesShape | script.js:279-288 | the lines of row i are in increasing j, all in row i, each drawn for its own close pair, at most j - i - 1 of them |
| Connections.RowLinesComplete | script.js:279-288 | every close pair (i, k) of the row has its line in the row |
| Connections.LinesBeforeShape | script.js:278-288 | after i rows the lines are in visiting order, from rows below i, each for its own close pair, and at most i (2n - i - 1) / 2 of them |
| Connections.LinesBeforeComplete | script.js:278-288 | every close pair in the visited rows has its line among them |
| Connections.DistinctPairs | script.js:278-279 | lines in visiting order join distinct pairs |
| Connections.DrawnLinesSpec | script.js:276-306 | drawLines draws one line for each pair i < j closer than maxDistance and no other, once each and in visiting order; there are at most n (n - 1) / 2 and none for fewer than two points |
| Connections.DrawnCount | script.js:277-288 | connectionCount is the number of close pairs, at most n (n - 1) / 2, and 0 for fewer than two points |
| Connections.DrawnOpacity | script.js:287-289 | every drawn line has opacity in (0, lineOpacity] |
| FrameStats.Round | script.js:353 | Math.round(x) is the integer n with n - 0.5 <= x < n + 0.5 |
| FrameStats.TickSpec | script.js:350-359 | the window closes exactly when now - lastTime >= 1000; then the count restarts at now and fps is within 0.5 of frames * 1000 / elapsed and between 0 and the frame count; otherwise only frameCount grows, by one |
| FrameStats.RateBound | script.js:352-353 | over a window of at least 1000 ms, F frames give a rate in [0, F] |
| FrameStats.InsideWindow | script.js:350-352 | frames that fall inside the open window only add to the count |
| FrameStats.TickAllConcat | script.js:348-364 | running the ticks of a then the ticks of b is running the ticks of a + b |
| FrameStats.WindowCloses | script.js:350-356 | when the window closes at the last of a run of frames, fps is the rounded rate of all the frames of that window and a new window opens at the last frame |
| FrameStats.SixtyFrames | script.js:350-356 | 60 frames, the 60th exactly 1000 ms after the window opened, show 60 fps |
| Presets.Pick | script.js:207-211 | Math.floor(u * n) of a draw u in [0, 1) is an index in 0 .. n - 1, the integer part of u * n |
| Presets.RandomConfigRanges | script.js:207-216 | a random preset has 40..159 points, a distance of 100..299, an influence of 80..229, a speed in [0.3, 2.3), a width in [0.5, 3.5), one of the six palettes, and the old opacity and point size |
| Presets.RandomPaletteChoice | script.js:198-207 | the palette is the one whose index k in 0..5 satisfies k <= 6u < k + 1 for the first draw u |
| Presets.ConfigColoursDecode | script.js:198-205 | every preset and default colour is "#RRGGBB", so every gradient stop decodes to channels in 0..255 |
| Presets.PalettesAreHex | script.js:198-205 | every colour of the six random palettes is a "#RRGGBB" colour |
| Presets.DefaultIsHex | script.js:22-26 | the default colours are "#RRGGBB" colours |
| Presets.DefaultPrimary | script.js:23 | the default primary colour decodes to (0, 212, 255) |
| Presets.DefaultSecondary | script.js:24 | the default secondary colour decodes to (0, 153, 204) |
| Presets.DefaultAccent | script.js:25 | the default accent colour decodes to (0, 102, 255) |
| Randomness.SkipUnit | script.js:219 | what is left of a stream of draws in [0, 1) is again such a stream |
| Background.InteractiveLinesBackground.constructor | script.js:3-30 | the mouse at the window centre, zero counters, lastTime = now, the default configuration, and the 80 points createPoints seeds on the window-sized canvas |
| Background.InteractiveLinesBackground.CreatePoints | script.js:51-61 | the point set becomes Seeded(rand, pointCount, ...): exactly max(pointCount, 0) points, point i from draws 4i .. 4i + 3; nothing else changes |
| Background.InteractiveLinesBackground.UpdatePoints | script.js:243-265 | every point is replaced in place by its Step; with an exact square root every point ends within 2 pixels of the canvas |
| Background.InteractiveLinesBackground.DrawLines | script.js:276-306 | connectionCount is reset and ends as the number of close pairs (at most n (n - 1) / 2, 0 below two points); the lines returned are DrawnLines, in drawing order |
| Background.InteractiveLinesBackground.UpdateStats | script.js:348-364 | the counter fields take one Tick at now and stay non-negative |
| Background.InteractiveLinesBackground.ResetToDefaults | script.js:178-195 | the configuration becomes exactly the constructor's defaults and the 80 points are reseeded |
| Background.InteractiveLinesBackground.RandomPreset | script.js:197-220 | the configuration is RandomConfig of the first six draws, and the points are reseeded from the draws that follow |
| Background.InteractiveLinesBackground.Frame | script.js:366-378 | one animate frame: points stepped, then the lines and count of the new positions, then one Tick |

## Left out

- Canvas drawing is not modelled. That covers `drawPoints`, the gradient and
  stroke calls of `drawLines`, `drawMouseConnection` with its glowing cursor and
  pulse ring (`Date.now()`), and `clearRect` in `render`. These are pixel output
  with no state effect; a drawn line is recorded as a `Line` value.
- DOM and event wiring is not modelled: the resize handler that `setupCanvas`
  installs, `setupEventListeners`, `setupControls` (including the speed rescale through
  `atan2`/`cos`/`sin`), `updateControlValues`, and the `textContent` writes of
  `updateStats`. These are user-interface glue. The mouse position is a field
  that callers may set.
  The canvas's initial sizing in `setupCanvas` is modelled: the constructor
  sets the width and height to the window's inner size.
- `requestAnimationFrame` scheduling is not modelled. `Frame` is one `animate`
  call. The constructor stops before the first frame that `init` would start.
- Floating point is not modelled. Coordinates, velocities, opacities and times
  are exact reals, `Math.sqrt` is a parameter and the pull direction is exact.
- The text of the `rgba(...)` string, including how `alpha` and `-0` are printed,
  is not modelled. `Rgba` carries the parsed channels and the alpha value.
- Strings are sequences of characters; UTF-16 surrogate pairs are not modelled.
- Kinematics.PullLength: assumes the square root is exact at the one squared
  distance it is applied to. The model needs this, the program does not: the
  model's pull direction divides (dx, dy) by the `sqrt` parameter's result.
  In script.js:260-262 the direction (cos, sin) of atan2(dy, dx) has length 1
  whatever `distance` holds. So the 2-pixel displacement bound needs the
  hypothesis only in the model.
- Kinematics.PullTowardsMouse: has the same exactness hypothesis as PullLength.
- Background.InteractiveLinesBackground.UpdatePoints: gives the end-of-step
  2-pixel bound only when `sqrt` is exact.
- Kinematics.StepNearCanvas: states the weaker `NearCanvas` bound, because the
  code pulls the point after the clamp.
