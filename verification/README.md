# Networked texture demo: state, cadence, change detection and buffer layout

This project models the deterministic core of an Allolib "networked texture"
example. A primary node owns a plain-data `TextureState` (animation time,
rotation angle, an RGB8 texture buffer, an update flag and a frame counter).
The transport copies it whole to secondary nodes. Every node then decides,
from the frame counter alone, whether to submit the texture bytes to its
local GPU texture.

The Dafny modules follow the program's structure:

- `Layout` (`layout.dfy`): the byte offset `(y * W + x) * 3 + c` of every
  pixel channel, its inverse, and the facts that the offsets are in bounds,
  distinct and cover the buffer.
- `Generator` (`generator.dfy`): clamping to [0, 1] and truncation to a
  byte. It also holds the functional description `Texture` of the generated
  buffer and the nested-loop method `GenerateTextureData`. The colour formulas
  are a `Shader` parameter: an arbitrary pure function from the inputs and
  the pixel coordinates to three reals.
- `SharedState` (`shared_state.dfy`): the `TextureState` record, the state
  effect of `generateTextureData` (`Regenerate`) and the primary's
  initialisation in `onCreate`.
- `Authority` (`authority.dfy`): the primary branch of `onAnimate` (time,
  angle with a single wrap, counter, regeneration every 30th frame), the
  reset command, and runs of many frames.
- `ChangeDetection` (`change_detection.dfy`): the `lastFrameCounter`
  sentinel. The function-local static becomes the `last` field of an explicit
  per-node `Consumer`. The consumer also records the bytes submitted to the
  local texture and counts the submits.
- `App` (`app.dfy`): roles, `onCreate`, `onAnimate`, `onKeyDown`, the
  wholesale delivery of snapshots to a secondary, and end-to-end scenarios.

Modelling choices:

- `float` and `double` are `real`, and `int` is unbounded.
- `W` and `H` are parameters (`Dims`). Every layout fact holds for all sizes,
  including zero, and not only for 1080.
- C++ `%` truncates toward zero and Dafny's is Euclidean. The model only
  asks whether `frameCounter % 30 == 0`, and that test agrees under both
  semantics for every integer.
- The transport is reduced to `Deliver`, which replaces a secondary's state
  with a complete snapshot. Dropped or duplicated deliveries are sequences of
  snapshots with repeated or missing counters.
- `distributedTexture.submit` is the consumer's `shown` bytes plus its
  `submits` count.

## Model

| member | source | states |
|---|---|---|
| Layout.Size | src/main.cpp:31 | the buffer holds three bytes per pixel: its size is a multiple of 3 whose third is `W*H` |
| Layout.Index | src/main.cpp:93 | an offset divided by three is the row-major pixel number `y*W+x`, and its remainder is the channel |
| Layout.IndexInBounds | src/main.cpp:91-93 | every offset `(y*W+x)*3+c` written for an in-range pixel and channel lies below `W*H*3` |
| Layout.IndexInjective | src/main.cpp:91-93 | distinct (x, y, channel) triples are written at distinct offsets |
| Layout.PosOfIndex | src/main.cpp:91-93 | decoding the offset of an in-range position gives that position back |
| Layout.IndexOfPosOf | src/main.cpp:31 | every offset of the `W*H*3` buffer is the offset of some in-range position, so no byte is left unwritten |
| Generator.Clamp01 | src/main.cpp:123-125 | a clamped channel lies in [0, 1]; values already in range are kept, negatives become 0 and values above 1 become 1 |
| Generator.Quantise | src/main.cpp:123-129 | the stored byte lies in [0, 255] and is the truncation of the clamped channel times 255 |
| Generator.QuantiseTop | src/main.cpp:123-129 | a byte is 255 exactly when the channel is at least 1 |
| Generator.QuantiseBottom | src/main.cpp:123-129 | a byte is 0 exactly when the channel is below 1/255, negative channels included |
| Generator.QuantiseMonotone | src/main.cpp:123-129 | a brighter channel never gives a smaller byte |
| Generator.TexturePixel | src/main.cpp:91-129 | the byte at a pixel's channel offset is that pixel's quantised colour channel |
| Generator.GenerateTextureData | src/main.cpp:86-131 | the nested loops overwrite the previous buffer in place, and the result is exactly the described texture, whatever the buffer held before; the offsets are written in the order 0, 1, 2, …, so each byte exactly once and none outside the buffer |
| SharedState.Regenerate | src/main.cpp:86-134 | regeneration replaces the whole buffer with the texture of the current time, angle and counter, raises the flag, and leaves time, angle and counter alone |
| SharedState.RegenerateIgnoresOldTexture | src/main.cpp:86-134 | the regenerated state depends only on time, angle and counter |
| SharedState.PrimaryInit | src/main.cpp:76-83 | after primary initialisation time, angle and counter are 0, the flag is raised and the buffer holds the texture for (0, 0, 0) |
| Authority.Advance | src/main.cpp:143-154 | one primary frame adds dt to time and 1 to the counter, wraps the angle by one subtraction of 360, and regenerates exactly when the new counter is a multiple of 30; otherwise buffer and flag are unchanged |
| Authority.AdvanceZeroStep | src/main.cpp:145-150 | with dt = 0, time and an in-range angle are unchanged while the counter still increments |
| Authority.AngleStaysInRange | src/main.cpp:146-147 | an angle in [0, 360) stays there when one frame turns by at least 0 and less than 360 degrees |
| Authority.LongFrameLeavesRange | src/main.cpp:146-147 | a frame turning 720 degrees from 0 leaves the angle at 360: the single subtraction is no full modulo |
| Authority.CadenceBoundaries | src/main.cpp:150-153 | counters 29→30 and 59→60 regenerate, with the texture for the new time, angle and 30; 0→1 and 30→31 do not |
| Authority.Reset | src/main.cpp:224-229 | reset zeroes time, angle and counter and keeps buffer and flag |
| Authority.RunCounts | src/main.cpp:145-153 | over n frames the counter grows by n, time by the sum of the frame durations, and regenerations equal the number of multiples of 30 passed |
| Authority.RunAngleInRange | src/main.cpp:146-147 | frames that each turn by less than 360 degrees keep the angle in [0, 360) throughout |
| Authority.ResetRestartsCadence | src/main.cpp:224-229 | after a reset, 29 frames bring no regeneration and the 30th brings exactly one |
| ChangeDetection.Start | src/main.cpp:158 | a fresh consumer has submitted nothing, still shows the freshly created texture, and holds the sentinel -1 |
| ChangeDetection.Observe | src/main.cpp:158-161 | a submit happens exactly when the counter differs from the last applied one; afterwards `last` equals the counter |
| ChangeDetection.FirstObservationSubmits | src/main.cpp:158-161 | a fresh consumer submits the first state it sees, for any non-negative counter |
| ChangeDetection.ObserveSameCounterOnce | src/main.cpp:159 | observing the same counter twice in a row submits at most once, even if the bytes changed meanwhile |
| ChangeDetection.ConsumeAllCountsChanges | src/main.cpp:158-161 | over any sequence of observed states, submits equal the number of counter changes, and `last` ends at the final counter |
| ChangeDetection.DuplicatesSubmitOncePerCounter | src/main.cpp:158-161 | the counter sequence [0, 0, 1, 1, 1, 2] gives exactly 3 submits |
| App.OnCreate | src/main.cpp:76-83 | the primary starts with zero time, angle and counter, the flag raised and a full-size buffer holding the texture generated for (0, 0, 0); a secondary keeps its state |
| App.OnAnimate | src/main.cpp:142-169 | a secondary's state is never changed; the primary's state is exactly one `Advance` frame on (clock and counter step, single angle wrap, regeneration at multiples of 30); every node submits exactly when the counter differs from its last one, and then shows the state's bytes |
| App.OnKeyDown | src/main.cpp:218-237 | on the primary '2' zeroes time, angle and counter without touching the texture, ' ' regenerates without touching time, angle or counter; other keys and all keys on a secondary change nothing |
| App.InitEstablishesPrimaryInvariant | src/main.cpp:76-83 | after primary initialisation the counter is non-negative, the flag is raised and the buffer has full size |
| App.AnimatePreservesPrimaryInvariant | src/main.cpp:142-154 | a primary frame keeps the counter non-negative, the flag raised and the buffer full-size |
| App.KeyPreservesPrimaryInvariant | src/main.cpp:218-237 | no key clears the flag, makes the counter negative or resizes the buffer |
| App.PrimaryFrameShowsOwnTexture | src/main.cpp:142-161 | on the primary, a frame after an animated frame submits, and then shows the bytes of its own state, including bytes forced by ' ' in between |
| App.SecondaryOnlyConsumes | src/main.cpp:143-168 | after any sequence of delivered snapshots a secondary holds the last one unchanged, and has submitted once per counter change |
| App.SecondaryDuplicateDeliveries | src/main.cpp:156-161 | a fresh secondary fed counters [0, 0, 1, 1, 1, 2] submits exactly 3 times |
| App.FirstFrameAtSixtyHertz | src/main.cpp:145-151 | from the zeroed primary state one 1/60 s frame gives time 1/60, angle 1.5, counter 1 and no regeneration |

## Left out

- Transport setup and the quit on failure (src/main.cpp:47-54): external library and network I/O.
- Rendering: mesh construction in `onCreate`, `onDraw`, texture creation and filtering. They are GPU calls with no state effect on `TextureState`.
- The colour formulas (src/main.cpp:95-120). They are sine, cosine, atan2 and square-root floating-point numerics. They are the `Shader` parameter, so every fact above holds for any colour function. Determinism follows from purity.
- Console output, `main` and window configuration.
- `onKeyDown` always returns `true`. The return value has no state effect, so the model does not carry it.
- `frameCounter` overflow of 32-bit `int`, IEEE rounding of `time` and `angle`, and NaN channels (`fmax`/`fmin` of a NaN): the model uses unbounded `int` and exact `real`.
- Authority.AngleStaysInRange: the angle bound is guaranteed when `0 <= dt * 90 < 360`, which the source does not check. Longer or negative frames can leave [0, 360), as `Authority.LongFrameLeavesRange` shows. Some of them stay inside, such as a frame of exactly 4 seconds from angle 0. The model keeps the single subtraction rather than a full modulo.
- Concurrent reads of the state by the transport while the primary mutates it: the code contains no concurrency to model. Every delivery is a complete snapshot.
