# slowpoke turtle core in Dafny

A verified model of the sequential core of the `slowpoke` turtle-graphics
crate. It covers three pieces:

- **Pose state machine** (`src/generate.rs`, `Generate.dfy` on top of
  `Affine.dfy`). A `CurrentTurtleState` keeps a 2x3 affine transform and an
  unbounded heading in degrees. `apply` turns each draw request into at most
  one draw command:
  - a motion emits a line between the rounded positions before and after it;
  - a rotation emits nothing;
  - pen colour, fill colour and pen width are forwarded as they are;
  - every other instantaneous request does nothing.

  `Step` is `apply` on values. The class method `Apply` updates the fields
  in place and is proved to agree with `Step`. The lemmas state what `Step`
  promises.
- **Colour conversions** (`src/color_names.rs`, `Colors.dfy`): `#rrggbb`
  parsing with its two panics, the first-match lookup in the colour-name
  table, the `CurrentColor` fallback, the range-checked float triples, the
  byte triple, and RGBA arrays in both directions.
- **Animation bookkeeping** (`src/lib.rs`, `Animation.dfy`). This is the
  older crate root. A `TurtleTask` holds:
  - the committed command history;
  - at most one command in flight, with its progress;
  - the pen flag.

  `Update` advances the progress. `Render` replays the history and then the
  command in flight, and commits that command once its progress reaches 1.
  `EventLoop.Receive` is the command handling at the top of each loop turn,
  including the acknowledgements sent back to the drawing thread.

Matrices use the layout given in the comment at `src/lib.rs:28-36`. The
graphics crate's `trans` and `rot_deg` right-multiply by a translation
matrix and a rotation matrix. Cosine and sine are foreign floating-point
code, so they enter as a parameter `Trig`. The trigonometric identities a
lemma needs appear only in that lemma's preconditions. Floats are reals.
`f64::round` (halfway cases away from zero) and the truncating `as isize`
are written out.

`apply` is modelled exactly as written in `src/generate.rs`:
- it does not halve the pen width;
- it applies no `180 - h` heading convention;
- its lines carry no pen-down flag, for `Teleport` or any other motion;
- it has no pen, circle, dot, stamp or undo logic.

`ClearScreen` is never stored in the history, because it is handled when it
is received. The stored commands therefore have the type `DrawingCommand`,
which excludes it. This makes the `panic!` arm of `render`
(`src/lib.rs:167`) unreachable by construction.

## Model

| member | source | states |
|---|---|---|
| Affine.MultiplyComposes | src/lib.rs:28-36 | applying the product of two matrices to a point is applying the second, then the first |
| Affine.Trans | src/generate.rs:73 | `trans(x, y)` keeps the linear part and moves the origin to the image of (x, y) |
| Affine.RotDeg | src/generate.rs:92 | `rot_deg` keeps the origin and right-multiplies the linear part by the rotation matrix |
| Affine.RotateThenReverse | src/generate.rs:91-98 | rotating by a and then by -a gives back the same matrix, wherever cosine is even, sine is odd and cos² + sin² = 1 at a |
| Affine.RotateByZero | src/generate.rs:99-101 | a rotation by 0 degrees changes nothing when cos 0 = 1 and sin 0 = 0 |
| Affine.Round | src/generate.rs:61-62 | `round` is within 1/2 of its input, and a halfway case goes away from zero |
| Affine.Truncate | src/generate.rs:42 | `as isize` drops the fraction toward zero |
| Affine.TruncateNearRound | src/generate.rs:40-44 | the truncated coordinate is within 1 of the rounded one and never farther from zero |
| Generate.DefaultPose | src/generate.rs:46-53 | the default state maps every point to itself and has heading 0 |
| Generate.RoundedPoint | src/generate.rs:60-64 | each rounded coordinate is within 1/2 of the translation column |
| Generate.Placed | src/generate.rs:76 | `identity().trans(x, y).rot_deg(angle)` has origin exactly (x, y) and is the rotation by `angle` |
| Generate.Step | src/generate.rs:66-125 | motions keep the heading and return a line from the rounded position before to the rounded position after; rotations return nothing and keep the position; instantaneous requests keep the pose |
| Generate.TeleportPlacesAt | src/generate.rs:75-77 | `Teleport(x, y)` and `GoTo(x, y)` behave the same, put the origin at exactly (x, y), rebuild the rotation from the stored heading and keep the heading |
| Generate.SetCoordinateKeepsOther | src/generate.rs:78-85 | `SetX(v)` moves to (v, old y) and `SetY(v)` moves to (old x, v) |
| Generate.ForwardAdvances | src/generate.rs:72-74 | `Forward(d)` keeps the linear part and moves the origin by d times the transform's first column |
| Generate.RightThenLeft | src/generate.rs:91-98 | `Right(a)` adds a to the heading and `Left(a)` subtracts it; one after the other restore the heading, and the whole pose where the trigonometric identities hold at a |
| Generate.SetHeadingTwice | src/generate.rs:99-102 | `SetHeading(h)` stores h; repeating it rotates by 0 degrees, which changes nothing when a zero turn is the identity |
| Generate.InstantaneousForwarding | src/generate.rs:105-124 | pen colour, fill colour and pen width are forwarded unchanged, nothing else returns a command, and no instantaneous request changes the pose |
| Generate.StepLinks | src/generate.rs:69-103 | a step either adds a line from the old rounded position to the new one, or leaves the rounded position where it was |
| Generate.PathIsConnected | src/generate.rs:66-125 | for any request sequence, each emitted line starts where the previous one ended, the first at the start position and the last at the final position |
| Generate.CurrentTurtleState.constructor | src/generate.rs:46-53 | a fresh state is the default pose |
| Generate.CurrentTurtleState.PosF | src/generate.rs:34-38 | the float position is the image of the origin |
| Generate.CurrentTurtleState.PosI | src/generate.rs:40-44 | the integer position is within 1 of `get_point` and never farther from zero |
| Generate.CurrentTurtleState.GetPoint | src/generate.rs:60-64 | `get_point` is within 1/2 of the float position |
| Generate.CurrentTurtleState.Apply | src/generate.rs:66-125 | the in-place update of transform and heading and the returned command are exactly what `Step` gives for the old pose |
| Colors.Channel | src/color_names.rs:97 | a byte over 255 lies in [0, 1] and times 255 gives the byte back |
| Colors.FromBytes | src/color_names.rs:95-99 | a byte triple is always a colour with channels in [0, 1] that scale back to the bytes |
| Colors.Default | src/color_names.rs:9-13 | the default colour is black, the colour of the bytes (0, 0, 0) |
| Colors.FromFloatTriple | src/color_names.rs:67-93 | a float triple is a colour with the same channels exactly when all three lie in [0, 1], ends included, and `CurrentColor` otherwise |
| Colors.FromArray | src/color_names.rs:15-19 | an RGBA array becomes the colour of its first three entries |
| Colors.ToArray | src/color_names.rs:21-28 | a colour becomes an opaque array that reads back as the same colour; `CurrentColor` is the `todo!` failure |
| Colors.ArrayRoundTrip | src/color_names.rs:15-28 | array to colour to array keeps r, g, b and sets alpha to 1 |
| Colors.HexDigits | src/color_names.rs:50 | a string has a hexadecimal value exactly when every character is a digit, and the value is below 16 to the length |
| Colors.FromStrRadix16 | src/color_names.rs:50 | `u32::from_str_radix(_, 16)` only yields values below 2^32 |
| Colors.FirstMatch | src/color_names.rs:57-61 | the lookup returns the first entry with exactly the given name, or none when no entry has it |
| Colors.FromName | src/color_names.rs:46-64 | only a `#` string can fail, and every colour produced has channels in [0, 1] |
| Colors.SplitBytes | src/color_names.rs:52-54 | the shifts and masks recover the three bytes of a 24-bit value |
| Colors.HexChannels | src/color_names.rs:48-55 | `#` followed by six hex digits gives the colour of the digit pairs in red, green, blue order |
| Colors.HexRoundTrip | src/color_names.rs:48-55 | reading the `#rrggbb` spelling of any byte triple gives that triple's colour |
| Colors.HexFailure | src/color_names.rs:50-51 | a `#` string panics exactly when it is shorter than seven bytes or bytes 1 to 6 are not an optional `+` followed by hex digits |
| Colors.HexIgnoresTail | src/color_names.rs:50 | anything after byte 6 of a `#` string is ignored |
| Colors.NameLookup | src/color_names.rs:57-61 | a name that is in the table gives the colour of its first entry, the bytes over 255 |
| Colors.UnknownNameIsCurrentColor | src/color_names.rs:63 | a name that is in no entry gives `CurrentColor` and never an error |
| Colors.SpotCheckHex | src/color_names.rs:48-55 | `#ff0000` is pure red and `#ff00` is too short |
| Colors.SpotCheckNames | src/color_names.rs:103-128 | `black` is the default colour, and `AliceBlue` and `alice blue` are the same colour |
| Colors.SpotCheckUnknownNames | src/color_names.rs:57-63 | names are matched exactly, so `aliceblue` and an unknown name give `CurrentColor` |
| Animation.GetRotation | src/lib.rs:199-207 | `Right(d)` turns by d, `Left(d)` by -d, and every other command by 0 |
| Animation.DrawEffect | src/lib.rs:153-166 | replaying one command keeps the heading, sets the pen only for pen commands, and appends a stroke of `dist * pct` at the current transform exactly for a forward move with the pen down |
| Animation.ReplayHeading | src/lib.rs:128-135 | the replay heading is the start heading plus the turns of all committed commands |
| Animation.ReplayPen | src/lib.rs:162-163 | after a replay the pen is where the last `PenUp` or `PenDown` left it, or where it started |
| Animation.ReplayLengths | src/lib.rs:154-158 | a replay draws exactly the forward moves made while the pen is down, at full length and in order |
| Animation.UpdatesComplete | src/lib.rs:181-185 | with a positive frame time, progress reaches 1 once the frames cover the remaining progress |
| Animation.CompleteStays | src/lib.rs:181-185 | once progress is at least 1, later updates leave it unchanged |
| Animation.CommitKeepsPicture | src/lib.rs:138-151 | committing a finished command does not change the strokes, the final transform or the pen of a replay started from the same pen |
| Animation.PenLeaksAcrossFrames | src/lib.rs:155-163 | after a line and `PenUp`, the frame that commits `PenUp` draws the line, and the next frame, started from the pen left up, draws nothing |
| Animation.TurtleTask.constructor | src/lib.rs:58-66 | a new task has no history, no command in flight, progress 0 and the pen down |
| Animation.TurtleTask.Update | src/lib.rs:181-185 | progress grows by dt * 30 only while it is below 1 |
| Animation.TurtleTask.Render | src/lib.rs:112-169 | the strokes, turtle transform and pen are those of the replay of the history and then of the command in flight at min(percent, 1); the command is appended once and cleared exactly when that progress is at least 1; progress and earlier history are unchanged |
| Animation.TurtleTask.Fetch | src/lib.rs:132-142 | the next replayed command is the next one of the history, with its turn added to the heading, or else the command in flight at its capped progress, which ends the replay |
| Animation.TurtleTask.Perform | src/lib.rs:153-166 | the transform, pen and strokes after one replayed command are those of `Draw` |
| Animation.TurtleTask.RenderFreshPen | src/lib.rs:112-169 | as `Render`, but every replay starts with the pen down |
| Animation.EventLoop.constructor | src/lib.rs:58-66 | the loop starts with a fresh task and nothing pending |
| Animation.EventLoop.Receive | src/lib.rs:79-96 | `ClearScreen` empties the history and is acknowledged at once; any other command goes in flight at progress 0 and is pending; a pending command is acknowledged exactly when nothing is in flight |
| Animation.ForwardIsAcknowledged | src/lib.rs:79-104 | a forward move gets no reply while in flight and one reply after a frame commits it to the history |

## Left out

- Floating point: `f64` and `f32` values are reals, so rounding error, the `f32` narrowing in the float-triple conversions and infinities or NaN are not modelled.
- Generate.CurrentTurtleState.GetPoint: the saturation of `as isize` at the bounds of a 64-bit integer is not modelled, because coordinates are unbounded integers.
- Generate.CurrentTurtleState.PosI: the same saturation is not modelled.
- Sine and cosine come from the graphics crate, as does its degree-to-radian conversion. They are the parameter `Trig` and are not computed.
- Affine.RotateThenReverse: restoration is proved only where cosine and sine obey the usual identities at the angle, which exact floating-point sine and cosine do not.
- Generate.RightThenLeft: the whole pose is restored only under those same identities; the heading is restored unconditionally.
- Generate.SetHeadingTwice: the second turn is a rotation by 0 degrees, and is the identity only where cos 0 = 1 and sin 0 = 0.
- The request enums are declared from their uses in `src/generate.rs`, because `src/command.rs` is not part of this model. `apply` ignores the payloads of `Dot`, `Stamp` and `Fill`, so their types are placeholders.
- `Angle` and `PosF` are plain reads of the state.
- The 760 rows of `COLOR` are not copied: the lookup takes the table as a parameter. The spot checks use seven rows in table order.
- The conversion to `iced::Color` (`src/color_names.rs:31-44`) targets a foreign type.
- Hex parsing is modelled on characters, while the source slices bytes. Both accept the same strings and give the same colour. For a non-ASCII string the model may report the other of the two panic kinds.
- The window, the OpenGL calls, the spawned script thread and the channels are not modelled. `render` reports the strokes it would draw, plus the final transform where the turtle marker is drawn. Acknowledgements are counted rather than sent.
- The position sent with each acknowledgement and its computation (`src/lib.rs:171-174`) are not modelled, and neither is the window size.
- The event-loop driver (`src/lib.rs:78`, `98-104`) only picks `render` or `update` for each window event. `Receive`, `Render` and `Update` are separate methods for a caller to run in that order.
- `TurtleTask::run` is empty. `src/draw.rs`, `src/turtle.rs` (channel rendezvous), `src/gui/mod.rs` (signatures only) and the example scripts are not part of this model.

## Findings

| source | as written | input that shows it | evidently intended | confidence | as-written member | corrected member |
|---|---|---|---|---|---|---|
| src/lib.rs:155-163 | every frame replays the whole history, but `is_pen_down` is a field that only pen commands set, so each replay starts from the pen state the previous replay ended with | commit `Forward(10)`, then `PenUp`: the frame that commits `PenUp` draws the line and ends with the pen up, and every later frame replays `Forward(10)` with the pen up and drops the line | each frame redraws the same picture, so every replay starts from the pen a `TurtleTask` is created with (down); with a common starting pen, committing a command does not change the picture (`Animation.CommitKeepsPicture`) | high, not executed | Animation.PenLeaksAcrossFrames | Animation.TurtleTask.RenderFreshPen |
