# Photono: zoom/pan gestures and log line formatting, in Dafny

Photono is an iOS photo browser. This project models two of its parts and proves properties of them.

- **The zoom modifier** (`Zoomable`, in `zoomable.dfy`). The modifier keeps four pieces of state: the scale shown, the scale committed by the last gesture (`lastScale`), the pan offset shown, and the pan offset committed by the last drag (`lastOffset`). Five gesture callbacks update them:
  - a pinch changes the shown scale to `lastScale` times the magnification;
  - a finished pinch commits the scale, resets everything when the scale is below 1.0, and caps it at 3.0 when it is above;
  - a drag pans only while the view is zoomed (scale above 1.0), relative to the committed offset;
  - a finished drag commits the offset;
  - a double-tap resets a zoomed view to the identity and zooms an unzoomed one to 2.0.

  The class `ZoomableModifier` holds the four fields and has one method per callback, each updating the fields in place. Each method is specified by a transition function on the value `ZoomState`. `Run` applies a sequence of callbacks, and the lemmas about `Run` state what holds after any interleaving of gestures.
- **The log line builder** (`Log`, in `log.dfy`). A log call builds the line `[[<raw value of the severity>]] <file name>:<line> <function> - <message>`. The file name is the last path component of the caller's file path. The severities are `ERROR`, `WARN`, `INFO` and `DEBUG`. The severity defaults to info, and the optional error argument plays no part in the line.

The code clamps a finished pinch at 3.0. There is no clamp while the pinch is in progress and no limit on how far the view can be panned. The model follows the code in all three respects. `PansAccumulate` shows that pans add up without bound.

A pinch can end at exactly 1.0 after the view was panned while zoomed. The pan offset is then kept: `MagnificationEnded` leaves the offsets alone when the scale is at least 1.0. The view stays shifted, and since `DragChanged` pans only above 1.0, a drag cannot move it back. `PanSurvivesPinchEndingAtOne` exhibits such a sequence of events. This is how the code behaves. Whether the authors intended it is not clear, so it is recorded as a property rather than as a defect.

`lastPathComponent` is a Foundation method, and Foundation is not part of this model. `LastPathComponent` follows that method's documented behaviour: trailing slashes are ignored, the root path `/` is its own last component, the empty path yields the empty string, and otherwise the result is what follows the final slash. Swift renders the `Int` line number in decimal, with a leading `-` when it is negative. `IntToString` models that rendering.

## Model

| member | source | states |
|---|---|---|
| `Zoomable.MagnificationChanged` | Photono/Components/ZoomableModifier.swift:24-26 | the shown scale becomes the committed scale times the magnification; the committed scale and both offsets are unchanged |
| `Zoomable.MagnificationEnded` | Photono/Components/ZoomableModifier.swift:27-40 | afterwards 1.0 <= scale <= 3.0 and the committed scale equals it, from any state; below 1.0 the whole state is the identity; at 1.0 or above both offsets are kept; above 3.0 the scale is 3.0; within [1.0, 3.0] the scale is kept |
| `Zoomable.DragChanged` | Photono/Components/ZoomableModifier.swift:42-49 | the scales and the committed offset never change; the state changes only if the view is zoomed; when zoomed, the shown offset minus the committed offset equals the translation on each axis |
| `Zoomable.DragEnded` | Photono/Components/ZoomableModifier.swift:50-52 | the committed offset becomes the shown offset; the shown offset and both scales are unchanged |
| `Zoomable.DoubleTap` | Photono/Components/ZoomableModifier.swift:55-67 | a zoomed view (scale > 1.0) becomes the identity; otherwise both scales become 2.0 and both offsets are kept |
| `Zoomable.IdentityInRange` | Photono/Components/ZoomableModifier.swift:12-15 | the initial state (scales 1.0, zero offsets) keeps the committed-scale invariant and is not zoomed |
| `Zoomable.StepInRange` | Photono/Components/ZoomableModifier.swift:24-67 | each of the five callbacks keeps the committed scale within [1.0, 3.0] |
| `Zoomable.RunInRange` | Photono/Components/ZoomableModifier.swift:24-67 | any sequence of callbacks keeps the committed scale within [1.0, 3.0] |
| `Zoomable.ReachableInRange` | Photono/Components/ZoomableModifier.swift:12-67 | in every state reachable from the initial one, the committed scale is within [1.0, 3.0] |
| `Zoomable.RunAppend` | Photono/Components/ZoomableModifier.swift:21-67 | applying two sequences of callbacks in turn is the same as applying their concatenation |
| `Zoomable.SettledScaleInRange` | Photono/Components/ZoomableModifier.swift:27-67 | after any history, a finished pinch or a double-tap leaves a shown scale within [1.0, 3.0] that equals the committed scale |
| `Zoomable.DragsDoNotPanUnzoomed` | Photono/Components/ZoomableModifier.swift:41-52 | from an unzoomed state, any sequence of drag callbacks leaves the shown offset and both scales unchanged |
| `Zoomable.ScaleStaysPositive` | Photono/Components/ZoomableModifier.swift:24-40 | if every magnification is positive, the shown scale stays positive through any sequence of callbacks |
| `Zoomable.MagnificationEndedIdempotent` | Photono/Components/ZoomableModifier.swift:27-40 | ending a pinch twice gives the same state as ending it once |
| `Zoomable.DragEndedIdempotent` | Photono/Components/ZoomableModifier.swift:50-52 | ending a drag twice gives the same state as ending it once |
| `Zoomable.DoubleTapTwiceFromIdentity` | Photono/Components/ZoomableModifier.swift:55-67 | from the initial state, one double-tap zooms to 2.0 and a second returns to the initial state |
| `Zoomable.DoubleTapTwice` | Photono/Components/ZoomableModifier.swift:55-67 | two double-taps reset an unzoomed view to the identity and leave a zoomed one centred at 2.0 |
| `Zoomable.PansAccumulate` | Photono/Components/ZoomableModifier.swift:42-52 | while zoomed, two complete drags commit the old offset plus both translations, with no bound on the distance |
| `Zoomable.PanSurvivesPinchEndingAtOne` | Photono/Components/ZoomableModifier.swift:27-49 | a pan made while zoomed survives a pinch that ends at exactly 1.0; the view is then unzoomed but still displaced |
| `Zoomable.ZoomableModifier.constructor` | Photono/Components/ZoomableModifier.swift:12-15 | a new modifier has scale and committed scale 1.0 and zero offsets |
| `Zoomable.ZoomableModifier.OnMagnificationChanged` | Photono/Components/ZoomableModifier.swift:24-26 | sets the scale field to the committed scale times the magnification and leaves the other three fields; with the invariant (committed scale at least 1.0), a positive magnification gives a positive scale; the new state is `MagnificationChanged` of the old |
| `Zoomable.ZoomableModifier.OnMagnificationEnded` | Photono/Components/ZoomableModifier.swift:27-40 | the new field values in each of the three branches (reset below 1.0, cap above 3.0, commit otherwise); the new state is `MagnificationEnded` of the old |
| `Zoomable.ZoomableModifier.OnDragChanged` | Photono/Components/ZoomableModifier.swift:42-49 | when zoomed, the offset field becomes the committed offset plus the translation; otherwise nothing changes; the new state is `DragChanged` of the old |
| `Zoomable.ZoomableModifier.OnDragEnded` | Photono/Components/ZoomableModifier.swift:50-52 | the committed offset field becomes the offset and nothing else changes; the new state is `DragEnded` of the old |
| `Zoomable.ZoomableModifier.OnDoubleTap` | Photono/Components/ZoomableModifier.swift:55-67 | a zoomed view is reset to the identity; otherwise the scales become 2.0 and the offsets are kept; the new state is `DoubleTap` of the old |
| `Log.RawValue` | Photono/Helpers/Log.swift:10-15 | every raw value is a non-empty upper-case word, so it holds no `]` |
| `Log.FromRawValue` | Photono/Helpers/Log.swift:10-15 | a string that is recognised maps to the severity with exactly that raw value; an unrecognised string is the raw value of no severity |
| `Log.RawValueRoundTrip` | Photono/Helpers/Log.swift:10-15 | every severity is recovered from its raw value |
| `Log.RawValues` | Photono/Helpers/Log.swift:10-15 | the raw values are exactly "ERROR", "WARN", "INFO" and "DEBUG", and no two severities share one |
| `Log.TrimTrailingSlashes` | Photono/Helpers/Log.swift:25 | the result is a prefix of the path that ends in no slash unless it is "/"; everything removed is slashes; a non-empty path leaves a non-empty result |
| `Log.AfterLastSlash` | Photono/Helpers/Log.swift:25 | the result is the longest slash-free suffix of the path: it is a suffix, holds no slash, and is preceded by a slash unless it is the whole path |
| `Log.LastPathComponent` | Photono/Helpers/Log.swift:25 | the file name holds no slash unless it is "/"; a non-empty path made only of slashes has file name "/"; a slash-free path is its own file name; for a non-empty path without a trailing slash, the file name is the slash-free suffix after the final slash |
| `Log.LastPathComponentIgnoresTrailingSlash` | Photono/Helpers/Log.swift:25 | appending a slash to a non-empty path does not change its file name |
| `Log.LastPathComponentOfJoin` | Photono/Helpers/Log.swift:25 | the file name of a directory, a slash and a slash-free name is that name |
| `Log.NatToString` | Photono/Helpers/Log.swift:26 | a non-negative number renders as a non-empty string of decimal digits with no leading zero |
| `Log.NatToStringRoundTrip` | Photono/Helpers/Log.swift:26 | reading back the decimal rendering of a natural number gives that number |
| `Log.IntToString` | Photono/Helpers/Log.swift:26 | the line number renders as decimal digits with a leading `-` exactly when it is negative |
| `Log.IntToStringRoundTrip` | Photono/Helpers/Log.swift:26 | reading back the rendering of any integer gives that integer |
| `Log.FormattedMessage` | Photono/Helpers/Log.swift:17-26 | the line starts with `[[`, the raw value and `]] `, and ends with ` - ` followed by the message |
| `Log.ErrorIsIgnored` | Photono/Helpers/Log.swift:20-26 | the line is the same whatever error is passed |
| `Log.DefaultIsInfo` | Photono/Helpers/Log.swift:19-20 | a call that names neither severity nor error logs at info with no error |
| `Log.FileNameInLine` | Photono/Helpers/Log.swift:25-26 | for a path `dir/name`, the line continues after the severity with `name:<line> ` |
| `Log.LogTypeRoundTrip` | Photono/Helpers/Log.swift:26 | the severity is read back from between the opening and closing brackets of any line built |

## Left out

- Animation: `withAnimation(.spring())` and the rendering modifiers `.scaleEffect` and `.offset` are presentation. The model records only the final values each callback assigns.
- Simultaneous gestures: the pinch and drag recognisers run at the same time. Their callbacks are modelled as interleaved, one at a time, on a single thread, which is how the UI runs them.
- `CGFloat` rounding: scales and offsets are exact reals, so floating-point rounding in `lastScale * value` is not modelled.
- Gesture values: the magnification and the translation are parameters. The recognisers that produce them are outside the model. `ScaleStaysPositive` assumes positive magnifications, as a pinch reports a ratio of distances.
- The debug `print` of the log line under `#if DEBUG` is output. The model builds the line and does not print it.
- `#file`, `#function` and `#line` are filled in by the compiler at each call site. The model takes them as ordinary parameters.
- `Log.FormattedMessage`: its contract states the start and the end of the line. The file-and-line part is stated by `FileNameInLine`. The function name in the middle is stated only through the body.
- `Log.LastPathComponent`: Foundation's method is not part of this model. This definition follows its documented behaviour for `/`-separated paths and does no further normalisation (such as `~` or `.` components).
- The views, the photo library and music services, and the photo asset records are layout, framework calls and concurrency. They contain none of the logic modelled here.
