# Audio wave visualiser: a verified model

This project models the core of a small React audio visualiser. The project has two components.

- **AudioPlayer** is a play/pause switch over an `<audio>` element. It keeps `isPaused`, starts paused, and defaults `loop` to true. It reports transitions to optional `onPlay`/`onPause` observers.
- **Visualizer** gives the player `handleAudioPlay` and `handleAudioPause` as those observers.
  - On play it expands. If no `AudioContext` is held, it builds the analysis graph (context, analyser, media-element source). It then starts a `requestAnimationFrame` loop.
  - Each tick of the loop reads 11 frequency magnitudes. It clears the canvas and fills one bar per magnitude: height `floor(v/2)`, x advancing by `barWidth + 30`, vertically centred. Then it requests the next frame.
  - On pause it collapses and cancels the frame held in `animationFrameRef`.
  - On unmount it closes the context and forgets it. It also cancels the frame handle it captured at mount.

The modules:

- `BarLayout` (bar_layout.dfy) holds the bar geometry of one tick as functions over `int` and `real`. It has lemmas for height, position, centring, non-overlap and the worked example.
- `Visualizer` (visualizer.dfy) has three parts:
  - `VisState` and one step function per event: play, pause, draw, frame tick and cleanup.
  - The invariant `Valid`, and a run over event sequences.
  - The class `Component`. Its methods update the refs, the frame scheduler and the paint log in place. Each method is proved equal to its step function. The bar loop of `draw` is the `FillBars` loop.
- `AudioPlayer` (audio_player.dfy) has two parts:
  - The toggle as a function `Toggle` producing the new state and an ordered list of effects: element calls, observer calls, state updates and console errors. The label, `aria-checked` and the `loop` default sit beside it.
  - The class `Player`. Its `TogglePlayPause` and `Cleanup` methods append those effects to a log.
- `Wiring` (wiring.dfy) composes the two components as the Visualizer renders them. A click runs the toggle and delivers its observer calls to the visualiser. A frame runs a pending callback. Its invariant holds over any sequence of clicks and frames from mount.

How the model abstracts the platform:

- The Web Audio graph is presence flags plus a construction counter and a close counter.
- `requestAnimationFrame` hands out fresh positive handles and keeps a set of pending ones. A frame callback runs only while it is pending.
- The canvas is its size, whether a 2d context is available, and a log of `clearRect`/`fillRect` calls.
- The analyser's output is a parameter: a sequence of bytes, of which the first 11 fill the zero-initialised buffer.
- The play promise is a `Resolved`/`Rejected` parameter, applied at once.
- The fill colour is an opaque string parameter.

## Model

| member | source | states |
|---|---|---|
| BarLayout.FrequencyBuffer | src/Visualizer/Visualizer.tsx:64-67 | The buffer has exactly 11 entries: the analyser's first 11 bins, with any entry the analyser does not supply left at zero. |
| BarLayout.BarHeight | src/Visualizer/Visualizer.tsx:78 | The bar height is the floor of v/2 (2h <= v < 2h+2), so a byte magnitude gives a height in [0, 127]. |
| BarLayout.BarWidth | src/Visualizer/Visualizer.tsx:73 | The bar width is non-negative, and the 11 bars together are 0.15 of the canvas width. |
| BarLayout.BarY | src/Visualizer/Visualizer.tsx:81-82 | The margin above a bar equals the margin below it. |
| BarLayout.Bars | src/Visualizer/Visualizer.tsx:77-86 | The first n fills are exactly the n bars, bar i built from buffer entry i at position i. |
| BarLayout.TickPaint | src/Visualizer/Visualizer.tsx:69-86 | A drawing tick makes 12 calls: first a clearRect of the whole canvas, then 11 fillRects. |
| BarLayout.TickBarHeight | src/Visualizer/Visualizer.tsx:77-78 | Bar i has height floor(buffer[i]/2), which lies in [0, 127]. |
| BarLayout.TickBarPosition | src/Visualizer/Visualizer.tsx:73-85 | Bar i has width canvas.width/11*0.15 and starts at x = i*(barWidth + 30). |
| BarLayout.TickBarCentred | src/Visualizer/Visualizer.tsx:81-82 | Every bar satisfies y0 + height/2 = canvas.height/2. |
| BarLayout.TickBarInsideCanvas | src/Visualizer/Visualizer.tsx:78-82 | On a canvas at least 127 px high, every bar lies vertically inside the canvas. |
| BarLayout.TickBarsDisjoint | src/Visualizer/Visualizer.tsx:79-85 | For i < j, bar i ends strictly before bar j starts, so bars are ordered left to right and never overlap. |
| BarLayout.BarWidthProportional | src/Visualizer/Visualizer.tsx:73 | The bar width is proportional to the canvas width read on that tick. |
| BarLayout.ExampleTick | src/Visualizer/Visualizer.tsx:64-78 | Magnitudes [0,255,128,0,255,0,0,0,0,0,0] give heights [0,127,64,0,127,0,0,0,0,0,0]. |
| Visualizer.Mounted | src/Visualizer/Visualizer.tsx:26-32 | At mount the component is collapsed, has no graph, no frame ref, no pending frame and no paint, and the invariant holds. |
| Visualizer.PlayStep | src/Visualizer/Visualizer.tsx:34-52 | After play the component is expanded, a context is held, and the frame ref names a freshly requested pending frame. An existing graph is reused. At most one graph is built, and exactly one graph is live afterwards. |
| Visualizer.PauseStep | src/Visualizer/Visualizer.tsx:93-98 | After pause the component is collapsed, and the frame the ref names is no longer pending. Nothing else changes. |
| Visualizer.DrawStep | src/Visualizer/Visualizer.tsx:54-88 | Without an analyser, canvas or 2d context, draw changes nothing and does not reschedule. Otherwise it appends exactly the tick's paint and requests exactly one fresh frame. |
| Visualizer.TickStep | src/Visualizer/Visualizer.tsx:54-90 | A tick drops its own handle. If a guard fails it paints nothing and leaves no frame pending in its place. Otherwise it replaces its handle with exactly one fresh handle. It keeps the invariant. |
| Visualizer.CleanupStep | src/Visualizer/Visualizer.tsx:101-112 | Cleanup closes the context only if one is held and then forgets it, so it closes every graph built. It cancels only the frame captured at mount. |
| Visualizer.CleanupStepFixed | src/Visualizer/Visualizer.tsx:101-112 | A cleanup that cancels the frame the ref currently names leaves no frame pending. |
| Visualizer.CleanupIdempotent | src/Visualizer/Visualizer.tsx:104-107 | A second cleanup changes nothing, and in particular closes nothing. |
| Visualizer.CleanupKeepsLoop | src/Visualizer/Visualizer.tsx:102-110 | Because the captured handle is the null of mount time, cleanup cancels no pending frame. |
| Visualizer.RunKeepsValid | src/Visualizer/Visualizer.tsx:38-52 | Any sequence of play, pause and frame events keeps the invariant and closes no context. |
| Visualizer.GraphBuiltAtMostOnce | src/Visualizer/Visualizer.tsx:38-52 | From mount, across any play, pause and frame events before cleanup, the analysis graph is built at most once. |
| Visualizer.Component.constructor | src/Visualizer/Visualizer.tsx:26-32 | The new component is in the mount state, including the frame handle captured by the cleanup effect. |
| Visualizer.Component.HandleAudioPlay | src/Visualizer/Visualizer.tsx:34-91 | The in-place update equals the play step. |
| Visualizer.Component.HandleAudioPause | src/Visualizer/Visualizer.tsx:93-98 | The in-place update equals the pause step. |
| Visualizer.Component.Draw | src/Visualizer/Visualizer.tsx:54-89 | The in-place update (guards, clear, bar loop, reschedule) equals the draw step. |
| Visualizer.Component.FillBars | src/Visualizer/Visualizer.tsx:73-86 | The loop that accumulates x by barWidth + 30 appends exactly the 11 bars. |
| Visualizer.Component.RunFrame | src/Visualizer/Visualizer.tsx:88-90 | Running pending callback h in place equals the tick step. |
| Visualizer.Component.Cleanup | src/Visualizer/Visualizer.tsx:101-112 | The in-place cleanup equals the cleanup step. |
| AudioPlayer.LoopProp | src/AudioPlayer/AudioPlayer.tsx:25 | Looping is on unless the caller passes loop = false. |
| AudioPlayer.Toggle | src/AudioPlayer/AudioPlayer.tsx:34-56 | The state flips exactly when the element exists and either the player pauses or a play resolves. onPlay is called exactly on a resolved play with the observer present, and onPause exactly on a pause with the observer present. Every state update agrees with the final state. |
| AudioPlayer.ToggleWithoutElement | src/AudioPlayer/AudioPlayer.tsx:35-39 | Without an element the toggle leaves the state unchanged. It calls no observer and no element method; it only logs an error. |
| AudioPlayer.PlayResolved | src/AudioPlayer/AudioPlayer.tsx:41-46 | From paused, a resolved play ends playing. The element's play() and onPlay both come before the state update. |
| AudioPlayer.PlayRejected | src/AudioPlayer/AudioPlayer.tsx:41-50 | From paused, a rejected play stays paused. It never calls onPlay, makes no state update, and logs the failure. |
| AudioPlayer.PauseOrder | src/AudioPlayer/AudioPlayer.tsx:51-55 | From playing, onPause comes before the state update, and pausing the element comes last. |
| AudioPlayer.DefaultLabel | src/AudioPlayer/AudioPlayer.tsx:69 | The default label is "Play" exactly when paused and "Pause" exactly when playing. |
| AudioPlayer.ChildrenEl | src/AudioPlayer/AudioPlayer.tsx:68-69 | The builder's result is shown. The default label is shown when there is no builder, or when the builder returns null or undefined. |
| AudioPlayer.AriaChecked | src/AudioPlayer/AudioPlayer.tsx:78 | The switch is checked exactly when the default label is "Pause", that is, when playing. |
| AudioPlayer.Player.constructor | src/AudioPlayer/AudioPlayer.tsx:25-32 | A new player is paused, has the defaulted loop flag, and has recorded no effects. |
| AudioPlayer.Player.TogglePlayPause | src/AudioPlayer/AudioPlayer.tsx:34-56 | The in-place update sets the state and appends the effects that Toggle prescribes, in order. |
| AudioPlayer.Player.Cleanup | src/AudioPlayer/AudioPlayer.tsx:59-66 | On unmount the element is paused whatever the state, provided it existed at mount. |
| Wiring.NotifyToggle | src/Visualizer/Visualizer.tsx:116-120 | Delivering one toggle's effects to the visualiser runs `handleAudioPlay` when a play resolves and `handleAudioPause` when the player pauses. Otherwise it leaves the visualiser unchanged. |
| Wiring.ClickStep | src/AudioPlayer/AudioPlayer.tsx:80 | A click on the switch runs `togglePlayPause` with both observers present. The player's state flips exactly when the element exists and either it pauses or a play resolves. The visualiser's play handler runs exactly on a flip to playing, and its pause handler exactly on a flip to paused. |
| Wiring.ClickKeepsInv | src/Visualizer/Visualizer.tsx:116-120 | A click (play resolved, play rejected, pause, or missing element), with its observer calls delivered, keeps the page invariant. |
| Wiring.FrameKeepsInv | src/Visualizer/Visualizer.tsx:54-90 | A frame tick keeps the page invariant. |
| Wiring.RunPageKeepsInv | src/Visualizer/Visualizer.tsx:116-120 | Any sequence of clicks and frames keeps the page invariant. |
| Wiring.PageGuarantees | src/Visualizer/Visualizer.tsx:116-120 | From mount, after any clicks and frames: at most one graph has been built, and the visualiser is collapsed exactly when the player is paused. At most one frame is pending, the one the ref names, and none while paused. |
| Wiring.UnmountWhilePlayingLeavesFrame | src/Visualizer/Visualizer.tsx:101-112 | After a successful play, unmount closes the context but leaves the scheduled frame pending. That frame then runs once, paints nothing without a canvas, and stops. |
| Wiring.UnmountCancelsNothing | src/Visualizer/Visualizer.tsx:101-112 | In every page reachable from mount by clicks and frames, the cleanup as written closes every graph built but leaves the set of pending frames unchanged. |
| Wiring.UnmountFixedStopsLoop | src/Visualizer/Visualizer.tsx:101-112 | In any reachable page, the corrected cleanup leaves no frame pending and closes exactly the one graph built, if any. |

## Findings

| source | as written | input that shows it | evidently intended | confidence | as-written member | corrected member |
|---|---|---|---|---|---|---|
| src/Visualizer/Visualizer.tsx:102-110 | The cleanup cancels `animationFrame`, the value of `animationFrameRef.current` captured when the mount effect ran. That value is always null. | Mount, click play (resolves), unmount: the frame requested by the play is still pending after cleanup. | Unmount cancels the outstanding frame, the one `animationFrameRef.current` names when the cleanup runs. | high, not executed | Wiring.UnmountWhilePlayingLeavesFrame | Visualizer.CleanupStepFixed |

The leftover frame does little harm. React detaches `canvasRef` on unmount, so the last tick finds no canvas and stops without rescheduling; `UnmountWhilePlayingLeavesFrame` proves this too. The rest of the model keeps the cleanup as written. `Wiring.UnmountCancelsNothing` shows that in every reachable page the cleanup as written leaves every pending frame pending. `Wiring.UnmountFixedStopsLoop` proves that the corrected cleanup leaves no frame pending in every reachable page.

## Left out

- Wiring.PageGuarantees: holds only for observers that return normally; the model's observers never throw. In the source, an exception thrown by `onPlay` inside the `.then` callback is caught by the chained `.catch` (src/AudioPlayer/AudioPlayer.tsx:42-50). The failure is then logged, the element plays, and `isPaused` stays true. `handleAudioPlay` can throw after it has uncollapsed the visualiser, when the platform has no `AudioContext` constructor or when the element already has a media source. Either case leaves the visualiser expanded over a paused player. A throwing `onPause` stops the pause before the state or the element changes. Exceptions from observers are not modelled.

- Theme colour lookup (`src/utils.ts`): the fill style is an opaque string parameter. `getPropertyValue` returns a string, possibly empty, and never null or undefined, so the `?? "rgb(0, 0, 0)"` fallback never applies. The model uses the looked-up string as is.
- `src/App.tsx` is not part of this model. It only renders the visualiser.
- Rendering details are not modelled: JSX, CSS modules, `data-collapse`, the label's `minWidth`, `imageSmoothingEnabled`, `tabIndex`/`aria-live`/`role`, and the `src` and `className` props.
- Web Audio internals are not modelled: `fftSize = 256`, `getByteFrequencyData`'s conversion to decibel-scaled bytes, node `connect`, and the audio output. The analyser's bins are a parameter, and the graph is presence flags and a counter.
- Canvas pixel output is not modelled. Painting is a log of `clearRect`/`fillRect` calls.
- IEEE floating point is not modelled. Bar width and y positions are exact reals; heights are integers.
- `requestAnimationFrame` timing is not modelled. Handles are fresh positive integers, and a frame runs only while pending.
- Promise scheduling is not modelled. A play and its settlement happen as one step, with `isPaused` read at click time rather than from the render's closure. So the model does not cover two clicks landing before the state update: two `play()` calls, two `onPlay` calls and two frame loops, only the later of which pause can cancel.
- The audio element's own playing state, its "ended" and "error" events, and loading are not modelled. The code implements no Loading or Errored state and no `onError` observer. It also has no handler for "ended", so with `loop = false` the element stops at the end while `isPaused` stays false.
- React ref detachment on unmount appears only as the canvas being absent on a later tick. Play after unmount is not a reachable event. The model would build a second graph there, where the platform would refuse a second source for the same element.
- `console.error` output is recorded as an effect with its message prefix; the error object is not.
