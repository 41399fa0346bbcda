/**
 * The spectrum visualiser's lifecycle: the refs that hold the lazily built
 * analysis graph and the pending animation frame, the collapse flag, and the
 * three events that drive them (play, pause, unmount) plus the frame ticks the
 * browser runs. The Web Audio objects are abstracted to presence flags and a
 * construction counter; the window's frame scheduler to a set of pending
 * handles; the canvas to a log of the calls made on its 2d context.
 */
module Visualizer {
  import opened Wrappers
  import opened BarLayout

  /** A snapshot of the component and of the browser state it touches. */
  datatype VisState = VisState(
    collapsed: bool,          // isCollapsed
    hasContext: bool,         // audioContextRef.current is set
    hasAnalyser: bool,        // analyserRef.current is set
    hasSource: bool,          // sourceRef.current is set
    frameRef: Option<nat>,    // animationFrameRef.current
    mountFrame: Option<nat>,  // animationFrameRef.current as the cleanup effect captured it at mount
    graphsBuilt: nat,         // analysis graphs (context, analyser, source) constructed so far
    contextsClosed: nat,      // AudioContext.close() calls so far
    pending: set<nat>,        // frame callbacks requested and neither run nor cancelled
    nextHandle: nat,          // the handle requestAnimationFrame returns next
    paint: seq<PaintOp>)      // calls made on the canvas's 2d context so far

  /** JavaScript truthiness of a `number | null` ref, as in `if (animationFrameRef.current)`. */
  predicate Truthy(ref: Option<nat>)
  {
    ref.Some? && ref.value != 0
  }

  /** The handles a frame ref names: none or one. */
  function Named(ref: Option<nat>): set<nat>
  {
    if ref.Some? then {ref.value} else {}
  }

  /**
   * What holds in every reachable state: frame handles are positive and were
   * handed out before, and every analysis graph built is either the live one
   * or one whose context has been closed.
   */
  ghost predicate Valid(s: VisState)
  {
    && 1 <= s.nextHandle
    && (forall h :: h in s.pending ==> 1 <= h < s.nextHandle)
    && (s.frameRef.Some? ==> 1 <= s.frameRef.value < s.nextHandle)
    && s.graphsBuilt == s.contextsClosed + (if s.hasContext then 1 else 0)
    && (s.hasAnalyser <==> 0 < s.graphsBuilt)
    && (s.hasSource <==> 0 < s.graphsBuilt)
  }

  /** The state right after mount: collapsed, no graph, no frame, nothing painted. */
  function Mounted(): (s: VisState)
    ensures Valid(s)
    ensures s.collapsed && !s.hasContext && s.graphsBuilt == 0
    ensures s.frameRef == None && s.mountFrame == None && s.pending == {} && s.paint == []
  {
    VisState(true, false, false, false, None, None, 0, 0, {}, 1, [])
  }

  /** handleAudioPlay: expand, build the graph if no context is held, request a frame. */
  function PlayStep(s: VisState): (r: VisState)
    ensures !r.collapsed && r.hasContext
    ensures r.frameRef.Some? && r.frameRef.value in r.pending
    ensures s.hasContext ==> r.graphsBuilt == s.graphsBuilt
    ensures r.graphsBuilt <= s.graphsBuilt + 1
    ensures r.contextsClosed == s.contextsClosed && r.paint == s.paint && r.mountFrame == s.mountFrame
    ensures Valid(s) ==> Valid(r) && r.hasAnalyser && r.hasSource && r.graphsBuilt == r.contextsClosed + 1
    ensures Valid(s) ==> r.frameRef.value !in s.pending && r.pending == s.pending + {r.frameRef.value}
  {
    var build := !s.hasContext;
    var h := s.nextHandle;
    s.(collapsed := false,
       hasContext := true,
       hasAnalyser := s.hasAnalyser || build,
       hasSource := s.hasSource || build,
       graphsBuilt := if build then s.graphsBuilt + 1 else s.graphsBuilt,
       frameRef := Some(h),
       pending := s.pending + {h},
       nextHandle := h + 1)
  }

  /** handleAudioPause: collapse and cancel the frame the ref names, if any. */
  function PauseStep(s: VisState): (r: VisState)
    ensures r.collapsed
    ensures r == s.(collapsed := true, pending := r.pending)
    ensures r.pending <= s.pending
    ensures Valid(s) ==> Valid(r) && r.pending == s.pending - Named(s.frameRef)
  {
    s.(collapsed := true,
       pending := if Truthy(s.frameRef) then s.pending - {s.frameRef.value} else s.pending)
  }

  /** Whether a tick gets past its guards: an analyser, a canvas and a 2d context are present. */
  predicate Drawable(s: VisState, canvas: Option<Canvas>)
  {
    s.hasAnalyser && canvas.Some? && canvas.value.has2dContext
  }

  /** The body of `draw`: paint one frame and request the next, or do nothing when a guard fails. */
  function DrawStep(s: VisState, canvas: Option<Canvas>, bins: seq<byte>, style: string): (r: VisState)
    ensures !Drawable(s, canvas) ==> r == s
    ensures Drawable(s, canvas) ==>
      && |r.paint| == |s.paint| + BufferLength + 1
      && r.paint[..|s.paint|] == s.paint
      && r.paint[|s.paint|..] == TickPaint(canvas.value, bins, style)
    ensures Drawable(s, canvas) && Valid(s) ==>
      && r.frameRef.Some? && r.frameRef.value !in s.pending
      && r.pending == s.pending + {r.frameRef.value}
    ensures r.collapsed == s.collapsed && r.hasContext == s.hasContext && r.graphsBuilt == s.graphsBuilt
    ensures r.contextsClosed == s.contextsClosed && r.mountFrame == s.mountFrame
    ensures Valid(s) ==> Valid(r)
  {
    if !Drawable(s, canvas) then s
    else
      s.(paint := s.paint + TickPaint(canvas.value, bins, style),
         frameRef := Some(s.nextHandle),
         pending := s.pending + {s.nextHandle},
         nextHandle := s.nextHandle + 1)
  }

  /** The browser runs pending frame callback h: it drops h, then runs `draw`. */
  function TickStep(s: VisState, h: nat, canvas: Option<Canvas>, bins: seq<byte>, style: string): (r: VisState)
    requires h in s.pending
    ensures !Drawable(s, canvas) ==> r.paint == s.paint && r.pending == s.pending - {h}
    ensures Valid(s) && Drawable(s, canvas) ==>
      && r.frameRef.Some? && r.frameRef.value !in s.pending
      && r.pending == (s.pending - {h}) + {r.frameRef.value}
    ensures Valid(s) ==> Valid(r)
  {
    DrawStep(s.(pending := s.pending - {h}), canvas, bins, style)
  }

  /**
   * The cleanup effect as written: close and forget the context if one is
   * held, and cancel the frame handle captured at mount.
   */
  function CleanupStep(s: VisState): (r: VisState)
    ensures !r.hasContext
    ensures r.contextsClosed == s.contextsClosed + (if s.hasContext then 1 else 0)
    ensures r.pending == s.pending - (if Truthy(s.mountFrame) then {s.mountFrame.value} else {})
    ensures r.frameRef == s.frameRef && r.graphsBuilt == s.graphsBuilt && r.paint == s.paint
    ensures Valid(s) ==> Valid(r) && r.contextsClosed == r.graphsBuilt
  {
    var closed := if s.hasContext then s.(hasContext := false, contextsClosed := s.contextsClosed + 1) else s;
    closed.(pending := if Truthy(s.mountFrame) then s.pending - {s.mountFrame.value} else s.pending)
  }

  /** A cleanup that cancels the frame the ref names when the cleanup runs. */
  function CleanupStepFixed(s: VisState): (r: VisState)
    ensures !r.hasContext
    ensures r.contextsClosed == s.contextsClosed + (if s.hasContext then 1 else 0)
    ensures Valid(s) ==> Valid(r) && r.contextsClosed == r.graphsBuilt
    ensures Valid(s) && s.pending <= Named(s.frameRef) ==> r.pending == {}
  {
    var closed := if s.hasContext then s.(hasContext := false, contextsClosed := s.contextsClosed + 1) else s;
    closed.(pending := if Truthy(s.frameRef) then s.pending - {s.frameRef.value} else s.pending)
  }

  /** A second cleanup changes nothing: the context is closed at most once. */
  lemma CleanupIdempotent(s: VisState)
    ensures CleanupStep(CleanupStep(s)) == CleanupStep(s)
  {
  }

  /** Cleanup leaves every pending frame pending, because the handle it captured at mount is null. */
  lemma CleanupKeepsLoop(s: VisState)
    requires s.mountFrame == Mounted().mountFrame
    ensures CleanupStep(s).pending == s.pending
  {
  }

  /** What can happen to a mounted visualiser. */
  datatype Event =
    | Play
    | Pause
    | Frame(h: nat, canvas: Option<Canvas>, bins: seq<byte>, style: string)
    | Unmount

  /** One event; the browser never runs a frame callback that is not pending. */
  function Step(s: VisState, e: Event): VisState
  {
    match e
    case Play => PlayStep(s)
    case Pause => PauseStep(s)
    case Frame(h, canvas, bins, style) =>
      if h in s.pending then TickStep(s, h, canvas, bins, style) else s
    case Unmount => CleanupStep(s)
  }

  function Run(s: VisState, es: seq<Event>): VisState
    decreases |es|
  {
    if es == [] then s else Run(Step(s, es[0]), es[1..])
  }

  /** Events other than unmount keep the invariant and close no context. */
  lemma {:induction false} RunKeepsValid(s: VisState, es: seq<Event>)
    requires Valid(s)
    requires forall k :: 0 <= k < |es| ==> !es[k].Unmount?
    ensures Valid(Run(s, es))
    ensures Run(s, es).contextsClosed == s.contextsClosed
    decreases |es|
  {
    if es != [] {
      RunKeepsValid(Step(s, es[0]), es[1..]);
    }
  }

  /** Across any play, pause and frame events after mount, the analysis graph is built at most once. */
  lemma GraphBuiltAtMostOnce(es: seq<Event>)
    requires forall k :: 0 <= k < |es| ==> !es[k].Unmount?
    ensures Run(Mounted(), es).graphsBuilt <= 1
  {
    RunKeepsValid(Mounted(), es);
  }

  /**
   * The component instance: its refs and collapse flag, and the parts of the
   * window (frame scheduler) and canvas (2d context calls) it uses.
   */
  class Component {
    var isCollapsed: bool
    var hasAudioContext: bool
    var hasAnalyser: bool
    var hasSource: bool
    var animationFrame: Option<nat>
    var capturedFrame: Option<nat>
    var graphsBuilt: nat
    var contextsClosed: nat
    var pending: set<nat>
    var nextHandle: nat
    var paint: seq<PaintOp>

    function State(): VisState
      reads this
    {
      VisState(isCollapsed, hasAudioContext, hasAnalyser, hasSource, animationFrame,
               capturedFrame, graphsBuilt, contextsClosed, pending, nextHandle, paint)
    }

    /** Mount: initial state, then the cleanup effect captures the frame ref. */
    constructor ()
      ensures State() == Mounted()
    {
      isCollapsed := true;
      hasAudioContext, hasAnalyser, hasSource := false, false, false;
      animationFrame := None;
      graphsBuilt, contextsClosed := 0, 0;
      pending, nextHandle := {}, 1;
      paint := [];
      capturedFrame := animationFrame;
    }

    /** window.requestAnimationFrame: a fresh handle, now pending. */
    method RequestAnimationFrame() returns (h: nat)
      modifies this`pending, this`nextHandle
      ensures h == old(nextHandle) && nextHandle == h + 1
      ensures pending == old(pending) + {h}
    {
      h := nextHandle;
      nextHandle := nextHandle + 1;
      pending := pending + {h};
    }

    /** window.cancelAnimationFrame: h is no longer pending. */
    method CancelAnimationFrame(h: nat)
      modifies this`pending
      ensures pending == old(pending) - {h}
    {
      pending := pending - {h};
    }

    method HandleAudioPlay()
      modifies this
      ensures State() == PlayStep(old(State()))
    {
      isCollapsed := false;
      if !hasAudioContext {
        hasAudioContext := true;
        hasAnalyser := true;
        hasSource := true;
        graphsBuilt := graphsBuilt + 1;
      }
      var h := RequestAnimationFrame();
      animationFrame := Some(h);
    }

    method HandleAudioPause()
      modifies this
      ensures State() == PauseStep(old(State()))
    {
      isCollapsed := true;
      if Truthy(animationFrame) {
        CancelAnimationFrame(animationFrame.value);
      }
    }

    /** `draw`: bail out on a missing analyser, canvas or context; else clear, fill 11 bars, reschedule. */
    method Draw(canvas: Option<Canvas>, bins: seq<byte>, style: string)
      modifies this
      ensures State() == DrawStep(old(State()), canvas, bins, style)
    {
      if !hasAnalyser || canvas.None? {
        return;
      }
      var c := canvas.value;
      if !c.has2dContext {
        return;
      }
      var data := FrequencyBuffer(bins);
      paint := paint + [ClearRect(0.0, 0.0, c.width as real, c.height as real)];
      FillBars(c, data, style);
      var h := RequestAnimationFrame();
      animationFrame := Some(h);
    }

    /** The bar loop of `draw`: x accumulates each bar's width plus the spacing. */
    method FillBars(c: Canvas, data: seq<byte>, style: string)
      requires |data| == BufferLength
      modifies this`paint
      ensures paint == old(paint) + Bars(c, data, style, BufferLength)
    {
      var barWidth := (c.width as real / BufferLength as real) * LineThicknessScalar;
      assert barWidth == BarWidth(c.width);
      var barHeight := 0;
      var x := 0.0;
      for i := 0 to BufferLength
        invariant paint == old(paint) + Bars(c, data, style, i)
        invariant x == BarX(i, barWidth)
      {
        barHeight := BarHeight(data[i]);
        var x0 := x;
        var y0 := c.height as real / 2.0 - barHeight as real / 2.0;
        assert FillRect(style, x0, y0, barWidth, barHeight) == Bar(i, c, data[i], style);
        paint := paint + [FillRect(style, x0, y0, barWidth, barHeight)];
        x := x + barWidth + LineSpacing;
      }
    }

    /** The browser runs the pending callback h. */
    method RunFrame(h: nat, canvas: Option<Canvas>, bins: seq<byte>, style: string)
      requires h in pending
      modifies this
      ensures State() == TickStep(old(State()), h, canvas, bins, style)
    {
      pending := pending - {h};
      Draw(canvas, bins, style);
    }

    /** The cleanup function returned by the mount effect. */
    method Cleanup()
      modifies this
      ensures State() == CleanupStep(old(State()))
    {
      if hasAudioContext {
        contextsClosed := contextsClosed + 1;
        hasAudioContext := false;
      }
      if Truthy(capturedFrame) {
        CancelAnimationFrame(capturedFrame.value);
      }
    }
  }
}
