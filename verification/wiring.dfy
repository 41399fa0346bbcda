/**
 * The visualiser renders an AudioPlayer and hands it handleAudioPlay and
 * handleAudioPause as its onPlay and onPause observers. This module composes
 * the two components: a click runs the player's toggle and delivers each
 * observer call it makes to the visualiser, in order; a frame runs a pending
 * draw callback. Over any sequence of clicks and frames from mount, the
 * analysis graph is built at most once, the collapse flag mirrors the paused
 * state, and at most one frame is pending, none while paused.
 */
module Wiring {
  import opened Wrappers
  import opened BarLayout
  import V = Visualizer
  import P = AudioPlayer

  /** The visualiser passes both observers. */
  const VisualizerObservers: P.Observers := P.Observers(true, true)

  /** The player's state, whether its element exists, and the visualiser's state. */
  datatype Page = Page(isPaused: bool, hasElement: bool, vis: V.VisState)

  /** What a mounted page can be asked to do. */
  datatype PageEvent =
    | Click(outcome: P.PlayOutcome)
    | Frame(h: nat, canvas: Option<Canvas>, bins: seq<byte>, style: string)

  function Mount(hasElement: bool): (p: Page)
    ensures p.isPaused && p.vis == V.Mounted()
  {
    Page(true, hasElement, V.Mounted())
  }

  /** The visualiser's handler for one player effect, if it is an observer call. */
  function Deliver(vis: V.VisState, e: P.Effect): V.VisState
  {
    match e
    case CallOnPlay => V.PlayStep(vis)
    case CallOnPause => V.PauseStep(vis)
    case _ => vis
  }

  /** Delivers the observer calls among the player's effects to the visualiser, in order. */
  function Notify(vis: V.VisState, effects: seq<P.Effect>): V.VisState
    decreases |effects|
  {
    if effects == [] then vis else Notify(Deliver(vis, effects[0]), effects[1..])
  }

  /** Notifying a list of effects that holds one observer call amounts to delivering that call. */
  lemma {:induction false} NotifyOne(vis: V.VisState, before: seq<P.Effect>, e: P.Effect, after: seq<P.Effect>)
    requires forall k :: 0 <= k < |before| ==> !before[k].CallOnPlay? && !before[k].CallOnPause?
    requires forall k :: 0 <= k < |after| ==> !after[k].CallOnPlay? && !after[k].CallOnPause?
    ensures Notify(vis, before + [e] + after) == Notify(Deliver(vis, e), after)
    decreases |before|
  {
    if before == [] {
      assert before + [e] + after == [e] + after;
      assert ([e] + after)[1..] == after;
    } else {
      assert (before + [e] + after)[1..] == before[1..] + [e] + after;
      NotifyOne(vis, before[1..], e, after);
    }
  }

  /** Notifying effects without observer calls changes nothing. */
  lemma {:induction false} NotifyNone(vis: V.VisState, effects: seq<P.Effect>)
    requires forall k :: 0 <= k < |effects| ==> !effects[k].CallOnPlay? && !effects[k].CallOnPause?
    ensures Notify(vis, effects) == vis
    decreases |effects|
  {
    if effects != [] {
      NotifyNone(vis, effects[1..]);
    }
  }

  /**
   * Notifying the visualiser of one toggle's effects: handleAudioPlay runs
   * when a play resolves, handleAudioPause when the player pauses, and
   * nothing otherwise.
   */
  lemma NotifyToggle(vis: V.VisState, isPaused: bool, hasElement: bool, outcome: P.PlayOutcome)
    ensures var t := P.Toggle(isPaused, hasElement, VisualizerObservers, outcome);
      Notify(vis, t.effects)
        == if t.isPaused == isPaused then vis
           else if isPaused then V.PlayStep(vis)
           else V.PauseStep(vis)
  {
    var t := P.Toggle(isPaused, hasElement, VisualizerObservers, outcome);
    if !hasElement || (isPaused && outcome == P.Rejected) {
      NotifyNone(vis, t.effects);
    } else if isPaused {
      NotifyOne(vis, [P.ElementPlay], P.CallOnPlay, [P.SetPaused(false)]);
      NotifyNone(V.PlayStep(vis), [P.SetPaused(false)]);
    } else {
      NotifyOne(vis, [], P.CallOnPause, [P.SetPaused(true), P.ElementPause]);
      NotifyNone(V.PauseStep(vis), [P.SetPaused(true), P.ElementPause]);
    }
  }

  /**
   * A click on the switch: the player's toggle runs with both observers
   * present, and its observer calls reach the visualiser in order. The
   * visualiser's handler runs exactly when the player's state flips: the play
   * handler on a resolved play, the pause handler on a pause.
   */
  function ClickStep(p: Page, outcome: P.PlayOutcome): (r: Page)
    ensures r.hasElement == p.hasElement
    ensures r.isPaused != p.isPaused <==> p.hasElement && (!p.isPaused || outcome == P.Resolved)
    ensures r.vis == if r.isPaused == p.isPaused then p.vis
                     else if p.isPaused then V.PlayStep(p.vis)
                     else V.PauseStep(p.vis)
  {
    var t := P.Toggle(p.isPaused, p.hasElement, VisualizerObservers, outcome);
    NotifyToggle(p.vis, p.isPaused, p.hasElement, outcome);
    p.(isPaused := t.isPaused, vis := Notify(p.vis, t.effects))
  }

  function PageStep(p: Page, e: PageEvent): Page
  {
    match e
    case Click(outcome) => ClickStep(p, outcome)
    case Frame(h, canvas, bins, style) =>
      if h in p.vis.pending then p.(vis := V.TickStep(p.vis, h, canvas, bins, style)) else p
  }

  function RunPage(p: Page, es: seq<PageEvent>): Page
    decreases |es|
  {
    if es == [] then p else RunPage(PageStep(p, es[0]), es[1..])
  }

  /** The invariant of a mounted page. */
  ghost predicate Inv(p: Page)
  {
    && V.Valid(p.vis)
    && p.vis.contextsClosed == 0
    && p.vis.mountFrame == None
    && p.vis.collapsed == p.isPaused
    && p.vis.pending <= V.Named(p.vis.frameRef)
    && (p.isPaused ==> p.vis.pending == {})
  }

  /** A click keeps the invariant: play from paused, pause from playing, or nothing. */
  lemma ClickKeepsInv(p: Page, outcome: P.PlayOutcome)
    requires Inv(p)
    ensures Inv(ClickStep(p, outcome))
  {
  }

  /** A frame keeps the invariant: a tick replaces the one pending handle by at most one fresh one. */
  lemma FrameKeepsInv(p: Page, h: nat, canvas: Option<Canvas>, bins: seq<byte>, style: string)
    requires Inv(p)
    ensures Inv(PageStep(p, Frame(h, canvas, bins, style)))
  {
  }

  lemma {:induction false} RunPageKeepsInv(p: Page, es: seq<PageEvent>)
    requires Inv(p)
    ensures Inv(RunPage(p, es))
    decreases |es|
  {
    if es != [] {
      match es[0] {
        case Click(outcome) => ClickKeepsInv(p, outcome);
        case Frame(h, canvas, bins, style) => FrameKeepsInv(p, h, canvas, bins, style);
      }
      RunPageKeepsInv(PageStep(p, es[0]), es[1..]);
    }
  }

  /**
   * After any clicks and frames from mount: at most one analysis graph, the
   * visualiser collapsed exactly when the player is paused, and at most one
   * pending frame, the one the ref names, and none while paused.
   */
  lemma PageGuarantees(hasElement: bool, es: seq<PageEvent>)
    ensures var p := RunPage(Mount(hasElement), es);
      && p.vis.graphsBuilt <= 1
      && p.vis.collapsed == p.isPaused
      && p.vis.pending <= V.Named(p.vis.frameRef)
      && (p.isPaused ==> p.vis.pending == {})
  {
    RunPageKeepsInv(Mount(hasElement), es);
  }

  /**
   * Unmount while playing, as written: the context is closed, but the frame
   * scheduled by the play is still pending, because the cleanup cancels the
   * handle it captured at mount. That frame still runs; with the canvas ref
   * gone it paints nothing and schedules nothing.
   */
  lemma UnmountWhilePlayingLeavesFrame(bins: seq<byte>, style: string)
    ensures var p := ClickStep(Mount(true), P.Resolved);
      var u := V.CleanupStep(p.vis);
      && !p.isPaused
      && p.vis.frameRef.Some?
      && u.pending == {p.vis.frameRef.value}
      && u.contextsClosed == 1
      && V.TickStep(u, p.vis.frameRef.value, None, bins, style).pending == {}
      && V.TickStep(u, p.vis.frameRef.value, None, bins, style).paint == u.paint
  {
    NotifyOne(V.Mounted(), [P.ElementPlay], P.CallOnPlay, [P.SetPaused(false)]);
    NotifyNone(V.PlayStep(V.Mounted()), [P.SetPaused(false)]);
  }

  /**
   * In every page reachable from mount by clicks and frames, the cleanup as
   * written cancels nothing: whatever frame is pending stays pending.
   */
  lemma UnmountCancelsNothing(hasElement: bool, es: seq<PageEvent>)
    ensures var p := RunPage(Mount(hasElement), es);
      && V.CleanupStep(p.vis).pending == p.vis.pending
      && V.CleanupStep(p.vis).contextsClosed == p.vis.graphsBuilt
  {
    var p := RunPage(Mount(hasElement), es);
    RunPageKeepsInv(Mount(hasElement), es);
    V.CleanupKeepsLoop(p.vis);
  }

  /** Unmount with the corrected cleanup leaves no frame pending and closes every graph built. */
  lemma UnmountFixedStopsLoop(p: Page)
    requires Inv(p)
    ensures V.CleanupStepFixed(p.vis).pending == {}
    ensures V.CleanupStepFixed(p.vis).contextsClosed == p.vis.graphsBuilt <= 1
  {
  }
}
