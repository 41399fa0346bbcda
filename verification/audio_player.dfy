/**
 * The audio player: a two-state toggle on `isPaused` over an audio element,
 * reporting transitions to optional onPlay/onPause observers. The promise
 * returned by element.play() is modelled as an outcome given to the toggle and
 * applied at once; everything observable (element calls, observer calls, state
 * updates, console errors) is recorded, in order, as a list of effects.
 */
module AudioPlayer {
  import opened Wrappers

  const ElementMissingMessage: string := "Audio element not found."
  const PlayFailedMessage: string := "Failed to start audio playback:"

  /** How the promise returned by audioElement.play() settles. */
  datatype PlayOutcome = Resolved | Rejected

  /** One observable effect of the player. */
  datatype Effect =
    | ConsoleError(message: string)
    | ElementPlay            // audioElement.play()
    | ElementPause           // audioElement.pause()
    | CallOnPlay             // onPlay({ audioElement })
    | CallOnPause            // onPause({ audioElement })
    | SetPaused(paused: bool) // setIsPaused(paused)

  /** Which of the optional observer props the caller supplied. */
  datatype Observers = Observers(onPlay: bool, onPause: bool)

  /** The state a toggle leaves and the effects it has, in order. */
  datatype Transition = Transition(isPaused: bool, effects: seq<Effect>)

  /** The state handed to a children builder. */
  datatype PlayerView = PlayerView(isPaused: bool, isLooping: bool)

  /** Position of the first occurrence of e in es. */
  function IndexOf(es: seq<Effect>, e: Effect): (k: nat)
    requires e in es
    ensures k < |es| && es[k] == e && e !in es[..k]
  {
    if es[0] == e then 0 else 1 + IndexOf(es[1..], e)
  }

  /** Effect e happens, and happens before effect f does. */
  predicate Precedes(es: seq<Effect>, e: Effect, f: Effect)
  {
    e in es && f in es && IndexOf(es, e) < IndexOf(es, f)
  }

  /** The value of the `loop` prop after defaulting in the props destructuring. */
  function LoopProp(loop: Option<bool>): (r: bool)
    ensures r <==> loop != Some(false)
  {
    match loop
    case None => true
    case Some(b) => b
  }

  /**
   * togglePlayPause: nothing but a console error without an element; from
   * paused, play the element and, once it resolves, notify onPlay and then
   * unpause; from playing, notify onPause, then pause the state and the element.
   */
  function Toggle(isPaused: bool, hasElement: bool, obs: Observers, outcome: PlayOutcome): (t: Transition)
    ensures t.isPaused != isPaused <==> hasElement && (!isPaused || outcome == Resolved)
    ensures CallOnPlay in t.effects <==> hasElement && isPaused && outcome == Resolved && obs.onPlay
    ensures CallOnPause in t.effects <==> hasElement && !isPaused && obs.onPause
    ensures forall k :: 0 <= k < |t.effects| && t.effects[k].SetPaused? ==>
              t.effects[k].paused == t.isPaused != isPaused
  {
    if !hasElement then
      Transition(isPaused, [ConsoleError(ElementMissingMessage)])
    else if isPaused then
      match outcome
      case Resolved =>
        Transition(false, [ElementPlay] + (if obs.onPlay then [CallOnPlay] else []) + [SetPaused(false)])
      case Rejected =>
        Transition(true, [ElementPlay, ConsoleError(PlayFailedMessage)])
    else
      Transition(true, (if obs.onPause then [CallOnPause] else []) + [SetPaused(true), ElementPause])
  }

  /** Without an element the toggle changes nothing and only logs an error. */
  lemma ToggleWithoutElement(isPaused: bool, obs: Observers, outcome: PlayOutcome)
    ensures var t := Toggle(isPaused, false, obs, outcome);
      t.isPaused == isPaused
      && forall k :: 0 <= k < |t.effects| ==> t.effects[k].ConsoleError?
  {
  }

  /** A play that resolves calls onPlay before the state becomes playing. */
  lemma PlayResolved(obs: Observers)
    ensures var t := Toggle(true, true, obs, Resolved);
      !t.isPaused
      && Precedes(t.effects, ElementPlay, SetPaused(false))
      && (obs.onPlay ==> Precedes(t.effects, CallOnPlay, SetPaused(false)))
  {
  }

  /** A play that rejects leaves the player paused, calls no observer and updates no state. */
  lemma PlayRejected(obs: Observers)
    ensures var t := Toggle(true, true, obs, Rejected);
      t.isPaused && CallOnPlay !in t.effects && ElementPlay in t.effects
      && ConsoleError(PlayFailedMessage) in t.effects
      && forall k :: 0 <= k < |t.effects| ==> !t.effects[k].SetPaused?
  {
  }

  /** A pause calls onPause before the state becomes paused, and pauses the element last. */
  lemma PauseOrder(obs: Observers, outcome: PlayOutcome)
    ensures var t := Toggle(false, true, obs, outcome);
      t.isPaused
      && (obs.onPause ==> Precedes(t.effects, CallOnPause, SetPaused(true)))
      && Precedes(t.effects, SetPaused(true), ElementPause)
      && t.effects[|t.effects| - 1] == ElementPause
  {
  }

  /** The label rendered without a builder. */
  function DefaultLabel(isPaused: bool): (text: string)
    ensures text == "Play" <==> isPaused
    ensures text == "Pause" <==> !isPaused
  {
    if isPaused then "Play" else "Pause"
  }

  /**
   * childrenEl: what the builder renders; when there is no builder, or it
   * renders null or undefined (None), the default label.
   */
  function ChildrenEl(children: Option<PlayerView -> Option<string>>, isPaused: bool, loop: bool): (text: string)
    ensures children.None? ==> text == DefaultLabel(isPaused)
    ensures children.Some? && children.value(PlayerView(isPaused, loop)).None? ==> text == DefaultLabel(isPaused)
    ensures children.Some? && children.value(PlayerView(isPaused, loop)).Some? ==>
              text == children.value(PlayerView(isPaused, loop)).value
  {
    var rendered := if children.Some? then children.value(PlayerView(isPaused, loop)) else None;
    if rendered.Some? then rendered.value else DefaultLabel(isPaused)
  }

  /** aria-checked on the switch: checked exactly when the default label offers to pause. */
  function AriaChecked(isPaused: bool): (checked: bool)
    ensures checked <==> DefaultLabel(isPaused) == "Pause"
  {
    !isPaused
  }

  /** The player instance. */
  class Player {
    var isPaused: bool
    const loop: bool
    const observers: Observers
    var hasElement: bool
    const elementAtMount: bool
    var log: seq<Effect>

    /** Mount: paused, `loop` defaulted, the cleanup effect captures the element. */
    constructor (loopProp: Option<bool>, observers: Observers, elementRendered: bool)
      ensures isPaused && log == []
      ensures loop == LoopProp(loopProp) && this.observers == observers
      ensures hasElement == elementRendered && elementAtMount == elementRendered
    {
      isPaused := true;
      loop := LoopProp(loopProp);
      this.observers := observers;
      hasElement := elementRendered;
      elementAtMount := elementRendered;
      log := [];
    }

    method TogglePlayPause(outcome: PlayOutcome)
      modifies this`isPaused, this`log
      ensures var t := Toggle(old(isPaused), hasElement, observers, outcome);
        isPaused == t.isPaused && log == old(log) + t.effects
    {
      if !hasElement {
        log := log + [ConsoleError(ElementMissingMessage)];
        return;
      }
      if isPaused {
        log := log + [ElementPlay];
        match outcome
        case Resolved =>
          if observers.onPlay {
            log := log + [CallOnPlay];
          }
          isPaused := false;
          log := log + [SetPaused(false)];
        case Rejected =>
          log := log + [ConsoleError(PlayFailedMessage)];
      } else {
        if observers.onPause {
          log := log + [CallOnPause];
        }
        isPaused := true;
        log := log + [SetPaused(true)];
        log := log + [ElementPause];
      }
    }

    /** The cleanup function of the mount effect: pause the captured element, whatever the state. */
    method Cleanup()
      modifies this`log
      ensures log == old(log) + (if elementAtMount then [ElementPause] else [])
    {
      if elementAtMount {
        log := log + [ElementPause];
      }
    }
  }
}
