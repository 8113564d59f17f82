/**
 * The viewport and navigation state of the layout shell, as values.
 *
 * The shell keeps three cells: whether it is in mobile mode, whether the
 * side navigation is open, and a mirror of the mode (the `current` value of
 * a mutable reference) that the window-resize listener reads, because the
 * listener is registered once and must not see a stale mode. Every toggle
 * of the navigation also dispatches one notification to the shared store.
 *
 * `Init`, `Resize` and `Toggle` are the transitions; the class in module
 * LayoutShell is proved to perform exactly these. `Run` replays a sequence
 * of host events so that properties of whole histories can be stated.
 */
module Navigation {
  import opened Wrappers

  /** Widths strictly below this many pixels put the shell in mobile mode. */
  const MobileBreakpoint: int := 1200

  predicate IsMobileWidth(width: int)
  {
    width < MobileBreakpoint
  }

  /** The one action the shell dispatches to the shared store (`onToggle()`). */
  datatype StoreAction = NavToggled

  /** The object held by the mutable reference the resize listener reads. */
  datatype MutableState = MutableState(isMobileView: bool)

  datatype NavState = NavState(
    isMobileView: bool,
    isNavOpen: bool,
    mutableState: MutableState,
    dispatched: seq<StoreAction>)

  /** The invariant of the shell: the mirror cell agrees with the mode. */
  predicate MirrorConsistent(s: NavState)
  {
    s.mutableState.isMobileView == s.isMobileView
  }

  /** State at mount, from the body's client width at that moment. */
  function Init(width: int): (s: NavState)
    ensures MirrorConsistent(s)
    ensures s.isMobileView <==> IsMobileWidth(width)
    ensures s.isNavOpen <==> !IsMobileWidth(width)
    ensures s.dispatched == []
  {
    var isMobileView := IsMobileWidth(width);
    NavState(isMobileView, !isMobileView, MutableState(isMobileView), [])
  }

  /**
   * The resize listener, given the body's client width at the event. It
   * decides from the mirror cell, and acts only when the width crosses the
   * breakpoint.
   */
  function Resize(s: NavState, width: int): (r: NavState)
    // the mirror always ends up describing the new width
    ensures r.mutableState.isMobileView <==> IsMobileWidth(width)
    ensures MirrorConsistent(s) ==> MirrorConsistent(r)
    // desktop to mobile closes the navigation, whatever it was
    ensures MirrorConsistent(s) && !s.isMobileView && IsMobileWidth(width) ==>
              r.isMobileView && !r.isNavOpen
    // mobile to desktop opens the navigation, whatever it was
    ensures MirrorConsistent(s) && s.isMobileView && !IsMobileWidth(width) ==>
              !r.isMobileView && r.isNavOpen
    // staying in the same band changes nothing
    ensures s.mutableState.isMobileView == IsMobileWidth(width) ==> r == s
    ensures r.dispatched == s.dispatched
  {
    var internalMobile := IsMobileWidth(width);
    var isMobileView := s.mutableState.isMobileView;
    if !isMobileView && internalMobile then
      s.(isMobileView := true, isNavOpen := false, mutableState := MutableState(true))
    else if isMobileView && !internalMobile then
      s.(isMobileView := false, isNavOpen := true, mutableState := MutableState(false))
    else
      s
  }

  /** The toggle button's handler: flip the navigation and notify the store. */
  function Toggle(s: NavState): (r: NavState)
    ensures r.isNavOpen == !s.isNavOpen
    ensures r.isMobileView == s.isMobileView && r.mutableState == s.mutableState
    ensures r.dispatched == s.dispatched + [NavToggled]
    ensures MirrorConsistent(s) ==> MirrorConsistent(r)
  {
    s.(isNavOpen := !s.isNavOpen, dispatched := s.dispatched + [NavToggled])
  }

  /** Resizing twice to the same width is the same as resizing once. */
  lemma ResizeIdempotent(s: NavState, width: int)
    ensures Resize(Resize(s, width), width) == Resize(s, width)
  {
  }

  /** Only the band of the width matters, not the width itself. */
  lemma ResizeDependsOnlyOnBand(s: NavState, w1: int, w2: int)
    requires IsMobileWidth(w1) == IsMobileWidth(w2)
    ensures Resize(s, w1) == Resize(s, w2)
  {
  }

  /** Two toggles restore the navigation and leave two notifications behind. */
  lemma ToggleTwice(s: NavState)
    ensures Toggle(Toggle(s)) == s.(dispatched := s.dispatched + [NavToggled, NavToggled])
  {
  }

  /**
   * A resize that stays in the current band does not undo a manual toggle:
   * the user may keep the navigation closed on desktop or open on mobile.
   */
  lemma SameBandResizeKeepsToggle(s: NavState, width: int)
    requires MirrorConsistent(s)
    requires IsMobileWidth(width) == s.isMobileView
    ensures Resize(Toggle(s), width) == Toggle(s)
  {
  }

  /** What the host can deliver to a mounted shell. */
  datatype Event = WindowResized(width: int) | ToggleClicked

  function Step(s: NavState, e: Event): NavState
  {
    match e
    case WindowResized(width) => Resize(s, width)
    case ToggleClicked => Toggle(s)
  }

  /** The state after the events, delivered in order. */
  function Run(s: NavState, events: seq<Event>): NavState
    decreases |events|
  {
    if events == [] then s else Run(Step(s, events[0]), events[1..])
  }

  function ToggleCount(events: seq<Event>): nat
    decreases |events|
  {
    if events == [] then 0
    else (if events[0].ToggleClicked? then 1 else 0) + ToggleCount(events[1..])
  }

  /** The width of the last resize among the events, if there is one. */
  function LastResizeWidth(events: seq<Event>): Option<int>
    decreases |events|
  {
    if events == [] then None
    else
      match LastResizeWidth(events[1..])
      case Some(w) => Some(w)
      case None => if events[0].WindowResized? then Some(events[0].width) else None
  }

  /** The mirror invariant holds after any history. */
  lemma {:induction false} RunKeepsMirror(s: NavState, events: seq<Event>)
    requires MirrorConsistent(s)
    ensures MirrorConsistent(Run(s, events))
    decreases |events|
  {
    if events != [] {
      RunKeepsMirror(Step(s, events[0]), events[1..]);
    }
  }

  /**
   * The mode always reflects the most recent resize, however many toggles
   * and same-band resizes came between.
   */
  lemma {:induction false} RunModeFollowsLastResize(s: NavState, events: seq<Event>)
    requires MirrorConsistent(s)
    ensures Run(s, events).isMobileView ==
              match LastResizeWidth(events)
              case Some(w) => IsMobileWidth(w)
              case None => s.isMobileView
    decreases |events|
  {
    if events != [] {
      RunModeFollowsLastResize(Step(s, events[0]), events[1..]);
    }
  }

  /**
   * Without a resize the navigation is free-running: its open state is
   * unchanged exactly when the number of toggles is even, and the mode does
   * not move.
   */
  lemma {:induction false} RunWithoutResize(s: NavState, events: seq<Event>)
    requires LastResizeWidth(events).None?
    ensures Run(s, events).isMobileView == s.isMobileView
    ensures Run(s, events).mutableState == s.mutableState
    ensures Run(s, events).isNavOpen == (s.isNavOpen == (ToggleCount(events) % 2 == 0))
    decreases |events|
  {
    if events != [] {
      assert events[0].ToggleClicked?;
      RunWithoutResize(Step(s, events[0]), events[1..]);
    }
  }

  /**
   * Every toggle, and nothing else, dispatches exactly one notification;
   * earlier notifications are kept in order.
   */
  lemma {:induction false} RunDispatchesOncePerToggle(s: NavState, events: seq<Event>)
    ensures |Run(s, events).dispatched| == |s.dispatched| + ToggleCount(events)
    ensures Run(s, events).dispatched[..|s.dispatched|] == s.dispatched
    decreases |events|
  {
    if events != [] {
      var next := Step(s, events[0]);
      RunDispatchesOncePerToggle(next, events[1..]);
      assert next.dispatched[..|s.dispatched|] == s.dispatched;
    }
  }
}
