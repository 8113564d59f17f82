/**
 * The layout shell's local state as an object: the mode and navigation
 * cells, the mirror cell read by the resize listener, and the notifications
 * the shell has dispatched to the shared store.
 */
module LayoutShell {
  import opened Navigation

  class ShieldedRoot {
    var isMobileView: bool
    var isNavOpen: bool
    /** The `current` value of the mutable reference read by the listener. */
    var mutableStateRef: MutableState
    /** Actions dispatched to the shared store, oldest first. */
    var dispatched: seq<StoreAction>

    function State(): NavState
      reads this
    {
      NavState(isMobileView, isNavOpen, mutableStateRef, dispatched)
    }

    ghost predicate Valid()
      reads this
    {
      MirrorConsistent(State())
    }

    /** Mount, given the body's client width at that moment. */
    constructor (clientWidth: int)
      ensures Valid()
      ensures State() == Init(clientWidth)
    {
      var mobile := IsMobileWidth(clientWidth);
      isMobileView := mobile;
      isNavOpen := !mobile;
      mutableStateRef := MutableState(mobile);
      dispatched := [];
    }

    /** The window-resize listener, given the body's client width. */
    method NavResizeListener(clientWidth: int)
      requires Valid()
      modifies this
      ensures Valid()
      ensures State() == Resize(old(State()), clientWidth)
    {
      var internalMobile := IsMobileWidth(clientWidth);
      var mobile := mutableStateRef.isMobileView;
      if !mobile && internalMobile {
        isMobileView := true;
        isNavOpen := false;
        mutableStateRef := MutableState(true);
      } else if mobile && !internalMobile {
        isMobileView := false;
        isNavOpen := true;
        mutableStateRef := MutableState(false);
      }
    }

    /** The toggle button's handler. */
    method OnNavToggle()
      requires Valid()
      modifies this
      ensures Valid()
      ensures State() == Toggle(old(State()))
    {
      isNavOpen := !isNavOpen;
      dispatched := dispatched + [NavToggled];
    }
  }
}
