/** The scroll effects: a scroll listener that records the scroll position and
    lets at most one animation frame be pending, and a frame callback that sizes
    the navbar's padding from the latest recorded position. */
module Scroll {
  import opened Dom

  /** The scroll position past which the navbar turns compact. */
  const CompactThreshold: int := 50
  /** The navbar padding once the page is scrolled past the threshold. */
  const CompactPadding: string := "0.75rem 2rem"
  /** The navbar padding at or below the threshold. */
  const RegularPadding: string := "1rem 2rem"

  /** The object's fields, the number of animation-frame callbacks the browser
      holds for it, and the navbar's inline padding (`None` while unset). */
  datatype ScrollView = ScrollView(lastScrollY: int, ticking: bool, pendingFrames: nat, navbarPadding: Option<string>)

  /** The state when the script loads. */
  function Initial(): (v: ScrollView)
    ensures v.lastScrollY == 0 && !v.ticking && v.pendingFrames == 0 && v.navbarPadding == None
  {
    ScrollView(0, false, 0, None)
  }

  /** The padding `updateNavbar` gives for the recorded position `y`. */
  function PaddingFor(y: int): (r: string)
    ensures r == CompactPadding <==> y > CompactThreshold
    ensures r == RegularPadding <==> y <= CompactThreshold
  {
    if y > CompactThreshold then CompactPadding else RegularPadding
  }

  /** The throttle's invariant: `ticking` says exactly whether a frame is pending,
      and at most one is. */
  predicate Throttled(v: ScrollView)
  {
    v.pendingFrames == if v.ticking then 1 else 0
  }

  /** With no frame pending, the navbar shows the padding for the recorded
      position (or is untouched, from load until the first scroll). */
  predicate Settled(v: ScrollView)
  {
    !v.ticking ==> v.navbarPadding == Some(PaddingFor(v.lastScrollY)) || (v.navbarPadding == None && v.lastScrollY == 0)
  }

  /** `onScroll` while `window.scrollY` is `y`. */
  function OnScrollView(v: ScrollView, y: int): (r: ScrollView)
    ensures r.lastScrollY == y && r.ticking && r.navbarPadding == v.navbarPadding
    ensures v.ticking ==> r.pendingFrames == v.pendingFrames
    ensures !v.ticking ==> r.pendingFrames == v.pendingFrames + 1
    ensures Throttled(v) ==> Throttled(r) && r.pendingFrames == 1
  {
    ScrollView(y, true, if v.ticking then v.pendingFrames else v.pendingFrames + 1, v.navbarPadding)
  }

  /** The animation-frame callback `onScroll` schedules: `updateNavbar`, then
      `ticking` is reset. */
  function FrameView(v: ScrollView): (r: ScrollView)
    requires v.pendingFrames > 0
    ensures r.navbarPadding == Some(CompactPadding) <==> v.lastScrollY > CompactThreshold
    ensures r.navbarPadding == Some(RegularPadding) <==> v.lastScrollY <= CompactThreshold
    ensures !r.ticking && r.lastScrollY == v.lastScrollY && r.pendingFrames + 1 == v.pendingFrames
    ensures Settled(r)
    ensures Throttled(v) ==> Throttled(r)
  {
    ScrollView(v.lastScrollY, false, v.pendingFrames - 1, Some(PaddingFor(v.lastScrollY)))
  }

  /** A scroll event, or the browser running a pending animation frame. */
  datatype ScrollEvent = Scrolled(y: int) | FrameFired

  /** One event; a frame with nothing pending does not happen. */
  function Step(v: ScrollView, e: ScrollEvent): ScrollView
  {
    match e
    case Scrolled(y) => OnScrollView(v, y)
    case FrameFired => if v.pendingFrames > 0 then FrameView(v) else v
  }

  /** The state after handling `es` in order. */
  function Run(v: ScrollView, es: seq<ScrollEvent>): ScrollView
    decreases |es|
  {
    if es == [] then v else Run(Step(v, es[0]), es[1..])
  }

  /** The position of the last scroll event of `es`, or `y` when there is none. */
  function LatestY(y: int, es: seq<ScrollEvent>): int
    decreases |es|
  {
    if es == [] then y else LatestY(if es[0].Scrolled? then es[0].y else y, es[1..])
  }

  /** A scroll has been handled: its frame is pending, or the navbar has been sized. */
  predicate Engaged(v: ScrollView)
  {
    v.ticking || v.navbarPadding.Some?
  }

  /** Through any run of events: `lastScrollY` holds the latest scroll position,
      at most one frame is pending and `ticking` says whether one is, and whenever
      none is pending the navbar reflects the latest position, or is still unset
      at position 0; it can be unset only until the first scroll is handled. */
  lemma {:induction false} RunKeepsThrottle(v: ScrollView, es: seq<ScrollEvent>)
    requires Throttled(v) && Settled(v)
    ensures Run(v, es).lastScrollY == LatestY(v.lastScrollY, es)
    ensures Throttled(Run(v, es)) && Run(v, es).pendingFrames <= 1
    ensures Settled(Run(v, es))
    ensures Engaged(v) || (exists i :: 0 <= i < |es| && es[i].Scrolled?) ==> Engaged(Run(v, es))
    decreases |es|
  {
    if es != [] {
      RunKeepsThrottle(Step(v, es[0]), es[1..]);
      if exists i :: 0 <= i < |es| && es[i].Scrolled? {
        var i :| 0 <= i < |es| && es[i].Scrolled?;
        if i > 0 {
          assert es[1..][i - 1] == es[i];
        }
      }
    }
  }

  /** From load: `lastScrollY` is the latest scroll position, at most one frame is
      pending and `ticking` says whether one is, and once any scroll has been seen
      and no frame is pending, the navbar is sized for the latest position. */
  lemma FromLoad(es: seq<ScrollEvent>)
    ensures var r := Run(Initial(), es);
            Throttled(r) && Settled(r) && r.pendingFrames <= 1 && r.lastScrollY == LatestY(0, es)
    ensures var r := Run(Initial(), es);
            (exists i :: 0 <= i < |es| && es[i].Scrolled?) && !r.ticking ==>
              r.navbarPadding == Some(PaddingFor(r.lastScrollY))
  {
    RunKeepsThrottle(Initial(), es);
  }

  /** The scroll-effects object, with the browser state it drives. */
  class ScrollEffects {
    var lastScrollY: int
    var ticking: bool
    /** Frame callbacks requested from the browser and not yet run. */
    var pendingFrames: nat
    /** `navbar.style.padding` (`None` while unset). */
    var navbarPadding: Option<string>

    function View(): ScrollView
      reads this
    {
      ScrollView(lastScrollY, ticking, pendingFrames, navbarPadding)
    }

    ghost predicate Valid()
      reads this
    {
      Throttled(View()) && Settled(View())
    }

    constructor ()
      ensures View() == Initial() && Valid()
    {
      lastScrollY := 0;
      ticking := false;
      pendingFrames := 0;
      navbarPadding := None;
    }

    /** `onScroll` while `window.scrollY` is `scrollY`. */
    method OnScroll(scrollY: int)
      modifies this
      ensures View() == OnScrollView(old(View()), scrollY)
      ensures old(Valid()) ==> Valid() && pendingFrames == 1
    {
      lastScrollY := scrollY;
      if !ticking {
        pendingFrames := pendingFrames + 1;
        ticking := true;
      }
    }

    /** `updateNavbar`. */
    method UpdateNavbar()
      modifies this`navbarPadding
      ensures navbarPadding == Some(PaddingFor(lastScrollY))
    {
      if lastScrollY > CompactThreshold {
        navbarPadding := Some(CompactPadding);
      } else {
        navbarPadding := Some(RegularPadding);
      }
    }

    /** The browser runs the frame callback `onScroll` requested. */
    method OnAnimationFrame()
      requires pendingFrames > 0
      modifies this
      ensures View() == FrameView(old(View()))
      ensures old(Valid()) ==> Valid() && pendingFrames == 0
    {
      pendingFrames := pendingFrames - 1;
      UpdateNavbar();
      ticking := false;
    }
  }
}
