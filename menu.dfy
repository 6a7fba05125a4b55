/** The mobile navigation menu: a two-state open/closed machine whose state is
    mirrored by the `active` class of the button and of the menu, and by the
    body's `overflow` style. */
module Menu {

  /** `document.body.style.overflow` while the menu is open. */
  const Hidden: string := "hidden"

  /** The menu object and the page state it drives. */
  datatype MenuView = MenuView(isOpen: bool, buttonActive: bool, menuActive: bool, bodyOverflow: string)

  /** The page agrees with `isOpen`: both `active` classes are set and scrolling is
      locked exactly while the menu is open. */
  predicate Consistent(v: MenuView)
  {
    v.buttonActive == v.isOpen && v.menuActive == v.isOpen && (v.bodyOverflow == Hidden) == v.isOpen
  }

  /** The state `open` leaves behind. */
  function Opened(): (v: MenuView)
    ensures v.isOpen && Consistent(v)
  {
    MenuView(true, true, true, Hidden)
  }

  /** The state `close` leaves behind; the overflow style is cleared to `''`. */
  function Closed(): (v: MenuView)
    ensures !v.isOpen && Consistent(v) && v.bodyOverflow == ""
  {
    MenuView(false, false, false, "")
  }

  /** `toggle`. */
  function ToggleView(v: MenuView): (r: MenuView)
    ensures r.isOpen == !v.isOpen
    ensures Consistent(r)
    ensures v.isOpen ==> r == Closed()
    ensures !v.isOpen ==> r == Opened()
  {
    if v.isOpen then Closed() else Opened()
  }

  /** The document click listener, for a click whose target lies inside the menu
      (`insideMenu`) or inside the menu button (`insideButton`) or neither. */
  function DocumentClickView(v: MenuView, insideMenu: bool, insideButton: bool): (r: MenuView)
    ensures !v.isOpen ==> r == v
    ensures insideMenu || insideButton ==> r == v
    ensures r.isOpen <==> v.isOpen && (insideMenu || insideButton)
    ensures v.isOpen && !insideMenu && !insideButton ==> r == Closed()
    ensures Consistent(v) ==> Consistent(r)
  {
    if v.isOpen && !insideMenu && !insideButton then Closed() else v
  }

  /** The keydown listener, for a key event whose `key` is `key`. */
  function KeyDownView(v: MenuView, key: string): (r: MenuView)
    ensures !v.isOpen || key != "Escape" ==> r == v
    ensures r.isOpen <==> v.isOpen && key != "Escape"
    ensures key == "Escape" && v.isOpen ==> r == Closed()
    ensures Consistent(v) ==> Consistent(r)
  {
    if key == "Escape" && v.isOpen then Closed() else v
  }

  /** The events the menu reacts to: a click on the menu button, a click seen by the
      document listener, a click on a mobile link, a key press. */
  datatype MenuEvent =
    | ButtonClick
    | DocumentClick(insideMenu: bool, insideButton: bool)
    | LinkClick
    | KeyDown(key: string)

  function Step(v: MenuView, e: MenuEvent): MenuView
  {
    match e
    case ButtonClick => ToggleView(v)
    case DocumentClick(m, b) => DocumentClickView(v, m, b)
    case LinkClick => Closed()
    case KeyDown(k) => KeyDownView(v, k)
  }

  /** The state after handling `es` in order. */
  function Run(v: MenuView, es: seq<MenuEvent>): MenuView
    decreases |es|
  {
    if es == [] then v else Run(Step(v, es[0]), es[1..])
  }

  /** Whether the event changes anything from `v`. */
  predicate Effective(v: MenuView, e: MenuEvent)
  {
    Step(v, e) != v
  }

  /** `close` is idempotent, and Escape and outside clicks change nothing while
      the menu is closed, whatever the page looks like. */
  lemma ClosedIsStable(v: MenuView, key: string, insideMenu: bool, insideButton: bool)
    ensures Step(Step(v, LinkClick), LinkClick) == Step(v, LinkClick) == Closed()
    ensures !v.isOpen ==> !Effective(v, KeyDown(key)) && !Effective(v, DocumentClick(insideMenu, insideButton))
  {
  }

  /** Every run of events keeps the page consistent with `isOpen`; and, from any
      page at all, the state is consistent as soon as the run contains a button
      click or a link click. */
  lemma {:induction false} RunKeepsConsistent(v: MenuView, es: seq<MenuEvent>)
    ensures Consistent(v) ==> Consistent(Run(v, es))
    ensures (exists i :: 0 <= i < |es| && (es[i].ButtonClick? || es[i].LinkClick?)) ==> Consistent(Run(v, es))
    decreases |es|
  {
    if es != [] {
      RunKeepsConsistent(Step(v, es[0]), es[1..]);
      if exists i :: 0 <= i < |es| && (es[i].ButtonClick? || es[i].LinkClick?) {
        var i :| 0 <= i < |es| && (es[i].ButtonClick? || es[i].LinkClick?);
        if i > 0 {
          assert es[1..][i - 1] == es[i];
        }
      }
    }
  }

  /** Where a click lands, as the page's listeners tell it apart. */
  datatype Target = MenuButton | MobileLink | InsideMenu | Elsewhere

  /** One click, dispatched as the browser does: the target's own listener first
      (the button toggles, a mobile link closes), then the document listener as the
      event bubbles up. A mobile link lies inside the menu. */
  function Click(v: MenuView, t: Target): (r: MenuView)
    ensures t == MenuButton ==> r.isOpen == !v.isOpen && Consistent(r)
    ensures t == MenuButton ==> r == if v.isOpen then Closed() else Opened()
    ensures t == MobileLink ==> r == Closed()
    ensures t == InsideMenu ==> r == v
    ensures t == Elsewhere ==> !r.isOpen && (v.isOpen ==> r == Closed()) && (!v.isOpen ==> r == v)
  {
    match t
    case MenuButton => DocumentClickView(ToggleView(v), false, true)
    case MobileLink => DocumentClickView(Closed(), true, false)
    case InsideMenu => DocumentClickView(v, true, false)
    case Elsewhere => DocumentClickView(v, false, false)
  }

  /** The menu object with the three visual flags it drives. */
  class MobileMenu {
    var isOpen: bool
    /** `mobileMenuBtn.classList.contains('active')` */
    var buttonActive: bool
    /** `mobileMenu.classList.contains('active')` */
    var menuActive: bool
    /** `document.body.style.overflow` */
    var bodyOverflow: string

    function View(): MenuView
      reads this
    {
      MenuView(isOpen, buttonActive, menuActive, bodyOverflow)
    }

    /** The menu starts closed, over the page as the markup leaves it. */
    constructor (buttonActive: bool, menuActive: bool, bodyOverflow: string)
      ensures !isOpen
      ensures this.buttonActive == buttonActive && this.menuActive == menuActive
      ensures this.bodyOverflow == bodyOverflow
    {
      isOpen := false;
      this.buttonActive := buttonActive;
      this.menuActive := menuActive;
      this.bodyOverflow := bodyOverflow;
    }

    /** `open`. */
    method Open()
      modifies this
      ensures isOpen && buttonActive && menuActive && bodyOverflow == Hidden
      ensures View() == Opened()
    {
      isOpen := true;
      buttonActive := true;
      menuActive := true;
      bodyOverflow := Hidden;
    }

    /** `close`. */
    method Close()
      modifies this
      ensures !isOpen && !buttonActive && !menuActive && bodyOverflow == ""
      ensures View() == Closed()
    {
      isOpen := false;
      buttonActive := false;
      menuActive := false;
      bodyOverflow := "";
    }

    /** `toggle`. */
    method Toggle()
      modifies this
      ensures isOpen == !old(isOpen) && Consistent(View())
      ensures View() == ToggleView(old(View()))
    {
      if isOpen {
        Close();
      } else {
        Open();
      }
    }

    /** The document click listener registered by `init`. */
    method OnDocumentClick(insideMenu: bool, insideButton: bool)
      modifies this
      ensures View() == DocumentClickView(old(View()), insideMenu, insideButton)
      ensures !old(isOpen) ==> View() == old(View())
    {
      if isOpen && !insideMenu && !insideButton {
        Close();
      }
    }

    /** The click listener `init` puts on every mobile link. */
    method OnLinkClick()
      modifies this
      ensures View() == Closed()
    {
      Close();
    }

    /** The keydown listener registered by `init`. */
    method OnKeyDown(key: string)
      modifies this
      ensures View() == KeyDownView(old(View()), key)
      ensures !old(isOpen) ==> View() == old(View())
    {
      if key == "Escape" && isOpen {
        Close();
      }
    }
  }
}
