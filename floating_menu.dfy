/**
 * `FloatingMenuComponent`: a menu button that spins while the menu is open,
 * closes after an item is chosen or on an outside click, unless it is meant
 * to stay open (`defaultOpen`).
 */
module FloatingMenu {
  import opened Wrappers

  datatype MenuItem = MenuItem(title: string, hasAction: bool)

  class FloatingMenuComponent {
    /** The `defaultOpen` input. */
    const defaultOpen: bool
    var items: seq<MenuItem>
    var open: bool
    var spinning: bool
    /** The capturing document `mousedown` listener is registered. */
    var listening: bool
    /** The items whose action ran, in order. */
    var actionsRun: seq<MenuItem>

    /**
     * The component as constructed: `open` takes the field default `false`,
     * since `defaultOpen` is bound only afterwards.
     */
    constructor (defaultOpen: bool)
      ensures this.defaultOpen == defaultOpen
      ensures items == [] && !open && !spinning && !listening && actionsRun == []
    {
      this.defaultOpen := defaultOpen;
      items := [];
      open, spinning, listening := false, false, false;
      actionsRun := [];
    }

    /** The `items` setter: a null or undefined value becomes the empty list. */
    method SetItems(value: Option<seq<MenuItem>>)
      modifies this
      ensures items == value.GetOr([])
      ensures open == old(open) && spinning == old(spinning) && listening == old(listening)
      ensures actionsRun == old(actionsRun)
    {
      items := if value.Some? then value.value else [];
    }

    method AfterViewInit()
      modifies this
      ensures listening
      ensures items == old(items) && open == old(open) && spinning == old(spinning)
      ensures actionsRun == old(actionsRun)
    {
      listening := true;
    }

    method OnDestroy()
      modifies this
      ensures !listening
      ensures items == old(items) && open == old(open) && spinning == old(spinning)
      ensures actionsRun == old(actionsRun)
    {
      listening := false;
    }

    /**
     * `handleDocumentClick`, when registered: `hasElement` when the host
     * element exists, `inside` when the click landed within it.
     */
    method DocumentMouseDown(hasElement: bool, inside: bool)
      modifies this
      ensures open == (if listening && !defaultOpen && old(open) && hasElement && !inside then false else old(open))
      ensures items == old(items) && spinning == old(spinning) && listening == old(listening)
      ensures actionsRun == old(actionsRun)
    {
      if listening && !defaultOpen && open && hasElement && !inside {
        open := false;
      }
    }

    method OnMenuItemClick(item: MenuItem)
      modifies this
      ensures actionsRun == old(actionsRun) + (if item.hasAction then [item] else [])
      ensures open == (defaultOpen && old(open))
      ensures items == old(items) && spinning == old(spinning) && listening == old(listening)
    {
      if item.hasAction {
        actionsRun := actionsRun + [item];
      }
      if !defaultOpen {
        open := false;
      }
    }

    method ToggleMenu()
      modifies this
      ensures open == !old(open) && spinning == !old(spinning)
      ensures items == old(items) && listening == old(listening) && actionsRun == old(actionsRun)
    {
      open := !open;
      spinning := !spinning;
    }
  }

  /**
   * On a fresh menu: toggling twice restores `open` and `spinning`; an item
   * click after one toggle leaves it open exactly when it is meant to stay open.
   */
  method ToggleScenario(defaultOpen: bool, item: MenuItem)
    returns (openAfterTwo: bool, spinningAfterTwo: bool, openAfterClick: bool)
    ensures !openAfterTwo && !spinningAfterTwo
    ensures openAfterClick <==> defaultOpen
  {
    var menu := new FloatingMenuComponent(defaultOpen);
    menu.ToggleMenu();
    menu.ToggleMenu();
    openAfterTwo, spinningAfterTwo := menu.open, menu.spinning;
    menu.ToggleMenu();
    menu.OnMenuItemClick(item);
    openAfterClick := menu.open;
  }
}
