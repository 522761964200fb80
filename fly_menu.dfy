/**
 * `FlyMenuComponent`: a draggable menu that flies out in a direction, flips to
 * the opposite direction when the default one would overflow the viewport,
 * and closes on an outside click or after an item is chosen.
 */
module FlyMenu {
  import opened Wrappers

  datatype Direction = Right | Left | Up | Down

  /** The horizontal directions. */
  predicate Horizontal(d: Direction) {
    d == Right || d == Left
  }

  /** The `opposite` table: the other end of the same axis. */
  function Opposite(d: Direction): (o: Direction)
    ensures o != d && Horizontal(o) == Horizontal(d)
  {
    match d
    case Right => Left
    case Left => Right
    case Up => Down
    case Down => Up
  }

  /** Flipping twice returns the direction flipped. */
  lemma OppositeInvolution(d: Direction)
    ensures Opposite(Opposite(d)) == d
  {
  }

  /**
   * What `getBoundingClientRect` shows: whether the items overflow the
   * viewport laid out in the default direction, and in the opposite one.
   */
  datatype Layout = Layout(defaultOverflows: bool, oppositeOverflows: bool)

  /**
   * The direction `adjustDirectionIfOverflowing` settles on: the default one
   * unless it overflows and the opposite one does not.
   */
  function ChooseDirection(default: Direction, layout: Layout): (d: Direction)
    ensures d == default || d == Opposite(default)
    ensures d == Opposite(default) <==> layout.defaultOverflows && !layout.oppositeOverflows
  {
    if !layout.defaultOverflows then default
    else if !layout.oppositeOverflows then Opposite(default)
    else default
  }

  datatype MenuItem = MenuItem(icon: string, title: Option<string>, hasAction: bool)

  class FlyMenuComponent {
    /** The `direction` input. */
    const direction: Direction
    var open: bool
    var dragging: bool
    var dragStart: bool
    var activeDirection: Direction
    var directionAdjusted: bool
    /** The document `mousedown` listener is registered. */
    var listening: bool
    /** Timers that will clear `dragStart`, one per finished drag. */
    var pendingDragResets: nat
    /** The items whose action ran, in order. */
    var actionsRun: seq<MenuItem>

    /** The direction is adjusted at most once per open session, and only while open. */
    ghost predicate Valid()
      reads this
    {
      directionAdjusted ==> open
    }

    /**
     * The component as constructed: `open` and `activeDirection` take the
     * field defaults (`false`, `right`) because inputs are bound afterwards.
     */
    constructor (direction: Direction)
      ensures this.direction == direction && Valid()
      ensures !open && !dragging && !dragStart && activeDirection == Right && !directionAdjusted
      ensures !listening && pendingDragResets == 0 && actionsRun == []
    {
      this.direction := direction;
      open, dragging, dragStart := false, false, false;
      activeDirection := Right;
      directionAdjusted := false;
      listening := false;
      pendingDragResets := 0;
      actionsRun := [];
    }

    /** `ngAfterViewInit`: registers the outside-click listener (the stored position is not modelled). */
    method AfterViewInit()
      requires Valid()
      modifies this
      ensures Valid() && listening
      ensures open == old(open) && directionAdjusted == old(directionAdjusted)
      ensures activeDirection == old(activeDirection) && dragStart == old(dragStart)
      ensures dragging == old(dragging) && actionsRun == old(actionsRun)
      ensures pendingDragResets == old(pendingDragResets)
    {
      listening := true;
    }

    method OnDestroy()
      requires Valid()
      modifies this
      ensures Valid() && !listening
      ensures open == old(open) && directionAdjusted == old(directionAdjusted)
      ensures activeDirection == old(activeDirection) && dragStart == old(dragStart)
      ensures dragging == old(dragging) && actionsRun == old(actionsRun)
      ensures pendingDragResets == old(pendingDragResets)
    {
      listening := false;
    }

    /** `adjustDirectionIfOverflowing`; `None` when the items element is not found. */
    method AdjustDirection(layout: Option<Layout>)
      modifies this
      ensures activeDirection == if layout.Some? then ChooseDirection(direction, layout.value) else old(activeDirection)
      ensures open == old(open) && directionAdjusted == old(directionAdjusted)
      ensures dragStart == old(dragStart) && dragging == old(dragging) && listening == old(listening)
      ensures actionsRun == old(actionsRun) && pendingDragResets == old(pendingDragResets)
    {
      if layout.None? {
        return;
      }
      activeDirection := ChooseDirection(direction, layout.value);
    }

    /**
     * `toggleMenu`: ignored right after a drag; otherwise flips `open`,
     * choosing the direction when it opens and forgetting the choice when it
     * closes.
     */
    method ToggleMenu(layout: Option<Layout>)
      requires Valid()
      modifies this
      ensures Valid()
      ensures old(dragStart) ==> open == old(open) && directionAdjusted == old(directionAdjusted)
                                 && activeDirection == old(activeDirection)
      ensures !old(dragStart) ==> open == !old(open) && directionAdjusted == open
      ensures !old(dragStart) && !old(open) && layout.Some? ==> activeDirection == ChooseDirection(direction, layout.value)
      ensures old(dragStart) || old(open) || layout.None? ==> activeDirection == old(activeDirection)
      ensures dragStart == old(dragStart) && dragging == old(dragging) && listening == old(listening)
      ensures actionsRun == old(actionsRun) && pendingDragResets == old(pendingDragResets)
    {
      if dragStart {
        return;
      }
      var next := !open;
      open := next;
      if next && !directionAdjusted {
        AdjustDirection(layout);
        directionAdjusted := true;
      }
      if !next {
        directionAdjusted := false;
      }
    }

    method OnDragStarted()
      requires Valid()
      modifies this
      ensures Valid() && dragStart && dragging
      ensures open == old(open) && directionAdjusted == old(directionAdjusted)
      ensures activeDirection == old(activeDirection) && listening == old(listening)
      ensures actionsRun == old(actionsRun) && pendingDragResets == old(pendingDragResets)
    {
      dragStart := true;
      dragging := true;
    }

    /** `onDragEnd`: stops dragging and schedules the reset of `dragStart` (position is not modelled). */
    method OnDragEnd()
      requires Valid()
      modifies this
      ensures Valid() && !dragging && pendingDragResets == old(pendingDragResets) + 1
      ensures open == old(open) && directionAdjusted == old(directionAdjusted) && dragStart == old(dragStart)
      ensures activeDirection == old(activeDirection) && listening == old(listening)
      ensures actionsRun == old(actionsRun)
    {
      dragging := false;
      pendingDragResets := pendingDragResets + 1;
    }

    /** One of the 100 ms timers scheduled by `onDragEnd` fires. */
    method DragResetElapsed()
      requires Valid() && pendingDragResets > 0
      modifies this
      ensures Valid() && !dragStart && pendingDragResets == old(pendingDragResets) - 1
      ensures open == old(open) && directionAdjusted == old(directionAdjusted) && dragging == old(dragging)
      ensures activeDirection == old(activeDirection) && listening == old(listening)
      ensures actionsRun == old(actionsRun)
    {
      dragStart := false;
      pendingDragResets := pendingDragResets - 1;
    }

    /** A `mousedown` anywhere in the document; `inside` when its target is within the menu. */
    method DocumentMouseDown(inside: bool)
      requires Valid()
      modifies this
      ensures Valid()
      ensures listening && !inside ==> !open && !directionAdjusted
      ensures !(listening && !inside) ==> open == old(open) && directionAdjusted == old(directionAdjusted)
      ensures activeDirection == old(activeDirection) && dragStart == old(dragStart) && dragging == old(dragging)
      ensures listening == old(listening) && actionsRun == old(actionsRun)
      ensures pendingDragResets == old(pendingDragResets)
    {
      if listening && !inside {
        open := false;
        directionAdjusted := false;
      }
    }

    method OnMenuItemClick(item: MenuItem)
      requires Valid()
      modifies this
      ensures Valid() && !open && !directionAdjusted
      ensures actionsRun == old(actionsRun) + (if item.hasAction then [item] else [])
      ensures activeDirection == old(activeDirection) && dragStart == old(dragStart) && dragging == old(dragging)
      ensures listening == old(listening) && pendingDragResets == old(pendingDragResets)
    {
      if item.hasAction {
        actionsRun := actionsRun + [item];
      }
      open := false;
      directionAdjusted := false;
    }
  }

  /**
   * A fresh menu toggled open and then closed, with the same layout each time,
   * is closed with the direction chosen at the opening still active; toggled
   * open once more, it chooses the same direction again.
   */
  method ReopenChoosesAgain(direction: Direction, layout: Layout)
    returns (openAfterTwo: bool, chosen: Direction, chosenAgain: Direction)
    ensures !openAfterTwo
    ensures chosen == chosenAgain == ChooseDirection(direction, layout)
  {
    var menu := new FlyMenuComponent(direction);
    menu.ToggleMenu(Some(layout));
    menu.ToggleMenu(Some(layout));
    openAfterTwo := menu.open;
    chosen := menu.activeDirection;
    menu.ToggleMenu(Some(layout));
    chosenAgain := menu.activeDirection;
  }
}
