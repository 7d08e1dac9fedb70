/**
 * The shell: the top-level component that owns the session flags, the
 * window list, the window id counter, the start menu toggle and the state of
 * the drag gesture. Each handler runs to completion and sees the state the
 * previous one left.
 */
module Shell {

  import opened Wrappers
  import opened Registry
  import opened WindowStore

  /** The one password the login form accepts. */
  const Password: string := "0000"
  const IncorrectPassword: string := "Incorrect password."

  datatype Mode = LoggedOut | Desktop | ShuttingDown

  /** An active drag: which window, and where the pointer grabbed it. */
  datatype DragInfo = DragInfo(id: int, offset: Point)

  /** A drag that keeps the grab offset moves the window by the pointer's travel. */
  lemma DragFollowsPointer(ws: seq<Window>, id: int, top: Point, p0: Point, p1: Point)
    ensures var r := MoveTo(ws, id, p1.Minus(p0.Minus(top)));
      forall i :: 0 <= i < |ws| && ws[i].id == id ==> r[i].position == top.Plus(p1.Minus(p0))
  {
  }

  class Shell {
    var loggedIn: bool
    var shuttingDown: bool
    var loginError: string
    var startMenuOpen: bool
    var windows: seq<Window>
    var windowIdCounter: nat
    var dragInfo: Option<DragInfo>

    /** Ids are unique and all below the counter, so the counter is never reused. */
    ghost predicate Valid()
      reads this
    {
      WellFormed(Store(windows, windowIdCounter))
    }

    /** The screen shown: the shutdown screen wins over the login form. */
    function CurrentMode(): Mode
      reads this
    {
      if shuttingDown then ShuttingDown
      else if loggedIn then Desktop
      else LoggedOut
    }

    constructor ()
      ensures Valid() && CurrentMode() == LoggedOut
      ensures windows == [] && windowIdCounter == 0 && dragInfo == None
      ensures loginError == "" && !startMenuOpen
    {
      loggedIn, shuttingDown, loginError, startMenuOpen := false, false, "", false;
      windows, windowIdCounter, dragInfo := [], 0, None;
    }

    // -------------------------------------------------------------------
    // Session

    /** Checks the password; a wrong one keeps the session as it is and shows the error. */
    method HandleLogin(password: string)
      requires CurrentMode() == LoggedOut
      modifies this`loggedIn, this`loginError
      ensures password == Password ==> loginError == ""
      ensures password != Password ==> loginError == IncorrectPassword
      ensures CurrentMode() == (if password == Password then Desktop else LoggedOut)
    {
      if password == Password {
        loggedIn := true;
        loginError := "";
      } else {
        loginError := IncorrectPassword;
      }
    }

    /** Shows the shutdown screen; the completion arrives later as its own step. */
    method HandleShutdown()
      requires CurrentMode() == Desktop
      modifies this`shuttingDown
      ensures shuttingDown && CurrentMode() == ShuttingDown
    {
      shuttingDown := true;
    }

    /**
     * The delayed completion of a shutdown: no windows, start menu closed,
     * logged out. The id counter is kept, so ids opened after the next login
     * continue upward.
     */
    method ShutdownCompleted()
      requires Valid() && CurrentMode() == ShuttingDown
      modifies this`windows, this`startMenuOpen, this`loggedIn, this`shuttingDown
      ensures Valid()
      ensures windows == [] && !startMenuOpen && CurrentMode() == LoggedOut
      ensures windowIdCounter == old(windowIdCounter)
    {
      windows := [];
      startMenuOpen := false;
      loggedIn := false;
      shuttingDown := false;
    }

    // -------------------------------------------------------------------
    // Start menu

    method ToggleStartMenu()
      requires CurrentMode() == Desktop
      modifies this`startMenuOpen
      ensures startMenuOpen == !old(startMenuOpen)
    {
      startMenuOpen := !startMenuOpen;
    }

    /**
     * A mouse-down anywhere while the start menu is open: outside the menu and
     * off the start button it closes the menu; on the start button the
     * button's own toggle does the work.
     */
    method StartMenuMouseDown(insideMenu: bool, onStartButton: bool)
      requires CurrentMode() == Desktop
      modifies this`startMenuOpen
      ensures startMenuOpen == (old(startMenuOpen) && (insideMenu || onStartButton))
    {
      if startMenuOpen && !insideMenu && !onStartButton {
        startMenuOpen := false;
      }
    }

    // -------------------------------------------------------------------
    // Window store

    /**
     * Opens a tool. An unknown name is reported (the result is false) and
     * changes nothing, not even the counter; a known one appends a window on
     * top with the next id.
     */
    method OpenWindow(toolName: string) returns (available: bool)
      requires Valid() && CurrentMode() == Desktop
      modifies this`windows, this`windowIdCounter
      ensures Valid()
      ensures available == Resolve(toolName).Some?
      ensures Store(windows, windowIdCounter) == Open(Store(old(windows), old(windowIdCounter)), toolName)
      ensures available ==> forall i :: 0 <= i < |old(windows)| ==>
        old(windows)[i].id < windows[|windows| - 1].id
    {
      var panel := Resolve(toolName);
      if panel.None? {
        return false;
      }
      OpenPreserves(Store(windows, windowIdCounter), toolName);
      var newId := windowIdCounter;
      windowIdCounter := windowIdCounter + 1;
      windows := windows + [NewWindow(newId, toolName, panel.value, |windows|)];
      available := true;
    }

    method CloseWindow(id: int)
      requires Valid() && CurrentMode() == Desktop
      modifies this`windows
      ensures Valid()
      ensures windows == Close(old(windows), id)
    {
      CloseKeepsDistinctIds(windows, id);
      CloseMembers(windows, id);
      windows := Close(windows, id);
    }

    method FocusWindow(id: int)
      requires Valid() && CurrentMode() == Desktop
      modifies this`windows
      ensures Valid()
      ensures windows == Focus(old(windows), id)
    {
      windows := Focus(windows, id);
    }

    /**
     * Paints the windows: sorts the list by ascending rank in place (the list
     * itself is reordered) and returns the paint order.
     */
    method Render() returns (painted: seq<Window>)
      requires Valid() && CurrentMode() == Desktop
      modifies this`windows
      ensures Valid()
      ensures painted == windows == RenderOrder(old(windows))
      ensures multiset(windows) == multiset(old(windows)) && SortedByRank(windows)
    {
      RenderOrderSortsAndPermutes(windows);
      assert DistinctBy(windows, IdOf);
      RenderOrderKeepsDistinct(windows, IdOf);
      var sorted := RenderOrder(windows);
      forall i | 0 <= i < |sorted|
        ensures sorted[i].id < windowIdCounter
      {
        assert sorted[i] in multiset(windows);
      }
      windows := sorted;
      painted := windows;
    }

    // -------------------------------------------------------------------
    // Drag controller

    /**
     * Mouse-down on a title bar. `rect` is the top-left corner of the
     * enclosing window element, or None when there is none, in which case
     * nothing happens. Otherwise the window is raised and the grab offset
     * recorded. The same mouse-down also reaches the window's own focus
     * handler, a second raise of the same window, which changes nothing
     * (`WindowStore.FocusIdempotent`), so it is not repeated here.
     */
    method DragStart(id: int, rect: Option<Point>, pointer: Point)
      requires Valid() && CurrentMode() == Desktop
      modifies this`windows, this`dragInfo
      ensures Valid()
      ensures rect.None? ==> windows == old(windows) && dragInfo == old(dragInfo)
      ensures rect.Some? ==>
        && windows == Focus(old(windows), id)
        && dragInfo == Some(DragInfo(id, pointer.Minus(rect.value)))
    {
      if rect.None? {
        return;
      }
      FocusWindow(id);
      dragInfo := Some(DragInfo(id, pointer.Minus(rect.value)));
    }

    /** Pointer movement: while dragging, the window follows the pointer. */
    method Drag(pointer: Point)
      requires Valid() && CurrentMode() == Desktop
      modifies this`windows
      ensures Valid()
      ensures dragInfo.None? ==> windows == old(windows)
      ensures dragInfo.Some? ==>
        windows == MoveTo(old(windows), dragInfo.value.id, pointer.Minus(dragInfo.value.offset))
    {
      if dragInfo.None? {
        return;
      }
      var info := dragInfo.value;
      windows := MoveTo(windows, info.id, pointer.Minus(info.offset));
    }

    /** Mouse-up anywhere ends the gesture. */
    method DragEnd()
      requires CurrentMode() == Desktop
      modifies this`dragInfo
      ensures dragInfo == None
    {
      dragInfo := None;
    }
  }

  /**
   * A whole gesture: start on window `id` whose element's top-left is `top`,
   * move to p1, release, move again. The window ends at top + (p1 - p0),
   * everything else keeps its position, and the last move changes nothing.
   */
  method DragGesture(shell: Shell, id: int, top: Point, p0: Point, p1: Point, p2: Point)
    requires shell.Valid() && shell.CurrentMode() == Desktop
    modifies shell
    ensures shell.Valid()
    ensures shell.dragInfo == None
    ensures |shell.windows| == |old(shell.windows)|
    ensures forall i :: 0 <= i < |shell.windows| ==>
      && shell.windows[i].id == old(shell.windows)[i].id
      && shell.windows[i].position ==
           if old(shell.windows)[i].id == id then top.Plus(p1.Minus(p0)) else old(shell.windows)[i].position
  {
    shell.DragStart(id, Some(top), p0);
    ghost var raised := shell.windows;
    shell.Drag(p1);
    DragFollowsPointer(raised, id, top, p0, p1);
    shell.DragEnd();
    shell.Drag(p2);
  }
}
