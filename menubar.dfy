/**
 * The application menu bar: at most one of its two drop-downs (Manage,
 * Tools) is open. A click on a title toggles that drop-down; a click on a
 * Tools entry opens the tool; a mouse-down outside the bar closes whatever
 * is open.
 *
 * Handlers do not write the open drop-down directly: each queues an update
 * (a new value, or a function of the previous value), and the queued updates
 * of one click are applied in order afterwards. A click on a drop-down entry
 * first runs the entry's handler and then, because the entry sits inside the
 * title element, the title's handler as well.
 */
module MenuBar {

  import opened Wrappers

  datatype Menu = Manage | Tools

  /** One queued state update. */
  datatype Update = SetTo(value: Option<Menu>) | ToggleOf(menu: Menu)

  /** The title handler's update: close the drop-down if it is the open one, else open it. */
  function Toggle(prev: Option<Menu>, m: Menu): (r: Option<Menu>)
    ensures r == Some(m) <==> prev != Some(m)
    ensures r.None? <==> prev == Some(m)
  {
    if prev == Some(m) then None else Some(m)
  }

  function Apply(prev: Option<Menu>, u: Update): Option<Menu>
  {
    match u
    case SetTo(v) => v
    case ToggleOf(m) => Toggle(prev, m)
  }

  /** The queued updates of one click, applied in the order they were queued. */
  function ApplyAll(prev: Option<Menu>, us: seq<Update>): Option<Menu>
    decreases |us|
  {
    if us == [] then prev else ApplyAll(Apply(prev, us[0]), us[1..])
  }

  /** An update that sets a value makes everything queued before it irrelevant. */
  lemma {:induction false} SetToOverrides(prev: Option<Menu>, before: seq<Update>, v: Option<Menu>, after: seq<Update>)
    ensures ApplyAll(prev, before + [SetTo(v)] + after) == ApplyAll(v, after)
    decreases |before|
  {
    if before == [] {
      assert before + [SetTo(v)] + after == [SetTo(v)] + after;
      assert ([SetTo(v)] + after)[1..] == after;
    } else {
      assert (before + [SetTo(v)] + after)[1..] == before[1..] + [SetTo(v)] + after;
      SetToOverrides(Apply(prev, before[0]), before[1..], v, after);
    }
  }

  /** A click on a title. */
  function TitleClick(open: Option<Menu>, m: Menu): (r: Option<Menu>)
    ensures r == Some(m) <==> open != Some(m)
    ensures r.None? <==> open == Some(m)
  {
    assert [ToggleOf(m)][1..] == [];
    assert ApplyAll(open, [ToggleOf(m)]) == ApplyAll(Toggle(open, m), []);
    ApplyAll(open, [ToggleOf(m)])
  }

  /** Clicking a title twice in a row restores the drop-down that was open, if it was this one or none. */
  lemma TitleClickTwice(open: Option<Menu>, m: Menu)
    requires open == None || open == Some(m)
    ensures TitleClick(TitleClick(open, m), m) == open
  {
  }

  /** A mouse-down closes the open drop-down unless it lands inside the bar. */
  function MouseDown(open: Option<Menu>, insideBar: bool): (r: Option<Menu>)
    ensures insideBar ==> r == open
    ensures !insideBar ==> r.None?
  {
    if insideBar then open else None
  }

  /**
   * A click on a Tools entry as the bar is written: the entry's handler opens
   * the tool and queues "close", then the click reaches the Tools title,
   * whose handler queues "toggle Tools".
   */
  function ToolEntryClickAsWritten(open: Option<Menu>): Option<Menu>
  {
    ApplyAll(open, [SetTo(None), ToggleOf(Tools)])
  }

  /** After choosing a tool the Tools drop-down is open again, whatever was open before. */
  lemma ToolEntryReopensMenu(open: Option<Menu>)
    ensures ToolEntryClickAsWritten(open) == Some(Tools)
  {
    SetToOverrides(open, [], None, [ToggleOf(Tools)]);
  }

  /**
   * A click on a Tools entry as intended: the entry's handler opens the tool
   * and closes the drop-down, and the click goes no further.
   */
  function ToolEntryClick(open: Option<Menu>): Option<Menu>
  {
    ApplyAll(open, [SetTo(None)])
  }

  lemma ToolEntryClosesMenu(open: Option<Menu>)
    ensures ToolEntryClick(open) == None
  {
    SetToOverrides(open, [], None, []);
  }

  /**
   * The Manage drop-down's Shutdown entry queues nothing itself; the click
   * reaches the Manage title, which closes the drop-down (the entry is only
   * on screen while that drop-down is open).
   */
  function ShutdownEntryClick(open: Option<Menu>): Option<Menu>
  {
    ApplyAll(open, [ToggleOf(Manage)])
  }

  lemma ShutdownEntryClosesMenu()
    ensures ShutdownEntryClick(Some(Manage)) == None
  {
  }
}
