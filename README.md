# Paskanet II desktop shell — a Dafny model

Paskanet II is a browser-hosted imitation of a server operating system's
desktop, written as a single React component tree (`index.tsx`). This
project models its logic core and proves properties of it:

- the **panel registry**, the partial map from a tool's display name to the
  panel that renders it, and the nineteen names the Tools menu lists;
- the **window store**: the list of open windows with their ids, ranks
  (`zIndex`) and positions, the id counter, and the open / close / focus /
  move transforms and the paint order (`WindowStore`);
- the **shell** itself, as a class holding the session flags, the start
  menu flag, the window list, the id counter and the drag gesture state,
  with one method per handler (`Shell`);
- the **command prompt**: the line interpreter with its transcript and the
  command history cursor (`Terminal`), over JavaScript's `trim`, `split`,
  `join`, `toLowerCase` and integer printing (`Text`);
- the smaller state machines: the Services panel's start / stop / restart
  (`ServicesPanel`), the Disk Cleanup wizard (`DiskCleanup`), the integer
  CPU and memory jitter of the Resource Monitor and Server Manager
  (`Monitors`), and the menu bar's drop-downs (`MenuBar`).

Pure list transforms and formatters are functions with lemmas; what the
source changes in place (the shell's fields, the terminal's transcript and
history, the in-place sort before painting, the loop that pushes the ping
replies) is a class or a method proved against those functions.

Randomness, clocks and the DOM are parameters: a ping delay is
`20 + roll` with `roll` in 0..130 (`Terminal.Roll`), the monitors take their
draws as `Roll5` / `Roll7`, the `date` and `time` commands take the
formatted strings as a `Clock`, the drag start takes the window element's
top-left corner (or `None` when the pointer is not inside a window), and
a mouse-down is told whether it landed inside the menu.

`focusWindow` tops a window with the number of open windows, not with the
highest live rank, so a close can leave gaps in the ranks, after which focus
no longer keeps them 1..N. `WindowStore.FocusAfterClose`
shows the resulting misbehaviour on three windows, and the rank invariant
is proved for runs of opens and focuses only (`WindowStore.OpenFocusKeepsDense`).

## Model

| member | source | states |
|---|---|---|
| Registry.Resolve | index.tsx:737-746 | a name resolves only to the panel registered under exactly that name |
| Registry.ResolvePanelName | index.tsx:737-746 | every panel is reachable under its registered name, and a name reaches a panel only if it is that panel's name |
| Registry.MenuCoverage | index.tsx:6-26 | of the 19 Tools menu entries exactly the 7 at positions {0,3,4,6,11,13,14} open a panel; the rest get the "not available" notice |
| Registry.ServerManagerOffMenu | index.tsx:739 | "Server Manager" resolves to its panel but is not a Tools menu entry (it is opened from the desktop icon, index.tsx:883) |
| WindowStore.PlacementStaggers | index.tsx:815 | new windows are placed at x = y = 50 + (id mod 10) * 20: period 10, distinct within 10, between 50 and 230 |
| WindowStore.IndexOf | index.tsx:788 | the first window carrying the id, or None exactly when no window carries it |
| WindowStore.Open | index.tsx:801-821 | an unknown name changes neither the list nor the counter; a known one appends exactly one window with the old counter as id, the tool name as title, rank old length + 1, 640x480 or the viewport-inset size for the Server Manager, keeps the old windows and bumps the counter; the new window sits at (50, 40) for the Server Manager and otherwise at x = y = 50 + (old counter mod 10) * 20 |
| WindowStore.OpenPreserves | index.tsx:807-819 | opening keeps ids unique and below the counter, keeps ranks 1..N, and never lowers the counter |
| WindowStore.Focus | index.tsx:785-799 | focus changes only ranks, keeps the length, and an absent id leaves the list unchanged |
| WindowStore.IndexOfUnique | index.tsx:788 | with unique ids, the lookup finds the one window carrying the id |
| WindowStore.FocusRanks | index.tsx:792-797 | with unique ids, raising window k from below the top gives it rank N, moves windows above its old rank down one and leaves the others |
| WindowStore.FocusRanksDistinct | index.tsx:792-797 | with ranks 1..N and unique ids, raising a window below the top keeps ranks distinct |
| WindowStore.FocusKeepsDense | index.tsx:785-799 | with ranks 1..N and unique ids, focus keeps ranks 1..N and ids unique, puts the target on N, moves those above its old rank down one and leaves those below untouched |
| WindowStore.FocusTopNoOp | index.tsx:789-791 | focusing the window that already holds rank N leaves the list unchanged, whatever its ranks |
| WindowStore.FocusIdempotent | index.tsx:789-791 | focusing twice is focusing once, on any list |
| WindowStore.FocusOrder | index.tsx:785-799 | with ranks 1..N and unique ids, after focus(a) then focus(b), b holds rank N and a rank N-1 |
| WindowStore.Close | index.tsx:823-825 | closing never lengthens the list |
| WindowStore.CloseMembers | index.tsx:824 | the result holds exactly the windows of the list whose id differs |
| WindowStore.CloseAbsent | index.tsx:824 | closing an id no window carries changes nothing |
| WindowStore.CloseIdempotent | index.tsx:824 | closing twice is closing once |
| WindowStore.CloseAppend | index.tsx:824 | the filter works window by window, so survivors keep their order |
| WindowStore.CloseCutsOut | index.tsx:824 | closing the id of a window that occurs nowhere else removes just that window and keeps the others in order |
| WindowStore.CloseOne | index.tsx:823-825 | with unique ids, closing an open window removes exactly that window and shortens the list by one |
| WindowStore.CloseKeepsDistinctIds | index.tsx:824 | closing keeps ids unique |
| WindowStore.FocusAfterClose | index.tsx:787-791 | with ranks {1,2,3}, after closing rank 1 focusing the rank-2 window is a no-op and focusing the rank-3 window leaves two windows on rank 2 |
| WindowStore.MoveTo | index.tsx:830 | a move keeps the length |
| WindowStore.MoveTouchesOnlyTarget | index.tsx:830 | only windows carrying the id change, and only their position; an absent id changes nothing |
| WindowStore.MoveTwice | index.tsx:830 | the last move wins |
| WindowStore.MoveCommutesWithFocus | index.tsx:830 | moving and raising commute |
| WindowStore.InsertionPoint | index.tsx:886 | a new window goes after every lower-ranked window and before the first ranked at least as high |
| WindowStore.InsertSorted | index.tsx:886 | inserting into a rank-sorted list keeps it sorted |
| WindowStore.InsertPermutes | index.tsx:886 | inserting adds exactly that window |
| WindowStore.RenderOrder | index.tsx:886 | the paint order; no contract of its own, its properties are the three lemmas below and `RenderOrderStable` |
| WindowStore.OfRankAppend | index.tsx:886 | the windows of one rank in a concatenation are those of the first part followed by those of the second |
| WindowStore.InsertKeepsRankOrder | index.tsx:886 | an inserted window goes ahead of the windows already there with its rank |
| WindowStore.RenderOrderStable | index.tsx:886 | the sort is stable: the windows of any one rank are painted in list order |
| WindowStore.RenderOrderSortsAndPermutes | index.tsx:886 | the paint order is sorted by ascending rank and is a permutation of the open windows |
| WindowStore.InsertKeepsDistinct | index.tsx:886 | inserting a window with a fresh key keeps keys distinct |
| WindowStore.RenderOrderKeepsDistinct | index.tsx:886 | sorting keeps unique ids unique |
| WindowStore.StrictRanksFrom | index.tsx:886 | in a strictly increasing list of ranks from 1..N, position i holds at least i + 1 |
| WindowStore.StrictRanksTo | index.tsx:886 | in a strictly increasing list of ranks from 1..N, position i holds at most i + 1 |
| WindowStore.RenderOrderOfDense | index.tsx:886 | with ranks 1..N, the k-th window painted holds rank k + 1 |
| WindowStore.Step | index.tsx:792-821 | one open or focus never lowers the id counter and never drops a window |
| WindowStore.Run | index.tsx:792-821 | a run of opens and focuses never lowers the id counter and never drops a window |
| WindowStore.OpenFocusKeepsDense | index.tsx:785-821 | any run of opens and focuses keeps ids unique and below the counter, ranks a permutation of 1..N, and never lowers the counter |
| Shell.DragFollowsPointer | index.tsx:830-846 | a move to `pointer - (p0 - top)` puts the dragged window at top + (pointer - p0) |
| Shell.Shell.CurrentMode | index.tsx:853-876 | the screen shown: the shutdown screen wins over both others, then the desktop when logged in, else the login form; every handler requires the screen it is reachable from |
| Shell.Shell.constructor | index.tsx:749-757 | the shell starts logged out with no windows, counter 0, no drag and the start menu closed |
| Shell.Shell.HandleLogin | index.tsx:764-773 | from the login form, "0000" shows the desktop with an empty error; any other password keeps the login form and shows "Incorrect password." |
| Shell.Shell.HandleShutdown | index.tsx:775-776 | from the desktop, the shutdown screen is shown |
| Shell.Shell.ShutdownCompleted | index.tsx:777-782 | from the shutdown screen, completion empties the windows, closes the start menu, logs out and leaves the id counter as it was |
| Shell.Shell.ToggleStartMenu | index.tsx:908 | on the desktop, the start button flips the start menu |
| Shell.Shell.StartMenuMouseDown | index.tsx:89-97 | on the desktop, where the open start menu listens for mouse-downs, one outside the menu and off the start button closes the menu; any other keeps it |
| Shell.Shell.OpenWindow | index.tsx:801-821 | the new store is `Open` of the old one, the result says whether the tool exists, and the new window's id exceeds every existing id |
| Shell.Shell.CloseWindow | index.tsx:823-825 | the window list becomes `Close` of the old one, keeping the shell's invariant |
| Shell.Shell.FocusWindow | index.tsx:785-799 | the window list becomes `Focus` of the old one, keeping the shell's invariant |
| Shell.Shell.Render | index.tsx:886 | the state's own list is sorted in place into the paint order: a rank-sorted permutation of the old list |
| Shell.Shell.DragStart | index.tsx:839-850 | without an enclosing window nothing changes; otherwise the window is raised and the grab offset pointer - corner recorded |
| Shell.Shell.Drag | index.tsx:827-831 | on the desktop, where a drag registers its listeners: with no drag nothing changes; otherwise the dragged window moves to pointer - offset |
| Shell.Shell.DragEnd | index.tsx:833-837 | on the desktop, the drag ends |
| Shell.DragGesture | index.tsx:827-850 | a start at p0 on a window whose corner is top, a move to p1, a release and another move leave that window at top + (p1 - p0), every other window where it was, and no drag |
| Text.TrimStart | index.tsx:390 | trimming the front never lengthens the string, and what is left starts with a non-blank |
| Text.TrimStartSuffix | index.tsx:390 | what the front trim keeps is a suffix of the string, and everything it dropped is white space |
| Text.TrimEnd | index.tsx:390 | trimming the back never lengthens the string, and what is left ends with a non-blank |
| Text.TrimEndPrefix | index.tsx:390 | what the back trim keeps is a prefix of the string, and everything it dropped is white space |
| Text.Trim | index.tsx:390 | trimming never lengthens the string, and a non-empty result starts and ends with a non-blank |
| Text.TrimProperties | index.tsx:390 | trim cuts blank runs off both ends and nothing else, and a trimmed string is its own trim |
| Text.Split | index.tsx:390 | a split yields at least one piece |
| Text.SplitPiecesLackSeparator | index.tsx:390 | no piece of a split holds the separator |
| Text.Join | index.tsx:419 | `parts.join(sep)`; no contract of its own, its round trips with `Split` are the two lemmas `JoinSplit` and `SplitJoin` |
| Text.JoinSplit | index.tsx:390-420 | joining the pieces of a split gives back the string |
| Text.SplitWord | index.tsx:390 | a word without the separator splits into itself |
| Text.SplitAtFirst | index.tsx:390 | the first separator ends the first piece |
| Text.SplitJoin | index.tsx:390-420 | splitting a join of separator-free pieces gives back the pieces |
| Text.Lower | index.tsx:393 | lower-casing keeps the length and maps each character |
| Text.LowerMatches | index.tsx:393 | a word lower-cases to a verb exactly when it spells the verb in any letter case |
| Text.DigitChar | index.tsx:445-448 | a digit character has the digit's value |
| Text.NatToString | index.tsx:448 | an integer prints as decimal digits without a leading zero |
| Text.ParsePrinted | index.tsx:448 | reading a printed integer back gives the integer |
| Terminal.Words | index.tsx:390 | the command line has a verb word, possibly empty |
| Terminal.OneWord | index.tsx:390 | a trimmed line without spaces is the verb alone, with no arguments |
| Terminal.TwoWords | index.tsx:390 | a trimmed line of two space-free words is a verb and one argument |
| Terminal.FirstWord | index.tsx:390 | the verb is the trimmed line up to its first space and the arguments are the split of the rest |
| Terminal.Classify | index.tsx:390-483 | a command word is classified blank exactly when it is empty; which verb each spelling gives is stated at the command-line level by the verb lemmas below |
| Terminal.VerbLines | index.tsx:394-483 | the lines each verb prints; no contract of its own, `ListingVerbs`, `OneLineVerbs`, `EchoPrintsText`, `PingWithHost`, `PingWithoutHost`, `UnknownCommand` and `BlankCommand` state them |
| Terminal.Output | index.tsx:389-486 | cls clears the screen and exit closes the window, exactly; every other verb appends at least the echoed prompt first and a blank line last |
| Terminal.Response | index.tsx:389-486 | the effect of one command line; no contract of its own, `ResponseFrame`, `ClsAndExit` and the verb lemmas named for `VerbLines` state it |
| Terminal.PingReplies | index.tsx:446-449 | the loop pushes the four reply lines, one per draw |
| Terminal.Respond | index.tsx:389-486 | the output the interpreter builds is the `Response` of the command |
| Terminal.ResponseFrame | index.tsx:391-485 | every verb other than cls and exit appends the echoed prompt first and a blank line last |
| Terminal.EchoPrintsText | index.tsx:418-420 | `echo` prints exactly the text after its first space |
| Terminal.PingWithHost | index.tsx:441-451 | `ping host` (verb in any case) prints the echoed prompt, the header for that host, the four replies for that host and a blank line |
| Terminal.Delay | index.tsx:447 | a reply reports a delay of 20 to 150 ms |
| Terminal.Replies | index.tsx:446-449 | a ping prints four reply lines |
| Terminal.PingWithoutHost | index.tsx:442-443 | `ping` alone prints the usage line |
| Terminal.UnknownCommand | index.tsx:479-482 | a word that is no verb in any case prints the two "not recognized" lines, quoting the word as typed |
| Terminal.ClsAndExit | index.tsx:389-471 | a first word spelling cls in any case clears the screen, and one spelling exit closes the window, whatever follows |
| Terminal.ListingVerbs | index.tsx:389-475 | help, dir, tasklist, sysinfo and shutdown in any case append the echoed prompt, their listing and a blank line, whatever follows |
| Terminal.OneLineVerbs | index.tsx:389-429 | ver prints the version line, date and time print the clock's date and time after their captions, each between the echoed prompt and a blank line |
| Terminal.BlankCommand | index.tsx:476-478 | a blank line echoes the prompt and adds nothing else |
| Terminal.Older | index.tsx:497-503 | ArrowUp moves one entry older, stopping at the oldest, and stays within the history |
| Terminal.Newer | index.tsx:504-513 | ArrowDown from entry i > 0 moves to i - 1, and from the newest entry or the fresh input goes to the fresh input (-1) |
| Terminal.CursorRoundTrips | index.tsx:497-513 | ArrowDown undoes ArrowUp and ArrowUp undoes ArrowDown away from the ends |
| Terminal.Terminal.constructor | index.tsx:383-385 | a new prompt shows the banner, with empty history and the cursor on the fresh input |
| Terminal.Terminal.SetInput | index.tsx:537-540 | typing sets the input field |
| Terminal.Terminal.ExecuteCommand | index.tsx:389-486 | cls clears the transcript, exit asks for the window to close and appends nothing, everything else appends the response lines |
| Terminal.Terminal.Submit | index.tsx:489-496 | Enter records a non-empty command as newest, resets the cursor, runs the command and clears the input |
| Terminal.Terminal.HandleKeyDown | index.tsx:488-515 | Enter records a non-empty command as newest, resets the cursor, runs the command and clears the input; the arrows move the cursor as `Older` / `Newer` and show that entry; the cursor stays in -1..len-1 |
| ServicesPanel.Matching | index.tsx:215 | the number of services with a name is at most the list length |
| ServicesPanel.Act | index.tsx:213-226 | every service with the name gets the action's status (restart: stopped), every other field and service is kept, and a restart schedules one start per matching service |
| ServicesPanel.ActUnknownName | index.tsx:213-226 | an action on a name no service has changes nothing and schedules nothing |
| ServicesPanel.NoneMatching | index.tsx:215 | a name no service has matches none |
| ServicesPanel.MatchingUnique | index.tsx:215 | with distinct names, a listed name matches exactly once |
| ServicesPanel.RestartCompletes | index.tsx:219-223 | with distinct names, a restart stops the service and schedules one start, after which the list equals a plain start's |
| ServicesPanel.LastActionWins | index.tsx:213-226 | of two actions on the same service only the last shows |
| ServicesPanel.Find | index.tsx:228 | the toolbar's service is one with the selected name, or none when nothing is selected or no service has it |
| ServicesPanel.FindIsFirst | index.tsx:228 | the toolbar shows the first service carrying the selected name |
| ServicesPanel.Enabled | index.tsx:234-236 | a button is enabled only with a service selected: Start unless it is running, Stop unless it is stopped, Restart always |
| ServicesPanel.EnabledChangesStatus | index.tsx:235-236 | an enabled start or stop always changes the selected service's status |
| ServicesPanel.InitialNamesDistinct | index.tsx:202-210 | the initial services have distinct names |
| DiskCleanup.Enter | index.tsx:294-295 | entering a busy step resets the bar to 0 |
| DiskCleanup.ScanClicked | index.tsx:315 | Scan Disk at the start begins scanning with an empty bar; elsewhere the button is absent |
| DiskCleanup.CleanClicked | index.tsx:328 | Clean up on the results page begins cleaning with an empty bar; elsewhere the button is absent |
| DiskCleanup.Tick | index.tsx:296-305 | a tick adds 5 below 100, moves to the next step with the bar full at 100, and does nothing outside scanning and cleaning |
| DiskCleanup.Step | index.tsx:290-330 | one event keeps a valid wizard valid and never goes back a step |
| DiskCleanup.Run | index.tsx:290-330 | events applied in order; no contract of its own, `RunKeepsValid` states what it keeps |
| DiskCleanup.RunKeepsValid | index.tsx:290-308 | every event keeps the step within 0..4 and the bar a multiple of 5 within 0..100, and the step never goes back |
| DiskCleanup.TicksFill | index.tsx:303 | while the bar has room each tick adds 5 and the step stays |
| DiskCleanup.TicksAppend | index.tsx:296-305 | m + n ticks are m ticks followed by n ticks |
| DiskCleanup.BusyStepTakes21Ticks | index.tsx:296-305 | a busy step shows a full bar after 20 ticks and moves on at the 21st |
| DiskCleanup.WholeRun | index.tsx:290-330 | scan, 21 ticks, clean, 21 ticks ends the wizard with a full bar |
| DiskCleanup.DoneIsFinal | index.tsx:330 | once done no event changes anything |
| Monitors.Clamp | index.tsx:171 | the result lies in lo..hi, equals the value when it is in range and the nearer bound otherwise |
| Monitors.ClampStep | index.tsx:625-626 | clamping an in-range value moved by d never moves it further than d |
| Monitors.ClampMonotone | index.tsx:171 | clamping is monotone |
| Monitors.CpuJitter | index.tsx:171 | a process's CPU stays in 0..100, moves by at most 2 from an in-range value, and exactly by roll - 2 when that stays in range |
| Monitors.ProcessesTick | index.tsx:168-174 | one tick gives every process, name and pid kept, the CPU `CpuJitter` computes from its own draw, so within 0..100 and at most 2 from an in-range value |
| Monitors.ServerTick | index.tsx:621-628 | an offline server is untouched; any other keeps name and status, CPU and memory stay in 10..99, move by at most 3 and 2, and exactly by the draw when that stays in range |
| Monitors.ServersTick | index.tsx:621-628 | every server ticks on its own draws |
| Monitors.TicksKeepRange | index.tsx:619-631 | over any number of ticks live gauges stay in 10..99, offline servers are unchanged, and names and statuses are kept |
| Monitors.InitialInRange | index.tsx:605-610 | the initial fleet reads in range |
| MenuBar.Toggle | index.tsx:558-560 | a title opens its drop-down unless it is the open one, which it closes |
| MenuBar.SetToOverrides | index.tsx:558-565 | a queued plain value makes every update queued before it irrelevant |
| MenuBar.TitleClick | index.tsx:558-560 | a click on a title opens that drop-down unless it is the open one, and closes it exactly when it is |
| MenuBar.TitleClickTwice | index.tsx:558-560 | clicking a title twice restores the drop-down state when that drop-down or none was open |
| MenuBar.MouseDown | index.tsx:567-575 | a mouse-down outside the bar closes the drop-down; inside it keeps it |
| MenuBar.ToolEntryClickAsWritten | index.tsx:558-592 | the updates queued by a Tools entry click as written, in order: close, then toggle Tools; no contract of its own, its outcome is `ToolEntryReopensMenu` |
| MenuBar.ToolEntryClick | index.tsx:562-565 | the update queued by a Tools entry click that stops at the entry: close; no contract of its own, its outcome is `ToolEntryClosesMenu` |
| MenuBar.ToolEntryReopensMenu | index.tsx:558-592 | as written, choosing a tool leaves the Tools drop-down open, whatever was open before |
| MenuBar.ToolEntryClosesMenu | index.tsx:562-565 | with the click stopped at the entry, choosing a tool closes the drop-downs |
| MenuBar.ShutdownEntryClosesMenu | index.tsx:580-584 | the Shutdown entry's click closes the Manage drop-down |

## Left out

- JSX markup, CSS, icons, the taskbar clock and the scroll and focus effects: presentation only.
- Event listener registration, `closest`, `getBoundingClientRect` and `contains`: browser calls; their answers are parameters.
- `alert` for an unknown tool: `Shell.Shell.OpenWindow` returns false instead.
- Timers: the shutdown delay, the service restart delay and the Disk Cleanup interval are explicit events (`Shell.Shell.ShutdownCompleted`, a second `ServicesPanel.Act` with Start, `DiskCleanup.Tick`).
- React's update batching, stale closures and strict-mode double calls: each handler runs to completion on the state the previous one left. The menu bar's state updates are applied in the order they were queued (`MenuBar.ApplyAll`); a click on a Tools entry bubbles up to the Tools title, so it queues the entry's update and then the title's.
- Component state lost when a window closes: each panel's state is modelled on its own.
- Pointer coordinates are integers; the browser's fractional coordinates are not modelled.
- The CSS `calc(100vw - 100px)` / `calc(100vh - 150px)` sizes are kept as the insets 100 and 150 (`WindowStore.Size`).
- Tool lookup in the registry object would also find inherited property names such as `toString`; the model's registry has only its eight entries.
- Text.LowerChar: lower-cases only ASCII letters and the Kelvin sign, the one non-ASCII character that lower-cases to an ASCII letter; that is all verb matching can observe.
- Terminal.Clock: the `date` and `time` commands print locale strings; those strings are parameters.
- Terminal.Listings: the help, dir, tasklist, sysinfo and shutdown texts are the constants in `Terminal.Fixed`; the interpreter's functions take them as a parameter so their lemmas hold for any listing texts.
- The Performance Monitor's float series and SVG path, the Resource Monitor's float memory figure and its `toFixed` display, and the Server Manager's network and memory-in-GB figures: floating point.
- Monitors.ProcessesTick: does not model the descending CPU sort the Resource Monitor performs while rendering (index.tsx:186), a display order.
- The Event Viewer and Optimize Drives panels: fixed tables and a timer-driven flag, no logic the shell depends on.

## Findings

| source | as written | input that shows it | evidently intended | confidence | as-written member | corrected member |
|---|---|---|---|---|---|---|
| index.tsx:558-592 | a Tools entry's click runs `handleItemClick`, which queues "close", and then bubbles to the Tools title, whose handler queues "toggle Tools"; applied in order, the drop-down ends open | Tools open, click "Services" | the drop-down closes once a tool is chosen, as `setOpenMenu(null)` in `handleItemClick` says | medium, not executed | MenuBar.ToolEntryReopensMenu | MenuBar.ToolEntryClosesMenu |
