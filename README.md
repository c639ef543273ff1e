# Atom8 step editor and run engine, in Dafny

Atom8 is a desktop tool for recording and replaying browser automations. The
user builds a list of steps in a window, and "Start" replays them through a
Selenium web driver. Examples of steps: navigate to a URL, click or type into
an element found by a locator, take a screenshot, run JavaScript, sleep,
maximize the window. The repository holds two snapshots of the window class:
`atom8.py` (the later one) and `main.py` (the earlier one). This project models
their shared core and proves properties of it.

- **Steps** (`steps.dfy`). A stored step is an `Entry`, the raw value kept in
  `self.steps`. It is one of three things:
  - a list of strings, which is what the editor builds;
  - a bare string, which is what `updateStep` stores for "Maximize Window";
  - any other JSON value loaded from a file.

  `At` models Python's `step[k]` on each of these, including the message of
  the exception it raises: an IndexError for a list or a string, a TypeError
  for a number, boolean or null, and a KeyError for an object. The typed `Step` datatype is the editor's view of a step. It
  round-trips with `Entry` through `Encode`/`Decode`. `AddedStep` and
  `EditedStep` give the tuple `addStep` and `updateStep` build for each
  action.
- **Display** (`display.dfy`). `constructStepDisplayText` is total: an
  subscript failure becomes "Error: …". There is also the row text `addStep` and
  `updateStep` show.
- **Editor** (`editor.dfy`). The class `StepEditor` holds `steps`, the
  widget's `rows`, the recent-file list and the current path. It has one
  method per editing operation, each with its full new state. Both snapshots
  implement these operations with identical code, so one class serves both.
  The model table cites the later snapshot and names the earlier one's lines.
- **Run engine** (`engine.dfy`, `options.dfy`, `locators.dfy`).
  `startAutomation` is modelled as a trace of driver calls, a log, and the
  exception that escapes, if any:
  - the later snapshot (`Automation`, `StartAutomation`) chooses Chrome or
    Edge from the settings, maps the checked option boxes through the
    browser's table, checks the driver file, launches, runs the step loop and
    quits;
  - the earlier snapshot (`EarlierAutomation`, `StartEarlierAutomation`)
    launches Chrome with at most "--headless" and has no outer handler.

  The Selenium driver is a parameter `Driver = (calls so far, call) -> bool`
  that says whether each call succeeds. The file system is a `Host`
  (`isfile`, `exists`, `getcwd`, `join`).
- **Settings and clipboard** (`settings.dfy`, `clipboard.dfy`). The settings
  file is a string map with defaults. A missing or undecodable file reads as
  empty. An undecodable file also makes each lookup log the warning "Failed
  to load settings file." In a run that is three warnings before the browser
  starts, and one more for each screenshot step that gets as far as reading
  its save path. The results-table combo box copies the text after the first colon,
  stripped.

Four behaviours of the code, modelled as written:

- **A step with no action aborts the run.** `action = step[0]` is read
  outside the per-step `try` (atom8.py:793, main.py:568). An empty list, an
  empty string, or a JSON number, boolean, null or object in `self.steps`
  therefore aborts the whole run, and the driver is never quit
  (`HeadlessEntryAbortsRun`). A non-empty string does not abort: its first
  character becomes the action.
- **An updated "Maximize Window" step does nothing.** `updateStep` stores the
  bare string "Maximize Window" (atom8.py:1288-1289). At run time its action
  is the letter "M", so the window is never maximized
  (`UpdatedMaximizeIsInert`).
- **Rows can fall out of line with steps.** `openFile` loads every entry into
  `self.steps` but gives rows only to list entries. Afterwards the widget can
  have fewer rows than there are steps, so row `i` no longer names step `i`.
  The class invariant is therefore `|rows| <= |steps|` (`Valid`). Every
  editing operation preserves the stronger lock-step invariant
  `|rows| == |steps|` (`InStep`). `OpenedRows` shows that loading restores
  lock-step exactly when every loaded entry is a list.
- **Opening a file that fails still changes state.** `openFile` records the
  path as current and adds it to the recent files before it reads the file.
  This happens even when loading then fails.

## Model

| member | source | states |
|---|---|---|
| Strings.Strip | atom8.py:38 | `str.strip()`: the result is the input minus its leading Python whitespace and everything from the end that is whitespace, and it neither starts nor ends with whitespace |
| Strings.StripIdempotent | atom8.py:38 | stripping twice is stripping once |
| Steps.At | atom8.py:793-818 | `step[k]` succeeds exactly when `k` is below the entry's length; otherwise it fails with the message of the subscript failure (IndexError for a list or a string, the scalar's TypeError or KeyError otherwise); on a list it yields the k-th element |
| Steps.Encode | atom8.py:501-523 | every step the editor builds is stored as a non-empty tuple whose first position is a supported action |
| Steps.Decode | atom8.py:952-964 | an entry reads as a well-formed step only when it is a non-empty list whose action is supported; anything else is kept unchanged as malformed |
| Steps.DecodeThenEncode | atom8.py:501-524 | every stored entry is the encoding of the step it decodes to, and that step is in canonical form |
| Steps.EncodeThenDecode | atom8.py:501-524 | every canonical step is recovered from its stored tuple |
| Steps.WithPng | atom8.py:518-520 | the screenshot name ends in ".png"; a name already ending in ".png" is unchanged, and any other name is extended by exactly ".png" |
| Steps.WithPngIdempotent | atom8.py:807 | normalising an already normalised name changes nothing, so ".png" is never doubled |
| Steps.AddedStep | atom8.py:501-526 | `addStep` builds a step exactly for the eight supported actions; the step is a well-formed tuple, and a screenshot step's name ends in ".png" |
| Steps.EditedStep | atom8.py:1276-1293 | `updateStep` builds a value exactly for the supported actions; "Maximize Window" is stored as the bare string; a screenshot keeps the typed name and gains the description |
| Steps.EditedMatchesAdded | atom8.py:1276-1284 | for sleep, click, input, navigate and both script actions `updateStep` stores exactly the tuple `addStep` appends |
| Display.DisplayText | atom8.py:952-967 | total: an entry too short for its action yields "Error: " plus the subscript failure's message; navigate/script rows end in "." or in ", Description: d"; any other action shows the action itself |
| Display.AddedStepsAreShaped | atom8.py:501-524 | every step `addStep` stores has all the positions its action's display needs |
| Display.ReopenedRow | atom8.py:501-522 | after saving and reopening, the row rebuilt for an added step equals the row `addStep` showed, except that Maximize loses its "." and a click/input step without a locator is not covered |
| Display.NoLocatorRowDiffers | atom8.py:507 | a click/input step added without a locator reads back as a different row: the placeholder name instead of "N/A" |
| Display.AddedRow | atom8.py:501-523 | the row `addStep` shows: a navigate or script row ends in "." or in ", Description: d"; a screenshot row ends in the ".png" name |
| Display.EditedRow | atom8.py:1276-1290 | the row `updateStep` writes: a navigate, script or screenshot row ends in "." or in ", Description: d" |
| Display.EditedRowMatchesAdded | atom8.py:1276-1290 | `updateStep` writes the row `addStep` wrote for sleep, navigate, script and maximize steps; a screenshot row gains the description tail |
| Display.EditedLocatorRowChangesOnReopen | atom8.py:1279-1281 | for every form, an updated click or input step reads back after reopening as a different row from the one `updateStep` wrote |
| Locators.Resolve | atom8.py:781-790 | a locator name resolves exactly when it is one of the eight table keys |
| Locators.ResolveIsBijective | atom8.py:781-790 | the table is one-to-one and reaches every locator strategy |
| Locators.PlaceholderIsUnknown | atom8.py:781-790 | the placeholder "Select Locator" is not in the table |
| Options.WindowArguments | atom8.py:367-411 | launching from the window's 24 boxes passes the browser-table options of the checked labels, in the order the window creates the boxes, one per label |
| Options.LabelledArguments | atom8.py:757-760 | boxes labelled in order and checked as their labels are yield exactly the checked labels' table options |
| Options.ArgumentsAppend | atom8.py:757-760 | the checkbox loop over two runs of boxes adds the first run's arguments, then the second's |
| Options.BuildArguments | atom8.py:757-760 | the argument loop yields the arguments of the checked boxes whose label the table maps, in box order, at most one per box |
| Options.Arguments | atom8.py:757-760 | the loop adds at most one argument per box, and each is a non-empty value of the browser's table |
| Options.ArgumentIff | atom8.py:768-771 | an argument is passed exactly when some checked box's label maps to it |
| Options.UnknownLabelIgnored | atom8.py:768-771 | a box whose label the table does not know contributes nothing, wherever it stands |
| Options.EdgeIgnores | atom8.py:724-747 | "Incognito Mode", "Disable Infobars" and "Disable Dev Shm Usage" have no Edge argument |
| Options.InPrivateUnreachable | atom8.py:727 | the Edge table's "InPrivate Mode" entry matches no box in the window |
| Options.InPrivateOnlyFromItsLabel | atom8.py:727 | in the Edge table only "InPrivate Mode" maps to "InPrivate" |
| Options.EdgeNeverInPrivate | atom8.py:766-771 | whatever boxes are checked, Edge is never launched with "InPrivate" |
| Options.HeadlessArguments | main.py:550-552 | "--headless" is passed exactly when the box is checked, and nothing else is passed |
| Settings.WithSetting | atom8.py:1067-1076 | after saving `k = v`, loading `k` gives `v`, every other key keeps its value, and the key set grows by `k`; the earlier snapshot does the same (main.py:728-747) |
| Settings.UnreadableFileStartsEmpty | atom8.py:1074-1086 | with a missing or undecodable file every lookup yields its default, and the first save writes a file holding only that setting |
| Settings.SaveOrder | atom8.py:1067-1072 | saving a key twice keeps the last value; saves of different keys commute |
| Settings.Store.SaveSetting | main.py:728-734 | the stored file becomes the old one with the key set, and reads agree |
| Clipboard.ClipboardText | atom8.py:33-43 | text without a colon is copied whole; otherwise the copy is shorter than the text and stripped |
| Clipboard.CopiesAfterFirstColon | atom8.py:36-38 | the clipboard gets exactly the text after the first colon, stripped |
| Clipboard.CopiesValue | atom8.py:36-38 | for a row "name: value" whose name has no colon, the copy is the stripped value |
| Clipboard.StripLeadingSpace | atom8.py:38 | one leading space does not change what `strip()` returns |
| Editor.PopInsertSwaps | atom8.py:1304 | `insert(j, pop(i))` with adjacent `i`, `j` swaps those two positions and leaves the rest |
| Editor.Remembered | atom8.py:1346-1349 | a path already listed leaves the list unchanged, and an absent one is appended at the end; the list keeps its old entries in place and stays duplicate-free |
| Editor.RecentFilesAreFirstOccurrences | atom8.py:1346-1349 | recording a history of paths yields each path once, in order of first appearance |
| Editor.RowsOf | atom8.py:943-948 | loading shows at most one row per entry |
| Editor.RowsOfPrefix | atom8.py:943-948 | the rows shown for the first entries are the first rows shown |
| Editor.RowsShowListEntries | atom8.py:943-948 | a list entry is shown as its display text, in the row right after the rows of the entries before it |
| Editor.AllListsShownInOrder | atom8.py:943-948 | when every entry is a list, row `k` is the display text of entry `k` |
| Editor.SkippedOf | atom8.py:943-946 | each reported index is in range and names an entry that is not a list, and the reports come in index order |
| Editor.RowsAndSkipsCount | atom8.py:943-948 | every loaded entry gets a row or a report, never both |
| Editor.NonListsAreSkipped | atom8.py:944-946 | every entry that is not a list is reported |
| Editor.SkippedExactly | atom8.py:943-946 | the reported indices are exactly those of the entries that are not lists |
| Editor.InStepIffAllLists | atom8.py:941-948 | the row list has one row per step exactly when every loaded entry is a list |
| Editor.OpenedRows | atom8.py:943-948 | loading skips exactly the non-list entries, every other entry gets a row, and lock-step holds exactly when every entry is a list |
| Editor.StepEditor.constructor | atom8.py:141-151 | a new window has no steps, no rows and no current path, and holds the recent files read at start-up |
| Editor.StepEditor.AddStep | atom8.py:493-529 | a supported action appends its step and its row and touches nothing else; an unsupported one changes nothing; the earlier snapshot does the same (main.py:356-391) |
| Editor.StepEditor.RemoveSelectedStep | atom8.py:654-661 | a selected row deletes exactly that index from steps and rows; no selection changes nothing; the earlier snapshot does the same (main.py:507-513) |
| Editor.StepEditor.UpdateStep | atom8.py:1266-1298 | with a selection and a supported action only that index of steps and rows changes; otherwise nothing changes; the earlier snapshot does the same (main.py:914-946) |
| Editor.StepEditor.MoveStepUp | atom8.py:1300-1307 | at row i >= 1 positions i-1 and i swap in both lists and the selection follows; otherwise nothing changes; the earlier snapshot does the same (main.py:948-955) |
| Editor.StepEditor.MoveStepDown | atom8.py:1309-1316 | at 0 <= i < count-1 positions i and i+1 swap in both lists and the selection follows; otherwise nothing changes; the earlier snapshot does the same (main.py:957-964) |
| Editor.StepEditor.ClearStepsList | atom8.py:969-973 | both lists become empty |
| Editor.StepEditor.UpdateRecentFiles | main.py:994-997 | the list is unchanged exactly when the path is already in it, otherwise the path is appended; a duplicate-free list stays duplicate-free |
| Editor.StepEditor.OpenFile | atom8.py:930-950 | a cancelled dialog changes nothing; otherwise the path becomes current and is recorded; a non-list document changes no steps; a list replaces the steps wholesale and rebuilds rows for the list entries only, reporting the skipped indices; the earlier snapshot does the same (main.py:648-668) |
| Engine.TupleDispatchAgrees | atom8.py:795-818 | dispatching on the stored tuple does what the step means: navigate gets, click finds then clicks, input finds then types, screenshot saves, script executes, sleep parses, maximize maximizes, a Python script does nothing |
| Engine.LocatorDispatchAgrees | atom8.py:798-805 | a click finds the element then clicks it; an input finds it then types the step's text; an unknown locator name makes no call |
| Engine.WindowDispatchAgrees | atom8.py:806-818 | a screenshot saves under the placed ".png" name; maximize maximizes the window |
| Engine.PlainDispatchAgrees | atom8.py:796-816 | navigate gets the URL, JavaScript executes the code, sleep accepts or rejects its duration, a Python script makes no call |
| Engine.Execute | atom8.py:795-818 | a step makes at most two driver calls, never launches or quits, and stops at the first call that raises, reporting that call; a step too short for its action makes no call and reports the subscript failure; a screenshot is saved only by a screenshot step, at the placed ".png" name of position 1 |
| Engine.Chain | atom8.py:801-805 | the second call (click or type) is made exactly when the element is found; the attempt stops at the call that raises, and succeeds exactly when the driver accepts both calls |
| Engine.Perform | atom8.py:795-818 | each kind of step makes at most two driver calls and stops at the first one that raises; a sleep and a Python step make none |
| Engine.Invoke | atom8.py:797-818 | one driver call, whose exception is caught exactly when the driver refuses it |
| Engine.SleepAcceptedIsUnsigned | atom8.py:816 | a duration the run sleeps for holds a digit and no minus sign |
| Engine.Loop | atom8.py:792-821 | the step loop only appends to the trace and the log |
| Engine.LoopAppend | atom8.py:792-821 | steps run in list order: running two lists is running the first and then, unless it raised, the second |
| Engine.StepIsIsolated | atom8.py:795-821 | a step with an action logs at most its own error and the loop continues after it |
| Engine.UnknownLocatorIsLogged | atom8.py:798-801 | an unknown locator name makes no driver call, logs one error for the step, and the loop continues |
| Engine.UndispatchedActionIsSkipped | atom8.py:795-818 | an action without a branch makes no driver call and raises nothing |
| Engine.LoopNeverLaunchesOrQuits | atom8.py:792-821 | the loop adds no launch and no quit to the trace |
| Engine.LoopRaisesOnlyAtHeadless | atom8.py:792-793 | the loop raises exactly when some entry has no position 0 |
| Engine.LoopRaisesSubscriptFailure | atom8.py:793 | what the loop raises is always the failure of `step[0]`: an IndexError, a TypeError or a KeyError |
| Engine.LoopLogsOnlyStepErrors | atom8.py:820-821 | the loop logs nothing but per-step errors, and the settings warning when the save-path lookup warns |
| Engine.RunSteps | atom8.py:792-821 | the imperative step loop produces exactly the loop's trace, log and exception; the earlier snapshot does the same (main.py:567-592) |
| Engine.Finish | atom8.py:823-824 | `driver.quit()` is always called; the completion message is logged exactly when it returns, and otherwise its exception escapes |
| Engine.DriveSteps | atom8.py:792-824 | the imperative loop and quit produce exactly the drive's trace, log and exception; the earlier snapshot does the same (main.py:567-595) |
| Engine.Automation | atom8.py:749-827 | a run that launches anything launches first; a run that returns normally made at least the launch and a final quit and logged the completion message last; a run that raised logs that exception as its last line |
| Engine.LaunchedRun | atom8.py:754-827 | once setup launches the browser, the run is the drive from the launch state, under the outer handler |
| Engine.EarlierAutomation | main.py:549-595 | the earlier run first launches Chrome with only the headless option; a run that returns normally ends with a quit and the completion message |
| Engine.StartAutomation | atom8.py:696-827 | the imperative run produces exactly the trace, log and exception of `Automation` |
| Engine.StartEarlierAutomation | main.py:549-595 | the imperative run produces exactly the trace, log and exception of `EarlierAutomation` |
| Engine.SetupFailureMakesNoCalls | atom8.py:754-779 | an unsupported browser or a missing driver file makes no driver call and, after the settings warnings, logs one fatal error and raises it |
| Engine.LaunchComesFirst | atom8.py:755-776 | the first call launches the chosen browser with the arguments of the checked boxes; the log starts with the settings warnings and then the "Starting" line |
| Engine.RefusedLaunchRaises | atom8.py:762-765 | a launch the driver refuses is the only call; the run logs "Starting" after the settings warnings, then the failure, and raises it |
| Engine.SetupLogIsWarnings | atom8.py:749-751 | the three setting lookups before the launch log three warnings for an undecodable file and nothing otherwise |
| Engine.DriveWarnsOnlyWhenAsked | atom8.py:806-808 | a drive whose save-path lookup does not warn adds no settings warning to the log |
| Engine.NoWarningUnlessUndecodable | atom8.py:1078-1086 | a run over a missing or readable settings file logs no settings warning |
| Engine.LaunchedWarnsNot | atom8.py:1078-1086 | the same, for a run whose launch succeeds |
| Engine.UnlaunchedWarnsNot | atom8.py:1078-1086 | the same, for a run that fails before or at the launch |
| Engine.QuitIsLastAndOnce | atom8.py:792-824 | with every entry having an action, quit is the last call and occurs once, nothing in between launches, and the run succeeds exactly when that quit does, ending with the completion message |
| Engine.HeadlessEntryAbortsRun | atom8.py:792-827 | an entry with no position 0: quit is never called, and the subscript failure (IndexError, TypeError or KeyError) is logged as fatal and raised |
| Engine.AddedScreenshotKeepsItsName | atom8.py:807-812 | a screenshot step from `addStep` saves to `join(dir, name)` with its stored name, which is not extended again |
| Engine.UpdatedMaximizeIsInert | atom8.py:1288-1289 | an added Maximize step maximizes the window; an updated one has action "M" and makes no call |
| Engine.EarlierRunShape | main.py:550-554 | the earlier run launches Chrome with only the headless argument and logs nothing fatal |
| Engine.EarlierScreenshotName | main.py:581-583 | the earlier run saves a screenshot under the bare normalised name |
| Engine.EarlierQuitIsLastAndOnce | main.py:554-595 | a failing launch escapes before any step; otherwise quit is the last call, made once, and the run succeeds exactly when quit does |
| Engine.DriveKeepsStart | atom8.py:764-776 | the drive after a launch keeps the launch as the first call and the "Starting" line as the first log line |
| Engine.DriveQuitsOnce | atom8.py:792-824 | after a launch, with every entry having an action, quit is the last call and made once, nothing in between launches, and the drive raises exactly when that quit fails |
| Engine.DriveStopsAtHeadless | atom8.py:792-793 | after a launch, an entry with no action makes the drive raise its subscript failure before any quit |
| Engine.DriveSavesUnder | atom8.py:806-812 | after a launch, every screenshot is saved at the placed location under a name ending in ".png" |
| Engine.DriveLogsNoFatal | atom8.py:820-824 | the drive logs step errors and the completion message, never a fatal line |
| Engine.LoopSavesUnder | atom8.py:806-812 | every screenshot the loop saves goes to the placed location under a name ending in ".png" |
| Engine.ScreenshotsGoToSaveDir | atom8.py:806-812 | every screenshot goes to the "savePath" directory when that setting is non-empty and exists, and to the working directory otherwise, under a name ending in ".png" |
| Engine.FatalIsLastAndOnly | atom8.py:825-827 | a fatal line is logged only by a run that raised, and only as its last line |
| Engine.SetupFatalIsLast | atom8.py:825-827 | a run that fails before launching logs its fatal line last and only there |
| Engine.RefusedLaunchFatalIsLast | atom8.py:825-827 | a run whose launch is refused logs its fatal line last and only there |
| Engine.AbortFatalIsLast | atom8.py:825-827 | re-raising from a run with no fatal line adds exactly one, as the last line |
| Engine.LaunchedFatalIsLast | atom8.py:825-827 | a run that launches logs a fatal line only when it raises, and only as its last line |
| Engine.EscalatedFatalIsLast | atom8.py:825-827 | the outer handler adds at most one fatal line, as the last line, and only when it re-raises |

## Left out

- The PyQt interface: widgets, dialogs, menus, style sheets, tool tips, the log handler, and the field show/hide logic of `updateFields` and `editSelectedStep`. The row a step shows is modelled; the log text is an abstract `Log` value.
- Line-number painting in the script editor (atom8.py:79-124). It depends on font metrics and paint events.
- The script editor, log saving and clearing, `newFile`, and the web-element extraction tab. They are outside the step core.
- helper.py. It is an HTTP fetch plus HTML traversal in third-party libraries, so no self-contained logic remains. helper.py is not part of this model.
- Selenium itself. Each driver call is an oracle answer: success, or an exception.
- File and JSON I/O:
  - `saveFile`, `realSaveFile`, `openRecentFile`, `loadRecentFiles` and `saveRecentFiles`.
  - The `APPDATA` paths.
  - Directory creation.
  - The JSON encoding of steps.

  `openFile` receives the document that reading the file gives.
- `os.path.join`'s platform rules. The join is a parameter of `Host`.
- Engine.Loop: its own contract states only that the trace and the log grow at the end. What the loop does step by step is stated by `LoopAppend`, `StepIsIsolated`, `LoopRaisesOnlyAtHeadless` and the lemmas after them.
- Display.DisplayText: its own contract covers the error row, the tail of navigation and script rows, and the fallback row. The sleep, click, input and screenshot rows are stated by `ReopenedRow` and `NoLocatorRowDiffers`, against the rows `addStep` shows.
- Clipboard.ClipboardText: its own contract states bounds and stripping only. The exact content is stated by `CopiesAfterFirstColon`.
- Engine.SleepAccepted: `float()` is modelled only for decimal numerals with an optional "+", surrounded by whitespace. Exponents, underscores, "inf" and "nan" are left out, and so are "-0" and overflowing values. Non-ASCII Unicode decimal digits, such as Arabic-Indic digits, which `float()` accepts, are not modelled either. The duration of the sleep is not modelled.
- Steps.Entry: tuple and list fields are strings. A loaded list whose fields are numbers, or a field that is itself a list, is not represented. A non-list, non-string entry is represented only by the message of the TypeError or KeyError that subscripting it raises.
- Settings.Store.SaveSetting: the warning that its `loadSettings` call logs for an undecodable file, and in the earlier snapshot (main.py:741-747) also for a missing one, is not modelled, because the editor's log is left out.
- Settings.SettingsFile: a file that exists but cannot be opened or read raises out of `loadSetting`; this is not represented. Setting values are strings. A settings file whose top level is valid JSON but not an object is not represented.
- The later snapshot reads "savePath" at every screenshot. The settings do not change during a run, so the model reads them once per run (`ScreenshotsGoToSaveDir`).
- Selection tracking beyond the returned row. The widget's current row is an input to each editing method.
- Image comparison, host-script execution, sequences of scripts and run reports. The code has no such operations: "Execute Python Script" steps can be added but are never dispatched (`UndispatchedActionIsSkipped`).
