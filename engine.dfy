/**
 * The run engine, `startAutomation`: choose the browser from the settings,
 * turn the checked option boxes into launch arguments, refuse an unsupported
 * browser or a missing driver file, launch the driver, perform every stored
 * step in order with each step's exception caught and logged, and quit.
 *
 * Selenium is an oracle: every driver call either succeeds or raises, as the
 * `Driver` function decides from the calls made before it. The file system
 * is a `Host`. A run is the trace of driver calls, the log, and the
 * exception that escaped to the caller, if any.
 */
module Engine {
  import opened Wrappers
  import opened Strings
  import opened Steps
  import opened Locators
  import opened Options
  import opened Settings

  datatype Browser = Chrome | Edge

  datatype Call =
    | Launch(browser: Browser, args: seq<string>)   // webdriver.Chrome(options) / webdriver.Edge(options)
    | Get(url: string)
    | FindElement(strategy: By, value: string)
    | ClickElement                                  // click() on the element just found
    | SendKeys(keys: string)                        // send_keys() on the element just found
    | SaveScreenshot(path: string)
    | ExecuteScript(code: string)
    | MaximizeWindow
    | Quit

  /** Whether a driver call succeeds, given the calls made before it. */
  type Driver = (seq<Call>, Call) -> bool

  /** The file system as the run sees it: `os.path.isfile`, `os.path.exists`, `os.getcwd()`, `os.path.join`. */
  datatype Host = Host(isFile: string -> bool, pathExists: string -> bool, cwd: string,
                       join: (string, string) -> string)

  datatype Error =
    | SubscriptFailure(message: string)       // `step[k]` raised: IndexError, TypeError or KeyError
    | UnknownLocator(name: string)            // KeyError from the locator table
    | DriverFailure(call: Call)               // the driver call raised
    | NotADuration(value: string)             // float() or time.sleep() refused the value
    | InvalidDriverLocation(browser: Browser) // ValueError("Invalid … driver location")
    | UnsupportedBrowser(name: string)        // ValueError("Unsupported browser type")

  datatype Log =
    | Starting(browser: Browser, driverPath: string)  // "Starting … browser with WebDriver at: …"
    | StepError(action: string, error: Error)         // "Error in <action>: …"
    | Fatal(error: Error)                             // "Error in starting the browser: …"
    | Completed                                       // "Operation completed successfully."
    | LoadWarning                                     // "Failed to load settings file."

  datatype Run = Run(calls: seq<Call>, log: seq<Log>, raised: Option<Error>)

  /** What one step's `try` block did: the driver calls it made and the exception it caught. */
  datatype Attempt = Attempt(calls: seq<Call>, error: Option<Error>)

  // ---------------------------------------------------------------- helpers

  predicate IsDigit(c: char) {
    '0' <= c <= '9'
  }

  /** An unsigned decimal numeral: digits with at most one '.', and at least one digit. */
  predicate IsDecimal(t: string) {
    && t != [] && t != "."
    && (forall k :: 0 <= k < |t| ==> IsDigit(t[k]) || t[k] == '.')
    && (forall i, j :: 0 <= i < j < |t| && t[i] == '.' ==> t[j] != '.')
  }

  /** `time.sleep(float(v))` returns normally (for the decimal forms the model covers). */
  predicate SleepAccepted(v: string) {
    var t := Strip(v);
    IsDecimal(t) || (|t| > 1 && t[0] == '+' && IsDecimal(t[1..]))
  }

  /** A duration the run accepts is an unsigned number: it holds a digit and no minus sign. */
  lemma SleepAcceptedIsUnsigned(v: string)
    requires SleepAccepted(v)
    ensures exists k :: 0 <= k < |Strip(v)| && IsDigit(Strip(v)[k])
    ensures forall k :: 0 <= k < |Strip(v)| ==> Strip(v)[k] != '-'
  {
    var t := Strip(v);
    var skip := if IsDecimal(t) then 0 else 1;
    var u := t[skip..];
    assert IsDecimal(u);
    var k := if IsDigit(u[0]) then 0 else 1;
    assert IsDigit(u[k]) && t[skip + k] == u[k];
  }

  /** One driver call, which may raise. */
  function Invoke(driver: Driver, history: seq<Call>, c: Call): (a: Attempt)
    ensures a.calls == [c]
    ensures a.error.None? <==> driver(history, c)
    ensures StopsAtRefusal(driver, history, a)
  {
    assert history + [c][..0] == history;
    Attempt([c], if driver(history, c) then None else Some(DriverFailure(c)))
  }

  /**
   * A `try` block stops at the first driver call that raises: every call
   * before the last returned normally, the last one raised exactly when the
   * attempt reports it as a driver failure, and no other call is blamed.
   */
  predicate StopsAtRefusal(driver: Driver, history: seq<Call>, a: Attempt) {
    && (forall k :: 0 <= k < |a.calls| - 1 ==> driver(history + a.calls[..k], a.calls[k]))
    && (a.calls != [] ==>
          var last := a.calls[|a.calls| - 1];
          (driver(history + a.calls[..|a.calls| - 1], last) <==> a.error != Some(DriverFailure(last))))
    && (a.error.Some? && a.error.value.DriverFailure? ==>
          a.calls != [] && a.error.value.call == a.calls[|a.calls| - 1])
  }

  /** The error, if any, as the per-step handler logs it. */
  function Logged(action: string, error: Option<Error>): seq<Log> {
    if error.Some? then [StepError(action, error.value)] else []
  }

  /**
   * Where the loop saves a screenshot, and whether finding that out logs a
   * warning: the later snapshot reads "savePath" afresh at every screenshot,
   * and `loadSettings` warns each time the settings file does not decode.
   */
  datatype Saver = Saver(place: string -> string, warns: bool)

  /**
   * What one step with action `action` logs: the save-path warning of a
   * screenshot step that got past `step[1]`, then the caught error, if any.
   */
  function StepLog(e: Entry, action: string, save: Saver, error: Option<Error>): seq<Log> {
    (if action == SCREENSHOT && Length(e) >= 2 && save.warns then [LoadWarning] else []) + Logged(action, error)
  }

  /** The directory screenshots go to: the saved path, or the working directory when it is empty or does not exist. */
  function ScreenshotDir(settings: SettingsFile, host: Host): (dir: string)
    ensures var p := LoadSetting(settings, "savePath", "");
      && (p != "" && host.pathExists(p) ==> dir == p)
      && (p == "" || !host.pathExists(p) ==> dir == host.cwd)
  {
    var p := LoadSetting(settings, "savePath", "");
    if p == "" || !host.pathExists(p) then host.cwd else p
  }

  // --------------------------------------------------------- one step

  /**
   * The `try` block of the step loop for a stored entry whose action is
   * `action` (its position 0). Positions are read as the source reads them,
   * so a short entry fails with an IndexError before any driver call, and
   * an input step with no text position fails after its element was found.
   * `place` turns the normalised screenshot name into the path passed to
   * `save_screenshot`.
   */
  function Execute(e: Entry, action: string, place: string -> string, driver: Driver, history: seq<Call>): (a: Attempt)
    ensures |a.calls| <= 2
    ensures forall c :: c in a.calls ==> !c.Launch? && !c.Quit?
    ensures StopsAtRefusal(driver, history, a)
    ensures action in {NAVIGATE, CLICK, INPUT, SCREENSHOT, EXEC_JS, SLEEP} && Length(e) < 2
      ==> a == Attempt([], Some(SubscriptFailure(SubscriptMessage(e))))
    ensures forall c :: c in a.calls && c.SaveScreenshot? ==>
              action == SCREENSHOT && Length(e) >= 2 && c.path == place(WithPng(At(e, 1).value))
  {
    var missing := Attempt([], Some(SubscriptFailure(SubscriptMessage(e))));
    if action == NAVIGATE then
      if Length(e) < 2 then missing else Invoke(driver, history, Get(At(e, 1).value))
    else if action == CLICK || action == INPUT then
      if Length(e) < 3 then missing
      else
        var locatorType, locatorValue := At(e, 1).value, At(e, 2).value;
        match Resolve(locatorType)
        case None => Attempt([], Some(UnknownLocator(locatorType)))
        case Some(strategy) =>
          var find := FindElement(strategy, locatorValue);
          if action == CLICK then Chain(driver, history, find, ClickElement)
          else if !driver(history, find) then Invoke(driver, history, find)
          else if Length(e) < 4 then
            assert history + [find][..0] == history;
            Attempt([find], missing.error)
          else Chain(driver, history, find, SendKeys(At(e, 3).value))
    else if action == SCREENSHOT then
      if Length(e) < 2 then missing
      else Invoke(driver, history, SaveScreenshot(place(WithPng(At(e, 1).value))))
    else if action == EXEC_JS then
      if Length(e) < 2 then missing else Invoke(driver, history, ExecuteScript(At(e, 1).value))
    else if action == SLEEP then
      if Length(e) < 2 then missing
      else if SleepAccepted(At(e, 1).value) then Attempt([], None)
      else Attempt([], Some(NotADuration(At(e, 1).value)))
    else if action == MAXIMIZE then Invoke(driver, history, MaximizeWindow)
    else Attempt([], None)
  }

  /** Two driver calls, the second made only when the first succeeds. */
  function Chain(driver: Driver, history: seq<Call>, first: Call, second: Call): (a: Attempt)
    ensures a.calls == if driver(history, first) then [first, second] else [first]
    ensures StopsAtRefusal(driver, history, a)
    ensures a.error.None? <==> driver(history, first) && driver(history + [first], second)
  {
    assert history + [first][..0] == history + [first, second][..0] == history;
    assert [first, second][..1] == [first];
    if !driver(history, first) then Attempt([first], Some(DriverFailure(first)))
    else if driver(history + [first], second) then Attempt([first, second], None)
    else Attempt([first, second], Some(DriverFailure(second)))
  }

  /**
   * Reference semantics of a step by its variant: what each kind of step
   * asks of the driver, independent of tuple positions.
   */
  function Perform(s: Step, place: string -> string, driver: Driver, history: seq<Call>): (a: Attempt)
    requires !s.Malformed?
    ensures |a.calls| <= 2 && StopsAtRefusal(driver, history, a)
    ensures s.Sleep? || s.ExecPython? ==> a.calls == []
  {
    match s
    case Sleep(v) => if SleepAccepted(v) then Attempt([], None) else Attempt([], Some(NotADuration(v)))
    case Click(t, v, _, _) =>
      if Resolve(t).None? then Attempt([], Some(UnknownLocator(t)))
      else Chain(driver, history, FindElement(Resolve(t).value, v), ClickElement)
    case InputText(t, v, x, _) =>
      if Resolve(t).None? then Attempt([], Some(UnknownLocator(t)))
      else Chain(driver, history, FindElement(Resolve(t).value, v), SendKeys(x))
    case Navigate(u, _) => Invoke(driver, history, Get(u))
    case ExecJS(c, _) => Invoke(driver, history, ExecuteScript(c))
    case ExecPython(_, _) => Attempt([], None)
    case TakeScreenshot(n, _) => Invoke(driver, history, SaveScreenshot(place(WithPng(n))))
    case Maximize => Invoke(driver, history, MaximizeWindow)
  }

  /** Dispatching on the stored tuple agrees with the variant's meaning for every step the editor can build. */
  lemma TupleDispatchAgrees(s: Step, place: string -> string, driver: Driver, history: seq<Call>)
    requires !s.Malformed?
    ensures At(Encode(s), 0).Ok?
    ensures Execute(Encode(s), At(Encode(s), 0).value, place, driver, history) == Perform(s, place, driver, history)
  {
    if s.Click? || s.InputText? {
      LocatorDispatchAgrees(s, place, driver, history);
    } else if s.TakeScreenshot? || s.Maximize? {
      WindowDispatchAgrees(s, place, driver, history);
    } else {
      PlainDispatchAgrees(s, place, driver, history);
    }
  }

  /** `TupleDispatchAgrees` for the two steps that locate an element first. */
  lemma LocatorDispatchAgrees(s: Step, place: string -> string, driver: Driver, history: seq<Call>)
    requires s.Click? || s.InputText?
    ensures Execute(Encode(s), Encode(s).items[0], place, driver, history) == Perform(s, place, driver, history)
  {
    match s
    case Click(t, v, x, d) => assert Encode(s) == Seq([CLICK, t, v, x, d]);
    case InputText(t, v, x, d) => assert Encode(s) == Seq([INPUT, t, v, x, d]);
  }

  /** `TupleDispatchAgrees` for the screenshot and "Maximize Window". */
  lemma WindowDispatchAgrees(s: Step, place: string -> string, driver: Driver, history: seq<Call>)
    requires s.TakeScreenshot? || s.Maximize?
    ensures Execute(Encode(s), Encode(s).items[0], place, driver, history) == Perform(s, place, driver, history)
  {
    match s
    case TakeScreenshot(n, None) => assert Encode(s) == Seq([SCREENSHOT, n]);
    case TakeScreenshot(n, Some(d)) => assert Encode(s) == Seq([SCREENSHOT, n, d]);
    case Maximize => assert Encode(s) == Seq([MAXIMIZE]);
  }

  /** `TupleDispatchAgrees` for the steps that read one argument. */
  lemma PlainDispatchAgrees(s: Step, place: string -> string, driver: Driver, history: seq<Call>)
    requires s.Sleep? || s.Navigate? || s.ExecJS? || s.ExecPython?
    ensures Execute(Encode(s), Encode(s).items[0], place, driver, history) == Perform(s, place, driver, history)
  {
    match s
    case Sleep(v) => assert Encode(s) == Seq([SLEEP, v]);
    case Navigate(u, d) => assert Encode(s) == Seq([NAVIGATE, u, d]);
    case ExecJS(c, d) => assert Encode(s) == Seq([EXEC_JS, c, d]);
    case ExecPython(p, d) => assert Encode(s) == Seq([EXEC_PYTHON, p, d]);
  }

  // ------------------------------------------------------- the step loop

  /**
   * The step loop from state `st`: each entry's action is read outside the
   * `try`, so an entry with no position 0 (an empty list, an empty string,
   * a scalar) raises out of the loop; every other step runs its `try` block,
   * a caught exception is logged, and the loop goes on.
   */
  function Loop(steps: seq<Entry>, save: Saver, driver: Driver, st: Run): (r: Run)
    requires st.raised.None?
    ensures |st.calls| <= |r.calls| && r.calls[..|st.calls|] == st.calls
    ensures |st.log| <= |r.log| && r.log[..|st.log|] == st.log
    decreases |steps|
  {
    if steps == [] then st
    else
      match At(steps[0], 0)
      case Err(m) => Run(st.calls, st.log, Some(SubscriptFailure(m)))
      case Ok(action) =>
        var a := Execute(steps[0], action, save.place, driver, st.calls);
        var next := Run(st.calls + a.calls, st.log + StepLog(steps[0], action, save, a.error), None);
        assert next.calls[..|st.calls|] == st.calls && next.log[..|st.log|] == st.log;
        Loop(steps[1..], save, driver, next)
  }

  /** Running `a + b` is running `a`, then `b` from where `a` stopped, unless `a` raised. */
  lemma {:induction false} LoopAppend(a: seq<Entry>, b: seq<Entry>, save: Saver, driver: Driver, st: Run)
    requires st.raised.None?
    ensures Loop(a + b, save, driver, st)
      == (var m := Loop(a, save, driver, st); if m.raised.Some? then m else Loop(b, save, driver, m))
  {
    if a == [] {
      assert a + b == b;
    } else {
      assert (a + b)[0] == a[0];
      assert (a + b)[1..] == a[1..] + b;
      match At(a[0], 0)
      case Err(_) =>
      case Ok(action) =>
        var x := Execute(a[0], action, save.place, driver, st.calls);
        LoopAppend(a[1..], b, save, driver, Run(st.calls + x.calls, st.log + StepLog(a[0], action, save, x.error), None));
    }
  }

  /**
   * Step isolation: a step with an action runs its attempt, appends its
   * calls, logs at most its own error and never stops the loop, whatever
   * its driver calls did.
   */
  lemma StepIsIsolated(e: Entry, rest: seq<Entry>, save: Saver, driver: Driver, st: Run)
    requires st.raised.None? && Length(e) >= 1
    ensures var a := Execute(e, At(e, 0).value, save.place, driver, st.calls);
      Loop([e] + rest, save, driver, st)
        == Loop(rest, save, driver, Run(st.calls + a.calls, st.log + StepLog(e, At(e, 0).value, save, a.error), None))
  {
    assert ([e] + rest)[1..] == rest;
  }

  /** The loop raises exactly when some entry has no action, and every step before it has run. */
  lemma {:induction false} LoopRaisesOnlyAtHeadless(steps: seq<Entry>, save: Saver, driver: Driver, st: Run)
    requires st.raised.None?
    ensures Loop(steps, save, driver, st).raised.Some? <==> exists k :: 0 <= k < |steps| && Length(steps[k]) == 0
  {
    if steps != [] {
      match At(steps[0], 0)
      case Err(_) =>
      case Ok(action) =>
        var a := Execute(steps[0], action, save.place, driver, st.calls);
        LoopRaisesOnlyAtHeadless(steps[1..], save, driver, Run(st.calls + a.calls, st.log + StepLog(steps[0], action, save, a.error), None));
        if exists k :: 0 <= k < |steps| && Length(steps[k]) == 0 {
          var k :| 0 <= k < |steps| && Length(steps[k]) == 0;
          assert k > 0 && steps[1..][k - 1] == steps[k];
        }
        if exists k :: 0 <= k < |steps[1..]| && Length(steps[1..][k]) == 0 {
          var k :| 0 <= k < |steps[1..]| && Length(steps[1..][k]) == 0;
          assert steps[k + 1] == steps[1..][k];
        }
    }
  }

  /** The loop makes no launch or quit call of its own. */
  lemma {:induction false} LoopNeverLaunchesOrQuits(steps: seq<Entry>, save: Saver, driver: Driver, st: Run)
    requires st.raised.None?
    ensures var r := Loop(steps, save, driver, st);
      forall k :: |st.calls| <= k < |r.calls| ==> !r.calls[k].Launch? && !r.calls[k].Quit?
  {
    if steps != [] {
      match At(steps[0], 0)
      case Err(_) =>
      case Ok(action) =>
        var a := Execute(steps[0], action, save.place, driver, st.calls);
        var next := Run(st.calls + a.calls, st.log + StepLog(steps[0], action, save, a.error), None);
        LoopNeverLaunchesOrQuits(steps[1..], save, driver, next);
        var r := Loop(steps, save, driver, st);
        assert r == Loop(steps[1..], save, driver, next);
        forall k | |st.calls| <= k < |r.calls|
          ensures !r.calls[k].Launch? && !r.calls[k].Quit?
        {
          if k < |next.calls| {
            assert r.calls[k] == next.calls[k] == a.calls[k - |st.calls|];
            assert a.calls[k - |st.calls|] in a.calls;
          }
        }
    }
  }

  // ------------------------------------------------------- whole runs

  /** The outer handler: log the exception and re-raise it. */
  function Abort(st: Run, error: Error): (r: Run)
    ensures r.calls == st.calls && r.raised == Some(error)
    ensures |r.log| == |st.log| + 1 && r.log[..|st.log|] == st.log && r.log[|st.log|] == Fatal(error)
  {
    Run(st.calls, st.log + [Fatal(error)], Some(error))
  }

  /**
   * After the loop: `driver.quit()` is always called; the completion message
   * is logged exactly when it returns, and otherwise its exception escapes.
   */
  function Finish(st: Run, driver: Driver): (r: Run)
    ensures r.calls == st.calls + [Quit]
    ensures r.raised.None? <==> driver(st.calls, Quit)
    ensures r.raised.None? ==> r.log == st.log + [Completed]
    ensures r.raised.Some? ==> r.log == st.log && r.raised == Some(DriverFailure(Quit))
  {
    if driver(st.calls, Quit) then Run(st.calls + [Quit], st.log + [Completed], None)
    else Run(st.calls + [Quit], st.log, Some(DriverFailure(Quit)))
  }

  /** The browser name, driver path and option table `startAutomation` uses for a supported browser. */
  function Table(b: Browser): map<string, string> {
    if b == Chrome then ChromeTable else EdgeTable
  }

  function DriverPath(settings: SettingsFile, b: Browser): string {
    if b == Chrome then LoadSetting(settings, "driverLocation", "chromedriver.exe")
    else LoadSetting(settings, "msedgeLocation", "msedgedriver.exe")
  }

  /** The browser named by the "defaultBrowser" setting, when it is one the run supports. */
  function ChosenBrowser(settings: SettingsFile): Option<Browser> {
    var name := LoadSetting(settings, "defaultBrowser", "Chrome");
    if name == "Chrome" then Some(Chrome) else if name == "Edge" then Some(Edge) else None
  }

  /** Where a screenshot named `n` goes in the later snapshot. */
  function SavePlace(settings: SettingsFile, host: Host): string -> string {
    n => host.join(ScreenshotDir(settings, host), n)
  }

  /** The warning one `loadSetting` call logs: one line when the settings file does not decode, none otherwise. */
  function LoadNotes(settings: SettingsFile): seq<Log> {
    if settings.Undecodable? then [LoadWarning] else []
  }

  /** The lines the three `loadSetting` calls before the `try` log. */
  function SetupLog(settings: SettingsFile): seq<Log> {
    LoadNotes(settings) + LoadNotes(settings) + LoadNotes(settings)
  }

  /** Setup logs three settings warnings when the file does not decode, and nothing otherwise. */
  lemma SetupLogIsWarnings(settings: SettingsFile)
    ensures |SetupLog(settings)| == if settings.Undecodable? then 3 else 0
    ensures forall k :: 0 <= k < |SetupLog(settings)| ==> SetupLog(settings)[k] == LoadWarning
  {
  }

  /** How the later snapshot's loop saves screenshots: in `ScreenshotDir`, warning when the settings do not decode. */
  function SaveTo(settings: SettingsFile, host: Host): Saver {
    Saver(SavePlace(settings, host), settings.Undecodable?)
  }

  /** Everything after the launch: the step loop, then `driver.quit()` unless the loop raised. */
  function Drive(steps: seq<Entry>, save: Saver, driver: Driver, started: Run): (r: Run)
    requires started.raised.None?
    ensures |started.calls| <= |r.calls| && r.calls[..|started.calls|] == started.calls
    ensures |started.log| <= |r.log| && r.log[..|started.log|] == started.log
    ensures r.raised.None? ==> |r.calls| > |started.calls| && r.calls[|r.calls| - 1] == Quit
    ensures r.raised.None? ==> |r.log| > |started.log| && r.log[|r.log| - 1] == Completed
  {
    var looped := Loop(steps, save, driver, started);
    if looped.raised.Some? then looped else Finish(looped, driver)
  }

  /** The outer handler around a run that may have raised: log the exception as fatal and re-raise it. */
  function Escalate(r: Run): (e: Run)
    ensures e.calls == r.calls && e.raised == r.raised
    ensures r.raised.None? ==> e.log == r.log
    ensures r.raised.Some? ==> e.log == r.log + [Fatal(r.raised.value)]
    ensures r.raised.Some? ==> |e.log| == |r.log| + 1 && e.log[|r.log|] == Fatal(r.raised.value)
  {
    if r.raised.Some? then Abort(r, r.raised.value) else r
  }

  /** `startAutomation` of the later snapshot, as a whole. */
  function Automation(steps: seq<Entry>, settings: SettingsFile, boxes: seq<Checkbox>, host: Host, driver: Driver): (r: Run)
    ensures r.calls != [] ==> r.calls[0].Launch?
    ensures r.raised.None? ==> |r.calls| >= 2 && r.calls[|r.calls| - 1] == Quit
    ensures r.raised.None? ==> |r.log| >= 1 && r.log[|r.log| - 1] == Completed
    ensures r.raised.Some? ==> |r.log| >= 1 && r.log[|r.log| - 1] == Fatal(r.raised.value)
  {
    var empty := Run([], SetupLog(settings), None);
    match ChosenBrowser(settings)
    case None => Abort(empty, UnsupportedBrowser(LoadSetting(settings, "defaultBrowser", "Chrome")))
    case Some(b) =>
      if !host.isFile(DriverPath(settings, b)) then Abort(empty, InvalidDriverLocation(b))
      else
        var launch, st := LaunchOf(settings, boxes), Started(settings, boxes);
        assert launch.Launch? && st.calls == [launch] && st.raised.None?;
        if !driver([], launch) then Abort(st, DriverFailure(launch))
        else
          var d := Drive(steps, SaveTo(settings, host), driver, st);
          assert d.calls[0] == d.calls[..1][0] == launch;
          Escalate(d)
  }

  /** The launch call of a run whose browser is supported: that browser, with the checked boxes' arguments. */
  function LaunchOf(settings: SettingsFile, boxes: seq<Checkbox>): Call
    requires ChosenBrowser(settings).Some?
  {
    var b := ChosenBrowser(settings).value;
    Launch(b, Arguments(Table(b), boxes))
  }

  /** The state right after a launch: the launch call made and the "Starting …" line logged. */
  function Started(settings: SettingsFile, boxes: seq<Checkbox>): Run
    requires ChosenBrowser(settings).Some?
  {
    var b := ChosenBrowser(settings).value;
    Run([LaunchOf(settings, boxes)], SetupLog(settings) + [Starting(b, DriverPath(settings, b))], None)
  }

  /** A run whose setup succeeds is the launch followed by the drive, under the outer handler. */
  lemma LaunchedRun(steps: seq<Entry>, settings: SettingsFile, boxes: seq<Checkbox>, host: Host, driver: Driver)
    requires Launches(settings, boxes, host, driver)
    ensures Automation(steps, settings, boxes, host, driver)
      == Escalate(Drive(steps, SaveTo(settings, host), driver, Started(settings, boxes)))
  {
  }

  /** Where a screenshot named `n` goes in the earlier snapshot: the bare file name, relative to the working directory. */
  function BareName(n: string): string {
    n
  }

  /** `startAutomation` of the earlier snapshot: Chrome only, no setup checks and no outer handler. */
  function EarlierAutomation(steps: seq<Entry>, headless: bool, driver: Driver): (r: Run)
    ensures |r.calls| >= 1 && r.calls[0] == Launch(Chrome, HeadlessArguments(headless))
    ensures r.raised.None? ==> |r.calls| >= 2 && r.calls[|r.calls| - 1] == Quit
    ensures r.raised.None? ==> |r.log| >= 1 && r.log[|r.log| - 1] == Completed
  {
    var launch := Launch(Chrome, HeadlessArguments(headless));
    if !driver([], launch) then Run([launch], [], Some(DriverFailure(launch)))
    else Drive(steps, Saver(BareName, false), driver, Run([launch], [], None))
  }

  // ------------------------------------------------------- the methods

  /** The step loop as the source runs it: one entry after another, stopping only when an entry has no action. */
  method RunSteps(steps: seq<Entry>, save: Saver, driver: Driver, calls0: seq<Call>, log0: seq<Log>)
    returns (r: Run)
    ensures r == Loop(steps, save, driver, Run(calls0, log0, None))
  {
    var calls, log := calls0, log0;
    var i := 0;
    while i < |steps|
      invariant 0 <= i <= |steps|
      invariant Loop(steps, save, driver, Run(calls0, log0, None)) == Loop(steps[i..], save, driver, Run(calls, log, None))
    {
      assert steps[i..][1..] == steps[i + 1..];
      var action := At(steps[i], 0);
      if action.Err? {
        return Run(calls, log, Some(SubscriptFailure(action.error)));
      }
      var a := Execute(steps[i], action.value, save.place, driver, calls);
      calls := calls + a.calls;
      log := log + StepLog(steps[i], action.value, save, a.error);
      i := i + 1;
    }
    r := Run(calls, log, None);
  }

  /** `startAutomation` of the later snapshot. */
  method StartAutomation(steps: seq<Entry>, settings: SettingsFile, boxes: seq<Checkbox>, host: Host, driver: Driver)
    returns (run: Run)
    ensures run == Automation(steps, settings, boxes, host, driver)
  {
    var name := LoadSetting(settings, "defaultBrowser", "Chrome");
    var log := LoadNotes(settings);
    var chromePath := LoadSetting(settings, "driverLocation", "chromedriver.exe");
    log := log + LoadNotes(settings);
    var edgePath := LoadSetting(settings, "msedgeLocation", "msedgedriver.exe");
    log := log + LoadNotes(settings);
    var b: Browser;
    if name == "Chrome" {
      b := Chrome;
    } else if name == "Edge" {
      b := Edge;
    } else {
      return Abort(Run([], log, None), UnsupportedBrowser(name));
    }
    var args := BuildArguments(Table(b), boxes);
    var path := if b == Chrome then chromePath else edgePath;
    if !host.isFile(path) {
      return Abort(Run([], log, None), InvalidDriverLocation(b));
    }
    var launch := Launch(b, args);
    log := log + [Starting(b, path)];
    assert launch == LaunchOf(settings, boxes) && Run([launch], log, None) == Started(settings, boxes);
    if !driver([], launch) {
      return Abort(Run([launch], log, None), DriverFailure(launch));
    }
    run := DriveSteps(steps, SaveTo(settings, host), driver, Started(settings, boxes));
    if run.raised.Some? {
      run := Abort(run, run.raised.value);
    }
    LaunchedRun(steps, settings, boxes, host, driver);
  }

  /** Everything after the launch: the step loop, then `driver.quit()` unless the loop raised. */
  method DriveSteps(steps: seq<Entry>, save: Saver, driver: Driver, started: Run)
    returns (run: Run)
    requires started.raised.None?
    ensures run == Drive(steps, save, driver, started)
  {
    run := RunSteps(steps, save, driver, started.calls, started.log);
    if run.raised.None? {
      run := Finish(run, driver);
    }
  }

  /** `startAutomation` of the earlier snapshot. */
  method StartEarlierAutomation(steps: seq<Entry>, headless: bool, driver: Driver) returns (run: Run)
    ensures run == EarlierAutomation(steps, headless, driver)
  {
    var launch := Launch(Chrome, HeadlessArguments(headless));
    if !driver([], launch) {
      return Run([launch], [], Some(DriverFailure(launch)));
    }
    run := DriveSteps(steps, Saver(BareName, false), driver, Run([launch], [], None));
  }

  // ------------------------------------------------- after the launch

  /** The drive after a launch, under the outer handler, keeps the launch as its first call and the log so far as its start. */
  lemma DriveKeepsStart(steps: seq<Entry>, save: Saver, driver: Driver, st: Run)
    requires st.raised.None? && |st.calls| == 1
    ensures var r := Escalate(Drive(steps, save, driver, st));
      |r.calls| >= 1 && r.calls[0] == st.calls[0] && |r.log| >= |st.log| && r.log[..|st.log|] == st.log
  {
    var d := Drive(steps, save, driver, st);
    assert d.calls[..1] == st.calls;
    if d.raised.Some? {
      assert (d.log + [Fatal(d.raised.value)])[..|st.log|] == d.log[..|st.log|];
    }
  }

  /**
   * After a launch, when every entry has an action, the drive quits exactly
   * once, as its last call, after a loop that neither launches nor quits; it
   * raises only when that quit fails, and otherwise ends with the
   * completion message.
   */
  lemma DriveQuitsOnce(steps: seq<Entry>, save: Saver, driver: Driver, st: Run)
    requires st.raised.None? && |st.calls| == 1 && st.calls[0].Launch? && AllHaveActions(steps)
    ensures var r := Drive(steps, save, driver, st);
      && |r.calls| >= 2 && r.calls[0] == st.calls[0] && r.calls[|r.calls| - 1] == Quit
      && (forall k :: 0 < k < |r.calls| - 1 ==> !r.calls[k].Launch? && !r.calls[k].Quit?)
      && (r.raised.None? <==> driver(r.calls[..|r.calls| - 1], Quit))
      && (r.raised.Some? ==> r.raised == Some(DriverFailure(Quit)))
      && (r.raised.None? ==> r.log[|r.log| - 1] == Completed)
  {
    var looped := Loop(steps, save, driver, st);
    LoopRaisesOnlyAtHeadless(steps, save, driver, st);
    LoopNeverLaunchesOrQuits(steps, save, driver, st);
    var r := Drive(steps, save, driver, st);
    assert r == Finish(looped, driver);
    assert looped.calls[..1] == st.calls;
    assert r.calls[..|r.calls| - 1] == looped.calls;
  }

  /** After a launch, an entry with no action makes the drive raise its subscript failure before any quit. */
  lemma DriveStopsAtHeadless(steps: seq<Entry>, save: Saver, driver: Driver, st: Run)
    requires st.raised.None? && |st.calls| == 1 && st.calls[0].Launch? && !AllHaveActions(steps)
    ensures var r := Drive(steps, save, driver, st);
      Quit !in r.calls && r.raised.Some? && r.raised.value.SubscriptFailure?
  {
    LoopRaisesOnlyAtHeadless(steps, save, driver, st);
    LoopNeverLaunchesOrQuits(steps, save, driver, st);
    LoopRaisesSubscriptFailure(steps, save, driver, st);
    var looped := Loop(steps, save, driver, st);
    assert Drive(steps, save, driver, st) == looped;
    assert looped.calls[..1] == st.calls;
    forall k | 0 <= k < |looped.calls|
      ensures looped.calls[k] != Quit
    {
      if k == 0 {
        assert looped.calls[0] == st.calls[0];
      }
    }
  }

  /** After a launch, the drive saves every screenshot at `save`, under a name ending in ".png". */
  lemma DriveSavesUnder(steps: seq<Entry>, save: Saver, driver: Driver, st: Run)
    requires st.raised.None? && |st.calls| == 1 && st.calls[0].Launch?
    ensures forall k ::
      (0 <= k < |Drive(steps, save, driver, st).calls| && Drive(steps, save, driver, st).calls[k].SaveScreenshot?)
        ==> exists n :: EndsWith(n, PNG) && Drive(steps, save, driver, st).calls[k].path == save.place(n)
  {
    LoopSavesUnder(steps, save, driver, st);
    var looped := Loop(steps, save, driver, st);
    var d := Drive(steps, save, driver, st);
    assert d.calls == looped.calls || d.calls == looped.calls + [Quit];
    assert looped.calls[..1] == st.calls;
    forall k | 0 <= k < |d.calls| && d.calls[k].SaveScreenshot?
      ensures exists n :: EndsWith(n, PNG) && d.calls[k].path == save.place(n)
    {
      assert k < |looped.calls| && d.calls[k] == looped.calls[k];
      assert 1 <= k;
    }
  }

  /** The drive adds no fatal line to the log. */
  lemma DriveLogsNoFatal(steps: seq<Entry>, save: Saver, driver: Driver, st: Run)
    requires st.raised.None? && forall k :: 0 <= k < |st.log| ==> !st.log[k].Fatal?
    ensures forall k :: 0 <= k < |Drive(steps, save, driver, st).log| ==> !Drive(steps, save, driver, st).log[k].Fatal?
  {
    LoopLogsOnlyStepErrors(steps, save, driver, st);
    var looped := Loop(steps, save, driver, st);
    var d := Drive(steps, save, driver, st);
    assert d.log == looped.log || d.log == looped.log + [Completed];
    forall k | 0 <= k < |d.log|
      ensures !d.log[k].Fatal?
    {
      if k < |st.log| {
        assert d.log[k] == looped.log[k] == st.log[k];
      } else if k < |looped.log| {
        assert d.log[k] == looped.log[k];
      }
    }
  }

  // ------------------------------------------------------- run properties

  /** No action at some position: true when every stored entry can be given an action. */
  predicate AllHaveActions(steps: seq<Entry>) {
    forall k :: 0 <= k < |steps| ==> Length(steps[k]) >= 1
  }

  /** Whether setup gets as far as a live driver: a supported browser, a driver file, and a launch that succeeds. */
  predicate Launches(settings: SettingsFile, boxes: seq<Checkbox>, host: Host, driver: Driver) {
    && ChosenBrowser(settings).Some?
    && host.isFile(DriverPath(settings, ChosenBrowser(settings).value))
    && driver([], LaunchOf(settings, boxes))
  }

  /**
   * A setup failure (unsupported browser, no driver file) makes no driver
   * call, logs one fatal error after the settings warnings, and raises it.
   */
  lemma SetupFailureMakesNoCalls(steps: seq<Entry>, settings: SettingsFile, boxes: seq<Checkbox>, host: Host, driver: Driver)
    requires ChosenBrowser(settings).None? || !host.isFile(DriverPath(settings, ChosenBrowser(settings).value))
    ensures var r := Automation(steps, settings, boxes, host, driver);
      && r.calls == [] && r.raised.Some? && r.log == SetupLog(settings) + [Fatal(r.raised.value)]
      && (ChosenBrowser(settings).None? <==> r.raised.value.UnsupportedBrowser?)
  {
  }

  /** A launch the driver refuses is the only call; the run logs "Starting", then the failure, and raises it. */
  lemma RefusedLaunchRaises(steps: seq<Entry>, settings: SettingsFile, boxes: seq<Checkbox>, host: Host, driver: Driver)
    requires ChosenBrowser(settings).Some? && host.isFile(DriverPath(settings, ChosenBrowser(settings).value))
    requires !driver([], LaunchOf(settings, boxes))
    ensures var r := Automation(steps, settings, boxes, host, driver);
      && r.calls == [LaunchOf(settings, boxes)] && r.raised == Some(DriverFailure(LaunchOf(settings, boxes)))
      && r.log == Started(settings, boxes).log + [Fatal(r.raised.value)]
  {
  }

  /**
   * The first driver call launches the browser chosen in the settings with
   * exactly the arguments of the checked boxes that the browser's table
   * knows; the launch is logged right after the settings warnings.
   */
  lemma LaunchComesFirst(steps: seq<Entry>, settings: SettingsFile, boxes: seq<Checkbox>, host: Host, driver: Driver)
    requires ChosenBrowser(settings).Some? && host.isFile(DriverPath(settings, ChosenBrowser(settings).value))
    ensures var r := Automation(steps, settings, boxes, host, driver);
      var b := ChosenBrowser(settings).value;
      && |r.calls| >= 1 && r.calls[0] == Launch(b, Arguments(Table(b), boxes))
      && |r.log| > |SetupLog(settings)| && r.log[..|SetupLog(settings)|] == SetupLog(settings)
      && r.log[|SetupLog(settings)|] == Starting(b, DriverPath(settings, b))
  {
    var st := Started(settings, boxes);
    var r := Automation(steps, settings, boxes, host, driver);
    if driver([], LaunchOf(settings, boxes)) {
      LaunchedRun(steps, settings, boxes, host, driver);
      DriveKeepsStart(steps, SaveTo(settings, host), driver, st);
    }
    assert |r.log| >= |st.log| && r.log[..|st.log|] == st.log;
    var b := ChosenBrowser(settings).value;
    ExtendsLine(r.log, SetupLog(settings), Starting(b, DriverPath(settings, b)));
  }

  /** A log that begins with `lines + [line]` begins with `lines` and has `line` right after. */
  lemma ExtendsLine(log: seq<Log>, lines: seq<Log>, line: Log)
    requires |log| >= |lines| + 1 && log[..|lines| + 1] == lines + [line]
    ensures |log| > |lines| && log[..|lines|] == lines && log[|lines|] == line
  {
    assert log[..|lines|] == log[..|lines| + 1][..|lines|];
  }

  /**
   * Once the browser is up and every entry has an action, the driver is
   * quit exactly once, as the last call, and nothing between the launch and
   * the quit launches or quits; the run raises only when that quit fails,
   * and otherwise ends with the completion message.
   */
  lemma QuitIsLastAndOnce(steps: seq<Entry>, settings: SettingsFile, boxes: seq<Checkbox>, host: Host, driver: Driver)
    requires Launches(settings, boxes, host, driver) && AllHaveActions(steps)
    ensures var r := Automation(steps, settings, boxes, host, driver);
      && |r.calls| >= 2 && r.calls[0].Launch? && r.calls[|r.calls| - 1] == Quit
      && (forall k :: 0 < k < |r.calls| - 1 ==> !r.calls[k].Launch? && !r.calls[k].Quit?)
      && (r.raised.None? <==> driver(r.calls[..|r.calls| - 1], Quit))
      && (r.raised.None? ==> r.log[|r.log| - 1] == Completed)
  {
    LaunchedRun(steps, settings, boxes, host, driver);
    DriveQuitsOnce(steps, SaveTo(settings, host), driver, Started(settings, boxes));
  }

  /**
   * An entry with no action stops the run: the driver is never quit, the
   * outer handler logs the failure of `step[0]` last and raises it.
   */
  lemma HeadlessEntryAbortsRun(steps: seq<Entry>, settings: SettingsFile, boxes: seq<Checkbox>, host: Host, driver: Driver)
    requires Launches(settings, boxes, host, driver) && !AllHaveActions(steps)
    ensures var r := Automation(steps, settings, boxes, host, driver);
      && Quit !in r.calls && r.raised.Some? && r.raised.value.SubscriptFailure?
      && r.log[|r.log| - 1] == Fatal(r.raised.value)
  {
    LaunchedRun(steps, settings, boxes, host, driver);
    DriveStopsAtHeadless(steps, SaveTo(settings, host), driver, Started(settings, boxes));
  }

  /** The loop only ever raises the subscript failure of an entry with no action. */
  lemma {:induction false} LoopRaisesSubscriptFailure(steps: seq<Entry>, save: Saver, driver: Driver, st: Run)
    requires st.raised.None?
    ensures var r := Loop(steps, save, driver, st); r.raised.Some? ==> r.raised.value.SubscriptFailure?
  {
    if steps != [] {
      match At(steps[0], 0)
      case Err(_) =>
      case Ok(action) =>
        var a := Execute(steps[0], action, save.place, driver, st.calls);
        LoopRaisesSubscriptFailure(steps[1..], save, driver, Run(st.calls + a.calls, st.log + StepLog(steps[0], action, save, a.error), None));
    }
  }

  /**
   * A screenshot step built by the editor saves to the screenshot directory
   * under its stored name, which already ends in ".png", so the name is not
   * extended a second time.
   */
  lemma AddedScreenshotKeepsItsName(f: Form, settings: SettingsFile, host: Host, driver: Driver, history: seq<Call>)
    requires f.action == SCREENSHOT
    ensures var s := AddedStep(f).value;
      && s.TakeScreenshot?
      && Execute(Encode(s), SCREENSHOT, SavePlace(settings, host), driver, history).calls
           == [SaveScreenshot(host.join(ScreenshotDir(settings, host), s.name))]
  {
    var s := AddedStep(f).value;
    WithPngIdempotent(f.text);
    assert WithPng(s.name) == s.name;
  }

  /**
   * A "Maximize Window" step maximizes the window when the editor added it,
   * but does nothing once the editor has updated it: the update stores the
   * bare action string, whose position 0 is its first letter.
   */
  lemma UpdatedMaximizeIsInert(f: Form, place: string -> string, driver: Driver, history: seq<Call>)
    requires f.action == MAXIMIZE
    ensures var added := Encode(AddedStep(f).value);
      Execute(added, At(added, 0).value, place, driver, history).calls == [MaximizeWindow]
    ensures var edited := Encode(EditedStep(f).value);
      && At(edited, 0) == Ok("M")
      && Execute(edited, "M", place, driver, history) == Attempt([], None)
  {
  }

  /** The earlier snapshot launches Chrome with only the headless argument and never logs a fatal error. */
  lemma EarlierRunShape(steps: seq<Entry>, headless: bool, driver: Driver)
    ensures var r := EarlierAutomation(steps, headless, driver);
      && |r.calls| >= 1 && r.calls[0] == Launch(Chrome, if headless then ["--headless"] else [])
      && (forall k :: 0 <= k < |r.log| ==> !r.log[k].Fatal? && !r.log[k].Starting?)
  {
    var launch := Launch(Chrome, HeadlessArguments(headless));
    if driver([], launch) {
      var looped := Loop(steps, Saver(BareName, false), driver, Run([launch], [], None));
      assert looped.calls[..1] == [launch];
      LoopLogsOnlyStepErrors(steps, Saver(BareName, false), driver, Run([launch], [], None));
      var r := EarlierAutomation(steps, headless, driver);
      assert r.log == looped.log || r.log == looped.log + [Completed];
      forall k | 0 <= k < |r.log|
        ensures !r.log[k].Fatal? && !r.log[k].Starting?
      {
        if k < |looped.log| {
          assert r.log[k] == looped.log[k];
          assert looped.log[k].StepError?;
        } else {
          assert r.log[k] == Completed;
        }
      }
    }
  }

  /** The loop adds nothing to the log but per-step errors and, when reading the save path warns, settings warnings. */
  lemma {:induction false} LoopLogsOnlyStepErrors(steps: seq<Entry>, save: Saver, driver: Driver, st: Run)
    requires st.raised.None?
    ensures forall k :: |st.log| <= k < |Loop(steps, save, driver, st).log| ==>
      Loop(steps, save, driver, st).log[k].StepError? || (save.warns && Loop(steps, save, driver, st).log[k] == LoadWarning)
  {
    if steps != [] {
      match At(steps[0], 0)
      case Err(_) =>
      case Ok(action) =>
        var a := Execute(steps[0], action, save.place, driver, st.calls);
        var next := Run(st.calls + a.calls, st.log + StepLog(steps[0], action, save, a.error), None);
        LoopLogsOnlyStepErrors(steps[1..], save, driver, next);
        var r := Loop(steps, save, driver, st);
        assert r == Loop(steps[1..], save, driver, next);
        forall k | |st.log| <= k < |r.log|
          ensures r.log[k].StepError? || (save.warns && r.log[k] == LoadWarning)
        {
          if k < |next.log| {
            assert r.log[k] == next.log[k] == StepLog(steps[0], action, save, a.error)[k - |st.log|];
          }
        }
    }
  }

  /** In the earlier snapshot a screenshot is saved under its bare file name, relative to the working directory. */
  lemma EarlierScreenshotName(name: string, note: Option<string>, driver: Driver, history: seq<Call>)
    ensures Execute(Encode(TakeScreenshot(name, note)), SCREENSHOT, BareName, driver, history).calls
      == [SaveScreenshot(WithPng(name))]
  {
  }

  /** Actions the dispatch has no branch for ("Execute Python Script" among them) make no driver call and cannot fail. */
  lemma UndispatchedActionIsSkipped(e: Entry, action: string, place: string -> string, driver: Driver, history: seq<Call>)
    requires action !in {NAVIGATE, CLICK, INPUT, SCREENSHOT, EXEC_JS, SLEEP, MAXIMIZE}
    ensures Execute(e, action, place, driver, history) == Attempt([], None)
  {
  }

  /**
   * A click or input step whose locator name is not in the table (the
   * "Select Locator" placeholder among them) fails with the KeyError before
   * any driver call; the loop logs it as that step's error and goes on.
   */
  lemma UnknownLocatorIsLogged(e: Entry, rest: seq<Entry>, save: Saver, driver: Driver, st: Run)
    requires st.raised.None? && Length(e) >= 3
    requires At(e, 0).value in {CLICK, INPUT} && Resolve(At(e, 1).value).None?
    ensures Loop([e] + rest, save, driver, st)
      == Loop(rest, save, driver, Run(st.calls, st.log + [StepError(At(e, 0).value, UnknownLocator(At(e, 1).value))], None))
  {
    StepIsIsolated(e, rest, save, driver, st);
  }

  /**
   * In the earlier snapshot a failing launch escapes at once; otherwise,
   * when every entry has an action, the driver is quit exactly once, as the
   * last call, and the run ends with the completion message unless that
   * quit fails.
   */
  lemma EarlierQuitIsLastAndOnce(steps: seq<Entry>, headless: bool, driver: Driver)
    ensures var r := EarlierAutomation(steps, headless, driver);
      var launch := Launch(Chrome, HeadlessArguments(headless));
      && (!driver([], launch) ==> r.calls == [launch] && r.raised == Some(DriverFailure(launch)))
      && (driver([], launch) && AllHaveActions(steps) ==>
            && |r.calls| >= 2 && r.calls[|r.calls| - 1] == Quit
            && (forall k :: 0 <= k < |r.calls| - 1 ==> r.calls[k] != Quit)
            && (r.raised.None? <==> driver(r.calls[..|r.calls| - 1], Quit))
            && (r.raised.None? ==> r.log[|r.log| - 1] == Completed))
  {
    var launch := Launch(Chrome, HeadlessArguments(headless));
    if driver([], launch) && AllHaveActions(steps) {
      DriveQuitsOnce(steps, Saver(BareName, false), driver, Run([launch], [], None));
    }
  }

  /** Every screenshot the loop saves goes to `save` under a name ending in ".png". */
  lemma {:induction false} LoopSavesUnder(steps: seq<Entry>, save: Saver, driver: Driver, st: Run)
    requires st.raised.None?
    ensures forall k ::
      (|st.calls| <= k < |Loop(steps, save, driver, st).calls| && Loop(steps, save, driver, st).calls[k].SaveScreenshot?)
        ==> exists n :: EndsWith(n, PNG) && Loop(steps, save, driver, st).calls[k].path == save.place(n)
  {
    if steps != [] {
      match At(steps[0], 0)
      case Err(_) =>
      case Ok(action) =>
        var a := Execute(steps[0], action, save.place, driver, st.calls);
        var next := Run(st.calls + a.calls, st.log + StepLog(steps[0], action, save, a.error), None);
        LoopSavesUnder(steps[1..], save, driver, next);
        var r := Loop(steps, save, driver, st);
        assert r == Loop(steps[1..], save, driver, next);
        forall k | |st.calls| <= k < |r.calls| && r.calls[k].SaveScreenshot?
          ensures exists n :: EndsWith(n, PNG) && r.calls[k].path == save.place(n)
        {
          if k < |next.calls| {
            assert r.calls[k] == next.calls[k] == a.calls[k - |st.calls|];
            assert a.calls[k - |st.calls|] in a.calls;
            var n := WithPng(At(steps[0], 1).value);
            assert EndsWith(n, PNG) && r.calls[k].path == save.place(n);
          }
        }
    }
  }

  /**
   * Every screenshot of the later run is saved in the directory of the
   * "savePath" setting when that is non-empty and exists, and in the working
   * directory otherwise, under a name ending in ".png".
   */
  lemma ScreenshotsGoToSaveDir(steps: seq<Entry>, settings: SettingsFile, boxes: seq<Checkbox>, host: Host, driver: Driver)
    ensures var r := Automation(steps, settings, boxes, host, driver);
      var p := LoadSetting(settings, "savePath", "");
      var dir := if p != "" && host.pathExists(p) then p else host.cwd;
      forall k :: 0 <= k < |r.calls| && r.calls[k].SaveScreenshot?
        ==> exists n :: EndsWith(n, PNG) && r.calls[k].path == host.join(dir, n)
  {
    var r := Automation(steps, settings, boxes, host, driver);
    if Launches(settings, boxes, host, driver) {
      var save := SaveTo(settings, host);
      LaunchedRun(steps, settings, boxes, host, driver);
      DriveSavesUnder(steps, save, driver, Started(settings, boxes));
      forall k | 0 <= k < |r.calls| && r.calls[k].SaveScreenshot?
        ensures exists n :: EndsWith(n, PNG) && r.calls[k].path == host.join(ScreenshotDir(settings, host), n)
      {
        var n :| EndsWith(n, PNG) && r.calls[k].path == save.place(n);
        assert save.place(n) == host.join(ScreenshotDir(settings, host), n);
      }
    }
  }

  /** A fatal line is logged only by a run that raised, and only as its last line. */
  predicate FatalOnlyLast(r: Run) {
    forall k :: 0 <= k < |r.log| && r.log[k].Fatal? ==> r.raised.Some? && k == |r.log| - 1
  }

  /**
   * The outer handler's fatal line is the last line of a run that raised,
   * and the only one: a run that returns normally logs none, and none is
   * followed by any other line.
   */
  lemma FatalIsLastAndOnly(steps: seq<Entry>, settings: SettingsFile, boxes: seq<Checkbox>, host: Host, driver: Driver)
    ensures FatalOnlyLast(Automation(steps, settings, boxes, host, driver))
  {
    if Launches(settings, boxes, host, driver) {
      LaunchedFatalIsLast(steps, settings, boxes, host, driver);
    } else {
      SetupFatalIsLast(steps, settings, boxes, host, driver);
    }
  }

  /** `FatalIsLastAndOnly` for a run whose setup fails: the settings warnings, then the fatal line. */
  lemma SetupFatalIsLast(steps: seq<Entry>, settings: SettingsFile, boxes: seq<Checkbox>, host: Host, driver: Driver)
    requires !Launches(settings, boxes, host, driver)
    ensures FatalOnlyLast(Automation(steps, settings, boxes, host, driver))
  {
    SetupLogIsWarnings(settings);
    if ChosenBrowser(settings).Some? && host.isFile(DriverPath(settings, ChosenBrowser(settings).value)) {
      RefusedLaunchFatalIsLast(steps, settings, boxes, host, driver);
    } else {
      var r := Automation(steps, settings, boxes, host, driver);
      SetupFailureMakesNoCalls(steps, settings, boxes, host, driver);
      AbortFatalIsLast(Run([], SetupLog(settings), None), r.raised.value);
    }
  }

  /** `SetupFatalIsLast` when the driver refuses the launch: the settings warnings, "Starting", then the fatal line. */
  lemma RefusedLaunchFatalIsLast(steps: seq<Entry>, settings: SettingsFile, boxes: seq<Checkbox>, host: Host, driver: Driver)
    requires ChosenBrowser(settings).Some? && host.isFile(DriverPath(settings, ChosenBrowser(settings).value))
    requires !driver([], LaunchOf(settings, boxes))
    ensures FatalOnlyLast(Automation(steps, settings, boxes, host, driver))
  {
    SetupLogIsWarnings(settings);
    RefusedLaunchRaises(steps, settings, boxes, host, driver);
    var st := Started(settings, boxes);
    assert st.log == SetupLog(settings) + [st.log[|st.log| - 1]] && st.log[|st.log| - 1].Starting?;
    AbortFatalIsLast(st, DriverFailure(LaunchOf(settings, boxes)));
  }

  /** Aborting a run whose log has no fatal line leaves exactly one, as the last line. */
  lemma AbortFatalIsLast(st: Run, error: Error)
    requires forall k :: 0 <= k < |st.log| ==> !st.log[k].Fatal?
    ensures FatalOnlyLast(Abort(st, error))
  {
  }

  /** `FatalIsLastAndOnly` for a run that launches: the drive logs no fatal line, and the handler adds at most the last. */
  lemma LaunchedFatalIsLast(steps: seq<Entry>, settings: SettingsFile, boxes: seq<Checkbox>, host: Host, driver: Driver)
    requires Launches(settings, boxes, host, driver)
    ensures FatalOnlyLast(Automation(steps, settings, boxes, host, driver))
  {
    SetupLogIsWarnings(settings);
    var d := Drive(steps, SaveTo(settings, host), driver, Started(settings, boxes));
    DriveLogsNoFatal(steps, SaveTo(settings, host), driver, Started(settings, boxes));
    EscalatedFatalIsLast(d);
    LaunchedRun(steps, settings, boxes, host, driver);
  }

  /** After a start with no settings warning, the drive under the outer handler logs none unless reading the save path warns. */
  lemma DriveWarnsOnlyWhenAsked(steps: seq<Entry>, save: Saver, driver: Driver, st: Run)
    requires st.raised.None? && !save.warns && LoadWarning !in st.log
    ensures LoadWarning !in Escalate(Drive(steps, save, driver, st)).log
  {
    LoopLogsOnlyStepErrors(steps, save, driver, st);
    var looped := Loop(steps, save, driver, st);
    var r := Escalate(Drive(steps, save, driver, st));
    assert r.log == looped.log || r.log == looped.log + [Completed] || r.log == looped.log + [Fatal(r.raised.value)];
    forall k | 0 <= k < |r.log|
      ensures r.log[k] != LoadWarning
    {
      if k < |st.log| {
        assert r.log[k] == looped.log[k] == st.log[k];
      } else if k < |looped.log| {
        assert r.log[k] == looped.log[k];
      }
    }
  }

  /**
   * A settings file that is missing or decodes logs no warning anywhere in
   * the run; only an undecodable one makes `loadSettings` warn.
   */
  lemma NoWarningUnlessUndecodable(steps: seq<Entry>, settings: SettingsFile, boxes: seq<Checkbox>, host: Host, driver: Driver)
    requires !settings.Undecodable?
    ensures LoadWarning !in Automation(steps, settings, boxes, host, driver).log
  {
    if Launches(settings, boxes, host, driver) {
      LaunchedWarnsNot(steps, settings, boxes, host, driver);
    } else {
      UnlaunchedWarnsNot(steps, settings, boxes, host, driver);
    }
  }

  /** `NoWarningUnlessUndecodable` for a run that fails before or at the launch. */
  lemma UnlaunchedWarnsNot(steps: seq<Entry>, settings: SettingsFile, boxes: seq<Checkbox>, host: Host, driver: Driver)
    requires !settings.Undecodable? && !Launches(settings, boxes, host, driver)
    ensures LoadWarning !in Automation(steps, settings, boxes, host, driver).log
  {
    if ChosenBrowser(settings).Some? && host.isFile(DriverPath(settings, ChosenBrowser(settings).value)) {
      RefusedLaunchRaises(steps, settings, boxes, host, driver);
      var st := Started(settings, boxes);
      assert st.log == [st.log[0]] && st.log[0].Starting?;
    } else {
      SetupFailureMakesNoCalls(steps, settings, boxes, host, driver);
    }
  }

  /** `NoWarningUnlessUndecodable` for a run that launches. */
  lemma LaunchedWarnsNot(steps: seq<Entry>, settings: SettingsFile, boxes: seq<Checkbox>, host: Host, driver: Driver)
    requires !settings.Undecodable? && Launches(settings, boxes, host, driver)
    ensures LoadWarning !in Automation(steps, settings, boxes, host, driver).log
  {
    var st := Started(settings, boxes);
    assert st.log == [st.log[0]] && st.log[0].Starting?;
    DriveWarnsOnlyWhenAsked(steps, SaveTo(settings, host), driver, st);
    LaunchedRun(steps, settings, boxes, host, driver);
  }

  /** A run with no fatal line, under the outer handler, has at most one: its last line, when it raised. */
  lemma EscalatedFatalIsLast(d: Run)
    requires forall k :: 0 <= k < |d.log| ==> !d.log[k].Fatal?
    ensures FatalOnlyLast(Escalate(d))
  {
  }
}
