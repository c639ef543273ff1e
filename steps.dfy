/**
 * The step list's elements.
 *
 * The window keeps `self.steps` as a Python list whose elements are tuples
 * built by the editor, JSON arrays read back from a saved script, or (after
 * `updateStep` on "Maximize Window", or from a hand-written file) values that
 * are not sequences at all. `Entry` is that stored value; `Step` is the
 * tagged union the editor means by it, with `Encode`/`Decode` between them.
 */
module Steps {
  import opened Wrappers
  import opened Strings

  // The action names of the action combo box (atom8.py:543-544).
  const SLEEP := "Sleep"
  const CLICK := "Click Element"
  const INPUT := "Input Text"
  const NAVIGATE := "Navigate to URL"
  const EXEC_JS := "Execute JavaScript"
  const EXEC_PYTHON := "Execute Python Script"
  const MAXIMIZE := "Maximize Window"
  const SCREENSHOT := "Take Screenshot"
  const NO_LOCATOR := "Select Locator"
  const PNG := ".png"

  /** The actions `addStep` and `updateStep` accept; "Select Action" is not one. */
  predicate Supported(action: string) {
    action in {SLEEP, CLICK, INPUT, NAVIGATE, EXEC_JS, EXEC_PYTHON, MAXIMIZE, SCREENSHOT}
  }

  /**
   * One element of `self.steps`: a tuple or JSON array of strings, a bare
   * string, or a JSON number, boolean, null or object. Subscripting the last
   * kind with 0 always fails: a TypeError for a number, boolean or null, a
   * KeyError for an object; `failure` is that exception's message.
   */
  datatype Entry = Seq(items: seq<string>) | Text(s: string) | Scalar(failure: string)

  /** How many positions `entry[k]` can reach. */
  function Length(e: Entry): nat {
    match e
    case Seq(t) => |t|
    case Text(s) => |s|
    case Scalar(_) => 0
  }

  /**
   * The message of the exception `entry[k]` raises when `k` is out of reach:
   * an IndexError for a list or a string, the scalar's own failure otherwise.
   */
  function SubscriptMessage(e: Entry): string {
    match e
    case Seq(_) => "list index out of range"
    case Text(_) => "string index out of range"
    case Scalar(m) => m
  }

  /** Python's `entry[k]`: indexing a bare string yields a one-character string. */
  function At(e: Entry, k: nat): (r: Result<string, string>)
    ensures r.Ok? <==> k < Length(e)
    ensures r.Err? ==> r.error == SubscriptMessage(e)
    ensures r.Ok? && e.Seq? ==> r.value == e.items[k]
  {
    match e
    case Seq(t) => if k < |t| then Ok(t[k]) else Err(SubscriptMessage(e))
    case Text(s) => if k < |s| then Ok([s[k]]) else Err(SubscriptMessage(e))
    case Scalar(m) => Err(m)
  }

  /** The step the editor means, one case per tuple shape it builds. */
  datatype Step =
    | Sleep(seconds: string)
    | Click(locatorType: string, locatorValue: string, text: string, description: string)
    | InputText(locatorType: string, locatorValue: string, text: string, description: string)
    | Navigate(url: string, description: string)
    | ExecJS(code: string, description: string)
    | ExecPython(path: string, description: string)
    | TakeScreenshot(name: string, note: Option<string>)
    | Maximize
    | Malformed(entry: Entry)

  /** The tuple the source stores for a step. */
  function Encode(s: Step): (e: Entry)
    ensures !s.Malformed? ==> e.Seq? && |e.items| >= 1 && Supported(e.items[0])
  {
    match s
    case Sleep(v) => Seq([SLEEP, v])
    case Click(t, v, x, d) => Seq([CLICK, t, v, x, d])
    case InputText(t, v, x, d) => Seq([INPUT, t, v, x, d])
    case Navigate(u, d) => Seq([NAVIGATE, u, d])
    case ExecJS(c, d) => Seq([EXEC_JS, c, d])
    case ExecPython(p, d) => Seq([EXEC_PYTHON, p, d])
    case TakeScreenshot(n, None) => Seq([SCREENSHOT, n])
    case TakeScreenshot(n, Some(d)) => Seq([SCREENSHOT, n, d])
    case Maximize => Seq([MAXIMIZE])
    case Malformed(e) => e
  }

  /** Reads a stored entry as a step; any shape the editor never builds is `Malformed`. */
  function Decode(e: Entry): (s: Step)
    ensures s.Malformed? ==> s.entry == e
    ensures !s.Malformed? ==> e.Seq? && |e.items| >= 1 && Supported(e.items[0])
  {
    match e
    case Seq(t) =>
      if |t| == 2 && t[0] == SLEEP then Sleep(t[1])
      else if |t| == 5 && t[0] == CLICK then Click(t[1], t[2], t[3], t[4])
      else if |t| == 5 && t[0] == INPUT then InputText(t[1], t[2], t[3], t[4])
      else if |t| == 3 && t[0] == NAVIGATE then Navigate(t[1], t[2])
      else if |t| == 3 && t[0] == EXEC_JS then ExecJS(t[1], t[2])
      else if |t| == 3 && t[0] == EXEC_PYTHON then ExecPython(t[1], t[2])
      else if |t| == 2 && t[0] == SCREENSHOT then TakeScreenshot(t[1], None)
      else if |t| == 3 && t[0] == SCREENSHOT then TakeScreenshot(t[1], Some(t[2]))
      else if |t| == 1 && t[0] == MAXIMIZE then Maximize
      else Malformed(e)
    case _ => Malformed(e)
  }

  /** A step value in normal form: `Malformed` only wraps entries that do not decode to another case. */
  predicate Canonical(s: Step) {
    s.Malformed? ==> Decode(s.entry).Malformed?
  }

  /** Decoding loses nothing: every stored entry is the encoding of its decoding. */
  lemma DecodeThenEncode(e: Entry)
    ensures Encode(Decode(e)) == e
    ensures Canonical(Decode(e))
  {
  }

  /** Encoding is injective on canonical steps. */
  lemma EncodeThenDecode(s: Step)
    requires Canonical(s)
    ensures Decode(Encode(s)) == s
  {
  }

  /**
   * The screenshot file name as stored by `addStep` and as saved by the run:
   * ".png" is appended unless the name already ends with it.
   */
  function WithPng(name: string): (r: string)
    ensures EndsWith(r, PNG)
    ensures EndsWith(name, PNG) ==> r == name
    ensures !EndsWith(name, PNG) ==> |r| == |name| + |PNG| && r[..|name|] == name
  {
    if EndsWith(name, PNG) then name else name + PNG
  }

  /** Appending ".png" never doubles it. */
  lemma WithPngIdempotent(name: string)
    ensures WithPng(WithPng(name)) == WithPng(name)
  {
  }

  /** What the editor's input widgets hold when "Add Step" or "Save Changes" is pressed. */
  datatype Form = Form(action: string, locatorType: string, locatorValue: string,
                       text: string, description: string, sleep: string)

  /** The step `addStep` appends, or None when the action is not supported. */
  function AddedStep(f: Form): (r: Option<Step>)
    ensures r.Some? <==> Supported(f.action)
    ensures r.Some? ==> Canonical(r.value) && !r.value.Malformed?
    ensures r.Some? && f.action == SCREENSHOT ==> r.value.TakeScreenshot? && EndsWith(r.value.name, PNG)
  {
    if f.action == SLEEP then Some(Sleep(f.sleep))
    else if f.action == CLICK then Some(Click(f.locatorType, f.locatorValue, f.text, f.description))
    else if f.action == INPUT then Some(InputText(f.locatorType, f.locatorValue, f.text, f.description))
    else if f.action == NAVIGATE then Some(Navigate(f.text, f.description))
    else if f.action == EXEC_JS then Some(ExecJS(f.text, f.description))
    else if f.action == EXEC_PYTHON then Some(ExecPython(f.text, f.description))
    else if f.action == MAXIMIZE then Some(Maximize)
    else if f.action == SCREENSHOT then Some(TakeScreenshot(WithPng(f.text), None))
    else None
  }

  /**
   * The value `updateStep` stores, or None when the action is not supported.
   * Unlike `addStep` it keeps the screenshot name as typed, adds the
   * description, and for "Maximize Window" stores the bare action string.
   */
  function EditedStep(f: Form): (r: Option<Step>)
    ensures r.Some? <==> Supported(f.action)
    ensures r.Some? ==> Canonical(r.value)
    ensures r.Some? && f.action == MAXIMIZE ==> Encode(r.value) == Text(MAXIMIZE)
    ensures r.Some? && f.action == SCREENSHOT ==> r.value == TakeScreenshot(f.text, Some(f.description))
  {
    if f.action == SLEEP then Some(Sleep(f.sleep))
    else if f.action == CLICK then Some(Click(f.locatorType, f.locatorValue, f.text, f.description))
    else if f.action == INPUT then Some(InputText(f.locatorType, f.locatorValue, f.text, f.description))
    else if f.action == NAVIGATE then Some(Navigate(f.text, f.description))
    else if f.action == EXEC_JS then Some(ExecJS(f.text, f.description))
    else if f.action == EXEC_PYTHON then Some(ExecPython(f.text, f.description))
    else if f.action == SCREENSHOT then Some(TakeScreenshot(f.text, Some(f.description)))
    else if f.action == MAXIMIZE then Some(Malformed(Text(MAXIMIZE)))
    else None
  }

  /** For every action but the screenshot and "Maximize Window", `updateStep` stores the tuple `addStep` appends. */
  lemma EditedMatchesAdded(f: Form)
    requires f.action in {SLEEP, CLICK, INPUT, NAVIGATE, EXEC_JS, EXEC_PYTHON}
    ensures EditedStep(f) == AddedStep(f)
  {
  }
}
