/**
 * The text of the rows of the visible step list: what `addStep` and
 * `updateStep` put there, and what `constructStepDisplayText` rebuilds from
 * a stored entry when a script is opened.
 */
module Display {
  import opened Strings
  import opened Steps

  /** How many positions of an entry with this action `constructStepDisplayText` reads. */
  function Needed(action: string): nat {
    if action == SLEEP || action == SCREENSHOT then 2
    else if action == CLICK || action == INPUT then 5
    else if action == NAVIGATE || action == EXEC_JS || action == EXEC_PYTHON then 3
    else 1
  }

  /** The entry has every position its action's display text reads. */
  predicate Shaped(e: Entry) {
    1 <= Length(e) && Needed(At(e, 0).value) <= Length(e)
  }

  /** The optional tail " , Description: …" or "." of a navigation or script row. */
  function DescriptionTail(d: string): string {
    if d == "" then "." else ", Description: " + d
  }

  /** The row of a click or input step, as `addStep` and `constructStepDisplayText` both write it. */
  function LocatorText(action: string, locatorType: string, locatorValue: string, text: string, description: string): string {
    action + ": (By: " + locatorType + ", " + locatorValue + ")" + TextPart(text) + ", Description: " + description
  }

  /** The ", Text: …" part of a locator row, present only for a non-empty text. */
  function TextPart(t: string): string {
    if t != "" then ", Text: " + t else ""
  }

  /**
   * `constructStepDisplayText`. It never raises: a missing position gives
   * "Error: " and the message of the subscript failure; an action with no branch
   * is shown as it is.
   */
  function DisplayText(e: Entry): (r: string)
    ensures !Shaped(e) ==> r == "Error: " + SubscriptMessage(e)
    ensures Shaped(e) && At(e, 0).value in {NAVIGATE, EXEC_JS, EXEC_PYTHON}
      ==> EndsWith(r, DescriptionTail(At(e, 2).value))
    ensures Shaped(e) && Needed(At(e, 0).value) == 1 ==> r == At(e, 0).value
  {
    if !Shaped(e) then "Error: " + SubscriptMessage(e)
    else
      var action := At(e, 0).value;
      if action == SLEEP then "Sleep for " + Field(e, 1) + " seconds."
      else if action == CLICK || action == INPUT then
        LocatorText(action, Field(e, 1), Field(e, 2), Field(e, 3), Field(e, 4))
      else if action == NAVIGATE || action == EXEC_JS || action == EXEC_PYTHON then
        action + ": " + Field(e, 1) + DescriptionTail(Field(e, 2))
      else if action == SCREENSHOT then "Take screenshot and save as " + Field(e, 1)
      else action
  }

  /** Position `k` of an entry that has it. */
  function Field(e: Entry, k: nat): string
    requires k < Length(e)
  {
    At(e, k).value
  }

  /** The locator name as the editor's rows show it: the placeholder reads "N/A". */
  function LocatorShown(t: string): string {
    if t != NO_LOCATOR then t else "N/A"
  }

  /** The row text `addStep` adds for a supported action. */
  function AddedRow(f: Form): (r: string)
    requires Supported(f.action)
    ensures f.action in {NAVIGATE, EXEC_JS, EXEC_PYTHON} ==> EndsWith(r, DescriptionTail(f.description))
    ensures f.action == SCREENSHOT ==> EndsWith(r, PNG)
  {
    if f.action == SLEEP then "Sleep for " + f.sleep + " seconds."
    else if f.action == CLICK || f.action == INPUT then
      LocatorText(f.action, LocatorShown(f.locatorType), f.locatorValue, f.text, f.description)
    else if f.action == MAXIMIZE then "Maximize Window."
    else if f.action == SCREENSHOT then "Take screenshot and save as " + WithPng(f.text)
    else f.action + ": " + f.text + DescriptionTail(f.description)
  }

  /** The row text `updateStep` writes for a supported action. */
  function EditedRow(f: Form): (r: string)
    requires Supported(f.action)
    ensures f.action in {NAVIGATE, EXEC_JS, EXEC_PYTHON, SCREENSHOT} ==> EndsWith(r, DescriptionTail(f.description))
  {
    if f.action == SLEEP then "Sleep for " + f.sleep + " seconds."
    else if f.action == CLICK || f.action == INPUT then
      f.action + ": " + (if f.locatorValue != "" then f.locatorValue else f.text)
      + " (Locator: " + LocatorShown(f.locatorType) + "), Description: " + f.description
    else if f.action == MAXIMIZE then "Maximize Window."
    else if f.action == SCREENSHOT then
      "Take screenshot and save as " + WithPng(f.text) + DescriptionTail(f.description)
    else f.action + ": " + f.text + DescriptionTail(f.description)
  }

  /** Every step `addStep` builds has all the positions its display text reads. */
  lemma AddedStepsAreShaped(f: Form)
    requires Supported(f.action)
    ensures Shaped(Encode(AddedStep(f).value))
  {
  }

  /**
   * Reopening a saved script shows the row `addStep` showed, except for
   * two actions: "Maximize Window" loses its final period, and a click or
   * input step with no locator chosen shows "Select Locator" instead of
   * "N/A" (see `NoLocatorRowDiffers`).
   */
  lemma ReopenedRow(f: Form)
    requires Supported(f.action)
    ensures f.action == MAXIMIZE ==> DisplayText(Encode(AddedStep(f).value)) + "." == AddedRow(f)
    ensures f.action != MAXIMIZE && !(f.action in {CLICK, INPUT} && f.locatorType == NO_LOCATOR)
      ==> DisplayText(Encode(AddedStep(f).value)) == AddedRow(f)
  {
    AddedStepsAreShaped(f);
    var e := Encode(AddedStep(f).value);
    if f.action == CLICK || f.action == INPUT {
      assert e == Seq([f.action, f.locatorType, f.locatorValue, f.text, f.description]);
    } else if f.action == SCREENSHOT {
      assert e == Seq([SCREENSHOT, WithPng(f.text)]);
    }
  }

  /** Rows that name different locators differ. */
  lemma {:induction false} LocatorTextDiffers(action: string, locatorValue: string, text: string, description: string)
    ensures LocatorText(action, NO_LOCATOR, locatorValue, text, description)
      != LocatorText(action, "N/A", locatorValue, text, description)
  {
    assert |LocatorText(action, NO_LOCATOR, locatorValue, text, description)|
      == |LocatorText(action, "N/A", locatorValue, text, description)| + |NO_LOCATOR| - 3;
  }

  /** A click or input step added with no locator chosen reads back with a different row. */
  lemma NoLocatorRowDiffers(f: Form)
    requires f.action in {CLICK, INPUT} && f.locatorType == NO_LOCATOR
    ensures DisplayText(Encode(AddedStep(f).value)) != AddedRow(f)
  {
    var e := Encode(AddedStep(f).value);
    assert e == Seq([f.action, f.locatorType, f.locatorValue, f.text, f.description]);
    assert DisplayText(e) == LocatorText(f.action, NO_LOCATOR, f.locatorValue, f.text, f.description);
    assert AddedRow(f) == LocatorText(f.action, "N/A", f.locatorValue, f.text, f.description);
    LocatorTextDiffers(f.action, f.locatorValue, f.text, f.description);
  }

  /**
   * `updateStep` writes the row `addStep` wrote for every action but three:
   * a screenshot row gains the description tail, and a click or input row
   * is laid out differently.
   */
  lemma EditedRowMatchesAdded(f: Form)
    requires Supported(f.action)
    ensures f.action !in {CLICK, INPUT, SCREENSHOT} ==> EditedRow(f) == AddedRow(f)
    ensures f.action == SCREENSHOT ==> EditedRow(f) == AddedRow(f) + DescriptionTail(f.description)
  {
  }

  /**
   * After `updateStep` changes a click or input step, reopening the saved
   * script shows a different row from the one `updateStep` wrote, whatever
   * the form held: the two lay out the locator differently.
   */
  lemma {:induction false} EditedLocatorRowChangesOnReopen(f: Form)
    requires f.action in {CLICK, INPUT}
    ensures DisplayText(Encode(EditedStep(f).value)) != EditedRow(f)
  {
    var e := Encode(EditedStep(f).value);
    assert e == Seq([f.action, f.locatorType, f.locatorValue, f.text, f.description]);
    var shown := LocatorText(f.action, f.locatorType, f.locatorValue, f.text, f.description);
    assert DisplayText(e) == shown;
    var w := if f.locatorValue != "" then f.locatorValue else f.text;
    assert |shown| == |f.action| + 25 + |f.locatorType| + |f.locatorValue| + |TextPart(f.text)| + |f.description|;
    assert |EditedRow(f)| == |f.action| + 29 + |w| + |LocatorShown(f.locatorType)| + |f.description|;
  }
}
