/**
 * Browser launch options: the window's option checkboxes and the two
 * per-browser tables that translate a checked box into a driver argument.
 */
module Options {

  /** One option checkbox of the "Browser Options" tab: its text and whether it is checked. */
  datatype Checkbox = Checkbox(text: string, checked: bool)

  /** The "Basic Options" group's labels, in the order the window creates them (atom8.py:367-374). */
  const BasicLabels: seq<string> := [
    "Headless Mode", "Disable GPU", "Incognito Mode", "Disable Popup Blocking",
    "Disable Infobars", "Disable Extensions"]

  /** The "Advanced Options" group's labels, in the order the window creates them (atom8.py:388-407). */
  const AdvancedLabels: seq<string> := [
    "Disable Dev Shm Usage", "Ignore Certificate Errors", "Custom User Agent",
    "Disable JavaScript", "Disable Images", "Enable Network Throttling",
    "Enable Performance Logging", "Enable GPU Hardware Acceleration",
    "Remote Debugging Port", "Proxy Settings", "Enable Automation", "No Sandbox",
    "Disable Web Security", "Enable Experimental Features", "Disable Password Manager",
    "Disable Autofill", "Disable Filesystem API", "Disable Geolocation"]

  /** The labels of all option checkboxes, basic group first, as `findChildren(QCheckBox)` meets them. */
  const CheckboxLabels: seq<string> := BasicLabels + AdvancedLabels

  /** The checkboxes as `findChildren(QCheckBox)` lists them, given which labels are checked. */
  function WindowBoxes(checked: set<string>): (r: seq<Checkbox>)
    ensures |r| == |CheckboxLabels|
    ensures forall k :: 0 <= k < |r| ==> r[k] == Checkbox(CheckboxLabels[k], CheckboxLabels[k] in checked)
  {
    seq(|CheckboxLabels|, k requires 0 <= k < |CheckboxLabels| =>
      Checkbox(CheckboxLabels[k], CheckboxLabels[k] in checked))
  }

  const ChromeTable: map<string, string> := map[
    "Headless Mode" := "--headless",
    "Disable GPU" := "--disable-gpu",
    "Incognito Mode" := "--incognito",
    "Disable Popup Blocking" := "--disable-popup-blocking",
    "Disable Infobars" := "--disable-infobars",
    "Disable Extensions" := "--disable-extensions",
    "Disable Dev Shm Usage" := "--disable-dev-shm-usage",
    "Ignore Certificate Errors" := "--ignore-certificate-errors",
    "Custom User Agent" := "--user-agent",
    "Disable JavaScript" := "--disable-javascript",
    "Disable Images" := "--blink-settings=imagesEnabled=false",
    "Enable Network Throttling" := "--enable-network-throttling",
    "Enable Performance Logging" := "--enable-performance-logging",
    "Enable GPU Hardware Acceleration" := "--enable-gpu-rasterization",
    "Remote Debugging Port" := "--remote-debugging-port",
    "Proxy Settings" := "--proxy-server",
    "Enable Automation" := "--enable-automation",
    "No Sandbox" := "--no-sandbox",
    "Disable Web Security" := "--disable-web-security",
    "Enable Experimental Features" := "--enable-experimental-web-platform-features",
    "Disable Password Manager" := "--disable-password-manager-reauthentication",
    "Disable Autofill" := "--disable-autofill-keyboard-accessory-view",
    "Disable Filesystem API" := "--disable-filesystem",
    "Disable Geolocation" := "--disable-geolocation"]

  const EdgeTable: map<string, string> := map[
    "Headless Mode" := "headless",
    "Disable GPU" := "disable-gpu",
    "InPrivate Mode" := "InPrivate",
    "Disable Popup Blocking" := "disable-popup-blocking",
    "Disable Extensions" := "disable-extensions",
    "Ignore Certificate Errors" := "ignore-certificate-errors",
    "Custom User Agent" := "user-agent",
    "Disable JavaScript" := "disable-javascript",
    "Disable Images" := "disable-images",
    "Enable Network Throttling" := "enable-network-throttling",
    "Enable Performance Logging" := "enable-performance-logging",
    "Enable GPU Hardware Acceleration" := "enable-gpu-rasterization",
    "Remote Debugging Port" := "remote-debugging-port",
    "Proxy Settings" := "proxy-server",
    "Enable Automation" := "enable-automation",
    "No Sandbox" := "no-sandbox",
    "Disable Web Security" := "disable-web-security",
    "Enable Experimental Features" := "enable-experimental-web-platform-features",
    "Disable Password Manager" := "disable-password-manager",
    "Disable Autofill" := "disable-autofill",
    "Disable Filesystem API" := "disable-filesystem",
    "Disable Geolocation" := "disable-geolocation"]

  /** A box contributes an argument when its text is a key of the table and it is checked. */
  predicate Contributes(table: map<string, string>, b: Checkbox) {
    b.text in table && table[b.text] != "" && b.checked
  }

  /** The arguments the checkbox loop adds, in checkbox order: at most one per box, each a non-empty table value. */
  function Arguments(table: map<string, string>, boxes: seq<Checkbox>): (r: seq<string>)
    ensures |r| <= |boxes|
    ensures forall k :: 0 <= k < |r| ==> r[k] in table.Values && r[k] != ""
  {
    if boxes == [] then []
    else
      var last := boxes[|boxes| - 1];
      Arguments(table, boxes[..|boxes| - 1])
      + (if Contributes(table, last) then [table[last.text]] else [])
  }

  /**
   * The checkbox loop of `startAutomation`: `add_argument` for every box
   * whose text the browser's table maps to an option and which is checked.
   */
  method BuildArguments(table: map<string, string>, boxes: seq<Checkbox>) returns (args: seq<string>)
    ensures args == Arguments(table, boxes)
    ensures |args| <= |boxes|
  {
    args := [];
    var i := 0;
    while i < |boxes|
      invariant 0 <= i <= |boxes|
      invariant args == Arguments(table, boxes[..i])
      invariant |args| <= i
    {
      var option := if boxes[i].text in table then table[boxes[i].text] else "";
      if option != "" && boxes[i].checked {
        args := args + [option];
      }
      assert boxes[..i + 1][..i] == boxes[..i];
      i := i + 1;
    }
    assert boxes[..i] == boxes;
  }

  /** An argument is added exactly when some checked box's text maps to it. */
  lemma {:induction false} ArgumentIff(table: map<string, string>, boxes: seq<Checkbox>, a: string)
    ensures a in Arguments(table, boxes)
      <==> exists k :: 0 <= k < |boxes| && Contributes(table, boxes[k]) && table[boxes[k].text] == a
  {
    if boxes != [] {
      var init := boxes[..|boxes| - 1];
      ArgumentIff(table, init, a);
      if a in Arguments(table, init) {
        var k :| 0 <= k < |init| && Contributes(table, init[k]) && table[init[k].text] == a;
        assert boxes[k] == init[k];
      }
      if exists k :: 0 <= k < |boxes| && Contributes(table, boxes[k]) && table[boxes[k].text] == a {
        var k :| 0 <= k < |boxes| && Contributes(table, boxes[k]) && table[boxes[k].text] == a;
        if k < |init| {
          assert init[k] == boxes[k];
        }
      }
    }
  }

  /**
   * The options of the checked labels, in label order: a statement of the
   * selection by the labels alone, independent of the checkbox loop.
   */
  function CheckedOptions(table: map<string, string>, labels: seq<string>, checked: set<string>): seq<string> {
    if labels == [] then []
    else
      var l := labels[0];
      (if l in checked && l in table && table[l] != "" then [table[l]] else [])
      + CheckedOptions(table, labels[1..], checked)
  }

  /** The checkbox loop over `a + b` adds `a`'s arguments, then `b`'s. */
  lemma {:induction false} ArgumentsAppend(table: map<string, string>, a: seq<Checkbox>, b: seq<Checkbox>)
    ensures Arguments(table, a + b) == Arguments(table, a) + Arguments(table, b)
  {
    if b == [] {
      assert a + b == a;
    } else {
      var init := b[..|b| - 1];
      ArgumentsAppend(table, a, init);
      assert (a + b)[..|a + b| - 1] == a + init;
    }
  }

  /** Boxes labelled in order, each checked when its label is: the loop adds exactly the checked labels' options. */
  lemma {:induction false} LabelledArguments(table: map<string, string>, labels: seq<string>, checked: set<string>,
                                             boxes: seq<Checkbox>)
    requires |boxes| == |labels|
    requires forall k :: 0 <= k < |boxes| ==> boxes[k] == Checkbox(labels[k], labels[k] in checked)
    ensures Arguments(table, boxes) == CheckedOptions(table, labels, checked)
  {
    if labels != [] {
      LabelledArguments(table, labels[1..], checked, boxes[1..]);
      ArgumentsAppend(table, boxes[..1], boxes[1..]);
      assert boxes[..1] + boxes[1..] == boxes;
      assert boxes[..1][..0] == [];
    }
  }

  /**
   * What the window's boxes launch with: the table's options for the
   * checked labels, in the order the window lists them, one per label.
   */
  lemma WindowArguments(table: map<string, string>, checked: set<string>)
    ensures Arguments(table, WindowBoxes(checked)) == CheckedOptions(table, CheckboxLabels, checked)
  {
    LabelledArguments(table, CheckboxLabels, checked, WindowBoxes(checked));
  }

  /** Whatever is checked, Edge is never launched "InPrivate": only a label the window lacks maps to it. */
  lemma EdgeNeverInPrivate(checked: set<string>)
    ensures "InPrivate" !in Arguments(EdgeTable, WindowBoxes(checked))
  {
    var boxes := WindowBoxes(checked);
    ArgumentIff(EdgeTable, boxes, "InPrivate");
    InPrivateOnlyFromItsLabel();
    InPrivateUnreachable();
    forall k | 0 <= k < |boxes| && Contributes(EdgeTable, boxes[k])
      ensures EdgeTable[boxes[k].text] != "InPrivate"
    {
      assert boxes[k].text == CheckboxLabels[k] != "InPrivate Mode";
    }
  }

  /** In the Edge table only "InPrivate Mode" maps to "InPrivate". */
  lemma InPrivateOnlyFromItsLabel()
    ensures forall l :: l in EdgeTable && EdgeTable[l] == "InPrivate" ==> l == "InPrivate Mode"
  {
  }

  /** A box whose text the table does not know adds nothing, wherever it stands. */
  lemma {:induction false} UnknownLabelIgnored(table: map<string, string>, before: seq<Checkbox>,
                                               b: Checkbox, after: seq<Checkbox>)
    requires b.text !in table
    ensures Arguments(table, before + [b] + after) == Arguments(table, before + after)
  {
    if after == [] {
      assert (before + [b] + after)[..|before + [b] + after| - 1] == before;
      assert before + after == before;
    } else {
      var init := after[..|after| - 1];
      UnknownLabelIgnored(table, before, b, init);
      assert (before + [b] + after)[..|before + [b] + after| - 1] == before + [b] + init;
      assert (before + after)[..|before + after| - 1] == before + init;
    }
  }

  /** Labels of the window that the Edge table does not know: checking them has no effect on Edge. */
  lemma EdgeIgnores()
    ensures "Incognito Mode" !in EdgeTable
    ensures "Disable Infobars" !in EdgeTable
    ensures "Disable Dev Shm Usage" !in EdgeTable
  {
  }

  /** Edge's "InPrivate Mode" entry has no checkbox, so it is never added. */
  lemma InPrivateUnreachable()
    ensures "InPrivate Mode" in EdgeTable && "InPrivate Mode" !in CheckboxLabels
  {
    assert "InPrivate Mode" !in BasicLabels;
    assert "InPrivate Mode" !in AdvancedLabels;
  }

  /** The earlier snapshot's only option: "--headless" when the headless box is checked (main.py:550-552). */
  function HeadlessArguments(headless: bool): (args: seq<string>)
    ensures "--headless" in args <==> headless
    ensures |args| <= 1
  {
    if headless then ["--headless"] else []
  }
}
