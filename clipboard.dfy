/**
 * `CustomComboBox.copyToClipboard`: the locator combo box of the extraction
 * results shows items "XPath: <xpath>" and "<attribute>: <value>"; copying
 * one puts on the clipboard what follows the first colon, stripped, or the
 * whole item when it has no colon.
 */
module Clipboard {
  import opened Wrappers
  import opened Strings

  /** Position of the first occurrence of `c` in `s`. */
  function IndexOf(s: string, c: char): (r: Option<nat>)
    ensures r.None? <==> c !in s
    ensures r.Some? ==> r.value < |s| && s[r.value] == c && c !in s[..r.value]
  {
    if s == [] then None
    else if s[0] == c then Some(0)
    else
      match IndexOf(s[1..], c)
      case None => None
      case Some(i) => assert s[..i + 1] == [s[0]] + s[1..][..i]; Some(i + 1)
  }

  /** The text `copyToClipboard` puts on the clipboard for the current item `text`. */
  function ClipboardText(text: string): (r: string)
    ensures ':' !in text ==> r == text
    ensures ':' in text ==> |r| < |text| && (r == [] || (!IsSpace(r[0]) && !IsSpace(r[|r| - 1])))
  {
    match IndexOf(text, ':')
    case None => text
    case Some(i) => Strip(text[i + 1..])
  }

  /** The clipboard gets everything after the first colon, stripped. */
  lemma {:induction false} CopiesAfterFirstColon(before: string, after: string)
    requires ':' !in before
    ensures ClipboardText(before + [':'] + after) == Strip(after)
  {
    var item := before + [':'] + after;
    assert item[|before|] == ':';
    assert IndexOf(item, ':').value == |before|;
    assert item[|before| + 1..] == after;
  }

  /**
   * For an item "name: value" with a colon-free name, as the results table
   * builds them, the clipboard gets the value without surrounding
   * whitespace; a value that contains colons is copied whole.
   */
  lemma CopiesValue(name: string, value: string)
    requires ':' !in name
    ensures ClipboardText(name + ": " + value) == Strip(value)
  {
    assert name + ": " + value == name + [':'] + (" " + value);
    CopiesAfterFirstColon(name, " " + value);
    StripLeadingSpace(value);
  }

  /** One leading space does not change what `strip()` returns. */
  lemma StripLeadingSpace(s: string)
    ensures Strip(" " + s) == Strip(s)
  {
    var t := " " + s;
    assert t[1..] == s;
    assert Leading(t) == 1 + Leading(s);
    assert t[Leading(t)..] == s[Leading(s)..];
  }
}
