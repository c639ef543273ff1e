/** The fixed table from locator names to Selenium's `By` strategies (atom8.py:781-790, main.py:556-565). */
module Locators {
  import opened Wrappers

  datatype By = XPath | CssSelector | Id | Name | ClassName | TagName | LinkText | PartialLinkText

  /** The eight names the table knows, in the order of the locator combo box. */
  const LocatorNames: seq<string> :=
    ["XPath", "CSS Selector", "ID", "Name", "Class Name", "Tag Name", "Link Text", "Partial Link Text"]

  /** `locator_strategies[name]`; None is the KeyError. */
  function Resolve(name: string): (r: Option<By>)
    ensures r.Some? <==> name in LocatorNames
  {
    if name == "XPath" then Some(XPath)
    else if name == "CSS Selector" then Some(CssSelector)
    else if name == "ID" then Some(Id)
    else if name == "Name" then Some(Name)
    else if name == "Class Name" then Some(ClassName)
    else if name == "Tag Name" then Some(TagName)
    else if name == "Link Text" then Some(LinkText)
    else if name == "Partial Link Text" then Some(PartialLinkText)
    else None
  }

  /** Distinct names resolve to distinct strategies, and every strategy has a name. */
  lemma ResolveIsBijective(a: string, b: string, strategy: By)
    ensures Resolve(a).Some? && Resolve(a) == Resolve(b) ==> a == b
    ensures exists n :: n in LocatorNames && Resolve(n) == Some(strategy)
  {
    match strategy
    case XPath => assert Resolve(LocatorNames[0]) == Some(strategy);
    case CssSelector => assert Resolve(LocatorNames[1]) == Some(strategy);
    case Id => assert Resolve(LocatorNames[2]) == Some(strategy);
    case Name => assert Resolve(LocatorNames[3]) == Some(strategy);
    case ClassName => assert Resolve(LocatorNames[4]) == Some(strategy);
    case TagName => assert Resolve(LocatorNames[5]) == Some(strategy);
    case LinkText => assert Resolve(LocatorNames[6]) == Some(strategy);
    case PartialLinkText => assert Resolve(LocatorNames[7]) == Some(strategy);
  }

  /** The combo box's placeholder entry is not in the table. */
  lemma PlaceholderIsUnknown()
    ensures Resolve("Select Locator") == None
  {
  }
}
