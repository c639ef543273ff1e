/**
 * The step-list editor of the main window: `self.steps` and the visible list
 * widget `self.stepsList`, edited by index, plus the recent-files list.
 */
module Editor {
  import opened Wrappers
  import opened Steps
  import opened Display

  /** `del s[i]`: the element at `i` is gone and the rest keep their order. */
  function Without<T>(s: seq<T>, i: nat): (r: seq<T>)
    requires i < |s|
    ensures |r| == |s| - 1
    ensures forall j :: 0 <= j < i ==> r[j] == s[j]
    ensures forall j :: i <= j < |r| ==> r[j] == s[j + 1]
    ensures multiset(r) + multiset{s[i]} == multiset(s)
  {
    assert s == s[..i] + [s[i]] + s[i + 1..];
    s[..i] + s[i + 1..]
  }

  /** `s.insert(i, x)` for `0 <= i <= len(s)`. */
  function Insert<T>(s: seq<T>, i: nat, x: T): (r: seq<T>)
    requires i <= |s|
    ensures |r| == |s| + 1 && r[i] == x
    ensures forall j :: 0 <= j < i ==> r[j] == s[j]
    ensures forall j :: i < j < |r| ==> r[j] == s[j - 1]
  {
    s[..i] + [x] + s[i..]
  }

  /** `s` with the elements at `i` and `j` exchanged. */
  function Swapped<T>(s: seq<T>, i: nat, j: nat): (r: seq<T>)
    requires i < |s| && j < |s|
    ensures |r| == |s| && r[i] == s[j] && r[j] == s[i]
    ensures forall k :: 0 <= k < |s| && k != i && k != j ==> r[k] == s[k]
  {
    s[i := s[j]][j := s[i]]
  }

  /** `s.insert(to, s.pop(from))` with `to` next to `from` exchanges the two neighbours. */
  lemma {:induction false} PopInsertSwaps<T>(s: seq<T>, from: nat, to: nat)
    requires from < |s| && to < |s| && (to + 1 == from || to == from + 1)
    ensures Insert(Without(s, from), to, s[from]) == Swapped(s, from, to)
  {
    var r := Insert(Without(s, from), to, s[from]);
    var w := Swapped(s, from, to);
    forall k | 0 <= k < |s|
      ensures r[k] == w[k]
    {
      if to + 1 == from {
        if k < to {
        } else if k == to {
        } else if k == from {
          assert r[k] == Without(s, from)[k - 1];
        } else {
          assert r[k] == Without(s, from)[k - 1] == s[k];
        }
      } else {
        if k < from {
        } else if k == from {
          assert r[k] == Without(s, from)[k] == s[from + 1];
        } else if k == to {
        } else {
          assert r[k] == Without(s, from)[k - 1] == s[k];
        }
      }
    }
  }

  predicate NoDuplicates<T(==)>(s: seq<T>) {
    forall i, j :: 0 <= i < j < |s| ==> s[i] != s[j]
  }

  /** `updateRecentFiles`: the path is appended only when it is not already listed. */
  function Remembered(files: seq<string>, path: string): (r: seq<string>)
    ensures path in r
    ensures forall q :: q in r <==> q in files || q == path
    ensures |files| <= |r| <= |files| + 1 && r[..|files|] == files
    ensures NoDuplicates(files) ==> NoDuplicates(r)
    ensures path in files <==> r == files
    ensures path !in files ==> r == files + [path]
  {
    if path in files then files else files + [path]
  }

  /** The recent-files list after recording each path of `history` in turn. */
  function RememberAll(files: seq<string>, history: seq<string>): seq<string> {
    if history == [] then files
    else Remembered(RememberAll(files, history[..|history| - 1]), history[|history| - 1])
  }

  /** Reference definition: each path of `history` at its first occurrence only. */
  function FirstOccurrences(history: seq<string>): seq<string> {
    if history == [] then []
    else
      var init := history[..|history| - 1];
      FirstOccurrences(init) + (if history[|history| - 1] in init then [] else [history[|history| - 1]])
  }

  lemma {:induction false} FirstOccurrencesMembers(history: seq<string>)
    ensures forall q :: q in FirstOccurrences(history) <==> q in history
  {
    if history != [] {
      var init := history[..|history| - 1];
      FirstOccurrencesMembers(init);
      assert history == init + [history[|history| - 1]];
    }
  }

  /**
   * Starting from an empty list, the recent files are the opened and saved
   * paths in order of first use, each once.
   */
  lemma {:induction false} RecentFilesAreFirstOccurrences(history: seq<string>)
    ensures RememberAll([], history) == FirstOccurrences(history)
    ensures NoDuplicates(RememberAll([], history))
  {
    if history != [] {
      var init := history[..|history| - 1];
      RecentFilesAreFirstOccurrences(init);
      FirstOccurrencesMembers(init);
    }
  }

  /** What reading the chosen script file gives. */
  datatype Document =
    | Unreadable            // the file cannot be opened or is not valid JSON
    | NotAList              // valid JSON whose top-level value is not an array
    | Entries(entries: seq<Entry>)

  /** The rows `openFile` shows for loaded entries: one per list entry, the others skipped. */
  function RowsOf(entries: seq<Entry>): (rows: seq<string>)
    ensures |rows| <= |entries|
  {
    if entries == [] then []
    else
      var last := entries[|entries| - 1];
      RowsOf(entries[..|entries| - 1]) + (if last.Seq? then [DisplayText(last)] else [])
  }

  /** The indices `openFile` reports as "Invalid step format". */
  function SkippedOf(entries: seq<Entry>): (skipped: seq<nat>)
    ensures forall i :: 0 <= i < |skipped| ==> skipped[i] < |entries| && !entries[skipped[i]].Seq?
    ensures forall i, j :: 0 <= i < j < |skipped| ==> skipped[i] < skipped[j]
  {
    if entries == [] then []
    else
      var n := |entries| - 1;
      SkippedOf(entries[..n]) + (if entries[n].Seq? then [] else [n])
  }

  /** Every loaded entry gets a row or a report, never both. */
  lemma {:induction false} RowsAndSkipsCount(entries: seq<Entry>)
    ensures |RowsOf(entries)| + |SkippedOf(entries)| == |entries|
  {
    if entries != [] {
      RowsAndSkipsCount(entries[..|entries| - 1]);
    }
  }

  /** Every entry that is not a list is reported. */
  lemma {:induction false} NonListsAreSkipped(entries: seq<Entry>)
    ensures forall k :: 0 <= k < |entries| && !entries[k].Seq? ==> k in SkippedOf(entries)
  {
    if entries != [] {
      var n := |entries| - 1;
      NonListsAreSkipped(entries[..n]);
      forall k | 0 <= k < |entries| && !entries[k].Seq?
        ensures k in SkippedOf(entries)
      {
        if k < n {
          assert entries[..n][k] == entries[k];
          assert k in SkippedOf(entries[..n]);
        }
      }
    }
  }

  /** The reported indices are exactly those of the entries that are not lists. */
  lemma SkippedExactly(entries: seq<Entry>)
    ensures forall k: nat :: k in SkippedOf(entries) <==> k < |entries| && !entries[k].Seq?
  {
    NonListsAreSkipped(entries);
    var skipped := SkippedOf(entries);
    forall k: nat | k in skipped
      ensures k < |entries| && !entries[k].Seq?
    {
      var i :| 0 <= i < |skipped| && skipped[i] == k;
    }
  }

  /** The display list has a row per entry exactly when every entry is a list. */
  lemma InStepIffAllLists(entries: seq<Entry>)
    ensures |RowsOf(entries)| == |entries| <==> forall k :: 0 <= k < |entries| ==> entries[k].Seq?
  {
    RowsAndSkipsCount(entries);
    NonListsAreSkipped(entries);
    var skipped := SkippedOf(entries);
    if exists k :: 0 <= k < |entries| && !entries[k].Seq? {
      var k :| 0 <= k < |entries| && !entries[k].Seq?;
      assert k in skipped;
    }
  }

  /**
   * Every entry is either shown or reported, and the display list keeps pace
   * with the step list exactly when every loaded entry is a list.
   */
  lemma OpenedRows(entries: seq<Entry>)
    ensures |RowsOf(entries)| + |SkippedOf(entries)| == |entries|
    ensures forall k: nat :: k in SkippedOf(entries) <==> k < |entries| && !entries[k].Seq?
    ensures |RowsOf(entries)| == |entries| <==> forall k :: 0 <= k < |entries| ==> entries[k].Seq?
  {
    RowsAndSkipsCount(entries);
    SkippedExactly(entries);
    InStepIffAllLists(entries);
  }

  /** The rows of a prefix of the entries are a prefix of the rows. */
  lemma {:induction false} RowsOfPrefix(entries: seq<Entry>, m: nat)
    requires m <= |entries|
    ensures |RowsOf(entries[..m])| <= |RowsOf(entries)|
    ensures RowsOf(entries)[..|RowsOf(entries[..m])|] == RowsOf(entries[..m])
  {
    if m == |entries| {
      assert entries[..m] == entries;
    } else {
      var init := entries[..|entries| - 1];
      RowsOfPrefix(init, m);
      assert init[..m] == entries[..m];
    }
  }

  /**
   * What the rows say: a list entry is shown as its display text, in the
   * row right after the rows of the entries before it.
   */
  lemma RowsShowListEntries(entries: seq<Entry>, k: nat)
    requires k < |entries| && entries[k].Seq?
    ensures |RowsOf(entries[..k])| < |RowsOf(entries)|
    ensures RowsOf(entries)[|RowsOf(entries[..k])|] == DisplayText(entries[k])
  {
    RowsOfPrefix(entries, k + 1);
    var upto := entries[..k + 1];
    assert upto[..k] == entries[..k] && upto[k] == entries[k];
    assert RowsOf(upto) == RowsOf(entries[..k]) + [DisplayText(entries[k])];
  }

  /** When every loaded entry is a list, row `k` is the display text of step `k`. */
  lemma {:induction false} AllListsShownInOrder(entries: seq<Entry>)
    requires forall k :: 0 <= k < |entries| ==> entries[k].Seq?
    ensures |RowsOf(entries)| == |entries|
    ensures forall k :: 0 <= k < |entries| ==> RowsOf(entries)[k] == DisplayText(entries[k])
  {
    if entries != [] {
      var n := |entries| - 1;
      var init := entries[..n];
      AllListsShownInOrder(init);
      assert RowsOf(entries) == RowsOf(init) + [DisplayText(entries[n])];
      forall k | 0 <= k < n
        ensures RowsOf(entries)[k] == DisplayText(entries[k])
      {
        assert init[k] == entries[k];
      }
    }
  }

  /** The window's editing state. */
  class StepEditor {
    var steps: seq<Entry>
    var rows: seq<string>
    var recentFiles: seq<string>
    var currentFilePath: Option<string>

    /**
     * Every index the list widget can select is an index of `steps`: the
     * widget has at most as many rows as there are steps. (It has fewer
     * after `openFile` skipped entries that are not lists.)
     */
    ghost predicate Valid()
      reads this
    {
      |rows| <= |steps|
    }

    /** Steps and rows correspond one to one. */
    ghost predicate InStep()
      reads this
    {
      |rows| == |steps|
    }

    /** A fresh window, with the recent files read at start-up. */
    constructor (recent: seq<string>)
      ensures Valid() && InStep()
      ensures steps == [] && rows == [] && recentFiles == recent && currentFilePath == None
    {
      steps, rows := [], [];
      recentFiles := recent;
      currentFilePath := None;
    }

    /**
     * `addStep`: for a supported action, one entry and one row are appended;
     * otherwise a warning is shown and nothing changes.
     */
    method AddStep(f: Form) returns (added: bool)
      requires Valid()
      modifies this
      ensures Valid() && (old(InStep()) ==> InStep())
      ensures added <==> Supported(f.action)
      ensures added ==> steps == old(steps) + [Encode(AddedStep(f).value)] && rows == old(rows) + [AddedRow(f)]
      ensures !added ==> steps == old(steps) && rows == old(rows)
      ensures recentFiles == old(recentFiles) && currentFilePath == old(currentFilePath)
    {
      var step := AddedStep(f);
      if step.None? {
        return false;
      }
      steps := steps + [Encode(step.value)];
      rows := rows + [AddedRow(f)];
      added := true;
    }

    /** `removeSelectedStep`: deletes the selected step and its row; no selection changes nothing. */
    method RemoveSelectedStep(row: int) returns (removed: bool)
      requires Valid() && -1 <= row < |rows|
      modifies this
      ensures Valid() && (old(InStep()) ==> InStep())
      ensures removed <==> row >= 0
      ensures removed ==> steps == Without(old(steps), row) && rows == Without(old(rows), row)
      ensures !removed ==> steps == old(steps) && rows == old(rows)
      ensures recentFiles == old(recentFiles) && currentFilePath == old(currentFilePath)
    {
      if row < 0 {
        return false;
      }
      steps := Without(steps, row);
      rows := Without(rows, row);
      removed := true;
    }

    /**
     * `updateStep`: overwrites the selected step and its row text; with no
     * selection or an unsupported action nothing changes.
     */
    method UpdateStep(row: int, f: Form) returns (updated: bool)
      requires Valid() && -1 <= row < |rows|
      modifies this
      ensures Valid() && (old(InStep()) ==> InStep())
      ensures updated <==> row >= 0 && Supported(f.action)
      ensures updated ==> (steps == old(steps)[row := Encode(EditedStep(f).value)]
                           && rows == old(rows)[row := EditedRow(f)])
      ensures !updated ==> steps == old(steps) && rows == old(rows)
      ensures recentFiles == old(recentFiles) && currentFilePath == old(currentFilePath)
    {
      if row < 0 {
        return false;
      }
      var step := EditedStep(f);
      if step.None? {
        return false;
      }
      steps := steps[row := Encode(step.value)];
      rows := rows[row := EditedRow(f)];
      updated := true;
    }

    /**
     * `moveStepUp`: the selected step trades places with the one above it and
     * the selection follows it; the first row or no selection changes nothing.
     */
    method MoveStepUp(row: int) returns (selected: int)
      requires Valid() && -1 <= row < |rows|
      modifies this
      ensures Valid() && (old(InStep()) ==> InStep())
      ensures row >= 1 ==> (selected == row - 1
        && steps == Swapped(old(steps), row - 1, row) && rows == Swapped(old(rows), row - 1, row))
      ensures row < 1 ==> selected == row && steps == old(steps) && rows == old(rows)
      ensures recentFiles == old(recentFiles) && currentFilePath == old(currentFilePath)
    {
      if row < 1 {
        return row;
      }
      PopInsertSwaps(rows, row, row - 1);
      PopInsertSwaps(steps, row, row - 1);
      var item := rows[row];
      rows := Insert(Without(rows, row), row - 1, item);
      var step := steps[row];
      steps := Insert(Without(steps, row), row - 1, step);
      selected := row - 1;
    }

    /**
     * `moveStepDown`: the selected step trades places with the one below it
     * and the selection follows it; the last row or no selection changes nothing.
     */
    method MoveStepDown(row: int) returns (selected: int)
      requires Valid() && -1 <= row < |rows|
      modifies this
      ensures Valid() && (old(InStep()) ==> InStep())
      ensures 0 <= row < old(|rows|) - 1 ==> (selected == row + 1
        && steps == Swapped(old(steps), row, row + 1) && rows == Swapped(old(rows), row, row + 1))
      ensures !(0 <= row < old(|rows|) - 1) ==> selected == row && steps == old(steps) && rows == old(rows)
      ensures recentFiles == old(recentFiles) && currentFilePath == old(currentFilePath)
    {
      if !(row >= 0 && row < |rows| - 1) {
        return row;
      }
      PopInsertSwaps(rows, row, row + 1);
      PopInsertSwaps(steps, row, row + 1);
      var item := rows[row];
      rows := Insert(Without(rows, row), row + 1, item);
      var step := steps[row];
      steps := Insert(Without(steps, row), row + 1, step);
      selected := row + 1;
    }

    /** `clearStepsList`: both lists become empty. */
    method ClearStepsList()
      requires Valid()
      modifies this
      ensures Valid() && InStep()
      ensures steps == [] && rows == []
      ensures recentFiles == old(recentFiles) && currentFilePath == old(currentFilePath)
    {
      rows := [];
      steps := [];
    }

    /** `updateRecentFiles`: records a path once, at the end. */
    method UpdateRecentFiles(path: string)
      modifies this
      ensures recentFiles == Remembered(old(recentFiles), path)
      ensures NoDuplicates(old(recentFiles)) ==> NoDuplicates(recentFiles)
      ensures path in old(recentFiles) <==> recentFiles == old(recentFiles)
      ensures steps == old(steps) && rows == old(rows) && currentFilePath == old(currentFilePath)
    {
      if path !in recentFiles {
        recentFiles := recentFiles + [path];
      }
    }

    /**
     * `openFile` with the path chosen in the dialog ("" when cancelled) and
     * what reading that file gives. The path becomes current and is recorded
     * even when loading fails. A top-level value that is not a list is
     * rejected; otherwise the steps are replaced wholesale and every list
     * entry gets its rebuilt row, while the others are reported and skipped.
     */
    method OpenFile(fileName: string, doc: Document) returns (skipped: seq<nat>, failed: bool)
      requires Valid()
      modifies this
      ensures Valid()
      ensures fileName == "" ==> (steps == old(steps) && rows == old(rows)
        && recentFiles == old(recentFiles) && currentFilePath == old(currentFilePath)
        && skipped == [] && !failed)
      ensures fileName != "" ==> (currentFilePath == Some(fileName)
        && recentFiles == Remembered(old(recentFiles), fileName))
      ensures failed <==> fileName != "" && !doc.Entries?
      ensures failed ==> steps == old(steps) && rows == old(rows) && skipped == []
      ensures fileName != "" && doc.Entries? ==>
        (steps == doc.entries && rows == RowsOf(doc.entries) && skipped == SkippedOf(doc.entries))
    {
      skipped, failed := [], false;
      if fileName == "" {
        return;
      }
      currentFilePath := Some(fileName);
      UpdateRecentFiles(fileName);
      if !doc.Entries? {
        failed := true;
        return;
      }
      var loaded := doc.entries;
      steps := loaded;
      rows := [];
      var i := 0;
      while i < |loaded|
        invariant 0 <= i <= |loaded|
        invariant rows == RowsOf(loaded[..i]) && skipped == SkippedOf(loaded[..i])
        invariant steps == loaded && currentFilePath == Some(fileName)
        invariant recentFiles == Remembered(old(recentFiles), fileName)
      {
        assert loaded[..i + 1][..i] == loaded[..i];
        if !loaded[i].Seq? {
          skipped := skipped + [i];
        } else {
          rows := rows + [DisplayText(loaded[i])];
        }
        i := i + 1;
      }
      assert loaded[..i] == loaded;
      OpenedRows(loaded);
    }
  }
}
