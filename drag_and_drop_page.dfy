/**
 * The drag-and-drop page object: two columns whose texts the injected
 * drag-and-drop script exchanges, read back by a case-insensitive column name.
 */
module DragAndDrop {
  import opened Wrappers
  import Conftest

  /** The two drop targets, `#column-a` and `#column-b`. */
  datatype Column = ColumnA | ColumnB

  /** The `ValueError` of `get_column_text`. */
  datatype ColumnError = ColumnError(message: string)

  const BadColumnMessage := "Column must be 'a' or 'b'"

  /** Lower-casing of one character, for the ASCII letters. */
  function LowerChar(c: char): (r: char) {
    if 'A' <= c <= 'Z' then (c as int + 32) as char else c
  }

  /** `str.lower()`, for the ASCII letters. */
  function Lower(s: string): (r: string)
    ensures |r| == |s|
    ensures forall i :: 0 <= i < |s| ==> r[i] == LowerChar(s[i])
  {
    if s == [] then [] else [LowerChar(s[0])] + Lower(s[1..])
  }

  /** Lower-casing a lower-cased string changes nothing. */
  lemma LowerIdempotent(s: string)
    ensures Lower(Lower(s)) == Lower(s)
  {
  }

  /** The strings that lower-case to a given one-letter lower-case name. */
  lemma LowerIsLetter(s: string, lower: char)
    requires 'a' <= lower <= 'z'
    ensures Lower(s) == [lower] <==> s == [lower] || s == [(lower as int - 32) as char]
  {
  }

  /**
   * The `column_mapping` lookup of `get_column_text`: the column a name
   * selects after lower-casing, or the error for any other name.
   */
  function ColumnFor(name: string): (r: Result<Column, ColumnError>)
    ensures r == Success(ColumnA) <==> name == "a" || name == "A"
    ensures r == Success(ColumnB) <==> name == "b" || name == "B"
    ensures r.Failure? ==> r.error == ColumnError(BadColumnMessage)
  {
    LowerIsLetter(name, 'a');
    LowerIsLetter(name, 'b');
    var key := Lower(name);
    if key == "a" then Success(ColumnA)
    else if key == "b" then Success(ColumnB)
    else Failure(ColumnError(BadColumnMessage))
  }

  /** The column a name selects depends on its lower-cased form alone. */
  lemma ColumnForIgnoresCase(name: string)
    ensures ColumnFor(Lower(name)) == ColumnFor(name)
  {
  }

  /** The drag-and-drop page: the text shown in each column. */
  class DragAndDropPage {
    var columnA: string
    var columnB: string

    constructor (a: string, b: string)
      ensures columnA == a && columnB == b
    {
      columnA := a;
      columnB := b;
    }

    /**
     * `get_column_text(column)`: the text of the column `column` names,
     * case-insensitively, or `ValueError` before any element is looked up.
     */
    function GetColumnText(column: string): (r: Result<string, ColumnError>)
      reads this
      ensures column == "a" || column == "A" ==> r == Success(columnA)
      ensures column == "b" || column == "B" ==> r == Success(columnB)
      ensures r.Failure? <==> column !in {"a", "A", "b", "B"}
      ensures r.Failure? ==> r.error == ColumnError(BadColumnMessage)
    {
      match ColumnFor(column)
      case Failure(e) => Failure(e)
      case Success(ColumnA) => Success(columnA)
      case Success(ColumnB) => Success(columnB)
    }

    /** `drag_and_drop_js()`: dropping column A onto column B exchanges their texts. */
    method DragAndDropJs()
      modifies this
      ensures columnA == old(columnB) && columnB == old(columnA)
    {
      columnA, columnB := columnB, columnA;
    }
  }

  /** The page as the site serves it: column A reads "A" and column B reads "B". */
  predicate Initial(page: DragAndDropPage)
    reads page
  {
    page.columnA == "A" && page.columnB == "B"
  }

  /** `test_drag_and_drop_success`: one drag-and-drop exchanges the letters. */
  method DragAndDropOnce(page: DragAndDropPage)
    requires Initial(page)
    modifies page
    ensures page.GetColumnText("a") == Success("B") && page.GetColumnText("b") == Success("A")
  {
    page.DragAndDropJs();
  }

  /** `test_drag_and_drop_reverse`: a second drag-and-drop restores the page. */
  method DragAndDropTwice(page: DragAndDropPage)
    requires Initial(page)
    modifies page
    ensures page.GetColumnText("a") == Success("A") && page.GetColumnText("b") == Success("B")
    ensures Initial(page)
  {
    page.DragAndDropJs();
    page.DragAndDropJs();
  }

  /**
   * `test_drag_and_drop_with_page_resize`: the window is resized to 800x600
   * around the exchange and then gets its original size back. The page's
   * column texts are taken to be independent of the window size.
   */
  method DragAndDropWithResize(driver: Conftest.Driver, page: DragAndDropPage)
    requires Initial(page)
    modifies driver, page
    ensures page.GetColumnText("a") == Success("B") && page.GetColumnText("b") == Success("A")
    ensures driver.windowSize == old(driver.windowSize)
    ensures driver.scriptTimeout == old(driver.scriptTimeout) && driver.closed == old(driver.closed)
    ensures driver.calls == old(driver.calls)
                            + [Conftest.WindowSizeSet(800, 600),
                               Conftest.WindowSizeSet(old(driver.windowSize).width, old(driver.windowSize).height)]
  {
    var originalSize := driver.GetWindowSize();
    driver.SetWindowSize(800, 600);
    page.DragAndDropJs();
    assert page.GetColumnText("a") == Success("B") && page.GetColumnText("b") == Success("A");
    driver.SetWindowSize(originalSize.width, originalSize.height);
  }
}
