/**
 * The editable table (src/components/data-grid/DataGrid.tsx). The columns
 * come from the first record's properties; one cell at a time can be in edit
 * mode; committing an edit copies the data array, replaces one record in the
 * copy and hands the copy to the parent, leaving the array the grid was given
 * untouched. Sorting, filtering and paging belong to the table library and
 * are not modelled.
 */
module DataGrid {
  import opened Wrappers
  import opened Records
  import FileParser

  /**
   * The column ids: the first record's property names, in order; none for
   * empty data. A column's id is taken to be its property name, as the table
   * library uses it for a plain key (one without a '.').
   */
  function Columns(data: seq<Record>): (cols: seq<string>)
    ensures data == [] ==> cols == []
    ensures data != [] ==> cols == Keys(data[0])
  {
    if |data| == 0 then [] else Keys(data[0])
  }

  /** A well-formed first record gives each column once. */
  lemma ColumnsDistinct(data: seq<Record>)
    requires data != [] && WellFormed(data[0])
    ensures forall i, j :: 0 <= i < j < |Columns(data)| ==> Columns(data)[i] != Columns(data)[j]
  {
  }

  /** For a parsed spreadsheet with distinct headers and at least one data row, the columns are the header row. */
  lemma ColumnsOfParsedSheet(name: string, rows: seq<seq<Cell>>)
    requires |rows| >= 2
    requires forall a, b :: 0 <= a < b < |rows[0]| ==> CellString(rows[0][a]) != CellString(rows[0][b])
    ensures var parsed := FileParser.XlsxOutcome(name, FileParser.SheetLoaded(rows));
      parsed.Ok? && Columns(parsed.value.data) == parsed.value.headers
  {
    var parsed := FileParser.XlsxOutcome(name, FileParser.SheetLoaded(rows));
    var headers := parsed.value.headers;
    assert parsed.value.data[0] == FileParser.RecordOf(headers, rows[1]);
    FileParser.FillKeysInOrder(headers, rows[1], |headers|);
    assert headers[..|headers|] == headers;
  }

  /** The data after the edit: record `row` has property `col` set to the typed text, nothing else changes. */
  function WithCell(data: seq<Record>, row: nat, col: string, text: string): (r: seq<Record>)
    requires row < |data|
    ensures |r| == |data|
    ensures forall i :: 0 <= i < |data| && i != row ==> r[i] == data[i]
    ensures Get(r[row], col) == Str(text)
    ensures forall k :: k != col ==> Get(r[row], k) == Get(data[row], k)
    ensures Keys(r[row]) == if col in Keys(data[row]) then Keys(data[row]) else Keys(data[row]) + [col]
  {
    SetGet(data[row], col, Str(text));
    SetKeys(data[row], col, Str(text));
    data[row := Set(data[row], col, Str(text))]
  }

  /** Committing a text cell without typing (the input starts with `String(value)`) leaves the data as it was. */
  lemma UntouchedTextEdit(data: seq<Record>, row: nat, col: string)
    requires row < |data| && col in Keys(data[row]) && Get(data[row], col).Str?
    ensures WithCell(data, row, col, CellString(Get(data[row], col))) == data
  {
    SetUnchanged(data[row], col);
  }

  /** ... but a number, boolean or empty cell committed without typing turns into text. */
  lemma UntouchedEditTurnsToText(data: seq<Record>, row: nat, col: string)
    requires row < |data| && !Get(data[row], col).Str?
    ensures WithCell(data, row, col, CellString(Get(data[row], col))) != data
  {
    var r := WithCell(data, row, col, CellString(Get(data[row], col)));
    assert Get(r[row], col) != Get(data[row], col);
  }

  /** The edit on the array: `[...data]`, then one slot of the copy replaced. */
  method CommitCell(data: array<Record>, row: nat, col: string, text: string) returns (newData: array<Record>)
    requires row < data.Length
    ensures fresh(newData)
    ensures newData[..] == WithCell(data[..], row, col, text)
    ensures unchanged(data)
  {
    newData := new Record[data.Length];
    for i := 0 to data.Length
      invariant newData[..i] == data[..i]
    {
      newData[i] := data[i];
    }
    assert newData[..] == data[..];
    newData[row] := Set(newData[row], col, Str(text));
  }

  datatype CellRef = CellRef(row: nat, col: string)

  datatype Key = Enter | Escape | OtherKey

  /** The grid's own state: the data it was given and the cell in edit mode, if any. */
  class Grid {
    var data: array<Record>
    var editingCell: Option<CellRef>

    constructor (given: array<Record>)
      ensures data == given && editingCell.None?
    {
      data := given;
      editingCell := None;
    }

    /** `isEditing` for the cell at (row, col). */
    predicate IsEditing(row: nat, col: string)
      reads this
    {
      editingCell == Some(CellRef(row, col))
    }

    /** Clicking a cell puts it, and only it, in edit mode. */
    method Click(row: nat, col: string)
      modifies this
      ensures IsEditing(row, col)
      ensures forall r: nat, c :: IsEditing(r, c) ==> r == row && c == col
      ensures data == old(data)
    {
      editingCell := Some(CellRef(row, col));
    }

    /**
     * The input loses focus with `text` typed: the edited copy goes to the
     * parent and edit mode ends. With no cell in edit mode on screen there is
     * no input to blur, and nothing happens.
     */
    method Blur(text: string) returns (emitted: Option<array<Record>>)
      modifies this
      ensures data == old(data) && unchanged(data)
      ensures old(editingCell).Some? && old(editingCell).value.row < data.Length ==>
        && emitted.Some? && fresh(emitted.value)
        && emitted.value[..] == WithCell(data[..], old(editingCell).value.row, old(editingCell).value.col, text)
        && editingCell.None?
      ensures !(old(editingCell).Some? && old(editingCell).value.row < data.Length) ==>
        emitted.None? && editingCell == old(editingCell)
    {
      match editingCell
      case None =>
        emitted := None;
      case Some(cell) =>
        if cell.row < data.Length {
          var newData := CommitCell(data, cell.row, cell.col, text);
          emitted := Some(newData);
          editingCell := None;
        } else {
          emitted := None;
        }
    }

    /** Enter commits as a blur does; Escape leaves edit mode and sends nothing; other keys do nothing here. */
    method KeyDown(key: Key, text: string) returns (emitted: Option<array<Record>>)
      modifies this
      ensures data == old(data) && unchanged(data)
      ensures key == Escape ==> emitted.None? && editingCell.None?
      ensures key == OtherKey ==> emitted.None? && editingCell == old(editingCell)
      ensures key == Enter && old(editingCell).Some? && old(editingCell).value.row < data.Length ==>
        && emitted.Some? && fresh(emitted.value)
        && emitted.value[..] == WithCell(data[..], old(editingCell).value.row, old(editingCell).value.col, text)
        && editingCell.None?
    ensures key == Enter && !(old(editingCell).Some? && old(editingCell).value.row < data.Length) ==>
      emitted.None? && editingCell == old(editingCell)
    {
      emitted := None;
      if key == Enter {
        emitted := Blur(text);
      }
      if key == Escape {
        editingCell := None;
      }
    }

    /** The parent passes new data (after an edit, the emitted copy); edit mode is kept as it was. */
    method Receive(newData: array<Record>)
      modifies this
      ensures data == newData && editingCell == old(editingCell)
    {
      data := newData;
    }
  }
}
