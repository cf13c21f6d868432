/** What spreadsheet_connection.py and con.py share: `_range_to_index`, which
    differs between them only in how a column is computed from a reference,
    and the reading and writing of the cell or range it designates. */
module Ranges {
  import opened Values
  import opened Engine

  /** `[row, col]` for a single cell, `[[rowL, rowR], [colL, colR]]` for a range. */
  datatype Indexes =
    | Single(row: int, col: int)
    | Pair(rowStart: int, rowEnd: int, colStart: int, colEnd: int)

  /** `int(num) - 1` for the digits of one reference. */
  function RowOf(cellRef: string): (r: Result<int>)
    ensures r.Ok? <==> Digits(cellRef) != []
    ensures r.Ok? ==> r.value == DigitsValue(Digits(cellRef)) - 1
  {
    match ParseInt(Digits(cellRef))
    case Raise(e) => Raise(e)
    case Ok(n) => Ok(n - 1)
  }

  /** `_range_to_index`, given the file's column formula: no ':' gives a
      single cell, one ':' a pair of corners (left row first), and more
      colons fail to unpack. A half without digits fails in `int('')`. */
  function IndexWith(cellRange: string, column: string -> int): (r: Result<Indexes>)
    ensures r.Raise? ==> r.exc.ValueError?
    ensures ':' !in cellRange ==> (r.Ok? <==> Digits(cellRange) != [])
    ensures ':' !in cellRange && r.Ok? ==> r == Ok(Single(RowOf(cellRange).value, column(cellRange)))
    ensures Count(cellRange, ':') > 1 ==> r == Raise(ValueError(TooManyHalves))
    ensures Count(cellRange, ':') == 1 && r.Ok? ==> r.value.Pair?
  {
    var halves := Split(cellRange, ':');
    SplitCount(cellRange, ':');
    CountZero(cellRange, ':');
    if |halves| == 1 then
      SplitNoSep(cellRange, ':');
      match RowOf(cellRange)
      case Raise(e) => Raise(e)
      case Ok(row) => Ok(Single(row, column(cellRange)))
    else if |halves| != 2 then Raise(ValueError(TooManyHalves))
    else
      match RowOf(halves[0])
      case Raise(e) => Raise(e)
      case Ok(rowL) =>
        match RowOf(halves[1])
        case Raise(e) => Raise(e)
        case Ok(rowR) => Ok(Pair(rowL, rowR, column(halves[0]), column(halves[1])))
  }

  /** A range "L:R" gives the rows and the columns of its two halves. */
  lemma IndexWithHalves(l: string, rt: string, column: string -> int)
    requires ':' !in l && ':' !in rt
    ensures IndexWith(l + [':'] + rt, column).Ok? <==> Digits(l) != [] && Digits(rt) != []
    ensures IndexWith(l + [':'] + rt, column).Ok? ==>
              IndexWith(l + [':'] + rt, column).value ==
              Pair(RowOf(l).value, RowOf(rt).value, column(l), column(rt))
  {
    SplitAtFirst(l, rt, ':');
    SplitNoSep(rt, ':');
  }

  /** The sheet cells an Indexes value designates, read the way the
      `get_cells` of both files do: one value, or a row, a column or a grid. */
  function ReadIndexes(s: Sheet, ix: Indexes): (r: Result<Json>)
    ensures r.Raise? ==> r.exc == EngineError(OutsideSheet)
    ensures ix.Single? ==> (r.Ok? <==> InGrid((ix.row, ix.col)))
  {
    match ix
    case Single(row, col) => ReadCell(s, row, col)
    case Pair(rs, re, cs, ce) => ReadRange(s, rs, re, cs, ce)
  }

  /** Writing `data` to the cells an Indexes value designates. */
  function WriteIndexes(s: Sheet, ix: Indexes, data: Json): (r: Result<Sheet>)
    ensures r.Raise? ==> r.exc.EngineError?
    ensures r.Ok? ==> r.value.name == s.name
  {
    match ix
    case Single(row, col) => WriteCell(s, row, col, data)
    case Pair(rs, re, cs, ce) => WriteRange(s, rs, re, cs, ce, data)
  }

  /** What is written reads back in its stored form. */
  lemma WriteThenReadIndexes(s: Sheet, ix: Indexes, data: Json)
    requires WriteIndexes(s, ix, data).Ok?
    ensures ReadIndexes(WriteIndexes(s, ix, data).value, ix) == Ok(Stored(data))
  {
    match ix
    case Single(row, col) => WriteCellThenRead(s, row, col, data);
    case Pair(rs, re, cs, ce) => WriteRangeThenRead(s, rs, re, cs, ce, data);
  }

  /** A reference with digits and no ':' is the single cell of its row and
      column. */
  lemma SingleIndex(cellRef: string, column: string -> int)
    requires ':' !in cellRef && Digits(cellRef) != []
    ensures IndexWith(cellRef, column) == Ok(Single(RowOf(cellRef).value, column(cellRef)))
  {
  }

  /** `get_cells` of both files: any exception, from the reference, the sheet
      lookup or the engine, becomes the answer False. No lock is consulted. */
  function GetCellsWith(sheets: seq<Sheet>, sheet: Json, cellRange: string, column: string -> int): (r: Json)
    ensures r == JBool(false) <==>
              IndexWith(cellRange, column).Raise? || SheetIndex(sheets, sheet).Raise? ||
              ReadIndexes(sheets[SheetIndex(sheets, sheet).value], IndexWith(cellRange, column).value).Raise?
  {
    match IndexWith(cellRange, column)
    case Raise(_) => JBool(false)
    case Ok(ix) =>
      match SheetIndex(sheets, sheet)
      case Raise(_) => JBool(false)
      case Ok(k) =>
        match ReadIndexes(sheets[k], ix)
        case Raise(_) => JBool(false)
        case Ok(v) => v
  }
}
