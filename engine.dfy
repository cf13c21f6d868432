/** The office engine the server drives (LibreOffice, reached through pyoo),
    reduced to what the server observes: documents made of named sheets whose
    cells hold numbers or text, and the thread locks that guard them. The
    engine's own code is not part of this model; what it does with a request
    the source does not check is fixed here once (see the README). */
module Engine {
  import opened Values

  /** A zero-based (row, column) position. */
  type Pos = (int, int)

  /** A LibreOffice Calc sheet has 1,048,576 rows and 1,024 columns (A to AMJ). */
  const MaxRows: int := 1048576
  const MaxColumns: int := 1024

  const OutsideSheet := "position outside the sheet"
  const ShapeMismatch := "data does not match the shape of the range"
  const NotACellValue := "value cannot be stored in a cell"

  /** A position on the sheet. */
  predicate InGrid(p: Pos)
  {
    0 <= p.0 < MaxRows && 0 <= p.1 < MaxColumns
  }

  /** A sheet gives every position a value; a cell never written holds
      empty text. */
  datatype Sheet = Sheet(name: string, cells: Pos -> Cell)

  function EmptySheet(name: string): Sheet
  {
    Sheet(name, p => Text(""))
  }

  function CellAt(s: Sheet, p: Pos): Cell
  {
    s.cells(p)
  }

  /** How pyoo hands a cell value back to Python: numbers as floats. */
  function ToJson(c: Cell): Json
  {
    match c
    case Number(n) => JFloat(n)
    case Text(t) => JStr(t)
  }

  /** How the engine stores a Python value written into a cell: numbers and
      booleans become numbers, strings text; anything else is refused. */
  function ToCell(v: Json): Result<Cell>
  {
    match v
    case JBool(b) => Ok(Number(if b then 1.0 else 0.0))
    case JInt(i) => Ok(Number(i as real))
    case JFloat(f) => Ok(Number(f))
    case JStr(t) => Ok(Text(t))
    case _ => Raise(EngineError(NotACellValue))
  }

  /** What reading back a written value gives: scalars pass through the cell,
      lists keep their structure. */
  function Stored(v: Json): Json
  {
    match v
    case JArr(items) => JArr(seq(|items|, i requires 0 <= i < |items| => Stored(items[i])))
    case _ => if ToCell(v).Ok? then ToJson(ToCell(v).value) else v
  }

  // ---------------------------------------------------------------------
  // Sheet lookup: `spreadsheet.sheets[key]`

  function SheetNames(sheets: seq<Sheet>): (r: seq<string>)
    ensures |r| == |sheets|
    ensures forall i | 0 <= i < |sheets| :: r[i] == sheets[i].name
  {
    seq(|sheets|, i requires 0 <= i < |sheets| => sheets[i].name)
  }

  /** Position of the first occurrence of `name` among `names`. */
  function FindName(names: seq<string>, name: string): (r: Option<nat>)
    ensures r.Some? ==> r.value < |names| && names[r.value] == name
    ensures r.Some? ==> forall j | 0 <= j < r.value :: names[j] != name
    ensures r.None? <==> name !in names
  {
    if names == [] then None
    else if names[0] == name then Some(0)
    else match FindName(names[1..], name)
      case Some(k) => Some(k + 1)
      case None => None
  }

  /** A sheet is chosen by name (KeyError when absent, the first one when
      several share it) or by zero-based index (IndexError when out of
      range); any other key is a TypeError. Only the sheet names matter. */
  function SheetIndex(sheets: seq<Sheet>, key: Json): (r: Result<nat>)
    ensures r.Ok? ==> r.value < |sheets|
    ensures key.JStr? ==> (r.Ok? <==> key.s in SheetNames(sheets))
    ensures key.JStr? && r.Ok? ==> sheets[r.value].name == key.s
    ensures key.JInt? ==> (r.Ok? <==> 0 <= key.i < |sheets|)
    ensures r.Raise? ==> r.exc in {KeyError, IndexError, TypeError}
  {
    match key
    case JStr(name) =>
      (match FindName(SheetNames(sheets), name)
       case Some(k) => Ok(k)
       case None => Raise(KeyError))
    case JInt(i) => if 0 <= i < |sheets| then Ok(i) else Raise(IndexError)
    case _ => Raise(TypeError)
  }

  // ---------------------------------------------------------------------
  // Blocks of cells

  /** Length of the Python slice `lo:hi + 1`, empty when `hi < lo`. */
  function Span(lo: int, hi: int): nat
  {
    if hi < lo then 0 else hi - lo + 1
  }

  predicate Rectangular<T>(g: seq<seq<T>>, w: nat)
  {
    forall i | 0 <= i < |g| :: |g[i]| == w
  }

  /** Every position of the h-by-w block at (top, left) lies on the sheet. */
  predicate BlockOnSheet(top: int, left: int, h: nat, w: nat)
  {
    h == 0 || w == 0 || (0 <= top && top + h <= MaxRows && 0 <= left && left + w <= MaxColumns)
  }

  /** `sheet[top:top + h, left:left + w].values`, row by row. */
  function ReadBlock(s: Sheet, top: int, left: int, h: nat, w: nat): (g: seq<seq<Cell>>)
    ensures |g| == h && Rectangular(g, w)
  {
    seq(h, i requires 0 <= i < h => seq(w, j requires 0 <= j < w => CellAt(s, (top + i, left + j))))
  }

  /** The sheet with the block at (top, left) overwritten by `g`. */
  function PutBlock(s: Sheet, top: int, left: int, g: seq<seq<Cell>>, w: nat): (r: Sheet)
    requires Rectangular(g, w)
    ensures r.name == s.name
  {
    var h := |g|;
    Sheet(s.name, (p: Pos) =>
      if top <= p.0 < top + h && left <= p.1 < left + w then g[p.0 - top][p.1 - left] else s.cells(p))
  }

  /** After PutBlock, the block reads back as `g` and every other cell is as before. */
  lemma PutBlockEffect(s: Sheet, top: int, left: int, g: seq<seq<Cell>>, w: nat, p: Pos)
    requires Rectangular(g, w)
    ensures top <= p.0 < top + |g| && left <= p.1 < left + w ==>
              CellAt(PutBlock(s, top, left, g, w), p) == g[p.0 - top][p.1 - left]
    ensures !(top <= p.0 < top + |g| && left <= p.1 < left + w) ==>
              CellAt(PutBlock(s, top, left, g, w), p) == CellAt(s, p)
  {
  }

  lemma {:induction false} ReadPutBlock(s: Sheet, top: int, left: int, g: seq<seq<Cell>>, w: nat)
    requires Rectangular(g, w)
    ensures ReadBlock(PutBlock(s, top, left, g, w), top, left, |g|, w) == g
  {
    var r := ReadBlock(PutBlock(s, top, left, g, w), top, left, |g|, w);
    forall i, j | 0 <= i < |g| && 0 <= j < w
      ensures r[i][j] == g[i][j]
    {
      PutBlockEffect(s, top, left, g, w, (top + i, left + j));
    }
    assert forall i | 0 <= i < |g| :: r[i] == g[i];
  }

  /** Convert a rectangular grid of Python values to cells. */
  predicate AllCells(data: seq<seq<Json>>)
  {
    forall i, j | 0 <= i < |data| && 0 <= j < |data[i]| :: ToCell(data[i][j]).Ok?
  }

  function ToCells(data: seq<seq<Json>>): (g: seq<seq<Cell>>)
    requires AllCells(data)
    ensures |g| == |data| && forall i | 0 <= i < |g| :: |g[i]| == |data[i]|
  {
    seq(|data|, i requires 0 <= i < |data| =>
      seq(|data[i]|, j requires 0 <= j < |data[i]| => ToCell(data[i][j]).value))
  }

  /** `sheet[top:top + h, left:left + w].values = data` for a grid of Python
      values: the shape must match, the block must lie on the sheet and
      every value must be storable. */
  function WriteBlock(s: Sheet, top: int, left: int, h: nat, w: nat, data: seq<seq<Json>>): (r: Result<Sheet>)
    ensures r.Raise? ==> r.exc.EngineError?
    ensures r.Ok? ==> |data| == h && Rectangular(data, w) && BlockOnSheet(top, left, h, w) && AllCells(data)
    ensures r.Ok? ==> r.value == PutBlock(s, top, left, ToCells(data), w)
  {
    if |data| != h || !Rectangular(data, w) then Raise(EngineError(ShapeMismatch))
    else if !BlockOnSheet(top, left, h, w) then Raise(EngineError(OutsideSheet))
    else if !AllCells(data) then Raise(EngineError(NotACellValue))
    else Ok(PutBlock(s, top, left, ToCells(data), w))
  }

  // ---------------------------------------------------------------------
  // Ranges as the connection classes address them

  /** How a range is treated: a row if it starts and ends on one row, else a
      column if it starts and ends on one column, else a grid. */
  datatype Shape = RowRange | ColumnRange | GridRange

  function ShapeOf(rowStart: int, rowEnd: int, colStart: int, colEnd: int): (r: Shape)
    ensures r == RowRange <==> rowStart == rowEnd
    ensures r == ColumnRange <==> rowStart != rowEnd && colStart == colEnd
    ensures r == GridRange <==> rowStart != rowEnd && colStart != colEnd
  {
    if rowStart == rowEnd then RowRange
    else if colStart == colEnd then ColumnRange
    else GridRange
  }

  /** The data given for a range, laid out as rows of cells: one row for a
      row range, one single-cell row per element for a column, and a list of
      lists for a grid. None when `data` has no such layout. */
  function AsRows(shape: Shape, data: Json): (r: Option<seq<seq<Json>>>)
    ensures shape == RowRange && r.Some? ==> |r.value| == 1
    ensures shape == ColumnRange && r.Some? ==> Rectangular(r.value, 1)
  {
    match data
    case JArr(items) =>
      (match shape
       case RowRange => Some([items])
       case ColumnRange => Some(seq(|items|, i requires 0 <= i < |items| => [items[i]]))
       case GridRange =>
         if forall i | 0 <= i < |items| :: items[i].JArr?
         then Some(seq(|items|, i requires 0 <= i < |items| => items[i].items))
         else None)
    case _ => None
  }

  /** Height and width of the range rows rowStart..rowEnd, columns colStart..colEnd. */
  function Height(shape: Shape, rowStart: int, rowEnd: int): nat
  {
    if shape == RowRange then 1 else Span(rowStart, rowEnd)
  }

  function Width(shape: Shape, colStart: int, colEnd: int): nat
  {
    if shape == ColumnRange then 1 else Span(colStart, colEnd)
  }

  /** `sheet[r, c].value`. */
  function ReadCell(s: Sheet, row: int, col: int): (r: Result<Json>)
    ensures r.Ok? <==> InGrid((row, col))
  {
    if BlockOnSheet(row, col, 1, 1) then Ok(ToJson(CellAt(s, (row, col))))
    else Raise(EngineError(OutsideSheet))
  }

  /** `sheet[r, c].value = v`. */
  function WriteCell(s: Sheet, row: int, col: int, v: Json): (r: Result<Sheet>)
    ensures r.Ok? <==> InGrid((row, col)) && ToCell(v).Ok?
    ensures r.Ok? ==> r.value.name == s.name
  {
    assert Rectangular([[v]], 1);
    assert AllCells([[v]]) <==> ToCell(v).Ok? by {
      assert [[v]][0][0] == v;
    }
    WriteBlock(s, row, col, 1, 1, [[v]])
  }

  /** Reading a range of the given shape: a flat list for a row or a column,
      a list of rows for a grid. */
  function ReadRange(s: Sheet, rowStart: int, rowEnd: int, colStart: int, colEnd: int): Result<Json>
  {
    var shape := ShapeOf(rowStart, rowEnd, colStart, colEnd);
    var h, w := Height(shape, rowStart, rowEnd), Width(shape, colStart, colEnd);
    if !BlockOnSheet(rowStart, colStart, h, w) then Raise(EngineError(OutsideSheet))
    else
      var g := ReadBlock(s, rowStart, colStart, h, w);
      match shape
      case RowRange => Ok(JArr(seq(w, j requires 0 <= j < w => ToJson(g[0][j]))))
      case ColumnRange => Ok(JArr(seq(h, i requires 0 <= i < h => ToJson(g[i][0]))))
      case GridRange =>
        Ok(JArr(seq(h, i requires 0 <= i < h => JArr(seq(w, j requires 0 <= j < w => ToJson(g[i][j]))))))
  }

  /** Writing a range of the given shape with `data` laid out by AsRows. */
  function WriteRange(s: Sheet, rowStart: int, rowEnd: int, colStart: int, colEnd: int, data: Json): (r: Result<Sheet>)
    ensures r.Raise? ==> r.exc.EngineError?
    ensures r.Ok? ==> r.value.name == s.name
  {
    var shape := ShapeOf(rowStart, rowEnd, colStart, colEnd);
    match AsRows(shape, data)
    case None => Raise(EngineError(ShapeMismatch))
    case Some(rows) =>
      WriteBlock(s, rowStart, colStart, Height(shape, rowStart, rowEnd), Width(shape, colStart, colEnd), rows)
  }

  /** A single cell written and read back gives the stored form of the value. */
  lemma WriteCellThenRead(s: Sheet, row: int, col: int, v: Json)
    requires WriteCell(s, row, col, v).Ok?
    ensures ReadCell(WriteCell(s, row, col, v).value, row, col) == Ok(Stored(v))
  {
    var g := ToCells([[v]]);
    PutBlockEffect(s, row, col, g, 1, (row, col));
  }

  /** A range written and read back gives the data in its stored form, with
      the same list structure. */
  lemma {:induction false} WriteRangeThenRead(s: Sheet, rowStart: int, rowEnd: int, colStart: int, colEnd: int, data: Json)
    requires WriteRange(s, rowStart, rowEnd, colStart, colEnd, data).Ok?
    ensures ReadRange(WriteRange(s, rowStart, rowEnd, colStart, colEnd, data).value,
                      rowStart, rowEnd, colStart, colEnd) == Ok(Stored(data))
  {
    var shape := ShapeOf(rowStart, rowEnd, colStart, colEnd);
    var h, w := Height(shape, rowStart, rowEnd), Width(shape, colStart, colEnd);
    var rows := AsRows(shape, data).value;
    var g := ToCells(rows);
    var s' := PutBlock(s, rowStart, colStart, g, w);
    ReadPutBlock(s, rowStart, colStart, g, w);
    var items := data.items;
    var back := ReadBlock(s', rowStart, colStart, h, w);
    assert back == g;
    match shape
    case RowRange =>
      assert rows == [items];
      assert Stored(data) == JArr(seq(w, j requires 0 <= j < w => ToJson(g[0][j])));
    case ColumnRange =>
      assert Stored(data) == JArr(seq(h, i requires 0 <= i < h => ToJson(g[i][0])));
    case GridRange =>
      forall i | 0 <= i < h
        ensures Stored(items[i]) == JArr(seq(w, j requires 0 <= j < w => ToJson(g[i][j])))
      {
        assert items[i].items == rows[i];
      }
      assert Stored(data) == JArr(seq(h, i requires 0 <= i < h => JArr(seq(w, j requires 0 <= j < w => ToJson(g[i][j])))));
  }

  /** Cells outside the written range keep their values. */
  lemma WriteRangeFrame(s: Sheet, rowStart: int, rowEnd: int, colStart: int, colEnd: int, data: Json, p: Pos)
    requires WriteRange(s, rowStart, rowEnd, colStart, colEnd, data).Ok?
    requires var shape := ShapeOf(rowStart, rowEnd, colStart, colEnd);
             !(rowStart <= p.0 < rowStart + Height(shape, rowStart, rowEnd) &&
               colStart <= p.1 < colStart + Width(shape, colStart, colEnd))
    ensures CellAt(WriteRange(s, rowStart, rowEnd, colStart, colEnd, data).value, p) == CellAt(s, p)
  {
    var shape := ShapeOf(rowStart, rowEnd, colStart, colEnd);
    var rows := AsRows(shape, data).value;
    PutBlockEffect(s, rowStart, colStart, ToCells(rows), Width(shape, colStart, colEnd), p);
  }

  // ---------------------------------------------------------------------
  // Objects

  /** threading.Lock, reduced to whether it is held. Blocking in `acquire`
      is not modelled: callers must find the lock free. */
  class Lock {
    var held: bool

    constructor()
      ensures !held
    {
      held := false;
    }

    method Acquire()
      requires !held
      modifies this
      ensures held
    {
      held := true;
    }

    /** `release()`; `released` is false where Python raises RuntimeError
        because the lock was not held. */
    method Release() returns (released: bool)
      modifies this
      ensures released == old(held)
      ensures !held
    {
      released := held;
      held := false;
    }
  }

  /** A document opened in the engine. */
  class Document {
    const path: string
    var sheets: seq<Sheet>
    var savedTo: seq<string>
    var closed: bool

    constructor Open(path: string, sheets: seq<Sheet>)
      ensures this.path == path && this.sheets == sheets
      ensures savedTo == [] && !closed
    {
      this.path := path;
      this.sheets := sheets;
      savedTo := [];
      closed := false;
    }

    method Save(to: string)
      modifies this
      ensures savedTo == old(savedTo) + [to]
      ensures sheets == old(sheets) && closed == old(closed)
    {
      savedTo := savedTo + [to];
    }

    method Close()
      modifies this
      ensures closed
      ensures sheets == old(sheets) && savedTo == old(savedTo)
    {
      closed := true;
    }
  }
}
