/** connection.py: the connection a request handler holds to one open
    spreadsheet and its lock, and the translation of Calc-style references
    ("ABC945", "C9:Z26") to zero-based indices.

    Reading needs no lock, so the reads are functions of the document's
    sheets; the writes and the save change the document and are methods of
    the connection, each proved against a function that states its effect. */
module Connection {
  import opened Values
  import opened Engine

  const RangeGiven := "Expected a single cell reference. A cell range was given."
  const NotLocked := "Lock for this spreadsheet has not been aquired."
  const ListGiven := "Expectin a single cell.             A list of cells was given."
  const NotAList := "Expecting list type."
  const RowNotAList := "Expected a list of cells."
  const TooFewHalves := "not enough values to unpack (expected 2, got 1)"
  const SaveDirectory := "./saved_spreadsheets/"
  const SaveRefused := "Spreadsheet not locked"

  // ---------------------------------------------------------------------
  // Cell references

  /** The column `__get_xy_index` computes from the letters of a reference:
      each letter weighs its value 0..25 times 26 to the number of letters
      after it. No letter adds one, so an 'A' in front acts as a leading zero. */
  function Base26(chars: string): int
  {
    if chars == [] then 0
    else 26 * Base26(chars[..|chars| - 1]) + LetterValue(chars[|chars| - 1])
  }

  /** A zero-based cell position, `{"row_index": .., "column_index": ..}`. */
  datatype Index = Index(row: int, col: int)

  /** The four corners of a range, `{"row_start": .., "row_end": ..,
      "column_start": .., "column_end": ..}`. */
  datatype RangeIndex = RangeIndex(rowStart: int, rowEnd: int, colStart: int, colEnd: int)

  /** `__get_xy_index` (and `__cell_to_index`, which only renames its two
      results): the letters anywhere in the reference give the column, all
      its digits read as one number give the row plus one. A reference
      without digits fails in `int('')`. */
  function XyIndex(cellRef: string): (r: Result<Index>)
    ensures r.Ok? <==> Digits(cellRef) != []
    ensures r.Raise? ==> r.exc.ValueError?
    ensures r.Ok? ==> r.value.row >= -1
  {
    match ParseInt(Digits(cellRef))
    case Raise(e) => Raise(e)
    case Ok(n) => Ok(Index(n - 1, Base26(Letters(cellRef))))
  }

  /** The loop of `__get_xy_index`: it adds each letter's weighted value,
      the powers of 26 being computed per letter. */
  method GetXyIndex(cellRef: string) returns (r: Result<Index>)
    ensures r == XyIndex(cellRef)
  {
    var chars := Letters(cellRef);
    var nums := Digits(cellRef);
    var n := |chars|;
    var alpha := 0;
    var i := 0;
    while i < n
      invariant 0 <= i <= n
      invariant alpha == Base26(chars[..i]) * Pow(26, n - i)
    {
      var c := LetterValue(chars[i]);
      var below := Pow(26, n - i - 1);
      assert chars[..i + 1][..i] == chars[..i];
      ShiftLetter(Base26(chars[..i]), c, below);
      if i == n - 1 {
        alpha := alpha + c;
      } else {
        alpha := alpha + c * below;
      }
      i := i + 1;
    }
    assert chars[..n] == chars;
    match ParseInt(nums)
    case Raise(e) =>
      r := Raise(e);
    case Ok(v) =>
      r := Ok(Index(v - 1, alpha));
  }

  /** One step of the loop: the letters seen so far move up one place. */
  lemma ShiftLetter(seen: int, c: int, below: nat)
    ensures seen * (26 * below) + c * below == (26 * seen + c) * below
  {
  }

  /** An 'A' in front of the letters changes nothing: "A", "AA" and "AAA" all
      name the first column, and "AB" names the same column as "B". */
  lemma {:induction false} LeadingAIgnored(s: string)
    ensures Base26(['A'] + s) == Base26(s)
  {
    if s != [] {
      var t := ['A'] + s;
      assert t[..|t| - 1] == ['A'] + s[..|s| - 1];
      assert t[|t| - 1] == s[|s| - 1];
      LeadingAIgnored(s[..|s| - 1]);
    }
  }

  /** A column computed from n letters lies in 0 .. 26^n - 1. */
  lemma {:induction false} Base26Bounds(s: string)
    requires AllLetters(s)
    ensures 0 <= Base26(s) < Pow(26, |s|)
  {
    if s != [] {
      var p := s[..|s| - 1];
      Base26Bounds(p);
      LetterValueRange(s[|s| - 1]);
      assert Base26(s) == 26 * Base26(p) + LetterValue(s[|s| - 1]);
      assert Base26(s) <= 26 * (Pow(26, |p|) - 1) + 25;
    }
  }

  /** Letter case does not matter. */
  lemma {:induction false} Base26Upper(s: string)
    ensures Base26(UpperAll(s)) == Base26(s)
  {
    if s != [] {
      var p := s[..|s| - 1];
      assert UpperAll(s)[..|s| - 1] == UpperAll(p);
      Base26Upper(p);
    }
  }

  lemma {:induction false} LettersUpper(s: string)
    ensures Letters(UpperAll(s)) == UpperAll(Letters(s))
    ensures Digits(UpperAll(s)) == Digits(s)
  {
    if s != [] {
      assert UpperAll(s) == [Upper(s[0])] + UpperAll(s[1..]);
      LettersUpper(s[1..]);
      if IsAlpha(s[0]) {
        assert UpperAll(Letters(s)) == [Upper(s[0])] + UpperAll(Letters(s[1..]));
      }
    }
  }

  /** `__get_xy_index` gives the same indices for "abc945" and "ABC945". */
  lemma XyIndexCaseInsensitive(cellRef: string)
    ensures XyIndex(UpperAll(cellRef)) == XyIndex(cellRef)
  {
    LettersUpper(cellRef);
    Base26Upper(Letters(cellRef));
  }

  /** A reference written the usual way, letters then digits, names the
      column of its letters and the row of its digits minus one. */
  lemma XyIndexOfWellFormed(letters: string, digits: string)
    requires AllLetters(letters) && AllDigits(digits) && digits != []
    ensures XyIndex(letters + digits) == Ok(Index(DigitsValue(digits) - 1, Base26(letters)))
  {
    var s := letters + digits;
    LettersThenDigits(letters, digits);
    assert ParseInt(Digits(s)) == Ok(DigitsValue(digits));
  }

  /** "A1" is the first cell and "Z26" is on the diagonal at 25. */
  lemma FirstAndDiagonalCells()
    ensures XyIndex("A1") == Ok(Index(0, 0))
    ensures XyIndex("Z26") == Ok(Index(25, 25))
  {
    XyIndexOfWellFormed("A", "1");
    assert "A" + "1" == "A1";
    XyIndexOfWellFormed("Z", "26");
    assert "Z" + "26" == "Z26";
  }

  /** "ABC" is column 28 (0 * 26^2 + 1 * 26 + 2) on every row, e.g. "ABC945"
      is row 944; the tests expect column 730 for "ABC123". */
  lemma ThreeLetterColumn(digits: string)
    requires AllDigits(digits) && digits != []
    ensures XyIndex("ABC" + digits) == Ok(Index(DigitsValue(digits) - 1, 28))
  {
    var letters := "ABC";
    XyIndexOfWellFormed(letters, digits);
    assert letters[..2] == "AB" && "AB"[..1] == "A" && "A"[..0] == "";
    assert Base26("A") == 0;
    assert Base26("AB") == 1;
  }

  /** "AA" is column 0, the same as "A", on every row; the tests expect
      column 26 for "AA3492". */
  lemma DoubleAIsFirstColumn(digits: string)
    requires AllDigits(digits) && digits != []
    ensures XyIndex("AA" + digits) == Ok(Index(DigitsValue(digits) - 1, 0))
  {
    var letters := "AA";
    XyIndexOfWellFormed(letters, digits);
    LeadingAIgnored("A");
  }

  /** The last column of a Calc sheet, "AMJ", is read as column 321; the
      tests expect 1023. */
  lemma LastColumnMisread(digits: string)
    requires AllDigits(digits) && digits != []
    ensures XyIndex("AMJ" + digits) == Ok(Index(DigitsValue(digits) - 1, 321))
  {
    var letters := "AMJ";
    XyIndexOfWellFormed(letters, digits);
    assert letters[..2] == "AM" && "AM"[..1] == "A" && "A"[..0] == "";
    assert Base26("A") == 0;
    assert Base26("AM") == 12;
  }

  /** `__is_single_cell`: splitting on ':' gives one piece, i.e. there is no ':'. */
  function IsSingleCell(cellRef: string): (r: bool)
    ensures r <==> ':' !in cellRef
  {
    SplitCount(cellRef, ':');
    CountZero(cellRef, ':');
    |Split(cellRef, ':')| == 1
  }

  /** `__check_single_cell`. */
  function CheckSingleCell(cellRef: string): (r: Result<()>)
    ensures r.Ok? <==> ':' !in cellRef
    ensures r.Raise? ==> r.exc == ValueError(RangeGiven)
  {
    if IsSingleCell(cellRef) then Ok(()) else Raise(ValueError(RangeGiven))
  }

  /** `__cell_range_to_index`: the reference must split into exactly two
      halves on ':' (else the unpacking raises ValueError); each half is read
      with `__get_xy_index`, left half first. */
  function CellRangeToIndex(cellRef: string): (r: Result<RangeIndex>)
    ensures Count(cellRef, ':') != 1 ==> r.Raise? && r.exc.ValueError?
    ensures r.Raise? ==> r.exc.ValueError?
  {
    var halves := Split(cellRef, ':');
    SplitCount(cellRef, ':');
    if |halves| > 2 then Raise(ValueError(TooManyHalves))
    else if |halves| < 2 then Raise(ValueError(TooFewHalves))
    else
      match XyIndex(halves[0])
      case Raise(e) => Raise(e)
      case Ok(l) =>
        match XyIndex(halves[1])
        case Raise(e) => Raise(e)
        case Ok(rt) => Ok(RangeIndex(l.row, rt.row, l.col, rt.col))
  }

  /** A range "L:R" is read as its two single-cell halves. */
  lemma CellRangeHalves(l: string, rt: string)
    requires ':' !in l && ':' !in rt
    ensures CellRangeToIndex(l + [':'] + rt).Ok? <==> XyIndex(l).Ok? && XyIndex(rt).Ok?
    ensures CellRangeToIndex(l + [':'] + rt).Ok? ==>
              CellRangeToIndex(l + [':'] + rt).value ==
              RangeIndex(XyIndex(l).value.row, XyIndex(rt).value.row,
                         XyIndex(l).value.col, XyIndex(rt).value.col)
  {
    SplitAtFirst(l, rt, ':');
    SplitNoSep(rt, ':');
  }

  /** "C9:Z26" spans rows 8 to 25 and columns 2 to 25. */
  lemma KnownRange()
    ensures CellRangeToIndex("C9:Z26") == Ok(RangeIndex(8, 25, 2, 25))
  {
    var l, rt := "C9", "Z26";
    assert XyIndex(l) == Ok(Index(8, 2)) by {
      XyIndexOfWellFormed("C", "9");
      assert "C" + "9" == l;
    }
    assert XyIndex(rt) == Ok(Index(25, 25)) by {
      FirstAndDiagonalCells();
    }
    assert CellRangeToIndex(l + [':'] + rt) == Ok(RangeIndex(8, 25, 2, 25)) by {
      CellRangeHalves(l, rt);
    }
    assert l + [':'] + rt == "C9:Z26";
  }

  // ---------------------------------------------------------------------
  // Values

  /** `__check_numeric`: `float(value)`, keeping the value itself when
      `float` raises ValueError (text that is not a number); a TypeError
      (null, a list, an object) is not caught. */
  function CheckNumeric(value: Json): (r: Result<Json>)
    ensures r.Raise? <==> FloatOf(value).NotConvertible?
    ensures r.Raise? ==> r.exc == TypeError
    ensures r.Ok? && FloatOf(value).Converted? ==> r.value == JFloat(FloatOf(value).r)
    ensures r.Ok? && !FloatOf(value).Converted? ==> r.value == value && value.JStr?
  {
    match FloatOf(value)
    case Converted(x) => Ok(JFloat(x))
    case NotNumeric => Ok(value)
    case NotConvertible => Raise(TypeError)
  }

  /** Coercing twice is coercing once. */
  lemma CheckNumericIdempotent(value: Json)
    requires CheckNumeric(value).Ok?
    ensures CheckNumeric(CheckNumeric(value).value) == CheckNumeric(value)
  {
  }

  /** `__check_list`. */
  function CheckList(data: Json): (r: Result<()>)
    ensures r.Ok? <==> data.JArr?
    ensures r.Raise? ==> r.exc == ValueError(NotAList)
  {
    if data.JArr? then Ok(()) else Raise(ValueError(NotAList))
  }

  /** What a written value reads back as: numbers, and text that `float`
      accepts, come back as floats; other text comes back unchanged; lists
      keep their structure. */
  function ReadBack(v: Json): Json
  {
    match v
    case JArr(items) => JArr(seq(|items|, i requires 0 <= i < |items| => ReadBack(items[i])))
    case _ => if FloatOf(v).Converted? then JFloat(FloatOf(v).r) else v
  }

  lemma ReadBackOfCoerced(v: Json)
    requires CheckNumeric(v).Ok?
    ensures Stored(CheckNumeric(v).value) == ReadBack(v)
  {
  }

  /** The coercion of one row of a grid: every cell through `__check_numeric`. */
  function CoerceRow(row: seq<Json>): (r: Result<seq<Json>>)
    ensures r.Raise? ==> r.exc == TypeError
    ensures r.Ok? <==> forall j | 0 <= j < |row| :: CheckNumeric(row[j]).Ok?
    ensures r.Ok? ==> (|r.value| == |row| &&
                       forall j | 0 <= j < |row| :: r.value[j] == CheckNumeric(row[j]).value)
  {
    if forall j | 0 <= j < |row| :: CheckNumeric(row[j]).Ok?
    then Ok(seq(|row|, j requires 0 <= j < |row| => CheckNumeric(row[j]).value))
    else Raise(TypeError)
  }

  /** The grid branch of `set_cell_range`: rows are checked in order, each
      must be a list (ValueError) and each of its cells is coerced
      (TypeError) before the next row is looked at. */
  function CoerceGrid(rows: seq<Json>): (r: Result<seq<seq<Json>>>)
    ensures r.Ok? ==> |r.value| == |rows|
    ensures r.Ok? ==> forall i | 0 <= i < |rows| ::
              rows[i].JArr? && |r.value[i]| == |rows[i].items| &&
              forall j | 0 <= j < |rows[i].items| ::
                CheckNumeric(rows[i].items[j]).Ok? && r.value[i][j] == CheckNumeric(rows[i].items[j]).value
    ensures r.Raise? ==> r.exc == TypeError || r.exc == ValueError(RowNotAList)
  {
    if rows == [] then Ok([])
    else if !rows[0].JArr? then Raise(ValueError(RowNotAList))
    else
      match CoerceRow(rows[0].items)
      case Raise(e) => Raise(e)
      case Ok(first) =>
        match CoerceGrid(rows[1..])
        case Raise(e) => Raise(e)
        case Ok(rest) => Ok([first] + rest)
  }

  /** `done` followed by what `r` produces, or the failure of `r`. */
  function Then(done: seq<seq<Json>>, r: Result<seq<seq<Json>>>): Result<seq<seq<Json>>>
  {
    if r.Ok? then Ok(done + r.value) else r
  }

  /** The inner loop of the grid coercion: one row, cell by cell. */
  method CoerceCells(row: seq<Json>) returns (r: Result<seq<Json>>)
    ensures r == CoerceRow(row)
  {
    var cells: seq<Json> := [];
    var y := 0;
    while y < |row|
      invariant 0 <= y <= |row|
      invariant |cells| == y
      invariant forall j | 0 <= j < y :: CheckNumeric(row[j]).Ok? && cells[j] == CheckNumeric(row[j]).value
    {
      var c := CheckNumeric(row[y]);
      if c.Raise? {
        return Raise(c.exc);
      }
      cells := cells + [c.value];
      y := y + 1;
    }
    assert cells == seq(|row|, j requires 0 <= j < |row| => CheckNumeric(row[j]).value);
    return Ok(cells);
  }

  /** One row of the grid coercion, seen from the rows still to do. */
  lemma CoerceGridAt(out: seq<seq<Json>>, rows: seq<Json>, x: nat)
    requires x < |rows|
    ensures !rows[x].JArr? ==> Then(out, CoerceGrid(rows[x..])) == Raise(ValueError(RowNotAList))
    ensures rows[x].JArr? && CoerceRow(rows[x].items).Raise? ==>
              Then(out, CoerceGrid(rows[x..])) == Raise(CoerceRow(rows[x].items).exc)
    ensures rows[x].JArr? && CoerceRow(rows[x].items).Ok? ==>
              Then(out, CoerceGrid(rows[x..])) == Then(out + [CoerceRow(rows[x].items).value], CoerceGrid(rows[x + 1..]))
  {
    assert rows[x..][0] == rows[x] && rows[x..][1..] == rows[x + 1..];
    if rows[x].JArr? && CoerceRow(rows[x].items).Ok? && CoerceGrid(rows[x + 1..]).Ok? {
      var cells := CoerceRow(rows[x].items).value;
      assert out + ([cells] + CoerceGrid(rows[x + 1..]).value) == (out + [cells]) + CoerceGrid(rows[x + 1..]).value;
    }
  }

  /** The nested loop of `set_cell_range` that rewrites `data[x][y]`. */
  method CoerceRows(rows: seq<Json>) returns (r: Result<seq<seq<Json>>>)
    ensures r == CoerceGrid(rows)
  {
    var out: seq<seq<Json>> := [];
    var x := 0;
    assert rows[0..] == rows;
    assert CoerceGrid(rows) == Then([], CoerceGrid(rows)) by {
      if CoerceGrid(rows).Ok? {
        assert [] + CoerceGrid(rows).value == CoerceGrid(rows).value;
      }
    }
    while x < |rows|
      invariant 0 <= x <= |rows|
      invariant CoerceGrid(rows) == Then(out, CoerceGrid(rows[x..]))
    {
      CoerceGridAt(out, rows, x);
      if !rows[x].JArr? {
        return Raise(ValueError(RowNotAList));
      }
      var coerced := CoerceCells(rows[x].items);
      if coerced.Raise? {
        return Raise(coerced.exc);
      }
      out := out + [coerced.value];
      x := x + 1;
    }
    assert rows[x..] == [];
    assert out + [] == out;
    return Ok(out);
  }

  /** The list of lists handed to the engine for a grid. */
  function Grid(rows: seq<seq<Json>>): Json
  {
    JArr(seq(|rows|, i requires 0 <= i < |rows| => JArr(rows[i])))
  }

  // ---------------------------------------------------------------------
  // Reading

  /** `get_cell`: no lock is consulted. */
  function GetCell(sheets: seq<Sheet>, sheet: Json, cellRef: string): (r: Result<Json>)
    ensures ':' in cellRef ==> r == Raise(ValueError(RangeGiven))
    ensures r.Ok? ==> r.value.JFloat? || r.value.JStr?
  {
    match CheckSingleCell(cellRef)
    case Raise(e) => Raise(e)
    case Ok(_) =>
      match XyIndex(cellRef)
      case Raise(e) => Raise(e)
      case Ok(ix) =>
        match SheetIndex(sheets, sheet)
        case Raise(e) => Raise(e)
        case Ok(k) => ReadCell(sheets[k], ix.row, ix.col)
  }

  /** `get_cell_range`: a row, a column or a grid, in that order of tests. */
  function GetCellRange(sheets: seq<Sheet>, sheet: Json, cellRef: string): (r: Result<Json>)
    ensures Count(cellRef, ':') != 1 ==> r.Raise?
    ensures r.Ok? ==> r.value.JArr?
  {
    match CellRangeToIndex(cellRef)
    case Raise(e) => Raise(e)
    case Ok(ri) =>
      match SheetIndex(sheets, sheet)
      case Raise(e) => Raise(e)
      case Ok(k) => ReadRange(sheets[k], ri.rowStart, ri.rowEnd, ri.colStart, ri.colEnd)
  }

  /** `get_cells`: a single value for a reference without ':', a list
      otherwise. */
  function GetCells(sheets: seq<Sheet>, sheet: Json, cellRef: string): (r: Result<Json>)
    ensures r.Ok? && ':' !in cellRef ==> r.value.JFloat? || r.value.JStr?
    ensures r.Ok? && ':' in cellRef ==> r.value.JArr?
  {
    if IsSingleCell(cellRef) then GetCell(sheets, sheet, cellRef)
    else GetCellRange(sheets, sheet, cellRef)
  }

  // ---------------------------------------------------------------------
  // Writing

  /** The effect of `set_cell` on the document's sheets, given whether the
      lock is held. */
  function SetCellOn(sheets: seq<Sheet>, held: bool, sheet: Json, cellRef: string, value: Json): (r: Result<seq<Sheet>>)
    ensures !held ==> r.Raise?
    ensures value.JArr? ==> r.Raise?
    ensures r.Ok? ==> SheetNames(r.value) == SheetNames(sheets)
  {
    if !IsSingleCell(cellRef) then Raise(ValueError(RangeGiven))
    else if !held then Raise(RuntimeError(JStr(NotLocked)))
    else
      match XyIndex(cellRef)
      case Raise(e) => Raise(e)
      case Ok(ix) =>
        match SheetIndex(sheets, sheet)
        case Raise(e) => Raise(e)
        case Ok(k) =>
          if value.JArr? then Raise(ValueError(ListGiven))
          else
            match CheckNumeric(value)
            case Raise(e) => Raise(e)
            case Ok(v) =>
              match WriteCell(sheets[k], ix.row, ix.col, v)
              case Raise(e) => Raise(e)
              case Ok(s) => Ok(sheets[k := s])
  }

  /** The effect of `set_cell_range`: a row or a column always fails in
      `__check_1D_list`, whose call of the unqualified `check_list` raises
      NameError; a grid is checked and coerced, then written. */
  function SetCellRangeOn(sheets: seq<Sheet>, held: bool, sheet: Json, cellRef: string, data: Json): (r: Result<seq<Sheet>>)
    ensures !held ==> r == Raise(RuntimeError(JStr(NotLocked)))
    ensures held && CellRangeToIndex(cellRef).Ok? && SheetIndex(sheets, sheet).Ok? &&
            ShapeOf(CellRangeToIndex(cellRef).value.rowStart, CellRangeToIndex(cellRef).value.rowEnd,
                    CellRangeToIndex(cellRef).value.colStart, CellRangeToIndex(cellRef).value.colEnd) != GridRange
            ==> r == Raise(NameError)
    ensures r.Ok? ==> SheetNames(r.value) == SheetNames(sheets)
  {
    if !held then Raise(RuntimeError(JStr(NotLocked)))
    else
      match CellRangeToIndex(cellRef)
      case Raise(e) => Raise(e)
      case Ok(ri) =>
        match SheetIndex(sheets, sheet)
        case Raise(e) => Raise(e)
        case Ok(k) =>
          match ShapeOf(ri.rowStart, ri.rowEnd, ri.colStart, ri.colEnd)
          case RowRange => Raise(NameError)
          case ColumnRange => Raise(NameError)
          case GridRange =>
            if !data.JArr? then Raise(ValueError(NotAList))
            else
              match CoerceGrid(data.items)
              case Raise(e) => Raise(e)
              case Ok(rows) =>
                match WriteRange(sheets[k], ri.rowStart, ri.rowEnd, ri.colStart, ri.colEnd, Grid(rows))
                case Raise(e) => Raise(e)
                case Ok(s) => Ok(sheets[k := s])
  }

  /** The effect of `set_cells`. Without the lock nothing is ever written. */
  function SetCellsOn(sheets: seq<Sheet>, held: bool, sheet: Json, cellRef: string, data: Json): (r: Result<seq<Sheet>>)
    ensures !held ==> r.Raise?
  {
    if IsSingleCell(cellRef) then SetCellOn(sheets, held, sheet, cellRef, data)
    else SetCellRangeOn(sheets, held, sheet, cellRef, data)
  }

  /** A single cell set and then got reads back the coerced value. */
  lemma SetCellThenGet(sheets: seq<Sheet>, held: bool, sheet: Json, cellRef: string, value: Json)
    requires SetCellOn(sheets, held, sheet, cellRef, value).Ok?
    ensures GetCell(SetCellOn(sheets, held, sheet, cellRef, value).value, sheet, cellRef) == Ok(ReadBack(value))
  {
    var ix := XyIndex(cellRef).value;
    var k := SheetIndex(sheets, sheet).value;
    var v := CheckNumeric(value).value;
    WriteCellThenRead(sheets[k], ix.row, ix.col, v);
    ReadBackOfCoerced(value);
  }

  /** Setting a cell changes that cell of that sheet and nothing else. */
  lemma SetCellFrame(sheets: seq<Sheet>, held: bool, sheet: Json, cellRef: string, value: Json)
    requires SetCellOn(sheets, held, sheet, cellRef, value).Ok?
    ensures var after := SetCellOn(sheets, held, sheet, cellRef, value).value;
            var k := SheetIndex(sheets, sheet).value;
            var ix := XyIndex(cellRef).value;
            |after| == |sheets| &&
            (forall j | 0 <= j < |sheets| && j != k :: after[j] == sheets[j]) &&
            (forall p: Pos | p != (ix.row, ix.col) :: CellAt(after[k], p) == CellAt(sheets[k], p))
  {
    var k := SheetIndex(sheets, sheet).value;
    var ix := XyIndex(cellRef).value;
    var v := CheckNumeric(value).value;
    forall p: Pos | p != (ix.row, ix.col)
      ensures CellAt(WriteCell(sheets[k], ix.row, ix.col, v).value, p) == CellAt(sheets[k], p)
    {
      PutBlockEffect(sheets[k], ix.row, ix.col, ToCells([[v]]), 1, p);
    }
  }

  /** A grid set and then got reads back the data, each cell coerced. */
  lemma SetGridThenGet(sheets: seq<Sheet>, held: bool, sheet: Json, cellRef: string, data: Json)
    requires SetCellRangeOn(sheets, held, sheet, cellRef, data).Ok?
    ensures GetCellRange(SetCellRangeOn(sheets, held, sheet, cellRef, data).value, sheet, cellRef) == Ok(ReadBack(data))
  {
    var ri := CellRangeToIndex(cellRef).value;
    var k := SheetIndex(sheets, sheet).value;
    var rows := CoerceGrid(data.items).value;
    var after := SetCellRangeOn(sheets, held, sheet, cellRef, data).value;
    WriteRangeThenRead(sheets[k], ri.rowStart, ri.rowEnd, ri.colStart, ri.colEnd, Grid(rows));
    assert after[k] == WriteRange(sheets[k], ri.rowStart, ri.rowEnd, ri.colStart, ri.colEnd, Grid(rows)).value;
    assert SheetIndex(after, sheet) == Ok(k);
    CoercedGridReadsBack(data, rows);
  }

  /** A coerced grid, once stored, reads back as ReadBack of the data. */
  lemma CoercedGridReadsBack(data: Json, rows: seq<seq<Json>>)
    requires data.JArr? && CoerceGrid(data.items) == Ok(rows)
    ensures Stored(Grid(rows)) == ReadBack(data)
  {
    var items := data.items;
    var g := Grid(rows);
    forall i | 0 <= i < |items|
      ensures Stored(g.items[i]) == ReadBack(items[i])
    {
      assert g.items[i] == JArr(rows[i]);
      CoercedRowReadsBack(items[i].items, rows[i]);
    }
    assert Stored(g).items == ReadBack(data).items;
  }

  lemma CoercedRowReadsBack(row: seq<Json>, cells: seq<Json>)
    requires |cells| == |row|
    requires forall j | 0 <= j < |row| :: CheckNumeric(row[j]).Ok? && cells[j] == CheckNumeric(row[j]).value
    ensures Stored(JArr(cells)) == ReadBack(JArr(row))
  {
    forall j | 0 <= j < |row|
      ensures Stored(cells[j]) == ReadBack(row[j])
    {
      ReadBackOfCoerced(row[j]);
    }
    assert Stored(JArr(cells)).items == ReadBack(JArr(row)).items;
  }

  // ---------------------------------------------------------------------
  // The connection object

  /** `SpreadsheetConnection`: one document and the lock guarding it. */
  class SpreadsheetConnection {
    const spreadsheet: Document
    const lock: Lock

    constructor(spreadsheet: Document, lock: Lock)
      ensures this.spreadsheet == spreadsheet && this.lock == lock
    {
      this.spreadsheet := spreadsheet;
      this.lock := lock;
    }

    /** `lock_spreadsheet`; acquiring a held lock would block. */
    method LockSpreadsheet()
      requires !lock.held
      modifies lock
      ensures lock.held
    {
      lock.Acquire();
    }

    /** `unlock_spreadsheet`: true exactly when the lock was held, and the
        lock is free afterwards either way. */
    method UnlockSpreadsheet() returns (ok: bool)
      modifies lock
      ensures ok == old(lock.held)
      ensures !lock.held
    {
      ok := lock.Release();
    }

    /** `__check_for_lock`. */
    function CheckForLock(): (r: Result<()>)
      reads lock
      ensures r.Ok? <==> lock.held
      ensures r.Raise? ==> r.exc == RuntimeError(JStr(NotLocked))
    {
      if lock.held then Ok(()) else Raise(RuntimeError(JStr(NotLocked)))
    }

    /** `set_cell`. */
    method SetCell(sheet: Json, cellRef: string, value: Json) returns (r: Result<()>)
      modifies spreadsheet
      ensures var e := SetCellOn(old(spreadsheet.sheets), lock.held, sheet, cellRef, value);
              r == Status(e) && spreadsheet.sheets == SheetsAfter(e, old(spreadsheet.sheets))
      ensures spreadsheet.savedTo == old(spreadsheet.savedTo) && spreadsheet.closed == old(spreadsheet.closed)
    {
      var single := CheckSingleCell(cellRef);
      if single.Raise? {
        return Raise(single.exc);
      }
      var locked := CheckForLock();
      if locked.Raise? {
        return Raise(locked.exc);
      }
      var ix := GetXyIndex(cellRef);
      if ix.Raise? {
        return Raise(ix.exc);
      }
      var k := SheetIndex(spreadsheet.sheets, sheet);
      if k.Raise? {
        return Raise(k.exc);
      }
      if value.JArr? {
        return Raise(ValueError(ListGiven));
      }
      var v := CheckNumeric(value);
      if v.Raise? {
        return Raise(v.exc);
      }
      var written := WriteCell(spreadsheet.sheets[k.value], ix.value.row, ix.value.col, v.value);
      if written.Raise? {
        return Raise(written.exc);
      }
      spreadsheet.sheets := spreadsheet.sheets[k.value := written.value];
      return Ok(());
    }

    /** `set_cell_range`. */
    method SetCellRange(sheet: Json, cellRef: string, data: Json) returns (r: Result<()>)
      modifies spreadsheet
      ensures var e := SetCellRangeOn(old(spreadsheet.sheets), lock.held, sheet, cellRef, data);
              r == Status(e) && spreadsheet.sheets == SheetsAfter(e, old(spreadsheet.sheets))
      ensures spreadsheet.savedTo == old(spreadsheet.savedTo) && spreadsheet.closed == old(spreadsheet.closed)
    {
      var locked := CheckForLock();
      if locked.Raise? {
        return Raise(locked.exc);
      }
      var ri := CellRangeToIndex(cellRef);
      if ri.Raise? {
        return Raise(ri.exc);
      }
      var k := SheetIndex(spreadsheet.sheets, sheet);
      if k.Raise? {
        return Raise(k.exc);
      }
      var rs, re, cs, ce := ri.value.rowStart, ri.value.rowEnd, ri.value.colStart, ri.value.colEnd;
      if rs == re || cs == ce {
        // __check_1D_list(data) calls check_list, which is not defined
        return Raise(NameError);
      }
      var isList := CheckList(data);
      if isList.Raise? {
        return Raise(isList.exc);
      }
      var rows := CoerceRows(data.items);
      if rows.Raise? {
        return Raise(rows.exc);
      }
      var written := WriteRange(spreadsheet.sheets[k.value], rs, re, cs, ce, Grid(rows.value));
      if written.Raise? {
        return Raise(written.exc);
      }
      spreadsheet.sheets := spreadsheet.sheets[k.value := written.value];
      return Ok(());
    }

    /** `set_cells`: a single cell or a range, told apart by ':'. */
    method SetCells(sheet: Json, cellRef: string, data: Json) returns (r: Result<()>)
      modifies spreadsheet
      ensures var e := SetCellsOn(old(spreadsheet.sheets), lock.held, sheet, cellRef, data);
              r == Status(e) && spreadsheet.sheets == SheetsAfter(e, old(spreadsheet.sheets))
      ensures spreadsheet.savedTo == old(spreadsheet.savedTo) && spreadsheet.closed == old(spreadsheet.closed)
    {
      if IsSingleCell(cellRef) {
        r := SetCell(sheet, cellRef, data);
      } else {
        r := SetCellRange(sheet, cellRef, data);
      }
    }

    /** `save_spreadsheet`: saves to directory + filename when the lock is
        held, and otherwise only answers "Spreadsheet not locked". */
    method SaveSpreadsheet(filename: string, directory: string := SaveDirectory) returns (r: Option<string>)
      modifies spreadsheet
      ensures lock.held ==> r == None && spreadsheet.savedTo == old(spreadsheet.savedTo) + [directory + filename]
      ensures !lock.held ==> r == Some(SaveRefused) && spreadsheet.savedTo == old(spreadsheet.savedTo)
      ensures spreadsheet.sheets == old(spreadsheet.sheets) && spreadsheet.closed == old(spreadsheet.closed)
    {
      if lock.held {
        spreadsheet.Save(directory + filename);
        r := None;
      } else {
        r := Some(SaveRefused);
      }
    }
  }

  /** What a write returns: nothing, or the exception it raised. */
  function Status<T>(e: Result<T>): Result<()>
  {
    if e.Ok? then Ok(()) else Raise(e.exc)
  }

  /** The sheets after a write: the new sheets, or the old ones untouched. */
  function SheetsAfter(e: Result<seq<Sheet>>, before: seq<Sheet>): seq<Sheet>
  {
    if e.Ok? then e.value else before
  }
}
