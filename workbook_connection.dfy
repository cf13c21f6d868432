/** spreadsheet_connection.py: the older connection to one workbook. Its
    column formula is bijective base 26 (A = 0, Z = 25, AA = 26), read from
    the characters before the first digit; its `set_cells` answers True or
    False instead of raising for engine errors. */
module WorkbookConnection {
  import opened Values
  import opened Engine
  import opened Ranges

  const SaveRefused := "Workbook not locked"
  const SaveDirectory := "./saved_workbooks/"
  const DictResized := "dictionary changed size during iteration"

  // ---------------------------------------------------------------------
  // Columns

  /** Bijective base 26: every letter counts its value plus one, so no
      letter acts as a zero. */
  function Bijective(s: string): int
  {
    if s == [] then 0
    else 26 * Bijective(s[..|s| - 1]) + LetterValue(s[|s| - 1]) + 1
  }

  /** The column `split_char_num` computes from the characters before the
      first digit: the last one contributes its value, each earlier one its
      value plus one times a power of 26. */
  function ColumnOf(part: string): int
  {
    if part == [] then 0 else Bijective(part) - 1
  }

  /** Position of the first digit, if any. */
  function FirstDigit(s: string): (r: Option<nat>)
    ensures r.Some? ==> r.value < |s| && IsDigit(s[r.value])
    ensures r.Some? ==> forall j | 0 <= j < r.value :: !IsDigit(s[j])
    ensures r.None? ==> forall j | 0 <= j < |s| :: !IsDigit(s[j])
  {
    if s == [] then None
    else if IsDigit(s[0]) then Some(0)
    else match FirstDigit(s[1..])
      case Some(k) => Some(k + 1)
      case None => None
  }

  /** `split_char_num`: the column of the part before the first digit (0
      when there is no digit) and every digit, in order. */
  function CharNum(cellRef: string): (int, string)
  {
    (match FirstDigit(cellRef)
     case Some(x) => ColumnOf(cellRef[..x])
     case None => 0,
     Digits(cellRef))
  }

  function Column(cellRef: string): int
  {
    CharNum(cellRef).0
  }

  /** `_range_to_index` of this file. */
  function RangeToIndex(cellRange: string): Result<Indexes>
  {
    IndexWith(cellRange, Column)
  }

  /** One step of the inner loop: the letters seen so far move up one place. */
  lemma ShiftDigit(seen: int, c: int, below: nat)
    ensures seen * (26 * below) + (c + 1) * below == (26 * seen + c + 1) * below
  {
  }

  /** The loop of `split_char_num`, with its `split` flag: at the first digit
      the part before it is turned into a column, and every digit is
      appended to `num`. */
  method SplitCharNum(cellRef: string) returns (strVal: int, num: string)
    ensures (strVal, num) == CharNum(cellRef)
  {
    num := "";
    strVal := 0;
    var split := false;
    var x := 0;
    while x < |cellRef|
      invariant 0 <= x <= |cellRef|
      invariant num == Digits(cellRef[..x])
      invariant !split ==> strVal == 0 && forall j | 0 <= j < x :: !IsDigit(cellRef[j])
      invariant split ==> FirstDigit(cellRef).Some? && FirstDigit(cellRef).value < x &&
                          strVal == ColumnOf(cellRef[..FirstDigit(cellRef).value])
    {
      var c := cellRef[x];
      if IsDigit(c) {
        if !split {
          split := true;
          assert FirstDigit(cellRef) == Some(x);
          strVal := PartColumn(cellRef[..x]);
        }
        num := num + [c];
      }
      assert cellRef[..x + 1] == cellRef[..x] + [c];
      LettersDigitsOfConcat(cellRef[..x], [c]);
      x := x + 1;
    }
    assert cellRef[..x] == cellRef;
  }

  /** The inner loop of `split_char_num` over the part before the first digit. */
  method PartColumn(part: string) returns (strVal: int)
    ensures strVal == ColumnOf(part)
  {
    var n := |part|;
    strVal := 0;
    var i := 0;
    while i < n
      invariant 0 <= i <= n
      invariant strVal == (if i < n then Bijective(part[..i]) * Pow(26, n - i) else ColumnOf(part))
    {
      var c := LetterValue(part[i]);
      var below := Pow(26, n - i - 1);
      assert part[..i + 1][..i] == part[..i];
      if i == n - 1 {
        assert part[..i + 1] == part;
        strVal := strVal + c;
      } else {
        ShiftDigit(Bijective(part[..i]), c, below);
        strVal := strVal + (c + 1) * below;
      }
      i := i + 1;
    }
  }

  // ---------------------------------------------------------------------
  // Properties of the column formula

  /** A reference written the usual way, letters then digits. */
  lemma CharNumOfWellFormed(letters: string, digits: string)
    requires AllLetters(letters) && AllDigits(digits) && digits != []
    ensures CharNum(letters + digits) == (ColumnOf(letters), digits)
  {
    var s := letters + digits;
    assert IsDigit(s[|letters|]);
    assert forall j | 0 <= j < |letters| :: !IsDigit(s[j]) by {
      forall j | 0 <= j < |letters|
        ensures !IsDigit(s[j])
      {
        assert s[j] == letters[j];
      }
    }
    assert FirstDigit(s) == Some(|letters|);
    assert s[..|letters|] == letters;
    LettersDigitsOfConcat(letters, digits);
    LettersDigitsOfLetters(letters);
    LettersDigitsOfDigits(digits);
    assert [] + digits == digits;
  }

  /** The column numbers the tests expect. */
  lemma ExpectedColumns()
    ensures ColumnOf("A") == 0 && ColumnOf("Z") == 25
    ensures ColumnOf("AA") == 26 && ColumnOf("ZZ") == 701
    ensures ColumnOf("AAA") == 702 && ColumnOf("AAB") == 703
    ensures ColumnOf("ABA") == 728 && ColumnOf("ABC") == 730
    ensures ColumnOf("AMJ") == 1023
  {
    assert "AA"[..1] == "A" && "ZZ"[..1] == "Z";
    assert "AAA"[..2] == "AA" && "AAB"[..2] == "AA";
    assert "ABA"[..2] == "AB" && "ABC"[..2] == "AB" && "AB"[..1] == "A";
    assert "AMJ"[..2] == "AM" && "AM"[..1] == "A";
  }

  /** A reference written letters then digits designates one cell, on the
      row the digits name and in the column the letters name. */
  lemma WellFormedIndex(letters: string, digits: string)
    requires AllLetters(letters) && AllDigits(digits) && digits != []
    ensures RangeToIndex(letters + digits) == Ok(Single(DigitsValue(digits) - 1, ColumnOf(letters)))
  {
    var s := letters + digits;
    CharNumOfWellFormed(letters, digits);
    LettersThenDigits(letters, digits);
    NoColonInReference(letters, digits);
    SingleIndex(s, Column);
    assert Column(s) == ColumnOf(letters);
    assert RowOf(s).value == DigitsValue(digits) - 1;
  }

  /** Letters and digits hold no ':'. */
  lemma NoColonInReference(letters: string, digits: string)
    requires AllLetters(letters) && AllDigits(digits)
    ensures ':' !in letters + digits
  {
    var s := letters + digits;
    forall i | 0 <= i < |s|
      ensures s[i] != ':'
    {
      if i < |letters| {
        assert s[i] == letters[i];
      } else {
        assert s[i] == digits[i - |letters|];
      }
    }
  }

  /** The tests' references: "AA" then digits is column 26, "AMJ" then
      digits column 1023, on the row the digits name. */
  lemma ExpectedIndexes(digits: string)
    requires AllDigits(digits) && digits != []
    ensures RangeToIndex("AA" + digits) == Ok(Single(DigitsValue(digits) - 1, 26))
    ensures RangeToIndex("AMJ" + digits) == Ok(Single(DigitsValue(digits) - 1, 1023))
  {
    ExpectedColumns();
    WellFormedIndex("AA", digits);
    WellFormedIndex("AMJ", digits);
  }

  predicate AllUpper(s: string)
  {
    forall i | 0 <= i < |s| :: 'A' <= s[i] <= 'Z'
  }

  /** Two different runs of capital letters never name the same column. */
  lemma {:induction false} BijectiveInjective(a: string, b: string)
    requires AllUpper(a) && AllUpper(b)
    requires Bijective(a) == Bijective(b)
    ensures a == b
  {
    if a == [] || b == [] {
      if a != [] {
        BijectivePositive(a);
      } else if b != [] {
        BijectivePositive(b);
      }
    } else {
      var a', b' := a[..|a| - 1], b[..|b| - 1];
      var va, vb := LetterValue(a[|a| - 1]), LetterValue(b[|b| - 1]);
      assert 0 <= va < 26 && 0 <= vb < 26;
      assert Bijective(a) - 1 == 26 * Bijective(a') + va;
      assert Bijective(b) - 1 == 26 * Bijective(b') + vb;
      DivModUnique(Bijective(a'), va, Bijective(b'), vb);
      BijectiveInjective(a', b');
      assert a[|a| - 1] == b[|b| - 1];
      assert a == a' + [a[|a| - 1]];
      assert b == b' + [b[|b| - 1]];
    }
  }

  lemma {:induction false} BijectivePositive(s: string)
    requires AllUpper(s) && s != []
    ensures Bijective(s) >= 1
  {
    if |s| > 1 {
      BijectivePositive(s[..|s| - 1]);
    }
  }

  lemma DivModUnique(q1: int, r1: int, q2: int, r2: int)
    requires 0 <= r1 < 26 && 0 <= r2 < 26
    requires 26 * q1 + r1 == 26 * q2 + r2
    ensures q1 == q2 && r1 == r2
  {
    assert q1 < q2 ==> 26 * q1 + r1 < 26 * (q1 + 1) <= 26 * q2 + r2;
    assert q2 < q1 ==> 26 * q2 + r2 < 26 * (q2 + 1) <= 26 * q1 + r1;
  }

  /** Different column letters name different columns. */
  lemma ColumnsDistinct(a: string, b: string)
    requires AllUpper(a) && AllUpper(b) && a != [] && b != [] && a != b
    ensures ColumnOf(a) != ColumnOf(b)
  {
    if Bijective(a) == Bijective(b) {
      BijectiveInjective(a, b);
    }
  }

  /** Letter case does not matter. */
  lemma {:induction false} BijectiveUpper(s: string)
    ensures Bijective(UpperAll(s)) == Bijective(s)
  {
    if s != [] {
      assert UpperAll(s)[..|s| - 1] == UpperAll(s[..|s| - 1]);
      BijectiveUpper(s[..|s| - 1]);
    }
  }

  // ---------------------------------------------------------------------
  // Coercion as written

  /** `float(cell)` keeping the value on ValueError; TypeError escapes. */
  function Coerce(v: Json): (r: Result<Json>)
    ensures r.Raise? <==> v.JNull? || v.JArr? || v.JObj?
    ensures r.Raise? ==> r.exc == TypeError
    ensures r.Ok? && !r.value.JFloat? ==> r.value == v && v.JStr? && ParseNumber(v.s).None?
    ensures v.JStr? && ParseNumber(v.s).Some? ==> r == Ok(JFloat(ParseNumber(v.s).value))
    ensures v.JInt? ==> r == Ok(JFloat(v.i as real))
  {
    match FloatOf(v)
    case Converted(x) => Ok(JFloat(x))
    case NotNumeric => Ok(v)
    case NotConvertible => Raise(TypeError)
  }

  /** The 1-D loop `data[x] = float(cell)`. For a list, each element is
      coerced. A string is iterated by character, and the first digit makes
      the assignment into the string raise TypeError. A dict is iterated by
      key, and a numeric key adds an entry, so the iteration raises
      RuntimeError. Any other value cannot be iterated. */
  function CoerceLine(data: Json): (r: Result<Json>)
    ensures data.JArr? && r.Ok? ==> r.value.JArr? && |r.value.items| == |data.items|
  {
    match data
    case JArr(items) =>
      if forall i | 0 <= i < |items| :: Coerce(items[i]).Ok?
      then Ok(JArr(seq(|items|, i requires 0 <= i < |items| => Coerce(items[i]).value)))
      else Raise(TypeError)
    case JStr(s) => if exists i | 0 <= i < |s| :: IsDigit(s[i]) then Raise(TypeError) else Ok(data)
    case JObj(fields) =>
      if exists k | k in fields :: ParseNumber(k).Some? then Raise(RuntimeError(JStr(DictResized)))
      else Ok(data)
    case _ => Raise(TypeError)
  }

  /** The loop over a list in the 1-D branches. */
  method CoerceList(items: seq<Json>) returns (r: Result<Json>)
    ensures r == CoerceLine(JArr(items))
  {
    var out: seq<Json> := [];
    var x := 0;
    while x < |items|
      invariant 0 <= x <= |items|
      invariant |out| == x
      invariant forall i | 0 <= i < x :: Coerce(items[i]).Ok? && out[i] == Coerce(items[i]).value
    {
      var c := Coerce(items[x]);
      if c.Raise? {
        assert !(forall i | 0 <= i < |items| :: Coerce(items[i]).Ok?);
        return Raise(TypeError);
      }
      out := out + [c.value];
      x := x + 1;
    }
    assert out == seq(|items|, i requires 0 <= i < |items| => Coerce(items[i]).value);
    return Ok(JArr(out));
  }

  /** Text that `float` refuses, the only element the grid loop lets through. */
  predicate Inert(v: Json)
  {
    v.JStr? && ParseNumber(v.s).None?
  }

  /** The grid loop as written iterates `data` in its inner loop too, so it
      tries `data[x][y] = float(data[y])`. A list element, null or an object
      makes `float` raise TypeError, and a number or numeric text makes the
      assignment into `data[x]` raise (TypeError for a list of scalars, KeyError
      for a dict), so the loop gets through only when nothing converts, and
      then `data` is unchanged. */
  function GridAsWritten(data: Json): (r: Result<()>)
  {
    match data
    case JArr(items) =>
      if forall i | 0 <= i < |items| :: Inert(items[i]) then Ok(()) else Raise(TypeError)
    case JStr(s) => if exists i | 0 <= i < |s| :: IsDigit(s[i]) then Raise(TypeError) else Ok(())
    case JObj(fields) => if exists k | k in fields :: ParseNumber(k).Some? then Raise(KeyError) else Ok(())
    case _ => Raise(TypeError)
  }

  /** The nested loop of the grid branch over a list, as written. */
  method GridLoop(items: seq<Json>) returns (r: Result<()>)
    ensures r == GridAsWritten(JArr(items))
  {
    var x := 0;
    while x < |items|
      invariant 0 <= x <= |items|
      invariant x > 0 ==> forall i | 0 <= i < |items| :: Inert(items[i])
    {
      var y := 0;
      while y < |items|
        invariant 0 <= y <= |items|
        invariant forall i | 0 <= i < y :: Inert(items[i])
      {
        if !Inert(items[y]) {
          return Raise(TypeError);
        }
        y := y + 1;
      }
      x := x + 1;
    }
    return Ok(());
  }

  /** A grid write that gets through the loop hands the engine a list of
      strings, never a list of rows, so it succeeds only for an empty list
      and a range of no rows, and then changes no cell. */
  lemma GridWritesNothing(s: Sheet, rs: int, re: int, cs: int, ce: int, data: Json)
    requires rs != re && cs != ce
    requires GridAsWritten(data).Ok?
    requires WriteIndexes(s, Pair(rs, re, cs, ce), data).Ok?
    ensures data == JArr([]) && Span(rs, re) == 0
    ensures forall p: Pos :: CellAt(WriteIndexes(s, Pair(rs, re, cs, ce), data).value, p) == CellAt(s, p)
  {
    assert data.JArr?;
    InertAreNotRows(data.items);
  }

  /** A non-empty list of strings is not a list of rows. */
  lemma InertAreNotRows(items: seq<Json>)
    requires forall i | 0 <= i < |items| :: Inert(items[i])
    ensures |items| > 0 ==> AsRows(GridRange, JArr(items)).None?
  {
    if |items| > 0 {
      assert !items[0].JArr?;
    }
  }

  // ---------------------------------------------------------------------
  // set_cells

  /** What `set_cells` does to `data` before writing it to the cells `ix`
      designates: one value for a cell, the 1-D loop for a row or a column,
      the grid loop otherwise. */
  function CoerceFor(ix: Indexes, data: Json): Result<Json>
  {
    match ix
    case Single(_, _) => Coerce(data)
    case Pair(rs, re, cs, ce) =>
      if rs == re || cs == ce then CoerceLine(data)
      else
        match GridAsWritten(data)
        case Raise(e) => Raise(e)
        case Ok(_) => Ok(data)
  }

  /** The coercion loops of `set_cells`. */
  method CoerceData(ix: Indexes, data: Json) returns (r: Result<Json>)
    ensures r == CoerceFor(ix, data)
  {
    if ix.Single? {
      return Coerce(data);
    }
    if ix.rowStart == ix.rowEnd || ix.colStart == ix.colEnd {
      if data.JArr? {
        r := CoerceList(data.items);
      } else {
        r := CoerceLine(data);
      }
      return;
    }
    var passed: Result<()>;
    if data.JArr? {
      passed := GridLoop(data.items);
    } else {
      passed := GridAsWritten(data);
    }
    r := if passed.Ok? then Ok(data) else Raise(passed.exc);
  }

  /** The effect of `set_cells` on the workbook's sheets: Ok(Some(sheets))
      answers True, Ok(None) answers False with nothing written, Raise is an
      exception that escapes. Without the lock it answers False. */
  function SetCellsOn(sheets: seq<Sheet>, held: bool, sheet: Json, cellRange: string, data: Json): (r: Result<Option<seq<Sheet>>>)
    ensures !held ==> r == Ok(None)
    ensures r.Ok? && r.value.Some? ==> SheetNames(r.value.value) == SheetNames(sheets)
  {
    if !held then Ok(None)
    else
      match RangeToIndex(cellRange)
      case Raise(e) => Raise(e)
      case Ok(ix) =>
        match SheetIndex(sheets, sheet)
        case Raise(e) => Raise(e)
        case Ok(k) =>
          match CoerceFor(ix, data)
          case Raise(e) => Raise(e)
          case Ok(v) =>
            match WriteIndexes(sheets[k], ix, v)
            case Raise(_) => Ok(None)
            case Ok(s) => Ok(Some(sheets[k := s]))
  }

  /** A row or a column set and then got reads back the coerced data. */
  lemma SetLineThenGet(sheets: seq<Sheet>, sheet: Json, cellRange: string, data: Json)
    requires RangeToIndex(cellRange).Ok? && RangeToIndex(cellRange).value.Pair?
    requires var ix := RangeToIndex(cellRange).value; ix.rowStart == ix.rowEnd || ix.colStart == ix.colEnd
    requires SetCellsOn(sheets, true, sheet, cellRange, data) .Ok?
    requires SetCellsOn(sheets, true, sheet, cellRange, data).value.Some?
    ensures GetCells(SetCellsOn(sheets, true, sheet, cellRange, data).value.value, sheet, cellRange)
            == Stored(CoerceFor(RangeToIndex(cellRange).value, data).value)
  {
    var ix := RangeToIndex(cellRange).value;
    var k := SheetIndex(sheets, sheet).value;
    WriteThenReadIndexes(sheets[k], ix, CoerceFor(ix, data).value);
  }

  /** A single cell set and then got reads back the coerced value. */
  lemma SetCellThenGet(sheets: seq<Sheet>, sheet: Json, cellRange: string, data: Json)
    requires RangeToIndex(cellRange).Ok? && RangeToIndex(cellRange).value.Single?
    requires SetCellsOn(sheets, true, sheet, cellRange, data).Ok?
    requires SetCellsOn(sheets, true, sheet, cellRange, data).value.Some?
    ensures GetCells(SetCellsOn(sheets, true, sheet, cellRange, data).value.value, sheet, cellRange)
            == Stored(Coerce(data).value)
  {
    var ix := RangeToIndex(cellRange).value;
    var k := SheetIndex(sheets, sheet).value;
    WriteThenReadIndexes(sheets[k], ix, Coerce(data).value);
  }

  /** `get_cells`: False on any exception, and no lock is consulted. */
  function GetCells(sheets: seq<Sheet>, sheet: Json, cellRange: string): Json
  {
    GetCellsWith(sheets, sheet, cellRange, Column)
  }

  // ---------------------------------------------------------------------
  // The connection object

  class SpreadsheetConnection {
    const workbook: Document
    const lock: Lock

    constructor(workbook: Document, lock: Lock)
      ensures this.workbook == workbook && this.lock == lock
    {
      this.workbook := workbook;
      this.lock := lock;
    }

    /** `lock_workbook`; acquiring a held lock would block. */
    method LockWorkbook()
      requires !lock.held
      modifies lock
      ensures lock.held
    {
      lock.Acquire();
    }

    /** `unlock_workbook`: true exactly when the lock was held. */
    method UnlockWorkbook() returns (ok: bool)
      modifies lock
      ensures ok == old(lock.held)
      ensures !lock.held
    {
      ok := lock.Release();
    }

    /** `set_cells`. */
    method SetCells(sheet: Json, cellRange: string, data: Json) returns (r: Result<bool>)
      modifies workbook
      ensures var e := SetCellsOn(old(workbook.sheets), lock.held, sheet, cellRange, data);
              (e.Raise? ==> r == Raise(e.exc) && workbook.sheets == old(workbook.sheets)) &&
              (e.Ok? && e.value.None? ==> r == Ok(false) && workbook.sheets == old(workbook.sheets)) &&
              (e.Ok? && e.value.Some? ==> r == Ok(true) && workbook.sheets == e.value.value)
      ensures workbook.savedTo == old(workbook.savedTo) && workbook.closed == old(workbook.closed)
    {
      if !lock.held {
        return Ok(false);
      }
      var ix := RangeToIndex(cellRange);
      if ix.Raise? {
        return Raise(ix.exc);
      }
      var k := SheetIndex(workbook.sheets, sheet);
      if k.Raise? {
        return Raise(k.exc);
      }
      var coerced := CoerceData(ix.value, data);
      if coerced.Raise? {
        return Raise(coerced.exc);
      }
      var written := WriteIndexes(workbook.sheets[k.value], ix.value, coerced.value);
      if written.Raise? {
        return Ok(false);
      }
      workbook.sheets := workbook.sheets[k.value := written.value];
      return Ok(true);
    }

    /** `save_workbook`: saves under ./saved_workbooks/ when the lock is held. */
    method SaveWorkbook(filename: string) returns (r: Option<string>)
      modifies workbook
      ensures lock.held ==> r == None && workbook.savedTo == old(workbook.savedTo) + [SaveDirectory + filename]
      ensures !lock.held ==> r == Some(SaveRefused) && workbook.savedTo == old(workbook.savedTo)
      ensures workbook.sheets == old(workbook.sheets) && workbook.closed == old(workbook.closed)
    {
      if lock.held {
        workbook.Save(SaveDirectory + filename);
        r := None;
      } else {
        r := Some(SaveRefused);
      }
    }
  }
}
