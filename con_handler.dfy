/** con.py: the oldest connection to one workbook. Its column formula adds
    up the letter values of every character that is not a digit, so it is
    right for the columns A to Z only; it writes the data it is given without
    coercion, and answers False for an engine error. */
module ConHandler {
  import opened Values
  import opened Engine
  import opened Ranges

  const SaveRefused := "Workbook not locked"

  // ---------------------------------------------------------------------
  // Columns

  /** The column `split_char_num` computes: the sum of `ord(c.upper()) - 65`
      over the characters that are not digits. */
  function LetterSum(s: string): int
  {
    if s == [] then 0
    else LetterSum(s[..|s| - 1]) + (if IsDigit(s[|s| - 1]) then 0 else LetterValue(s[|s| - 1]))
  }

  /** `_range_to_index` of this file. */
  function RangeToIndex(cellRange: string): Result<Indexes>
  {
    IndexWith(cellRange, LetterSum)
  }

  /** The loop of `split_char_num`: digits are collected, every other
      character adds its letter value to the column. */
  method SplitCharNum(cellRef: string) returns (strVal: int, num: string)
    ensures strVal == LetterSum(cellRef) && num == Digits(cellRef)
  {
    num := "";
    strVal := 0;
    var x := 0;
    while x < |cellRef|
      invariant 0 <= x <= |cellRef|
      invariant strVal == LetterSum(cellRef[..x]) && num == Digits(cellRef[..x])
    {
      var c := cellRef[x];
      if IsDigit(c) {
        num := num + [c];
      } else {
        strVal := strVal + LetterValue(c);
      }
      SplitCharNumStep(cellRef, x);
      x := x + 1;
    }
    assert cellRef[..x] == cellRef;
  }

  /** One more character: a digit joins the digits, anything else adds its
      letter value. */
  lemma SplitCharNumStep(cellRef: string, x: nat)
    requires x < |cellRef|
    ensures LetterSum(cellRef[..x + 1]) ==
            LetterSum(cellRef[..x]) + (if IsDigit(cellRef[x]) then 0 else LetterValue(cellRef[x]))
    ensures Digits(cellRef[..x + 1]) == Digits(cellRef[..x]) + (if IsDigit(cellRef[x]) then [cellRef[x]] else [])
  {
    var c := cellRef[x];
    assert cellRef[..x + 1] == cellRef[..x] + [c];
    assert cellRef[..x + 1][..x] == cellRef[..x];
    LettersDigitsOfConcat(cellRef[..x], [c]);
  }

  // ---------------------------------------------------------------------
  // Properties of the column formula

  /** The column of a concatenation is the sum of the columns of its parts. */
  lemma {:induction false} LetterSumConcat(a: string, b: string)
    ensures LetterSum(a + b) == LetterSum(a) + LetterSum(b)
  {
    if b == [] {
      assert a + b == a;
    } else {
      var b' := b[..|b| - 1];
      assert (a + b)[..|a + b| - 1] == a + b';
      assert (a + b)[|a + b| - 1] == b[|b| - 1];
      LetterSumConcat(a, b');
    }
  }

  /** Digits contribute nothing to the column. */
  lemma {:induction false} LetterSumOfDigits(d: string)
    requires AllDigits(d)
    ensures LetterSum(d) == 0
  {
    if d != [] {
      LetterSumOfDigits(d[..|d| - 1]);
    }
  }

  /** The column does not depend on the order of the letters: swapping two
      neighbouring characters gives the same column. */
  lemma SwapKeepsColumn(a: string, x: char, y: char, b: string)
    ensures LetterSum(a + [x, y] + b) == LetterSum(a + [y, x] + b)
  {
    LetterSumConcat(a + [x, y], b);
    LetterSumConcat(a + [y, x], b);
    LetterSumConcat(a, [x, y]);
    LetterSumConcat(a, [y, x]);
    LetterSumConcat([x], [y]);
    LetterSumConcat([y], [x]);
    assert [x] + [y] == [x, y] && [y] + [x] == [y, x];
  }

  /** One letter then digits: the column is that letter's value, so A to Z
      are read as 0 to 25. */
  lemma OneLetterColumn(c: char, digits: string)
    requires AllDigits(digits) && IsAlpha(c)
    ensures LetterSum([c] + digits) == LetterValue(c)
    ensures 0 <= LetterSum([c] + digits) < 26
  {
    LetterSumConcat([c], digits);
    LetterSumOfDigits(digits);
    assert [c][..0] == [];
  }

  /** From two letters on, different columns collide: "AB" and "BA" are the
      same column, and "AA" is the column of "A". */
  lemma CollidingColumns(digits: string)
    requires AllDigits(digits)
    ensures LetterSum("AB" + digits) == LetterSum("BA" + digits) == 1
    ensures LetterSum("AA" + digits) == LetterSum("A" + digits) == 0
  {
    SwapKeepsColumn([], 'A', 'B', digits);
    assert [] + ['A', 'B'] + digits == "AB" + digits;
    assert [] + ['B', 'A'] + digits == "BA" + digits;
    LetterSumConcat("AB", digits);
    LetterSumConcat("AA", digits);
    LetterSumConcat("A", digits);
    LetterSumOfDigits(digits);
    assert "AB"[..1] == "A" && "AA"[..1] == "A";
    assert "A"[..0] == [];
  }

  // ---------------------------------------------------------------------
  // set_cells and get_cells

  /** The effect of `set_cells` on the workbook's sheets: Ok(Some(sheets))
      answers True, Ok(None) answers False with nothing written, and Raise is
      an exception that escapes (from the reference or the sheet lookup).
      The data is handed to the engine as it is. */
  function SetCellsOn(sheets: seq<Sheet>, held: bool, sheet: Json, cellRange: string, data: Json): (r: Result<Option<seq<Sheet>>>)
    ensures !held ==> r == Ok(None)
    ensures held && RangeToIndex(cellRange).Raise? ==> r == Raise(RangeToIndex(cellRange).exc)
    ensures held && RangeToIndex(cellRange).Ok? && SheetIndex(sheets, sheet).Raise? ==>
              r == Raise(SheetIndex(sheets, sheet).exc)
    ensures r.Ok? && r.value.Some? ==>
              |r.value.value| == |sheets| && SheetNames(r.value.value) == SheetNames(sheets)
  {
    if !held then Ok(None)
    else
      match RangeToIndex(cellRange)
      case Raise(e) => Raise(e)
      case Ok(ix) =>
        match SheetIndex(sheets, sheet)
        case Raise(e) => Raise(e)
        case Ok(k) =>
          match WriteIndexes(sheets[k], ix, data)
          case Raise(_) => Ok(None)
          case Ok(s) => Ok(Some(sheets[k := s]))
  }

  /** `get_cells`: False on any exception, and no lock is consulted. */
  function GetCells(sheets: seq<Sheet>, sheet: Json, cellRange: string): Json
  {
    GetCellsWith(sheets, sheet, cellRange, LetterSum)
  }

  /** What is set reads back, in its stored form. */
  lemma SetThenGet(sheets: seq<Sheet>, sheet: Json, cellRange: string, data: Json)
    requires SetCellsOn(sheets, true, sheet, cellRange, data).Ok?
    requires SetCellsOn(sheets, true, sheet, cellRange, data).value.Some?
    ensures GetCells(SetCellsOn(sheets, true, sheet, cellRange, data).value.value, sheet, cellRange)
            == Stored(data)
  {
    var ix := RangeToIndex(cellRange).value;
    var k := SheetIndex(sheets, sheet).value;
    WriteThenReadIndexes(sheets[k], ix, data);
  }

  /** Setting cells on one sheet leaves every other sheet as it was. */
  lemma SetLeavesOtherSheets(sheets: seq<Sheet>, sheet: Json, cellRange: string, data: Json, j: nat)
    requires SetCellsOn(sheets, true, sheet, cellRange, data).Ok?
    requires SetCellsOn(sheets, true, sheet, cellRange, data).value.Some?
    requires j < |sheets| && SheetIndex(sheets, sheet) != Ok(j)
    ensures SetCellsOn(sheets, true, sheet, cellRange, data).value.value[j] == sheets[j]
  {
  }

  // ---------------------------------------------------------------------
  // The handler object

  class ConnectionHandler {
    const workbook: Document
    const lock: Lock

    constructor(workbook: Document, lock: Lock)
      ensures this.workbook == workbook && this.lock == lock
    {
      this.workbook := workbook;
      this.lock := lock;
    }

    /** `lock_workbook`; acquiring a held lock would block. */
    method LockWorkbook()
      requires !lock.held
      modifies lock
      ensures lock.held
    {
      lock.Acquire();
    }

    /** `unlock_workbook`: true exactly when the lock was held. */
    method UnlockWorkbook() returns (ok: bool)
      modifies lock
      ensures ok == old(lock.held)
      ensures !lock.held
    {
      ok := lock.Release();
    }

    /** `set_cells`. */
    method SetCells(sheet: Json, cellRange: string, data: Json) returns (r: Result<bool>)
      modifies workbook
      ensures var e := SetCellsOn(old(workbook.sheets), lock.held, sheet, cellRange, data);
              (e.Raise? ==> r == Raise(e.exc) && workbook.sheets == old(workbook.sheets)) &&
              (e.Ok? && e.value.None? ==> r == Ok(false) && workbook.sheets == old(workbook.sheets)) &&
              (e.Ok? && e.value.Some? ==> r == Ok(true) && workbook.sheets == e.value.value)
      ensures workbook.savedTo == old(workbook.savedTo) && workbook.closed == old(workbook.closed)
    {
      if !lock.held {
        return Ok(false);
      }
      var ix := RangeToIndex(cellRange);
      if ix.Raise? {
        return Raise(ix.exc);
      }
      var k := SheetIndex(workbook.sheets, sheet);
      if k.Raise? {
        return Raise(k.exc);
      }
      var written := WriteIndexes(workbook.sheets[k.value], ix.value, data);
      if written.Raise? {
        return Ok(false);
      }
      workbook.sheets := workbook.sheets[k.value := written.value];
      return Ok(true);
    }

    /** `save_workbook`: saves under the name given when the lock is held;
        otherwise nothing is saved and a message is returned. */
    method SaveWorkbook(filename: string) returns (r: Option<string>)
      modifies workbook
      ensures lock.held ==> r == None && workbook.savedTo == old(workbook.savedTo) + [filename]
      ensures !lock.held ==> r == Some(SaveRefused) && workbook.savedTo == old(workbook.savedTo)
      ensures workbook.sheets == old(workbook.sheets) && workbook.closed == old(workbook.closed)
    {
      if lock.held {
        workbook.Save(filename);
        r := None;
      } else {
        r := Some(SaveRefused);
      }
    }
  }
}
