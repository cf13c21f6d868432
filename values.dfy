/** Values shared by the whole model: bytes, the JSON values that travel over
    the wire once decoded, the values a spreadsheet cell holds, the Python
    exceptions the server raises, and the few Python string and number
    conversions the cell-address parsers rely on. */
module Values {

  newtype byte = x: int | 0 <= x < 256

  datatype Option<T> = None | Some(value: T)

  /** A decoded JSON value as Python's json module gives it back: an integer
      and a floating-point number are different values, an object is a dict. */
  datatype Json =
    | JNull
    | JBool(b: bool)
    | JInt(i: int)
    | JFloat(f: real)
    | JStr(s: string)
    | JArr(items: seq<Json>)
    | JObj(fields: map<string, Json>)

  /** A Python exception, by class. A message is kept where the server sends
      it back to the client with `str(e)`. */
  datatype Exc =
    | ValueError(msg: string)
    | TypeError
    | NameError
    | IndexError
    | KeyError
    | AttributeError
    | RuntimeError(detail: Json)   // Python's built-in RuntimeError
    | EngineError(msg: string)     // com.sun.star.uno.RuntimeException, raised by the office engine
    | StructError                  // struct.pack(">I", n) with n outside 32 bits
    | DecodeError                  // bytes that are not UTF-8 JSON
    | ClientError(msg: string)     // a bare Exception raised by the client

  /** The message of the ValueError raised when a split gives more than two
      parts to unpack into two names. */
  const TooManyHalves := "too many values to unpack (expected 2)"

  /** The value a Python call returns, or the exception it raises. */
  datatype Result<T> = Ok(value: T) | Raise(exc: Exc)

  /** The value of one spreadsheet cell. */
  datatype Cell = Number(n: real) | Text(t: string)

  /** Python's `v == False`: false, and every number equal to zero. */
  predicate EqualsFalse(v: Json)
  {
    v == JBool(false) || v == JInt(0) || v == JFloat(0.0)
  }

  /** The reply object `{"ERROR": msg}`. */
  function ErrorReply(msg: string): Json
  {
    JObj(map["ERROR" := JStr(msg)])
  }

  // ---------------------------------------------------------------------
  // str.split and friends

  /** Number of occurrences of `c` in `s`. */
  function Count(s: string, c: char): nat
  {
    if s == [] then 0 else (if s[0] == c then 1 else 0) + Count(s[1..], c)
  }

  /** Python's `s.split(sep)` for a one-character separator: never empty, and
      an empty piece wherever two separators (or an end and a separator) meet. */
  function Split(s: string, sep: char): (r: seq<string>)
    ensures |r| >= 1
  {
    if s == [] then [""]
    else if s[0] == sep then [""] + Split(s[1..], sep)
    else
      var rest := Split(s[1..], sep);
      [[s[0]] + rest[0]] + rest[1..]
  }

  /** Python's `sep.join(pieces)`. */
  function Join(pieces: seq<string>, sep: char): string
  {
    if pieces == [] then ""
    else if |pieces| == 1 then pieces[0]
    else pieces[0] + [sep] + Join(pieces[1..], sep)
  }

  /** A character occurs nowhere exactly when its count is zero. */
  lemma {:induction false} CountZero(s: string, c: char)
    ensures Count(s, c) == 0 <==> c !in s
  {
    if s != [] {
      CountZero(s[1..], c);
      assert s == [s[0]] + s[1..];
    }
  }

  /** Splitting yields one piece more than there are separators. */
  lemma {:induction false} SplitCount(s: string, sep: char)
    ensures |Split(s, sep)| == Count(s, sep) + 1
  {
    if s != [] {
      SplitCount(s[1..], sep);
    }
  }

  /** Joining the pieces back with the separator gives the original string. */
  lemma {:induction false} SplitJoin(s: string, sep: char)
    ensures Join(Split(s, sep), sep) == s
  {
    if s == [] {
    } else if s[0] == sep {
      SplitJoin(s[1..], sep);
      var rest := Split(s[1..], sep);
      assert Join([""] + rest, sep) == [sep] + Join(rest, sep);
    } else {
      SplitJoin(s[1..], sep);
      var rest := Split(s[1..], sep);
      if |rest| == 1 {
        assert Join(rest, sep) == rest[0];
      } else {
        assert Join(rest, sep) == rest[0] + [sep] + Join(rest[1..], sep);
        assert ([[s[0]] + rest[0]] + rest[1..])[1..] == rest[1..];
      }
    }
  }

  /** A string without the separator is a single piece. */
  lemma {:induction false} SplitNoSep(s: string, sep: char)
    requires sep !in s
    ensures Split(s, sep) == [s]
  {
    if s != [] {
      assert sep !in s[1..];
      SplitNoSep(s[1..], sep);
      assert s[0] != sep;
      assert [s[0]] + s[1..] == s;
    }
  }

  /** Splitting `l + sep + r` where `l` has no separator gives `l` and then the
      pieces of `r`. */
  lemma {:induction false} SplitAtFirst(l: string, r: string, sep: char)
    requires sep !in l
    ensures Split(l + [sep] + r, sep) == [l] + Split(r, sep)
  {
    if l == [] {
      assert l + [sep] + r == [sep] + r;
      assert ([sep] + r)[1..] == r;
    } else {
      assert sep !in l[1..];
      SplitAtFirst(l[1..], r, sep);
      assert (l + [sep] + r)[1..] == l[1..] + [sep] + r;
      assert [l[0]] + l[1..] == l;
    }
  }

  // ---------------------------------------------------------------------
  // Characters

  predicate IsDigit(c: char) { '0' <= c <= '9' }

  predicate IsAlpha(c: char) { 'A' <= c <= 'Z' || 'a' <= c <= 'z' }

  predicate AllDigits(s: string) { forall i | 0 <= i < |s| :: IsDigit(s[i]) }

  predicate AllLetters(s: string) { forall i | 0 <= i < |s| :: IsAlpha(s[i]) }

  /** `c.upper()` on ASCII letters; every other character is left alone. */
  function Upper(c: char): char
  {
    if 'a' <= c <= 'z' then (c as int - 32) as char else c
  }

  /** `s.upper()` on ASCII letters. */
  function UpperAll(s: string): (r: string)
    ensures |r| == |s|
    ensures forall i | 0 <= i < |s| :: r[i] == Upper(s[i])
  {
    seq(|s|, i requires 0 <= i < |s| => Upper(s[i]))
  }

  /** `ord(c.upper()) - 65`: A (or a) is 0 and Z is 25. */
  function LetterValue(c: char): int
  {
    Upper(c) as int - 65
  }

  lemma LetterValueRange(c: char)
    requires IsAlpha(c)
    ensures 0 <= LetterValue(c) < 26
  {
  }

  /** The letters of `s` in order: `[c for c in s if c.isalpha()]`. */
  function Letters(s: string): (r: string)
    ensures AllLetters(r)
    ensures |r| <= |s|
  {
    if s == [] then []
    else if IsAlpha(s[0]) then [s[0]] + Letters(s[1..])
    else Letters(s[1..])
  }

  /** The digits of `s` in order: `[n for n in s if n.isnumeric()]`. */
  function Digits(s: string): (r: string)
    ensures AllDigits(r)
    ensures |r| <= |s|
  {
    if s == [] then []
    else if IsDigit(s[0]) then [s[0]] + Digits(s[1..])
    else Digits(s[1..])
  }

  /** The characters of `s` that are not digits, in order. */
  function NonDigits(s: string): (r: string)
    ensures forall i | 0 <= i < |r| :: !IsDigit(r[i])
  {
    if s == [] then []
    else if IsDigit(s[0]) then NonDigits(s[1..])
    else [s[0]] + NonDigits(s[1..])
  }

  /** Letters and digits of a concatenation are those of its parts. */
  lemma {:induction false} LettersDigitsOfConcat(a: string, b: string)
    ensures Letters(a + b) == Letters(a) + Letters(b)
    ensures Digits(a + b) == Digits(a) + Digits(b)
  {
    if a == [] {
      assert a + b == b;
    } else {
      assert (a + b)[0] == a[0];
      assert (a + b)[1..] == a[1..] + b;
      LettersDigitsOfConcat(a[1..], b);
    }
  }

  lemma {:induction false} LettersDigitsOfLetters(a: string)
    requires AllLetters(a)
    ensures Letters(a) == a && Digits(a) == []
  {
    if a != [] {
      LettersDigitsOfLetters(a[1..]);
      assert [a[0]] + a[1..] == a;
    }
  }

  /** Letters followed by digits split back into those letters and digits. */
  lemma LettersThenDigits(letters: string, digits: string)
    requires AllLetters(letters) && AllDigits(digits)
    ensures Letters(letters + digits) == letters && Digits(letters + digits) == digits
  {
    LettersDigitsOfConcat(letters, digits);
    LettersDigitsOfLetters(letters);
    LettersDigitsOfDigits(digits);
    assert letters + [] == letters && [] + digits == digits;
  }

  lemma {:induction false} LettersDigitsOfDigits(d: string)
    requires AllDigits(d)
    ensures Letters(d) == [] && Digits(d) == d
  {
    if d != [] {
      LettersDigitsOfDigits(d[1..]);
      assert [d[0]] + d[1..] == d;
    }
  }

  function Pow(b: nat, e: nat): (r: nat)
    ensures b > 0 ==> r > 0
  {
    if e == 0 then 1 else b * Pow(b, e - 1)
  }

  /** Python's `int(ds)` on a string of decimal digits. */
  function DigitsValue(ds: string): (r: nat)
    requires AllDigits(ds)
    ensures r < Pow(10, |ds|)
  {
    if ds == [] then 0
    else DigitsValue(ds[..|ds| - 1]) * 10 + (ds[|ds| - 1] as int - '0' as int)
  }

  /** `int(ds)`: the empty string is refused with a ValueError. */
  function ParseInt(ds: string): (r: Result<nat>)
    requires AllDigits(ds)
    ensures r.Ok? <==> ds != []
    ensures r.Ok? ==> r.value == DigitsValue(ds)
  {
    if ds == [] then Raise(ValueError("invalid literal for int() with base 10: ''"))
    else Ok(DigitsValue(ds))
  }

  // ---------------------------------------------------------------------
  // Numbers in text

  /** An unsigned decimal literal: digits, optionally with one decimal point,
      and at least one digit. */
  function ParseDecimal(s: string): Option<real>
  {
    var pieces := Split(s, '.');
    if |pieces| == 1 then
      if s != [] && AllDigits(s) then Some(DigitsValue(s) as real) else None
    else if |pieces| == 2 && AllDigits(pieces[0]) && AllDigits(pieces[1])
            && |pieces[0]| + |pieces[1]| > 0 then
      Some(DigitsValue(pieces[0]) as real
           + DigitsValue(pieces[1]) as real / Pow(10, |pieces[1]|) as real)
    else None
  }

  /** The text that the model lets `float(...)` accept: an optional sign and
      an unsigned decimal literal. */
  function ParseNumber(s: string): Option<real>
  {
    if |s| > 0 && (s[0] == '+' || s[0] == '-') then
      match ParseDecimal(s[1..])
      case Some(r) => Some(if s[0] == '-' then -r else r)
      case None => None
    else ParseDecimal(s)
  }

  /** What Python's `float(v)` does with a decoded JSON value: a number, a
      boolean or numeric text converts, other text raises ValueError, and
      null, lists and objects raise TypeError. */
  datatype Conversion = Converted(r: real) | NotNumeric | NotConvertible

  function FloatOf(v: Json): (r: Conversion)
    ensures r.NotConvertible? <==> v.JNull? || v.JArr? || v.JObj?
    ensures r.NotNumeric? <==> v.JStr? && ParseNumber(v.s).None?
    ensures v.JStr? && r.Converted? ==> Some(r.r) == ParseNumber(v.s)
    ensures v.JBool? ==> r == Converted(if v.b then 1.0 else 0.0)
  {
    match v
    case JBool(b) => Converted(if b then 1.0 else 0.0)
    case JInt(i) => Converted(i as real)
    case JFloat(f) => Converted(f)
    case JStr(s) =>
      (match ParseNumber(s)
       case Some(r) => Converted(r)
       case None => NotNumeric)
    case _ => NotConvertible
  }
}
