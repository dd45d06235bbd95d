/**
 * Values as they travel through the system: JSON request bodies, SQL cells and
 * pandas cells, together with the few pieces of Python arithmetic the
 * handlers rely on (round, int, ==).
 */
module Runtime {

  datatype Option<+T> = None | Some(value: T)

  /** A JSON scalar, a SQL cell or a pandas cell. */
  datatype Value = Null | Bool(b: bool) | Int(i: int) | Real(r: real) | Text(s: string)

  /** What a Python statement raised, for the paths that end in an exception. */
  datatype Cause =
    | MissingKey(key: string)           // KeyError on a request dict
    | MalformedDate(text: string)       // ValueError from strptime
    | NotADateString                    // TypeError: strptime of a non-string
    | MissingColumn(column: string)     // ColumnTransformer: a feature column is absent
    | NotNumeric(column: string)        // StandardScaler on a non-numeric cell
    | NotNullViolation(column: string)  // sqlite3.IntegrityError
    | NotAnInteger                      // int() of a value it cannot convert
    | SubscriptOfNone                   // `fetchone()[0]` when no row was found
    | CastOfNull(column: string)        // astype(int) on a column holding NULL
    | NotText(column: string)           // a float bound to a TEXT column, whose text form this model does not compute

  /** A Python call either returns a value or raises. */
  datatype Outcome<+T> = Done(value: T) | Raised(cause: Cause)

  predicate IsNumber(v: Value) {
    v.Bool? || v.Int? || v.Real?
  }

  /** The numeric value of a cell (bool counts as 0 or 1, as in Python and numpy). */
  function AsReal(v: Value): real
    requires IsNumber(v)
  {
    match v
    case Bool(b) => if b then 1.0 else 0.0
    case Int(i) => i as real
    case Real(r) => r
  }

  /**
   * Python's `==` between two cells, as used by set membership when an
   * encoder looks a category up: numbers compare by value whatever their
   * type, texts by content, None only with None, and a text never equals a
   * number.
   */
  predicate PyEq(a: Value, b: Value) {
    if IsNumber(a) && IsNumber(b) then AsReal(a) == AsReal(b)
    else (a.Null? && b.Null?) || (a.Text? && b.Text? && a.s == b.s)
  }

  lemma PyEqIsEquivalence(a: Value, b: Value, c: Value)
    ensures PyEq(a, a)
    ensures PyEq(a, b) ==> PyEq(b, a)
    ensures PyEq(a, b) && PyEq(b, c) ==> PyEq(a, c)
  {
  }

  /**
   * Python's `round(x)` with no digits: the nearest integer, and on a tie
   * the even one.
   */
  function RoundHalfEven(x: real): (n: int)
    ensures -0.5 <= n as real - x <= 0.5
    ensures (n as real - x == 0.5 || x - n as real == 0.5) ==> n % 2 == 0
  {
    var f := x.Floor;
    var frac := x - f as real;
    if frac < 0.5 then f
    else if frac > 0.5 then f + 1
    else if f % 2 == 0 then f else f + 1
  }

  /** A larger argument never rounds to a smaller integer. */
  lemma RoundHalfEvenMonotone(x: real, y: real)
    requires x <= y
    ensures RoundHalfEven(x) <= RoundHalfEven(y)
  {
  }

  /** Python's `int(x)` of a float: truncation toward zero. */
  function TruncateTowardZero(r: real): (n: int)
    ensures r >= 0.0 ==> 0.0 <= n as real <= r < n as real + 1.0
    ensures r < 0.0 ==> n as real - 1.0 < r <= n as real <= 0.0
  {
    if r >= 0.0 then r.Floor else -((-r).Floor)
  }

  predicate IsDigit(c: char) {
    '0' <= c <= '9'
  }

  predicate AllDigits(s: string) {
    forall i :: 0 <= i < |s| ==> IsDigit(s[i])
  }

  function DigitValue(c: char): (d: int)
    requires IsDigit(c)
    ensures 0 <= d <= 9
  {
    c as int - '0' as int
  }

  function DigitChar(d: int): (c: char)
    requires 0 <= d <= 9
    ensures IsDigit(c) && DigitValue(c) == d
  {
    ('0' as int + d) as char
  }

  function Power10(k: nat): (p: nat)
    ensures p >= 1
  {
    if k == 0 then 1 else 10 * Power10(k - 1)
  }

  /** The value of a run of decimal digits, most significant first. */
  function Number(s: string): (n: nat)
    requires AllDigits(s)
    ensures n < Power10(|s|)
  {
    if s == [] then 0 else 10 * Number(s[..|s| - 1]) + DigitValue(s[|s| - 1])
  }

  /**
   * Python's `int(v)` of a request value: bools and ints as they are,
   * floats truncated toward zero, texts made of an optional sign and decimal
   * digits; anything else (None, other texts) raises.
   */
  function PyInt(v: Value): (r: Outcome<int>)
    ensures v.Int? ==> r == Done(v.i)
    ensures v.Null? ==> r.Raised?
    ensures v.Bool? ==> r == Done(if v.b then 1 else 0)
    ensures v.Real? ==> r == Done(TruncateTowardZero(v.r))
    ensures v.Real? ==> -1.0 < v.r - r.value as real < 1.0
    ensures v.Text? ==> r == IntOfText(v.s)
  {
    match v
    case Null => Raised(NotAnInteger)
    case Bool(b) => Done(if b then 1 else 0)
    case Int(i) => Done(i)
    case Real(x) => Done(TruncateTowardZero(x))
    case Text(s) => IntOfText(s)
  }

  /** `int(s)` of a text: an optional sign followed by decimal digits. */
  function IntOfText(s: string): (r: Outcome<int>)
    ensures r.Done? ==> |s| > 0
  {
    if |s| > 0 && AllDigits(s) then Done(Number(s))
    else if |s| > 1 && (s[0] == '+' || s[0] == '-') && AllDigits(s[1..]) then
      var magnitude: int := Number(s[1..]);
      Done(if s[0] == '-' then -magnitude else magnitude)
    else Raised(NotAnInteger)
  }

  /** `data.get(key)`: the value under `key`, or None (null) when it is absent. */
  function Get(data: map<string, Value>, key: string): (v: Value)
    ensures key !in data ==> v == Null
    ensures key in data ==> v == data[key]
  {
    if key in data then data[key] else Null
  }

  /** The first of `columns` that the record `m` lacks, if any. */
  function FirstMissing(columns: seq<string>, m: map<string, Value>): (r: Option<string>)
    ensures r.None? <==> forall c :: c in columns ==> c in m
    ensures r.Some? ==> r.value in columns && r.value !in m
  {
    if columns == [] then None
    else if columns[0] !in m then Some(columns[0])
    else FirstMissing(columns[1..], m)
  }

  /** The first of `columns` whose value in `m` is NULL, if any. */
  function FirstNull(columns: seq<string>, m: map<string, Value>): (r: Option<string>)
    requires forall c :: c in columns ==> c in m
    ensures r.None? <==> forall c :: c in columns ==> !m[c].Null?
    ensures r.Some? ==> r.value in columns && m[r.value].Null?
  {
    if columns == [] then None
    else if m[columns[0]].Null? then Some(columns[0])
    else FirstNull(columns[1..], m)
  }

  /** The decimal digits of a natural number, most significant first, without leading zeros. */
  function NatText(n: nat): (s: string)
    ensures |s| > 0 && AllDigits(s) && Number(s) == n
  {
    if n < 10 then [DigitChar(n)]
    else
      var s := NatText(n / 10) + [DigitChar(n % 10)];
      assert s[..|s| - 1] == NatText(n / 10);
      s
  }

  /** The decimal text of an integer, with a '-' in front of a negative one. */
  function IntText(i: int): (s: string)
    ensures |s| > 0
  {
    if i < 0 then "-" + NatText(-i) else NatText(i)
  }

  /** `int()` reads the decimal text of an integer back as that integer. */
  lemma IntTextRoundTrip(i: int)
    ensures IntOfText(IntText(i)) == Done(i)
  {
    if i < 0 {
      var s := IntText(i);
      assert s[1..] == NatText(-i);
      assert !IsDigit(s[0]);
    }
  }

  /**
   * What SQLite stores when a value is bound to a column of TEXT affinity:
   * a text as it is, an integer (a Python bool binds as 0 or 1) as its
   * decimal text. NULL has no text form; neither has a float in this model.
   */
  function TextAffinity(v: Value): (r: Option<string>)
    ensures v.Text? ==> r == Some(v.s)
    ensures v.Int? ==> r.Some? && IntOfText(r.value) == Done(v.i)
    ensures v.Bool? ==> r.Some? && IntOfText(r.value) == PyInt(v)
    ensures r.None? <==> v.Null? || v.Real?
  {
    match v
    case Null => None
    case Bool(b) => IntTextRoundTrip(if b then 1 else 0); Some(IntText(if b then 1 else 0))
    case Int(i) => IntTextRoundTrip(i); Some(IntText(i))
    case Real(_) => None
    case Text(s) => Some(s)
  }

  /**
   * `column = ?` with a TEXT column and a bound parameter: the parameter
   * takes the column's TEXT affinity and the texts are compared.
   */
  predicate SqlTextEq(column: string, param: Value) {
    TextAffinity(param) == Some(column)
  }

  /** A value as a TEXT column keeps it: converted to text where it has a text form. */
  function TextColumn(v: Value): (r: Value)
    ensures TextAffinity(v).Some? ==> r == Text(TextAffinity(v).value)
    ensures TextAffinity(v).None? ==> r == v
    ensures r.Null? <==> v.Null?
  {
    match TextAffinity(v)
    case Some(s) => Text(s)
    case None => v
  }

  /** The position of the first '.' of `s`, or `|s|` when there is none. */
  function PointAt(s: string): (k: nat)
    ensures k <= |s|
    ensures forall i :: 0 <= i < k ==> s[i] != '.'
    ensures k < |s| ==> s[k] == '.'
  {
    if s == [] || s[0] == '.' then 0 else 1 + PointAt(s[1..])
  }

  /** An unsigned decimal numeral: digits, then optionally a point and more digits, at least one digit in all. */
  function UnsignedDecimal(s: string): (r: Option<real>)
    ensures r.Some? ==> 0.0 <= r.value
  {
    var k := PointAt(s);
    var whole := s[..k];
    var frac := if k < |s| then s[k + 1..] else [];
    if AllDigits(whole) && AllDigits(frac) && |whole| + |frac| > 0 then
      var fraction := Number(frac) as real / Power10(|frac|) as real;
      assert 0.0 <= fraction by {
        assert Power10(|frac|) as real > 0.0 && Number(frac) as real >= 0.0;
      }
      Some(Number(whole) as real + fraction)
    else None
  }

  /**
   * `float(s)` for the plain decimal spellings, which is also what SQLite
   * takes for a numeric text: an optional sign, then an unsigned numeral.
   */
  function DecimalValue(s: string): (r: Option<real>)
    ensures r.Some? ==> |s| > 0
  {
    if |s| > 0 && (s[0] == '+' || s[0] == '-') then
      match UnsignedDecimal(s[1..])
      case None => None
      case Some(x) => Some(if s[0] == '-' then -x else x)
    else UnsignedDecimal(s)
  }

  /** A text `int()` accepts is read by `float()` as the same number. */
  lemma {:induction false} IntegerTextIsDecimal(s: string)
    requires IntOfText(s).Done?
    ensures DecimalValue(s) == Some(IntOfText(s).value as real)
  {
    if AllDigits(s) {
      assert PointAt(s) == |s|;
      assert s[..|s|] == s;
    } else {
      var u := s[1..];
      assert PointAt(u) == |u|;
      assert u[..|u|] == u;
    }
  }

  /** Digits after the point count as a fraction: "2.5" is two and a half. */
  lemma FractionRead()
    ensures DecimalValue("2.5") == Some(2.5)
    ensures DecimalValue("-.5") == Some(-0.5)
    ensures DecimalValue("7.") == Some(7.0)
  {
    assert PointAt("2.5") == 1;
    assert PointAt(".5") == 0;
    assert PointAt("7.") == 1;
  }

  /** A lone point, a second point and letters are no numeral. */
  lemma NonNumeralsRefused()
    ensures DecimalValue(".") == None && DecimalValue("1.2.3") == None && DecimalValue("abc") == None
  {
    assert PointAt(".") == 0;
    assert PointAt("1.2.3") == 1;
    assert PointAt("2.3") == 1;
    assert PointAt("abc") == 3;
  }

  /**
   * A value as a REAL column keeps it: a number, or a text SQLite reads as
   * one, becomes a float; NULL and any other text stay as they are.
   */
  function RealColumn(v: Value): (r: Value)
    ensures IsNumber(v) ==> r == Real(AsReal(v))
    ensures v.Text? && DecimalValue(v.s).Some? ==> r == Real(DecimalValue(v.s).value)
    ensures v.Text? && DecimalValue(v.s).None? ==> r == v
    ensures r.Null? <==> v.Null?
  {
    match v
    case Text(s) =>
      (match DecimalValue(s)
       case Some(x) => Real(x)
       case None => v)
    case Null => Null
    case _ => Real(AsReal(v))
  }

  /** Storing what a REAL column holds changes nothing more. */
  lemma RealColumnIdempotent(v: Value)
    ensures RealColumn(RealColumn(v)) == RealColumn(v)
  {
  }
}
