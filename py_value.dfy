/**
 * The Python values that flow through the bot: what `json()` decodes a
 * response body to, what a DTO receives, what an exception holds.  Python's
 * `str()` on them, and Python's `int()` on them, are defined here because
 * the exception messages and the `from_date` coercion are built from them.
 */
module PyValue {
  import opened Wrappers

  /**
   * A decoded JSON value as Python holds it.  An object keeps its pairs in
   * insertion order, as a Python `dict` does; a dict never repeats a key, and
   * `Lookup` reads the first pair with a given key.  JSON numbers with a
   * fraction or an exponent (Python floats) are not part of this model.
   */
  datatype JValue =
    | JNull
    | JBool(b: bool)
    | JInt(i: int)
    | JStr(s: string)
    | JList(items: seq<JValue>)
    | JObj(fields: seq<(string, JValue)>)

  /** `d[key]` on a dict (None where it raises `KeyError`) given by its pairs: the value of the first pair with that key. */
  function Lookup(fields: seq<(string, JValue)>, key: string): (r: Option<JValue>)
    ensures r.Some? <==> exists i :: 0 <= i < |fields| && fields[i].0 == key
    ensures r.Some? ==> exists i :: 0 <= i < |fields| && fields[i] == (key, r.value)
                                    && forall j :: 0 <= j < i ==> fields[j].0 != key
  {
    if fields == [] then None
    else if fields[0].0 == key then Some(fields[0].1)
    else
      var r := Lookup(fields[1..], key);
      if r.Some? then
        ghost var i :| 0 <= i < |fields[1..]| && fields[1..][i] == (key, r.value)
                       && forall j :: 0 <= j < i ==> fields[1..][j].0 != key;
        assert fields[i + 1] == (key, r.value);
        r
      else
        r
  }

  /** The integer `isinstance(v, int)` sees in `v`, if any: a Python bool is an int (False is 0, True is 1). */
  function AsInt(v: JValue): Option<int> {
    match v
    case JInt(n) => Some(n)
    case JBool(b) => Some(if b then 1 else 0)
    case _ => None
  }

  // ---------------------------------------------------------------------
  // str() of an int, and int() of a string

  predicate IsDigit(c: char) {
    '0' <= c <= '9'
  }

  function DigitChar(d: nat): char
    requires d < 10
  {
    ['0', '1', '2', '3', '4', '5', '6', '7', '8', '9'][d]
  }

  function DigitValue(c: char): nat
    requires IsDigit(c)
  {
    (c as int - '0' as int) as nat
  }

  /** The decimal digits of `n`, most significant first, no leading zero. */
  function NatToString(n: nat): string {
    if n < 10 then [DigitChar(n)] else NatToString(n / 10) + [DigitChar(n % 10)]
  }

  /** Python's `str(n)` for an int. */
  function IntToString(n: int): string {
    if n < 0 then "-" + NatToString(-n) else NatToString(n)
  }

  /** The characters Python's `str.isspace()` is true for. */
  predicate IsWhitespace(c: char) {
    var k := c as int;
    || 0x09 <= k <= 0x0D || 0x1C <= k <= 0x20 || k == 0x85 || k == 0xA0 || k == 0x1680
    || 0x2000 <= k <= 0x200A || k == 0x2028 || k == 0x2029 || k == 0x202F || k == 0x205F
    || k == 0x3000
  }

  /** The ASCII whitespace characters: space, tab, newline, vertical tab, form feed, carriage return. */
  predicate IsAsciiWhitespace(c: char) {
    c == ' ' || '\t' <= c <= '\r'
  }

  predicate IsAscii(s: string) {
    forall i :: 0 <= i < |s| ==> s[i] as int < 0x80
  }

  /**
   * The characters `int()` strips from the ends of `s`.  ASCII whitespace is
   * always skipped.  In a string that holds a character outside ASCII, every
   * character from U+0080 up that `str.isspace()` is true for first becomes a
   * space, so those are skipped too; characters below U+0080 are never
   * changed, so U+001C to U+001F are never skipped.
   */
  predicate IsStripped(c: char, unicode: bool) {
    IsAsciiWhitespace(c) || (unicode && c as int >= 0x80 && IsWhitespace(c))
  }

  function TrimLeft(s: string, unicode: bool): string {
    if s != [] && IsStripped(s[0], unicode) then TrimLeft(s[1..], unicode) else s
  }

  function TrimRight(s: string, unicode: bool): string {
    if s != [] && IsStripped(s[|s| - 1], unicode) then TrimRight(s[..|s| - 1], unicode) else s
  }

  /** Stripping leading whitespace leaves a suffix that does not start with whitespace. */
  lemma {:induction false} TrimLeftSuffix(s: string, unicode: bool)
    ensures |TrimLeft(s, unicode)| <= |s| && TrimLeft(s, unicode) == s[|s| - |TrimLeft(s, unicode)|..]
    ensures TrimLeft(s, unicode) != [] ==> !IsStripped(TrimLeft(s, unicode)[0], unicode)
  {
    if s != [] && IsStripped(s[0], unicode) {
      TrimLeftSuffix(s[1..], unicode);
    }
  }

  /** Stripping trailing whitespace leaves a prefix that does not end with whitespace. */
  lemma {:induction false} TrimRightPrefix(s: string, unicode: bool)
    ensures |TrimRight(s, unicode)| <= |s| && TrimRight(s, unicode) == s[..|TrimRight(s, unicode)|]
    ensures TrimRight(s, unicode) != [] ==> !IsStripped(TrimRight(s, unicode)[|TrimRight(s, unicode)| - 1], unicode)
  {
    if s != [] && IsStripped(s[|s| - 1], unicode) {
      TrimRightPrefix(s[..|s| - 1], unicode);
    }
  }

  /**
   * The body of a decimal integer literal as `int()` accepts it: digits, with
   * single underscores allowed between two digits.  Leading zeros are allowed.
   */
  predicate IsDigitGroup(s: string) {
    && s != []
    && IsDigit(s[0])
    && IsDigit(s[|s| - 1])
    && (forall i :: 0 <= i < |s| ==> IsDigit(s[i]) || s[i] == '_')
    && (forall i :: 0 <= i < |s| - 1 ==> s[i] == '_' ==> s[i + 1] != '_')
  }

  /** The number a digit group spells, underscores ignored. */
  function GroupValue(s: string): nat
    requires forall i :: 0 <= i < |s| ==> IsDigit(s[i]) || s[i] == '_'
  {
    if s == [] then 0
    else
      var last := s[|s| - 1];
      if last == '_' then GroupValue(s[..|s| - 1])
      else GroupValue(s[..|s| - 1]) * 10 + DigitValue(last)
  }

  /** Python's `int(s)` for a string in base 10: `None` where it raises `ValueError`. */
  function ParseInt(s: string): (r: Option<int>)
    ensures (forall i :: 0 <= i < |s| ==> IsWhitespace(s[i])) ==> r.None?
    ensures r.Some? ==> exists i :: 0 <= i < |s| && IsDigit(s[i])
  {
    var unicode := !IsAscii(s);
    var t := TrimRight(TrimLeft(s, unicode), unicode);
    TrimLeftSuffix(s, unicode);
    TrimRightPrefix(TrimLeft(s, unicode), unicode);
    assert forall i :: 0 <= i < |t| ==> t[i] == s[|s| - |TrimLeft(s, unicode)| + i];
    if t != [] && (t[0] == '-' || t[0] == '+') then
      if IsDigitGroup(t[1..]) then
        var g: int := GroupValue(t[1..]);
        Some(if t[0] == '-' then -g else g)
      else None
    else if IsDigitGroup(t) then Some(GroupValue(t))
    else None
  }

  lemma {:induction false} NatToStringDigits(n: nat)
    ensures NatToString(n) != []
    ensures forall i :: 0 <= i < |NatToString(n)| ==> IsDigit(NatToString(n)[i])
    ensures GroupValue(NatToString(n)) == n
  {
    if n >= 10 {
      NatToStringDigits(n / 10);
      var p := NatToString(n / 10);
      var s := p + [DigitChar(n % 10)];
      assert s[..|s| - 1] == p;
      assert forall i :: 0 <= i < |p| ==> s[i] == p[i];
      assert GroupValue(s) == GroupValue(p) * 10 + n % 10;
    }
  }

  /** Python's `int(str(n)) == n`: the decimal rendering is read back exactly. */
  lemma ParseIntRoundTrip(n: int)
    ensures ParseInt(IntToString(n)) == Some(n)
  {
    var m: nat := if n < 0 then -n else n;
    NatToStringDigits(m);
    var s := IntToString(n);
    assert s[0] == '-' || IsDigit(s[0]);
    var unicode := !IsAscii(s);
    assert !IsStripped(s[0], unicode);
    assert TrimLeft(s, unicode) == s;
    assert !IsStripped(s[|s| - 1], unicode);
    assert TrimRight(s, unicode) == s;
    if n < 0 {
      assert s[1..] == NatToString(m);
    }
  }

  /**
   * The ASCII control characters U+001C to U+001F count as whitespace for
   * `str.isspace()`, but `int()` never skips them, whatever else the string
   * holds.  Whitespace from U+0080 up, such as U+3000, is skipped.
   */
  lemma WhitespaceDependsOnAscii()
    ensures ParseInt("\U{1C}5") == None
    ensures ParseInt(" 5\n") == Some(5)
    ensures ParseInt("\U{1C}5\U{3000}") == None
    ensures ParseInt("5\U{3000}") == Some(5)
  {
    assert !IsAscii("\U{1C}5\U{3000}") by { assert "\U{1C}5\U{3000}"[2] as int == 0x3000; }
    assert !IsAscii("5\U{3000}") by { assert "5\U{3000}"[1] as int == 0x3000; }
    assert TrimRight("5\U{3000}", true) == "5" by { assert "5\U{3000}"[..1] == "5"; }
    assert TrimRight("\U{1C}5\U{3000}", true) == "\U{1C}5" by { assert "\U{1C}5\U{3000}"[..2] == "\U{1C}5"; }
    assert TrimLeft(" 5\n", false) == "5\n" by { assert " 5\n"[1..] == "5\n"; }
    assert TrimRight("5\n", false) == "5" by { assert "5\n"[..1] == "5"; }
  }

  /** Every character of `str(n)` is a digit, except a leading minus sign. */
  lemma IntToStringChars(n: int)
    ensures IntToString(n) != []
    ensures forall i :: 0 <= i < |IntToString(n)| ==>
              IsDigit(IntToString(n)[i]) || (i == 0 && IntToString(n)[i] == '-')
  {
    var s := IntToString(n);
    if n < 0 {
      var d := NatToString(-n);
      NatToStringDigits(-n);
      assert s == "-" + d;
      assert forall i :: 1 <= i < |s| ==> s[i] == d[i - 1];
    } else {
      NatToStringDigits(n);
    }
  }

  // ---------------------------------------------------------------------
  // str() of a value

  /** `', '.join(parts)`. */
  function Join(parts: seq<string>): string {
    if parts == [] then ""
    else if |parts| == 1 then parts[0]
    else parts[0] + ", " + Join(parts[1..])
  }

  /**
   * Python's `repr()`.  A string is put between single quotes; the escaping
   * and the choice of quote Python makes for strings holding quotes,
   * backslashes or unprintable characters are not modelled.
   */
  function Repr(v: JValue): (r: string)
    ensures r != []
    ensures v == JNull ==> r == "None"
    ensures v.JStr? ==> |r| == |v.s| + 2 && r[0] == '\'' == r[|r| - 1] && r[1..|r| - 1] == v.s
    ensures v.JList? ==> r[0] == '[' && r[|r| - 1] == ']'
    ensures v.JObj? ==> r[0] == '{' && r[|r| - 1] == '}'
  {
    match v
    case JNull => "None"
    case JBool(b) => if b then "True" else "False"
    case JInt(n) => IntToString(n)
    case JStr(s) => "'" + s + "'"
    case JList(items) =>
      "[" + Join(seq(|items|, i requires 0 <= i < |items| => Repr(items[i]))) + "]"
    case JObj(fields) =>
      "{" + Join(seq(|fields|, i requires 0 <= i < |fields| =>
                   "'" + fields[i].0 + "': " + Repr(fields[i].1))) + "}"
  }

  /** Python's `str()`, which is what `format` and f-strings insert for `{}`. */
  function Str(v: JValue): (r: string)
    ensures v.JStr? ==> r == v.s
    ensures v == JNull ==> r == "None"
    ensures v.JInt? ==> r == IntToString(v.i)
    ensures !v.JStr? ==> r == Repr(v)
  {
    match v
    case JStr(s) => s
    case _ => Repr(v)
  }

  /** `f'{x}'` for an `x` that is a string or None. */
  function OptionalStr(x: Option<string>): string {
    match x
    case Some(s) => s
    case None => "None"
  }
}
