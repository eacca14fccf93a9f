/** Python string primitives that the generators rely on: `str.strip()`,
    `str.isdigit()`, `int(str)` and `str.split(sep)`, stated over
    `seq<char>`. */
module PyStrings {

  datatype Option<T> = None | Some(value: T)

  /** The characters for which Python's `str.isspace()` holds, which are the
      ones `str.strip()` with no argument removes. */
  predicate IsSpace(c: char) {
    c == ' ' || ('\t' <= c <= '\r') || ('\U{1C}' <= c <= '\U{1F}')
    || c == '\U{85}' || c == '\U{A0}' || c == '\U{1680}'
    || ('\U{2000}' <= c <= '\U{200A}')
    || c == '\U{2028}' || c == '\U{2029}' || c == '\U{202F}'
    || c == '\U{205F}' || c == '\U{3000}'
  }

  predicate AllSpace(s: string) {
    forall i :: 0 <= i < |s| ==> IsSpace(s[i])
  }

  function TrimStart(s: string): string {
    if |s| > 0 && IsSpace(s[0]) then TrimStart(s[1..]) else s
  }

  function TrimEnd(s: string): string {
    if |s| > 0 && IsSpace(s[|s| - 1]) then TrimEnd(s[..|s| - 1]) else s
  }

  /** Python's `s.strip()`: whitespace removed from both ends. */
  function Strip(s: string): string {
    TrimEnd(TrimStart(s))
  }

  /** `TrimStart` drops a whitespace prefix and stops at the first other
      character. */
  lemma {:induction false} TrimStartShape(s: string)
    ensures var r := TrimStart(s);
      |r| <= |s| && r == s[|s| - |r|..] && (r == [] || !IsSpace(r[0])) && AllSpace(s[..|s| - |r|])
  {
    if |s| > 0 && IsSpace(s[0]) {
      TrimStartShape(s[1..]);
      var r := TrimStart(s[1..]);
      assert s[1..][..|s[1..]| - |r|] == s[1..|s| - |r|];
    }
  }

  /** `TrimEnd` drops a whitespace suffix and stops at the last other
      character. */
  lemma {:induction false} TrimEndShape(s: string)
    ensures var r := TrimEnd(s);
      |r| <= |s| && r == s[..|r|] && (r == [] || !IsSpace(r[|r| - 1])) && AllSpace(s[|r|..])
  {
    if |s| > 0 && IsSpace(s[|s| - 1]) {
      TrimEndShape(s[..|s| - 1]);
      var r := TrimEnd(s[..|s| - 1]);
      assert s[..|s| - 1][|r|..] + [s[|s| - 1]] == s[|r|..];
    }
  }

  /** The result of `strip()` is an infix of the input that neither starts
      nor ends with whitespace, and everything removed is whitespace. */
  lemma {:induction false} StripShape(s: string)
    ensures |Strip(s)| <= |TrimStart(s)| <= |s|
    ensures var r := Strip(s); r == [] || (!IsSpace(r[0]) && !IsSpace(r[|r| - 1]))
    ensures var r, i := Strip(s), |s| - |TrimStart(s)|;
      r == s[i..i + |r|] && AllSpace(s[..i]) && AllSpace(s[i + |r|..])
  {
    var t := TrimStart(s);
    TrimStartShape(s);
    TrimEndShape(t);
    var r := TrimEnd(t);
    var i := |s| - |t|;
    assert s[i..] == t;
    assert t[|r|..] == s[i + |r|..];
    if r != [] {
      assert r[0] == t[0];
    }
  }

  /** A Python string counts as false in a condition exactly when it is empty;
      after `strip()` that happens exactly for the all-whitespace strings. */
  lemma {:induction false} StripEmptyIffAllSpace(s: string)
    ensures Strip(s) == [] <==> AllSpace(s)
  {
    var t := TrimStart(s);
    TrimStartShape(s);
    TrimEndShape(t);
    if t == [] {
      assert s[..|s|] == s;
    } else {
      assert !AllSpace(s) by { assert s[|s| - |t|] == t[0]; }
    }
  }

  /** A string that is already trimmed is left alone. */
  lemma {:induction false} StripTrimmed(s: string)
    requires s == [] || (!IsSpace(s[0]) && !IsSpace(s[|s| - 1]))
    ensures Strip(s) == s
  {
  }

  /** Surrounding spaces are removed again. */
  lemma {:induction false} StripPadded(d: string)
    requires d != [] && !IsSpace(d[0]) && !IsSpace(d[|d| - 1])
    ensures Strip(" " + d + " ") == d
    ensures PyInt(" " + d + " ") == PyInt(d)
  {
    var p := " " + d + " ";
    var e := d + " ";
    assert p[1..] == e;
    assert e[0] == d[0];
    assert TrimStart(e) == e;
    assert TrimStart(p) == e;
    assert e[..|e| - 1] == d;
    assert TrimEnd(e) == TrimEnd(d);
    StripTrimmed(d);
    assert IntTrimStart(e) == e;
    assert IntTrimStart(p) == e;
    assert IntTrimEnd(e) == IntTrimEnd(d);
    IntStripTrimmed(d);
  }

  lemma {:induction false} StripIdempotent(s: string)
    ensures Strip(Strip(s)) == Strip(s)
  {
    StripShape(s);
    StripTrimmed(Strip(s));
  }

  predicate IsAsciiDigit(c: char) {
    '0' <= c <= '9'
  }

  /** `str.isdigit()`, restricted to the ASCII digits: true of a non-empty
      string made of `0`..`9` only. */
  predicate IsDigits(s: string) {
    |s| > 0 && forall i :: 0 <= i < |s| ==> IsAsciiDigit(s[i])
  }

  /** The number a string of ASCII digits denotes in base ten. */
  function DigitsValue(s: string): nat
    requires forall i :: 0 <= i < |s| ==> IsAsciiDigit(s[i])
  {
    if s == [] then 0
    else
      var last := s[|s| - 1];
      assert IsAsciiDigit(last);
      DigitsValue(s[..|s| - 1]) * 10 + (last as int - '0' as int)
  }

  /** The base-ten numeral of `n`, without leading zeros. */
  function Decimal(n: nat): (r: string)
    ensures IsDigits(r)
    ensures n < 10 ==> |r| == 1
    ensures 10 <= n ==> r[0] != '0'
  {
    if n < 10 then [('0' as int + n) as char]
    else Decimal(n / 10) + [('0' as int + n % 10) as char]
  }

  lemma {:induction false} DecimalValue(n: nat)
    ensures DigitsValue(Decimal(n)) == n
  {
    if n >= 10 {
      var d := Decimal(n);
      assert d[..|d| - 1] == Decimal(n / 10);
      DecimalValue(n / 10);
    }
  }

  /** A numeral has at most three digits exactly when its value is below 1000. */
  lemma {:induction false} DecimalLength(n: nat)
    ensures |Decimal(n)| <= 3 <==> n < 1000
  {
    if n >= 10 {
      DecimalLength(n / 10);
    }
  }

  /** Numbers below 10000 take at most four digits. */
  lemma {:induction false} DecimalShort(n: nat)
    ensures n < 10000 ==> |Decimal(n)| <= 4
  {
    if n >= 10 {
      DecimalShort(n / 10);
    }
  }

  function RemoveUnderscores(s: string): (r: string)
    ensures |r| <= |s|
    ensures forall i :: 0 <= i < |r| ==> r[i] != '_'
    ensures (forall i :: 0 <= i < |s| ==> s[i] != '_') ==> r == s
  {
    if s == [] then []
    else (if s[0] == '_' then [] else [s[0]]) + RemoveUnderscores(s[1..])
  }

  /** The digit part that Python's `int()` accepts in base ten: ASCII digits,
      where single underscores may separate two digits. */
  predicate IsUnderscoredDigits(u: string) {
    && |u| > 0
    && IsAsciiDigit(u[0]) && IsAsciiDigit(u[|u| - 1])
    && (forall i :: 0 <= i < |u| ==> IsAsciiDigit(u[i]) || u[i] == '_')
    && (forall i :: 0 <= i < |u| - 1 && u[i] == '_' ==> u[i + 1] != '_')
  }

  /** `sys.get_int_max_str_digits()` at its default: `int()` of a base-ten
      text with more digits than this raises `ValueError`. Leading zeros
      count toward the limit; the sign and the underscores do not. */
  const MaxStrDigits := 4300

  function UnsignedValue(u: string): (r: Option<int>)
    ensures r.Some? <==> IsUnderscoredDigits(u) && |RemoveUnderscores(u)| <= MaxStrDigits
    ensures r.Some? ==> r.value >= 0
  {
    if IsUnderscoredDigits(u) && |RemoveUnderscores(u)| <= MaxStrDigits then
      var d := RemoveUnderscores(u);
      assert forall i :: 0 <= i < |d| ==> IsAsciiDigit(d[i]) by {
        RemoveUnderscoresDigits(u);
      }
      Some(DigitsValue(d))
    else None
  }

  lemma {:induction false} RemoveUnderscoresDigits(u: string)
    requires forall i :: 0 <= i < |u| ==> IsAsciiDigit(u[i]) || u[i] == '_'
    ensures forall i :: 0 <= i < |RemoveUnderscores(u)| ==> IsAsciiDigit(RemoveUnderscores(u)[i])
  {
    if u != [] {
      RemoveUnderscoresDigits(u[1..]);
    }
  }

  /** The whitespace `int()` skips around its numeral: everything
      `str.isspace()` holds of except the four separators U+001C..U+001F,
      which `int()` does not treat as blanks. */
  predicate IsIntSpace(c: char) {
    IsSpace(c) && !('\U{1C}' <= c <= '\U{1F}')
  }

  function IntTrimStart(s: string): string {
    if |s| > 0 && IsIntSpace(s[0]) then IntTrimStart(s[1..]) else s
  }

  function IntTrimEnd(s: string): string {
    if |s| > 0 && IsIntSpace(s[|s| - 1]) then IntTrimEnd(s[..|s| - 1]) else s
  }

  /** The text `int()` reads once the blanks around it are skipped. */
  function IntStrip(s: string): string {
    IntTrimEnd(IntTrimStart(s))
  }

  lemma {:induction false} IntTrimStartSuffix(s: string)
    ensures |IntTrimStart(s)| <= |s| && IntTrimStart(s) == s[|s| - |IntTrimStart(s)|..]
  {
    if |s| > 0 && IsIntSpace(s[0]) {
      IntTrimStartSuffix(s[1..]);
    }
  }

  lemma {:induction false} IntTrimEndPrefix(s: string)
    ensures |IntTrimEnd(s)| <= |s| && IntTrimEnd(s) == s[..|IntTrimEnd(s)|]
  {
    if |s| > 0 && IsIntSpace(s[|s| - 1]) {
      IntTrimEndPrefix(s[..|s| - 1]);
    }
  }

  /** A text that neither starts nor ends with such a blank is read as it is. */
  lemma {:induction false} IntStripTrimmed(s: string)
    requires s == [] || (!IsIntSpace(s[0]) && !IsIntSpace(s[|s| - 1]))
    ensures IntStrip(s) == s
  {
  }

  /** Python's `int(s)` in base ten: surrounding blanks are ignored, an
      optional sign may lead, the rest must be digits (with single
      underscores between them); `None` stands for the `ValueError`. */
  function PyInt(s: string): (r: Option<int>)
    ensures r.Some? ==> IntStrip(s) != []
  {
    var t := IntStrip(s);
    if |t| > 0 && t[0] == '+' then UnsignedValue(t[1..])
    else if |t| > 0 && t[0] == '-' then
      match UnsignedValue(t[1..])
      case Some(v) => Some(-v)
      case None => None
    else UnsignedValue(t)
  }

  /** `int()` reads back every numeral `Decimal` writes, up to the digit
      limit. */
  lemma {:induction false} PyIntDecimal(n: nat)
    ensures PyInt(Decimal(n)) == if |Decimal(n)| <= MaxStrDigits then Some(n) else None
  {
    var d := Decimal(n);
    DecimalValue(n);
    PyIntDigits(d);
  }

  /** Python's `s.split(sep)`: the pieces between occurrences of `sep`, so
      there is always one piece more than there are separators. */
  function Split(s: string, sep: char): (r: seq<string>)
    ensures |r| >= 1
    ensures forall i :: 0 <= i < |r| ==> sep !in r[i]
  {
    if s == [] then [""]
    else if s[0] == sep then [""] + Split(s[1..], sep)
    else
      var rest := Split(s[1..], sep);
      [[s[0]] + rest[0]] + rest[1..]
  }

  /** A piece free of the separator followed by the separator splits off as
      the first piece. */
  lemma {:induction false} SplitPrefix(x: string, sep: char, y: string)
    requires sep !in x
    ensures Split(x + [sep] + y, sep) == [x] + Split(y, sep)
  {
    if x != [] {
      assert x[0] != sep by { assert x[0] in x; }
      assert (x + [sep] + y)[1..] == x[1..] + [sep] + y;
      SplitPrefix(x[1..], sep, y);
      assert [x[0]] + x[1..] == x;
    } else {
      assert (x + [sep] + y)[1..] == y;
    }
  }

  /** Appending a non-separator character extends the last piece. */
  lemma {:induction false} SplitAppend(x: string, sep: char, c: char)
    requires c != sep
    ensures var p := Split(x, sep);
            Split(x + [c], sep) == p[..|p| - 1] + [p[|p| - 1] + [c]]
  {
    if x != [] {
      assert (x + [c])[1..] == x[1..] + [c];
      assert (x + [c])[0] == x[0];
      SplitAppend(x[1..], sep, c);
      var q := Split(x[1..], sep);
      var p := Split(x, sep);
      var last := q[|q| - 1] + [c];
      if x[0] == sep {
        assert p == [""] + q;
        assert p[..|p| - 1] == [""] + q[..|q| - 1];
        assert Split(x + [c], sep) == [""] + (q[..|q| - 1] + [last]);
      } else {
        var h := [x[0]] + q[0];
        assert p == [h] + q[1..];
        if |q| == 1 {
          assert Split(x[1..] + [c], sep) == [q[0] + [c]];
          assert Split(x + [c], sep) == [[x[0]] + (q[0] + [c])];
          assert [x[0]] + (q[0] + [c]) == h + [c];
        } else {
          var r := Split(x[1..] + [c], sep);
          assert r == q[..|q| - 1] + [last];
          assert r[0] == q[0] && r[1..] == q[1..|q| - 1] + [last];
          assert p[..|p| - 1] == [h] + q[1..|q| - 1];
          assert p[|p| - 1] == q[|q| - 1];
          assert Split(x + [c], sep) == [[x[0]] + r[0]] + r[1..];
        }
      }
    } else {
      assert x + [c] == [c];
      assert [c][1..] == [];
      assert Split([c], sep) == [[c] + ""] + [""][1..];
      assert Split(x, sep) == [""];
      assert [c] + "" == "" + [c] == [c];
      assert Split(x + [c], sep) == [[c]];
    }
  }

  /** `int()` of an ASCII numeral, with or without one trailing newline. */
  lemma {:induction false} PyIntDigits(g: string)
    requires IsDigits(g)
    ensures PyInt(g) == if |g| <= MaxStrDigits then Some(DigitsValue(g)) else None
    ensures PyInt(g + "\n") == PyInt(g)
  {
    DigitsAreUnsigned(g);
    assert IsAsciiDigit(g[0]) && IsAsciiDigit(g[|g| - 1]);
    IntStripTrimmed(g);
    assert g[0] != '+' && g[0] != '-';
    var gn := g + "\n";
    assert gn[0] == g[0];
    assert IntTrimStart(gn) == gn;
    assert gn[..|gn| - 1] == g;
    assert IntTrimEnd(gn) == IntTrimEnd(g);
    assert IntStrip(gn) == g;
  }

  lemma {:induction false} DigitsAreUnsigned(g: string)
    requires IsDigits(g)
    ensures UnsignedValue(g) == if |g| <= MaxStrDigits then Some(DigitsValue(g)) else None
  {
    assert forall i :: 0 <= i < |g| ==> g[i] != '_' by {
      forall i | 0 <= i < |g| ensures g[i] != '_' { assert IsAsciiDigit(g[i]); }
    }
    assert RemoveUnderscores(g) == g;
    assert IsUnderscoredDigits(g);
  }

  lemma {:induction false} RemoveUnderscoresAppend(x: string, y: string)
    ensures RemoveUnderscores(x + y) == RemoveUnderscores(x) + RemoveUnderscores(y)
  {
    if x != [] {
      var h := if x[0] == '_' then [] else [x[0]];
      assert (x + y)[1..] == x[1..] + y;
      assert RemoveUnderscores(x + y) == h + RemoveUnderscores(x[1..] + y);
      assert RemoveUnderscores(x) == h + RemoveUnderscores(x[1..]);
      RemoveUnderscoresAppend(x[1..], y);
    } else {
      assert x + y == y;
    }
  }

  /** Digits, one underscore, digits: the shape `int()` accepts. */
  lemma {:induction false} UnderscoredShape(a: string, b: string)
    requires IsDigits(a) && IsDigits(b)
    ensures IsUnderscoredDigits(a + "_" + b)
  {
    var u := a + "_" + b;
    forall i | 0 <= i < |u|
      ensures IsAsciiDigit(u[i]) || u[i] == '_'
    {
      if i < |a| {
        assert u[i] == a[i];
      } else if i > |a| {
        assert u[i] == b[i - |a| - 1];
      }
    }
    forall i | 0 <= i < |a|
      ensures u[i] != '_'
    {
      assert u[i] == a[i];
      assert IsAsciiDigit(a[i]);
    }
    forall i | |a| < i < |u|
      ensures u[i] != '_'
    {
      assert u[i] == b[i - |a| - 1];
      assert IsAsciiDigit(b[i - |a| - 1]);
    }
    assert u[0] == a[0] && u[|u| - 1] == b[|b| - 1];
  }

  /** Removing the underscores of digits, one underscore, digits leaves the
      two runs joined. */
  lemma {:induction false} UnderscoredDigitsJoin(a: string, b: string)
    requires IsDigits(a) && IsDigits(b)
    ensures RemoveUnderscores(a + "_" + b) == a + b
  {
    RemoveUnderscoresAppend(a + "_", b);
    RemoveUnderscoresAppend(a, "_");
    assert forall i :: 0 <= i < |a| ==> a[i] != '_' by {
      forall i | 0 <= i < |a| ensures a[i] != '_' { assert IsAsciiDigit(a[i]); }
    }
    assert forall i :: 0 <= i < |b| ==> b[i] != '_' by {
      forall i | 0 <= i < |b| ensures b[i] != '_' { assert IsAsciiDigit(b[i]); }
    }
    assert RemoveUnderscores("_") == [];
  }

  /** A single underscore between two runs of digits is read as if it were
      not there: `int("4_094")` is 4094. */
  lemma {:induction false} UnderscoredValue(a: string, b: string)
    requires IsDigits(a) && IsDigits(b)
    ensures UnsignedValue(a + "_" + b) == if |a + b| <= MaxStrDigits then Some(DigitsValue(a + b)) else None
    ensures PyInt(a + "_" + b) == UnsignedValue(a + "_" + b)
  {
    var u := a + "_" + b;
    UnderscoredShape(a, b);
    UnderscoredDigitsJoin(a, b);
    assert u[0] == a[0] && u[|u| - 1] == b[|b| - 1];
    assert IsAsciiDigit(u[0]) && IsAsciiDigit(u[|u| - 1]);
    IntStripTrimmed(u);
  }

  /** Two underscores in a row make `int()` fail. */
  lemma {:induction false} DoubleUnderscoreRefused(a: string, b: string)
    requires IsDigits(a) && IsDigits(b)
    ensures UnsignedValue(a + "__" + b) == None
    ensures PyInt(a + "__" + b) == None
  {
    var u := a + "__" + b;
    assert u[|a|] == '_' && u[|a| + 1] == '_';
    assert u[0] == a[0] && u[|u| - 1] == b[|b| - 1];
    assert IsAsciiDigit(u[0]) && IsAsciiDigit(u[|u| - 1]);
    IntStripTrimmed(u);
  }

  /** `int()` only succeeds on a text holding a character that is not
      whitespace, and then `strip()` leaves something too. */
  lemma {:induction false} PyIntNotBlank(s: string)
    requires PyInt(s).Some?
    ensures !AllSpace(s) && Strip(s) != []
  {
    var t := IntStrip(s);
    var m := IntTrimStart(s);
    IntTrimStartSuffix(s);
    IntTrimEndPrefix(m);
    var j := if t[0] == '+' || t[0] == '-' then 1 else 0;
    assert IsAsciiDigit(t[j]);
    assert t[j] == m[j] == s[|s| - |m| + j];
    assert !IsSpace(s[|s| - |m| + j]);
    StripEmptyIffAllSpace(s);
  }

  /** `strip()` removes a leading U+001C but `int()` does not skip it, so the
      two disagree on `"\U{1C}5"`; a leading space is skipped by both. */
  lemma IntSkipsLessThanStrip()
    ensures Strip("\U{1C}5") == "5" && PyInt("\U{1C}5") == None
    ensures PyInt(" 5") == Some(5)
  {
    assert "\U{1C}5"[1..] == "5";
    assert IntStrip("\U{1C}5") == "\U{1C}5";
    assert " 5"[1..] == "5";
    assert IntTrimStart(" 5") == "5";
    assert IsDigits("5");
    PyIntDigits("5");
  }

  /** A leading zero counts toward the digit limit: 4300 zeros followed by
      `1` denote 1, but `int()` refuses them. */
  lemma LongNumeralRefused(g: string)
    requires IsDigits(g) && |g| > MaxStrDigits
    ensures PyInt(g) == None && PyInt(g + "\n") == None
  {
    PyIntDigits(g);
  }
}
