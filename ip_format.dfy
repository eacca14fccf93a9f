/** The self-contained dotted-quad checker of the current generator
    (`validar_formato_ip`): a regular-expression match for four dot-separated
    groups of one to three digits, then `int()` of every dot-separated piece
    must lie in 0..255. Nothing in the generators calls it; the address gate
    they do use is the library-backed check, a parameter of the generators. */
module IpFormat {
  import opened PyStrings

  /** Python's `$` also matches just before a newline that ends the string,
      so the pattern is matched against the text without that newline. */
  function PatternBody(s: string): (b: string)
    ensures b == s || b + "\n" == s
  {
    if |s| > 0 && s[|s| - 1] == '\n' then s[..|s| - 1] else s
  }

  /** The groups the pattern `^\d{1,3}\.\d{1,3}\.\d{1,3}\.\d{1,3}$` sees. */
  function Groups(s: string): seq<string> {
    Split(PatternBody(s), '.')
  }

  predicate MatchesQuadPattern(s: string) {
    var g := Groups(s);
    |g| == 4 && forall i :: 0 <= i < 4 ==> |g[i]| <= 3 && IsDigits(g[i])
  }

  predicate OctetInRange(piece: string) {
    PyInt(piece).Some? && 0 <= PyInt(piece).value <= 255
  }

  /** `validar_formato_ip`: the pattern check, then `int()` of every piece of
      `ip.split('.')` (of the text as given, trailing newline included). */
  predicate ValidFormatIp(s: string) {
    MatchesQuadPattern(s) &&
    var pieces := Split(s, '.');
    forall i :: 0 <= i < |pieces| ==> OctetInRange(pieces[i])
  }

  /** What the check means: four groups of one to three ASCII digits, dot
      separated and optionally followed by one newline, each denoting a
      number of at most 255. */
  lemma {:induction false} ValidFormatIpMeaning(s: string)
    ensures ValidFormatIp(s) <==> QuadInRange(s)
  {
    if MatchesQuadPattern(s) {
      var g := Groups(s);
      var pieces := Split(s, '.');
      PiecesReadAsGroups(s);
      OctetsMeaning(pieces, g);
    }
  }

  /** The reference reading of the check, on the groups of the pattern. */
  predicate QuadInRange(s: string) {
    MatchesQuadPattern(s) && GroupsAtMost255(Groups(s))
  }

  predicate GroupsAtMost255(g: seq<string>) {
    forall i :: 0 <= i < |g| ==> IsDigits(g[i]) && DigitsValue(g[i]) <= 255
  }

  /** `int()` of the i-th piece of `ip.split('.')` is the value of the i-th
      group of the pattern. */
  lemma {:induction false} PiecesReadAsGroups(s: string)
    requires MatchesQuadPattern(s)
    ensures var g, pieces := Groups(s), Split(s, '.');
      |pieces| == 4 &&
      forall i :: 0 <= i < 4 ==> PyInt(pieces[i]) == Some(DigitsValue(g[i]))
  {
    var b := PatternBody(s);
    var g := Groups(s);
    var pieces := Split(s, '.');
    if b == s {
      forall i | 0 <= i < 4 ensures PyInt(pieces[i]) == Some(DigitsValue(g[i])) {
        PyIntDigits(g[i]);
      }
    } else {
      SplitAppend(b, '.', '\n');
      assert pieces == g[..3] + [g[3] + "\n"];
      forall i | 0 <= i < 4 ensures PyInt(pieces[i]) == Some(DigitsValue(g[i])) {
        PyIntDigits(g[i]);
        if i < 3 { assert pieces[i] == g[i]; } else { assert pieces[i] == g[3] + "\n"; }
      }
    }
  }

  lemma OctetsMeaning(pieces: seq<string>, g: seq<string>)
    requires |pieces| == 4 == |g|
    requires forall i :: 0 <= i < 4 ==> IsDigits(g[i]) && PyInt(pieces[i]) == Some(DigitsValue(g[i]))
    ensures (forall i :: 0 <= i < |pieces| ==> OctetInRange(pieces[i])) <==> GroupsAtMost255(g)
  {
  }

  /** The text `a.b.c.d` with each number written in base ten. */
  function DottedQuad(a: nat, b: nat, c: nat, d: nat): string {
    Join4(Decimal(a), Decimal(b), Decimal(c), Decimal(d))
  }

  function Join4(g0: string, g1: string, g2: string, g3: string): string {
    g0 + "." + g1 + "." + g2 + "." + g3
  }

  lemma {:induction false} Join4Groups(g0: string, g1: string, g2: string, g3: string)
    requires IsDigits(g0) && IsDigits(g1) && IsDigits(g2) && IsDigits(g3)
    ensures Groups(Join4(g0, g1, g2, g3)) == [g0, g1, g2, g3]
  {
    var q := Join4(g0, g1, g2, g3);
    var t2 := g2 + ['.'] + g3;
    var t1 := g1 + ['.'] + t2;
    assert q == g0 + ['.'] + t1;
    assert q[|q| - 1] == g3[|g3| - 1];
    assert IsAsciiDigit(g3[|g3| - 1]);
    assert PatternBody(q) == q;
    NoDot(g0);
    NoDot(g1);
    NoDot(g2);
    NoDot(g3);
    SplitNoSep(g3, '.');
    SplitPrefix(g2, '.', g3);
    SplitPrefix(g1, '.', t2);
    SplitPrefix(g0, '.', t1);
  }

  lemma NoDot(g: string)
    requires IsDigits(g)
    ensures '.' !in g
  {
  }

  lemma {:induction false} SplitNoSep(s: string, sep: char)
    requires sep !in s
    ensures Split(s, sep) == [s]
  {
    if s != [] {
      assert s[0] in s;
      assert sep !in s[1..] by {
        forall k | 0 <= k < |s[1..]| ensures s[1..][k] != sep { assert s[1..][k] == s[k + 1]; }
      }
      SplitNoSep(s[1..], sep);
      assert [s[0]] + s[1..] == s;
    }
  }

  /** Four digit groups joined by dots pass exactly when each has at most
      three digits and denotes at most 255. */
  lemma {:induction false} Join4Valid(g0: string, g1: string, g2: string, g3: string)
    requires IsDigits(g0) && IsDigits(g1) && IsDigits(g2) && IsDigits(g3)
    ensures ValidFormatIp(Join4(g0, g1, g2, g3)) <==>
      && |g0| <= 3 && DigitsValue(g0) <= 255
      && |g1| <= 3 && DigitsValue(g1) <= 255
      && |g2| <= 3 && DigitsValue(g2) <= 255
      && |g3| <= 3 && DigitsValue(g3) <= 255
  {
    var q := Join4(g0, g1, g2, g3);
    Join4Groups(g0, g1, g2, g3);
    var g := Groups(q);
    assert g[0] == g0 && g[1] == g1 && g[2] == g2 && g[3] == g3;
    assert MatchesQuadPattern(q) <==> |g0| <= 3 && |g1| <= 3 && |g2| <= 3 && |g3| <= 3;
    assert GroupsAtMost255(g) <==>
      DigitsValue(g0) <= 255 && DigitsValue(g1) <= 255 && DigitsValue(g2) <= 255 && DigitsValue(g3) <= 255;
    ValidFormatIpMeaning(q);
  }

  /** A dotted quad of numbers passes exactly when every number is at most
      255. */
  lemma {:induction false} DottedQuadValid(a: nat, b: nat, c: nat, d: nat)
    ensures ValidFormatIp(DottedQuad(a, b, c, d)) <==> a <= 255 && b <= 255 && c <= 255 && d <= 255
  {
    DecimalLength(a);
    DecimalLength(b);
    DecimalLength(c);
    DecimalLength(d);
    DecimalValue(a);
    DecimalValue(b);
    DecimalValue(c);
    DecimalValue(d);
    Join4Valid(Decimal(a), Decimal(b), Decimal(c), Decimal(d));
  }

  /** The pattern's `$` lets one trailing newline through. */
  lemma {:induction false} TrailingNewlineAccepted(a: nat, b: nat, c: nat, d: nat)
    requires a <= 255 && b <= 255 && c <= 255 && d <= 255
    ensures ValidFormatIp(DottedQuad(a, b, c, d) + "\n")
  {
    var q := DottedQuad(a, b, c, d);
    assert PatternBody(q + "\n") == q by { assert (q + "\n")[..|q|] == q; }
    DottedQuadValid(a, b, c, d);
    ValidFormatIpMeaning(q);
    ValidFormatIpMeaning(q + "\n");
  }

  lemma ThreeDigits(g: string)
    requires |g| == 3 && IsDigits(g)
    ensures DigitsValue(g) == 100 * (g[0] as int - '0' as int) + 10 * (g[1] as int - '0' as int) + (g[2] as int - '0' as int)
  {
    assert g[..|g| - 1] == g[..2];
    assert g[..2][..|g[..2]| - 1] == g[..1];
    assert g[..1][..|g[..1]| - 1] == [];
    assert DigitsValue(g[..1]) == g[0] as int - '0' as int;
    assert DigitsValue(g[..2]) == 10 * (g[0] as int - '0' as int) + (g[1] as int - '0' as int);
  }

  /** Leading zeros are accepted, unlike in the library-backed check. */
  lemma LeadingZerosAccepted()
    ensures ValidFormatIp("010.001.000.255")
  {
    var g0, g1, g2, g3 := "010", "001", "000", "255";
    assert IsDigits(g0) && IsDigits(g1) && IsDigits(g2) && IsDigits(g3);
    ThreeDigits(g0);
    ThreeDigits(g1);
    ThreeDigits(g2);
    ThreeDigits(g3);
    Join4Valid(g0, g1, g2, g3);
    assert Join4(g0, g1, g2, g3) == "010.001.000.255";
  }
}
