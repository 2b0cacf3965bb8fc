/** The JavaScript string functions the repository relies on. */
module Text {
  import opened Prelude

  /** WhiteSpace and LineTerminator of ECMA-262, the characters `trim` and `parseInt` skip. */
  predicate IsBlank(c: char) {
    c in "\t\n\U{000B}\U{000C}\r \U{00A0}\U{1680}\U{2000}\U{2001}\U{2002}\U{2003}\U{2004}\U{2005}\U{2006}\U{2007}\U{2008}\U{2009}\U{200A}\U{2028}\U{2029}\U{202F}\U{205F}\U{3000}\U{FEFF}"
  }

  function TrimStart(s: string): (r: string)
    ensures r == [] || !IsBlank(r[0])
    ensures |r| <= |s|
  {
    if s != [] && IsBlank(s[0]) then TrimStart(s[1..]) else s
  }

  function TrimEnd(s: string): (r: string)
    ensures r == [] || !IsBlank(r[|r| - 1])
    ensures r <= s
  {
    if s != [] && IsBlank(s[|s| - 1]) then TrimEnd(s[..|s| - 1]) else s
  }

  function Trim(s: string): (r: string)
    ensures r == [] || (!IsBlank(r[0]) && !IsBlank(r[|r| - 1]))
  {
    TrimEnd(TrimStart(s))
  }

  /** A text `trim` leaves alone and the code does not take for missing. */
  predicate Trimmed(s: string) {
    s != [] && Trim(s) == s
  }

  lemma TrimStartFixed(s: string)
    requires s == [] || !IsBlank(s[0])
    ensures TrimStart(s) == s
  {
    hide IsBlank;
  }

  lemma TrimEndFixed(s: string)
    requires s == [] || !IsBlank(s[|s| - 1])
    ensures TrimEnd(s) == s
  {
    hide IsBlank;
  }

  lemma TrimIdempotent(s: string)
    ensures Trim(Trim(s)) == Trim(s)
  {
    hide IsBlank;
    hide TrimStart;
    hide TrimEnd;
    TrimStartFixed(Trim(s));
    TrimEndFixed(Trim(s));
  }

  /** Trimming takes away blanks at both ends, and nothing else. */
  lemma {:induction false} TrimStartIs(s: string) returns (a: string)
    ensures s == a + TrimStart(s) && forall c :: c in a ==> IsBlank(c)
  {
    hide IsBlank;
    if s != [] && IsBlank(s[0]) {
      a := TrimStartIs(s[1..]);
      a := [s[0]] + a;
      assert s == [s[0]] + s[1..];
    } else {
      a := [];
    }
  }

  lemma {:induction false} TrimEndIs(s: string)
    ensures forall i :: |TrimEnd(s)| <= i < |s| ==> IsBlank(s[i])
  {
    hide IsBlank;
    if s != [] && IsBlank(s[|s| - 1]) {
      TrimEndIs(s[..|s| - 1]);
    }
  }

  lemma TrimIs(s: string) returns (a: string, b: string)
    ensures s == a + Trim(s) + b && forall c :: c in a + b ==> IsBlank(c)
  {
    hide IsBlank;
    a := TrimStartIs(s);
    TrimEndIs(TrimStart(s));
    b := TrimStart(s)[|Trim(s)|..];
    assert a + (Trim(s) + b) == a + Trim(s) + b;
  }

  /** `toLowerCase`, as far as it makes ASCII letters: besides the capitals, the Kelvin sign and the dotted capital I
      turn into them. */
  function LowerCase(s: string): string {
    if s == [] then []
    else
      (if 'A' <= s[0] <= 'Z' then [(s[0] as int + 32) as char]
       else if s[0] == '\U{212A}' then "k"
       else if s[0] == '\U{0130}' then "i\U{0307}"
       else [s[0]]) + LowerCase(s[1..])
  }

  predicate Includes(s: string, word: string) {
    word <= s || (s != [] && Includes(s[1..], word))
  }

  lemma {:induction false} IncludesAt(s: string, word: string, i: nat)
    requires i + |word| <= |s| && s[i..i + |word|] == word
    ensures Includes(s, word)
  {
    if i > 0 {
      assert s[1..][i - 1..i - 1 + |word|] == word;
      IncludesAt(s[1..], word, i - 1);
    }
  }

  lemma {:induction false} LowerCaseAppend(a: string, b: string)
    ensures LowerCase(a + b) == LowerCase(a) + LowerCase(b)
  {
    if a == [] {
      assert a + b == b;
    } else {
      assert (a + b)[1..] == a[1..] + b;
      LowerCaseAppend(a[1..], b);
    }
  }

  /** `s.split(sep)` for a one-character separator: never empty. */
  function Split(s: string, sep: char): (r: seq<string>)
    ensures |r| >= 1
  {
    if s == [] then [[]]
    else
      var rest := Split(s[1..], sep);
      if s[0] == sep then [[]] + rest else [[s[0]] + rest[0]] + rest[1..]
  }

  lemma {:induction false} SplitPiece(a: string, sep: char)
    requires sep !in a
    ensures Split(a, sep) == [a]
  {
    if a != [] {
      SplitPiece(a[1..], sep);
      assert [a[0]] + a[1..] == a;
    }
  }

  lemma {:induction false} SplitAt(a: string, sep: char, b: string)
    requires sep !in a
    ensures Split(a + [sep] + b, sep) == [a] + Split(b, sep)
  {
    var s := a + [sep] + b;
    if a == [] {
      assert s[1..] == b;
    } else {
      assert s[1..] == a[1..] + [sep] + b;
      SplitAt(a[1..], sep, b);
      assert [a[0]] + a[1..] == a;
      assert ([a[1..]] + Split(b, sep))[1..] == Split(b, sep);
    }
  }

  predicate IsDigit(c: char) { '0' <= c <= '9' }

  function DigitValue(c: char): nat
    requires IsDigit(c)
  {
    c as nat - '0' as nat
  }

  function DigitChar(d: nat): (c: char)
    requires d < 10
    ensures IsDigit(c) && DigitValue(c) == d
  {
    ('0' as nat + d) as char
  }

  /** The leading digits of `s`. */
  function DigitPrefix(s: string): (r: string)
    ensures forall c :: c in r ==> IsDigit(c)
  {
    if s != [] && IsDigit(s[0]) then [s[0]] + DigitPrefix(s[1..]) else []
  }

  function DigitsValue(s: string): nat
    requires forall c :: c in s ==> IsDigit(c)
  {
    if s == [] then 0 else 10 * DigitsValue(s[..|s| - 1]) + DigitValue(s[|s| - 1])
  }

  /** `Number.parseInt(s, 10)`: blanks, a sign, then as many digits as there are; `None` is NaN. */
  function ParseInt10(s: string): Option<int> {
    var t := TrimStart(s);
    var signed := t != [] && (t[0] == '-' || t[0] == '+');
    var digits := DigitPrefix(if signed then t[1..] else t);
    if digits == [] then None
    else if signed && t[0] == '-' then Some(-(DigitsValue(digits) as int))
    else Some(DigitsValue(digits))
  }

  /** A number in a template literal. */
  function Decimal(n: nat): (r: string)
    ensures r != [] && forall c :: c in r ==> IsDigit(c)
  {
    if n < 10 then [DigitChar(n)] else Decimal(n / 10) + [DigitChar(n % 10)]
  }

  lemma {:induction false} DigitPrefixAll(s: string)
    requires forall c :: c in s ==> IsDigit(c)
    ensures DigitPrefix(s) == s
  {
    if s != [] {
      assert s[0] in s;
      DigitPrefixAll(s[1..]);
    }
  }

  lemma {:induction false} DecimalValue(n: nat)
    ensures DigitsValue(Decimal(n)) == n
  {
    if n < 10 {
      assert DigitsValue([]) == 0;
    } else {
      DecimalValue(n / 10);
      var r := Decimal(n);
      assert r[..|r| - 1] == Decimal(n / 10);
    }
  }

  lemma ParseDecimal(n: nat)
    ensures ParseInt10(Decimal(n)) == Some(n)
  {
    var r := Decimal(n);
    assert r[0] in r;
    assert TrimStart(r) == r;
    DigitPrefixAll(r);
    DecimalValue(n);
    hide Decimal;
    hide DigitPrefix;
    hide DigitsValue;
    hide TrimStart;
  }
}
