/** The JavaScript string operations the core relies on, on `seq<char>`:
    `trim`, `toLowerCase`, `startsWith`, `includes`, `split`/`join` on one
    character, `replace` of the first occurrence, decimal `parseInt` and
    number-to-string. */
module Strings {
  import opened Base

  /** JavaScript's WhiteSpace and LineTerminator code points, the set `trim` removes. */
  predicate IsWhitespace(c: char)
  {
    c == ' ' || c == '\t' || c == '\n' || c == '\r' || c == '\U{000B}' || c == '\U{000C}'
    || c == '\U{00A0}' || c == '\U{1680}' || ('\U{2000}' <= c <= '\U{200A}')
    || c == '\U{2028}' || c == '\U{2029}' || c == '\U{202F}' || c == '\U{205F}'
    || c == '\U{3000}' || c == '\U{FEFF}'
  }

  function TrimStart(s: string): (r: string)
    ensures |r| <= |s|
  {
    if s != [] && IsWhitespace(s[0]) then TrimStart(s[1..]) else s
  }

  /** `TrimStart` removes exactly the leading whitespace: all of what it drops is
      whitespace, and what it keeps does not start with whitespace. */
  lemma {:induction false} TrimStartSpec(s: string)
    ensures var r := TrimStart(s);
      r == s[|s| - |r|..] && (r == [] || !IsWhitespace(r[0])) && forall i :: 0 <= i < |s| - |r| ==> IsWhitespace(s[i])
    decreases |s|
  {
    if s != [] && IsWhitespace(s[0]) {
      TrimStartSpec(s[1..]);
    }
  }

  function TrimEnd(s: string): (r: string)
    ensures |r| <= |s|
  {
    if s != [] && IsWhitespace(s[|s| - 1]) then TrimEnd(s[..|s| - 1]) else s
  }

  /** `TrimEnd` removes exactly the trailing whitespace. */
  lemma {:induction false} TrimEndSpec(s: string)
    ensures var r := TrimEnd(s);
      r == s[..|r|] && (r == [] || !IsWhitespace(r[|r| - 1])) && forall i :: |r| <= i < |s| ==> IsWhitespace(s[i])
    decreases |s|
  {
    if s != [] && IsWhitespace(s[|s| - 1]) {
      TrimEndSpec(s[..|s| - 1]);
    }
  }

  /** JavaScript `trim`: the text between the leading and trailing whitespace. */
  function Trim(s: string): (r: string)
    ensures |r| <= |s|
  {
    TrimEnd(TrimStart(s))
  }

  /** A trimmed text is a slice of the text that neither starts nor ends with whitespace,
      cut after the leading whitespace. */
  lemma TrimSpec(s: string)
    ensures var r := Trim(s); var a := |s| - |TrimStart(s)|;
      a + |r| <= |s| && r == s[a..a + |r|]
      && (r == [] || (!IsWhitespace(r[0]) && !IsWhitespace(r[|r| - 1])))
  {
    TrimStartSpec(s);
    TrimEndSpec(TrimStart(s));
  }

  /** Only an all-whitespace text trims to the empty text. */
  lemma TrimEmpty(s: string)
    ensures Trim(s) == [] <==> forall i :: 0 <= i < |s| ==> IsWhitespace(s[i])
  {
    var t := TrimStart(s);
    TrimStartSpec(s);
    TrimEndSpec(t);
    if TrimEnd(t) == [] {
      forall i | 0 <= i < |s| ensures IsWhitespace(s[i]) {
      }
    } else {
      assert TrimEnd(t)[0] == t[0] == s[|s| - |t|];
    }
  }

  predicate IsUpper(c: char) { 'A' <= c <= 'Z' }

  function LowerChar(c: char): char
  {
    if IsUpper(c) then (c as int - 'A' as int + 'a' as int) as char else c
  }

  /** `toLowerCase`, for the ASCII letters. */
  function ToLower(s: string): (r: string)
    ensures |r| == |s|
  {
    if s == [] then [] else [LowerChar(s[0])] + ToLower(s[1..])
  }

  /** Lowering maps every character on its own and leaves no upper-case letter. */
  lemma {:induction false} ToLowerSpec(s: string)
    ensures forall i :: 0 <= i < |s| ==> ToLower(s)[i] == LowerChar(s[i]) && !IsUpper(ToLower(s)[i])
    decreases |s|
  {
    if s != [] {
      ToLowerSpec(s[1..]);
      forall i | 0 <= i < |s| ensures ToLower(s)[i] == LowerChar(s[i]) && !IsUpper(ToLower(s)[i]) {
        if i > 0 {
          assert ToLower(s)[i] == ToLower(s[1..])[i - 1];
        }
      }
    }
  }

  predicate StartsWith(s: string, prefix: string)
  {
    |prefix| <= |s| && s[..|prefix|] == prefix
  }

  /** `includes`: the pattern occurs at some position. */
  predicate Contains(s: string, pattern: string)
    decreases |s|
  {
    StartsWith(s, pattern) || (s != [] && Contains(s[1..], pattern))
  }

  lemma {:induction false} ContainsAt(s: string, pattern: string, i: nat)
    requires i + |pattern| <= |s| && s[i..i + |pattern|] == pattern
    ensures Contains(s, pattern)
    decreases i
  {
    if i > 0 {
      assert s[1..][i - 1..i - 1 + |pattern|] == s[i..i + |pattern|];
      ContainsAt(s[1..], pattern, i - 1);
    }
  }

  /** `split` on one separator character: the pieces between separators, always at least one. */
  function Split(s: string, sep: char): (r: seq<string>)
    ensures |r| >= 1
    ensures forall k, j :: 0 <= k < |r| && 0 <= j < |r[k]| ==> r[k][j] != sep
    decreases |s|
  {
    if s == [] then [""]
    else if s[0] == sep then [""] + Split(s[1..], sep)
    else
      var rest := Split(s[1..], sep);
      [[s[0]] + rest[0]] + rest[1..]
  }

  /** `join` with one separator character. */
  function Join(parts: seq<string>, sep: char): string
  {
    if parts == [] then ""
    else if |parts| == 1 then parts[0]
    else parts[0] + [sep] + Join(parts[1..], sep)
  }

  /** Joining the pieces of a split gives the original text back. */
  lemma {:induction false} JoinSplit(s: string, sep: char)
    ensures Join(Split(s, sep), sep) == s
    decreases |s|
  {
    if s == [] {
    } else if s[0] == sep {
      JoinSplit(s[1..], sep);
      assert s == [sep] + s[1..];
    } else {
      var rest := Split(s[1..], sep);
      JoinSplit(s[1..], sep);
      var parts := Split(s, sep);
      assert parts == [[s[0]] + rest[0]] + rest[1..];
      if |rest| == 1 {
        assert Join(rest, sep) == rest[0];
      } else {
        assert parts[1..] == rest[1..];
        assert Join(rest, sep) == rest[0] + [sep] + Join(rest[1..], sep);
        assert s == [s[0]] + s[1..];
      }
    }
  }

  /** The first piece of a split is the text before the first separator, and the
      remaining pieces joined again are the text after it. */
  lemma SplitAtFirst(s: string, sep: char, i: nat)
    requires i < |s| && s[i] == sep && forall j :: 0 <= j < i ==> s[j] != sep
    ensures |Split(s, sep)| >= 2
    ensures Split(s, sep)[0] == s[..i]
    ensures Join(Split(s, sep)[1..], sep) == s[i + 1..]
  {
    var parts := Split(s, sep);
    JoinSplit(s, sep);
    assert |parts| != 1;
    assert s == parts[0] + [sep] + Join(parts[1..], sep);
    var p := parts[0];
    assert |p| == i by {
      assert |p| < |s| && s[|p|] == sep;
    }
    assert s[..i] == p;
    assert s[i + 1..] == Join(parts[1..], sep);
  }

  /** A word without the separator, the separator, then more text: the word is the first
      piece and the rest splits on its own. */
  lemma {:induction false} SplitAfterWord(w: string, sep: char, rest: string)
    requires forall j :: 0 <= j < |w| ==> w[j] != sep
    ensures Split(w + [sep] + rest, sep) == [w] + Split(rest, sep)
    decreases |w|
  {
    var s := w + [sep] + rest;
    if w == [] {
      assert s[0] == sep && s[1..] == rest;
    } else {
      assert s[0] == w[0] && s[1..] == w[1..] + [sep] + rest;
      SplitAfterWord(w[1..], sep, rest);
      assert [w[0]] + w[1..] == w;
    }
  }

  /** Without a separator, a split is the whole text. */
  lemma SplitNoSeparator(s: string, sep: char)
    requires forall j :: 0 <= j < |s| ==> s[j] != sep
    ensures Split(s, sep) == [s]
  {
    var parts := Split(s, sep);
    JoinSplit(s, sep);
    assert |parts| < 2;
    assert Join(parts, sep) == parts[0];
  }

  /** JavaScript `replace(pattern, replacement)` with a string pattern: the first occurrence only. */
  function ReplaceFirst(s: string, pattern: string, replacement: string): (r: string)
    requires pattern != []
    ensures !Contains(s, pattern) ==> r == s
    decreases |s|
  {
    if StartsWith(s, pattern) then replacement + s[|pattern|..]
    else if s == [] then s
    else [s[0]] + ReplaceFirst(s[1..], pattern, replacement)
  }

  /** The first occurrence is the one replaced: when nothing before an occurrence can
      begin the pattern, the text around it is kept and the pattern becomes the
      replacement. */
  lemma {:induction false} ReplaceFirstAt(p: string, pattern: string, replacement: string, q: string)
    requires pattern != []
    requires forall k :: 0 <= k < |p| ==> p[k] != pattern[0]
    ensures ReplaceFirst(p + pattern + q, pattern, replacement) == p + replacement + q
    decreases |p|
  {
    var s := p + pattern + q;
    if p == [] {
      assert s == pattern + q;
      assert s[..|pattern|] == pattern && s[|pattern|..] == q;
    } else {
      assert s[0] == p[0];
      assert !StartsWith(s, pattern);
      assert s[1..] == p[1..] + pattern + q;
      ReplaceFirstAt(p[1..], pattern, replacement, q);
      assert [s[0]] + (p[1..] + replacement + q) == p + replacement + q;
    }
  }

  predicate IsDigit(c: char) { '0' <= c <= '9' }

  predicate AllDigits(s: string) { forall i :: 0 <= i < |s| ==> IsDigit(s[i]) }

  function DigitValue(c: char): nat
    requires IsDigit(c)
  {
    c as int - '0' as int
  }

  function DigitChar(d: nat): (c: char)
    requires d < 10
    ensures IsDigit(c) && DigitValue(c) == d
  {
    ('0' as int + d) as char
  }

  /** The longest prefix made of decimal digits (what `\d+` or `parseInt` consume). */
  function DigitPrefix(s: string): (r: string)
    ensures |r| <= |s| && r == s[..|r|] && AllDigits(r)
    ensures |r| == |s| || !IsDigit(s[|r|])
  {
    if s != [] && IsDigit(s[0]) then
      var rest := DigitPrefix(s[1..]);
      assert s[..1 + |rest|] == [s[0]] + s[1..][..|rest|];
      [s[0]] + rest
    else ""
  }

  /** The value of a string of decimal digits. */
  function ParseDigits(s: string): nat
    requires AllDigits(s)
  {
    if s == [] then 0 else ParseDigits(s[..|s| - 1]) * 10 + DigitValue(s[|s| - 1])
  }

  /** The decimal text of a natural number, without leading zeros. */
  function ShowNat(n: nat): (r: string)
    ensures r != [] && AllDigits(r)
    ensures |r| > 1 ==> r[0] != '0'
  {
    if n < 10 then [DigitChar(n)] else ShowNat(n / 10) + [DigitChar(n % 10)]
  }

  /** The decimal text of an integer, as JavaScript prints a safe integer. */
  function ShowInt(i: int): string
  {
    if i < 0 then "-" + ShowNat(-i) else ShowNat(i)
  }

  lemma {:induction false} ParseShowNat(n: nat)
    ensures ParseDigits(ShowNat(n)) == n
    decreases n
  {
    if n >= 10 {
      var r := ShowNat(n);
      assert r[..|r| - 1] == ShowNat(n / 10);
      ParseShowNat(n / 10);
    }
  }

  lemma DigitPrefixOfDigitsThen(ds: string, rest: string)
    requires AllDigits(ds)
    requires rest == [] || !IsDigit(rest[0])
    ensures DigitPrefix(ds + rest) == ds
    decreases |ds|
  {
    if ds != [] {
      assert (ds + rest)[1..] == ds[1..] + rest;
      DigitPrefixOfDigitsThen(ds[1..], rest);
    }
  }

  /** What follows the sign starts with `0x` or `0X`: `parseInt` without a radix then
      reads hexadecimal digits after those two characters. */
  predicate HexPrefixed(u: string)
  {
    |u| >= 2 && u[0] == '0' && (u[1] == 'x' || u[1] == 'X')
  }

  predicate IsHexDigit(c: char) { IsDigit(c) || 'a' <= c <= 'f' || 'A' <= c <= 'F' }

  predicate AllHexDigits(s: string) { forall i :: 0 <= i < |s| ==> IsHexDigit(s[i]) }

  function HexDigitValue(c: char): (v: nat)
    requires IsHexDigit(c)
    ensures v < 16
    ensures IsDigit(c) ==> v == DigitValue(c)
  {
    if IsDigit(c) then DigitValue(c)
    else if 'a' <= c <= 'f' then c as int - 'a' as int + 10
    else c as int - 'A' as int + 10
  }

  /** The longest prefix made of hexadecimal digits. */
  function HexDigitPrefix(s: string): (r: string)
    ensures |r| <= |s| && r == s[..|r|] && AllHexDigits(r)
    ensures |r| == |s| || !IsHexDigit(s[|r|])
  {
    if s != [] && IsHexDigit(s[0]) then
      var rest := HexDigitPrefix(s[1..]);
      assert s[..1 + |rest|] == [s[0]] + s[1..][..|rest|];
      [s[0]] + rest
    else ""
  }

  /** The value of a string of hexadecimal digits. */
  function ParseHexDigits(s: string): nat
    requires AllHexDigits(s)
  {
    if s == [] then 0 else ParseHexDigits(s[..|s| - 1]) * 16 + HexDigitValue(s[|s| - 1])
  }

  lemma HexDigitPrefixOfDigitsThen(ds: string, rest: string)
    requires AllHexDigits(ds)
    requires rest == [] || !IsHexDigit(rest[0])
    ensures HexDigitPrefix(ds + rest) == ds
    decreases |ds|
  {
    if ds != [] {
      assert (ds + rest)[1..] == ds[1..] + rest;
      HexDigitPrefixOfDigitsThen(ds[1..], rest);
    }
  }

  /** The digits `parseInt` consumes after the sign: hexadecimal ones after a `0x` or
      `0X`, decimal ones otherwise. */
  function NumeralDigits(u: string): string
  {
    if HexPrefixed(u) then HexDigitPrefix(u[2..]) else DigitPrefix(u)
  }

  /** JavaScript `parseInt` without a radix: skip leading whitespace and an optional sign;
      after `0x` or `0X` the longest run of hexadecimal digits, otherwise the longest run
      of decimal digits; `NaN` (None) when that run is empty (so also for a bare `0x`). */
  function ParseInt(s: string): (r: Option<int>)
    ensures var u := SignlessPart(TrimStart(s));
      r.None? <==> (if HexPrefixed(u) then HexDigitPrefix(u[2..]) == [] else DigitPrefix(u) == [])
    ensures r.Some? && r.value < 0 ==> TrimStart(s) != [] && TrimStart(s)[0] == '-'
  {
    var t := TrimStart(s);
    var u := SignlessPart(t);
    var ds := NumeralDigits(u);
    if ds == [] then None
    else
      var magnitude: nat := if HexPrefixed(u) then ParseHexDigits(ds) else ParseDigits(ds);
      if t != [] && t[0] == '-' then Some(-(magnitude as int)) else Some(magnitude)
  }

  function SignlessPart(t: string): string
  {
    if t != [] && (t[0] == '-' || t[0] == '+') then t[1..] else t
  }

  lemma NoSignOrSpace(ds: string, tail: string)
    requires ds != [] && AllDigits(ds)
    ensures TrimStart(ds + tail) == ds + tail && SignlessPart(ds + tail) == ds + tail
  {
    assert (ds + tail)[0] == ds[0];
  }

  /** A number other than zero is written without a leading zero. */
  lemma ShowNatLeadingDigit(n: nat)
    requires n > 0
    ensures ShowNat(n)[0] != '0'
  {
    if n < 10 {
      assert ShowNat(n) == [DigitChar(n)];
    }
  }

  /** `0x` or `0X` followed by hexadecimal digits (and text that does not start with one)
      reads as their hexadecimal value; with no such digit, as `NaN`. */
  lemma ParseIntHexThen(x: char, ds: string, tail: string)
    requires x == 'x' || x == 'X'
    requires AllHexDigits(ds)
    requires tail == [] || !IsHexDigit(tail[0])
    ensures ParseInt("0" + [x] + ds + tail) == if ds == [] then None else Some(ParseHexDigits(ds))
  {
    var s := "0" + [x] + ds + tail;
    assert s[0] == '0' && s[1] == x;
    assert TrimStart(s) == s;
    assert s[2..] == ds + tail;
    HexDigitPrefixOfDigitsThen(ds, tail);
  }

  /** `parseInt("0x10")` is sixteen and `parseInt("0x")` is NaN. */
  lemma ParseIntHexExamples()
    ensures ParseInt("0x10") == Some(16)
    ensures ParseInt("0x") == None
  {
    ParseIntHexThen('x', "10", "");
    assert "0" + ['x'] + "10" + "" == "0x10";
    ParseIntHexThen('x', "", "");
    assert "0" + ['x'] + "" + "" == "0x";
  }

  lemma ParseIntShowNatThen(n: nat, tail: string)
    requires tail == [] || !IsDigit(tail[0])
    requires n == 0 && tail != [] ==> tail[0] != 'x' && tail[0] != 'X'
    ensures ParseInt(ShowNat(n) + tail) == Some(n)
  {
    var ds := ShowNat(n);
    var s := ds + tail;
    NoSignOrSpace(ds, tail);
    if n > 0 {
      ShowNatLeadingDigit(n);
    } else {
      assert ds == "0";
    }
    assert !HexPrefixed(s);
    DigitPrefixOfDigitsThen(ds, tail);
    ParseShowNat(n);
    assert ParseInt(s) == Some(ParseDigits(ds));
  }

  lemma ParseIntShowNegativeThen(n: nat, tail: string)
    requires n > 0
    requires tail == [] || !IsDigit(tail[0])
    ensures ParseInt("-" + ShowNat(n) + tail) == Some(-(n as int))
  {
    var s := "-" + ShowNat(n) + tail;
    assert s[0] == '-';
    assert TrimStart(s) == s;
    assert s[1..] == ShowNat(n) + tail;
    ShowNatLeadingDigit(n);
    assert !HexPrefixed(s[1..]);
    DigitPrefixOfDigitsThen(ShowNat(n), tail);
    ParseShowNat(n);
  }

  /** `parseInt` reads back what number-to-string prints, also when text follows that
      does not start with a digit (nor, after a zero, with `x` or `X`). */
  lemma ParseIntShowIntThen(i: int, tail: string)
    requires tail == [] || !IsDigit(tail[0])
    requires i == 0 && tail != [] ==> tail[0] != 'x' && tail[0] != 'X'
    ensures ParseInt(ShowInt(i) + tail) == Some(i)
  {
    var n: nat := if i < 0 then -i else i;
    var shown := ShowInt(i);
    if i < 0 {
      assert shown == "-" + ShowNat(n);
      ParseIntShowNegativeThen(n, tail);
    } else {
      assert shown == ShowNat(n);
      ParseIntShowNatThen(n, tail);
    }
  }

  /** `parseInt` reads back what number-to-string prints. */
  lemma ParseIntShowInt(i: int)
    ensures ParseInt(ShowInt(i)) == Some(i)
  {
    ParseIntShowIntThen(i, "");
    assert ShowInt(i) + "" == ShowInt(i);
  }
}
