/** Character classes and string helpers shared by the JavaScript and Python parts of
    the model: ASCII digits and their decimal value, the two languages' whitespace
    sets, stripping, and splitting on a separator. */
module Text {

  predicate IsAsciiDigit(c: char) {
    '0' <= c <= '9'
  }

  /** A non-empty run of ASCII digits: what the regular expression `^\d+$` accepts. */
  predicate IsDigitString(s: string) {
    |s| > 0 && forall i :: 0 <= i < |s| ==> IsAsciiDigit(s[i])
  }

  function DigitValue(c: char): nat
    requires IsAsciiDigit(c)
  {
    (c as int - '0' as int) as nat
  }

  /** Base-10 value of a string of ASCII digits (the empty string counts as 0). */
  function DigitsValue(s: string): nat
    requires forall i :: 0 <= i < |s| ==> IsAsciiDigit(s[i])
  {
    if s == [] then 0 else DigitsValue(s[..|s| - 1]) * 10 + DigitValue(s[|s| - 1])
  }

  function DigitChar(d: nat): (c: char)
    requires d < 10
    ensures IsAsciiDigit(c) && DigitValue(c) == d
  {
    ('0' as int + d) as char
  }

  /** The shortest decimal spelling of `n`, as `str(n)` or `String(n)` write it. */
  function Decimal(n: nat): (s: string)
    ensures IsDigitString(s)
    ensures DigitsValue(s) == n
  {
    if n < 10 then [DigitChar(n)] else Decimal(n / 10) + [DigitChar(n % 10)]
  }

  /** Number of leading ASCII digits of `s`. */
  function LeadingDigits(s: string): (k: nat)
    ensures k <= |s|
    ensures forall i :: 0 <= i < k ==> IsAsciiDigit(s[i])
    ensures k < |s| ==> !IsAsciiDigit(s[k])
  {
    if s == [] || !IsAsciiDigit(s[0]) then 0 else 1 + LeadingDigits(s[1..])
  }

  /** The white-space and line-terminator code points of ECMAScript: what
      `String.prototype.trim` removes and what `\s` matches. */
  predicate IsJsSpace(c: char) {
    ('\U{0009}' <= c <= '\U{000D}') || c == ' ' || c == '\U{00A0}' || c == '\U{1680}'
    || ('\U{2000}' <= c <= '\U{200A}')
    || c == '\U{2028}' || c == '\U{2029}' || c == '\U{202F}' || c == '\U{205F}'
    || c == '\U{3000}' || c == '\U{FEFF}'
  }

  /** The characters for which Python's `str.isspace` holds: what `str.strip()` removes. */
  predicate IsPySpace(c: char) {
    ('\U{0009}' <= c <= '\U{000D}') || ('\U{001C}' <= c <= '\U{001F}')
    || c == ' ' || c == '\U{0085}' || c == '\U{00A0}' || c == '\U{1680}'
    || ('\U{2000}' <= c <= '\U{200A}')
    || c == '\U{2028}' || c == '\U{2029}' || c == '\U{202F}' || c == '\U{205F}'
    || c == '\U{3000}'
  }

  /** Which language's notion of white space a strip uses. */
  datatype Dialect = JavaScript | Python

  predicate IsSpace(f: Dialect, c: char) {
    match f
    case JavaScript => IsJsSpace(c)
    case Python => IsPySpace(c)
  }

  predicate AllSpace(s: string, f: Dialect) {
    forall i :: 0 <= i < |s| ==> IsSpace(f, s[i])
  }

  function StripStart(s: string, f: Dialect): (r: string)
    ensures |r| <= |s| && r == s[|s| - |r|..]
    ensures AllSpace(s[..|s| - |r|], f)
    ensures r != [] ==> !IsSpace(f, r[0])
  {
    if s != [] && IsSpace(f, s[0]) then StripStart(s[1..], f) else s
  }

  function StripEnd(s: string, f: Dialect): (r: string)
    ensures |r| <= |s| && r == s[..|r|]
    ensures AllSpace(s[|r|..], f)
    ensures r != [] ==> !IsSpace(f, r[|r| - 1])
  {
    if s != [] && IsSpace(f, s[|s| - 1]) then StripEnd(s[..|s| - 1], f) else s
  }

  /** `s` with the leading and trailing space characters of dialect `f` removed. */
  function Strip(s: string, f: Dialect): (r: string)
    ensures r != [] ==> !IsSpace(f, r[0]) && !IsSpace(f, r[|r| - 1])
  {
    StripEnd(StripStart(s, f), f)
  }

  /** Strip removes exactly the white space at both ends: what is left is an infix of
      `s` with nothing but space characters before and after it. */
  lemma StripIsInfix(s: string, f: Dialect) returns (i: nat, j: nat)
    ensures i <= j <= |s|
    ensures Strip(s, f) == s[i..j]
    ensures AllSpace(s[..i], f) && AllSpace(s[j..], f)
  {
    var t := StripStart(s, f);
    var r := StripEnd(t, f);
    assert Strip(s, f) == r;
    i, j := |s| - |t|, |s| - |t| + |r|;
    InfixOfSuffixPrefix(s, t, r, f);
  }

  lemma InfixOfSuffixPrefix(s: string, t: string, r: string, f: Dialect)
    requires |t| <= |s| && t == s[|s| - |t|..]
    requires |r| <= |t| && r == t[..|r|]
    requires AllSpace(t[|r|..], f)
    ensures var j := |s| - |t| + |r|; r == s[|s| - |t|..j] && AllSpace(s[j..], f)
  {
    var j := |s| - |t| + |r|;
    assert s[j..] == t[|r|..];
  }

  /** A string that neither starts nor ends with a space character is left alone. */
  lemma {:induction false} StripUnchanged(s: string, f: Dialect)
    requires s != [] ==> !IsSpace(f, s[0]) && !IsSpace(f, s[|s| - 1])
    ensures Strip(s, f) == s
  {
  }

  function JsTrim(s: string): string {
    Strip(s, JavaScript)
  }

  function PyStrip(s: string): string {
    Strip(s, Python)
  }

  /** Python's `s.split(sep)`: the pieces between occurrences of `sep`, always at
      least one (`"".split(",") == [""]`). */
  function Split(s: string, sep: char): (r: seq<string>)
    ensures |r| > 0
    ensures forall k :: 0 <= k < |r| ==> sep !in r[k]
  {
    if s == [] then [""]
    else
      var rest := Split(s[1..], sep);
      if s[0] == sep then [""] + rest
      else [[s[0]] + rest[0]] + rest[1..]
  }

  /** `sep.join(parts)`. */
  function Join(parts: seq<string>, sep: string): string {
    if parts == [] then ""
    else if |parts| == 1 then parts[0]
    else parts[0] + sep + Join(parts[1..], sep)
  }

  /** A piece without the separator splits to itself. */
  lemma {:induction false} SplitNoSeparator(p: string, sep: char)
    requires sep !in p
    ensures Split(p, sep) == [p]
  {
    if p != [] {
      SplitNoSeparator(p[1..], sep);
      assert [p[0]] + p[1..] == p;
    }
  }

  /** Splitting `p + sep + rest` peels off `p` when `p` holds no separator. */
  lemma {:induction false} SplitCons(p: string, sep: char, rest: string)
    requires sep !in p
    ensures Split(p + [sep] + rest, sep) == [p] + Split(rest, sep)
  {
    if p == [] {
      assert p + [sep] + rest == [sep] + rest;
      assert ([sep] + rest)[1..] == rest;
    } else {
      var s := p + [sep] + rest;
      assert s[0] == p[0];
      assert s[1..] == p[1..] + [sep] + rest;
      SplitCons(p[1..], sep, rest);
      assert [p[0]] + p[1..] == p;
    }
  }

  /** `split` undoes `join` when no part contains the separator. */
  lemma {:induction false} SplitJoin(parts: seq<string>, sep: char)
    requires |parts| > 0
    requires forall k :: 0 <= k < |parts| ==> sep !in parts[k]
    ensures Split(Join(parts, [sep]), sep) == parts
  {
    if |parts| == 1 {
      SplitNoSeparator(parts[0], sep);
    } else {
      SplitJoin(parts[1..], sep);
      SplitCons(parts[0], sep, Join(parts[1..], [sep]));
      assert [parts[0]] + parts[1..] == parts;
    }
  }
}
