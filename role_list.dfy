/** `parse_role_list` of bot.py: a comma-separated list of role ids as typed into the
    setup command. The input is stripped; a blank input gives no ids; otherwise each
    comma-separated fragment is stripped, blank fragments are dropped, and each
    remaining fragment that `int()` accepts gives one id, in order. Fragments that
    `int()` rejects are skipped. */
module RoleList {
  import opened Common
  import opened Text

  predicate IsDigitOrUnderscore(c: char) {
    IsAsciiDigit(c) || c == '_'
  }

  /** The digits of `s` with the underscores taken out. */
  function Digits(s: string): (r: string)
    requires forall i :: 0 <= i < |s| ==> IsDigitOrUnderscore(s[i])
    ensures forall i :: 0 <= i < |r| ==> IsAsciiDigit(r[i])
  {
    if s == [] then []
    else
      var rest := Digits(s[1..]);
      if s[0] == '_' then rest
      else
        assert IsDigitOrUnderscore(s[0]);
        assert forall i :: 1 <= i <= |rest| ==> ([s[0]] + rest)[i] == rest[i - 1];
        [s[0]] + rest
  }

  /** What Python's `int()` accepts after its sign: digits, with single underscores
      allowed between two digits. */
  predicate IsUnderscoredDigits(s: string) {
    && |s| > 0
    && IsAsciiDigit(s[0]) && IsAsciiDigit(s[|s| - 1])
    && (forall i :: 0 <= i < |s| ==> IsDigitOrUnderscore(s[i]))
    && (forall i :: 0 <= i < |s| - 1 ==> !(s[i] == '_' && s[i + 1] == '_'))
  }

  /** Python's `int(p)` in base 10 on an already stripped fragment: an optional sign,
      then underscored digits; `None` is the `ValueError` the loop swallows. */
  function PyInt(p: string): (r: Option<int>)
    ensures r.Some? <==>
              || IsUnderscoredDigits(p)
              || (|p| > 0 && (p[0] == '+' || p[0] == '-') && IsUnderscoredDigits(p[1..]))
    ensures r.Some? && p[0] == '-' ==> r.value <= 0
    ensures r.Some? && p[0] != '-' ==> r.value >= 0
    ensures r.Some? && (p[0] == '+' || p[0] == '-') ==> PyInt(p[1..]) == Some(if p[0] == '-' then -r.value else r.value)
  {
    if |p| > 0 && (p[0] == '+' || p[0] == '-') then
      var body := p[1..];
      if IsUnderscoredDigits(body) then
        var n: int := DigitsValue(Digits(body));
        Some(if p[0] == '-' then -n else n)
      else None
    else if IsUnderscoredDigits(p) then Some(DigitsValue(Digits(p)))
    else None
  }

  /** The fragments stripped, with the blank ones dropped. */
  function NonBlank(pieces: seq<string>): (r: seq<string>)
    ensures |r| <= |pieces|
    ensures forall k :: 0 <= k < |r| ==> r[k] != []
  {
    if pieces == [] then []
    else
      var p := PyStrip(pieces[|pieces| - 1]);
      NonBlank(pieces[..|pieces| - 1]) + (if p == [] then [] else [p])
  }

  /** The ids of the fragments `int()` accepts, in order. */
  function IntsOf(parts: seq<string>): (r: seq<int>)
    ensures |r| <= |parts|
  {
    if parts == [] then []
    else
      var n := PyInt(parts[|parts| - 1]);
      IntsOf(parts[..|parts| - 1]) + (if n.Some? then [n.value] else [])
  }

  /** The list `parse_role_list(s)` returns. */
  function RoleListOf(s: string): seq<int> {
    var t := PyStrip(s);
    if t == [] then [] else IntsOf(NonBlank(Split(t, ',')))
  }

  lemma NonBlankStep(pieces: seq<string>, i: nat)
    requires i < |pieces|
    ensures var p := PyStrip(pieces[i]);
            NonBlank(pieces[..i + 1]) == NonBlank(pieces[..i]) + (if p == [] then [] else [p])
  {
    assert pieces[..i + 1][..i] == pieces[..i];
  }

  /** The list comprehension that strips each fragment and drops the blank ones. */
  method StripFragments(pieces: seq<string>) returns (parts: seq<string>)
    ensures parts == NonBlank(pieces)
  {
    parts := [];
    var i := 0;
    while i < |pieces|
      invariant 0 <= i <= |pieces|
      invariant parts == NonBlank(pieces[..i])
    {
      var p := PyStrip(pieces[i]);
      NonBlankStep(pieces, i);
      if p != [] {
        parts := parts + [p];
      }
      i := i + 1;
    }
    assert pieces[..i] == pieces;
  }

  /** The loop that appends `int(p)` for each fragment and passes over a `ValueError`. */
  method ParseInts(parts: seq<string>) returns (out: seq<int>)
    ensures out == IntsOf(parts)
  {
    out := [];
    var j := 0;
    while j < |parts|
      invariant 0 <= j <= |parts|
      invariant out == IntsOf(parts[..j])
    {
      var n := PyInt(parts[j]);
      if n.Some? {
        out := out + [n.value];
      }
      j := j + 1;
      assert parts[..j][..j - 1] == parts[..j - 1];
    }
    assert parts[..j] == parts;
  }

  method ParseRoleList(s: string) returns (out: seq<int>)
    ensures out == RoleListOf(s)
  {
    var t := PyStrip(s);
    if t == [] {
      return [];
    }
    var parts := StripFragments(Split(t, ','));
    out := ParseInts(parts);
  }

  /** A blank or white-space-only string gives no ids. */
  lemma BlankGivesNothing(s: string)
    requires AllSpace(s, Python)
    ensures RoleListOf(s) == []
  {
  }

  /** Fragments that are not integers are skipped, and the ones around them kept. */
  lemma {:induction false} IntsOfAppend(a: seq<string>, b: seq<string>)
    ensures IntsOf(a + b) == IntsOf(a) + IntsOf(b)
    decreases |b|
  {
    if b == [] {
      assert a + b == a;
    } else {
      var last := |b| - 1;
      assert (a + b)[..|a + b| - 1] == a + b[..last];
      IntsOfAppend(a, b[..last]);
    }
  }

  lemma {:induction false} DigitsOfDigitString(d: string)
    requires forall i :: 0 <= i < |d| ==> IsAsciiDigit(d[i])
    ensures Digits(d) == d
  {
    if d != [] {
      DigitsOfDigitString(d[1..]);
      assert [d[0]] + d[1..] == d;
    }
  }

  /** `int(str(n)) == n`. */
  lemma PyIntOfDecimal(n: nat)
    ensures PyInt(Decimal(n)) == Some(n)
  {
    var d := Decimal(n);
    assert IsAsciiDigit(d[0]);
    DigitsOfDigitString(d);
  }

  /** `str(n)` has no white space at either end, so stripping leaves it alone. */
  lemma StripDecimal(n: nat)
    ensures PyStrip(Decimal(n)) == Decimal(n)
  {
    var d := Decimal(n);
    assert IsAsciiDigit(d[0]) && IsAsciiDigit(d[|d| - 1]);
    StripUnchanged(d, Python);
  }

  function Decimals(xs: seq<nat>): (r: seq<string>)
    ensures |r| == |xs|
    ensures forall k :: 0 <= k < |xs| ==> r[k] == Decimal(xs[k])
  {
    if xs == [] then [] else Decimals(xs[..|xs| - 1]) + [Decimal(xs[|xs| - 1])]
  }

  lemma {:induction false} NonBlankDecimals(xs: seq<nat>)
    ensures NonBlank(Decimals(xs)) == Decimals(xs)
  {
    if xs != [] {
      var last := |xs| - 1;
      assert Decimals(xs)[..last] == Decimals(xs[..last]);
      NonBlankDecimals(xs[..last]);
      StripDecimal(xs[last]);
    }
  }

  lemma {:induction false} IntsOfDecimals(xs: seq<nat>)
    ensures IntsOf(Decimals(xs)) == xs
  {
    if xs != [] {
      var last := |xs| - 1;
      assert Decimals(xs)[..last] == Decimals(xs[..last]);
      IntsOfDecimals(xs[..last]);
      PyIntOfDecimal(xs[last]);
      assert xs[..last] + [xs[last]] == xs;
    }
  }

  /** The first character of a join is the first character of its first part, and
      the last character that of its last part, when these are not empty. */
  lemma {:induction false} JoinEnds(parts: seq<string>, sep: string)
    requires |parts| > 0 && forall k :: 0 <= k < |parts| ==> parts[k] != []
    ensures var j := Join(parts, sep);
            |j| > 0 && j[0] == parts[0][0] && j[|j| - 1] == parts[|parts| - 1][|parts[|parts| - 1]| - 1]
  {
    if |parts| > 1 {
      JoinEnds(parts[1..], sep);
    }
  }

  /** Writing ids out in decimal, joined by commas, and parsing them gives them back. */
  lemma RoundTrip(xs: seq<nat>)
    ensures RoleListOf(Join(Decimals(xs), ",")) == xs
  {
    var parts := Decimals(xs);
    var text := Join(parts, ",");
    if xs == [] {
      assert text == "";
    } else {
      forall k | 0 <= k < |parts|
        ensures parts[k] != [] && ',' !in parts[k]
      {
        assert IsDigitString(parts[k]);
      }
      JoinEnds(parts, ",");
      assert IsDigitString(parts[0]) && IsDigitString(parts[|parts| - 1]);
      StripUnchanged(text, Python);
      SplitJoin(parts, ',');
      NonBlankDecimals(xs);
      IntsOfDecimals(xs);
    }
  }
}
