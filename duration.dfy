/** `parseDuration` of index.js: a human duration such as "15m", "2h", "1d" in
    milliseconds, or null. Once the input is trimmed it must be one or more ASCII
    digits, then any white space, then one unit letter s, m, h or d in either case,
    and nothing else. */
module Duration {
  import opened Common
  import opened Text

  predicate IsUnitChar(c: char) {
    c in "smhdSMHD"
  }

  /** The multiplier table: seconds, minutes, hours, days, in milliseconds. */
  function UnitMillis(c: char): nat
    requires IsUnitChar(c)
  {
    if c == 's' || c == 'S' then 1000
    else if c == 'm' || c == 'M' then 60000
    else if c == 'h' || c == 'H' then 3600000
    else 86400000
  }

  /** `t` is digits `d`, then white space `sp`, then the unit letter `u`. */
  ghost predicate DurationShape(t: string, d: string, sp: string, u: char) {
    t == d + sp + [u] && IsDigitString(d) && AllSpace(sp, JavaScript) && IsUnitChar(u)
  }

  function ParseDuration(str: string): (r: Option<nat>)
  {
    var t := JsTrim(str);
    if |t| < 2 || !IsUnitChar(t[|t| - 1]) then None
    else
      var body := t[..|t| - 1];
      var k := LeadingDigits(body);
      if k == 0 || !AllSpace(body[k..], JavaScript) then None
      else Some(DigitsValue(body[..k]) * UnitMillis(t[|t| - 1]))
  }

  /** Every accepted string has the grammar's shape once trimmed, and its value is
      the number times the unit's multiplier. */
  lemma ParseDurationSound(str: string)
    requires ParseDuration(str).Some?
    ensures exists d, sp, u ::
              DurationShape(JsTrim(str), d, sp, u) && ParseDuration(str).value == DigitsValue(d) * UnitMillis(u)
  {
    var t := JsTrim(str);
    var body := t[..|t| - 1];
    var k := LeadingDigits(body);
    var d, sp, u := body[..k], body[k..], t[|t| - 1];
    assert t == d + sp + [u];
    assert DurationShape(t, d, sp, u);
  }

  /** Every string of the grammar's shape is accepted with that value. */
  lemma ParseDurationComplete(str: string, d: string, sp: string, u: char)
    requires DurationShape(JsTrim(str), d, sp, u)
    ensures ParseDuration(str) == Some(DigitsValue(d) * UnitMillis(u))
  {
    var t := JsTrim(str);
    var body := t[..|t| - 1];
    assert body == d + sp;
    LeadingDigitsOfShape(d, sp);
    assert body[..|d|] == d && body[|d|..] == sp;
  }

  lemma {:induction false} LeadingDigitsOfShape(d: string, sp: string)
    requires IsDigitString(d) && AllSpace(sp, JavaScript)
    ensures LeadingDigits(d + sp) == |d|
  {
    var s := d + sp;
    assert forall i :: 0 <= i < |d| ==> s[i] == d[i];
    if |sp| > 0 {
      assert s[|d|] == sp[0];
      assert !IsAsciiDigit(sp[0]);
    }
  }

  /** Trimming twice changes nothing, so pre-trimmed input parses the same. */
  lemma ParseDurationTrimInvariant(str: string)
    ensures ParseDuration(JsTrim(str)) == ParseDuration(str)
  {
    var t := JsTrim(str);
    StripUnchanged(t, JavaScript);
    assert JsTrim(t) == t;
  }

  /** Anything whose trimmed form does not end in a unit letter is rejected. */
  lemma ParseDurationNeedsUnit(str: string)
    requires var t := JsTrim(str); t == [] || !IsUnitChar(t[|t| - 1])
    ensures ParseDuration(str) == None
  {
  }

  /** A number written in decimal and followed directly by a unit letter, as in
      "15m" or "2h", is that number times the unit's multiplier. */
  lemma ParseDurationOfNumberAndUnit(n: nat, u: char)
    requires IsUnitChar(u)
    ensures ParseDuration(Decimal(n) + [u]) == Some(n * UnitMillis(u))
  {
    var d := Decimal(n);
    var t := d + [u];
    assert t[0] == d[0] && IsAsciiDigit(d[0]);
    assert !IsJsSpace(u);
    StripUnchanged(t, JavaScript);
    assert t == d + "" + [u];
    ParseDurationComplete(t, d, "", u);
  }
}
