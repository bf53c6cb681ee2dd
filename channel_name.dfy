/** The ticket channel name of index.js: "ticket-", then the opener's user name in
    lower case with every character outside a-z and 0-9 removed and cut to its first
    12 characters, then "-" and a random suffix, which is passed in. */
module ChannelName {
  import opened Common

  /** The characters the name filter keeps: a-z and 0-9. */
  predicate IsNameChar(c: char) {
    ('a' <= c <= 'z') || ('0' <= c <= '9')
  }

  predicate AllNameChars(s: string) {
    forall i :: 0 <= i < |s| ==> IsNameChar(s[i])
  }

  /** What lower-casing one character and then filtering keeps of it. Besides the
      ASCII capitals, only two characters lower-case to something the filter keeps:
      the Kelvin sign (to `k`) and the capital I with dot above (to `i` followed by a
      combining dot, which the filter drops). */
  function KeptOf(c: char): (r: string)
    ensures |r| <= 1 && AllNameChars(r)
    ensures 'A' <= c <= 'Z' ==> r == [(c as int + 32) as char]
    ensures IsNameChar(c) ==> r == [c]
  {
    if 'A' <= c <= 'Z' then [(c as int + 32) as char]
    else if IsNameChar(c) then [c]
    else if c == '\U{212A}' then "k"
    else if c == '\U{0130}' then "i"
    else []
  }

  /** The user name lower-cased, with every character outside a-z and 0-9 removed. */
  function Kept(s: string): (r: string)
    ensures |r| <= |s| && AllNameChars(r)
  {
    if s == [] then [] else KeptOf(s[0]) + Kept(s[1..])
  }

  /** The first 12 characters, or all of them when there are fewer. */
  function Prefix12(s: string): (r: string)
    ensures |r| == if |s| <= 12 then |s| else 12
    ensures r == s[..|r|]
    ensures |s| <= 12 ==> r == s
  {
    if |s| <= 12 then s else s[..12]
  }

  function SafeName(username: string, suffix: string): string {
    "ticket-" + Prefix12(Kept(username)) + "-" + suffix
  }

  /** ASCII lower case, defined on its own: each capital A-Z becomes its small letter,
      every other character stays. */
  function AsciiLower(c: char): char {
    if 'A' <= c <= 'Z' then (c as int - 'A' as int + 'a' as int) as char else c
  }

  predicate IsAsciiAlnum(c: char) {
    ('a' <= c <= 'z') || ('A' <= c <= 'Z') || ('0' <= c <= '9')
  }

  /** The filter distributes over concatenation. */
  lemma {:induction false} KeptAppend(a: string, b: string)
    ensures Kept(a + b) == Kept(a) + Kept(b)
  {
    if a == [] {
      assert a + b == b;
    } else {
      assert (a + b)[0] == a[0];
      assert (a + b)[1..] == a[1..] + b;
      KeptAppend(a[1..], b);
      ConcatAssoc(KeptOf(a[0]), Kept(a[1..]), Kept(b));
    }
  }

  /** A name already made of lower-case letters and digits passes the filter unchanged. */
  lemma {:induction false} KeptOfNameChars(s: string)
    requires AllNameChars(s)
    ensures Kept(s) == s
  {
    if s != [] {
      KeptOfNameChars(s[1..]);
      assert [s[0]] + s[1..] == s;
    }
  }

  /** A name of ASCII letters and digits loses nothing: the filter gives exactly its
      ASCII lower case, so "Bob" gives "bob". */
  lemma {:induction false} KeptOfAsciiName(s: string)
    requires forall i :: 0 <= i < |s| ==> IsAsciiAlnum(s[i])
    ensures |Kept(s)| == |s|
    ensures forall i :: 0 <= i < |s| ==> Kept(s)[i] == AsciiLower(s[i])
  {
    if s != [] {
      KeptOfAsciiName(s[1..]);
      assert KeptOf(s[0]) == [AsciiLower(s[0])];
    }
  }

  /** Lower-casing and filtering twice is the same as once. */
  lemma KeptIdempotent(s: string)
    ensures Kept(Kept(s)) == Kept(s)
  {
    KeptOfNameChars(Kept(s));
  }

  /** The middle part of a channel name is the first 12 characters of the filtered
      user name (all of it when shorter), all lower-case ASCII letters or digits, and
      the name has the fixed prefix and the suffix. */
  lemma SafeNameShape(username: string, suffix: string)
    ensures var k := Kept(username);
            var n := if |k| <= 12 then |k| else 12;
            && AllNameChars(k[..n])
            && SafeName(username, suffix) == "ticket-" + k[..n] + "-" + suffix
  {
    var middle := Prefix12(Kept(username));
    assert AllNameChars(middle) by {
      forall i | 0 <= i < |middle|
        ensures IsNameChar(middle[i])
      {
        assert middle[i] == Kept(username)[i];
      }
    }
  }

  /** A short plain name is used as it is. */
  lemma SafeNameOfPlainName(username: string, suffix: string)
    requires |username| <= 12 && AllNameChars(username)
    ensures SafeName(username, suffix) == "ticket-" + username + "-" + suffix
  {
    KeptOfNameChars(username);
  }

  /** Every character outside `[a-z0-9]` that does not lower-case into it is dropped
      wherever it occurs. */
  lemma KeptIgnoresDropped(a: string, b: string, c: char)
    requires KeptOf(c) == []
    ensures Kept(a + [c] + b) == Kept(a + b)
  {
    var single := [c];
    assert single[1..] == [];
    assert Kept(single) == [];
    KeptAppend(a, single);
    assert Kept(a + single) == Kept(a);
    KeptAppend(a + single, b);
    KeptAppend(a, b);
  }

  /** So two user names that differ only in such characters give the same channel name. */
  lemma SafeNameIgnoresDropped(a: string, b: string, suffix: string, c: char)
    requires KeptOf(c) == []
    ensures SafeName(a + [c] + b, suffix) == SafeName(a + b, suffix)
  {
    KeptIgnoresDropped(a, b, c);
  }
}
