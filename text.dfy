/** String operations of Python 2 that credmap.py relies on, over `seq<char>`. */
module Text {

  /** `s` begins with `p` (`s.startswith(p)`). */
  predicate StartsWith(s: string, p: string) {
    |p| <= |s| && s[..|p|] == p
  }

  /** Python's `needle in haystack` on two strings: substring containment.
      The empty string is contained in every string. */
  predicate Contains(haystack: string, needle: string)
    decreases |haystack|
  {
    StartsWith(haystack, needle) || (|haystack| > 0 && Contains(haystack[1..], needle))
  }

  /** `needle` stands in `haystack` at offset `k`. */
  predicate OccursAt(haystack: string, needle: string, k: nat) {
    k + |needle| <= |haystack| && haystack[k..k + |needle|] == needle
  }

  /** `in` is substring containment: `needle` stands at some offset of
      `haystack`. */
  lemma {:induction false} ContainsSpec(haystack: string, needle: string)
    ensures Contains(haystack, needle) <==> exists k: nat :: OccursAt(haystack, needle, k)
    decreases |haystack|
  {
    if |haystack| > 0 {
      ContainsSpec(haystack[1..], needle);
    }
    if Contains(haystack, needle) {
      if StartsWith(haystack, needle) {
        assert OccursAt(haystack, needle, 0);
      } else {
        var k: nat :| OccursAt(haystack[1..], needle, k);
        assert haystack[k + 1..k + 1 + |needle|] == haystack[1..][k..k + |needle|];
        assert OccursAt(haystack, needle, k + 1);
      }
    }
    if exists k: nat :: OccursAt(haystack, needle, k) {
      var k: nat :| OccursAt(haystack, needle, k);
      if k > 0 {
        assert haystack[1..][k - 1..k - 1 + |needle|] == haystack[k..k + |needle|];
        assert OccursAt(haystack[1..], needle, k - 1);
      }
    }
  }

  const Xml: string := ".xml"

  /** `name.replace(".xml", "")`: every non-overlapping occurrence of ".xml",
      scanning from the left, is removed. */
  function StripXml(s: string): string
    decreases |s|
  {
    if |s| < 4 then s
    else if s[..4] == Xml then StripXml(s[4..])
    else [s[0]] + StripXml(s[1..])
  }

  /** A name in which ".xml" does not occur is left as it is. */
  lemma {:induction false} StripXmlKeepsPlainName(s: string)
    requires !Contains(s, Xml)
    ensures StripXml(s) == s
    decreases |s|
  {
    if |s| >= 4 {
      assert s[..4] != Xml;
      StripXmlKeepsPlainName(s[1..]);
      assert s == [s[0]] + s[1..];
    }
  }

  /** Removing ".xml" from `n + ".xml"` gives back `n` when ".xml" does not
      occur in `n`: ".xml" cannot overlap itself, so the appended suffix is
      the only occurrence the scan finds. */
  lemma {:induction false} StripXmlRoundTrip(n: string)
    requires !Contains(n, Xml)
    ensures StripXml(n + Xml) == n
    decreases |n|
  {
    var s := n + Xml;
    if n == [] {
      assert s[4..] == [];
    } else {
      if |n| >= 4 {
        assert s[..4] == n[..4];
      } else if |n| == 1 {
        assert s[1] == '.';
      } else if |n| == 2 {
        assert s[2] == '.';
      } else {
        assert s[3] == '.';
      }
      assert s[..4] != Xml;
      assert !Contains(n[1..], Xml);
      StripXmlRoundTrip(n[1..]);
      assert s[1..] == n[1..] + Xml;
      assert n == [n[0]] + n[1..];
    }
  }

  /** Python 2 `str.upper()` on one character in the C locale: only ASCII
      letters change. */
  function UpperChar(c: char): char {
    if 'a' <= c <= 'z' then (c as int - 32) as char else c
  }

  /** `s.upper()`. */
  function Upper(s: string): string {
    seq(|s|, i requires 0 <= i < |s| => UpperChar(s[i]))
  }

  /** The first index at or after `i` where `c` occurs, or `|s|` if none. */
  function FirstIndex(s: string, c: char, i: nat): (j: nat)
    requires i <= |s|
    ensures i <= j <= |s|
    ensures j < |s| ==> s[j] == c
    ensures forall k :: i <= k < j ==> s[k] != c
    decreases |s| - i
  {
    if i == |s| || s[i] == c then i else FirstIndex(s, c, i + 1)
  }

  /** `\d` of a byte-string regular expression: an ASCII digit. */
  predicate IsDigit(c: char) {
    '0' <= c <= '9'
  }

  /** The end of the longest run of digits starting at `i` (what a greedy
      `\d+` or `\d*` consumes). */
  function DigitRunEnd(s: string, i: nat): (j: nat)
    requires i <= |s|
    ensures i <= j <= |s|
    ensures j < |s| ==> !IsDigit(s[j])
    ensures forall k :: i <= k < j ==> IsDigit(s[k])
    decreases |s| - i
  {
    if i == |s| || !IsDigit(s[i]) then i else DigitRunEnd(s, i + 1)
  }

  predicate AllDigits(s: string) {
    forall k :: 0 <= k < |s| ==> IsDigit(s[k])
  }

  /** `int(ds)` for a string of decimal digits. */
  function DecimalValue(ds: string): nat
    requires AllDigits(ds)
    decreases |ds|
  {
    if ds == [] then 0
    else DecimalValue(ds[..|ds| - 1]) * 10 + (ds[|ds| - 1] as int - '0' as int)
  }
}
