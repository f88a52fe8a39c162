/**
 * The waybill format check of `fetchShipment`: the unanchored regular expression
 * `/GFRT-\d{6}-[A-Z]{3}/` (script.js:108). Unanchored means that some window of
 * 15 characters, anywhere in the string, must match; `\d` and `[A-Z]` are ASCII
 * classes because the expression has no `u` flag.
 */
module Waybill {

  /** Length of a match: "GFRT-", six digits, "-", three letters. */
  const MatchLength: nat := 15

  predicate IsAsciiDigit(c: char) { '0' <= c <= '9' }

  predicate IsAsciiUpper(c: char) { 'A' <= c <= 'Z' }

  /** The pattern matches the 15 characters of `s` starting at `i`. */
  predicate MatchesAt(s: string, i: nat)
    requires i + MatchLength <= |s|
  {
    s[i..i + 5] == "GFRT-" &&
    (forall k {:trigger IsAsciiDigit(s[k])} :: i + 5 <= k < i + 11 ==> IsAsciiDigit(s[k])) &&
    s[i + 11] == '-' &&
    (forall k {:trigger IsAsciiUpper(s[k])} :: i + 12 <= k < i + 15 ==> IsAsciiUpper(s[k]))
  }

  /** `/GFRT-\d{6}-[A-Z]{3}/.test(s)`. */
  predicate ValidWaybill(s: string)
    ensures ValidWaybill(s) ==> MatchLength <= |s|
  {
    exists i: nat :: i + MatchLength <= |s| && MatchesAt(s, i)
  }

  /** The canonical code matches. */
  lemma CanonicalCodeAccepted()
    ensures ValidWaybill("GFRT-123456-ABC")
  {
    var code := "GFRT-123456-ABC";
    assert code[0..5] == "GFRT-";
    assert MatchesAt(code, 0);
  }

  /** Short input, lower-case letters and a missing digit are all rejected. */
  lemma MalformedCodesRejected()
    ensures !ValidWaybill("BAD-1")
    ensures !ValidWaybill("GFRT-123456-abc")
    ensures !ValidWaybill("GFRT-12345-ABCD")
  {
    var lower := "GFRT-123456-abc";
    assert !IsAsciiUpper(lower[12]);
    var short := "GFRT-12345-ABCD";
    assert !IsAsciiDigit(short[10]);
  }

  /** Because the pattern is unanchored, surrounding text never turns a match into a mismatch. */
  lemma EmbeddedCodeAccepted(s: string, before: string, after: string)
    requires ValidWaybill(s)
    ensures ValidWaybill(before + s + after)
  {
    var i: nat :| i + MatchLength <= |s| && MatchesAt(s, i);
    var t := before + s + after;
    var j: nat := |before| + i;
    forall k | j <= k < j + MatchLength
      ensures t[k] == s[k - |before|]
    {
    }
    assert t[j..j + 5] == s[i..i + 5];
    assert MatchesAt(t, j);
  }

  /** For a string of exactly 15 characters the test is a whole-string match. */
  lemma ExactLengthIsWholeMatch(s: string)
    requires |s| == MatchLength
    ensures ValidWaybill(s) <==> MatchesAt(s, 0)
  {
    if MatchesAt(s, 0) {
      assert 0 + MatchLength <= |s|;
    }
  }
}
