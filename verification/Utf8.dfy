/** UTF-8 by the syntax of section 4 of RFC 3629, and where a valid text may be cut. */
module Utf8 {

  type byte = b: int | 0 <= b < 256

  type bytes = seq<byte>

  /** `utf8.RuneStart`: not of the form 10xxxxxx. */
  predicate RuneStart(b: byte) {
    b < 0x80 || b >= 0xC0
  }

  predicate Tail(b: byte) {
    0x80 <= b <= 0xBF
  }

  /** Length of the UTF8-char that starts `s`, or 0. */
  function FirstRune(s: bytes): (n: nat)
    ensures n <= 4 && n <= |s|
    ensures n > 0 ==> RuneStart(s[0]) && forall i :: 1 <= i < n ==> !RuneStart(s[i])
  {
    if s == [] then 0
    else if s[0] <= 0x7F then 1
    else if 0xC2 <= s[0] <= 0xDF then (if |s| >= 2 && Tail(s[1]) then 2 else 0)
    else if 0xE0 <= s[0] <= 0xEF then
      if |s| >= 3 && Tail(s[1]) && Tail(s[2]) && (s[0] == 0xE0 ==> s[1] >= 0xA0) && (s[0] == 0xED ==> s[1] <= 0x9F)
      then 3 else 0
    else if 0xF0 <= s[0] <= 0xF4 then
      if |s| >= 4 && Tail(s[1]) && Tail(s[2]) && Tail(s[3]) && (s[0] == 0xF0 ==> s[1] >= 0x90) && (s[0] == 0xF4 ==> s[1] <= 0x8F)
      then 4 else 0
    else 0
  }

  /** `utf8.Valid`: UTF8-octets = *( UTF8-char ). */
  predicate Valid(s: bytes) {
    s == [] || (FirstRune(s) > 0 && Valid(s[FirstRune(s)..]))
  }

  /** In a valid text every rune start is a boundary between valid texts. */
  lemma {:induction false} StartIsBoundary(s: bytes, k: nat)
    requires Valid(s) && k < |s| && RuneStart(s[k])
    ensures Valid(s[..k]) && Valid(s[k..])
    decreases |s|
  {
    var n := FirstRune(s);
    if k > 0 {
      assert n <= k;
      assert FirstRune(s[..k]) == n;
      assert s[..k][n..] == s[n..][..k - n];
      assert s[n..][k - n..] == s[k..];
      if k < |s| {
        assert s[n..][k - n] == s[k];
        StartIsBoundary(s[n..], k - n);
      }
    } else {
      assert s[..0] == [] && s[0..] == s;
    }
  }

  /** Four octets in a row of a valid text contain a rune start. */
  lemma {:induction false} StartNearby(s: bytes, k: nat) returns (j: nat)
    requires Valid(s) && k < |s|
    ensures j <= k <= j + 3 && RuneStart(s[j])
    decreases |s|
  {
    var n := FirstRune(s);
    if k < n {
      j := 0;
    } else {
      var i := StartNearby(s[n..], k - n);
      j := n + i;
    }
  }
}
