/** Character classes and prefixes of strings. */
module Strings {

  predicate IsLetter(c: char) { 'a' <= c <= 'z' }

  predicate IsDigit(c: char) { '0' <= c <= '9' }

  predicate All(p: char -> bool, s: string) {
    forall i :: 0 <= i < |s| ==> p(s[i])
  }

  /** The length of the longest prefix of such characters. */
  function Leading(p: char -> bool, s: string): (n: nat)
    ensures n <= |s| && All(p, s[..n]) && (n < |s| ==> !p(s[n]))
  {
    if s == "" || !p(s[0]) then 0
    else
      var n := Leading(p, s[1..]);
      assert s[..n+1] == [s[0]] + s[1..][..n];
      n + 1
  }

  lemma {:induction false} LeadingIs(p: char -> bool, s: string, k: nat)
    requires k <= |s| && All(p, s[..k]) && (k < |s| ==> !p(s[k]))
    ensures Leading(p, s) == k
  {
    if k > 0 {
      assert s[..k][0] == s[0] && s[1..][..k-1] == s[..k][1..];
      LeadingIs(p, s[1..], k - 1);
    }
  }

  /** The decimal value of a run of digits. */
  function Value(digits: string): nat
    requires All(IsDigit, digits)
  {
    if digits == "" then 0
    else
      var last := |digits| - 1;
      assert digits[last] as int - '0' as int >= 0;
      10 * Value(digits[..last]) + (digits[last] as int - '0' as int)
  }

  function Numeral(n: nat): (s: string)
    ensures s != "" && All(IsDigit, s) && Value(s) == n
  {
    var digit := (('0' as int) + n % 10) as char;
    var s := if n < 10 then [digit] else Numeral(n / 10) + [digit];
    assert s[..|s|-1] == if n < 10 then "" else Numeral(n / 10);
    s
  }
}
