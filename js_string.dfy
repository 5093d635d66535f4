/**
 * The one piece of ECMAScript string behaviour the chat UI relies on:
 * `String.prototype.trim`, used as a truthiness test ("is there anything
 * besides white space?") before sending a message or running a search.
 */
module JsString {

  /**
   * The code points `trim` removes: ECMAScript WhiteSpace (tab, vertical tab,
   * form feed, the byte-order mark and every space separator) and
   * LineTerminator (line feed, carriage return, U+2028, U+2029).
   */
  predicate IsTrimmable(c: char) {
    var n := c as int;
    n == 0x09 || n == 0x0A || n == 0x0B || n == 0x0C || n == 0x0D
    || n == 0x20 || n == 0xA0 || n == 0x1680 || (0x2000 <= n <= 0x200A)
    || n == 0x2028 || n == 0x2029 || n == 0x202F || n == 0x205F
    || n == 0x3000 || n == 0xFEFF
  }

  /**
   * The first index at or after `i` that does not hold a trimmable character
   * (or `|s|` when there is none): the scan `trim` makes from the front.
   */
  function SkipForward(s: string, i: nat): (k: nat)
    requires i <= |s|
    ensures i <= k <= |s|
    ensures forall j :: i <= j < k ==> IsTrimmable(s[j])
    ensures k == |s| || !IsTrimmable(s[k])
    decreases |s| - i
  {
    if i < |s| && IsTrimmable(s[i]) then SkipForward(s, i + 1) else i
  }

  /**
   * The last index down from `j`, but not below `lo`, that follows a
   * non-trimmable character (or `lo`): the scan `trim` makes from the back.
   */
  function SkipBackward(s: string, lo: nat, j: nat): (m: nat)
    requires lo <= j <= |s|
    ensures lo <= m <= j
    ensures forall x :: m <= x < j ==> IsTrimmable(s[x])
    ensures m == lo || !IsTrimmable(s[m - 1])
    decreases j - lo
  {
    if lo < j && IsTrimmable(s[j - 1]) then SkipBackward(s, lo, j - 1) else j
  }

  /**
   * `s.trim()`: the slice of `s` between the two scans. It neither starts nor
   * ends with a trimmable character, everything outside it is trimmable, and
   * it is empty exactly when all of `s` is.
   */
  function Trim(s: string): (r: string)
    ensures var k := SkipForward(s, 0); k + |r| <= |s| && r == s[k..k + |r|]
    ensures forall i :: 0 <= i < SkipForward(s, 0) ==> IsTrimmable(s[i])
    ensures var k := SkipForward(s, 0); forall i :: k + |r| <= i < |s| ==> IsTrimmable(s[i])
    ensures r == [] || (!IsTrimmable(r[0]) && !IsTrimmable(r[|r| - 1]))
    ensures r == [] <==> forall i :: 0 <= i < |s| ==> IsTrimmable(s[i])
  {
    var k := SkipForward(s, 0);
    var m := SkipBackward(s, k, |s|);
    s[k..m]
  }

  /** JavaScript truthiness of `s.trim()`: a non-empty string is truthy. */
  predicate HasText(s: string) {
    Trim(s) != []
  }
}
