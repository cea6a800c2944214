/** String.prototype.trim, section 22.1.3.32 of ECMA-262, and the white-space scan parseInt shares with it. */
module JsStrings {
  import opened JsValues

  /** The first index at or after i that does not hold white space (|s| if there is none). */
  function SkipBlanks(s: string, i: nat): (k: nat)
    requires i <= |s|
    ensures i <= k <= |s|
    ensures forall j :: i <= j < k ==> IsWhiteSpace(s[j])
    ensures k == |s| || !IsWhiteSpace(s[k])
    decreases |s| - i
  {
    if i < |s| && IsWhiteSpace(s[i]) then SkipBlanks(s, i + 1) else i
  }

  /** The index just past the last non-blank before j (0 if there is none). */
  function SkipBlanksBack(s: string, j: nat): (k: nat)
    requires j <= |s|
    ensures k <= j
    ensures forall t :: k <= t < j ==> IsWhiteSpace(s[t])
    ensures k == 0 || !IsWhiteSpace(s[k - 1])
  {
    if j > 0 && IsWhiteSpace(s[j - 1]) then SkipBlanksBack(s, j - 1) else j
  }

  /**
   * `s.trim()`: the result is a slice of s with only white space around it, it
   * neither starts nor ends with white space, and it is empty exactly when s is blank.
   */
  function Trim(s: string): (r: string)
    ensures exists i :: BlankAround(s, i, r)
    ensures r == [] || (!IsWhiteSpace(r[0]) && !IsWhiteSpace(r[|r| - 1]))
    ensures r == [] <==> AllWhiteSpace(s)
  {
    var i := SkipBlanks(s, 0);
    var j := SkipBlanksBack(s, |s|);
    if i < j then
      assert BlankAround(s, i, s[i..j]);
      s[i..j]
    else
      assert BlankAround(s, i, []);
      []
  }

  /** s is r with only white space before it (up to index i) and after it. */
  ghost predicate BlankAround(s: string, i: int, r: string) {
    && 0 <= i <= |s| - |r|
    && r == s[i..i + |r|]
    && (forall j :: 0 <= j < i ==> IsWhiteSpace(s[j]))
    && (forall j :: i + |r| <= j < |s| ==> IsWhiteSpace(s[j]))
  }

  /** Trimming a trimmed string changes nothing. */
  lemma TrimIdempotent(s: string)
    ensures Trim(Trim(s)) == Trim(s)
  {
  }
}
