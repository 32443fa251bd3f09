/** The part of JavaScript's string semantics the pages rely on:
    `String.prototype.trim` and the truthiness of a string. */
module JsString {

  /** The characters `trim` removes: ECMAScript WhiteSpace (tab, vertical
      tab, form feed, space, no-break space, the byte order mark and the
      Unicode space separators) and LineTerminator (line feed, carriage
      return, line separator, paragraph separator). */
  predicate IsTrimmed(c: char)
  {
    c == '\t' || c == '\n' || c == '\U{000B}' || c == '\U{000C}' || c == '\r' ||
    c == ' ' || c == '\U{00A0}' || c == '\U{1680}' ||
    ('\U{2000}' <= c <= '\U{200A}') ||
    c == '\U{2028}' || c == '\U{2029}' || c == '\U{202F}' || c == '\U{205F}' ||
    c == '\U{3000}' || c == '\U{FEFF}'
  }

  /** Every character of `s` is one that `trim` removes. */
  predicate AllTrimmed(s: string)
  {
    forall i :: 0 <= i < |s| ==> IsTrimmed(s[i])
  }

  /** Removes the leading run of whitespace: the result is a suffix of `s`
      that does not start with whitespace, and what was cut off is all whitespace. */
  function TrimStart(s: string): (r: string)
    ensures |r| <= |s| && r == s[|s| - |r|..]
    ensures r == [] || !IsTrimmed(r[0])
    ensures AllTrimmed(s[..|s| - |r|])
  {
    if |s| > 0 && IsTrimmed(s[0]) then
      var r := TrimStart(s[1..]);
      assert s[..|s| - |r|] == [s[0]] + s[1..][..|s| - 1 - |r|];
      r
    else s
  }

  /** Removes the trailing run of whitespace: the result is a prefix of `s`
      that does not end with whitespace, and what was cut off is all whitespace. */
  function TrimEnd(s: string): (r: string)
    ensures |r| <= |s| && r == s[..|r|]
    ensures r == [] || !IsTrimmed(r[|r| - 1])
    ensures AllTrimmed(s[|r|..])
  {
    if |s| > 0 && IsTrimmed(s[|s| - 1]) then
      var r := TrimEnd(s[..|s| - 1]);
      assert s[|r|..] == s[..|s| - 1][|r|..] + [s[|s| - 1]];
      r
    else s
  }

  /** `r` is the slice of `s` starting at `k`, with only whitespace on
      either side of it. */
  predicate TrimmedSliceAt(s: string, r: string, k: int)
  {
    0 <= k <= |s| - |r| && r == s[k..k + |r|] &&
    AllTrimmed(s[..k]) && AllTrimmed(s[k + |r|..])
  }

  /** Cutting whitespace off the front of `s` (leaving `t`) and then off the
      back of `t` (leaving `r`) leaves a slice of `s` with only whitespace on
      either side. */
  lemma {:induction false} CutsLeaveSlice(s: string, t: string, r: string)
    requires |t| <= |s| && t == s[|s| - |t|..] && AllTrimmed(s[..|s| - |t|])
    requires |r| <= |t| && r == t[..|r|] && AllTrimmed(t[|r|..])
    ensures TrimmedSliceAt(s, r, |s| - |t|)
  {
    var k := |s| - |t|;
    assert s[k + |r|..] == t[|r|..];
  }

  /** `s.trim()`: a slice of `s` that neither starts nor ends with
      whitespace, with only whitespace on either side of it. */
  function Trim(s: string): (r: string)
    ensures |r| <= |s|
    ensures r == [] || (!IsTrimmed(r[0]) && !IsTrimmed(r[|r| - 1]))
    ensures exists k :: TrimmedSliceAt(s, r, k)
  {
    var t := TrimStart(s);
    var r := TrimEnd(t);
    CutsLeaveSlice(s, t, r);
    r
  }

  /** `s.trim() === ''` holds exactly when every character of `s` is whitespace. */
  lemma TrimIsEmptyIff(s: string)
    ensures Trim(s) == "" <==> AllTrimmed(s)
  {
    var t := TrimStart(s);
    if !AllTrimmed(s) {
      var i :| 0 <= i < |s| && !IsTrimmed(s[i]);
      assert s[..|s| - |t|] + t == s;
      assert t[i - (|s| - |t|)] == s[i];
    }
  }

  /** The truthiness of a string: only the empty string is falsy. */
  predicate Truthy(s: string)
  {
    s != ""
  }
}
