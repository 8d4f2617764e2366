/** The two PHP string built-ins the central-bank backend applies to every
    upstream currency code: trim() with its default character list, and
    empty() on a string. */
module PhpStrings {

  /** The characters trim() strips by default: space, tab, line feed,
      carriage return, NUL and vertical tab. */
  predicate IsBlank(c: char)
  {
    c == ' ' || c == '\t' || c == '\n' || c == '\r' || c == '\0' || c == '\U{000B}'
  }

  /** Strips blank characters from the front. */
  function TrimStart(s: string): (r: string)
    ensures |r| <= |s| && r == s[|s| - |r|..]
    ensures r != [] ==> !IsBlank(r[0])
    ensures forall k :: 0 <= k < |s| - |r| ==> IsBlank(s[k])
  {
    if s != [] && IsBlank(s[0]) then TrimStart(s[1..]) else s
  }

  /** Strips blank characters from the back. */
  function TrimEnd(s: string): (r: string)
    ensures |r| <= |s| && r == s[..|r|]
    ensures r != [] ==> !IsBlank(r[|r| - 1])
    ensures forall k :: |r| <= k < |s| ==> IsBlank(s[k])
  {
    if s != [] && IsBlank(s[|s| - 1]) then TrimEnd(s[..|s| - 1]) else s
  }

  /** PHP trim($s): the longest blank-free-at-both-ends middle part of s;
      everything cut off on either side is blank. */
  function Trim(s: string): (r: string)
    ensures Leading(s) + |r| <= |s|
    ensures r != [] ==> !IsBlank(r[0]) && !IsBlank(r[|r| - 1])
    ensures r == s[Leading(s)..Leading(s) + |r|]
    ensures forall k :: 0 <= k < Leading(s) ==> IsBlank(s[k])
    ensures forall k :: Leading(s) + |r| <= k < |s| ==> IsBlank(s[k])
  {
    var t := TrimStart(s);
    var r := TrimEnd(t);
    assert t[..|r|] == s[Leading(s)..Leading(s) + |r|];
    r
  }

  /** How many blank characters trim() removes from the front of s. */
  function Leading(s: string): (n: nat)
    ensures n <= |s|
  {
    |s| - |TrimStart(s)|
  }

  /** PHP empty($s) for a string: true for "" and for "0" only, so "00",
      " " and "0.0" are not empty. */
  predicate IsEmpty(s: string)
  {
    s == "" || s == "0"
  }
}
