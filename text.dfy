/**
 * The string primitives the dashboards' search boxes and status badges use:
 * JavaScript's `String.prototype.includes`, `toLowerCase` and `trim`.
 * Strings are sequences of characters.
 */
module Text {

  /** `k` is a prefix of `s`. */
  predicate IsPrefix(k: string, s: string) {
    |k| <= |s| && s[..|k|] == k
  }

  /** `s.includes(k)`: `k` occurs somewhere in `s` (the empty string occurs everywhere). */
  predicate Contains(s: string, k: string)
    ensures IsPrefix(k, s) ==> Contains(s, k)
    ensures Contains(s, k) ==> |k| <= |s|
    decreases |s|
  {
    IsPrefix(k, s) || (|s| > 0 && Contains(s[1..], k))
  }

  /** `k` occurs in `s` starting at index `i`. */
  predicate OccursAt(s: string, k: string, i: int) {
    0 <= i <= |s| - |k| && s[i..i + |k|] == k
  }

  /** `Contains` is exactly "occurs at some index". */
  lemma {:induction false} ContainsAt(s: string, k: string)
    ensures Contains(s, k) <==> exists i :: OccursAt(s, k, i)
  {
    if IsPrefix(k, s) {
      assert OccursAt(s, k, 0);
    } else if |s| == 0 {
      assert |k| > 0;
    } else {
      ContainsAt(s[1..], k);
      if exists i :: OccursAt(s, k, i) {
        var i :| OccursAt(s, k, i);
        assert i != 0;
        assert OccursAt(s[1..], k, i - 1);
      }
      if Contains(s[1..], k) {
        var j :| OccursAt(s[1..], k, j);
        assert OccursAt(s, k, j + 1);
      }
    }
  }

  /** A keyword occurs in any text built around it. */
  lemma ContainsInMiddle(a: string, k: string, b: string)
    ensures Contains(a + k + b, k)
  {
    ContainsAt(a + k + b, k);
    assert OccursAt(a + k + b, k, |a|);
  }

  /** Lower-casing of one character; only the letters A to Z change. */
  function LowerChar(c: char): (r: char)
    ensures 'A' <= c <= 'Z' ==> 'a' <= r <= 'z'
    ensures !('A' <= c <= 'Z') ==> r == c
  {
    if 'A' <= c <= 'Z' then (c as int + 32) as char else c
  }

  /** `s.toLowerCase()`, restricted to the letters A to Z. */
  function Lower(s: string): (r: string)
    ensures |r| == |s|
    ensures forall i :: 0 <= i < |s| ==> r[i] == LowerChar(s[i])
  {
    if s == [] then [] else [LowerChar(s[0])] + Lower(s[1..])
  }

  /** The characters `trim` removes: ECMAScript WhiteSpace and LineTerminator. */
  predicate IsSpace(c: char)
    ensures c == ' ' || c == '\t' || c == '\n' || c == '\r' ==> IsSpace(c)
    ensures 'a' <= c <= 'z' || 'A' <= c <= 'Z' || '0' <= c <= '9' ==> !IsSpace(c)
  {
    c == '\t' || c == '\n' || c == '\U{000B}' || c == '\U{000C}' || c == '\r' || c == ' ' ||
    c == '\U{00A0}' || c == '\U{1680}' || ('\U{2000}' <= c <= '\U{200A}') ||
    c == '\U{2028}' || c == '\U{2029}' || c == '\U{202F}' || c == '\U{205F}' ||
    c == '\U{3000}' || c == '\U{FEFF}'
  }

  /** `s.trimStart()`. */
  function TrimStart(s: string): (r: string)
    ensures |r| <= |s| && r == s[|s| - |r|..]
    ensures r == [] || !IsSpace(r[0])
    ensures forall i :: 0 <= i < |s| - |r| ==> IsSpace(s[i])
  {
    if s != [] && IsSpace(s[0]) then TrimStart(s[1..]) else s
  }

  /** `s.trimEnd()`. */
  function TrimEnd(s: string): (r: string)
    ensures |r| <= |s| && r == s[..|r|]
    ensures r == [] || !IsSpace(r[|r| - 1])
    ensures forall i :: |r| <= i < |s| ==> IsSpace(s[i])
  {
    if s != [] && IsSpace(s[|s| - 1]) then TrimEnd(s[..|s| - 1]) else s
  }

  /** `r` sits at index `i` of `s` and every character of `s` before or after it is removable. */
  predicate SpacesAround(s: string, r: string, i: int) {
    OccursAt(s, r, i) &&
    (forall j :: 0 <= j < i ==> IsSpace(s[j])) &&
    (forall j :: i + |r| <= j < |s| ==> IsSpace(s[j]))
  }

  /** `s.trim()`: a contiguous part of `s`, with no removable character at either end,
      obtained by dropping only removable characters before and after it. */
  function Trim(s: string): (r: string)
    ensures |r| <= |s|
    ensures r == [] || (!IsSpace(r[0]) && !IsSpace(r[|r| - 1]))
    ensures exists i :: SpacesAround(s, r, i)
  {
    TrimSteps(s);
    TrimEnd(TrimStart(s))
  }

  /** `trim` is `trimStart` followed by `trimEnd`, which removes only what lies around the kept part. */
  lemma TrimSteps(s: string)
    ensures var r := TrimEnd(TrimStart(s));
      |r| <= |s| && (r == [] || (!IsSpace(r[0]) && !IsSpace(r[|r| - 1]))) &&
      SpacesAround(s, r, |s| - |TrimStart(s)|)
  {
    var t := TrimStart(s);
    var r := TrimEnd(t);
    var i := |s| - |t|;
    assert t == s[i..] && (t == [] || !IsSpace(t[0]));
    assert forall j :: 0 <= j < i ==> IsSpace(s[j]);
    assert r == t[..|r|] && (r == [] || !IsSpace(r[|r| - 1]));
    assert forall j :: |r| <= j < |t| ==> IsSpace(t[j]);
    TrimIsSpacesAround(s, t, r, i);
  }

  /** `r`, cut from the end of the suffix `t = s[i..]`, has only removable characters around it. */
  lemma TrimIsSpacesAround(s: string, t: string, r: string, i: int)
    requires 0 <= i <= |s| && t == s[i..] && |r| <= |t| && r == t[..|r|]
    requires forall j :: 0 <= j < i ==> IsSpace(s[j])
    requires forall j :: |r| <= j < |t| ==> IsSpace(t[j])
    requires t == [] || !IsSpace(t[0])
    requires r == [] || !IsSpace(r[|r| - 1])
    ensures SpacesAround(s, r, i) && |r| <= |s|
    ensures r == [] || (!IsSpace(r[0]) && !IsSpace(r[|r| - 1]))
  {
    forall j | i + |r| <= j < |s|
      ensures IsSpace(s[j])
    {
      assert s[j] == t[j - i];
    }
    assert s[i..i + |r|] == r;
  }
}
