/**
 * ASCII lower-casing: the part of Python's `str.lower()` that the gender
 * lookup of the prediction handler relies on.
 */
module Text {

  predicate IsUpper(c: char) {
    'A' <= c <= 'Z'
  }

  /** Lower-cases one ASCII letter; every other character is left as it is. */
  function LowerChar(c: char): (d: char)
    ensures !IsUpper(d)
    ensures d != c <==> IsUpper(c)
    ensures IsUpper(c) ==> d as int - c as int == 'a' as int - 'A' as int
  {
    if IsUpper(c) then (c as int + ('a' as int - 'A' as int)) as char else c
  }

  /** `s.lower()`, restricted to ASCII. */
  function ToLower(s: string): (r: string)
    ensures |r| == |s|
    ensures forall i :: 0 <= i < |s| ==> r[i] == LowerChar(s[i])
  {
    if s == [] then [] else [LowerChar(s[0])] + ToLower(s[1..])
  }

  predicate HasNoUpper(s: string) {
    forall i :: 0 <= i < |s| ==> !IsUpper(s[i])
  }

  /** A string without upper-case letters is its own lower-case form. */
  lemma ToLowerFixesLower(s: string)
    requires HasNoUpper(s)
    ensures ToLower(s) == s
  {
    var r := ToLower(s);
    assert forall i :: 0 <= i < |s| ==> r[i] == s[i];
  }

  /** Lower-casing twice is lower-casing once. */
  lemma ToLowerIdempotent(s: string)
    ensures HasNoUpper(ToLower(s))
    ensures ToLower(ToLower(s)) == ToLower(s)
  {
    ToLowerFixesLower(ToLower(s));
  }

  /** `t` is the lower-case form of `s` exactly when it is `s` with each letter lower-cased. */
  lemma ToLowerIs(s: string, t: string)
    ensures ToLower(s) == t <==> |s| == |t| && forall i :: 0 <= i < |s| ==> LowerChar(s[i]) == t[i]
  {
    if |s| == |t| && forall i :: 0 <= i < |s| ==> LowerChar(s[i]) == t[i] {
      assert forall i :: 0 <= i < |s| ==> ToLower(s)[i] == t[i];
    }
  }
}
