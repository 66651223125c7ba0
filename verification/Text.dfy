/** `String.prototype.trim` and the one question the callers ask of it. */
module Text {
  /** White space and line terminators, as `trim` removes them. */
  predicate Space(c: char) {
    c in "\t\n\r " || c in "\U{000B}\U{000C}\U{00A0}\U{1680}\U{2028}\U{2029}\U{202F}\U{205F}\U{3000}\U{FEFF}" || '\U{2000}' <= c <= '\U{200A}'
  }

  function TrimStart(s: string): (t: string)
    ensures t != [] ==> !Space(t[0])
  {
    if s == [] || !Space(s[0]) then s else TrimStart(s[1..])
  }

  function TrimEnd(s: string): (t: string)
    ensures t != [] ==> !Space(t[|t| - 1]) && s != [] && t[0] == s[0]
  {
    if s == [] || !Space(s[|s| - 1]) then s else TrimEnd(s[..|s| - 1])
  }

  function Trim(s: string): (t: string)
    ensures t != [] ==> !Space(t[0]) && !Space(t[|t| - 1])
  {
    TrimEnd(TrimStart(s))
  }

  predicate Blank(s: string) {
    Trim(s) == []
  }

  lemma {:induction false} TrimStartSuffix(s: string)
    ensures |TrimStart(s)| <= |s| && TrimStart(s) == s[|s| - |TrimStart(s)|..]
    ensures forall i :: 0 <= i < |s| - |TrimStart(s)| ==> Space(s[i])
  {
    if s != [] && Space(s[0]) {
      TrimStartSuffix(s[1..]);
      forall i | 0 <= i < |s| - |TrimStart(s)|
        ensures Space(s[i])
      {
        assert i > 0 ==> s[i] == s[1..][i - 1];
      }
    }
  }

  lemma {:induction false} TrimEndEmpty(s: string)
    ensures TrimEnd(s) == [] <==> forall i :: 0 <= i < |s| ==> Space(s[i])
  {
    if s != [] && Space(s[|s| - 1]) {
      TrimEndEmpty(s[..|s| - 1]);
      assert forall i :: 0 <= i < |s| - 1 ==> s[..|s| - 1][i] == s[i];
    }
  }

  /** A text is blank exactly when it holds nothing but white space. */
  lemma BlankIsAllSpace(s: string)
    ensures Blank(s) <==> forall i :: 0 <= i < |s| ==> Space(s[i])
  {
    TrimStartSuffix(s);
    TrimEndEmpty(TrimStart(s));
    var cut := |s| - |TrimStart(s)|;
    assert forall i :: cut <= i < |s| ==> TrimStart(s)[i - cut] == s[i];
    assert forall j :: 0 <= j < |TrimStart(s)| ==> TrimStart(s)[j] == s[cut + j];
  }
}
