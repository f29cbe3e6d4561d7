/** Splitting text at its first or last separator, as the cached values are split. */
module Text {

  predicate Free(s: string, c: char) {
    forall i :: 0 <= i < |s| ==> s[i] != c
  }

  // strings.LastIndex for one character; -1 when it does not occur.
  function LastIndex(s: string, c: char): (i: int)
    ensures -1 <= i < |s|
    ensures i >= 0 ==> s[i] == c
    ensures forall j :: i < j < |s| ==> s[j] != c
  {
    if s == "" then -1
    else if s[|s| - 1] == c then |s| - 1
    else LastIndex(s[..|s| - 1], c)
  }

  // The first occurrence; the length when there is none.
  function FirstIndex(s: string, c: char): (i: nat)
    ensures i <= |s|
    ensures i < |s| ==> s[i] == c
    ensures forall j :: 0 <= j < i ==> s[j] != c
  {
    if s == "" || s[0] == c then 0
    else
      var i := 1 + FirstIndex(s[1..], c);
      assert forall j :: 0 < j < i ==> s[j] == s[1..][j - 1];
      i
  }

  lemma LastIndexAt(s: string, c: char, p: nat)
    requires p < |s| && s[p] == c && forall j :: p < j < |s| ==> s[j] != c
    ensures LastIndex(s, c) == p
  {
  }

  lemma FirstIndexAt(s: string, c: char, p: nat)
    requires p < |s| && s[p] == c && forall j :: 0 <= j < p ==> s[j] != c
    ensures FirstIndex(s, c) == p
  {
  }

  lemma LastSplit(a: string, c: char, b: string, s: string)
    requires Free(b, c) && s == a + [c] + b
    ensures LastIndex(s, c) == |a| && s[..|a|] == a && s[|a| + 1..] == b
  {
    assert forall j :: |a| < j < |s| ==> s[j] == b[j - |a| - 1];
    LastIndexAt(s, c, |a|);
  }

  lemma FirstSplit(a: string, c: char, b: string, s: string)
    requires Free(a, c) && s == a + [c] + b
    ensures FirstIndex(s, c) == |a| && s[..|a|] == a && s[|a| + 1..] == b
  {
    assert forall j :: 0 <= j < |a| ==> s[j] == a[j];
    FirstIndexAt(s, c, |a|);
  }
}
