/**
 The text operations the models share: ASCII case and surrounding white space.
 */
module Text {
  predicate IsSpace(c: char) {
    c in {' ', '\t', '\n', '\r'}
  }

  predicate Blank(s: string) {
    forall i :: 0 <= i < |s| ==> IsSpace(s[i])
  }

  function LowerChar(c: char): char {
    if 'A' <= c <= 'Z' then (c as int + 32) as char else c
  }

  function UpperChar(c: char): char {
    if 'a' <= c <= 'z' then (c as int - 32) as char else c
  }

  function Lower(s: string): (t: string)
    ensures |t| == |s| && forall k :: 0 <= k < |s| ==> t[k] == LowerChar(s[k])
  {
    seq(|s|, k requires 0 <= k < |s| => LowerChar(s[k]))
  }

  function Upper(s: string): (t: string)
    ensures |t| == |s| && forall k :: 0 <= k < |s| ==> t[k] == UpperChar(s[k])
  {
    seq(|s|, k requires 0 <= k < |s| => UpperChar(s[k]))
  }

  function StripLeft(s: string): string {
    if s != "" && IsSpace(s[0]) then StripLeft(s[1..]) else s
  }

  function StripRight(s: string): string {
    if s != "" && IsSpace(s[|s| - 1]) then StripRight(s[..|s| - 1]) else s
  }

  function Strip(s: string): string {
    StripRight(StripLeft(s))
  }

  predicate Unpadded(s: string) {
    s == "" || (!IsSpace(s[0]) && !IsSpace(s[|s| - 1]))
  }

  lemma {:induction false} StripLeftShortens(s: string)
    ensures |StripLeft(s)| <= |s|
    ensures |StripLeft(s)| == |s| <==> s == "" || !IsSpace(s[0])
    ensures StripLeft(s) == "" || !IsSpace(StripLeft(s)[0])
    ensures StripLeft(s) == s[|s| - |StripLeft(s)|..]
  {
    if s != "" && IsSpace(s[0]) {
      StripLeftShortens(s[1..]);
    }
  }

  lemma {:induction false} StripRightShortens(s: string)
    ensures |StripRight(s)| <= |s| && StripRight(s) == s[..|StripRight(s)|]
    ensures |StripRight(s)| == |s| <==> s == "" || !IsSpace(s[|s| - 1])
  {
    if s != "" && IsSpace(s[|s| - 1]) {
      StripRightShortens(s[..|s| - 1]);
    }
  }

  /** Stripping changes nothing exactly when there is no padding. */
  lemma StripIsIdentityIff(s: string)
    ensures Strip(s) == s <==> Unpadded(s)
  {
    StripLeftShortens(s);
    StripRightShortens(StripLeft(s));
  }

  /** Padding survives a change of case. */
  lemma CaseKeepsPadding(s: string)
    ensures Unpadded(Lower(s)) <==> Unpadded(s)
    ensures Unpadded(Upper(s)) <==> Unpadded(s)
  {
  }

  lemma {:induction false} UpperStripLeft(s: string)
    ensures StripLeft(Upper(s)) == Upper(StripLeft(s))
  {
    if s != "" && IsSpace(s[0]) {
      UpperStripLeft(s[1..]);
      assert Upper(s)[1..] == Upper(s[1..]);
    } else {
      assert StripLeft(s) == s;
    }
  }

  lemma {:induction false} UpperStripRight(s: string)
    ensures StripRight(Upper(s)) == Upper(StripRight(s))
  {
    if s != "" && IsSpace(s[|s| - 1]) {
      UpperStripRight(s[..|s| - 1]);
      assert Upper(s)[..|s| - 1] == Upper(s[..|s| - 1]);
    } else {
      assert StripRight(s) == s;
    }
  }

  /** So texts that agree in upper case agree in upper case after stripping. */
  lemma UpperCommutesWithStrip(s: string)
    ensures Strip(Upper(s)) == Upper(Strip(s))
  {
    UpperStripLeft(s);
    UpperStripRight(StripLeft(s));
  }
}
