/** Names as text: white space, and what is left when it is stripped from both ends. */
module Text {

  predicate IsSpace(c: char) { c == ' ' || '\t' <= c <= '\r' }

  predicate Blank(s: string) { forall c | c in s :: IsSpace(c) }

  function StripLeft(s: string): string {
    if s != [] && IsSpace(s[0]) then StripLeft(s[1..]) else s
  }

  function StripRight(s: string): string {
    if s != [] && IsSpace(s[|s| - 1]) then StripRight(s[..|s| - 1]) else s
  }

  function Strip(s: string): string { StripRight(StripLeft(s)) }

  lemma {:induction false} StripLeftMeaning(s: string)
    ensures |StripLeft(s)| <= |s| && (StripLeft(s) == "" || !IsSpace(StripLeft(s)[0]))
    ensures StripLeft(s) != "" ==> StripLeft(s)[|StripLeft(s)| - 1] == s[|s| - 1]
  {
    if s != [] && IsSpace(s[0]) {
      StripLeftMeaning(s[1..]);
    }
  }

  lemma {:induction false} StripRightMeaning(s: string)
    ensures |StripRight(s)| <= |s| && (StripRight(s) == "" || !IsSpace(StripRight(s)[|StripRight(s)| - 1]))
    ensures StripRight(s) != "" ==> StripRight(s)[0] == s[0]
  {
    if s != [] && IsSpace(s[|s| - 1]) {
      StripRightMeaning(s[..|s| - 1]);
    }
  }

  /** Nothing is left to strip from a stripped name, which has no space at either end. */
  lemma StripTwice(s: string)
    ensures Strip(Strip(s)) == Strip(s)
  {
    StripLeftMeaning(s);
    StripRightMeaning(StripLeft(s));
  }
}
