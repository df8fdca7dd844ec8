// The few operations of Go's strings package that decisions depend on.
module Text {
  // unicode.IsSpace
  predicate IsSpace(c: char) {
    || '\t' <= c <= '\r' || c == ' ' || c == '\U{85}' || c == '\U{A0}' || c == '\U{1680}'
    || '\U{2000}' <= c <= '\U{200A}' || c == '\U{2028}' || c == '\U{2029}' || c == '\U{202F}'
    || c == '\U{205F}' || c == '\U{3000}'
  }

  function TrimLeft(s: string): (t: string)
    ensures |t| <= |s|
    ensures t != "" ==> !IsSpace(t[0])
    ensures t == s[|s| - |t|..] && forall i | 0 <= i < |s| - |t| :: IsSpace(s[i])
  {
    if s != "" && IsSpace(s[0]) then TrimLeft(s[1..]) else s
  }

  function TrimRight(s: string): (t: string)
    ensures t <= s
    ensures t != "" ==> !IsSpace(t[|t| - 1])
    ensures forall i | |t| <= i < |s| :: IsSpace(s[i])
  {
    if s != "" && IsSpace(s[|s| - 1]) then TrimRight(s[..|s| - 1]) else s
  }

  // strings.TrimSpace
  function Trim(s: string): string { TrimRight(TrimLeft(s)) }

  predicate Trimmed(s: string) { s != "" ==> !IsSpace(s[0]) && !IsSpace(s[|s| - 1]) }

  lemma TrimTrims(s: string)
    ensures Trimmed(Trim(s)) && Trim(Trim(s)) == Trim(s)
    ensures Trimmed(s) ==> Trim(s) == s
  {}

  // Nothing but white space is lost, at either end.
  lemma TrimLosesSpaceOnly(s: string) returns (left: string, right: string)
    ensures s == left + Trim(s) + right
    ensures forall i | 0 <= i < |left| :: IsSpace(left[i])
    ensures forall i | 0 <= i < |right| :: IsSpace(right[i])
  {
    hide IsSpace, TrimLeft, TrimRight;
    var rest := TrimLeft(s);
    var kept := TrimRight(rest);
    left, right := s[..|s| - |rest|], rest[|kept|..];
    assert s == left + rest && rest == kept + right;
    assert left + (kept + right) == left + kept + right;
  }

  // Blank, tabulator and line ends are white space, visible ASCII characters are not.
  lemma SpaceInAscii(c: char)
    requires c <= '~'
    ensures IsSpace(c) <==> c == ' ' || '\t' <= c <= '\r'
  {}
}
