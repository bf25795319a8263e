// String helpers the client and the server rely on: JavaScript's notion of
// white space and String.prototype.trim, startsWith, and the sidebar title
// taken from the first thirty characters of a prompt.
module Text {

  /** The WhiteSpace and LineTerminator code points of ECMAScript, the set
      String.prototype.trim strips (sections 12.2 and 12.3 of ECMA-262). */
  predicate IsJsSpace(c: char) {
    || c == '\t' || c == '\n' || c == '\U{000B}' || c == '\U{000C}' || c == '\r'
    || c == ' ' || c == '\U{00A0}' || c == '\U{1680}'
    || ('\U{2000}' <= c <= '\U{200A}')
    || c == '\U{2028}' || c == '\U{2029}' || c == '\U{202F}' || c == '\U{205F}'
    || c == '\U{3000}' || c == '\U{FEFF}'
  }

  /** Every character of `s` is white space (the empty string included). */
  predicate Blank(s: string) {
    forall i :: 0 <= i < |s| ==> IsJsSpace(s[i])
  }

  predicate StartsWith(s: string, prefix: string) {
    |prefix| <= |s| && s[..|prefix|] == prefix
  }

  /** Drops leading white space: the result is a suffix of `s`, what was
      dropped is blank, and the result does not start with white space. */
  function TrimStart(s: string): (r: string)
    ensures |r| <= |s| && r == s[|s| - |r|..]
    ensures Blank(s[..|s| - |r|])
    ensures r == [] || !IsJsSpace(r[0])
  {
    if s == [] || !IsJsSpace(s[0]) then s else TrimStart(s[1..])
  }

  /** Drops trailing white space: the result is a prefix of `s`, what was
      dropped is blank, and the result does not end with white space. */
  function TrimEnd(s: string): (r: string)
    ensures |r| <= |s| && r == s[..|r|]
    ensures Blank(s[|r|..])
    ensures r == [] || !IsJsSpace(r[|r| - 1])
  {
    if s == [] || !IsJsSpace(s[|s| - 1]) then s else TrimEnd(s[..|s| - 1])
  }

  /** String.prototype.trim: the input without a blank prefix and a blank
      suffix, starting and ending with a character that is not white space. */
  function Trim(s: string): (r: string)
    ensures r == [] || (!IsJsSpace(r[0]) && !IsJsSpace(r[|r| - 1]))
    ensures exists a, b :: 0 <= a <= b <= |s| && r == s[a..b] && Blank(s[..a]) && Blank(s[b..])
  {
    var t := TrimStart(s);
    var r := TrimEnd(t);
    var a, b := |s| - |t|, |s| - |t| + |r|;
    assert s[a..b] == r;
    assert s[b..] == t[|r|..];
    r
  }

  /** `!prompt.trim()` holds exactly when the prompt is blank. */
  lemma TrimEmptyIffBlank(s: string)
    ensures Trim(s) == [] <==> Blank(s)
  {
  }

  const TitleLength: nat := 30
  const DefaultTitle: string := "New Chat"

  /** `prompt.slice(0, 30) || "New Chat"`: the first thirty characters of the
      prompt, or the default title when the prompt is empty. */
  function Title(prompt: string): (t: string)
    ensures prompt == [] ==> t == DefaultTitle
    ensures prompt != [] ==> |t| == (if |prompt| < TitleLength then |prompt| else TitleLength) && t == prompt[..|t|]
  {
    var head := if |prompt| <= TitleLength then prompt else prompt[..TitleLength];
    if head == [] then DefaultTitle else head
  }
}
