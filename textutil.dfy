/** The two small string helpers of the dataset reader: case folding and comment removal. */
module TextUtil {

  /** The ASCII capital letters, the only characters `::tolower` changes in the C locale. */
  predicate IsUpper(c: char) { 'A' <= c <= 'Z' }

  function LowerChar(c: char): char
  {
    if IsUpper(c) then (c as int + 32) as char else c
  }

  /** A copy of `s` with every capital letter replaced by its small letter. */
  function ToLower(s: string): (r: string)
    ensures |r| == |s|
    ensures forall i :: 0 <= i < |r| ==> !IsUpper(r[i])
    ensures forall i :: 0 <= i < |s| && !IsUpper(s[i]) ==> r[i] == s[i]
    ensures forall i :: 0 <= i < |s| && IsUpper(s[i]) ==> r[i] as int == s[i] as int + 32
  {
    seq(|s|, i requires 0 <= i < |s| => LowerChar(s[i]))
  }

  /** Folding twice is folding once. */
  lemma ToLowerIdempotent(s: string)
    ensures ToLower(ToLower(s)) == ToLower(s)
  {
  }

  /** Text without capital letters is left as it is. */
  lemma NoUpperUnchanged(s: string)
    requires forall i :: 0 <= i < |s| ==> !IsUpper(s[i])
    ensures ToLower(s) == s
  {
  }

  /** Position of the first '%' in `s`, or |s| when there is none. */
  function CommentStart(s: string): (k: nat)
    ensures k <= |s|
    ensures forall i :: 0 <= i < k ==> s[i] != '%'
    ensures k < |s| ==> s[k] == '%'
  {
    if s == [] || s[0] == '%' then 0 else 1 + CommentStart(s[1..])
  }

  /** The line cut just before its first '%': the part that is not comment. */
  function RemoveComment(s: string): (r: string)
    ensures r <= s
    ensures '%' !in r
    ensures |r| < |s| ==> s[|r|] == '%'
  {
    s[..CommentStart(s)]
  }

  /** A line without '%' is left as it is. */
  lemma NoCommentUnchanged(s: string)
    requires '%' !in s
    ensures RemoveComment(s) == s
  {
  }

  /** Removing the comment twice is removing it once. */
  lemma RemoveCommentIdempotent(s: string)
    ensures RemoveComment(RemoveComment(s)) == RemoveComment(s)
  {
    NoCommentUnchanged(RemoveComment(s));
  }

  /** A line that starts with '%' is all comment and becomes empty. */
  lemma CommentLineIsEmpty(s: string)
    requires |s| > 0 && s[0] == '%'
    ensures RemoveComment(s) == []
  {
  }
}
