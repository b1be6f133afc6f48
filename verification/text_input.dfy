/**
 * What the lock and sign-up screens do with the text of an input field:
 * Kotlin's `trim()`, the character classes their rules test, and the
 * outcome of pressing a button that checks its fields.
 */
module TextInput {

  /** Whitespace in the sense of Kotlin's `isWhitespace`, over ASCII. */
  predicate IsWhitespace(c: char)
  {
    c == ' ' || '\t' <= c <= '\r' || '\U{1C}' <= c <= '\U{1F}'
  }

  /** `trimStart()`. */
  function TrimStart(s: string): (r: string)
    ensures |r| <= |s| && r == s[|s| - |r|..]
    ensures forall i :: 0 <= i < |s| - |r| ==> IsWhitespace(s[i])
    ensures r != [] ==> !IsWhitespace(r[0])
  {
    if s != [] && IsWhitespace(s[0]) then TrimStart(s[1..]) else s
  }

  /** `trimEnd()`. */
  function TrimEnd(s: string): (r: string)
    ensures |r| <= |s| && r == s[..|r|]
    ensures forall i :: |r| <= i < |s| ==> IsWhitespace(s[i])
    ensures r != [] ==> !IsWhitespace(r[|r| - 1])
  {
    if s != [] && IsWhitespace(s[|s| - 1]) then TrimEnd(s[..|s| - 1]) else s
  }

  /** `r` is `s` with `i` whitespace characters cut from the front and only whitespace from the back. */
  predicate CutFrom(s: string, r: string, i: int)
  {
    0 <= i <= |s| - |r| && r == s[i..i + |r|]
    && (forall k :: 0 <= k < i ==> IsWhitespace(s[k]))
    && (forall k :: i + |r| <= k < |s| ==> IsWhitespace(s[k]))
  }

  /**
   * `trim()`: the text without its leading and trailing whitespace. What is
   * left is a stretch of the input that neither starts nor ends with
   * whitespace, and everything cut off is whitespace.
   */
  function Trim(s: string): (r: string)
    ensures exists i :: CutFrom(s, r, i)
    ensures r != [] ==> !IsWhitespace(r[0]) && !IsWhitespace(r[|r| - 1])
  {
    var t := TrimStart(s);
    var r := TrimEnd(t);
    assert CutFrom(s, r, |s| - |t|);
    r
  }

  /** Text without surrounding whitespace is its own trim. */
  lemma {:induction false} TrimOfTrimmed(s: string)
    requires s != [] ==> !IsWhitespace(s[0]) && !IsWhitespace(s[|s| - 1])
    ensures Trim(s) == s
  {
  }

  /** Trimming twice is trimming once. */
  lemma TrimIdempotent(s: string)
    ensures Trim(Trim(s)) == Trim(s)
  {
    TrimOfTrimmed(Trim(s));
  }

  /** Text that is all whitespace trims to nothing, and only such text does. */
  lemma {:induction false} TrimEmpty(s: string)
    ensures Trim(s) == [] <==> forall k :: 0 <= k < |s| ==> IsWhitespace(s[k])
  {
    if forall k :: 0 <= k < |s| ==> IsWhitespace(s[k]) {
      AllWhitespaceTrimStart(s);
    }
  }

  /** Whitespace alone trims away from the front entirely. */
  lemma {:induction false} AllWhitespaceTrimStart(s: string)
    requires forall k :: 0 <= k < |s| ==> IsWhitespace(s[k])
    ensures TrimStart(s) == []
  {
    if s != [] {
      AllWhitespaceTrimStart(s[1..]);
    }
  }

  /** `Char.isUpperCase()`, over ASCII. */
  predicate IsUpper(c: char)
  {
    'A' <= c <= 'Z'
  }

  /** `Char.isDigit()`, and the `\d` of a regular expression: '0' to '9'. */
  predicate IsDigit(c: char)
  {
    '0' <= c <= '9'
  }

  /** `any { … }` over the characters of a text. */
  predicate AnyChar(s: string, p: char -> bool)
  {
    exists i :: 0 <= i < |s| && p(s[i])
  }

  /** What pressing a checking button leads to: the action, or the message shown instead. */
  datatype Outcome = Accepted | Rejected(message: string)
}
