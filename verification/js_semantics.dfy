/** The few pieces of JavaScript string semantics the components depend on:
    truthiness of strings, the `detail || fallback` idiom, `String.prototype.trim`
    and `String.prototype.slice(0, n)`, plus the shape of a network outcome. */
module JsSemantics {

  datatype Option<+T> = None | Some(value: T)

  /** What an awaited `fetch` (and the `response.json()` after it) yields to a handler:
      an OK response with its parsed body, a non-OK response whose JSON body may carry a
      `detail` field, or a thrown error (network failure, unparsable body) with its message. */
  datatype Response<+T> = Ok(body: T) | HttpError(detail: Option<string>) | Failure(message: string)

  function Min(a: int, b: int): int { if a <= b then a else b }
  function Max(a: int, b: int): int { if a <= b then b else a }

  /** A string is truthy in JavaScript exactly when it is not empty. */
  predicate Truthy(s: string) { s != "" }

  /** `detail || fallback` for a detail field that may be absent. */
  function OrElse(detail: Option<string>, fallback: string): (r: string)
    ensures detail.Some? && Truthy(detail.value) ==> r == detail.value
    ensures detail.None? || !Truthy(detail.value) ==> r == fallback
    ensures Truthy(fallback) ==> Truthy(r)
  {
    if detail.Some? && Truthy(detail.value) then detail.value else fallback
  }

  /** The characters `trim()` removes: ECMAScript WhiteSpace (including every
      Unicode space separator) and LineTerminator. */
  predicate IsWhitespace(c: char) {
    c == '\t' || c == '\n' || c == '\U{000B}' || c == '\U{000C}' || c == '\r'
    || c == ' ' || c == '\U{00A0}' || c == '\U{1680}'
    || ('\U{2000}' <= c <= '\U{200A}')
    || c == '\U{2028}' || c == '\U{2029}' || c == '\U{202F}' || c == '\U{205F}'
    || c == '\U{3000}' || c == '\U{FEFF}'
  }

  ghost predicate AllWhitespace(s: string) {
    forall i :: 0 <= i < |s| ==> IsWhitespace(s[i])
  }

  /** Drops leading whitespace: the result is the suffix of `s` after its longest all-whitespace prefix. */
  function TrimStart(s: string): (r: string)
    ensures |r| <= |s| && r == s[|s| - |r|..]
    ensures r == [] || !IsWhitespace(r[0])
    ensures AllWhitespace(s[..|s| - |r|])
  {
    if s == [] then []
    else if IsWhitespace(s[0]) then
      var r := TrimStart(s[1..]);
      assert s[..|s| - |r|] == [s[0]] + s[1..][..|s| - 1 - |r|];
      r
    else s
  }

  /** Drops trailing whitespace: the result is the prefix of `s` before its longest all-whitespace suffix. */
  function TrimEnd(s: string): (r: string)
    ensures |r| <= |s| && r == s[..|r|]
    ensures r == [] || !IsWhitespace(r[|r| - 1])
    ensures AllWhitespace(s[|r|..])
  {
    if s == [] then []
    else if IsWhitespace(s[|s| - 1]) then
      var r := TrimEnd(s[..|s| - 1]);
      assert s[|r|..] == s[..|s| - 1][|r|..] + [s[|s| - 1]];
      r
    else s
  }

  /** `r` occurs in `s` starting at index `k`. */
  ghost predicate OccursAt(r: string, s: string, k: int) {
    0 <= k <= |s| - |r| && r == s[k..k + |r|]
  }

  /** Cutting leading whitespace leaves nothing exactly when `s` is blank. This follows from
      the contracts of `TrimStart` and `IsBlank`; it is stated on its own for `Trim` to use. */
  lemma TrimStartEmptyIffBlank(s: string)
    ensures TrimStart(s) == [] <==> IsBlank(s)
  {
  }

  /** Cutting trailing whitespace never empties a string that starts with a non-blank. This
      follows from the contract of `TrimEnd`; it is stated on its own for `Trim` to use. */
  lemma TrimEndKeepsNonBlankStart(t: string)
    ensures t != [] && !IsWhitespace(t[0]) ==> TrimEnd(t) != []
  {
  }

  /** `r` sits at index `k` of `s` with only whitespace before and after it. */
  ghost predicate TrimmedAt(r: string, s: string, k: int) {
    OccursAt(r, s, k) && AllWhitespace(s[..k]) && AllWhitespace(s[k + |r|..])
  }

  /** Cutting leading and then trailing whitespace leaves a piece of `s` with only
      whitespace around it. */
  lemma TrimBothEndsAt(s: string)
    ensures TrimmedAt(TrimEnd(TrimStart(s)), s, |s| - |TrimStart(s)|)
  {
    var t := TrimStart(s);
    var r := TrimEnd(t);
    var k := |s| - |t|;
    assert s[k..k + |r|] == t[..|r|];
    assert s[k + |r|..] == t[|r|..];
    assert TrimmedAt(r, s, k);
  }

  /** Cutting leading and then trailing whitespace leaves a piece that neither starts nor
      ends with whitespace. */
  lemma TrimBothEndsClean(s: string)
    ensures var r := TrimEnd(TrimStart(s));
      r == [] || (!IsWhitespace(r[0]) && !IsWhitespace(r[|r| - 1]))
  {
    var t := TrimStart(s);
    var r := TrimEnd(t);
    assert r != [] ==> r[0] == t[0];
  }

  /** `s.trim()`: the piece of `s` left once whitespace is cut from both ends; it neither
      starts nor ends with whitespace, and is empty exactly when `s` is blank. */
  function Trim(s: string): (r: string)
    ensures TrimmedAt(r, s, |s| - |TrimStart(s)|)
    ensures r == [] || (!IsWhitespace(r[0]) && !IsWhitespace(r[|r| - 1]))
    ensures !Truthy(r) <==> IsBlank(s)
  {
    TrimBothEndsAt(s);
    TrimBothEndsClean(s);
    TrimStartEmptyIffBlank(s);
    TrimEndKeepsNonBlankStart(TrimStart(s));
    TrimEnd(TrimStart(s))
  }

  /** Every character of `s` is whitespace (the empty string included): the messages
      `!s.trim()` rejects, as `Trim` shows. */
  predicate IsBlank(s: string): (b: bool)
    ensures b <==> AllWhitespace(s)
  {
    s == [] || (IsWhitespace(s[0]) && IsBlank(s[1..]))
  }

  /** `s.slice(0, end)` for a non-negative end: the prefix of `s` of length `min(end, |s|)`. */
  function Slice(s: string, end: nat): (r: string)
    ensures |r| == Min(end, |s|) && r == s[..|r|]
  {
    s[..Min(end, |s|)]
  }
}
