/**
 * The lexer's single forward pass as functions: `ScanAt` is one iteration
 * of the main loop (what it emits and where the cursor goes next), `Scan`
 * the whole pass from a position.
 */
module Scanning {
  import opened CharClasses
  import opened Tokens
  import opened Reference

  /** The kinds of run an inner loop consumes. */
  datatype Run = Spaces | IdentChars | NumberChars | StringChars

  predicate InRun(r: Run, c: char) {
    match r
    case Spaces => IsWhitespace(c)
    case IdentChars => IsIdentChar(c)
    case NumberChars => IsNumberChar(c)
    case StringChars => c != Quote
  }

  /** The end of the longest run of `r`-characters of `s` that starts at `i`. */
  function RunEnd(s: string, i: nat, r: Run): (j: nat)
    requires i <= |s|
    ensures i <= j <= |s|
    ensures forall k :: i <= k < j ==> InRun(r, s[k])
    ensures j == |s| || !InRun(r, s[j])
    decreases |s| - i
  {
    if i < |s| && InRun(r, s[i]) then RunEnd(s, i + 1, r) else i
  }

  /** What one iteration emits (nothing or one token) and where scanning resumes. */
  datatype Move = Move(emitted: seq<Token>, next: nat)

  /** One iteration of the main loop, from the character at `i`. */
  function ScanAt(s: string, i: nat): (m: Move)
    requires i < |s|
    ensures i < m.next <= |s|
    ensures m.emitted == [] <==> IsWhitespace(s[i])
    ensures |m.emitted| <= 1
  {
    if s[i] == Quote then
      var e := RunEnd(s, i + 1, StringChars);
      Move([Token(s[i + 1..e], StringLit)], if e < |s| then e + 1 else e)
    else if IsWhitespace(s[i]) then
      Move([], RunEnd(s, i, Spaces))
    else if IsLetter(s[i]) then
      var e := RunEnd(s, i + 1, IdentChars);
      Move([Token(s[i..e], Identifier)], e)
    else if IsDigit(s[i]) then
      var e := RunEnd(s, i + 1, NumberChars);
      Move([Token(s[i..e], NumberLit)], e)
    else if IsMultiCharStart(s[i]) && i + 1 < |s| && IsSymbol(s[i + 1]) then
      Move([Token(s[i..i + 2], Symbol)], i + 2)
    else if IsSymbol(s[i]) then
      Move([Token(s[i..i + 1], Symbol)], i + 1)
    else
      Move([Token(s[i..i + 1], Error)], i + 1)
  }

  /**
   * The tokens the lexer emits from position `i` to the end of `s`. The
   * cursor moves forward on every iteration, so there are at most as many
   * tokens as characters left.
   */
  function Scan(s: string, i: nat): (ts: seq<Token>)
    ensures i <= |s| ==> |ts| <= |s| - i
    decreases |s| - i
  {
    if i >= |s| then []
    else
      var m := ScanAt(s, i);
      m.emitted + Scan(s, m.next)
  }
}
