/**
 * Declarative descriptions of what the lexer produces, stated without
 * reference to how it scans: which token a position of the input yields,
 * when a token list is a lexing of a whole input, the shape of every token
 * kind, and the text that survives once quotes and whitespace outside
 * string literals are dropped.
 */
module Reference {
  import opened CharClasses
  import opened Tokens

  predicate IsIdentChar(c: char) { IsLetter(c) || IsDigit(c) }

  predicate IsNumberChar(c: char) { IsDigit(c) || c == '.' }

  /**
   * Token `t` is what the lexer reads from `s[p..q]`, where `q` is the first
   * position after everything it consumes (closing quote included).
   */
  predicate Lexes(s: string, p: nat, q: nat, t: Token) {
    p < q <= |s| &&
    match t.kind
    case StringLit =>
      // everything after the opening quote up to the next quote, or to the end
      var e := p + 1 + |t.value|;
      s[p] == Quote && e <= |s| && s[p + 1..e] == t.value && Quote !in t.value &&
      (if e < |s| then s[e] == Quote && q == e + 1 else q == e)
    case Identifier =>
      // a letter, then letters and digits, as many as possible
      t.value == s[p..q] && IsLetter(s[p]) &&
      (forall k :: p < k < q ==> IsIdentChar(s[k])) &&
      (q == |s| || !IsIdentChar(s[q]))
    case NumberLit =>
      // a digit, then digits and dots, as many as possible
      t.value == s[p..q] && IsDigit(s[p]) &&
      (forall k :: p < k < q ==> IsNumberChar(s[k])) &&
      (q == |s| || !IsNumberChar(s[q]))
    case Symbol =>
      // two characters exactly when the pair is allowed, else one
      t.value == s[p..q] && IsSymbol(s[p]) &&
      (if IsMultiCharStart(s[p]) && p + 1 < |s| && IsSymbol(s[p + 1]) then q == p + 2 else q == p + 1)
    case Error =>
      // one character outside every table
      q == p + 1 && t.value == [s[p]] && IsUnknown(s[p])
  }

  /** Whitespace fills `s[p..q]` and does not continue past it. */
  predicate SkipsWhitespace(s: string, p: nat, q: nat) {
    p < q <= |s| && (forall k :: p <= k < q ==> IsWhitespace(s[k])) &&
    (q == |s| || !IsWhitespace(s[q]))
  }

  /**
   * `ts` is a lexing of `s[i..]`: whitespace is skipped, and every other
   * position starts a token that `Lexes` describes, after which lexing
   * resumes where that token ends.
   */
  ghost predicate Tiles(s: string, i: nat, ts: seq<Token>)
    decreases |s| - i
  {
    if i >= |s| then ts == []
    else if IsWhitespace(s[i]) then Tiles(s, i + 1, ts)
    else ts != [] && exists q :: i < q <= |s| && Lexes(s, i, q, ts[0]) && Tiles(s, q, ts[1..])
  }

  /** The shape of a token of each kind, independent of the input it came from. */
  predicate WellFormed(t: Token) {
    match t.kind
    case StringLit => Quote !in t.value
    case Identifier =>
      |t.value| > 0 && IsLetter(t.value[0]) && forall c :: c in t.value ==> IsIdentChar(c)
    case NumberLit =>
      |t.value| > 0 && IsDigit(t.value[0]) && forall c :: c in t.value ==> IsNumberChar(c)
    case Symbol =>
      (|t.value| == 1 && IsSymbol(t.value[0])) ||
      (|t.value| == 2 && IsMultiCharStart(t.value[0]) && IsSymbol(t.value[1]))
    case Error => |t.value| == 1 && IsUnknown(t.value[0])
  }

  /**
   * The text of `s` with every quote removed and every whitespace character
   * removed unless it lies inside a string literal; `inString` says whether
   * an odd number of quotes precede `s`.
   */
  function Visible(s: string, inString: bool): string
    decreases |s|
  {
    if s == [] then []
    else if s[0] == Quote then Visible(s[1..], !inString)
    else if !inString && IsWhitespace(s[0]) then Visible(s[1..], inString)
    else [s[0]] + Visible(s[1..], inString)
  }

  /** The texts of the tokens, concatenated in order. */
  function Flatten(ts: seq<Token>): string
  {
    if ts == [] then [] else ts[0].value + Flatten(ts[1..])
  }
}
