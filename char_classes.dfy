/**
 * The character tables of the lexer: quote, whitespace, letters, digits,
 * the punctuation set and the subset of it that may open a two-character
 * symbol. Anything in none of the tables is "unknown".
 */
module CharClasses {

  const Quote: char := '"'

  /** `whitespace`: space, tab and newline. */
  predicate IsWhitespace(c: char) {
    c == ' ' || c == '\t' || c == '\n'
  }

  /** `letters`: the ASCII letters and the underscore. */
  predicate IsLetter(c: char) {
    'A' <= c <= 'Z' || 'a' <= c <= 'z' || c == '_'
  }

  /** `numbers`: the ASCII decimal digits. */
  predicate IsDigit(c: char) {
    '0' <= c <= '9'
  }

  /** `symbols`: the 29 punctuation characters. */
  predicate IsSymbol(c: char) {
    c in {'\\', '|', '!', '@', '#', '$', '%', '&', '/', '(', ')', '=', '?', '{', '[',
          ']', '}', '\'', '*', '+', '-', '.', ':', ',', ';', '<', '>', '~', '^'}
  }

  /** `multiCharSymbols`: the symbols that may open a two-character symbol. */
  predicate IsMultiCharStart(c: char) {
    c in {'!', '=', '<', '>', '*'}
  }

  /** A character in none of the tables. */
  predicate IsUnknown(c: char) {
    c != Quote && !IsWhitespace(c) && !IsLetter(c) && !IsDigit(c) && !IsSymbol(c)
  }

  datatype CharClass = QuoteClass | WhitespaceClass | LetterClass | DigitClass | SymbolClass | UnknownClass

  /**
   * The class that the lexer's tests select, taken in the lexer's order.
   * Its contract proves the tables pairwise disjoint: each class holds
   * exactly when the character is in that table, whatever the order of
   * the tests.
   */
  function Classify(c: char): (k: CharClass)
    ensures k == QuoteClass <==> c == Quote
    ensures k == WhitespaceClass <==> IsWhitespace(c)
    ensures k == LetterClass <==> IsLetter(c)
    ensures k == DigitClass <==> IsDigit(c)
    ensures k == SymbolClass <==> IsSymbol(c)
    ensures k == UnknownClass <==> IsUnknown(c)
    ensures IsMultiCharStart(c) ==> k == SymbolClass
  {
    if c == Quote then QuoteClass
    else if IsWhitespace(c) then WhitespaceClass
    else if IsLetter(c) then LetterClass
    else if IsDigit(c) then DigitClass
    else if IsSymbol(c) then SymbolClass
    else UnknownClass
  }
}
