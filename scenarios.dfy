/**
 * The lexer on concrete inputs: the documented behaviours at the edges
 * (an empty string literal, an unterminated one, two-character symbols,
 * dotted numbers, whitespace runs, an unknown character), worked out one
 * loop iteration at a time.
 */
module Scenarios {
  import opened Tokens
  import opened Scanning
  import opened ScanProperties

  /** `""` is flushed even though its buffer is empty. */
  lemma EmptyStringLiteral()
    ensures Scan("\"\"", 0) == [Token("", StringLit)]
  {
    var s := "\"\"";
    assert RunEnd(s, 1, StringChars) == 1;
    assert s[1..1] == "";
    assert ScanAt(s, 0) == Move([Token("", StringLit)], 2);
  }

  /** A string literal with no closing quote runs to the end of the input. */
  lemma UnterminatedString()
    ensures Scan("\"unterminated", 0) == [Token("unterminated", StringLit)]
  {
    var s := "\"unterminated";
    RunEndIsMaximal(s, 1, |s|, StringChars);
    assert s[1..|s|] == "unterminated";
    assert ScanAt(s, 0) == Move([Token("unterminated", StringLit)], |s|);
  }

  /** Quotes are stripped and whitespace inside a string literal is kept. */
  lemma QuotedWords()
    ensures Scan("\"hello world\"", 0) == [Token("hello world", StringLit)]
  {
    var s := "\"hello world\"";
    RunEndIsMaximal(s, 1, 12, StringChars);
    assert s[1..12] == "hello world";
    assert ScanAt(s, 0) == Move([Token("hello world", StringLit)], 13);
  }

  /** `==` is one symbol; the spaces around it emit nothing. */
  lemma DoubleEquals()
    ensures Scan("x == y", 0) == [Token("x", Identifier), Token("==", Symbol), Token("y", Identifier)]
  {
    var s := "x == y";
    RunEndIsMaximal(s, 1, 1, IdentChars);
    assert s[0..1] == "x";
    assert ScanAt(s, 0) == Move([Token("x", Identifier)], 1);
    RunEndIsMaximal(s, 1, 2, Spaces);
    assert ScanAt(s, 1) == Move([], 2);
    assert s[2..4] == "==";
    assert ScanAt(s, 2) == Move([Token("==", Symbol)], 4);
    RunEndIsMaximal(s, 4, 5, Spaces);
    assert ScanAt(s, 4) == Move([], 5);
    RunEndIsMaximal(s, 6, 6, IdentChars);
    assert s[5..6] == "y";
    assert ScanAt(s, 5) == Move([Token("y", Identifier)], 6);
  }

  /** Letters then digits make one identifier. */
  lemma IdentifierWithDigits()
    ensures Scan("abc123 def", 0) == [Token("abc123", Identifier), Token("def", Identifier)]
  {
    var s := "abc123 def";
    RunEndIsMaximal(s, 1, 6, IdentChars);
    assert s[0..6] == "abc123";
    assert ScanAt(s, 0) == Move([Token("abc123", Identifier)], 6);
    RunEndIsMaximal(s, 6, 7, Spaces);
    assert ScanAt(s, 6) == Move([], 7);
    RunEndIsMaximal(s, 8, 10, IdentChars);
    assert s[7..10] == "def";
    assert ScanAt(s, 7) == Move([Token("def", Identifier)], 10);
  }

  /** A number keeps its dots; `+` followed by a space is a one-character symbol. */
  lemma NumbersAndPlus()
    ensures Scan("3.14 + 2", 0) == [Token("3.14", NumberLit), Token("+", Symbol), Token("2", NumberLit)]
  {
    var s := "3.14 + 2";
    RunEndIsMaximal(s, 1, 4, NumberChars);
    assert s[0..4] == "3.14";
    assert ScanAt(s, 0) == Move([Token("3.14", NumberLit)], 4);
    RunEndIsMaximal(s, 4, 5, Spaces);
    assert ScanAt(s, 4) == Move([], 5);
    assert s[5..6] == "+";
    assert ScanAt(s, 5) == Move([Token("+", Symbol)], 6);
    RunEndIsMaximal(s, 6, 7, Spaces);
    assert ScanAt(s, 6) == Move([], 7);
    RunEndIsMaximal(s, 8, 8, NumberChars);
    assert s[7..8] == "2";
    assert ScanAt(s, 7) == Move([Token("2", NumberLit)], 8);
  }

  /** Dots are not validated: `1.2.3` is a single number. */
  lemma DottedNumber()
    ensures Scan("1.2.3", 0) == [Token("1.2.3", NumberLit)]
  {
    var s := "1.2.3";
    RunEndIsMaximal(s, 1, 5, NumberChars);
    assert s[0..5] == "1.2.3";
    assert ScanAt(s, 0) == Move([Token("1.2.3", NumberLit)], 5);
  }

  /** A mixed run of spaces, tabs and newlines emits nothing. */
  lemma WhitespaceRun()
    ensures Scan("a   \t\n  b", 0) == [Token("a", Identifier), Token("b", Identifier)]
  {
    var s := "a   \t\n  b";
    RunEndIsMaximal(s, 1, 1, IdentChars);
    assert s[0..1] == "a";
    assert ScanAt(s, 0) == Move([Token("a", Identifier)], 1);
    RunEndIsMaximal(s, 1, 8, Spaces);
    assert ScanAt(s, 1) == Move([], 8);
    RunEndIsMaximal(s, 9, 9, IdentChars);
    assert s[8..9] == "b";
    assert ScanAt(s, 8) == Move([Token("b", Identifier)], 9);
  }

  /** A character in no table becomes a one-character token of the sentinel kind. */
  lemma UnknownCharacter()
    ensures Scan("a`", 0) == [Token("a", Identifier), Token("`", Error)]
  {
    var s := "a`";
    RunEndIsMaximal(s, 1, 1, IdentChars);
    assert s[0..1] == "a";
    assert ScanAt(s, 0) == Move([Token("a", Identifier)], 1);
    assert s[1..2] == "`";
    assert ScanAt(s, 1) == Move([Token("`", Error)], 2);
  }

  /** `*` opens a two-character symbol with any symbol, not only with a fixed list of partners. */
  lemma AnyPairAfterMultiStart()
    ensures Scan("*(", 0) == [Token("*(", Symbol)]
  {
    var s := "*(";
    assert s[0..2] == "*(";
    assert ScanAt(s, 0) == Move([Token("*(", Symbol)], 2);
  }
}
