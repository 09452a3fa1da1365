/**
 * `tokenize` of src/lexer.ts in its imperative form: a cursor loop over the input that
 * grows the output list in place, with inner loops that consume the rest
 * of a run, and a nested `resetBuff` that flushes the pending buffer.
 */
module Lexer {
  import opened CharClasses
  import opened Tokens
  import opened Reference
  import opened Scanning
  import opened ScanProperties

  /** The locals of `tokenize` that `resetBuff` closes over and updates. */
  class Scanner {
    var out: seq<Token>
    var buff: string
    var typeBuff: TokenType

    constructor ()
      ensures out == [] && buff == [] && typeBuff == Error
    {
      out := [];
      buff := [];
      typeBuff := Error;
    }

    /**
     * `resetBuff`: push the pending buffer as a token and clear it, unless
     * it is empty and `allowEmpty` is false, in which case nothing changes.
     */
    method ResetBuff(allowEmpty: bool := false)
      modifies this
      ensures old(buff) != [] || allowEmpty ==>
        out == old(out) + [Token(old(buff), old(typeBuff))] && buff == [] && typeBuff == Error
      ensures old(buff) == [] && !allowEmpty ==>
        out == old(out) && buff == old(buff) && typeBuff == old(typeBuff)
    {
      if buff != [] || allowEmpty {
        out := out + [Token(buff, typeBuff)];
        buff := [];
        typeBuff := Error;
      }
    }

    /**
     * The inner loops of the string, identifier and number branches: append
     * to the buffer every following character that belongs to run `r`, and
     * return the position of the last character consumed.
     */
    method Extend(str: string, i: nat, r: Run) returns (j: nat)
      requires i < |str|
      modifies this
      ensures i <= j < |str| && j + 1 == RunEnd(str, i + 1, r)
      ensures buff == old(buff) + str[i + 1..j + 1]
      ensures out == old(out) && typeBuff == old(typeBuff)
    {
      j := i;
      while j + 1 < |str| && InRun(r, str[j + 1])
        invariant i <= j < |str|
        invariant forall k :: i < k <= j ==> InRun(r, str[k])
        invariant buff == old(buff) + str[i + 1..j + 1]
        invariant out == old(out) && typeBuff == old(typeBuff)
      {
        assert str[i + 1..j + 2] == str[i + 1..j + 1] + [str[j + 1]];
        j := j + 1;
        buff := buff + [str[j]];
      }
      RunEndIsMaximal(str, i + 1, j + 1, r);
    }

    /**
     * The body of `tokenize`'s main loop for the character at `i`: read one
     * token into the buffer and flush it, or skip a run of whitespace.
     * Returns where the cursor stands before the loop's own increment: on
     * the last character consumed, or on the end of the input after an
     * unterminated string literal.
     */
    method ReadNext(str: string, i: nat) returns (last: nat)
      requires i < |str| && buff == [] && typeBuff == Error
      modifies this
      ensures buff == [] && typeBuff == Error
      ensures out == old(out) + ScanAt(str, i).emitted
      ensures last + 1 == (if str[i] == Quote && RunEnd(str, i + 1, StringChars) == |str| then |str| + 1 else ScanAt(str, i).next)
    {
      var ch := str[i];
      if ch == Quote {
        last := ReadString(str, i);
      } else if IsWhitespace(ch) {
        ResetBuff();
        last := SkipWhitespace(str, i);
      } else if IsLetter(ch) {
        last := ReadIdentifier(str, i);
      } else if IsDigit(ch) {
        last := ReadNumber(str, i);
      } else if IsMultiCharStart(ch) && i + 1 < |str| && IsSymbol(str[i + 1]) {
        // a two-character symbol
        typeBuff := Symbol;
        last := i + 1;
        buff := buff + [ch, str[last]];
        assert str[i..i + 2] == buff;
        ResetBuff();
      } else if IsSymbol(ch) {
        typeBuff := Symbol;
        buff := buff + [ch];
        assert str[i..i + 1] == buff;
        ResetBuff();
        last := i;
      } else {
        // an unknown character keeps the pending kind, which is the sentinel
        buff := [ch];
        assert str[i..i + 1] == buff;
        ResetBuff();
        last := i;
      }
    }

    /**
     * The quote branch: buffer everything up to the next quote or the end
     * of the input and flush it even when empty. The cursor ends on the
     * closing quote, or one past the last character if there is none.
     */
    method ReadString(str: string, i: nat) returns (last: nat)
      requires i < |str| && buff == [] && typeBuff == Error && str[i] == Quote
      modifies this
      ensures buff == [] && typeBuff == Error
      ensures out == old(out) + ScanAt(str, i).emitted
      ensures last + 1 == (if RunEnd(str, i + 1, StringChars) == |str| then |str| + 1 else ScanAt(str, i).next)
    {
      typeBuff := StringLit;
      last := Extend(str, i, StringChars);
      assert buff == str[i + 1..last + 1];
      ResetBuff(true);
      last := last + 1;
    }

    /** The letter branch: buffer letters and digits, as many as possible, and flush. */
    method ReadIdentifier(str: string, i: nat) returns (last: nat)
      requires i < |str| && buff == [] && typeBuff == Error && IsLetter(str[i])
      modifies this
      ensures buff == [] && typeBuff == Error
      ensures out == old(out) + ScanAt(str, i).emitted
      ensures last + 1 == ScanAt(str, i).next
    {
      var ch := str[i];
      typeBuff := Identifier;
      buff := buff + [ch];
      last := Extend(str, i, IdentChars);
      assert buff == str[i..last + 1];
      ResetBuff();
    }

    /** The digit branch: buffer digits and dots, as many as possible, and flush. */
    method ReadNumber(str: string, i: nat) returns (last: nat)
      requires i < |str| && buff == [] && typeBuff == Error && IsDigit(str[i])
      modifies this
      ensures buff == [] && typeBuff == Error
      ensures out == old(out) + ScanAt(str, i).emitted
      ensures last + 1 == ScanAt(str, i).next
    {
      var ch := str[i];
      typeBuff := NumberLit;
      buff := buff + [ch];
      last := Extend(str, i, NumberChars);
      assert buff == str[i..last + 1];
      ResetBuff();
    }
  }

  /** The whitespace branch's inner loop: the position of the last whitespace character of the run at `i`. */
  method SkipWhitespace(str: string, i: nat) returns (j: nat)
    requires i < |str| && IsWhitespace(str[i])
    ensures i <= j < |str| && j + 1 == RunEnd(str, i, Spaces)
  {
    j := i;
    while j + 1 < |str| && IsWhitespace(str[j + 1])
      invariant i <= j < |str|
      invariant forall k :: i <= k <= j ==> InRun(Spaces, str[k])
    {
      j := j + 1;
    }
    RunEndIsMaximal(str, i, j + 1, Spaces);
  }

  /** After one iteration, the tokens emitted so far and the rest of the pass still make up the whole pass. */
  lemma ResumeScan(str: string, start: nat, i: nat, before: seq<Token>, after: seq<Token>)
    requires start < |str| && before + Scan(str, start) == Scan(str, 0)
    requires after == before + ScanAt(str, start).emitted
    requires i == ScanAt(str, start).next || (i == |str| + 1 == ScanAt(str, start).next + 1)
    ensures after + Scan(str, i) == Scan(str, 0)
  {
    var m := ScanAt(str, start);
    assert Scan(str, start) == m.emitted + Scan(str, i);
    Regroup(before, m.emitted, Scan(str, i));
  }

  /**
   * Sequence concatenation is associative. Stated once over tokens, so that
   * `ResumeScan` regroups its three parts without the solver searching for it.
   */
  lemma Regroup(a: seq<Token>, b: seq<Token>, c: seq<Token>)
    ensures (a + b) + c == a + (b + c)
  {
  }

  /**
   * `tokenize`: the token list of `str`. It is the pass `Scan` describes,
   * which is the unique maximal-munch lexing of `str`; it has at most one
   * token per character, every token has the shape of its kind, and the
   * token texts spell out the input without quotes and without whitespace
   * outside string literals.
   */
  method Tokenize(str: string) returns (out: seq<Token>)
    ensures out == Scan(str, 0)
    ensures Tiles(str, 0, out)
    ensures |out| <= |str|
    ensures forall t :: t in out ==> WellFormed(t)
    ensures Flatten(out) == Visible(str, false)
  {
    var sc := new Scanner();
    var i: nat := 0;
    while i < |str|
      invariant i <= |str| + 1
      invariant sc.buff == [] && sc.typeBuff == Error
      invariant sc.out + Scan(str, i) == Scan(str, 0)
    {
      ghost var before := sc.out;
      var last := sc.ReadNext(str, i);
      ResumeScan(str, i, last + 1, before, sc.out);
      i := last + 1;
    }
    out := sc.out;
    ScanGuarantees(str);
  }
}
