/**
 * What the lexer guarantees, proved about the functional model `Scan`:
 * each iteration reads exactly the token the declarative description
 * allows, the whole pass is the unique lexing of the input, every token has
 * the shape of its kind, the pass emits at most one token per character,
 * and the token texts give back the input minus quotes and whitespace
 * outside string literals.
 */
module ScanProperties {
  import opened CharClasses
  import opened Tokens
  import opened Reference
  import opened Scanning

  /** A run that stops where `RunEnd` says it must is the one `RunEnd` finds. */
  lemma RunEndIsMaximal(s: string, i: nat, j: nat, r: Run)
    requires i <= j <= |s|
    requires forall k :: i <= k < j ==> InRun(r, s[k])
    requires j == |s| || !InRun(r, s[j])
    ensures RunEnd(s, i, r) == j
  {
  }

  /** A position of the input starts at most one token: the description is deterministic. */
  lemma LexesUnique(s: string, p: nat, q: nat, t: Token, q': nat, t': Token)
    requires Lexes(s, p, q, t) && Lexes(s, p, q', t')
    ensures q == q' && t == t'
  {
    assert t.kind == t'.kind by {
      var k := Classify(s[p]);
    }
  }

  /**
   * One iteration skips a maximal run of whitespace, or emits the one token
   * that `Lexes` describes at that position and resumes right after it.
   */
  lemma ScanAtLexes(s: string, i: nat)
    requires i < |s|
    ensures ScanAt(s, i).emitted == [] ==> SkipsWhitespace(s, i, ScanAt(s, i).next)
    ensures ScanAt(s, i).emitted != [] ==> Lexes(s, i, ScanAt(s, i).next, ScanAt(s, i).emitted[0])
  {
  }

  /**
   * One iteration of the main loop emits token `t` and resumes at `q`
   * exactly when `t` is the token that `Lexes` assigns to that position.
   */
  lemma ScanAtExactly(s: string, i: nat, q: nat, t: Token)
    requires i < |s|
    ensures ScanAt(s, i) == Move([t], q) <==> Lexes(s, i, q, t)
  {
    var m := ScanAt(s, i);
    ScanAtLexes(s, i);
    if Lexes(s, i, q, t) {
      assert !IsWhitespace(s[i]) by {
        var k := Classify(s[i]);
      }
      LexesUnique(s, i, q, t, m.next, m.emitted[0]);
    }
  }

  /** A whitespace character emits nothing and changes nothing about what follows. */
  lemma ScanSkipsSpace(s: string, i: nat)
    requires i < |s| && IsWhitespace(s[i])
    ensures Scan(s, i) == Scan(s, i + 1)
  {
    assert RunEnd(s, i, Spaces) == RunEnd(s, i + 1, Spaces);
    if i + 1 < |s| && !IsWhitespace(s[i + 1]) {
      assert RunEnd(s, i + 1, Spaces) == i + 1;
    }
  }

  /** The pass is a lexing of the input. */
  lemma {:induction false} ScanTiles(s: string, i: nat)
    ensures Tiles(s, i, Scan(s, i))
    decreases |s| - i
  {
    if i < |s| {
      var m := ScanAt(s, i);
      if IsWhitespace(s[i]) {
        ScanSkipsSpace(s, i);
        ScanTiles(s, i + 1);
      } else {
        ScanTiles(s, m.next);
        ScanAtLexes(s, i);
        assert Scan(s, i)[1..] == Scan(s, m.next);
        assert Lexes(s, i, m.next, Scan(s, i)[0]);
      }
    }
  }

  /** Any lexing of the input is the one the pass produces. */
  lemma {:induction false} TilesUnique(s: string, i: nat, ts: seq<Token>)
    requires Tiles(s, i, ts)
    ensures ts == Scan(s, i)
    decreases |s| - i
  {
    if i < |s| {
      if IsWhitespace(s[i]) {
        TilesUnique(s, i + 1, ts);
        ScanSkipsSpace(s, i);
      } else {
        var q :| i < q <= |s| && Lexes(s, i, q, ts[0]) && Tiles(s, q, ts[1..]);
        TilesUnique(s, q, ts[1..]);
        ScanAtExactly(s, i, q, ts[0]);
      }
    }
  }

  /** The token list of the input is exactly its unique maximal-munch lexing. */
  lemma ScanCharacterization(s: string, ts: seq<Token>)
    ensures Tiles(s, 0, ts) <==> ts == Scan(s, 0)
  {
    if Tiles(s, 0, ts) {
      TilesUnique(s, 0, ts);
    }
    if ts == Scan(s, 0) {
      ScanTiles(s, 0);
    }
  }

  /** A token that `Lexes` describes has the shape of its kind. */
  lemma LexesWellFormed(s: string, p: nat, q: nat, t: Token)
    requires Lexes(s, p, q, t)
    ensures WellFormed(t)
  {
    match t.kind
    case Identifier =>
      forall c | c in t.value ensures IsIdentChar(c) {
        var k :| 0 <= k < |t.value| && t.value[k] == c;
        assert c == s[p + k];
      }
    case NumberLit =>
      forall c | c in t.value ensures IsNumberChar(c) {
        var k :| 0 <= k < |t.value| && t.value[k] == c;
        assert c == s[p + k];
      }
    case StringLit =>
    case Symbol =>
    case Error =>
  }

  /**
   * Every emitted token has the shape of its kind; in particular only a
   * string literal can be empty, and a token of the sentinel kind `Error`
   * is exactly one unknown character.
   */
  lemma {:induction false} ScanWellFormed(s: string, i: nat)
    ensures forall t :: t in Scan(s, i) ==> WellFormed(t)
    ensures forall t :: t in Scan(s, i) && t.value == [] ==> t.kind == StringLit
    decreases |s| - i
  {
    if i < |s| {
      var m := ScanAt(s, i);
      ScanWellFormed(s, m.next);
      if m.emitted != [] {
        ScanAtLexes(s, i);
        LexesWellFormed(s, i, m.next, m.emitted[0]);
      }
      assert Scan(s, i) == m.emitted + Scan(s, m.next);
    }
  }

  /** Empty input yields no tokens. */
  lemma EmptyInput()
    ensures Scan("", 0) == []
  {
  }

  lemma {:induction false} FlattenAppend(a: seq<Token>, b: seq<Token>)
    ensures Flatten(a + b) == Flatten(a) + Flatten(b)
  {
    if a != [] {
      assert (a + b)[0] == a[0];
      assert (a + b)[1..] == a[1..] + b;
      FlattenAppend(a[1..], b);
    } else {
      assert a + b == b;
    }
  }

  /** Characters that are kept verbatim pass through `Visible` unchanged. */
  lemma {:induction false} VisibleKeeps(s: string, i: nat, j: nat, inString: bool)
    requires i <= j <= |s|
    requires forall k :: i <= k < j ==> s[k] != Quote && (inString || !IsWhitespace(s[k]))
    ensures Visible(s[i..], inString) == s[i..j] + Visible(s[j..], inString)
    decreases j - i
  {
    if i < j {
      assert s[i..][1..] == s[i + 1..];
      VisibleKeeps(s, i + 1, j, inString);
      assert s[i..j] == [s[i]] + s[i + 1..j];
    }
  }

  /** Whitespace outside a string literal disappears from `Visible`. */
  lemma {:induction false} VisibleDrops(s: string, i: nat, j: nat)
    requires i <= j <= |s|
    requires forall k :: i <= k < j ==> IsWhitespace(s[k])
    ensures Visible(s[i..], false) == Visible(s[j..], false)
    decreases j - i
  {
    if i < j {
      assert s[i..][1..] == s[i + 1..];
      VisibleDrops(s, i + 1, j);
    }
  }

  /** One iteration emits exactly the visible text of the characters it consumes. */
  lemma ScanAtVisible(s: string, i: nat)
    requires i < |s|
    ensures Visible(s[i..], false) == Flatten(ScanAt(s, i).emitted) + Visible(s[ScanAt(s, i).next..], false)
  {
    var m := ScanAt(s, i);
    if s[i] == Quote {
      var e := RunEnd(s, i + 1, StringChars);
      assert s[i..][1..] == s[i + 1..];
      VisibleKeeps(s, i + 1, e, true);
      if e < |s| {
        assert s[e..][1..] == s[e + 1..];
      }
      assert Flatten(m.emitted) == s[i + 1..e];
    } else if IsWhitespace(s[i]) {
      ScanAtLexes(s, i);
      VisibleDrops(s, i, m.next);
    } else {
      var t := m.emitted[0];
      assert t.value == s[i..m.next] by {
        var k := Classify(s[i]);
      }
      forall k | i <= k < m.next ensures s[k] != Quote && !IsWhitespace(s[k]) {
        var c := Classify(s[k]);
      }
      VisibleKeeps(s, i, m.next, false);
      assert Flatten(m.emitted) == t.value;
    }
  }

  /**
   * Concatenating the token texts in order gives the input with every
   * quote removed and every whitespace character outside string literals
   * removed: nothing is invented, reordered or lost.
   */
  lemma {:induction false} ScanReconstructs(s: string, i: nat)
    requires i <= |s|
    ensures Flatten(Scan(s, i)) == Visible(s[i..], false)
    decreases |s| - i
  {
    if i < |s| {
      var m := ScanAt(s, i);
      ScanReconstructs(s, m.next);
      FlattenAppend(m.emitted, Scan(s, m.next));
      ScanAtVisible(s, i);
    }
  }

  /** Everything the lexer promises about the token list of a whole input. */
  lemma ScanGuarantees(s: string)
    ensures Tiles(s, 0, Scan(s, 0))
    ensures |Scan(s, 0)| <= |s|
    ensures forall t :: t in Scan(s, 0) ==> WellFormed(t)
    ensures Flatten(Scan(s, 0)) == Visible(s, false)
  {
    ScanTiles(s, 0);
    ScanWellFormed(s, 0);
    ScanReconstructs(s, 0);
    assert s[0..] == s;
  }
}
