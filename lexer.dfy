/**
 * The lexer driver (utils/src/frontend/lexer.rs). Matching characters
 * against the token patterns is logos's work and is not modelled: the
 * driver receives the stream logos would produce, one RawResult per match
 * or per unmatched slice, each with its byte span. The driver turns matches
 * into positioned tokens and unmatched slices into E001 errors, appends an
 * Eof token, and drops layout tokens.
 */
module Lexing {
  import opened Tokens
  import Handlers

  /** One result of logos's iterator: a matched token type, or an error, with slice and span. */
  datatype RawResult =
    | Matched(kind: TokenType, slice: string, start: nat, end: nat)
    | Unmatched(slice: string, start: nat, end: nat)

  /** Where the last span ended; 0 before any. */
  function LastEnd(raw: seq<RawResult>): nat
  {
    if raw == [] then 0 else raw[|raw| - 1].end
  }

  /** logos hands out spans left to right without overlap: each starts where the previous one ended or later. */
  predicate Ordered(raw: seq<RawResult>)
    decreases |raw|
  {
    raw == [] ||
    (var init, last := raw[..|raw| - 1], raw[|raw| - 1];
     Ordered(init) && LastEnd(init) <= last.start <= last.end)
  }

  /** Every prefix of an ordered stream is ordered. */
  lemma {:induction false} OrderedPrefix(raw: seq<RawResult>, i: nat)
    requires Ordered(raw) && i <= |raw|
    ensures Ordered(raw[..i])
    decreases |raw|
  {
    if i < |raw| {
      assert raw[..|raw| - 1][..i] == raw[..i];
      OrderedPrefix(raw[..|raw| - 1], i);
    } else {
      assert raw[..i] == raw;
    }
  }

  /** The pairwise reading of Ordered: spans are well formed and do not overlap. */
  lemma {:induction false} OrderedSpans(raw: seq<RawResult>, i: nat)
    requires Ordered(raw) && i < |raw|
    ensures raw[i].start <= raw[i].end
    ensures 0 < i ==> raw[i - 1].end <= raw[i].start
    decreases |raw|
  {
    if i < |raw| - 1 {
      OrderedSpans(raw[..|raw| - 1], i);
    }
  }

  /**
   * The driver's state: logos's extras (lines seen, byte offset where the
   * current line starts), the running token_position, and what has been
   * produced so far.
   */
  datatype ScanState = ScanState(
    lines: nat,
    lineStart: nat,
    position: Position,
    tokens: seq<Token>,
    errors: seq<Handlers.Error>)

  /** The E001 error the lexer records for a slice no pattern matches. */
  function NonExistentToken(slice: string, line: nat, column: nat): Handlers.Error
  {
    Handlers.Script(Handlers.ScriptError(
      Handlers.BaseError(
        Handlers.Message(Handlers.NonExistentToken(slice), Handlers.Lexer),
        Handlers.E001),
      line, column))
  }

  /**
   * One iteration of lex's loop. On a newline, new_line_callback has already
   * counted the line and moved the line start to the end of the newline; the
   * column of any other token is its offset from the line start.
   */
  function Step(st: ScanState, r: RawResult): ScanState
    requires st.lineStart <= r.start
  {
    match r
    case Matched(kind, slice, start, end) =>
      if kind.NewLine? then
        var position := Position(st.position.line + 1, 0);
        st.(lines := st.lines + 1, lineStart := end, position := position,
            tokens := st.tokens + [NewToken(kind, slice, position.line, position.column)])
      else
        var position := Position(st.position.line, start - st.lineStart);
        st.(position := position, tokens := st.tokens + [NewToken(kind, slice, position.line, position.column)])
    case Unmatched(slice, start, _) =>
      st.(errors := st.errors + [NonExistentToken(slice, st.lines, start - st.lineStart)])
  }

  /**
   * The loop of lex over a whole stream, before the Eof token. The line
   * start never passes the end of the last span, so no column subtraction
   * underflows, and token_position's line always equals the line count.
   */
  function Scan(raw: seq<RawResult>): (st: ScanState)
    requires Ordered(raw)
    ensures st.lineStart <= LastEnd(raw)
    ensures st.position.line == st.lines
    decreases |raw|
  {
    if raw == [] then ScanState(0, 0, Position(0, 0), [], [])
    else
      var prev := Scan(raw[..|raw| - 1]);
      Step(prev, raw[|raw| - 1])
  }

  predicate IsLayout(k: TokenType)
  {
    k.NewLine? || k.Space?
  }

  /** lex_trim_result: the tokens that are not newlines or spaces, in order. */
  function Trim(ts: seq<Token>): (r: seq<Token>)
    ensures |r| <= |ts|
    ensures forall i :: 0 <= i < |r| ==> !IsLayout(r[i].kind)
  {
    if ts == [] then []
    else Trim(ts[..|ts| - 1]) + (if IsLayout(ts[|ts| - 1].kind) then [] else [ts[|ts| - 1]])
  }

  /** The token lex appends after the loop. */
  function EofToken(position: Position): Token
  {
    NewToken(Eof, "EOF", position.line, position.column)
  }

  /** Scanning one more result of an ordered stream is one more Step. */
  lemma ScanStep(raw: seq<RawResult>, i: nat)
    requires Ordered(raw) && i < |raw|
    ensures Ordered(raw[..i]) && Ordered(raw[..i + 1])
    ensures Scan(raw[..i]).lineStart <= raw[i].start
    ensures Scan(raw[..i + 1]) == Step(Scan(raw[..i]), raw[i])
  {
    OrderedPrefix(raw, i + 1);
    assert raw[..i + 1][..i] == raw[..i];
  }

  /** Concatenation regroups freely. */
  lemma Associative<T>(a: seq<T>, b: seq<T>, c: seq<T>)
    ensures a + (b + c) == (a + b) + c
  {
  }

  /**
   * The body of lex's loop: from logos's extras and token_position (those
   * of the scan state st), what one result adds (a token for a match, an
   * E001 error otherwise) and the new extras and position, all as Step says.
   */
  method LexOne(ghost st: ScanState, lines: nat, lineStart: nat, position: Position, r: RawResult)
    returns (lines': nat, lineStart': nat, position': Position, token: seq<Token>, error: seq<Handlers.Error>)
    requires lines == st.lines && lineStart == st.lineStart && position == st.position
    requires lineStart <= r.start
    ensures Step(st, r) == ScanState(lines', lineStart', position', st.tokens + token, st.errors + error)
  {
    lines', lineStart', position' := lines, lineStart, position;
    token, error := [], [];
    match r {
      case Matched(kind, slice, start, end) =>
        if kind.NewLine? {
          lines', lineStart' := lines + 1, end;
          position' := Position(position.line + 1, 0);
        } else {
          position' := Position(position.line, start - lineStart);
        }
        token := [NewToken(kind, slice, position'.line, position'.column)];
      case Unmatched(slice, start, _) =>
        error := [NonExistentToken(slice, lines, start - lineStart)];
    }
  }

  class Lexer {
    var tokens: seq<Token>
    var errors: seq<Handlers.Error>

    /** Lexer::new: nothing lexed yet. */
    constructor ()
      ensures tokens == [] && errors == []
    {
      tokens := [];
      errors := [];
    }

    /**
     * lex: run the loop over the stream, append Eof at the last token's
     * position, then trim. Tokens and errors add to what the lexer already holds.
     */
    method Lex(raw: seq<RawResult>)
      requires Ordered(raw)
      modifies this`tokens, this`errors
      ensures errors == old(errors) + Scan(raw).errors
      ensures tokens == Trim(old(tokens) + Scan(raw).tokens + [EofToken(Scan(raw).position)])
    {
      var lines, lineStart := 0, 0;
      var position := Position(0, 0);
      var i := 0;
      ghost var st, tokens0, errors0 := Scan([]), tokens, errors;
      assert raw[..0] == [];
      while i < |raw|
        invariant 0 <= i <= |raw|
        invariant Ordered(raw[..i]) && st == Scan(raw[..i])
        invariant lines == st.lines && lineStart == st.lineStart && position == st.position
        invariant tokens == tokens0 + st.tokens && errors == errors0 + st.errors
      {
        ScanStep(raw, i);
        var token, error;
        lines, lineStart, position, token, error := LexOne(st, lines, lineStart, position, raw[i]);
        Associative(tokens0, st.tokens, token);
        Associative(errors0, st.errors, error);
        tokens := tokens + token;
        errors := errors + error;
        st := Step(st, raw[i]);
        i := i + 1;
      }
      assert raw[..i] == raw;
      tokens := tokens + [EofToken(position)];
      LexTrimResult();
    }

    /** lex_trim_result: drop the newline and space tokens. */
    method LexTrimResult()
      modifies this`tokens
      ensures tokens == Trim(old(tokens)) && errors == old(errors)
    {
      var result: seq<Token> := [];
      for i := 0 to |tokens|
        invariant result == Trim(tokens[..i])
      {
        assert tokens[..i + 1][..i] == tokens[..i];
        match tokens[i].kind {
          case NewLine =>
          case Space =>
          case _ => result := result + [tokens[i]];
        }
      }
      assert tokens[..|tokens|] == tokens;
      tokens := result;
    }
  }

  // ---------------------------------------------------------------------------
  // Trimming

  /** Trimming distributes over concatenation. */
  lemma {:induction false} TrimAppend(a: seq<Token>, b: seq<Token>)
    ensures Trim(a + b) == Trim(a) + Trim(b)
    decreases |b|
  {
    if b == [] {
      assert a + b == a;
    } else {
      var b' := b[..|b| - 1];
      assert (a + b)[..|a + b| - 1] == a + b';
      assert (a + b)[|a + b| - 1] == b[|b| - 1];
      TrimAppend(a, b');
    }
  }

  /** Trimming keeps every token that is not layout. */
  lemma {:induction false} TrimKeeps(ts: seq<Token>, i: nat)
    requires i < |ts| && !IsLayout(ts[i].kind)
    ensures ts[i] in Trim(ts)
    decreases |ts|
  {
    if i < |ts| - 1 {
      TrimKeeps(ts[..|ts| - 1], i);
    }
  }

  /** Trimming only drops tokens: everything it returns comes from its input. */
  lemma {:induction false} TrimTakesFromInput(ts: seq<Token>)
    ensures forall t :: t in Trim(ts) ==> t in ts
    decreases |ts|
  {
    if ts != [] {
      var init := ts[..|ts| - 1];
      TrimTakesFromInput(init);
      assert forall t :: t in init ==> t in ts;
    }
  }

  /** A stream without layout tokens is left as it is. */
  lemma {:induction false} TrimWithoutLayout(ts: seq<Token>)
    requires forall i :: 0 <= i < |ts| ==> !IsLayout(ts[i].kind)
    ensures Trim(ts) == ts
    decreases |ts|
  {
    if ts != [] {
      var init := ts[..|ts| - 1];
      assert forall i :: 0 <= i < |init| ==> init[i] == ts[i];
      TrimWithoutLayout(init);
      assert ts == init + [ts[|ts| - 1]];
    }
  }

  /** Trimming twice is trimming once. */
  lemma TrimIdempotent(ts: seq<Token>)
    ensures Trim(Trim(ts)) == Trim(ts)
  {
    TrimWithoutLayout(Trim(ts));
  }

  // ---------------------------------------------------------------------------
  // What the loop produces, stated against the raw stream

  /** The number of newline matches in a stream. */
  function NewLines(raw: seq<RawResult>): nat
  {
    if raw == [] then 0
    else NewLines(raw[..|raw| - 1])
         + (if raw[|raw| - 1].Matched? && raw[|raw| - 1].kind.NewLine? then 1 else 0)
  }

  /** Where the last newline match ended; 0 before any. */
  function LastNewLineEnd(raw: seq<RawResult>): nat
  {
    if raw == [] then 0
    else if raw[|raw| - 1].Matched? && raw[|raw| - 1].kind.NewLine? then raw[|raw| - 1].end
    else LastNewLineEnd(raw[..|raw| - 1])
  }

  /** The (type, slice) pairs of the matches, in order. */
  function Matches(raw: seq<RawResult>): seq<(TokenType, string)>
  {
    if raw == [] then []
    else Matches(raw[..|raw| - 1])
         + match raw[|raw| - 1]
           case Matched(kind, slice, _, _) => [(kind, slice)]
           case Unmatched(_, _, _) => []
  }

  /** The slices no pattern matched, in order. */
  function UnmatchedSlices(raw: seq<RawResult>): seq<string>
  {
    if raw == [] then []
    else UnmatchedSlices(raw[..|raw| - 1])
         + match raw[|raw| - 1]
           case Matched(_, _, _, _) => []
           case Unmatched(slice, _, _) => [slice]
  }

  function KindsAndValues(ts: seq<Token>): (r: seq<(TokenType, string)>)
    ensures |r| == |ts|
    ensures forall i :: 0 <= i < |ts| ==> r[i] == (ts[i].kind, ts[i].value)
  {
    if ts == [] then [] else KindsAndValues(ts[..|ts| - 1]) + [(ts[|ts| - 1].kind, ts[|ts| - 1].value)]
  }

  /** Is this an E001 script error issued by the lexer about this slice? */
  predicate ReportsSlice(e: Handlers.Error, slice: string)
  {
    e.Script? && e.script.base.code == Handlers.E001
    && e.script.base.message.from == Handlers.Lexer
    && e.script.base.message.content == Handlers.NonExistentToken(slice)
  }

  /**
   * The line count is the number of newlines seen, and the current line
   * starts where the last newline ended.
   */
  lemma {:induction false} ScanTracksLines(raw: seq<RawResult>)
    requires Ordered(raw)
    ensures Scan(raw).lines == NewLines(raw) && Scan(raw).position.line == NewLines(raw)
    ensures Scan(raw).lineStart == LastNewLineEnd(raw)
    decreases |raw|
  {
    if raw != [] {
      ScanTracksLines(raw[..|raw| - 1]);
    }
  }

  /** One step adds the match it is given, if any, to the (type, slice) pairs. */
  lemma StepKeepsMatch(st: ScanState, r: RawResult)
    requires st.lineStart <= r.start
    ensures KindsAndValues(Step(st, r).tokens)
            == KindsAndValues(st.tokens) + (if r.Matched? then [(r.kind, r.slice)] else [])
  {
    var after := Step(st, r).tokens;
    if r.Matched? {
      assert after[..|after| - 1] == st.tokens;
    } else {
      assert after == st.tokens;
    }
  }

  /** Every match becomes one token with its type and slice, in order. */
  lemma {:induction false} ScanKeepsMatches(raw: seq<RawResult>)
    requires Ordered(raw)
    ensures KindsAndValues(Scan(raw).tokens) == Matches(raw)
    decreases |raw|
  {
    if raw != [] {
      var prefix := raw[..|raw| - 1];
      ScanKeepsMatches(prefix);
      StepKeepsMatch(Scan(prefix), raw[|raw| - 1]);
    }
  }

  /** Every unmatched slice becomes one E001 error from the lexer naming it, in order. */
  lemma {:induction false} ScanReportsUnmatched(raw: seq<RawResult>)
    requires Ordered(raw)
    ensures |Scan(raw).errors| == |UnmatchedSlices(raw)|
    ensures forall i :: 0 <= i < |Scan(raw).errors| ==> ReportsSlice(Scan(raw).errors[i], UnmatchedSlices(raw)[i])
    decreases |raw|
  {
    if raw != [] {
      ScanReportsUnmatched(raw[..|raw| - 1]);
    }
  }

  /**
   * A token other than a newline is placed on the current line, at its byte
   * offset from the end of the last newline; a newline opens the next line
   * at column 0.
   */
  lemma TokenPosition(raw: seq<RawResult>, r: RawResult)
    requires Ordered(raw + [r]) && r.Matched?
    ensures Ordered(raw)
    ensures var ts := Scan(raw + [r]).tokens;
      |ts| > 0
      && ts[|ts| - 1].kind == r.kind && ts[|ts| - 1].value == r.slice
      && (r.kind.NewLine? ==> ts[|ts| - 1].position == Position(NewLines(raw) + 1, 0))
      && (!r.kind.NewLine? ==> ts[|ts| - 1].position.line == NewLines(raw)
                                && LastNewLineEnd(raw) + ts[|ts| - 1].position.column == r.start)
  {
    assert (raw + [r])[..|raw|] == raw;
    assert Ordered(raw);
    ScanTracksLines(raw);
  }

  /**
   * An unmatched slice is reported as one E001 error from the lexer, on the
   * line the newlines so far have reached, at its byte offset from the end of
   * the last newline.
   */
  lemma UnmatchedPosition(raw: seq<RawResult>, r: RawResult)
    requires Ordered(raw + [r]) && r.Unmatched?
    ensures Ordered(raw)
    ensures var es := Scan(raw + [r]).errors;
      |es| == |Scan(raw).errors| + 1
      && es[..|es| - 1] == Scan(raw).errors
      && ReportsSlice(es[|es| - 1], r.slice)
      && es[|es| - 1].script.line == NewLines(raw)
      && LastNewLineEnd(raw) + es[|es| - 1].script.column == r.start
  {
    assert (raw + [r])[..|raw|] == raw;
    assert Ordered(raw);
    ScanTracksLines(raw);
  }

  /** The position Eof receives: that of the last token, or (0, 0) when there is none. */
  lemma {:induction false} EofPosition(raw: seq<RawResult>)
    requires Ordered(raw)
    ensures Scan(raw).tokens == [] ==> Scan(raw).position == Position(0, 0)
    ensures Scan(raw).tokens != [] ==> Scan(raw).position == Scan(raw).tokens[|Scan(raw).tokens| - 1].position
    decreases |raw|
  {
    if raw != [] {
      EofPosition(raw[..|raw| - 1]);
    }
  }

  /** Tokens come out in non-decreasing line order, none past the current line. */
  lemma {:induction false} TokenLinesSorted(raw: seq<RawResult>)
    requires Ordered(raw)
    ensures forall i :: 0 <= i < |Scan(raw).tokens| ==> Scan(raw).tokens[i].position.line <= Scan(raw).lines
    ensures forall i, j :: 0 <= i < j < |Scan(raw).tokens|
              ==> Scan(raw).tokens[i].position.line <= Scan(raw).tokens[j].position.line
    decreases |raw|
  {
    if raw != [] {
      TokenLinesSorted(raw[..|raw| - 1]);
    }
  }

  /**
   * What lex leaves: no layout, the matched non-layout tokens in order, and
   * Eof last, positioned where the last token (layout included) was.
   */
  lemma LexResult(before: seq<Token>, raw: seq<RawResult>)
    requires Ordered(raw)
    ensures var out := Trim(before + Scan(raw).tokens + [EofToken(Scan(raw).position)]);
      out == Trim(before) + Trim(Scan(raw).tokens) + [EofToken(Scan(raw).position)]
      && out[|out| - 1].kind.Eof?
      && forall i :: 0 <= i < |out| ==> !IsLayout(out[i].kind)
  {
    var eof := [EofToken(Scan(raw).position)];
    TrimAppend(before + Scan(raw).tokens, eof);
    TrimAppend(before, Scan(raw).tokens);
    TrimWithoutLayout(eof);
  }

  // ---------------------------------------------------------------------------
  // Two inputs worked through

  /** A prefix of a stream stays ordered when the next result starts no earlier than it ends. */
  lemma OrderedExtend(raw: seq<RawResult>, i: nat)
    requires i < |raw| && Ordered(raw[..i]) && LastEnd(raw[..i]) <= raw[i].start <= raw[i].end
    ensures Ordered(raw[..i + 1])
  {
    assert raw[..i + 1][..i] == raw[..i];
  }

  /**
   * What logos yields for "let mut x", whatever the exact slices: a keyword
   * at 0..3, a space, a keyword at 4..7, a space and an identifier at 8..9.
   */
  predicate LetMutX(raw: seq<RawResult>, let_: string, sp1: string, mut_: string, sp2: string, x: string)
  {
    raw == [Matched(KwLet, let_, 0, 3), Matched(Space, sp1, 3, 4), Matched(KwMut, mut_, 4, 7),
            Matched(Space, sp2, 7, 8), Matched(Identifier, x, 8, 9)]
  }

  lemma LetMutXOrdered(raw: seq<RawResult>, let_: string, sp1: string, mut_: string, sp2: string, x: string)
    requires LetMutX(raw, let_, sp1, mut_, sp2, x)
    ensures Ordered(raw)
  {
    assert raw[..0] == [];
    OrderedExtend(raw, 0);
    OrderedExtend(raw, 1);
    OrderedExtend(raw, 2);
    OrderedExtend(raw, 3);
    OrderedExtend(raw, 4);
    assert raw[..5] == raw;
  }

  /** "let mut x" after its first result: the keyword at column 0. */
  lemma LetMutXOne(raw: seq<RawResult>, let_: string, sp1: string, mut_: string, sp2: string, x: string)
    requires LetMutX(raw, let_, sp1, mut_, sp2, x)
    ensures Ordered(raw) && Ordered(raw[..1])
    ensures Scan(raw[..1]) == ScanState(0, 0, Position(0, 0), [Token(KwLet, let_, Position(0, 0))], [])
  {
    LetMutXOrdered(raw, let_, sp1, mut_, sp2, x);
    assert raw[..0] == [];
    ScanStep(raw, 0);
  }

  /** "let mut x" after the first space: no line break, so the column is the byte offset. */
  lemma LetMutXTwo(raw: seq<RawResult>, let_: string, sp1: string, mut_: string, sp2: string, x: string)
    requires LetMutX(raw, let_, sp1, mut_, sp2, x)
    ensures Ordered(raw) && Ordered(raw[..2])
    ensures Scan(raw[..2]) == ScanState(0, 0, Position(0, 3),
                                        [Token(KwLet, let_, Position(0, 0)), Token(Space, sp1, Position(0, 3))], [])
  {
    LetMutXOne(raw, let_, sp1, mut_, sp2, x);
    ScanStep(raw, 1);
  }

  /** "let mut x" after the second keyword. */
  lemma LetMutXThree(raw: seq<RawResult>, let_: string, sp1: string, mut_: string, sp2: string, x: string)
    requires LetMutX(raw, let_, sp1, mut_, sp2, x)
    ensures Ordered(raw) && Ordered(raw[..3])
    ensures Scan(raw[..3]) == ScanState(0, 0, Position(0, 4),
                                        [Token(KwLet, let_, Position(0, 0)), Token(Space, sp1, Position(0, 3)),
                                         Token(KwMut, mut_, Position(0, 4))], [])
  {
    LetMutXTwo(raw, let_, sp1, mut_, sp2, x);
    ScanStep(raw, 2);
  }

  /** "let mut x" up to the second space. */
  lemma LetMutXFour(raw: seq<RawResult>, let_: string, sp1: string, mut_: string, sp2: string, x: string)
    requires LetMutX(raw, let_, sp1, mut_, sp2, x)
    ensures Ordered(raw) && Ordered(raw[..4])
    ensures Scan(raw[..4]) == ScanState(0, 0, Position(0, 7),
                                        [Token(KwLet, let_, Position(0, 0)), Token(Space, sp1, Position(0, 3)),
                                         Token(KwMut, mut_, Position(0, 4)), Token(Space, sp2, Position(0, 7))], [])
  {
    LetMutXThree(raw, let_, sp1, mut_, sp2, x);
    ScanStep(raw, 3);
  }

  /** "let mut x" after its fifth result, the identifier. */
  lemma LetMutXFive(raw: seq<RawResult>, let_: string, sp1: string, mut_: string, sp2: string, x: string)
    requires LetMutX(raw, let_, sp1, mut_, sp2, x)
    ensures Ordered(raw) && Ordered(raw[..5])
    ensures Scan(raw[..5]) == ScanState(0, 0, Position(0, 8),
                                        [Token(KwLet, let_, Position(0, 0)), Token(Space, sp1, Position(0, 3)),
                                         Token(KwMut, mut_, Position(0, 4)), Token(Space, sp2, Position(0, 7)),
                                         Token(Identifier, x, Position(0, 8))], [])
  {
    LetMutXFour(raw, let_, sp1, mut_, sp2, x);
    ScanStep(raw, 4);
  }

  /** The whole of "let mut x": five tokens on line 0, no error. */
  lemma ScanLetMutX(raw: seq<RawResult>, let_: string, sp1: string, mut_: string, sp2: string, x: string)
    requires LetMutX(raw, let_, sp1, mut_, sp2, x)
    ensures Ordered(raw)
    ensures Scan(raw) == ScanState(0, 0, Position(0, 8),
                                   [Token(KwLet, let_, Position(0, 0)), Token(Space, sp1, Position(0, 3)),
                                    Token(KwMut, mut_, Position(0, 4)), Token(Space, sp2, Position(0, 7)),
                                    Token(Identifier, x, Position(0, 8))], [])
  {
    LetMutXFive(raw, let_, sp1, mut_, sp2, x);
    assert raw[..5] == raw;
  }

  /** A word followed by layout trims to the word. */
  lemma TrimWordThenLayout(w: Token, l: Token)
    requires !IsLayout(w.kind) && IsLayout(l.kind)
    ensures Trim([w, l]) == [w]
  {
    assert [w, l][..1] == [w] && [w][..0] == [];
  }

  /** Two words trim to themselves. */
  lemma TrimTwoWords(v: Token, w: Token)
    requires !IsLayout(v.kind) && !IsLayout(w.kind)
    ensures Trim([v, w]) == [v, w]
  {
    assert [v, w][..1] == [v] && [v][..0] == [];
  }

  /** Trimming "let mut " leaves the two keywords. */
  lemma TrimLetMut(t0: Token, t1: Token, t2: Token, t3: Token)
    requires t0.kind == KwLet && t1.kind == Space && t2.kind == KwMut && t3.kind == Space
    ensures Trim([t0, t1, t2, t3]) == [t0, t2]
  {
    TrimWordThenLayout(t0, t1);
    TrimWordThenLayout(t2, t3);
    TrimAppend([t0, t1], [t2, t3]);
    assert [t0, t1] + [t2, t3] == [t0, t1, t2, t3];
  }

  /** Trimming the tokens of "let mut x" and its Eof drops the two spaces. */
  lemma TrimLetMutX(t0: Token, t1: Token, t2: Token, t3: Token, t4: Token, eof: Token)
    requires t0.kind == KwLet && t1.kind == Space && t2.kind == KwMut && t3.kind == Space
    requires t4.kind == Identifier && eof.kind == Eof
    ensures Trim([t0, t1, t2, t3, t4] + [eof]) == [t0, t2, t4, eof]
  {
    TrimLetMut(t0, t1, t2, t3);
    TrimTwoWords(t4, eof);
    TrimAppend([t0, t1, t2, t3], [t4, eof]);
    assert [t0, t1, t2, t3] + [t4, eof] == [t0, t1, t2, t3, t4] + [eof];
  }

  /**
   * lex then lex_trim_result on "let mut x": the three words at columns 0, 4
   * and 8, then Eof where the identifier stands.
   */
  lemma LexLetMutX(raw: seq<RawResult>, let_: string, sp1: string, mut_: string, sp2: string, x: string)
    requires LetMutX(raw, let_, sp1, mut_, sp2, x)
    ensures Ordered(raw)
    ensures Trim(Scan(raw).tokens + [EofToken(Scan(raw).position)])
            == [Token(KwLet, let_, Position(0, 0)), Token(KwMut, mut_, Position(0, 4)),
                Token(Identifier, x, Position(0, 8)), EofToken(Position(0, 8))]
    ensures Scan(raw).errors == []
  {
    ScanLetMutX(raw, let_, sp1, mut_, sp2, x);
    TrimLetMutX(Token(KwLet, let_, Position(0, 0)), Token(Space, sp1, Position(0, 3)),
                Token(KwMut, mut_, Position(0, 4)), Token(Space, sp2, Position(0, 7)),
                Token(Identifier, x, Position(0, 8)), EofToken(Position(0, 8)));
  }

  /**
   * What logos yields for "a\n @": an identifier, a newline, a space that
   * starts the second line, and a slice no pattern matches.
   */
  predicate NewLineThenUnknown(raw: seq<RawResult>, a: string, nl: string, sp: string, bad: string)
  {
    raw == [Matched(Identifier, a, 0, 1), Matched(NewLine, nl, 1, 2),
            Matched(Space, sp, 2, 3), Unmatched(bad, 3, 4)]
  }

  lemma NewLineThenUnknownOrdered(raw: seq<RawResult>, a: string, nl: string, sp: string, bad: string)
    requires NewLineThenUnknown(raw, a, nl, sp, bad)
    ensures Ordered(raw)
  {
    assert raw[..0] == [];
    OrderedExtend(raw, 0);
    OrderedExtend(raw, 1);
    OrderedExtend(raw, 2);
    OrderedExtend(raw, 3);
    assert raw[..4] == raw;
  }

  /** "a\n @" after the identifier. */
  lemma NewLineThenUnknownOne(raw: seq<RawResult>, a: string, nl: string, sp: string, bad: string)
    requires NewLineThenUnknown(raw, a, nl, sp, bad)
    ensures Ordered(raw) && Ordered(raw[..1])
    ensures Scan(raw[..1]) == ScanState(0, 0, Position(0, 0), [Token(Identifier, a, Position(0, 0))], [])
  {
    NewLineThenUnknownOrdered(raw, a, nl, sp, bad);
    assert raw[..0] == [];
    ScanStep(raw, 0);
  }

  /** Up to the newline: the newline opens line 1 and the line now starts at byte 2. */
  lemma NewLineThenUnknownTwo(raw: seq<RawResult>, a: string, nl: string, sp: string, bad: string)
    requires NewLineThenUnknown(raw, a, nl, sp, bad)
    ensures Ordered(raw) && Ordered(raw[..2])
    ensures Scan(raw[..2]) == ScanState(1, 2, Position(1, 0),
                                        [Token(Identifier, a, Position(0, 0)), Token(NewLine, nl, Position(1, 0))], [])
  {
    NewLineThenUnknownOne(raw, a, nl, sp, bad);
    ScanStep(raw, 1);
  }

  /** Up to the space: it opens line 1, so its column is 0. */
  lemma NewLineThenUnknownThree(raw: seq<RawResult>, a: string, nl: string, sp: string, bad: string)
    requires NewLineThenUnknown(raw, a, nl, sp, bad)
    ensures Ordered(raw) && Ordered(raw[..3])
    ensures Scan(raw[..3]) == ScanState(1, 2, Position(1, 0),
                                        [Token(Identifier, a, Position(0, 0)), Token(NewLine, nl, Position(1, 0)),
                                         Token(Space, sp, Position(1, 0))], [])
  {
    NewLineThenUnknownTwo(raw, a, nl, sp, bad);
    ScanStep(raw, 2);
  }

  /** After the unmatched slice: an error at line 1, column 1, and no new token. */
  lemma NewLineThenUnknownFour(raw: seq<RawResult>, a: string, nl: string, sp: string, bad: string)
    requires NewLineThenUnknown(raw, a, nl, sp, bad)
    ensures Ordered(raw) && Ordered(raw[..4])
    ensures Scan(raw[..4]) == ScanState(1, 2, Position(1, 0),
                                        [Token(Identifier, a, Position(0, 0)), Token(NewLine, nl, Position(1, 0)),
                                         Token(Space, sp, Position(1, 0))],
                                        [NonExistentToken(bad, 1, 1)])
  {
    NewLineThenUnknownThree(raw, a, nl, sp, bad);
    ScanStep(raw, 3);
  }

  /** The whole of "a\n @": three tokens, and the unmatched slice as one error at line 1, column 1. */
  lemma ScanNewLineThenUnknown(raw: seq<RawResult>, a: string, nl: string, sp: string, bad: string)
    requires NewLineThenUnknown(raw, a, nl, sp, bad)
    ensures Ordered(raw)
    ensures Scan(raw) == ScanState(1, 2, Position(1, 0),
                                   [Token(Identifier, a, Position(0, 0)), Token(NewLine, nl, Position(1, 0)),
                                    Token(Space, sp, Position(1, 0))],
                                   [NonExistentToken(bad, 1, 1)])
  {
    NewLineThenUnknownFour(raw, a, nl, sp, bad);
    assert raw[..4] == raw;
  }

  /**
   * lex then lex_trim_result on "a\n @": the identifier, then Eof at the
   * space's position (line 1, column 0); the E001 error is at column 1.
   */
  lemma LexUnmatchedSlice(raw: seq<RawResult>, a: string, nl: string, sp: string, bad: string)
    requires NewLineThenUnknown(raw, a, nl, sp, bad)
    ensures Ordered(raw)
    ensures Trim(Scan(raw).tokens + [EofToken(Scan(raw).position)])
            == [Token(Identifier, a, Position(0, 0)), EofToken(Position(1, 0))]
    ensures Scan(raw).errors == [NonExistentToken(bad, 1, 1)]
  {
    ScanNewLineThenUnknown(raw, a, nl, sp, bad);
    var t0, t1 := Token(Identifier, a, Position(0, 0)), Token(NewLine, nl, Position(1, 0));
    var t2 := Token(Space, sp, Position(1, 0));
    TrimAppend([t0, t1, t2], [EofToken(t2.position)]);
    TrimAppend([t0, t1], [t2]);
    TrimAppend([t0], [t1]);
    TrimAppend([], [t0]);
    assert [] + [t0] == [t0] && [t0] + [t1] == [t0, t1] && [t0, t1] + [t2] == [t0, t1, t2];
  }
}
