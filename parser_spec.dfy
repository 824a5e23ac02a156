/**
 * What the recursive-descent parser (utils/src/frontend/parser.rs) does,
 * as functions of the token sequence and a cursor index. The class in
 * parser.dfy is proved against these; the lemmas here state the grammar
 * they accept and how they fail.
 *
 * Every parse function returns the outcome, where the cursor ends up, and
 * the diagnostics it appended. A failure appends exactly one diagnostic,
 * about the token under the cursor; a success appends none and leaves the
 * cursor on the statement's last token.
 */
module ParserSpec {
  import opened Wrappers
  import opened Tokens
  import Handlers
  import N = ParseNodes

  /** A stream the lexer produces: its last token is Eof. */
  predicate Closed(ts: seq<Token>)
  {
    |ts| > 0 && ts[|ts| - 1].kind.Eof?
  }

  predicate At(ts: seq<Token>, p: nat)
  {
    Closed(ts) && p < |ts|
  }

  /** advance: stays put on Eof and otherwise moves on, so it never runs past the end. */
  function Next(ts: seq<Token>, p: nat): (q: nat)
    requires At(ts, p)
    ensures q < |ts|
    ensures ts[p].kind.Eof? ==> q == p
    ensures !ts[p].kind.Eof? ==> q == p + 1
  {
    if ts[p].kind.Eof? then p else p + 1
  }

  /** What a failing parse says it expected: one case per description in parser.rs. */
  datatype Expectation =
    | ExpectedType | ExpectedMutOrIdentifier | ExpectedIdentifier | ExpectedTypeOrLetEnd
    | ExpectedColon | ExpectedCommaOrRParen | ExpectedBlockEnd | ExpectedLParen
    | ExpectedArrowOrBlock | ExpectedBlockStart

  /** The description a diagnostic prints for each expectation. */
  function Description(e: Expectation): string
  {
    match e
    case ExpectedType => "a type"
    case ExpectedMutOrIdentifier => "\"mut\" or a identifier"
    case ExpectedIdentifier => "a identifier"
    case ExpectedTypeOrLetEnd => "a explicity type or the end of let statement"
    case ExpectedColon => "Colon"
    case ExpectedCommaOrRParen => "',' or ')'"
    case ExpectedBlockEnd => "end of block statement"
    case ExpectedLParen => "'('"
    case ExpectedArrowOrBlock => "'->' or '{'"
    case ExpectedBlockStart => "'{'"
  }

  /** Error::expected_error with the Parser issuer: what was expected, and the token found. */
  function ExpectedError(expected: Expectation, found: Token): Handlers.Error
  {
    Handlers.Expected(Handlers.Parser, Description(expected), found.value, found.position)
  }

  /** Error::expected_or_error: the token itself if it has the wanted type, else a diagnostic. */
  function ExpectedOrError(expected: Expectation, kind: TokenType, found: Token): (r: Result<Token, Handlers.Error>)
    ensures r.Ok? <==> found.kind == kind
    ensures r.Ok? ==> r.value == found
    ensures r.Err? ==> r.error == ExpectedError(expected, found)
  {
    if found.kind == kind then Ok(found) else Err(ExpectedError(expected, found))
  }

  /** The token type that names each built-in type. */
  function TypeKind(b: N.BuiltInTypes): TokenType
  {
    match b
    case Null => TypeNull
    case Int => TypeInt
    case Float => TypeFloat
    case Bool => TypeBoll
    case Char => TypeChar
    case Str => TypeStr
    case Void => TypeVoid
    case Any => TypeAny
  }

  /**
   * get_type: the built-in type a type token names; any other token fails,
   * expecting a type.
   */
  function GetType(t: Token): Result<N.BuiltInTypes, Expectation>
  {
    match t.kind
    case TypeNull => Ok(N.Null)
    case TypeInt => Ok(N.Int)
    case TypeFloat => Ok(N.Float)
    case TypeBoll => Ok(N.Bool)
    case TypeChar => Ok(N.Char)
    case TypeStr => Ok(N.Str)
    case TypeVoid => Ok(N.Void)
    case TypeAny => Ok(N.Any)
    case _ => Err(ExpectedType)
  }

  /**
   * get_type reads a token back as a type exactly when it is that type's
   * token, and fails expecting "a type" exactly when it is no type token.
   */
  lemma GetTypeOfTypeKind(b: N.BuiltInTypes, t: Token)
    ensures GetType(t) == Ok(b) <==> t.kind == TypeKind(b)
    ensures (forall c :: t.kind != TypeKind(c)) <==> GetType(t) == Err(ExpectedType)
  {
    if GetType(t).Ok? {
      var c := GetType(t).value;
      assert t.kind == TypeKind(c);
    }
  }

  // ---------------------------------------------------------------------------
  // Parse results

  /**
   * How a parse ends: with a value; with a failure, recording the description
   * of what was expected; or stuck in parse_block_statement's loop.
   */
  datatype Outcome<T> = Parsed(value: T) | Failed(expected: Expectation) | Spins

  datatype Parse<T> = Parse(outcome: Outcome<T>, pos: nat)

  function Fail<T>(q: nat, expected: Expectation): Parse<T>
  {
    Parse(Failed(expected), q)
  }

  /**
   * The diagnostics a parse appends to the parser's errors: a failure appends
   * exactly one, saying what was expected and quoting the token under the
   * cursor; a success or a spin appends none.
   */
  function Diags<T>(ts: seq<Token>, r: Parse<T>): (d: seq<Handlers.Error>)
    requires r.pos < |ts|
    ensures |d| == if r.outcome.Failed? then 1 else 0
  {
    if r.outcome.Failed? then [ExpectedError(r.outcome.expected, ts[r.pos])] else []
  }

  function AsOption<T>(o: Outcome<T>): Option<T>
  {
    if o.Parsed? then Some(o.value) else None
  }

  /**
   * Every parse started at p leaves the cursor in the stream, and a success
   * moves past p and stops on a token other than Eof.
   */
  predicate Reports<T>(ts: seq<Token>, p: nat, r: Parse<T>)
  {
    r.pos < |ts| && (r.outcome.Parsed? ==> p < r.pos && !ts[r.pos].kind.Eof?)
  }

  // ---------------------------------------------------------------------------
  // The statement parsers. Where the source calls expected_or_error, the
  // functions test the token type directly: expected_or_error's error is
  // exactly the diagnostic Diags builds for the failure. The shapes of what
  // they accept are stated by the lemmas further down.

  /**
   * parse_let_statement, started on `let`: an optional `mut` (or else the
   * name must follow at once), then the name and the type part.
   */
  function LetStatement(ts: seq<Token>, p: nat): (r: Parse<N.Statement>)
    requires At(ts, p)
    ensures Reports(ts, p, r) && !r.outcome.Spins?
  {
    var q := Next(ts, p);
    if !ts[q].kind.KwMut? && !ts[q].kind.Identifier? then Fail(q, ExpectedMutOrIdentifier)
    else
      var mutable := ts[q].kind.KwMut?;
      LetName(ts, if mutable then Next(ts, q) else q, ts[p].position,
              if mutable then N.Mutable else N.Immutable)
  }

  /** The rest of a let statement once its kind is known: the name, then the type part. */
  function LetName(ts: seq<Token>, q: nat, start: Position, kind: N.VarDeclarationKind): (r: Parse<N.Statement>)
    requires At(ts, q)
    ensures r.pos < |ts| && q <= r.pos && !r.outcome.Spins?
    ensures r.outcome.Parsed? ==> q < r.pos && ts[r.pos].kind.SemiColon?
  {
    if !ts[q].kind.Identifier? then Fail(q, ExpectedIdentifier)
    else LetType(ts, Next(ts, q), start, ts[q].value, kind)
  }

  /** The rest of a let statement after its name: `;` (type Any), or `: type ;`. */
  function LetType(ts: seq<Token>, q: nat, start: Position, name: string, kind: N.VarDeclarationKind)
    : (r: Parse<N.Statement>)
    requires At(ts, q)
    ensures r.pos < |ts| && q <= r.pos && !r.outcome.Spins?
    ensures r.outcome.Parsed? ==> ts[r.pos].kind.SemiColon?
  {
    if ts[q].kind.SemiColon? then
      Parse(Parsed(N.VariableDeclaration(start, name, kind, N.Any, None)), q)
    else if !ts[q].kind.Colon? then
      Fail(q, ExpectedTypeOrLetEnd)
    else
      LetTyped(ts, Next(ts, q), start, name, kind)
  }

  /** The rest of a let statement after `:`: a type and `;`. */
  function LetTyped(ts: seq<Token>, q: nat, start: Position, name: string, kind: N.VarDeclarationKind)
    : (r: Parse<N.Statement>)
    requires At(ts, q)
    ensures r.pos < |ts| && q <= r.pos && !r.outcome.Spins?
    ensures r.outcome.Parsed? ==> ts[r.pos].kind.SemiColon?
  {
    match GetType(ts[q])
    case Err(_) => Fail(q, ExpectedType)
    case Ok(typ) =>
      var q' := Next(ts, q);
      if ts[q'].kind.SemiColon? then
        Parse(Parsed(N.VariableDeclaration(start, name, kind, typ, None)), q')
      else
        Fail(q', ExpectedTypeOrLetEnd)
  }

  /**
   * parse_params_statement, started on `(`: `()` gives no parameters,
   * anything else goes to the loop over items.
   */
  function Params(ts: seq<Token>, p: nat): (r: Parse<seq<N.FuncParam>>)
    requires At(ts, p)
    ensures Reports(ts, p, r) && !r.outcome.Spins?
  {
    var q := Next(ts, p);
    if ts[q].kind.RParen? then Parse(Parsed([]), q)
    else ParamsLoop(ts, q)
  }

  /** One item of parse_params_statement's loop, `name : type`; the cursor stops on the type. */
  function Param(ts: seq<Token>, q: nat): (r: Parse<N.FuncParam>)
    requires At(ts, q)
    ensures r.pos < |ts| && q <= r.pos && !r.outcome.Spins?
    ensures r.outcome.Parsed? ==> r.pos == q + 2
  {
    if !ts[q].kind.Identifier? then Fail(q, ExpectedIdentifier)
    else
      var q1 := Next(ts, q);
      if !ts[q1].kind.Colon? then Fail(q1, ExpectedColon)
      else
        var q2 := Next(ts, q1);
        match GetType(ts[q2])
        case Err(_) => Fail(q2, ExpectedType)
        case Ok(typ) => Parse(Parsed(N.FuncParam(ts[q].value, typ)), q2)
  }

  /**
   * The loop of parse_params_statement from the start of an item: the item,
   * then `)` ends the list, `,` goes on to the next item, and any other
   * token is an error.
   */
  function ParamsLoop(ts: seq<Token>, q: nat): (r: Parse<seq<N.FuncParam>>)
    requires At(ts, q)
    ensures Reports(ts, q, r) && !r.outcome.Spins?
    decreases |ts| - q
  {
    var item := Param(ts, q);
    if !item.outcome.Parsed? then Parse(Failed(item.outcome.expected), item.pos)
    else
      var q3 := Next(ts, item.pos);
      if ts[q3].kind.RParen? then Parse(Parsed([item.outcome.value]), q3)
      else if ts[q3].kind.Comma? then Prepend([item.outcome.value], ParamsLoop(ts, Next(ts, q3)))
      else Fail(q3, ExpectedCommaOrRParen)
  }

  /** A parse result with the values read before it put in front of its own. */
  function Prepend<T>(before: seq<T>, r: Parse<seq<T>>): (r': Parse<seq<T>>)
    ensures r'.pos == r.pos
    ensures r'.outcome.Parsed? <==> r.outcome.Parsed?
    ensures !r.outcome.Parsed? ==> r' == r
  {
    if r.outcome.Parsed? then Parse(Parsed(before + r.outcome.value), r.pos) else r
  }

  /** Putting two runs of values in front, one after the other, puts their concatenation in front. */
  lemma PrependTwice<T>(a: seq<T>, b: seq<T>, r: Parse<seq<T>>)
    ensures Prepend(a, Prepend(b, r)) == Prepend(a + b, r)
  {
    if r.outcome.Parsed? {
      assert a + (b + r.outcome.value) == (a + b) + r.outcome.value;
    }
  }

  /**
   * parse_block_statement, started on `{`: only `{ }` parses, to an empty
   * body; Eof after `{` is an error; any other token leaves the source's loop
   * spinning without advancing.
   */
  function Block(ts: seq<Token>, p: nat): (r: Parse<seq<N.Statement>>)
    requires At(ts, p)
    ensures Reports(ts, p, r)
    ensures r.outcome.Parsed? ==> r.outcome.value == []
  {
    var q := Next(ts, p);
    if ts[q].kind.RBracket? then Parse(Parsed([]), q)
    else if ts[q].kind.Eof? then Fail(q, ExpectedBlockEnd)
    else Parse(Spins, q)
  }

  /**
   * parse_function_satement, started on `fn`: the name, `(`, the parameters
   * up to `)`, then the rest of the declaration.
   */
  function FunctionStatement(ts: seq<Token>, p: nat): (r: Parse<N.Statement>)
    requires At(ts, p)
    ensures Reports(ts, p, r)
  {
    var q := Next(ts, p);
    if !ts[q].kind.Identifier? then Fail(q, ExpectedIdentifier)
    else
      var q' := Next(ts, q);
      if !ts[q'].kind.LParen? then Fail(q', ExpectedLParen)
      else
        var ps := Params(ts, q');
        if !ps.outcome.Parsed? then Parse(Failed(ps.outcome.expected), ps.pos)
        else FunctionRest(ts, ps.pos, ts[p].position, ts[q].value, ps.outcome.value)
  }

  /**
   * The part of parse_function_satement from the `)` that closes the
   * parameters: the return type, then the `{ }` block.
   */
  function FunctionRest(ts: seq<Token>, c: nat, start: Position, name: string,
                        params: seq<N.FuncParam>): (r: Parse<N.Statement>)
    requires At(ts, c)
    ensures r.pos < |ts| && c <= r.pos
    ensures r.outcome.Parsed? ==> !ts[r.pos].kind.Eof?
  {
    var rt := ReturnType(ts, Next(ts, c));
    match rt.outcome
    case Parsed(typ) => FunctionBody(ts, rt.pos, start, name, typ, params)
    case Failed(expected) => Parse(Failed(expected), rt.pos)
    case Spins => Parse(Spins, rt.pos)
  }

  /**
   * The optional return type after `)`: `-> type`, leaving the cursor on the
   * token after the type, or Any when `{` follows at once.
   */
  function ReturnType(ts: seq<Token>, q: nat): (r: Parse<N.BuiltInTypes>)
    requires At(ts, q)
    ensures r.pos < |ts| && q <= r.pos && !r.outcome.Spins?
  {
    if ts[q].kind.OpSetOrAcess? then
      var q' := Next(ts, q);
      match GetType(ts[q'])
      case Err(_) => Fail(q', ExpectedType)
      case Ok(typ) => Parse(Parsed(typ), Next(ts, q'))
    else if ts[q].kind.LBracket? then
      Parse(Parsed(N.Any), q)
    else
      Fail(q, ExpectedArrowOrBlock)
  }

  /** The end of parse_function_satement: expect `{`, parse the block, build the declaration. */
  function FunctionBody(ts: seq<Token>, q: nat, start: Position, name: string, typ: N.BuiltInTypes,
                        params: seq<N.FuncParam>): (r: Parse<N.Statement>)
    requires At(ts, q)
    ensures Reports(ts, q, r)
  {
    if !ts[q].kind.LBracket? then Fail(q, ExpectedBlockStart)
    else
      var b := Block(ts, q);
      match b.outcome
      case Parsed(body) => Parse(Parsed(N.FuctionDeclaration(start, name, typ, params, body)), b.pos)
      case Failed(expected) => Parse(Failed(expected), b.pos)
      case Spins => Parse(Spins, b.pos)
  }

  // ---------------------------------------------------------------------------
  // The top-level loop

  /** Where parse_tokens ends: the module body, the diagnostics, the cursor, and whether it returns. */
  datatype Run = Run(body: seq<N.Statement>, diags: seq<Handlers.Error>, pos: nat, halts: bool)

  /** The statement parser the leading token selects (only `fn` and `let` get one). */
  function Statement(ts: seq<Token>, p: nat): (r: Parse<N.Statement>)
    requires At(ts, p)
    ensures Reports(ts, p, r)
  {
    if ts[p].kind.KwFn? then FunctionStatement(ts, p) else LetStatement(ts, p)
  }

  /**
   * parse_tokens from cursor p, with the body and diagnostics so far:
   * statements are parsed and appended in order until Eof, a leading token
   * other than `fn` or `let` (which stops without a diagnostic), or the first
   * failing statement (whose one diagnostic is kept).
   */
  function ParseLoop(ts: seq<Token>, p: nat, body: seq<N.Statement>, diags: seq<Handlers.Error>): (r: Run)
    requires At(ts, p)
    ensures r.pos < |ts|
    decreases |ts| - p
  {
    if ts[p].kind.Eof? || (!ts[p].kind.KwFn? && !ts[p].kind.KwLet?) then
      Run(body, diags, p, true)
    else
      var s := Statement(ts, p);
      match s.outcome
      case Failed(_) => Run(body, diags + Diags(ts, s), s.pos, true)
      case Spins => Run(body, diags, s.pos, false)
      case Parsed(st) => ParseLoop(ts, Next(ts, s.pos), body + [st], diags)
  }

  /** A statement that parses is appended, and the loop goes on after it. */
  lemma ParseLoopContinues(ts: seq<Token>, p: nat, body: seq<N.Statement>, diags: seq<Handlers.Error>)
    requires At(ts, p) && (ts[p].kind.KwFn? || ts[p].kind.KwLet?)
    requires Statement(ts, p).outcome.Parsed?
    ensures var s := Statement(ts, p);
      ParseLoop(ts, p, body, diags) == ParseLoop(ts, Next(ts, s.pos), body + [s.outcome.value], diags)
  {
  }

  /** A statement that fails or spins ends the loop where it stopped, keeping its diagnostic. */
  lemma ParseLoopStops(ts: seq<Token>, p: nat, body: seq<N.Statement>, diags: seq<Handlers.Error>)
    requires At(ts, p) && (ts[p].kind.KwFn? || ts[p].kind.KwLet?)
    requires !Statement(ts, p).outcome.Parsed?
    ensures var s := Statement(ts, p);
      ParseLoop(ts, p, body, diags) == Run(body, diags + Diags(ts, s), s.pos, !s.outcome.Spins?)
  {
  }

  // ---------------------------------------------------------------------------
  // The accepted grammar. Each statement has a shape predicate saying which
  // tokens spell it; it parses exactly when its tokens have that shape.

  /**
   * The type part of a let statement, from k to end: either `;` alone (the
   * type is any) or `: type ;`. `let x: any;` and `let x;` both spell the
   * same statement.
   */
  predicate TypeTail(ts: seq<Token>, k: nat, typ: N.BuiltInTypes, end: nat)
  {
    k <= end < |ts|
    && ((end == k && typ == N.Any)
        || (end == k + 2 && ts[k].kind.Colon? && GetType(ts[k + 1]) == Ok(typ)))
    && ts[end].kind.SemiColon?
  }

  /**
   * The tokens from p to end spell the let statement s: a first token that
   * is not end of file, `mut` when s is mutable, an identifier holding the
   * name, then the type part.
   */
  predicate LetShape(ts: seq<Token>, p: nat, s: N.Statement, end: nat)
  {
    s.VariableDeclaration? && s.value.None?
    && var q := if s.kind == N.Mutable then p + 2 else p + 1;
    q < end < |ts|
    && !ts[p].kind.Eof? && ts[p].position == s.start
    && (s.kind == N.Mutable ==> ts[p + 1].kind.KwMut?)
    && ts[q].kind.Identifier? && ts[q].value == s.name
    && TypeTail(ts, q + 1, s.typ, end)
  }

  /** A type part of the right shape parses to its type. */
  lemma TypeTailParses(ts: seq<Token>, k: nat, start: Position, name: string,
                       kind: N.VarDeclarationKind, typ: N.BuiltInTypes, end: nat)
    requires At(ts, k) && TypeTail(ts, k, typ, end)
    ensures LetType(ts, k, start, name, kind)
              == Parse(Parsed(N.VariableDeclaration(start, name, kind, typ, None)), end)
  {
  }

  /** Whatever parses after the name has the type-part shape, and declares that name and kind. */
  lemma ParsedTypeTail(ts: seq<Token>, k: nat, start: Position, name: string, kind: N.VarDeclarationKind)
    requires At(ts, k) && LetType(ts, k, start, name, kind).outcome.Parsed?
    ensures var r := LetType(ts, k, start, name, kind);
      r.outcome.value == N.VariableDeclaration(start, name, kind, r.outcome.value.typ, None)
      && TypeTail(ts, k, r.outcome.value.typ, r.pos)
  {
  }

  /** Tokens of the right shape parse as the let statement they spell. */
  lemma LetShapeParses(ts: seq<Token>, p: nat, s: N.Statement, end: nat)
    requires At(ts, p) && LetShape(ts, p, s, end)
    ensures LetStatement(ts, p) == Parse(Parsed(s), end)
  {
    var q := if s.kind == N.Mutable then p + 2 else p + 1;
    assert LetStatement(ts, p) == LetName(ts, q, s.start, s.kind);
    assert LetName(ts, q, s.start, s.kind) == LetType(ts, q + 1, s.start, s.name, s.kind);
    TypeTailParses(ts, q + 1, s.start, s.name, s.kind, s.typ, end);
  }

  /** Whatever parses as a let statement had that shape. */
  lemma ParsedLetHasShape(ts: seq<Token>, p: nat)
    requires At(ts, p) && LetStatement(ts, p).outcome.Parsed?
    ensures var r := LetStatement(ts, p);
      LetShape(ts, p, r.outcome.value, r.pos)
  {
    var mutable := ts[p + 1].kind.KwMut?;
    var q := if mutable then p + 2 else p + 1;
    var kind := if mutable then N.Mutable else N.Immutable;
    assert LetStatement(ts, p) == LetName(ts, q, ts[p].position, kind);
    assert LetName(ts, q, ts[p].position, kind) == LetType(ts, q + 1, ts[p].position, ts[q].value, kind);
    ParsedTypeTail(ts, q + 1, ts[p].position, ts[q].value, kind);
  }

  /** A let statement parses exactly when its tokens have its shape. */
  lemma LetParsesIffShape(ts: seq<Token>, p: nat, s: N.Statement, end: nat)
    requires At(ts, p)
    ensures LetStatement(ts, p) == Parse(Parsed(s), end) <==> LetShape(ts, p, s, end)
  {
    if LetShape(ts, p, s, end) {
      LetShapeParses(ts, p, s, end);
    }
    if LetStatement(ts, p).outcome.Parsed? {
      ParsedLetHasShape(ts, p);
    }
  }

  /**
   * The tokens from k on spell the parameter `name : type` followed by `)`
   * when it is the last one and by `,` otherwise.
   */
  predicate ParamAt(ts: seq<Token>, k: nat, param: N.FuncParam, last: bool)
  {
    k + 3 < |ts|
    && ts[k].kind.Identifier? && ts[k].value == param.name
    && ts[k + 1].kind.Colon? && GetType(ts[k + 2]) == Ok(param.typ)
    && (if last then ts[k + 3].kind.RParen? else ts[k + 3].kind.Comma?)
  }

  /**
   * The tokens from q on spell a non-empty parameter list and its `)`: each
   * parameter takes four tokens, the last of which is `,` for every
   * parameter but the last and `)` for the last.
   */
  predicate ParamsShape(ts: seq<Token>, q: nat, params: seq<N.FuncParam>)
    decreases |params|
  {
    |params| > 0
    && ParamAt(ts, q, params[0], |params| == 1)
    && (|params| > 1 ==> ParamsShape(ts, q + 4, params[1..]))
  }

  /** A parameter item of the right shape is read as that parameter. */
  lemma ParamParses(ts: seq<Token>, q: nat, param: N.FuncParam, last: bool)
    requires At(ts, q) && ParamAt(ts, q, param, last)
    ensures Param(ts, q) == Parse(Parsed(param), q + 2)
  {
  }

  /** A last parameter, followed by `)`, ends the list. */
  lemma ParamsLoopLast(ts: seq<Token>, q: nat, param: N.FuncParam)
    requires At(ts, q) && ParamAt(ts, q, param, true)
    ensures ParamsLoop(ts, q) == Parse(Parsed([param]), q + 3)
  {
    ParamParses(ts, q, param, true);
  }

  /** A parameter followed by `,` goes on to the next item. */
  lemma ParamsLoopMore(ts: seq<Token>, q: nat, param: N.FuncParam)
    requires At(ts, q) && ParamAt(ts, q, param, false)
    ensures ParamsLoop(ts, q) == Prepend([param], ParamsLoop(ts, q + 4))
  {
    ParamParses(ts, q, param, false);
  }

  /** A parameter list of the right shape parses to its parameters. */
  lemma {:induction false} ParamsShapeParses(ts: seq<Token>, q: nat, params: seq<N.FuncParam>)
    requires At(ts, q) && ParamsShape(ts, q, params)
    ensures ParamsLoop(ts, q) == Parse(Parsed(params), q + 4 * |params| - 1)
    decreases |params|
  {
    if |params| == 1 {
      ParamsLoopLast(ts, q, params[0]);
      assert [params[0]] == params;
    } else {
      ParamsLoopMore(ts, q, params[0]);
      ParamsShapeParses(ts, q + 4, params[1..]);
      assert [params[0]] + params[1..] == params;
    }
  }

  /** An item the loop reads is a parameter followed by `,` or `)`. */
  lemma ParsedParam(ts: seq<Token>, q: nat)
    requires At(ts, q) && ParamsLoop(ts, q).outcome.Parsed?
    ensures var param := N.FuncParam(ts[q].value, GetType(ts[q + 2]).value);
      ParamAt(ts, q, param, true) || ParamAt(ts, q, param, false)
  {
  }

  /** Whatever the parameter loop parses had that shape. */
  lemma {:induction false} ParsedParamsHaveShape(ts: seq<Token>, q: nat)
    requires At(ts, q) && ParamsLoop(ts, q).outcome.Parsed?
    ensures var r := ParamsLoop(ts, q);
      ParamsShape(ts, q, r.outcome.value) && r.pos == q + 4 * |r.outcome.value| - 1
    decreases |ts| - q
  {
    ParsedParam(ts, q);
    var param := N.FuncParam(ts[q].value, GetType(ts[q + 2]).value);
    if ParamAt(ts, q, param, true) {
      ParamsLoopLast(ts, q, param);
    } else {
      ParamsLoopMore(ts, q, param);
      ParsedParamsHaveShape(ts, q + 4);
      var more := ParamsLoop(ts, q + 4).outcome.value;
      assert ([param] + more)[1..] == more;
    }
  }

  /** Where the `)` of a parameter list opened at `open` sits. */
  function ParamsEnd(open: nat, params: seq<N.FuncParam>): nat
  {
    if params == [] then open + 1 else open + 4 * |params|
  }

  /** The tokens after the `(` at `open` spell params and the closing `)`. */
  predicate ParamsPart(ts: seq<Token>, open: nat, params: seq<N.FuncParam>)
  {
    open + 1 < |ts|
    && if params == [] then ts[open + 1].kind.RParen? else ParamsShape(ts, open + 1, params)
  }

  /** A parameter list of the right shape parses to its parameters. */
  lemma ParamsPartParses(ts: seq<Token>, open: nat, params: seq<N.FuncParam>)
    requires At(ts, open) && !ts[open].kind.Eof? && ParamsPart(ts, open, params)
    ensures Params(ts, open) == Parse(Parsed(params), ParamsEnd(open, params))
  {
    if params != [] {
      ParamsShapeParses(ts, open + 1, params);
    }
  }

  /** Whatever parses as a parameter list had that shape. */
  lemma ParsedParamsPart(ts: seq<Token>, open: nat)
    requires At(ts, open) && !ts[open].kind.Eof? && Params(ts, open).outcome.Parsed?
    ensures var r := Params(ts, open);
      ParamsPart(ts, open, r.outcome.value) && r.pos == ParamsEnd(open, r.outcome.value)
  {
    if !ts[open + 1].kind.RParen? {
      ParsedParamsHaveShape(ts, open + 1);
    }
  }

  /** After the `)` at c and up to end: `{ }` for type any, or `-> type { }`. */
  predicate ReturnShape(ts: seq<Token>, c: nat, typ: N.BuiltInTypes, end: nat)
  {
    c < end < |ts|
    && ((end == c + 2 && typ == N.Any && ts[c + 1].kind.LBracket?)
        || (end == c + 4 && ts[c + 1].kind.OpSetOrAcess? && GetType(ts[c + 2]) == Ok(typ)
            && ts[c + 3].kind.LBracket?))
    && ts[end].kind.RBracket?
  }

  /**
   * The tokens from p to end spell the function declaration s: a first token
   * that is not end of file, an identifier holding the name, `(`, the
   * parameters and `)`, then the return part.
   */
  predicate FunctionShape(ts: seq<Token>, p: nat, s: N.Statement, end: nat)
  {
    s.FuctionDeclaration? && s.body == []
    && ParamsEnd(p + 2, s.params) < end < |ts|
    && !ts[p].kind.Eof? && ts[p].position == s.start
    && ts[p + 1].kind.Identifier? && ts[p + 1].value == s.name
    && ts[p + 2].kind.LParen? && ParamsPart(ts, p + 2, s.params)
    && ReturnShape(ts, ParamsEnd(p + 2, s.params), s.typ, end)
  }

  /** A return part of the right shape parses to its type. */
  lemma ReturnShapeParses(ts: seq<Token>, c: nat, start: Position, name: string,
                          params: seq<N.FuncParam>, typ: N.BuiltInTypes, end: nat)
    requires At(ts, c) && !ts[c].kind.Eof? && ReturnShape(ts, c, typ, end)
    ensures FunctionRest(ts, c, start, name, params)
              == Parse(Parsed(N.FuctionDeclaration(start, name, typ, params, [])), end)
  {
    assert ReturnType(ts, c + 1) == Parse(Parsed(typ), end - 1);
  }

  /** Whatever parses after `)` has the return shape, and declares the given parts. */
  lemma ParsedReturnHasShape(ts: seq<Token>, c: nat, start: Position, name: string,
                             params: seq<N.FuncParam>)
    requires At(ts, c) && !ts[c].kind.Eof?
    requires FunctionRest(ts, c, start, name, params).outcome.Parsed?
    ensures var r := FunctionRest(ts, c, start, name, params);
      r.outcome.value == N.FuctionDeclaration(start, name, r.outcome.value.typ, params, [])
      && ReturnShape(ts, c, r.outcome.value.typ, r.pos)
  {
  }

  /** Tokens of the right shape parse as the function declaration they spell. */
  lemma FunctionShapeParses(ts: seq<Token>, p: nat, s: N.Statement, end: nat)
    requires At(ts, p) && FunctionShape(ts, p, s, end)
    ensures FunctionStatement(ts, p) == Parse(Parsed(s), end)
  {
    ParamsPartParses(ts, p + 2, s.params);
    var c := ParamsEnd(p + 2, s.params);
    assert FunctionStatement(ts, p) == FunctionRest(ts, c, s.start, s.name, s.params);
    ReturnShapeParses(ts, c, s.start, s.name, s.params, s.typ, end);
  }

  /** Whatever parses as a function declaration had that shape. */
  lemma ParsedFunctionHasShape(ts: seq<Token>, p: nat)
    requires At(ts, p) && FunctionStatement(ts, p).outcome.Parsed?
    ensures var r := FunctionStatement(ts, p);
      FunctionShape(ts, p, r.outcome.value, r.pos)
  {
    assert !ts[p].kind.Eof?;
    assert ts[p + 1].kind.Identifier?;
    assert ts[p + 2].kind.LParen?;
    var ps := Params(ts, p + 2);
    assert ps.outcome.Parsed?;
    ParsedParamsPart(ts, p + 2);
    assert FunctionStatement(ts, p) == FunctionRest(ts, ps.pos, ts[p].position, ts[p + 1].value, ps.outcome.value);
    ParsedReturnHasShape(ts, ps.pos, ts[p].position, ts[p + 1].value, ps.outcome.value);
  }

  /** A function declaration parses exactly when its tokens have its shape. */
  lemma FunctionParsesIffShape(ts: seq<Token>, p: nat, s: N.Statement, end: nat)
    requires At(ts, p)
    ensures FunctionStatement(ts, p) == Parse(Parsed(s), end) <==> FunctionShape(ts, p, s, end)
  {
    if FunctionShape(ts, p, s, end) {
      FunctionShapeParses(ts, p, s, end);
    }
    if FunctionStatement(ts, p).outcome.Parsed? {
      ParsedFunctionHasShape(ts, p);
    }
  }

  // ---------------------------------------------------------------------------
  // How each statement fails: the position of the one diagnostic and what it
  // says was expected.

  /**
   * A let statement fails on the first token out of place: after `let` one
   * that is neither `mut` nor a name; after `mut` one that is not a name;
   * after the name one that is neither `:` nor `;`; after `:` one that is
   * not a type; after the type one that is not `;`.
   */
  lemma LetFailures(ts: seq<Token>, p: nat)
    requires At(ts, p) && ts[p].kind.KwLet?
    ensures !ts[p + 1].kind.KwMut? && !ts[p + 1].kind.Identifier? ==>
              LetStatement(ts, p) == Fail(p + 1, ExpectedMutOrIdentifier)
    ensures ts[p + 1].kind.KwMut? && !ts[p + 2].kind.Identifier? ==>
              LetStatement(ts, p) == Fail(p + 2, ExpectedIdentifier)
    ensures var q := if ts[p + 1].kind.KwMut? then p + 2 else p + 1;
      ts[q].kind.Identifier? && !ts[q + 1].kind.Colon? && !ts[q + 1].kind.SemiColon? ==>
        LetStatement(ts, p) == Fail(q + 1, ExpectedTypeOrLetEnd)
    ensures var q := if ts[p + 1].kind.KwMut? then p + 2 else p + 1;
      ts[q].kind.Identifier? && ts[q + 1].kind.Colon? && GetType(ts[q + 2]).Err? ==>
        LetStatement(ts, p) == Fail(q + 2, ExpectedType)
    ensures var q := if ts[p + 1].kind.KwMut? then p + 2 else p + 1;
      (ts[q].kind.Identifier? && ts[q + 1].kind.Colon? && GetType(ts[q + 2]).Ok?
       && !ts[q + 3].kind.SemiColon?) ==>
        LetStatement(ts, p) == Fail(q + 3, ExpectedTypeOrLetEnd)
  {
    var q := if ts[p + 1].kind.KwMut? then p + 2 else p + 1;
    if ts[q].kind.Identifier? {
      var kind := if ts[p + 1].kind.KwMut? then N.Mutable else N.Immutable;
      assert LetStatement(ts, p) == LetType(ts, q + 1, ts[p].position, ts[q].value, kind);
    }
  }

  /**
   * An item of the parameter loop fails on the first token out of place: a
   * missing name (so also after a trailing comma), a missing `:`, a token
   * that is not a type, or a separator other than `,` and `)`.
   */
  lemma ParamFailures(ts: seq<Token>, q: nat)
    requires At(ts, q)
    ensures !ts[q].kind.Identifier? ==> ParamsLoop(ts, q) == Fail(q, ExpectedIdentifier)
    ensures ts[q].kind.Identifier? && !ts[q + 1].kind.Colon? ==>
              ParamsLoop(ts, q) == Fail(q + 1, ExpectedColon)
    ensures ts[q].kind.Identifier? && ts[q + 1].kind.Colon? && GetType(ts[q + 2]).Err? ==>
              ParamsLoop(ts, q) == Fail(q + 2, ExpectedType)
    ensures (ts[q].kind.Identifier? && ts[q + 1].kind.Colon? && GetType(ts[q + 2]).Ok?
             && !ts[q + 3].kind.Comma? && !ts[q + 3].kind.RParen?) ==>
              ParamsLoop(ts, q) == Fail(q + 3, ExpectedCommaOrRParen)
  {
  }

  /** A `,` directly before `)` is rejected: the loop wants another name there. */
  lemma TrailingCommaFails(ts: seq<Token>, q: nat, param: N.FuncParam)
    requires At(ts, q) && ParamAt(ts, q, param, false) && q + 4 < |ts| && ts[q + 4].kind.RParen?
    ensures ParamsLoop(ts, q) == Fail(q + 4, ExpectedIdentifier)
  {
    ParamsLoopMore(ts, q, param);
  }

  /**
   * After the `)` of the parameters: a token that is neither `->` nor `{`
   * fails; after `->` a token that is not a type fails; after the type a
   * token other than `{` fails.
   */
  lemma ReturnFailures(ts: seq<Token>, c: nat, start: Position, name: string, params: seq<N.FuncParam>)
    requires At(ts, c) && !ts[c].kind.Eof?
    ensures !ts[c + 1].kind.OpSetOrAcess? && !ts[c + 1].kind.LBracket? ==>
              FunctionRest(ts, c, start, name, params) == Fail(c + 1, ExpectedArrowOrBlock)
    ensures ts[c + 1].kind.OpSetOrAcess? && GetType(ts[c + 2]).Err? ==>
              FunctionRest(ts, c, start, name, params) == Fail(c + 2, ExpectedType)
    ensures ts[c + 1].kind.OpSetOrAcess? && GetType(ts[c + 2]).Ok? && !ts[c + 3].kind.LBracket? ==>
              FunctionRest(ts, c, start, name, params) == Fail(c + 3, ExpectedBlockStart)
  {
  }

  /**
   * A block started on `{` parses, to no statements, only when `}` follows
   * at once; Eof there fails; any other token spins, the cursor on it.
   */
  lemma BlockOutcomes(ts: seq<Token>, p: nat)
    requires At(ts, p) && ts[p].kind.LBracket?
    ensures ts[p + 1].kind.RBracket? ==> Block(ts, p) == Parse(Parsed([]), p + 1)
    ensures ts[p + 1].kind.Eof? ==> Block(ts, p) == Fail(p + 1, ExpectedBlockEnd)
    ensures !ts[p + 1].kind.RBracket? && !ts[p + 1].kind.Eof? ==> Block(ts, p) == Parse(Spins, p + 1)
  {
  }

  // ---------------------------------------------------------------------------
  // The top-level loop's guarantees.

  /**
   * parse_tokens only appends: the body and the diagnostics it started with
   * are prefixes of what it ends with, and at most one diagnostic is added,
   * in which case the loop returns. A loop that returns without a new
   * diagnostic stopped on Eof or on a token that starts no statement.
   */
  lemma {:induction false} ParseLoopExtends(ts: seq<Token>, p: nat, body: seq<N.Statement>,
                                            diags: seq<Handlers.Error>)
    requires At(ts, p)
    ensures var r := ParseLoop(ts, p, body, diags);
      |body| <= |r.body| && r.body[..|body|] == body
      && |diags| <= |r.diags| <= |diags| + 1 && r.diags[..|diags|] == diags
      && (|r.diags| > |diags| ==> r.halts)
      && (r.halts && |r.diags| == |diags| ==>
            ts[r.pos].kind.Eof? || (!ts[r.pos].kind.KwFn? && !ts[r.pos].kind.KwLet?))
    decreases |ts| - p
  {
    if !ts[p].kind.Eof? && (ts[p].kind.KwFn? || ts[p].kind.KwLet?) {
      var s := Statement(ts, p);
      if s.outcome.Parsed? {
        var more := body + [s.outcome.value];
        ParseLoopExtends(ts, Next(ts, s.pos), more, diags);
        var r := ParseLoop(ts, Next(ts, s.pos), more, diags);
        assert r.body[..|body|] == r.body[..|more|][..|body|];
      } else {
        assert (diags + Diags(ts, s))[..|diags|] == diags;
      }
    }
  }

  // ---------------------------------------------------------------------------
  // A printer for what the parser accepts: printing a statement and parsing it
  // back, wherever it sits in a stream, gives the statement.

  /** The spelling of each built-in type name. */
  function TypeName(b: N.BuiltInTypes): string
  {
    match b
    case Null => "null"
    case Int => "int"
    case Float => "float"
    case Bool => "bool"
    case Char => "char"
    case Str => "str"
    case Void => "void"
    case Any => "any"
  }

  function TypeToken(b: N.BuiltInTypes, at: Position): Token
  {
    Token(TypeKind(b), TypeName(b), at)
  }

  /** `let [mut] name ;` for type Any, `let [mut] name : type ;` otherwise; every token at the start. */
  function PrintLet(s: N.Statement): (r: seq<Token>)
    requires s.VariableDeclaration?
    ensures |r| >= 3
  {
    var at := s.start;
    [Token(KwLet, "let", at)]
    + (if s.kind == N.Mutable then [Token(KwMut, "mut", at)] else [])
    + [Token(Identifier, s.name, at)]
    + (if s.typ == N.Any then [] else [Token(Colon, ":", at), TypeToken(s.typ, at)])
    + [Token(SemiColon, ";", at)]
  }

  /** `name : type`. */
  function PrintParam(param: N.FuncParam, at: Position): seq<Token>
  {
    [Token(Identifier, param.name, at), Token(Colon, ":", at), TypeToken(param.typ, at)]
  }

  /** A non-empty parameter list after `(`: the items separated by `,`, then `)`. */
  function PrintParamList(params: seq<N.FuncParam>, at: Position): (r: seq<Token>)
    requires |params| > 0
    ensures |r| == 4 * |params|
  {
    if |params| == 1 then PrintParam(params[0], at) + [Token(RParen, ")", at)]
    else PrintParam(params[0], at) + [Token(Comma, ",", at)] + PrintParamList(params[1..], at)
  }

  /** Everything after `(` up to and including `)`. */
  function PrintParams(params: seq<N.FuncParam>, at: Position): (r: seq<Token>)
    ensures |r| == if params == [] then 1 else 4 * |params|
  {
    if params == [] then [Token(RParen, ")", at)] else PrintParamList(params, at)
  }

  /** The `fn name (` that opens a printed function declaration. */
  function PrintHead(s: N.Statement): seq<Token>
    requires s.FuctionDeclaration?
  {
    [Token(KwFn, "fn", s.start), Token(Identifier, s.name, s.start), Token(LParen, "(", s.start)]
  }

  /** What follows `)`: `{ }` for return type Any, `-> type { }` otherwise. */
  function PrintReturn(typ: N.BuiltInTypes, at: Position): (r: seq<Token>)
    ensures |r| == if typ == N.Any then 2 else 4
  {
    (if typ == N.Any then [] else [Token(OpSetOrAcess, "->", at), TypeToken(typ, at)])
    + [Token(LBracket, "{", at), Token(RBracket, "}", at)]
  }

  /** `fn name ( params ) { }` for return type Any, `fn name ( params ) -> type { }` otherwise. */
  function PrintFunction(s: N.Statement): (r: seq<Token>)
    requires s.FuctionDeclaration?
    ensures |r| >= 6
  {
    PrintHead(s) + PrintParams(s.params, s.start) + PrintReturn(s.typ, s.start)
  }

  /** The tokens from k on repeat toks. */
  predicate Spells(ts: seq<Token>, k: nat, toks: seq<Token>)
  {
    k + |toks| <= |ts| && ts[k..k + |toks|] == toks
  }

  /** Token by token: the i-th token from k is the i-th of toks. */
  lemma SpellsEach(ts: seq<Token>, k: nat, toks: seq<Token>)
    requires Spells(ts, k, toks)
    ensures forall i :: k <= i < k + |toks| ==> ts[i] == toks[i - k]
  {
    forall i | k <= i < k + |toks|
      ensures ts[i] == toks[i - k]
    {
      assert ts[i] == ts[k..k + |toks|][i - k];
    }
  }

  /** What spells a concatenation spells each part, one after the other. */
  lemma SpellsParts(ts: seq<Token>, k: nat, a: seq<Token>, b: seq<Token>)
    requires Spells(ts, k, a + b)
    ensures Spells(ts, k, a) && Spells(ts, k + |a|, b)
  {
    var whole := ts[k..k + |a| + |b|];
    assert ts[k..k + |a|] == whole[..|a|] == (a + b)[..|a|] == a;
    assert ts[k + |a|..k + |a| + |b|] == whole[|a|..] == (a + b)[|a|..] == b;
  }

  /** A stream spells whatever sits in it. */
  lemma SpellsInside(pre: seq<Token>, toks: seq<Token>, rest: seq<Token>)
    ensures Spells(pre + toks + rest, |pre|, toks)
  {
    var ts := pre + toks + rest;
    assert ts[|pre|..|pre| + |toks|] == toks;
  }

  /** Tokens that spell a printed let statement have its shape. */
  lemma SpelledLetHasShape(ts: seq<Token>, p: nat, s: N.Statement)
    requires s.VariableDeclaration? && s.value.None? && p + |PrintLet(s)| < |ts|
    requires Spells(ts, p, PrintLet(s))
    ensures LetShape(ts, p, s, p + |PrintLet(s)| - 1)
  {
    SpellsEach(ts, p, PrintLet(s));
    var at := s.start;
    var let_ := Token(KwLet, "let", at);
    var mut_ := Token(KwMut, "mut", at);
    var name := Token(Identifier, s.name, at);
    var colon := Token(Colon, ":", at);
    var typ := TypeToken(s.typ, at);
    var semi := Token(SemiColon, ";", at);
    GetTypeOfTypeKind(s.typ, typ);
    if s.kind == N.Mutable && s.typ == N.Any {
      assert PrintLet(s) == [let_, mut_, name, semi];
      assert ts[p] == let_ && ts[p + 1] == mut_ && ts[p + 2] == name && ts[p + 3] == semi;
    } else if s.kind == N.Mutable {
      assert PrintLet(s) == [let_, mut_, name, colon, typ, semi];
      assert ts[p] == let_ && ts[p + 1] == mut_ && ts[p + 2] == name;
      assert ts[p + 3] == colon && ts[p + 4] == typ && ts[p + 5] == semi;
    } else if s.typ == N.Any {
      assert PrintLet(s) == [let_, name, semi];
      assert ts[p] == let_ && ts[p + 1] == name && ts[p + 2] == semi;
    } else {
      assert PrintLet(s) == [let_, name, colon, typ, semi];
      assert ts[p] == let_ && ts[p + 1] == name;
      assert ts[p + 2] == colon && ts[p + 3] == typ && ts[p + 4] == semi;
    }
  }

  /** A printed let statement, wherever it sits in a closed stream, parses back to itself. */
  lemma LetRoundTrip(pre: seq<Token>, s: N.Statement, rest: seq<Token>)
    requires s.VariableDeclaration? && s.value.None? && Closed(rest)
    ensures var ts := pre + PrintLet(s) + rest;
      At(ts, |pre|)
      && LetStatement(ts, |pre|) == Parse(Parsed(s), |pre| + |PrintLet(s)| - 1)
  {
    var ts := pre + PrintLet(s) + rest;
    assert ts[|ts| - 1] == rest[|rest| - 1];
    SpellsInside(pre, PrintLet(s), rest);
    SpelledLetHasShape(ts, |pre|, s);
    LetShapeParses(ts, |pre|, s, |pre| + |PrintLet(s)| - 1);
  }

  /** Tokens that spell a printed non-empty parameter list have its shape. */
  lemma {:induction false} SpelledParamsHaveShape(ts: seq<Token>, k: nat, params: seq<N.FuncParam>,
                                                  at: Position)
    requires |params| > 0 && Spells(ts, k, PrintParamList(params, at))
    ensures ParamsShape(ts, k, params)
    decreases |params|
  {
    SpelledFirstParam(ts, k, params, at);
    if |params| > 1 {
      SpelledOtherParams(ts, k, params, at);
      SpelledParamsHaveShape(ts, k + 4, params[1..], at);
    }
  }

  /** The first item of a spelled parameter list, with the separator after it. */
  lemma SpelledFirstParam(ts: seq<Token>, k: nat, params: seq<N.FuncParam>, at: Position)
    requires |params| > 0 && Spells(ts, k, PrintParamList(params, at))
    ensures ParamAt(ts, k, params[0], |params| == 1)
  {
    var first := PrintParam(params[0], at);
    var sep := if |params| == 1 then Token(RParen, ")", at) else Token(Comma, ",", at);
    GetTypeOfTypeKind(params[0].typ, TypeToken(params[0].typ, at));
    if |params| > 1 {
      SpellsParts(ts, k, first + [sep], PrintParamList(params[1..], at));
    }
    SpellsEach(ts, k, first + [sep]);
    assert ts[k] == first[0] && ts[k + 1] == first[1] && ts[k + 2] == first[2] && ts[k + 3] == sep;
  }

  /** After the first item and its `,`, the tokens spell the other items. */
  lemma SpelledOtherParams(ts: seq<Token>, k: nat, params: seq<N.FuncParam>, at: Position)
    requires |params| > 1 && Spells(ts, k, PrintParamList(params, at))
    ensures Spells(ts, k + 4, PrintParamList(params[1..], at))
  {
    var front := PrintParam(params[0], at) + [Token(Comma, ",", at)];
    SpellsParts(ts, k, front, PrintParamList(params[1..], at));
  }

  /** Tokens that spell a printed return part after the `)` at k - 1 have the return shape. */
  lemma SpelledReturnHasShape(ts: seq<Token>, k: nat, typ: N.BuiltInTypes, at: Position)
    requires 0 < k && Spells(ts, k, PrintReturn(typ, at))
    ensures ReturnShape(ts, k - 1, typ, k + |PrintReturn(typ, at)| - 1)
  {
    SpellsEach(ts, k, PrintReturn(typ, at));
    var open := Token(LBracket, "{", at);
    var close := Token(RBracket, "}", at);
    if typ == N.Any {
      assert PrintReturn(typ, at) == [open, close];
      assert ts[k] == open && ts[k + 1] == close;
    } else {
      GetTypeOfTypeKind(typ, TypeToken(typ, at));
      assert PrintReturn(typ, at) == [Token(OpSetOrAcess, "->", at), TypeToken(typ, at), open, close];
      assert ts[k] == Token(OpSetOrAcess, "->", at) && ts[k + 1] == TypeToken(typ, at);
      assert ts[k + 2] == open && ts[k + 3] == close;
    }
  }

  /** Tokens that spell a printed function declaration have its shape. */
  lemma SpelledFunctionHasShape(ts: seq<Token>, p: nat, s: N.Statement)
    requires s.FuctionDeclaration? && s.body == [] && p + |PrintFunction(s)| < |ts|
    requires Spells(ts, p, PrintFunction(s))
    ensures FunctionShape(ts, p, s, p + |PrintFunction(s)| - 1)
  {
    SpelledFunctionHead(ts, p, s);
    SpelledFunctionParams(ts, p, s);
    SpelledFunctionReturn(ts, p, s);
  }

  /** The first three tokens of a spelled function declaration: `fn name (`. */
  lemma SpelledFunctionHead(ts: seq<Token>, p: nat, s: N.Statement)
    requires s.FuctionDeclaration? && Spells(ts, p, PrintFunction(s))
    ensures ts[p].kind.KwFn? && ts[p].position == s.start
    ensures ts[p + 1].kind.Identifier? && ts[p + 1].value == s.name && ts[p + 2].kind.LParen?
  {
    var head := PrintHead(s);
    SpellsParts(ts, p, head + PrintParams(s.params, s.start), PrintReturn(s.typ, s.start));
    SpellsParts(ts, p, head, PrintParams(s.params, s.start));
    SpellsEach(ts, p, head);
    assert ts[p] == head[0] && ts[p + 1] == head[1] && ts[p + 2] == head[2];
  }

  /** The parameters of a spelled function declaration, after its `(`. */
  lemma SpelledFunctionParams(ts: seq<Token>, p: nat, s: N.Statement)
    requires s.FuctionDeclaration? && Spells(ts, p, PrintFunction(s))
    ensures ParamsPart(ts, p + 2, s.params)
    ensures ParamsEnd(p + 2, s.params) == p + 2 + |PrintParams(s.params, s.start)|
  {
    var head := PrintHead(s);
    SpellsParts(ts, p, head + PrintParams(s.params, s.start), PrintReturn(s.typ, s.start));
    SpellsParts(ts, p, head, PrintParams(s.params, s.start));
    SpelledParamsPart(ts, p + 2, s.params, s.start);
  }

  /** The return part of a spelled function declaration, after its `)`. */
  lemma SpelledFunctionReturn(ts: seq<Token>, p: nat, s: N.Statement)
    requires s.FuctionDeclaration? && Spells(ts, p, PrintFunction(s))
    ensures ReturnShape(ts, p + 2 + |PrintParams(s.params, s.start)|, s.typ, p + |PrintFunction(s)| - 1)
  {
    var front := PrintHead(s) + PrintParams(s.params, s.start);
    SpellsParts(ts, p, front, PrintReturn(s.typ, s.start));
    SpelledReturnHasShape(ts, p + |front|, s.typ, s.start);
  }

  /** Tokens that spell printed parameters after the `(` at open have the parameter-list shape. */
  lemma SpelledParamsPart(ts: seq<Token>, open: nat, params: seq<N.FuncParam>, at: Position)
    requires Spells(ts, open + 1, PrintParams(params, at))
    ensures ParamsPart(ts, open, params)
    ensures ParamsEnd(open, params) == open + |PrintParams(params, at)|
  {
    SpellsEach(ts, open + 1, PrintParams(params, at));
    if params == [] {
      assert ts[open + 1] == PrintParams(params, at)[0];
    } else {
      SpelledParamsHaveShape(ts, open + 1, params, at);
    }
  }

  /** A printed function declaration, wherever it sits in a closed stream, parses back to itself. */
  lemma FunctionRoundTrip(pre: seq<Token>, s: N.Statement, rest: seq<Token>)
    requires s.FuctionDeclaration? && s.body == [] && Closed(rest)
    ensures var ts := pre + PrintFunction(s) + rest;
      At(ts, |pre|)
      && FunctionStatement(ts, |pre|) == Parse(Parsed(s), |pre| + |PrintFunction(s)| - 1)
  {
    var ts := pre + PrintFunction(s) + rest;
    assert ts[|ts| - 1] == rest[|rest| - 1];
    SpellsInside(pre, PrintFunction(s), rest);
    SpelledFunctionHasShape(ts, |pre|, s);
    FunctionShapeParses(ts, |pre|, s, |pre| + |PrintFunction(s)| - 1);
  }

  /**
   * From p to end the tokens are the statements stmts: each one parses, and
   * the next one starts where advance leaves the cursor after it.
   */
  predicate StatementsAt(ts: seq<Token>, p: nat, stmts: seq<N.Statement>, end: nat)
    requires At(ts, p)
    decreases |stmts|
  {
    if stmts == [] then p == end
    else
      var r := Statement(ts, p);
      (ts[p].kind.KwFn? || ts[p].kind.KwLet?) && r.outcome == Parsed(stmts[0])
      && StatementsAt(ts, Next(ts, r.pos), stmts[1..], end)
  }

  /**
   * parse_tokens over statements that parse one after the other up to Eof
   * appends all of them, in order, adds no diagnostic, and returns on Eof.
   */
  lemma {:induction false} StatementsParse(ts: seq<Token>, p: nat, stmts: seq<N.Statement>, end: nat,
                                           done: seq<N.Statement>, diags: seq<Handlers.Error>)
    requires At(ts, p) && StatementsAt(ts, p, stmts, end) && end < |ts| && ts[end].kind.Eof?
    ensures ParseLoop(ts, p, done, diags) == Run(done + stmts, diags, end, true)
    decreases |stmts|
  {
    if stmts == [] {
      assert done + stmts == done;
    } else {
      var r := Statement(ts, p);
      ParseLoopContinues(ts, p, done, diags);
      StatementsParse(ts, Next(ts, r.pos), stmts[1..], end, done + [stmts[0]], diags);
      assert done + [stmts[0]] + stmts[1..] == done + stmts;
    }
  }

}
