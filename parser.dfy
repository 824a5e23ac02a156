/**
 * The parser of utils/src/frontend/parser.rs as a class: a cursor into an
 * immutable token sequence, the diagnostics appended so far and the Module
 * being built. Each method is proved against its counterpart in ParserSpec:
 * it ends with the spec's outcome and cursor, appends exactly the spec's
 * diagnostics, and leaves the tree alone.
 *
 * The source's cursor is a peekable iterator whose advance unwraps the next
 * element; on a stream the lexer produced (one ending in Eof) that unwrap
 * cannot fail, and the parse methods require such a stream.
 */
module Parsing {
  import opened Wrappers
  import opened Tokens
  import Handlers
  import N = ParseNodes
  import opened ParserSpec

  class Parser {
    const tokens: seq<Token>
    var pos: nat
    var errors: seq<Handlers.Error>
    var ast: N.Statement

    /** The cursor is on a token and the tree being built is a Module. */
    predicate Valid()
      reads this
    {
      pos < |tokens| && ast.Module?
    }

    /** Parser::new: the cursor on the first token, no diagnostics, an empty Module at (0, 0). */
    constructor (input: seq<Token>)
      requires |input| > 0
      ensures Valid()
      ensures tokens == input && pos == 0 && errors == []
      ensures ast == N.Module(Position(0, 0), [])
    {
      tokens := input;
      pos := 0;
      errors := [];
      ast := N.Module(Position(0, 0), []);
    }

    /** push_statement: append to the Module's body; any other tree is left alone. */
    method PushStatement(statement: N.Statement)
      modifies this`ast
      ensures old(ast).Module? ==> ast == N.Module(old(ast).start, old(ast).body + [statement])
      ensures !old(ast).Module? ==> ast == old(ast)
    {
      match ast {
        case Module(start, body) => ast := N.Module(start, body + [statement]);
        case _ =>
      }
    }

    /** get_type on the current token: the type it names, or the "a type" diagnostic. */
    method GetType() returns (r: Result<N.BuiltInTypes, Handlers.Error>)
      requires pos < |tokens|
      ensures r.Ok? <==> ParserSpec.GetType(tokens[pos]).Ok?
      ensures r.Ok? ==> r.value == ParserSpec.GetType(tokens[pos]).value
      ensures r.Err? ==> r.error == ExpectedError(ExpectedType, tokens[pos])
    {
      match tokens[pos].kind {
        case TypeNull => r := Ok(N.Null);
        case TypeInt => r := Ok(N.Int);
        case TypeFloat => r := Ok(N.Float);
        case TypeBoll => r := Ok(N.Bool);
        case TypeChar => r := Ok(N.Char);
        case TypeStr => r := Ok(N.Str);
        case TypeVoid => r := Ok(N.Void);
        case TypeAny => r := Ok(N.Any);
        case _ => r := Err(ExpectedError(ExpectedType, tokens[pos]));
      }
    }

    /** advance: move to the next token unless the current one is Eof. */
    method Advance()
      requires Closed(tokens) && pos < |tokens|
      modifies this`pos
      ensures pos == Next(tokens, old(pos))
    {
      if !tokens[pos].kind.Eof? {
        pos := pos + 1;
      }
    }

    /** Append a diagnostic, as the source's errors.insert(errors.len(), ...) does. */
    method Report(e: Handlers.Error)
      modifies this`errors
      ensures errors == old(errors) + [e]
    {
      errors := errors + [e];
    }

    /** parse_let_statement, with the cursor on `let`. */
    method ParseLetStatement() returns (r: Option<N.Statement>)
      requires Closed(tokens) && Valid()
      modifies this`pos, this`errors
      ensures Valid()
      ensures var spec := LetStatement(tokens, old(pos));
        r == AsOption(spec.outcome) && pos == spec.pos
        && errors == old(errors) + Diags(tokens, spec)
    {
      ghost var spec := LetStatement(tokens, pos);
      var letToken := tokens[pos];
      Advance();
      var kind := N.Immutable;
      if tokens[pos].kind.KwMut? {
        kind := N.Mutable;
        Advance();
      } else if !tokens[pos].kind.Identifier? {
        Report(ExpectedError(ExpectedMutOrIdentifier, tokens[pos]));
        return None;
      }
      assert spec == LetName(tokens, pos, letToken.position, kind);
      var found := ExpectedOrError(ExpectedIdentifier, Identifier, tokens[pos]);
      if found.Err? {
        Report(found.error);
        return None;
      }
      var name := found.value.value;
      Advance();
      assert spec == LetType(tokens, pos, letToken.position, name, kind);
      if tokens[pos].kind.Colon? {
        Advance();
      } else if tokens[pos].kind.SemiColon? {
        return Some(N.VariableDeclaration(letToken.position, name, kind, N.Any, None));
      } else {
        Report(ExpectedError(ExpectedTypeOrLetEnd, tokens[pos]));
        return None;
      }
      assert spec == LetTyped(tokens, pos, letToken.position, name, kind);
      var typ;
      var t := GetType();
      match t {
        case Ok(b) => typ := b;
        case Err(e) =>
          Report(e);
          return None;
      }
      Advance();
      if tokens[pos].kind.SemiColon? {
        return Some(N.VariableDeclaration(letToken.position, name, kind, typ, None));
      } else {
        Report(ExpectedError(ExpectedTypeOrLetEnd, tokens[pos]));
        return None;
      }
    }

    /**
     * One item of parse_params_statement's loop, `name : type`, with the
     * cursor on its first token; the cursor stops on the type.
     */
    method ParseParam() returns (r: Option<N.FuncParam>)
      requires Closed(tokens) && Valid()
      modifies this`pos, this`errors
      ensures Valid()
      ensures var spec := Param(tokens, old(pos));
        r == AsOption(spec.outcome) && pos == spec.pos
        && errors == old(errors) + Diags(tokens, spec)
    {
      var found := ExpectedOrError(ExpectedIdentifier, Identifier, tokens[pos]);
      if found.Err? {
        Report(found.error);
        return None;
      }
      var name := found.value.value;
      Advance();
      var colon := ExpectedOrError(ExpectedColon, Colon, tokens[pos]);
      if colon.Err? {
        Report(colon.error);
        return None;
      }
      Advance();
      var t := GetType();
      match t {
        case Ok(typ) => r := Some(N.FuncParam(name, typ));
        case Err(e) =>
          Report(e);
          return None;
      }
    }

    /**
     * parse_params_statement, with the cursor on `(`. The source's loop
     * condition holds of every token, so the loop only ends by its break on
     * `)` or by returning on a diagnostic; the check for `)` after the loop
     * then always succeeds.
     */
    method ParseParamsStatement() returns (r: Option<seq<N.FuncParam>>)
      requires Closed(tokens) && Valid()
      modifies this`pos, this`errors
      ensures Valid()
      ensures var spec := Params(tokens, old(pos));
        r == AsOption(spec.outcome) && pos == spec.pos
        && errors == old(errors) + Diags(tokens, spec)
    {
      ghost var spec := Params(tokens, pos);
      Advance();
      var params: seq<N.FuncParam> := [];
      var closed := tokens[pos].kind.RParen?;
      if closed {
        return Some(params);
      }
      ghost var errors0 := errors;
      assert Prepend(params, ParamsLoop(tokens, pos)) == spec by {
        if spec.outcome.Parsed? {
          assert params + spec.outcome.value == spec.outcome.value;
        }
      }
      while true
        invariant Valid() && errors == errors0
        invariant Prepend(params, ParamsLoop(tokens, pos)) == spec
        decreases |tokens| - pos
      {
        ghost var q := pos;
        var item := ParseParam();
        if item.None? {
          return None;
        }
        Advance();
        var param := item.value;
        var atEnd := tokens[pos].kind.RParen?;
        if atEnd {
          params := params + [param];
          break;
        }
        var atComma := tokens[pos].kind.Comma?;
        if !atComma {
          Report(ExpectedError(ExpectedCommaOrRParen, tokens[pos]));
          return None;
        }
        Advance();
        PrependTwice(params, [param], ParamsLoop(tokens, pos));
        params := params + [param];
      }
      r := Some(params);
    }

    /**
     * parse_block_statement, with the cursor on `{`. Where the source loops
     * forever (a token other than `}` or Eof after `{`), this returns Spins.
     */
    method ParseBlockStatement(isLoop: N.Loop) returns (r: Option<seq<N.Statement>>, spins: bool)
      requires Closed(tokens) && Valid()
      modifies this`pos, this`errors
      ensures Valid()
      ensures var spec := Block(tokens, old(pos));
        r == AsOption(spec.outcome) && spins == spec.outcome.Spins? && pos == spec.pos
        && errors == old(errors) + Diags(tokens, spec)
    {
      Advance();
      var blockStatements: seq<N.Statement> := [];
      var closed := tokens[pos].kind.RBracket?;
      if closed {
        return Some(blockStatements), false;
      }
      var ended := tokens[pos].kind.Eof?;
      if ended {
        Report(ExpectedError(ExpectedBlockEnd, tokens[pos]));
        return None, false;
      }
      r, spins := None, true;
    }

    /** The optional return type after a function's parameters, with the cursor on the token after `)`. */
    method ParseReturnType() returns (r: Option<N.BuiltInTypes>)
      requires Closed(tokens) && Valid()
      modifies this`pos, this`errors
      ensures Valid()
      ensures var spec := ReturnType(tokens, old(pos));
        r == AsOption(spec.outcome) && pos == spec.pos
        && errors == old(errors) + Diags(tokens, spec)
    {
      var arrow := tokens[pos].kind.OpSetOrAcess?;
      if arrow {
        Advance();
        var t := GetType();
        match t {
          case Ok(typ) => r := Some(typ);
          case Err(e) =>
            Report(e);
            return None;
        }
        Advance();
        return;
      }
      var brace := tokens[pos].kind.LBracket?;
      if brace {
        return Some(N.Any);
      }
      Report(ExpectedError(ExpectedArrowOrBlock, tokens[pos]));
      r := None;
    }

    /** parse_function_satement, with the cursor on `fn`. */
    method ParseFunctionStatement() returns (r: Option<N.Statement>, spins: bool)
      requires Closed(tokens) && Valid()
      modifies this`pos, this`errors
      ensures Valid()
      ensures var spec := FunctionStatement(tokens, old(pos));
        r == AsOption(spec.outcome) && spins == spec.outcome.Spins? && pos == spec.pos
        && errors == old(errors) + Diags(tokens, spec)
    {
      var fnToken := tokens[pos];
      Advance();
      var found := ExpectedOrError(ExpectedIdentifier, Identifier, tokens[pos]);
      if found.Err? {
        Report(found.error);
        return None, false;
      }
      var name := found.value.value;
      Advance();
      var lparen := ExpectedOrError(ExpectedLParen, LParen, tokens[pos]);
      if lparen.Err? {
        Report(lparen.error);
        return None, false;
      }
      var params := ParseParamsStatement();
      if params.None? {
        return None, false;
      }
      r, spins := ParseReturnTypeAndBody(fnToken.position, name, params.value);
    }

    /**
     * The rest of parse_function_satement, with the cursor on the `)` that
     * closes the parameters: the optional `-> type`, then the `{ }` block.
     */
    method ParseReturnTypeAndBody(start: Position, name: string, params: seq<N.FuncParam>)
      returns (r: Option<N.Statement>, spins: bool)
      requires Closed(tokens) && Valid()
      modifies this`pos, this`errors
      ensures Valid()
      ensures var spec := FunctionRest(tokens, old(pos), start, name, params);
        r == AsOption(spec.outcome) && spins == spec.outcome.Spins? && pos == spec.pos
        && errors == old(errors) + Diags(tokens, spec)
    {
      Advance();
      var typ := ParseReturnType();
      if typ.None? {
        return None, false;
      }
      var lbracket := ExpectedOrError(ExpectedBlockStart, LBracket, tokens[pos]);
      if lbracket.Err? {
        Report(lbracket.error);
        return None, false;
      }
      var body;
      body, spins := ParseBlockStatement(N.No);
      if body.Some? {
        r := Some(N.FuctionDeclaration(start, name, typ.value, params, body.value));
      } else {
        r := None;
      }
    }

    /**
     * The dispatch in parse_tokens on a leading `fn` or `let`: the statement
     * if one parsed, and whether the parse would never return.
     */
    method ParseStatement() returns (node: Option<N.Statement>, spins: bool)
      requires Closed(tokens) && Valid()
      requires tokens[pos].kind.KwFn? || tokens[pos].kind.KwLet?
      modifies this`pos, this`errors
      ensures Valid()
      ensures var spec := Statement(tokens, old(pos));
        node == AsOption(spec.outcome) && spins == spec.outcome.Spins? && pos == spec.pos
        && errors == old(errors) + Diags(tokens, spec)
    {
      if tokens[pos].kind.KwFn? {
        node, spins := ParseFunctionStatement();
      } else {
        node := ParseLetStatement();
        spins := false;
      }
    }

    /**
     * parse_tokens: parse statements into the Module until Eof, a token that
     * starts no statement, or the first failing statement. Returns false where
     * the source would hang in parse_block_statement.
     */
    method ParseTokens() returns (halts: bool)
      requires Closed(tokens) && Valid()
      modifies this
      ensures Valid()
      ensures var run := ParseLoop(tokens, old(pos), old(ast).body, old(errors));
        ast == N.Module(old(ast).start, run.body) && errors == run.diags
        && pos == run.pos && halts == run.halts
    {
      while !tokens[pos].kind.Eof?
        invariant Valid() && ast.start == old(ast).start
        invariant ParseLoop(tokens, pos, ast.body, errors) == ParseLoop(tokens, old(pos), old(ast).body, old(errors))
        decreases |tokens| - pos
      {
        if !tokens[pos].kind.KwFn? && !tokens[pos].kind.KwLet? {
          // The source builds an "a statement" diagnostic here and drops it.
          break;
        }
        ghost var start, body, diags := pos, ast.body, errors;
        var node, spins := ParseStatement();
        if node.None? {
          ParseLoopStops(tokens, start, body, diags);
          return !spins;
        }
        ParseLoopContinues(tokens, start, body, diags);
        assert errors == diags + [] == diags;
        PushStatement(node.value);
        Advance();
      }
      halts := true;
    }
  }
}
