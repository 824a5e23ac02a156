/**
 * The abstract syntax tree (utils/src/types/parse_nodes.rs) and the closed
 * set of built-in type names it refers to.
 *
 * Dafny requires a destructor name to have one type across all variants of
 * a datatype, so where the source reuses a field name with different types
 * the variants here use distinct names: an optional statement list is
 * `block`, a constant's optional name and mandatory value are `constName`
 * and `constValue`, a for-loop's optional condition is `forCondition`, and a
 * variable alteration's fields are `target` and `newValue`.
 */
module ParseNodes {
  import opened Wrappers
  import Tokens

  datatype BuiltInTypes = Null | Int | Float | Bool | Char | Str | Void | Any

  datatype VarDeclarationKind = Mutable | Immutable

  datatype Loop = Yes | No

  datatype LiteralType = Numeric | String | Boolean

  /** A function parameter: a name and a mandatory type, nothing else. */
  datatype FuncParam = FuncParam(name: string, typ: BuiltInTypes)

  datatype Statement =
    | Module(start: Tokens.Position, body: seq<Statement>)
    | VariableDeclaration(start: Tokens.Position, name: string, kind: VarDeclarationKind,
                          typ: BuiltInTypes, value: Option<Expression>)
    | ConstantDeclaration(start: Tokens.Position, constName: Option<string>, typ: BuiltInTypes,
                          constValue: Expression)
    | FuctionDeclaration(start: Tokens.Position, name: string, typ: BuiltInTypes,
                         params: seq<FuncParam>, body: seq<Statement>)
    | If(start: Tokens.Position, condition: Expression, block: Option<seq<Statement>>,
         alternate: Option<seq<Statement>>)
    | ElseIf(start: Tokens.Position, condition: Expression, block: Option<seq<Statement>>,
             alternate: Option<seq<Statement>>)
    | Else(start: Tokens.Position, block: Option<seq<Statement>>)
    | While(start: Tokens.Position, condition: Expression, block: Option<seq<Statement>>)
    | For(start: Tokens.Position, variable: Option<Statement>, forCondition: Option<Expression>,
          variableUpdate: Option<Statement>, block: Option<seq<Statement>>,
          alternate: Option<seq<Statement>>)
    | Break(start: Tokens.Position)
    | Continue(start: Tokens.Position)
    | Return(start: Tokens.Position, expression: Expression)
    | VariableAlteration(target: string, operator: Tokens.TokenType, newValue: Expression)
    | FunctionCall(call: Expression)

  /** Indexing: `name[i]`, or a further index applied to an access, `a[i][j]`. */
  datatype ArrayAcess =
    | Acess(name: string, index: Expression)
    | NestedAcess(acess: ArrayAcess, index: Expression)

  datatype Expression =
    | Identifier(ident: string)
    | Binary(operator: Tokens.TokenType, left: Expression, right: Expression)
    | Logical(operator: Tokens.TokenType, left: Expression, right: Expression)
    | Unary(operator: Tokens.TokenType, operand: Expression)
    | Literal(litType: Tokens.TokenType, text: string)
    | ArrayLiteral(elements: Expressions)
    | ArrayAcess(access: ArrayAcess)
    | Call(name: string, arguments: Expressions)

  /**
   * An optional, ordered list of expressions (the source's
   * Option<Box<Vec<Expression>>>); a dedicated type rather than Option so
   * that Dafny sees each element as smaller than the node holding it.
   */
  datatype Expressions = Absent | Present(items: seq<Expression>)

  /** Where a statement starts; the two variants without a position give None. */
  function StartOf(s: Statement): (r: Option<Tokens.Position>)
    ensures r.None? <==> s.VariableAlteration? || s.FunctionCall?
  {
    match s
    case VariableAlteration(_, _, _) => None
    case FunctionCall(_) => None
    case _ => Some(s.start)
  }

  // ---------------------------------------------------------------------------
  // Array accesses: every chain ends in a named Acess.

  /** The array an access chain indexes into. */
  function BaseName(a: ArrayAcess): string
  {
    match a
    case Acess(name, _) => name
    case NestedAcess(inner, _) => BaseName(inner)
  }

  /** The index expressions of a chain, innermost (leftmost in the source) first. */
  function Indices(a: ArrayAcess): (r: seq<Expression>)
    ensures |r| >= 1
  {
    match a
    case Acess(_, i) => [i]
    case NestedAcess(inner, i) => Indices(inner) + [i]
  }

  /** The chain `name[indices[0]]...[indices[n-1]]`. */
  function Chain(name: string, indices: seq<Expression>): ArrayAcess
    requires |indices| >= 1
  {
    if |indices| == 1 then Acess(name, indices[0])
    else NestedAcess(Chain(name, indices[..|indices| - 1]), indices[|indices| - 1])
  }

  /** An access chain is exactly its base name and its non-empty index list. */
  lemma {:induction false} ChainOfParts(a: ArrayAcess)
    ensures Chain(BaseName(a), Indices(a)) == a
  {
    match a
    case Acess(_, _) =>
    case NestedAcess(inner, i) =>
      ChainOfParts(inner);
      assert Indices(a)[..|Indices(a)| - 1] == Indices(inner);
  }

  lemma {:induction false} PartsOfChain(name: string, indices: seq<Expression>)
    requires |indices| >= 1
    ensures BaseName(Chain(name, indices)) == name && Indices(Chain(name, indices)) == indices
  {
    if |indices| > 1 {
      PartsOfChain(name, indices[..|indices| - 1]);
    }
  }

  // ---------------------------------------------------------------------------
  // Expression trees are finite: a size that every child is smaller than.

  function ExprSize(e: Expression): nat
  {
    match e
    case Identifier(_) => 1
    case Binary(_, l, r) => 1 + ExprSize(l) + ExprSize(r)
    case Logical(_, l, r) => 1 + ExprSize(l) + ExprSize(r)
    case Unary(_, x) => 1 + ExprSize(x)
    case Literal(_, _) => 1
    case ArrayLiteral(els) => 1 + OptionalListSize(els)
    case ArrayAcess(a) => 1 + AcessSize(a)
    case Call(_, args) => 1 + OptionalListSize(args)
  }

  function OptionalListSize(es: Expressions): nat
  {
    match es
    case Absent => 0
    case Present(xs) => ListSize(xs)
  }

  function ListSize(es: seq<Expression>): nat
  {
    if es == [] then 0 else ExprSize(es[0]) + ListSize(es[1..])
  }

  function AcessSize(a: ArrayAcess): nat
  {
    match a
    case Acess(_, i) => ExprSize(i)
    case NestedAcess(inner, i) => AcessSize(inner) + ExprSize(i)
  }

  /** The immediate sub-expressions of a node, in source order. */
  function Children(e: Expression): seq<Expression>
  {
    match e
    case Identifier(_) => []
    case Binary(_, l, r) => [l, r]
    case Logical(_, l, r) => [l, r]
    case Unary(_, x) => [x]
    case Literal(_, _) => []
    case ArrayLiteral(els) => if els.Present? then els.items else []
    case ArrayAcess(a) => Indices(a)
    case Call(_, args) => if args.Present? then args.items else []
  }

  lemma {:induction false} ListSizeBounds(es: seq<Expression>, k: nat)
    requires k < |es|
    ensures ExprSize(es[k]) <= ListSize(es)
  {
    if k > 0 {
      ListSizeBounds(es[1..], k - 1);
    }
  }

  lemma {:induction false} AcessSizeBounds(a: ArrayAcess, k: nat)
    requires k < |Indices(a)|
    ensures ExprSize(Indices(a)[k]) <= AcessSize(a)
  {
    match a
    case Acess(_, _) =>
    case NestedAcess(inner, i) =>
      if k < |Indices(inner)| {
        AcessSizeBounds(inner, k);
      }
  }

  /** Every child of a node is strictly smaller than the node. */
  lemma ChildrenAreSmaller(e: Expression, k: nat)
    requires k < |Children(e)|
    ensures ExprSize(Children(e)[k]) < ExprSize(e)
  {
    match e
    case ArrayLiteral(els) => ListSizeBounds(els.items, k);
    case ArrayAcess(a) => AcessSizeBounds(a, k);
    case Call(_, args) => ListSizeBounds(args.items, k);
    case _ =>
  }
}
