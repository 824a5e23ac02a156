/**
 * The token vocabulary of the language (utils/src/types/tokens.rs): the
 * closed set of token types, the literal spelling of every type that the
 * lexer matches by a fixed string, the identifier and number classes, and
 * the Token record with its source Position.
 *
 * The regular-expression engine that splits text into slices is not part of
 * this module; the functions here say which type a WHOLE slice receives.
 */
module Tokens {
  import opened Wrappers

  /** Zero-based line and column of a token (types::others::Position). */
  datatype Position = Position(line: nat, column: nat)

  /** Every token type, spelled as the enum spells it (TypeBoll, SomehingElse, ...). */
  datatype TokenType =
    // special symbols
    | NewLine | Space | Eof
    // punctuation
    | Dot | Comma | Colon | SemiColon | SingleQuote | DoubleQuotes
    // delimiters
    | LParen | RParen | LBrace | RBrace | LBracket | RBracket
    | OpenComment | CloseComment
    // declaration keywords
    | KwNs | KwUse | KwLet | KwConst | KwMut | KwStruct | KwFn
    // logical and special keywords
    | KwIf | KwElse | KwElif | KwIs | KwReturn
    // built-in types
    | TypeNull | TypeInt | TypeFloat | TypeBoll | TypeChar | TypeStr | TypeVoid | TypeAny
    // binary operators
    | OpPlus | OpMinus | OpMultiply | OpDivision | OpRest
    // logical operators
    | OpNot | OpAnd | OpOr
    | OpSmallerThan | OpGreaterThan | OpSmallerOrEqualsThan | OpGreaterOrEqualsThan
    | OpEquals | OpNotEquals
    // assignment operators
    | OpAssign | OpAssignPlus | OpAssignMinus | OpAssignMultiply | OpAssignDivision | OpAssignRest
    // special operators
    | OpSetOrAcess | OpAcess | OpInferredTypeAssing
    // literals
    | Identifier | Number | SomehingElse | CharLiteral | StringLiteral | True | False

  /** A token: its type, a copy of the matched text and where it starts. */
  datatype Token = Token(kind: TokenType, value: string, position: Position)

  /** Token::new: the type, a copy of the text, and the line and column as its Position. */
  function NewToken(kind: TokenType, value: string, line: nat, column: nat): (t: Token)
    ensures t.kind == kind && t.value == value
    ensures t.position.line == line && t.position.column == column
  {
    Token(kind, value, Position(line, column))
  }

  /**
   * The fixed spellings the lexer matches for each token type. Space is the
   * one-character class [ \t]; the regular-expression types (Identifier,
   * Number, CharLiteral, StringLiteral) have no fixed spelling.
   */
  function Spellings(k: TokenType): seq<string>
  {
    match k
    case NewLine => ["\n"]
    case Space => [" ", "\t"]
    case Eof => ["\0"]
    case Dot => ["."]
    case Comma => [","]
    case Colon => [":"]
    case SemiColon => [";"]
    case SingleQuote => ["'"]
    case DoubleQuotes => ["\""]
    case LParen => ["("]
    case RParen => [")"]
    case LBrace => ["["]
    case RBrace => ["]"]
    case LBracket => ["{"]
    case RBracket => ["}"]
    case OpenComment => ["-#"]
    case CloseComment => ["#-"]
    case KwNs => ["ns"]
    case KwUse => ["use"]
    case KwLet => ["let"]
    case KwConst => ["const"]
    case KwMut => ["mut"]
    case KwStruct => ["struct"]
    case KwFn => ["fn"]
    case KwIf => ["if"]
    case KwElse => ["else"]
    case KwElif => ["elif"]
    case KwIs => ["is"]
    case KwReturn => ["return"]
    case TypeNull => ["null"]
    case TypeInt => ["int"]
    case TypeFloat => ["float"]
    case TypeBoll => ["bool"]
    case TypeChar => ["char"]
    case TypeStr => ["str"]
    case TypeVoid => ["void"]
    case TypeAny => ["any"]
    case OpPlus => ["+"]
    case OpMinus => ["-"]
    case OpMultiply => ["*"]
    case OpDivision => ["/"]
    case OpRest => ["%"]
    case OpNot => ["!", "not"]
    case OpAnd => ["&", "and"]
    case OpOr => ["|", "or"]
    case OpSmallerThan => ["<"]
    case OpGreaterThan => [">"]
    case OpSmallerOrEqualsThan => [">="]
    case OpGreaterOrEqualsThan => ["<="]
    case OpEquals => ["=="]
    case OpNotEquals => ["!="]
    case OpAssign => ["="]
    case OpAssignPlus => ["+="]
    case OpAssignMinus => ["-="]
    case OpAssignMultiply => ["*="]
    case OpAssignDivision => ["/="]
    case OpAssignRest => ["%="]
    case OpSetOrAcess => ["->"]
    case OpAcess => ["::"]
    case OpInferredTypeAssing => [":="]
    case Identifier => []
    case Number => []
    case SomehingElse => ["_"]
    case CharLiteral => []
    case StringLiteral => []
    case True => ["true"]
    case False => ["false"]
  }

  /**
   * The token type a fixed spelling selects, if the slice is one: the
   * table of #[token] attributes, read by length and then by character.
   */
  function LiteralKind(s: string): Option<TokenType>
  {
    if |s| == 1 then OneCharKind(s[0])
    else if |s| == 2 then TwoCharKind(s[0], s[1])
    else WordKind(s)
  }

  function OneCharKind(c: char): Option<TokenType>
  {
    match c
    case '\n' => Some(NewLine)
    case ' ' => Some(Space)
    case '\t' => Some(Space)
    case '\0' => Some(Eof)
    case '.' => Some(Dot)
    case ',' => Some(Comma)
    case ':' => Some(Colon)
    case ';' => Some(SemiColon)
    case '\'' => Some(SingleQuote)
    case '"' => Some(DoubleQuotes)
    case '(' => Some(LParen)
    case ')' => Some(RParen)
    case '[' => Some(LBrace)
    case ']' => Some(RBrace)
    case '{' => Some(LBracket)
    case '}' => Some(RBracket)
    case '+' => Some(OpPlus)
    case '-' => Some(OpMinus)
    case '*' => Some(OpMultiply)
    case '/' => Some(OpDivision)
    case '%' => Some(OpRest)
    case '!' => Some(OpNot)
    case '&' => Some(OpAnd)
    case '|' => Some(OpOr)
    case '<' => Some(OpSmallerThan)
    case '>' => Some(OpGreaterThan)
    case '=' => Some(OpAssign)
    case '_' => Some(SomehingElse)
    case _ => None
  }

  function TwoCharKind(a: char, b: char): Option<TokenType>
  {
    match a
    case '-' => if b == '#' then Some(OpenComment) else if b == '=' then Some(OpAssignMinus)
                else if b == '>' then Some(OpSetOrAcess) else None
    case '#' => if b == '-' then Some(CloseComment) else None
    case 'n' => if b == 's' then Some(KwNs) else None
    case 'f' => if b == 'n' then Some(KwFn) else None
    case 'i' => if b == 'f' then Some(KwIf) else if b == 's' then Some(KwIs) else None
    case 'o' => if b == 'r' then Some(OpOr) else None
    case '>' => if b == '=' then Some(OpSmallerOrEqualsThan) else None
    case '<' => if b == '=' then Some(OpGreaterOrEqualsThan) else None
    case '=' => if b == '=' then Some(OpEquals) else None
    case '!' => if b == '=' then Some(OpNotEquals) else None
    case '+' => if b == '=' then Some(OpAssignPlus) else None
    case '*' => if b == '=' then Some(OpAssignMultiply) else None
    case '/' => if b == '=' then Some(OpAssignDivision) else None
    case '%' => if b == '=' then Some(OpAssignRest) else None
    case ':' => if b == ':' then Some(OpAcess) else if b == '=' then Some(OpInferredTypeAssing) else None
    case _ => None
  }

  /** Words of three or more letters, told apart by their first letter and then compared whole. */
  function WordKind(s: string): Option<TokenType>
  {
    if |s| < 3 then None
    else match s[0]
      case 'u' => if s == "use" then Some(KwUse) else None
      case 'l' => if s == "let" then Some(KwLet) else None
      case 'c' => if s == "const" then Some(KwConst) else if s == "char" then Some(TypeChar) else None
      case 'm' => if s == "mut" then Some(KwMut) else None
      case 's' => if s == "struct" then Some(KwStruct) else if s == "str" then Some(TypeStr) else None
      case 'e' => if s == "else" then Some(KwElse) else if s == "elif" then Some(KwElif) else None
      case 'r' => if s == "return" then Some(KwReturn) else None
      case 'n' => if s == "null" then Some(TypeNull) else if s == "not" then Some(OpNot) else None
      case 'i' => if s == "int" then Some(TypeInt) else None
      case 'f' => if s == "float" then Some(TypeFloat) else if s == "false" then Some(False) else None
      case 'b' => if s == "bool" then Some(TypeBoll) else None
      case 'v' => if s == "void" then Some(TypeVoid) else None
      case 'a' => if s == "any" then Some(TypeAny) else if s == "and" then Some(OpAnd) else None
      case 't' => if s == "true" then Some(True) else None
      case _ => None
  }

  /**
   * Every fixed spelling selects exactly the type it is listed under, and
   * none starts with a digit.
   */
  lemma SpellingSelectsItsType(k: TokenType, s: string)
    requires s in Spellings(k)
    ensures LiteralKind(s) == Some(k)
    ensures |s| > 0 && !IsDigit(s[0])
  {
    if k.NewLine? || k.Space? || k.Eof? || k.Dot? || k.Comma? || k.Colon?
      || k.SemiColon? || k.SingleQuote? || k.DoubleQuotes? {
      SymbolsSpelled(k, s);
    } else if k.LParen? || k.RParen? || k.LBrace? || k.RBrace? || k.LBracket? || k.RBracket?
      || k.OpenComment? || k.CloseComment? {
      DelimitersSpelled(k, s);
    } else if k.KwNs? || k.KwUse? || k.KwLet? || k.KwConst? || k.KwMut? || k.KwStruct?
      || k.KwFn? {
      DeclarationKeywordsSpelled(k, s);
    } else if k.KwIf? || k.KwElse? || k.KwElif? || k.KwIs? || k.KwReturn? {
      ControlKeywordsSpelled(k, s);
    } else if k.TypeNull? || k.TypeInt? || k.TypeFloat? || k.TypeBoll? {
      ScalarTypeNamesSpelled(k, s);
    } else if k.TypeChar? || k.TypeStr? || k.TypeVoid? || k.TypeAny? {
      OtherTypeNamesSpelled(k, s);
    } else if k.OpPlus? || k.OpMinus? || k.OpMultiply? {
      AdditiveOperatorsSpelled(k, s);
    } else if k.OpDivision? || k.OpRest? {
      DivisionOperatorsSpelled(k, s);
    } else if k.OpNot? || k.OpAnd? || k.OpOr? {
      LogicalOperatorsSpelled(k, s);
    } else if k.OpSmallerThan? || k.OpGreaterThan? || k.OpSmallerOrEqualsThan? {
      OrderingsSpelled(k, s);
    } else if k.OpGreaterOrEqualsThan? || k.OpEquals? || k.OpNotEquals? {
      EqualitiesSpelled(k, s);
    } else if k.OpAssign? || k.OpAssignPlus? || k.OpAssignMinus? {
      AdditiveAssignmentsSpelled(k, s);
    } else if k.OpAssignMultiply? || k.OpAssignDivision? || k.OpAssignRest? {
      ScalingAssignmentsSpelled(k, s);
    } else if k.OpSetOrAcess? || k.OpAcess? || k.OpInferredTypeAssing? {
      SpecialOperatorsSpelled(k, s);
    } else if k.SomehingElse? || k.True? || k.False? {
      WordLiteralsSpelled(k, s);
    } else {
      // Identifier, Number, CharLiteral and StringLiteral have no fixed spelling.
      assert false;
    }
  }

  /** SpellingSelectsItsType for the special symbols and punctuation. */
  lemma SymbolsSpelled(k: TokenType, s: string)
    requires k.NewLine? || k.Space? || k.Eof? || k.Dot? || k.Comma? || k.Colon?
             || k.SemiColon? || k.SingleQuote? || k.DoubleQuotes?
    requires s in Spellings(k)
    ensures LiteralKind(s) == Some(k) && |s| > 0 && !IsDigit(s[0])
  {
  }

  /** SpellingSelectsItsType for the delimiters and comment marks. */
  lemma DelimitersSpelled(k: TokenType, s: string)
    requires k.LParen? || k.RParen? || k.LBrace? || k.RBrace? || k.LBracket? || k.RBracket?
             || k.OpenComment? || k.CloseComment?
    requires s in Spellings(k)
    ensures LiteralKind(s) == Some(k) && |s| > 0 && !IsDigit(s[0])
  {
  }

  /** SpellingSelectsItsType for the declaration keywords. */
  lemma DeclarationKeywordsSpelled(k: TokenType, s: string)
    requires k.KwNs? || k.KwUse? || k.KwLet? || k.KwConst? || k.KwMut? || k.KwStruct?
             || k.KwFn?
    requires s in Spellings(k)
    ensures LiteralKind(s) == Some(k) && |s| > 0 && !IsDigit(s[0])
  {
  }

  /** SpellingSelectsItsType for the logical and special keywords. */
  lemma ControlKeywordsSpelled(k: TokenType, s: string)
    requires k.KwIf? || k.KwElse? || k.KwElif? || k.KwIs? || k.KwReturn?
    requires s in Spellings(k)
    ensures LiteralKind(s) == Some(k) && |s| > 0 && !IsDigit(s[0])
  {
  }

  /** SpellingSelectsItsType for the type names null, int, float and bool. */
  lemma ScalarTypeNamesSpelled(k: TokenType, s: string)
    requires k.TypeNull? || k.TypeInt? || k.TypeFloat? || k.TypeBoll?
    requires s in Spellings(k)
    ensures LiteralKind(s) == Some(k) && |s| > 0 && !IsDigit(s[0])
  {
  }

  /** SpellingSelectsItsType for the type names char, str, void and any. */
  lemma OtherTypeNamesSpelled(k: TokenType, s: string)
    requires k.TypeChar? || k.TypeStr? || k.TypeVoid? || k.TypeAny?
    requires s in Spellings(k)
    ensures LiteralKind(s) == Some(k) && |s| > 0 && !IsDigit(s[0])
  {
  }

  /** SpellingSelectsItsType for the operators +, - and *. */
  lemma AdditiveOperatorsSpelled(k: TokenType, s: string)
    requires k.OpPlus? || k.OpMinus? || k.OpMultiply?
    requires s in Spellings(k)
    ensures LiteralKind(s) == Some(k) && |s| > 0 && !IsDigit(s[0])
  {
  }

  /** SpellingSelectsItsType for the operators / and %. */
  lemma DivisionOperatorsSpelled(k: TokenType, s: string)
    requires k.OpDivision? || k.OpRest?
    requires s in Spellings(k)
    ensures LiteralKind(s) == Some(k) && |s| > 0 && !IsDigit(s[0])
  {
  }

  /** SpellingSelectsItsType for the logical operators with two spellings. */
  lemma LogicalOperatorsSpelled(k: TokenType, s: string)
    requires k.OpNot? || k.OpAnd? || k.OpOr?
    requires s in Spellings(k)
    ensures LiteralKind(s) == Some(k) && |s| > 0 && !IsDigit(s[0])
  {
  }

  /** SpellingSelectsItsType for the comparisons <, > and >= (the last named OpSmallerOrEqualsThan). */
  lemma OrderingsSpelled(k: TokenType, s: string)
    requires k.OpSmallerThan? || k.OpGreaterThan? || k.OpSmallerOrEqualsThan?
    requires s in Spellings(k)
    ensures LiteralKind(s) == Some(k) && |s| > 0 && !IsDigit(s[0])
  {
  }

  /** SpellingSelectsItsType for the comparisons <= (named OpGreaterOrEqualsThan), == and !=. */
  lemma EqualitiesSpelled(k: TokenType, s: string)
    requires k.OpGreaterOrEqualsThan? || k.OpEquals? || k.OpNotEquals?
    requires s in Spellings(k)
    ensures LiteralKind(s) == Some(k) && |s| > 0 && !IsDigit(s[0])
  {
  }

  /** SpellingSelectsItsType for the assignments =, += and -=. */
  lemma AdditiveAssignmentsSpelled(k: TokenType, s: string)
    requires k.OpAssign? || k.OpAssignPlus? || k.OpAssignMinus?
    requires s in Spellings(k)
    ensures LiteralKind(s) == Some(k) && |s| > 0 && !IsDigit(s[0])
  {
  }

  /** SpellingSelectsItsType for the assignments *=, /= and %=. */
  lemma ScalingAssignmentsSpelled(k: TokenType, s: string)
    requires k.OpAssignMultiply? || k.OpAssignDivision? || k.OpAssignRest?
    requires s in Spellings(k)
    ensures LiteralKind(s) == Some(k) && |s| > 0 && !IsDigit(s[0])
  {
  }

  /** SpellingSelectsItsType for the special operators. */
  lemma SpecialOperatorsSpelled(k: TokenType, s: string)
    requires k.OpSetOrAcess? || k.OpAcess? || k.OpInferredTypeAssing?
    requires s in Spellings(k)
    ensures LiteralKind(s) == Some(k) && |s| > 0 && !IsDigit(s[0])
  {
  }

  /** SpellingSelectsItsType for the literal types with a fixed spelling. */
  lemma WordLiteralsSpelled(k: TokenType, s: string)
    requires k.SomehingElse? || k.True? || k.False?
    requires s in Spellings(k)
    ensures LiteralKind(s) == Some(k) && |s| > 0 && !IsDigit(s[0])
  {
  }

  /** Conversely, a slice that selects a type is one of that type's spellings. */
  lemma SelectedTypeListsSpelling(s: string, k: TokenType)
    requires LiteralKind(s) == Some(k)
    ensures s in Spellings(k)
  {
    if |s| == 1 {
      OneCharSliceListed(s, k);
    } else if |s| == 2 {
      TwoCharSliceListed(s, k);
    } else {
      WordListed(s, k);
    }
  }

  /** SelectedTypeListsSpelling for one-character slices. */
  lemma OneCharSliceListed(s: string, k: TokenType)
    requires |s| == 1 && OneCharKind(s[0]) == Some(k)
    ensures s in Spellings(k)
  {
    OneCharListed(s[0], k);
    assert s == [s[0]];
  }

  /** SelectedTypeListsSpelling for two-character slices. */
  lemma TwoCharSliceListed(s: string, k: TokenType)
    requires |s| == 2 && TwoCharKind(s[0], s[1]) == Some(k)
    ensures s in Spellings(k)
  {
    TwoCharListed(s[0], s[1], k);
    assert s == [s[0], s[1]];
  }

  /** Words starting with 'a' or 'b'. */
  lemma AWordListed(s: string, k: TokenType)
    requires |s| > 2 && (s[0] == 'a' || s[0] == 'b') && WordKind(s) == Some(k)
    ensures s in Spellings(k)
  {
  }

  /** Words starting with 'c' or 'e'. */
  lemma CWordListed(s: string, k: TokenType)
    requires |s| > 2 && (s[0] == 'c' || s[0] == 'e') && WordKind(s) == Some(k)
    ensures s in Spellings(k)
  {
  }

  /** Words starting with 'f', 'i' or 'l'. */
  lemma FWordListed(s: string, k: TokenType)
    requires |s| > 2 && (s[0] == 'f' || s[0] == 'i' || s[0] == 'l') && WordKind(s) == Some(k)
    ensures s in Spellings(k)
  {
  }

  /** Words starting with 'm' or 'n'. */
  lemma MWordListed(s: string, k: TokenType)
    requires |s| > 2 && (s[0] == 'm' || s[0] == 'n') && WordKind(s) == Some(k)
    ensures s in Spellings(k)
  {
  }

  /** Words starting with 'r' or 's'. */
  lemma RWordListed(s: string, k: TokenType)
    requires |s| > 2 && (s[0] == 'r' || s[0] == 's') && WordKind(s) == Some(k)
    ensures s in Spellings(k)
  {
  }

  /** Words starting with 't', 'u' or 'v'. */
  lemma TWordListed(s: string, k: TokenType)
    requires |s| > 2 && (s[0] == 't' || s[0] == 'u' || s[0] == 'v') && WordKind(s) == Some(k)
    ensures s in Spellings(k)
  {
  }

  /** SelectedTypeListsSpelling for words, split by first letter. */
  lemma WordListed(s: string, k: TokenType)
    requires WordKind(s) == Some(k)
    ensures s in Spellings(k)
  {
    if s[0] == 'a' || s[0] == 'b' {
      AWordListed(s, k);
    } else if s[0] == 'c' || s[0] == 'e' {
      CWordListed(s, k);
    } else if s[0] == 'f' || s[0] == 'i' || s[0] == 'l' {
      FWordListed(s, k);
    } else if s[0] == 'm' || s[0] == 'n' {
      MWordListed(s, k);
    } else if s[0] == 'r' || s[0] == 's' {
      RWordListed(s, k);
    } else {
      TWordListed(s, k);
    }
  }

  /** Newline, blanks and the end-of-file marker. */
  lemma WhitespaceCharListed(c: char, k: TokenType)
    requires (c == '\n' || c == ' ' || c == '\t' || c == '\0') && OneCharKind(c) == Some(k)
    ensures [c] in Spellings(k)
  {
    if c == '\n' {
      assert k == NewLine;
    } else if c == ' ' {
      assert k == Space;
    } else if c == '\t' {
      assert k == Space;
    } else {
      assert k == Eof;
    }
  }

  /** The punctuation marks. */
  lemma StopCharListed(c: char, k: TokenType)
    requires (c == '.' || c == ',' || c == ':' || c == ';') && OneCharKind(c) == Some(k)
    ensures [c] in Spellings(k)
  {
    if c == '.' {
      assert k == Dot;
    } else if c == ',' {
      assert k == Comma;
    } else if c == ':' {
      assert k == Colon;
    } else {
      assert k == SemiColon;
    }
  }

  /** Quotes and parentheses. */
  lemma QuoteCharListed(c: char, k: TokenType)
    requires (c == '\'' || c == '"' || c == '(' || c == ')') && OneCharKind(c) == Some(k)
    ensures [c] in Spellings(k)
  {
    if c == '\'' {
      assert k == SingleQuote;
    } else if c == '"' {
      assert k == DoubleQuotes;
    } else if c == '(' {
      assert k == LParen;
    } else {
      assert k == RParen;
    }
  }

  /** Square and curly brackets. */
  lemma BracketCharListed(c: char, k: TokenType)
    requires (c == '[' || c == ']' || c == '{' || c == '}') && OneCharKind(c) == Some(k)
    ensures [c] in Spellings(k)
  {
    if c == '[' {
      assert k == LBrace;
    } else if c == ']' {
      assert k == RBrace;
    } else if c == '{' {
      assert k == LBracket;
    } else {
      assert k == RBracket;
    }
  }

  /** The additive operators. */
  lemma AdditiveCharListed(c: char, k: TokenType)
    requires (c == '+' || c == '-') && OneCharKind(c) == Some(k)
    ensures [c] in Spellings(k)
  {
    if c == '+' {
      assert k == OpPlus;
    } else {
      assert k == OpMinus;
    }
  }

  /** The multiplicative operators. */
  lemma MultiplicativeCharListed(c: char, k: TokenType)
    requires (c == '*' || c == '/' || c == '%') && OneCharKind(c) == Some(k)
    ensures [c] in Spellings(k)
  {
    if c == '*' {
      assert k == OpMultiply;
    } else if c == '/' {
      assert k == OpDivision;
    } else {
      assert k == OpRest;
    }
  }

  /** The one-character logical operators. */
  lemma LogicalCharListed(c: char, k: TokenType)
    requires (c == '!' || c == '&' || c == '|') && OneCharKind(c) == Some(k)
    ensures [c] in Spellings(k)
  {
    if c == '!' {
      assert k == OpNot;
    } else if c == '&' {
      assert k == OpAnd;
    } else {
      assert k == OpOr;
    }
  }

  /** The one-character orderings. */
  lemma OrderingCharListed(c: char, k: TokenType)
    requires (c == '<' || c == '>') && OneCharKind(c) == Some(k)
    ensures [c] in Spellings(k)
  {
    if c == '<' {
      assert k == OpSmallerThan;
    } else {
      assert k == OpGreaterThan;
    }
  }

  /** The assignment sign and the underscore. */
  lemma AssignCharListed(c: char, k: TokenType)
    requires (c == '=' || c == '_') && OneCharKind(c) == Some(k)
    ensures [c] in Spellings(k)
  {
    if c == '=' {
      assert k == OpAssign;
    } else {
      assert k == SomehingElse;
    }
  }

  /** A single character that selects a type is listed under it; split by group. */
  lemma OneCharListed(c: char, k: TokenType)
    requires OneCharKind(c) == Some(k)
    ensures [c] in Spellings(k)
  {
    if c == '\n' || c == ' ' || c == '\t' || c == '\0' {
      WhitespaceCharListed(c, k);
    } else if c == '.' || c == ',' || c == ':' || c == ';' {
      StopCharListed(c, k);
    } else if c == '\'' || c == '"' || c == '(' || c == ')' {
      QuoteCharListed(c, k);
    } else if c == '[' || c == ']' || c == '{' || c == '}' {
      BracketCharListed(c, k);
    } else if c == '+' || c == '-' {
      AdditiveCharListed(c, k);
    } else if c == '*' || c == '/' || c == '%' {
      MultiplicativeCharListed(c, k);
    } else if c == '!' || c == '&' || c == '|' {
      LogicalCharListed(c, k);
    } else if c == '<' || c == '>' {
      OrderingCharListed(c, k);
    } else {
      AssignCharListed(c, k);
    }
  }

  /** The comment delimiters and the arrow. */
  lemma CommentPairListed(a: char, b: char, k: TokenType)
    requires ((a == '-' && b == '#') || (a == '#' && b == '-') || (a == '-' && b == '>')) && TwoCharKind(a, b) == Some(k)
    ensures [a, b] in Spellings(k)
  {
    if a == '-' && b == '#' {
      assert k == OpenComment;
    } else if a == '#' && b == '-' {
      assert k == CloseComment;
    } else {
      assert k == OpSetOrAcess;
    }
  }

  /** The path separator and the inferred-type assignment. */
  lemma AccessPairListed(a: char, b: char, k: TokenType)
    requires ((a == ':' && b == ':') || (a == ':' && b == '=')) && TwoCharKind(a, b) == Some(k)
    ensures [a, b] in Spellings(k)
  {
    if a == ':' && b == ':' {
      assert k == OpAcess;
    } else {
      assert k == OpInferredTypeAssing;
    }
  }

  /** Two-letter keywords ns, fn and if. */
  lemma KeywordPairListed(a: char, b: char, k: TokenType)
    requires ((a == 'n' && b == 's') || (a == 'f' && b == 'n') || (a == 'i' && b == 'f')) && TwoCharKind(a, b) == Some(k)
    ensures [a, b] in Spellings(k)
  {
    if a == 'n' && b == 's' {
      assert k == KwNs;
    } else if a == 'f' && b == 'n' {
      assert k == KwFn;
    } else {
      assert k == KwIf;
    }
  }

  /** Two-letter words is and or. */
  lemma ParticlePairListed(a: char, b: char, k: TokenType)
    requires ((a == 'i' && b == 's') || (a == 'o' && b == 'r')) && TwoCharKind(a, b) == Some(k)
    ensures [a, b] in Spellings(k)
  {
    if a == 'i' && b == 's' {
      assert k == KwIs;
    } else {
      assert k == OpOr;
    }
  }

  /** The two-character comparisons. */
  lemma RelationPairListed(a: char, b: char, k: TokenType)
    requires ((a == '>' && b == '=') || (a == '<' && b == '=') || (a == '=' && b == '=') || (a == '!' && b == '=')) && TwoCharKind(a, b) == Some(k)
    ensures [a, b] in Spellings(k)
  {
    if a == '>' && b == '=' {
      assert k == OpSmallerOrEqualsThan;
    } else if a == '<' && b == '=' {
      assert k == OpGreaterOrEqualsThan;
    } else if a == '=' && b == '=' {
      assert k == OpEquals;
    } else {
      assert k == OpNotEquals;
    }
  }

  /** The additive compound assignments. */
  lemma AdditiveAssignmentPairListed(a: char, b: char, k: TokenType)
    requires ((a == '+' && b == '=') || (a == '-' && b == '=')) && TwoCharKind(a, b) == Some(k)
    ensures [a, b] in Spellings(k)
  {
    if a == '+' && b == '=' {
      assert k == OpAssignPlus;
    } else {
      assert k == OpAssignMinus;
    }
  }

  /** The multiplicative compound assignments. */
  lemma ScalingAssignmentPairListed(a: char, b: char, k: TokenType)
    requires ((a == '*' && b == '=') || (a == '/' && b == '=') || (a == '%' && b == '=')) && TwoCharKind(a, b) == Some(k)
    ensures [a, b] in Spellings(k)
  {
    if a == '*' && b == '=' {
      assert k == OpAssignMultiply;
    } else if a == '/' && b == '=' {
      assert k == OpAssignDivision;
    } else {
      assert k == OpAssignRest;
    }
  }

  /** A two-character slice that selects a type is listed under it; split by group. */
  lemma TwoCharListed(a: char, b: char, k: TokenType)
    requires TwoCharKind(a, b) == Some(k)
    ensures [a, b] in Spellings(k)
  {
    if (a == '-' && b == '#') || (a == '#' && b == '-') || (a == '-' && b == '>') {
      CommentPairListed(a, b, k);
    } else if (a == ':' && b == ':') || (a == ':' && b == '=') {
      AccessPairListed(a, b, k);
    } else if (a == 'n' && b == 's') || (a == 'f' && b == 'n') || (a == 'i' && b == 'f') {
      KeywordPairListed(a, b, k);
    } else if (a == 'i' && b == 's') || (a == 'o' && b == 'r') {
      ParticlePairListed(a, b, k);
    } else if (a == '>' && b == '=') || (a == '<' && b == '=') || (a == '=' && b == '=') || (a == '!' && b == '=') {
      RelationPairListed(a, b, k);
    } else if (a == '+' && b == '=') || (a == '-' && b == '=') {
      AdditiveAssignmentPairListed(a, b, k);
    } else {
      ScalingAssignmentPairListed(a, b, k);
    }
  }

  predicate IsIdentStart(c: char) { 'a' <= c <= 'z' || 'A' <= c <= 'Z' || c == '_' }

  predicate IsDigit(c: char) { '0' <= c <= '9' }

  /** The Identifier class, [a-zA-Z_][a-zA-Z0-9_]*. */
  predicate IsIdentifier(s: string)
  {
    |s| > 0 && IsIdentStart(s[0]) && forall i :: 1 <= i < |s| ==> IsIdentStart(s[i]) || IsDigit(s[i])
  }

  /** The Number class, [0-9]+. */
  predicate IsNumber(s: string)
  {
    |s| > 0 && forall i :: 0 <= i < |s| ==> IsDigit(s[i])
  }

  /**
   * The type a whole slice receives when several patterns match it in full:
   * fixed spellings outrank the Identifier and Number patterns (so "let" is
   * KwLet and "_" is SomehingElse, by its priority override).
   */
  function Classify(s: string): Option<TokenType>
  {
    if LiteralKind(s).Some? then LiteralKind(s)
    else if IsIdentifier(s) then Some(Identifier)
    else if IsNumber(s) then Some(Number)
    else None
  }

  /** No fixed spelling is a run of digits. */
  lemma NoSpellingIsNumber(k: TokenType, i: nat)
    requires i < |Spellings(k)|
    ensures !IsNumber(Spellings(k)[i])
  {
    SpellingSelectsItsType(k, Spellings(k)[i]);
  }

  /** A whole slice is an Identifier exactly when it fits the class and is no fixed spelling. */
  lemma ClassifiedIdentifier(s: string)
    ensures Classify(s) == Some(Identifier) <==> IsIdentifier(s) && LiteralKind(s).None?
  {
    if LiteralKind(s).Some? {
      SelectedTypeListsSpelling(s, LiteralKind(s).value);
    }
  }

  /** A whole slice is a Number exactly when it is a non-empty run of digits. */
  lemma ClassifiedNumber(s: string)
    ensures Classify(s) == Some(Number) <==> IsNumber(s)
  {
    if LiteralKind(s).Some? {
      var k := LiteralKind(s).value;
      SelectedTypeListsSpelling(s, k);
      var i :| 0 <= i < |Spellings(k)| && Spellings(k)[i] == s;
      NoSpellingIsNumber(k, i);
    }
  }

  /**
   * "_" fits the Identifier class, yet its priority override makes it
   * SomehingElse; keywords likewise fit the class but keep their own type.
   */
  lemma UnderscoreAndKeywordsOutrankIdentifier()
    ensures IsIdentifier("_") && Classify("_") == Some(SomehingElse)
    ensures IsIdentifier("let") && Classify("let") == Some(KwLet)
  {
  }
}
