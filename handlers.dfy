/**
 * Diagnostics shared by the lexer and the parser
 * (utils/src/handlers/error_handler and message_handler). These are plain
 * records; only their shape matters to the rest of the model.
 */
module Handlers {
  import Tokens

  /** Which stage issued a message. */
  datatype Issuer = Lexer | Parser

  /**
   * What a message says, kept abstract: the lexer reports the slice it could
   * not match (its exact wording is not modelled).
   */
  datatype Content = NonExistentToken(slice: string)

  datatype Message = Message(content: Content, from: Issuer)

  /** E001: non-existent token. */
  datatype ErrorCode = E001

  datatype BaseError = BaseError(message: Message, code: ErrorCode)

  datatype ScriptError = ScriptError(base: BaseError, line: nat, column: nat)

  /**
   * Error::Error and Error::ScriptError of the source are Base and Script
   * here; Expected is what the parser's expected_error builds: the issuer,
   * a description of what was expected, and the text and position of the
   * token actually found.
   */
  datatype Error =
    | Base(base: BaseError)
    | Script(script: ScriptError)
    | Expected(from: Issuer, expected: string, found: string, at: Tokens.Position)
}
