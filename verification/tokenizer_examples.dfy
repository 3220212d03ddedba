/**
 * Worked examples of the top-level `Semantics` statement, lexed by both
 * tokenizers from the start of the input: the statement runs to its `;`
 * and then on to the end of that line.
 */
module TokenizerExamples {
  import opened Wrappers
  import opened Lexing
  import IsplKinds
  import IsplTokenizer
  import ParserTokenizer

  /** Both tokenizers read `Semantics` as the first word of `Semantics=...`. */
  lemma SemanticsWord(input: string)
    requires |input| > 9 && input[..10] == "Semantics="
    ensures VarAt(input, IsplTokenizer.IsValidVarChar) == Some("Semantics")
    ensures VarAt(input, ParserTokenizer.IsValidVarChar) == Some("Semantics")
  {
    assert input[..9] == "Semantics" && input[9] == '=';
    IsplTokenizer.VarCharsContinueStart();
    TakeWhileLenUnique(input, IsplTokenizer.IsValidVarChar, 9);
    TakeWhileLenUnique(input, ParserTokenizer.IsValidVarChar, 9);
  }

  /** `=SA;` at the end of the input: the statement is all of it. */
  lemma AssignmentLen(rest: string)
    requires rest == "=SA;"
    ensures StatementLen(rest) == |rest|
  {
  }

  /** Text after the `;` on the same line is part of the statement. */
  lemma TrailingWordLen(rest: string)
    requires rest == "=SA;X"
    ensures StatementLen(rest) == |rest|
  {
  }

  /** The single-assignment statement is recognised. */
  lemma AssignmentText(text: string)
    requires text == "Semantics=SA;"
    ensures IsplTokenizer.SemanticsKind(RemoveWhitespace(text)) == IsplKinds.TOKEN_SEMANTICS_SA
  {
    RemoveWhitespaceNone(text);
  }

  /** With a trailing word the statement text is no longer one of the four known ones. */
  lemma TrailingWordText(text: string)
    requires text == "Semantics=SA;X"
    ensures IsplTokenizer.SemanticsKind(RemoveWhitespace(text)) == IsplKinds.TOKEN_ERR_UNEXPECTED_TOPLEVEL
  {
    RemoveWhitespaceNone(text);
    assert |RemoveWhitespace(text)| == 14;
  }

  /** `Semantics=SA;` is one ISPL token, the single-assignment semantics, spanning the whole input. */
  method IsplSingleAssignment(input: string) returns (r: Option<IsplKinds.SyntaxKind>, len: nat)
    requires input == "Semantics=SA;"
    ensures r == Some(IsplKinds.TOKEN_SEMANTICS_SA) && len == |input|
  {
    var t := new IsplTokenizer.Tokenizer(input);
    SemanticsWord(input);
    AssignmentLen(input[9..]);
    r := t.TopLevel();
    len := t.state.offset;
    AssignmentText(t.state.input[0..len]);
  }

  /**
   * `Semantics=SA;X` is one ISPL token: the text after the `;` joins the
   * statement, which is then not a known one and so an error.
   */
  method IsplTrailingWord(input: string) returns (r: Option<IsplKinds.SyntaxKind>, len: nat)
    requires input == "Semantics=SA;X"
    ensures r == Some(IsplKinds.TOKEN_ERR_UNEXPECTED_TOPLEVEL) && len == |input|
  {
    var t := new IsplTokenizer.Tokenizer(input);
    SemanticsWord(input);
    TrailingWordLen(input[9..]);
    r := t.TopLevel();
    len := t.state.offset;
    TrailingWordText(t.state.input[0..len]);
  }

  /** The older tokenizer reads `Semantics=SA;` as one semantics token spanning the whole input. */
  method ParserSingleAssignment(input: string) returns (r: Option<ParserTokenizer.SyntaxKind>, len: nat)
    requires input == "Semantics=SA;"
    ensures r == Some(ParserTokenizer.TOKEN_SEMANTICS) && len == |input|
  {
    var t := new ParserTokenizer.Tokenizer(input);
    SemanticsWord(input);
    AssignmentLen(input[9..]);
    r := t.TopLevel();
    len := t.state.offset;
  }
}
