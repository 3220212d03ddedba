/**
 * The ISPL tokenizer: a hand-written lexer whose classification of a lexeme
 * depends on a stack of contexts (which block it is in, whether a brace or
 * a group expression is open) and on the names of enum literals, groups and
 * agents it has met so far.
 *
 * Some operators are lexed by lexing a whole further token and dropping it:
 * the calls of `Next` inside the character arms below are such calls, with
 * every effect that further token has on the context stack and name tables.
 */
module IsplTokenizer {

  import opened Wrappers
  import opened IsplKinds
  import opened Lexing

  /** The characters that may follow the first one of a variable name. */
  predicate IsValidVarChar(c: char)
  {
    IsAlphanumeric(c) || c == '_' || c == '$' || c == '@' || c == '#'
  }

  lemma VarCharsContinueStart()
    ensures ContinuesStart(IsValidVarChar)
  {
  }

  /** The words that may not be used as names. */
  const ReservedWords: set<string> := {
    "Semantics", "MultiAssignment", "SingleAssignment", "MA", "SA", "Agent",
    "Evaluation", "InitStates", "Groups", "Fairness", "Formulae", "RedStates",
    "GreenStates", "Actions", "Protocol", "Evolution", "Obsvars", "Lobsvars", "Vars"
  }

  /** The kind of a name: reserved words are errors, four words have their own kind. */
  function ParseVar(v: string, expected: SyntaxKind): SyntaxKind
  {
    if v in ReservedWords then TOKEN_ERR_UNEXPECTED_KEYWORD
    else if v == "Environment" then TOKEN_ENVIRONMENT
    else if v == "Action" then TOKEN_ACTION
    else if v == "Other" then TOKEN_OTHER
    else if v == "none" then TOKEN_NONE
    else expected
  }

  /**
   * A name keeps the kind its context expects unless it is reserved or one of
   * `Environment`, `Action`, `Other` and `none`; it is an error exactly when
   * it is reserved or an error was expected.
   */
  lemma ParseVarKind(v: string, expected: SyntaxKind)
    ensures v !in ReservedWords && v !in {"Environment", "Action", "Other", "none"}
            <==> ParseVar(v, expected) == expected
                 && (v !in ReservedWords || expected != TOKEN_ERR_UNEXPECTED_KEYWORD)
                 && (v != "Environment" || expected != TOKEN_ENVIRONMENT)
                 && (v != "Action" || expected != TOKEN_ACTION)
                 && (v != "Other" || expected != TOKEN_OTHER)
                 && (v != "none" || expected != TOKEN_NONE)
    ensures IsErr(ParseVar(v, expected))
            <==> v in ReservedWords
                 || (v !in {"Environment", "Action", "Other", "none"} && IsErr(expected))
  {
  }

  /** The names an inner block may have. */
  const InnerBlockNames: set<string> := {
    "RedStates", "GreenStates", "Actions", "Action", "Protocol", "Evolution",
    "Obsvars", "Lobsvars", "Vars"
  }

  /** The kind of the name that opens an inner block. */
  function ParseInnerBlockName(v: string): SyntaxKind
  {
    if v == "RedStates" then TOKEN_REDSTATES
    else if v == "GreenStates" then TOKEN_GREENSTATES
    else if v == "Actions" then TOKEN_ACTIONS
    else if v == "Action" then TOKEN_ACTION
    else if v == "Protocol" then TOKEN_PROTOCOL
    else if v == "Evolution" then TOKEN_EVOLUTION
    else if v == "Obsvars" then TOKEN_OBSVARS
    else if v == "Lobsvars" then TOKEN_LOBSVARS
    else if v == "Vars" then TOKEN_VARS
    else TOKEN_ERR_UNEXPECTED_BLOCK
  }

  /**
   * Only the nine block names are accepted, and no two of them share a
   * kind.
   */
  lemma ParseInnerBlockNameKind(v: string, w: string)
    ensures ParseInnerBlockName(v) == TOKEN_ERR_UNEXPECTED_BLOCK <==> v !in InnerBlockNames
    ensures IsErr(ParseInnerBlockName(v)) <==> v !in InnerBlockNames
    ensures v in InnerBlockNames && ParseInnerBlockName(v) == ParseInnerBlockName(w) ==> v == w
  {
  }

  /** The words lexed as operators or keywords wherever they occur. */
  function KeywordKind(w: string): Option<SyntaxKind>
  {
    if w == "AG" then Some(TOKEN_AG)
    else if w == "EG" then Some(TOKEN_EG)
    else if w == "AX" then Some(TOKEN_AX)
    else if w == "EX" then Some(TOKEN_EX)
    else if w == "X" then Some(TOKEN_X)
    else if w == "F" then Some(TOKEN_F)
    else if w == "G" then Some(TOKEN_G)
    else if w == "AF" then Some(TOKEN_AF)
    else if w == "EF" then Some(TOKEN_EF)
    else if w == "A" then Some(TOKEN_A)
    else if w == "E" then Some(TOKEN_E)
    else if w == "U" then Some(TOKEN_U)
    else if w == "K" then Some(TOKEN_K)
    else if w == "GK" then Some(TOKEN_GK)
    else if w == "GCK" then Some(TOKEN_GCK)
    else if w == "O" then Some(TOKEN_O)
    else if w == "DK" then Some(TOKEN_DK)
    else if w == "and" then Some(TOKEN_AND)
    else if w == "or" then Some(TOKEN_OR)
    else if w == "if" then Some(TOKEN_IF)
    else if w == "true" then Some(TOKEN_TRUE)
    else if w == "false" then Some(TOKEN_FALSE)
    else if w == "boolean" then Some(TOKEN_BOOLEAN_LITERAL)
    else None
  }

  /** The outer blocks other than agents, each with the kind of its opening word. */
  function OuterBlockKind(w: string): Option<SyntaxKind>
  {
    if w == "Evaluation" then Some(TOKEN_BEGIN_EVALUATION)
    else if w == "InitStates" then Some(TOKEN_BEGIN_INIT_STATES)
    else if w == "Groups" then Some(TOKEN_BEGIN_GROUPS)
    else if w == "Fairness" then Some(TOKEN_BEGIN_FAIRNESS)
    else if w == "Formulae" then Some(TOKEN_BEGIN_FORMULAE)
    else None
  }

  /**
   * The kind of a `Semantics` statement once its whitespace is removed: only
   * the single and multiple assignment forms are recognised.
   */
  function SemanticsKind(statement: string): SyntaxKind
  {
    if statement == "Semantics=SA;" || statement == "Semantics=SingleAssignment;" then
      TOKEN_SEMANTICS_SA
    else if statement == "Semantics=MA;" || statement == "Semantics=MultiAssignment;" then
      TOKEN_SEMANTICS_MA
    else
      TOKEN_ERR_UNEXPECTED_TOPLEVEL
  }

  /** A token: its kind and its text. */
  type Token = (SyntaxKind, string)

  function Texts(tokens: seq<Token>): string
  {
    if tokens == [] then [] else Texts(tokens[..|tokens| - 1]) + tokens[|tokens| - 1].1
  }

  function Last<T>(s: seq<T>): T
    requires s != []
  {
    s[|s| - 1]
  }

  class Tokenizer {
    const state: State
    var ctx: seq<Context>
    var enumLiterals: seq<string>
    var groupNames: seq<string>
    var agentNames: seq<string>

    ghost predicate Valid()
      reads this, state
    {
      state.Valid() && WellNested(ctx)
    }

    /** The name tables only ever grow. */
    twostate predicate NamesGrow()
      reads this
    {
      old(enumLiterals) <= enumLiterals && old(groupNames) <= groupNames
      && old(agentNames) <= agentNames
    }

    twostate predicate NamesKept()
      reads this
    {
      old(enumLiterals) == enumLiterals && old(groupNames) == groupNames
      && old(agentNames) == agentNames
    }

    constructor (input: string)
      ensures fresh(state) && state.input == input && state.offset == 0
      ensures ctx == [] && enumLiterals == [] && groupNames == [] && agentNames == []
      ensures Valid()
    {
      state := new State(input);
      ctx := [];
      enumLiterals := [];
      groupNames := [];
      agentNames := [];
    }

    /** Pops `c`, which is on top of the stack. */
    method PopCtx(c: Context)
      requires Valid() && ctx != [] && Last(ctx) == c
      modifies this
      ensures Valid()
      ensures ctx == old(ctx)[..|old(ctx)| - 1]
      ensures NamesKept()
    {
      PopNested(ctx);
      ctx := ctx[..|ctx| - 1];
    }

    /** Pushes `c`, which the stack's shape admits. */
    method PushCtx(c: Context)
      requires Valid() && CanPush(ctx, c)
      modifies this
      ensures Valid()
      ensures ctx == old(ctx) + [c]
      ensures NamesKept()
    {
      PushNested(ctx, c);
      ctx := ctx + [c];
    }

    /**
     * The next token and its text, which is the input from where the cursor
     * was to where it is now.
     */
    method Next() returns (r: Option<Token>)
      requires Valid()
      modifies this, state
      ensures Valid() && NamesGrow()
      ensures old(state.offset) <= state.offset
      ensures r.Some? ==> r.value.1 == state.input[old(state.offset)..state.offset]
      ensures r.Some? ==> old(state.offset) < state.offset
      ensures r.None? ==> state.offset == |state.input|
      ensures old(state.offset) == |state.input| ==> r.None? && ctx == old(ctx)
      ensures old(ctx) != [] && old(state.offset) < |state.input| ==> r.Some?
      ensures (old(ctx) == [] && old(state.offset) < |state.input|
               && !IsValidStartVarChar(state.input[old(state.offset)])) ==> ctx == []
      ensures r.None? && old(state.offset) < |state.input| ==>
                "Semantics" <= state.input[old(state.offset)..]
                && ';' !in state.input[old(state.offset)..]
      ensures old(ctx) == [] && StrayAtTop(old(state.Remaining())) ==>
                && r.Some? && r.value.0 == TOKEN_ERR_UNEXPECTED_TOPLEVEL && ctx == []
                && state.offset == old(state.offset) + ErrLen(old(state.Remaining()))
      decreases |state.input| - state.offset, 4
    {
      var start := state.offset;
      var kind := NextInner();
      if kind.Some? {
        r := Some((kind.value, state.StrSince(start)));
      } else {
        r := None;
      }
    }

    /**
     * The kind of the next token. There is none when the input is used up,
     * and whitespace and comments are tokens of their own in every context.
     */
    method NextInner() returns (r: Option<SyntaxKind>)
      requires Valid()
      modifies this, state
      ensures Valid() && NamesGrow()
      ensures old(state.offset) <= state.offset
      ensures r.Some? ==> old(state.offset) < state.offset
      ensures r.None? ==> state.offset == |state.input|
      ensures old(state.offset) == |state.input| ==> r.None? && ctx == old(ctx)
      ensures old(ctx) != [] && old(state.offset) < |state.input| ==> r.Some?
      ensures (old(ctx) == [] && old(state.offset) < |state.input|
               && !IsValidStartVarChar(state.input[old(state.offset)])) ==> ctx == []
      ensures r.None? && old(state.offset) < |state.input| ==>
                "Semantics" <= state.input[old(state.offset)..]
                && ';' !in state.input[old(state.offset)..]
      ensures old(state.offset) < |state.input| && IsWhitespace(state.input[old(state.offset)]) ==>
                && r == Some(TOKEN_WHITESPACE) && ctx == old(ctx)
                && state.offset == old(state.offset) + TakeWhileLen(old(state.Remaining()), IsWhitespace)
      ensures old(state.offset) < |state.input| && !IsWhitespace(state.input[old(state.offset)])
              && "--" <= old(state.Remaining()) ==>
                && r == Some(TOKEN_COMMENT) && ctx == old(ctx)
                && state.offset == old(state.offset) + 2
                                   + TakeWhileLen(state.input[old(state.offset) + 2..], NotNewline)
      ensures old(ctx) == [] && StrayAtTop(old(state.Remaining())) ==>
                && r == Some(TOKEN_ERR_UNEXPECTED_TOPLEVEL) && ctx == []
                && state.offset == old(state.offset) + ErrLen(old(state.Remaining()))
      decreases |state.input| - state.offset, 3
    {
      var start := state.offset;
      if state.offset == |state.input| {
        return None;
      }
      var whitespace := state.ConsumeWhile(IsWhitespace);
      if whitespace > 0 {
        return Some(TOKEN_WHITESPACE);
      }
      var comment := state.StartsWithBump("--");
      if comment {
        var text := state.ConsumeWhile(NotNewline);
        return Some(TOKEN_COMMENT);
      }
      r := Lexeme(start);
    }

    /** A token that is neither whitespace nor a comment, lexed by context. */
    method Lexeme(start: nat) returns (r: Option<SyntaxKind>)
      requires Valid() && start == state.offset < |state.input|
      modifies this, state
      ensures Valid() && NamesGrow()
      ensures old(state.offset) <= state.offset
      ensures r.Some? ==> old(state.offset) < state.offset
      ensures r.None? ==> state.offset == |state.input|
                          && "Semantics" <= old(state.Remaining()) && ';' !in old(state.Remaining())
      ensures old(ctx) != [] ==> r.Some?
      ensures old(ctx) == [] && !IsValidStartVarChar(state.input[old(state.offset)]) ==> ctx == []
      ensures old(ctx) == [] && !IsValidStartVarChar(state.input[old(state.offset)]) ==>
                && r == Some(TOKEN_ERR_UNEXPECTED_TOPLEVEL)
                && state.offset == old(state.offset) + ErrLen(old(state.Remaining()))
      decreases |state.input| - state.offset, 2
    {
      if ctx != [] && Last(ctx) == AgentDef {
        NestedTop(ctx);
        r := AgentName();
      } else if ctx != [] && Last(ctx) == BlockEnded {
        NestedTop(ctx);
        r := BlockName();
      } else if ctx == [] {
        r := TopLevel();
      } else {
        var c := state.Next();
        r := Symbol(c.value, start);
      }
    }

    /** The name after `Agent`, which opens the agent's block and is recorded. */
    method AgentName() returns (r: Option<SyntaxKind>)
      requires Valid() && ctx == [AgentDef] && state.offset < |state.input|
      modifies this, state
      ensures Valid()
      ensures ctx == [AgentBlock]
      ensures enumLiterals == old(enumLiterals) && groupNames == old(groupNames)
      ensures var v := VarAt(old(state.Remaining()), IsValidVarChar);
              && (v.Some? ==> && agentNames == old(agentNames) + [v.value]
                              && r == Some(if v.value == "Environment" then TOKEN_ENVIRONMENT else TOKEN_AGENT_NAME)
                              && state.offset == old(state.offset) + |v.value|)
              && (v.None? ==> && agentNames == old(agentNames)
                              && r == Some(TOKEN_ERR_EXPECTED_NAME)
                              && state.offset == old(state.offset) + ErrLen(old(state.Remaining())))
    {
      PopCtx(AgentDef);
      PushCtx(AgentBlock);
      var name := state.ConsumeVar(IsValidVarChar);
      if name == Some("Environment") {
        agentNames := agentNames + ["Environment"];
        return Some(TOKEN_ENVIRONMENT);
      } else if name.Some? {
        agentNames := agentNames + [name.value];
        return Some(TOKEN_AGENT_NAME);
      } else {
        state.ConsumeErr();
        return Some(TOKEN_ERR_EXPECTED_NAME);
      }
    }

    /**
     * The name after `end`: it closes the block below the ended marker when it
     * is that block's name (`Agent` for an agent), and is an error otherwise.
     */
    method BlockName() returns (r: Option<SyntaxKind>)
      requires Valid() && |ctx| >= 2 && Last(ctx) == BlockEnded && ctx[|ctx| - 2].IsBlock()
      requires state.offset < |state.input|
      modifies this, state
      ensures Valid() && NamesKept()
      ensures var below := old(ctx)[..|old(ctx)| - 1];
              var block := old(ctx)[|old(ctx)| - 2];
              var v := VarAt(old(state.Remaining()), IsValidVarChar);
              && (v == Some(ClosingName(block)) ==>
                    && ctx == below[..|below| - 1]
                    && r == Some(if block.InnerBlock? then TOKEN_END_INNER_BLOCK_NAME else TOKEN_END_OUTER_BLOCK_NAME))
              && (v.Some? && v.value != ClosingName(block) ==>
                    ctx == below && r == Some(TOKEN_ERR_INVALID_CLOSE_BLOCK))
              && (v.None? ==>
                    && ctx == below && r == Some(TOKEN_ERR_EXPECTED_NAME)
                    && state.offset == old(state.offset) + ErrLen(old(state.Remaining())))
              && (v.Some? ==> state.offset == old(state.offset) + |v.value|)
    {
      PopCtx(BlockEnded);
      var block := Last(ctx);
      var name := state.ConsumeVar(IsValidVarChar);
      if name == Some(ClosingName(block)) {
        PopCtx(block);
        r := Some(if block.InnerBlock? then TOKEN_END_INNER_BLOCK_NAME else TOKEN_END_OUTER_BLOCK_NAME);
      } else if name.Some? {
        r := Some(TOKEN_ERR_INVALID_CLOSE_BLOCK);
      } else {
        state.ConsumeErr();
        r := Some(TOKEN_ERR_EXPECTED_NAME);
      }
    }

    /**
     * A lexeme outside every block: `Agent` and the five outer block names
     * open their block, a `Semantics` statement is classified once its
     * whitespace is removed, and anything else is an error to the end of the
     * line.
     */
    method TopLevel() returns (r: Option<SyntaxKind>)
      requires Valid() && ctx == [] && state.offset < |state.input|
      modifies this, state
      ensures Valid() && NamesGrow()
      ensures old(state.offset) <= state.offset
      ensures r.Some? ==> old(state.offset) < state.offset
      ensures r.None? ==> state.offset == |state.input|
                          && "Semantics" <= old(state.Remaining()) && ';' !in old(state.Remaining())
      ensures VarAt(old(state.Remaining()), IsValidVarChar) == Some("Semantics") ==>
                (r.Some? <==> ';' in state.input[old(state.offset) + 9..])
      ensures var v := VarAt(old(state.Remaining()), IsValidVarChar);
              && (v == Some("Agent") ==> r == Some(TOKEN_BEGIN_AGENT) && ctx == [AgentDef])
              && (v.Some? && OuterBlockKind(v.value).Some? ==>
                    r == OuterBlockKind(v.value) && ctx == [OuterBlock(v.value)])
              && (v != Some("Agent") && (v.None? || OuterBlockKind(v.value).None?) ==> ctx == [])
              && (v == Some("Semantics") && r.Some? ==>
                    && r.value == SemanticsKind(RemoveWhitespace(state.input[old(state.offset)..state.offset]))
                    && state.offset == old(state.offset) + 9 + StatementLen(state.input[old(state.offset) + 9..]))
              && (v.None? || (v.value != "Semantics" && v.value != "Agent" && OuterBlockKind(v.value).None?) ==>
                    && r == Some(TOKEN_ERR_UNEXPECTED_TOPLEVEL)
                    && state.offset == old(state.offset) + (if v.Some? then |v.value| else 0)
                                       + ErrLen(state.input[old(state.offset) + (if v.Some? then |v.value| else 0)..]))
      decreases |state.input| - state.offset, 1
    {
      var start := state.offset;
      var name := state.ConsumeVar(IsValidVarChar);
      if name == Some("Semantics") {
        assert state.Remaining() == state.input[old(state.offset) + 9..];
        r := Semantics(start);
      } else {
        r := OpenBlock(name);
      }
    }

    /**
     * The top-level words other than `Semantics`, once the word `name` has
     * been read: `Agent` and the other outer blocks open their block, and
     * anything else is a stray word, reported as an error up to the end of
     * the line.
     */
    method OpenBlock(name: Option<string>) returns (r: Option<SyntaxKind>)
      requires Valid() && ctx == [] && name != Some("Semantics")
      modifies this, state
      ensures Valid() && NamesGrow()
      ensures name == Some("Agent") ==>
                r == Some(TOKEN_BEGIN_AGENT) && ctx == [AgentDef] && state.offset == old(state.offset)
      ensures name.Some? && OuterBlockKind(name.value).Some? ==>
                r == OuterBlockKind(name.value) && ctx == [OuterBlock(name.value)]
                && state.offset == old(state.offset)
      ensures name != Some("Agent") && (name.None? || OuterBlockKind(name.value).None?) ==>
                && r == Some(TOKEN_ERR_UNEXPECTED_TOPLEVEL) && ctx == []
                && state.offset == old(state.offset) + ErrLen(old(state.Remaining()))
    {
      if name == Some("Agent") {
        PushCtx(AgentDef);
        r := Some(TOKEN_BEGIN_AGENT);
      } else if name.Some? && OuterBlockKind(name.value).Some? {
        PushCtx(OuterBlock(name.value));
        r := OuterBlockKind(name.value);
      } else {
        state.ConsumeErr();
        r := Some(TOKEN_ERR_UNEXPECTED_TOPLEVEL);
      }
    }

    /**
     * The rest of a `Semantics` statement: everything up to the next `;` and
     * then a whole further token, which is dropped. The kind depends on the
     * text of both, whitespace removed; when the input ends before a `;` there
     * is no token at all.
     */
    method Semantics(start: nat) returns (r: Option<SyntaxKind>)
      requires Valid() && ctx == [] && start < state.offset
      requires state.input[start..state.offset] == "Semantics"
      modifies this, state
      ensures Valid() && NamesGrow() && ctx == []
      ensures old(state.offset) <= state.offset
      ensures r.None? <==> ';' !in old(state.Remaining())
      ensures r.None? ==> state.offset == |state.input|
      ensures r.Some? ==> r.value == SemanticsKind(RemoveWhitespace(state.input[start..state.offset]))
      ensures r.Some? ==> state.offset == old(state.offset) + StatementLen(old(state.Remaining()))
      decreases |state.input| - state.offset, 5
    {
      ghost var rest := state.Remaining();
      SemicolonRun(rest);
      var statement := state.ConsumeWhile(NotSemicolon);
      assert state.Remaining() == rest[statement..];
      var terminator := Next();
      if terminator.None? {
        return None;
      }
      r := Some(SemanticsKind(RemoveWhitespace(state.StrSince(start))));
    }

    /** A lexeme inside a block, after its first character `ch`. */
    method Symbol(ch: char, start: nat) returns (r: Option<SyntaxKind>)
      requires Valid() && ctx != [] && !Last(ctx).AgentDef? && !Last(ctx).BlockEnded?
      requires start + 1 == state.offset && state.input[start] == ch
      modifies this, state
      ensures Valid() && NamesGrow()
      ensures old(state.offset) <= state.offset && r.Some?
      ensures ch == '<' && "->" <= old(state.Remaining()) ==>
                r == Some(TOKEN_IMPLIES_L) && old(state.offset) < state.offset
      decreases |state.input| - state.offset, 6
    {
      if ch == '.' && state.Peek() == Some('.') {
        var dot := Next();
        assert dot.Some?;
        r := Some(TOKEN_DOUBLEDOT);
      } else if ch == '&' {
        r := Some(TOKEN_BITAND);
      } else if ch == '|' {
        r := Some(TOKEN_BITOR);
      } else if ch == '~' {
        r := Some(TOKEN_BITNOT);
      } else if ch == '^' {
        r := Some(TOKEN_BITXOR);
      } else if ch == '.' {
        r := Some(TOKEN_DOT);
      } else if ch == '(' {
        r := Some(TOKEN_L_PAREN);
      } else if ch == ')' {
        r := Some(TOKEN_R_PAREN);
      } else if ch == '{' {
        r := OpenBrace();
      } else if ch == '}' {
        r := CloseBrace();
      } else if ch == ':' && Last(ctx) == InnerBlockBegin {
        PopCtx(InnerBlockBegin);
        r := Some(TOKEN_BEGIN_INNER_BLOCK);
      } else if ch == ':' {
        r := Some(TOKEN_COLON);
      } else if ch == ';' {
        r := Some(TOKEN_SEMICOLON);
      } else if ch == ',' {
        r := Some(TOKEN_COMMA);
      } else if ch == '!' {
        r := Some(TOKEN_NEG);
      } else if ch == '<' || ch == '>' || ch == '-' || ch == '=' {
        r := Operator(ch);
      } else if ch == '+' {
        r := Some(TOKEN_PLUS);
      } else if ch == '*' {
        r := Some(TOKEN_TIMES);
      } else if ch == '/' {
        r := Some(TOKEN_DEVIDE);
      } else if IsAsciiDigit(ch) {
        var digits := state.ConsumeWhile(IsAsciiDigit);
        r := Some(TOKEN_INT_LITERAL);
      } else if IsValidStartVarChar(ch) {
        r := Word(start);
      } else {
        r := Some(TOKEN_ERROR);
      }
    }

    /**
     * A brace opens a group definition in the `Groups` block, an enum
     * definition in an inner block and a set anywhere else.
     */
    method OpenBrace() returns (r: Option<SyntaxKind>)
      requires Valid() && ctx != [] && !Last(ctx).AgentDef? && !Last(ctx).BlockEnded?
      modifies this
      ensures Valid() && NamesKept()
      ensures old(Last(ctx)) == OuterBlock("Groups") ==>
                r == Some(TOKEN_GROUP_OPENCURLY) && ctx == old(ctx) + [GroupDef]
      ensures old(Last(ctx)).InnerBlock? ==>
                r == Some(TOKEN_ENUM_OPENCURLY) && ctx == old(ctx) + [EnumDef]
      ensures old(Last(ctx)) != OuterBlock("Groups") && !old(Last(ctx)).InnerBlock? ==>
                r == Some(TOKEN_SET_OPENCURLY) && ctx == old(ctx) + [SetDef]
    {
      if Last(ctx) == OuterBlock("Groups") {
        PushCtx(GroupDef);
        r := Some(TOKEN_GROUP_OPENCURLY);
      } else if Last(ctx).InnerBlock? {
        PushCtx(EnumDef);
        r := Some(TOKEN_ENUM_OPENCURLY);
      } else {
        PushCtx(SetDef);
        r := Some(TOKEN_SET_OPENCURLY);
      }
    }

    /**
     * A closing brace closes the group, enum or set definition on top of the
     * stack; with none there it is an error and the stack is left alone.
     */
    method CloseBrace() returns (r: Option<SyntaxKind>)
      requires Valid() && ctx != []
      modifies this
      ensures Valid() && NamesKept()
      ensures old(Last(ctx)) == GroupDef ==>
                r == Some(TOKEN_GROUP_CLOSECURLY) && ctx == old(ctx)[..|old(ctx)| - 1]
      ensures old(Last(ctx)) == EnumDef ==>
                r == Some(TOKEN_ENUM_CLOSECURLY) && ctx == old(ctx)[..|old(ctx)| - 1]
      ensures old(Last(ctx)) == SetDef ==>
                r == Some(TOKEN_SET_CLOSECURLY) && ctx == old(ctx)[..|old(ctx)| - 1]
      ensures old(Last(ctx)) !in {GroupDef, EnumDef, SetDef} ==>
                r == Some(TOKEN_ERROR) && ctx == old(ctx)
    {
      if Last(ctx) == GroupDef {
        PopCtx(GroupDef);
        r := Some(TOKEN_GROUP_CLOSECURLY);
      } else if Last(ctx) == EnumDef {
        PopCtx(EnumDef);
        r := Some(TOKEN_ENUM_CLOSECURLY);
      } else if Last(ctx) == SetDef {
        PopCtx(SetDef);
        r := Some(TOKEN_SET_CLOSECURLY);
      } else {
        r := Some(TOKEN_ERROR);
      }
    }

    /** The operators that begin with `<`, `>`, `-` or `=`. */
    method Operator(ch: char) returns (r: Option<SyntaxKind>)
      requires Valid() && ctx != [] && !Last(ctx).AgentDef? && !Last(ctx).BlockEnded?
      requires ch == '<' || ch == '>' || ch == '-' || ch == '='
      modifies this, state
      ensures Valid() && NamesGrow()
      ensures old(state.offset) <= state.offset && r.Some?
      ensures ch == '<' && "->" <= old(state.Remaining()) ==>
                r == Some(TOKEN_IMPLIES_L) && old(state.offset) < state.offset
      decreases |state.input| - state.offset, 5
    {
      if ch == '<' {
        if state.Peek2() == (Some('-'), Some('>')) {
          // `Peek2` sees the same character twice: this arm never fires.
          assert false;
        } else if state.Peek() == Some('-') {
          var arrow := Next();
          assert arrow.Some?;
          r := Some(TOKEN_IMPLIES_L);
        } else if state.Peek() == Some('=') {
          var equals := Next();
          assert equals.Some?;
          r := Some(TOKEN_LE);
        } else if state.Peek() == Some('>') {
          var greater := Next();
          assert greater.Some?;
          r := Some(TOKEN_NEQ);
        } else {
          r := LessThan();
        }
      } else if ch == '>' {
        if state.Peek() == Some('=') {
          var equals := Next();
          assert equals.Some?;
          r := Some(TOKEN_GE);
        } else if Last(ctx) == GroupExpr {
          PopCtx(GroupExpr);
          r := Some(TOKEN_END_GROUPEXPR);
        } else {
          r := Some(TOKEN_GT);
        }
      } else if ch == '-' {
        if state.Peek() == Some('>') {
          var greater := Next();
          assert greater.Some?;
          r := Some(TOKEN_IMPLIES_R);
        } else {
          r := Some(TOKEN_MINUS);
        }
      } else {
        if Last(ctx) == OuterBlock("Groups") {
          r := Some(TOKEN_GROUPS_ASSIGN);
        } else if Last(ctx) == InnerBlockAssign {
          PopCtx(InnerBlockAssign);
          r := Some(TOKEN_INNER_BLOCK_ASSIGN);
        } else {
          r := Some(TOKEN_EQ);
        }
      }
    }

    /**
     * `Operator` with its `<->` arm as evidently intended: it looks at the
     * next two characters and steps over `->` itself; every other input goes
     * to the arms `Operator` has.
     */
    method OperatorFixed(ch: char) returns (r: Option<SyntaxKind>)
      requires Valid() && ctx != [] && !Last(ctx).AgentDef? && !Last(ctx).BlockEnded?
      requires ch == '<' || ch == '>' || ch == '-' || ch == '='
      modifies this, state
      ensures Valid() && NamesGrow()
      ensures old(state.offset) <= state.offset && r.Some?
      ensures ch == '<' && "->" <= old(state.Remaining()) ==>
                r == Some(TOKEN_IMPLIES_BI) && state.offset == old(state.offset) + 2
                && ctx == old(ctx) && NamesKept()
    {
      if ch == '<' && state.PeekTwo() == (Some('-'), Some('>')) {
        var minus := state.Next();
        var greater := state.Next();
        r := Some(TOKEN_IMPLIES_BI);
      } else {
        r := Operator(ch);
      }
    }

    /**
     * A `<` opens a group expression exactly when the next name after any
     * whitespace is a group already declared; otherwise it is less-than.
     */
    method LessThan() returns (r: Option<SyntaxKind>)
      requires Valid() && ctx != [] && !Last(ctx).AgentDef? && !Last(ctx).BlockEnded?
      modifies this
      ensures Valid() && NamesKept()
      ensures var rest := state.Remaining();
              var next := VarAt(rest[TakeWhileLen(rest, IsWhitespace)..], IsValidVarChar);
              && (next.Some? && next.value in groupNames ==>
                    r == Some(TOKEN_START_GROUPEXPR) && ctx == old(ctx) + [GroupExpr])
              && (!(next.Some? && next.value in groupNames) ==>
                    r == Some(TOKEN_LT) && ctx == old(ctx))
    {
      var rest := state.Remaining();
      var nextItemStart := TakeWhileLen(rest, IsWhitespace);
      var nextItemValidChar := nextItemStart < |rest| && IsValidStartVarChar(rest[nextItemStart]);
      var nextItemLen := TakeWhileLen(rest[nextItemStart..], IsValidVarChar);
      var nextItem := rest[nextItemStart..nextItemStart + nextItemLen];
      assert nextItemValidChar ==> nextItem == rest[nextItemStart..][..nextItemLen];
      if !nextItemValidChar || nextItem !in groupNames {
        r := Some(TOKEN_LT);
      } else {
        PushCtx(GroupExpr);
        r := Some(TOKEN_START_GROUPEXPR);
      }
    }

    /**
     * A word: an operator or keyword, an `end`, or a name. The word is the
     * longest run of variable characters from `start`.
     */
    method Word(start: nat) returns (r: Option<SyntaxKind>)
      requires Valid() && ctx != [] && !Last(ctx).AgentDef? && !Last(ctx).BlockEnded?
      requires start + 1 == state.offset && IsValidStartVarChar(state.input[start])
      modifies this, state
      ensures Valid() && NamesGrow() && r.Some?
      ensures var w := VarAt(state.input[start..], IsValidVarChar).value;
              && state.offset == start + |w|
              && (KeywordKind(w).Some? ==> r == KeywordKind(w) && ctx == old(ctx) && NamesKept())
    {
      var rest := state.ConsumeWhile(IsValidVarChar);
      var text := state.StrSince(start);
      assert text == state.input[start..][..|text|];
      TakeWhileLenUnique(state.input[start..], IsValidVarChar, |text|);
      var keyword := KeywordKind(text);
      if keyword.Some? {
        r := keyword;
      } else if text == "end" {
        r := End();
      } else {
        r := Name(text);
      }
    }

    /**
     * An `end` inside an agent, outer or inner block marks that block as
     * ended; anywhere else it is an error.
     */
    method End() returns (r: Option<SyntaxKind>)
      requires Valid() && ctx != [] && !Last(ctx).AgentDef? && !Last(ctx).BlockEnded?
      modifies this
      ensures Valid() && NamesKept()
      ensures old(Last(ctx)).IsBlock() ==> ctx == old(ctx) + [BlockEnded]
      ensures old(Last(ctx)).InnerBlock? ==> r == Some(TOKEN_END_INNER_BLOCK)
      ensures old(Last(ctx)).AgentBlock? || old(Last(ctx)).OuterBlock? ==> r == Some(TOKEN_END_OUTER_BLOCK)
      ensures !old(Last(ctx)).IsBlock() ==> r == Some(TOKEN_ERR_INVALID_CLOSE_BLOCK) && ctx == old(ctx)
    {
      var top := Last(ctx);
      if top.AgentBlock? || top.OuterBlock? {
        PushCtx(BlockEnded);
        r := Some(TOKEN_END_OUTER_BLOCK);
      } else if top.InnerBlock? {
        PushCtx(BlockEnded);
        r := Some(TOKEN_END_INNER_BLOCK);
      } else {
        r := Some(TOKEN_ERR_INVALID_CLOSE_BLOCK);
      }
    }

    /**
     * A name, classified by the context it is in: an enum definition records
     * it as an enum literal and the `Groups` block as a group; a group
     * definition and a group expression check it against the agents and the
     * groups; in a block a name followed by `=` or `:` opens an inner block;
     * anywhere else it is an enum literal, an agent or a plain variable, in
     * that order of preference.
     */
    method Name(v: string) returns (r: Option<SyntaxKind>)
      requires Valid() && ctx != [] && !Last(ctx).AgentDef? && !Last(ctx).BlockEnded?
      modifies this
      ensures Valid() && NamesGrow()
      ensures var top := old(Last(ctx));
              && (top == EnumDef ==>
                    && enumLiterals == old(enumLiterals) + [v] && groupNames == old(groupNames)
                    && ctx == old(ctx) && r == Some(ParseVar(v, TOKEN_ENUM_LITERAL)))
              && (top == OuterBlock("Groups") ==>
                    && groupNames == old(groupNames) + [v] && enumLiterals == old(enumLiterals)
                    && ctx == old(ctx) && r == Some(ParseVar(v, TOKEN_GROUPNAME)))
              && (top != EnumDef && top != OuterBlock("Groups") ==> NamesKept())
              && (top == GroupDef ==>
                    && ctx == old(ctx)
                    && r == Some(ParseVar(v, if v in agentNames then TOKEN_AGENT_NAME else TOKEN_ERR_UNDEFINED_NAME)))
              && (top == GroupExpr ==>
                    && ctx == old(ctx)
                    && r == Some(ParseVar(v, if v in groupNames then TOKEN_GROUPNAME else TOKEN_ERR_UNDEFINED_NAME)))
              && (top == AgentBlock && state.PeekChar() == Some('=') ==>
                    ctx == old(ctx) + [InnerBlockAssign] && r == Some(ParseInnerBlockName(v)))
              && ((top == AgentBlock && state.PeekChar() == Some(':'))
                  || (top.OuterBlock? && top != OuterBlock("Groups") && state.PeekChar() == Some(':')) ==>
                    ctx == old(ctx) + [InnerBlock(v), InnerBlockBegin] && r == Some(ParseInnerBlockName(v)))
              && (top !in {EnumDef, OuterBlock("Groups"), GroupDef, GroupExpr}
                  && !(top == AgentBlock && state.PeekChar() in {Some('='), Some(':')})
                  && !(top.OuterBlock? && state.PeekChar() == Some(':')) ==>
                    && ctx == old(ctx)
                    && r == Some(ParseVar(v, if v in enumLiterals then TOKEN_ENUM_LITERAL
                                             else if v in agentNames then TOKEN_AGENT_NAME
                                             else TOKEN_VARNAME)))
    {
      var top := Last(ctx);
      if top == EnumDef {
        enumLiterals := enumLiterals + [v];
        r := Some(ParseVar(v, TOKEN_ENUM_LITERAL));
      } else if top == OuterBlock("Groups") {
        groupNames := groupNames + [v];
        r := Some(ParseVar(v, TOKEN_GROUPNAME));
      } else if top == GroupDef {
        if v in agentNames {
          r := Some(ParseVar(v, TOKEN_AGENT_NAME));
        } else {
          r := Some(ParseVar(v, TOKEN_ERR_UNDEFINED_NAME));
        }
      } else if top == GroupExpr {
        if v in groupNames {
          r := Some(ParseVar(v, TOKEN_GROUPNAME));
        } else {
          r := Some(ParseVar(v, TOKEN_ERR_UNDEFINED_NAME));
        }
      } else if top == AgentBlock && state.PeekChar() == Some('=') {
        PushCtx(InnerBlockAssign);
        r := Some(ParseInnerBlockName(v));
      } else if (top == AgentBlock || top.OuterBlock?) && state.PeekChar() == Some(':') {
        PushCtx(InnerBlock(v));
        PushCtx(InnerBlockBegin);
        r := Some(ParseInnerBlockName(v));
      } else if v in enumLiterals {
        r := Some(ParseVar(v, TOKEN_ENUM_LITERAL));
      } else if v in agentNames {
        r := Some(ParseVar(v, TOKEN_AGENT_NAME));
      } else {
        r := Some(ParseVar(v, TOKEN_VARNAME));
      }
    }
  }

  /**
   * Every token of `input` in order. Each token is non-empty, their texts
   * put together are the start of the input, and what is left over is an
   * unterminated `Semantics` statement at the end.
   */
  method Tokenize(input: string) returns (tokens: seq<Token>)
    ensures forall i :: 0 <= i < |tokens| ==> tokens[i].1 != []
    ensures Texts(tokens) <= input
    ensures |Texts(tokens)| < |input| ==>
              "Semantics" <= input[|Texts(tokens)|..] && ';' !in input[|Texts(tokens)|..]
  {
    var tokenizer := new Tokenizer(input);
    tokens := [];
    while true
      invariant tokenizer.Valid() && tokenizer.state.input == input
      invariant Texts(tokens) == input[..tokenizer.state.offset]
      invariant forall i :: 0 <= i < |tokens| ==> tokens[i].1 != []
      decreases |input| - tokenizer.state.offset
    {
      var before := tokenizer.state.offset;
      var token := tokenizer.Next();
      if token.None? {
        return;
      }
      assert (tokens + [token.value])[..|tokens|] == tokens;
      tokens := tokens + [token.value];
      assert input[..tokenizer.state.offset] == input[..before] + input[before..tokenizer.state.offset];
    }
  }
}
