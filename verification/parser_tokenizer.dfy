/**
 * The earlier ISPL tokenizer, kept beside the parser. It runs the same
 * context-driven machine as the current tokenizer with a coarser set of
 * kinds: every error is `TOKEN_ERROR`, a `Semantics` statement is one
 * `TOKEN_SEMANTICS` whatever it says, reserved words are not checked, and the
 * one-letter temporal operators are only recognised directly inside the
 * `Formulae` block. Variable names may also contain `-` and `^`.
 */
module ParserTokenizer {

  import opened Wrappers
  import opened Lexing
  import IsplKinds

  /** The kinds of this tokenizer, numbered in declaration order. */
  newtype SyntaxKind = k: int | 0 <= k <= 74

  const TOKEN_WHITESPACE: SyntaxKind := 0
  const TOKEN_COMMENT: SyntaxKind := 1
  const TOKEN_ERROR: SyntaxKind := 2
  const TOKEN_VARNAME: SyntaxKind := 3
  const TOKEN_NONE: SyntaxKind := 4
  const TOKEN_L_PAREN: SyntaxKind := 5
  const TOKEN_R_PAREN: SyntaxKind := 6
  const TOKEN_COLON: SyntaxKind := 7
  const TOKEN_SEMICOLON: SyntaxKind := 8
  const TOKEN_COMMA: SyntaxKind := 9
  const TOKEN_DOT: SyntaxKind := 10
  const TOKEN_DOUBLEDOT: SyntaxKind := 11
  const TOKEN_AND: SyntaxKind := 12
  const TOKEN_OR: SyntaxKind := 13
  const TOKEN_IF: SyntaxKind := 14
  const TOKEN_NEG: SyntaxKind := 15
  const TOKEN_PLUS: SyntaxKind := 16
  const TOKEN_MINUS: SyntaxKind := 17
  const TOKEN_LE: SyntaxKind := 18
  const TOKEN_LT: SyntaxKind := 19
  const TOKEN_GE: SyntaxKind := 20
  const TOKEN_GT: SyntaxKind := 21
  const TOKEN_EQ: SyntaxKind := 22
  const TOKEN_NEQ: SyntaxKind := 23
  const TOKEN_IMPLIES_R: SyntaxKind := 24
  const TOKEN_IMPLIES_L: SyntaxKind := 25
  const TOKEN_IMPLIES_BI: SyntaxKind := 26
  const TOKEN_TRUE: SyntaxKind := 27
  const TOKEN_FALSE: SyntaxKind := 28
  const TOKEN_BOOLEAN_LITERAL: SyntaxKind := 29
  const TOKEN_X: SyntaxKind := 30
  const TOKEN_F: SyntaxKind := 31
  const TOKEN_G: SyntaxKind := 32
  const TOKEN_U: SyntaxKind := 33
  const TOKEN_A: SyntaxKind := 34
  const TOKEN_E: SyntaxKind := 35
  const TOKEN_K: SyntaxKind := 36
  const TOKEN_GROUPNAME: SyntaxKind := 37
  const TOKEN_START_GROUPEXPR: SyntaxKind := 38
  const TOKEN_END_GROUPEXPR: SyntaxKind := 39
  const TOKEN_GROUP_OPENCURLY: SyntaxKind := 40
  const TOKEN_GROUP_CLOSECURLY: SyntaxKind := 41
  const TOKEN_GROUPS_ASSIGN: SyntaxKind := 42
  const TOKEN_ENUM_LITERAL: SyntaxKind := 43
  const TOKEN_ENUM_OPENCURLY: SyntaxKind := 44
  const TOKEN_ENUM_CLOSECURLY: SyntaxKind := 45
  const TOKEN_INT_LITERAL: SyntaxKind := 46
  const TOKEN_SET_OPENCURLY: SyntaxKind := 47
  const TOKEN_SET_CLOSECURLY: SyntaxKind := 48
  const TOKEN_INNER_BLOCK_NAME: SyntaxKind := 49
  const TOKEN_BEGIN_INNER_BLOCK: SyntaxKind := 50
  const TOKEN_END_INNER_BLOCK: SyntaxKind := 51
  const TOKEN_END_INNER_BLOCK_NAME: SyntaxKind := 52
  const TOKEN_INNER_BLOCK_ASSIGN: SyntaxKind := 53
  const TOKEN_INNER_BLOCK_ASSIGN_NAME: SyntaxKind := 54
  const TOKEN_SEMANTICS: SyntaxKind := 55
  const TOKEN_BEGIN_AGENT: SyntaxKind := 56
  const TOKEN_AGENT_NAME: SyntaxKind := 57
  const TOKEN_BEGIN_EVALUATION: SyntaxKind := 58
  const TOKEN_BEGIN_INIT_STATES: SyntaxKind := 59
  const TOKEN_BEGIN_GROUPS: SyntaxKind := 60
  const TOKEN_BEGIN_FAIRNESS: SyntaxKind := 61
  const TOKEN_BEGIN_FORMULAE: SyntaxKind := 62
  const TOKEN_END_OUTER_BLOCK: SyntaxKind := 63
  const TOKEN_END_OUTER_BLOCK_NAME: SyntaxKind := 64
  const NODE_ENUM_DECL: SyntaxKind := 65
  const NODE_BOOL_DECL: SyntaxKind := 66
  const NODE_INT_DECL: SyntaxKind := 67
  const NODE_GROUP_DECL: SyntaxKind := 68
  const NODE_FORMULA: SyntaxKind := 69
  const NODE_FORMULA_ROOT: SyntaxKind := 70
  const NODE_EXPRESSION: SyntaxKind := 71
  const NODE_EXPRESSION_ROOT: SyntaxKind := 72
  const NODE_BLOCk: SyntaxKind := 73
  const ROOT: SyntaxKind := 74

  /** The raw value a kind is stored as. */
  function ToRaw(k: SyntaxKind): (r: IsplKinds.Raw)
    ensures r as int == k as int
  {
    k as int as IsplKinds.Raw
  }

  /**
   * The kind stored as `raw`. Above `ROOT` there is none: the conversion
   * fails its assertion there.
   */
  function FromRaw(raw: IsplKinds.Raw): (k: Option<SyntaxKind>)
    ensures k.Some? <==> raw <= ToRaw(ROOT)
  {
    if raw <= ToRaw(ROOT) then Some(raw as int as SyntaxKind) else None
  }

  /**
   * Whitespace is the first kind and `ROOT` the last, so the round trip
   * through the raw value returns every kind unchanged.
   */
  lemma RawRoundTrip(k: SyntaxKind)
    ensures ToRaw(TOKEN_WHITESPACE) == 0
    ensures ToRaw(k) <= ToRaw(ROOT)
    ensures FromRaw(ToRaw(k)) == Some(k)
  {
  }

  /** The characters that may follow the first one of a variable name. */
  predicate IsValidVarChar(c: char)
  {
    IsAlphanumeric(c) || c == '_' || c == '-' || c == '$' || c == '^' || c == '@' || c == '#'
  }

  /** The one-letter temporal operators of the `Formulae` block. */
  function ModalKind(c: char): Option<SyntaxKind>
  {
    if c == 'X' then Some(TOKEN_X)
    else if c == 'F' then Some(TOKEN_F)
    else if c == 'G' then Some(TOKEN_G)
    else if c == 'U' then Some(TOKEN_U)
    else if c == 'A' then Some(TOKEN_A)
    else if c == 'E' then Some(TOKEN_E)
    else if c == 'K' then Some(TOKEN_K)
    else None
  }

  /** The words lexed as keywords wherever they occur. */
  function KeywordKind(w: string): Option<SyntaxKind>
  {
    if w == "none" then Some(TOKEN_NONE)
    else if w == "and" then Some(TOKEN_AND)
    else if w == "or" then Some(TOKEN_OR)
    else if w == "if" then Some(TOKEN_IF)
    else if w == "true" then Some(TOKEN_TRUE)
    else if w == "false" then Some(TOKEN_FALSE)
    else if w == "boolean" then Some(TOKEN_BOOLEAN_LITERAL)
    else None
  }

  /** The outer blocks other than agents, each with the kind of its opening word. */
  function OuterBlockKind(w: string): Option<SyntaxKind>
  {
    if w == "Evaluation" then Some(TOKEN_BEGIN_EVALUATION)
    else if w == "InitStates" then Some(TOKEN_BEGIN_INIT_STATES)
    else if w == "Groups" then Some(TOKEN_BEGIN_GROUPS)
    else if w == "Fairness" then Some(TOKEN_BEGIN_FAIRNESS)
    else if w == "Formulae" then Some(TOKEN_BEGIN_FORMULAE)
    else None
  }

  /** A token: its kind and its text. */
  type Token = (SyntaxKind, string)

  function Texts(tokens: seq<Token>): string
  {
    if tokens == [] then [] else Texts(tokens[..|tokens| - 1]) + tokens[|tokens| - 1].1
  }

  function Last<T>(s: seq<T>): T
    requires s != []
  {
    s[|s| - 1]
  }

  class Tokenizer {
    const state: State
    var ctx: seq<Context>
    var enumLiterals: seq<string>
    var groupNames: seq<string>
    var agentNames: seq<string>

    ghost predicate Valid()
      reads this, state
    {
      state.Valid() && WellNested(ctx)
    }

    /** The name tables only ever grow. */
    twostate predicate NamesGrow()
      reads this
    {
      old(enumLiterals) <= enumLiterals && old(groupNames) <= groupNames
      && old(agentNames) <= agentNames
    }

    twostate predicate NamesKept()
      reads this
    {
      old(enumLiterals) == enumLiterals && old(groupNames) == groupNames
      && old(agentNames) == agentNames
    }

    constructor (input: string)
      ensures fresh(state) && state.input == input && state.offset == 0
      ensures ctx == [] && enumLiterals == [] && groupNames == [] && agentNames == []
      ensures Valid()
    {
      state := new State(input);
      ctx := [];
      enumLiterals := [];
      groupNames := [];
      agentNames := [];
    }

    /** Pops `c`, which is on top of the stack. */
    method PopCtx(c: Context)
      requires Valid() && ctx != [] && Last(ctx) == c
      modifies this
      ensures Valid()
      ensures ctx == old(ctx)[..|old(ctx)| - 1]
      ensures NamesKept()
    {
      PopNested(ctx);
      ctx := ctx[..|ctx| - 1];
    }

    /** Pushes `c`, which the stack's shape admits. */
    method PushCtx(c: Context)
      requires Valid() && CanPush(ctx, c)
      modifies this
      ensures Valid()
      ensures ctx == old(ctx) + [c]
      ensures NamesKept()
    {
      PushNested(ctx, c);
      ctx := ctx + [c];
    }

    /**
     * The next token and its text, which is the input from where the cursor
     * was to where it is now.
     */
    method Next() returns (r: Option<Token>)
      requires Valid()
      modifies this, state
      ensures Valid() && NamesGrow()
      ensures old(state.offset) <= state.offset
      ensures r.Some? ==> r.value.1 == state.input[old(state.offset)..state.offset]
      ensures r.Some? ==> old(state.offset) < state.offset
      ensures r.None? ==> state.offset == |state.input|
      ensures old(state.offset) == |state.input| ==> r.None? && ctx == old(ctx)
      ensures old(ctx) != [] && old(state.offset) < |state.input| ==> r.Some?
      ensures r.None? && old(state.offset) < |state.input| ==>
                "Semantics" <= state.input[old(state.offset)..]
                && ';' !in state.input[old(state.offset)..]
      ensures old(ctx) == [] && StrayAtTop(old(state.Remaining())) ==>
                && r.Some? && r.value.0 == TOKEN_ERROR && ctx == []
                && state.offset == old(state.offset) + ErrLen(old(state.Remaining()))
      decreases |state.input| - state.offset, 4
    {
      var start := state.offset;
      var kind := NextInner();
      if kind.Some? {
        r := Some((kind.value, state.StrSince(start)));
      } else {
        r := None;
      }
    }

    /**
     * The kind of the next token. There is none when the input is used up,
     * and whitespace and comments are tokens of their own in every context.
     */
    method NextInner() returns (r: Option<SyntaxKind>)
      requires Valid()
      modifies this, state
      ensures Valid() && NamesGrow()
      ensures old(state.offset) <= state.offset
      ensures r.Some? ==> old(state.offset) < state.offset
      ensures r.None? ==> state.offset == |state.input|
      ensures old(state.offset) == |state.input| ==> r.None? && ctx == old(ctx)
      ensures old(ctx) != [] && old(state.offset) < |state.input| ==> r.Some?
      ensures r.None? && old(state.offset) < |state.input| ==>
                "Semantics" <= state.input[old(state.offset)..]
                && ';' !in state.input[old(state.offset)..]
      ensures old(state.offset) < |state.input| && IsWhitespace(state.input[old(state.offset)]) ==>
                && r == Some(TOKEN_WHITESPACE) && ctx == old(ctx)
                && state.offset == old(state.offset) + TakeWhileLen(old(state.Remaining()), IsWhitespace)
      ensures old(state.offset) < |state.input| && !IsWhitespace(state.input[old(state.offset)])
              && "--" <= old(state.Remaining()) ==>
                && r == Some(TOKEN_COMMENT) && ctx == old(ctx)
                && state.offset == old(state.offset) + 2
                                   + TakeWhileLen(state.input[old(state.offset) + 2..], NotNewline)
      ensures old(ctx) == [] && StrayAtTop(old(state.Remaining())) ==>
                && r == Some(TOKEN_ERROR) && ctx == []
                && state.offset == old(state.offset) + ErrLen(old(state.Remaining()))
      decreases |state.input| - state.offset, 3
    {
      var start := state.offset;
      if state.offset == |state.input| {
        return None;
      }
      var whitespace := state.ConsumeWhile(IsWhitespace);
      if whitespace > 0 {
        return Some(TOKEN_WHITESPACE);
      }
      var comment := state.StartsWithBump("--");
      if comment {
        var text := state.ConsumeWhile(NotNewline);
        return Some(TOKEN_COMMENT);
      }
      r := Lexeme(start);
    }

    /** A token that is neither whitespace nor a comment, lexed by context. */
    method Lexeme(start: nat) returns (r: Option<SyntaxKind>)
      requires Valid() && start == state.offset < |state.input|
      modifies this, state
      ensures Valid() && NamesGrow()
      ensures old(state.offset) <= state.offset
      ensures r.Some? ==> old(state.offset) < state.offset
      ensures r.None? ==> state.offset == |state.input|
                          && "Semantics" <= old(state.Remaining()) && ';' !in old(state.Remaining())
      ensures old(ctx) != [] ==> r.Some?
      ensures old(ctx) == [] && !IsValidStartVarChar(state.input[old(state.offset)]) ==>
                && r == Some(TOKEN_ERROR) && ctx == []
                && state.offset == old(state.offset) + ErrLen(old(state.Remaining()))
      decreases |state.input| - state.offset, 2
    {
      if ctx != [] && Last(ctx) == AgentDef {
        NestedTop(ctx);
        r := AgentName();
      } else if ctx != [] && Last(ctx) == BlockEnded {
        NestedTop(ctx);
        r := BlockName();
      } else if ctx == [] {
        r := TopLevel();
      } else {
        var c := state.Next();
        r := Symbol(c.value, start);
      }
    }

    /** The name after `Agent`, which opens the agent's block and is recorded. */
    method AgentName() returns (r: Option<SyntaxKind>)
      requires Valid() && ctx == [AgentDef] && state.offset < |state.input|
      modifies this, state
      ensures Valid()
      ensures ctx == [AgentBlock]
      ensures enumLiterals == old(enumLiterals) && groupNames == old(groupNames)
      ensures var v := VarAt(old(state.Remaining()), IsValidVarChar);
              && (v.Some? ==> && agentNames == old(agentNames) + [v.value]
                              && r == Some(TOKEN_AGENT_NAME)
                              && state.offset == old(state.offset) + |v.value|)
              && (v.None? ==> && agentNames == old(agentNames)
                              && r == Some(TOKEN_ERROR)
                              && state.offset == old(state.offset) + ErrLen(old(state.Remaining())))
    {
      PopCtx(AgentDef);
      PushCtx(AgentBlock);
      var name := state.ConsumeVar(IsValidVarChar);
      if name.Some? {
        agentNames := agentNames + [name.value];
        return Some(TOKEN_AGENT_NAME);
      } else {
        state.ConsumeErr();
        return Some(TOKEN_ERROR);
      }
    }

    /**
     * The name after `end`: it closes the block below the ended marker when it
     * is that block's name (`Agent` for an agent), and is an error otherwise.
     */
    method BlockName() returns (r: Option<SyntaxKind>)
      requires Valid() && |ctx| >= 2 && Last(ctx) == BlockEnded && ctx[|ctx| - 2].IsBlock()
      requires state.offset < |state.input|
      modifies this, state
      ensures Valid() && NamesKept()
      ensures var below := old(ctx)[..|old(ctx)| - 1];
              var block := old(ctx)[|old(ctx)| - 2];
              var v := VarAt(old(state.Remaining()), IsValidVarChar);
              && (v == Some(ClosingName(block)) ==>
                    && ctx == below[..|below| - 1]
                    && r == Some(if block.InnerBlock? then TOKEN_END_INNER_BLOCK_NAME else TOKEN_END_OUTER_BLOCK_NAME))
              && (v != Some(ClosingName(block)) ==> ctx == below && r == Some(TOKEN_ERROR))
              && (v.Some? ==> state.offset == old(state.offset) + |v.value|)
              && (v.None? ==> state.offset == old(state.offset) + ErrLen(old(state.Remaining())))
    {
      PopCtx(BlockEnded);
      var block := Last(ctx);
      var name := state.ConsumeVar(IsValidVarChar);
      if name == Some(ClosingName(block)) {
        PopCtx(block);
        r := Some(if block.InnerBlock? then TOKEN_END_INNER_BLOCK_NAME else TOKEN_END_OUTER_BLOCK_NAME);
      } else if name.Some? {
        r := Some(TOKEN_ERROR);
      } else {
        state.ConsumeErr();
        r := Some(TOKEN_ERROR);
      }
    }

    /**
     * A lexeme outside every block: `Agent` and the five outer block names
     * open their block, a `Semantics` statement is one token, and anything
     * else is an error to the end of the line.
     */
    method TopLevel() returns (r: Option<SyntaxKind>)
      requires Valid() && ctx == [] && state.offset < |state.input|
      modifies this, state
      ensures Valid() && NamesGrow()
      ensures old(state.offset) <= state.offset
      ensures r.Some? ==> old(state.offset) < state.offset
      ensures r.None? ==> state.offset == |state.input|
                          && "Semantics" <= old(state.Remaining()) && ';' !in old(state.Remaining())
      ensures VarAt(old(state.Remaining()), IsValidVarChar) == Some("Semantics") ==>
                (r.Some? <==> ';' in state.input[old(state.offset) + 9..])
      ensures var v := VarAt(old(state.Remaining()), IsValidVarChar);
              && (v == Some("Semantics") && r.Some? ==>
                    && r == Some(TOKEN_SEMANTICS)
                    && state.offset == old(state.offset) + 9 + StatementLen(state.input[old(state.offset) + 9..]))
              && (v == Some("Agent") ==> r == Some(TOKEN_BEGIN_AGENT) && ctx == [AgentDef])
              && (v.Some? && OuterBlockKind(v.value).Some? ==>
                    r == OuterBlockKind(v.value) && ctx == [OuterBlock(v.value)])
              && (v.None? || (v.value != "Semantics" && v.value != "Agent" && OuterBlockKind(v.value).None?) ==>
                    && r == Some(TOKEN_ERROR) && ctx == []
                    && state.offset == old(state.offset) + (if v.Some? then |v.value| else 0)
                                       + ErrLen(state.input[old(state.offset) + (if v.Some? then |v.value| else 0)..]))
      decreases |state.input| - state.offset, 1
    {
      var name := state.ConsumeVar(IsValidVarChar);
      if name == Some("Semantics") {
        assert state.Remaining() == state.input[old(state.offset) + 9..];
        r := Semantics();
      } else {
        r := OpenBlock(name);
      }
    }

    /**
     * The top-level words other than `Semantics`, once the word `name` has
     * been read: `Agent` and the other outer blocks open their block, and
     * anything else is a stray word, reported as an error up to the end of
     * the line.
     */
    method OpenBlock(name: Option<string>) returns (r: Option<SyntaxKind>)
      requires Valid() && ctx == [] && name != Some("Semantics")
      modifies this, state
      ensures Valid() && NamesGrow()
      ensures name == Some("Agent") ==>
                r == Some(TOKEN_BEGIN_AGENT) && ctx == [AgentDef] && state.offset == old(state.offset)
      ensures name.Some? && OuterBlockKind(name.value).Some? ==>
                r == OuterBlockKind(name.value) && ctx == [OuterBlock(name.value)]
                && state.offset == old(state.offset)
      ensures name != Some("Agent") && (name.None? || OuterBlockKind(name.value).None?) ==>
                && r == Some(TOKEN_ERROR) && ctx == []
                && state.offset == old(state.offset) + ErrLen(old(state.Remaining()))
    {
      if name == Some("Agent") {
        PushCtx(AgentDef);
        r := Some(TOKEN_BEGIN_AGENT);
      } else if name.Some? && OuterBlockKind(name.value).Some? {
        PushCtx(OuterBlock(name.value));
        r := OuterBlockKind(name.value);
      } else {
        state.ConsumeErr();
        r := Some(TOKEN_ERROR);
      }
    }

    /**
     * The rest of a `Semantics` statement: everything up to the next `;` and
     * then a whole further token, which is dropped. When the input ends
     * before a `;` there is no token at all.
     */
    method Semantics() returns (r: Option<SyntaxKind>)
      requires Valid() && ctx == []
      modifies this, state
      ensures Valid() && NamesGrow()
      ensures old(state.offset) <= state.offset
      ensures r.None? <==> ';' !in old(state.Remaining())
      ensures r.None? ==> state.offset == |state.input|
      ensures r.Some? ==> r.value == TOKEN_SEMANTICS
      ensures r.Some? ==> state.offset == old(state.offset) + StatementLen(old(state.Remaining()))
      decreases |state.input| - state.offset, 5
    {
      ghost var rest := state.Remaining();
      SemicolonRun(rest);
      var statement := state.ConsumeWhile(NotSemicolon);
      assert state.Remaining() == rest[statement..];
      var terminator := Next();
      if terminator.None? {
        return None;
      }
      r := Some(TOKEN_SEMANTICS);
    }

    /** A lexeme inside a block, after its first character `ch`. */
    method Symbol(ch: char, start: nat) returns (r: Option<SyntaxKind>)
      requires Valid() && ctx != [] && !Last(ctx).AgentDef? && !Last(ctx).BlockEnded?
      requires start + 1 == state.offset && state.input[start] == ch
      modifies this, state
      ensures Valid() && NamesGrow()
      ensures old(state.offset) <= state.offset && r.Some?
      ensures old(Last(ctx)) == OuterBlock("Formulae") && ModalKind(ch).Some? ==>
                r == ModalKind(ch) && state.offset == start + 1 && ctx == old(ctx)
      ensures ch == '<' && "->" <= old(state.Remaining()) ==>
                r == Some(TOKEN_IMPLIES_L) && old(state.offset) < state.offset
      decreases |state.input| - state.offset, 6
    {
      if ch == '.' && state.Peek() == Some('.') {
        var dot := Next();
        assert dot.Some?;
        r := Some(TOKEN_DOUBLEDOT);
      } else if ch == '.' {
        r := Some(TOKEN_DOT);
      } else if ch == '(' {
        r := Some(TOKEN_L_PAREN);
      } else if ch == ')' {
        r := Some(TOKEN_R_PAREN);
      } else if ch == '{' {
        r := OpenBrace();
      } else if ch == '}' {
        r := CloseBrace();
      } else if ch == ':' && Last(ctx) == InnerBlockBegin {
        PopCtx(InnerBlockBegin);
        r := Some(TOKEN_BEGIN_INNER_BLOCK);
      } else if ch == ':' {
        r := Some(TOKEN_COLON);
      } else if ch == ';' {
        r := Some(TOKEN_SEMICOLON);
      } else if ch == ',' {
        r := Some(TOKEN_COMMA);
      } else if ch == '!' && state.Peek() == Some('=') {
        var equals := Next();
        assert equals.Some?;
        r := Some(TOKEN_NEQ);
      } else if ch == '!' {
        r := Some(TOKEN_NEG);
      } else if ch == '<' || ch == '>' || ch == '-' || ch == '=' {
        r := Operator(ch);
      } else if ch == '+' {
        r := Some(TOKEN_PLUS);
      } else if IsAsciiDigit(ch) {
        var digits := state.ConsumeWhile(IsAsciiDigit);
        r := Some(TOKEN_INT_LITERAL);
      } else if ModalKind(ch).Some? && Last(ctx) == OuterBlock("Formulae") {
        r := ModalKind(ch);
      } else if IsValidStartVarChar(ch) {
        r := Word(start);
      } else {
        r := Some(TOKEN_ERROR);
      }
    }

    /**
     * A brace opens a group definition in the `Groups` block, an enum
     * definition in an inner block and a set anywhere else.
     */
    method OpenBrace() returns (r: Option<SyntaxKind>)
      requires Valid() && ctx != [] && !Last(ctx).AgentDef? && !Last(ctx).BlockEnded?
      modifies this
      ensures Valid() && NamesKept()
      ensures old(Last(ctx)) == OuterBlock("Groups") ==>
                r == Some(TOKEN_GROUP_OPENCURLY) && ctx == old(ctx) + [GroupDef]
      ensures old(Last(ctx)).InnerBlock? ==>
                r == Some(TOKEN_ENUM_OPENCURLY) && ctx == old(ctx) + [EnumDef]
      ensures old(Last(ctx)) != OuterBlock("Groups") && !old(Last(ctx)).InnerBlock? ==>
                r == Some(TOKEN_SET_OPENCURLY) && ctx == old(ctx) + [SetDef]
    {
      if Last(ctx) == OuterBlock("Groups") {
        PushCtx(GroupDef);
        r := Some(TOKEN_GROUP_OPENCURLY);
      } else if Last(ctx).InnerBlock? {
        PushCtx(EnumDef);
        r := Some(TOKEN_ENUM_OPENCURLY);
      } else {
        PushCtx(SetDef);
        r := Some(TOKEN_SET_OPENCURLY);
      }
    }

    /**
     * A closing brace closes the group, enum or set definition on top of the
     * stack; with none there it is an error and the stack is left alone.
     */
    method CloseBrace() returns (r: Option<SyntaxKind>)
      requires Valid() && ctx != []
      modifies this
      ensures Valid() && NamesKept()
      ensures old(Last(ctx)) == GroupDef ==>
                r == Some(TOKEN_GROUP_CLOSECURLY) && ctx == old(ctx)[..|old(ctx)| - 1]
      ensures old(Last(ctx)) == EnumDef ==>
                r == Some(TOKEN_ENUM_CLOSECURLY) && ctx == old(ctx)[..|old(ctx)| - 1]
      ensures old(Last(ctx)) == SetDef ==>
                r == Some(TOKEN_SET_CLOSECURLY) && ctx == old(ctx)[..|old(ctx)| - 1]
      ensures old(Last(ctx)) !in {GroupDef, EnumDef, SetDef} ==>
                r == Some(TOKEN_ERROR) && ctx == old(ctx)
    {
      if Last(ctx) == GroupDef {
        PopCtx(GroupDef);
        r := Some(TOKEN_GROUP_CLOSECURLY);
      } else if Last(ctx) == EnumDef {
        PopCtx(EnumDef);
        r := Some(TOKEN_ENUM_CLOSECURLY);
      } else if Last(ctx) == SetDef {
        PopCtx(SetDef);
        r := Some(TOKEN_SET_CLOSECURLY);
      } else {
        r := Some(TOKEN_ERROR);
      }
    }

    /** The operators that begin with `<`, `>`, `-` or `=`. */
    method Operator(ch: char) returns (r: Option<SyntaxKind>)
      requires Valid() && ctx != [] && !Last(ctx).AgentDef? && !Last(ctx).BlockEnded?
      requires ch == '<' || ch == '>' || ch == '-' || ch == '='
      modifies this, state
      ensures Valid() && NamesGrow()
      ensures old(state.offset) <= state.offset && r.Some?
      ensures ch == '<' && "->" <= old(state.Remaining()) ==>
                r == Some(TOKEN_IMPLIES_L) && old(state.offset) < state.offset
      decreases |state.input| - state.offset, 5
    {
      if ch == '<' {
        if state.Peek2() == (Some('-'), Some('>')) {
          // `Peek2` sees the same character twice: this arm never fires.
          assert false;
        } else if state.Peek() == Some('-') {
          var arrow := Next();
          assert arrow.Some?;
          r := Some(TOKEN_IMPLIES_L);
        } else if state.Peek() == Some('=') {
          var equals := Next();
          assert equals.Some?;
          r := Some(TOKEN_LE);
        } else {
          r := LessThan();
        }
      } else if ch == '>' {
        if state.Peek() == Some('=') {
          var equals := Next();
          assert equals.Some?;
          r := Some(TOKEN_GE);
        } else if Last(ctx) == GroupExpr {
          PopCtx(GroupExpr);
          r := Some(TOKEN_END_GROUPEXPR);
        } else {
          r := Some(TOKEN_GT);
        }
      } else if ch == '-' {
        if state.Peek() == Some('>') {
          var greater := Next();
          assert greater.Some?;
          r := Some(TOKEN_IMPLIES_R);
        } else {
          r := Some(TOKEN_MINUS);
        }
      } else {
        if Last(ctx) == OuterBlock("Groups") {
          r := Some(TOKEN_GROUPS_ASSIGN);
        } else if Last(ctx) == InnerBlockAssign {
          PopCtx(InnerBlockAssign);
          r := Some(TOKEN_INNER_BLOCK_ASSIGN);
        } else {
          r := Some(TOKEN_EQ);
        }
      }
    }

    /**
     * `Operator` with its `<->` arm as evidently intended: it looks at the
     * next two characters and steps over `->` itself; every other input goes
     * to the arms `Operator` has.
     */
    method OperatorFixed(ch: char) returns (r: Option<SyntaxKind>)
      requires Valid() && ctx != [] && !Last(ctx).AgentDef? && !Last(ctx).BlockEnded?
      requires ch == '<' || ch == '>' || ch == '-' || ch == '='
      modifies this, state
      ensures Valid() && NamesGrow()
      ensures old(state.offset) <= state.offset && r.Some?
      ensures ch == '<' && "->" <= old(state.Remaining()) ==>
                r == Some(TOKEN_IMPLIES_BI) && state.offset == old(state.offset) + 2
                && ctx == old(ctx) && NamesKept()
    {
      if ch == '<' && state.PeekTwo() == (Some('-'), Some('>')) {
        var minus := state.Next();
        var greater := state.Next();
        r := Some(TOKEN_IMPLIES_BI);
      } else {
        r := Operator(ch);
      }
    }

    /**
     * A `<` opens a group expression exactly when the next name after any
     * whitespace is a group already declared; otherwise it is less-than.
     */
    method LessThan() returns (r: Option<SyntaxKind>)
      requires Valid() && ctx != [] && !Last(ctx).AgentDef? && !Last(ctx).BlockEnded?
      modifies this
      ensures Valid() && NamesKept()
      ensures var rest := state.Remaining();
              var next := VarAt(rest[TakeWhileLen(rest, IsWhitespace)..], IsValidVarChar);
              && (next.Some? && next.value in groupNames ==>
                    r == Some(TOKEN_START_GROUPEXPR) && ctx == old(ctx) + [GroupExpr])
              && (!(next.Some? && next.value in groupNames) ==>
                    r == Some(TOKEN_LT) && ctx == old(ctx))
    {
      var rest := state.Remaining();
      var nextItemStart := TakeWhileLen(rest, IsWhitespace);
      var nextItemValidChar := nextItemStart < |rest| && IsValidStartVarChar(rest[nextItemStart]);
      var nextItemLen := TakeWhileLen(rest[nextItemStart..], IsValidVarChar);
      var nextItem := rest[nextItemStart..nextItemStart + nextItemLen];
      assert nextItemValidChar ==> nextItem == rest[nextItemStart..][..nextItemLen];
      if !nextItemValidChar || nextItem !in groupNames {
        r := Some(TOKEN_LT);
      } else {
        PushCtx(GroupExpr);
        r := Some(TOKEN_START_GROUPEXPR);
      }
    }

    /**
     * A word: an `end`, a keyword or a name. The word is the longest run of
     * variable characters from `start`.
     */
    method Word(start: nat) returns (r: Option<SyntaxKind>)
      requires Valid() && ctx != [] && !Last(ctx).AgentDef? && !Last(ctx).BlockEnded?
      requires start + 1 == state.offset && IsValidStartVarChar(state.input[start])
      modifies this, state
      ensures Valid() && NamesGrow() && r.Some?
      ensures var w := VarAt(state.input[start..], IsValidVarChar).value;
              && state.offset == start + |w|
              && (KeywordKind(w).Some? ==> r == KeywordKind(w) && ctx == old(ctx) && NamesKept())
    {
      var rest := state.ConsumeWhile(IsValidVarChar);
      var text := state.StrSince(start);
      assert text == state.input[start..][..|text|];
      TakeWhileLenUnique(state.input[start..], IsValidVarChar, |text|);
      var keyword := KeywordKind(text);
      if text == "end" {
        r := End();
      } else if keyword.Some? {
        r := keyword;
      } else {
        r := Name(text);
      }
    }

    /**
     * An `end` inside an agent, outer or inner block marks that block as
     * ended; anywhere else it is an error.
     */
    method End() returns (r: Option<SyntaxKind>)
      requires Valid() && ctx != [] && !Last(ctx).AgentDef? && !Last(ctx).BlockEnded?
      modifies this
      ensures Valid() && NamesKept()
      ensures old(Last(ctx)).IsBlock() ==> ctx == old(ctx) + [BlockEnded]
      ensures old(Last(ctx)).InnerBlock? ==> r == Some(TOKEN_END_INNER_BLOCK)
      ensures old(Last(ctx)).AgentBlock? || old(Last(ctx)).OuterBlock? ==> r == Some(TOKEN_END_OUTER_BLOCK)
      ensures !old(Last(ctx)).IsBlock() ==> r == Some(TOKEN_ERROR) && ctx == old(ctx)
    {
      var top := Last(ctx);
      if top.AgentBlock? || top.OuterBlock? {
        PushCtx(BlockEnded);
        r := Some(TOKEN_END_OUTER_BLOCK);
      } else if top.InnerBlock? {
        PushCtx(BlockEnded);
        r := Some(TOKEN_END_INNER_BLOCK);
      } else {
        r := Some(TOKEN_ERROR);
      }
    }

    /**
     * A name, classified by the context it is in: an enum definition records
     * it as an enum literal and the `Groups` block as a group; a group
     * definition and a group expression check it against the agents and the
     * groups; in a block a name followed by `=` or `:` opens an inner block;
     * anywhere else it is an enum literal, an agent or a plain variable, in
     * that order of preference.
     */
    method Name(v: string) returns (r: Option<SyntaxKind>)
      requires Valid() && ctx != [] && !Last(ctx).AgentDef? && !Last(ctx).BlockEnded?
      modifies this
      ensures Valid() && NamesGrow()
      ensures var top := old(Last(ctx));
              && (top == EnumDef ==>
                    && enumLiterals == old(enumLiterals) + [v] && groupNames == old(groupNames)
                    && ctx == old(ctx) && r == Some(TOKEN_ENUM_LITERAL))
              && (top == OuterBlock("Groups") ==>
                    && groupNames == old(groupNames) + [v] && enumLiterals == old(enumLiterals)
                    && ctx == old(ctx) && r == Some(TOKEN_GROUPNAME))
              && (top != EnumDef && top != OuterBlock("Groups") ==> NamesKept())
              && (top == GroupDef ==>
                    && ctx == old(ctx)
                    && r == Some(if v in agentNames then TOKEN_AGENT_NAME else TOKEN_ERROR))
              && (top == GroupExpr ==>
                    && ctx == old(ctx)
                    && r == Some(if v in groupNames then TOKEN_GROUPNAME else TOKEN_ERROR))
              && (top == AgentBlock && state.PeekChar() == Some('=') ==>
                    ctx == old(ctx) + [InnerBlockAssign] && r == Some(TOKEN_INNER_BLOCK_ASSIGN_NAME))
              && ((top == AgentBlock && state.PeekChar() == Some(':'))
                  || (top.OuterBlock? && top != OuterBlock("Groups") && state.PeekChar() == Some(':')) ==>
                    ctx == old(ctx) + [InnerBlock(v), InnerBlockBegin] && r == Some(TOKEN_INNER_BLOCK_NAME))
              && (top !in {EnumDef, OuterBlock("Groups"), GroupDef, GroupExpr}
                  && !(top == AgentBlock && state.PeekChar() in {Some('='), Some(':')})
                  && !(top.OuterBlock? && state.PeekChar() == Some(':')) ==>
                    && ctx == old(ctx)
                    && r == Some(if v in enumLiterals then TOKEN_ENUM_LITERAL
                                 else if v in agentNames then TOKEN_AGENT_NAME
                                 else TOKEN_VARNAME))
    {
      var top := Last(ctx);
      if top == EnumDef {
        enumLiterals := enumLiterals + [v];
        r := Some(TOKEN_ENUM_LITERAL);
      } else if top == OuterBlock("Groups") {
        groupNames := groupNames + [v];
        r := Some(TOKEN_GROUPNAME);
      } else if top == GroupDef {
        if v in agentNames {
          r := Some(TOKEN_AGENT_NAME);
        } else {
          r := Some(TOKEN_ERROR);
        }
      } else if top == GroupExpr {
        if v in groupNames {
          r := Some(TOKEN_GROUPNAME);
        } else {
          r := Some(TOKEN_ERROR);
        }
      } else if top == AgentBlock && state.PeekChar() == Some('=') {
        PushCtx(InnerBlockAssign);
        r := Some(TOKEN_INNER_BLOCK_ASSIGN_NAME);
      } else if (top == AgentBlock || top.OuterBlock?) && state.PeekChar() == Some(':') {
        PushCtx(InnerBlock(v));
        PushCtx(InnerBlockBegin);
        r := Some(TOKEN_INNER_BLOCK_NAME);
      } else if v in enumLiterals {
        r := Some(TOKEN_ENUM_LITERAL);
      } else if v in agentNames {
        r := Some(TOKEN_AGENT_NAME);
      } else {
        r := Some(TOKEN_VARNAME);
      }
    }
  }

  /**
   * Every token of `input` in order. Each token is non-empty, their texts
   * put together are the start of the input, and what is left over is an
   * unterminated `Semantics` statement at the end.
   */
  method Tokenize(input: string) returns (tokens: seq<Token>)
    ensures forall i :: 0 <= i < |tokens| ==> tokens[i].1 != []
    ensures Texts(tokens) <= input
    ensures |Texts(tokens)| < |input| ==>
              "Semantics" <= input[|Texts(tokens)|..] && ';' !in input[|Texts(tokens)|..]
  {
    var tokenizer := new Tokenizer(input);
    tokens := [];
    while true
      invariant tokenizer.Valid() && tokenizer.state.input == input
      invariant Texts(tokens) == input[..tokenizer.state.offset]
      invariant forall i :: 0 <= i < |tokens| ==> tokens[i].1 != []
      decreases |input| - tokenizer.state.offset
    {
      var before := tokenizer.state.offset;
      var token := tokenizer.Next();
      if token.None? {
        return;
      }
      assert (tokens + [token.value])[..|tokens|] == tokens;
      tokens := tokens + [token.value];
      assert input[..tokenizer.state.offset] == input[..before] + input[before..tokenizer.state.offset];
    }
  }
}
