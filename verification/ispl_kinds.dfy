/**
 * The kinds of the ISPL syntax tree: every token kind the tokenizer produces,
 * the node kinds of the parser, and `ROOT`. The enumeration is stored in 16
 * bits and its values are consecutive from 0 in declaration order; the syntax
 * tree library keeps kinds as these raw values and converts them back, which
 * is only defined up to `ROOT`, the last kind.
 */
module IsplKinds {

  import opened Wrappers

  /** A raw kind of the syntax tree library, an unsigned 16-bit number. */
  newtype Raw = r: int | 0 <= r < 0x1_0000

  /** A kind is its position in the enumeration; `ROOT` is the last one. */
  newtype SyntaxKind = k: int | 0 <= k <= 106

  const TOKEN_WHITESPACE: SyntaxKind := 0
  const TOKEN_COMMENT: SyntaxKind := 1
  const TOKEN_ERR_UNEXPECTED_KEYWORD: SyntaxKind := 2
  const TOKEN_ERR_EXPECTED_NAME: SyntaxKind := 3
  const TOKEN_ERR_INVALID_CLOSE_BLOCK: SyntaxKind := 4
  const TOKEN_ERR_UNEXPECTED_TOPLEVEL: SyntaxKind := 5
  const TOKEN_ERR_UNEXPECTED_BLOCK: SyntaxKind := 6
  const TOKEN_ERR_UNDEFINED_NAME: SyntaxKind := 7
  const TOKEN_ERROR: SyntaxKind := 8
  const TOKEN_VARNAME: SyntaxKind := 9
  const TOKEN_L_PAREN: SyntaxKind := 10
  const TOKEN_R_PAREN: SyntaxKind := 11
  const TOKEN_COLON: SyntaxKind := 12
  const TOKEN_SEMICOLON: SyntaxKind := 13
  const TOKEN_COMMA: SyntaxKind := 14
  const TOKEN_DOT: SyntaxKind := 15
  const TOKEN_DOUBLEDOT: SyntaxKind := 16
  const TOKEN_AND: SyntaxKind := 17
  const TOKEN_OR: SyntaxKind := 18
  const TOKEN_IF: SyntaxKind := 19
  const TOKEN_NEG: SyntaxKind := 20
  const TOKEN_LE: SyntaxKind := 21
  const TOKEN_LT: SyntaxKind := 22
  const TOKEN_GE: SyntaxKind := 23
  const TOKEN_GT: SyntaxKind := 24
  const TOKEN_EQ: SyntaxKind := 25
  const TOKEN_NEQ: SyntaxKind := 26
  const TOKEN_PLUS: SyntaxKind := 27
  const TOKEN_MINUS: SyntaxKind := 28
  const TOKEN_TIMES: SyntaxKind := 29
  const TOKEN_DEVIDE: SyntaxKind := 30
  const TOKEN_IMPLIES_R: SyntaxKind := 31
  const TOKEN_IMPLIES_L: SyntaxKind := 32
  const TOKEN_IMPLIES_BI: SyntaxKind := 33
  const TOKEN_BITAND: SyntaxKind := 34
  const TOKEN_BITOR: SyntaxKind := 35
  const TOKEN_BITNOT: SyntaxKind := 36
  const TOKEN_BITXOR: SyntaxKind := 37
  const TOKEN_TRUE: SyntaxKind := 38
  const TOKEN_FALSE: SyntaxKind := 39
  const TOKEN_BOOLEAN_LITERAL: SyntaxKind := 40
  const TOKEN_AG: SyntaxKind := 41
  const TOKEN_EG: SyntaxKind := 42
  const TOKEN_AX: SyntaxKind := 43
  const TOKEN_EX: SyntaxKind := 44
  const TOKEN_X: SyntaxKind := 45
  const TOKEN_F: SyntaxKind := 46
  const TOKEN_G: SyntaxKind := 47
  const TOKEN_AF: SyntaxKind := 48
  const TOKEN_EF: SyntaxKind := 49
  const TOKEN_A: SyntaxKind := 50
  const TOKEN_E: SyntaxKind := 51
  const TOKEN_U: SyntaxKind := 52
  const TOKEN_K: SyntaxKind := 53
  const TOKEN_GK: SyntaxKind := 54
  const TOKEN_GCK: SyntaxKind := 55
  const TOKEN_O: SyntaxKind := 56
  const TOKEN_DK: SyntaxKind := 57
  const TOKEN_GROUPNAME: SyntaxKind := 58
  const TOKEN_START_GROUPEXPR: SyntaxKind := 59
  const TOKEN_END_GROUPEXPR: SyntaxKind := 60
  const TOKEN_GROUP_OPENCURLY: SyntaxKind := 61
  const TOKEN_GROUP_CLOSECURLY: SyntaxKind := 62
  const TOKEN_GROUPS_ASSIGN: SyntaxKind := 63
  const TOKEN_ENUM_LITERAL: SyntaxKind := 64
  const TOKEN_ENUM_OPENCURLY: SyntaxKind := 65
  const TOKEN_ENUM_CLOSECURLY: SyntaxKind := 66
  const TOKEN_INT_LITERAL: SyntaxKind := 67
  const TOKEN_SET_OPENCURLY: SyntaxKind := 68
  const TOKEN_SET_CLOSECURLY: SyntaxKind := 69
  const TOKEN_ENVIRONMENT: SyntaxKind := 70
  const TOKEN_OTHER: SyntaxKind := 71
  const TOKEN_ACTION: SyntaxKind := 72
  const TOKEN_NONE: SyntaxKind := 73
  const TOKEN_REDSTATES: SyntaxKind := 74
  const TOKEN_GREENSTATES: SyntaxKind := 75
  const TOKEN_ACTIONS: SyntaxKind := 76
  const TOKEN_PROTOCOL: SyntaxKind := 77
  const TOKEN_EVOLUTION: SyntaxKind := 78
  const TOKEN_OBSVARS: SyntaxKind := 79
  const TOKEN_LOBSVARS: SyntaxKind := 80
  const TOKEN_VARS: SyntaxKind := 81
  const TOKEN_BEGIN_INNER_BLOCK: SyntaxKind := 82
  const TOKEN_END_INNER_BLOCK: SyntaxKind := 83
  const TOKEN_END_INNER_BLOCK_NAME: SyntaxKind := 84
  const TOKEN_INNER_BLOCK_ASSIGN: SyntaxKind := 85
  const TOKEN_SEMANTICS_SA: SyntaxKind := 86
  const TOKEN_SEMANTICS_MA: SyntaxKind := 87
  const TOKEN_BEGIN_AGENT: SyntaxKind := 88
  const TOKEN_AGENT_NAME: SyntaxKind := 89
  const TOKEN_BEGIN_EVALUATION: SyntaxKind := 90
  const TOKEN_BEGIN_INIT_STATES: SyntaxKind := 91
  const TOKEN_BEGIN_GROUPS: SyntaxKind := 92
  const TOKEN_BEGIN_FAIRNESS: SyntaxKind := 93
  const TOKEN_BEGIN_FORMULAE: SyntaxKind := 94
  const TOKEN_END_OUTER_BLOCK: SyntaxKind := 95
  const TOKEN_END_OUTER_BLOCK_NAME: SyntaxKind := 96
  const NODE_ENUM_DECL: SyntaxKind := 97
  const NODE_BOOL_DECL: SyntaxKind := 98
  const NODE_INT_DECL: SyntaxKind := 99
  const NODE_GROUP_DECL: SyntaxKind := 100
  const NODE_FORMULA: SyntaxKind := 101
  const NODE_FORMULA_ROOT: SyntaxKind := 102
  const NODE_EXPRESSION: SyntaxKind := 103
  const NODE_EXPRESSION_ROOT: SyntaxKind := 104
  const NODE_BLOCk: SyntaxKind := 105
  const ROOT: SyntaxKind := 106

  /** The seven kinds the tokenizer emits for input it cannot lex. */
  predicate IsErr(k: SyntaxKind)
  {
    k == TOKEN_ERR_UNEXPECTED_KEYWORD
    || k == TOKEN_ERR_EXPECTED_NAME
    || k == TOKEN_ERR_INVALID_CLOSE_BLOCK
    || k == TOKEN_ERR_UNEXPECTED_TOPLEVEL
    || k == TOKEN_ERR_UNEXPECTED_BLOCK
    || k == TOKEN_ERR_UNDEFINED_NAME
    || k == TOKEN_ERROR
  }

  /** The kinds a parser skips over: comments, whitespace and errors. */
  predicate IsTrivia(k: SyntaxKind)
  {
    k == TOKEN_COMMENT || k == TOKEN_WHITESPACE || IsErr(k)
  }

  /** The raw value a kind is stored as. */
  function ToRaw(k: SyntaxKind): (r: Raw)
    ensures r as int == k as int
  {
    k as Raw
  }

  /**
   * The kind stored as `raw`. Above `ROOT` there is none: the conversion
   * fails its assertion there.
   */
  function FromRaw(raw: Raw): (k: Option<SyntaxKind>)
    ensures k.Some? <==> raw <= ToRaw(ROOT)
  {
    if raw <= ToRaw(ROOT) then Some(raw as int as SyntaxKind) else None
  }

  /**
   * Whitespace is the first kind and `ROOT` the last, so the round trip
   * through the raw value returns every kind unchanged.
   */
  lemma RawRoundTrip(k: SyntaxKind)
    ensures ToRaw(TOKEN_WHITESPACE) == 0
    ensures ToRaw(k) <= ToRaw(ROOT)
    ensures FromRaw(ToRaw(k)) == Some(k)
  {
  }

  /** A raw value up to that of `ROOT` converts to the kind stored as it. */
  lemma FromRawRoundTrip(raw: Raw)
    requires raw <= ToRaw(ROOT)
    ensures ToRaw(FromRaw(raw).value) == raw
  {
  }

  /**
   * The error kinds are the seven consecutive kinds after the comment, so
   * the trivia are exactly the kinds up to `TOKEN_ERROR`.
   */
  lemma TriviaLayout(k: SyntaxKind)
    ensures IsErr(k) <==> TOKEN_ERR_UNEXPECTED_KEYWORD <= k <= TOKEN_ERROR
    ensures IsTrivia(k) <==> k <= TOKEN_ERROR
    ensures IsTrivia(TOKEN_WHITESPACE) && !IsErr(TOKEN_WHITESPACE)
    ensures IsTrivia(TOKEN_COMMENT) && !IsErr(TOKEN_COMMENT)
  {
  }
}
