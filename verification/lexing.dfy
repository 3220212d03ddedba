/**
 * The scanning layer the ISPL tokenizer and its earlier variant share: the
 * character classes, the cursor over the input with its lookahead and
 * scanning operations, and the stack of lexical contexts with the shape it
 * keeps.
 *
 * Offsets count characters, not UTF-8 bytes, and letters and digits are the
 * ASCII ones.
 */
module Lexing {

  import opened Wrappers

  // ---------------------------------------------------------------- characters

  /** The characters with the Unicode White_Space property. */
  predicate IsWhitespace(c: char)
  {
    ('\U{0009}' <= c <= '\U{000D}') || c == ' ' || c == '\U{0085}' || c == '\U{00A0}'
    || c == '\U{1680}' || ('\U{2000}' <= c <= '\U{200A}') || c == '\U{2028}'
    || c == '\U{2029}' || c == '\U{202F}' || c == '\U{205F}' || c == '\U{3000}'
  }

  predicate IsAsciiDigit(c: char)
  {
    '0' <= c <= '9'
  }

  predicate IsAlphabetic(c: char)
  {
    ('a' <= c <= 'z') || ('A' <= c <= 'Z')
  }

  predicate IsAlphanumeric(c: char)
  {
    IsAlphabetic(c) || IsAsciiDigit(c)
  }

  /** A variable name starts with a letter. */
  predicate IsValidStartVarChar(c: char)
  {
    IsAlphabetic(c)
  }

  predicate NotNewline(c: char)
  {
    c != '\n'
  }

  predicate NotSemicolon(c: char)
  {
    c != ';'
  }

  predicate AnyChar(c: char)
  {
    true
  }

  /**
   * `s` starts with a character that begins neither whitespace, a comment nor
   * a name: outside every block, such a character starts an error.
   */
  predicate StrayAtTop(s: string)
  {
    s != [] && !IsWhitespace(s[0]) && !("--" <= s) && !IsValidStartVarChar(s[0])
  }

  /** A class of continuation characters that admits every start character. */
  ghost predicate ContinuesStart(isVarChar: char -> bool)
  {
    forall c :: IsValidStartVarChar(c) ==> isVarChar(c)
  }

  // ------------------------------------------------------------------- scanning

  /** The length of the longest prefix of `s` whose characters satisfy `f`. */
  function TakeWhileLen(s: string, f: char -> bool): (n: nat)
    ensures n <= |s|
    ensures forall i :: 0 <= i < n ==> f(s[i])
    ensures n < |s| ==> !f(s[n])
  {
    if s == [] || !f(s[0]) then 0 else 1 + TakeWhileLen(s[1..], f)
  }

  /** A prefix that satisfies `f` and cannot be extended is the longest one. */
  lemma {:induction false} TakeWhileLenUnique(s: string, f: char -> bool, n: nat)
    requires n <= |s|
    requires forall i :: 0 <= i < n ==> f(s[i])
    requires n == |s| || !f(s[n])
    ensures TakeWhileLen(s, f) == n
  {
    if n > 0 {
      assert f(s[0]);
      assert forall i :: 0 <= i < n - 1 ==> f(s[1..][i]) by {
        forall i | 0 <= i < n - 1
          ensures f(s[1..][i])
        {
          assert s[1..][i] == s[i + 1];
        }
      }
      TakeWhileLenUnique(s[1..], f, n - 1);
    }
  }

  /**
   * The variable name at the start of `s`: a start character followed by as
   * many continuation characters as there are.
   */
  function VarAt(s: string, isVarChar: char -> bool): (v: Option<string>)
    requires ContinuesStart(isVarChar)
    ensures v.Some? <==> s != [] && IsValidStartVarChar(s[0])
    ensures v.Some? ==> 0 < |v.value| <= |s| && v.value == s[..|v.value|]
    ensures v.Some? ==> forall i :: 0 <= i < |v.value| ==> isVarChar(v.value[i])
    ensures v.Some? && |v.value| < |s| ==> !isVarChar(s[|v.value|])
  {
    if s == [] || !IsValidStartVarChar(s[0]) then None
    else Some(s[..TakeWhileLen(s, isVarChar)])
  }

  /**
   * How much an error skips: up to the next newline, or everything that is
   * left when a newline comes first.
   */
  function ErrLen(s: string): (n: nat)
    ensures n <= |s|
    ensures s != [] ==> n > 0
    ensures n < |s| ==> s[n] == '\n'
    ensures s != [] && s[0] != '\n' ==> forall i :: 0 <= i < n ==> s[i] != '\n'
    ensures s != [] && s[0] == '\n' ==> n == |s|
  {
    var n := TakeWhileLen(s, NotNewline);
    if n > 0 then n else |s|
  }

  /**
   * How far a `Semantics` statement reaches after its keyword: to its `;`,
   * and on from there over the error the `;` starts outside every block.
   */
  function StatementLen(s: string): (n: nat)
    requires ';' in s
    ensures 0 < n <= |s| && ';' in s[..n]
  {
    var k := TakeWhileLen(s, NotSemicolon);
    assert s[k] == ';';
    k + ErrLen(s[k..])
  }

  /**
   * A run of characters other than `;` stops at the end of `s` exactly when
   * there is no `;`; otherwise at a `;`, which starts an error outside every
   * block, and that error ends the statement.
   */
  lemma SemicolonRun(s: string)
    ensures var k := TakeWhileLen(s, NotSemicolon);
            && (k == |s| <==> ';' !in s)
            && (k < |s| ==> ';' in s && StrayAtTop(s[k..]) && StatementLen(s) == k + ErrLen(s[k..]))
  {
  }

  /** `s` with every whitespace character removed. */
  function RemoveWhitespace(s: string): (r: string)
    ensures forall i :: 0 <= i < |r| ==> !IsWhitespace(r[i])
    ensures |r| <= |s|
  {
    if s == [] then []
    else if IsWhitespace(s[0]) then RemoveWhitespace(s[1..])
    else [s[0]] + RemoveWhitespace(s[1..])
  }

  /** Whitespace between the pieces of a text does not matter after removal. */
  lemma {:induction false} RemoveWhitespaceAppend(a: string, b: string)
    ensures RemoveWhitespace(a + b) == RemoveWhitespace(a) + RemoveWhitespace(b)
  {
    if a != [] {
      assert (a + b)[1..] == a[1..] + b;
      RemoveWhitespaceAppend(a[1..], b);
    } else {
      assert a + b == b;
    }
  }

  /** A text without whitespace is its own whitespace-free form. */
  lemma {:induction false} RemoveWhitespaceNone(s: string)
    requires forall i :: 0 <= i < |s| ==> !IsWhitespace(s[i])
    ensures RemoveWhitespace(s) == s
  {
    if s != [] {
      RemoveWhitespaceNone(s[1..]);
    }
  }

  /**
   * The cursor over the input. It only moves forward, and the text between
   * two of its positions is a token.
   */
  class State {
    const input: string
    var offset: nat

    ghost predicate Valid()
      reads this
    {
      offset <= |input|
    }

    constructor (input: string)
      ensures this.input == input && offset == 0 && Valid()
    {
      this.input := input;
      offset := 0;
    }

    function Remaining(): (s: string)
      reads this
      requires Valid()
      ensures |s| == |input| - offset
    {
      input[offset..]
    }

    /** The next character, if any; the cursor does not move. */
    function Peek(): (c: Option<char>)
      reads this
      requires Valid()
      ensures c.Some? <==> Remaining() != []
      ensures c.Some? ==> c.value == Remaining()[0]
    {
      if offset < |input| then Some(input[offset]) else None
    }

    /** The first character ahead that is not whitespace. */
    function PeekChar(): (c: Option<char>)
      reads this
      requires Valid()
      ensures c.None? <==> forall i :: offset <= i < |input| ==> IsWhitespace(input[i])
      ensures c.Some? ==> !IsWhitespace(c.value)
      ensures c.Some? ==> exists i :: offset <= i < |input| && input[i] == c.value
                                      && forall j :: offset <= j < i ==> IsWhitespace(input[j])
    {
      var n := TakeWhileLen(Remaining(), IsWhitespace);
      assert forall j :: offset <= j < offset + n ==> input[j] == Remaining()[j - offset];
      if n < |Remaining()| then
        assert input[offset + n] == Remaining()[n];
        Some(Remaining()[n])
      else
        None
    }

    /** Meant to look two characters ahead, it returns the next one twice. */
    function Peek2(): (p: (Option<char>, Option<char>))
      reads this
      requires Valid()
      ensures p.0 == Peek() && p.1 == Peek()
    {
      (Peek(), Peek())
    }

    /** The next two characters, which is what `Peek2` was evidently meant to return. */
    function PeekTwo(): (p: (Option<char>, Option<char>))
      reads this
      requires Valid()
      ensures p.0.Some? <==> offset < |input|
      ensures p.1.Some? <==> offset + 1 < |input|
      ensures p.1.Some? ==> input[offset..offset + 2] == [p.0.value, p.1.value]
    {
      (Peek(), if offset + 1 < |input| then Some(input[offset + 1]) else None)
    }

    /** Steps over one character and returns it. */
    method Next() returns (c: Option<char>)
      requires Valid()
      modifies this
      ensures Valid()
      ensures c == old(Peek())
      ensures offset == old(offset) + (if c.Some? then 1 else 0)
    {
      c := Peek();
      if c.Some? {
        offset := offset + 1;
      }
    }

    /** Steps over `s` when the input continues with it. */
    method StartsWithBump(s: string) returns (b: bool)
      requires Valid()
      modifies this
      ensures Valid()
      ensures b <==> s <= old(Remaining())
      ensures offset == old(offset) + (if b then |s| else 0)
    {
      b := s <= Remaining();
      if b {
        offset := offset + |s|;
      }
    }

    /** The text from the earlier position `past` to the cursor. */
    function StrSince(past: nat): (s: string)
      reads this
      requires Valid() && past <= offset
      ensures |s| == offset - past
    {
      input[past..offset]
    }

    /** Steps over the longest run ahead whose characters satisfy `f`. */
    method ConsumeWhile(f: char -> bool) returns (len: nat)
      requires Valid()
      modifies this
      ensures Valid()
      ensures len == TakeWhileLen(old(Remaining()), f)
      ensures offset == old(offset) + len
    {
      ghost var rest := Remaining();
      len := 0;
      while offset < |input| && f(input[offset])
        invariant old(offset) + len == offset <= |input|
        invariant forall i :: 0 <= i < len ==> f(rest[i])
        decreases |input| - offset
      {
        assert rest[len] == input[offset];
        offset := offset + 1;
        len := len + 1;
      }
      assert len < |rest| ==> rest[len] == input[offset];
      TakeWhileLenUnique(rest, f, len);
    }

    /** Steps over the variable name ahead, if there is one. */
    method ConsumeVar(isVarChar: char -> bool) returns (name: Option<string>)
      requires Valid() && ContinuesStart(isVarChar)
      modifies this
      ensures Valid()
      ensures name == VarAt(old(Remaining()), isVarChar)
      ensures offset == old(offset) + (if name.Some? then |name.value| else 0)
      ensures name.Some? ==> name.value == input[old(offset)..offset]
    {
      if offset == |input| || !IsValidStartVarChar(input[offset]) {
        return None;
      }
      var start := offset;
      ghost var rest := Remaining();
      var len := ConsumeWhile(isVarChar);
      name := Some(input[start..start + len]);
      assert rest[..len] == input[start..start + len];
    }

    /** Steps over the rest of a line that could not be lexed. */
    method ConsumeErr()
      requires Valid()
      modifies this
      ensures Valid()
      ensures offset == old(offset) + ErrLen(old(Remaining()))
    {
      var consumed := ConsumeWhile(NotNewline);
      if consumed == 0 {
        var rest := ConsumeWhile(AnyChar);
        TakeWhileLenUnique(old(Remaining()), AnyChar, |old(Remaining())|);
      }
    }
  }

  /**
   * Where the input continues with `->`, `Peek2` does not see the arrow and
   * `PeekTwo` does.
   */
  lemma Peek2MissesArrow(s: State)
    requires s.Valid() && s.offset + 2 <= |s.input| && s.input[s.offset..s.offset + 2] == "->"
    ensures s.Peek2() != (Some('-'), Some('>'))
    ensures s.PeekTwo() == (Some('-'), Some('>'))
  {
    assert s.input[s.offset] == "->"[0];
    assert s.input[s.offset + 1] == "->"[1];
  }

  // -------------------------------------------------------------------- context

  /**
   * What the tokenizer is inside of. The names of outer and inner blocks are
   * kept to check the name after their `end`.
   */
  datatype Context =
    | AgentDef
    | AgentBlock
    | OuterBlock(name: string)
    | InnerBlock(name: string)
    | InnerBlockAssign
    | InnerBlockBegin
    | BlockEnded
    | EnumDef
    | GroupDef
    | SetDef
    | GroupExpr
  {
    /** A block an `end` can close. */
    predicate IsBlock()
    {
      AgentBlock? || OuterBlock? || InnerBlock?
    }

    /** What opens a top-level declaration. */
    predicate IsOuter()
    {
      AgentDef? || AgentBlock? || OuterBlock?
    }
  }

  /** The name that must follow the `end` of a block. */
  function ClosingName(c: Context): string
    requires c.IsBlock()
  {
    if c.AgentBlock? then "Agent" else c.name
  }

  /**
   * The shape of every context stack the tokenizers build: the bottom entry
   * and only it opens a top-level declaration; an agent definition or an
   * ended block can only be on top; an ended block sits on a block and an
   * inner block's pending `:` on that inner block.
   */
  ghost predicate WellNested(ctx: seq<Context>)
  {
    && (forall i :: 0 <= i < |ctx| ==> (ctx[i].IsOuter() <==> i == 0))
    && (forall i :: 0 <= i < |ctx| - 1 ==> !ctx[i].AgentDef? && !ctx[i].BlockEnded?)
    && (forall i :: 0 < i < |ctx| && ctx[i].BlockEnded? ==> ctx[i - 1].IsBlock())
    && (forall i :: 0 < i < |ctx| && ctx[i].InnerBlockBegin? ==> ctx[i - 1].InnerBlock?)
  }

  /** When `c` may be pushed onto `ctx` without breaking its shape. */
  predicate CanPush(ctx: seq<Context>, c: Context)
  {
    if c.IsOuter() then ctx == []
    else
      && ctx != []
      && !ctx[|ctx| - 1].AgentDef? && !ctx[|ctx| - 1].BlockEnded?
      && (c.BlockEnded? ==> ctx[|ctx| - 1].IsBlock())
      && (c.InnerBlockBegin? ==> ctx[|ctx| - 1].InnerBlock?)
  }

  lemma PushNested(ctx: seq<Context>, c: Context)
    requires WellNested(ctx) && CanPush(ctx, c)
    ensures WellNested(ctx + [c])
  {
    var s := ctx + [c];
    assert forall i :: 0 <= i < |ctx| ==> s[i] == ctx[i];
  }

  lemma PopNested(ctx: seq<Context>)
    requires WellNested(ctx) && ctx != []
    ensures WellNested(ctx[..|ctx| - 1])
  {
    var s := ctx[..|ctx| - 1];
    assert forall i :: 0 <= i < |s| ==> s[i] == ctx[i];
  }

  /**
   * An agent definition is only ever the whole stack, and an ended block
   * always has the block it ends right below it.
   */
  lemma NestedTop(ctx: seq<Context>)
    requires WellNested(ctx) && ctx != []
    ensures ctx[|ctx| - 1].AgentDef? ==> ctx == [AgentDef]
    ensures ctx[|ctx| - 1].BlockEnded? ==> |ctx| >= 2 && ctx[|ctx| - 2].IsBlock()
  {
    if ctx[|ctx| - 1].AgentDef? {
      assert ctx[|ctx| - 1].IsOuter();
    }
    if ctx[|ctx| - 1].BlockEnded? {
      assert !ctx[|ctx| - 1].IsOuter();
    }
  }
}
