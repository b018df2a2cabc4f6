/**
 * Both text passes that turn a commented devcontainer document into JSON: comments become blanks, then
 * trailing commas go. Models `parseJsonc` of packages/cli/src/devcontainer.ts up to `JSON.parse`.
 */
module Jsonc {

  /** Inside a string literal, and behind a backslash in it. */
  datatype Flags = Flags(quote: bool, escape: bool)
  datatype Context = Code | LineComment | BlockComment

  const OUTSIDE := Flags(false, false)

  function NextFlags(f: Flags, c: char): Flags {
    if f.quote then
      if f.escape then Flags(true, false)
      else if c == '\\' then Flags(true, true)
      else Flags(c != '"', false)
    else Flags(c == '"', false)
  }

  predicate Starts(s: string, first: char, second: char) {
    |s| > 1 && s[0] == first && s[1] == second
  }

  function Blank(c: char): char {
    if c == '\n' then '\n' else ' '
  }

  // ----- the comment pass -----

  /** Every comment character but newlines becomes a space. */
  function Strip(s: string, context: Context, f: Flags): (r: string)
    decreases |s|
  {
    if s == "" then ""
    else
      match context
      case LineComment => [Blank(s[0])] + Strip(s[1..], if s[0] == '\n' then Code else LineComment, f)
      case BlockComment =>
        if Starts(s, '*', '/') then "  " + Strip(s[2..], Code, f) else [Blank(s[0])] + Strip(s[1..], BlockComment, f)
      case Code =>
        if !f.quote && Starts(s, '/', '/') then "  " + Strip(s[2..], LineComment, f)
        else if !f.quote && Starts(s, '/', '*') then "  " + Strip(s[2..], BlockComment, f)
        else [s[0]] + Strip(s[1..], Code, NextFlags(f, s[0]))
  }

  /** Equally long, newlines in the same places, and every character kept or blanked. */
  predicate SameLayout(s: string, r: string) {
    |r| == |s| && forall i :: 0 <= i < |s| ==> (r[i] == '\n' <==> s[i] == '\n') && (r[i] == s[i] || r[i] == ' ')
  }

  lemma LayoutOne(s: string, d: char, r: string)
    requires s != "" && SameLayout(s[1..], r) && (d == s[0] || d == Blank(s[0]))
    ensures SameLayout(s, [d] + r)
  {
    forall i | 0 <= i < |s|
      ensures (([d] + r)[i] == '\n' <==> s[i] == '\n') && (([d] + r)[i] == s[i] || ([d] + r)[i] == ' ')
    {
      assert i > 0 ==> ([d] + r)[i] == r[i - 1] && s[i] == s[1..][i - 1];
    }
  }

  lemma LayoutTwo(s: string, r: string)
    requires |s| > 1 && s[0] != '\n' && s[1] != '\n' && SameLayout(s[2..], r)
    ensures SameLayout(s, "  " + r)
  {
    forall i | 0 <= i < |s|
      ensures (("  " + r)[i] == '\n' <==> s[i] == '\n') && (("  " + r)[i] == s[i] || ("  " + r)[i] == ' ')
    {
      assert i > 1 ==> ("  " + r)[i] == r[i - 2] && s[i] == s[2..][i - 2];
    }
  }

  /** Length and every newline position are preserved, and a character is kept or blanked. */
  lemma {:induction false} StripPreservesLayout(s: string, context: Context, f: Flags)
    ensures SameLayout(s, Strip(s, context, f))
    decreases |s|
  {
    hide SameLayout, Strip;
    if s == "" {
      NothingLeft(context, f);
      EmptyLayout();
    } else {
      Turn(s, context, f);
      if (context == BlockComment && Starts(s, '*', '/'))
         || (context == Code && !f.quote && (Starts(s, '/', '/') || Starts(s, '/', '*'))) {
        var inner := if context == BlockComment then Code
                     else if Starts(s, '/', '/') then LineComment
                     else BlockComment;
        StripPreservesLayout(s[2..], inner, f);
        LayoutTwo(s, Strip(s[2..], inner, f));
      } else {
        var next := if context == LineComment && s[0] == '\n' then Code else context;
        var flags := if context == Code then NextFlags(f, s[0]) else f;
        StripPreservesLayout(s[1..], next, flags);
        LayoutOne(s, if context == Code then s[0] else Blank(s[0]), Strip(s[1..], next, flags));
      }
    }
  }

  lemma EmptyLayout()
    ensures SameLayout("", "")
  {
  }

  /** No comment starts where none did: a slash outside strings is not followed by a slash or a star. */
  lemma {:induction false} StripLeavesNoStart(s: string, context: Context, f: Flags)
    requires !f.quote
    ensures var r := Strip(s, context, f); !Starts(r, '/', '/') && !Starts(r, '/', '*')
    decreases |s|
  {
    if |s| > 1 && context == Code && !Starts(s, '/', '/') && !Starts(s, '/', '*') {
      StripPreservesLayout(s[1..], Code, NextFlags(f, s[0]));
    }
  }

  lemma Blanks(text: string, f: Flags)
    requires !f.quote
    ensures Strip(" " + text, Code, f) == " " + Strip(text, Code, OUTSIDE)
    ensures Strip("\n" + text, Code, f) == "\n" + Strip(text, Code, OUTSIDE)
    ensures Strip("  " + text, Code, f) == "  " + Strip(text, Code, OUTSIDE)
  {
    assert (" " + text)[1..] == text && ("\n" + text)[1..] == text;
    assert ("  " + text)[1..] == " " + text && (" " + text)[1..] == text;
  }

  /** Stripping again changes nothing. */
  lemma {:induction false} StripIdempotent(s: string, context: Context, f: Flags)
    requires context == Code || f == OUTSIDE
    requires f.quote || f == OUTSIDE
    ensures Strip(Strip(s, context, f), Code, f) == Strip(s, context, f)
    decreases |s|
  {
    if s != "" {
      var r := Strip(s, context, f);
      if context == BlockComment && Starts(s, '*', '/') {
        StripIdempotent(s[2..], Code, f);
        Blanks(Strip(s[2..], Code, f), f);
      } else if context == Code && !f.quote && (Starts(s, '/', '/') || Starts(s, '/', '*')) {
        var inner := if Starts(s, '/', '/') then LineComment else BlockComment;
        StripIdempotent(s[2..], inner, f);
        Blanks(Strip(s[2..], inner, f), f);
      } else if context == Code {
        StripIdempotent(s[1..], Code, NextFlags(f, s[0]));
        if !f.quote { StripLeavesNoStart(s, Code, f); }
        assert r[1..] == Strip(s[1..], Code, NextFlags(f, s[0]));
      } else {
        var next := if context == LineComment && s[0] == '\n' then Code else context;
        StripIdempotent(s[1..], next, f);
        Blanks(Strip(s[1..], next, f), f);
      }
    }
  }

  // ----- string literals -----

  /** Lexing by string literals alone: the complete ones, and the one under way. */
  datatype Lex = Lex(flags: Flags, literals: seq<string>, current: string)

  const START := Lex(OUTSIDE, [], "")

  function Step(l: Lex, c: char): Lex {
    var flags := NextFlags(l.flags, c);
    if l.flags.quote && !flags.quote then Lex(flags, l.literals + [l.current + [c]], "")
    else if l.flags.quote || flags.quote then Lex(flags, l.literals, l.current + [c])
    else l
  }

  /** The literals of a text without comments. */
  function Literals(l: Lex, s: string): Lex
    decreases |s|
  {
    if s == "" then l else Literals(Step(l, s[0]), s[1..])
  }

  /** The literals of a text with comments, in which quotes mean nothing. */
  function SourceLiterals(l: Lex, s: string, context: Context): Lex
    decreases |s|
  {
    if s == "" then l
    else
      match context
      case LineComment => SourceLiterals(l, s[1..], if s[0] == '\n' then Code else LineComment)
      case BlockComment =>
        if Starts(s, '*', '/') then SourceLiterals(l, s[2..], Code) else SourceLiterals(l, s[1..], BlockComment)
      case Code =>
        if !l.flags.quote && Starts(s, '/', '/') then SourceLiterals(l, s[2..], LineComment)
        else if !l.flags.quote && Starts(s, '/', '*') then SourceLiterals(l, s[2..], BlockComment)
        else SourceLiterals(Step(l, s[0]), s[1..], Code)
  }

  predicate Proper(l: Lex) {
    l.flags.quote || (l.flags == OUTSIDE && l.current == "")
  }

  lemma StepProper(l: Lex, c: char)
    requires Proper(l)
    ensures Proper(Step(l, c)) && Step(l, c).flags == NextFlags(l.flags, c)
    ensures !l.flags.quote && c != '"' ==> Step(l, c) == l
  {
  }

  lemma BlanksLiterals(l: Lex, text: string, c: char)
    requires Proper(l) && !l.flags.quote && c in {' ', '\n'}
    ensures Literals(l, [c] + text) == Literals(l, text)
    ensures Literals(l, "  " + text) == Literals(l, text)
  {
    assert ([c] + text)[1..] == text && ("  " + text)[1..] == " " + text && (" " + text)[1..] == text;
  }

  /** Blanking comments leaves every string literal of the source as it was, and adds none. */
  lemma {:induction false} StripKeepsLiterals(l: Lex, s: string, context: Context)
    requires Proper(l) && (context == Code || !l.flags.quote)
    ensures Literals(l, Strip(s, context, l.flags)) == SourceLiterals(l, s, context)
    decreases |s|
  {
    if s != "" {
      if context == BlockComment && Starts(s, '*', '/') {
        StripKeepsLiterals(l, s[2..], Code);
        BlanksLiterals(l, Strip(s[2..], Code, l.flags), ' ');
      } else if context == Code && !l.flags.quote && (Starts(s, '/', '/') || Starts(s, '/', '*')) {
        var inner := if Starts(s, '/', '/') then LineComment else BlockComment;
        StripKeepsLiterals(l, s[2..], inner);
        BlanksLiterals(l, Strip(s[2..], inner, l.flags), ' ');
      } else if context == Code {
        StepProper(l, s[0]);
        StripKeepsLiterals(Step(l, s[0]), s[1..], Code);
        var r := Strip(s, Code, l.flags);
        assert r[0] == s[0] && r[1..] == Strip(s[1..], Code, NextFlags(l.flags, s[0]));
      } else {
        var next := if context == LineComment && s[0] == '\n' then Code else context;
        StripKeepsLiterals(l, s[1..], next);
        BlanksLiterals(l, Strip(s[1..], next, l.flags), Blank(s[0]));
      }
    }
  }

  // ----- the comma pass -----

  /** `\s` of a unicode regular expression. */
  predicate Space(c: char) {
    || '\t' <= c <= '\r' || c == ' ' || c == '\U{A0}' || c == '\U{1680}' || '\U{2000}' <= c <= '\U{200A}'
    || c in {'\U{2028}', '\U{2029}', '\U{202F}', '\U{205F}', '\U{3000}', '\U{FEFF}'}
  }

  /** The first non-blank character at or behind `i` closes an object or array. */
  predicate Closes(s: string, i: nat)
    requires i <= |s|
    decreases |s| - i
  {
    i < |s| && if Space(s[i]) then Closes(s, i + 1) else s[i] in {'}', ']'}
  }

  /** The flags in front of position `n`. */
  function FlagsAt(s: string, n: nat): Flags
    requires n <= |s|
  {
    if n == 0 then OUTSIDE else NextFlags(FlagsAt(s, n - 1), s[n - 1])
  }

  /** A comma outside strings whose next non-blank character closes. */
  predicate Trailing(s: string, i: nat)
    requires i < |s|
  {
    s[i] == ',' && !FlagsAt(s, i).quote && Closes(s, i + 1)
  }

  /** The first `n` characters without trailing commas. */
  function Kept(s: string, n: nat): string
    requires n <= |s|
  {
    if n == 0 then "" else Kept(s, n - 1) + if Trailing(s, n - 1) then "" else [s[n - 1]]
  }

  function LiteralsBefore(s: string, n: nat): Lex
    requires n <= |s|
  {
    if n == 0 then START else Step(LiteralsBefore(s, n - 1), s[n - 1])
  }

  lemma {:induction false} LiteralsAppend(l: Lex, s: string, c: char)
    ensures Literals(l, s + [c]) == Step(Literals(l, s), c)
    decreases |s|
  {
    if s == "" {
      assert s + [c] == [c];
    } else {
      LiteralsAppend(Step(l, s[0]), s[1..], c);
      assert (s + [c])[1..] == s[1..] + [c];
    }
  }

  lemma {:induction false} LiteralsOfPrefix(s: string, n: nat)
    requires n <= |s|
    ensures Literals(START, s[..n]) == LiteralsBefore(s, n)
    ensures Proper(LiteralsBefore(s, n)) && LiteralsBefore(s, n).flags == FlagsAt(s, n)
  {
    if n > 0 {
      LiteralsOfPrefix(s, n - 1);
      LiteralsAppend(START, s[..n - 1], s[n - 1]);
      assert s[..n] == s[..n - 1] + [s[n - 1]];
    }
  }

  /** Dropping trailing commas leaves every string literal as it was. */
  lemma {:induction false} KeptKeepsLiterals(s: string, n: nat)
    requires n <= |s|
    ensures Literals(START, Kept(s, n)) == LiteralsBefore(s, n)
  {
    if n > 0 {
      var before, c := Kept(s, n - 1), s[n - 1];
      KeptKeepsLiterals(s, n - 1);
      LiteralsOfPrefix(s, n - 1);
      assert Kept(s, n) == if Trailing(s, n - 1) then before else before + [c];
      hide Kept, Literals, Closes;
      if Trailing(s, n - 1) {
        StepProper(LiteralsBefore(s, n - 1), c);
      } else {
        LiteralsAppend(START, before, c);
      }
    }
  }

  // ----- the passes as they run -----

  function ContextOf(line: bool, block: bool): Context {
    if line then LineComment else if block then BlockComment else Code
  }

  /** One turn of the comment pass: what it emits, and where it goes on. */
  lemma Turn(s: string, context: Context, f: Flags)
    requires s != ""
    ensures context == LineComment ==>
              Strip(s, context, f) == [Blank(s[0])] + Strip(s[1..], if s[0] == '\n' then Code else LineComment, f)
    ensures context == BlockComment ==>
              Strip(s, context, f) == if Starts(s, '*', '/') then "  " + Strip(s[2..], Code, f)
                                      else [Blank(s[0])] + Strip(s[1..], BlockComment, f)
    ensures context == Code && !f.quote && Starts(s, '/', '/') ==>
              Strip(s, context, f) == "  " + Strip(s[2..], LineComment, f)
    ensures context == Code && !f.quote && Starts(s, '/', '*') ==>
              Strip(s, context, f) == "  " + Strip(s[2..], BlockComment, f)
    ensures context == Code && (f.quote || !(Starts(s, '/', '/') || Starts(s, '/', '*'))) ==>
              Strip(s, context, f) == [s[0]] + Strip(s[1..], Code, NextFlags(f, s[0]))
  {
  }

  method StripComments(source: string) returns (output: string)
    ensures output == Strip(source, Code, OUTSIDE)
  {
    hide Strip;
    output := "";
    var quote, escape, line, block := false, false, false, false;
    var index := 0;
    assert source[0..] == source;
    while index < |source|
      invariant index <= |source| && !(line && block) && ((line || block) ==> !quote) && (!quote ==> !escape)
      invariant output + Strip(source[index..], ContextOf(line, block), Flags(quote, escape))
                  == Strip(source, Code, OUTSIDE)
    {
      ghost var rest := source[index..];
      var c := source[index];
      var next := if index + 1 < |source| then source[index + 1] else '\0';
      Turn(rest, ContextOf(line, block), Flags(quote, escape));
      assert rest[0] == c && rest[1..] == source[index + 1..];
      assert |rest| > 1 ==> rest[1] == next && rest[2..] == source[index + 2..];
      ghost var before := output;
      var emitted := [c];
      if line {
        if c == '\n' { line := false; }
        emitted := [Blank(c)];
      } else if block {
        if c == '*' && next == '/' {
          block := false;
          emitted := "  ";
          index := index + 1;
        } else {
          emitted := [Blank(c)];
        }
      } else if !quote && c == '/' && next == '/' {
        line := true;
        emitted := "  ";
        index := index + 1;
      } else if !quote && c == '/' && next == '*' {
        block := true;
        emitted := "  ";
        index := index + 1;
      } else if quote {
        if escape { escape := false; } else if c == '\\' { escape := true; } else if c == '"' { quote := false; }
      } else if c == '"' {
        quote := true;
      }
      index := index + 1;
      output := output + emitted;
      Associates(before, emitted, Strip(source[index..], ContextOf(line, block), Flags(quote, escape)));
    }
    assert source[index..] == "" && Strip("", ContextOf(line, block), Flags(quote, escape)) == "" by {
      NothingLeft(ContextOf(line, block), Flags(quote, escape));
    }
  }

  lemma Associates(a: string, b: string, c: string)
    ensures (a + b) + c == a + (b + c)
  {
  }

  lemma NothingLeft(context: Context, f: Flags)
    ensures Strip("", context, f) == ""
  {
  }

  method DropTrailingCommas(output: string) returns (normalized: string)
    ensures normalized == Kept(output, |output|)
  {
    normalized := "";
    var quote, escape := false, false;
    var index := 0;
    while index < |output|
      invariant index <= |output| && normalized == Kept(output, index)
      invariant Flags(quote, escape) == FlagsAt(output, index) && (!quote ==> !escape)
    {
      var c := output[index];
      var dropped := false;
      if quote {
        if escape { escape := false; } else if c == '\\' { escape := true; } else if c == '"' { quote := false; }
      } else if c == '"' {
        quote := true;
      } else if c == ',' {
        var next := index + 1;
        while next < |output| && Space(output[next])
          invariant index < next <= |output| && Closes(output, index + 1) == Closes(output, next)
        {
          next := next + 1;
        }
        dropped := next < |output| && output[next] in {'}', ']'};
      }
      if !dropped { normalized := normalized + [c]; }
      index := index + 1;
    }
  }

  /** parseJsonc up to the JSON parser: the string literals of the source, and no others, in order. */
  method ParseJsonc(source: string) returns (normalized: string)
    ensures var stripped := Strip(source, Code, OUTSIDE); normalized == Kept(stripped, |stripped|)
    ensures Literals(START, normalized) == SourceLiterals(START, source, Code)
  {
    var output := StripComments(source);
    StripPreservesLayout(source, Code, OUTSIDE);
    normalized := DropTrailingCommas(output);
    StripKeepsLiterals(START, source, Code);
    KeptKeepsLiterals(output, |output|);
    LiteralsOfPrefix(output, |output|);
    assert output[..|output|] == output;
  }
}
