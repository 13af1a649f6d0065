// The scanner of src/scanner.c: what its tokens are, and the state machine that finds them.

module Lexemes {
  import opened Wrappers

  // One char stands for one source byte.  The source ends with a NUL, and may hold others.
  predicate Terminated(s: seq<char>) {
    s != [] && s[|s| - 1] == '\0'
  }

  datatype Mode = ContentMode | ExpressionMode

  datatype Kind =
    | Eof | Newline | Whitespace | Error
    | Tilde | Colon | DoubleQuote | Plus | Star | Comma | Percent | Question | Pipe | Dot
    | LeftParen | RightParen | LeftBracket | RightBracket | LeftBrace | RightBrace
    | Bang | BangEqual | Equal | EqualEqual | Minus | RightArrow | Slash
    | Less | LessEqual | LeftArrow | Glue | Greater | GreaterEqual
    | Text | Identifier | Integer | Floating
    | OrWord | AndWord | ModWord | NotWord | RefWord | VarWord | ElseWord | TempWord | TrueWord | ListWord
    | FalseWord | ConstWord | ReturnWord | FunctionWord

  datatype Token = Token(kind: Kind, start: nat, end: nat)

  predicate IsAlpha(c: char) { 'a' <= c <= 'z' || 'A' <= c <= 'Z' }
  predicate IsDigit(c: char) { '0' <= c <= '9' }
  predicate IsWord(c: char) { IsAlpha(c) || IsDigit(c) || c == '_' }
  predicate IsBlank(c: char) { c == ' ' || c == '\t' }
  predicate IsPrintable(c: char) { ' ' <= c <= '~' }

  // The characters a run can consist of; no run contains a NUL.
  datatype Class = Blanks | Newlines | Words | Digits | Garbage | InLine | Anything

  predicate In(k: Class, c: char) {
    match k
    case Blanks => IsBlank(c)
    case Newlines => c == '\n'
    case Words => IsWord(c)
    case Digits => IsDigit(c)
    case Garbage => c != '\0' && !IsPrintable(c)
    case InLine => c != '\0' && c != '\n'
    case Anything => c != '\0'
  }

  // The end of the longest run of the class that starts at i.
  function RunEnd(s: seq<char>, i: nat, k: Class): (j: nat)
    requires i <= |s|
    ensures i <= j <= |s| && (forall n | i <= n < j :: In(k, s[n])) && (j < |s| ==> !In(k, s[j]))
    ensures Terminated(s) && i < |s| ==> j < |s|
    decreases |s| - i
  {
    if i < |s| && In(k, s[i]) then RunEnd(s, i + 1, k) else i
  }

  // Tokens of one character that no other token starts with.
  function Symbol(c: char): Option<Kind> {
    match c
    case '~' => Some(Tilde)
    case ':' => Some(Colon)
    case '"' => Some(DoubleQuote)
    case '+' => Some(Plus)
    case '*' => Some(Star)
    case ',' => Some(Comma)
    case '%' => Some(Percent)
    case '?' => Some(Question)
    case '|' => Some(Pipe)
    case '(' => Some(LeftParen)
    case ')' => Some(RightParen)
    case '.' => Some(Dot)
    case '[' => Some(LeftBracket)
    case ']' => Some(RightBracket)
    case '{' => Some(LeftBrace)
    case '}' => Some(RightBrace)
    case _ => None
  }

  // A token of two characters, if c and d make one.
  function Digraph(c: char, d: char, mode: Mode): Option<Kind> {
    if c == '-' && d == '>' then Some(RightArrow)
    else if c == '=' && d == '=' && mode.ExpressionMode? then Some(EqualEqual)
    else if c == '!' && d == '=' then Some(BangEqual)
    else if c == '<' && d == '=' then Some(LessEqual)
    else if c == '<' && d == '-' then Some(LeftArrow)
    else if c == '<' && d == '>' then Some(Glue)
    else if c == '>' && d == '=' then Some(GreaterEqual)
    else None
  }

  // The same character when it stands alone.
  function Monograph(c: char): Option<Kind> {
    match c
    case '-' => Some(Minus)
    case '=' => Some(Equal)
    case '!' => Some(Bang)
    case '<' => Some(Less)
    case '>' => Some(Greater)
    case '/' => Some(Slash)
    case _ => None
  }

  function Spelling(kind: Kind): Option<string> {
    match kind
    case OrWord => Some("or")
    case AndWord => Some("and")
    case ModWord => Some("mod")
    case NotWord => Some("not")
    case RefWord => Some("ref")
    case VarWord => Some("VAR")
    case ElseWord => Some("else")
    case TempWord => Some("temp")
    case TrueWord => Some("true")
    case ListWord => Some("LIST")
    case FalseWord => Some("false")
    case ConstWord => Some("CONST")
    case ReturnWord => Some("return")
    case FunctionWord => Some("function")
    case _ => None
  }

  // ----- comments -----

  // How many stars stand right before p, not counting any before lo.
  function Stars(s: seq<char>, lo: nat, p: nat): (n: nat)
    requires lo <= p <= |s|
    ensures n <= p - lo
  {
    if p > lo && s[p - 1] == '*' then 1 + Stars(s, lo, p - 1) else 0
  }

  // A slash ends the block comment whose text starts at lo when an odd number of stars stands before it.
  predicate Closes(s: seq<char>, lo: nat, p: nat)
    requires lo <= p < |s|
  {
    s[p] == '/' && Stars(s, lo, p) % 2 == 1
  }

  predicate Open(s: seq<char>, lo: nat, p: nat, e: nat)
    requires lo <= p && e <= |s|
  {
    forall n | p <= n < e :: !Closes(s, lo, n)
  }

  // The end of that comment, looking from p on; None if a NUL comes first.
  function CommentEnd(s: seq<char>, lo: nat, p: nat): (e: Option<nat>)
    requires lo <= p <= |s|
    ensures e.Some? ==> p < e.value <= |s| && Closes(s, lo, e.value - 1)
    ensures e.Some? ==> Open(s, lo, p, e.value - 1) && forall n | p <= n < e.value - 1 :: s[n] != '\0'
    ensures e.None? ==> Open(s, lo, p, RunEnd(s, p, Anything))
    decreases |s| - p
  {
    if p == |s| || s[p] == '\0' then None
    else if Closes(s, lo, p) then Some(p + 1)
    else CommentEnd(s, lo, p + 1)
  }

  predicate At(s: seq<char>, i: nat, c: char) {
    i < |s| && s[i] == c
  }

  // ----- the token at a position, and where the next one starts -----

  function NumberAt(s: seq<char>, start: nat, i: nat): (t: Token)
    requires Terminated(s) && start <= i < |s|
  {
    var j := RunEnd(s, i, Digits);
    if s[j] == '.' then
      var k := RunEnd(s, j + 1, Digits);
      Token(if k == j + 1 then Error else Floating, start, k)
    else if IsWord(s[j]) then
      WordAt(s, start, j)
    else Token(Integer, start, j)
  }

  // A word is a keyword when it is spelled like one.
  function WordAt(s: seq<char>, start: nat, i: nat): (t: Token)
    requires Terminated(s) && start <= i < |s|
  {
    var e := RunEnd(s, i, Words);
    Token(Keyword(Identifier, s[start..e]), start, e)
  }

  function Keyword(kind: Kind, word: string): Kind {
    match |word|
    case 2 => if word == "or" then OrWord else kind
    case 3 =>
      if word == "and" then AndWord
      else if word == "mod" then ModWord
      else if word == "not" then NotWord
      else if word == "ref" then RefWord
      else if word == "VAR" then VarWord
      else kind
    case 4 =>
      if word == "else" then ElseWord
      else if word == "temp" then TempWord
      else if word == "true" then TrueWord
      else if word == "LIST" then ListWord
      else kind
    case 5 => if word == "false" then FalseWord else if word == "CONST" then ConstWord else kind
    case 6 => if word == "return" then ReturnWord else kind
    case 8 => if word == "function" then FunctionWord else kind
    case _ => kind
  }

  // The token that starts at i, if nothing is to be skipped there.
  function TokenAt(s: seq<char>, i: nat, mode: Mode): (t: Token)
    requires Terminated(s) && i < |s|
  {
    var c := s[i];
    var d := if i + 1 < |s| then s[i + 1] else '\0';
    if c == '\0' then Token(Eof, i, i)
    else if c == '\n' then Token(Newline, i, RunEnd(s, i, Newlines))
    else if IsBlank(c) then Token(Whitespace, i, RunEnd(s, i, Blanks))
    else if Symbol(c).Some? then Token(Symbol(c).value, i, i + 1)
    else if c == '/' && d == '*' then Token(Error, i, RunEnd(s, i, Anything))
    else if Digraph(c, d, mode).Some? then Token(Digraph(c, d, mode).value, i, i + 2)
    else if Monograph(c).Some? then Token(Monograph(c).value, i, i + 1)
    else if mode.ExpressionMode? then
      if IsAlpha(c) then WordAt(s, i, i) else if IsDigit(c) then NumberAt(s, i, i) else Token(Error, i, i + 1)
    else if IsPrintable(c) then Token(Text, i, RunEnd(s, i + 1, Words))
    else Token(Error, i, RunEnd(s, i, Garbage))
  }

  // Skip what stands between tokens from i on.  At the start of a line, and in expressions, blanks go;
  // at the start of a line newlines go.
  function Skip(s: seq<char>, i: nat, mode: Mode, lineStart: bool): (j: nat)
    requires Terminated(s) && i < |s|
    ensures i <= j < |s|
    decreases |s| - i
  {
    if IsBlank(s[i]) && (lineStart || mode.ExpressionMode?) then Skip(s, RunEnd(s, i, Blanks), mode, lineStart)
    else if s[i] == '\n' && lineStart then Skip(s, RunEnd(s, i, Newlines), mode, false)
    else if s[i] == '/' && At(s, i + 1, '/') then
      var e := RunEnd(s, i + 2, InLine);
      if s[e] == '\n' then Skip(s, e + 1, mode, true) else Skip(s, e, mode, lineStart)
    else if s[i] == '/' && At(s, i + 1, '*') && CommentEnd(s, i + 2, i + 2).Some? then
      Skip(s, CommentEnd(s, i + 2, i + 2).value, mode, lineStart)
    else i
  }

  function Next(s: seq<char>, i: nat, mode: Mode, lineStart: bool): (t: Token)
    requires Terminated(s) && i < |s|
  {
    TokenAt(s, Skip(s, i, mode, lineStart), mode)
  }
}

// What every run of the scanner has in common, whatever grammar each token is read with.
module Tiling {
  import opened Wrappers
  import opened Lexemes

  // One piece of what may stand between tokens: blanks, newlines or a whole comment.
  ghost predicate Trivium(s: seq<char>, i: nat, j: nat)
    requires i < j <= |s|
  {
    || (forall n | i <= n < j :: IsBlank(s[n]))
    || (forall n | i <= n < j :: s[n] == '\n')
    || LineComment(s, i, j)
    || BlockComment(s, i, j)
  }

  // Two slashes and everything to the end of the line, with its newline if it has one.
  ghost predicate LineComment(s: seq<char>, i: nat, j: nat)
    requires i < j <= |s|
  {
    && i + 2 <= j && s[i] == '/' && s[i + 1] == '/'
    && (forall n | i + 2 <= n < j - 1 :: s[n] != '\n' && s[n] != '\0')
    && (if s[j - 1] == '\n' then i + 3 <= j else s[j - 1] != '\0' && At(s, j, '\0'))
  }

  // The first closing slash ends the comment.
  ghost predicate BlockComment(s: seq<char>, i: nat, j: nat)
    requires i < j <= |s|
  {
    && i + 4 <= j && s[i] == '/' && s[i + 1] == '*' && Closes(s, i + 2, j - 1)
    && Open(s, i + 2, i + 2, j - 1) && forall n | i + 2 <= n < j - 1 :: s[n] != '\0'
  }

  ghost predicate Trivia(s: seq<char>, i: nat, j: nat)
    requires i <= j <= |s|
    decreases j - i
  {
    i == j || exists k :: i < k <= j && Trivium(s, i, k) && Trivia(s, k, j)
  }

  lemma TriviaCons(s: seq<char>, i: nat, k: nat, j: nat)
    requires i < k <= j <= |s| && Trivium(s, i, k) && Trivia(s, k, j)
    ensures Trivia(s, i, j)
  {
  }

  lemma {:induction false} GapIsTrivia(s: seq<char>, i: nat, mode: Mode, lineStart: bool)
    requires Terminated(s) && i < |s|
    ensures Trivia(s, i, Skip(s, i, mode, lineStart))
    decreases |s| - i
  {
    hide Trivia, Trivium, CommentEnd;
    var j := Skip(s, i, mode, lineStart);
    if IsBlank(s[i]) && (lineStart || mode.ExpressionMode?) {
      var k := RunEnd(s, i, Blanks);
      GapIsTrivia(s, k, mode, lineStart);
      RunIsTrivium(s, i, k);
      TriviaCons(s, i, k, j);
    } else if s[i] == '\n' && lineStart {
      var k := RunEnd(s, i, Newlines);
      GapIsTrivia(s, k, mode, false);
      RunIsTrivium(s, i, k);
      TriviaCons(s, i, k, j);
    } else if s[i] == '/' && At(s, i + 1, '/') {
      var e := RunEnd(s, i + 2, InLine);
      var k := if s[e] == '\n' then e + 1 else e;
      GapIsTrivia(s, k, mode, if s[e] == '\n' then true else lineStart);
      LineIsTrivium(s, i);
      TriviaCons(s, i, k, j);
    } else if s[i] == '/' && At(s, i + 1, '*') && CommentEnd(s, i + 2, i + 2).Some? {
      var k := CommentEnd(s, i + 2, i + 2).value;
      GapIsTrivia(s, k, mode, lineStart);
      BlockIsTrivium(s, i);
      TriviaCons(s, i, k, j);
    } else {
      NoTrivia(s, i);
    }
  }

  lemma NoTrivia(s: seq<char>, i: nat)
    requires i <= |s|
    ensures Trivia(s, i, i)
  {
  }

  lemma RunIsTrivium(s: seq<char>, i: nat, k: nat)
    requires i < k <= |s| && ((forall n | i <= n < k :: IsBlank(s[n])) || forall n | i <= n < k :: s[n] == '\n')
    ensures Trivium(s, i, k)
  {
  }

  lemma LineIsTrivium(s: seq<char>, i: nat)
    requires Terminated(s) && i < |s| && s[i] == '/' && At(s, i + 1, '/')
    ensures var e := RunEnd(s, i + 2, InLine); Trivium(s, i, if s[e] == '\n' then e + 1 else e)
  {
    var e := RunEnd(s, i + 2, InLine);
    assert LineComment(s, i, if s[e] == '\n' then e + 1 else e);
  }

  lemma BlockIsTrivium(s: seq<char>, i: nat)
    requires Terminated(s) && i < |s| && s[i] == '/' && At(s, i + 1, '*') && CommentEnd(s, i + 2, i + 2).Some?
    ensures Trivium(s, i, CommentEnd(s, i + 2, i + 2).value)
  {
    assert BlockComment(s, i, CommentEnd(s, i + 2, i + 2).value);
  }

  ghost predicate Whole(s: seq<char>, j: nat, mode: Mode)
    requires j < |s|
  {
    && (mode.ExpressionMode? ==> !IsBlank(s[j]))
    && (s[j] == '/' ==> !At(s, j + 1, '/'))
    && (s[j] == '/' && At(s, j + 1, '*') ==> Open(s, j + 2, j + 2, RunEnd(s, j + 2, Anything)))
  }

  // The gap is as long as it can be: no skippable piece is left where the token starts.
  lemma {:induction false} GapIsWhole(s: seq<char>, i: nat, mode: Mode, lineStart: bool)
    requires Terminated(s) && i < |s|
    ensures Whole(s, Skip(s, i, mode, lineStart), mode)
    decreases |s| - i
  {
    if IsBlank(s[i]) && (lineStart || mode.ExpressionMode?) {
      GapIsWhole(s, RunEnd(s, i, Blanks), mode, lineStart);
    } else if s[i] == '\n' && lineStart {
      GapIsWhole(s, RunEnd(s, i, Newlines), mode, false);
    } else if s[i] == '/' && At(s, i + 1, '/') {
      var e := RunEnd(s, i + 2, InLine);
      if s[e] == '\n' {
        GapIsWhole(s, e + 1, mode, true);
      } else {
        GapIsWhole(s, e, mode, lineStart);
      }
    } else if s[i] == '/' && At(s, i + 1, '*') && CommentEnd(s, i + 2, i + 2).Some? {
      GapIsWhole(s, CommentEnd(s, i + 2, i + 2).value, mode, lineStart);
    }
  }

  // No gap runs over a NUL.
  lemma {:induction false} GapHasNoNul(s: seq<char>, i: nat, j: nat)
    requires i <= j <= |s| && Trivia(s, i, j)
    ensures forall n | i <= n < j :: s[n] != '\0'
    decreases j - i
  {
    if i != j {
      var k :| i < k <= j && Trivium(s, i, k) && Trivia(s, k, j);
      GapHasNoNul(s, k, j);
    }
  }

  // Words are as long as they can be, and are keywords exactly when they are spelled like one.
  ghost predicate WellFormed(s: seq<char>, t: Token, mode: Mode)
    requires t.start <= t.end < |s|
  {
    var text := s[t.start..t.end];
    match t.kind
    case Eof => t.start == t.end && s[t.end] == '\0'
    case Newline => text != [] && (forall c | c in text :: c == '\n') && s[t.end] != '\n'
    case Whitespace => text != [] && mode.ContentMode? && (forall c | c in text :: IsBlank(c)) && !IsBlank(s[t.end])
    case Text =>
      && text != [] && mode.ContentMode? && IsPrintable(text[0]) && text[0] != ' ' && !IsWord(s[t.end])
      && forall c | c in text[1..] :: IsWord(c)
    case Integer => text != [] && (forall c | c in text :: IsDigit(c)) && !IsWord(s[t.end]) && s[t.end] != '.'
    case Floating =>
      && !IsDigit(s[t.end])
      && exists d | 0 < d < |text| - 1 ::
          && text[d] == '.'
          && (forall c | c in text[..d] :: IsDigit(c)) && (forall c | c in text[d + 1..] :: IsDigit(c))
    case Error => text != [] && IsError(s, t, mode)
    case _ =>
      if text != [] && IsWord(text[0]) then
        && mode.ExpressionMode? && (forall c | c in text :: IsWord(c)) && !IsWord(s[t.end])
        && (if t.kind == Identifier then forall k :: Spelling(k) != Some(text) else Spelling(t.kind) == Some(text))
      else
        && Spelling(t.kind) == None && t.kind != Identifier
        && (if |text| == 2 then Digraph(text[0], text[1], mode) == Some(t.kind) else
            && |text| == 1 && Digraph(text[0], s[t.end], mode) == None
            && (Symbol(text[0]) == Some(t.kind) || Monograph(text[0]) == Some(t.kind)))
  }

  // A comment that does not end, a number that ends in a dot, or characters without a meaning.
  ghost predicate IsError(s: seq<char>, t: Token, mode: Mode)
    requires t.start < t.end < |s|
  {
    var text := s[t.start..t.end];
    if text[0] == '/' then
      && At(s, t.start + 1, '*') && s[t.end] == '\0'
      && Open(s, t.start + 2, t.start + 2, t.end)
    else if mode.ContentMode? then
      && (forall c | c in text :: !IsPrintable(c)) && (s[t.end] == '\0' || IsPrintable(s[t.end]))
    else if IsDigit(text[0]) then
      && text[|text| - 1] == '.' && (forall c | c in text[..|text| - 1] :: IsDigit(c)) && !IsDigit(s[t.end])
    else
      |text| == 1 && !IsAlpha(text[0])
  }

  // The keyword table: a word is a keyword exactly when some kind is spelled that way.
  lemma KeywordIsSpelling(kind: Kind, word: string)
    ensures var k := Keyword(kind, word);
      Spelling(k) == Some(word) || (k == kind && forall o :: Spelling(o) != Some(word))
    ensures forall o :: Spelling(o) == Some(word) ==> Keyword(kind, word) == o
  {
    forall o | Spelling(o) == Some(word) ensures Keyword(kind, word) == o {
      SpelledKeyword(kind, o);
    }
    hide Spelling;
    if Keyword(kind, word) != kind {
      KeywordSpelled(kind, word);
    }
  }

  lemma SpelledKeyword(kind: Kind, o: Kind)
    requires Spelling(o).Some?
    ensures Keyword(kind, Spelling(o).value) == o
  {
    if |Spelling(o).value| == 4 {
      FourLetters(kind, o);
    }
  }

  lemma FourLetters(kind: Kind, o: Kind)
    requires Spelling(o).Some? && |Spelling(o).value| == 4
    ensures Keyword(kind, Spelling(o).value) == o
  {
    assert Spelling(o).value[1] ==
      if o == ElseWord then 'l' else if o == TempWord then 'e' else if o == TrueWord then 'r' else 'I';
  }

  lemma KeywordSpelled(kind: Kind, word: string)
    requires Keyword(kind, word) != kind
    ensures Spelling(Keyword(kind, word)) == Some(word)
  {
  }

  lemma OnlyWordsAreSpelled(k: Kind)
    ensures k in {Eof, Newline, Whitespace, Text, Identifier, Integer, Floating, Error} ==> Spelling(k) == None
  {
  }

  lemma WordIsWellFormed(s: seq<char>, start: nat, i: nat)
    requires Terminated(s) && start <= i < |s| && IsWord(s[start])
    requires forall n | start <= n < i :: IsWord(s[n])
    ensures WellFormed(s, WordAt(s, start, i), ExpressionMode)
  {
    var t := WordAt(s, start, i);
    var text := s[start..t.end];
    KeywordIsSpelling(Identifier, text);
    OnlyWordsAreSpelled(t.kind);
    hide Keyword, Spelling;
    assert t.end < |s| && text[0] == s[start] && IsWord(text[0]);
    forall c | c in text ensures IsWord(c) {
      var n :| 0 <= n < |text| && text[n] == c;
      assert s[start + n] == c;
    }
  }

  lemma NumberIsWellFormed(s: seq<char>, start: nat)
    requires Terminated(s) && start < |s| && IsDigit(s[start])
    ensures WellFormed(s, NumberAt(s, start, start), ExpressionMode)
  {
    hide Keyword;
    var t := NumberAt(s, start, start);
    var text := s[start..t.end];
    var j := RunEnd(s, start, Digits);
    if s[j] == '.' {
      assert text[j - start] == '.';
      assert text[..j - start] == s[start..j];
      assert text[j - start + 1..] == s[j + 1..t.end];
    } else if IsWord(s[j]) {
      WordIsWellFormed(s, start, j);
    }
  }

  // Every token is of the shape that its kind says; only the end of the source is empty.
  lemma TokenIsWellFormed(s: seq<char>, i: nat, mode: Mode, lineStart: bool)
    requires Terminated(s) && i < |s|
    ensures var t := Next(s, i, mode, lineStart);
      && i <= t.start <= t.end < |s| && WellFormed(s, t, mode)
      && forall n | i <= n < t.end :: s[n] != '\0'
  {
    var j := Skip(s, i, mode, lineStart);
    GapIsTrivia(s, i, mode, lineStart);
    GapIsWhole(s, i, mode, lineStart);
    GapHasNoNul(s, i, j);
    ShapeAt(s, j, mode);
  }

  lemma WordOrNumber(s: seq<char>, j: nat)
    requires Terminated(s) && j < |s| && (IsAlpha(s[j]) || IsDigit(s[j]))
    requires Symbol(s[j]).None? && Monograph(s[j]).None?
    requires Digraph(s[j], if j + 1 < |s| then s[j + 1] else '\0', ExpressionMode).None?
    ensures var t := TokenAt(s, j, ExpressionMode);
      && j == t.start <= t.end < |s| && WellFormed(s, t, ExpressionMode)
      && forall n | j <= n < t.end :: s[n] != '\0'
  {
    hide Digraph, Symbol, Monograph, Spelling, WellFormed, Keyword;
    if IsAlpha(s[j]) {
      WordIsWellFormed(s, j, j);
    } else {
      NumberIsWellFormed(s, j);
    }
  }

  lemma ShapeAt(s: seq<char>, j: nat, mode: Mode)
    requires Terminated(s) && j < |s|
    requires Whole(s, j, mode)
    ensures var t := TokenAt(s, j, mode);
      && j == t.start <= t.end < |s| && WellFormed(s, t, mode)
      && forall n | j <= n < t.end :: s[n] != '\0'
  {
    hide Keyword;
    var t := TokenAt(s, j, mode);
    var d := if j + 1 < |s| then s[j + 1] else '\0';
    if s[j] == '\0' || s[j] == '\n' || IsBlank(s[j]) {
      hide WellFormed, TokenAt;
      SpaceIsWellFormed(s, j, mode);
    } else if Symbol(s[j]).Some? || Digraph(s[j], d, mode).Some? || Monograph(s[j]).Some? {
      hide WellFormed, TokenAt;
      MarkIsWellFormed(s, j, mode);
    } else if mode.ExpressionMode? && (IsAlpha(s[j]) || IsDigit(s[j])) {
      hide WellFormed, TokenAt;
      WordOrNumber(s, j);
    } else {
      hide WellFormed, TokenAt;
      RestIsWellFormed(s, j, mode);
    }
  }

  lemma SpaceIsWellFormed(s: seq<char>, j: nat, mode: Mode)
    requires Terminated(s) && j < |s| && Whole(s, j, mode) && (s[j] == '\0' || s[j] == '\n' || IsBlank(s[j]))
    ensures var t := TokenAt(s, j, mode);
      && j == t.start <= t.end < |s| && WellFormed(s, t, mode)
      && forall n | j <= n < t.end :: s[n] != '\0'
  {
    hide Digraph, Symbol, Monograph, WordAt, NumberAt, Spelling, Open, IsError;
  }

  lemma RestIsWellFormed(s: seq<char>, j: nat, mode: Mode)
    requires Terminated(s) && j < |s| && s[j] != '\0' && s[j] != '\n' && !IsBlank(s[j])
    requires Symbol(s[j]).None? && Digraph(s[j], if j + 1 < |s| then s[j + 1] else '\0', mode).None?
      && Monograph(s[j]).None?
    requires mode.ExpressionMode? ==> !IsAlpha(s[j]) && !IsDigit(s[j])
    ensures var t := TokenAt(s, j, mode);
      && j == t.start <= t.end < |s| && WellFormed(s, t, mode)
      && forall n | j <= n < t.end :: s[n] != '\0'
  {
    hide Digraph, WordAt, NumberAt, Spelling;
    var t := TokenAt(s, j, mode);
    assert s[j..t.end][0] == s[j];
  }

  lemma SymbolsStandAlone(c: char, d: char, mode: Mode)
    requires Symbol(c).Some?
    ensures c != '/' && !IsWord(c) && Digraph(c, d, mode) == None && Spelling(Symbol(c).value) == None
    ensures Symbol(c).value !in {Eof, Newline, Whitespace, Text, Identifier, Integer, Floating, Error}
  {
  }

  lemma MarkIsWellFormed(s: seq<char>, j: nat, mode: Mode)
    requires Terminated(s) && j < |s| && Whole(s, j, mode)
    requires Symbol(s[j]).Some? || Digraph(s[j], if j + 1 < |s| then s[j + 1] else '\0', mode).Some?
      || Monograph(s[j]).Some?
    ensures var t := TokenAt(s, j, mode);
      && j == t.start <= t.end < |s| && WellFormed(s, t, mode)
      && forall n | j <= n < t.end :: s[n] != '\0'
  {
    if Symbol(s[j]).Some? {
      SymbolIsWellFormed(s, j, mode);
    } else if s[j] == '/' && At(s, j + 1, '*') {
      OpenIsWellFormed(s, j, mode);
    } else {
      GraphIsWellFormed(s, j, mode);
    }
  }

  lemma SymbolIsWellFormed(s: seq<char>, j: nat, mode: Mode)
    requires Terminated(s) && j < |s| && Symbol(s[j]).Some?
    ensures var t := TokenAt(s, j, mode);
      && j == t.start <= t.end < |s| && WellFormed(s, t, mode)
      && forall n | j <= n < t.end :: s[n] != '\0'
  {
    hide Keyword, WordAt, NumberAt, Monograph, Open;
    var t := TokenAt(s, j, mode);
    assert s[j..t.end][0] == s[j];
    SymbolsStandAlone(s[j], s[j + 1], mode);
    hide Digraph, Symbol;
  }

  lemma OpenIsWellFormed(s: seq<char>, j: nat, mode: Mode)
    requires Terminated(s) && j < |s| && Whole(s, j, mode) && Symbol(s[j]).None? && s[j] == '/' && At(s, j + 1, '*')
    ensures var t := TokenAt(s, j, mode);
      && j == t.start <= t.end < |s| && WellFormed(s, t, mode)
      && forall n | j <= n < t.end :: s[n] != '\0'
  {
    hide Keyword, WordAt, NumberAt, Monograph, Digraph, Symbol, Spelling;
    var t := TokenAt(s, j, mode);
    assert s[j..t.end][0] == s[j];
  }

  lemma GraphIsWellFormed(s: seq<char>, j: nat, mode: Mode)
    requires Terminated(s) && j < |s| && Symbol(s[j]).None? && !(s[j] == '/' && At(s, j + 1, '*'))
    requires Digraph(s[j], if j + 1 < |s| then s[j + 1] else '\0', mode).Some? || Monograph(s[j]).Some?
    ensures var t := TokenAt(s, j, mode);
      && j == t.start <= t.end < |s| && WellFormed(s, t, mode)
      && forall n | j <= n < t.end :: s[n] != '\0'
  {
    hide Keyword, WordAt, NumberAt, Symbol, Open;
    var t := TokenAt(s, j, mode);
    assert s[j..t.end][0] == s[j];
  }

  // What each kind that is always written alike is written like.
  function TextOf(kind: Kind): Option<string> {
    match kind
    case Tilde => Some("~") case Colon => Some(":") case DoubleQuote => Some("\"") case Plus => Some("+")
    case Minus => Some("-") case Star => Some("*") case Slash => Some("/") case Percent => Some("%")
    case Comma => Some(",") case Question => Some("?") case Pipe => Some("|") case Dot => Some(".")
    case LeftParen => Some("(") case RightParen => Some(")") case LeftBracket => Some("[")
    case RightBracket => Some("]") case LeftBrace => Some("{") case RightBrace => Some("}")
    case Bang => Some("!") case BangEqual => Some("!=") case Equal => Some("=") case EqualEqual => Some("==")
    case RightArrow => Some("->") case LeftArrow => Some("<-") case Glue => Some("<>")
    case Less => Some("<") case LessEqual => Some("<=") case Greater => Some(">") case GreaterEqual => Some(">=")
    case OrWord => Some("or") case AndWord => Some("and") case ModWord => Some("mod") case NotWord => Some("not")
    case RefWord => Some("ref") case VarWord => Some("VAR") case ElseWord => Some("else")
    case TempWord => Some("temp") case TrueWord => Some("true") case ListWord => Some("LIST")
    case FalseWord => Some("false") case ConstWord => Some("CONST") case ReturnWord => Some("return")
    case FunctionWord => Some("function")
    case _ => None
  }

  // A token of such a kind consists of that text.
  lemma TokenText(s: seq<char>, i: nat, mode: Mode, lineStart: bool)
    requires Terminated(s) && i < |s|
    ensures var t := Next(s, i, mode, lineStart);
      t.start <= t.end <= |s| && (TextOf(t.kind).Some? ==> s[t.start..t.end] == TextOf(t.kind).value)
  {
    hide Next, WellFormed, TextOf;
    TokenIsWellFormed(s, i, mode, lineStart);
    var t := Next(s, i, mode, lineStart);
    if TextOf(t.kind).Some? {
      ShapeText(s, t, mode);
    }
  }

  lemma ShapeText(s: seq<char>, t: Token, mode: Mode)
    requires t.start <= t.end < |s| && WellFormed(s, t, mode) && TextOf(t.kind).Some?
    ensures s[t.start..t.end] == TextOf(t.kind).value
  {
    var text := s[t.start..t.end];
    WordText(t.kind);
    if Spelling(t.kind).None? {
      MarkText(text[0], if |text| == 2 then text[1] else s[t.end], mode);
    }
  }

  lemma WordText(kind: Kind)
    ensures Spelling(kind).Some? ==> Spelling(kind) == TextOf(kind)
  {
  }

  lemma MarkText(c: char, d: char, mode: Mode)
    ensures Symbol(c).Some? ==> TextOf(Symbol(c).value) == Some([c])
    ensures Monograph(c).Some? ==> TextOf(Monograph(c).value) == Some([c])
    ensures Digraph(c, d, mode).Some? ==> TextOf(Digraph(c, d, mode).value) == Some([c, d])
  {
    SymbolText(c);
    hide Symbol;
  }

  lemma SymbolText(c: char)
    ensures Symbol(c).Some? ==> TextOf(Symbol(c).value) == Some([c])
  {
  }

  // The tokens of successive calls, one for each grammar.
  function Scan(s: seq<char>, i: nat, modes: seq<Mode>, lineStart: bool): (r: seq<Token>)
    requires Terminated(s) && i < |s|
    ensures |r| == |modes|
    decreases |modes|
  {
    if modes == [] then [] else
    TokenIsWellFormed(s, i, modes[0], lineStart);
    var t := Next(s, i, modes[0], lineStart);
    [t] + Scan(s, t.end, modes[1..], false)
  }

  // Where the k-th call starts to look.
  function From(i: nat, r: seq<Token>, k: nat): nat
    requires k <= |r|
  {
    if k == 0 then i else r[k - 1].end
  }

  // The token t lies at or after from, which is at or after i, with only trivia and no NUL before it;
  // it is empty only at the end of the source.
  ghost predicate Placed(s: seq<char>, i: nat, from: nat, t: Token, mode: Mode) {
    && i <= from <= t.start <= t.end < |s|
    && Trivia(s, from, t.start)
    && WellFormed(s, t, mode)
    && (t.start == t.end <==> t.kind == Eof)
    && (forall n | i <= n < t.end :: s[n] != '\0')
  }

  // Successive tokens are in order and disjoint, only trivia stand between them, none but the last kind is
  // empty, and once as many calls were made as there are characters the source is used up.
  lemma {:induction false} Tiles(s: seq<char>, i: nat, modes: seq<Mode>, lineStart: bool, k: nat)
    requires Terminated(s) && i < |s| && k < |modes|
    ensures var r := Scan(s, i, modes, lineStart);
      && Placed(s, i, From(i, r, k), r[k], modes[k])
      && (k >= RunEnd(s, i, Anything) - i ==> r[k].kind == Eof)
    decreases k
  {
    var r := Scan(s, i, modes, lineStart);
    var t := r[0];
    NextIsPlaced(s, i, modes[0], lineStart);
    if k > 0 {
      hide Placed;
      Tiles(s, t.end, modes[1..], false, k - 1);
      assert From(i, r, k) == From(t.end, r[1..], k - 1);
      PlacedLater(s, i, t, modes[0], From(i, r, k), r[k], modes[k]);
      assert r[1..][k - 1] == r[k];
    }
  }

  lemma NextIsPlaced(s: seq<char>, i: nat, mode: Mode, lineStart: bool)
    requires Terminated(s) && i < |s|
    ensures var t := Next(s, i, mode, lineStart);
      Placed(s, i, i, t, mode) && (RunEnd(s, i, Anything) == i ==> t.kind == Eof)
  {
    hide WellFormed, Trivia, Skip, TokenAt;
    TokenStarts(s, Skip(s, i, mode, lineStart), mode);
    TokenIsWellFormed(s, i, mode, lineStart);
    GapIsTrivia(s, i, mode, lineStart);
    OnlyEofIsEmpty(s, Next(s, i, mode, lineStart), mode);
  }

  lemma TokenStarts(s: seq<char>, i: nat, mode: Mode)
    requires Terminated(s) && i < |s|
    ensures TokenAt(s, i, mode).start == i
  {
    hide RunEnd, Symbol, Digraph, Monograph, Keyword;
  }

  lemma OnlyEofIsEmpty(s: seq<char>, t: Token, mode: Mode)
    requires t.start <= t.end < |s| && WellFormed(s, t, mode)
    ensures t.start == t.end <==> t.kind == Eof
  {
    hide Spelling, Digraph, Monograph, Symbol;
  }

  lemma PlacedLater(s: seq<char>, i: nat, t: Token, mode: Mode, from: nat, u: Token, next: Mode)
    requires Placed(s, i, i, t, mode) && Placed(s, t.end, from, u, next)
    ensures Placed(s, i, from, u, next) && RunEnd(s, i, Anything) == RunEnd(s, t.end, Anything)
    ensures t.end == i ==> t.kind == Eof && RunEnd(s, i, Anything) == i
  {
    NulAhead(s, i, t.end);
  }

  lemma {:induction false} NulAhead(s: seq<char>, i: nat, j: nat)
    requires i <= j <= |s| && forall n | i <= n < j :: s[n] != '\0'
    ensures RunEnd(s, i, Anything) == RunEnd(s, j, Anything)
    decreases j - i
  {
    if i < j {
      NulAhead(s, i + 1, j);
    }
  }

  // ----- block comments -----

  function Starry(n: nat): (s: seq<char>)
    ensures |s| == n && forall i | 0 <= i < n :: s[i] == '*'
  {
    seq(n, i => '*')
  }

  lemma {:induction false} StarsInARow(s: seq<char>, lo: nat, p: nat)
    requires lo <= p <= |s| && forall i | lo <= i < p :: s[i] == '*'
    ensures Stars(s, lo, p) == p - lo
    decreases p
  {
    if lo < p {
      StarsInARow(s, lo, p - 1);
    }
  }

  // Stars are read in pairs: a comment that holds nothing but n stars ends at the slash behind them
  // exactly when n is odd; otherwise the rest of the source is an error.
  lemma OnlyOddStarsClose(n: nat, mode: Mode, lineStart: bool)
    ensures var s := ['/', '*'] + Starry(n) + ['/', '\0'];
      Next(s, 0, mode, lineStart) == if n % 2 == 1 then Token(Eof, n + 3, n + 3) else Token(Error, 0, n + 3)
  {
    var s := ['/', '*'] + Starry(n) + ['/', '\0'];
    forall p | 2 <= p <= n + 2 ensures Stars(s, 2, p) == p - 2 {
      StarsInARow(s, 2, p);
    }
    var e := CommentEnd(s, 2, 2);
    if n % 2 == 1 {
      NulAhead(s, 2, n + 3);
      assert Closes(s, 2, n + 2);
      assert e == Some(n + 3);
    } else {
      NulAhead(s, 0, n + 3);
      assert e.None?;
    }
  }
}

module Scanning {
  import opened Wrappers
  import opened Lexemes
  import opened Tiling

  const DEPTH_MAX: nat := 128

  datatype State =
    | Start | InMinus | InSlash | InEqual | InBang | InLess | InGreater
    | InWord | InIdentifier | InNumber | InNumberDot | InDecimal
    | InWhitespace | InCommentLine | InCommentBlock | InCommentBlockStar | InNewline | InInvalid

  // The one character behind a state that has read a single character.
  function Mark(state: State): Option<char> {
    match state
    case InMinus => Some('-')
    case InSlash => Some('/')
    case InEqual => Some('=')
    case InBang => Some('!')
    case InLess => Some('<')
    case InGreater => Some('>')
    case _ => None
  }

  // What a state says about the characters from start to i.
  ghost predicate Reached(s: seq<char>, state: State, start: nat, i: nat, mode: Mode) {
    && start <= i < |s|
    && (Mark(state).Some? ==> i == start + 1 && s[start] == Mark(state).value)
    && (state.InIdentifier? || state.InNumber? || state.InNumberDot? || state.InDecimal? ==> mode.ExpressionMode?)
    && (state.InCommentBlock? ==> start + 2 <= i && Stars(s, start + 2, i) % 2 == 0)
    && (state.InCommentBlockStar? ==> start + 2 <= i && Stars(s, start + 2, i) % 2 == 1)
  }

  // The token that a scanner in this state is about to find.
  ghost function Pending(s: seq<char>, state: State, start: nat, i: nat, mode: Mode, lineStart: bool): Token
    requires Terminated(s) && Reached(s, state, start, i, mode)
  {
    match state
    case Start => Next(s, i, mode, lineStart)
    case InSlash => Next(s, start, mode, lineStart)
    case InWord => Token(Text, start, RunEnd(s, i, Words))
    case InIdentifier => WordAt(s, start, i)
    case InNumber => NumberAt(s, start, i)
    case InNumberDot => var k := RunEnd(s, i, Digits); Token(if k == i then Error else Floating, start, k)
    case InDecimal => Token(Floating, start, RunEnd(s, i, Digits))
    case InWhitespace =>
      var e := RunEnd(s, i, Blanks);
      if lineStart || mode.ExpressionMode? then Next(s, e, mode, lineStart) else Token(Whitespace, start, e)
    case InNewline =>
      var e := RunEnd(s, i, Newlines);
      if lineStart then Next(s, e, mode, false) else Token(Newline, start, e)
    case InCommentLine =>
      var e := RunEnd(s, i, InLine);
      if s[e] == '\n' then Next(s, e + 1, mode, true) else Next(s, e, mode, lineStart)
    case InCommentBlock => Block(s, start, i, mode, lineStart)
    case InCommentBlockStar => Block(s, start, i, mode, lineStart)
    case InInvalid => Token(Error, start, RunEnd(s, i, Garbage))
    case _ => TokenAt(s, start, mode)
  }

  ghost function Block(s: seq<char>, start: nat, i: nat, mode: Mode, lineStart: bool): Token
    requires Terminated(s) && start + 2 <= i < |s|
  {
    match CommentEnd(s, start + 2, i)
    case None => Token(Error, start, RunEnd(s, i, Anything))
    case Some(e) => Next(s, e, mode, lineStart)
  }

  // What Next is, by the first character.
  lemma SpaceAhead(s: seq<char>, i: nat, mode: Mode, lineStart: bool)
    requires Terminated(s) && i < |s| && (s[i] == '\n' || IsBlank(s[i]))
    ensures i + 1 < |s| && Reached(s, if s[i] == '\n' then InNewline else InWhitespace, i, i + 1, mode)
    ensures Next(s, i, mode, lineStart)
      == Pending(s, if s[i] == '\n' then InNewline else InWhitespace, i, i + 1, mode, lineStart)
  {
    hide Stars, Symbol, Digraph, Monograph, WordAt, NumberAt;
  }

  lemma SlashAhead(s: seq<char>, i: nat, mode: Mode, lineStart: bool)
    requires Terminated(s) && i < |s| && s[i] == '/'
    ensures i + 1 < |s| && var d := s[i + 1];
      && (d == '/' || d == '*' ==> i + 2 < |s|)
      && (d == '/' ==> Next(s, i, mode, lineStart) == Pending(s, InCommentLine, i, i + 2, mode, lineStart))
      && (d == '*' ==> Next(s, i, mode, lineStart) == Block(s, i, i + 2, mode, lineStart))
      && (d != '/' && d != '*' ==> Next(s, i, mode, lineStart) == Token(Slash, i, i + 1))
  {
    hide Stars, WordAt, NumberAt, Closes;
  }

  lemma TokenAhead(s: seq<char>, i: nat, mode: Mode, lineStart: bool)
    requires Terminated(s) && i < |s| && s[i] != '\n' && !IsBlank(s[i]) && s[i] != '/'
    ensures Next(s, i, mode, lineStart) == TokenAt(s, i, mode)
  {
    hide TokenAt;
  }

  // The token that starts with the character c, unless c is a blank, a newline or a slash.
  lemma NoDigraph(c: char, d: char, mode: Mode)
    ensures Monograph(c).None? ==> Digraph(c, d, mode).None?
  {
  }

  lemma FirstCharacter(s: seq<char>, i: nat, mode: Mode, lineStart: bool)
    requires Terminated(s) && i < |s| && s[i] != '\n' && !IsBlank(s[i]) && s[i] != '/'
    ensures var c, t := s[i], Next(s, i, mode, lineStart);
      && (c == '\0' ==> t == Token(Eof, i, i))
      && (Symbol(c).Some? ==> t == Token(Symbol(c).value, i, i + 1))
      && (c != '\0' && Symbol(c).None? && Monograph(c).None? ==>
            && i + 1 < |s|
            && (mode.ExpressionMode? && IsAlpha(c) ==> t == WordAt(s, i, i + 1))
            && (mode.ExpressionMode? && IsDigit(c) ==> t == NumberAt(s, i, i + 1))
            && (mode.ExpressionMode? && !IsAlpha(c) && !IsDigit(c) ==> t == Token(Error, i, i + 1))
            && (mode.ContentMode? && IsPrintable(c) ==> t == Token(Text, i, RunEnd(s, i + 1, Words)))
            && (mode.ContentMode? && !IsPrintable(c) ==> t == Token(Error, i, RunEnd(s, i + 1, Garbage))))
      && (Monograph(c).Some? ==> i + 1 < |s| && t == TokenAt(s, i, mode))
  {
    TokenAhead(s, i, mode, lineStart);
    NoDigraph(s[i], if i + 1 < |s| then s[i + 1] else '\0', mode);
    hide Keyword, Skip, CommentEnd, Spelling, Digraph, Next;
  }

  lemma SecondCharacter(s: seq<char>, i: nat, mode: Mode)
    requires Terminated(s) && i + 1 < |s| && s[i] != '/' && Monograph(s[i]).Some?
    ensures TokenAt(s, i, mode) == match Digraph(s[i], s[i + 1], mode)
      case Some(k) => Token(k, i, i + 2)
      case None => Token(Monograph(s[i]).value, i, i + 1)
  {
    hide RunEnd, WordAt, NumberAt;
  }

  // What became of a pushed mode: kept in its place, let in without a place, or refused by the guard.
  datatype Pushed = Kept | Outside | Refused

  lemma {:induction false} ScanMore(s: seq<char>, i: nat, modes: seq<Mode>, lineStart: bool, mode: Mode)
    requires Terminated(s) && i < |s|
    ensures var r := Scan(s, i, modes, lineStart);
      && From(i, r, |r|) < |s|
      && Scan(s, i, modes + [mode], lineStart)
        == r + [Next(s, From(i, r, |r|), mode, modes == [] && lineStart)]
    decreases |modes|
  {
    hide Next, WellFormed;
    if modes == [] {
      assert [mode][1..] == [];
      assert Scan(s, i, [mode], lineStart)[0] == Next(s, i, mode, lineStart);
      assert modes + [mode] == [mode];
      TokenIsWellFormed(s, i, mode, lineStart);
    } else {
      TokenIsWellFormed(s, i, modes[0], lineStart);
      var t := Next(s, i, modes[0], lineStart);
      var r := Scan(s, i, modes, lineStart);
      ScanMore(s, t.end, modes[1..], false, mode);
      assert (modes + [mode])[1..] == modes[1..] + [mode];
      assert From(i, r, |r|) == From(t.end, r[1..], |r| - 1);
    }
  }

  class Scanner {
    const source: seq<char>
    const modes: array<Mode>
    var start: nat
    var cursor: nat
    var depth: nat
    var lineStart: bool

    // The calls since the scanner was made or rewound.
    ghost var origin: nat
    ghost var originLine: bool
    ghost var asked: seq<Mode>
    ghost var seen: seq<Token>

    ghost predicate Valid()
      reads `start, `cursor, `depth, `lineStart, `origin, `originLine, `asked, `seen
    {
      && Terminated(source) && modes.Length == DEPTH_MAX && depth <= DEPTH_MAX
      && start <= cursor < |source| && origin < |source|
      && seen == Scan(source, origin, asked, originLine)
      && cursor == From(origin, seen, |seen|)
      && lineStart == (asked == [] && originLine)
    }

    constructor (source: seq<char>)
      requires Terminated(source)
      ensures Valid() && this.source == source && fresh(modes) && asked == [] && origin == 0 && originLine
      ensures depth == 0 && modes[0] == ContentMode
    {
      this.source := source;
      start, cursor, depth, lineStart := 0, 0, 0, true;
      modes := new Mode[DEPTH_MAX](i => ContentMode);
      origin, originLine, asked, seen := 0, true, [], [];
    }

    // The guard compares the depth with the number of modes, not with the last place in the array: at depth
    // 127 it lets a mode be written one place outside, at depth 128.  This model counts that push but has
    // no place to keep its mode.
    method PushMode(mode: Mode) returns (r: Pushed)
      requires Valid()
      modifies `depth, modes
      ensures Valid()
      ensures r == if old(depth) < DEPTH_MAX - 1 then Kept else if old(depth) == DEPTH_MAX - 1 then Outside else Refused
      ensures depth == old(depth) + (if r == Refused then 0 else 1)
      ensures modes[..] == if r == Kept then old(modes[..])[depth := mode] else old(modes[..])
    {
      if depth < DEPTH_MAX {
        depth := depth + 1;
        if depth == modes.Length {
          return Outside;
        }
        modes[depth] := mode;
        return Kept;
      }
      return Refused;
    }

    // Nested modes, one push after the other: the guard lets in one more than there is room for.
    method PushModes(nested: seq<Mode>) returns (rs: seq<Pushed>)
      requires Valid() && depth == 0
      modifies `depth, modes
      ensures Valid() && depth == (if |nested| < DEPTH_MAX then |nested| else DEPTH_MAX) && |rs| == |nested|
      ensures forall i | 0 <= i < |rs| ::
        rs[i] == if i < DEPTH_MAX - 1 then Kept else if i == DEPTH_MAX - 1 then Outside else Refused
      ensures forall i | 0 <= i < |rs| && rs[i] == Kept :: modes[i + 1] == nested[i]
      ensures modes[0] == old(modes[0])
    {
      rs := [];
      for i := 0 to |nested|
        invariant Valid() && |rs| == i && depth == (if i < DEPTH_MAX then i else DEPTH_MAX)
        invariant forall k | 0 <= k < i ::
          rs[k] == if k < DEPTH_MAX - 1 then Kept else if k == DEPTH_MAX - 1 then Outside else Refused
        invariant forall k | 0 <= k < i && rs[k] == Kept :: modes[k + 1] == nested[k]
        invariant modes[0] == old(modes[0])
      {
        ghost var was := modes[..];
        var r := PushMode(nested[i]);
        rs := rs + [r];
        assert forall k | 0 <= k <= i && k < DEPTH_MAX :: modes[..][k] == was[k];
      }
    }

    method PopMode() returns (ok: bool)
      requires Valid()
      modifies `depth
      ensures Valid() && ok == (old(depth) != 0) && depth == if ok then old(depth) - 1 else 0
    {
      if depth != 0 {
        depth := depth - 1;
        return true;
      }
      return false;
    }

    method Rewind(offset: nat)
      requires Valid() && offset <= cursor
      modifies `start, `cursor, `origin, `originLine, `asked, `seen
      ensures Valid() && cursor == offset && asked == [] && origin == offset && originLine == lineStart
    {
      start, cursor := offset, offset;
      origin, originLine, asked, seen := offset, lineStart, [], [];
    }

    method TryKeyword(token: Token, kind: Kind) returns (matched: bool, t: Token)
      requires Valid() && token.start <= token.end <= |source|
      ensures matched ==> t == token.(kind := kind)
      ensures !matched ==> t == token
      ensures Spelling(kind).Some? && token.kind != kind ==>
        matched == (Spelling(kind).value == source[token.start..token.end])
    {
      hide Keyword;
      KeywordIsSpelling(token.kind, source[token.start..token.end]);
      var found := Keyword(token.kind, source[token.start..token.end]);
      matched, t := false, token;
      if found == kind {
        matched, t := true, token.(kind := kind);
      }
    }

    // Every call finds the token that the grammar on top of the stack asks for, if there is a place for it.
    method NextToken() returns (token: Token)
      requires Valid() && depth < DEPTH_MAX
      modifies `start, `cursor, `lineStart, `asked, `seen
      ensures Valid()
      ensures token == Next(source, old(cursor), modes[depth], old(lineStart))
      ensures start == token.start && cursor == token.end
      ensures asked == old(asked) + [modes[depth]] && seen == old(seen) + [token]
    {
      var mode := modes[depth];
      var kind := Find(mode);
      if lineStart {
        lineStart := false;
      }
      token := Token(kind, start, cursor);
      ScanMore(source, origin, asked, originLine, mode);
      asked, seen := asked + [mode], seen + [token];
    }

    // The state machine: one turn for each character, and no turn twice in one place.
    method Find(mode: Mode) returns (kind: Kind)
      requires Terminated(source) && cursor < |source|
      modifies `start, `cursor, `lineStart
      ensures start <= cursor < |source|
      ensures Token(kind, start, cursor) == Next(source, old(cursor), mode, old(lineStart))
    {
      hide TokenAt, Skip, Stars, RunEnd;
      ghost var goal := Next(source, cursor, mode, lineStart);
      var state, found := State.Start, None;
      start := cursor;
      while found.None?
        invariant found.None? ==> Reached(source, state, start, cursor, mode)
        invariant found.None? ==> Pending(source, state, start, cursor, mode, lineStart) == goal
        invariant found.Some? ==> start <= cursor < |source| && Token(found.value, start, cursor) == goal
        decreases found.None?, |source| - cursor, state != State.Start
      {
        match state {
          case Start => state, found := Begin(mode);
          case InCommentLine => state, found := LineCommentOn(mode);
          case InCommentBlock => state, found := BlockCommentOn(state, mode);
          case InCommentBlockStar => state, found := BlockCommentOn(state, mode);
          case InWhitespace => state, found := Space(state, mode);
          case InNewline => state, found := Space(state, mode);
          case InNumber => state, found := Number(state, mode);
          case InNumberDot => state, found := Number(state, mode);
          case InDecimal => state, found := Number(state, mode);
          case InWord => state, found := Word(state, mode);
          case InIdentifier => state, found := Word(state, mode);
          case InInvalid => state, found := Word(state, mode);
          case _ => state, found := Second(state, mode);
        }
      }
      kind := found.value;
    }

    // One turn, in the state that was: either the token is found, or the same token is still to be found
    // from a later place, or from the start state.
    twostate predicate Turned(state: State, mode: Mode, new next: State, new found: Option<Kind>)
      requires Terminated(source) && Reached(source, state, old(start), old(cursor), mode)
      reads `start, `cursor, `lineStart
    {
      var goal := Pending(source, state, old(start), old(cursor), mode, old(lineStart));
      match found
      case Some(kind) => start <= cursor < |source| && Token(kind, start, cursor) == goal
      case None =>
        && Reached(source, next, start, cursor, mode)
        && Pending(source, next, start, cursor, mode, lineStart) == goal
        && (cursor > old(cursor) || (cursor == old(cursor) && next == State.Start != state))
    }

    method Begin(mode: Mode) returns (next: State, found: Option<Kind>)
      requires Terminated(source) && Reached(source, State.Start, start, cursor, mode)
      modifies `start, `cursor
      ensures Turned(State.Start, mode, next, found)
    {
      hide Next, TokenAt, RunEnd, WordAt, NumberAt, IsPrintable;
      var ch := source[cursor];
      if ch == '\n' || IsBlank(ch) {
        SpaceAhead(source, cursor, mode, lineStart);
      } else if ch == '/' {
        SlashAhead(source, cursor, mode, lineStart);
      } else {
        FirstCharacter(source, cursor, mode, lineStart);
      }
      start, found, next := cursor, None, State.Start;
      match ch {
        case '\0' => return next, Some(Eof);
        case '\n' => next := InNewline;
        case ' ' => next := InWhitespace;
        case '\t' => next := InWhitespace;
        case '!' => next := InBang;
        case '=' => next := InEqual;
        case '-' => next := InMinus;
        case '/' => next := InSlash;
        case '<' => next := InLess;
        case '>' => next := InGreater;
        case _ =>
          if Symbol(ch).Some? {
            found := Symbol(ch);
          } else if mode.ExpressionMode? {
            if IsAlpha(ch) {
              next := InIdentifier;
            } else if IsDigit(ch) {
              next := InNumber;
            } else {
              found := Some(Error);
            }
          } else if IsPrintable(ch) {
            next := InWord;
          } else {
            next := InInvalid;
          }
      }
      cursor := cursor + 1;
    }

    // The character behind a minus sign, a slash, an equals sign, a bang or an angle bracket.
    method Second(state: State, mode: Mode) returns (next: State, found: Option<Kind>)
      requires Terminated(source) && Reached(source, state, start, cursor, mode) && Mark(state).Some?
      modifies `cursor
      ensures Turned(state, mode, next, found)
    {
      hide Next, TokenAt, RunEnd;
      var ch := source[cursor];
      if state.InSlash? {
        SlashAhead(source, start, mode, lineStart);
      } else {
        SecondCharacter(source, start, mode);
      }
      next := state;
      match state {
        case InMinus =>
          if ch != '>' {
            return next, Some(Minus);
          }
          found := Some(RightArrow);
        case InSlash =>
          match ch {
            case '/' => next, found := InCommentLine, None;
            case '*' => next, found := InCommentBlock, None;
            case _ => return next, Some(Slash);
          }
        case InEqual =>
          if mode.ContentMode? || ch != '=' {
            return next, Some(Equal);
          }
          found := Some(EqualEqual);
        case InBang =>
          if ch != '=' {
            return next, Some(Bang);
          }
          found := Some(BangEqual);
        case InLess =>
          match ch {
            case '=' => found := Some(LessEqual);
            case '-' => found := Some(LeftArrow);
            case '>' => found := Some(Glue);
            case _ => return next, Some(Less);
          }
        case InGreater =>
          if ch != '=' {
            return next, Some(Greater);
          }
          found := Some(GreaterEqual);
      }
      cursor := cursor + 1;
    }

    method Word(state: State, mode: Mode) returns (next: State, found: Option<Kind>)
      requires Terminated(source) && Reached(source, state, start, cursor, mode)
      requires state.InWord? || state.InIdentifier? || state.InInvalid?
      modifies `cursor
      ensures Turned(state, mode, next, found)
    {
      hide TokenAt, Skip, CommentEnd, Stars, Keyword;
      var ch := source[cursor];
      next, found := state, None;
      match state {
        case InWord =>
          if !IsWord(ch) {
            return next, Some(Text);
          }
        case InIdentifier =>
          if !IsWord(ch) {
            return next, Some(Keyword(Identifier, source[start..cursor]));
          }
        case InInvalid =>
          if ch == '\0' || IsPrintable(ch) {
            return next, Some(Error);
          }
      }
      cursor := cursor + 1;
    }

    method Number(state: State, mode: Mode) returns (next: State, found: Option<Kind>)
      requires Terminated(source) && Reached(source, state, start, cursor, mode)
      requires state.InNumber? || state.InNumberDot? || state.InDecimal?
      modifies `cursor
      ensures Turned(state, mode, next, found)
    {
      hide TokenAt, Skip, CommentEnd, Stars, Keyword;
      var ch := source[cursor];
      next, found := state, None;
      match state {
        case InNumber =>
          if ch == '.' {
            next := InNumberDot;
          } else if IsAlpha(ch) || ch == '_' {
            next := InIdentifier;
          } else if !IsDigit(ch) {
            return next, Some(Integer);
          }
        case InNumberDot =>
          if !IsDigit(ch) {
            return next, Some(Error);
          }
          next := InDecimal;
        case InDecimal =>
          if !IsDigit(ch) {
            return next, Some(Floating);
          }
      }
      cursor := cursor + 1;
    }

    // Blanks and newlines: tokens of their own, unless they are to be skipped.
    method Space(state: State, mode: Mode) returns (next: State, found: Option<Kind>)
      requires Terminated(source) && Reached(source, state, start, cursor, mode)
      requires state.InWhitespace? || state.InNewline?
      modifies `cursor, `lineStart
      ensures Turned(state, mode, next, found)
    {
      hide TokenAt, Skip, CommentEnd, Stars, Keyword;
      var ch := source[cursor];
      next, found := state, None;
      match state {
        case InWhitespace =>
          if !IsBlank(ch) {
            if lineStart || mode.ExpressionMode? {
              return State.Start, None;
            }
            return next, Some(Whitespace);
          }
        case InNewline =>
          if ch != '\n' {
            if lineStart {
              lineStart := false;
              return State.Start, None;
            }
            return next, Some(Newline);
          }
      }
      cursor := cursor + 1;
    }

    method LineCommentOn(mode: Mode) returns (next: State, found: Option<Kind>)
      requires Terminated(source) && Reached(source, InCommentLine, start, cursor, mode)
      modifies `cursor, `lineStart
      ensures Turned(InCommentLine, mode, next, found)
    {
      hide TokenAt, Skip, Keyword;
      next, found := InCommentLine, None;
      match source[cursor] {
        case '\0' => return State.Start, None;
        case '\n' => next, lineStart := State.Start, true;
        case _ =>
      }
      cursor := cursor + 1;
    }

    method BlockCommentOn(state: State, mode: Mode) returns (next: State, found: Option<Kind>)
      requires Terminated(source) && Reached(source, state, start, cursor, mode)
      requires state.InCommentBlock? || state.InCommentBlockStar?
      modifies `cursor
      ensures Turned(state, mode, next, found)
    {
      hide TokenAt, Skip, Keyword;
      var ch := source[cursor];
      next, found := state, None;
      if state.InCommentBlock? {
        match ch {
          case '\0' => return next, Some(Error);
          case '*' => next := InCommentBlockStar;
          case _ =>
        }
      } else {
        match ch {
          case '\0' => return next, Some(Error);
          case '/' => next := State.Start;
          case _ => next := InCommentBlock;
        }
      }
      cursor := cursor + 1;
    }
  }
}
