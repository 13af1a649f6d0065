// The precedence parser of src/parser.c for expressions, and the printer it inverts.

module Grammar {
  import opened Wrappers
  import opened Values
  import opened Ast

  datatype Token =
    | Number(n: nat) | Quoted(s: string) | Identifier(x: string) | TrueWord | FalseWord
    | LeftParen | RightParen | Dot | Comma
    | NotWord | Bang | Minus
    | AmpAmp | AndWord | PipePipe | OrWord | Percent | ModWord | Plus | Star | Slash | Question
    | Equal | EqualEqual | BangEqual | LessThan | LessEqual | GreaterThan | GreaterEqual
    | Newline | Other

  // Precedence levels.
  const NONE: nat := 0
  const ASSIGN: nat := 1
  const LOGICAL_OR: nat := 2
  const LOGICAL_AND: nat := 3
  const COMPARISON: nat := 4
  const TERM: nat := 5
  const FACTOR: nat := 6

  function PrefixType(t: Token): Option<PrefixOp> {
    match t
    case NotWord => Some(Not)
    case Bang => Some(Not)
    case Minus => Some(Negate)
    case _ => None
  }

  function InfixType(t: Token): Option<InfixOp> {
    match t
    case AmpAmp => Some(And) case AndWord => Some(And)
    case PipePipe => Some(Or) case OrWord => Some(Or)
    case Percent => Some(Mod) case ModWord => Some(Mod)
    case Plus => Some(Add) case Minus => Some(Sub)
    case Star => Some(Mul) case Slash => Some(Div)
    case Question => Some(Contains)
    case Equal => Some(Assign)
    case EqualEqual => Some(Eq) case BangEqual => Some(Neq)
    case LessThan => Some(Lt) case LessEqual => Some(Le)
    case GreaterThan => Some(Gt) case GreaterEqual => Some(Ge)
    case _ => None
  }

  function BindingPower(t: Token): nat {
    match t
    case AmpAmp => LOGICAL_AND case AndWord => LOGICAL_AND
    case PipePipe => LOGICAL_OR case OrWord => LOGICAL_OR
    case EqualEqual => COMPARISON case BangEqual => COMPARISON
    case LessThan => COMPARISON case LessEqual => COMPARISON
    case GreaterThan => COMPARISON case GreaterEqual => COMPARISON
    case Question => COMPARISON
    case Plus => TERM case Minus => TERM
    case Star => FACTOR case Slash => FACTOR case Percent => FACTOR case ModWord => FACTOR
    case Equal => ASSIGN
    case _ => NONE
  }

  // ----- the printer -----

  function Level(op: InfixOp): (n: nat)
    ensures ASSIGN <= n <= FACTOR
  {
    match op
    case Assign => ASSIGN
    case Or => LOGICAL_OR
    case And => LOGICAL_AND
    case Eq => COMPARISON case Neq => COMPARISON case Lt => COMPARISON case Le => COMPARISON
    case Gt => COMPARISON case Ge => COMPARISON case Contains => COMPARISON
    case Add => TERM case Sub => TERM
    case Mul => FACTOR case Div => FACTOR case Mod => FACTOR
  }

  // An operator, written as a word where there is one and a word is wanted.
  function InfixToken(op: InfixOp, word: bool): (t: Token)
    ensures InfixType(t) == Some(op) && BindingPower(t) == Level(op)
  {
    match op
    case Assign => Equal
    case Or => if word then OrWord else PipePipe
    case And => if word then AndWord else AmpAmp
    case Eq => EqualEqual case Neq => BangEqual case Lt => LessThan case Le => LessEqual
    case Gt => GreaterThan case Ge => GreaterEqual case Contains => Question
    case Add => Plus case Sub => Minus
    case Mul => Star case Div => Slash
    case Mod => if word then ModWord else Percent
  }

  function PrefixToken(op: PrefixOp, word: bool): (t: Token)
    ensures PrefixType(t) == Some(op)
  {
    if op.Negate? then Minus else if word then NotWord else Bang
  }

  // Names joined by dots.
  predicate IsChain(e: Expr) {
    e.Name? || (e.Select? && IsChain(e.base))
  }

  const ARGS_MAX: nat := 255

  // Trees that can be written down: no missing operands, and only names are selected from or called.
  predicate Printable(e: Expr) {
    match e
    case Lit(v) => v.Int? ==> v.n >= 0
    case Name(_) => true
    case Select(base, _) => IsChain(base)
    case Call(callee, args) => IsChain(callee) && |args| <= ARGS_MAX && forall a | a in args :: Printable(a)
    case Prefix(_, a) => Printable(a)
    case Infix(_, l, r) => Printable(l) && Printable(r)
    case Missing => false
  }

  function PrintChain(e: Expr): seq<Token>
    requires IsChain(e)
  {
    match e
    case Name(x) => [Identifier(x)]
    case Select(base, field) => PrintChain(base) + [Dot, Identifier(field)]
  }

  // Which operators are written as words: each place of the tree chooses for itself.  A place is the way
  // to it from the root, as the numbers of the operands that are taken.
  type Spelling = seq<nat> -> bool

  // Where only operators above level m may stand bare, so an infix tree of that level or less needs
  // parentheses.  The left operand may have the operator's own level, the right one may not; the operand
  // of a prefix operator may not be an infix tree at all.
  function Print(e: Expr, m: nat, words: Spelling, at: seq<nat>): seq<Token>
    requires Printable(e)
    decreases e, 1
  {
    match e
    case Infix(op, _, _) =>
      if Level(op) > m then PrintBare(e, words, at) else [LeftParen] + PrintBare(e, words, at) + [RightParen]
    case _ => PrintBare(e, words, at)
  }

  function PrintBare(e: Expr, words: Spelling, at: seq<nat>): seq<Token>
    requires Printable(e)
    decreases e, 0
  {
    match e
    case Lit(v) =>
      (match v
       case Int(n) => [Number(n)]
       case Bool(b) => [if b then TrueWord else FalseWord]
       case Str(s) => [Quoted(s)])
    case Name(x) => [Identifier(x)]
    case Select(_, _) => PrintChain(e)
    case Call(callee, args) => PrintChain(callee) + [LeftParen] + PrintArgs(args, 0, words, at) + [RightParen]
    case Prefix(op, a) => [PrefixToken(op, words(at))] + Print(a, FACTOR, words, at + [0])
    case Infix(op, l, r) =>
      Print(l, Level(op) - 1, words, at + [0]) + [InfixToken(op, words(at))] + Print(r, Level(op), words, at + [1])
  }

  // The arguments from i on, separated by commas.
  function PrintArgs(args: seq<Expr>, i: nat, words: Spelling, at: seq<nat>): seq<Token>
    requires i <= |args| && forall a | a in args :: Printable(a)
    decreases args, |args| - i
  {
    if i == |args| then []
    else
      Print(args[i], NONE, words, at + [i]) + (if i + 1 < |args| then [Comma] else [])
        + PrintArgs(args, i + 1, words, at)
  }

  // ----- the parser on values -----

  // A tree or nothing, what is left, and whether no error was reported.
  datatype Parsed = Parsed(tree: Option<Expr>, rest: seq<Token>, clean: bool)

  function Head(ts: seq<Token>): Token {
    if ts == [] then Other else ts[0]
  }

  function Also(r: Parsed, clean: bool): Parsed {
    r.(clean := r.clean && clean)
  }

  function ParseInfix(ts: seq<Token>, prec: nat): (r: Parsed)
    ensures |r.rest| <= |ts|
    decreases |ts|, 3
  {
    var lhs := ParsePrefix(ts);
    if lhs.tree.None? then lhs else Also(ParseLoop(lhs.tree.value, lhs.rest, prec), lhs.clean)
  }

  // Operators that bind more tightly than prec, one after the other.
  function ParseLoop(lhs: Expr, ts: seq<Token>, prec: nat): (r: Parsed)
    ensures |r.rest| <= |ts|
    decreases |ts|, 0
  {
    var t := Head(ts);
    if BindingPower(t) > prec && InfixType(t).Some? && ts != [] then
      var rhs := ParseInfix(ts[1..], BindingPower(t));
      if rhs.tree.None? then rhs
      else Also(ParseLoop(Infix(InfixType(t).value, lhs, rhs.tree.value), rhs.rest, prec), rhs.clean)
    else Parsed(Some(lhs), ts, true)
  }

  function ParsePrefix(ts: seq<Token>): (r: Parsed)
    ensures |r.rest| <= |ts|
    decreases |ts|, 2
  {
    if ts != [] && PrefixType(ts[0]).Some? then
      var r := ParsePrefix(ts[1..]);
      if r.tree.None? then r else r.(tree := Some(Prefix(PrefixType(ts[0]).value, r.tree.value)))
    else ParsePrimary(ts)
  }

  function ParsePrimary(ts: seq<Token>): (r: Parsed)
    ensures |r.rest| <= |ts|
    decreases |ts|, 1
  {
    if ts == [] then Parsed(None, ts, true)
    else
      match ts[0]
      case Number(n) => Parsed(Some(Lit(Int(n))), ts[1..], true)
      case TrueWord => Parsed(Some(Lit(Bool(true))), ts[1..], true)
      case FalseWord => Parsed(Some(Lit(Bool(false))), ts[1..], true)
      case Quoted(s) => Parsed(Some(Lit(Str(s))), ts[1..], true)
      case Identifier(x) => ParseChain(Name(x), ts[1..])
      case LeftParen =>
        var r := ParseInfix(ts[1..], NONE);
        // a missing closing parenthesis is not reported
        if r.tree.Some? && Head(r.rest) == RightParen then r.(rest := r.rest[1..]) else r
      case _ => Parsed(None, ts, true)
  }

  // Selectors after a name; a call ends the chain.
  function ParseChain(lhs: Expr, ts: seq<Token>): (r: Parsed)
    ensures |r.rest| <= |ts|
    decreases |ts|, 0
  {
    match Head(ts)
    case Dot =>
      if |ts| > 1 && ts[1].Identifier? then ParseChain(Select(lhs, ts[1].x), ts[2..])
      else Parsed(None, if ts == [] then [] else ts[1..], false)
    case LeftParen =>
      var (args, rest, clean) := ParseArgList(if ts == [] then [] else ts[1..]);
      Parsed(Some(Call(lhs, args)), rest, clean)
    case _ => Parsed(Some(lhs), ts, true)
  }

  // The arguments behind an opening parenthesis, and the closing one.
  function ParseArgList(ts: seq<Token>): (r: (seq<Expr>, seq<Token>, bool))
    ensures |r.1| <= |ts|
    decreases |ts|, 5
  {
    if Head(ts) == RightParen then ([], ts[1..], true)
    else
      var (args, rest, clean) := ParseArgs([], ts);
      if Head(rest) == RightParen then (args, rest[1..], clean) else (args, rest, false)
  }

  function ParseArgs(args: seq<Expr>, ts: seq<Token>): (r: (seq<Expr>, seq<Token>, bool))
    ensures |r.1| <= |ts|
    decreases |ts|, 4
  {
    var n := ParseInfix(ts, NONE);
    if |args| == ARGS_MAX then (args, n.rest, false)
    else
      var more := args + [if n.tree.Some? then n.tree.value else Missing];
      if Head(n.rest) == Comma then
        var r := ParseArgs(more, n.rest[1..]);
        (r.0, r.1, r.2 && n.clean)
      else (more, n.rest, n.clean)
  }
}

module RoundTrip {
  import opened Wrappers
  import opened Values
  import opened Ast
  import opened Grammar

  // A token after which neither a selector nor a call goes on.
  predicate EndsChain(t: Token) { t != Dot && t != LeftParen }

  // A name or a chain of selectors comes back.
  lemma {:induction false} ChainComesBack(e: Expr, rest: seq<Token>)
    requires IsChain(e)
    ensures PrintChain(e) != [] && PrintChain(e)[0].Identifier?
    ensures ParsePrimary(PrintChain(e) + rest) == ParseChain(e, rest)
    decreases e
  {
    hide ParseInfix, ParseArgList, ParsePrefix, ParseChain;
    match e
    case Name(x) => assert (PrintChain(e) + rest)[1..] == rest;
    case Select(base, field) =>
      var tail := [Dot, Identifier(field)] + rest;
      ChainComesBack(base, tail);
      assert PrintChain(e) + rest == PrintChain(base) + tail;
      hide ParsePrimary;
      ReadField(base, field, rest);
  }

  lemma ReadField(base: Expr, field: string, rest: seq<Token>)
    ensures ParseChain(base, [Dot, Identifier(field)] + rest) == ParseChain(Select(base, field), rest)
  {
    hide ParseArgList;
    assert ([Dot, Identifier(field)] + rest)[2..] == rest;
  }

  // Parsing the printed form of e, in front of other tokens, is parsing those tokens with e at hand.
  lemma {:induction false} InfixComesBack(e: Expr, prec: nat, m: nat, words: Spelling, at: seq<nat>, rest: seq<Token>)
    requires Printable(e) && prec <= m && EndsChain(Head(rest)) && BindingPower(Head(rest)) <= m + 1
    ensures ParseInfix(Print(e, m, words, at) + rest, prec) == ParseLoop(e, rest, prec)
    decreases e, 4
  {
    if e.Infix? && Level(e.op) > m {
      OperatorComesBack(e, prec, m, words, at, rest);
    } else {
      PrefixComesBack(e, m, words, at, rest);
    }
  }

  lemma LoopEnds(e: Expr, rest: seq<Token>, prec: nat)
    requires BindingPower(Head(rest)) <= prec
    ensures ParseLoop(e, rest, prec) == Parsed(Some(e), rest, true)
  {
  }

  // A bare infix tree: the left operand, the operator, and the right operand.
  lemma {:induction false} OperatorComesBack(e: Expr, prec: nat, m: nat, words: Spelling, at: seq<nat>,
          rest: seq<Token>)
    requires Printable(e) && e.Infix? && prec <= m < Level(e.op)
    requires EndsChain(Head(rest)) && BindingPower(Head(rest)) <= Level(e.op)
    ensures ParseInfix(PrintBare(e, words, at) + rest, prec) == ParseLoop(e, rest, prec)
    decreases e, 2
  {
    hide ParsePrefix, Print;
    var k, t := Level(e.op), InfixToken(e.op, words(at));
    var right := Print(e.r, k, words, at + [1]) + rest;
    var tail := [t] + right;
    assert PrintBare(e, words, at) + rest == Print(e.l, k - 1, words, at + [0]) + tail;
    InfixComesBack(e.l, prec, k - 1, words, at + [0], tail);
    InfixComesBack(e.r, k, k, words, at + [1], rest);
    LoopEnds(e.r, rest, k);
    assert tail[1..] == right;
  }

  // ----- single steps of the parser -----

  lemma ReadLiteral(v: Value, words: Spelling, at: seq<nat>, rest: seq<Token>)
    requires Printable(Lit(v))
    ensures ParsePrefix(PrintBare(Lit(v), words, at) + rest) == Parsed(Some(Lit(v)), rest, true)
  {
    hide ParseInfix, ParseChain;
    assert (PrintBare(Lit(v), words, at) + rest)[1..] == rest;
  }

  lemma ReadName(ts: seq<Token>)
    requires Head(ts).Identifier?
    ensures ParsePrefix(ts) == ParsePrimary(ts)
  {
    hide ParsePrimary;
  }

  lemma ReadPrefix(op: PrefixOp, word: bool, ts: seq<Token>, a: Expr, rest: seq<Token>)
    requires Head(ts) == PrefixToken(op, word) && ts != [] && ParsePrefix(ts[1..]) == Parsed(Some(a), rest, true)
    ensures ParsePrefix(ts) == Parsed(Some(Prefix(op, a)), rest, true)
  {
    hide ParsePrimary;
  }

  lemma ReadGroup(ts: seq<Token>, e: Expr, rest: seq<Token>)
    requires Head(ts) == LeftParen && ts != []
      && ParseInfix(ts[1..], NONE) == Parsed(Some(e), [RightParen] + rest, true)
    ensures ParsePrefix(ts) == Parsed(Some(e), rest, true)
  {
    hide ParseInfix, ParseChain;
  }

  lemma ReadCall(callee: Expr, args: seq<Expr>, ts: seq<Token>, rest: seq<Token>)
    requires Head(ts) == LeftParen && ts != [] && ParseArgList(ts[1..]) == (args, rest, true)
    ensures ParseChain(callee, ts) == Parsed(Some(Call(callee, args)), rest, true)
  {
    hide ParseArgList;
  }

  lemma ReadArgs(args: seq<Expr>, ts: seq<Token>, rest: seq<Token>)
    requires if args == [] then ts == [RightParen] + rest
             else Head(ts) != RightParen && ParseArgs([], ts) == (args, [RightParen] + rest, true)
    ensures ParseArgList(ts) == (args, rest, true)
  {
    hide ParseArgs;
  }

  // The argument a and what stands behind it.
  lemma ReadArg(args: seq<Expr>, ts: seq<Token>, a: Expr, tail: seq<Token>)
    requires |args| < ARGS_MAX && ParseInfix(ts, NONE) == Parsed(Some(a), tail, true)
    ensures ParseArgs(args, ts) == if Head(tail) == Comma then ParseArgs(args + [a], tail[1..])
      else (args + [a], tail, true)
  {
    hide ParseInfix;
  }

  // Everything but a bare infix tree is read in one go.
  lemma {:induction false} PrefixComesBack(e: Expr, m: nat, words: Spelling, at: seq<nat>, rest: seq<Token>)
    requires Printable(e) && (e.Infix? ==> Level(e.op) <= m) && EndsChain(Head(rest))
    ensures ParsePrefix(Print(e, m, words, at) + rest) == Parsed(Some(e), rest, true)
    decreases e, 3
  {
    hide ParsePrefix, ParsePrimary, ParseInfix;
    match e
    case Lit(v) => ReadLiteral(v, words, at, rest);
    case Name(_) =>
      ChainComesBack(e, rest);
      ReadName(PrintChain(e) + rest);
    case Select(_, _) =>
      ChainComesBack(e, rest);
      ReadName(PrintChain(e) + rest);
    case Call(callee, args) => CallComesBack(e, words, at, rest);
    case Prefix(op, a) =>
      PrefixComesBack(a, FACTOR, words, at + [0], rest);
      assert (PrintBare(e, words, at) + rest)[1..] == Print(a, FACTOR, words, at + [0]) + rest;
      ReadPrefix(op, words(at), PrintBare(e, words, at) + rest, a, rest);
    case Infix(op, l, r) =>
      var tail := [RightParen] + rest;
      OperatorComesBack(e, NONE, NONE, words, at, tail);
      LoopEnds(e, tail, NONE);
      assert (Print(e, m, words, at) + rest)[1..] == PrintBare(e, words, at) + tail;
      ReadGroup(Print(e, m, words, at) + rest, e, rest);
  }

  lemma {:induction false} CallComesBack(e: Expr, words: Spelling, at: seq<nat>, rest: seq<Token>)
    requires Printable(e) && e.Call?
    ensures ParsePrefix(PrintBare(e, words, at) + rest) == Parsed(Some(e), rest, true)
    decreases e, 1
  {
    hide ParsePrefix, ParsePrimary, ParseInfix, ParseChain, ParseArgList, ParseArgs, PrintChain, Print;
    var inner := PrintArgs(e.args, 0, words, at) + [RightParen] + rest;
    var tail := [LeftParen] + inner;
    ChainComesBack(e.callee, tail);
    assert PrintBare(e, words, at) + rest == PrintChain(e.callee) + tail;
    assert tail[1..] == inner;
    if e.args == [] {
      assert inner == [RightParen] + rest;
    } else {
      ArgsComeBack(e.args, 0, words, at, rest);
      FirstToken(e.args[0], NONE, words, at + [0]);
      assert e.args[..0] == [];
    }
    ReadArgs(e.args, inner, rest);
    ReadCall(e.callee, e.args, tail, rest);
    ReadName(PrintChain(e.callee) + tail);
  }

  // The first token of a printed tree starts an expression; in particular it closes nothing.
  lemma {:induction false} FirstToken(e: Expr, m: nat, words: Spelling, at: seq<nat>)
    requires Printable(e)
    ensures Print(e, m, words, at) != [] && Print(e, m, words, at)[0] != RightParen
    decreases e
  {
    match e
    case Lit(_) =>
    case Name(_) =>
    case Select(_, _) => ChainComesBack(e, []);
    case Call(callee, _) => ChainComesBack(callee, []);
    case Prefix(_, _) =>
    case Infix(op, l, _) => FirstToken(l, Level(op) - 1, words, at + [0]);
  }

  // What stands behind the argument i.
  function ArgTail(args: seq<Expr>, i: nat, words: Spelling, at: seq<nat>, rest: seq<Token>): seq<Token>
    requires i < |args| && forall a | a in args :: Printable(a)
  {
    (if i + 1 < |args| then [Comma] else []) + PrintArgs(args, i + 1, words, at) + [RightParen] + rest
  }

  lemma ArgPrinted(args: seq<Expr>, i: nat, words: Spelling, at: seq<nat>, rest: seq<Token>)
    requires i < |args| && forall a | a in args :: Printable(a)
    ensures PrintArgs(args, i, words, at) + [RightParen] + rest ==
      Print(args[i], NONE, words, at + [i]) + ArgTail(args, i, words, at, rest)
    ensures var tail := ArgTail(args, i, words, at, rest);
      if i + 1 < |args| then tail != [] && tail[0] == Comma && tail[1..] == PrintArgs(args, i + 1, words, at)
        + [RightParen] + rest
      else tail == [RightParen] + rest
  {
    hide Print, Printable;
  }

  lemma {:induction false} ArgsComeBack(args: seq<Expr>, i: nat, words: Spelling, at: seq<nat>, rest: seq<Token>)
    requires i < |args| <= ARGS_MAX && forall a | a in args :: Printable(a)
    ensures ParseArgs(args[..i], PrintArgs(args, i, words, at) + [RightParen] + rest)
      == (args, [RightParen] + rest, true)
    decreases args, |args| - i
  {
    hide ParseArgs, ParseInfix, ParseLoop, Print, PrintArgs, Printable, ArgTail;
    var tail := ArgTail(args, i, words, at, rest);
    ArgPrinted(args, i, words, at, rest);
    InfixComesBack(args[i], NONE, NONE, words, at + [i], tail);
    LoopEnds(args[i], tail, NONE);
    assert args[..i] + [args[i]] == args[..i + 1];
    ReadArg(args[..i], Print(args[i], NONE, words, at + [i]) + tail, args[i], tail);
    if i + 1 < |args| {
      ArgsComeBack(args, i + 1, words, at, rest);
    } else {
      assert args[..i + 1] == args;
    }
  }

  // Parsing inverts printing: every printable tree comes back from its tokens, however its operators are
  // spelled, exactly those tokens are consumed, and no error is reported.
  lemma ParsePrint(e: Expr, words: Spelling, at: seq<nat>, rest: seq<Token>)
    requires Printable(e) && EndsChain(Head(rest)) && BindingPower(Head(rest)) == NONE
    ensures ParseInfix(Print(e, NONE, words, at) + rest, NONE) == Parsed(Some(e), rest, true)
  {
    InfixComesBack(e, NONE, NONE, words, at, rest);
    LoopEnds(e, rest, NONE);
  }

  // A call takes 255 arguments; one more is reported, and left out.
  lemma ArgumentLimit(callee: Expr, args: seq<Expr>, more: seq<Token>)
    requires IsChain(callee) && |args| == 255 && forall a | a in args :: Printable(a)
    ensures Printable(Call(callee, args))
    ensures var r := ParseArgs(args, more); r.0 == args && !r.2
  {
  }

  // So different trees are never written alike, whatever the spelling of each.
  lemma PrintInjective(a: Expr, b: Expr, words: Spelling, words2: Spelling)
    requires Printable(a) && Printable(b) && Print(a, NONE, words, []) == Print(b, NONE, words2, [])
    ensures a == b
  {
    ParsePrint(a, words, [], []);
    ParsePrint(b, words2, [], []);
  }

  // A bare infix tree, piece by piece.
  lemma PrintInfix(op: InfixOp, l: Expr, r: Expr, m: nat, words: Spelling, at: seq<nat>)
    requires Printable(l) && Printable(r) && m < Level(op)
    ensures Printable(Infix(op, l, r))
    ensures Print(Infix(op, l, r), m, words, at) ==
      Print(l, Level(op) - 1, words, at + [0]) + [InfixToken(op, words(at))] + Print(r, Level(op), words, at + [1])
  {
  }

  // Operators of one level group to the left, whatever their operands are.
  lemma GroupsLeft(op: InfixOp, op2: InfixOp, a: Expr, b: Expr, c: Expr, words: Spelling)
    requires Printable(a) && Printable(b) && Printable(c) && Level(op) == Level(op2)
    ensures var k := Level(op);
      var ts := Print(a, k - 1, words, [0, 0]) + [InfixToken(op, words([0]))] + Print(b, k, words, [0, 1])
                + [InfixToken(op2, words([]))] + Print(c, k, words, [1]);
      ParseInfix(ts, NONE) == Parsed(Some(Infix(op2, Infix(op, a, b), c)), [], true)
  {
    hide ParseInfix, Print, Printable, InfixToken;
    var left := Infix(op, a, b);
    var e := Infix(op2, left, c);
    assert [] + [0] == [0] && [] + [1] == [1] && [0] + [0] == [0, 0] && [0] + [1] == [0, 1];
    PrintInfix(op, a, b, Level(op) - 1, words, [0]);
    PrintInfix(op2, left, c, NONE, words, []);
    ParsePrint(e, words, [], []);
    assert Print(e, NONE, words, []) + [] == Print(e, NONE, words, []);
  }

  // Prefix operators bind tighter than every infix operator.
  lemma PrefixBindsTighter(p: PrefixOp, op: InfixOp, a: Expr, b: Expr, words: Spelling)
    requires Printable(a) && Printable(b)
    ensures
      var ts := [PrefixToken(p, words([0]))] + Print(a, FACTOR, words, [0, 0]) + [InfixToken(op, words([]))]
                + Print(b, Level(op), words, [1]);
      ParseInfix(ts, NONE) == Parsed(Some(Infix(op, Prefix(p, a), b)), [], true)
  {
    assert Print(Prefix(p, a), Level(op) - 1, words, [0]) ==
      [PrefixToken(p, words([0]))] + Print(a, FACTOR, words, [0] + [0]);
    assert Printable(Prefix(p, a));
    hide ParseInfix, Print, Printable, InfixToken;
    var e := Infix(op, Prefix(p, a), b);
    assert [] + [0] == [0] && [] + [1] == [1] && [0] + [0] == [0, 0];
    PrintInfix(op, Prefix(p, a), b, NONE, words, []);
    ParsePrint(e, words, [], []);
    assert Print(e, NONE, words, []) + [] == Print(e, NONE, words, []);
  }

  // A parenthesis that is never closed is accepted without a word: whatever token stands where the closing
  // one belongs, the parser goes on as if there had been no parenthesis at all.
  lemma UnclosedGroupAccepted(ts: seq<Token>, prec: nat)
    requires var r := ParseInfix(ts, NONE); r.tree.Some? && Head(r.rest) != RightParen
    ensures ParseInfix([LeftParen] + ts, prec) == ParseInfix(ts, NONE)
  {
    var group := [LeftParen] + ts;
    assert group[1..] == ts;
    var r := ParseInfix(ts, NONE);
    assert ParsePrefix(group) == ParsePrimary(group) == r;
    StopsAtEnd(ts, NONE);
    LoopEnds(r.tree.value, r.rest, prec);
  }

  // An expression ends in front of a token that does not bind more tightly.
  lemma StopsAtEnd(ts: seq<Token>, prec: nat)
    requires ParseInfix(ts, prec).tree.Some?
    ensures BindingPower(Head(ParseInfix(ts, prec).rest)) <= prec
  {
    hide ParsePrefix;
    var lhs := ParsePrefix(ts);
    LoopStops(lhs.tree.value, lhs.rest, prec);
  }

  lemma {:induction false} LoopStops(lhs: Expr, ts: seq<Token>, prec: nat)
    requires ParseLoop(lhs, ts, prec).tree.Some?
    ensures BindingPower(Head(ParseLoop(lhs, ts, prec).rest)) <= prec
    decreases |ts|
  {
    hide ParseInfix;
    var t := Head(ts);
    if BindingPower(t) > prec {
      var rhs := ParseInfix(ts[1..], BindingPower(t));
      LoopStops(Infix(InfixType(t).value, lhs, rhs.tree.value), rhs.rest, prec);
    }
  }
}

// Which token builds which operator, and which operator binds more tightly, token by token.
module Precedence {
  import opened Wrappers
  import opened Values
  import opened Ast
  import opened Grammar
  import opened RoundTrip

  // The operators, from the loosest tier to the tightest.
  predicate Operator(t: Token, op: InfixOp, tier: nat) {
    match tier
    case 0 => t == Equal && op == Assign
    case 1 => (t == PipePipe || t == OrWord) && op == Or
    case 2 => (t == AmpAmp || t == AndWord) && op == And
    case 3 =>
      || (t == EqualEqual && op == Eq) || (t == BangEqual && op == Neq)
      || (t == LessThan && op == Lt) || (t == LessEqual && op == Le)
      || (t == GreaterThan && op == Gt) || (t == GreaterEqual && op == Ge) || (t == Question && op == Contains)
    case 4 => (t == Plus && op == Add) || (t == Minus && op == Sub)
    case 5 => (t == Star && op == Mul) || (t == Slash && op == Div) || ((t == Percent || t == ModWord) && op == Mod)
    case _ => false
  }

  // Tokens that stand for one operand, whatever comes behind them, unless it goes on with a name.
  ghost predicate Operand(x: seq<Token>, a: Expr) {
    forall rest | EndsChain(Head(rest)) :: ParsePrefix(x + rest) == Parsed(Some(a), rest, true)
  }

  // What a single token stands for.
  function Atom(t: Token): Option<Expr> {
    match t
    case Number(n) => Some(Lit(Int(n)))
    case Quoted(s) => Some(Lit(Str(s)))
    case Identifier(x) => Some(Name(x))
    case TrueWord => Some(Lit(Bool(true)))
    case FalseWord => Some(Lit(Bool(false)))
    case _ => None
  }

  // Literals and names are operands.
  lemma Atoms(t: Token)
    requires Atom(t).Some?
    ensures Operand([t], Atom(t).value)
  {
    hide ParseInfix, ParseArgList;
    forall rest | EndsChain(Head(rest))
      ensures ParsePrefix([t] + rest) == Parsed(Some(Atom(t).value), rest, true)
    {
      assert ([t] + rest)[1..] == rest;
      ChainEnds(Atom(t).value, rest);
    }
  }

  lemma ChainEnds(a: Expr, rest: seq<Token>)
    requires EndsChain(Head(rest))
    ensures ParseChain(a, rest) == Parsed(Some(a), rest, true)
  {
    hide ParseArgList;
  }

  // So is every printed tree that is no bare infix tree.
  lemma PrintedOperand(e: Expr, words: Spelling, at: seq<nat>)
    requires Printable(e)
    ensures Operand(Print(e, FACTOR, words, at), e)
  {
    hide ParsePrefix, Print;
    forall rest | EndsChain(Head(rest))
      ensures ParsePrefix(Print(e, FACTOR, words, at) + rest) == Parsed(Some(e), rest, true)
    {
      PrefixComesBack(e, FACTOR, words, at, rest);
    }
  }

  // A prefix operator in front of an operand is an operand.
  lemma Prefixes(x: seq<Token>, a: Expr)
    requires Operand(x, a)
    ensures Operand([Bang] + x, Prefix(Not, a)) && Operand([NotWord] + x, Prefix(Not, a))
    ensures Operand([Minus] + x, Prefix(Negate, a))
  {
    hide ParsePrefix;
    forall rest, t | EndsChain(Head(rest)) && (t == Bang || t == NotWord || t == Minus)
      ensures ParsePrefix([t] + x + rest) == Parsed(Some(Prefix(if t == Minus then Negate else Not, a)), rest, true)
    {
      assert ([t] + x + rest)[1..] == x + rest;
      ReadPrefix(if t == Minus then Negate else Not, t == NotWord, [t] + x + rest, a, rest);
    }
  }

  // The table says what the parser reads off a token.
  lemma Table(t: Token, op: InfixOp, tier: nat)
    requires Operator(t, op, tier)
    ensures InfixType(t) == Some(op) && BindingPower(t) == tier + 1 && EndsChain(t)
  {
  }

  lemma Listed(t: Token)
    requires InfixType(t).Some?
    ensures BindingPower(t) > 0 && Operator(t, InfixType(t).value, BindingPower(t) - 1)
  {
  }

  // One operator of the table, met while a looser one is being served.
  lemma LoopTakes(t: Token, op: InfixOp, tier: nat, lhs: Expr, x: seq<Token>, a: Expr, rest: seq<Token>, prec: nat)
    requires Operator(t, op, tier) && prec <= tier && Operand(x, a) && EndsChain(Head(rest))
    ensures ParseLoop(lhs, [t] + x + rest, prec) ==
      var r := ParseLoop(a, rest, tier + 1);
      if r.tree.None? then r else Also(ParseLoop(Infix(op, lhs, r.tree.value), r.rest, prec), r.clean)
  {
    hide ParseLoop, ParsePrefix, ParseInfix, InfixType, BindingPower;
    Table(t, op, tier);
    Starts(x, a, rest, tier + 1);
    var ts := [t] + x + rest;
    assert ts[1..] == x + rest && ts[0] == t;
    LoopTurn(lhs, ts, prec);
  }

  lemma LoopTurn(lhs: Expr, ts: seq<Token>, prec: nat)
    requires ts != [] && InfixType(ts[0]).Some? && BindingPower(ts[0]) > prec
    ensures ParseLoop(lhs, ts, prec) ==
      var r := ParseInfix(ts[1..], BindingPower(ts[0]));
      if r.tree.None? then r
      else Also(ParseLoop(Infix(InfixType(ts[0]).value, lhs, r.tree.value), r.rest, prec), r.clean)
  {
    hide ParseInfix, InfixType, BindingPower;
  }

  lemma Starts(x: seq<Token>, a: Expr, rest: seq<Token>, prec: nat)
    requires Operand(x, a) && EndsChain(Head(rest))
    ensures ParseInfix(x + rest, prec) == ParseLoop(a, rest, prec)
  {
    hide ParsePrefix, ParseLoop;
  }

  // A token of a looser tier, or none, ends it.
  lemma LoopStays(a: Expr, rest: seq<Token>, prec: nat, op: InfixOp, tier: nat)
    requires rest == [] || (Operator(rest[0], op, tier) && tier < prec)
    ensures ParseLoop(a, rest, prec) == Parsed(Some(a), rest, true)
  {
    if rest != [] { Table(rest[0], op, tier); }
    hide Operator;
    LoopEnds(a, rest, prec);
  }

  // Two operators: the one of the tighter tier takes the operand between them, and of two operators of one
  // tier the left one does.
  lemma Groups(t: Token, f: InfixOp, i: nat, u: Token, g: InfixOp, j: nat, x: seq<Token>, a: Expr,
          y: seq<Token>, b: Expr, z: seq<Token>, c: Expr)
    requires Operator(t, f, i) && Operator(u, g, j) && Operand(x, a) && Operand(y, b) && Operand(z, c)
    ensures ParseInfix(x + [t] + y + [u] + z, NONE) ==
      Parsed(Some(if i < j then Infix(f, a, Infix(g, b, c)) else Infix(g, Infix(f, a, b), c)), [], true)
  {
    hide ParseInfix, ParsePrefix, ParseLoop, Operand, Operator, EndsChain;
    var last := [u] + z + [];
    var tail := [t] + y + last;
    assert x + [t] + y + [u] + z == x + tail && last[0] == u;
    Table(t, f, i);
    Table(u, g, j);
    NoTokens();
    Starts(x, a, tail, NONE);
    LoopTakes(t, f, i, a, y, b, last, NONE);
    LoopStays(c, [], j + 1, g, j);
    if i < j {
      LoopTakes(u, g, j, b, z, c, [], i + 1);
      LoopStays(Infix(g, b, c), [], i + 1, g, j);
      LoopStays(Infix(f, a, Infix(g, b, c)), [], NONE, g, j);
    } else {
      LoopStays(b, last, i + 1, g, j);
      LoopTakes(u, g, j, Infix(f, a, b), z, c, [], NONE);
      LoopStays(Infix(g, Infix(f, a, b), c), [], NONE, g, j);
    }
  }

  lemma NoTokens()
    ensures EndsChain(Head([]))
  {
  }

  // A single operator builds its tree, and no other token does.
  lemma Builds(t: Token, op: InfixOp, tier: nat, x: seq<Token>, a: Expr, y: seq<Token>, b: Expr)
    requires Operator(t, op, tier) && Operand(x, a) && Operand(y, b)
    ensures ParseInfix(x + [t] + y, NONE) == Parsed(Some(Infix(op, a, b)), [], true)
  {
    hide ParseInfix, ParsePrefix, ParseLoop, Operand, Operator, EndsChain;
    var tail := [t] + y + [];
    assert x + [t] + y == x + tail;
    Table(t, op, tier);
    NoTokens();
    Starts(x, a, tail, NONE);
    LoopTakes(t, op, tier, a, y, b, [], NONE);
    LoopStays(b, [], tier + 1, op, tier);
    LoopStays(Infix(op, a, b), [], NONE, op, tier);
  }

  lemma BuildsNothing(t: Token, x: seq<Token>, a: Expr, rest: seq<Token>)
    requires Operand(x, a) && EndsChain(t) && forall op, tier: nat :: !Operator(t, op, tier)
    ensures ParseInfix(x + [t] + rest, NONE) == Parsed(Some(a), [t] + rest, true)
  {
    if InfixType(t).Some? {
      Listed(t);
    }
    hide ParsePrefix, Operand, Operator, InfixType;
    assert x + [t] + rest == x + ([t] + rest);
    Starts(x, a, [t] + rest, NONE);
    NotTaken(a, [t] + rest, NONE);
  }

  lemma NotTaken(a: Expr, ts: seq<Token>, prec: nat)
    requires InfixType(Head(ts)).None?
    ensures ParseLoop(a, ts, prec) == Parsed(Some(a), ts, true)
  {
    hide ParseInfix, InfixType, BindingPower;
  }

  // The levels that the printer counts with are these classes.
  lemma LevelsAreClasses(t: Token, op: InfixOp, tier: nat)
    requires Operator(t, op, tier)
    ensures Level(op) == tier + 1
  {
  }
}

// The printed form has as few parentheses as any tokens that parse to the same tree.
module Parentheses {
  import opened Wrappers
  import opened Values
  import opened Ast
  import opened Grammar
  import opened RoundTrip

  // Number of opening parentheses.
  function Opens(ts: seq<Token>): nat {
    if ts == [] then 0 else (if ts[0] == LeftParen then 1 else 0) + Opens(ts[1..])
  }

  // Number of parentheses, those of calls among them, that a tree cannot do without.
  function Needs(e: Expr, m: nat): nat
    decreases e, 1
  {
    if e.Infix? && Level(e.op) <= m then 1 + NeedsBare(e) else NeedsBare(e)
  }

  function NeedsBare(e: Expr): nat
    decreases e, 0
  {
    match e
    case Call(_, args) => 1 + NeedsArgs(args, |args|)
    case Prefix(_, a) => Needs(a, FACTOR)
    case Infix(op, l, r) => Needs(l, Level(op) - 1) + Needs(r, Level(op))
    case _ => 0
  }

  function NeedsArgs(args: seq<Expr>, n: nat): nat
    requires n <= |args|
    decreases args, n
  {
    if n == 0 then 0 else NeedsArgs(args, n - 1) + Needs(args[n - 1], NONE)
  }

  lemma {:induction false} OpensOfBoth(a: seq<Token>, b: seq<Token>)
    ensures Opens(a + b) == Opens(a) + Opens(b)
  {
    if a == [] {
      assert a + b == b;
    } else {
      assert (a + b)[1..] == a[1..] + b;
      OpensOfBoth(a[1..], b);
    }
  }

  // ----- the printer writes no more than that -----

  lemma {:induction false} ChainOpensNothing(e: Expr)
    requires IsChain(e)
    ensures Opens(PrintChain(e)) == 0
  {
    if e.Select? {
      ChainOpensNothing(e.base);
      OpensOfBoth(PrintChain(e.base), [Dot, Identifier(e.field)]);
      OpensOfBoth([Dot], [Identifier(e.field)]);
      assert [Dot] + [Identifier(e.field)] == [Dot, Identifier(e.field)];
    }
  }

  lemma {:induction false} PrintOpens(e: Expr, m: nat, words: Spelling, at: seq<nat>)
    requires Printable(e)
    ensures Opens(Print(e, m, words, at)) == Needs(e, m)
    decreases e, 2
  {
    BareOpens(e, words, at);
    hide PrintBare, NeedsBare;
    if e.Infix? && Level(e.op) <= m {
      var bare := PrintBare(e, words, at);
      OpensOfBoth([LeftParen] + bare, [RightParen]);
      OpensOfBoth([LeftParen], bare);
    }
  }

  lemma {:induction false} BareOpens(e: Expr, words: Spelling, at: seq<nat>)
    requires Printable(e)
    ensures Opens(PrintBare(e, words, at)) == NeedsBare(e)
    decreases e, 1
  {
    hide Print, Needs;
    match e
    case Lit(_) =>
    case Name(_) =>
    case Select(_, _) => ChainOpensNothing(e);
    case Call(callee, args) =>
      var name, inner := PrintChain(callee), PrintArgs(args, 0, words, at);
      ChainOpensNothing(callee);
      ArgsOpen(args, 0, words, at);
      OpensOfBoth(name + [LeftParen] + inner, [RightParen]);
      OpensOfBoth(name + [LeftParen], inner);
      OpensOfBoth(name, [LeftParen]);
    case Prefix(op, a) =>
      PrintOpens(a, FACTOR, words, at + [0]);
      OpensOfBoth([PrefixToken(op, words(at))], Print(a, FACTOR, words, at + [0]));
    case Infix(op, l, r) =>
      var left, right := Print(l, Level(op) - 1, words, at + [0]), Print(r, Level(op), words, at + [1]);
      PrintOpens(l, Level(op) - 1, words, at + [0]);
      PrintOpens(r, Level(op), words, at + [1]);
      OpensOfBoth(left + [InfixToken(op, words(at))], right);
      OpensOfBoth(left, [InfixToken(op, words(at))]);
  }

  lemma {:induction false} ArgsOpen(args: seq<Expr>, i: nat, words: Spelling, at: seq<nat>)
    requires i <= |args| && forall a | a in args :: Printable(a)
    ensures Opens(PrintArgs(args, i, words, at)) == NeedsArgs(args, |args|) - NeedsArgs(args, i)
    decreases args, |args| - i
  {
    hide Print, Needs;
    if i < |args| {
      var arg, comma := Print(args[i], NONE, words, at + [i]), if i + 1 < |args| then [Comma] else [];
      PrintOpens(args[i], NONE, words, at + [i]);
      ArgsOpen(args, i + 1, words, at);
      OpensOfBoth(arg + comma, PrintArgs(args, i + 1, words, at));
      OpensOfBoth(arg, comma);
    }
  }

  // ----- and the parser reads no fewer -----

  // What was read between ts and rest opened at least n parentheses.
  predicate Opened(ts: seq<Token>, rest: seq<Token>, n: nat) {
    Opens(rest) + n <= Opens(ts)
  }

  lemma NeedsMore(e: Expr, m: nat)
    ensures Needs(e, m) <= Needs(e, FACTOR) <= Needs(e, NONE) + 1
  {
    hide NeedsBare;
  }

  lemma {:induction false} InfixOpens(ts: seq<Token>, prec: nat)
    ensures var r := ParseInfix(ts, prec); Opened(ts, r.rest, if r.tree.Some? then Needs(r.tree.value, prec) else 0)
    decreases |ts|, 3
  {
    hide ParsePrefix, Needs, Opens;
    PrefixOpens(ts);
    var lhs := ParsePrefix(ts);
    if lhs.tree.Some? {
      var e := lhs.tree.value;
      var k := BindingPower(Head(lhs.rest));
      NeedsMore(e, prec);
      NeedsMore(e, if k > prec then k - 1 else prec);
      LoopOpens(e, lhs.rest, prec, Needs(e, FACTOR));
    }
  }

  lemma OpensOfRest(ts: seq<Token>)
    requires ts != []
    ensures Opens(ts[1..]) <= Opens(ts)
  {
  }

  // The left operand was read with b parentheses, enough for it in front of the next operator.
  lemma {:induction false} LoopOpens(lhs: Expr, ts: seq<Token>, prec: nat, b: nat)
    requires var k := BindingPower(Head(ts)); Needs(lhs, if k > prec then k - 1 else prec) <= b
    ensures var r := ParseLoop(lhs, ts, prec);
      Opens(r.rest) + (if r.tree.Some? then Needs(r.tree.value, prec) else 0) <= Opens(ts) + b
    decreases |ts|, 0
  {
    hide ParseInfix, Opens;
    var t := Head(ts);
    var k := BindingPower(t);
    if k > prec {
      var rhs := ParseInfix(ts[1..], k);
      InfixOpens(ts[1..], k);
      OpensOfRest(ts);
      if rhs.tree.Some? {
        var e := Infix(InfixType(t).value, lhs, rhs.tree.value);
        StopsAtEnd(ts[1..], k);
        var k2 := BindingPower(Head(rhs.rest));
        assert Needs(e, if k2 > prec then k2 - 1 else prec) == Needs(lhs, k - 1) + Needs(rhs.tree.value, k);
        LoopOpens(e, rhs.rest, prec, b + Needs(rhs.tree.value, k));
      }
    }
  }

  lemma {:induction false} PrefixOpens(ts: seq<Token>)
    ensures var r := ParsePrefix(ts); Opened(ts, r.rest, if r.tree.Some? then Needs(r.tree.value, FACTOR) else 0)
    decreases |ts|, 2
  {
    hide ParsePrimary;
    if ts != [] && PrefixType(ts[0]).Some? {
      PrefixOpens(ts[1..]);
    } else {
      PrimaryOpens(ts);
    }
  }

  lemma {:induction false} PrimaryOpens(ts: seq<Token>)
    ensures var r := ParsePrimary(ts); Opened(ts, r.rest, if r.tree.Some? then Needs(r.tree.value, FACTOR) else 0)
    decreases |ts|, 1
  {
    hide ParseInfix, ParseChain;
    if ts != [] {
      match ts[0]
      case Identifier(x) => ChainOpens(Name(x), ts[1..]);
      case LeftParen =>
        InfixOpens(ts[1..], NONE);
        var r := ParseInfix(ts[1..], NONE);
        if r.tree.Some? {
          NeedsMore(r.tree.value, NONE);
        }
      case _ =>
    }
  }

  lemma {:induction false} ChainOpens(lhs: Expr, ts: seq<Token>)
    requires NeedsBare(lhs) == 0 && !lhs.Infix?
    ensures var r := ParseChain(lhs, ts); Opened(ts, r.rest, if r.tree.Some? then Needs(r.tree.value, FACTOR) else 0)
    decreases |ts|, 0
  {
    hide ParseArgList;
    match Head(ts)
    case Dot =>
      assert ts != [] ==> Opens(ts[1..]) == Opens(ts);
      if |ts| > 1 && ts[1].Identifier? {
        assert ts[1..][1..] == ts[2..];
        ChainOpens(Select(lhs, ts[1].x), ts[2..]);
      }
    case LeftParen => ArgListOpens(ts[1..]);
    case _ =>
  }

  lemma {:induction false} ArgListOpens(ts: seq<Token>)
    ensures var (args, rest, _) := ParseArgList(ts); Opened(ts, rest, NeedsArgs(args, |args|))
    decreases |ts|, 5
  {
    hide ParseArgs;
    if Head(ts) != RightParen {
      ArgsOpened([], ts);
    }
  }

  lemma {:induction false} ArgsOpened(args: seq<Expr>, ts: seq<Token>)
    ensures var (all, rest, _) := ParseArgs(args, ts);
      NeedsArgs(all, |all|) + Opens(rest) <= NeedsArgs(args, |args|) + Opens(ts)
    decreases |ts|, 4
  {
    hide ParseInfix;
    InfixOpens(ts, NONE);
    var n := ParseInfix(ts, NONE);
    if |args| != ARGS_MAX {
      var a := if n.tree.Some? then n.tree.value else Missing;
      OneMoreArg(args, a);
      if Head(n.rest) == Comma {
        ArgsOpened(args + [a], n.rest[1..]);
      }
    }
  }

  lemma OneMoreArg(args: seq<Expr>, a: Expr)
    ensures NeedsArgs(args + [a], |args| + 1) == NeedsArgs(args, |args|) + Needs(a, NONE)
  {
    hide Needs;
    SameArgs(args, args + [a], |args|);
  }

  lemma {:induction false} SameArgs(args: seq<Expr>, more: seq<Expr>, n: nat)
    requires n <= |args| && args <= more
    ensures NeedsArgs(args, n) == NeedsArgs(more, n)
    decreases n
  {
    hide Needs;
    if n > 0 {
      SameArgs(args, more, n - 1);
    }
  }

  // Any tokens that are read as e have at least the parentheses of its printed form.
  lemma FewestParens(e: Expr, words: Spelling, ts: seq<Token>)
    requires Printable(e) && ParseInfix(ts, NONE).tree == Some(e)
    ensures Opens(Print(e, NONE, words, [])) + Opens(ParseInfix(ts, NONE).rest) <= Opens(ts)
  {
    hide ParseInfix, Print;
    PrintOpens(e, NONE, words, []);
    InfixOpens(ts, NONE);
  }

  // So none of them can be left out: without any of the printed pairs, the tokens are another tree or none.
  lemma NoneToSpare(e: Expr, words: Spelling, i: nat, j: nat)
    requires Printable(e)
    requires var p := Print(e, NONE, words, []); i < j < |p| && p[i] == LeftParen && p[j] == RightParen
    ensures var p := Print(e, NONE, words, []); ParseInfix(p[..i] + p[i + 1..j] + p[j + 1..], NONE).tree != Some(e)
  {
    hide ParseInfix, Print, Opens;
    var p := Print(e, NONE, words, []);
    var less := p[..i] + p[i + 1..j] + p[j + 1..];
    Without(p, i, j);
    if ParseInfix(less, NONE).tree == Some(e) {
      FewestParens(e, words, less);
      assert false;
    }
  }

  lemma Without(p: seq<Token>, i: nat, j: nat)
    requires i < j < |p| && p[i] == LeftParen && p[j] == RightParen
    ensures Opens(p[..i] + p[i + 1..j] + p[j + 1..]) + 1 == Opens(p)
  {
    var a, b, c := p[..i], p[i + 1..j], p[j + 1..];
    assert p == a + ([LeftParen] + (b + ([RightParen] + c)));
    OpensOfBoth(a, [LeftParen] + (b + ([RightParen] + c)));
    OpensOfBoth([LeftParen], b + ([RightParen] + c));
    OpensOfBoth(b, [RightParen] + c);
    OpensOfBoth([RightParen], c);
    OpensOfBoth(a + b, c);
    OpensOfBoth(a, b);
  }
}

module Parsing {
  import opened Wrappers
  import opened Values
  import opened Ast
  import opened Grammar

  // The parser itself: a position in the tokens, and whether an error was reported.
  class ExprParser {
    const tokens: seq<Token>
    var pos: nat
    var clean: bool

    constructor (tokens: seq<Token>)
      ensures this.tokens == tokens && Valid() && Rest() == tokens && clean
    {
      this.tokens, pos, clean := tokens, 0, true;
    }

    ghost predicate Valid()
      reads `pos
    {
      pos <= |tokens|
    }

    ghost function Rest(): seq<Token>
      requires Valid()
      reads `pos
    {
      tokens[pos..]
    }

    // The parser is where parsing on values ends up.
    twostate predicate Agrees(new n: Option<Expr>, new r: Parsed)
      reads this
    {
      Valid() && n == r.tree && Rest() == r.rest && clean == (old(clean) && r.clean)
    }

    // The current token; the end of the tokens is a token of its own.
    method Token() returns (t: Grammar.Token)
      requires Valid()
      ensures t == Head(Rest())
    {
      return if pos < |tokens| then tokens[pos] else Other;
    }

    method Advance()
      requires Valid() && Rest() != []
      modifies `pos
      ensures Valid() && Rest() == old(Rest())[1..] && pos == old(pos) + 1
    {
      pos := pos + 1;
    }

    method Match(t: Grammar.Token) returns (matched: bool)
      requires Valid() && t != Other
      modifies `pos
      ensures Valid() && matched == (Head(old(Rest())) == t) && Rest() == if matched then old(Rest())[1..]
        else old(Rest())
      ensures matched ==> old(Rest()) != []
    {
      var current := Token();
      matched := current == t;
      if matched {
        Advance();
      }
    }

    method InfixExpr(lhs: Option<Expr>, prec: nat) returns (n: Option<Expr>)
      requires Valid()
      modifies this
      ensures Agrees(n, if lhs.None? then ParseInfix(old(Rest()), prec) else ParseLoop(lhs.value, old(Rest()), prec))
      decreases |tokens| - pos, 4
    {
      hide ParsePrefix, PrefixType;
      ghost var r := if lhs.None? then ParseInfix(Rest(), prec) else ParseLoop(lhs.value, Rest(), prec);
      n := lhs;
      if n.None? {
        n := PrefixExpr();
        if n.None? {
          return;
        }
      }
      while true
        invariant Valid() && n.Some? && pos >= old(pos)
        invariant var o := ParseLoop(n.value, Rest(), prec);
          r.tree == o.tree && r.rest == o.rest && (old(clean) && r.clean) == (clean && o.clean)
        decreases |tokens| - pos
      {
        var t := Token();
        var tPrec := BindingPower(t);
        if tPrec > prec {
          Advance();
          var rhs := InfixExpr(None, tPrec);
          if rhs.None? {
            return None;
          }
          n := Some(Infix(InfixType(t).value, n.value, rhs.value));
        } else {
          return;
        }
      }
    }

    method PrefixExpr() returns (n: Option<Expr>)
      requires Valid()
      modifies this
      ensures Agrees(n, ParsePrefix(old(Rest()))) && pos >= old(pos)
      decreases |tokens| - pos, 3
    {
      var t := Token();
      if PrefixType(t).Some? {
        Advance();
        n := PrefixExpr();
        if n.None? {
          return;
        }
        n := Some(Prefix(PrefixType(t).value, n.value));
      } else {
        n := PrimaryExpr();
      }
    }

    method PrimaryExpr() returns (n: Option<Expr>)
      requires Valid()
      modifies this
      ensures Agrees(n, ParsePrimary(old(Rest()))) && pos >= old(pos)
      decreases |tokens| - pos, 2
    {
      var t := Token();
      match t
      case Number(k) => Advance(); return Some(Lit(Int(k)));
      case TrueWord => Advance(); return Some(Lit(Bool(true)));
      case FalseWord => Advance(); return Some(Lit(Bool(false)));
      case Quoted(s) => Advance(); return Some(Lit(Str(s)));
      case Identifier(x) => n := IdentifierExpr();
      case LeftParen =>
        Advance();
        n := InfixExpr(None, NONE);
        if n.None? {
          return;
        }
        var closed := Match(RightParen);
        if !closed {
          return;
        }
      case _ => return None;
    }

    // A name, and the selectors and the call behind it.
    method IdentifierExpr() returns (n: Option<Expr>)
      requires Valid() && Head(Rest()).Identifier?
      modifies this
      ensures Agrees(n, ParseChain(Name(Head(old(Rest())).x), old(Rest())[1..])) && pos >= old(pos)
      decreases |tokens| - pos, 1
    {
      var t := Token();
      ghost var r := ParseChain(Name(t.x), Rest()[1..]);
      Advance();
      var lhs := Name(t.x);
      while true
        invariant Valid() && pos > old(pos) && clean == old(clean) && r == ParseChain(lhs, Rest())
        decreases |tokens| - pos
      {
        t := Token();
        match t
        case Dot =>
          Advance();
          t := Token();
          if !t.Identifier? {
            clean := false;
            return None;
          }
          Advance();
          lhs := Select(lhs, t.x);
        case LeftParen =>
          var args := ArgList();
          return Some(Call(lhs, args));
        case _ => return Some(lhs);
      }
    }

    method ArgList() returns (args: seq<Expr>)
      requires Valid() && Head(Rest()) == LeftParen
      modifies this
      ensures Valid() && pos > old(pos)
      ensures var r := ParseArgList(old(Rest())[1..]); args == r.0 && Rest() == r.1 && clean == (old(clean) && r.2)
      decreases |tokens| - pos, 0
    {
      Advance();
      ghost var start := Rest();
      args := [];
      var t := Token();
      if t != RightParen {
        ghost var r := ParseArgs([], start);
        var more := true;
        while more
          invariant Valid() && pos > old(pos) && start == old(Rest())[1..]
          invariant var o := ParseArgs(args, Rest());
            more ==> r.0 == o.0 && r.1 == o.1 && (old(clean) && r.2) == (clean && o.2)
          invariant !more ==> args == r.0 && Rest() == r.1 && clean == (old(clean) && r.2)
          decreases more, |tokens| - pos
        {
          ghost var before := pos;
          var n := InfixExpr(None, NONE);
          if |args| == ARGS_MAX {
            clean := false;
            break;
          }
          args := args + [if n.Some? then n.value else Missing];
          more := Match(Comma);
        }
      }
      var closed := Match(RightParen);
      if !closed {
        clean := false;
      }
    }
  }
}
