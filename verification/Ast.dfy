// The vocabulary shared by the parser, the code generator and the virtual machine:
// runtime values and their operators, expression trees, statements and paths.

module Wrappers {
  datatype Option<+T> = None | Some(value: T)
}

module Values {
  import opened Wrappers

  // Runtime values.  Floats are not part of the model; integers are unbounded.
  datatype Value = Int(n: int) | Bool(b: bool) | Str(s: string)

  // Binary operators of the expression grammar.
  datatype InfixOp =
    | Or | And | Assign
    | Eq | Neq | Lt | Le | Gt | Ge | Contains
    | Add | Sub | Mul | Div | Mod

  // Only the boolean false is falsey: zero and the empty string are not.
  predicate Falsey(v: Value) {
    v == Bool(false)
  }

  // Division and remainder of C: the quotient is truncated toward zero.
  function TruncDiv(a: int, b: int): (q: int)
    requires b != 0
  {
    var x := if a < 0 then -a else a;
    var y := if b < 0 then -b else b;
    if (a < 0) == (b < 0) then x / y else -(x / y)
  }

  function TruncMod(a: int, b: int): int
    requires b != 0
  {
    a - b * TruncDiv(a, b)
  }

  function Digits(n: nat): string {
    if n < 10 then ['0' + n as char] else Digits(n / 10) + ['0' + (n % 10) as char]
  }

  function ToText(v: Value): string {
    match v
    case Int(n) => if n < 0 then "-" + Digits(-n) else Digits(n)
    case Bool(b) => if b then "true" else "false"
    case Str(s) => s
  }

  function ToNumber(v: Value): Option<int> {
    match v
    case Int(n) => Some(n)
    case Bool(b) => Some(if b then 1 else 0)
    case Str(_) => None
  }

  predicate IsArith(op: InfixOp) {
    op.Add? || op.Sub? || op.Mul? || op.Div? || op.Mod?
  }

  predicate IsComparison(op: InfixOp) {
    op.Eq? || op.Lt? || op.Le? || op.Gt? || op.Ge?
  }

  // Numeric operands: two booleans are rejected, a boolean next to a number counts as 0 or 1.
  function Operands(a: Value, b: Value): Option<(int, int)> {
    if a.Bool? && b.Bool? then None else
    match (ToNumber(a), ToNumber(b))
    case (Some(x), Some(y)) => Some((x, y))
    case (_, _) => None
  }

  function IntArith(op: InfixOp, x: int, y: int): Option<int>
    requires IsArith(op)
  {
    match op
    case Add => Some(x + y)
    case Sub => Some(x - y)
    case Mul => Some(x * y)
    case Div => if y == 0 then None else Some(TruncDiv(x, y))
    case Mod => if y == 0 then None else Some(TruncMod(x, y))
  }

  function Arith(op: InfixOp, a: Value, b: Value): Option<Value>
    requires IsArith(op)
  {
    if op.Add? && (a.Str? || b.Str?) then Some(Str(ToText(a) + ToText(b))) else
    match Operands(a, b)
    case None => None
    case Some((x, y)) =>
      match IntArith(op, x, y)
      case None => None
      case Some(z) => Some(Int(z))
  }

  // Equality never fails: values of different types are unequal.
  function Compare(op: InfixOp, a: Value, b: Value): Option<Value>
    requires IsComparison(op)
  {
    if op.Eq? then Some(Bool(a == b)) else
    match Operands(a, b)
    case None => None
    case Some((x, y)) =>
      Some(Bool(if op.Lt? then x < y else if op.Le? then x <= y else if op.Gt? then x > y else x >= y))
  }
}

module Ast {
  import opened Wrappers
  import opened Values

  datatype PrefixOp = Not | Negate

  // Expression trees as the parser builds them.  Missing stands for a null child.
  datatype Expr =
    | Lit(v: Value)
    | Name(id: string)
    | Select(base: Expr, field: string)
    | Call(callee: Expr, args: seq<Expr>)
    | Prefix(pre: PrefixOp, arg: Expr)
    | Infix(op: InfixOp, l: Expr, r: Expr)
    | Missing

  datatype Case = Case(test: Expr, body: seq<Stmt>)

  // The else branch of a conditional, if there is one.
  datatype Final = NoElse | Else(body: seq<Stmt>)

  // Items of a content line.
  datatype Item =
    | Text(s: string)
    | Logic(e: Expr)
    | Glue
    | If(cond: Expr, body: seq<Stmt>, els: seq<Stmt>)
    | MultiIf(cases: seq<Case>, final: Final)
    | Switch(subject: Expr, cases: seq<Case>, final: Final)

  // One branch of a choice: the three optional pieces of its label, and its body.
  datatype Branch = Branch(start: Option<string>, option: Option<string>, inner: Option<string>, body: seq<Stmt>)

  datatype Stmt =
    | Decl(name: string, init: Expr, isConst: bool)
    | Set(name: string, rhs: Expr)
    | Do(e: Expr)
    | Return(e: Expr)
    | Content(items: seq<Item>)
    | Divert(target: string)
    | DivertWith(target: string, args: seq<Expr>)
    | Choices(branches: seq<Branch>)
    | Gather

  // The name of the path that holds everything in front of the first knot.
  const MAIN := "@main"

  // A knot or a function.
  datatype PathDef = PathDef(params: seq<string>, body: seq<Stmt>, isFunction: bool)
}
