// Running code that is laid out for a tree does what the reference evaluator says the tree means.

module Correctness {
  import opened Wrappers
  import opened Values
  import opened Ast
  import opened Output
  import opened Shape
  import opened Opcodes
  import opened Machine
  import opened Meaning
  import opened Layout
  import opened Goals

  function Knowns(vs: seq<Value>): seq<Slot> { seq(|vs|, i requires 0 <= i < |vs| => Known(vs[i])) }

  // The parameters in scope sit in the slots below base.
  ghost predicate Binds(vis: Slots, base: nat, ps: Scope, a: Config) {
    && vis.Keys == ps.Keys
    && forall x | x in vis :: vis[x] < base && a.sp + vis[x] < |a.live| && a.live[a.sp + vis[x]] == Known(ps[x])
  }

  // The n slots from base up are reserved, and nothing relies on them.
  ghost predicate Free(a: Config, base: nat, n: nat) {
    && a.sp + base + n <= |a.live|
    && forall i | a.sp + base <= i < a.sp + base + n :: a.live[i].Junk?
  }

  // A place that an early exit can lead to.
  ghost predicate CanLeave(prog: Program, a: Config, l: Leave) {
    && (l.Back? ==> a.under != [] && a.sp <= |a.live|)
    && (l.To? ==>
          && l.path in prog && prog[l.path].arity == |l.args|
          && |l.args| + prog[l.path].locals <= STACK_MAX)
  }

  // There is headroom for everything the evaluator counted.
  ghost predicate Fits<T>(prog: Program, a: Config, o: Outcome<T>) {
    && !o.Bad?
    && |a.live| + o.cost.cells <= STACK_MAX
    && |a.under| + 1 + o.cost.frames <= STACK_MAX
    && (o.Gone? ==> CanLeave(prog, a, o.leave))
  }

  // Where a block that is left early ends up.
  ghost function Away(prog: Program, a: Config, l: Leave, w: World): Goal
    requires CanLeave(prog, a, l)
  {
    match l
    case To(f, vs) => There(Arrived(prog, f, Knowns(vs), w))
    case End => Done(w)
    case Back(v) =>
      var caller := a.under[|a.under| - 1];
      There(Config(caller.path, caller.ip, caller.sp, a.under[..|a.under| - 1], a.live[..a.sp] + [Known(v)], w))
  }

  // The same, seen from the caller: a return comes back to its frame.
  ghost function Resumed(prog: Program, called: Config, l: Leave, w: World): Goal
    requires CanLeave(prog, called, l)
  {
    if l.Back? then At(Away(prog, called, l, w).c) else Away(prog, called, l, w)
  }

  // Given the headroom, the machine gets from a to b, or leaves, exactly as the outcome says.
  ghost predicate Does<T>(prog: Program, a: Config, b: Config, o: Outcome<T>) {
    Fits(prog, a, o) ==> Gets(prog, a, if o.Ok? then At(b.(w := o.w)) else Away(prog, a, o.leave, o.w))
  }

  // ----- composing runs -----

  // m has the frame of a and everything of a's stack that a return would keep.
  ghost predicate SameFrame(a: Config, m: Config, k: nat) {
    && m.path == a.path && m.under == a.under && m.sp == a.sp && |m.live| == |a.live| + k
    && (a.sp <= |a.live| ==> m.live[..a.sp] == a.live[..a.sp])
  }

  // o1, and then o2, which starts k cells higher.
  lemma Chain<T, U>(prog: Program, a: Config, m: Config, b: Config, k: nat, o1: Outcome<T>, o2: Outcome<U>)
    requires o1.Ok? && SameFrame(a, m, k)
    requires Does(prog, a, m, o1) && Does(prog, m.(w := o1.w), b, o2)
    ensures Does(prog, a, b, Meaning.After(o1.cost, k, o2))
  {
    var o := Meaning.After(o1.cost, k, o2);
    if Fits(prog, a, o) {
      var m1 := m.(w := o1.w);
      Then(prog, a, m1, if o.Ok? then At(b.(w := o.w)) else Away(prog, m1, o.leave, o.w));
    }
  }

  // o1, left early.
  lemma Early<T, U>(prog: Program, a: Config, m: Config, b: Config, o1: Outcome<T>, o: Outcome<U>)
    requires !o1.Ok? && o == Pass(o1) && Does(prog, a, m, o1)
    ensures Does(prog, a, b, o)
  {
  }

  // One more instruction after a part that did not leave.
  lemma Finish<T, U>(prog: Program, a: Config, m: Config, b: Config, o1: Outcome<T>, o: Outcome<U>)
    requires o1.Ok? && o.Ok? && o.cost == o1.cost
    requires Does(prog, a, m, o1) && Gets(prog, m.(w := o1.w), At(b.(w := o.w)))
    ensures Does(prog, a, b, o)
  {
    if Fits(prog, a, o) {
      Then(prog, a, m.(w := o1.w), At(b.(w := o.w)));
    }
  }

  lemma Nothing<T>(prog: Program, a: Config, o: Outcome<T>)
    requires o.Ok? && o.w == a.w
    ensures Does(prog, a, a, o)
  {
    Stay(prog, a);
  }

  ghost predicate Ready(src: Source, prog: Program, a: Config) {
    Compiled(src, prog) && Inside(prog, a)
  }

  // ----- expressions -----

  // Where an expression of the given length ends.
  ghost function Ended(a: Config, len: nat, o: Outcome<Value>): Config {
    if o.Ok? then Pushed(a, len, o.value) else a
  }

  lemma {:induction false} ExprRuns(src: Source, prog: Program, e: Expr, vis: Slots, base: nat, ps: Scope,
          a: Config, fuel: nat)
    requires Ready(src, prog, a) && Binds(vis, base, ps, a)
    requires ExprAt(e, Code(prog, a), a.ip, Pool(prog, a), vis)
    ensures var o := EvalExpr(src, e, ps, a.w, fuel); Does(prog, a, Ended(a, ExprLen(e), o), o)
    decreases 2 * fuel, e, 2
  {
    hide EvalPath, EvalArgs, ArgsLen, ArgsAt, Does;
    match e
    case Lit(v) => LitRuns(prog, e, a, Pool(prog, a), vis);
    case Name(x) =>
      NameRuns(prog, x, vis, base, ps, a);
      if Lookup(x, ps, a.w).None? { Hopeless(prog, a, a, EvalExpr(src, e, ps, a.w, fuel)); }
    case Prefix(op, arg) =>
      ExprRuns(src, prog, arg, vis, base, ps, a, fuel);
      PrefixRuns(prog, a, ExprLen(arg), op, EvalExpr(src, arg, ps, a.w, fuel), EvalExpr(src, e, ps, a.w, fuel));
    case Infix(_, _, _) => InfixRuns(src, prog, e, vis, base, ps, a, fuel);
    case Call(callee, args) => CallRuns(src, prog, e, vis, base, ps, a, fuel);
    case Select(_, _) => Hopeless(prog, a, a, EvalExpr(src, e, ps, a.w, fuel));
    case Missing => Hopeless(prog, a, a, EvalExpr(src, e, ps, a.w, fuel));
  }

  // Both operands of an infix operator, and what is done with them.
  lemma {:induction false} InfixRuns(src: Source, prog: Program, e: Expr, vis: Slots, base: nat, ps: Scope,
          a: Config, fuel: nat)
    requires Ready(src, prog, a) && Binds(vis, base, ps, a) && e.Infix?
    requires ExprAt(e, Code(prog, a), a.ip, Pool(prog, a), vis)
    ensures var o := EvalExpr(src, e, ps, a.w, fuel); Does(prog, a, Ended(a, ExprLen(e), o), o)
    decreases 2 * fuel, e, 1
  {
    hide Does, Binds, Compiled;
    if e.op.And? || e.op.Or? {
      LogicalRuns(src, prog, e, vis, base, ps, a, fuel);
    } else {
      PlainInfixRuns(src, prog, e, vis, base, ps, a, fuel);
    }
  }

  lemma {:induction false} LogicalRuns(src: Source, prog: Program, e: Expr, vis: Slots, base: nat, ps: Scope,
          a: Config, fuel: nat)
    requires Ready(src, prog, a) && Binds(vis, base, ps, a) && e.Infix? && (e.op.And? || e.op.Or?)
    requires ExprAt(e, Code(prog, a), a.ip, Pool(prog, a), vis)
    ensures var o := EvalExpr(src, e, ps, a.w, fuel); Does(prog, a, Ended(a, ExprLen(e), o), o)
    decreases 2 * fuel, e, 0
  {
    hide EvalPath, EvalArgs, ArgsLen, ArgsAt, Does, Binds, Compiled, JumpAt, OpAt, BinaryByte, Binary, Falsey, Lookup;
    var Infix(op, l, r) := e;
    ExprRuns(src, prog, l, vis, base, ps, a, fuel);
    var ol := EvalExpr(src, l, ps, a.w, fuel);
    if ol.Ok? {
      var m := a.(ip := a.ip + ExprLen(l) + 4);
      BindsAbove(vis, base, ps, a, m.(w := ol.w));
      ExprRuns(src, prog, r, vis, base, ps, m.(w := ol.w), fuel);
      ShortCircuitRuns(prog, a, ExprLen(l), ExprLen(r), if op.And? then JMP_F else JMP_T, ol,
        EvalExpr(src, r, ps, ol.w, fuel));
    }
  }

  lemma {:induction false} PlainInfixRuns(src: Source, prog: Program, e: Expr, vis: Slots, base: nat, ps: Scope,
          a: Config, fuel: nat)
    requires Ready(src, prog, a) && Binds(vis, base, ps, a) && e.Infix? && !e.op.And? && !e.op.Or?
    requires ExprAt(e, Code(prog, a), a.ip, Pool(prog, a), vis)
    ensures var o := EvalExpr(src, e, ps, a.w, fuel); Does(prog, a, Ended(a, ExprLen(e), o), o)
    decreases 2 * fuel, e, 0
  {
    hide EvalPath, EvalArgs, ArgsLen, ArgsAt, Does, Binds, Compiled, JumpAt, OpAt, BinaryByte, Binary, Falsey, Lookup;
    var Infix(op, l, r) := e;
    ExprRuns(src, prog, l, vis, base, ps, a, fuel);
    var ol := EvalExpr(src, l, ps, a.w, fuel);
    if ol.Ok? {
      var m := Pushed(a, ExprLen(l), ol.value);
      BindsAbove(vis, base, ps, a, m.(w := ol.w));
      ExprRuns(src, prog, r, vis, base, ps, m.(w := ol.w), fuel);
      StrictRuns(prog, a, ExprLen(l), ExprLen(r), op, ol, EvalExpr(src, r, ps, ol.w, fuel));
    }
  }

  // What is pushed on top leaves the parameters where they are.
  lemma BindsAbove(vis: Slots, base: nat, ps: Scope, a: Config, b: Config)
    requires Binds(vis, base, ps, a) && b.sp == a.sp && a.live <= b.live
    ensures Binds(vis, base, ps, b)
  {
  }

  lemma Hopeless<T>(prog: Program, a: Config, b: Config, o: Outcome<T>)
    requires o.Bad?
    ensures Does(prog, a, b, o)
  {
  }

  lemma NameRuns(prog: Program, x: string, vis: Slots, base: nat, ps: Scope, a: Config)
    requires Inside(prog, a) && Binds(vis, base, ps, a)
    requires if x in vis then SlotAt(Code(prog, a), a.ip, LOAD, vis[x])
      else ConstAt(Code(prog, a), a.ip, LOAD_GLOBAL, Pool(prog, a), Str(x))
    ensures match Lookup(x, ps, a.w)
            case Some(v) => Does(prog, a, Pushed(a, 2, v), Ok(v, a.w, Cost(1, 0)))
            case None => true
  {
    if |a.live| < STACK_MAX {
      if x in vis { ByLoad(prog, a, vis[x], ps[x]); } else if x in a.w.globals { ByLoadGlobal(prog, a, x); }
    }
  }

  lemma LitRuns(prog: Program, e: Expr, a: Config, pool: seq<Value>, vis: Slots)
    requires Inside(prog, a) && e.Lit? && pool == Pool(prog, a)
    requires ExprAt(e, Code(prog, a), a.ip, pool, vis)
    ensures Does(prog, a, Pushed(a, ExprLen(e), e.v), Ok(e.v, a.w, Cost(1, 0)))
  {
    if |a.live| < STACK_MAX {
      if e.v.Bool? { ByBool(prog, a, e.v.b); } else { ByConst(prog, a, e.v); }
    }
  }

  lemma PrefixRuns(prog: Program, a: Config, len: nat, op: PrefixOp, oa: Outcome<Value>, o: Outcome<Value>)
    requires Inside(prog, a) && Does(prog, a, Ended(a, len, oa), oa)
    requires OpAt(Code(prog, a), a.ip + len, if op.Not? then NOT else NEG)
    requires o == if op.Negate? then Bad(Unsupported) else if oa.Ok? then Ok(Bool(Falsey(oa.value)), oa.w, oa.cost)
      else oa
    ensures Does(prog, a, Ended(a, len + 1, o), o)
  {
    if op.Not? && oa.Ok? {
      NotRuns(prog, a, len, oa);
    }
  }

  lemma NotRuns(prog: Program, a: Config, len: nat, o: Outcome<Value>)
    requires Inside(prog, a) && o.Ok? && Does(prog, a, Pushed(a, len, o.value), o)
    requires OpAt(Code(prog, a), a.ip + len, NOT)
    ensures Does(prog, a, Pushed(a, len + 1, Bool(Falsey(o.value))), Ok(Bool(Falsey(o.value)), o.w, o.cost))
  {
    var m := Pushed(a, len, o.value);
    ByNot(prog, m.(w := o.w));
    assert Popped(m, 1).live == a.live;
    Finish(prog, a, m, Pushed(a, len + 1, Bool(Falsey(o.value))), o, Ok(Bool(Falsey(o.value)), o.w, o.cost));
  }

  // The right operand of && and || runs after the left value was popped, or not at all.
  lemma ShortCircuitRuns(prog: Program, a: Config, left: nat, right: nat, op: byte, ol: Outcome<Value>,
          or: Outcome<Value>)
    requires Inside(prog, a) && ol.Ok? && Does(prog, a, Pushed(a, left, ol.value), ol)
    requires op == JMP_T || op == JMP_F
    requires JumpAt(Code(prog, a), a.ip + left, op, a.ip + left + 4 + right)
    requires OpAt(Code(prog, a), a.ip + left + 3, POP)
    requires var m := a.(ip := a.ip + left + 4, w := ol.w); Does(prog, m, Ended(m, right, or), or)
    ensures var o := if Falsey(ol.value) == (op == JMP_F) then ol else Meaning.After(ol.cost, 0, or);
      Does(prog, a, Ended(a, left + right + 4, o), o)
  {
    hide Does;
    var a1 := Pushed(a, left, ol.value);
    var end := a.ip + left + 4 + right;
    if Falsey(ol.value) == (op == JMP_F) {
      BranchTaken(prog, a, a1, op, end, ol);
    } else {
      BranchPassed(prog, a, a1, op, end, ol);
      SecondOperand(prog, a, a.(ip := a1.ip + 4, w := ol.w), right, ol, or);
    }
  }

  lemma SecondOperand(prog: Program, a: Config, m: Config, right: nat, ol: Outcome<Value>, or: Outcome<Value>)
    requires ol.Ok? && m == a.(ip := m.ip, w := ol.w) && Does(prog, a, a.(ip := m.ip), ol)
    requires Does(prog, m, Ended(m, right, or), or) && m.ip >= a.ip
    ensures var o := Meaning.After(ol.cost, 0, or); Does(prog, a, Ended(a, m.ip - a.ip + right, o), o)
  {
    Chain(prog, a, a.(ip := m.ip), Ended(m, right, or), 0, ol, or);
  }

  // A conditional jump that is taken keeps the value it looked at.
  lemma BranchTaken(prog: Program, a: Config, a1: Config, op: byte, t: nat, o: Outcome<Value>)
    requires Inside(prog, a1) && a1.live != [] && Top(a1).Known? && o.Ok? && Does(prog, a, a1, o)
    requires (op == JMP_T && !Falsey(Top(a1).v)) || (op == JMP_F && Falsey(Top(a1).v))
    requires JumpAt(Code(prog, a1), a1.ip, op, t)
    ensures Does(prog, a, a1.(ip := t), o)
  {
    ByBranch(prog, a1.(w := o.w), op, t);
    Finish(prog, a, a1, a1.(ip := t), o, o);
  }

  // One that is not taken is followed by a pop.
  lemma BranchPassed(prog: Program, a: Config, a1: Config, op: byte, t: nat, o: Outcome<Value>)
    requires Inside(prog, a1) && a1.live != [] && Top(a1).Known? && o.Ok? && Does(prog, a, a1, o)
    requires (op == JMP_T && Falsey(Top(a1).v)) || (op == JMP_F && !Falsey(Top(a1).v))
    requires a1.live[..|a1.live| - 1] == a.live && a1 == a.(ip := a1.ip, live := a1.live)
    requires JumpAt(Code(prog, a1), a1.ip, op, t) && OpAt(Code(prog, a1), a1.ip + 3, POP)
    ensures Does(prog, a, a.(ip := a1.ip + 4), o)
  {
    ByBranch(prog, a1.(w := o.w), op, t);
    hide Does, Gets, JumpAt, Falsey;
    var a2 := a1.(ip := a1.ip + 3);
    Finish(prog, a, a1, a2, o, o);
    PopRuns(prog, a, a2, o, o);
  }

  // Drop the value that a part left on the stack.
  lemma PopRuns<T, U>(prog: Program, a: Config, a1: Config, o1: Outcome<T>, o: Outcome<U>)
    requires Inside(prog, a1) && a1.live != [] && Top(a1).Known?
    requires o1.Ok? && o.Ok? && o.cost == o1.cost && o.w == o1.w && Does(prog, a, a1, o1)
    requires a1.live[..|a1.live| - 1] == a.live && a1 == a.(ip := a1.ip, live := a1.live)
    requires OpAt(Code(prog, a1), a1.ip, POP)
    ensures Does(prog, a, a.(ip := a1.ip + 1), o)
  {
    ByPop(prog, a1.(w := o.w));
    Finish(prog, a, a1, a.(ip := a1.ip + 1), o1, o);
  }

  lemma StrictRuns(prog: Program, a: Config, left: nat, right: nat, op: InfixOp, ol: Outcome<Value>, or: Outcome<Value>)
    requires Inside(prog, a) && ol.Ok? && Does(prog, a, Pushed(a, left, ol.value), ol)
    requires !op.And? && !op.Or? && !op.Contains? && !op.Assign?
    requires OpAt(Code(prog, a), a.ip + left + right, BinaryByte(op))
    requires op.Neq? ==> OpAt(Code(prog, a), a.ip + left + right + 1, NOT)
    requires var m := Pushed(a, left, ol.value).(w := ol.w); Does(prog, m, Ended(m, right, or), or)
    ensures var o := if !or.Ok? then Meaning.After(ol.cost, 1, or) else
                     match Binary(op, ol.value, or.value)
                     case Some(v) => Ok(v, or.w, Join(ol.cost, Above(1, 0, or.cost)))
                     case None => Bad(IllTyped);
      Does(prog, a, Ended(a, left + right + (if op.Neq? then 2 else 1), o), o)
  {
    hide BinaryByte, OpAt, Binary, Gets;
    var a1 := Pushed(a, left, ol.value);
    Chain(prog, a, a1, Ended(a1.(w := ol.w), right, or), 1, ol, or);
    if or.Ok? && Binary(op, ol.value, or.value).Some? {
      OperatorRuns(prog, a, left + right, op, ol.value, or.value, Meaning.After(ol.cost, 1, or));
    }
  }

  // Both operands are on the stack.
  lemma OperatorRuns(prog: Program, a: Config, len: nat, op: InfixOp, x: Value, y: Value, o: Outcome<Value>)
    requires Inside(prog, a) && o.Ok?
    requires Does(prog, a, Pushed(Pushed(a, len, x), 0, y), o)
    requires !op.And? && !op.Or? && !op.Contains? && !op.Assign?
    requires OpAt(Code(prog, a), a.ip + len, BinaryByte(op)) && (op.Neq? ==> OpAt(Code(prog, a), a.ip + len + 1, NOT))
    requires Binary(op, x, y).Some?
    ensures var v := Binary(op, x, y).value;
      Does(prog, a, Pushed(a, len + (if op.Neq? then 2 else 1), v), Ok(v, o.w, o.cost))
  {
    hide Does, Gets;
    if op.Neq? {
      PlainRuns(prog, a, len, Eq, x, y, o);
      NotRuns(prog, a, len + 1, Ok(Bool(x == y), o.w, o.cost));
    } else {
      PlainRuns(prog, a, len, op, x, y, o);
    }
  }

  lemma PlainRuns(prog: Program, a: Config, len: nat, op: InfixOp, x: Value, y: Value, o: Outcome<Value>)
    requires Inside(prog, a) && o.Ok? && Does(prog, a, Pushed(Pushed(a, len, x), 0, y), o)
    requires (IsArith(op) || IsComparison(op)) && OpAt(Code(prog, a), a.ip + len, BinaryByte(op))
    requires Binary(op, x, y).Some?
    ensures var v := Binary(op, x, y).value;
      Does(prog, a, Pushed(a, len + 1, v), Ok(v, o.w, o.cost))
  {
    hide Does, Gets, Arith, Compare, BinaryByte;
    var m, u := Pushed(Pushed(a, len, x), 0, y), Binary(op, x, y).value;
    assert m.live == a.live + [Known(x), Known(y)];
    ByBinary(prog, m.(w := o.w), op, x, y, u);
    assert Popped(Popped(m, 1), 0).live == a.live;
    Finish(prog, a, m, Pushed(a, len + 1, u), o, Ok(u, o.w, o.cost));
  }

  // Where the arguments from i on are all on the stack.
  ghost function Loaded(a: Config, len: nat, o: Outcome<seq<Value>>): Config {
    if o.Ok? then a.(ip := a.ip + len, live := a.live + Knowns(o.value)) else a
  }

  lemma {:induction false} ArgsRun(src: Source, prog: Program, args: seq<Expr>, i: nat, vis: Slots, base: nat,
          ps: Scope, a: Config, at: nat, fuel: nat)
    requires i <= |args| && Ready(src, prog, a) && Binds(vis, base, ps, a)
    requires a.ip == at + ArgsLen(args, i)
    requires ArgsAt(args, |args|, Code(prog, a), at, Pool(prog, a), vis)
    ensures var o := EvalArgs(src, args, i, ps, a.w, fuel);
      && ArgsLen(args, i) <= ArgsLen(args, |args|)
      && Does(prog, a, Loaded(a, ArgsLen(args, |args|) - ArgsLen(args, i), o), o)
    decreases 2 * fuel, args, |args| - i
  {
    hide ExprAt, EvalExpr, ExprLen, Does;
    ArgsLenGrows(args, i, |args|);
    var o := EvalArgs(src, args, i, ps, a.w, fuel);
    if i == |args| {
      assert a.live + Knowns([]) == a.live;
      Nothing(prog, a, o);
    } else {
      var oe := EvalExpr(src, args[i], ps, a.w, fuel);
      assert ArgIn(args, i, Code(prog, a), at, Pool(prog, a), vis);
      ExprRuns(src, prog, args[i], vis, base, ps, a, fuel);
      if oe.Ok? {
        var a1 := Pushed(a, ExprLen(args[i]), oe.value).(w := oe.w);
        ArgsRun(src, prog, args, i + 1, vis, base, ps, a1, at, fuel);
        NextArg(prog, a, ExprLen(args[i]), ArgsLen(args, |args|) - ArgsLen(args, i + 1), oe,
          EvalArgs(src, args, i + 1, ps, oe.w, fuel));
      } else {
        Early(prog, a, a, a, oe, o);
      }
    }
  }

  lemma NextArg(prog: Program, a: Config, len: nat, more: nat, oe: Outcome<Value>, or: Outcome<seq<Value>>)
    requires oe.Ok? && Does(prog, a, Pushed(a, len, oe.value), oe)
    requires var m := Pushed(a, len, oe.value).(w := oe.w); Does(prog, m, Loaded(m, more, or), or)
    ensures var o := if or.Ok? then Ok([oe.value] + or.value, or.w, Join(oe.cost, Above(1, 0, or.cost)))
      else Meaning.After(oe.cost, 1, or);
      Does(prog, a, Loaded(a, len + more, o), o)
  {
    hide Gets;
    var a1 := Pushed(a, len, oe.value);
    Chain(prog, a, a1, Loaded(a1.(w := oe.w), more, or), 1, oe, or);
    if or.Ok? {
      assert a1.live + Knowns(or.value) == a.live + Knowns([oe.value] + or.value);
    }
  }

  lemma {:induction false} ArgsLenGrows(args: seq<Expr>, i: nat, j: nat)
    requires i <= j <= |args|
    ensures ArgsLen(args, i) <= ArgsLen(args, j)
    ensures i < j ==> ArgsLen(args, i) + ExprLen(args[i]) <= ArgsLen(args, j)
    decreases j
  {
    if i < j {
      ArgsLenGrows(args, i, j - 1);
    }
  }

  // A call replaces its arguments by one result, whatever the callee did above them.
  lemma {:induction false} CallRuns(src: Source, prog: Program, e: Expr, vis: Slots, base: nat, ps: Scope,
          a: Config, fuel: nat)
    requires Ready(src, prog, a) && Binds(vis, base, ps, a)
    requires e.Call?
    requires ExprAt(e, Code(prog, a), a.ip, Pool(prog, a), vis)
    ensures var o := EvalExpr(src, e, ps, a.w, fuel); Does(prog, a, Ended(a, ExprLen(e), o), o)
    decreases 2 * fuel, e, 0
  {
    var f, args := e.callee.id, e.args;
    var oa := EvalArgs(src, args, 0, ps, a.w, fuel);
    ArgsRun(src, prog, args, 0, vis, base, ps, a, a.ip, fuel);
    if oa.Ok? && fuel > 0 && !EvalPath(src, f, oa.value, oa.w, fuel - 1).Bad? {
      var op := EvalPath(src, f, oa.value, oa.w, fuel - 1);
      var a1 := Loaded(a, ArgsLen(args, |args|), oa);
      CalleeRuns(src, prog, f, oa.value, a, a1.(w := oa.w), op, fuel - 1);
      Invoked(prog, a, a1, ExprLen(e), oa, op);
    }
  }

  // The callee, seen from its caller: b holds the arguments on top of a's stack.
  lemma {:induction false} CalleeRuns(src: Source, prog: Program, f: string, vs: seq<Value>, a: Config, b: Config,
          o: Outcome<()>, fuel: nat)
    requires Ready(src, prog, b) && b == a.(ip := b.ip, live := a.live + Knowns(vs), w := b.w)
    requires ConstAt(Code(prog, b), b.ip, CALL, Pool(prog, b), Str(f))
    requires o == EvalPath(src, f, vs, b.w, fuel) && !o.Bad?
    ensures var called := a.(under := a.under + [Frame(b.path, b.ip + 2, b.sp)], sp := |a.live|);
      |a.live| + o.cost.cells <= STACK_MAX && |a.under| + 1 + o.cost.frames <= STACK_MAX
        && CanLeave(prog, called, o.leave) ==>
        Gets(prog, b, Resumed(prog, called, o.leave, o.w))
    decreases 2 * fuel + 1, 1
  {
    var called := a.(under := a.under + [Frame(b.path, b.ip + 2, b.sp)], sp := |a.live|);
    if |a.live| + o.cost.cells <= STACK_MAX && |a.under| + 1 + o.cost.frames <= STACK_MAX
      && CanLeave(prog, called, o.leave) {
      assert CompiledPath(src, prog, f);
      ByCall(prog, b, f);
      var c := Entered(prog, b, f);
      PathRuns(src, prog, f, vs, a.live, c, fuel);
      assert c.live[..c.sp] == a.live == called.live[..called.sp];
      ThroughCall(prog, b, c, Away(prog, called, o.leave, o.w), Resumed(prog, called, o.leave, o.w));
    }
  }

  // What a call costs and yields, put together.
  lemma Invoked(prog: Program, a: Config, a1: Config, len: nat, oa: Outcome<seq<Value>>, op: Outcome<()>)
    requires oa.Ok? && !op.Ok? && !op.Bad?
    requires a1.ip + 2 == a.ip + len && a1 == a.(ip := a1.ip, live := a1.live)
    requires Does(prog, a, a1, oa)
    requires var called := a.(under := a.under + [Frame(a.path, a1.ip + 2, a.sp)], sp := |a.live|);
      |a.live| + op.cost.cells <= STACK_MAX && |a.under| + 1 + op.cost.frames <= STACK_MAX
        && CanLeave(prog, called, op.leave) ==>
        Gets(prog, a1.(w := oa.w), Resumed(prog, called, op.leave, op.w))
    ensures var o := Meaning.After(oa.cost, 0, Result(op)); Does(prog, a, Ended(a, len, o), o)
  {
    var o := Meaning.After(oa.cost, 0, Result(op));
    var called := a.(under := a.under + [Frame(a.path, a1.ip + 2, a.sp)], sp := |a.live|);
    if Fits(prog, a, o) {
      assert called.live[..|a.live|] == a.live;
      assert called.under[..|called.under| - 1] == a.under;
      Then(prog, a, a1.(w := oa.w), Resumed(prog, called, op.leave, op.w));
    }
  }

  // From its entry, a path returns to its caller, diverts or ends the story as evaluated.
  lemma {:induction false} PathRuns(src: Source, prog: Program, f: string, vs: seq<Value>, below: seq<Slot>,
          a: Config, fuel: nat)
    requires Compiled(src, prog) && f in src && |vs| == |src[f].params|
    requires a.path == f && a.ip == 0 && a.sp == |below| && f in prog
    requires a.live == below + Knowns(vs) + Reserved(prog[f].locals)
    requires var o := EvalPath(src, f, vs, a.w, fuel);
      && !o.Bad?
      && |below| + o.cost.cells <= STACK_MAX && |a.under| + o.cost.frames <= STACK_MAX
      && CanLeave(prog, a, o.leave)
    ensures var o := EvalPath(src, f, vs, a.w, fuel);
      Gets(prog, a, Away(prog, a, o.leave, o.w))
    decreases 2 * fuel + 1, 0
  {
    var d := src[f];
    assert CompiledPath(src, prog, f);
    var ob := EvalStmts(src, d.body, 0, ParamScope(d.params, vs), a.w, fuel);
    ParamsBind(d.params, vs, a, below, prog[f].locals);
    StmtsRun(src, prog, d.body, 0, ParamSlots(d.params), |d.params|, ParamScope(d.params, vs), a, 0, fuel);
    if ob.Ok? {
      var b := a.(ip := BlockLen(d.body), w := ob.w);
      ByExit(prog, b);
      Then(prog, a, b, Done(ob.w));
    }
  }

  lemma ParamsBind(params: seq<string>, vs: seq<Value>, a: Config, below: seq<Slot>, n: nat)
    requires |params| == |vs| && Distinct(params)
    requires a.sp == |below| && a.live == below + Knowns(vs) + Reserved(n)
    ensures Binds(ParamSlots(params), |params|, ParamScope(params, vs), a)
    ensures Free(a, |params|, n)
  {
    hide ParamSlots, ParamScope, Knowns, Reserved;
    var vis, ps := ParamSlots(params), ParamScope(params, vs);
    forall x
      ensures
        && (x in vis <==> x in ps)
        && (x in vis ==> vis[x] < |params| && a.sp + vis[x] < |a.live| && a.live[a.sp + vis[x]] == Known(ps[x]))
    {
      ParamBinds(params, vs, a, below, n, x);
    }
    LocalsFree(vs, a, below, n);
  }

  lemma ParamBinds(params: seq<string>, vs: seq<Value>, a: Config, below: seq<Slot>, n: nat, x: string)
    requires |params| == |vs| && Distinct(params)
    requires a.sp == |below| && a.live == below + Knowns(vs) + Reserved(n)
    ensures var (vis, ps) := (ParamSlots(params), ParamScope(params, vs));
      && (x in vis <==> x in ps)
      && (x in vis ==> vis[x] < |params| && a.sp + vis[x] < |a.live| && a.live[a.sp + vis[x]] == Known(ps[x]))
  {
    if i :| 0 <= i < |params| && params[i] == x {
      ParamFound(params, vs, i);
      ParamLies(vs, a, below, n, i);
      hide ParamSlots, ParamScope, Knowns, Reserved;
    } else {
      assert x !in ParamSlots(params) && x !in ParamScope(params, vs);
    }
  }

  lemma ParamLies(vs: seq<Value>, a: Config, below: seq<Slot>, n: nat, i: nat)
    requires a.sp == |below| && a.live == below + Knowns(vs) + Reserved(n) && i < |vs|
    ensures a.sp + i < |a.live| && a.live[a.sp + i] == Known(vs[i])
  {
  }

  lemma LocalsFree(vs: seq<Value>, a: Config, below: seq<Slot>, n: nat)
    requires a.sp == |below| && a.live == below + Knowns(vs) + Reserved(n)
    ensures Free(a, |vs|, n)
  {
  }

  lemma ParamFound(params: seq<string>, vs: seq<Value>, i: nat)
    requires |params| == |vs| && Distinct(params) && i < |params|
    ensures var (vis, ps) := (ParamSlots(params), ParamScope(params, vs));
      params[i] in vis && params[i] in ps && vis[params[i]] == i && ps[params[i]] == vs[i]
  {
  }

  // ----- statements -----

  // A statement may hide a parameter, and nothing else changes for the next one.
  lemma NextScope(ss: seq<Stmt>, i: nat, vis: Slots, base: nat, ps: Scope, a: Config, b: Config, qs: Scope)
    requires i < |ss| && Binds(VisAfter(ss, i, vis), base, ps, a) && b.sp == a.sp && b.live == a.live
    requires qs == if ss[i].Decl? then ps - {ss[i].name} else ps
    ensures Binds(VisAfter(ss, i + 1, vis), base, qs, b)
  {
  }

  lemma StillFree(base: nat, n: nat, a: Config, b: Config)
    requires Free(a, base, n) && b.sp == a.sp && b.live == a.live
    ensures Free(b, base, n)
  {
  }

  lemma FreeWithin(base: nat, n: nat, a: Config, lower: nat, m: nat)
    requires Free(a, base, n) && base <= lower && lower + m <= base + n
    ensures Free(a, lower, m)
  {
  }

  lemma {:induction false} StmtsRun(src: Source, prog: Program, ss: seq<Stmt>, i: nat, vis: Slots, base: nat,
          ps: Scope, a: Config, at: nat, fuel: nat)
    requires i <= |ss| && Ready(src, prog, a)
    requires Binds(VisAfter(ss, i, vis), base, ps, a) && Free(a, base, StmtsSlots(ss, |ss|))
    requires a.ip == at + StmtsLen(ss, i)
    requires StmtsAt(ss, |ss|, Code(prog, a), at, Pool(prog, a), vis, base)
    ensures var o := EvalStmts(src, ss, i, ps, a.w, fuel);
      Does(prog, a, a.(ip := at + StmtsLen(ss, |ss|)), o)
    decreases 2 * fuel, ss, |ss| - i
  {
    hide StmtAt, EvalStmt, StmtLen, StmtSlots, Binds, Free, VisAfter, Compiled, Gets;
    var o := EvalStmts(src, ss, i, ps, a.w, fuel);
    if i == |ss| {
      Nothing(prog, a, o);
    } else {
      var os := EvalStmt(src, ss[i], ps, a.w, fuel);
      StmtsGrow(ss, i, |ss|);
      BindsUpTo(VisAfter(ss, i, vis), base, base + StmtsSlots(ss, i), ps, a);
      assert StmtIn(ss, i, Code(prog, a), at, Pool(prog, a), vis, base);
      FreeWithin(base, StmtsSlots(ss, |ss|), a, base + StmtsSlots(ss, i), StmtSlots(ss[i]));
      StmtRuns(src, prog, ss[i], VisAfter(ss, i, vis), base + StmtsSlots(ss, i), ps, a, fuel);
      if os.Ok? {
        var a1 := a.(ip := a.ip + StmtLen(ss[i]));
        ScopeStep(src, ss[i], ps, a.w, fuel);
        NextScope(ss, i, vis, base, ps, a, a1.(w := os.w), os.value);
        StillFree(base, StmtsSlots(ss, |ss|), a, a1.(w := os.w));
        StmtsRun(src, prog, ss, i + 1, vis, base, os.value, a1.(w := os.w), at, fuel);
        Chain(prog, a, a1, a.(ip := at + StmtsLen(ss, |ss|)), 0, os, EvalStmts(src, ss, i + 1, os.value, os.w, fuel));
      } else {
        Early(prog, a, a.(ip := a.ip + StmtLen(ss[i])), a.(ip := at + StmtsLen(ss, |ss|)), os, o);
      }
    }
  }

  lemma BindsUpTo(vis: Slots, base: nat, higher: nat, ps: Scope, a: Config)
    requires Binds(vis, base, ps, a) && base <= higher
    ensures Binds(vis, higher, ps, a)
  {
  }

  lemma {:induction false} StmtsGrow(ss: seq<Stmt>, i: nat, j: nat)
    requires i <= j <= |ss|
    ensures StmtsLen(ss, i) <= StmtsLen(ss, j) && StmtsSlots(ss, i) <= StmtsSlots(ss, j)
    ensures i < j ==> StmtsSlots(ss, i) + StmtSlots(ss[i]) <= StmtsSlots(ss, j)
    decreases j
  {
    if i < j {
      StmtsGrow(ss, i, j - 1);
    }
  }

  // Only a declaration changes which parameters are in scope.
  lemma ScopeStep(src: Source, s: Stmt, ps: Scope, w: World, fuel: nat)
    requires EvalStmt(src, s, ps, w, fuel).Ok?
    ensures EvalStmt(src, s, ps, w, fuel).value == if s.Decl? then ps - {s.name} else ps
  {
  }

  lemma {:induction false} BlockRuns(src: Source, prog: Program, ss: seq<Stmt>, vis: Slots, base: nat, ps: Scope,
          a: Config, fuel: nat)
    requires Ready(src, prog, a) && Binds(vis, base, ps, a) && Free(a, base, BlockSlots(ss))
    requires BlockAt(ss, Code(prog, a), a.ip, Pool(prog, a), vis, base)
    ensures Does(prog, a, a.(ip := a.ip + BlockLen(ss)), EvalBlock(src, ss, ps, a.w, fuel))
    decreases 2 * fuel, ss, |ss| + 1
  {
    StmtsRun(src, prog, ss, 0, vis, base, ps, a, a.ip, fuel);
  }

  lemma {:induction false} StmtRuns(src: Source, prog: Program, s: Stmt, vis: Slots, base: nat, ps: Scope,
          a: Config, fuel: nat)
    requires Ready(src, prog, a) && Binds(vis, base, ps, a) && Free(a, base, StmtSlots(s))
    requires StmtAt(s, Code(prog, a), a.ip, Pool(prog, a), vis, base)
    ensures Does(prog, a, a.(ip := a.ip + StmtLen(s)), EvalStmt(src, s, ps, a.w, fuel))
    decreases 2 * fuel, s, 0
  {
    hide Does, EvalExpr, EvalArgs, EvalItems, ExprLen, ExprAt, ArgsAt, ItemsAt;
    var o := EvalStmt(src, s, ps, a.w, fuel);
    match s
    case Decl(x, e, _) =>
      ExprRuns(src, prog, e, vis, base, ps, a, fuel);
      StoreRuns(prog, a, ExprLen(e), x, EvalExpr(src, e, ps, a.w, fuel), o);
    case Set(x, e) =>
      ExprRuns(src, prog, e, vis, base, ps, a, fuel);
      StoreRuns(prog, a, ExprLen(e), x, EvalExpr(src, e, ps, a.w, fuel), o);
    case Do(e) =>
      ExprRuns(src, prog, e, vis, base, ps, a, fuel);
      DropRuns(prog, a, ExprLen(e), EvalExpr(src, e, ps, a.w, fuel), o);
    case Return(e) =>
      ExprRuns(src, prog, e, vis, base, ps, a, fuel);
      ReturnRuns(prog, a, ExprLen(e), EvalExpr(src, e, ps, a.w, fuel));
    case Content(items) =>
      ItemsRun(src, prog, items, 0, vis, base, ps, a, a.ip, fuel);
      LineRuns(prog, a, ItemsLen(items, |items|), EndsLine(items), EvalItems(src, items, 0, ps, a.w, fuel), o);
    case Divert(target) =>
      if IsEnd(target) {
        EndRuns(prog, a, a.(ip := a.ip + 1));
      } else {
        assert a.live + Knowns([]) == a.live;
        Nothing(prog, a, Pure<seq<Value>>([], a.w));
        DepartRuns(src, prog, a, 0, target, Pure([], a.w));
      }
    case DivertWith(target, args) =>
      ArgsRun(src, prog, args, 0, vis, base, ps, a, a.ip, fuel);
      DepartRuns(src, prog, a, ArgsLen(args, |args|), target, EvalArgs(src, args, 0, ps, a.w, fuel));
    case Choices(_) => Hopeless(prog, a, a.(ip := a.ip + StmtLen(s)), o);
    case Gather => Nothing(prog, a, o);
  }

  lemma EndRuns(prog: Program, a: Config, b: Config)
    requires Inside(prog, a) && OpAt(Code(prog, a), a.ip, EXIT)
    ensures Does<Scope>(prog, a, b, Gone(End, a.w, Cost(0, 0)))
  {
    ByExit(prog, a);
  }

  lemma DropRuns(prog: Program, a: Config, len: nat, oe: Outcome<Value>, o: Outcome<Scope>)
    requires Inside(prog, a) && Does(prog, a, Ended(a, len, oe), oe)
    requires OpAt(Code(prog, a), a.ip + len, POP)
    requires if oe.Ok? then o.Ok? && o.w == oe.w && o.cost == oe.cost else o == Pass(oe)
    ensures Does(prog, a, a.(ip := a.ip + len + 1), o)
  {
    if oe.Ok? {
      PopRuns(prog, a, Pushed(a, len, oe.value), oe, o);
    }
  }

  // Storing a value under a global name and dropping it.
  lemma StoreRuns(prog: Program, a: Config, len: nat, x: string, oe: Outcome<Value>, o: Outcome<Scope>)
    requires Inside(prog, a) && Does(prog, a, Ended(a, len, oe), oe)
    requires StoreAt(x, Code(prog, a), a.ip + len, Pool(prog, a))
    requires if oe.Ok? then o.Bad? || (o.Ok? && o.w == Store(x, oe.value, oe.w) && o.cost == oe.cost) else o == Pass(oe)
    ensures Does(prog, a, a.(ip := a.ip + len + 3), o)
  {
    if oe.Ok? && o.Ok? {
      var a1 := Pushed(a, len, oe.value);
      ByStoreGlobal(prog, a1.(w := oe.w), x);
      var a2 := a1.(ip := a1.ip + 2);
      Finish(prog, a, a1, a2, oe, o);
      PopRuns(prog, a, a2, o, o);
    }
  }

  lemma ReturnRuns(prog: Program, a: Config, len: nat, oe: Outcome<Value>)
    requires Inside(prog, a) && Does(prog, a, Ended(a, len, oe), oe)
    requires OpAt(Code(prog, a), a.ip + len, RET)
    ensures var o := if oe.Ok? then Gone(Back(oe.value), oe.w, oe.cost) else Pass<Value, Scope>(oe);
      Does(prog, a, a.(ip := a.ip + len + 1), o)
  {
    if oe.Ok? {
      var o: Outcome<Scope> := Gone(Back(oe.value), oe.w, oe.cost);
      if Fits(prog, a, o) {
        var a1 := Pushed(a, len, oe.value).(w := oe.w);
        ByReturn(prog, a1);
        assert a1.live[..a1.sp] == a.live[..a.sp];
        Then(prog, a, a1, Away(prog, a, o.leave, o.w));
      }
    }
  }

  // The line break after a content line.
  lemma LineRuns(prog: Program, a: Config, len: nat, line: bool, oi: Outcome<()>, o: Outcome<Scope>)
    requires Inside(prog, a) && Does(prog, a, a.(ip := a.ip + len), oi)
    requires line ==> OpAt(Code(prog, a), a.ip + len, LINE)
    requires if oi.Ok? then o.Ok? && o.w == (if line then Emit("\n", oi.w) else oi.w) && o.cost == oi.cost
             else o == Pass(oi)
    ensures Does(prog, a, a.(ip := a.ip + len + if line then 1 else 0), o)
  {
    if oi.Ok? {
      var a1 := a.(ip := a.ip + len);
      if line {
        ByLine(prog, a1.(w := oi.w));
        Finish(prog, a, a1, a1.(ip := a1.ip + 1), oi, o);
      }
    }
  }

  // A divert, with its arguments on the stack.
  lemma DepartRuns(src: Source, prog: Program, a: Config, len: nat, target: string, oa: Outcome<seq<Value>>)
    requires Ready(src, prog, a) && Does(prog, a, Loaded(a, len, oa), oa)
    requires ConstAt(Code(prog, a), a.ip + len, DIVERT, Pool(prog, a), Str(target))
    ensures var o := if oa.Ok? then Depart(src, target, oa.value, oa.w, oa.cost) else Pass(oa);
      Does(prog, a, a.(ip := a.ip + len + 2), o)
  {
    if oa.Ok? {
      var o := Depart(src, target, oa.value, oa.w, oa.cost);
      if Fits(prog, a, o) {
        var b := Loaded(a, len, oa).(w := oa.w);
        ByDivert(prog, b, target);
        assert b.live[|b.live| - |oa.value|..] == Knowns(oa.value);
        Then(prog, a, b, Away(prog, a, o.leave, o.w));
      }
    }
  }

  // ----- content -----

  // Where a run ends is told by everything but the world.
  lemma SameEnd<T>(prog: Program, a: Config, b: Config, c: Config, o: Outcome<T>)
    requires Does(prog, a, b, o) && b.(w := a.w) == c.(w := a.w)
    ensures Does(prog, a, c, o)
  {
    if o.Ok? {
      assert b.(w := o.w) == c.(w := o.w);
    }
  }

  lemma {:induction false} ItemsRun(src: Source, prog: Program, items: seq<Item>, i: nat, vis: Slots, base: nat,
          ps: Scope, a: Config, at: nat, fuel: nat)
    requires i <= |items| && Ready(src, prog, a) && Binds(vis, base, ps, a)
    requires Free(a, base, ItemsSlots(items, |items|))
    requires a.ip == at + ItemsLen(items, i)
    requires ItemsAt(items, |items|, Code(prog, a), at, Pool(prog, a), vis, base)
    ensures Does(prog, a, a.(ip := at + ItemsLen(items, |items|)), EvalItems(src, items, i, ps, a.w, fuel))
    decreases 2 * fuel, items, |items| - i
  {
    hide ItemAt, EvalItem, ItemLen, ItemSlots, Binds, Free, Compiled, Does, Gets;
    var o := EvalItems(src, items, i, ps, a.w, fuel);
    if i == |items| {
      Nothing(prog, a, o);
    } else {
      var oi := EvalItem(src, items[i], ps, a.w, fuel);
      ItemsGrow(items, i, |items|);
      BindsUpTo(vis, base, base + ItemsSlots(items, i), ps, a);
      assert ItemIn(items, i, Code(prog, a), at, Pool(prog, a), vis, base);
      FreeWithin(base, ItemsSlots(items, |items|), a, base + ItemsSlots(items, i), ItemSlots(items[i]));
      ItemRuns(src, prog, items[i], vis, base + ItemsSlots(items, i), ps, a, fuel);
      if oi.Ok? {
        var a1 := a.(ip := a.ip + ItemLen(items[i]));
        BindsAbove(vis, base, ps, a, a1.(w := oi.w));
        StillFree(base, ItemsSlots(items, |items|), a, a1.(w := oi.w));
        ItemsRun(src, prog, items, i + 1, vis, base, ps, a1.(w := oi.w), at, fuel);
        var oj := EvalItems(src, items, i + 1, ps, oi.w, fuel);
        var end := at + ItemsLen(items, |items|);
        SameEnd(prog, a1.(w := oi.w), a1.(ip := end, w := oi.w), a.(ip := end), oj);
        Chain(prog, a, a1, a.(ip := end), 0, oi, oj);
      } else {
        Early(prog, a, a.(ip := a.ip + ItemLen(items[i])), a.(ip := at + ItemsLen(items, |items|)), oi, o);
      }
    }
  }

  lemma {:induction false} ItemsGrow(items: seq<Item>, i: nat, j: nat)
    requires i <= j <= |items|
    ensures ItemsLen(items, i) <= ItemsLen(items, j) && ItemsSlots(items, i) <= ItemsSlots(items, j)
    ensures i < j ==> ItemsSlots(items, i) + ItemSlots(items[i]) <= ItemsSlots(items, j)
    decreases j
  {
    if i < j {
      ItemsGrow(items, i, j - 1);
    }
  }

  lemma {:induction false} ItemRuns(src: Source, prog: Program, it: Item, vis: Slots, base: nat, ps: Scope,
          a: Config, fuel: nat)
    requires Ready(src, prog, a) && Binds(vis, base, ps, a) && Free(a, base, ItemSlots(it))
    requires ItemAt(it, Code(prog, a), a.ip, Pool(prog, a), vis, base)
    ensures Does(prog, a, a.(ip := a.ip + ItemLen(it)), EvalItem(src, it, ps, a.w, fuel))
    decreases 2 * fuel, it, 2
  {
    hide EvalBlock, EvalTests, EvalExpr, EvalPath, BlockAt, TestsAt, ArmsAt, BodiesAt, FinalAt, BlockLen, TestsLen,
         ArmsLen, BodiesLen, BlockSlots, BodiesSlots, Binds, Free, Compiled, Gets, JumpAt;
    var o := EvalItem(src, it, ps, a.w, fuel);
    match it
    case Text(s) =>
      LitRuns(prog, Lit(Str(s)), a, Pool(prog, a), vis);
      WriteRuns(prog, a, 2, Ok(Str(s), a.w, Cost(1, 0)), o);
    case Logic(e) =>
      ExprRuns(src, prog, e, vis, base, ps, a, fuel);
      WriteRuns(prog, a, ExprLen(e), EvalExpr(src, e, ps, a.w, fuel), o);
    case Glue => ByGlue(prog, a);
    case If(cond, body, els) => IfRuns(src, prog, it, vis, base, ps, a, fuel);
    case MultiIf(cases, final) => MultiIfRuns(src, prog, it, vis, base, ps, a, fuel);
    case Switch(_, _, _) => SwitchRuns(src, prog, it, vis, base, ps, a, fuel);
  }

  lemma WriteRuns(prog: Program, a: Config, len: nat, oe: Outcome<Value>, o: Outcome<()>)
    requires Inside(prog, a) && Does(prog, a, Ended(a, len, oe), oe)
    requires OpAt(Code(prog, a), a.ip + len, CONTENT)
    requires if oe.Ok? then o.Ok? && o.w == Emit(ToText(oe.value), oe.w) && o.cost == oe.cost else o == Pass(oe)
    ensures Does(prog, a, a.(ip := a.ip + len + 1), o)
  {
    hide ToText, Gets;
    if oe.Ok? {
      var a1 := Pushed(a, len, oe.value);
      ByContent(prog, a1.(w := oe.w));
      assert Popped(a1, 1).live == a.live;
      Finish(prog, a, a1, a.(ip := a1.ip + 1), oe, o);
    }
  }

  // From a to the block at b (reached as o1 says), through the block, to the exit.
  lemma {:induction false} ThenJump<T>(src: Source, prog: Program, ss: seq<Stmt>, vis: Slots, base: nat, ps: Scope,
          a: Config, b: Config,
                                       exit: nat, o1: Outcome<T>, fuel: nat)
    requires Ready(src, prog, a) && Binds(vis, base, ps, a) && Free(a, base, BlockSlots(ss))
    requires b == a.(ip := b.ip) && o1.Ok? && Does(prog, a, b, o1)
    requires BlockAt(ss, Code(prog, b), b.ip, Pool(prog, b), vis, base)
    requires JumpAt(Code(prog, b), b.ip + BlockLen(ss), JMP, exit)
    ensures Does(prog, a, a.(ip := exit), Meaning.After(o1.cost, 0, EvalBlock(src, ss, ps, o1.w, fuel)))
    decreases 2 * fuel, ss, |ss| + 2
  {
    var o := EvalBlock(src, ss, ps, o1.w, fuel);
    BlockRuns(src, prog, ss, vis, base, ps, b.(w := o1.w), fuel);
    var b1 := a.(ip := b.ip + BlockLen(ss));
    Chain(prog, a, b, b1, 0, o1, o);
    JumpRuns(prog, a, b1, exit, Meaning.After(o1.cost, 0, o));
  }

  lemma JumpRuns<T>(prog: Program, a: Config, b: Config, exit: nat, o: Outcome<T>)
    requires Inside(prog, b) && Does(prog, a, b, o) && JumpAt(Code(prog, b), b.ip, JMP, exit)
    ensures Does(prog, a, b.(ip := exit), o)
  {
    if o.Ok? {
      ByJump(prog, b.(w := o.w), exit);
      Finish(prog, a, b, b.(ip := exit), o, o);
    }
  }

  // The second branch, behind the test and the POP.
  lemma {:induction false} ElseArmRuns(src: Source, prog: Program, it: Item, vis: Slots, base: nat, ps: Scope,
          a: Config, oc: Outcome<Value>, fuel: nat)
    requires Ready(src, prog, a) && Binds(vis, base, ps, a) && Free(a, base, ItemSlots(it)) && oc.Ok?
    requires it.If? && ItemAt(it, Code(prog, a), a.ip, Pool(prog, a), vis, base)
    requires Does(prog, a, a.(ip := a.ip + ExprLen(it.cond) + 8 + BlockLen(it.body)), oc)
    ensures Does(prog, a, a.(ip := a.ip + ItemLen(it)),
      Meaning.After(oc.cost, 0, EvalBlock(src, it.els, ps, oc.w, fuel)))
    decreases 2 * fuel, it, 0
  {
    hide ExprAt, EvalExpr, ExprLen, BlockLen, BlockSlots, BlockAt, EvalBlock, Does, Compiled, Binds, Free, JumpAt, OpAt;
    var a3 := a.(ip := a.ip + ExprLen(it.cond) + 8 + BlockLen(it.body));
    var higher := base + BlockSlots(it.body);
    BindsUpTo(vis, base, higher, ps, a);
    BindsAbove(vis, higher, ps, a, a3.(w := oc.w));
    FreeWithin(base, ItemSlots(it), a, higher, BlockSlots(it.els));
    StillFree(higher, BlockSlots(it.els), a, a3.(w := oc.w));
    BlockRuns(src, prog, it.els, vis, higher, ps, a3.(w := oc.w), fuel);
    Chain(prog, a, a3, a.(ip := a.ip + ItemLen(it)), 0, oc, EvalBlock(src, it.els, ps, oc.w, fuel));
  }

  lemma {:induction false} IfRuns(src: Source, prog: Program, it: Item, vis: Slots, base: nat, ps: Scope,
          a: Config, fuel: nat)
    requires Ready(src, prog, a) && Binds(vis, base, ps, a) && Free(a, base, ItemSlots(it))
    requires it.If? && ItemAt(it, Code(prog, a), a.ip, Pool(prog, a), vis, base)
    ensures Does(prog, a, a.(ip := a.ip + ItemLen(it)), EvalItem(src, it, ps, a.w, fuel))
    decreases 2 * fuel, it, 1
  {
    hide ExprAt, EvalExpr, ExprLen, BlockLen, BlockSlots, BlockAt, EvalBlock, Does, Compiled, Binds, Free, JumpAt, OpAt;
    var oc := EvalExpr(src, it.cond, ps, a.w, fuel);
    ExprRuns(src, prog, it.cond, vis, base, ps, a, fuel);
    if oc.Ok? {
      var a1 := Pushed(a, ExprLen(it.cond), oc.value);
      var q := a1.ip + 4 + BlockLen(it.body);
      if Falsey(oc.value) {
        BranchTaken(prog, a, a1, JMP_F, q + 3, oc);
        PopRuns(prog, a, a1.(ip := q + 3), oc, oc);
        ElseArmRuns(src, prog, it, vis, base, ps, a, oc, fuel);
      } else {
        BranchPassed(prog, a, a1, JMP_F, q + 3, oc);
        FreeWithin(base, ItemSlots(it), a, base, BlockSlots(it.body));
        ThenJump(src, prog, it.body, vis, base, ps, a, a.(ip := a1.ip + 4), a.ip + ItemLen(it), oc, fuel);
      }
    } else {
      Early(prog, a, a, a.(ip := a.ip + ItemLen(it)), oc, EvalItem(src, it, ps, a.w, fuel));
    }
  }

  lemma {:induction false} CasesGrow(cases: seq<Case>, i: nat, j: nat)
    requires i <= j <= |cases|
    ensures BodiesLen(cases, i) <= BodiesLen(cases, j) && BodiesSlots(cases, i) <= BodiesSlots(cases, j)
    ensures i < j ==> BodiesSlots(cases, i) + BlockSlots(cases[i].body) <= BodiesSlots(cases, j)
    decreases j
  {
    if i < j {
      CasesGrow(cases, i, j - 1);
    }
  }

  // Where the tests lead: to the first true one's body, with its value v still on the stack, or past
  // the last test.
  ghost function Tested(cases: seq<Case>, a: Config, v: Value, bodies: nat, past: nat, o: Outcome<nat>): Config {
    if o.Ok? && o.value < |cases| then a.(ip := bodies + BodiesLen(cases, o.value), live := a.live + [Known(v)])
    else a.(ip := past)
  }

  lemma {:induction false} TestsRun(src: Source, prog: Program, cases: seq<Case>, i: nat, vis: Slots, base: nat,
          ps: Scope,
                                    a: Config, at: nat, bodies: nat, fuel: nat) returns (v: Value)
    requires i <= |cases| && Ready(src, prog, a) && Binds(vis, base, ps, a)
    requires a.ip == at + TestsLen(cases, i)
    requires TestsAt(cases, |cases|, Code(prog, a), at, bodies, Pool(prog, a), vis)
    ensures var o := EvalTests(src, cases, i, ps, a.w, fuel);
      Does(prog, a, Tested(cases, a, v, bodies, at + TestsLen(cases, |cases|), o), o)
    decreases 2 * fuel, cases, |cases| - i
  {
    hide ExprAt, EvalExpr, ExprLen, BodiesLen, Does;
    v := Int(0);
    var past := at + TestsLen(cases, |cases|);
    var o := EvalTests(src, cases, i, ps, a.w, fuel);
    if i == |cases| {
      Nothing(prog, a, o);
    } else {
      var oe := EvalExpr(src, cases[i].test, ps, a.w, fuel);
      assert TestIn(cases, i, Code(prog, a), at, bodies, Pool(prog, a), vis);
      ExprRuns(src, prog, cases[i].test, vis, base, ps, a, fuel);
      if oe.Ok? {
        var a1 := Pushed(a, ExprLen(cases[i].test), oe.value);
        if Falsey(oe.value) {
          BranchPassed(prog, a, a1, JMP_T, bodies + BodiesLen(cases, i), oe);
          var a2 := a.(ip := a1.ip + 4, w := oe.w);
          v := TestsRun(src, prog, cases, i + 1, vis, base, ps, a2, at, bodies, fuel);
          NextTest(prog, cases, v, a, a2, bodies, past, oe, EvalTests(src, cases, i + 1, ps, oe.w, fuel));
        } else {
          v := oe.value;
          BranchTaken(prog, a, a1, JMP_T, bodies + BodiesLen(cases, i), oe);
          FirstTest(prog, a, a1.(ip := bodies + BodiesLen(cases, i)), oe, o);
        }
      } else {
        Early(prog, a, a, Tested(cases, a, v, bodies, past, o), oe, o);
      }
    }
  }

  lemma NextTest(prog: Program, cases: seq<Case>, v: Value, a: Config, m: Config, bodies: nat, past: nat,
          oe: Outcome<Value>, or: Outcome<nat>)
    requires oe.Ok? && m == a.(ip := m.ip, w := oe.w) && Does(prog, a, a.(ip := m.ip), oe)
    requires Does(prog, m, Tested(cases, m, v, bodies, past, or), or)
    ensures var o := Meaning.After(oe.cost, 0, or); Does(prog, a, Tested(cases, a, v, bodies, past, o), o)
  {
    Chain(prog, a, a.(ip := m.ip), Tested(cases, m, v, bodies, past, or), 0, oe, or);
  }

  lemma FirstTest(prog: Program, a: Config, b: Config, oe: Outcome<Value>, o: Outcome<nat>)
    requires oe.Ok? && o.Ok? && o.w == oe.w && o.cost == oe.cost && Does(prog, a, b, oe)
    ensures Does(prog, a, b, o)
  {
  }

  // Into the chosen body, with the tested value on the stack, and out through the exit.
  lemma {:induction false} ChosenRuns<T>(src: Source, prog: Program, cases: seq<Case>, k: nat, v: Value,
          vis: Slots, base: nat, ps: Scope,
                                         a: Config, bodies: nat, exit: nat, o1: Outcome<T>, fuel: nat)
    requires k < |cases| && Ready(src, prog, a) && o1.Ok?
    requires Does(prog, a, a.(ip := bodies + BodiesLen(cases, k), live := a.live + [Known(v)]), o1)
    requires Binds(vis, base, ps, a) && Free(a, base, BodiesSlots(cases, |cases|))
    requires BodiesAt(cases, |cases|, Code(prog, a), bodies, exit, Pool(prog, a), vis, base)
    ensures Does(prog, a, a.(ip := exit), Meaning.After(o1.cost, 0, EvalBlock(src, cases[k].body, ps, o1.w, fuel)))
    decreases 2 * fuel, cases, |cases| + 1
  {
    hide Does, Gets, EvalBlock, BlockAt, BlockLen, BlockSlots, JumpAt, Compiled;
    CasesGrow(cases, k, |cases|);
    var p, higher := bodies + BodiesLen(cases, k), base + BodiesSlots(cases, k);
    assert BodyIn(cases, k, Code(prog, a), bodies, exit, Pool(prog, a), vis, base);
    PopRuns(prog, a, a.(ip := p, live := a.live + [Known(v)]), o1, o1);
    BindsUpTo(vis, base, higher, ps, a);
    ThenJump(src, prog, cases[k].body, vis, higher, ps, a, a.(ip := p + 1), exit, o1, fuel);
  }

  // Past the last test: the jump to the else body, and out through the exit.
  lemma {:induction false} ElseRuns<T>(src: Source, prog: Program, cases: seq<Case>, final: Final, vis: Slots,
          base: nat, ps: Scope,
                                       a: Config, b: Config, bodies: nat, exit: nat, o1: Outcome<T>, fuel: nat)
    requires final.Else? && Ready(src, prog, a) && b == a.(ip := b.ip) && o1.Ok? && Does(prog, a, b, o1)
    requires JumpAt(Code(prog, b), b.ip, JMP, bodies + BodiesLen(cases, |cases|))
    requires Binds(vis, base, ps, a) && Free(a, base, BodiesSlots(cases, |cases|) + FinalSlots(final))
    requires FinalAt(cases, final, Code(prog, b), bodies, exit, Pool(prog, b), vis, base)
    ensures Does(prog, a, a.(ip := exit), Meaning.After(o1.cost, 0, EvalBlock(src, final.body, ps, o1.w, fuel)))
    decreases 2 * fuel, final, 0
  {
    var p, higher := bodies + BodiesLen(cases, |cases|), base + BodiesSlots(cases, |cases|);
    JumpRuns(prog, a, b, p, o1);
    BindsUpTo(vis, base, higher, ps, a);
    ThenJump(src, prog, final.body, vis, higher, ps, a, a.(ip := p), exit, o1, fuel);
  }

  lemma {:induction false} MultiIfRuns(src: Source, prog: Program, it: Item, vis: Slots, base: nat, ps: Scope,
          a: Config, fuel: nat)
    requires Ready(src, prog, a) && Binds(vis, base, ps, a) && Free(a, base, ItemSlots(it))
    requires it.MultiIf? && ItemAt(it, Code(prog, a), a.ip, Pool(prog, a), vis, base)
    ensures Does(prog, a, a.(ip := a.ip + ItemLen(it)), EvalItem(src, it, ps, a.w, fuel))
    decreases 2 * fuel, it, 1
  {
    hide ExprAt, ExprLen, TestsAt, BodiesAt, BodiesLen, BodiesSlots, EvalBlock, EvalTests, BlockAt, BlockLen,
         BlockSlots;
    var cases, final := it.cases, it.final;
    var past := a.ip + TestsLen(cases, |cases|);
    var bodies := past + ElseJump(final);
    var exit := a.ip + ItemLen(it);
    var ot := EvalTests(src, cases, 0, ps, a.w, fuel);
    var v := TestsRun(src, prog, cases, 0, vis, base, ps, a, a.ip, bodies, fuel);
    if ot.Ok? {
      if ot.value < |cases| {
        ChosenRuns(src, prog, cases, ot.value, v, vis, base, ps, a, bodies, exit, ot, fuel);
      } else if final.Else? {
        ElseRuns(src, prog, cases, final, vis, base, ps, a, a.(ip := past), bodies, exit, ot, fuel);
      }
    }
  }

  // The comparisons of a switch: the subject waits in its slot.
  lemma {:induction false} ArmsRun(prog: Program, cases: seq<Case>, i: nat, slot: nat, v: Value, a: Config,
          at: nat, bodies: nat)
    requires i <= |cases| && Inside(prog, a)
    requires a.sp + slot < |a.live| && a.live[a.sp + slot] == Known(v)
    requires |a.live| + (if cases == [] then 0 else 2) <= STACK_MAX && |a.under| + 1 <= STACK_MAX
    requires a.ip == at + ArmsLen(cases, i)
    requires ArmsAt(cases, |cases|, Code(prog, a), at, bodies, Pool(prog, a), slot)
    ensures Gets(prog, a, At(Matched(cases, a, bodies, at + ArmsLen(cases, |cases|), Matching(cases, i, v))))
    decreases |cases| - i
  {
    if i == |cases| {
      Stay(prog, a);
    } else {
      assert ArmIn(cases, i, Code(prog, a), at, bodies, Pool(prog, a), slot);
      var b := ArmRuns(prog, cases[i].test, slot, v, a, bodies + BodiesLen(cases, i));
      if cases[i].test.v != v {
        ArmsRun(prog, cases, i + 1, slot, v, b, at, bodies);
        Then(prog, a, b, At(Matched(cases, b, bodies, at + ArmsLen(cases, |cases|), Matching(cases, i + 1, v))));
      }
    }
  }

  ghost function Matched(cases: seq<Case>, a: Config, bodies: nat, past: nat, k: nat): Config {
    if k < |cases| then a.(ip := bodies + BodiesLen(cases, k), live := a.live + [Known(Bool(true))]) else a.(ip := past)
  }

  lemma ArmRuns(prog: Program, e: Expr, slot: nat, v: Value, a: Config, t: nat) returns (b: Config)
    requires Inside(prog, a) && IsCaseLabel(e)
    requires a.sp + slot < |a.live| && a.live[a.sp + slot] == Known(v) && |a.live| + 2 <= STACK_MAX
      && |a.under| + 1 <= STACK_MAX
    requires SlotAt(Code(prog, a), a.ip, LOAD, slot) && ExprAt(e, Code(prog, a), a.ip + 2, Pool(prog, a), map[])
    requires OpAt(Code(prog, a), a.ip + 2 + ExprLen(e), CMP_EQ)
    requires JumpAt(Code(prog, a), a.ip + 3 + ExprLen(e), JMP_T, t)
    requires OpAt(Code(prog, a), a.ip + 6 + ExprLen(e), POP)
    ensures b == if e.v == v then a.(ip := t, live := a.live + [Known(Bool(true))]) else a.(ip := a.ip + ExprLen(e) + 7)
    ensures Gets(prog, a, At(b))
  {
    var o := ArmTested(prog, e, slot, v, a);
    var a2 := Pushed(a, ExprLen(e) + 3, o.value);
    if v == e.v {
      BranchTaken(prog, a, a2, JMP_T, t, o);
      b := a2.(ip := t);
    } else {
      BranchPassed(prog, a, a2, JMP_T, t, o);
      b := a.(ip := a2.ip + 4);
    }
    FromDoes(prog, a, b, o);
  }

  // The comparison of one case leaves its result on the stack.
  lemma ArmTested(prog: Program, e: Expr, slot: nat, v: Value, a: Config) returns (o: Outcome<Value>)
    requires Inside(prog, a) && IsCaseLabel(e)
    requires a.sp + slot < |a.live| && a.live[a.sp + slot] == Known(v)
    requires SlotAt(Code(prog, a), a.ip, LOAD, slot) && ExprAt(e, Code(prog, a), a.ip + 2, Pool(prog, a), map[])
    requires OpAt(Code(prog, a), a.ip + 2 + ExprLen(e), CMP_EQ)
    ensures o == Ok(Bool(v == e.v), a.w, Cost(2, 0)) && Does(prog, a, Pushed(a, ExprLen(e) + 3, o.value), o)
  {
    var one: Outcome<Value> := Ok(v, a.w, Cost(1, 0));
    var a1 := Pushed(a, 2, v);
    if |a.live| < STACK_MAX { ByLoad(prog, a, slot, v); }
    LitRuns(prog, e, a1, Pool(prog, a), map[]);
    StrictRuns(prog, a, 2, ExprLen(e), Eq, one, Ok(e.v, a.w, Cost(1, 0)));
    o := Ok(Bool(v == e.v), a.w, Cost(2, 0));
  }

  lemma FromDoes<T>(prog: Program, a: Config, b: Config, o: Outcome<T>)
    requires Does(prog, a, b, o) && o.Ok? && o.w == a.w == b.w
    requires |a.live| + o.cost.cells <= STACK_MAX && |a.under| + 1 + o.cost.frames <= STACK_MAX
    ensures Gets(prog, a, At(b))
  {
    assert b.(w := o.w) == b;
  }

  // The subject is evaluated once, into its slot.
  lemma SubjectRuns(prog: Program, a: Config, len: nat, slot: nat, o: Outcome<Value>)
    requires Inside(prog, a) && o.Ok? && Does(prog, a, Pushed(a, len, o.value), o)
    requires a.sp + slot < |a.live|
    requires SlotAt(Code(prog, a), a.ip + len, STORE, slot) && OpAt(Code(prog, a), a.ip + len + 2, POP)
    ensures Does(prog, a, a.(ip := a.ip + len + 3, live := a.live[a.sp + slot := Known(o.value)]), o)
  {
    var a1 := Pushed(a, len, o.value);
    ByStore(prog, a1.(w := o.w), slot);
    var a2 := a1.(ip := a1.ip + 2, live := a1.live[a.sp + slot := Known(o.value)]);
    Finish(prog, a, a1, a2, o, o);
    ByPop(prog, a2.(w := o.w));
    var b := a.(ip := a.ip + len + 3, live := a.live[a.sp + slot := Known(o.value)]);
    assert b == Popped(a2, 1);
    Finish(prog, a, a2, b, o, o);
  }

  // While a body of the switch runs, nothing nested in it touches the slot of the subject.
  lemma {:induction false} SwitchRuns(src: Source, prog: Program, it: Item, vis: Slots, base: nat, ps: Scope,
          a: Config, fuel: nat)
    requires Ready(src, prog, a) && Binds(vis, base, ps, a) && Free(a, base, ItemSlots(it))
    requires it.Switch? && ItemAt(it, Code(prog, a), a.ip, Pool(prog, a), vis, base)
    ensures Does(prog, a, a.(ip := a.ip + ItemLen(it)), EvalItem(src, it, ps, a.w, fuel))
    decreases 2 * fuel, it, 1
  {
    hide Does, ExprAt, ExprLen, EvalExpr, EvalBlock, ArmsAt, ArmsLen, BodiesAt, BodiesLen, FinalAt, FinalLen,
         BodiesSlots, FinalSlots, JumpAt;
    var os := EvalExpr(src, it.subject, ps, a.w, fuel);
    ExprRuns(src, prog, it.subject, vis, base, ps, a, fuel);
    if os.Ok? {
      SubjectRuns(prog, a, ExprLen(it.subject), base, os);
      var s := a.(ip := a.ip + ExprLen(it.subject) + 3, live := a.live[a.sp + base := Known(os.value)]);
      CasesRun(src, prog, it, vis, base, ps, s.(w := os.w), os.value, s.ip, a.ip + ItemLen(it), fuel);
      Settle(prog, a, s, base, a.ip + ItemLen(it), os, EvalCases(src, it, os.value, ps, os.w, fuel));
      Reassociate(src, it, os, ps, fuel);
    } else {
      Early(prog, a, a, a.(ip := a.ip + ItemLen(it)), os, EvalItem(src, it, ps, a.w, fuel));
    }
  }

  // What happens after the subject of a switch was stored.
  ghost function EvalCases(src: Source, it: Item, v: Value, ps: Scope, w: World, fuel: nat): Outcome<()>
    requires it.Switch?
  {
    var k := Matching(it.cases, 0, v);
    var c := Cost(if it.cases == [] then 0 else 2, 0);
    if k < |it.cases| then Meaning.After(c, 0, EvalBlock(src, it.cases[k].body, ps, w, fuel))
    else if it.final.Else? then Meaning.After(c, 0, EvalBlock(src, it.final.body, ps, w, fuel))
    else Bad(NoBranch)
  }

  lemma {:induction false} CasesRun(src: Source, prog: Program, it: Item, vis: Slots, base: nat, ps: Scope,
          s: Config, v: Value,
                                    at: nat, exit: nat, fuel: nat)
    requires it.Switch? && Ready(src, prog, s) && s.ip == at
    requires Binds(vis, base, ps, s) && Free(s, base + 1, ItemSlots(it) - 1)
    requires s.sp + base < |s.live| && s.live[s.sp + base] == Known(v)
    requires at >= ExprLen(it.subject) + 3 && exit == at - ExprLen(it.subject) - 3 + ItemLen(it)
    requires ItemAt(it, Code(prog, s), at - ExprLen(it.subject) - 3, Pool(prog, s), vis, base)
    ensures Does(prog, s, s.(ip := exit), EvalCases(src, it, v, ps, s.w, fuel))
    decreases 2 * fuel, it, 0
  {
    hide ExprAt, ExprLen, ArmsAt, BodiesAt, BodiesLen, BodiesSlots, EvalBlock, BlockAt, BlockLen, BlockSlots, Binds,
         Compiled, JumpAt;
    var cases, final := it.cases, it.final;
    var past := at + ArmsLen(cases, |cases|);
    var bodies := past + ElseJump(final);
    var k := Matching(cases, 0, v);
    var o1 := Ok((), s.w, Cost(if cases == [] then 0 else 2, 0));
    if Fits(prog, s, EvalCases(src, it, v, ps, s.w, fuel)) {
      ArmsRun(prog, cases, 0, base, v, s, at, bodies);
      BindsUpTo(vis, base, base + 1, ps, s);
      if k < |cases| {
        ChosenRuns(src, prog, cases, k, Bool(true), vis, base + 1, ps, s, bodies, exit, o1, fuel);
      } else {
        ElseRuns(src, prog, cases, final, vis, base + 1, ps, s, s.(ip := past), bodies, exit, o1, fuel);
      }
    }
  }

  lemma Reassociate(src: Source, it: Item, os: Outcome<Value>, ps: Scope, fuel: nat)
    requires it.Switch? && os.Ok?
    ensures var k := Matching(it.cases, 0, os.value);
      var d := Join(os.cost, Cost(if it.cases == [] then 0 else 2, 0));
      Meaning.After(os.cost, 0, EvalCases(src, it, os.value, ps, os.w, fuel)) ==
        if k < |it.cases| then Meaning.After(d, 0, EvalBlock(src, it.cases[k].body, ps, os.w, fuel))
        else if it.final.Else? then Meaning.After(d, 0, EvalBlock(src, it.final.body, ps, os.w, fuel))
        else Bad(NoBranch)
  {
    hide EvalBlock;
  }

  // After the switch its slot no longer matters.
  lemma Settle(prog: Program, a: Config, s: Config, slot: nat, end: nat, os: Outcome<Value>, oc: Outcome<()>)
    requires os.Ok? && a.sp + slot < |a.live| && a.live[a.sp + slot].Junk?
    requires s == a.(ip := s.ip, live := a.live[a.sp + slot := Known(os.value)])
    requires Does(prog, a, s, os) && Does(prog, s.(w := os.w), s.(ip := end, w := os.w), oc)
    ensures Does(prog, a, a.(ip := end), Meaning.After(os.cost, 0, oc))
  {
    var b := s.(ip := end, w := os.w);
    var o := Meaning.After(os.cost, 0, oc);
    assert s.live[..a.sp] == a.live[..a.sp];
    Chain(prog, a, s, b, 0, os, oc);
    if Fits(prog, a, o) && o.Ok? {
      Forget(prog, a, b.(w := o.w), a.live);
    }
  }

  // ----- whole stories -----

  // The machine as it is when a story is opened: an empty stack and no frames.
  function Fresh(): VM {
    VM(seq(STACK_MAX, _ => None), 0, [], map[], Out("", 0), [], None, Running)
  }

  // Loading a story diverts to its main path.
  function Opened(prog: Program, f: string): VM
    requires f in prog
  {
    Redirect(Fresh(), f, prog[f])
  }

  // Running a path with its arguments in place, through every divert, to the end of the story.
  lemma {:induction false} StoryRuns(src: Source, prog: Program, f: string, vs: seq<Value>, w: World, fuel: nat)
    requires Compiled(src, prog) && f in src && f in prog
    requires EvalStory(src, f, vs, w, fuel).Gone?
    ensures Ends(prog, Arrived(prog, f, Knowns(vs), w), EvalStory(src, f, vs, w, fuel).w)
    decreases fuel
  {
    assert CompiledPath(src, prog, f);
    var a := Arrived(prog, f, Knowns(vs), w);
    var o := EvalPath(src, f, vs, w, fuel);
    assert a.live == [] + Knowns(vs) + Reserved(prog[f].locals);
    if o.leave.To? {
      var g, us := o.leave.path, o.leave.args;
      assert CompiledPath(src, prog, g);
      StoryRuns(src, prog, g, us, o.w, fuel - 1);
      PathRuns(src, prog, f, vs, [], a, fuel);
      ThenEnds(prog, a, Arrived(prog, g, Knowns(us), o.w), EvalStory(src, f, vs, w, fuel).w);
    } else {
      PathRuns(src, prog, f, vs, [], a, fuel);
      DoneEnds(prog, a, o.w);
    }
  }

  // A loaded story whose evaluation ends makes the machine exit with the evaluated globals and text.
  lemma StoryIsMeaning(src: Source, prog: Program, main: string, fuel: nat) returns (n: nat)
    requires Compiled(src, prog) && main in src && main in prog && src[main].params == []
    requires EvalStory(src, main, [], World(map[], Out("", 0)), fuel).Gone?
    ensures var end := Run(prog, Opened(prog, main), n);
      var o := EvalStory(src, main, [], World(map[], Out("", 0)), fuel);
      end.status == Exited && end.globals == o.w.globals && end.out == o.w.out
  {
    hide EvalStory, Redirect, Shows, Compiled;
    var w := World(map[], Out("", 0));
    var o := EvalStory(src, main, [], w, fuel);
    var a := Arrived(prog, main, Knowns([]), w);
    StoryRuns(src, prog, main, [], w, fuel);
    OpenedShows(src, prog, main, fuel);
    n :| EndsAfter(prog, n, a, o.w);
  }

  // The opened machine stands at the start of the main path.
  lemma OpenedShows(src: Source, prog: Program, main: string, fuel: nat)
    requires Compiled(src, prog) && main in src && main in prog && src[main].params == []
    requires EvalStory(src, main, [], World(map[], Out("", 0)), fuel).Gone?
    ensures Shows(Opened(prog, main), Arrived(prog, main, Knowns([]), World(map[], Out("", 0))))
  {
    hide EvalStmts, PathAt;
    assert CompiledPath(src, prog, main);
    MainFits(src, prog, main, fuel);
  }

  // What the evaluator counted for the main path includes its locals.
  lemma MainFits(src: Source, prog: Program, main: string, fuel: nat)
    requires Compiled(src, prog) && main in src && main in prog && src[main].params == []
    requires EvalStory(src, main, [], World(map[], Out("", 0)), fuel).Gone?
    ensures prog[main].arity == 0 && prog[main].locals <= STACK_MAX
  {
    hide EvalStmts, BlockAt;
    assert CompiledPath(src, prog, main);
  }
}
