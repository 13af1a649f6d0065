// Partial knowledge of a machine state, and what the machine is bound to reach from it.

module Goals {
  import opened Wrappers
  import opened Values
  import opened Ast
  import opened Output
  import opened Opcodes
  import opened Machine
  import opened Meaning
  import opened Layout

  // A stack cell whose content matters, or one that may hold anything.
  datatype Slot = Known(v: Value) | Junk

  // Running inside a path, above the frames of its callers.
  datatype Config = Config(path: string, ip: nat, sp: nat, under: seq<Frame>, live: seq<Slot>, w: World)

  // At: reached in the same frame.  There: reached by leaving the frame, or by entering another.  Done: the
  // story has ended.
  datatype Goal = At(c: Config) | There(c: Config) | Done(w: World) | Crashed

  ghost predicate Shows(vm: VM, c: Config) {
    && vm.Valid()
    && vm.globals == c.w.globals
    && vm.out == c.w.out
    && vm.status.Running?
    && vm.frames == c.under + [Frame(c.path, c.ip, c.sp)]
    && vm.top == |c.live|
    && forall i | 0 <= i < |c.live| :: c.live[i].Known? ==> vm.cells[i] == Some(c.live[i].v)
  }

  ghost predicate Is(vm: VM, g: Goal) {
    match g
    case At(c) => Shows(vm, c)
    case There(c) => Shows(vm, c)
    case Done(w) => vm.Valid() && vm.status.Exited? && vm.globals == w.globals && vm.out == w.out
    case Crashed => vm.Valid() && vm.status.Fault?
  }

  // The frame that a runs in, and its callers, are still there; that frame has not gone back.
  ghost predicate Stays(vm: VM, a: Config) {
    && |a.under| < |vm.frames| && vm.frames[..|a.under|] == a.under
    && (Own(vm, a) ==> vm.Active().path == a.path && a.ip <= vm.Active().ip)
  }

  // That frame is the one that runs, with none above it.
  ghost predicate Own(vm: VM, a: Config) {
    |vm.frames| == |a.under| + 1
  }

  ghost predicate Below(vm: VM, a: Config, hi: nat) {
    Own(vm, a) ==> vm.Active().ip < hi
  }

  // On the way, the frame of a stays, and comes to no place at or behind the goal.
  ghost predicate OnTheWay(vm: VM, a: Config, g: Goal) {
    Stays(vm, a) && (g.At? ==> Below(vm, a, g.c.ip))
  }

  ghost predicate SameFrameAs(a: Config, g: Goal) {
    g.At? ==> g.c.path == a.path && g.c.under == a.under
  }

  // n instructions lead every machine state described by a to one described by b.
  ghost predicate Takes(prog: Program, n: nat, a: Config, b: Goal) {
    && SameFrameAs(a, b)
    && forall vm | Shows(vm, a) ::
        Is(Run(prog, vm, n), b) && forall m | 0 <= m < n :: OnTheWay(Run(prog, vm, m), a, b)
  }

  ghost predicate Gets(prog: Program, a: Config, b: Goal) {
    exists n: nat :: Takes(prog, n, a, b)
  }

  lemma Stay(prog: Program, a: Config)
    ensures Gets(prog, a, At(a))
  {
    assert Takes(prog, 0, a, At(a));
  }

  lemma OneStep(prog: Program, a: Config, b: Goal)
    requires SameFrameAs(a, b) && (b.At? ==> a.ip < b.c.ip)
    requires forall vm | Shows(vm, a) :: Is(Step(prog, vm), b)
    ensures Takes(prog, 1, a, b) && Gets(prog, a, b)
  {
    hide Step;
    forall vm | Shows(vm, a)
      ensures Is(Run(prog, vm, 1), b)
      ensures forall m | 0 <= m < 1 :: OnTheWay(Run(prog, vm, m), a, b)
    {
      assert Run(prog, Step(prog, vm), 0) == Step(prog, vm);
      assert Run(prog, vm, 0) == vm;
    }
    assert Takes(prog, 1, a, b);
  }

  lemma Then(prog: Program, a: Config, b: Config, c: Goal)
    requires Gets(prog, a, At(b)) && Gets(prog, b, c)
    ensures Gets(prog, a, c)
  {
    hide Run, Step;
    var m: nat :| Takes(prog, m, a, At(b));
    var n: nat :| Takes(prog, n, b, c);
    forall vm | Shows(vm, a)
      ensures Is(Run(prog, vm, m + n), c)
      ensures forall k | 0 <= k < m + n :: OnTheWay(Run(prog, vm, k), a, c)
    {
      RunAdd(prog, vm, m, n);
      forall k | 0 <= k < m + n
        ensures OnTheWay(Run(prog, vm, k), a, c)
      {
        Between(prog, a, b, c, m, n, vm, k);
      }
    }
    assert Takes(prog, m + n, a, c);
  }

  // On the way from a to b, or on the way from there to c.
  lemma Between(prog: Program, a: Config, b: Config, c: Goal, m: nat, n: nat, vm: VM, k: nat)
    requires Takes(prog, m, a, At(b)) && Takes(prog, n, b, c) && Shows(vm, a) && k < m + n
    ensures OnTheWay(Run(prog, vm, k), a, c)
  {
    hide Step;
    var mid := Run(prog, vm, m);
    assert Shows(mid, b);
    Forward(prog, m, a, At(b), vm);
    if c.At? { Forward(prog, n, b, c, mid); }
    hide Run;
    if k < m {
      assert OnTheWay(Run(prog, vm, k), a, At(b));
    } else {
      RunAdd(prog, vm, m, k - m);
      assert OnTheWay(Run(prog, mid, k - m), b, c);
    }
  }

  // A goal in the same frame is never behind.
  lemma Forward(prog: Program, n: nat, a: Config, b: Goal, vm: VM)
    requires Takes(prog, n, a, b) && Shows(vm, a) && b.At?
    ensures a.ip <= b.c.ip
  {
    hide Step;
    assert Run(prog, vm, 0) == vm;
    if n == 0 {
      assert vm.Active() == Frame(b.c.path, b.c.ip, b.c.sp);
    } else {
      assert OnTheWay(Run(prog, vm, 0), a, b);
    }
  }

  // A call, and what becomes of it: seen from the caller's frame b, all of it is on the way.
  lemma ThroughCall(prog: Program, b: Config, c: Config, g: Goal, h: Goal)
    requires Takes(prog, 1, b, There(c)) && Gets(prog, c, g)
    requires c.under == b.under + [Frame(b.path, b.ip + 2, b.sp)]
    requires if h.At? then g == There(h.c) && SameFrameAs(b, h) && b.ip < h.c.ip else h == g
    ensures Gets(prog, b, h)
  {
    hide Run, Step;
    var n: nat :| Takes(prog, n, c, g);
    forall vm | Shows(vm, b)
      ensures Is(Run(prog, vm, 1 + n), h)
      ensures forall k | 0 <= k < 1 + n :: OnTheWay(Run(prog, vm, k), b, h)
    {
      RunAdd(prog, vm, 1, n);
      forall k | 0 <= k < 1 + n
        ensures OnTheWay(Run(prog, vm, k), b, h)
      {
        if k == 0 {
          NoSteps(prog, vm);
        } else {
          RunAdd(prog, vm, 1, k - 1);
          assert OnTheWay(Run(prog, Run(prog, vm, 1), k - 1), c, g);
          Deeper(Run(prog, vm, k), b, c);
        }
      }
    }
    assert Takes(prog, 1 + n, b, h);
  }

  lemma NoSteps(prog: Program, vm: VM)
    requires vm.Valid()
    ensures Run(prog, vm, 0) == vm
  {
  }

  lemma Deeper(vm: VM, b: Config, c: Config)
    requires Stays(vm, c) && c.under == b.under + [Frame(b.path, b.ip + 2, b.sp)]
    ensures Stays(vm, b) && !Own(vm, b)
  {
    assert vm.frames[..|b.under|] == vm.frames[..|c.under|][..|b.under|];
  }

  // The end of the story, however many paths it goes through.
  ghost predicate Ends(prog: Program, a: Config, w: World) {
    exists n: nat :: EndsAfter(prog, n, a, w)
  }

  ghost predicate EndsAfter(prog: Program, n: nat, a: Config, w: World) {
    forall vm | Shows(vm, a) :: Is(Run(prog, vm, n), Done(w))
  }

  lemma DoneEnds(prog: Program, a: Config, w: World)
    requires Gets(prog, a, Done(w))
    ensures Ends(prog, a, w)
  {
    var n: nat :| Takes(prog, n, a, Done(w));
    assert EndsAfter(prog, n, a, w);
  }

  lemma ThenEnds(prog: Program, a: Config, b: Config, w: World)
    requires Gets(prog, a, There(b)) && Ends(prog, b, w)
    ensures Ends(prog, a, w)
  {
    hide Run, Step;
    var m: nat :| Takes(prog, m, a, There(b));
    var n: nat :| EndsAfter(prog, n, b, w);
    forall vm | Shows(vm, a)
      ensures Is(Run(prog, vm, m + n), Done(w))
    {
      RunAdd(prog, vm, m, n);
    }
    assert EndsAfter(prog, m + n, a, w);
  }

  // Forgetting what some cells hold.
  predicate Vaguer(s: seq<Slot>, t: seq<Slot>) {
    |s| == |t| && forall i | 0 <= i < |s| :: s[i] == t[i] || s[i].Junk?
  }

  lemma Forget(prog: Program, a: Config, b: Config, live: seq<Slot>)
    requires Gets(prog, a, At(b)) && Vaguer(live, b.live)
    ensures Gets(prog, a, At(b.(live := live)))
  {
    var n: nat :| Takes(prog, n, a, At(b));
    forall vm | Shows(vm, a)
      ensures Is(Run(prog, vm, n), At(b.(live := live)))
      ensures forall m | 0 <= m < n :: OnTheWay(Run(prog, vm, m), a, At(b.(live := live)))
    {
      assert Is(Run(prog, vm, n), At(b));
      forall m | 0 <= m < n
        ensures OnTheWay(Run(prog, vm, m), a, At(b.(live := live)))
      {
        assert OnTheWay(Run(prog, vm, m), a, At(b));
      }
    }
    assert Takes(prog, n, a, At(b.(live := live)));
  }

  // ----- one lemma for each kind of instruction -----

  ghost predicate Inside(prog: Program, a: Config) {
    a.path in prog
  }

  function Code(prog: Program, a: Config): seq<byte>
    requires a.path in prog
  {
    prog[a.path].code
  }

  function Pool(prog: Program, a: Config): seq<Value>
    requires a.path in prog
  {
    prog[a.path].pool
  }

  function Top(a: Config): Slot
    requires a.live != []
  {
    a.live[|a.live| - 1]
  }

  function Pushed(a: Config, len: nat, v: Value): Config
  {
    a.(ip := a.ip + len, live := a.live + [Known(v)])
  }

  function Popped(a: Config, len: nat): Config
    requires a.live != []
  {
    a.(ip := a.ip + len, live := a.live[..|a.live| - 1])
  }

  lemma ByConst(prog: Program, a: Config, v: Value)
    requires Inside(prog, a) && |a.live| < STACK_MAX
    requires ConstAt(Code(prog, a), a.ip, CONST, Pool(prog, a), v)
    ensures Gets(prog, a, At(Pushed(a, 2, v)))
  {
    OneStep(prog, a, At(Pushed(a, 2, v)));
  }

  lemma ByBool(prog: Program, a: Config, b: bool)
    requires Inside(prog, a) && |a.live| < STACK_MAX
    requires OpAt(Code(prog, a), a.ip, if b then TRUE else FALSE)
    ensures Gets(prog, a, At(Pushed(a, 1, Bool(b))))
  {
    OneStep(prog, a, At(Pushed(a, 1, Bool(b))));
  }

  lemma ByLoad(prog: Program, a: Config, slot: nat, v: Value)
    requires Inside(prog, a) && |a.live| < STACK_MAX
    requires SlotAt(Code(prog, a), a.ip, LOAD, slot)
    requires a.sp + slot < |a.live| && a.live[a.sp + slot] == Known(v)
    ensures Gets(prog, a, At(Pushed(a, 2, v)))
  {
    OneStep(prog, a, At(Pushed(a, 2, v)));
  }

  lemma ByLoadGlobal(prog: Program, a: Config, x: string)
    requires Inside(prog, a) && |a.live| < STACK_MAX && x in a.w.globals
    requires ConstAt(Code(prog, a), a.ip, LOAD_GLOBAL, Pool(prog, a), Str(x))
    ensures Gets(prog, a, At(Pushed(a, 2, a.w.globals[x])))
  {
    OneStep(prog, a, At(Pushed(a, 2, a.w.globals[x])));
  }

  lemma ByPop(prog: Program, a: Config)
    requires Inside(prog, a) && a.live != [] && Top(a).Known?
    requires OpAt(Code(prog, a), a.ip, POP)
    ensures Gets(prog, a, At(Popped(a, 1)))
  {
    OneStep(prog, a, At(Popped(a, 1)));
  }

  lemma ByNot(prog: Program, a: Config)
    requires Inside(prog, a) && a.live != [] && Top(a).Known?
    requires OpAt(Code(prog, a), a.ip, NOT)
    ensures Gets(prog, a, At(Pushed(Popped(a, 1), 0, Bool(Falsey(Top(a).v)))))
  {
    OneStep(prog, a, At(Pushed(Popped(a, 1), 0, Bool(Falsey(Top(a).v)))));
  }

  lemma ByBinary(prog: Program, a: Config, op: InfixOp, x: Value, y: Value, v: Value)
    requires Inside(prog, a) && |a.live| >= 2
    requires a.live[|a.live| - 2..] == [Known(x), Known(y)]
    requires OpAt(Code(prog, a), a.ip, BinaryByte(op))
    requires IsArith(op) || IsComparison(op)
    requires Binary(op, x, y) == Some(v)
    ensures Gets(prog, a, At(Pushed(Popped(Popped(a, 1), 0), 0, v)))
  {
    hide Step, Binary, OpAt, BinaryByte;
    var b := Pushed(Popped(Popped(a, 1), 0), 0, v);
    forall vm | Shows(vm, a)
      ensures Shows(Step(prog, vm), b)
    {
      BinaryStep(prog, vm, a, op, x, y, v);
    }
    OneStep(prog, a, At(b));
  }

  lemma BinaryStep(prog: Program, vm: VM, a: Config, op: InfixOp, x: Value, y: Value, v: Value)
    requires Inside(prog, a) && |a.live| >= 2 && Shows(vm, a)
    requires a.live[|a.live| - 2..] == [Known(x), Known(y)]
    requires OpAt(Code(prog, a), a.ip, BinaryByte(op))
    requires IsArith(op) || IsComparison(op)
    requires Binary(op, x, y) == Some(v)
    ensures Shows(Step(prog, vm), Pushed(Popped(Popped(a, 1), 0), 0, v))
  {
    hide Step, Simple, Binary, OpAt;
    assert a.live[|a.live| - 2] == Known(x) && a.live[|a.live| - 1] == Known(y);
    var next := vm.Goto(a.ip + 1);
    StepsSimply(prog, vm, a, BinaryByte(op));
    assert next.Peek(1) == Some(x) && next.Peek(0) == Some(y);
    CombineByte(next, op, x, y);
  }

  lemma StepsSimply(prog: Program, vm: VM, a: Config, op: byte)
    requires Shows(vm, a) && Inside(prog, a) && OpAt(Code(prog, a), a.ip, op)
    requires !IsJump(op) && !HasByteOperand(op)
    ensures Step(prog, vm) == Simple(vm.Goto(a.ip + 1), op)
  {
    hide Simple;
  }

  lemma CombineByte(vm: VM, op: InfixOp, x: Value, y: Value)
    requires vm.Valid() && vm.frames != [] && vm.Peek(1) == Some(x) && vm.Peek(0) == Some(y)
    requires IsArith(op) || IsComparison(op)
    ensures Simple(vm, BinaryByte(op)) == vm.Combine(Binary(op, x, y))
  {
    hide Arith, Compare;
  }

  lemma ByJump(prog: Program, a: Config, t: nat)
    requires Inside(prog, a)
    requires JumpAt(Code(prog, a), a.ip, JMP, t)
    ensures Takes(prog, 1, a, At(a.(ip := t))) && Gets(prog, a, At(a.(ip := t)))
  {
    OneStep(prog, a, At(a.(ip := t)));
  }

  // A conditional jump looks at the top cell and leaves it there.
  lemma ByBranch(prog: Program, a: Config, op: byte, t: nat)
    requires Inside(prog, a) && a.live != [] && Top(a).Known?
    requires op == JMP_T || op == JMP_F
    requires JumpAt(Code(prog, a), a.ip, op, t)
    ensures var b := a.(ip := if (op == JMP_F) == Falsey(Top(a).v) then t else a.ip + 3);
      Takes(prog, 1, a, At(b)) && Gets(prog, a, At(b))
  {
    OneStep(prog, a, At(a.(ip := if (op == JMP_F) == Falsey(Top(a).v) then t else a.ip + 3)));
  }

  lemma ByStore(prog: Program, a: Config, slot: nat)
    requires Inside(prog, a) && a.live != [] && Top(a).Known?
    requires SlotAt(Code(prog, a), a.ip, STORE, slot)
    requires a.sp + slot < |a.live| - 1
    ensures Gets(prog, a, At(a.(ip := a.ip + 2, live := a.live[a.sp + slot := Top(a)])))
  {
    OneStep(prog, a, At(a.(ip := a.ip + 2, live := a.live[a.sp + slot := Top(a)])));
  }

  lemma ByStoreGlobal(prog: Program, a: Config, x: string)
    requires Inside(prog, a) && a.live != [] && Top(a).Known?
    requires ConstAt(Code(prog, a), a.ip, STORE_GLOBAL, Pool(prog, a), Str(x))
    ensures Gets(prog, a, At(a.(ip := a.ip + 2, w := Store(x, Top(a).v, a.w))))
  {
    OneStep(prog, a, At(a.(ip := a.ip + 2, w := Store(x, Top(a).v, a.w))));
  }

  lemma ByContent(prog: Program, a: Config)
    requires Inside(prog, a) && a.live != [] && Top(a).Known?
    requires OpAt(Code(prog, a), a.ip, CONTENT)
    ensures Gets(prog, a, At(Popped(a, 1).(w := Emit(ToText(Top(a).v), a.w))))
  {
    OneStep(prog, a, At(Popped(a, 1).(w := Emit(ToText(Top(a).v), a.w))));
  }

  lemma ByLine(prog: Program, a: Config)
    requires Inside(prog, a)
    requires OpAt(Code(prog, a), a.ip, LINE)
    ensures Gets(prog, a, At(a.(ip := a.ip + 1, w := Emit("\n", a.w))))
  {
    OneStep(prog, a, At(a.(ip := a.ip + 1, w := Emit("\n", a.w))));
  }

  lemma ByGlue(prog: Program, a: Config)
    requires Inside(prog, a)
    requires OpAt(Code(prog, a), a.ip, GLUE)
    ensures Gets(prog, a, At(a.(ip := a.ip + 1, w := a.w.(out := Trim(a.w.out)))))
  {
    OneStep(prog, a, At(a.(ip := a.ip + 1, w := a.w.(out := Trim(a.w.out)))));
  }

  lemma ByExit(prog: Program, a: Config)
    requires Inside(prog, a)
    requires OpAt(Code(prog, a), a.ip, EXIT)
    ensures Gets(prog, a, Done(a.w))
  {
    OneStep(prog, a, Done(a.w));
  }

  function Reserved(n: nat): seq<Slot> { seq(n, _ => Junk) }

  // Where a call of path f with the arguments vs on top of the stack begins.
  function Entered(prog: Program, a: Config, f: string): Config
    requires f in prog && prog[f].arity <= |a.live|
  {
    Config(f, 0, |a.live| - prog[f].arity, a.under + [Frame(a.path, a.ip + 2, a.sp)],
       a.live + Reserved(prog[f].locals), a.w)
  }

  lemma ByCall(prog: Program, a: Config, f: string)
    requires Inside(prog, a) && f in prog
    requires prog[f].arity <= |a.live| && |a.live| + prog[f].locals <= STACK_MAX && |a.under| + 2 <= STACK_MAX
    requires ConstAt(Code(prog, a), a.ip, CALL, Pool(prog, a), Str(f))
    ensures Takes(prog, 1, a, There(Entered(prog, a, f)))
  {
    OneStep(prog, a, There(Entered(prog, a, f)));
  }

  // A return drops everything from the frame's base up, and resumes the caller.
  lemma ByReturn(prog: Program, a: Config)
    requires Inside(prog, a) && a.live != [] && Top(a).Known? && a.under != [] && a.sp < |a.live|
    requires OpAt(Code(prog, a), a.ip, RET)
    ensures var caller := a.under[|a.under| - 1];
      Gets(prog, a, There(Config(caller.path, caller.ip, caller.sp, a.under[..|a.under| - 1],
                                 a.live[..a.sp] + [Top(a)], a.w)))
  {
    var caller := a.under[|a.under| - 1];
    var b := Config(caller.path, caller.ip, caller.sp, a.under[..|a.under| - 1], a.live[..a.sp] + [Top(a)], a.w);
    forall vm | Shows(vm, a)
      ensures Is(Step(prog, vm), There(b))
    {
      assert vm.frames[..|vm.frames| - 1] == a.under;
      assert a.under == a.under[..|a.under| - 1] + [caller];
    }
    OneStep(prog, a, There(b));
  }

  // Where a path begins after a divert that passed the arguments vs.
  function Arrived(prog: Program, f: string, vs: seq<Slot>, w: World): Config
    requires f in prog
  {
    Config(f, 0, 0, [], vs + Reserved(prog[f].locals), w)
  }

  lemma ByDivert(prog: Program, a: Config, f: string)
    requires Inside(prog, a) && f in prog
    requires prog[f].arity <= |a.live| && prog[f].arity + prog[f].locals <= STACK_MAX
    requires ConstAt(Code(prog, a), a.ip, DIVERT, Pool(prog, a), Str(f))
    ensures Gets(prog, a, There(Arrived(prog, f, a.live[|a.live| - prog[f].arity..], a.w)))
  {
    OneStep(prog, a, There(Arrived(prog, f, a.live[|a.live| - prog[f].arity..], a.w)));
  }
}
