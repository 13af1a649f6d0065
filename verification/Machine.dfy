// The stack machine of src/story.c, as a transition function on whole machine states.

module Output {
  // The output stream: everything written and not trimmed, and how much of it was read.
  datatype Out = Out(bytes: string, cursor: nat) {
    predicate Valid() { cursor <= |bytes| }
  }

  function Write(t: Out, s: string): Out {
    t.(bytes := t.bytes + s)
  }

  // Drop trailing newlines, but none of the bytes that were already read.
  function TrimFrom(bytes: string, cursor: nat): string {
    if cursor < |bytes| && bytes[|bytes| - 1] == '\n' then TrimFrom(bytes[..|bytes| - 1], cursor) else bytes
  }

  function Trim(t: Out): Out {
    t.(bytes := TrimFrom(t.bytes, t.cursor))
  }

  // End of the line that starts at i: just after its newline, or at the NUL or the end of the text.
  function LineEnd(bytes: string, i: nat): (j: nat)
    requires i <= |bytes|
    ensures i <= j <= |bytes|
    decreases |bytes| - i
  {
    if i == |bytes| || bytes[i] == '\0' then i
    else if bytes[i] == '\n' then i + 1
    else LineEnd(bytes, i + 1)
  }

  function ReadLine(t: Out): (Out, string) {
    if t.cursor >= |t.bytes| then (t, "")
    else
      var j := LineEnd(t.bytes, t.cursor);
      (t.(cursor := j), t.bytes[t.cursor..j])
  }
}

module Opcodes {
  type byte = x: int | 0 <= x < 256

  const EXIT: byte := 0
  const RET: byte := 1
  const POP: byte := 2
  const TRUE: byte := 3
  const FALSE: byte := 4
  const CONST: byte := 5
  const ADD: byte := 6
  const SUB: byte := 7
  const MUL: byte := 8
  const DIV: byte := 9
  const MOD: byte := 10
  const NEG: byte := 11
  const NOT: byte := 12
  const CMP_EQ: byte := 13
  const CMP_LT: byte := 14
  const CMP_GT: byte := 15
  const CMP_LTE: byte := 16
  const CMP_GTE: byte := 17
  const JMP: byte := 18
  const JMP_T: byte := 19
  const JMP_F: byte := 20
  const CALL: byte := 21
  const DIVERT: byte := 22
  const LOAD: byte := 23
  const STORE: byte := 24
  const LOAD_GLOBAL: byte := 25
  const STORE_GLOBAL: byte := 26
  const LOAD_CHOICE_ID: byte := 27
  const CONTENT: byte := 28
  const LINE: byte := 29
  const GLUE: byte := 30
  const CHOICE: byte := 31
  const FLUSH: byte := 32

  // The big-endian operand of a jump.
  function Word(c: seq<byte>, at: nat): (w: nat)
    requires at + 1 < |c|
    ensures w < 0x1_0000
  {
    (c[at] as int) * 256 + c[at + 1] as int
  }

  predicate IsJump(op: byte) { op == JMP || op == JMP_T || op == JMP_F }

  predicate HasByteOperand(op: byte) {
    op == CONST || op == LOAD || op == STORE || op == LOAD_GLOBAL || op == STORE_GLOBAL || op == CALL || op == DIVERT
  }

  // Instruction sizes, as the disassembler counts them.
  function InstLen(op: byte): (n: nat)
    ensures 1 <= n <= 3
  {
    if IsJump(op) then 3 else if HasByteOperand(op) then 2 else 1
  }
}

module Machine {
  import opened Wrappers
  import opened Values
  import opened Output
  import opened Opcodes

  const STACK_MAX: nat := 128

  datatype Path = Path(code: seq<byte>, pool: seq<Value>, arity: nat, locals: nat)
  type Program = map<string, Path>

  datatype Frame = Frame(path: string, ip: nat, sp: nat)

  // Fault covers error returns, failed assertions and reads outside an object.
  datatype Status = Running | Exited | Flushed | Returned | Fault

  datatype Offer = Offer(id: Option<Value>, text: string)

  // cells is the whole stack array: cells at or above top keep what was last stored there.
  datatype VM = VM(
    cells: seq<Option<Value>>,
    top: nat,
    frames: seq<Frame>,
    globals: map<string, Value>,
    out: Out,
    offers: seq<Offer>,
    choiceId: Option<Value>,
    status: Status)
  {
    predicate Valid() {
      |cells| == STACK_MAX && top <= STACK_MAX && |frames| <= STACK_MAX
    }

    function Crash(): VM { this.(status := Fault) }

    function Active(): Frame
      requires frames != []
    {
      frames[|frames| - 1]
    }

    function Goto(ip: nat): VM
      requires frames != []
    {
      this.(frames := frames[|frames| - 1 := Active().(ip := ip)])
    }

    // Peek: null on an empty stack.
    function Peek(k: nat): Option<Value>
      requires Valid()
    {
      if k < top then cells[top - k - 1] else None
    }

    function Drop(): (r: VM)
      requires Valid()
      ensures r.Valid()
    {
      if top == 0 then this else this.(top := top - 1)
    }

    // Pushing null fails an assertion; pushing on a full stack is an error.
    function Push(v: Option<Value>): (r: VM)
      requires Valid()
      ensures r.Valid()
    {
      if v.None? || top >= STACK_MAX then Crash() else this.(cells := cells[top := v], top := top + 1)
    }

    // Replace the two topmost cells by a result.
    function Combine(v: Option<Value>): (r: VM)
      requires Valid()
      ensures r.Valid()
    {
      if v.None? then Crash() else Drop().Drop().Push(v)
    }
  }

  function ArithOp(op: byte): InfixOp
    requires ADD <= op <= MOD
  {
    if op == ADD then Add else if op == SUB then Sub else if op == MUL then Mul else if op == DIV then Div else Mod
  }

  function CompareOp(op: byte): InfixOp
    requires CMP_EQ <= op <= CMP_GTE
  {
    if op == CMP_EQ then Eq else if op == CMP_LT then Lt else if op == CMP_GT then Gt else if op == CMP_LTE then Le
      else Ge
  }

  // Invoke a path: its arguments stay where they are and its locals are reserved uncleared.
  function Invoke(vm: VM, name: string, p: Path): (r: VM)
    requires vm.Valid()
    ensures r.Valid()
  {
    if |vm.frames| == STACK_MAX || vm.top < p.arity || vm.top + p.locals > STACK_MAX then vm.Crash()
    else vm.(frames := vm.frames + [Frame(name, 0, vm.top - p.arity)], top := vm.top + p.locals)
  }

  // Divert to a path: the topmost arity values move to the bottom and one frame remains.
  function Redirect(vm: VM, name: string, p: Path): (r: VM)
    requires vm.Valid()
    ensures r.Valid()
  {
    if vm.top < p.arity || p.arity + p.locals > STACK_MAX then vm.Crash()
    else
      vm.(cells := vm.cells[vm.top - p.arity..vm.top] + vm.cells[p.arity..],
          frames := [Frame(name, 0, 0)],
          top := p.arity + p.locals)
  }

  // Leave the current frame with the topmost value.
  function Leave(vm: VM): (r: VM)
    requires vm.Valid() && vm.frames != []
    ensures r.Valid()
  {
    var value := vm.Peek(0);
    var popped := vm.Drop().(frames := vm.frames[..|vm.frames| - 1]);
    if popped.frames == [] then popped.Drop().(status := Returned)
    else if vm.Active().sp > STACK_MAX then vm.Crash()
    else
      var back := popped.(top := vm.Active().sp);
      // the result of this push is ignored too
      if value.None? || back.top == STACK_MAX then back else back.Push(value)
  }

  // Look a path or a variable up by the name at pool index k.
  function PoolName(p: Path, k: nat): Option<string> {
    if k < |p.pool| && p.pool[k].Str? then Some(p.pool[k].s) else None
  }

  // One instruction with no operand; vm.ip is already past it.
  function Simple(vm: VM, op: byte): (r: VM)
    requires vm.Valid() && vm.frames != []
    ensures r.Valid()
  {
    if op == EXIT then vm.(status := Exited)
    else if op == RET then Leave(vm)
    else if op == POP then (if vm.Peek(0).None? then vm.Drop().Crash() else vm.Drop())
    else if op == TRUE then vm.Push(Some(Bool(true)))
    else if op == FALSE then vm.Push(Some(Bool(false)))
    else if ADD <= op <= MOD then
      match (vm.Peek(1), vm.Peek(0))
      case (Some(a), Some(b)) => vm.Combine(Arith(ArithOp(op), a, b))
      case (_, _) => vm.Crash()
    else if CMP_EQ <= op <= CMP_GTE then
      match (vm.Peek(1), vm.Peek(0))
      case (Some(a), Some(b)) => vm.Combine(Compare(CompareOp(op), a, b))
      case (_, _) => vm.Crash()
    else if op == NOT then
      match vm.Peek(0)
      case Some(a) => vm.Drop().Push(Some(Bool(Falsey(a))))
      case None => vm.Crash()
    else if op == LOAD_CHOICE_ID then vm.Push(vm.choiceId)
    else if op == CONTENT then
      match vm.Peek(0)
      case Some(a) => vm.Drop().(out := Write(vm.out, ToText(a)))
      case None => vm.Drop()
    else if op == LINE then vm.(out := Write(vm.out, "\n"))
    else if op == GLUE then vm.(out := Trim(vm.out))
    else if op == CHOICE then
      var (out, line) := ReadLine(vm.out);
      vm.Drop().(out := out, offers := vm.offers + [Offer(vm.Peek(0), line)])
    else if op == FLUSH then vm.(status := Flushed)
    else vm.Crash()
  }

  // One instruction with the operand k; vm.ip is already past it.
  function Indexed(prog: Program, vm: VM, p: Path, op: byte, k: byte): (r: VM)
    requires vm.Valid() && vm.frames != []
    ensures r.Valid()
  {
    if op == CONST then (if k < |p.pool| then vm.Push(Some(p.pool[k])) else vm.Crash())
    else if op == LOAD then
      // the result of this push is ignored: on a full stack nothing happens
      if vm.Active().sp + k >= STACK_MAX then vm.Crash()
      else if vm.cells[vm.Active().sp + k].Some? && vm.top == STACK_MAX then vm
      else vm.Push(vm.cells[vm.Active().sp + k])
    else if op == STORE then
      if vm.Active().sp + k >= STACK_MAX then vm.Crash()
      else vm.(cells := vm.cells[vm.Active().sp + k := vm.Peek(0)])
    else
      match PoolName(p, k)
      case None => vm.Crash()
      case Some(name) =>
        if op == LOAD_GLOBAL then (if name in vm.globals then vm.Push(Some(vm.globals[name])) else vm.Crash())
        else if op == STORE_GLOBAL then
          match vm.Peek(0)
          case Some(v) => vm.(globals := vm.globals[name := v])
          case None => vm.Crash()
        else if name !in prog then vm.Crash()
        else if op == CALL then Invoke(vm, name, prog[name])
        else if op == DIVERT then Redirect(vm, name, prog[name])
        else vm.Crash()
  }

  // A jump whose operand word is w; vm.ip is already past it.
  function Jump(vm: VM, op: byte, w: nat): (r: VM)
    requires vm.Valid() && vm.frames != []
    ensures r.Valid()
  {
    if op == JMP then vm.Goto(vm.Active().ip + w)
    else
      match vm.Peek(0)
      case None => vm.Crash()
      case Some(v) => if (op == JMP_T) == !Falsey(v) then vm.Goto(vm.Active().ip + w) else vm
  }

  function Step(prog: Program, vm: VM): (r: VM)
    requires vm.Valid()
    ensures r.Valid()
  {
    if !vm.status.Running? then vm
    else if vm.frames == [] || vm.Active().path !in prog then vm.Crash()
    else
      var p := prog[vm.Active().path];
      var ip := vm.Active().ip;
      if ip >= |p.code| || ip + InstLen(p.code[ip]) > |p.code| then vm.Crash()
      else
        var op := p.code[ip];
        var next := vm.Goto(ip + InstLen(op));
        if IsJump(op) then Jump(next, op, Word(p.code, ip + 1))
        else if HasByteOperand(op) then Indexed(prog, next, p, op, p.code[ip + 1])
        else Simple(next, op)
  }

  function Run(prog: Program, vm: VM, n: nat): (r: VM)
    requires vm.Valid()
    ensures r.Valid()
    decreases n
  {
    if n == 0 then vm else Run(prog, Step(prog, vm), n - 1)
  }

  lemma {:induction false} RunAdd(prog: Program, vm: VM, m: nat, n: nat)
    requires vm.Valid()
    ensures Run(prog, vm, m + n) == Run(prog, Run(prog, vm, m), n)
    decreases m
  {
    if m > 0 {
      RunAdd(prog, Step(prog, vm), m - 1, n);
      assert m + n - 1 == m - 1 + n;
    }
  }
}
