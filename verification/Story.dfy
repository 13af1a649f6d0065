// The virtual machine of src/story.c, in place: a stack array, a call stack and an output stream.
// Every operation is the transition that module Machine gives for it.

module Stories {
  import opened Wrappers
  import opened Values
  import opened Ast
  import opened Output
  import opened Opcodes
  import opened Machine
  import Streams

  class Story {
    const program: Program
    const stack: array<Option<Value>>
    const callStack: array<Frame>
    const stream: Streams.Stream
    var top: nat
    var callTop: nat
    var globals: map<string, Value>
    var choices: seq<Offer>
    var choiceId: Option<Value>
    var exited: bool
    var canContinue: bool

    ghost predicate Valid()
      reads this, callStack, stream
    {
      && stack.Length == callStack.Length == STACK_MAX && top <= STACK_MAX && callTop <= STACK_MAX
      && stream.Valid()
      && forall i | 0 <= i < callTop :: callStack[i].path in program && callStack[i].sp <= STACK_MAX
    }

    // The whole state as a machine value.
    ghost function Now(status: Status): (vm: VM)
      requires Valid()
      reads this, stack, callStack, stream
      ensures vm.Valid()
    {
      VM(stack[..], top, callStack[..callTop], globals, stream.View(), choices, choiceId, status)
    }

    constructor (program: Program)
      ensures Valid() && this.program == program && fresh(stack) && fresh(callStack) && fresh(stream)
      ensures Now(Running) == VM(seq(STACK_MAX, _ => None), 0, [], map[], Out("", 0), [], None, Running)
      ensures !exited && !canContinue
    {
      this.program := program;
      stack := new Option<Value>[STACK_MAX](_ => None);
      callStack := new Frame[STACK_MAX](_ => Frame("", 0, 0));
      stream := new Streams.Stream();
      top, callTop, globals, choices, choiceId := 0, 0, map[], [], None;
      exited, canContinue := false, false;
      new;
      assert stack[..] == seq(STACK_MAX, _ => None);
    }

    // ----- the evaluation stack -----

    method Push(v: Option<Value>) returns (st: Status)
      requires Valid()
      modifies `top, stack
      ensures Valid() && Now(st) == old(Now(Running)).Push(v)
    {
      if v.None? || top >= STACK_MAX {
        return Fault;
      }
      stack[top] := v;
      top := top + 1;
      return Running;
    }

    method Pop() returns (v: Option<Value>)
      requires Valid()
      modifies `top
      ensures Valid() && Now(Running) == old(Now(Running)).Drop() && v == old(Now(Running)).Peek(0)
    {
      if top == 0 {
        return None;
      }
      top := top - 1;
      return stack[top];
    }

    method Peek(k: nat) returns (v: Option<Value>)
      requires Valid()
      ensures v == Now(Running).Peek(k)
    {
      return if k < top then stack[top - k - 1] else None;
    }

    // Replace both operands by the result.
    method Combine(v: Option<Value>) returns (st: Status)
      requires Valid()
      modifies `top, stack
      ensures Valid() && Now(st) == old(Now(Running)).Combine(v)
    {
      if v.None? {
        return Fault;
      }
      var b := Pop();
      var a := Pop();
      st := Push(v);
    }

    // ----- paths -----

    method Call(name: string) returns (st: Status)
      requires Valid() && name in program
      modifies `top, `callTop, callStack
      ensures Valid() && Now(st) == Invoke(old(Now(Running)), name, program[name])
    {
      var p := program[name];
      if callTop == STACK_MAX || top < p.arity || top + p.locals > STACK_MAX {
        return Fault;
      }
      callStack[callTop] := Frame(name, 0, top - p.arity);
      callTop := callTop + 1;
      top := top + p.locals;
      return Running;
    }

    method Divert(name: string) returns (st: Status)
      requires Valid() && name in program
      modifies `top, `callTop, stack, callStack
      ensures Valid() && Now(st) == Redirect(old(Now(Running)), name, program[name])
    {
      var p := program[name];
      if top < p.arity || p.arity + p.locals > STACK_MAX {
        return Fault;
      }
      MoveDown(top - p.arity, p.arity);
      callStack[0] := Frame(name, 0, 0);
      callTop, top := 1, p.arity + p.locals;
      assert callStack[..1] == [Frame(name, 0, 0)];
      return Running;
    }

    // Copy n cells to the bottom of the stack, one by one and in place; source and target may overlap.
    method MoveDown(from: nat, n: nat)
      requires from + n <= stack.Length
      modifies stack
      ensures stack[..] == old(stack[..])[from..from + n] + old(stack[..])[n..]
    {
      ghost var was := stack[..];
      for i := 0 to n
        invariant forall k | 0 <= k < i :: stack[k] == was[from + k]
        invariant forall k | i <= k < stack.Length :: stack[k] == was[k]
      {
        stack[i] := stack[from + i];
      }
      Moved(was, stack[..], from, n);
    }

    method Return() returns (st: Status)
      requires Valid() && callTop > 0
      modifies `top, `callTop, stack
      ensures Valid() && Now(st) == Leave(old(Now(Running)))
    {
      var frame := callStack[callTop - 1];
      var value := Pop();
      callTop := callTop - 1;
      assert callStack[..callTop] == old(callStack[..callTop])[..callTop];
      if callTop == 0 {
        value := Pop();
        return Returned;
      }
      top := frame.sp;
      if value.Some? && top < STACK_MAX {
        st := Push(value);
      }
      return Running;
    }

    method Goto(ip: nat)
      requires Valid() && callTop > 0
      modifies callStack
      ensures Valid() && Now(Running) == old(Now(Running)).Goto(ip)
    {
      callStack[callTop - 1] := callStack[callTop - 1].(ip := ip);
    }

    // ----- instructions; the frame is already past the one that runs -----

    method Arithmetic(op: byte) returns (st: Status)
      requires Valid() && callTop > 0 && ADD <= op <= MOD
      modifies `top, stack
      ensures Valid() && Now(st) == Machine.Simple(old(Now(Running)), op)
    {
      hide Arith;
      var lhs := Peek(1);
      var rhs := Peek(0);
      if lhs.None? || rhs.None? {
        return Fault;
      }
      st := Combine(Arith(ArithOp(op), lhs.value, rhs.value));
    }

    method Comparison(op: byte) returns (st: Status)
      requires Valid() && callTop > 0 && CMP_EQ <= op <= CMP_GTE
      modifies `top, stack
      ensures Valid() && Now(st) == Machine.Simple(old(Now(Running)), op)
    {
      hide Compare;
      var lhs := Peek(1);
      var rhs := Peek(0);
      if lhs.None? || rhs.None? {
        return Fault;
      }
      st := Combine(Compare(CompareOp(op), lhs.value, rhs.value));
    }

    method Negation() returns (st: Status)
      requires Valid() && callTop > 0
      modifies `top, stack
      ensures Valid() && Now(st) == Machine.Simple(old(Now(Running)), NOT)
    {
      var arg := Peek(0);
      if arg.None? {
        return Fault;
      }
      ghost var same := Pop();
      st := Push(Some(Bool(Falsey(arg.value))));
    }

    // Text, newlines and glue go to the stream; a choice takes the line that was just written.
    method Emit(op: byte) returns (st: Status)
      requires Valid() && callTop > 0 && (op == CONTENT || op == LINE || op == GLUE || op == CHOICE)
      modifies `top, `choices, stream
      ensures Valid() && Now(st) == Machine.Simple(old(Now(Running)), op)
    {
      hide Streams.PlayAll, Streams.Contents, Digits;
      st := Running;
      if op == CONTENT {
        var arg := Pop();
        if arg.Some? {
          stream.Write(ToText(arg.value));
        }
      } else if op == LINE {
        stream.Write("\n");
      } else if op == GLUE {
        stream.Trim();
      } else {
        var id := Pop();
        var found, line := stream.ReadLine();
        choices := choices + [Offer(id, line)];
      }
    }

    method Simple(op: byte) returns (st: Status)
      requires Valid() && callTop > 0
      modifies `top, `callTop, `choices, stack, stream
      ensures Valid() && Now(st) == Machine.Simple(old(Now(Running)), op)
    {
      hide Arith, Compare, Output.Trim, Output.ReadLine, ToText;
      if ADD <= op <= MOD {
        st := Arithmetic(op);
      } else if CMP_EQ <= op <= CMP_GTE {
        st := Comparison(op);
      } else if op == CONTENT || op == LINE || op == GLUE || op == CHOICE {
        st := Emit(op);
      } else {
        st := Plain(op);
      }
    }

    method Plain(op: byte) returns (st: Status)
      requires Valid() && callTop > 0
      requires !(ADD <= op <= MOD) && !(CMP_EQ <= op <= CMP_GTE)
      requires op != CONTENT && op != LINE && op != GLUE && op != CHOICE
      modifies `top, `callTop, stack
      ensures Valid() && Now(st) == Machine.Simple(old(Now(Running)), op)
    {
      if op == EXIT {
        return Exited;
      } else if op == RET {
        st := Return();
      } else if op == POP {
        var v := Pop();
        return if v.None? then Fault else Running;
      } else if op == TRUE {
        st := Push(Some(Bool(true)));
      } else if op == FALSE {
        st := Push(Some(Bool(false)));
      } else if op == NOT {
        st := Negation();
      } else if op == LOAD_CHOICE_ID {
        st := Push(choiceId);
      } else if op == FLUSH {
        return Flushed;
      } else {
        return Fault;
      }
    }

    // Constants and stack slots.
    method Slot(p: Path, op: byte, k: byte) returns (st: Status)
      requires Valid() && callTop > 0 && (op == CONST || op == LOAD || op == STORE)
      modifies `top, stack
      ensures Valid() && Now(st) == Machine.Indexed(program, old(Now(Running)), p, op, k)
    {
      if op == CONST {
        if k >= |p.pool| {
          return Fault;
        }
        st := Push(Some(p.pool[k]));
        return;
      }
      var at := callStack[callTop - 1].sp + k;
      if at >= STACK_MAX {
        return Fault;
      }
      if op == LOAD {
        var value := stack[at];
        if value.Some? && top == STACK_MAX {
          return Running;
        }
        st := Push(value);
      } else {
        var value := Peek(0);
        stack[at] := value;
        return Running;
      }
    }

    // Variables and paths, by the name in the pool.
    method Named(p: Path, op: byte, k: byte) returns (st: Status)
      requires Valid() && callTop > 0 && HasByteOperand(op) && op != CONST && op != LOAD && op != STORE
      modifies `top, `callTop, `globals, stack, callStack
      ensures Valid() && Now(st) == Machine.Indexed(program, old(Now(Running)), p, op, k)
    {
      var name := PoolName(p, k);
      if name.None? {
        return Fault;
      }
      if op == LOAD_GLOBAL {
        if name.value !in globals {
          return Fault;
        }
        st := Push(Some(globals[name.value]));
      } else if op == STORE_GLOBAL {
        var value := Peek(0);
        if value.None? {
          return Fault;
        }
        globals := globals[name.value := value.value];
        ghost var same := Pop();
        st := Push(value);
      } else if name.value !in program {
        return Fault;
      } else if op == CALL {
        st := Call(name.value);
      } else {
        st := Divert(name.value);
      }
    }

    method Branch(op: byte, w: nat) returns (st: Status)
      requires Valid() && callTop > 0 && IsJump(op)
      modifies callStack
      ensures Valid() && Now(st) == Machine.Jump(old(Now(Running)), op, w)
    {
      var ip := callStack[callTop - 1].ip;
      if op != JMP {
        var arg := Peek(0);
        if arg.None? {
          return Fault;
        }
        if (op == JMP_T) == Falsey(arg.value) {
          return Running;
        }
      }
      Goto(ip + w);
      return Running;
    }

    // Fetch, decode and run one instruction.
    method Step() returns (st: Status)
      requires Valid() && callTop > 0
      modifies `top, `callTop, `globals, `choices, stack, callStack, stream
      ensures Valid() && Now(st) == Machine.Step(program, old(Now(Running)))
    {
      hide Machine.Simple, Machine.Indexed, Machine.Jump;
      var frame := callStack[callTop - 1];
      var p := program[frame.path];
      if frame.ip >= |p.code| || frame.ip + InstLen(p.code[frame.ip]) > |p.code| {
        return Fault;
      }
      var op := p.code[frame.ip];
      Goto(frame.ip + InstLen(op));
      if IsJump(op) {
        st := Branch(op, Word(p.code, frame.ip + 1));
      } else if !HasByteOperand(op) {
        st := Simple(op);
      } else if op == CONST || op == LOAD || op == STORE {
        st := Slot(p, op, p.code[frame.ip + 1]);
      } else {
        st := Named(p, op, p.code[frame.ip + 1]);
      }
    }

    // ----- running -----

    // Run until the story exits, flushes or faults.  The run of the machine is known to end after n steps.
    method Exec(ghost n: nat) returns (st: Status)
      requires Valid() && (callTop > 0 ==> !Run(program, Now(Running), n).status.Running?)
      modifies this, stack, callStack, stream
      ensures Valid()
      ensures old(callTop) == 0 ==>
        st == Returned && Now(Running) == old(Now(Running)) && !canContinue && exited == old(exited)
      ensures old(callTop) > 0 ==>
        && Now(st) == Run(program, old(Now(Running)), n) && !st.Running?
        && exited == (old(exited) || st.Exited?) && canContinue == old(canContinue)
    {
      hide Machine.Step;
      if callTop == 0 {
        canContinue := false;
        return Returned;
      }
      ghost var left, goal := n, Run(program, Now(Running), n);
      st := Running;
      while st.Running?
        invariant Valid() && (st.Running? ==> callTop > 0)
        invariant exited == old(exited) && canContinue == old(canContinue)
        invariant Run(program, Now(st), left) == goal
        decreases left
      {
        if left == 0 {
          assert false;
        }
        FramesRemain(program, Now(Running));
        st := Step();
        left := left - 1;
      }
      Halted(program, Now(st), left);
      if st.Exited? {
        exited := true;
      }
    }

    // Loading ends with a divert to the main path, if there is one.
    method Load() returns (st: Status)
      requires Valid()
      modifies this, stack, callStack
      ensures Valid() && canContinue && exited == old(exited)
      ensures Now(st) == if MAIN in program then Redirect(old(Now(Running)), MAIN, program[MAIN]) else old(Now(Running))
    {
      st := Running;
      if MAIN in program {
        st := Divert(MAIN);
      }
      canContinue := true;
    }

    // Nothing more is going to be written before the reader chooses, if ever.
    ghost predicate Idle()
      reads this
    {
      exited || choices != []
    }

    // The first n turns of the loop of Exec, of any run, whether it ends or not.
    method Turns(n: nat) returns (st: Status)
      requires Valid() && callTop > 0
      modifies this, stack, callStack, stream
      ensures Valid() && Now(st) == Run(program, old(Now(Running)), n)
      ensures exited == (old(exited) || st.Exited?) && canContinue == old(canContinue)
    {
      hide Machine.Step;
      ghost var goal := Run(program, Now(Running), n);
      st := Running;
      var left := n;
      while st.Running? && left > 0
        invariant Valid() && (st.Running? ==> callTop > 0)
        invariant exited == old(exited) && canContinue == old(canContinue)
        invariant Run(program, Now(st), left) == goal
      {
        FramesRemain(program, Now(Running));
        st := Step();
        left := left - 1;
      }
      if !st.Running? {
        Halted(program, Now(st), left);
      }
      if st.Exited? {
        exited := true;
      }
    }

    // The next line.  Lines that wait are handed out first; only then the machine runs on, once or more
    // often, until there is something to read or to choose, or the end.
    method Continue(ghost ns: seq<nat>) returns (st: Status, line: string)
      requires Valid()
      requires !Unread(stream.View()) && !Idle() ==> Answers(program, Now(Running), ns)
      modifies this, stack, callStack, stream
      ensures Valid()
      ensures var was := old(Now(Running));
        var vm := if Unread(was.out) || old(Idle()) then was else After(program, was, ns);
        if st.Fault? then Now(st) == vm else
        && st == Running && exited == (old(exited) || vm.status.Exited?)
        && Now(vm.status) == vm.(out := ReadLine(vm.out).0) && line == ReadLine(vm.out).1
        && (canContinue <==> old(canContinue) && !(Idle() && !Unread(stream.View())))
    {
      hide Run, Streams.PlayAll, Streams.FirstLine;
      ghost var quiet, left, last := !Unread(stream.View()) && !Idle(), ns, Running;
      ghost var goal := if quiet then After(program, Now(Running), ns) else Now(Running);
      line := "";
      while true
        invariant Valid() && canContinue == old(canContinue)
        invariant last.Running? ==> exited == old(exited)
        invariant last.Running? && !quiet ==> Now(Running) == goal && (Unread(stream.View()) || Idle())
        invariant last.Running? && quiet ==>
          Answers(program, Now(Running), left) && After(program, Now(Running), left) == goal && !Unread(stream.View())
            && !Idle()
        invariant !last.Running? ==>
          quiet && !last.Fault? && Now(last) == goal && exited == (old(exited) || last.Exited?)
            && (Unread(stream.View()) || Idle())
        decreases last.Running?, |left|
      {
        var empty := stream.IsEmpty();
        if !empty {
          var found;
          found, line := stream.ReadLine();
          empty := stream.IsEmpty();
          if empty && (exited || choices != []) {
            canContinue := false;
          }
          return Running, line;
        }
        if exited || choices != [] {
          canContinue := false;
          return Running, "";
        }
        st := Exec(left[0]);
        if st.Fault? {
          return;
        }
        if |left| == 1 {
          last := st;
        } else {
          left := left[1..];
        }
      }
    }

    method Choose(index: nat) returns (ok: bool)
      requires Valid()
      modifies `choiceId, `canContinue, `choices
      ensures Valid()
      ensures var was := old(Now(Running));
        var i := if index > 0 then index - 1 else 0;
        && ok == (i < |was.offers|)
        && Now(Running) == (if ok then was.(choiceId := was.offers[i].id, offers := []) else was)
        && canContinue == (old(canContinue) || ok)
    {
      var i := if index > 0 then index - 1 else 0;
      if i < |choices| {
        choiceId, canContinue, choices := choices[i].id, true, [];
        return true;
      }
      return false;
    }
  }

  // A run that stopped with nothing to read, nothing to choose from and no end of the story.
  predicate Stuck(vm: VM) {
    !vm.status.Exited? && !vm.status.Fault? && vm.offers == []
  }

  predicate Unread(t: Out) {
    t.cursor < |t.bytes|
  }

  // One run after the other, of at most so many steps each.
  ghost function After(prog: Program, vm: VM, ns: seq<nat>): VM
    requires vm.Valid()
    decreases |ns|
  {
    if ns == [] then vm
    else
      var end := Run(prog, vm, ns[0]);
      if |ns| == 1 then end else After(prog, end.(status := Running), ns[1..])
  }

  // All these runs come to a stop, all but the last one with nothing to hand out.  A run needs a frame:
  // without one the machine is stuck for good.
  ghost predicate Answers(prog: Program, vm: VM, ns: seq<nat>)
    requires vm.Valid()
    decreases |ns|
  {
    && ns != [] && vm.frames != []
    && var end := Run(prog, vm, ns[0]);
       && !end.status.Running?
       && if |ns| == 1 then Unread(end.out) || !Stuck(end)
          else !Unread(end.out) && Stuck(end) && Answers(prog, end.(status := Running), ns[1..])
  }

  lemma Moved<T>(was: seq<T>, now: seq<T>, from: nat, n: nat)
    requires |now| == |was| && from + n <= |was|
    requires (forall k | 0 <= k < n :: now[k] == was[from + k]) && forall k | n <= k < |was| :: now[k] == was[k]
    ensures now == was[from..from + n] + was[n..]
  {
  }

  // A machine that goes on running has a frame to run.
  lemma FramesRemain(prog: Program, vm: VM)
    requires vm.Valid() && vm.frames != [] && vm.status.Running?
    ensures Machine.Step(prog, vm).status.Running? ==> Machine.Step(prog, vm).frames != []
  {
    hide Arith, Compare, ToText, Output.Trim, Output.ReadLine, Word;
  }

  // Nothing that was read is ever taken back.
  lemma StepKeepsRead(prog: Program, vm: VM)
    requires vm.Valid() && vm.out.Valid()
    ensures var r := Machine.Step(prog, vm);
      r.out.Valid() && vm.out.cursor <= r.out.cursor && r.out.bytes[..vm.out.cursor] == vm.out.bytes[..vm.out.cursor]
  {
    hide Arith, Compare, ToText, Word, LineEnd, TrimFrom;
    TrimKeepsRead(vm.out.bytes, vm.out.cursor);
  }

  lemma {:induction false} TrimKeepsRead(bytes: string, cursor: nat)
    requires cursor <= |bytes|
    ensures cursor <= |TrimFrom(bytes, cursor)| && TrimFrom(bytes, cursor)[..cursor] == bytes[..cursor]
    decreases |bytes|
  {
    if cursor < |bytes| && bytes[|bytes| - 1] == '\n' {
      TrimKeepsRead(bytes[..|bytes| - 1], cursor);
    }
  }

  lemma {:induction false} RunKeepsRead(prog: Program, vm: VM, n: nat)
    requires vm.Valid() && vm.out.Valid()
    ensures var r := Run(prog, vm, n);
      r.out.Valid() && vm.out.cursor <= r.out.cursor && r.out.bytes[..vm.out.cursor] == vm.out.bytes[..vm.out.cursor]
    decreases n
  {
    hide Machine.Step;
    if n > 0 {
      StepKeepsRead(prog, vm);
      RunKeepsRead(prog, Machine.Step(prog, vm), n - 1);
    }
  }

  lemma {:induction false} Halted(prog: Program, vm: VM, n: nat)
    requires vm.Valid() && !vm.status.Running?
    ensures Run(prog, vm, n) == vm
    decreases n
  {
    if n > 0 {
      Halted(prog, vm, n - 1);
    }
  }
}

// From the source tree to the text that the host gets to read.
module Telling {
  import opened Wrappers
  import opened Ast
  import opened Machine
  import opened Meaning
  import opened Layout
  import opened Stories
  import Output
  import Streams
  import opened Values
  import Scoping
  import Reasons
  import Headroom
  import Defined
  import Emissions
  import Astgen
  import Correctness

  const START := World(map[], Output.Out("", 0))

  // What the story is to say, according to the evaluator.
  ghost function Told(src: Source, fuel: nat): Outcome<()> {
    EvalStory(src, MAIN, [], START, fuel)
  }

  lemma {:induction false} MainIsThere(main: seq<Stmt>, defs: seq<(string, PathDef)>)
    requires forall i | 0 <= i < |defs| :: defs[i].0 != MAIN
    ensures var src := Astgen.SourceOf(Some(main), defs); MAIN in src && src[MAIN] == PathDef([], main, false)
    decreases |defs|
  {
    if defs != [] {
      MainIsThere(main, defs[..|defs| - 1]);
    }
  }

  // In a source whose names are in scope every variable was stored before it is loaded, and every called
  // path exists: the evaluator never misses a name, however long it runs.  It fails only for a reason that
  // some construct of the source can give, and for want of stack only if the source has calls or expressions
  // that are too large.
  lemma NeverUndefined(main: seq<Stmt>, defs: seq<(string, PathDef)>, fuel: nat)
    requires forall i | 0 <= i < |defs| :: defs[i].0 != MAIN
    requires Scoping.SourceScoped(Astgen.SourceOf(Some(main), defs), Astgen.FileSorts(defs))
    ensures var src := Astgen.SourceOf(Some(main), defs);
      match Told(src, fuel)
      case Ok(_, _, _) => false
      case Gone(l, _, _) => l.End?
      case Bad(why) =>
        why != Undefined && if why.Overflow? then !Headroom.SourceRoom(src) else !Reasons.SourceQuiet(src, why)
  {
    hide EvalPath, Reasons.SourceQuiet, Headroom.SourceRoom;
    var src := Astgen.SourceOf(Some(main), defs);
    MainIsThere(main, defs);
    var o := Told(src, fuel);
    Defined.StoryDefined(src, Astgen.FileSorts(defs), MAIN, [], START, fuel,
      if o.Bad? then o.why else Undefined);
    StoryEnds(src, MAIN, [], START, fuel);
    if Headroom.SourceRoom(src) {
      Headroom.StoryNeeds(src, MAIN, [], START, fuel);
    }
  }

  // A story that does not fail comes to its end.
  lemma {:induction false} StoryEnds(src: Source, f: string, vs: seq<Value>, w: World, fuel: nat)
    ensures var o := EvalStory(src, f, vs, w, fuel); !o.Ok? && (o.Gone? ==> o.leave.End?)
    decreases fuel
  {
    hide EvalPath;
    var o := EvalPath(src, f, vs, w, fuel);
    if o.Gone? && o.leave.To? && fuel > 0 {
      StoryEnds(src, o.leave.path, o.leave.args, o.w, fuel - 1);
    }
  }

  // Compile a file with a main path.
  method Compile(main: seq<Stmt>, defs: seq<(string, PathDef)>) returns (ok: bool, prog: Program)
    requires forall i | 0 <= i < |defs| :: |defs[i].1.params| <= 255 && defs[i].0 != MAIN
    ensures Astgen.FileAccepted(Some(main), defs) ==> ok
    ensures ok ==> Compiled(Astgen.SourceOf(Some(main), defs), prog) && MAIN in prog
    ensures ok ==> forall fuel :: Told(Astgen.SourceOf(Some(main), defs), fuel) != Bad(Undefined)
  {
    hide EvalStory, Compiled, Told, Scoping.SourceScoped, Astgen.FileAccepted;
    var generator := new Astgen.Generator();
    var st;
    st, prog := generator.File(Some(main), defs);
    ok := st.Fine?;
    if ok {
      MainIsThere(main, defs);
      MainHasCode(Astgen.SourceOf(Some(main), defs), prog);
      forall fuel
        ensures Told(Astgen.SourceOf(Some(main), defs), fuel) != Bad(Undefined)
      {
        NeverUndefined(main, defs, fuel);
      }
    }
  }

  // A story that comes to its end was loaded without a fault.
  lemma LoadedWell(prog: Program, n: nat)
    requires MAIN in prog && Run(prog, Correctness.Opened(prog, MAIN), n).status.Exited?
    ensures var vm := Correctness.Opened(prog, MAIN);
      vm.status.Running? && |vm.frames| == 1 && vm.offers == [] && vm.out == Output.Out("", 0)
  {
    var vm := Correctness.Opened(prog, MAIN);
    if !vm.status.Running? {
      Halted(prog, vm, n);
    }
  }

  lemma MainHasCode(src: Source, prog: Program)
    requires Compiled(src, prog) && MAIN in src
    ensures MAIN in prog
  {
  }

  lemma NextLine(t: Output.Out)
    requires t.Valid() && '\0' !in t.bytes
    ensures var (u, line) := Output.ReadLine(t);
      && u.bytes == t.bytes && t.cursor <= u.cursor <= |t.bytes| && line == t.bytes[t.cursor..u.cursor]
      && (Unread(t) ==> t.cursor < u.cursor)
  {
  }

  // Read a loaded story line by line until it has nothing more to say: the first line makes it run.
  method ReadAll(story: Story, ghost n: nat, ghost out: Output.Out) returns (text: string)
    requires story.Valid() && story.canContinue && !story.Idle() && !Unread(story.stream.View()) && story.callTop > 0
    requires var end := Run(story.program, story.Now(Running), n); end.status.Exited? && end.out == out
    requires out.Valid() && '\0' !in out.bytes
    modifies story, story.stack, story.callStack, story.stream
    ensures text == out.bytes[out.cursor..]
  {
    hide Run, Streams.PlayAll, Output.ReadLine;
    NextLine(out);
    var rc, line := story.Continue([n]);
    if rc.Fault? {
      assert false;
    }
    text := ReadRest(story);
    text := line + text;
  }

  method ReadRest(story: Story) returns (text: string)
    requires story.Valid() && story.exited && '\0' !in story.stream.View().bytes
    requires !story.canContinue ==> !Unread(story.stream.View())
    modifies story, story.stack, story.callStack, story.stream
    ensures text == old(story.stream.View().bytes)[old(story.stream.View().cursor)..]
  {
    hide Run, Streams.PlayAll, Output.ReadLine, Streams.Contents;
    text := "";
    ghost var out := story.stream.View();
    while story.canContinue
      invariant story.Valid() && story.exited && story.stream.View().bytes == out.bytes
      invariant out.cursor <= story.stream.View().cursor && text == out.bytes[out.cursor..story.stream.View().cursor]
      invariant !story.canContinue ==> !Unread(story.stream.View())
      decreases |out.bytes| - story.stream.View().cursor, story.canContinue
    {
      NextLine(story.stream.View());
      var rc, line := story.Continue([]);
      text := text + line;
    }
  }

  // Compile a story, load it and read it: the host gets the text that the evaluator writes.
  method Tell(main: seq<Stmt>, defs: seq<(string, PathDef)>, ghost fuel: nat) returns (ok: bool, text: string)
    requires forall i | 0 <= i < |defs| :: |defs[i].1.params| <= 255 && defs[i].0 != MAIN
    requires var o := Told(Astgen.SourceOf(Some(main), defs), fuel); o.Gone? && '\0' !in o.w.out.bytes
    ensures Astgen.FileAccepted(Some(main), defs) ==> ok
    ensures ok ==>
      var out := Told(Astgen.SourceOf(Some(main), defs), fuel).w.out;
      out.Valid() && text == out.bytes[out.cursor..]
  {
    hide EvalStory, Compiled, Run, Streams.PlayAll, Redirect, Astgen.FileAccepted;
    ghost var src := Astgen.SourceOf(Some(main), defs);
    ghost var o := Told(src, fuel);
    var prog;
    ok, prog := Compile(main, defs);
    if !ok {
      return false, "";
    }
    MainIsThere(main, defs);
    var story := new Story(prog);
    var rc := story.Load();
    ghost var n := Correctness.StoryIsMeaning(src, prog, MAIN, fuel);
    LoadedWell(prog, n);
    RunKeepsRead(prog, story.Now(Running), n);
    text := ReadAll(story, n, o.w.out);
    ok := true;
  }
}
