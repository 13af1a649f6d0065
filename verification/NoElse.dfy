// Conditionals without an else branch.  When no test holds, the generated code does not go past the
// conditional: it drops one more stack cell and runs the first body.  So the meaning of a conditional
// is only kept when a test holds or there is an else branch.

module NoElse {
  import opened Wrappers
  import opened Values
  import opened Ast
  import opened Output
  import opened Shape
  import opened Opcodes
  import opened Machine
  import opened Meaning
  import opened Layout
  import opened Goals
  import opened Correctness

  // ----- where control leaves the tests -----

  // From a to b in the same frame, never at or behind hi before.
  ghost predicate TakesBelow(prog: Program, n: nat, a: Config, hi: nat, b: Config) {
    && b.path == a.path && b.under == a.under
    && forall vm | Shows(vm, a) ::
        Shows(Run(prog, vm, n), b) && forall m | 0 <= m < n :: Before(Run(prog, vm, m), a, hi)
  }

  ghost predicate Before(vm: VM, a: Config, hi: nat) {
    Stays(vm, a) && Below(vm, a, hi)
  }

  ghost predicate GetsBelow(prog: Program, a: Config, hi: nat, b: Config) {
    exists n: nat :: TakesBelow(prog, n, a, hi, b)
  }

  lemma WithinBelow(prog: Program, a: Config, b: Config, hi: nat)
    requires Gets(prog, a, At(b)) && b.ip <= hi
    ensures GetsBelow(prog, a, hi, b)
  {
    hide Run;
    var n: nat :| Takes(prog, n, a, At(b));
    forall vm | Shows(vm, a)
      ensures Shows(Run(prog, vm, n), b) && forall m | 0 <= m < n :: Before(Run(prog, vm, m), a, hi)
    {
      assert Is(Run(prog, vm, n), At(b));
      forall m | 0 <= m < n
        ensures Before(Run(prog, vm, m), a, hi)
      {
        assert OnTheWay(Run(prog, vm, m), a, At(b));
      }
    }
    assert TakesBelow(prog, n, a, hi, b);
  }

  lemma StepBelow(prog: Program, a: Config, b: Config, hi: nat)
    requires Takes(prog, 1, a, At(b)) && a.ip < hi
    ensures GetsBelow(prog, a, hi, b)
  {
    hide Step;
    forall vm | Shows(vm, a)
      ensures Shows(Run(prog, vm, 1), b) && forall m | 0 <= m < 1 :: Before(Run(prog, vm, m), a, hi)
    {
      NoSteps(prog, vm);
      assert Is(Run(prog, vm, 1), At(b));
    }
    assert TakesBelow(prog, 1, a, hi, b);
  }

  lemma ThenBelow(prog: Program, a: Config, b: Config, c: Config, hi: nat)
    requires GetsBelow(prog, a, hi, b) && GetsBelow(prog, b, hi, c) && a.ip <= b.ip
    ensures GetsBelow(prog, a, hi, c)
  {
    hide Run, Step;
    var m: nat :| TakesBelow(prog, m, a, hi, b);
    var n: nat :| TakesBelow(prog, n, b, hi, c);
    forall vm | Shows(vm, a)
      ensures Shows(Run(prog, vm, m + n), c) && forall k | 0 <= k < m + n :: Before(Run(prog, vm, k), a, hi)
    {
      RunAdd(prog, vm, m, n);
      forall k | 0 <= k < m + n
        ensures Before(Run(prog, vm, k), a, hi)
      {
        if k >= m {
          RunAdd(prog, vm, m, k - m);
          assert Before(Run(prog, Run(prog, vm, m), k - m), b, hi);
        }
      }
    }
    assert TakesBelow(prog, m + n, a, hi, c);
  }

  // A test that holds: its jump is the first step out of the tests.
  lemma JumpBelow(prog: Program, a: Config, b: Config, t: nat, past: nat)
    requires Inside(prog, b) && b.live != [] && Top(b).Known? && !Falsey(Top(b).v)
    requires JumpAt(Code(prog, b), b.ip, JMP_T, t) && a.ip <= b.ip < past && GetsBelow(prog, a, past, b)
    ensures GetsBelow(prog, a, past, b.(ip := t))
  {
    hide GetsBelow;
    ByBranch(prog, b, JMP_T, t);
    StepBelow(prog, b, b.(ip := t), past);
    ThenBelow(prog, a, b, b.(ip := t), past);
  }

  // The tests from i on lead to the body of the first one that holds, or behind all of them, and to no
  // place behind the tests before.
  lemma {:induction false} TestsLeave(src: Source, prog: Program, cases: seq<Case>, i: nat, vis: Slots, base: nat,
          ps: Scope, a: Config, at: nat, bodies: nat, fuel: nat) returns (v: Value)
    requires i <= |cases| && Ready(src, prog, a) && Binds(vis, base, ps, a)
    requires a.ip == at + TestsLen(cases, i) <= at + TestsLen(cases, |cases|)
    requires TestsAt(cases, |cases|, Code(prog, a), at, bodies, Pool(prog, a), vis)
    requires var o := EvalTests(src, cases, i, ps, a.w, fuel); o.Ok? && Fits(prog, a, o)
    ensures var o := EvalTests(src, cases, i, ps, a.w, fuel);
      var past := at + TestsLen(cases, |cases|);
      GetsBelow(prog, a, past, Tested(cases, a, v, bodies, past, o).(w := o.w))
    decreases |cases| - i
  {
    hide ExprAt, EvalExpr, ExprLen, BodiesLen, GetsBelow, Gets, Binds, Compiled, JumpAt, OpAt;
    v := Int(0);
    var past := at + TestsLen(cases, |cases|);
    var o := EvalTests(src, cases, i, ps, a.w, fuel);
    if i == |cases| {
      Stay(prog, a);
      WithinBelow(prog, a, a, past);
    } else {
      var oe := EvalExpr(src, cases[i].test, ps, a.w, fuel);
      assert TestIn(cases, i, Code(prog, a), at, bodies, Pool(prog, a), vis);
      ExprRuns(src, prog, cases[i].test, vis, base, ps, a, fuel);
      TestsReach(cases, i + 1, |cases|);
      var a1 := Pushed(a, ExprLen(cases[i].test), oe.value);
      if Falsey(oe.value) {
        BranchPassed(prog, a, a1, JMP_T, bodies + BodiesLen(cases, i), oe);
        var a2 := a.(ip := a1.ip + 4, w := oe.w);
        WithinBelow(prog, a, a2, past);
        BindsAbove(vis, base, ps, a, a2);
        v := TestsLeave(src, prog, cases, i + 1, vis, base, ps, a2, at, bodies, fuel);
        ThenBelow(prog, a, a2, Tested(cases, a, v, bodies, past, o).(w := o.w), past);
      } else {
        v := oe.value;
        WithinBelow(prog, a, a1.(w := oe.w), past);
        JumpBelow(prog, a, a1.(w := oe.w), bodies + BodiesLen(cases, i), past);
      }
    }
  }

  lemma {:induction false} TestsReach(cases: seq<Case>, i: nat, j: nat)
    requires i <= j <= |cases|
    ensures TestsLen(cases, i) <= TestsLen(cases, j) && ArmsLen(cases, i) <= ArmsLen(cases, j)
    decreases j
  {
    if i < j {
      TestsReach(cases, i, j - 1);
    }
  }

  // The same for the comparisons of a switch.
  lemma {:induction false} ArmsLeave(prog: Program, cases: seq<Case>, i: nat, slot: nat, v: Value, a: Config, at: nat,
          bodies: nat)
    requires i <= |cases| && Inside(prog, a)
    requires a.sp + slot < |a.live| && a.live[a.sp + slot] == Known(v)
    requires |a.live| + (if cases == [] then 0 else 2) <= STACK_MAX && |a.under| + 1 <= STACK_MAX
    requires a.ip == at + ArmsLen(cases, i) <= at + ArmsLen(cases, |cases|)
    requires ArmsAt(cases, |cases|, Code(prog, a), at, bodies, Pool(prog, a), slot)
    ensures var past := at + ArmsLen(cases, |cases|);
      GetsBelow(prog, a, past, Matched(cases, a, bodies, past, Matching(cases, i, v)))
    decreases |cases| - i
  {
    hide ExprAt, ExprLen, BodiesLen, GetsBelow;
    var past := at + ArmsLen(cases, |cases|);
    if i == |cases| {
      Stay(prog, a);
      WithinBelow(prog, a, a, past);
    } else {
      var e, t := cases[i].test, bodies + BodiesLen(cases, i);
      assert ArmIn(cases, i, Code(prog, a), at, bodies, Pool(prog, a), slot);
      TestsReach(cases, i + 1, |cases|);
      var o := ArmTested(prog, e, slot, v, a);
      var a2 := Pushed(a, ExprLen(e) + 3, o.value);
      if e.v == v {
        WithinBelow(prog, a, a2, past);
        ByBranch(prog, a2, JMP_T, t);
        StepBelow(prog, a2, a2.(ip := t), past);
        ThenBelow(prog, a, a2, a2.(ip := t), past);
      } else {
        var b := ArmRuns(prog, e, slot, v, a, t);
        WithinBelow(prog, a, b, past);
        ArmsLeave(prog, cases, i + 1, slot, v, b, at, bodies);
        ThenBelow(prog, a, b, Matched(cases, b, bodies, past, Matching(cases, i + 1, v)), past);
      }
    }
  }

  // Control leaves the tests, which end at past, at b: nowhere before is the frame at past or behind it.
  ghost predicate Leaves(prog: Program, vm: VM, a: Config, past: nat, b: Config)
    requires vm.Valid()
  {
    exists n: nat :: LeavesAfter(prog, vm, n, a, past, b)
  }

  ghost predicate LeavesAfter(prog: Program, vm: VM, n: nat, a: Config, past: nat, b: Config)
    requires vm.Valid()
  {
    Shows(Run(prog, vm, n), b) && forall m | 0 <= m < n :: Before(Run(prog, vm, m), a, past)
  }

  // Where the meaning of a conditional wants control to be: at the body of case k with the value that was
  // tested on the stack, or, when no case holds, at the else body, or behind the conditional if it has none.
  ghost function Meant(cases: seq<Case>, a: Config, v: Value, bodies: nat, k: nat, w: World): Config
    requires k <= |cases|
  {
    a.(ip := bodies + BodiesLen(cases, k), live := if k < |cases| then a.live + [Known(v)] else a.live, w := w)
  }

  // There is a body for what was found, or none at all.
  predicate HasBranch(cases: seq<Case>, final: Final, k: nat) {
    final.Else? || cases == [] || k < |cases|
  }

  // From behind the tests, with the stack of s: over the jump to the else body, or not at all.
  lemma Selects(prog: Program, cases: seq<Case>, final: Final, a: Config, s: Config, v: Value, past: nat, k: nat,
          w: World, vm: VM)
    requires Inside(prog, a) && Shows(vm, a) && k <= |cases| && a.ip <= past && s == a.(live := s.live)
    requires final.Else? ==> JumpAt(Code(prog, a), past, JMP, past + 3 + BodiesLen(cases, |cases|))
    requires var bodies := past + ElseJump(final);
      GetsBelow(prog, a, past, if k < |cases| then Meant(cases, s, v, bodies, k, w) else s.(ip := past, w := w))
    ensures var bodies := past + ElseJump(final);
      Leaves(prog, vm, a, bodies, Meant(cases, s, v, bodies, k, w)) <==> HasBranch(cases, final, k)
  {
    hide GetsBelow, Leaves, JumpAt, Shows, BodiesLen;
    var bodies := past + ElseJump(final);
    var b := if k < |cases| then Meant(cases, s, v, bodies, k, w) else s.(ip := past, w := w);
    var c := Meant(cases, s, v, bodies, k, w);
    Higher(prog, a, past, bodies, b);
    SomeBody(cases);
    if k == |cases| && final.Else? {
      ByJump(prog, b, bodies + BodiesLen(cases, |cases|));
      StepBelow(prog, b, c, bodies);
      ThenBelow(prog, a, b, c, bodies);
      Arrives(prog, vm, a, bodies, c);
    } else if HasBranch(cases, final, k) {
      Arrives(prog, vm, a, bodies, b);
    } else {
      Misses(prog, vm, a, past, b, c);
    }
  }

  lemma Higher(prog: Program, a: Config, lo: nat, hi: nat, b: Config)
    requires GetsBelow(prog, a, lo, b) && lo <= hi
    ensures GetsBelow(prog, a, hi, b)
  {
    hide Run;
    var n: nat :| TakesBelow(prog, n, a, lo, b);
    forall vm, m | Shows(vm, a) && 0 <= m < n
      ensures Before(Run(prog, vm, m), a, hi)
    {
      assert Before(Run(prog, vm, m), a, lo);
    }
    assert TakesBelow(prog, n, a, hi, b);
  }

  lemma Arrives(prog: Program, vm: VM, a: Config, past: nat, b: Config)
    requires GetsBelow(prog, a, past, b) && Shows(vm, a)
    ensures Leaves(prog, vm, a, past, b)
  {
    hide Run;
    var n: nat :| TakesBelow(prog, n, a, past, b);
    assert LeavesAfter(prog, vm, n, a, past, b);
  }

  // A machine that leaves the tests at b leaves them nowhere else.
  lemma Misses(prog: Program, vm: VM, a: Config, past: nat, b: Config, c: Config)
    requires GetsBelow(prog, a, past, b) && Shows(vm, a) && past <= b.ip && past <= c.ip
    requires b.under == c.under == a.under && b.ip != c.ip
    ensures !Leaves(prog, vm, a, past, c)
  {
    hide Run;
    var n: nat :| TakesBelow(prog, n, a, past, b);
    var there := Run(prog, vm, n);
    assert there.Active() == Frame(b.path, b.ip, b.sp);
    forall m: nat
      ensures !LeavesAfter(prog, vm, m, a, past, c)
    {
      StandsAt(Run(prog, vm, m), c);
      if m < n {
        assert Before(Run(prog, vm, m), a, past);
      } else if n < m {
        assert LeavesAfter(prog, vm, m, a, past, c) ==> Before(there, a, past);
      }
    }
  }

  lemma StandsAt(vm: VM, c: Config)
    ensures Shows(vm, c) ==> Own(vm, c) && vm.Active() == Frame(c.path, c.ip, c.sp)
  {
  }

  lemma SomeBody(cases: seq<Case>)
    ensures BodiesLen(cases, |cases|) > 0 <==> cases != []
  {
  }

  // A multi-branch conditional selects what it means, from every machine state, if and only if there is a
  // branch for it: it has an else branch, or some test holds.
  lemma TestsSelect(src: Source, prog: Program, it: Item, vis: Slots, base: nat, ps: Scope, a: Config, fuel: nat,
          vm: VM)
    returns (v: Value)
    requires Ready(src, prog, a) && Binds(vis, base, ps, a) && Shows(vm, a)
    requires it.MultiIf? && ItemAt(it, Code(prog, a), a.ip, Pool(prog, a), vis, base)
    requires var o := EvalTests(src, it.cases, 0, ps, a.w, fuel); o.Ok? && Fits(prog, a, o)
    ensures var o := EvalTests(src, it.cases, 0, ps, a.w, fuel);
      var bodies := a.ip + TestsLen(it.cases, |it.cases|) + ElseJump(it.final);
      Leaves(prog, vm, a, bodies, Meant(it.cases, a, v, bodies, o.value, o.w)) <==>
        HasBranch(it.cases, it.final, o.value)
  {
    hide ExprAt, TestsAt, BodiesAt, FinalAt, EvalTests, BodiesLen, GetsBelow, Leaves, JumpAt;
    var o := EvalTests(src, it.cases, 0, ps, a.w, fuel);
    var past := a.ip + TestsLen(it.cases, |it.cases|);
    v := TestsLeave(src, prog, it.cases, 0, vis, base, ps, a, a.ip, past + ElseJump(it.final), fuel);
    Selects(prog, it.cases, it.final, a, a, v, past, o.value, o.w, vm);
  }

  // The subject of a switch in its slot.
  ghost function Stored(a: Config, base: nat, v: Value): Config
    requires a.sp + base < |a.live|
  {
    a.(live := a.live[a.sp + base := Known(v)])
  }

  lemma SubjectStored(src: Source, prog: Program, it: Item, vis: Slots, base: nat, ps: Scope, a: Config, fuel: nat,
          past: nat)
    requires Ready(src, prog, a) && Binds(vis, base, ps, a) && a.sp + base < |a.live|
    requires it.Switch? && ItemAt(it, Code(prog, a), a.ip, Pool(prog, a), vis, base)
    requires var o := EvalExpr(src, it.subject, ps, a.w, fuel); o.Ok? && Fits(prog, a, o)
    requires a.ip + ExprLen(it.subject) + 3 <= past
    ensures var o := EvalExpr(src, it.subject, ps, a.w, fuel);
      var s := Stored(a, base, o.value).(ip := a.ip + ExprLen(it.subject) + 3, w := o.w);
      Gets(prog, a, At(s)) && GetsBelow(prog, a, past, s)
  {
    hide ExprAt, ArmsAt, BodiesAt, FinalAt, EvalExpr, ExprLen, GetsBelow;
    var o := EvalExpr(src, it.subject, ps, a.w, fuel);
    ExprRuns(src, prog, it.subject, vis, base, ps, a, fuel);
    SubjectRuns(prog, a, ExprLen(it.subject), base, o);
    WithinBelow(prog, a, Stored(a, base, o.value).(ip := a.ip + ExprLen(it.subject) + 3, w := o.w), past);
  }

  // The same for a switch, from its first byte on.
  lemma CasesSelect(src: Source, prog: Program, it: Item, vis: Slots, base: nat, ps: Scope, a: Config, fuel: nat,
          vm: VM)
    requires Ready(src, prog, a) && Binds(vis, base, ps, a) && Shows(vm, a) && a.sp + base < |a.live|
    requires it.Switch? && ItemAt(it, Code(prog, a), a.ip, Pool(prog, a), vis, base)
    requires var o := EvalExpr(src, it.subject, ps, a.w, fuel); o.Ok? && Fits(prog, a, o)
    requires |a.live| + (if it.cases == [] then 0 else 2) <= STACK_MAX && |a.under| + 1 <= STACK_MAX
    ensures var o := EvalExpr(src, it.subject, ps, a.w, fuel);
      var bodies := a.ip + ExprLen(it.subject) + 3 + ArmsLen(it.cases, |it.cases|) + ElseJump(it.final);
      var k := Matching(it.cases, 0, o.value);
      Leaves(prog, vm, a, bodies, Meant(it.cases, Stored(a, base, o.value), Bool(true), bodies, k, o.w)) <==>
        HasBranch(it.cases, it.final, k)
  {
    hide ExprAt, ArmsAt, BodiesAt, FinalAt, EvalExpr, BodiesLen, GetsBelow, Leaves, JumpAt, Does, ExprLen;
    var o := EvalExpr(src, it.subject, ps, a.w, fuel);
    var at := a.ip + ExprLen(it.subject) + 3;
    var past := at + ArmsLen(it.cases, |it.cases|);
    var bodies := past + ElseJump(it.final);
    var s := Stored(a, base, o.value).(ip := at, w := o.w);
    SubjectStored(src, prog, it, vis, base, ps, a, fuel, past);
    TestsReach(it.cases, 0, |it.cases|);
    ArmsLeave(prog, it.cases, 0, base, o.value, s, at, bodies);
    ThenBelow(prog, a, s, Matched(it.cases, s, bodies, past, Matching(it.cases, 0, o.value)), past);
    Selects(prog, it.cases, it.final, a, Stored(a, base, o.value), Bool(true), past, Matching(it.cases, 0, o.value),
      o.w, vm);
  }

  // ----- what happens instead -----

  // In the first body, one cell lower.
  function Fallen(a: Config, bodies: nat, w: World): Config
    requires a.live != []
  {
    a.(ip := bodies + 1, live := a.live[..|a.live| - 1], w := w)
  }

  ghost predicate FaultsOrFalls(prog: Program, vm: VM, b: Config)
    requires vm.Valid()
  {
    exists n: nat :: FaultsOrFallsAfter(prog, vm, n, b)
  }

  ghost predicate FaultsOrFallsAfter(prog: Program, vm: VM, n: nat, b: Config)
    requires vm.Valid()
  {
    Run(prog, vm, n).status.Fault? || Shows(Run(prog, vm, n), b)
  }

  // What becomes of a when a cell is dropped at bodies that was never pushed: with an empty stack the
  // machine faults, with a known cell on top it is in the first body one cell lower, and whatever the
  // topmost cell is, it does one or the other.
  ghost predicate Falls(prog: Program, a: Config, bodies: nat, w: World) {
    && (a.live == [] ==> Gets(prog, a, Crashed))
    && (a.live != [] && Top(a).Known? ==> Gets(prog, a, At(Fallen(a, bodies, w))))
    && (a.live != [] ==> forall vm | Shows(vm, a) :: FaultsOrFalls(prog, vm, Fallen(a, bodies, w)))
  }

  lemma DropsOne(prog: Program, a: Config, b: Config, bodies: nat)
    requires b == a.(ip := bodies, w := b.w) && Inside(prog, a) && OpAt(Code(prog, a), bodies, POP)
    requires Gets(prog, a, At(b))
    ensures Falls(prog, a, bodies, b.w)
  {
    hide Gets;
    if b.live == [] {
      OneStep(prog, b, Crashed);
      Then(prog, a, b, Crashed);
    } else {
      if Top(b).Known? {
        ByPop(prog, b);
        Then(prog, a, b, At(Fallen(a, bodies, b.w)));
      }
      forall vm | Shows(vm, a)
        ensures FaultsOrFalls(prog, vm, Fallen(a, bodies, b.w))
      {
        DropsUnknown(prog, a, b, bodies, vm);
      }
    }
  }

  lemma DropsUnknown(prog: Program, a: Config, b: Config, bodies: nat, vm: VM)
    requires b == a.(ip := bodies, w := b.w) && Inside(prog, a) && OpAt(Code(prog, a), bodies, POP)
    requires Gets(prog, a, At(b)) && Shows(vm, a) && b.live != []
    ensures FaultsOrFalls(prog, vm, Fallen(a, bodies, b.w))
  {
    hide Step, OnTheWay;
    var n: nat :| Takes(prog, n, a, At(b));
    assert Is(Run(prog, vm, n), At(b));
    RunAdd(prog, vm, n, 1);
    hide Run;
    var there := Run(prog, vm, n);
    OnceMore(prog, there);
    PopsOrFaults(prog, there, b);
    assert FaultsOrFallsAfter(prog, vm, n + 1, Fallen(a, bodies, b.w));
  }

  lemma OnceMore(prog: Program, vm: VM)
    requires vm.Valid()
    ensures Run(prog, vm, 1) == Step(prog, vm)
  {
    NoSteps(prog, Step(prog, vm));
  }

  lemma PopsOrFaults(prog: Program, vm: VM, b: Config)
    requires Shows(vm, b) && Inside(prog, b) && OpAt(Code(prog, b), b.ip, POP) && b.live != []
    ensures Step(prog, vm).status.Fault? || Shows(Step(prog, vm), Popped(b, 1))
  {
  }

  lemma FirstBody(it: Item, c: seq<byte>, bodies: nat, exit: nat, pool: seq<Value>, vis: Slots, base: nat)
    requires (it.MultiIf? || it.Switch?) && it.cases != []
    requires BodiesAt(it.cases, |it.cases|, c, bodies, exit, pool, vis, base)
    ensures OpAt(c, bodies, POP) && BlockAt(it.cases[0].body, c, bodies + 1, pool, vis, base)
  {
    hide BlockAt, BlockLen;
    assert BodyIn(it.cases, 0, c, bodies, exit, pool, vis, base);
  }

  // No test holds and there is no else branch: the first body runs all the same, from every machine state.
  lemma TestsFallThrough(src: Source, prog: Program, it: Item, vis: Slots, base: nat, ps: Scope, a: Config, fuel: nat)
    requires Ready(src, prog, a) && Binds(vis, base, ps, a)
    requires it.MultiIf? && ItemAt(it, Code(prog, a), a.ip, Pool(prog, a), vis, base)
    requires var o := EvalTests(src, it.cases, 0, ps, a.w, fuel);
      o.Ok? && Fits(prog, a, o) && !HasBranch(it.cases, it.final, o.value)
    ensures var o := EvalTests(src, it.cases, 0, ps, a.w, fuel);
      var bodies := a.ip + TestsLen(it.cases, |it.cases|);
      Falls(prog, a, bodies, o.w) && BlockAt(it.cases[0].body, Code(prog, a), bodies + 1, Pool(prog, a), vis, base)
  {
    hide ExprAt, TestsAt, BodiesAt, EvalTests, BlockAt, BlockLen, ExprLen, Falls;
    var cases := it.cases;
    var bodies := a.ip + TestsLen(cases, |cases|);
    var o := EvalTests(src, cases, 0, ps, a.w, fuel);
    var _ := TestsRun(src, prog, cases, 0, vis, base, ps, a, a.ip, bodies, fuel);
    FirstBody(it, Code(prog, a), bodies, a.ip + ItemLen(it), Pool(prog, a), vis, base);
    DropsOne(prog, a, a.(ip := bodies, w := o.w), bodies);
  }

  // The same for a switch whose subject equals none of the literals, from its first byte on; there is at
  // least the cell of the subject.
  lemma CasesFallThrough(src: Source, prog: Program, it: Item, vis: Slots, base: nat, ps: Scope, a: Config, fuel: nat)
    requires Ready(src, prog, a) && Binds(vis, base, ps, a) && a.sp + base < |a.live|
    requires it.Switch? && ItemAt(it, Code(prog, a), a.ip, Pool(prog, a), vis, base)
    requires var o := EvalExpr(src, it.subject, ps, a.w, fuel);
      o.Ok? && Fits(prog, a, o) && !HasBranch(it.cases, it.final, Matching(it.cases, 0, o.value))
    requires |a.live| + 2 <= STACK_MAX && |a.under| + 1 <= STACK_MAX
    ensures var o := EvalExpr(src, it.subject, ps, a.w, fuel);
      var bodies := a.ip + ExprLen(it.subject) + 3 + ArmsLen(it.cases, |it.cases|);
      var s := Stored(a, base, o.value).(ip := a.ip + ExprLen(it.subject) + 3, w := o.w);
      && Gets(prog, a, At(s)) && Falls(prog, s, bodies, o.w)
      && BlockAt(it.cases[0].body, Code(prog, a), bodies + 1, Pool(prog, a), vis, base + 1)
  {
    hide ExprAt, ArmsAt, BodiesAt, EvalExpr, BlockAt, BlockLen, ExprLen, Falls, GetsBelow;
    var cases, o := it.cases, EvalExpr(src, it.subject, ps, a.w, fuel);
    var s := Stored(a, base, o.value).(ip := a.ip + ExprLen(it.subject) + 3, w := o.w);
    var bodies := s.ip + ArmsLen(cases, |cases|);
    SubjectStored(src, prog, it, vis, base, ps, a, fuel, bodies);
    ArmsRun(prog, cases, 0, base, o.value, s, s.ip, bodies);
    FirstBody(it, Code(prog, a), bodies, a.ip + ItemLen(it), Pool(prog, a), vis, base + 1);
    DropsOne(prog, s, s.(ip := bodies), bodies);
  }

  // The body that the meaning of a conditional selects.
  function Selected(cases: seq<Case>, final: Final, k: nat): seq<Stmt>
    requires k <= |cases|
  {
    if k < |cases| then cases[k].body else if final.Else? then final.body else []
  }

  // All there is to say about a multi-branch conditional.  Control goes where it is meant to if and only if
  // there is an else branch or some test holds; then the branch runs and control comes out behind the
  // conditional as evaluated; otherwise it faults or falls into the first body.
  lemma MultiIfExactly(src: Source, prog: Program, it: Item, vis: Slots, base: nat, ps: Scope, a: Config, fuel: nat,
          vm: VM)
    returns (v: Value)
    requires Ready(src, prog, a) && Binds(vis, base, ps, a) && Free(a, base, ItemSlots(it)) && Shows(vm, a)
    requires it.MultiIf? && (it.cases != [] || it.final.Else?)
    requires ItemAt(it, Code(prog, a), a.ip, Pool(prog, a), vis, base)
    requires var o := EvalTests(src, it.cases, 0, ps, a.w, fuel); o.Ok? && Fits(prog, a, o)
    ensures var o := EvalTests(src, it.cases, 0, ps, a.w, fuel);
      var past := a.ip + TestsLen(it.cases, |it.cases|);
      var bodies := past + ElseJump(it.final);
      && (Leaves(prog, vm, a, bodies, Meant(it.cases, a, v, bodies, o.value, o.w)) <==>
            it.final.Else? || o.value < |it.cases|)
      && (if it.final.Else? || o.value < |it.cases| then
            Does(prog, a, a.(ip := a.ip + ItemLen(it)),
                 Meaning.After(o.cost, 0, EvalBlock(src, Selected(it.cases, it.final, o.value), ps, o.w, fuel)))
          else Falls(prog, a, past, o.w))
  {
    hide ItemAt, Free, Leaves, Meant, Falls, Does, Fits, Binds, Ready, EvalTests, EvalBlock;
    var o := EvalTests(src, it.cases, 0, ps, a.w, fuel);
    v := TestsSelect(src, prog, it, vis, base, ps, a, fuel, vm);
    if it.final.Else? || o.value < |it.cases| {
      MultiIfRuns(src, prog, it, vis, base, ps, a, fuel);
    } else {
      TestsFallThrough(src, prog, it, vis, base, ps, a, fuel);
    }
  }

  // The same for a switch.
  lemma SwitchExactly(src: Source, prog: Program, it: Item, vis: Slots, base: nat, ps: Scope, a: Config, fuel: nat,
          vm: VM)
    requires Ready(src, prog, a) && Binds(vis, base, ps, a) && Free(a, base, ItemSlots(it)) && Shows(vm, a)
    requires it.Switch? && (it.cases != [] || it.final.Else?)
    requires ItemAt(it, Code(prog, a), a.ip, Pool(prog, a), vis, base)
    requires var o := EvalExpr(src, it.subject, ps, a.w, fuel); o.Ok? && Fits(prog, a, o)
    requires |a.live| + 2 <= STACK_MAX && |a.under| + 1 <= STACK_MAX
    ensures a.sp + base < |a.live|
    ensures var o := EvalExpr(src, it.subject, ps, a.w, fuel);
      var k := Matching(it.cases, 0, o.value);
      var bodies := a.ip + ExprLen(it.subject) + 3 + ArmsLen(it.cases, |it.cases|) + ElseJump(it.final);
      && (Leaves(prog, vm, a, bodies, Meant(it.cases, Stored(a, base, o.value), Bool(true), bodies, k, o.w))
          <==> it.final.Else? || k < |it.cases|)
      && SwitchEnds(src, prog, it, base, ps, a, fuel)
  {
    assert ItemSlots(it) > 0;
    SlotThere(a, base, ItemSlots(it));
    hide ItemAt, Free, Leaves, Meant, Falls, Does, Fits, Binds, Ready, EvalExpr, EvalBlock, ItemSlots, Gets, SwitchEnds;
    CasesSelect(src, prog, it, vis, base, ps, a, fuel, vm);
    SwitchComesOut(src, prog, it, vis, base, ps, a, fuel);
  }

  // What becomes of a switch: the selected body and its end, or one cell lower in the first body.
  ghost predicate SwitchEnds(src: Source, prog: Program, it: Item, base: nat, ps: Scope, a: Config, fuel: nat)
    requires it.Switch? && EvalExpr(src, it.subject, ps, a.w, fuel).Ok? && a.sp + base < |a.live|
  {
    var o := EvalExpr(src, it.subject, ps, a.w, fuel);
    var k := Matching(it.cases, 0, o.value);
    var s := Stored(a, base, o.value).(ip := a.ip + ExprLen(it.subject) + 3, w := o.w);
    if it.final.Else? || k < |it.cases| then
      Does(prog, a, a.(ip := a.ip + ItemLen(it)),
           Meaning.After(Join(o.cost, Cost(if it.cases == [] then 0 else 2, 0)), 0,
                         EvalBlock(src, Selected(it.cases, it.final, k), ps, o.w, fuel)))
    else
      Gets(prog, a, At(s)) && Falls(prog, s, s.ip + ArmsLen(it.cases, |it.cases|), o.w)
  }

  lemma SwitchComesOut(src: Source, prog: Program, it: Item, vis: Slots, base: nat, ps: Scope, a: Config, fuel: nat)
    requires Ready(src, prog, a) && Binds(vis, base, ps, a) && Free(a, base, ItemSlots(it)) && a.sp + base < |a.live|
    requires it.Switch? && (it.cases != [] || it.final.Else?)
    requires ItemAt(it, Code(prog, a), a.ip, Pool(prog, a), vis, base)
    requires var o := EvalExpr(src, it.subject, ps, a.w, fuel); o.Ok? && Fits(prog, a, o)
    requires |a.live| + 2 <= STACK_MAX && |a.under| + 1 <= STACK_MAX
    ensures SwitchEnds(src, prog, it, base, ps, a, fuel)
  {
    hide ItemAt, Free, Falls, Does, Fits, Binds, Ready, EvalExpr, EvalBlock, ItemSlots, Gets;
    var k := Matching(it.cases, 0, EvalExpr(src, it.subject, ps, a.w, fuel).value);
    if it.final.Else? || k < |it.cases| {
      SwitchRuns(src, prog, it, vis, base, ps, a, fuel);
    } else {
      CasesFallThrough(src, prog, it, vis, base, ps, a, fuel);
    }
  }

  lemma SlotThere(a: Config, base: nat, n: nat)
    requires Free(a, base, n) && n > 0
    ensures a.sp + base < |a.live|
  {
  }

  // At the bottom of the stack there is no cell to drop: a story that consists of `{ - false: }` faults.
  function Witness(): PathDef {
    PathDef([], [Content([MultiIf([Case(Lit(Bool(false)), [])], NoElse)])], false)
  }

  function WitnessCode(): Path {
    Path([FALSE, JMP_T, 0, 1, POP, POP, JMP, 0, 0, EXIT], [], 0, 0)
  }

  lemma WitnessIsCompiled()
    ensures PathAt(Witness(), WitnessCode())
  {
    WitnessItem();
    hide ItemAt, ItemLen, ItemSlots;
    var it := Witness().body[0].items[0];
    var s, c := Content([it]), WitnessCode().code;
    assert ItemIn([it], 0, c, 0, [], map[], 0);
    assert ItemsLen([it], 1) == 9 && ItemsSlots([it], 1) == 0;
    assert StmtAt(s, c, 0, [], map[], 0);
    assert StmtIn([s], 0, c, 0, [], map[], 0);
    assert StmtsLen([s], 1) == 9 && StmtsSlots([s], 1) == 0;
    assert ParamSlots([]) == map[];
  }

  lemma WitnessItem()
    ensures var it := Witness().body[0].items[0];
      ItemAt(it, WitnessCode().code, 0, [], map[], 0) && ItemLen(it) == 9 && ItemSlots(it) == 0
  {
    var cases := [Case(Lit(Bool(false)), [])];
    var it := MultiIf(cases, NoElse);
    var c := WitnessCode().code;
    assert TestsLen(cases, 1) == 5 && BodiesLen(cases, 1) == 4 && ItemLen(it) == 9;
    assert TestIn(cases, 0, c, 0, 5, [], map[]);
    assert BlockAt([], c, 6, [], map[], 0);
    assert BodyIn(cases, 0, c, 5, 9, [], map[], 0);
    assert BodiesSlots(cases, 1) == 0;
  }

  // At this instruction of the witness, with so many cells on the stack.
  ghost predicate WitnessAt(vm: VM, ip: nat, top: nat) {
    && vm.Valid() && vm.status.Running? && vm.top == top && vm.frames == [Frame("@main", ip, 0)]
    && (top == 1 ==> vm.cells[0] == Some(Bool(false)))
  }

  lemma WitnessTests(prog: Program, vm: VM)
    requires "@main" in prog && prog["@main"] == WitnessCode() && WitnessAt(vm, 0, 0)
    ensures WitnessAt(Step(prog, vm), 1, 1)
  {
    hide Jump, Indexed;
  }

  lemma WitnessStays(prog: Program, vm: VM)
    requires "@main" in prog && prog["@main"] == WitnessCode() && WitnessAt(vm, 1, 1)
    ensures WitnessAt(Step(prog, vm), 4, 1)
  {
    hide Simple, Indexed;
  }

  lemma WitnessPops(prog: Program, vm: VM)
    requires "@main" in prog && prog["@main"] == WitnessCode() && WitnessAt(vm, 4, 1)
    ensures WitnessAt(Step(prog, vm), 5, 0)
  {
    hide Jump, Indexed;
  }

  // The first three steps: the test, its jump, and the value that was tested is gone.
  lemma WitnessEmpty()
    ensures var prog := map["@main" := WitnessCode()]; WitnessAt(Run(prog, Opened(prog, "@main"), 3), 5, 0)
  {
    var prog := map["@main" := WitnessCode()];
    var vm := Opened(prog, "@main");
    WitnessTests(prog, vm);
    WitnessStays(prog, Step(prog, vm));
    WitnessPops(prog, Step(prog, Step(prog, vm)));
    hide Step, WitnessAt, WitnessCode;
    ThreeSteps(prog, vm);
  }

  lemma ThreeSteps(prog: Program, vm: VM)
    requires vm.Valid()
    ensures Run(prog, vm, 3) == Step(prog, Step(prog, Step(prog, vm)))
  {
    hide Step;
    assert Run(prog, vm, 3) == Run(prog, Step(prog, vm), 2);
    assert Run(prog, Step(prog, vm), 2) == Run(prog, Step(prog, Step(prog, vm)), 1);
    assert Run(prog, Step(prog, Step(prog, vm)), 1) == Run(prog, Step(prog, Step(prog, Step(prog, vm))), 0);
  }

  lemma WitnessFaults()
    ensures var src := map["@main" := Witness()];
      var prog := map["@main" := WitnessCode()];
      Compiled(src, prog) && Run(prog, Opened(prog, "@main"), 4).status == Fault
  {
    var src := map["@main" := Witness()];
    var prog := map["@main" := WitnessCode()];
    WitnessIsCompiled();
    assert CompiledPath(src, prog, "@main");
    WitnessEmpty();
    RunAdd(prog, Opened(prog, "@main"), 3, 1);
    hide PathAt;
    OnceMore(prog, Run(prog, Opened(prog, "@main"), 3));
    hide Run;
  }
}
