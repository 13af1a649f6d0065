// What the operators of the machine compute, as laws about single instructions: no law names the function
// that computes the result.

module Numerals {
  predicate IsDigit(c: char) { '0' <= c <= '9' }

  predicate AllDigits(s: string) { forall i | 0 <= i < |s| :: IsDigit(s[i]) }

  // A decimal numeral, read from the left: each further digit counts ten times what came before.
  function Read(s: string): nat
    requires AllDigits(s)
  {
    if s == [] then 0
    else
      assert forall i | 0 <= i < |s| - 1 :: s[..|s| - 1][i] == s[i];
      Read(s[..|s| - 1]) * 10 + (s[|s| - 1] as int - '0' as int)
  }

  // A numeral without leading zeros that reads as n.
  predicate Writes(s: string, n: nat) {
    s != "" && AllDigits(s) && Read(s) == n && (s[0] == '0' ==> s == "0")
  }

  // The text of an integer: its numeral, with a minus in front of a negative one.
  predicate IsNumeral(s: string, n: int) {
    if n < 0 then s != "" && s[0] == '-' && Writes(s[1..], -n) else Writes(s, n)
  }

  // There is only one such text.
  lemma {:induction false} OneNumeral(s: string, t: string, n: nat)
    requires Writes(s, n) && Writes(t, n)
    ensures s == t
    decreases |s|
  {
    if n < 10 {
      Short(s, n);
      Short(t, n);
    } else {
      var (a, b) := (s[..|s| - 1], t[..|t| - 1]);
      Longer(s, n);
      Longer(t, n);
      OneNumeral(a, b, n / 10);
      assert s == a + [s[|s| - 1]] && t == b + [t[|t| - 1]];
    }
  }

  lemma {:induction false} Positive(s: string)
    requires s != "" && AllDigits(s) && s[0] != '0'
    ensures Read(s) > 0
    decreases |s|
  {
    if |s| > 1 {
      Positive(s[..|s| - 1]);
    }
  }

  lemma Short(s: string, n: nat)
    requires Writes(s, n) && n < 10
    ensures |s| == 1 && s[0] as int == '0' as int + n
  {
    if |s| > 1 {
      Positive(s[..|s| - 1]);
    }
    assert s[..0] == "";
  }

  lemma Longer(s: string, n: nat)
    requires Writes(s, n) && n >= 10
    ensures |s| > 1 && Writes(s[..|s| - 1], n / 10) && s[|s| - 1] as int == '0' as int + n % 10
  {
    assert s[..0] == "";
  }
}

// The instructions that compute, on any stack and in any state.
module Laws {
  import opened Wrappers
  import opened Values
  import opened Opcodes
  import opened Machine
  import opened Output
  import opened Numerals

  // The left operand lies beneath the right one.
  predicate On(vm: VM, a: Value, b: Value) {
    vm.Valid() && vm.frames != [] && vm.top >= 2 && vm.cells[vm.top - 2] == Some(a) && vm.cells[vm.top - 1] == Some(b)
  }

  // Both operands gave way to the value v, and nothing else changed.
  predicate Leaves(vm: VM, r: VM, v: Value) {
    vm.top >= 2 && |vm.cells| >= vm.top && r == vm.(cells := vm.cells[vm.top - 2 := Some(v)], top := vm.top - 1)
  }

  // Both leave the same value, or both fail.
  ghost predicate Agree(vm: VM, r: VM, other: VM, q: VM) {
    (r.status.Fault? && q.status.Fault?) || exists v :: Leaves(vm, r, v) && Leaves(other, q, v)
  }

  // The same machine with other operands.
  function Beside(vm: VM, a: Value, b: Value): (r: VM)
    requires vm.Valid() && vm.top >= 2
    ensures r.Valid() && (vm.frames != [] ==> On(r, a, b))
  {
    vm.(cells := vm.cells[vm.top - 2 := Some(a)][vm.top - 1 := Some(b)])
  }

  // What an instruction with two operands does with its result, if it has one.
  lemma Arithmetic(vm: VM, op: byte, a: Value, b: Value)
    requires On(vm, a, b) && ADD <= op <= MOD
    ensures match Arith(ArithOp(op), a, b)
      case None => Machine.Simple(vm, op).status.Fault?
      case Some(v) => Leaves(vm, Machine.Simple(vm, op), v)
  {
    hide Arith;
  }

  lemma Comparison(vm: VM, op: byte, a: Value, b: Value)
    requires On(vm, a, b) && CMP_EQ <= op <= CMP_GTE
    ensures match Compare(CompareOp(op), a, b)
      case None => Machine.Simple(vm, op).status.Fault?
      case Some(v) => Leaves(vm, Machine.Simple(vm, op), v)
  {
    hide Compare;
  }

  // ADD leaves the sum, and SUB takes it back.
  lemma SumAndDifference(vm: VM, x: int, y: int)
    ensures On(vm, Int(x), Int(y)) ==> Leaves(vm, Machine.Simple(vm, ADD), Int(x + y))
    ensures On(vm, Int(x + y), Int(y)) ==> Leaves(vm, Machine.Simple(vm, SUB), Int(x))
  {
    hide Machine.Simple;
    if On(vm, Int(x), Int(y)) { Arithmetic(vm, ADD, Int(x), Int(y)); }
    if On(vm, Int(x + y), Int(y)) { Arithmetic(vm, SUB, Int(x + y), Int(y)); }
  }

  // MUL leaves the left operand when the right one is 1, and distributes over sums on the right.
  lemma ProductDistributes(vm: VM, x: int, y: int, z: int)
    requires On(vm, Int(x), Int(y + z))
    ensures exists p, q :: Product(vm, x, y + z, p + q) && Product(vm, x, y, p) && Product(vm, x, z, q)
    ensures y + z == 1 ==> Product(vm, x, y + z, x)
  {
    Multiplies(vm, x, y + z);
    Multiplies(vm, x, y);
    Multiplies(vm, x, z);
    hide Product;
    assert x * (y + z) == x * y + x * z;
    assert Product(vm, x, y + z, x * y + x * z);
  }

  // MUL on these operands leaves p.
  predicate Product(vm: VM, x: int, y: int, p: int)
    requires vm.Valid() && vm.top >= 2 && vm.frames != []
  {
    var other := Beside(vm, Int(x), Int(y));
    Leaves(other, Machine.Simple(other, MUL), Int(p))
  }

  lemma Multiplies(vm: VM, x: int, y: int)
    requires vm.Valid() && vm.top >= 2 && vm.frames != []
    ensures Product(vm, x, y, x * y)
  {
    hide Machine.Simple;
    Arithmetic(Beside(vm, Int(x), Int(y)), MUL, Int(x), Int(y));
  }

  // A remainder of a by b: smaller than b, and of the sign of a.
  predicate Remains(a: int, b: int, r: int) {
    -Magnitude(b) < r < Magnitude(b) && (r == 0 || (r < 0 <==> a < 0))
  }

  function Magnitude(b: int): int { if b < 0 then -b else b }

  // DIV and MOD leave a quotient and a remainder that give the dividend back: the remainder has the sign of
  // the dividend, so the quotient is truncated toward zero.  Division by zero fails.
  lemma QuotientAndRemainder(vm: VM, a: int, b: int)
    requires On(vm, Int(a), Int(b))
    ensures b != 0 ==> exists q, r ::
      && Leaves(vm, Machine.Simple(vm, DIV), Int(q)) && Leaves(vm, Machine.Simple(vm, MOD), Int(r))
      && a == q * b + r && Remains(a, b, r)
    ensures b == 0 ==> Machine.Simple(vm, DIV).status.Fault? && Machine.Simple(vm, MOD).status.Fault?
  {
    hide Machine.Simple, TruncDiv, TruncMod, Remains;
    Arithmetic(vm, DIV, Int(a), Int(b));
    Arithmetic(vm, MOD, Int(a), Int(b));
    if b != 0 {
      Truncated(a, b);
      assert Leaves(vm, Machine.Simple(vm, DIV), Int(TruncDiv(a, b)));
      assert Leaves(vm, Machine.Simple(vm, MOD), Int(TruncMod(a, b)));
    }
  }

  lemma Truncated(a: int, b: int)
    requires b != 0
    ensures var (q, r) := (TruncDiv(a, b), TruncMod(a, b)); a == q * b + r && Remains(a, b, r)
  {
    var (x, y) := (Magnitude(a), Magnitude(b));
    assert x == y * (x / y) + x % y;
  }

  // There is only one such pair.
  lemma OneQuotient(a: int, b: int, q: int, r: int, p: int, s: int)
    requires b != 0 && a == q * b + r && a == p * b + s && Remains(a, b, r) && Remains(a, b, s)
    ensures q == p && r == s
  {
    assert (q - p) * b == s - r;
    if q != p {
      AtLeast(q - p, b);
      assert false;
    }
  }

  lemma AtLeast(d: int, b: int)
    requires d != 0
    ensures Magnitude(d * b) >= Magnitude(b)
  {
    var (x, y) := (Magnitude(d), Magnitude(b));
    assert d * b == x * y || d * b == -(x * y) by {
      assert d == x || d == -x;
      assert b == y || b == -y;
    }
    assert x * y == (x - 1) * y + y;
    Times(x - 1, y);
  }

  lemma Times(x: nat, y: nat)
    ensures x * y >= 0
  {
  }

  // The comparisons of numbers follow their order.
  lemma OrderOfNumbers(vm: VM, a: int, b: int)
    requires On(vm, Int(a), Int(b))
    ensures a < b ==> Ordered(vm, true, false, false)
    ensures a == b ==> Ordered(vm, false, true, false)
    ensures a > b ==> Ordered(vm, false, false, true)
  {
    hide Machine.Simple;
    Comparison(vm, CMP_LT, Int(a), Int(b));
    Comparison(vm, CMP_LTE, Int(a), Int(b));
    Comparison(vm, CMP_GT, Int(a), Int(b));
    Comparison(vm, CMP_GTE, Int(a), Int(b));
    Comparison(vm, CMP_EQ, Int(a), Int(b));
  }

  // What the five comparisons leave for operands that are less, equal or greater.
  predicate Ordered(vm: VM, less: bool, same: bool, greater: bool)
    requires vm.Valid() && vm.frames != []
  {
    && Leaves(vm, Machine.Simple(vm, CMP_LT), Bool(less)) && Leaves(vm, Machine.Simple(vm, CMP_GT), Bool(greater))
    && Leaves(vm, Machine.Simple(vm, CMP_LTE), Bool(less || same))
    && Leaves(vm, Machine.Simple(vm, CMP_GTE), Bool(greater || same))
    && Leaves(vm, Machine.Simple(vm, CMP_EQ), Bool(same))
  }

  // Two values are equal when they are the same value of the same type.
  lemma Equality(vm: VM, a: Value, b: Value)
    requires On(vm, a, b)
    ensures Leaves(vm, Machine.Simple(vm, CMP_EQ), Bool(a == b))
  {
    Comparison(vm, CMP_EQ, a, b);
  }

  predicate Computes(op: byte) {
    ADD <= op <= MOD || (CMP_LT <= op <= CMP_GTE)
  }

  // A boolean beside a number counts as 0 or 1; two booleans are rejected.
  lemma BooleansCount(vm: VM, op: byte, b: bool, n: int, c: bool)
    requires Computes(op) && vm.Valid() && vm.top >= 2
    ensures var other := Beside(vm, Int(if b then 1 else 0), Int(n));
      On(vm, Bool(b), Int(n)) ==> Agree(vm, Machine.Simple(vm, op), other, Machine.Simple(other, op))
    ensures var other := Beside(vm, Int(n), Int(if b then 1 else 0));
      On(vm, Int(n), Bool(b)) ==> Agree(vm, Machine.Simple(vm, op), other, Machine.Simple(other, op))
    ensures On(vm, Bool(b), Bool(c)) ==> Machine.Simple(vm, op).status.Fault?
  {
    hide Machine.Simple, IntArith;
    var k := Int(if b then 1 else 0);
    if On(vm, Bool(b), Int(n)) { Alike(vm, op, Bool(b), Int(n), Beside(vm, k, Int(n)), k, Int(n)); }
    if On(vm, Int(n), Bool(b)) { Alike(vm, op, Int(n), Bool(b), Beside(vm, Int(n), k), Int(n), k); }
    if On(vm, Bool(b), Bool(c)) {
      if op <= MOD { Arithmetic(vm, op, Bool(b), Bool(c)); } else { Comparison(vm, op, Bool(b), Bool(c)); }
    }
  }

  // Operands that stand for the same numbers give the same result.
  lemma Alike(vm: VM, op: byte, a: Value, b: Value, other: VM, x: Value, y: Value)
    requires Computes(op) && On(vm, a, b) && On(other, x, y) && Operands(a, b) == Operands(x, y)
    requires !a.Str? && !b.Str? && !x.Str? && !y.Str?
    ensures Agree(vm, Machine.Simple(vm, op), other, Machine.Simple(other, op))
  {
    hide Machine.Simple, IntArith, Operands, Leaves, On;
    if op <= MOD {
      Arithmetic(vm, op, a, b);
      Arithmetic(other, op, x, y);
    } else {
      Comparison(vm, op, a, b);
      Comparison(other, op, x, y);
    }
  }

  // Text beside anything is joined to its text by ADD; no other operator takes text.
  lemma TextJoins(vm: VM, op: byte, s: string, v: Value, t: string)
    requires Computes(op) && TextOf(v, t)
    ensures On(vm, Str(s), v) ==>
      if op == ADD then Leaves(vm, Machine.Simple(vm, op), Str(s + t)) else Machine.Simple(vm, op).status.Fault?
    ensures On(vm, v, Str(s)) ==>
      if op == ADD then Leaves(vm, Machine.Simple(vm, op), Str(t + s)) else Machine.Simple(vm, op).status.Fault?
  {
    hide Machine.Simple, IsNumeral, ToText;
    OneText(v, t);
    OneText(Str(s), s);
    if On(vm, Str(s), v) {
      if op <= MOD { Arithmetic(vm, op, Str(s), v); } else { Comparison(vm, op, Str(s), v); }
    }
    if On(vm, v, Str(s)) {
      if op <= MOD { Arithmetic(vm, op, v, Str(s)); } else { Comparison(vm, op, v, Str(s)); }
    }
  }

  // The text of a value.
  predicate TextOf(v: Value, t: string) {
    match v
    case Int(n) => IsNumeral(t, n)
    case Bool(b) => t == if b then "true" else "false"
    case Str(s) => t == s
  }

  // CONTENT writes the text of the topmost value behind everything written before.
  lemma ContentWrites(vm: VM, v: Value, t: string)
    requires vm.Valid() && vm.frames != [] && vm.top >= 1 && vm.cells[vm.top - 1] == Some(v) && TextOf(v, t)
    ensures Machine.Simple(vm, CONTENT) ==
      vm.(top := vm.top - 1, out := vm.out.(bytes := vm.out.bytes + t))
  {
    hide ToText, TextOf;
    OneText(v, t);
  }

  // LINE writes a line break, and GLUE takes back the line breaks at the end, but none that was read.
  lemma LineAndGlue(vm: VM)
    requires vm.Valid() && vm.frames != [] && vm.out.Valid()
    ensures Machine.Simple(vm, LINE) == vm.(out := vm.out.(bytes := vm.out.bytes + "\n"))
    ensures var r := Machine.Simple(vm, GLUE);
      var n := |r.out.bytes|;
      && r == vm.(out := vm.out.(bytes := r.out.bytes)) && vm.out.cursor <= n <= |vm.out.bytes|
      && r.out.bytes == vm.out.bytes[..n] && (forall i | n <= i < |vm.out.bytes| :: vm.out.bytes[i] == '\n')
      && (n > vm.out.cursor ==> vm.out.bytes[n - 1] != '\n')
  {
    TrimsBreaks(vm.out.bytes, vm.out.cursor);
  }

  lemma {:induction false} TrimsBreaks(bytes: string, cursor: nat)
    requires cursor <= |bytes|
    ensures var r := TrimFrom(bytes, cursor);
      && cursor <= |r| <= |bytes| && r == bytes[..|r|] && (forall i | |r| <= i < |bytes| :: bytes[i] == '\n')
      && (|r| > cursor ==> bytes[|r| - 1] != '\n')
    decreases |bytes|
  {
    if cursor < |bytes| && bytes[|bytes| - 1] == '\n' {
      TrimsBreaks(bytes[..|bytes| - 1], cursor);
    }
  }

  // Only false counts as false: it alone is negated to true, and it alone is jumped at by JMP_F.
  lemma OnlyFalseIsFalse(vm: VM, v: Value, w: nat)
    requires vm.Valid() && vm.frames != [] && vm.top >= 1 && vm.cells[vm.top - 1] == Some(v)
    ensures Machine.Simple(vm, NOT) == vm.(cells := vm.cells[vm.top - 1 := Some(Bool(v == Bool(false)))])
    ensures v == Bool(false) ==>
      Machine.Jump(vm, JMP_F, w) == vm.Goto(vm.Active().ip + w) && Machine.Jump(vm, JMP_T, w) == vm
    ensures v != Bool(false) ==>
      Machine.Jump(vm, JMP_T, w) == vm.Goto(vm.Active().ip + w) && Machine.Jump(vm, JMP_F, w) == vm
  {
  }

  lemma {:induction false} DigitsRead(n: nat)
    ensures Writes(Digits(n), n) && (n > 0 ==> Digits(n)[0] != '0')
    decreases n
  {
    if n >= 10 {
      DigitsRead(n / 10);
      var (init, last) := (Digits(n / 10), '0' + (n % 10) as char);
      assert (init + [last])[..|init|] == init;
      assert (init + [last])[0] == init[0];
    } else {
      assert Digits(n)[..0] == "";
    }
  }

  // The machine's text is the text.
  lemma OneText(v: Value, t: string)
    requires TextOf(v, t)
    ensures ToText(v) == t
  {
    match v
    case Int(n) =>
      DigitsRead(Magnitude(n));
      if n < 0 {
        OneNumeral(Digits(-n), t[1..], -n);
        assert t == "-" + t[1..];
      } else {
        OneNumeral(Digits(n), t, n);
      }
    case _ =>
  }

  // Every value has a text.
  lemma EveryText(v: Value)
    ensures exists t :: TextOf(v, t)
  {
    var t := ToText(v);
    match v
    case Int(n) =>
      DigitsRead(Magnitude(n));
      assert n < 0 ==> t[1..] == Digits(-n);
      assert TextOf(v, t);
    case _ => assert TextOf(v, t);
  }
}
