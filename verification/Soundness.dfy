// Compiled code is sound to decode: it splits into whole instructions, every jump lands on the start
// of one of them, and every operand names something that exists.  It follows that no run ever fetches
// an instruction from anywhere else.

module Soundness {
  import opened Wrappers
  import opened Values
  import opened Ast
  import opened Shape
  import opened Opcodes
  import opened Layout
  import M = Machine

  // Code, its constants and the number of stack cells of its path.
  datatype Listing = Listing(c: seq<byte>, pool: seq<Value>, slots: nat)

  // Reading whole instructions from a on leads exactly to b.
  ghost predicate Tiles(c: seq<byte>, a: nat, b: nat)
    decreases b - a
  {
    a == b || (a < b && a < |c| && a + InstLen(c[a]) <= b && Tiles(c, a + InstLen(c[a]), b))
  }

  // p starts an instruction.
  ghost predicate Boundary(c: seq<byte>, p: nat) {
    p < |c| && Tiles(c, 0, p)
  }

  // The operands of the instruction at p; todo has jump targets that are yet to be shown to start an
  // instruction.
  ghost predicate InstOk(l: Listing, p: nat, todo: set<nat>) {
    && p < |l.c| && p + InstLen(l.c[p]) <= |l.c|
    && var op := l.c[p];
    && (IsJump(op) ==> var t := p + 3 + Word(l.c, p + 1); t in todo || Boundary(l.c, t))
    && (op == CONST ==> l.c[p + 1] < |l.pool|)
    && (IsNamed(op) ==> l.c[p + 1] < |l.pool| && l.pool[l.c[p + 1]].Str?)
    && (op == LOAD || op == STORE ==> l.c[p + 1] < l.slots)
  }

  // Instructions whose operand is the index of a name.
  predicate IsNamed(op: byte) {
    op == LOAD_GLOBAL || op == STORE_GLOBAL || op == CALL || op == DIVERT
  }

  // The code from a to b is whole instructions with good operands, and more code follows.
  ghost predicate Span(l: Listing, a: nat, b: nat, todo: set<nat>) {
    && Boundary(l.c, a) && b < |l.c|
    && Tiles(l.c, a, b)
    && forall p | a <= p < b && Tiles(l.c, a, p) :: InstOk(l, p, todo)
  }

  lemma {:induction false} TilesTwice(c: seq<byte>, a: nat, m: nat, b: nat)
    requires Tiles(c, a, m) && Tiles(c, m, b)
    ensures Tiles(c, a, b)
    decreases m - a
  {
    if a < m {
      TilesTwice(c, a + InstLen(c[a]), m, b);
    }
  }

  // Instructions never overlap: two boundaries are a whole number of instructions apart.
  lemma {:induction false} TilesSplit(c: seq<byte>, a: nat, m: nat, b: nat)
    requires Tiles(c, a, m) && Tiles(c, a, b) && m <= b
    ensures Tiles(c, m, b)
    decreases m - a
  {
    if a < m {
      TilesSplit(c, a + InstLen(c[a]), m, b);
    }
  }

  // ----- building spans -----

  lemma SpanEnd(l: Listing, a: nat, b: nat, todo: set<nat>)
    requires Span(l, a, b, todo)
    ensures Boundary(l.c, b)
  {
    TilesTwice(l.c, 0, a, b);
  }

  lemma Join(l: Listing, a: nat, m: nat, b: nat, todo: set<nat>)
    requires Span(l, a, m, todo) && Span(l, m, b, todo)
    ensures Span(l, a, b, todo)
  {
    hide InstOk;
    TilesTwice(l.c, a, m, b);
    forall p | a <= p < b && Tiles(l.c, a, p)
      ensures InstOk(l, p, todo)
    {
      if p >= m {
        TilesSplit(l.c, a, m, p);
      }
    }
  }

  lemma Start(l: Listing, a: nat, todo: set<nat>)
    requires Boundary(l.c, a)
    ensures Span(l, a, a, todo)
  {
  }

  lemma AndInst(l: Listing, a: nat, p: nat, todo: set<nat>)
    requires Span(l, a, p, todo) && InstOk(l, p, todo) && p + InstLen(l.c[p]) < |l.c|
    ensures Span(l, a, p + InstLen(l.c[p]), todo)
  {
    SpanEnd(l, a, p, todo);
    forall q | p <= q < p + InstLen(l.c[p]) && Tiles(l.c, p, q)
      ensures q == p
    {
    }
    assert Tiles(l.c, p + InstLen(l.c[p]), p + InstLen(l.c[p]));
    assert Span(l, p, p + InstLen(l.c[p]), todo);
    hide InstOk;
    Join(l, a, p, p + InstLen(l.c[p]), todo);
  }

  lemma AndOp(l: Listing, a: nat, p: nat, op: byte, todo: set<nat>)
    requires Span(l, a, p, todo) && OpAt(l.c, p, op) && InstLen(op) == 1 && p + 1 < |l.c|
    ensures Span(l, a, p + 1, todo)
  {
    hide Span;
    AndInst(l, a, p, todo);
  }

  lemma AndConst(l: Listing, a: nat, p: nat, op: byte, v: Value, todo: set<nat>)
    requires Span(l, a, p, todo) && ConstAt(l.c, p, op, l.pool, v) && (op == CONST || (IsNamed(op) && v.Str?))
      && p + 2 < |l.c|
    ensures Span(l, a, p + 2, todo)
  {
    hide Span;
    AndInst(l, a, p, todo);
  }

  lemma AndSlot(l: Listing, a: nat, p: nat, op: byte, slot: nat, todo: set<nat>)
    requires Span(l, a, p, todo) && SlotAt(l.c, p, op, slot) && (op == LOAD || op == STORE) && slot < l.slots
      && p + 2 < |l.c|
    ensures Span(l, a, p + 2, todo)
  {
    hide Span;
    AndInst(l, a, p, todo);
  }

  lemma AndJump(l: Listing, a: nat, p: nat, op: byte, t: nat, todo: set<nat>)
    requires Span(l, a, p, todo) && JumpAt(l.c, p, op, t) && IsJump(op) && (t in todo || Boundary(l.c, t))
      && p + 3 < |l.c|
    ensures Span(l, a, p + 3, todo)
  {
    hide Span;
    AndInst(l, a, p, todo);
  }

  // Once every pending target is known to start an instruction, none is pending.
  lemma Done(l: Listing, a: nat, b: nat, todo: set<nat>)
    requires Span(l, a, b, todo) && forall t | t in todo :: Boundary(l.c, t)
    ensures Span(l, a, b, {})
  {
    forall p | a <= p < b && Tiles(l.c, a, p)
      ensures InstOk(l, p, {})
    {
      assert InstOk(l, p, todo);
    }
  }

  // Add a part that has no pending targets of its own.
  lemma AndPart(l: Listing, a: nat, m: nat, b: nat, todo: set<nat>)
    requires Span(l, a, m, todo) && Span(l, m, b, {})
    ensures Span(l, a, b, todo)
  {
    forall p | m <= p < b && Tiles(l.c, m, p)
      ensures InstOk(l, p, todo)
    {
      assert InstOk(l, p, {});
    }
    hide InstOk;
    Join(l, a, m, b, todo);
  }

  // ----- expressions -----

  ghost predicate VisIn(vis: Slots, slots: nat) {
    forall x | x in vis :: vis[x] < slots
  }

  lemma {:induction false} ExprSpan(e: Expr, l: Listing, at: nat, vis: Slots)
    requires ExprAt(e, l.c, at, l.pool, vis) && Boundary(l.c, at) && at + ExprLen(e) < |l.c| && VisIn(vis, l.slots)
    ensures Span(l, at, at + ExprLen(e), {}) && Boundary(l.c, at + ExprLen(e))
    decreases e, 1
  {
    hide Span, Boundary, ConstAt, SlotAt, OpAt, JumpAt, ArgsAt, ArgsLen;
    Start(l, at, {});
    match e {
      case Lit(v) =>
        if v.Bool? { AndOp(l, at, at, if v.b then TRUE else FALSE, {}); } else { AndConst(l, at, at, CONST, v, {}); }
      case Name(x) =>
        if x in vis { AndSlot(l, at, at, LOAD, vis[x], {}); } else { AndConst(l, at, at, LOAD_GLOBAL, Str(x), {}); }
      case Prefix(op, a) =>
        ExprSpan(a, l, at, vis);
        AndOp(l, at, at + ExprLen(a), if op.Not? then NOT else NEG, {});
      case Infix(op, x, y) =>
        if op.And? || op.Or? { LogicalSpan(e, l, at, vis); } else { BinarySpan(e, l, at, vis); }
      case Call(callee, args) =>
        ArgsSpan(args, |args|, l, at, vis);
        AndConst(l, at, at + ArgsLen(args, |args|), CALL, Str(callee.id), {});
      case Select(_, _) =>
      case Missing =>
    }
    SpanEnd(l, at, at + ExprLen(e), {});
  }

  lemma {:induction false} LogicalSpan(e: Expr, l: Listing, at: nat, vis: Slots)
    requires e.Infix? && (e.op.And? || e.op.Or?)
    requires ExprAt(e, l.c, at, l.pool, vis) && Boundary(l.c, at) && at + ExprLen(e) < |l.c| && VisIn(vis, l.slots)
    ensures Span(l, at, at + ExprLen(e), {})
    decreases e, 0
  {
    hide Span, Boundary, OpAt, JumpAt;
    var m, q := at + ExprLen(e.l), at + ExprLen(e);
    Start(l, at, {q});
    ExprSpan(e.l, l, at, vis);
    AndPart(l, at, at, m, {q});
    AndJump(l, at, m, if e.op.And? then JMP_F else JMP_T, q, {q});
    AndOp(l, at, m + 3, POP, {q});
    SpanEnd(l, at, m + 4, {q});
    ExprSpan(e.r, l, m + 4, vis);
    AndPart(l, at, m + 4, q, {q});
    Done(l, at, q, {q});
  }

  lemma {:induction false} BinarySpan(e: Expr, l: Listing, at: nat, vis: Slots)
    requires e.Infix? && !e.op.And? && !e.op.Or?
    requires ExprAt(e, l.c, at, l.pool, vis) && Boundary(l.c, at) && at + ExprLen(e) < |l.c| && VisIn(vis, l.slots)
    ensures Span(l, at, at + ExprLen(e), {})
    decreases e, 0
  {
    hide Span, Boundary, OpAt;
    var m, q := at + ExprLen(e.l), at + ExprLen(e.l) + ExprLen(e.r);
    ExprSpan(e.l, l, at, vis);
    ExprSpan(e.r, l, m, vis);
    Join(l, at, m, q, {});
    AndOp(l, at, q, BinaryByte(e.op), {});
    if e.op.Neq? {
      AndOp(l, at, q + 1, NOT, {});
    }
  }

  lemma {:induction false} ArgsSpan(args: seq<Expr>, n: nat, l: Listing, at: nat, vis: Slots)
    requires n <= |args| && ArgsAt(args, |args|, l.c, at, l.pool, vis) && Boundary(l.c, at)
      && at + ArgsLen(args, n) < |l.c| && VisIn(vis, l.slots)
    ensures Span(l, at, at + ArgsLen(args, n), {}) && Boundary(l.c, at + ArgsLen(args, n))
    decreases args, n
  {
    hide Span, Boundary, ExprAt, ExprLen;
    if n == 0 {
      Start(l, at, {});
    } else {
      ArgsSpan(args, n - 1, l, at, vis);
      assert ArgIn(args, n - 1, l.c, at, l.pool, vis);
      ExprSpan(args[n - 1], l, at + ArgsLen(args, n - 1), vis);
      Join(l, at, at + ArgsLen(args, n - 1), at + ArgsLen(args, n), {});
    }
  }

  // ----- statements -----

  lemma VisInHidden(ss: seq<Stmt>, i: nat, vis: Slots, slots: nat)
    requires i <= |ss| && VisIn(vis, slots)
    ensures VisIn(VisAfter(ss, i, vis), slots)
  {
  }

  lemma {:induction false} StmtsSpan(ss: seq<Stmt>, n: nat, l: Listing, at: nat, vis: Slots, base: nat)
    requires n <= |ss| && StmtsAt(ss, |ss|, l.c, at, l.pool, vis, base) && VisIn(vis, l.slots)
    requires Boundary(l.c, at) && at + StmtsLen(ss, n) < |l.c| && base + StmtsSlots(ss, n) <= l.slots
    ensures Span(l, at, at + StmtsLen(ss, n), {}) && Boundary(l.c, at + StmtsLen(ss, n))
    decreases ss, n
  {
    hide Span, Boundary, StmtAt, StmtLen, StmtSlots;
    if n == 0 {
      Start(l, at, {});
    } else {
      StmtsSpan(ss, n - 1, l, at, vis, base);
      assert StmtIn(ss, n - 1, l.c, at, l.pool, vis, base);
      VisInHidden(ss, n - 1, vis, l.slots);
      StmtSpan(ss[n - 1], l, at + StmtsLen(ss, n - 1), VisAfter(ss, n - 1, vis), base + StmtsSlots(ss, n - 1));
      Join(l, at, at + StmtsLen(ss, n - 1), at + StmtsLen(ss, n), {});
    }
  }

  lemma {:induction false} BlockSpan(ss: seq<Stmt>, l: Listing, at: nat, vis: Slots, base: nat)
    requires BlockAt(ss, l.c, at, l.pool, vis, base) && VisIn(vis, l.slots)
    requires Boundary(l.c, at) && at + BlockLen(ss) < |l.c| && base + BlockSlots(ss) <= l.slots
    ensures Span(l, at, at + BlockLen(ss), {}) && Boundary(l.c, at + BlockLen(ss))
    decreases ss, |ss| + 1
  {
    hide Span, Boundary, StmtsAt;
    StmtsSpan(ss, |ss|, l, at, vis, base);
  }

  lemma {:induction false} StmtSpan(s: Stmt, l: Listing, at: nat, vis: Slots, base: nat)
    requires StmtAt(s, l.c, at, l.pool, vis, base) && VisIn(vis, l.slots)
    requires Boundary(l.c, at) && at + StmtLen(s) < |l.c| && base + StmtSlots(s) <= l.slots
    ensures Span(l, at, at + StmtLen(s), {}) && Boundary(l.c, at + StmtLen(s))
    decreases s, 1
  {
    hide Span, Boundary, ConstAt, OpAt, ExprAt, ExprLen, ArgsAt, ArgsLen, ItemsAt, ItemsLen, ItemsSlots, OffersLen,
         BranchesLen, OffersAt, PicksAt, BranchesAt;
    var end := at + StmtLen(s);
    match s {
      case Decl(x, e, _) =>
        ExprSpan(e, l, at, vis);
        StoreSpan(x, l, at, end - 3);
      case Set(x, e) =>
        ExprSpan(e, l, at, vis);
        StoreSpan(x, l, at, end - 3);
      case Do(e) =>
        ExprSpan(e, l, at, vis);
        AndOp(l, at, end - 1, POP, {});
      case Return(e) =>
        ExprSpan(e, l, at, vis);
        AndOp(l, at, end - 1, RET, {});
      case Content(items) =>
        ItemsSpan(items, |items|, l, at, vis, base);
        if EndsLine(items) { AndOp(l, at, end - 1, LINE, {}); }
      case Divert(target) =>
        Start(l, at, {});
        if IsEnd(target) { AndOp(l, at, at, EXIT, {}); } else { AndConst(l, at, at, DIVERT, Str(target), {}); }
      case DivertWith(target, args) =>
        ArgsSpan(args, |args|, l, at, vis);
        AndConst(l, at, end - 2, DIVERT, Str(target), {});
      case Choices(bs) => ChoicesSpan(s, l, at, vis, base);
      case Gather => Start(l, at, {});
    }
    SpanEnd(l, at, end, {});
  }

  lemma StoreSpan(x: string, l: Listing, at: nat, p: nat)
    requires Span(l, at, p, {}) && StoreAt(x, l.c, p, l.pool) && p + 3 < |l.c|
    ensures Span(l, at, p + 3, {})
  {
    hide Span, ConstAt, OpAt;
    AndConst(l, at, p, STORE_GLOBAL, Str(x), {});
    AndOp(l, at, p + 2, POP, {});
  }

  lemma TextSpan(t: string, l: Listing, at: nat, p: nat, todo: set<nat>)
    requires Span(l, at, p, todo) && TextAt(t, l.c, p, l.pool) && p + 3 < |l.c|
    ensures Span(l, at, p + 3, todo)
  {
    hide Span, ConstAt, OpAt;
    AndConst(l, at, p, CONST, Str(t), todo);
    AndOp(l, at, p + 2, CONTENT, todo);
  }

  lemma PieceSpan(t: Option<string>, l: Listing, at: nat, p: nat, todo: set<nat>)
    requires Span(l, at, p, todo) && PieceAt(t, l.c, p, l.pool) && p + PieceLen(t) < |l.c|
    ensures Span(l, at, p + PieceLen(t), todo)
  {
    hide Span, TextAt;
    if t.Some? {
      TextSpan(t.value, l, at, p, todo);
    }
  }

  // ----- content -----

  lemma {:induction false} ItemsSpan(items: seq<Item>, n: nat, l: Listing, at: nat, vis: Slots, base: nat)
    requires n <= |items| && ItemsAt(items, |items|, l.c, at, l.pool, vis, base) && VisIn(vis, l.slots)
    requires Boundary(l.c, at) && at + ItemsLen(items, n) < |l.c| && base + ItemsSlots(items, n) <= l.slots
    ensures Span(l, at, at + ItemsLen(items, n), {}) && Boundary(l.c, at + ItemsLen(items, n))
    decreases items, n
  {
    hide Span, Boundary, ItemAt, ItemLen, ItemSlots;
    if n == 0 {
      Start(l, at, {});
    } else {
      ItemsSpan(items, n - 1, l, at, vis, base);
      assert ItemIn(items, n - 1, l.c, at, l.pool, vis, base);
      ItemSpan(items[n - 1], l, at + ItemsLen(items, n - 1), vis, base + ItemsSlots(items, n - 1));
      Join(l, at, at + ItemsLen(items, n - 1), at + ItemsLen(items, n), {});
    }
  }

  lemma {:induction false} ItemSpan(it: Item, l: Listing, at: nat, vis: Slots, base: nat)
    requires ItemAt(it, l.c, at, l.pool, vis, base) && VisIn(vis, l.slots)
    requires Boundary(l.c, at) && at + ItemLen(it) < |l.c| && base + ItemSlots(it) <= l.slots
    ensures Span(l, at, at + ItemLen(it), {}) && Boundary(l.c, at + ItemLen(it))
    decreases it, 1
  {
    hide Span, Boundary, OpAt, JumpAt, TextAt, ExprAt, ExprLen, BlockAt, BlockLen, BlockSlots, TestsAt, TestsLen,
         ArmsAt, ArmsLen, BodiesAt, BodiesLen, BodiesSlots, FinalAt, SlotAt;
    var end := at + ItemLen(it);
    Start(l, at, {});
    match it {
      case Text(t) => TextSpan(t, l, at, at, {});
      case Logic(e) =>
        ExprSpan(e, l, at, vis);
        AndOp(l, at, end - 1, CONTENT, {});
      case Glue => AndOp(l, at, at, GLUE, {});
      case If(_, _, _) => IfSpan(it, l, at, vis, base);
      case MultiIf(cases, final) =>
        var bodies := at + TestsLen(cases, |cases|) + ElseJump(final);
        var todo := Labels(cases, bodies);
        Start(l, at, todo);
        TestsSpan(cases, |cases|, l, at, at, bodies, vis, todo);
        CasesSpan(it, l, at, bodies, end, vis, base);
      case Switch(e, cases, final) =>
        var p := at + ExprLen(e);
        var bodies := p + 3 + ArmsLen(cases, |cases|) + ElseJump(final);
        var todo := Labels(cases, bodies);
        ExprSpan(e, l, at, vis);
        AndSlot(l, at, p, STORE, base, {});
        AndOp(l, at, p + 2, POP, {});
        Start(l, at, todo);
        AndPart(l, at, at, p + 3, todo);
        ArmsSpan(cases, |cases|, l, at, p + 3, bodies, base, todo);
        CasesSpan(it, l, at, bodies, end, vis, base + 1);
    }
    SpanEnd(l, at, end, {});
  }

  lemma {:induction false} IfSpan(it: Item, l: Listing, at: nat, vis: Slots, base: nat)
    requires it.If? && ItemAt(it, l.c, at, l.pool, vis, base) && VisIn(vis, l.slots)
    requires Boundary(l.c, at) && at + ItemLen(it) < |l.c| && base + ItemSlots(it) <= l.slots
    ensures Span(l, at, at + ItemLen(it), {})
    decreases it, 0
  {
    hide Span, Boundary, OpAt, JumpAt, ExprAt, ExprLen, BlockAt, BlockLen, BlockSlots;
    var p := at + ExprLen(it.cond);
    var q := p + 4 + BlockLen(it.body);
    var end := at + ItemLen(it);
    var todo := {q + 3, end};
    Start(l, at, todo);
    ExprSpan(it.cond, l, at, vis);
    AndPart(l, at, at, p, todo);
    AndJump(l, at, p, JMP_F, q + 3, todo);
    AndOp(l, at, p + 3, POP, todo);
    SpanEnd(l, at, p + 4, todo);
    BlockSpan(it.body, l, p + 4, vis, base);
    AndPart(l, at, p + 4, q, todo);
    AndJump(l, at, q, JMP, end, todo);
    SpanEnd(l, at, q + 3, todo);
    AndOp(l, at, q + 3, POP, todo);
    SpanEnd(l, at, q + 4, todo);
    BlockSpan(it.els, l, q + 4, vis, base + BlockSlots(it.body));
    AndPart(l, at, q + 4, end, todo);
    Done(l, at, end, todo);
  }

  // The labels of the bodies and of the else branch behind them.
  ghost function Labels(cases: seq<Case>, bodies: nat): set<nat> {
    set i | 0 <= i <= |cases| :: bodies + BodiesLen(cases, i)
  }

  lemma {:induction false} TestsSpan(cases: seq<Case>, n: nat, l: Listing, a: nat, at: nat, bodies: nat,
          vis: Slots, todo: set<nat>)
    requires n <= |cases| && TestsAt(cases, |cases|, l.c, at, bodies, l.pool, vis) && VisIn(vis, l.slots)
    requires Span(l, a, at, todo) && at + TestsLen(cases, n) < |l.c| && Labels(cases, bodies) <= todo
    ensures Span(l, a, at + TestsLen(cases, n), todo)
    decreases cases, n
  {
    hide Span, ExprAt, ExprLen, JumpAt, OpAt, BodiesLen;
    if n > 0 {
      TestsSpan(cases, n - 1, l, a, at, bodies, vis, todo);
      var p := at + TestsLen(cases, n - 1);
      var q := p + ExprLen(cases[n - 1].test);
      assert TestIn(cases, n - 1, l.c, at, bodies, l.pool, vis);
      SpanEnd(l, a, p, todo);
      ExprSpan(cases[n - 1].test, l, p, vis);
      AndPart(l, a, p, q, todo);
      AndJump(l, a, q, JMP_T, bodies + BodiesLen(cases, n - 1), todo);
      AndOp(l, a, q + 3, POP, todo);
    }
  }

  lemma {:induction false} ArmsSpan(cases: seq<Case>, n: nat, l: Listing, a: nat, at: nat, bodies: nat, slot: nat,
          todo: set<nat>)
    requires n <= |cases| && ArmsAt(cases, |cases|, l.c, at, bodies, l.pool, slot) && slot < l.slots
    requires Span(l, a, at, todo) && at + ArmsLen(cases, n) < |l.c| && Labels(cases, bodies) <= todo
    ensures Span(l, a, at + ArmsLen(cases, n), todo)
    decreases cases, n
  {
    hide Span, ExprAt, ExprLen, JumpAt, OpAt, SlotAt, BodiesLen;
    if n > 0 {
      ArmsSpan(cases, n - 1, l, a, at, bodies, slot, todo);
      var p := at + ArmsLen(cases, n - 1);
      var q := p + 2 + ExprLen(cases[n - 1].test);
      assert ArmIn(cases, n - 1, l.c, at, bodies, l.pool, slot);
      AndSlot(l, a, p, LOAD, slot, todo);
      SpanEnd(l, a, p + 2, todo);
      ExprSpan(cases[n - 1].test, l, p + 2, map[]);
      AndPart(l, a, p + 2, q, todo);
      AndOp(l, a, q, CMP_EQ, todo);
      AndJump(l, a, q + 1, JMP_T, bodies + BodiesLen(cases, n - 1), todo);
      AndOp(l, a, q + 4, POP, todo);
    }
  }

  // The else jump and all the bodies; afterwards every label starts an instruction.
  lemma {:induction false} CasesSpan(it: Item, l: Listing, a: nat, bodies: nat, exit: nat, vis: Slots, base: nat)
    requires it.MultiIf? || it.Switch?
    requires exit == bodies + BodiesLen(it.cases, |it.cases|)
      + (if it.final.Else? then BlockLen(it.final.body) + 3 else 0)
    requires it.final.Else? ==> bodies >= 3 && JumpAt(l.c, bodies - 3, JMP, bodies + BodiesLen(it.cases, |it.cases|))
    requires BodiesAt(it.cases, |it.cases|, l.c, bodies, exit, l.pool, vis, base)
      && FinalAt(it.cases, it.final, l.c, bodies, exit, l.pool, vis, base)
    requires VisIn(vis, l.slots) && exit < |l.c|
      && base + BodiesSlots(it.cases, |it.cases|) + FinalSlots(it.final) <= l.slots
    requires bodies >= ElseJump(it.final) && Span(l, a, bodies - ElseJump(it.final), Labels(it.cases, bodies))
    ensures Span(l, a, exit, {})
    decreases it, 0
  {
    hide Span, Boundary, JumpAt, BodiesAt, BlockAt, BlockLen, BlockSlots, BodiesLen, BodiesSlots;
    var cases, final := it.cases, it.final;
    var last := bodies + BodiesLen(cases, |cases|);
    var todo := Labels(cases, bodies);
    if final.Else? {
      AndJump(l, a, bodies - 3, JMP, last, todo);
    }
    SpanEnd(l, a, bodies, todo);
    BodiesSpan(cases, |cases|, l, bodies, exit, vis, base);
    SpanEnd(l, bodies, last, {exit});
    if final.Else? {
      BlockSpan(final.body, l, last, vis, base + BodiesSlots(cases, |cases|));
      AndPart(l, bodies, last, exit - 3, {exit});
      AndJump(l, bodies, exit - 3, JMP, exit, {exit});
    }
    SpanEnd(l, bodies, exit, {exit});
    Done(l, bodies, exit, {exit});
    AndPart(l, a, bodies, exit, todo);
    Done(l, a, exit, todo);
  }

  lemma {:induction false} BodiesSpan(cases: seq<Case>, n: nat, l: Listing, bodies: nat, exit: nat, vis: Slots,
          base: nat)
    requires n <= |cases| && BodiesAt(cases, |cases|, l.c, bodies, exit, l.pool, vis, base) && VisIn(vis, l.slots)
    requires Boundary(l.c, bodies) && bodies + BodiesLen(cases, n) < |l.c| && base + BodiesSlots(cases, n) <= l.slots
    ensures Span(l, bodies, bodies + BodiesLen(cases, n), {exit})
    ensures forall i | 0 <= i <= n :: Boundary(l.c, bodies + BodiesLen(cases, i))
    decreases cases, n
  {
    hide Span, Boundary, BlockAt, BlockLen, BlockSlots, OpAt, JumpAt;
    if n == 0 {
      Start(l, bodies, {exit});
    } else {
      var p := bodies + BodiesLen(cases, n - 1);
      var q := p + 1 + BlockLen(cases[n - 1].body);
      BodiesSpan(cases, n - 1, l, bodies, exit, vis, base);
      assert BodyIn(cases, n - 1, l.c, bodies, exit, l.pool, vis, base);
      AndOp(l, bodies, p, POP, {exit});
      SpanEnd(l, bodies, p + 1, {exit});
      BlockSpan(cases[n - 1].body, l, p + 1, vis, base + BodiesSlots(cases, n - 1));
      AndPart(l, bodies, p + 1, q, {exit});
      AndJump(l, bodies, q, JMP, exit, {exit});
      SpanEnd(l, bodies, q + 3, {exit});
    }
  }

  // ----- choices -----

  ghost function Bodies(bs: seq<Branch>, bodies: nat): set<nat> {
    set i | 0 <= i < |bs| :: bodies + BranchesLen(bs, i)
  }

  lemma {:induction false} ChoicesSpan(s: Stmt, l: Listing, at: nat, vis: Slots, base: nat)
    requires s.Choices? && StmtAt(s, l.c, at, l.pool, vis, base) && VisIn(vis, l.slots)
    requires Boundary(l.c, at) && at + StmtLen(s) < |l.c| && base + StmtSlots(s) <= l.slots
    ensures Span(l, at, at + StmtLen(s), {})
    decreases s, 0
  {
    hide Span, Boundary, OpAt, OffersAt, OffersLen, PicksAt, BranchesAt, BranchesLen, BranchesSlots;
    var bs := s.branches;
    var picks := at + 2 + OffersLen(bs, |bs|);
    var bodies := picks + PicksLen(|bs|) + 1;
    var todo := Bodies(bs, bodies);
    Start(l, at, todo);
    AndOp(l, at, at, FLUSH, todo);
    OffersSpan(bs, |bs|, l, at, at + 1, todo);
    AndOp(l, at, picks - 1, FLUSH, todo);
    PicksSpan(bs, |bs|, l, at, picks, bodies, todo);
    AndOp(l, at, bodies - 1, EXIT, todo);
    SpanEnd(l, at, bodies, todo);
    BranchesSpan(bs, |bs|, l, bodies, vis, base);
    AndPart(l, at, bodies, at + StmtLen(s), todo);
    Done(l, at, at + StmtLen(s), todo);
  }

  lemma {:induction false} OffersSpan(bs: seq<Branch>, n: nat, l: Listing, a: nat, at: nat, todo: set<nat>)
    requires n <= |bs| && OffersAt(bs, |bs|, l.c, at, l.pool)
    requires Span(l, a, at, todo) && at + OffersLen(bs, n) < |l.c|
    ensures Span(l, a, at + OffersLen(bs, n), todo)
    decreases n
  {
    hide Span, PieceAt, PieceLen, ConstAt, OpAt;
    if n > 0 {
      var p := at + OffersLen(bs, n - 1);
      var q := p + PieceLen(bs[n - 1].start);
      var r := q + PieceLen(bs[n - 1].option);
      OffersSpan(bs, n - 1, l, a, at, todo);
      assert OfferIn(bs, n - 1, l.c, at, l.pool);
      PieceSpan(bs[n - 1].start, l, a, p, todo);
      PieceSpan(bs[n - 1].option, l, a, q, todo);
      AndConst(l, a, r, CONST, Int(n - 1), todo);
      AndOp(l, a, r + 2, CHOICE, todo);
    }
  }

  lemma {:induction false} PicksSpan(bs: seq<Branch>, n: nat, l: Listing, a: nat, at: nat, bodies: nat, todo: set<nat>)
    requires n <= |bs| && PicksAt(bs, |bs|, l.c, at, bodies, l.pool)
    requires Span(l, a, at, todo) && at + PicksLen(n) < |l.c| && Bodies(bs, bodies) <= todo
    ensures Span(l, a, at + PicksLen(n), todo)
    decreases n
  {
    hide Span, ConstAt, OpAt, JumpAt, BranchesLen;
    if n > 0 {
      var p := at + PicksLen(n - 1);
      PicksSpan(bs, n - 1, l, a, at, bodies, todo);
      assert PickIn(bs, n - 1, l.c, at, bodies, l.pool);
      AndOp(l, a, p, LOAD_CHOICE_ID, todo);
      AndConst(l, a, p + 1, CONST, Int(n - 1), todo);
      AndOp(l, a, p + 3, CMP_EQ, todo);
      AndJump(l, a, p + 4, JMP_T, bodies + BranchesLen(bs, n - 1), todo);
      AndOp(l, a, p + 7, POP, todo);
    }
  }

  lemma {:induction false} BranchesSpan(bs: seq<Branch>, n: nat, l: Listing, at: nat, vis: Slots, base: nat)
    requires n <= |bs| && BranchesAt(bs, |bs|, l.c, at, l.pool, vis, base) && VisIn(vis, l.slots)
    requires Boundary(l.c, at) && at + BranchesLen(bs, n) < |l.c| && base + BranchesSlots(bs, n) <= l.slots
    ensures Span(l, at, at + BranchesLen(bs, n), {})
    ensures forall i | 0 <= i <= n :: Boundary(l.c, at + BranchesLen(bs, i))
    decreases bs, n
  {
    hide Span, Boundary, BlockAt, BlockLen, BlockSlots, OpAt, PieceAt, PieceLen;
    if n == 0 {
      Start(l, at, {});
    } else {
      var b := bs[n - 1];
      var p := at + BranchesLen(bs, n - 1);
      var q := p + 1 + PieceLen(b.start);
      var r := q + PieceLen(b.inner);
      BranchesSpan(bs, n - 1, l, at, vis, base);
      assert BranchIn(bs, n - 1, l.c, at, l.pool, vis, base);
      AndOp(l, at, p, POP, {});
      PieceSpan(b.start, l, at, p + 1, {});
      PieceSpan(b.inner, l, at, q, {});
      AndOp(l, at, r, FLUSH, {});
      SpanEnd(l, at, r + 1, {});
      BlockSpan(b.body, l, r + 1, vis, base + BranchesSlots(bs, n - 1));
      Join(l, at, r + 1, at + BranchesLen(bs, n), {});
      SpanEnd(l, at, at + BranchesLen(bs, n), {});
    }
  }

  // ----- paths and runs -----

  // The whole code of a path: whole instructions with good operands, the last one EXIT or RET.
  ghost predicate SoundPath(p: M.Path) {
    var l := Listing(p.code, p.pool, p.arity + p.locals);
    && p.code != [] && Boundary(p.code, |p.code| - 1) && Tiles(p.code, 0, |p.code|)
    && (p.code[|p.code| - 1] == EXIT || p.code[|p.code| - 1] == RET)
    && forall at | Boundary(p.code, at) :: InstOk(l, at, {})
  }

  // Every compiled path is sound.
  lemma PathIsSound(d: PathDef, p: M.Path)
    requires PathAt(d, p)
    ensures SoundPath(p)
  {
    hide BlockAt;
    var l := Listing(p.code, p.pool, p.arity + p.locals);
    var n := BlockLen(d.body);
    BlockSpan(d.body, l, 0, ParamSlots(d.params), |d.params|);
    assert Tiles(p.code, n, |p.code|);
    TilesTwice(p.code, 0, n, |p.code|);
    forall at | Boundary(p.code, at)
      ensures InstOk(l, at, {})
    {
      if at < n {
        assert Tiles(p.code, 0, at);
      }
    }
  }

  // The disassembler: it visits every instruction, nothing else, and stops exactly at the end of the code.
  method Dump(p: M.Path) returns (offsets: seq<nat>, end: nat)
    requires SoundPath(p)
    ensures end == |p.code|
    ensures forall at: nat :: at in offsets <==> Boundary(p.code, at)
    ensures forall i, j | 0 <= i < j < |offsets| :: offsets[i] < offsets[j]
  {
    offsets, end := [], 0;
    while end < |p.code|
      invariant end <= |p.code| && Tiles(p.code, 0, end)
      invariant forall at: nat :: at in offsets <==> at < end && Tiles(p.code, 0, at)
      invariant forall i | 0 <= i < |offsets| :: offsets[i] < end
      invariant forall i, j | 0 <= i < j < |offsets| :: offsets[i] < offsets[j]
      decreases |p.code| - end
    {
      NextInst(p, end);
      offsets := offsets + [end];
      end := DisassembleInst(p, end);
    }
  }

  // The offset of the instruction after the one at offset, once its operands were read and its
  // constant or name looked up.
  method DisassembleInst(p: M.Path, offset: nat) returns (next: nat)
    requires InstOk(Listing(p.code, p.pool, p.arity + p.locals), offset, {})
    ensures next == offset + InstLen(p.code[offset])
  {
    var op := p.code[offset];
    if op == CONST || op == LOAD || op == STORE {
      var arg := p.code[offset + 1];
      if op == CONST {
        var constant := p.pool[arg];
      }
      return offset + 2;
    } else if HasByteOperand(op) {
      var name := p.pool[p.code[offset + 1]].s;
      return offset + 2;
    } else if IsJump(op) {
      var jump := Word(p.code, offset + 1);
      return offset + 3;
    } else {
      return offset + 1;
    }
  }

  lemma NextInst(p: M.Path, at: nat)
    requires SoundPath(p) && at < |p.code| && Tiles(p.code, 0, at)
    ensures InstOk(Listing(p.code, p.pool, p.arity + p.locals), at, {})
    ensures Tiles(p.code, 0, at + InstLen(p.code[at])) && at + InstLen(p.code[at]) <= |p.code|
    ensures forall q: nat | at < q < at + InstLen(p.code[at]) :: !Tiles(p.code, 0, q)
  {
    assert Boundary(p.code, at);
    TilesTwice(p.code, 0, at, at + InstLen(p.code[at]));
    forall q: nat | at < q < at + InstLen(p.code[at])
      ensures !Tiles(p.code, 0, q)
    {
      if Tiles(p.code, 0, q) {
        TilesSplit(p.code, 0, at, q);
      }
    }
  }

  // Every frame of a running machine is about to read a whole instruction of a path of the program.
  ghost predicate OnTrack(prog: M.Program, vm: M.VM) {
    vm.frames != [] && forall i | 0 <= i < |vm.frames| :: FrameOnTrack(prog, vm.frames[i])
  }

  ghost predicate FrameOnTrack(prog: M.Program, f: M.Frame) {
    f.path in prog && Boundary(prog[f.path].code, f.ip)
  }

  ghost predicate SoundProgram(prog: M.Program) {
    forall f | f in prog :: SoundPath(prog[f])
  }

  // The instruction after one that is not the last.
  lemma Onward(p: M.Path, ip: nat)
    requires SoundPath(p) && Boundary(p.code, ip) && p.code[ip] != EXIT && p.code[ip] != RET
    ensures Boundary(p.code, ip + InstLen(p.code[ip]))
  {
    var n := |p.code| - 1;
    TilesSplit(p.code, 0, ip, n);
    TilesTwice(p.code, 0, ip, ip + InstLen(p.code[ip]));
  }

  lemma FirstInst(p: M.Path)
    requires SoundPath(p)
    ensures Boundary(p.code, 0)
  {
  }

  // How one step changes the frames: it goes on behind the instruction, jumps, calls, diverts or returns.
  lemma StepFrames(prog: M.Program, vm: M.VM)
    requires vm.Valid() && vm.frames != [] && vm.status.Running? && vm.Active().path in prog
    requires M.Step(prog, vm).status.Running?
    ensures var (f, r) := (vm.Active(), M.Step(prog, vm));
      var c := prog[f.path].code;
      && f.ip < |c| && f.ip + InstLen(c[f.ip]) <= |c| && c[f.ip] != EXIT
      && var behind := vm.Goto(f.ip + InstLen(c[f.ip])).frames;
      && (
      || (r.frames == behind && c[f.ip] != RET)
      || (IsJump(c[f.ip]) && r.frames == vm.Goto(f.ip + 3 + Word(c, f.ip + 1)).frames)
      || (c[f.ip] == CALL && Entered(prog, behind, r.frames))
      || (c[f.ip] == DIVERT && Entered(prog, [], r.frames))
      || (c[f.ip] == RET && r.frames == vm.frames[..|vm.frames| - 1] && r.frames != []))
  {
    var f := vm.Active();
    var c := prog[f.path].code;
    var op := c[f.ip];
    var next := vm.Goto(f.ip + InstLen(op));
    if IsJump(op) {
    } else if HasByteOperand(op) {
      IndexedFrames(prog, next, prog[f.path], op, c[f.ip + 1]);
    } else {
      SimpleFrames(next, op);
    }
  }

  ghost predicate Entered(prog: M.Program, callers: seq<M.Frame>, frames: seq<M.Frame>) {
    |frames| == |callers| + 1 && callers <= frames && frames[|callers|].path in prog && frames[|callers|].ip == 0
  }

  lemma IndexedFrames(prog: M.Program, vm: M.VM, p: M.Path, op: byte, k: byte)
    requires vm.Valid() && vm.frames != [] && HasByteOperand(op)
    requires M.Indexed(prog, vm, p, op, k).status.Running?
    ensures var r := M.Indexed(prog, vm, p, op, k);
      r.frames == vm.frames || (op == CALL && Entered(prog, vm.frames, r.frames))
        || (op == DIVERT && Entered(prog, [], r.frames))
  {
  }

  lemma SimpleFrames(vm: M.VM, op: byte)
    requires vm.Valid() && vm.frames != []
    requires M.Simple(vm, op).status.Running?
    ensures var r := M.Simple(vm, op);
      && op != EXIT
      && if op == RET then r.frames == vm.frames[..|vm.frames| - 1] && r.frames != [] else r.frames == vm.frames
  {
    hide Arith, Compare;
  }

  // One step keeps every frame on track, whatever is on the stack.
  lemma StepOnTrack(prog: M.Program, vm: M.VM)
    requires SoundProgram(prog) && vm.Valid() && OnTrack(prog, vm) && vm.status.Running?
    ensures var r := M.Step(prog, vm); r.status.Running? ==> OnTrack(prog, r)
  {
    hide SoundPath, Boundary, M.Step;
    var f, r := vm.Active(), M.Step(prog, vm);
    assert FrameOnTrack(prog, vm.frames[|vm.frames| - 1]);
    if r.status.Running? {
      StepFrames(prog, vm);
      var op := prog[f.path].code[f.ip];
      if op != RET {
        Onward(prog[f.path], f.ip);
        JumpsOnTrack(prog[f.path], f.ip);
      }
      forall i | 0 <= i < |r.frames|
        ensures FrameOnTrack(prog, r.frames[i])
      {
        assert i < |vm.frames| ==> FrameOnTrack(prog, vm.frames[i]);
        if r.frames[i].path in prog { FirstInst(prog[r.frames[i].path]); }
      }
    }
  }

  lemma JumpsOnTrack(p: M.Path, ip: nat)
    requires SoundPath(p) && Boundary(p.code, ip)
    ensures ip < |p.code| && ip + InstLen(p.code[ip]) <= |p.code|
    ensures IsJump(p.code[ip]) ==> Boundary(p.code, ip + 3 + Word(p.code, ip + 1))
  {
    assert InstOk(Listing(p.code, p.pool, p.arity + p.locals), ip, {});
  }

  // In every run of a compiled program, from wherever it starts and however long it takes, each frame
  // stands at the start of an instruction of its own path until the machine stops.
  lemma {:induction false} RunOnTrack(src: map<string, PathDef>, prog: M.Program, vm: M.VM, n: nat)
    requires Compiled(src, prog) && vm.Valid() && OnTrack(prog, vm)
    ensures var r := M.Run(prog, vm, n); r.status.Running? ==> OnTrack(prog, r)
    decreases n
  {
    hide SoundPath, OnTrack, M.Step, PathAt;
    if n > 0 {
      forall f | f in prog
        ensures SoundPath(prog[f])
      {
        assert CompiledPath(src, prog, f);
        PathIsSound(src[f], prog[f]);
      }
      if vm.status.Running? {
        StepOnTrack(prog, vm);
        if M.Step(prog, vm).status.Running? {
          RunOnTrack(src, prog, M.Step(prog, vm), n - 1);
        } else {
          Stopped(prog, M.Step(prog, vm), n - 1);
        }
      } else {
        Stopped(prog, vm, n);
      }
    }
  }

  lemma {:induction false} Stopped(prog: M.Program, vm: M.VM, n: nat)
    requires vm.Valid() && !vm.status.Running?
    ensures M.Run(prog, vm, n) == vm
    decreases n
  {
    if n > 0 {
      Stopped(prog, vm, n - 1);
    }
  }
}
