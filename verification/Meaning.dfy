// The reference evaluator: what a tree means, without any code, pool, label or stack.
// It also reports how many stack cells and call frames a run needs above its start.

module Shape {
  import opened Wrappers
  import opened Values
  import opened Ast

  // Number of code bytes of each tree, and of the first i elements of a list.

  function ExprLen(e: Expr): nat {
    match e
    case Lit(v) => if v.Bool? then 1 else 2
    case Name(_) => 2
    case Prefix(_, a) => ExprLen(a) + 1
    case Infix(op, l, r) => ExprLen(l) + ExprLen(r) + (if op.And? || op.Or? then 4 else if op.Neq? then 2 else 1)
    case Call(_, args) => ArgsLen(args, |args|) + 2
    case _ => 0
  }

  function ArgsLen(args: seq<Expr>, i: nat): nat
    requires i <= |args|
    decreases args, i
  {
    if i == 0 then 0 else ArgsLen(args, i - 1) + ExprLen(args[i - 1])
  }

  function StmtsLen(ss: seq<Stmt>, i: nat): nat
    requires i <= |ss|
    decreases ss, i
  {
    if i == 0 then 0 else StmtsLen(ss, i - 1) + StmtLen(ss[i - 1])
  }

  function BlockLen(ss: seq<Stmt>): nat
    decreases ss, |ss| + 1
  {
    StmtsLen(ss, |ss|)
  }

  function StmtLen(s: Stmt): nat {
    match s
    case Decl(_, e, _) => ExprLen(e) + 3
    case Set(_, e) => ExprLen(e) + 3
    case Do(e) => ExprLen(e) + 1
    case Return(e) => ExprLen(e) + 1
    case Content(items) => ItemsLen(items, |items|) + (if EndsLine(items) then 1 else 0)
    case Divert(target) => if IsEnd(target) then 1 else 2
    case DivertWith(_, args) => ArgsLen(args, |args|) + 2
    case Choices(bs) => OffersLen(bs, |bs|) + PicksLen(|bs|) + BranchesLen(bs, |bs|) + 3
    case Gather => 0
  }

  // A line break is written after a content line that ends with plain text.
  predicate EndsLine(items: seq<Item>) {
    items != [] && items[|items| - 1].Text?
  }

  predicate IsEnd(target: string) { target == "END" || target == "DONE" }

  // The cases of a switch are numbers and booleans.
  predicate IsCaseLabel(e: Expr) { e.Lit? && !e.v.Str? }

  function ItemsLen(items: seq<Item>, i: nat): nat
    requires i <= |items|
    decreases items, i
  {
    if i == 0 then 0 else ItemsLen(items, i - 1) + ItemLen(items[i - 1])
  }

  function ItemLen(it: Item): nat {
    match it
    case Text(_) => 3
    case Logic(e) => ExprLen(e) + 1
    case Glue => 1
    case If(c, body, els) => ExprLen(c) + 8 + BlockLen(body) + BlockLen(els)
    case MultiIf(cases, final) => TestsLen(cases, |cases|) + FinalLen(final) + BodiesLen(cases, |cases|)
    case Switch(e, cases, final) =>
      ExprLen(e) + 3 + ArmsLen(cases, |cases|) + FinalLen(final) + BodiesLen(cases, |cases|)
  }

  // An else branch costs one jump to its body, the body and one jump to the exit.
  function FinalLen(final: Final): nat {
    match final
    case NoElse => 0
    case Else(ss) => 6 + BlockLen(ss)
  }

  function TestsLen(cases: seq<Case>, i: nat): nat
    requires i <= |cases|
    decreases cases, i
  {
    if i == 0 then 0 else TestsLen(cases, i - 1) + ExprLen(cases[i - 1].test) + 4
  }

  function ArmsLen(cases: seq<Case>, i: nat): nat
    requires i <= |cases|
    decreases cases, i
  {
    if i == 0 then 0 else ArmsLen(cases, i - 1) + ExprLen(cases[i - 1].test) + 7
  }

  function BodiesLen(cases: seq<Case>, i: nat): nat
    requires i <= |cases|
    decreases cases, i
  {
    if i == 0 then 0 else BodiesLen(cases, i - 1) + BlockLen(cases[i - 1].body) + 4
  }

  function PieceLen(p: Option<string>): nat { if p.Some? then 3 else 0 }

  function OffersLen(bs: seq<Branch>, i: nat): nat
    requires i <= |bs|
    decreases bs, i
  {
    if i == 0 then 0 else OffersLen(bs, i - 1) + PieceLen(bs[i - 1].start) + PieceLen(bs[i - 1].option) + 3
  }

  function PicksLen(n: nat): nat { 8 * n }

  function BranchesLen(bs: seq<Branch>, i: nat): nat
    requires i <= |bs|
    decreases bs, i
  {
    if i == 0 then 0
    else BranchesLen(bs, i - 1) + PieceLen(bs[i - 1].start) + PieceLen(bs[i - 1].inner) + 2 + BlockLen(bs[i - 1].body)
  }

  // Number of hidden stack slots: one for each switch, never shared.

  function StmtsSlots(ss: seq<Stmt>, i: nat): nat
    requires i <= |ss|
    decreases ss, i
  {
    if i == 0 then 0 else StmtsSlots(ss, i - 1) + StmtSlots(ss[i - 1])
  }

  function BlockSlots(ss: seq<Stmt>): nat
    decreases ss, |ss| + 1
  {
    StmtsSlots(ss, |ss|)
  }

  function StmtSlots(s: Stmt): nat {
    match s
    case Content(items) => ItemsSlots(items, |items|)
    case Choices(bs) => BranchesSlots(bs, |bs|)
    case _ => 0
  }

  function ItemsSlots(items: seq<Item>, i: nat): nat
    requires i <= |items|
    decreases items, i
  {
    if i == 0 then 0 else ItemsSlots(items, i - 1) + ItemSlots(items[i - 1])
  }

  function ItemSlots(it: Item): nat {
    match it
    case If(_, body, els) => BlockSlots(body) + BlockSlots(els)
    case MultiIf(cases, final) => BodiesSlots(cases, |cases|) + FinalSlots(final)
    case Switch(_, cases, final) => 1 + BodiesSlots(cases, |cases|) + FinalSlots(final)
    case _ => 0
  }

  function FinalSlots(final: Final): nat {
    match final
    case NoElse => 0
    case Else(ss) => BlockSlots(ss)
  }

  function BodiesSlots(cases: seq<Case>, i: nat): nat
    requires i <= |cases|
    decreases cases, i
  {
    if i == 0 then 0 else BodiesSlots(cases, i - 1) + BlockSlots(cases[i - 1].body)
  }

  function BranchesSlots(bs: seq<Branch>, i: nat): nat
    requires i <= |bs|
    decreases bs, i
  {
    if i == 0 then 0 else BranchesSlots(bs, i - 1) + BlockSlots(bs[i - 1].body)
  }
}

module Meaning {
  import opened Wrappers
  import opened Values
  import opened Ast
  import opened Output
  import opened Shape

  // What a run can change.
  datatype World = World(globals: map<string, Value>, out: Out)

  // Ways to leave a block early.
  datatype Leave = To(path: string, args: seq<Value>) | Back(v: Value) | End

  datatype Why = Undefined | IllTyped | OutOfFuel | Unsupported | NoBranch | FellOff | Overflow

  // Stack cells and call frames needed above the starting point.
  datatype Cost = Cost(cells: nat, frames: nat)

  datatype Outcome<+T> =
    | Ok(value: T, w: World, cost: Cost)
    | Gone(leave: Leave, w: World, cost: Cost)
    | Bad(why: Why)

  type Scope = map<string, Value>
  type Source = map<string, PathDef>

  function Max(a: nat, b: nat): nat { if a < b then b else a }

  function Join(a: Cost, b: Cost): Cost {
    Cost(Max(a.cells, b.cells), Max(a.frames, b.frames))
  }

  function Above(cells: nat, frames: nat, c: Cost): Cost {
    Cost(cells + c.cells, frames + c.frames)
  }

  // Continue with o after a part that cost c; o starts k cells higher.
  function After<T>(c: Cost, k: nat, o: Outcome<T>): Outcome<T> {
    match o
    case Ok(v, w, d) => Ok(v, w, Join(c, Above(k, 0, d)))
    case Gone(l, w, d) => Gone(l, w, Join(c, Above(k, 0, d)))
    case Bad(why) => Bad(why)
  }

  // The early exits of o, at another result type.
  function Pass<T, U>(o: Outcome<T>): Outcome<U>
    requires !o.Ok?
  {
    match o
    case Gone(l, w, c) => Gone(l, w, c)
    case Bad(why) => Bad(why)
  }

  function Pure<T>(v: T, w: World): Outcome<T> { Ok(v, w, Cost(0, 0)) }

  function Binary(op: InfixOp, a: Value, b: Value): Option<Value> {
    if IsArith(op) then Arith(op, a, b)
    else if IsComparison(op) then Compare(op, a, b)
    else if op.Neq? then Some(Bool(a != b))
    else None
  }

  function Lookup(x: string, ps: Scope, w: World): Option<Value> {
    if x in ps then Some(ps[x]) else if x in w.globals then Some(w.globals[x]) else None
  }

  function ParamScope(params: seq<string>, vs: seq<Value>): Scope
    requires |params| == |vs|
  {
    map i | 0 <= i < |params| && forall j | i < j < |params| :: params[j] != params[i] :: params[i] := vs[i]
  }

  function EvalExpr(src: Source, e: Expr, ps: Scope, w: World, fuel: nat): (o: Outcome<Value>)
    ensures o.Gone? ==> !o.leave.Back?
    decreases 2 * fuel, e, 0
  {
    match e
    case Lit(v) => Ok(v, w, Cost(1, 0))
    case Name(x) =>
      (match Lookup(x, ps, w)
       case Some(v) => Ok(v, w, Cost(1, 0))
       case None => Bad(Undefined))
    case Prefix(Not, a) =>
      (match EvalExpr(src, a, ps, w, fuel)
       case Ok(v, w1, c) => Ok(Bool(Falsey(v)), w1, c)
       case o => o)
    case Infix(op, l, r) =>
      (match EvalExpr(src, l, ps, w, fuel)
       case Ok(a, w1, c) =>
         if op.And? || op.Or? then
           if Falsey(a) == op.And? then Ok(a, w1, c) else After(c, 0, EvalExpr(src, r, ps, w1, fuel))
         else
           (match EvalExpr(src, r, ps, w1, fuel)
            case Ok(b, w2, d) =>
              (match Binary(op, a, b)
               case Some(v) => Ok(v, w2, Join(c, Above(1, 0, d)))
               case None => Bad(IllTyped))
            case o => After(c, 1, o))
       case o => o)
    case Call(Name(f), args) =>
      (match EvalArgs(src, args, 0, ps, w, fuel)
       case Ok(vs, w1, c) =>
         if fuel == 0 then Bad(OutOfFuel)
         else After(c, 0, Result(EvalPath(src, f, vs, w1, fuel - 1)))
       case o => Pass(o))
    case _ => Bad(Unsupported)
  }

  // What a call yields: the returned value.
  function Result(o: Outcome<()>): Outcome<Value>
    requires !o.Ok?
  {
    match o
    case Gone(Back(v), w, c) => Ok(v, w, c)
    case _ => Pass(o)
  }

  function EvalArgs(src: Source, args: seq<Expr>, i: nat, ps: Scope, w: World, fuel: nat): (o: Outcome<seq<Value>>)
    requires i <= |args|
    ensures o.Ok? ==> |o.value| == |args| - i
    ensures o.Gone? ==> !o.leave.Back?
    decreases 2 * fuel, args, |args| - i
  {
    if i == |args| then Pure([], w)
    else
      match EvalExpr(src, args[i], ps, w, fuel)
      case Ok(v, w1, c) =>
        (match EvalArgs(src, args, i + 1, ps, w1, fuel)
         case Ok(vs, w2, d) => Ok([v] + vs, w2, Join(c, Above(1, 0, d)))
         case o => After(c, 1, o))
      case o => Pass(o)
  }

  // Run the body of a path on its arguments, counted from below the arguments.  A knot that runs
  // to its end stops the story; a function has to return.
  function EvalPath(src: Source, f: string, vs: seq<Value>, w: World, fuel: nat): (o: Outcome<()>)
    ensures !o.Ok?
    decreases 2 * fuel + 1
  {
    if f !in src then Bad(Undefined)
    else if |vs| != |src[f].params| then Bad(Unsupported)
    else
      var room := |vs| + BlockSlots(src[f].body);
      match EvalStmts(src, src[f].body, 0, ParamScope(src[f].params, vs), w, fuel)
      case Ok(_, w1, c) => if src[f].isFunction then Bad(FellOff) else Gone(End, w1, Above(room, 1, c))
      case Gone(l, w1, c) => Gone(l, w1, Above(room, 1, c))
      case Bad(why) => Bad(why)
  }

  // Statements i and up of a block.  The value is the scope after the last one: a declaration
  // hides a parameter of the same name until the end of its block.
  function EvalStmts(src: Source, ss: seq<Stmt>, i: nat, ps: Scope, w: World, fuel: nat): Outcome<Scope>
    requires i <= |ss|
    decreases 2 * fuel, ss, |ss| - i
  {
    if i == |ss| then Pure(ps, w)
    else
      match EvalStmt(src, ss[i], ps, w, fuel)
      case Ok(ps1, w1, c) => After(c, 0, EvalStmts(src, ss, i + 1, ps1, w1, fuel))
      case o => o
  }

  // A divert passes as many arguments as its target has parameters.
  function Depart(src: Source, target: string, vs: seq<Value>, w: World, c: Cost): Outcome<Scope> {
    if target !in src then Bad(Undefined)
    else if |vs| != |src[target].params| then Bad(Unsupported)
    else Gone(To(target, vs), w, c)
  }

  function Store(x: string, v: Value, w: World): World {
    w.(globals := w.globals[x := v])
  }

  function Emit(s: string, w: World): World {
    w.(out := Write(w.out, s))
  }

  function EvalStmt(src: Source, s: Stmt, ps: Scope, w: World, fuel: nat): Outcome<Scope>
    decreases 2 * fuel, s, 0
  {
    match s
    case Decl(x, e, _) =>
      (match EvalExpr(src, e, ps, w, fuel)
       case Ok(v, w1, c) => Ok(ps - {x}, Store(x, v, w1), c)
       case o => Pass(o))
    case Set(x, e) =>
      (match EvalExpr(src, e, ps, w, fuel)
       case Ok(v, w1, c) => if x in w1.globals then Ok(ps, Store(x, v, w1), c) else Bad(Undefined)
       case o => Pass(o))
    case Do(e) =>
      (match EvalExpr(src, e, ps, w, fuel)
       case Ok(_, w1, c) => Ok(ps, w1, c)
       case o => Pass(o))
    case Return(e) =>
      (match EvalExpr(src, e, ps, w, fuel)
       case Ok(v, w1, c) => Gone(Back(v), w1, c)
       case o => Pass(o))
    case Content(items) =>
      (match EvalItems(src, items, 0, ps, w, fuel)
       case Ok(_, w1, c) => Ok(ps, if EndsLine(items) then Emit("\n", w1) else w1, c)
       case o => Pass(o))
    case Divert(target) =>
      if IsEnd(target) then Gone(End, w, Cost(0, 0)) else Depart(src, target, [], w, Cost(0, 0))
    case DivertWith(target, args) =>
      (match EvalArgs(src, args, 0, ps, w, fuel)
       case Ok(vs, w1, c) => Depart(src, target, vs, w1, c)
       case o => Pass(o))
    case Choices(_) => Bad(Unsupported)
    case Gather => Pure(ps, w)
  }

  function EvalItems(src: Source, items: seq<Item>, i: nat, ps: Scope, w: World, fuel: nat): Outcome<()>
    requires i <= |items|
    decreases 2 * fuel, items, |items| - i
  {
    if i == |items| then Pure((), w)
    else
      match EvalItem(src, items[i], ps, w, fuel)
      case Ok(_, w1, c) => After(c, 0, EvalItems(src, items, i + 1, ps, w1, fuel))
      case o => o
  }

  function EvalBlock(src: Source, ss: seq<Stmt>, ps: Scope, w: World, fuel: nat): Outcome<()>
    decreases 2 * fuel, ss, |ss| + 1
  {
    match EvalStmts(src, ss, 0, ps, w, fuel)
    case Ok(_, w1, c) => Ok((), w1, c)
    case o => Pass(o)
  }

  function EvalItem(src: Source, it: Item, ps: Scope, w: World, fuel: nat): Outcome<()>
    decreases 2 * fuel, it, 0
  {
    match it
    case Text(s) => Ok((), Emit(s, w), Cost(1, 0))
    case Logic(e) =>
      (match EvalExpr(src, e, ps, w, fuel)
       case Ok(v, w1, c) => Ok((), Emit(ToText(v), w1), c)
       case o => Pass(o))
    case Glue => Ok((), w.(out := Trim(w.out)), Cost(0, 0))
    case If(cond, body, els) =>
      (match EvalExpr(src, cond, ps, w, fuel)
       case Ok(v, w1, c) => After(c, 0, EvalBlock(src, if Falsey(v) then els else body, ps, w1, fuel))
       case o => Pass(o))
    case MultiIf(cases, final) =>
      (match EvalTests(src, cases, 0, ps, w, fuel)
       case Ok(k, w1, c) =>
         if k < |cases| then After(c, 0, EvalBlock(src, cases[k].body, ps, w1, fuel))
         else if final.Else? then After(c, 0, EvalBlock(src, final.body, ps, w1, fuel))
         else Bad(NoBranch)
       case o => Pass(o))
    case Switch(subject, cases, final) =>
      (match EvalExpr(src, subject, ps, w, fuel)
       case Ok(v, w1, c) =>
         var k := Matching(cases, 0, v);
         var d := Join(c, Cost(if cases == [] then 0 else 2, 0));
         if k < |cases| then After(d, 0, EvalBlock(src, cases[k].body, ps, w1, fuel))
         else if final.Else? then After(d, 0, EvalBlock(src, final.body, ps, w1, fuel))
         else Bad(NoBranch)
       case o => Pass(o))
  }

  // Index of the first test from i on that is not falsey, or the number of tests.
  function EvalTests(src: Source, cases: seq<Case>, i: nat, ps: Scope, w: World, fuel: nat): (o: Outcome<nat>)
    requires i <= |cases|
    ensures o.Ok? ==> i <= o.value <= |cases|
    decreases 2 * fuel, cases, |cases| - i
  {
    if i == |cases| then Pure(i, w)
    else
      match EvalExpr(src, cases[i].test, ps, w, fuel)
      case Ok(v, w1, c) => if Falsey(v) then After(c, 0, EvalTests(src, cases, i + 1, ps, w1, fuel)) else Ok(i, w1, c)
      case o => Pass(o)
  }

  // Index of the first case from i on whose literal equals v, or the number of cases.
  function Matching(cases: seq<Case>, i: nat, v: Value): (k: nat)
    requires i <= |cases|
    ensures i <= k <= |cases|
    decreases |cases| - i
  {
    if i == |cases| || cases[i].test == Lit(v) then i else Matching(cases, i + 1, v)
  }

  // Follow diverts from path to path until the story ends.
  function EvalStory(src: Source, f: string, vs: seq<Value>, w: World, fuel: nat): Outcome<()>
    decreases fuel
  {
    match EvalPath(src, f, vs, w, fuel)
    case Gone(l, w1, c) =>
      if c.cells > 128 || c.frames > 128 then Bad(Overflow)
      else if l.End? then Gone(l, w1, c)
      else if l.Back? then Bad(FellOff)
      else if fuel == 0 then Bad(OutOfFuel)
      else EvalStory(src, l.path, l.args, w1, fuel - 1)
    case o => o
  }

  // A divert to END or DONE ends the story, and no other divert does.
  lemma Endings(src: Source, target: string, ps: Scope, w: World, fuel: nat)
    ensures var o := EvalStmt(src, Divert(target), ps, w, fuel);
      target == "END" || target == "DONE" <==> o.Gone? && o.leave.End?
    ensures target == "END" || target == "DONE" ==> EvalStmt(src, Divert(target), ps, w, fuel).w == w
  {
  }

  // A switch can have a number or a boolean as the label of a case, and nothing else.
  lemma CaseLabels(e: Expr)
    ensures IsCaseLabel(e) <==> (exists n :: e == Lit(Int(n))) || (exists b :: e == Lit(Bool(b)))
  {
    if IsCaseLabel(e) {
      assert if e.v.Int? then e == Lit(Int(e.v.n)) else e == Lit(Bool(e.v.b));
    }
  }

  // One more piece of text behind other items.
  lemma {:induction false} TextLast(src: Source, items: seq<Item>, s: string, i: nat, ps: Scope, w: World, fuel: nat)
    requires i <= |items|
    ensures var all := EvalItems(src, items + [Text(s)], i, ps, w, fuel);
      var before := EvalItems(src, items, i, ps, w, fuel);
      if before.Ok? then all.Ok? && all.w == Emit(s, before.w) else !all.Ok?
    decreases |items| - i
  {
    hide EvalItem;
    var all := items + [Text(s)];
    if i == |items| {
      assert all[i] == Text(s);
      TextItem(src, s, ps, w, fuel);
      assert EvalItems(src, all, i + 1, ps, Emit(s, w), fuel) == Pure((), Emit(s, w));
    } else {
      assert all[i] == items[i];
      var o := EvalItem(src, items[i], ps, w, fuel);
      if o.Ok? {
        TextLast(src, items, s, i + 1, ps, o.w, fuel);
      }
    }
  }

  lemma TextItem(src: Source, s: string, ps: Scope, w: World, fuel: nat)
    ensures EvalItem(src, Text(s), ps, w, fuel) == Ok((), Emit(s, w), Cost(1, 0))
  {
  }

  // A content line that ends with text is followed by a line break, any other is not.
  lemma LineBreak(src: Source, items: seq<Item>, s: string, ps: Scope, w: World, fuel: nat)
    ensures var o := EvalStmt(src, Content(items + [Text(s)]), ps, w, fuel);
      var before := EvalItems(src, items, 0, ps, w, fuel);
      if before.Ok? then
        o.Ok? && o.w.globals == before.w.globals && o.w.out.cursor == before.w.out.cursor
        && o.w.out.bytes == before.w.out.bytes + s + "\n"
      else !o.Ok?
    ensures var o := EvalStmt(src, Content(items), ps, w, fuel);
      var all := EvalItems(src, items, 0, ps, w, fuel);
      items == [] || !items[|items| - 1].Text? ==> if all.Ok? then o.Ok? && o.w == all.w else !o.Ok?
  {
    hide EvalItem, EvalItems;
    TextLast(src, items, s, 0, ps, w, fuel);
  }
}
