// Which trees the code generator accepts: every name is known where it is used, every construct has code,
// and there are not too many constants.

module Scoping {
  import opened Wrappers
  import opened Values
  import opened Ast
  import opened Shape

  // What a name stands for.
  datatype Sort = Parameter | Variable(isConst: bool) | Routine(arity: nat)

  // Nested scopes, the innermost one last.
  type Names = seq<map<string, Sort>>

  function Find(names: Names, x: string): Option<Sort> {
    if names == [] then None
    else
      var top := names[|names| - 1];
      if x in top then Some(top[x]) else Find(names[..|names| - 1], x)
  }

  function Push(names: Names): Names {
    names + [map[]]
  }

  function Declare(names: Names, x: string, isConst: bool): Names {
    if names == [] then names else names[|names| - 1 := names[|names| - 1][x := Variable(isConst)]]
  }

  predicate IsRoutine(names: Names, f: string, arity: nat) {
    Find(names, f) == Some(Routine(arity))
  }

  // ----- expressions -----

  predicate ExprScoped(e: Expr, names: Names)
    decreases e, 0
  {
    match e
    case Lit(_) => true
    case Name(x) => Find(names, x).Some? && !Find(names, x).value.Routine?
    case Prefix(_, a) => ExprScoped(a, names)
    case Infix(op, l, r) => !op.Contains? && !op.Assign? && ExprScoped(l, names) && ExprScoped(r, names)
    case Call(callee, args) => callee.Name? && IsRoutine(names, callee.id, |args|) && ArgsScoped(args, |args|, names)
    case _ => false
  }

  predicate ArgsScoped(args: seq<Expr>, n: nat, names: Names)
    requires n <= |args|
    decreases args, 1
  {
    forall i | 0 <= i < n :: ArgScoped(args, i, names)
  }

  predicate ArgScoped(args: seq<Expr>, i: nat, names: Names)
    requires i < |args|
    decreases args, 0
  {
    ExprScoped(args[i], names)
  }

  // ----- statements -----

  // A declaration adds its name to the innermost scope, for the statements behind it.
  function NamesBehind(s: Stmt, names: Names): Names {
    if s.Decl? then Declare(names, s.name, s.isConst) else names
  }

  function NamesAfter(ss: seq<Stmt>, i: nat, names: Names): Names
    requires i <= |ss|
  {
    if i == 0 then names else NamesBehind(ss[i - 1], NamesAfter(ss, i - 1, names))
  }

  // A block has a scope of its own.
  predicate BlockScoped(ss: seq<Stmt>, names: Names)
    decreases ss, 2
  {
    StmtsScoped(ss, |ss|, Push(names))
  }

  predicate StmtsScoped(ss: seq<Stmt>, n: nat, names: Names)
    requires n <= |ss|
    decreases ss, 1
  {
    forall i | 0 <= i < n :: StmtScopedIn(ss, i, names)
  }

  predicate StmtScopedIn(ss: seq<Stmt>, i: nat, names: Names)
    requires i < |ss|
    decreases ss, 0
  {
    StmtScoped(ss[i], NamesAfter(ss, i, names))
  }

  predicate StmtScoped(s: Stmt, names: Names)
    decreases s, 0
  {
    match s
    case Decl(x, e, _) => names != [] && x !in names[|names| - 1] && ExprScoped(e, names)
    case Set(x, e) => Find(names, x) == Some(Variable(false)) && ExprScoped(e, names)
    case Do(e) => ExprScoped(e, names)
    case Return(e) => ExprScoped(e, names)
    case Content(items) => ItemsScoped(items, |items|, names)
    case Divert(target) => IsEnd(target) || (Find(names, target).Some? && Find(names, target).value.Routine?)
    case DivertWith(target, args) => IsRoutine(names, target, |args|) && ArgsScoped(args, |args|, names)
    case Choices(bs) => BranchesScoped(bs, |bs|, names)
    case Gather => true
  }

  predicate BranchesScoped(bs: seq<Branch>, n: nat, names: Names)
    requires n <= |bs|
    decreases bs, 1
  {
    forall i | 0 <= i < n :: BranchScoped(bs, i, names)
  }

  predicate BranchScoped(bs: seq<Branch>, i: nat, names: Names)
    requires i < |bs|
    decreases bs, 0
  {
    BlockScoped(bs[i].body, names)
  }

  predicate ItemsScoped(items: seq<Item>, n: nat, names: Names)
    requires n <= |items|
    decreases items, 1
  {
    forall i | 0 <= i < n :: ItemScopedIn(items, i, names)
  }

  predicate ItemScopedIn(items: seq<Item>, i: nat, names: Names)
    requires i < |items|
    decreases items, 0
  {
    ItemScoped(items[i], names)
  }

  // A conditional has a scope around its conditions and branches, and at least one branch.
  predicate ItemScoped(it: Item, names: Names)
    decreases it, 0
  {
    match it
    case Text(_) => true
    case Logic(e) => ExprScoped(e, names)
    case Glue => true
    case If(cond, body, els) => ExprScoped(cond, Push(names)) && BlockScoped(body, Push(names))
      && BlockScoped(els, Push(names))
    case MultiIf(cases, final) =>
      && (cases != [] || final.Else?)
      && TestsScoped(cases, |cases|, Push(names)) && BodiesScoped(cases, |cases|, Push(names))
      && FinalScoped(final, Push(names))
    case Switch(e, cases, final) =>
      && (cases != [] || final.Else?) && ExprScoped(e, Push(names))
      && LabelsFit(cases, |cases|) && BodiesScoped(cases, |cases|, Push(names)) && FinalScoped(final, Push(names))
  }

  predicate FinalScoped(final: Final, names: Names)
    decreases final, 0
  {
    final.Else? ==> BlockScoped(final.body, names)
  }

  predicate TestsScoped(cases: seq<Case>, n: nat, names: Names)
    requires n <= |cases|
    decreases cases, 1
  {
    forall i | 0 <= i < n :: TestScoped(cases, i, names)
  }

  predicate TestScoped(cases: seq<Case>, i: nat, names: Names)
    requires i < |cases|
    decreases cases, 0
  {
    ExprScoped(cases[i].test, names)
  }

  predicate LabelsFit(cases: seq<Case>, n: nat)
    requires n <= |cases|
  {
    forall i | 0 <= i < n :: IsCaseLabel(cases[i].test)
  }

  predicate BodiesScoped(cases: seq<Case>, n: nat, names: Names)
    requires n <= |cases|
    decreases cases, 1
  {
    forall i | 0 <= i < n :: BodyScoped(cases, i, names)
  }

  predicate BodyScoped(cases: seq<Case>, i: nat, names: Names)
    requires i < |cases|
    decreases cases, 0
  {
    BlockScoped(cases[i].body, names)
  }

  // ----- paths -----

  function ParamSorts(params: seq<string>): map<string, Sort> {
    map x | x in params :: Parameter
  }

  // The scopes of a path: the names of all paths, and its parameters.
  function ScopesOf(file: map<string, Sort>, d: PathDef): Names {
    [file, ParamSorts(d.params)]
  }

  predicate PathScoped(d: PathDef, file: map<string, Sort>) {
    BlockScoped(d.body, ScopesOf(file, d))
  }

  // The names of a file are those of paths of the source, each with the number of its parameters.
  ghost predicate NamesPaths(file: map<string, Sort>, src: map<string, PathDef>) {
    forall f | f in file :: f in src && file[f] == Routine(|src[f].params|)
  }

  ghost predicate SourceScoped(src: map<string, PathDef>, file: map<string, Sort>) {
    NamesPaths(file, src) && forall f | f in src :: PathScoped(src[f], file)
  }

  // ----- constants -----

  // Number of constants that the code of each tree adds to the pool of its path.

  function ExprConsts(e: Expr): nat {
    match e
    case Lit(v) => if v.Bool? then 0 else 1
    case Prefix(_, a) => ExprConsts(a)
    case Infix(_, l, r) => ExprConsts(l) + ExprConsts(r)
    case Call(_, args) => ArgsConsts(args, |args|) + 1
    case _ => 0
  }

  function ArgsConsts(args: seq<Expr>, i: nat): nat
    requires i <= |args|
    decreases args, i
  {
    if i == 0 then 0 else ArgsConsts(args, i - 1) + ExprConsts(args[i - 1])
  }

  function StmtsConsts(ss: seq<Stmt>, i: nat): nat
    requires i <= |ss|
    decreases ss, i
  {
    if i == 0 then 0 else StmtsConsts(ss, i - 1) + StmtConsts(ss[i - 1])
  }

  function BlockConsts(ss: seq<Stmt>): nat
    decreases ss, |ss| + 1
  {
    StmtsConsts(ss, |ss|)
  }

  function StmtConsts(s: Stmt): nat {
    match s
    case Decl(_, e, _) => ExprConsts(e) + 1
    case Set(_, e) => ExprConsts(e)
    case Do(e) => ExprConsts(e)
    case Return(e) => ExprConsts(e)
    case Content(items) => ItemsConsts(items, |items|)
    case Divert(target) => if IsEnd(target) then 0 else 1
    case DivertWith(_, args) => ArgsConsts(args, |args|) + 1
    case Choices(bs) => OffersConsts(bs, |bs|) + BranchesConsts(bs, |bs|)
    case Gather => 0
  }

  function ItemsConsts(items: seq<Item>, i: nat): nat
    requires i <= |items|
    decreases items, i
  {
    if i == 0 then 0 else ItemsConsts(items, i - 1) + ItemConsts(items[i - 1])
  }

  function ItemConsts(it: Item): nat {
    match it
    case Text(_) => 1
    case Logic(e) => ExprConsts(e)
    case Glue => 0
    case If(c, body, els) => ExprConsts(c) + BlockConsts(body) + BlockConsts(els)
    case MultiIf(cases, final) => TestsConsts(cases, |cases|) + BodiesConsts(cases, |cases|) + FinalConsts(final)
    case Switch(e, cases, final) =>
      ExprConsts(e) + TestsConsts(cases, |cases|) + BodiesConsts(cases, |cases|) + FinalConsts(final)
  }

  function FinalConsts(final: Final): nat {
    match final
    case NoElse => 0
    case Else(ss) => BlockConsts(ss)
  }

  function TestsConsts(cases: seq<Case>, i: nat): nat
    requires i <= |cases|
    decreases cases, i
  {
    if i == 0 then 0 else TestsConsts(cases, i - 1) + ExprConsts(cases[i - 1].test)
  }

  function BodiesConsts(cases: seq<Case>, i: nat): nat
    requires i <= |cases|
    decreases cases, i
  {
    if i == 0 then 0 else BodiesConsts(cases, i - 1) + BlockConsts(cases[i - 1].body)
  }

  function PieceConsts(p: Option<string>): nat { if p.Some? then 1 else 0 }

  function OffersConsts(bs: seq<Branch>, i: nat): nat
    requires i <= |bs|
    decreases bs, i
  {
    if i == 0 then 0 else OffersConsts(bs, i - 1) + PieceConsts(bs[i - 1].start) + PieceConsts(bs[i - 1].option) + 1
  }

  function BranchConsts(b: Branch): nat
    decreases b, 0
  {
    PieceConsts(b.start) + PieceConsts(b.inner) + BlockConsts(b.body)
  }

  function BranchesConsts(bs: seq<Branch>, i: nat): nat
    requires i <= |bs|
    decreases bs, i
  {
    if i == 0 then 0 else BranchesConsts(bs, i - 1) + BranchConsts(bs[i - 1])
  }

  // ----- room in a path -----

  // What a path has used up: constants, code bytes, and stack slots with the parameters.
  datatype Used = Used(consts: nat, bytes: nat, slots: nat) {
    function Plus(more: Used): Used {
      Used(consts + more.consts, bytes + more.bytes, slots + more.slots)
    }

    predicate Fits() {
      consts <= 255 && bytes < 0x1_0000 && slots <= 255
    }
  }

  function ExprCost(e: Expr): Used { Used(ExprConsts(e), ExprLen(e), 0) }
  function ArgsCost(args: seq<Expr>, i: nat): Used requires i <= |args| { Used(ArgsConsts(args, i), ArgsLen(args, i),
          0) }
  function StmtCost(s: Stmt): Used { Used(StmtConsts(s), StmtLen(s), StmtSlots(s)) }
  function BlockCost(ss: seq<Stmt>): Used { Used(BlockConsts(ss), BlockLen(ss), BlockSlots(ss)) }
  function ItemCost(it: Item): Used { Used(ItemConsts(it), ItemLen(it), ItemSlots(it)) }

  // A tree is accepted only if it is scoped, and whenever it is scoped and there is room for it.
  predicate Accepts(fine: bool, scoped: bool, before: Used, cost: Used) {
    (fine ==> scoped) && (scoped && before.Plus(cost).Fits() ==> fine)
  }

  // Number of bytes of an operator itself.
  function InfixLen(op: InfixOp): nat {
    if op.And? || op.Or? then 4 else if op.Neq? then 2 else 1
  }

  lemma InfixParts(op: InfixOp, l: Expr, r: Expr, names: Names)
    ensures ExprScoped(Infix(op, l, r), names) <==>
            !op.Contains? && !op.Assign? && ExprScoped(l, names) && ExprScoped(r, names)
    ensures ExprConsts(Infix(op, l, r)) == ExprConsts(l) + ExprConsts(r)
    ensures ExprLen(Infix(op, l, r)) == ExprLen(l) + ExprLen(r) + InfixLen(op)
  {
    hide ArgsScoped, ArgsConsts, ArgsLen, IsRoutine, Find;
  }

  lemma {:induction false} ArgsGrow(args: seq<Expr>, i: nat, j: nat)
    requires i < j <= |args|
    ensures ArgsConsts(args, i) + ExprConsts(args[i]) <= ArgsConsts(args, j)
    ensures ArgsLen(args, i) + ExprLen(args[i]) <= ArgsLen(args, j)
    decreases j
  {
    if i < j - 1 {
      ArgsGrow(args, i, j - 1);
    }
  }

  lemma {:induction false} StmtsGrow(ss: seq<Stmt>, i: nat, j: nat)
    requires i < j <= |ss|
    ensures StmtsConsts(ss, i) + StmtConsts(ss[i]) <= StmtsConsts(ss, j)
    ensures StmtsLen(ss, i) + StmtLen(ss[i]) <= StmtsLen(ss, j)
    ensures StmtsSlots(ss, i) + StmtSlots(ss[i]) <= StmtsSlots(ss, j)
    decreases j
  {
    hide StmtConsts, StmtLen, StmtSlots;
    if i < j - 1 {
      StmtsGrow(ss, i, j - 1);
    }
  }

  lemma {:induction false} ItemsGrow(items: seq<Item>, i: nat, j: nat)
    requires i < j <= |items|
    ensures ItemsConsts(items, i) + ItemConsts(items[i]) <= ItemsConsts(items, j)
    ensures ItemsLen(items, i) + ItemLen(items[i]) <= ItemsLen(items, j)
    ensures ItemsSlots(items, i) + ItemSlots(items[i]) <= ItemsSlots(items, j)
    decreases j
  {
    hide ItemConsts, ItemLen, ItemSlots;
    if i < j - 1 {
      ItemsGrow(items, i, j - 1);
    }
  }

  lemma {:induction false} ChecksGrow(cases: seq<Case>, i: nat, j: nat)
    requires i < j <= |cases|
    ensures TestsConsts(cases, i) + ExprConsts(cases[i].test) <= TestsConsts(cases, j)
    ensures TestsLen(cases, i) + ExprLen(cases[i].test) + 4 <= TestsLen(cases, j)
    ensures ArmsLen(cases, i) + ExprLen(cases[i].test) + 7 <= ArmsLen(cases, j)
    decreases j
  {
    hide ExprConsts, ExprLen;
    if i < j - 1 {
      ChecksGrow(cases, i, j - 1);
    }
  }

  lemma {:induction false} BodiesGrow(cases: seq<Case>, i: nat, j: nat)
    requires i < j <= |cases|
    ensures BodiesConsts(cases, i) + BlockConsts(cases[i].body) <= BodiesConsts(cases, j)
    ensures BodiesLen(cases, i) + BlockLen(cases[i].body) + 4 <= BodiesLen(cases, j)
    ensures BodiesSlots(cases, i) + BlockSlots(cases[i].body) <= BodiesSlots(cases, j)
    decreases j
  {
    hide BlockConsts, BlockLen, BlockSlots;
    if i < j - 1 {
      BodiesGrow(cases, i, j - 1);
    }
  }

  function BranchLen(b: Branch): nat {
    PieceLen(b.start) + PieceLen(b.inner) + 2 + BlockLen(b.body)
  }

  lemma {:induction false} OffersGrow(bs: seq<Branch>, i: nat, j: nat)
    requires i < j <= |bs|
    ensures OffersConsts(bs, i) + PieceConsts(bs[i].start) + PieceConsts(bs[i].option) + 1 <= OffersConsts(bs, j)
    ensures OffersLen(bs, i) + PieceLen(bs[i].start) + PieceLen(bs[i].option) + 3 <= OffersLen(bs, j)
    decreases j
  {
    hide PieceLen, PieceConsts;
    if i < j - 1 {
      OffersGrow(bs, i, j - 1);
    }
  }

  lemma {:induction false} BranchesGrow(bs: seq<Branch>, i: nat, j: nat)
    requires i < j <= |bs|
    ensures BranchesConsts(bs, i) + BranchConsts(bs[i]) <= BranchesConsts(bs, j)
    ensures BranchesLen(bs, i) + BranchLen(bs[i]) <= BranchesLen(bs, j)
    ensures BranchesSlots(bs, i) + BlockSlots(bs[i].body) <= BranchesSlots(bs, j)
    decreases j
  {
    hide BlockLen, BlockSlots, BranchConsts, PieceLen;
    if i < j - 1 {
      BranchesGrow(bs, i, j - 1);
    }
  }

  lemma CasesStep(cases: seq<Case>, i: nat, names: Names)
    requires i < |cases|
    ensures TestsConsts(cases, i + 1) == TestsConsts(cases, i) + ExprConsts(cases[i].test)
    ensures TestsLen(cases, i + 1) == TestsLen(cases, i) + ExprLen(cases[i].test) + 4
    ensures ArmsLen(cases, i + 1) == ArmsLen(cases, i) + ExprLen(cases[i].test) + 7
    ensures TestsScoped(cases, i, names) && ExprScoped(cases[i].test, names) ==> TestsScoped(cases, i + 1, names)
    ensures TestsScoped(cases, |cases|, names) ==> ExprScoped(cases[i].test, names)
    ensures LabelsFit(cases, i) && IsCaseLabel(cases[i].test) ==> LabelsFit(cases, i + 1)
    ensures LabelsFit(cases, |cases|) ==> IsCaseLabel(cases[i].test)
  {
    hide ExprConsts, ExprLen, ExprScoped;
    assert TestsScoped(cases, |cases|, names) ==> TestScoped(cases, i, names);
  }

  lemma BranchesStep(bs: seq<Branch>, i: nat, names: Names)
    requires i < |bs|
    ensures BranchesLen(bs, i + 1) == BranchesLen(bs, i) + BranchLen(bs[i])
    ensures BranchesConsts(bs, i + 1) == BranchesConsts(bs, i) + BranchConsts(bs[i])
    ensures BranchesSlots(bs, i + 1) == BranchesSlots(bs, i) + BlockSlots(bs[i].body)
    ensures BranchesScoped(bs, i, names) && BlockScoped(bs[i].body, names) ==> BranchesScoped(bs, i + 1, names)
    ensures BranchesScoped(bs, |bs|, names) ==> BlockScoped(bs[i].body, names)
  {
    hide BlockLen, BlockSlots, BranchConsts, BlockScoped;
    assert BranchesScoped(bs, |bs|, names) ==> BranchScoped(bs, i, names);
  }

  lemma IfNeeds(cond: Expr, body: seq<Stmt>, els: seq<Stmt>, names: Names)
    ensures var it := If(cond, body, els);
      && (ItemScoped(it, names) <==>
            ExprScoped(cond, Push(names)) && BlockScoped(body, Push(names)) && BlockScoped(els, Push(names)))
      && ItemCost(it) == ExprCost(cond).Plus(BlockCost(body)).Plus(BlockCost(els)).Plus(Used(0, 8, 0))
  {
  }

  lemma MultiIfNeeds(cases: seq<Case>, final: Final, names: Names)
    ensures var it := MultiIf(cases, final);
      && (ItemScoped(it, names) <==>
            (cases != [] || final.Else?) && TestsScoped(cases, |cases|, Push(names))
            && BodiesScoped(cases, |cases|, Push(names)) && FinalScoped(final, Push(names)))
      && ItemConsts(it) == TestsConsts(cases, |cases|) + BodiesConsts(cases, |cases|) + FinalConsts(final)
  {
  }

  lemma SwitchNeeds(e: Expr, cases: seq<Case>, final: Final, names: Names)
    ensures var it := Switch(e, cases, final);
      && (ItemScoped(it, names) <==>
            (cases != [] || final.Else?) && ExprScoped(e, Push(names)) && LabelsFit(cases, |cases|)
            && BodiesScoped(cases, |cases|, Push(names)) && FinalScoped(final, Push(names)))
      && ItemConsts(it) == ExprConsts(e) + TestsConsts(cases, |cases|) + BodiesConsts(cases, |cases|)
         + FinalConsts(final)
  {
  }
}

// Accepted trees never evaluate to an undefined name: a name is stored before it is loaded, and paths exist.
// What an evaluation can fail for, read off the tree: the constructs that can give each reason.
module Reasons {
  import opened Ast
  import opened Shape
  import opened Meaning

  // Nothing in the expression can fail for this reason.  Operators reject operands, except for the equalities
  // and the logical ones; negation is not supported; a call can use up the fuel.
  predicate ExprQuiet(e: Expr, why: Why) {
    match e
    case Prefix(op, a) => (op.Not? || !why.Unsupported?) && ExprQuiet(a, why)
    case Infix(op, l, r) =>
      && (op.And? || op.Or? || op.Eq? || op.Neq? || !why.IllTyped?)
      && ExprQuiet(l, why) && ExprQuiet(r, why)
    case Call(_, args) => !why.OutOfFuel? && ArgsQuiet(args, why)
    case _ => true
  }

  predicate ArgsQuiet(args: seq<Expr>, why: Why) {
    forall i | 0 <= i < |args| :: ExprQuiet(args[i], why)
  }

  // Choices are not supported, nor is a divert without the arguments that its target takes; a divert can use
  // up the fuel; a return outside a call falls off the story.
  predicate StmtQuiet(src: Source, s: Stmt, why: Why)
    decreases s, 0
  {
    match s
    case Decl(_, e, _) => ExprQuiet(e, why)
    case Set(_, e) => ExprQuiet(e, why)
    case Do(e) => ExprQuiet(e, why)
    case Return(e) => !why.FellOff? && ExprQuiet(e, why)
    case Content(items) => ItemsQuiet(src, items, why)
    case Divert(target) =>
      || target == "END" || target == "DONE"
      || (!why.OutOfFuel? && (why.Unsupported? ==> target in src && src[target].params == []))
    case DivertWith(_, args) => !why.OutOfFuel? && ArgsQuiet(args, why)
    case Choices(_) => !why.Unsupported?
    case Gather => true
  }

  predicate BlockQuiet(src: Source, ss: seq<Stmt>, why: Why)
    decreases ss, 1
  {
    forall i | 0 <= i < |ss| :: StmtQuiet(src, ss[i], why)
  }

  predicate ItemsQuiet(src: Source, items: seq<Item>, why: Why)
    decreases items, 1
  {
    forall i | 0 <= i < |items| :: ItemQuiet(src, items[i], why)
  }

  // A conditional without an else can be left without a branch.
  predicate ItemQuiet(src: Source, it: Item, why: Why)
    decreases it, 0
  {
    match it
    case Text(_) => true
    case Logic(e) => ExprQuiet(e, why)
    case Glue => true
    case If(cond, body, els) => ExprQuiet(cond, why) && BlockQuiet(src, body, why) && BlockQuiet(src, els, why)
    case MultiIf(cases, final) => CasesQuiet(src, cases, why) && FinalQuiet(src, final, why)
    case Switch(e, cases, final) => ExprQuiet(e, why) && CasesQuiet(src, cases, why) && FinalQuiet(src, final, why)
  }

  predicate CasesQuiet(src: Source, cases: seq<Case>, why: Why)
    decreases cases, 1
  {
    forall i | 0 <= i < |cases| :: CaseQuiet(src, cases[i], why)
  }

  predicate CaseQuiet(src: Source, c: Case, why: Why)
    decreases c, 0
  {
    ExprQuiet(c.test, why) && BlockQuiet(src, c.body, why)
  }

  predicate FinalQuiet(src: Source, final: Final, why: Why)
    decreases final, 0
  {
    match final
    case NoElse => !why.NoBranch?
    case Else(body) => BlockQuiet(src, body, why)
  }

  // A function that comes to its end without a return falls off.
  predicate PathQuiet(src: Source, d: PathDef, why: Why) {
    (d.isFunction ==> !why.FellOff?) && BlockQuiet(src, d.body, why)
  }

  predicate SourceQuiet(src: Source, why: Why) {
    forall f | f in src :: PathQuiet(src, src[f], why)
  }
}

// How many stack cells a story can take, read off the tree: without calls there is a bound.
module Headroom {
  import opened Values
  import opened Ast
  import opened Shape
  import opened Meaning

  // No call inside.
  predicate Callless(e: Expr) {
    match e
    case Prefix(_, a) => Callless(a)
    case Infix(_, l, r) => Callless(l) && Callless(r)
    case Call(_, _) => false
    case _ => true
  }

  // The names and literals in an expression: at most so many values can wait on the stack.
  function Leaves(e: Expr): (n: nat)
    ensures n >= 1
  {
    match e
    case Prefix(_, a) => Leaves(a)
    case Infix(_, l, r) => Leaves(l) + Leaves(r)
    case _ => 1
  }

  function ArgLeaves(args: seq<Expr>, i: nat): nat
    requires i <= |args|
    decreases |args| - i
  {
    if i == |args| then 0 else Leaves(args[i]) + ArgLeaves(args, i + 1)
  }

  predicate ExprRoom(e: Expr, n: nat) {
    Callless(e) && Leaves(e) <= n
  }

  // Every expression in the statement has room in n cells, and so has a comparison with a case.
  predicate StmtRoom(s: Stmt, n: nat)
    decreases s, 0
  {
    match s
    case Decl(_, e, _) => ExprRoom(e, n)
    case Set(_, e) => ExprRoom(e, n)
    case Do(e) => ExprRoom(e, n)
    case Return(e) => ExprRoom(e, n)
    case Content(items) => forall i | 0 <= i < |items| :: ItemRoom(items[i], n)
    case DivertWith(_, args) => (forall i | 0 <= i < |args| :: Callless(args[i])) && ArgLeaves(args, 0) <= n
    case _ => true
  }

  predicate BlockRoom(ss: seq<Stmt>, n: nat)
    decreases ss, 1
  {
    forall i | 0 <= i < |ss| :: StmtRoom(ss[i], n)
  }

  predicate ItemRoom(it: Item, n: nat)
    decreases it, 0
  {
    match it
    case Text(_) => 1 <= n
    case Logic(e) => ExprRoom(e, n)
    case Glue => true
    case If(cond, body, els) => ExprRoom(cond, n) && BlockRoom(body, n) && BlockRoom(els, n)
    case MultiIf(cases, final) => CasesRoom(cases, n) && FinalRoom(final, n)
    case Switch(e, cases, final) => ExprRoom(e, n) && 2 <= n && CasesRoom(cases, n) && FinalRoom(final, n)
  }

  predicate CasesRoom(cases: seq<Case>, n: nat)
    decreases cases, 1
  {
    forall i | 0 <= i < |cases| :: CaseRoom(cases[i], n)
  }

  predicate CaseRoom(c: Case, n: nat)
    decreases c, 0
  {
    ExprRoom(c.test, n) && BlockRoom(c.body, n)
  }

  predicate FinalRoom(final: Final, n: nat)
    decreases final, 0
  {
    final.Else? ==> BlockRoom(final.body, n)
  }

  // The parameters, the hidden slots and the expressions of each path fit the stack.
  predicate SourceRoom(src: Source) {
    forall f | f in src :: PathRoom(src[f])
  }

  predicate PathRoom(d: PathDef) {
    var taken := |d.params| + BlockSlots(d.body);
    taken <= 128 && BlockRoom(d.body, 128 - taken)
  }

  // No more than n cells, and no call frame.
  predicate Within<T>(o: Outcome<T>, n: nat) {
    if o.Bad? then !o.why.Overflow? else o.cost.cells <= n && o.cost.frames == 0
  }

  lemma {:induction false} ExprNeeds(src: Source, e: Expr, ps: Scope, w: World, fuel: nat)
    requires Callless(e)
    ensures Within(EvalExpr(src, e, ps, w, fuel), Leaves(e))
    decreases e
  {
    hide Binary, EvalPath, EvalArgs, Falsey, Lookup;
    match e
    case Prefix(_, a) => ExprNeeds(src, a, ps, w, fuel);
    case Infix(_, l, r) =>
      ExprNeeds(src, l, ps, w, fuel);
      var ol := EvalExpr(src, l, ps, w, fuel);
      if ol.Ok? {
        ExprNeeds(src, r, ps, ol.w, fuel);
      }
    case _ =>
  }

  lemma {:induction false} ArgsNeed(src: Source, args: seq<Expr>, i: nat, ps: Scope, w: World, fuel: nat)
    requires i <= |args| && forall k | 0 <= k < |args| :: Callless(args[k])
    ensures Within(EvalArgs(src, args, i, ps, w, fuel), ArgLeaves(args, i))
    decreases |args| - i
  {
    hide EvalExpr, Leaves;
    if i < |args| {
      ExprNeeds(src, args[i], ps, w, fuel);
      var o := EvalExpr(src, args[i], ps, w, fuel);
      if o.Ok? {
        ArgsNeed(src, args, i + 1, ps, o.w, fuel);
      }
    }
  }

  lemma {:induction false} StmtsNeed(src: Source, ss: seq<Stmt>, i: nat, ps: Scope, w: World, fuel: nat, n: nat)
    requires i <= |ss| && BlockRoom(ss, n)
    ensures Within(EvalStmts(src, ss, i, ps, w, fuel), n)
    decreases ss, |ss| - i
  {
    hide EvalStmt, StmtRoom;
    if i < |ss| {
      StmtNeeds(src, ss[i], ps, w, fuel, n);
      var o := EvalStmt(src, ss[i], ps, w, fuel);
      if o.Ok? {
        StmtsNeed(src, ss, i + 1, o.value, o.w, fuel, n);
      }
    }
  }

  lemma {:induction false} BlockNeeds(src: Source, ss: seq<Stmt>, ps: Scope, w: World, fuel: nat, n: nat)
    requires BlockRoom(ss, n)
    ensures Within(EvalBlock(src, ss, ps, w, fuel), n)
    decreases ss, |ss| + 1
  {
    hide EvalStmts, BlockRoom;
    StmtsNeed(src, ss, 0, ps, w, fuel, n);
  }

  lemma {:induction false} StmtNeeds(src: Source, s: Stmt, ps: Scope, w: World, fuel: nat, n: nat)
    requires StmtRoom(s, n)
    ensures Within(EvalStmt(src, s, ps, w, fuel), n)
    decreases s, 0
  {
    hide EvalExpr, EvalArgs, EvalItems, Callless, Leaves, ItemRoom;
    match s
    case Decl(_, e, _) => ExprNeeds(src, e, ps, w, fuel);
    case Set(_, e) => ExprNeeds(src, e, ps, w, fuel);
    case Do(e) => ExprNeeds(src, e, ps, w, fuel);
    case Return(e) => ExprNeeds(src, e, ps, w, fuel);
    case Content(items) => ItemsNeed(src, items, 0, ps, w, fuel, n);
    case DivertWith(_, args) => ArgsNeed(src, args, 0, ps, w, fuel);
    case _ =>
  }

  lemma {:induction false} ItemsNeed(src: Source, items: seq<Item>, i: nat, ps: Scope, w: World, fuel: nat, n: nat)
    requires i <= |items| && forall k | 0 <= k < |items| :: ItemRoom(items[k], n)
    ensures Within(EvalItems(src, items, i, ps, w, fuel), n)
    decreases items, |items| - i
  {
    hide EvalItem, ItemRoom;
    if i < |items| {
      ItemNeeds(src, items[i], ps, w, fuel, n);
      var o := EvalItem(src, items[i], ps, w, fuel);
      if o.Ok? {
        ItemsNeed(src, items, i + 1, ps, o.w, fuel, n);
      }
    }
  }

  lemma {:induction false} ItemNeeds(src: Source, it: Item, ps: Scope, w: World, fuel: nat, n: nat)
    requires ItemRoom(it, n)
    ensures Within(EvalItem(src, it, ps, w, fuel), n)
    decreases it, 1
  {
    hide EvalExpr, EvalBlock, EvalTests, BlockRoom, CasesRoom, FinalRoom, Callless, Leaves;
    match it
    case Text(_) =>
    case Logic(e) => ExprNeeds(src, e, ps, w, fuel);
    case Glue =>
    case If(cond, body, els) =>
      ExprNeeds(src, cond, ps, w, fuel);
      var o := EvalExpr(src, cond, ps, w, fuel);
      if o.Ok? {
        BlockNeeds(src, if Falsey(o.value) then els else body, ps, o.w, fuel, n);
      }
    case MultiIf(cases, _) =>
      TestsNeed(src, cases, 0, ps, w, fuel, n);
      var o := EvalTests(src, cases, 0, ps, w, fuel);
      if o.Ok? {
        SelectedNeeds(src, it, o.value, ps, o.w, fuel, n);
      }
    case Switch(e, cases, _) =>
      ExprNeeds(src, e, ps, w, fuel);
      var o := EvalExpr(src, e, ps, w, fuel);
      if o.Ok? {
        SelectedNeeds(src, it, Matching(cases, 0, o.value), ps, o.w, fuel, n);
      }
  }

  lemma {:induction false} SelectedNeeds(src: Source, it: Item, k: nat, ps: Scope, w: World, fuel: nat, n: nat)
    requires (it.MultiIf? || it.Switch?) && k <= |it.cases| && CasesRoom(it.cases, n) && FinalRoom(it.final, n)
    ensures k < |it.cases| ==> Within(EvalBlock(src, it.cases[k].body, ps, w, fuel), n)
    ensures it.final.Else? ==> Within(EvalBlock(src, it.final.body, ps, w, fuel), n)
    decreases it, 0
  {
    hide EvalBlock, BlockRoom;
    if k < |it.cases| {
      assert CaseRoom(it.cases[k], n);
      BlockNeeds(src, it.cases[k].body, ps, w, fuel, n);
    }
    if it.final.Else? {
      BlockNeeds(src, it.final.body, ps, w, fuel, n);
    }
  }

  lemma {:induction false} TestsNeed(src: Source, cases: seq<Case>, i: nat, ps: Scope, w: World, fuel: nat, n: nat)
    requires i <= |cases| && CasesRoom(cases, n)
    ensures Within(EvalTests(src, cases, i, ps, w, fuel), n)
    decreases |cases| - i
  {
    hide EvalExpr, BlockRoom, Callless, Leaves;
    if i < |cases| {
      assert CaseRoom(cases[i], n);
      ExprNeeds(src, cases[i].test, ps, w, fuel);
      var o := EvalExpr(src, cases[i].test, ps, w, fuel);
      if o.Ok? {
        TestsNeed(src, cases, i + 1, ps, o.w, fuel, n);
      }
    }
  }

  lemma PathNeeds(src: Source, f: string, vs: seq<Value>, w: World, fuel: nat)
    requires SourceRoom(src)
    ensures var o := EvalPath(src, f, vs, w, fuel);
      if o.Bad? then !o.why.Overflow? else o.cost.cells <= 128 && o.cost.frames <= 1
  {
    hide EvalStmts, BlockRoom, BlockSlots, ParamScope;
    if f in src && |vs| == |src[f].params| {
      var d := src[f];
      assert PathRoom(d);
      StmtsNeed(src, d.body, 0, ParamScope(d.params, vs), w, fuel, 128 - |d.params| - BlockSlots(d.body));
    }
  }

  // A story without calls, whose expressions are small enough, never runs out of stack cells.
  lemma {:induction false} StoryNeeds(src: Source, f: string, vs: seq<Value>, w: World, fuel: nat)
    requires SourceRoom(src)
    ensures EvalStory(src, f, vs, w, fuel) != Bad(Overflow)
    decreases fuel
  {
    hide EvalPath, SourceRoom;
    PathNeeds(src, f, vs, w, fuel);
    var o := EvalPath(src, f, vs, w, fuel);
    if o.Gone? && o.leave.To? && fuel > 0 {
      StoryNeeds(src, o.leave.path, o.leave.args, o.w, fuel - 1);
    }
  }
}

module Defined {
  import opened Wrappers
  import opened Values
  import opened Ast
  import opened Output
  import opened Shape
  import opened Meaning
  import opened Scoping
  import opened Reasons

  // Every parameter in scope has a value, every variable in scope has been stored, and every path is there.
  ghost predicate Covers(names: Names, src: Source, ps: Meaning.Scope, w: World) {
    forall x :: match Find(names, x)
      case None => true
      case Some(Parameter) => x in ps
      case Some(Variable(_)) => x in w.globals
      case Some(Routine(n)) => x in src && |src[x].params| == n
  }

  // Not undefined; and otherwise no global was lost, and a divert goes to a path with its arguments.
  ghost predicate Sane<T>(src: Source, w: World, o: Outcome<T>) {
    match o
    case Ok(_, w1, _) => w.globals.Keys <= w1.globals.Keys
    case Gone(l, w1, _) =>
      w.globals.Keys <= w1.globals.Keys && (l.To? ==> l.path in src && |l.args| == |src[l.path].params|)
    case Bad(why) => why != Undefined
  }

  // Failing for this reason, or doing what would make the story fail for it.
  predicate Fails<T>(o: Outcome<T>, why: Why) {
    match o
    case Ok(_, _, _) => false
    case Gone(l, _, _) => (why.FellOff? && l.Back?) || (why.OutOfFuel? && l.To?)
    case Bad(y) => y == why
  }

  lemma {:induction false} FindDeclared(names: Names, x: string, isConst: bool, y: string)
    requires names != []
    ensures Find(Declare(names, x, isConst), y) == if y == x then Some(Variable(isConst)) else Find(names, y)
  {
    var n := |names| - 1;
    assert Declare(names, x, isConst)[..n] == names[..n];
  }

  lemma FindPushed(names: Names, y: string)
    ensures Find(Push(names), y) == Find(names, y)
  {
    assert Push(names)[..|names|] == names;
  }

  lemma CoversPushed(names: Names, src: Source, ps: Meaning.Scope, w: World)
    requires Covers(names, src, ps, w)
    ensures Covers(Push(names), src, ps, w)
  {
    forall x
      ensures Find(Push(names), x) == Find(names, x)
    {
      FindPushed(names, x);
    }
    hide Find;
  }

  lemma CoversMore(names: Names, src: Source, ps: Meaning.Scope, w: World, w1: World)
    requires Covers(names, src, ps, w) && w.globals.Keys <= w1.globals.Keys
    ensures Covers(names, src, ps, w1)
  {
    hide Find;
  }

  lemma CoversDeclared(names: Names, src: Source, ps: Meaning.Scope, w: World, x: string, v: Value, isConst: bool)
    requires Covers(names, src, ps, w) && names != []
    ensures Covers(Declare(names, x, isConst), src, ps - {x}, Store(x, v, w))
  {
    forall y
      ensures Find(Declare(names, x, isConst), y) == if y == x then Some(Variable(isConst)) else Find(names, y)
    {
      FindDeclared(names, x, isConst, y);
    }
    hide Find, Declare;
  }

  lemma {:induction false} ExprDefined(src: Source, file: map<string, Sort>, e: Expr, names: Names, ps: Meaning.Scope,
          w: World, fuel: nat, why: Why)
    requires SourceScoped(src, file) && ExprScoped(e, names) && Covers(names, src, ps, w)
    ensures Sane(src, w, EvalExpr(src, e, ps, w, fuel))
    ensures SourceQuiet(src, why) && ExprQuiet(e, why) ==> !Fails(EvalExpr(src, e, ps, w, fuel), why)
    decreases 2 * fuel, e, 1
  {
    hide SourceScoped, Covers, EvalPath, EvalArgs;
    match e
    case Lit(_) =>
    case Name(x) => NameDefined(names, src, ps, w, x);
    case Prefix(_, a) => ExprDefined(src, file, a, names, ps, w, fuel, why);
    case Infix(_, _, _) => InfixDefined(src, file, e, names, ps, w, fuel, why);
    case Call(_, _) => CallDefined(src, file, e, names, ps, w, fuel, why);
    case _ =>
  }

  lemma {:induction false} InfixDefined(src: Source, file: map<string, Sort>, e: Expr, names: Names,
          ps: Meaning.Scope, w: World, fuel: nat, why: Why)
    requires SourceScoped(src, file) && ExprScoped(e, names) && Covers(names, src, ps, w) && e.Infix?
    ensures Sane(src, w, EvalExpr(src, e, ps, w, fuel))
    ensures SourceQuiet(src, why) && ExprQuiet(e, why) ==> !Fails(EvalExpr(src, e, ps, w, fuel), why)
    decreases 2 * fuel, e, 0
  {
    hide SourceScoped, Covers, EvalPath, EvalArgs, SourceQuiet, ArgsQuiet;
    ExprDefined(src, file, e.l, names, ps, w, fuel, why);
    var ol := EvalExpr(src, e.l, ps, w, fuel);
    if ol.Ok? {
      CoversMore(names, src, ps, w, ol.w);
      ExprDefined(src, file, e.r, names, ps, ol.w, fuel, why);
    }
  }

  lemma {:induction false} CallDefined(src: Source, file: map<string, Sort>, e: Expr, names: Names,
          ps: Meaning.Scope, w: World, fuel: nat, why: Why)
    requires SourceScoped(src, file) && ExprScoped(e, names) && Covers(names, src, ps, w) && e.Call?
    ensures Sane(src, w, EvalExpr(src, e, ps, w, fuel))
    ensures SourceQuiet(src, why) && ExprQuiet(e, why) ==> !Fails(EvalExpr(src, e, ps, w, fuel), why)
    decreases 2 * fuel, e, 0
  {
    hide SourceScoped, Covers, EvalPath, EvalArgs, SourceQuiet, ArgsQuiet;
    ArgsDefined(src, file, e.args, 0, names, ps, w, fuel, why);
    var oa := EvalArgs(src, e.args, 0, ps, w, fuel);
    if oa.Ok? && fuel > 0 {
      RoutineDefined(names, src, ps, w, e.callee.id, |e.args|);
      PathDefined(src, file, e.callee.id, oa.value, oa.w, fuel - 1, why);
    }
  }

  lemma NameDefined(names: Names, src: Source, ps: Meaning.Scope, w: World, x: string)
    requires Covers(names, src, ps, w) && Find(names, x).Some? && !Find(names, x).value.Routine?
    ensures Lookup(x, ps, w).Some?
  {
    hide Find;
  }

  lemma RoutineDefined(names: Names, src: Source, ps: Meaning.Scope, w: World, f: string, n: nat)
    requires Covers(names, src, ps, w) && IsRoutine(names, f, n)
    ensures f in src && |src[f].params| == n
  {
    hide Find;
  }

  lemma {:induction false} ArgsDefined(src: Source, file: map<string, Sort>, args: seq<Expr>, i: nat, names: Names,
          ps: Meaning.Scope, w: World, fuel: nat, why: Why)
    requires i <= |args| && SourceScoped(src, file) && ArgsScoped(args, |args|, names) && Covers(names, src, ps, w)
    ensures Sane(src, w, EvalArgs(src, args, i, ps, w, fuel))
    ensures SourceQuiet(src, why) && ArgsQuiet(args, why) ==> !Fails(EvalArgs(src, args, i, ps, w, fuel), why)
    decreases 2 * fuel, args, |args| - i
  {
    hide SourceScoped, Covers;
    if i < |args| {
      assert ArgScoped(args, i, names);
      ExprDefined(src, file, args[i], names, ps, w, fuel, why);
      var oe := EvalExpr(src, args[i], ps, w, fuel);
      if oe.Ok? {
        CoversMore(names, src, ps, w, oe.w);
        ArgsDefined(src, file, args, i + 1, names, ps, oe.w, fuel, why);
      }
    }
  }

  // A path starts with its parameters, and with the names of all paths.
  lemma PathCovered(src: Source, file: map<string, Sort>, d: PathDef, vs: seq<Value>, w: World)
    requires NamesPaths(file, src) && |vs| == |d.params|
    ensures Covers(ScopesOf(file, d), src, ParamScope(d.params, vs), w)
  {
    var names, ps := ScopesOf(file, d), ParamScope(d.params, vs);
    forall x
      ensures Find(names, x) == if x in d.params then Some(Parameter) else if x in file then Some(file[x]) else None
    {
      assert names[..1] == [file] && [file][..0] == [];
      assert Find([file], x) == if x in file then Some(file[x]) else None;
    }
    forall x | x in d.params
      ensures x in ps
    {
      ParamHasValue(d.params, vs, x, |d.params|);
    }
    hide Find, ParamScope;
  }

  lemma {:induction false} ParamHasValue(params: seq<string>, vs: seq<Value>, x: string, n: nat)
    requires |params| == |vs| && n <= |params| && x in params[..n]
    requires forall j | n <= j < |params| :: params[j] != x
    ensures x in ParamScope(params, vs)
    decreases n
  {
    if params[n - 1] != x {
      ParamHasValue(params, vs, x, n - 1);
    }
  }

  lemma {:induction false} PathDefined(src: Source, file: map<string, Sort>, f: string, vs: seq<Value>, w: World,
          fuel: nat, why: Why)
    requires SourceScoped(src, file) && f in src
    ensures Sane(src, w, EvalPath(src, f, vs, w, fuel))
    ensures SourceQuiet(src, why) && |vs| == |src[f].params| ==> !Fails(EvalPath(src, f, vs, w, fuel), why)
    decreases 2 * fuel + 1
  {
    hide BlockSlots, EvalStmts, SourceQuiet, BlockQuiet, StmtsScoped;
    QuietPath(src, f, why);
    if |vs| == |src[f].params| {
      var d := src[f];
      assert PathScoped(d, file);
      PathCovered(src, file, d, vs, w);
      hide Covers, ParamScope, SourceScoped;
      CoversPushed(ScopesOf(file, d), src, ParamScope(d.params, vs), w);
      StmtsDefined(src, file, d.body, 0, Push(ScopesOf(file, d)), ParamScope(d.params, vs), w, fuel, why);
    }
  }

  lemma QuietPath(src: Source, f: string, why: Why)
    requires f in src
    ensures SourceQuiet(src, why) ==> BlockQuiet(src, src[f].body, why) && (src[f].isFunction ==> !why.FellOff?)
  {
    hide BlockQuiet;
    assert SourceQuiet(src, why) ==> PathQuiet(src, src[f], why);
  }

  lemma {:induction false} StmtsDefined(src: Source, file: map<string, Sort>, ss: seq<Stmt>, i: nat, names: Names,
          ps: Meaning.Scope, w: World, fuel: nat, why: Why)
    requires i <= |ss| && SourceScoped(src, file) && StmtsScoped(ss, |ss|, names)
    requires Covers(NamesAfter(ss, i, names), src, ps, w)
    ensures Sane(src, w, EvalStmts(src, ss, i, ps, w, fuel))
    ensures SourceQuiet(src, why) && BlockQuiet(src, ss, why) ==> !Fails(EvalStmts(src, ss, i, ps, w, fuel), why)
    decreases 2 * fuel, ss, |ss| - i
  {
    hide SourceScoped, Covers, EvalStmt;
    if i < |ss| {
      assert StmtScopedIn(ss, i, names);
      StmtDefined(src, file, ss[i], NamesAfter(ss, i, names), ps, w, fuel, why);
      var os := EvalStmt(src, ss[i], ps, w, fuel);
      if os.Ok? {
        StmtsDefined(src, file, ss, i + 1, names, os.value, os.w, fuel, why);
      }
    }
  }

  lemma {:induction false} BlockDefined(src: Source, file: map<string, Sort>, ss: seq<Stmt>, names: Names,
          ps: Meaning.Scope, w: World, fuel: nat, why: Why)
    requires SourceScoped(src, file) && BlockScoped(ss, names) && Covers(names, src, ps, w)
    ensures Sane(src, w, EvalBlock(src, ss, ps, w, fuel))
    ensures SourceQuiet(src, why) && BlockQuiet(src, ss, why) ==> !Fails(EvalBlock(src, ss, ps, w, fuel), why)
    decreases 2 * fuel, ss, |ss| + 1
  {
    hide SourceScoped, Covers;
    CoversPushed(names, src, ps, w);
    StmtsDefined(src, file, ss, 0, Push(names), ps, w, fuel, why);
  }

  lemma {:induction false} StmtDefined(src: Source, file: map<string, Sort>, s: Stmt, names: Names, ps: Meaning.Scope,
          w: World, fuel: nat, why: Why)
    requires SourceScoped(src, file) && StmtScoped(s, names) && Covers(names, src, ps, w)
    ensures var o := EvalStmt(src, s, ps, w, fuel);
      Sane(src, w, o) && (o.Ok? ==> Covers(NamesBehind(s, names), src, o.value, o.w))
    ensures SourceQuiet(src, why) && StmtQuiet(src, s, why) ==> !Fails(EvalStmt(src, s, ps, w, fuel), why)
    decreases 2 * fuel, s, 0
  {
    hide SourceScoped, Covers, EvalExpr, EvalArgs, EvalItems;
    match s
    case Decl(x, e, isConst) =>
      ExprDefined(src, file, e, names, ps, w, fuel, why);
      var o := EvalExpr(src, e, ps, w, fuel);
      if o.Ok? {
        CoversMore(names, src, ps, w, o.w);
        CoversDeclared(names, src, ps, o.w, x, o.value, isConst);
      }
    case Set(x, e) =>
      ExprDefined(src, file, e, names, ps, w, fuel, why);
      var o := EvalExpr(src, e, ps, w, fuel);
      if o.Ok? {
        VariableDefined(names, src, ps, w, x);
        CoversMore(names, src, ps, w, Store(x, o.value, o.w));
      }
    case Do(e) => ValueDefined(src, file, e, names, ps, w, fuel, why);
    case Return(e) => ExprDefined(src, file, e, names, ps, w, fuel, why);
    case Content(items) =>
      ItemsDefined(src, file, items, 0, names, ps, w, fuel, why);
      var o := EvalItems(src, items, 0, ps, w, fuel);
      if o.Ok? {
        CoversMore(names, src, ps, w, EvalStmt(src, s, ps, w, fuel).w);
      }
    case Divert(target) =>
      if !IsEnd(target) {
        RoutineDefined(names, src, ps, w, target, Find(names, target).value.arity);
      }
    case DivertWith(target, args) =>
      RoutineDefined(names, src, ps, w, target, |args|);
      ArgsDefined(src, file, args, 0, names, ps, w, fuel, why);
    case Choices(_) =>
    case Gather =>
  }

  lemma ValueDefined(src: Source, file: map<string, Sort>, e: Expr, names: Names, ps: Meaning.Scope, w: World,
          fuel: nat, why: Why)
    requires SourceScoped(src, file) && ExprScoped(e, names) && Covers(names, src, ps, w)
    ensures var o := EvalExpr(src, e, ps, w, fuel); Sane(src, w, o) && (o.Ok? ==> Covers(names, src, ps, o.w))
    ensures SourceQuiet(src, why) && ExprQuiet(e, why) ==> !Fails(EvalExpr(src, e, ps, w, fuel), why)
    decreases 2 * fuel, e, 2
  {
    hide SourceScoped, Covers;
    ExprDefined(src, file, e, names, ps, w, fuel, why);
    var o := EvalExpr(src, e, ps, w, fuel);
    if o.Ok? {
      CoversMore(names, src, ps, w, o.w);
    }
  }

  lemma VariableDefined(names: Names, src: Source, ps: Meaning.Scope, w: World, x: string)
    requires Covers(names, src, ps, w) && Find(names, x).Some? && Find(names, x).value.Variable?
    ensures x in w.globals
  {
    hide Find;
  }

  lemma {:induction false} ItemsDefined(src: Source, file: map<string, Sort>, items: seq<Item>, i: nat, names: Names,
          ps: Meaning.Scope, w: World, fuel: nat, why: Why)
    requires i <= |items| && SourceScoped(src, file) && ItemsScoped(items, |items|, names) && Covers(names, src, ps, w)
    ensures Sane(src, w, EvalItems(src, items, i, ps, w, fuel))
    ensures SourceQuiet(src, why) && ItemsQuiet(src, items, why) ==> !Fails(EvalItems(src, items, i, ps, w, fuel), why)
    decreases 2 * fuel, items, |items| - i
  {
    hide SourceScoped, Covers, EvalItem;
    if i < |items| {
      assert ItemScopedIn(items, i, names);
      ItemDefined(src, file, items[i], names, ps, w, fuel, why);
      var o := EvalItem(src, items[i], ps, w, fuel);
      if o.Ok? {
        CoversMore(names, src, ps, w, o.w);
        ItemsDefined(src, file, items, i + 1, names, ps, o.w, fuel, why);
      }
    }
  }

  lemma {:induction false} ItemDefined(src: Source, file: map<string, Sort>, it: Item, names: Names, ps: Meaning.Scope,
          w: World, fuel: nat, why: Why)
    requires SourceScoped(src, file) && ItemScoped(it, names) && Covers(names, src, ps, w)
    ensures Sane(src, w, EvalItem(src, it, ps, w, fuel))
    ensures SourceQuiet(src, why) && ItemQuiet(src, it, why) ==> !Fails(EvalItem(src, it, ps, w, fuel), why)
    decreases 2 * fuel, it, 2
  {
    hide SourceScoped, Covers, EvalExpr, EvalBlock, EvalTests, SourceQuiet;
    var inner := Push(names);
    CoversPushed(names, src, ps, w);
    match it
    case Text(_) =>
    case Logic(e) => ExprDefined(src, file, e, names, ps, w, fuel, why);
    case Glue =>
    case If(cond, body, els) =>
      ValueDefined(src, file, cond, inner, ps, w, fuel, why);
      var o := EvalExpr(src, cond, ps, w, fuel);
      if o.Ok? {
        BlockDefined(src, file, if Falsey(o.value) then els else body, inner, ps, o.w, fuel, why);
      }
    case MultiIf(_, _) => MultiIfDefined(src, file, it, names, ps, w, fuel, why);
    case Switch(_, _, _) => SwitchDefined(src, file, it, names, ps, w, fuel, why);
  }

  lemma {:induction false} MultiIfDefined(src: Source, file: map<string, Sort>, it: Item, names: Names,
          ps: Meaning.Scope, w: World, fuel: nat, why: Why)
    requires SourceScoped(src, file) && ItemScoped(it, names) && Covers(names, src, ps, w) && it.MultiIf?
    ensures Sane(src, w, EvalItem(src, it, ps, w, fuel))
    ensures SourceQuiet(src, why) && ItemQuiet(src, it, why) ==> !Fails(EvalItem(src, it, ps, w, fuel), why)
    decreases 2 * fuel, it, 1
  {
    hide SourceScoped, Covers, EvalExpr, EvalBlock, EvalTests, SourceQuiet, BlockQuiet;
    var inner := Push(names);
    CoversPushed(names, src, ps, w);
    TestsDefined(src, file, it.cases, 0, inner, ps, w, fuel, why);
    var o := EvalTests(src, it.cases, 0, ps, w, fuel);
    if o.Ok? {
      CoversMore(inner, src, ps, w, o.w);
      SelectedDefined(src, file, it, o.value, inner, ps, o.w, fuel, why);
    }
  }

  lemma {:induction false} SwitchDefined(src: Source, file: map<string, Sort>, it: Item, names: Names,
          ps: Meaning.Scope, w: World, fuel: nat, why: Why)
    requires SourceScoped(src, file) && ItemScoped(it, names) && Covers(names, src, ps, w) && it.Switch?
    ensures Sane(src, w, EvalItem(src, it, ps, w, fuel))
    ensures SourceQuiet(src, why) && ItemQuiet(src, it, why) ==> !Fails(EvalItem(src, it, ps, w, fuel), why)
    decreases 2 * fuel, it, 1
  {
    hide SourceScoped, Covers, EvalExpr, EvalBlock, EvalTests, SourceQuiet, BlockQuiet, ExprQuiet;
    var inner := Push(names);
    CoversPushed(names, src, ps, w);
    ValueDefined(src, file, it.subject, inner, ps, w, fuel, why);
    var o := EvalExpr(src, it.subject, ps, w, fuel);
    if o.Ok? {
      SelectedDefined(src, file, it, Matching(it.cases, 0, o.value), inner, ps, o.w, fuel, why);
    }
  }

  lemma {:induction false} SelectedDefined(src: Source, file: map<string, Sort>, it: Item, k: nat, names: Names,
          ps: Meaning.Scope, w: World, fuel: nat, why: Why)
    requires SourceScoped(src, file) && Covers(names, src, ps, w) && (it.MultiIf? || it.Switch?) && k <= |it.cases|
    requires BodiesScoped(it.cases, |it.cases|, names) && FinalScoped(it.final, names)
    ensures k < |it.cases| ==> Sane(src, w, EvalBlock(src, it.cases[k].body, ps, w, fuel))
    ensures it.final.Else? ==> Sane(src, w, EvalBlock(src, it.final.body, ps, w, fuel))
    ensures SourceQuiet(src, why) && CasesQuiet(src, it.cases, why) && k < |it.cases| ==>
      !Fails(EvalBlock(src, it.cases[k].body, ps, w, fuel), why)
    ensures SourceQuiet(src, why) && it.final.Else? && FinalQuiet(src, it.final, why) ==>
      !Fails(EvalBlock(src, it.final.body, ps, w, fuel), why)
    ensures it.final.NoElse? && FinalQuiet(src, it.final, why) ==> !why.NoBranch?
    decreases 2 * fuel, it, 0
  {
    hide SourceScoped, Covers, EvalBlock;
    if k < |it.cases| {
      assert BodyScoped(it.cases, k, names);
      assert CasesQuiet(src, it.cases, why) ==> CaseQuiet(src, it.cases[k], why);
      BlockDefined(src, file, it.cases[k].body, names, ps, w, fuel, why);
    }
    if it.final.Else? {
      BlockDefined(src, file, it.final.body, names, ps, w, fuel, why);
    }
  }

  lemma {:induction false} TestsDefined(src: Source, file: map<string, Sort>, cases: seq<Case>, i: nat, names: Names,
          ps: Meaning.Scope, w: World, fuel: nat, why: Why)
    requires i <= |cases| && SourceScoped(src, file) && TestsScoped(cases, |cases|, names) && Covers(names, src, ps, w)
    ensures Sane(src, w, EvalTests(src, cases, i, ps, w, fuel))
    ensures SourceQuiet(src, why) && CasesQuiet(src, cases, why) ==> !Fails(EvalTests(src, cases, i, ps, w, fuel), why)
    decreases 2 * fuel, cases, |cases| - i
  {
    hide SourceScoped, Covers, EvalExpr;
    if i < |cases| {
      assert TestScoped(cases, i, names);
      assert CasesQuiet(src, cases, why) ==> CaseQuiet(src, cases[i], why);
      ValueDefined(src, file, cases[i].test, names, ps, w, fuel, why);
      var o := EvalExpr(src, cases[i].test, ps, w, fuel);
      if o.Ok? {
        TestsDefined(src, file, cases, i + 1, names, ps, o.w, fuel, why);
      }
    }
  }

  // No scoped story ever looks for a variable that was not stored, or for a path that does not exist.
  lemma {:induction false} StoryDefined(src: Source, file: map<string, Sort>, f: string, vs: seq<Value>, w: World,
          fuel: nat, why: Why)
    requires SourceScoped(src, file) && f in src
    ensures Sane(src, w, EvalStory(src, f, vs, w, fuel))
    ensures SourceQuiet(src, why) && |vs| == |src[f].params| && !why.Overflow? ==>
      EvalStory(src, f, vs, w, fuel) != Bad(why)
    decreases fuel
  {
    hide SourceScoped, EvalPath;
    PathDefined(src, file, f, vs, w, fuel, why);
    var o := EvalPath(src, f, vs, w, fuel);
    if o.Gone? && o.leave.To? && fuel > 0 {
      StoryDefined(src, file, o.leave.path, o.leave.args, o.w, fuel - 1, why);
    }
  }
}
