// Where the code of each tree lies inside a finished path: a relation between a tree and the bytes,
// constants and stack slots that carry it out.  Positions follow from the lengths of the trees.

module Layout {
  import opened Wrappers
  import opened Values
  import opened Ast
  import opened Shape
  import opened Opcodes
  import M = Machine

  type Slots = map<string, nat>

  // ----- single instructions -----

  ghost predicate OpAt(c: seq<byte>, p: nat, op: byte) {
    p < |c| && c[p] == op
  }

  ghost predicate SlotAt(c: seq<byte>, p: nat, op: byte, slot: nat) {
    p + 1 < |c| && c[p] == op && c[p + 1] == slot
  }

  // The operand at p indexes v in the pool.
  ghost predicate ConstAt(c: seq<byte>, p: nat, op: byte, pool: seq<Value>, v: Value) {
    p + 1 < |c| && c[p] == op && c[p + 1] < |pool| && pool[c[p + 1]] == v
  }

  // The jump at p leads to t.
  ghost predicate JumpAt(c: seq<byte>, p: nat, op: byte, t: nat) {
    p + 2 < |c| && c[p] == op && Word(c, p + 1) + p + 3 == t
  }

  // ----- expressions -----

  function BinaryByte(op: InfixOp): byte {
    match op
    case Add => ADD case Sub => SUB case Mul => MUL case Div => DIV case Mod => MOD
    case Eq => CMP_EQ case Neq => CMP_EQ
    case Lt => CMP_LT case Gt => CMP_GT case Le => CMP_LTE case Ge => CMP_GTE
    case _ => NOT
  }

  ghost predicate ExprAt(e: Expr, c: seq<byte>, at: nat, pool: seq<Value>, vis: Slots)
    decreases e, 0
  {
    match e
    case Lit(v) => if v.Bool? then OpAt(c, at, if v.b then TRUE else FALSE) else ConstAt(c, at, CONST, pool, v)
    case Name(x) => if x in vis then SlotAt(c, at, LOAD, vis[x]) else ConstAt(c, at, LOAD_GLOBAL, pool, Str(x))
    case Prefix(op, a) =>
      && ExprAt(a, c, at, pool, vis)
      && OpAt(c, at + ExprLen(a), if op.Not? then NOT else NEG)
    case Infix(op, l, r) =>
      var m := at + ExprLen(l);
      && ExprAt(l, c, at, pool, vis)
      && if op.And? || op.Or? then
           && JumpAt(c, m, if op.And? then JMP_F else JMP_T, at + ExprLen(e))
           && OpAt(c, m + 3, POP)
           && ExprAt(r, c, m + 4, pool, vis)
         else
           && !op.Contains? && !op.Assign?
           && ExprAt(r, c, m, pool, vis)
           && OpAt(c, m + ExprLen(r), BinaryByte(op))
           && (op.Neq? ==> OpAt(c, m + ExprLen(r) + 1, NOT))
    case Call(Name(f), args) =>
      && ArgsAt(args, |args|, c, at, pool, vis)
      && ConstAt(c, at + ArgsLen(args, |args|), CALL, pool, Str(f))
    case _ => false
  }

  ghost predicate ArgsAt(args: seq<Expr>, n: nat, c: seq<byte>, at: nat, pool: seq<Value>, vis: Slots)
    requires n <= |args|
    decreases args, 1
  {
    forall i | 0 <= i < n :: ArgIn(args, i, c, at, pool, vis)
  }

  ghost predicate ArgIn(args: seq<Expr>, i: nat, c: seq<byte>, at: nat, pool: seq<Value>, vis: Slots)
    requires i < |args|
    decreases args, 0
  {
    ExprAt(args[i], c, at + ArgsLen(args, i), pool, vis)
  }

  // ----- statements; base is the next free stack slot -----

  // A declaration hides the parameter it is named after.
  function Hide(s: Stmt, vis: Slots): Slots {
    if s.Decl? then vis - {s.name} else vis
  }

  function VisAfter(ss: seq<Stmt>, i: nat, vis: Slots): Slots
    requires i <= |ss|
  {
    if i == 0 then vis else Hide(ss[i - 1], VisAfter(ss, i - 1, vis))
  }

  ghost predicate StmtsAt(ss: seq<Stmt>, n: nat, c: seq<byte>, at: nat, pool: seq<Value>, vis: Slots, base: nat)
    requires n <= |ss|
    decreases ss, 1
  {
    forall i | 0 <= i < n :: StmtIn(ss, i, c, at, pool, vis, base)
  }

  ghost predicate StmtIn(ss: seq<Stmt>, i: nat, c: seq<byte>, at: nat, pool: seq<Value>, vis: Slots, base: nat)
    requires i < |ss|
    decreases ss, 0
  {
    StmtAt(ss[i], c, at + StmtsLen(ss, i), pool, VisAfter(ss, i, vis), base + StmtsSlots(ss, i))
  }

  ghost predicate BlockAt(ss: seq<Stmt>, c: seq<byte>, at: nat, pool: seq<Value>, vis: Slots, base: nat)
    decreases ss, 2
  {
    StmtsAt(ss, |ss|, c, at, pool, vis, base)
  }

  ghost predicate StmtAt(s: Stmt, c: seq<byte>, at: nat, pool: seq<Value>, vis: Slots, base: nat)
    decreases s, 0
  {
    match s
    case Decl(x, e, _) =>
      ExprAt(e, c, at, pool, vis) && StoreAt(x, c, at + ExprLen(e), pool)
    case Set(x, e) =>
      x !in vis && ExprAt(e, c, at, pool, vis) && StoreAt(x, c, at + ExprLen(e), pool)
    case Do(e) => ExprAt(e, c, at, pool, vis) && OpAt(c, at + ExprLen(e), POP)
    case Return(e) => ExprAt(e, c, at, pool, vis) && OpAt(c, at + ExprLen(e), RET)
    case Content(items) =>
      && ItemsAt(items, |items|, c, at, pool, vis, base)
      && (EndsLine(items) ==> OpAt(c, at + ItemsLen(items, |items|), LINE))
    case Divert(target) =>
      if IsEnd(target) then OpAt(c, at, EXIT) else ConstAt(c, at, DIVERT, pool, Str(target))
    case DivertWith(target, args) =>
      && ArgsAt(args, |args|, c, at, pool, vis)
      && ConstAt(c, at + ArgsLen(args, |args|), DIVERT, pool, Str(target))
    case Choices(bs) =>
      var picks := at + 2 + OffersLen(bs, |bs|);
      var bodies := picks + PicksLen(|bs|) + 1;
      && OpAt(c, at, FLUSH)
      && OffersAt(bs, |bs|, c, at + 1, pool)
      && OpAt(c, picks - 1, FLUSH)
      && PicksAt(bs, |bs|, c, picks, bodies, pool)
      && OpAt(c, bodies - 1, EXIT)
      && BranchesAt(bs, |bs|, c, bodies, pool, vis, base)
    case Gather => true
  }

  ghost predicate StoreAt(x: string, c: seq<byte>, p: nat, pool: seq<Value>) {
    ConstAt(c, p, STORE_GLOBAL, pool, Str(x)) && OpAt(c, p + 2, POP)
  }

  // A piece of text: load it and write it.
  ghost predicate TextAt(s: string, c: seq<byte>, p: nat, pool: seq<Value>) {
    ConstAt(c, p, CONST, pool, Str(s)) && OpAt(c, p + 2, CONTENT)
  }

  ghost predicate PieceAt(s: Option<string>, c: seq<byte>, p: nat, pool: seq<Value>) {
    s.Some? ==> TextAt(s.value, c, p, pool)
  }

  // ----- content -----

  ghost predicate ItemsAt(items: seq<Item>, n: nat, c: seq<byte>, at: nat, pool: seq<Value>, vis: Slots, base: nat)
    requires n <= |items|
    decreases items, 1
  {
    forall i | 0 <= i < n :: ItemIn(items, i, c, at, pool, vis, base)
  }

  ghost predicate ItemIn(items: seq<Item>, i: nat, c: seq<byte>, at: nat, pool: seq<Value>, vis: Slots, base: nat)
    requires i < |items|
    decreases items, 0
  {
    ItemAt(items[i], c, at + ItemsLen(items, i), pool, vis, base + ItemsSlots(items, i))
  }

  ghost predicate ItemAt(it: Item, c: seq<byte>, at: nat, pool: seq<Value>, vis: Slots, base: nat)
    decreases it, 0
  {
    match it
    case Text(s) => TextAt(s, c, at, pool)
    case Logic(e) => ExprAt(e, c, at, pool, vis) && OpAt(c, at + ExprLen(e), CONTENT)
    case Glue => OpAt(c, at, GLUE)
    case If(cond, body, els) =>
      var p := at + ExprLen(cond);
      var q := p + 4 + BlockLen(body);
      && ExprAt(cond, c, at, pool, vis)
      && JumpAt(c, p, JMP_F, q + 3)
      && OpAt(c, p + 3, POP)
      && BlockAt(body, c, p + 4, pool, vis, base)
      && JumpAt(c, q, JMP, at + ItemLen(it))
      && OpAt(c, q + 3, POP)
      && BlockAt(els, c, q + 4, pool, vis, base + BlockSlots(body))
    case MultiIf(cases, final) =>
      var bodies := at + TestsLen(cases, |cases|) + ElseJump(final);
      && TestsAt(cases, |cases|, c, at, bodies, pool, vis)
      && (final.Else? ==> JumpAt(c, bodies - 3, JMP, bodies + BodiesLen(cases, |cases|)))
      && BodiesAt(cases, |cases|, c, bodies, at + ItemLen(it), pool, vis, base)
      && FinalAt(cases, final, c, bodies, at + ItemLen(it), pool, vis, base)
    case Switch(e, cases, final) =>
      var p := at + ExprLen(e);
      var bodies := p + 3 + ArmsLen(cases, |cases|) + ElseJump(final);
      && ExprAt(e, c, at, pool, vis)
      && SlotAt(c, p, STORE, base)
      && OpAt(c, p + 2, POP)
      && ArmsAt(cases, |cases|, c, p + 3, bodies, pool, base)
      && (final.Else? ==> JumpAt(c, bodies - 3, JMP, bodies + BodiesLen(cases, |cases|)))
      && BodiesAt(cases, |cases|, c, bodies, at + ItemLen(it), pool, vis, base + 1)
      && FinalAt(cases, final, c, bodies, at + ItemLen(it), pool, vis, base + 1)
  }

  function ElseJump(final: Final): nat { if final.Else? then 3 else 0 }

  // The first n tests of a multi-branch conditional, each jumping to its own body.
  ghost predicate TestsAt(cases: seq<Case>, n: nat, c: seq<byte>, at: nat, bodies: nat, pool: seq<Value>, vis: Slots)
    requires n <= |cases|
    decreases cases, 1
  {
    forall i | 0 <= i < n :: TestIn(cases, i, c, at, bodies, pool, vis)
  }

  ghost predicate TestIn(cases: seq<Case>, i: nat, c: seq<byte>, at: nat, bodies: nat, pool: seq<Value>, vis: Slots)
    requires i < |cases|
    decreases cases, 0
  {
    var p := at + TestsLen(cases, i);
    var q := p + ExprLen(cases[i].test);
    && ExprAt(cases[i].test, c, p, pool, vis)
    && JumpAt(c, q, JMP_T, bodies + BodiesLen(cases, i))
    && OpAt(c, q + 3, POP)
  }

  // The first n cases of a switch: the subject's slot is compared with a literal.
  ghost predicate ArmsAt(cases: seq<Case>, n: nat, c: seq<byte>, at: nat, bodies: nat, pool: seq<Value>, slot: nat)
    requires n <= |cases|
  {
    forall i | 0 <= i < n :: ArmIn(cases, i, c, at, bodies, pool, slot)
  }

  ghost predicate ArmIn(cases: seq<Case>, i: nat, c: seq<byte>, at: nat, bodies: nat, pool: seq<Value>, slot: nat)
    requires i < |cases|
  {
    var p := at + ArmsLen(cases, i);
    var q := p + 2 + ExprLen(cases[i].test);
    && IsCaseLabel(cases[i].test)
    && SlotAt(c, p, LOAD, slot)
    && ExprAt(cases[i].test, c, p + 2, pool, map[])
    && OpAt(c, q, CMP_EQ)
    && JumpAt(c, q + 1, JMP_T, bodies + BodiesLen(cases, i))
    && OpAt(c, q + 4, POP)
  }

  ghost predicate BodiesAt(cases: seq<Case>, n: nat, c: seq<byte>, bodies: nat, exit: nat, pool: seq<Value>,
          vis: Slots, base: nat)
    requires n <= |cases|
    decreases cases, 1
  {
    forall i | 0 <= i < n :: BodyIn(cases, i, c, bodies, exit, pool, vis, base)
  }

  ghost predicate BodyIn(cases: seq<Case>, i: nat, c: seq<byte>, bodies: nat, exit: nat, pool: seq<Value>,
          vis: Slots, base: nat)
    requires i < |cases|
    decreases cases, 0
  {
    var p := bodies + BodiesLen(cases, i);
    var body := cases[i].body;
    && OpAt(c, p, POP)
    && BlockAt(body, c, p + 1, pool, vis, base + BodiesSlots(cases, i))
    && JumpAt(c, p + 1 + BlockLen(body), JMP, exit)
  }

  ghost predicate FinalAt(cases: seq<Case>, final: Final, c: seq<byte>, bodies: nat, exit: nat, pool: seq<Value>,
          vis: Slots, base: nat)
    decreases final, 0
  {
    var p := bodies + BodiesLen(cases, |cases|);
    final.Else? ==>
      && BlockAt(final.body, c, p, pool, vis, base + BodiesSlots(cases, |cases|))
      && JumpAt(c, p + BlockLen(final.body), JMP, exit)
  }

  // ----- choices -----

  ghost predicate OffersAt(bs: seq<Branch>, n: nat, c: seq<byte>, at: nat, pool: seq<Value>)
    requires n <= |bs|
  {
    forall i | 0 <= i < n :: OfferIn(bs, i, c, at, pool)
  }

  ghost predicate OfferIn(bs: seq<Branch>, i: nat, c: seq<byte>, at: nat, pool: seq<Value>)
    requires i < |bs|
  {
    var b := bs[i];
    var p := at + OffersLen(bs, i);
    var q := p + PieceLen(b.start);
    var r := q + PieceLen(b.option);
    && PieceAt(b.start, c, p, pool)
    && PieceAt(b.option, c, q, pool)
    && ConstAt(c, r, CONST, pool, Int(i))
    && OpAt(c, r + 2, CHOICE)
  }

  ghost predicate PicksAt(bs: seq<Branch>, n: nat, c: seq<byte>, at: nat, bodies: nat, pool: seq<Value>)
    requires n <= |bs|
  {
    forall i | 0 <= i < n :: PickIn(bs, i, c, at, bodies, pool)
  }

  ghost predicate PickIn(bs: seq<Branch>, i: nat, c: seq<byte>, at: nat, bodies: nat, pool: seq<Value>)
    requires i < |bs|
  {
    var p := at + PicksLen(i);
    && OpAt(c, p, LOAD_CHOICE_ID)
    && ConstAt(c, p + 1, CONST, pool, Int(i))
    && OpAt(c, p + 3, CMP_EQ)
    && JumpAt(c, p + 4, JMP_T, bodies + BranchesLen(bs, i))
    && OpAt(c, p + 7, POP)
  }

  ghost predicate BranchesAt(bs: seq<Branch>, n: nat, c: seq<byte>, at: nat, pool: seq<Value>, vis: Slots, base: nat)
    requires n <= |bs|
    decreases bs, 1
  {
    forall i | 0 <= i < n :: BranchIn(bs, i, c, at, pool, vis, base)
  }

  ghost predicate BranchIn(bs: seq<Branch>, i: nat, c: seq<byte>, at: nat, pool: seq<Value>, vis: Slots, base: nat)
    requires i < |bs|
    decreases bs, 0
  {
    var b := bs[i];
    var p := at + BranchesLen(bs, i);
    var q := p + 1 + PieceLen(b.start);
    var r := q + PieceLen(b.inner);
    && OpAt(c, p, POP)
    && PieceAt(b.start, c, p + 1, pool)
    && PieceAt(b.inner, c, q, pool)
    && OpAt(c, r, FLUSH)
    && BlockAt(b.body, c, r + 1, pool, vis, base + BranchesSlots(bs, i))
  }

  // ----- paths -----

  ghost predicate Distinct(names: seq<string>) {
    forall i, j | 0 <= i < j < |names| :: names[i] != names[j]
  }

  function ParamSlots(params: seq<string>): Slots {
    map i | 0 <= i < |params| && forall j | i < j < |params| :: params[j] != params[i] :: params[i] := i
  }

  ghost predicate PathAt(d: PathDef, p: M.Path) {
    && Distinct(d.params)
    && p.arity == |d.params|
    && p.locals == BlockSlots(d.body)
    && BlockAt(d.body, p.code, 0, p.pool, ParamSlots(d.params), |d.params|)
    && |p.code| == BlockLen(d.body) + 1
    && p.code[|p.code| - 1] == (if d.isFunction then RET else EXIT)
  }

  ghost predicate CompiledPath(src: map<string, PathDef>, prog: M.Program, f: string) {
    f in src && f in prog && PathAt(src[f], prog[f])
  }

  // Every path of the source has its code, and there is no other code.
  ghost predicate Compiled(src: map<string, PathDef>, prog: M.Program) {
    && prog.Keys == src.Keys
    && forall f {:trigger CompiledPath(src, prog, f)} | f in src :: CompiledPath(src, prog, f)
  }
}
