// Code that was laid out stays laid out while more code and more constants are appended.

module LayoutFacts {
  import opened Wrappers
  import opened Values
  import opened Ast
  import opened Shape
  import opened Opcodes
  import opened Layout

  ghost predicate Grown(c: seq<byte>, c2: seq<byte>, pool: seq<Value>, pool2: seq<Value>) {
    c <= c2 && pool <= pool2
  }

  lemma JumpKeeps(c: seq<byte>, c2: seq<byte>, p: nat, op: byte, t: nat)
    requires JumpAt(c, p, op, t) && c <= c2
    ensures JumpAt(c2, p, op, t)
  {
  }

  lemma {:induction false} ExprKeeps(e: Expr, c: seq<byte>, c2: seq<byte>, at: nat, pool: seq<Value>,
          pool2: seq<Value>, vis: Slots)
    requires ExprAt(e, c, at, pool, vis) && Grown(c, c2, pool, pool2)
    ensures ExprAt(e, c2, at, pool2, vis)
    decreases e, 0
  {
    hide ExprLen, ArgsLen;
    match e
    case Lit(v) =>
    case Name(_) =>
    case Prefix(_, a) => ExprKeeps(a, c, c2, at, pool, pool2, vis);
    case Infix(op, l, r) =>
      ExprKeeps(l, c, c2, at, pool, pool2, vis);
      ExprKeeps(r, c, c2, if op.And? || op.Or? then at + ExprLen(l) + 4 else at + ExprLen(l), pool, pool2, vis);
    case Call(_, args) => ArgsKeep(args, |args|, c, c2, at, pool, pool2, vis);
    case Select(_, _) =>
    case Missing =>
  }

  lemma {:induction false} ArgsKeep(args: seq<Expr>, n: nat, c: seq<byte>, c2: seq<byte>, at: nat,
          pool: seq<Value>, pool2: seq<Value>, vis: Slots)
    requires n <= |args| && ArgsAt(args, n, c, at, pool, vis) && Grown(c, c2, pool, pool2)
    ensures ArgsAt(args, n, c2, at, pool2, vis)
    decreases args, 1
  {
    hide ExprAt;
    forall i | 0 <= i < n
      ensures ArgIn(args, i, c2, at, pool2, vis)
    {
      assert ArgIn(args, i, c, at, pool, vis);
      ExprKeeps(args[i], c, c2, at + ArgsLen(args, i), pool, pool2, vis);
    }
  }

  lemma {:induction false} StmtsKeep(ss: seq<Stmt>, n: nat, c: seq<byte>, c2: seq<byte>, at: nat, pool: seq<Value>,
          pool2: seq<Value>, vis: Slots, base: nat)
    requires n <= |ss| && StmtsAt(ss, n, c, at, pool, vis, base) && Grown(c, c2, pool, pool2)
    ensures StmtsAt(ss, n, c2, at, pool2, vis, base)
    decreases ss, 1
  {
    hide StmtAt;
    forall i | 0 <= i < n
      ensures StmtIn(ss, i, c2, at, pool2, vis, base)
    {
      assert StmtIn(ss, i, c, at, pool, vis, base);
      StmtKeeps(ss[i], c, c2, at + StmtsLen(ss, i), pool, pool2, VisAfter(ss, i, vis), base + StmtsSlots(ss, i));
    }
  }

  lemma {:induction false} BlockKeeps(ss: seq<Stmt>, c: seq<byte>, c2: seq<byte>, at: nat, pool: seq<Value>,
          pool2: seq<Value>, vis: Slots, base: nat)
    requires BlockAt(ss, c, at, pool, vis, base) && Grown(c, c2, pool, pool2)
    ensures BlockAt(ss, c2, at, pool2, vis, base)
    decreases ss, 2
  {
    StmtsKeep(ss, |ss|, c, c2, at, pool, pool2, vis, base);
  }

  lemma {:induction false} StmtKeeps(s: Stmt, c: seq<byte>, c2: seq<byte>, at: nat, pool: seq<Value>,
          pool2: seq<Value>, vis: Slots, base: nat)
    requires StmtAt(s, c, at, pool, vis, base) && Grown(c, c2, pool, pool2)
    ensures StmtAt(s, c2, at, pool2, vis, base)
    decreases s, 0
  {
    hide ExprAt, ArgsAt, ItemsAt, ExprLen, ArgsLen, ItemsLen, OffersLen, BranchesLen, PieceLen, BranchesAt;
    match s
    case Decl(x, e, _) => ExprKeeps(e, c, c2, at, pool, pool2, vis);
    case Set(x, e) => ExprKeeps(e, c, c2, at, pool, pool2, vis);
    case Do(e) => ExprKeeps(e, c, c2, at, pool, pool2, vis);
    case Return(e) => ExprKeeps(e, c, c2, at, pool, pool2, vis);
    case Content(items) => ItemsKeep(items, |items|, c, c2, at, pool, pool2, vis, base);
    case Divert(_) =>
    case DivertWith(_, args) => ArgsKeep(args, |args|, c, c2, at, pool, pool2, vis);
    case Choices(bs) =>
      var picks := at + 2 + OffersLen(bs, |bs|);
      var bodies := picks + PicksLen(|bs|) + 1;
      OffersKeep(bs, |bs|, c, c2, at + 1, pool, pool2);
      PicksKeep(bs, |bs|, c, c2, picks, bodies, pool, pool2);
      BranchesKeep(bs, |bs|, c, c2, bodies, pool, pool2, vis, base);
    case Gather =>
  }

  lemma {:induction false} ItemsKeep(items: seq<Item>, n: nat, c: seq<byte>, c2: seq<byte>, at: nat,
          pool: seq<Value>, pool2: seq<Value>, vis: Slots, base: nat)
    requires n <= |items| && ItemsAt(items, n, c, at, pool, vis, base) && Grown(c, c2, pool, pool2)
    ensures ItemsAt(items, n, c2, at, pool2, vis, base)
    decreases items, 1
  {
    hide ItemAt;
    forall i | 0 <= i < n
      ensures ItemIn(items, i, c2, at, pool2, vis, base)
    {
      assert ItemIn(items, i, c, at, pool, vis, base);
      ItemKeeps(items[i], c, c2, at + ItemsLen(items, i), pool, pool2, vis, base + ItemsSlots(items, i));
    }
  }

  lemma {:induction false} ItemKeeps(it: Item, c: seq<byte>, c2: seq<byte>, at: nat, pool: seq<Value>,
          pool2: seq<Value>, vis: Slots, base: nat)
    requires ItemAt(it, c, at, pool, vis, base) && Grown(c, c2, pool, pool2)
    ensures ItemAt(it, c2, at, pool2, vis, base)
    decreases it, 0
  {
    hide ExprAt, BlockAt, ExprLen, BlockLen, TestsLen, ArmsLen, BodiesLen, BlockSlots, TestsAt, BodiesAt, ArmsAt,
         FinalAt;
    match it
    case Text(_) =>
    case Logic(e) => ExprKeeps(e, c, c2, at, pool, pool2, vis);
    case Glue =>
    case If(cond, body, els) =>
      ExprKeeps(cond, c, c2, at, pool, pool2, vis);
      BlockKeeps(body, c, c2, at + ExprLen(cond) + 4, pool, pool2, vis, base);
      BlockKeeps(els, c, c2, at + ExprLen(cond) + 8 + BlockLen(body), pool, pool2, vis, base + BlockSlots(body));
    case MultiIf(cases, final) =>
      var bodies := at + TestsLen(cases, |cases|) + ElseJump(final);
      TestsKeep(cases, |cases|, c, c2, at, bodies, pool, pool2, vis);
      BodiesKeep(cases, |cases|, c, c2, bodies, at + ItemLen(it), pool, pool2, vis, base);
      FinalKeeps(cases, final, c, c2, bodies, at + ItemLen(it), pool, pool2, vis, base);
    case Switch(e, cases, final) =>
      var p := at + ExprLen(e);
      var bodies := p + 3 + ArmsLen(cases, |cases|) + ElseJump(final);
      ExprKeeps(e, c, c2, at, pool, pool2, vis);
      ArmsKeep(cases, |cases|, c, c2, p + 3, bodies, pool, pool2, base);
      BodiesKeep(cases, |cases|, c, c2, bodies, at + ItemLen(it), pool, pool2, vis, base + 1);
      FinalKeeps(cases, final, c, c2, bodies, at + ItemLen(it), pool, pool2, vis, base + 1);
  }

  lemma {:induction false} TestsKeep(cases: seq<Case>, n: nat, c: seq<byte>, c2: seq<byte>, at: nat, bodies: nat,
          pool: seq<Value>, pool2: seq<Value>, vis: Slots)
    requires n <= |cases| && TestsAt(cases, n, c, at, bodies, pool, vis) && Grown(c, c2, pool, pool2)
    ensures TestsAt(cases, n, c2, at, bodies, pool2, vis)
    decreases cases, 1
  {
    hide ExprAt, ExprLen, BodiesLen;
    forall i | 0 <= i < n
      ensures TestIn(cases, i, c2, at, bodies, pool2, vis)
    {
      assert TestIn(cases, i, c, at, bodies, pool, vis);
      ExprKeeps(cases[i].test, c, c2, at + TestsLen(cases, i), pool, pool2, vis);
    }
  }

  lemma {:induction false} ArmsKeep(cases: seq<Case>, n: nat, c: seq<byte>, c2: seq<byte>, at: nat, bodies: nat,
          pool: seq<Value>, pool2: seq<Value>, slot: nat)
    requires n <= |cases| && ArmsAt(cases, n, c, at, bodies, pool, slot) && Grown(c, c2, pool, pool2)
    ensures ArmsAt(cases, n, c2, at, bodies, pool2, slot)
  {
    hide ExprAt, ExprLen, BodiesLen;
    forall i | 0 <= i < n
      ensures ArmIn(cases, i, c2, at, bodies, pool2, slot)
    {
      assert ArmIn(cases, i, c, at, bodies, pool, slot);
      ExprKeeps(cases[i].test, c, c2, at + ArmsLen(cases, i) + 2, pool, pool2, map[]);
    }
  }

  lemma {:induction false} BodiesKeep(cases: seq<Case>, n: nat, c: seq<byte>, c2: seq<byte>, bodies: nat,
          exit: nat, pool: seq<Value>, pool2: seq<Value>, vis: Slots, base: nat)
    requires n <= |cases| && BodiesAt(cases, n, c, bodies, exit, pool, vis, base) && Grown(c, c2, pool, pool2)
    ensures BodiesAt(cases, n, c2, bodies, exit, pool2, vis, base)
    decreases cases, 1
  {
    hide BlockAt, BlockLen, BlockSlots;
    forall i | 0 <= i < n
      ensures BodyIn(cases, i, c2, bodies, exit, pool2, vis, base)
    {
      assert BodyIn(cases, i, c, bodies, exit, pool, vis, base);
      BlockKeeps(cases[i].body, c, c2, bodies + BodiesLen(cases, i) + 1, pool, pool2, vis,
                 base + BodiesSlots(cases, i));
    }
  }

  lemma {:induction false} FinalKeeps(cases: seq<Case>, final: Final, c: seq<byte>, c2: seq<byte>, bodies: nat,
          exit: nat, pool: seq<Value>, pool2: seq<Value>, vis: Slots, base: nat)
    requires FinalAt(cases, final, c, bodies, exit, pool, vis, base) && Grown(c, c2, pool, pool2)
    ensures FinalAt(cases, final, c2, bodies, exit, pool2, vis, base)
    decreases final, 0
  {
    hide BlockAt, BlockLen, BodiesLen, BodiesSlots;
    if final.Else? {
      BlockKeeps(final.body, c, c2, bodies + BodiesLen(cases, |cases|), pool, pool2, vis,
                 base + BodiesSlots(cases, |cases|));
    }
  }

  lemma OffersKeep(bs: seq<Branch>, n: nat, c: seq<byte>, c2: seq<byte>, at: nat, pool: seq<Value>, pool2: seq<Value>)
    requires n <= |bs| && OffersAt(bs, n, c, at, pool) && Grown(c, c2, pool, pool2)
    ensures OffersAt(bs, n, c2, at, pool2)
  {
    hide OffersLen;
    forall i | 0 <= i < n
      ensures OfferIn(bs, i, c2, at, pool2)
    {
      assert OfferIn(bs, i, c, at, pool);
    }
  }

  lemma PicksKeep(bs: seq<Branch>, n: nat, c: seq<byte>, c2: seq<byte>, at: nat, bodies: nat, pool: seq<Value>,
          pool2: seq<Value>)
    requires n <= |bs| && PicksAt(bs, n, c, at, bodies, pool) && Grown(c, c2, pool, pool2)
    ensures PicksAt(bs, n, c2, at, bodies, pool2)
  {
    hide BranchesLen;
    forall i | 0 <= i < n
      ensures PickIn(bs, i, c2, at, bodies, pool2)
    {
      assert PickIn(bs, i, c, at, bodies, pool);
    }
  }

  lemma {:induction false} BranchesKeep(bs: seq<Branch>, n: nat, c: seq<byte>, c2: seq<byte>, at: nat,
          pool: seq<Value>, pool2: seq<Value>, vis: Slots, base: nat)
    requires n <= |bs| && BranchesAt(bs, n, c, at, pool, vis, base) && Grown(c, c2, pool, pool2)
    ensures BranchesAt(bs, n, c2, at, pool2, vis, base)
    decreases bs, 1
  {
    hide BlockAt, BlockSlots, BranchesLen, BranchesSlots;
    forall i | 0 <= i < n
      ensures BranchIn(bs, i, c2, at, pool2, vis, base)
    {
      assert BranchIn(bs, i, c, at, pool, vis, base);
      var p := at + BranchesLen(bs, i) + 1 + PieceLen(bs[i].start) + PieceLen(bs[i].inner);
      BlockKeeps(bs[i].body, c, c2, p + 1, pool, pool2, vis, base + BranchesSlots(bs, i));
    }
  }
}
