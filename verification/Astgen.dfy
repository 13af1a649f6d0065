// The code generator of src/astgen.c.  A generator appends bytes and constants to the path it is
// working on, overwrites the operands of jumps once their targets are known, and keeps two tables
// for the jumps of multi-branch conditionals until the end of the path.

module Emissions {
  import opened Values
  import opened Opcodes
  import opened Layout

  datatype Jump = Jump(lab: nat, offset: nat)

  const UNSET: nat := 0xffffffff

  // What the finished bytes will be: fin is the code with every pending operand filled in, imm the
  // operand bytes that patch_jump still has to write, targets where each label will be set, and near
  // says that every deferred jump is short enough for its operand.
  datatype Plan = Plan(fin: seq<byte>, imm: set<nat>, targets: seq<nat>, near: bool)

  datatype Emission = Emission(code: seq<byte>, pool: seq<Value>, labels: seq<nat>, branches: seq<Jump>, plan: Plan)

  function HighByte(d: nat): byte { (d / 256) % 256 }
  function LowByte(d: nat): byte { d % 256 }

  ghost predicate IsHole(branches: seq<Jump>, k: nat) {
    exists i :: 0 <= i < |branches| && (k == branches[i].offset || k == branches[i].offset + 1)
  }

  // Deferred jump j has its final operand in the plan.
  ghost predicate Planned(p: Plan, j: Jump) {
    && j.lab < |p.targets|
    && j.offset + 2 <= |p.fin|
    && j.offset + 2 <= p.targets[j.lab]
    && var d := p.targets[j.lab] - j.offset - 2;
       p.fin[j.offset] == HighByte(d) && p.fin[j.offset + 1] == LowByte(d)
  }

  ghost predicate Short(p: Plan, j: Jump) {
    j.lab < |p.targets| && p.targets[j.lab] - j.offset - 2 < 0x1_0000
  }

  ghost predicate Sound(v: Emission) {
    && |v.plan.fin| == |v.code|
    && |v.plan.targets| == |v.labels|
    && |v.pool| <= 256
    && (forall k | k in v.plan.imm :: k < |v.code|)
    && (forall k | 0 <= k < |v.code| :: k !in v.plan.imm && !IsHole(v.branches, k) ==> v.code[k] == v.plan.fin[k])
    && (forall i | 0 <= i < |v.branches| :: Planned(v.plan, v.branches[i]))
    && (v.plan.near <==> forall i | 0 <= i < |v.branches| :: Short(v.plan, v.branches[i]))
  }

  // w continues v: everything v emitted and planned is still there.
  ghost predicate Keeps(v: Emission, w: Emission) {
    && |v.plan.targets| == |v.labels| && |w.plan.targets| == |w.labels|
    && v.plan.fin <= w.plan.fin
    && v.pool <= w.pool
    && v.labels <= w.labels
    && v.plan.targets <= w.plan.targets
    && v.branches <= w.branches
    && (w.plan.near ==> v.plan.near)
    && (forall i | |v.branches| <= i < |w.branches| :: |v.labels| <= w.branches[i].lab)
  }

  // ... and the same operands are waiting for patch_jump.
  ghost predicate Continues(v: Emission, w: Emission) {
    Keeps(v, w) && w.plan.imm == v.plan.imm
  }

  // Every label from n on is set, where it was planned, and lies in the code.
  ghost predicate AllSet(w: Emission, n: nat) {
    |w.plan.targets| == |w.labels| && forall i | n <= i < |w.labels| :: w.labels[i] == w.plan.targets[i] <= |w.plan.fin|
  }

  ghost predicate Extends(v: Emission, w: Emission) {
    Continues(v, w) && AllSet(w, |v.labels|)
  }

  lemma KeepsItself(v: Emission)
    requires Sound(v)
    ensures Keeps(v, v)
  {
  }

  // What was laid out in v is still laid out in w.
  ghost predicate Follows(v: Emission, w: Emission) {
    v.plan.fin <= w.plan.fin && v.pool <= w.pool && (w.plan.near ==> v.plan.near)
  }

  lemma FollowsItself(v: Emission)
    ensures Follows(v, v)
  {
  }

  lemma KeepsFollows(v: Emission, w: Emission)
    requires Keeps(v, w)
    ensures Follows(v, w)
  {
  }

  lemma FollowsTwice(u: Emission, v: Emission, w: Emission)
    requires Follows(u, v) && Follows(v, w)
    ensures Follows(u, w)
  {
  }

  lemma ExtendsFollows(v: Emission, w: Emission)
    requires Extends(v, w)
    ensures Follows(v, w) && Continues(v, w) && Keeps(v, w)
  {
  }

  lemma AllSetLater(v: Emission, w: Emission, n: nat)
    requires Keeps(v, w) && AllSet(v, n) && AllSet(w, |v.labels|)
    ensures AllSet(w, n)
  {
  }

  lemma KeepsTwice(u: Emission, v: Emission, w: Emission)
    requires Keeps(u, v) && Keeps(v, w)
    ensures Keeps(u, w)
  {
  }

  lemma ExtendsKeeps(u: Emission, v: Emission)
    requires Extends(u, v)
    ensures Keeps(u, v) && AllSet(v, |u.labels|) && u.plan.imm == v.plan.imm
  {
  }

  lemma KeepsExtends(u: Emission, v: Emission)
    requires Keeps(u, v) && AllSet(v, |u.labels|) && u.plan.imm == v.plan.imm
    ensures Extends(u, v)
  {
  }

  lemma ContinuesTwice(u: Emission, v: Emission, w: Emission)
    requires Continues(u, v) && Continues(v, w)
    ensures Continues(u, w)
  {
  }

  lemma ExtendsTwice(u: Emission, v: Emission, w: Emission)
    requires Extends(u, v) && Extends(v, w)
    ensures Extends(u, w)
  {
  }

  // A jump whose operand is planned and short leads where it should.
  lemma JumpLands(c: seq<byte>, p: nat, op: byte, t: nat)
    requires p + 2 < |c| && c[p] == op && p + 3 <= t
    requires c[p + 1] == HighByte(t - p - 3) && c[p + 2] == LowByte(t - p - 3) && t - p - 3 < 0x1_0000
    ensures JumpAt(c, p, op, t)
  {
  }

  // ----- the single steps of the generator -----

  function Append(v: Emission, bs: seq<byte>): Emission {
    v.(code := v.code + bs, plan := v.plan.(fin := v.plan.fin + bs))
  }

  function AddTo(v: Emission, x: Value): Emission {
    v.(pool := v.pool + [x])
  }

  lemma PlannedKeeps(p: Plan, q: Plan, j: Jump)
    requires Planned(p, j) && p.fin <= q.fin && p.targets <= q.targets
    ensures Planned(q, j)
  {
  }

  lemma Appended(v: Emission, bs: seq<byte>)
    requires Sound(v)
    ensures Sound(Append(v, bs)) && Extends(v, Append(v, bs))
  {
    var w := Append(v, bs);
    forall i | 0 <= i < |v.branches|
      ensures Planned(w.plan, v.branches[i])
    {
      PlannedKeeps(v.plan, w.plan, v.branches[i]);
    }
  }

  function OpenJump(v: Emission, op: byte, d: nat): Emission {
    var k := |v.code|;
    v.(code := v.code + [op, 255, 255],
       plan := v.plan.(fin := v.plan.fin + [op, HighByte(d), LowByte(d)], imm := v.plan.imm + {k + 1, k + 2}))
  }

  lemma JumpOpened(v: Emission, op: byte, d: nat)
    requires Sound(v)
    ensures Sound(OpenJump(v, op, d))
  {
    var w := OpenJump(v, op, d);
    forall i | 0 <= i < |v.branches|
      ensures Planned(w.plan, v.branches[i])
    {
      PlannedKeeps(v.plan, w.plan, v.branches[i]);
    }
  }

  // An immediate jump, everything that was emitted behind it, and its patch.
  lemma JumpDone(v0: Emission, v1: Emission, v2: Emission, v3: Emission, op: byte, d: nat)
    requires Sound(v0) && v1 == OpenJump(v0, op, d) && Keeps(v1, v2) && Sound(v2) && d < 0x1_0000
    requires d + |v0.code| + 3 == |v2.code| && v3 == CloseJump(v2, |v0.code| + 1, d)
    ensures Keeps(v0, v3) && JumpAt(v3.plan.fin, |v0.code|, op, |v2.code|)
    ensures v2.plan.imm == v1.plan.imm ==> v3.plan.imm == v0.plan.imm
  {
    hide Sound, Keeps, HighByte, LowByte, JumpAt;
    OpenKeeps(v0, op, d);
    KeepsTwice(v0, v1, v2);
    ImmRestored(v0, op, d);
    JumpStillOpen(v0, v1, v2, op, d);
    CloseKeeps(v0, v2, v3, |v0.code| + 1, d);
    JumpLands(v3.plan.fin, |v0.code|, op, |v2.code|);
  }

  lemma OpenKeeps(v: Emission, op: byte, d: nat)
    requires Sound(v)
    ensures Keeps(v, OpenJump(v, op, d))
  {
  }

  lemma CloseKeeps(u: Emission, v: Emission, w: Emission, offset: nat, d: nat)
    requires Keeps(u, v) && offset + 2 <= |v.code| && w == CloseJump(v, offset, d)
    ensures Keeps(u, w)
  {
  }

  lemma ImmRestored(v: Emission, op: byte, d: nat)
    requires Sound(v)
    ensures OpenJump(v, op, d).plan.imm - {|v.code| + 1, |v.code| + 2} == v.plan.imm
  {
  }

  // The operand of a jump that is still open is where the plan put it.
  lemma JumpStillOpen(v0: Emission, v1: Emission, v2: Emission, op: byte, d: nat)
    requires Sound(v0) && v1 == OpenJump(v0, op, d) && Keeps(v1, v2) && Sound(v2)
    ensures |v0.code| + 3 <= |v2.code| == |v2.plan.fin|
    ensures v2.plan.fin[|v0.code|] == op
    ensures v2.plan.fin[|v0.code| + 1] == HighByte(d) && v2.plan.fin[|v0.code| + 2] == LowByte(d)
  {
    assert v1.plan.fin[|v0.code| + 1] == v2.plan.fin[|v0.code| + 1];
    assert v1.plan.fin[|v0.code| + 2] == v2.plan.fin[|v0.code| + 2];
  }

  function CloseJump(v: Emission, offset: nat, d: nat): Emission
    requires offset + 2 <= |v.code|
  {
    v.(code := v.code[offset := HighByte(d)][offset + 1 := LowByte(d)],
      plan := v.plan.(imm := v.plan.imm - {offset, offset + 1}))
  }

  lemma JumpClosed(v: Emission, offset: nat, d: nat)
    requires Sound(v) && offset + 2 <= |v.code|
    requires v.plan.fin[offset] == HighByte(d) && v.plan.fin[offset + 1] == LowByte(d)
    ensures Sound(CloseJump(v, offset, d))
  {
    var w := CloseJump(v, offset, d);
    forall i | 0 <= i < |v.branches|
      ensures Planned(w.plan, v.branches[i])
    {
      PlannedKeeps(v.plan, w.plan, v.branches[i]);
    }
  }

  function NewLabel(v: Emission, t: nat): Emission {
    v.(labels := v.labels + [UNSET], plan := v.plan.(targets := v.plan.targets + [t]))
  }

  lemma LabelAdded(v: Emission, t: nat)
    requires Sound(v)
    ensures Sound(NewLabel(v, t))
  {
    var w := NewLabel(v, t);
    forall i | 0 <= i < |v.branches|
      ensures Planned(w.plan, v.branches[i]) && (Short(w.plan, v.branches[i]) <==> Short(v.plan, v.branches[i]))
    {
      PlannedKeeps(v.plan, w.plan, v.branches[i]);
    }
  }

  lemma LabelSet(v: Emission, index: nat, at: nat)
    requires Sound(v) && index < |v.labels|
    ensures Sound(v.(labels := v.labels[index := at]))
  {
  }

  // The jump that was just opened becomes a deferred one.
  function DeferJump(v: Emission, op: byte, index: nat): Emission
    requires index < |v.plan.targets| && |v.code| + 3 <= v.plan.targets[index]
  {
    var d := v.plan.targets[index] - |v.code| - 3;
    var w := OpenJump(v, op, d);
    w.(branches := v.branches + [Jump(index, |v.code| + 1)],
      plan := w.plan.(imm := v.plan.imm, near := v.plan.near && d < 0x1_0000))
  }

  // The new entry of the table is planned, and the old ones are as they were.
  lemma DeferredPlanned(v: Emission, op: byte, index: nat)
    requires Sound(v) && index < |v.plan.targets| && |v.code| + 3 <= v.plan.targets[index]
    ensures var w := DeferJump(v, op, index);
      && (forall i | 0 <= i < |w.branches| :: Planned(w.plan, w.branches[i]))
      && (w.plan.near <==> forall i | 0 <= i < |w.branches| :: Short(w.plan, w.branches[i]))
  {
    var w := DeferJump(v, op, index);
    var j := w.branches[|v.branches|];
    assert Planned(w.plan, j);
    assert Short(w.plan, j) <==> v.plan.targets[index] - |v.code| - 3 < 0x1_0000;
    forall i | 0 <= i < |v.branches|
      ensures Planned(w.plan, w.branches[i]) && (Short(w.plan, w.branches[i]) <==> Short(v.plan, v.branches[i]))
    {
      PlannedKeeps(v.plan, w.plan, v.branches[i]);
    }
  }

  lemma JumpDeferred(v: Emission, op: byte, index: nat)
    requires Sound(v) && index < |v.plan.targets| && |v.code| + 3 <= v.plan.targets[index]
    ensures Sound(DeferJump(v, op, index))
    ensures DeferJump(v, op, index).plan.near ==>
      JumpAt(DeferJump(v, op, index).plan.fin, |v.code|, op, v.plan.targets[index])
  {
    var w, t := DeferJump(v, op, index), v.plan.targets[index];
    DeferredPlanned(v, op, index);
    hide Planned, Short, HighByte, LowByte, JumpAt, IsHole;
    forall k | 0 <= k < |w.code| && k !in w.plan.imm && !IsHole(w.branches, k)
      ensures w.code[k] == w.plan.fin[k]
    {
      DeferredBytes(v, op, index, k);
    }
    if w.plan.near {
      JumpLands(w.plan.fin, |v.code|, op, t);
    }
  }

  // A byte of the code is final unless it belongs to an operand that is still to be filled in.
  lemma DeferredBytes(v: Emission, op: byte, index: nat, k: nat)
    requires Sound(v) && index < |v.plan.targets| && |v.code| + 3 <= v.plan.targets[index]
    requires var w := DeferJump(v, op, index); k < |w.code| && k !in w.plan.imm && !IsHole(w.branches, k)
    ensures DeferJump(v, op, index).code[k] == DeferJump(v, op, index).plan.fin[k]
  {
    hide Planned, Short, HighByte, LowByte;
    var w := DeferJump(v, op, index);
    if IsHole(v.branches, k) { HolesGrow(v.branches, w.branches, k); }
    assert k != w.branches[|v.branches|].offset && k != w.branches[|v.branches|].offset + 1;
  }

  lemma HolesGrow(a: seq<Jump>, b: seq<Jump>, k: nat)
    requires a <= b && IsHole(a, k)
    ensures IsHole(b, k)
  {
  }

  // ----- labels in the middle of a multi-branch conditional -----

  // The labels after exit are set, except those from a up to b.
  ghost predicate Pending(w: Emission, exit: nat, a: nat, b: nat) {
    && |w.plan.targets| == |w.labels|
    && forall k | exit < k < |w.labels| && !(a <= k < b) :: w.labels[k] == w.plan.targets[k] <= |w.plan.fin|
  }

  lemma NonePending(v: Emission, exit: nat)
    requires Sound(v)
    ensures Pending(v, exit, exit + 1, |v.labels|)
  {
  }

  lemma ContinuesItself(v: Emission)
    requires Sound(v)
    ensures Continues(v, v)
  {
  }

  lemma PendingLater(v: Emission, w: Emission, exit: nat, a: nat, b: nat)
    requires Pending(v, exit, a, b) && Extends(v, w) && b <= |v.labels|
    ensures Pending(w, exit, a, b)
  {
  }

  lemma PendingDefer(v: Emission, exit: nat, a: nat, b: nat, op: byte)
    requires Pending(v, exit, a, b) && exit < |v.plan.targets| && |v.code| + 3 <= v.plan.targets[exit]
    ensures Pending(DeferJump(v, op, exit), exit, a, b)
  {
  }

  lemma Prefixes(v: Emission, w: Emission)
    requires Extends(v, w)
    ensures v.plan.targets <= w.plan.targets && v.labels <= w.labels
  {
  }

  lemma SameTargets(v: Emission, w: Emission)
    requires Extends(v, w) && |w.labels| == |v.labels|
    ensures w.plan.targets == v.plan.targets
  {
  }

  lemma SoundTargets(v: Emission)
    requires Sound(v)
    ensures |v.plan.targets| == |v.labels| && |v.plan.fin| == |v.code|
  {
  }

  lemma LabelContinues(u: Emission, v: Emission, exit: nat, index: nat, b: nat)
    requires Continues(u, v) && |u.labels| <= index < |v.labels| && |u.labels| <= exit
    requires index < b && Pending(v, exit, index, b) && v.plan.targets[index] == |v.code| == |v.plan.fin|
    ensures var w := v.(labels := v.labels[index := |v.code|]);
      Continues(u, w) && Follows(v, w) && Pending(w, exit, index + 1, b)
  {
  }

  lemma ExitSet(u: Emission, v: Emission, b: nat)
    requires Continues(u, v) && |u.labels| < |v.labels|
    requires Pending(v, |u.labels|, b, b) && v.plan.targets[|u.labels|] == |v.code| == |v.plan.fin|
    ensures var w := v.(labels := v.labels[|u.labels| := |v.code|]);
      Extends(u, w) && Follows(v, w)
  {
  }

  lemma NewLabelContinues(u: Emission, v: Emission, t: nat)
    requires Continues(u, v)
    ensures Continues(u, NewLabel(v, t)) && Follows(v, NewLabel(v, t)) && |u.labels| <= |v.labels|
  {
  }

  lemma DeferContinues(u: Emission, v: Emission, op: byte, index: nat)
    requires Continues(u, v) && |u.labels| <= index < |v.plan.targets| && |v.code| + 3 <= v.plan.targets[index]
    ensures Continues(u, DeferJump(v, op, index)) && Follows(v, DeferJump(v, op, index))
  {
  }

  // Bytes that agree with the plan, except for the operands of the jumps still to be filled in.
  ghost predicate FilledExcept(code: seq<byte>, fin: seq<byte>, rest: seq<Jump>) {
    |code| == |fin| && forall k | 0 <= k < |code| :: code[k] == fin[k] || IsHole(rest, k)
  }

  lemma ReadyToFill(v: Emission)
    requires Sound(v) && v.plan.imm == {}
    ensures FilledExcept(v.code, v.plan.fin, v.branches)
    ensures forall i | 0 <= i < |v.branches| :: Planned(v.plan, v.branches[i])
  {
  }

  lemma ShortWhenNear(v: Emission, i: nat)
    requires Sound(v) && v.plan.near && i < |v.branches|
    ensures Short(v.plan, v.branches[i])
  {
  }

  // Inside 64K of code every deferred jump is short enough.
  lemma NearInside(v: Emission)
    requires Sound(v) && AllSet(v, 0) && |v.code| < 0x1_0000
    ensures v.plan.near
  {
    forall i | 0 <= i < |v.branches|
      ensures Short(v.plan, v.branches[i])
    {
      assert Planned(v.plan, v.branches[i]);
    }
  }

  lemma NearWhenShort(v: Emission)
    requires Sound(v) && forall i | 0 <= i < |v.branches| :: Short(v.plan, v.branches[i])
    ensures v.plan.near && |v.pool| <= 256
  {
  }

  lemma PlannedBounds(p: Plan, j: Jump)
    requires Planned(p, j)
    ensures j.lab < |p.targets| && j.offset + 2 <= |p.fin| && j.offset + 2 <= p.targets[j.lab]
  {
  }

  lemma FilledLength(code: seq<byte>, fin: seq<byte>, rest: seq<Jump>)
    requires FilledExcept(code, fin, rest)
    ensures |code| == |fin|
  {
  }

  lemma AllFilled(code: seq<byte>, fin: seq<byte>)
    requires FilledExcept(code, fin, [])
    ensures code == fin
  {
  }

  lemma NothingPending(code: seq<byte>, pool: seq<Value>)
    requires |pool| <= 256
    ensures Sound(Emission(code, pool, [], [], Plan(code, {}, [], true)))
  {
  }

  lemma FillOne(code: seq<byte>, p: Plan, rest: seq<Jump>, d: nat)
    requires rest != [] && FilledExcept(code, p.fin, rest) && Planned(p, rest[0])
    requires d == p.targets[rest[0].lab] - rest[0].offset - 2
    ensures FilledExcept(code[rest[0].offset := HighByte(d)][rest[0].offset + 1 := LowByte(d)], p.fin, rest[1..])
  {
    var filled := code[rest[0].offset := HighByte(d)][rest[0].offset + 1 := LowByte(d)];
    forall k | 0 <= k < |filled| && filled[k] != p.fin[k]
      ensures IsHole(rest[1..], k)
    {
      var i :| 0 <= i < |rest| && (k == rest[i].offset || k == rest[i].offset + 1);
      assert rest[1..][i - 1] == rest[i];
    }
  }
}

module Astgen {
  import opened Wrappers
  import opened Values
  import opened Ast
  import opened Shape
  import opened Opcodes
  import opened Layout
  import opened LayoutFacts
  import opened Emissions
  import opened Scoping
  import M = Machine

  datatype Symbol = Param(slot: nat) | Global(index: nat, isConst: bool) | PathName(arity: nat)
  type Scopes = seq<map<string, Symbol>>

  datatype Failure =
    | UnknownName | Redefined | ConstAssign | InvalidExpr | ArgCount | SwitchLabel | EmptyConditional
    | Panic | TooMuchCode | Unsupported

  datatype Status = Fine | Failed(why: Failure) {
    predicate IsFailure() { Failed? }
    function PropagateFailure(): Status
      requires Failed?
    {
      this
    }
  }

  // Innermost scope last.
  function Lookup(scopes: Scopes, x: string): Option<Symbol> {
    if scopes == [] then None
    else
      var top := scopes[|scopes| - 1];
      if x in top then Some(top[x]) else Lookup(scopes[..|scopes| - 1], x)
  }

  // The parameters that are not hidden by a declaration.
  function VisOf(scopes: Scopes): Slots {
    if scopes == [] then map[]
    else
      var top := scopes[|scopes| - 1];
      (VisOf(scopes[..|scopes| - 1]) - top.Keys) + map x | x in top && top[x].Param? :: top[x].slot
  }

  lemma {:induction false} VisIsLookup(scopes: Scopes, x: string)
    ensures x in VisOf(scopes) <==> Lookup(scopes, x).Some? && Lookup(scopes, x).value.Param?
    ensures x in VisOf(scopes) ==> VisOf(scopes)[x] == Lookup(scopes, x).value.slot
  {
    if scopes != [] {
      VisIsLookup(scopes[..|scopes| - 1], x);
    }
  }

  lemma VisOfEmptyScope(scopes: Scopes)
    ensures VisOf(scopes + [map[]]) == VisOf(scopes)
  {
    assert (scopes + [map[]])[..|scopes|] == scopes;
  }

  // Declaring x in the innermost scope hides a parameter of that name and nothing else.
  lemma VisOfDecl(scopes: Scopes, x: string, index: nat, isConst: bool)
    requires scopes != [] && x !in scopes[|scopes| - 1]
    ensures VisOf(Declared(scopes, x, index, isConst)) == VisOf(scopes) - {x}
  {
    var n := |scopes| - 1;
    assert Declared(scopes, x, index, isConst)[..n] == scopes[..n];
  }

  function Declared(scopes: Scopes, x: string, index: nat, isConst: bool): Scopes
    requires scopes != []
  {
    scopes[|scopes| - 1 := scopes[|scopes| - 1][x := Global(index, isConst)]]
  }

  // Every variable in scope indexes the constant that spells its name; parameters have low slots.
  ghost predicate Resolved(scopes: Scopes, pool: seq<Value>, arity: nat) {
    forall s, x | s in scopes && x in s ::
      match s[x]
      case Global(k, _) => k < |pool| && pool[k] == Str(x)
      case Param(slot) => slot < arity
      case PathName(_) => true
  }

  lemma {:induction false} LookupResolves(scopes: Scopes, x: string, pool: seq<Value>, arity: nat)
    requires Resolved(scopes, pool, arity) && Lookup(scopes, x).Some?
    ensures Resolved([map[x := Lookup(scopes, x).value]], pool, arity)
  {
    var top := scopes[|scopes| - 1];
    if x in top {
      assert top in scopes;
    } else {
      LookupResolves(scopes[..|scopes| - 1], x, pool, arity);
    }
  }

  lemma SymbolResolves(x: string, sym: Symbol, pool: seq<Value>, arity: nat)
    requires Resolved([map[x := sym]], pool, arity)
    ensures match sym
            case Global(k, _) => k < |pool| && pool[k] == Str(x)
            case Param(slot) => slot < arity
            case PathName(_) => true
  {
    var s := map[x := sym];
    assert s in [s] && x in s && s[x] == sym;
  }

  // What the generator knows about names, without slots and indices.
  function SortOf(sym: Symbol): Sort {
    match sym
    case Param(_) => Parameter
    case Global(_, isConst) => Variable(isConst)
    case PathName(n) => Routine(n)
  }

  function SortsIn(top: map<string, Symbol>): map<string, Sort> {
    map x | x in top :: SortOf(top[x])
  }

  function SortsOf(scopes: Scopes): (r: Names)
    ensures |r| == |scopes|
  {
    if scopes == [] then [] else SortsOf(scopes[..|scopes| - 1]) + [SortsIn(scopes[|scopes| - 1])]
  }

  lemma {:induction false} FindIsLookup(scopes: Scopes, x: string)
    ensures Find(SortsOf(scopes), x) == if Lookup(scopes, x).Some? then Some(SortOf(Lookup(scopes, x).value)) else None
    decreases |scopes|
  {
    if scopes != [] {
      var n := |scopes| - 1;
      assert SortsOf(scopes)[..n] == SortsOf(scopes[..n]);
      FindIsLookup(scopes[..n], x);
    }
  }

  lemma SortsPushed(scopes: Scopes, top: map<string, Symbol>)
    ensures SortsOf(scopes + [top]) == SortsOf(scopes) + [SortsIn(top)]
  {
    assert (scopes + [top])[..|scopes|] == scopes;
  }

  lemma SortsDeclared(scopes: Scopes, x: string, index: nat, isConst: bool)
    requires scopes != []
    ensures SortsOf(Declared(scopes, x, index, isConst)) == Declare(SortsOf(scopes), x, isConst)
    ensures x in scopes[|scopes| - 1] <==> x in SortsOf(scopes)[|scopes| - 1]
  {
    hide SortsIn, SortsOf;
    var n := |scopes| - 1;
    var top, names := scopes[n][x := Global(index, isConst)], SortsOf(scopes[..n]);
    SortsPushed(scopes[..n], top);
    SortsPushed(scopes[..n], scopes[n]);
    SortsInDeclared(scopes[n], x, index, isConst);
    LastReplaced(scopes, top);
    LastReplaced(scopes, scopes[n]);
    LastReplaced(names + [SortsIn(scopes[n])], SortsIn(top));
  }

  lemma LastReplaced<T>(s: seq<T>, t: T)
    requires s != []
    ensures s[|s| - 1 := t] == s[..|s| - 1] + [t] && s[|s| - 1 := s[|s| - 1]] == s
  {
  }

  lemma SortsInDeclared(top: map<string, Symbol>, x: string, index: nat, isConst: bool)
    ensures SortsIn(top[x := Global(index, isConst)]) == SortsIn(top)[x := Variable(isConst)]
    ensures x in top <==> x in SortsIn(top)
  {
  }

  lemma PoolGrows(v: Emission, x: Value)
    requires Sound(v) && |v.pool| <= 255
    ensures Sound(AddTo(v, x)) && Extends(v, AddTo(v, x))
  {
  }

  lemma ExtendsKeepsPool(v: Emission, w: Emission, scopes: Scopes, arity: nat)
    requires Extends(v, w) && Resolved(scopes, v.pool, arity)
    ensures Resolved(scopes, w.pool, arity)
  {
  }

  lemma ResolvedKeeps(scopes: Scopes, pool: seq<Value>, pool2: seq<Value>, arity: nat)
    requires Resolved(scopes, pool, arity) && pool <= pool2
    ensures Resolved(scopes, pool2, arity)
  {
  }

  lemma ExtendsItself(v: Emission)
    requires Sound(v)
    ensures Extends(v, v)
  {
  }

  lemma DeclaredResolves(scopes: Scopes, x: string, index: nat, isConst: bool, pool: seq<Value>, arity: nat)
    requires scopes != [] && Resolved(scopes, pool, arity) && index < |pool| && pool[index] == Str(x)
    ensures Resolved(Declared(scopes, x, index, isConst), pool, arity)
  {
    var n := |scopes| - 1;
    forall s, y | s in Declared(scopes, x, index, isConst) && y in s
      ensures match s[y]
              case Global(k, _) => k < |pool| && pool[k] == Str(y)
              case Param(slot) => slot < arity
              case PathName(_) => true
    {
      assert scopes[n] in scopes;
      if s !in scopes {
        assert s == scopes[n][x := Global(index, isConst)];
        assert y != x ==> y in scopes[n];
      }
    }
  }

  lemma NoSlots(s: Stmt)
    ensures !s.Content? && !s.Choices? ==> StmtSlots(s) == 0
  {
  }

  lemma GatherLaidOut(v: Emission, vis: Slots, base: nat, names: Names)
    requires Sound(v)
    ensures Extends(v, v) && StmtAt(Gather, v.plan.fin, |v.code|, v.pool, vis, base)
    ensures StmtLen(Gather) == StmtConsts(Gather) == StmtSlots(Gather) == 0 && StmtScoped(Gather, names)
  {
  }

  lemma StmtsKept(ss: seq<Stmt>, n: nat, v: Emission, w: Emission, at: nat, vis: Slots, base: nat)
    requires n <= |ss| && Extends(v, w) && (v.plan.near ==> StmtsAt(ss, n, v.plan.fin, at, v.pool, vis, base))
      && w.plan.near
    ensures StmtsAt(ss, n, w.plan.fin, at, w.pool, vis, base)
  {
    StmtsKeep(ss, n, v.plan.fin, w.plan.fin, at, v.pool, w.pool, vis, base);
  }

  lemma ItemsKept(items: seq<Item>, n: nat, v: Emission, w: Emission, at: nat, vis: Slots, base: nat)
    requires n <= |items| && Extends(v, w) && (v.plan.near ==> ItemsAt(items, n, v.plan.fin, at, v.pool, vis, base))
      && w.plan.near
    ensures ItemsAt(items, n, w.plan.fin, at, w.pool, vis, base)
  {
    ItemsKeep(items, n, v.plan.fin, w.plan.fin, at, v.pool, w.pool, vis, base);
  }

  lemma ExprKept(e: Expr, v: Emission, w: Emission, at: nat, vis: Slots)
    requires Extends(v, w) && ExprAt(e, v.plan.fin, at, v.pool, vis)
    ensures ExprAt(e, w.plan.fin, at, w.pool, vis)
  {
    ExprKeeps(e, v.plan.fin, w.plan.fin, at, v.pool, w.pool, vis);
  }

  lemma OpKept(v: Emission, w: Emission, p: nat, op: byte)
    requires Extends(v, w) && OpAt(v.plan.fin, p, op)
    ensures OpAt(w.plan.fin, p, op)
  {
  }

  lemma ArgsKept(args: seq<Expr>, n: nat, v: Emission, w: Emission, at: nat, vis: Slots)
    requires n <= |args| && Extends(v, w) && ArgsAt(args, n, v.plan.fin, at, v.pool, vis)
    ensures ArgsAt(args, n, w.plan.fin, at, w.pool, vis)
  {
    ArgsKeep(args, n, v.plan.fin, w.plan.fin, at, v.pool, w.pool, vis);
  }

  lemma BinaryLaidOut(op: InfixOp, l: Expr, r: Expr, c: seq<byte>, at: nat, m: nat, q: nat, pool: seq<Value>,
          vis: Slots)
    requires !op.And? && !op.Or? && !op.Contains? && !op.Assign?
    requires ExprAt(l, c, at, pool, vis) && m == at + ExprLen(l) && ExprAt(r, c, m, pool, vis) && q == m + ExprLen(r)
    requires OpAt(c, q, BinaryByte(op)) && (op.Neq? ==> OpAt(c, q + 1, NOT))
    ensures ExprAt(Infix(op, l, r), c, at, pool, vis)
    ensures at + ExprLen(Infix(op, l, r)) == q + if op.Neq? then 2 else 1
  {
  }

  lemma LogicalLaidOut(op: InfixOp, l: Expr, r: Expr, c: seq<byte>, at: nat, m: nat, q: nat, pool: seq<Value>,
          vis: Slots)
    requires op.And? || op.Or?
    requires ExprAt(l, c, at, pool, vis) && m == at + ExprLen(l) && ExprAt(r, c, m + 4, pool, vis)
      && q == m + 4 + ExprLen(r)
    requires JumpAt(c, m, if op.And? then JMP_F else JMP_T, q) && OpAt(c, m + 3, POP)
    ensures ExprAt(Infix(op, l, r), c, at, pool, vis)
    ensures at + ExprLen(Infix(op, l, r)) == q
  {
  }

  // The start of a branch: drop the value that was tested, then the block.
  ghost predicate PopBlockAt(ss: seq<Stmt>, c: seq<byte>, at: nat, pool: seq<Value>, vis: Slots, base: nat) {
    OpAt(c, at, POP) && BlockAt(ss, c, at + 1, pool, vis, base)
  }

  // The condition and the first branch, with the jump over it.
  ghost predicate ThenAt(cond: Expr, body: seq<Stmt>, c: seq<byte>, at: nat, pool: seq<Value>, vis: Slots, base: nat) {
    var p := at + ExprLen(cond);
    && ExprAt(cond, c, at, pool, vis)
    && JumpAt(c, p, JMP_F, p + 7 + BlockLen(body))
    && PopBlockAt(body, c, p + 3, pool, vis, base)
  }

  // Two overlapping jumps: the first one is patched, the second one is left open at q.
  lemma ThenKeeps(v0: Emission, v1: Emission, v2: Emission, v4: Emission, v5: Emission, v6: Emission, op: byte, d: nat,
          op2: byte, d2: nat)
    requires Sound(v1) && Sound(v4)
    requires Extends(v0, v1) && v2 == OpenJump(v1, op, d) && Extends(v2, v4) && v5 == OpenJump(v4, op2, d2)
    requires Keeps(v1, v6) && v6.labels == v5.labels && Keeps(v5, v6)
    requires v6.plan == v5.plan.(imm := v5.plan.imm - {|v1.code| + 1, |v1.code| + 2})
    ensures Keeps(v0, v6) && AllSet(v6, |v0.labels|)
    ensures v6.plan.imm == v0.plan.imm + {|v4.code| + 1, |v4.code| + 2}
  {
    ThenImm(v0, v1, v2, v4, v5, v6, op, d, op2, d2);
    hide Sound;
    assert Keeps(v0, v6) by {
      hide AllSet, Keeps;
      ExtendsFollows(v0, v1);
      KeepsTwice(v0, v1, v6);
    }
    AllSetLater(v1, v4, |v0.labels|);
  }

  lemma ThenImm(v0: Emission, v1: Emission, v2: Emission, v4: Emission, v5: Emission, v6: Emission, op: byte, d: nat,
          op2: byte, d2: nat)
    requires Sound(v1) && Extends(v0, v1) && v2 == OpenJump(v1, op, d) && Extends(v2, v4) && |v2.code| <= |v4.code|
    requires v5 == OpenJump(v4, op2, d2) && v6.plan.imm == v5.plan.imm - {|v1.code| + 1, |v1.code| + 2}
    ensures v6.plan.imm == v0.plan.imm + {|v4.code| + 1, |v4.code| + 2}
  {
    ImmRestored(v1, op, d);
  }

  // The second one is patched as well: nothing is left pending.
  lemma IfExtends(v0: Emission, v6: Emission, v8: Emission, v9: Emission, q: nat)
    requires Sound(v0) && |v0.code| <= q
    requires Keeps(v0, v6) && AllSet(v6, |v0.labels|) && v6.plan.imm == v0.plan.imm + {q + 1, q + 2}
    requires Extends(v6, v8) && Keeps(v8, v9) && v9.labels == v8.labels
    requires v9.plan == v8.plan.(imm := v8.plan.imm - {q + 1, q + 2})
    ensures Extends(v0, v9)
  {
    assert v9.plan.imm == v0.plan.imm;
    hide Sound;
    assert Keeps(v0, v9) by {
      hide AllSet, Keeps;
      ExtendsFollows(v6, v8);
      KeepsTwice(v0, v6, v8);
      KeepsTwice(v0, v8, v9);
    }
    AllSetLater(v6, v8, |v0.labels|);
    KeepsExtends(v0, v9);
  }

  lemma PopBlockKept(v: Emission, w: Emission, ss: seq<Stmt>, at: nat, vis: Slots, base: nat)
    requires Follows(v, w) && w.plan.near && (v.plan.near ==> PopBlockAt(ss, v.plan.fin, at, v.pool, vis, base))
    ensures PopBlockAt(ss, w.plan.fin, at, w.pool, vis, base)
  {
    hide BlockAt;
    BlockKeeps(ss, v.plan.fin, w.plan.fin, at + 1, v.pool, w.pool, vis, base);
  }

  lemma ExprFollows(e: Expr, v: Emission, w: Emission, at: nat, vis: Slots)
    requires Follows(v, w) && ExprAt(e, v.plan.fin, at, v.pool, vis)
    ensures ExprAt(e, w.plan.fin, at, w.pool, vis)
  {
    ExprKeeps(e, v.plan.fin, w.plan.fin, at, v.pool, w.pool, vis);
  }

  lemma JumpFollows(v: Emission, w: Emission, p: nat, op: byte, t: nat)
    requires Follows(v, w) && w.plan.near && (v.plan.near ==> JumpAt(v.plan.fin, p, op, t))
    ensures JumpAt(w.plan.fin, p, op, t)
  {
  }

  lemma ArmParts(u2: Emission, u3: Emission, u4: Emission, w: Emission, test: Expr, at: nat, slot: nat, q: nat,
          vis: Slots)
    requires Extends(u2, u3) && Extends(u3, u4) && Follows(u4, w)
    requires SlotAt(u2.plan.fin, at, LOAD, slot) && ExprAt(test, u3.plan.fin, at + 2, u3.pool, vis)
      && OpAt(u4.plan.fin, q, CMP_EQ)
    ensures SlotAt(w.plan.fin, at, LOAD, slot) && ExprAt(test, w.plan.fin, at + 2, w.pool, vis)
      && OpAt(w.plan.fin, q, CMP_EQ)
  {
    hide ExprAt;
    assert Follows(u2, w) && Follows(u3, w);
    ExprFollows(test, u3, w, at + 2, vis);
  }

  lemma ThenParts(v1: Emission, v4: Emission, v6: Emission, cond: Expr, body: seq<Stmt>, at: nat, vis: Slots, base: nat)
    requires Keeps(v4, v6) && Keeps(v1, v6) && v6.plan.near
    requires ExprAt(cond, v1.plan.fin, at, v1.pool, vis) && |v1.code| == at + ExprLen(cond)
    requires v4.plan.near ==> PopBlockAt(body, v4.plan.fin, |v1.code| + 3, v4.pool, vis, base)
    requires JumpAt(v6.plan.fin, |v1.code|, JMP_F, |v1.code| + 7 + BlockLen(body))
    ensures ThenAt(cond, body, v6.plan.fin, at, v6.pool, vis, base)
  {
    hide ExprAt, ExprLen, BlockAt, BlockLen, JumpAt;
    KeepsFollows(v4, v6);
    KeepsFollows(v1, v6);
    ExprKeeps(cond, v1.plan.fin, v6.plan.fin, at, v1.pool, v6.pool, vis);
    PopBlockKept(v4, v6, body, |v1.code| + 3, vis, base);
  }

  lemma IfParts(v6: Emission, v8: Emission, v9: Emission, cond: Expr, body: seq<Stmt>, els: seq<Stmt>, at: nat, q: nat,
          vis: Slots, base: nat)
    requires Keeps(v6, v8) && Keeps(v8, v9) && v9.plan.near && q == at + ExprLen(cond) + 4 + BlockLen(body)
    requires v6.plan.near ==> ThenAt(cond, body, v6.plan.fin, at, v6.pool, vis, base)
    requires v8.plan.near ==> PopBlockAt(els, v8.plan.fin, q + 3, v8.pool, vis, base + BlockSlots(body))
    requires JumpAt(v9.plan.fin, q, JMP, q + 4 + BlockLen(els))
    ensures ItemAt(If(cond, body, els), v9.plan.fin, at, v9.pool, vis, base)
  {
    hide ExprAt, ExprLen, BlockAt, BlockLen, BlockSlots, JumpAt, ItemAt;
    var p := at + ExprLen(cond);
    assert Follows(v8, v9) && Follows(v6, v9);
    ExprKeeps(cond, v6.plan.fin, v9.plan.fin, at, v6.pool, v9.pool, vis);
    PopBlockKept(v6, v9, body, p + 3, vis, base);
    JumpKeeps(v6.plan.fin, v9.plan.fin, p, JMP_F, q + 3);
    PopBlockKept(v8, v9, els, q + 3, vis, base + BlockSlots(body));
    IfLaidOut(cond, body, els, v9.plan.fin, at, p, q, v9.pool, vis, base);
  }

  lemma IfLaidOut(cond: Expr, body: seq<Stmt>, els: seq<Stmt>, c: seq<byte>, at: nat, p: nat, q: nat,
          pool: seq<Value>, vis: Slots, base: nat)
    requires ExprAt(cond, c, at, pool, vis) && p == at + ExprLen(cond) && q == p + 4 + BlockLen(body)
    requires JumpAt(c, p, JMP_F, q + 3) && OpAt(c, p + 3, POP) && BlockAt(body, c, p + 4, pool, vis, base)
    requires JumpAt(c, q, JMP, q + 4 + BlockLen(els)) && OpAt(c, q + 3, POP)
    requires BlockAt(els, c, q + 4, pool, vis, base + BlockSlots(body))
    ensures ItemAt(If(cond, body, els), c, at, pool, vis, base)
  {
    hide ExprAt, ExprLen, BlockAt, BlockLen, BlockSlots, JumpAt, OpAt;
  }

  ghost predicate SubjectAt(e: Expr, c: seq<byte>, at: nat, p: nat, pool: seq<Value>, vis: Slots, slot: nat) {
    ExprAt(e, c, at, pool, vis) && SlotAt(c, p, STORE, slot) && OpAt(c, p + 2, POP)
  }

  lemma SubjectKept(v: Emission, w: Emission, e: Expr, at: nat, p: nat, slot: nat, vis: Slots)
    requires Follows(v, w) && SubjectAt(e, v.plan.fin, at, p, v.pool, vis, slot)
    ensures SubjectAt(e, w.plan.fin, at, p, w.pool, vis, slot)
  {
    hide ExprAt;
    ExprFollows(e, v, w, at, vis);
  }

  // One branch of a multi-branch conditional; it starts with a POP unless it is the else branch.
  ghost predicate CaseAt(ss: seq<Stmt>, pop: bool, c: seq<byte>, at: nat, exit: nat, pool: seq<Value>, vis: Slots,
          base: nat) {
    && (if pop then PopBlockAt(ss, c, at, pool, vis, base) else BlockAt(ss, c, at, pool, vis, base))
    && JumpAt(c, at + CaseLen(ss, pop) - 3, JMP, exit)
  }

  function CaseLen(ss: seq<Stmt>, pop: bool): nat {
    BlockLen(ss) + if pop then 4 else 3
  }

  lemma CaseParts(ss: seq<Stmt>, pop: bool, v: Emission, w: Emission, at: nat, q: nat, exit: nat, vis: Slots, base: nat)
    requires Follows(v, w) && w.plan.near && q == at + CaseLen(ss, pop) - 3
    requires v.plan.near ==>
      if pop then PopBlockAt(ss, v.plan.fin, at, v.pool, vis, base) else BlockAt(ss, v.plan.fin, at, v.pool, vis, base)
    requires JumpAt(w.plan.fin, q, JMP, exit)
    ensures CaseAt(ss, pop, w.plan.fin, at, exit, w.pool, vis, base)
  {
    hide BlockAt, BlockLen, PopBlockAt, JumpAt;
    if pop {
      PopBlockKept(v, w, ss, at, vis, base);
    } else {
      BlockKeeps(ss, v.plan.fin, w.plan.fin, at, v.pool, w.pool, vis, base);
    }
  }

  lemma TestsGrow(cases: seq<Case>, i: nat, j: nat)
    requires i <= j <= |cases|
    ensures TestsLen(cases, i) <= TestsLen(cases, j) && ArmsLen(cases, i) <= ArmsLen(cases, j)
      && BodiesLen(cases, i) <= BodiesLen(cases, j)
  {
    hide ExprLen, BlockLen;
    if i < j {
      TestsGrow(cases, i, j - 1);
    }
  }

  // Where the body of case k starts, when the bodies start at p; the else branch follows the last case.
  ghost predicate LabelsAt(cases: seq<Case>, n: nat, targets: seq<nat>, top: nat, p: nat)
    requires n <= |cases| + 1
  {
    top + n <= |targets| && forall k | 0 <= k < n :: LabelIn(cases, k, targets, top, p)
  }

  ghost predicate LabelIn(cases: seq<Case>, k: nat, targets: seq<nat>, top: nat, p: nat)
    requires k <= |cases| && top + k < |targets|
  {
    targets[top + k] == p + BodiesLen(cases, k)
  }

  lemma LabelsKept(cases: seq<Case>, n: nat, targets: seq<nat>, targets2: seq<nat>, top: nat, p: nat)
    requires n <= |cases| + 1 && LabelsAt(cases, n, targets, top, p) && targets <= targets2
    ensures LabelsAt(cases, n, targets2, top, p)
  {
    forall k | 0 <= k < n
      ensures LabelIn(cases, k, targets2, top, p)
    {
      assert LabelIn(cases, k, targets, top, p);
    }
  }

  function Labels(cases: seq<Case>, final: Final): nat {
    |cases| + if final.Else? then 1 else 0
  }

  lemma TestsKept(cases: seq<Case>, n: nat, v: Emission, w: Emission, at: nat, bodies: nat, vis: Slots)
    requires n <= |cases| && Follows(v, w) && w.plan.near
      && (v.plan.near ==> TestsAt(cases, n, v.plan.fin, at, bodies, v.pool, vis))
    ensures TestsAt(cases, n, w.plan.fin, at, bodies, w.pool, vis)
  {
    TestsKeep(cases, n, v.plan.fin, w.plan.fin, at, bodies, v.pool, w.pool, vis);
  }

  lemma ArmsKept(cases: seq<Case>, n: nat, v: Emission, w: Emission, at: nat, bodies: nat, slot: nat)
    requires n <= |cases| && Follows(v, w) && w.plan.near
      && (v.plan.near ==> ArmsAt(cases, n, v.plan.fin, at, bodies, v.pool, slot))
    ensures ArmsAt(cases, n, w.plan.fin, at, bodies, w.pool, slot)
  {
    ArmsKeep(cases, n, v.plan.fin, w.plan.fin, at, bodies, v.pool, w.pool, slot);
  }

  lemma BodiesKept(cases: seq<Case>, n: nat, v: Emission, w: Emission, bodies: nat, exit: nat, vis: Slots, base: nat)
    requires n <= |cases| && Follows(v, w) && w.plan.near
      && (v.plan.near ==> BodiesAt(cases, n, v.plan.fin, bodies, exit, v.pool, vis, base))
    ensures BodiesAt(cases, n, w.plan.fin, bodies, exit, w.pool, vis, base)
  {
    BodiesKeep(cases, n, v.plan.fin, w.plan.fin, bodies, exit, v.pool, w.pool, vis, base);
  }

  lemma BodyLaidOut(cases: seq<Case>, i: nat, c: seq<byte>, bodies: nat, exit: nat, pool: seq<Value>, vis: Slots,
          base: nat)
    requires i < |cases| && BodiesAt(cases, i, c, bodies, exit, pool, vis, base)
    requires CaseAt(cases[i].body, true, c, bodies + BodiesLen(cases, i), exit, pool, vis, base + BodiesSlots(cases, i))
    ensures BodiesAt(cases, i + 1, c, bodies, exit, pool, vis, base)
  {
    hide BlockAt, BlockLen, BlockSlots;
    assert BodyIn(cases, i, c, bodies, exit, pool, vis, base);
  }

  function FinalCaseLen(final: Final): nat {
    if final.Else? then CaseLen(final.body, false) else 0
  }

  lemma CondSize(cases: seq<Case>, final: Final, at: nat, bodies: nat, exit: nat)
    requires bodies == at + TestsLen(cases, |cases|) + ElseJump(final)
      && exit == bodies + BodiesLen(cases, |cases|) + FinalCaseLen(final)
    ensures exit == at + ItemLen(MultiIf(cases, final))
    ensures ItemSlots(MultiIf(cases, final)) == BodiesSlots(cases, |cases|) + FinalSlots(final)
  {
    hide TestsLen, BodiesLen, BodiesSlots, BlockLen;
  }

  lemma SwitchSize(e: Expr, cases: seq<Case>, final: Final, at: nat, bodies: nat, exit: nat)
    requires bodies == at + ExprLen(e) + 3 + ArmsLen(cases, |cases|) + ElseJump(final)
    requires exit == bodies + BodiesLen(cases, |cases|) + FinalCaseLen(final)
    ensures exit == at + ItemLen(Switch(e, cases, final))
    ensures ItemSlots(Switch(e, cases, final)) == 1 + BodiesSlots(cases, |cases|) + FinalSlots(final)
  {
    hide ExprLen, ArmsLen, BodiesLen, BodiesSlots, BlockLen;
  }

  // Everything in front of the bodies of a multi-branch if.
  ghost predicate ChecksAt(cases: seq<Case>, final: Final, c: seq<byte>, at: nat, bodies: nat, pool: seq<Value>,
          vis: Slots) {
    && TestsAt(cases, |cases|, c, at, bodies, pool, vis)
    && (final.Else? ==> bodies >= 3 && JumpAt(c, bodies - 3, JMP, bodies + BodiesLen(cases, |cases|)))
  }

  lemma ChecksKept(it: Item, v: Emission, w: Emission, at: nat, bodies: nat, vis: Slots)
    requires it.MultiIf? && Follows(v, w) && w.plan.near
    requires v.plan.near ==> ChecksAt(it.cases, it.final, v.plan.fin, at, bodies, v.pool, vis)
    ensures ChecksAt(it.cases, it.final, w.plan.fin, at, bodies, w.pool, vis)
  {
    hide TestsAt, JumpAt, BodiesLen;
    TestsKept(it.cases, |it.cases|, v, w, at, bodies, vis);
    if it.final.Else? {
      JumpFollows(v, w, bodies - 3, JMP, bodies + BodiesLen(it.cases, |it.cases|));
    }
  }

  lemma CondLaidOut(cases: seq<Case>, final: Final, c: seq<byte>, at: nat, bodies: nat, exit: nat,
          pool: seq<Value>, vis: Slots, base: nat)
    requires bodies == at + TestsLen(cases, |cases|) + ElseJump(final)
    requires exit == bodies + BodiesLen(cases, |cases|) + FinalCaseLen(final)
    requires ChecksAt(cases, final, c, at, bodies, pool, vis)
    requires BranchesLaidOut(cases, final, c, bodies, exit, pool, vis, base)
    ensures ItemAt(MultiIf(cases, final), c, at, pool, vis, base) && exit == at + ItemLen(MultiIf(cases, final))
  {
    hide TestsAt, TestsLen, BodiesAt, BodiesLen, BodiesSlots, BlockAt, BlockLen, JumpAt;
  }

  // Everything in front of the bodies of a switch.
  ghost predicate SelectionAt(e: Expr, cases: seq<Case>, final: Final, c: seq<byte>, at: nat, bodies: nat,
          pool: seq<Value>, vis: Slots, slot: nat) {
    && SubjectAt(e, c, at, at + ExprLen(e), pool, vis, slot)
    && ArmsAt(cases, |cases|, c, at + ExprLen(e) + 3, bodies, pool, slot)
    && (final.Else? ==> bodies >= 3 && JumpAt(c, bodies - 3, JMP, bodies + BodiesLen(cases, |cases|)))
  }

  lemma SelectionKept(it: Item, v: Emission, w: Emission, at: nat, bodies: nat, vis: Slots, slot: nat)
    requires it.Switch? && Follows(v, w) && w.plan.near
    requires v.plan.near ==> SelectionAt(it.subject, it.cases, it.final, v.plan.fin, at, bodies, v.pool, vis, slot)
    ensures SelectionAt(it.subject, it.cases, it.final, w.plan.fin, at, bodies, w.pool, vis, slot)
  {
    hide SubjectAt, ArmsAt, JumpAt, ExprLen, BodiesLen;
    var p := at + ExprLen(it.subject);
    SubjectKept(v, w, it.subject, at, p, slot, vis);
    ArmsKept(it.cases, |it.cases|, v, w, p + 3, bodies, slot);
    if it.final.Else? {
      JumpFollows(v, w, bodies - 3, JMP, bodies + BodiesLen(it.cases, |it.cases|));
    }
  }

  lemma SwitchLaidOut(e: Expr, cases: seq<Case>, final: Final, c: seq<byte>, at: nat, bodies: nat,
          exit: nat, pool: seq<Value>, vis: Slots, base: nat)
    requires bodies == at + ExprLen(e) + 3 + ArmsLen(cases, |cases|) + ElseJump(final)
    requires exit == bodies + BodiesLen(cases, |cases|) + FinalCaseLen(final)
    requires SelectionAt(e, cases, final, c, at, bodies, pool, vis, base)
    requires BranchesLaidOut(cases, final, c, bodies, exit, pool, vis, base + 1)
    ensures ItemAt(Switch(e, cases, final), c, at, pool, vis, base) && exit == at + ItemLen(Switch(e, cases, final))
  {
    hide ExprAt, ExprLen, ArmsAt, ArmsLen, BodiesAt, BodiesLen, BodiesSlots, BlockAt, BlockLen, JumpAt, SlotAt, OpAt;
    assert exit == at + ItemLen(Switch(e, cases, final));
    assert FinalAt(cases, final, c, bodies, exit, pool, vis, base + 1);
  }

  // All the bodies of a conditional, with the else branch last.
  ghost predicate BranchesLaidOut(cases: seq<Case>, final: Final, c: seq<byte>, bodies: nat, exit: nat,
          pool: seq<Value>, vis: Slots, base: nat) {
    && BodiesAt(cases, |cases|, c, bodies, exit, pool, vis, base)
    && (final.Else? ==>
          var (at, higher) := (bodies + BodiesLen(cases, |cases|), base + BodiesSlots(cases, |cases|));
          CaseAt(final.body, false, c, at, exit, pool, vis, higher))
  }

  lemma TestLaidOut(cases: seq<Case>, i: nat, c: seq<byte>, at: nat, bodies: nat, pool: seq<Value>, vis: Slots,
          p: nat, q: nat)
    requires i < |cases| && TestsAt(cases, i, c, at, bodies, pool, vis)
    requires p == at + TestsLen(cases, i) && q == p + ExprLen(cases[i].test) && ExprAt(cases[i].test, c, p, pool, vis)
    requires JumpAt(c, q, JMP_T, bodies + BodiesLen(cases, i)) && OpAt(c, q + 3, POP)
    ensures TestsAt(cases, i + 1, c, at, bodies, pool, vis)
  {
    hide ExprAt, ExprLen, JumpAt, OpAt, BodiesLen;
    assert TestIn(cases, i, c, at, bodies, pool, vis);
  }

  lemma ArmLaidOut(cases: seq<Case>, i: nat, c: seq<byte>, at: nat, bodies: nat, pool: seq<Value>, slot: nat,
          vis: Slots, p: nat, q: nat)
    requires i < |cases| && ArmsAt(cases, i, c, at, bodies, pool, slot) && IsCaseLabel(cases[i].test)
    requires p == at + ArmsLen(cases, i) && SlotAt(c, p, LOAD, slot)
    requires ExprAt(cases[i].test, c, p + 2, pool, vis) && q == p + 2 + ExprLen(cases[i].test)
    requires OpAt(c, q, CMP_EQ) && JumpAt(c, q + 1, JMP_T, bodies + BodiesLen(cases, i)) && OpAt(c, q + 4, POP)
    ensures ArmsAt(cases, i + 1, c, at, bodies, pool, slot)
  {
    hide ExprLen, JumpAt, BodiesLen;
    assert ArmIn(cases, i, c, at, bodies, pool, slot);
  }

  // The first i tests are there, and so are the labels of their bodies.
  ghost predicate TestsDone(v0: Emission, u0: Emission, v: Emission, cases: seq<Case>, i: nat, bodies: nat, vis: Slots)
    requires i <= |cases|
  {
    && Continues(v0, v) && Follows(u0, v) && u0.plan.targets <= v.plan.targets
    && |v.labels| == |v.plan.targets| == |u0.labels| + i
    && LabelsAt(cases, i, v.plan.targets, |u0.labels|, bodies)
    && (v.plan.near ==> TestsAt(cases, i, v.plan.fin, |u0.code|, bodies, v.pool, vis))
  }

  lemma OneMoreTest(v0: Emission, u0: Emission, u: Emission, w: Emission, cases: seq<Case>, i: nat, bodies: nat,
          vis: Slots)
    requires i < |cases| && TestsDone(v0, u0, u, cases, i, bodies, vis) && |u.code| == |u0.code| + TestsLen(cases, i)
    requires Continues(v0, w) && Follows(u, w) && |w.code| == |u.code| + ExprLen(cases[i].test) + 4
    requires |w.labels| == |u.labels| + 1 && w.plan.targets == u.plan.targets + [bodies + BodiesLen(cases, i)]
    requires ExprAt(cases[i].test, w.plan.fin, |u.code|, w.pool, vis) && OpAt(w.plan.fin, |w.code| - 1, POP)
    requires w.plan.near ==> JumpAt(w.plan.fin, |w.code| - 4, JMP_T, bodies + BodiesLen(cases, i))
    ensures TestsDone(v0, u0, w, cases, i + 1, bodies, vis)
  {
    hide Continues, Follows, ExprAt, ExprLen, OpAt, JumpAt, BodiesLen, TestsLen, TestIn, LabelIn;
    LabelLaidOut(cases, i, u.plan.targets, w.plan.targets, |u0.labels|, bodies);
    FollowsTwice(u0, u, w);
    if w.plan.near {
      TestsKept(cases, i, u, w, |u0.code|, bodies, vis);
      TestLaidOut(cases, i, w.plan.fin, |u0.code|, bodies, w.pool, vis, |u.code|, |w.code| - 4);
    }
  }

  lemma TestsStart(v0: Emission, u0: Emission, cases: seq<Case>, bodies: nat, vis: Slots)
    requires Sound(u0) && Continues(v0, u0)
    ensures TestsDone(v0, u0, u0, cases, 0, bodies, vis) && TestsLen(cases, 0) == TestsConsts(cases, 0) == 0
    ensures forall names :: TestsScoped(cases, 0, names)
  {
    hide Continues;
  }

  lemma TestsParts(v0: Emission, u0: Emission, v: Emission, cases: seq<Case>, i: nat, bodies: nat, vis: Slots)
    requires i <= |cases| && TestsDone(v0, u0, v, cases, i, bodies, vis)
    ensures Continues(v0, v) && Follows(u0, v) && u0.plan.targets <= v.plan.targets
    ensures |v.labels| == |v.plan.targets| == |u0.labels| + i && LabelsAt(cases, i, v.plan.targets, |u0.labels|, bodies)
    ensures v.plan.near ==> TestsAt(cases, i, v.plan.fin, |u0.code|, bodies, v.pool, vis)
  {
    hide Continues, Follows, LabelsAt, TestsAt;
  }

  ghost predicate ArmsDone(v0: Emission, u0: Emission, v: Emission, cases: seq<Case>, i: nat, bodies: nat, slot: nat)
    requires i <= |cases|
  {
    && Continues(v0, v) && Follows(u0, v) && u0.plan.targets <= v.plan.targets
    && |v.labels| == |v.plan.targets| == |u0.labels| + i
    && LabelsAt(cases, i, v.plan.targets, |u0.labels|, bodies)
    && (v.plan.near ==> ArmsAt(cases, i, v.plan.fin, |u0.code|, bodies, v.pool, slot))
  }

  lemma OneMoreArm(v0: Emission, u0: Emission, u: Emission, w: Emission, cases: seq<Case>, i: nat, bodies: nat,
          slot: nat, vis: Slots)
    requires i < |cases| && ArmsDone(v0, u0, u, cases, i, bodies, slot) && |u.code| == |u0.code| + ArmsLen(cases, i)
    requires Continues(v0, w) && Follows(u, w) && |w.code| == |u.code| + ExprLen(cases[i].test) + 7
    requires |w.labels| == |u.labels| + 1 && w.plan.targets == u.plan.targets + [bodies + BodiesLen(cases, i)]
    requires IsCaseLabel(cases[i].test) && SlotAt(w.plan.fin, |u.code|, LOAD, slot)
    requires ExprAt(cases[i].test, w.plan.fin, |u.code| + 2, w.pool, vis)
    requires OpAt(w.plan.fin, |w.code| - 5, CMP_EQ) && OpAt(w.plan.fin, |w.code| - 1, POP)
    requires w.plan.near ==> JumpAt(w.plan.fin, |w.code| - 4, JMP_T, bodies + BodiesLen(cases, i))
    ensures ArmsDone(v0, u0, w, cases, i + 1, bodies, slot)
  {
    hide Continues, Follows, ExprAt, ExprLen, OpAt, SlotAt, JumpAt, BodiesLen, ArmsLen, ArmIn, LabelIn, IsCaseLabel;
    LabelLaidOut(cases, i, u.plan.targets, w.plan.targets, |u0.labels|, bodies);
    FollowsTwice(u0, u, w);
    if w.plan.near {
      ArmsKept(cases, i, u, w, |u0.code|, bodies, slot);
      ArmLaidOut(cases, i, w.plan.fin, |u0.code|, bodies, w.pool, slot, vis, |u.code|, |w.code| - 5);
    }
  }

  lemma ArmsStart(v0: Emission, u0: Emission, cases: seq<Case>, bodies: nat, slot: nat)
    requires Sound(u0) && Continues(v0, u0)
    ensures ArmsDone(v0, u0, u0, cases, 0, bodies, slot) && ArmsLen(cases, 0) == TestsConsts(cases, 0) == 0
    ensures LabelsFit(cases, 0)
  {
    hide Continues;
  }

  lemma ArmsParts(v0: Emission, u0: Emission, v: Emission, cases: seq<Case>, i: nat, bodies: nat, slot: nat)
    requires i <= |cases| && ArmsDone(v0, u0, v, cases, i, bodies, slot)
    ensures Continues(v0, v) && Follows(u0, v) && u0.plan.targets <= v.plan.targets
    ensures |v.labels| == |v.plan.targets| == |u0.labels| + i && LabelsAt(cases, i, v.plan.targets, |u0.labels|, bodies)
    ensures v.plan.near ==> ArmsAt(cases, i, v.plan.fin, |u0.code|, bodies, v.pool, slot)
  {
    hide Continues, Follows, LabelsAt, ArmsAt;
  }

  lemma LabelLaidOut(cases: seq<Case>, n: nat, targets: seq<nat>, targets2: seq<nat>, top: nat, p: nat)
    requires n <= |cases| && LabelsAt(cases, n, targets, top, p) && |targets| == top + n
    requires targets2 == targets + [p + BodiesLen(cases, n)]
    ensures LabelsAt(cases, n + 1, targets2, top, p) && LabelIn(cases, n, targets2, top, p)
  {
    LabelsKept(cases, n, targets, targets2, top, p);
  }

  // ----- choices -----

  // The constants that number the branches.
  ghost predicate Numbered(ids: seq<nat>, pool: seq<Value>) {
    forall i | 0 <= i < |ids| :: ids[i] < |pool| && pool[ids[i]] == Int(i)
  }

  // The operands of picks a up to b, when the picks start at p.
  ghost function OpenPicks(p: nat, a: nat, b: nat): set<nat> {
    set k | p + 8 * a <= k < p + 8 * b && IsOperand(p, k)
  }

  ghost predicate IsOperand(p: nat, k: int) {
    (k - p) % 8 == 5 || (k - p) % 8 == 6
  }

  lemma NoPicks(imm: set<nat>, p: nat, a: nat)
    ensures imm + OpenPicks(p, a, a) == imm
  {
  }

  lemma OpenOneMore(p: nat, a: nat, b: nat)
    requires a <= b
    ensures OpenPicks(p, a, b + 1) == OpenPicks(p, a, b) + {p + 8 * b + 5, p + 8 * b + 6}
  {
    assert OpenPicks(p, a, b + 1) <= OpenPicks(p, a, b) + {p + 8 * b + 5, p + 8 * b + 6};
    assert {p + 8 * b + 5, p + 8 * b + 6} <= OpenPicks(p, a, b + 1);
  }

  lemma OpenOneLess(imm: set<nat>, p: nat, a: nat, b: nat)
    requires a < b && forall k | k in imm :: k < p
    ensures imm + OpenPicks(p, a, b) - {p + 8 * a + 5, p + 8 * a + 6} == imm + OpenPicks(p, a + 1, b)
  {
  }

  function PickTarget(bs: seq<Branch>, i: nat, bodies: nat): nat
    requires i < |bs|
  {
    bodies + BranchesLen(bs, i)
  }

  // A code offset that is kept in a 16-bit integer.
  function Cut16(offset: nat): nat { offset % 0x1_0000 }

  // The offsets of the operands of the picks, which start at p.
  ghost predicate Patches(patches: seq<nat>, p: nat) {
    forall i | 0 <= i < |patches| :: patches[i] == Cut16(p + PicksLen(i) + 5)
  }

  // A pick whose jump may still be open: its operand is planned.
  ghost predicate PickPlanned(bs: seq<Branch>, i: nat, c: seq<byte>, at: nat, t: nat, pool: seq<Value>)
    requires i < |bs|
  {
    var p := at + PicksLen(i);
    && OpAt(c, p, LOAD_CHOICE_ID)
    && ConstAt(c, p + 1, CONST, pool, Int(i))
    && OpAt(c, p + 3, CMP_EQ)
    && OpAt(c, p + 4, JMP_T)
    && p + 7 < |c| && p + 7 <= t
    && c[p + 5] == HighByte(t - p - 7) && c[p + 6] == LowByte(t - p - 7)
    && OpAt(c, p + 7, POP)
  }

  ghost predicate PicksPlanned(bs: seq<Branch>, n: nat, c: seq<byte>, at: nat, bodies: nat, pool: seq<Value>)
    requires n <= |bs|
  {
    forall i | 0 <= i < n :: PickPlanned(bs, i, c, at, PickTarget(bs, i, bodies), pool)
  }

  lemma PicksPlannedKept(bs: seq<Branch>, n: nat, v: Emission, w: Emission, at: nat, bodies: nat)
    requires n <= |bs| && Follows(v, w) && PicksPlanned(bs, n, v.plan.fin, at, bodies, v.pool)
    ensures PicksPlanned(bs, n, w.plan.fin, at, bodies, w.pool)
  {
    hide PickTarget, HighByte, LowByte;
    forall i | 0 <= i < n
      ensures PickPlanned(bs, i, w.plan.fin, at, PickTarget(bs, i, bodies), w.pool)
    {
      PickPlannedKept(bs, i, v, w, at, PickTarget(bs, i, bodies));
    }
  }

  lemma PickEmitted(bs: seq<Branch>, i: nat, c: seq<byte>, c2: seq<byte>, id: byte, at: nat, t: nat, pool: seq<Value>)
    requires i < |bs| && |c| == at + PicksLen(i) && |c| + 8 <= t && id < |pool| && pool[id] == Int(i)
    requires c2 == c + [LOAD_CHOICE_ID] + [CONST, id] + [CMP_EQ] + [JMP_T, HighByte(t - |c| - 7), LowByte(t - |c| - 7)]
             + [POP]
    ensures PickPlanned(bs, i, c2, at, t, pool) && |c2| == |c| + 8
  {
    hide HighByte, LowByte;
  }

  lemma PickReady(bs: seq<Branch>, i: nat, v: Emission, at: nat, bodies: nat)
    requires i < |bs| && PicksPlanned(bs, |bs|, v.plan.fin, at, bodies, v.pool) && |v.code| == PickTarget(bs, i, bodies)
    ensures var offset := at + PicksLen(i) + 5;
      && offset + 2 <= |v.code| && offset + 2 <= |v.plan.fin|
      && v.plan.fin[offset] == HighByte(|v.code| - offset - 2)
      && v.plan.fin[offset + 1] == LowByte(|v.code| - offset - 2)
  {
    hide HighByte, LowByte, BranchesLen;
    assert PickPlanned(bs, i, v.plan.fin, at, PickTarget(bs, i, bodies), v.pool);
  }

  lemma Settled(v: Emission, w: Emission, n: nat)
    requires AllSet(v, n) && Extends(v, w)
    ensures AllSet(w, n)
  {
    AllSetLater(v, w, n);
  }

  lemma SettledSame(v: Emission, w: Emission, n: nat)
    requires AllSet(v, n) && w.labels == v.labels && w.plan.targets == v.plan.targets && |v.plan.fin| <= |w.plan.fin|
    ensures AllSet(w, n)
  {
  }

  lemma PickPlannedKept(bs: seq<Branch>, i: nat, v: Emission, w: Emission, at: nat, t: nat)
    requires i < |bs| && Follows(v, w) && PickPlanned(bs, i, v.plan.fin, at, t, v.pool)
    ensures PickPlanned(bs, i, w.plan.fin, at, t, w.pool)
  {
    hide HighByte, LowByte;
  }

  ghost predicate PickShort(bs: seq<Branch>, i: nat, at: nat, bodies: nat)
    requires i < |bs|
  {
    PickTarget(bs, i, bodies) - (at + PicksLen(i) + 7) < 0x1_0000
  }

  ghost predicate PicksShort(bs: seq<Branch>, n: nat, at: nat, bodies: nat)
    requires n <= |bs|
  {
    forall i | 0 <= i < n :: PickShort(bs, i, at, bodies)
  }

  lemma PicksLaidOut(bs: seq<Branch>, c: seq<byte>, at: nat, bodies: nat, pool: seq<Value>)
    requires PicksPlanned(bs, |bs|, c, at, bodies, pool) && PicksShort(bs, |bs|, at, bodies)
    ensures PicksAt(bs, |bs|, c, at, bodies, pool)
  {
    hide HighByte, LowByte, BranchesLen, JumpAt;
    forall i | 0 <= i < |bs|
      ensures PickIn(bs, i, c, at, bodies, pool)
    {
      var p := at + PicksLen(i);
      assert PickPlanned(bs, i, c, at, PickTarget(bs, i, bodies), pool) && PickShort(bs, i, at, bodies);
      JumpLands(c, p + 4, JMP_T, PickTarget(bs, i, bodies));
    }
  }

  // A branch: the text of the choice, and the body.
  ghost predicate BranchTextAt(b: Branch, c: seq<byte>, at: nat, pool: seq<Value>) {
    var q := at + 1 + PieceLen(b.start);
    && OpAt(c, at, POP) && PieceAt(b.start, c, at + 1, pool) && PieceAt(b.inner, c, q, pool)
    && OpAt(c, q + PieceLen(b.inner), FLUSH)
  }

  lemma BranchTextKept(b: Branch, v: Emission, w: Emission, at: nat)
    requires Follows(v, w) && BranchTextAt(b, v.plan.fin, at, v.pool)
    ensures BranchTextAt(b, w.plan.fin, at, w.pool)
  {
  }

  ghost predicate BranchAt(b: Branch, c: seq<byte>, at: nat, pool: seq<Value>, vis: Slots, base: nat) {
    BranchTextAt(b, c, at, pool) && BlockAt(b.body, c, at + PieceLen(b.start) + PieceLen(b.inner) + 2, pool, vis, base)
  }

  lemma BranchesStart(bs: seq<Branch>, v: Emission, names: Names, vis: Slots, base: nat)
    ensures BranchesLen(bs, 0) == BranchesSlots(bs, 0) == BranchesConsts(bs, 0) == 0 && BranchesScoped(bs, 0, names)
    ensures BranchesAt(bs, 0, v.plan.fin, |v.code|, v.pool, vis, base)
  {
  }

  lemma BranchLaidOut(bs: seq<Branch>, i: nat, v: Emission, w: Emission, at: nat, vis: Slots, base: nat)
    requires i < |bs| && Follows(v, w) && w.plan.near
      && (v.plan.near ==> BranchesAt(bs, i, v.plan.fin, at, v.pool, vis, base))
    requires BranchAt(bs[i], w.plan.fin, at + BranchesLen(bs, i), w.pool, vis, base + BranchesSlots(bs, i))
    ensures BranchesAt(bs, i + 1, w.plan.fin, at, w.pool, vis, base)
  {
    hide BlockAt, BlockLen, PieceAt, PieceLen;
    BranchesKeep(bs, i, v.plan.fin, w.plan.fin, at, v.pool, w.pool, vis, base);
    assert BranchIn(bs, i, w.plan.fin, at, w.pool, vis, base);
  }

  lemma OfferLaidOut(bs: seq<Branch>, i: nat, v: Emission, w: Emission, at: nat)
    requires i < |bs| && Follows(v, w) && OffersAt(bs, i, v.plan.fin, at, v.pool)
    requires var p := at + OffersLen(bs, i); OfferAt(bs[i], i, w.plan.fin, p, w.pool)
    ensures OffersAt(bs, i + 1, w.plan.fin, at, w.pool)
  {
    hide PieceAt, PieceLen, ConstAt, OpAt, OffersLen;
    OffersKeep(bs, i, v.plan.fin, w.plan.fin, at, v.pool, w.pool);
    assert OfferIn(bs, i, w.plan.fin, at, w.pool);
  }

  ghost predicate OfferAt(b: Branch, i: nat, c: seq<byte>, p: nat, pool: seq<Value>) {
    var q := p + PieceLen(b.start);
    var r := q + PieceLen(b.option);
    PieceAt(b.start, c, p, pool) && PieceAt(b.option, c, q, pool) && ConstAt(c, r, CONST, pool, Int(i))
      && OpAt(c, r + 2, CHOICE)
  }

  lemma NumberedKept(ids: seq<nat>, v: Emission, w: Emission)
    requires Numbered(ids, v.pool) && Extends(v, w)
    ensures Numbered(ids, w.pool)
  {
  }

  ghost predicate LabelsLaidOut(bs: seq<Branch>, c: seq<byte>, at: nat, pool: seq<Value>) {
    OpAt(c, at, FLUSH) && OffersAt(bs, |bs|, c, at + 1, pool) && OpAt(c, at + 1 + OffersLen(bs, |bs|), FLUSH)
  }

  lemma OffersKept(bs: seq<Branch>, v: Emission, w: Emission, at: nat)
    requires Extends(v, w) && OffersAt(bs, |bs|, v.plan.fin, at, v.pool)
    ensures OffersAt(bs, |bs|, w.plan.fin, at, w.pool)
  {
    OffersKeep(bs, |bs|, v.plan.fin, w.plan.fin, at, v.pool, w.pool);
  }

  lemma LabelsFollow(bs: seq<Branch>, v: Emission, w: Emission, at: nat)
    requires Follows(v, w) && LabelsLaidOut(bs, v.plan.fin, at, v.pool)
    ensures LabelsLaidOut(bs, w.plan.fin, at, w.pool)
  {
    hide OffersAt;
    OffersKeep(bs, |bs|, v.plan.fin, w.plan.fin, at + 1, v.pool, w.pool);
  }

  lemma ChoicesOpened(v0: Emission, v1: Emission, v2: Emission, v3: Emission, bs: seq<Branch>, picks: nat, bodies: nat)
    requires Sound(v0) && Sound(v1) && Extends(v0, v1) && Keeps(v1, v2) && Extends(v2, v3)
    requires v2.labels == v1.labels && v2.plan.targets == v1.plan.targets && v3.labels == v2.labels
    requires PicksPlanned(bs, |bs|, v2.plan.fin, picks, bodies, v2.pool)
    ensures Keeps(v0, v3) && AllSet(v3, |v0.labels|) && PicksPlanned(bs, |bs|, v3.plan.fin, picks, bodies, v3.pool)
    ensures forall k | k in v0.plan.imm :: k < |v0.code|
    ensures Follows(v1, v3) && v3.plan.imm == v2.plan.imm && v1.plan.imm == v0.plan.imm && |v0.code| <= |v1.code|
  {
    hide PicksPlanned;
    assert Keeps(v0, v3);
    KeepsFollows(v2, v3);
    PicksPlannedKept(bs, |bs|, v2, v3, picks, bodies);
  }

  lemma ChoicesLaidOut(bs: seq<Branch>, v1: Emission, v3: Emission, w: Emission, at: nat, picks: nat, vis: Slots,
          base: nat)
    requires Follows(v1, v3) && Follows(v3, w) && w.plan.near && picks == at + 2 + OffersLen(bs, |bs|)
    requires LabelsLaidOut(bs, v1.plan.fin, at, v1.pool) && OpAt(v3.plan.fin, picks + PicksLen(|bs|), EXIT)
    requires PicksAt(bs, |bs|, w.plan.fin, picks, picks + PicksLen(|bs|) + 1, w.pool)
    requires BranchesAt(bs, |bs|, w.plan.fin, picks + PicksLen(|bs|) + 1, w.pool, vis, base)
    ensures StmtAt(Choices(bs), w.plan.fin, at, w.pool, vis, base)
  {
    hide OffersAt, OffersLen, PicksAt, BranchesAt, BranchesLen;
    LabelsFollow(bs, v1, w, at);
  }

  lemma PieceKept(v: Emission, w: Emission, s: Option<string>, p: nat)
    requires Follows(v, w) && PieceAt(s, v.plan.fin, p, v.pool)
    ensures PieceAt(s, w.plan.fin, p, w.pool)
  {
  }

  // ----- paths -----

  // The path of everything before the first knot.  No identifier is spelled like this.
  function SourceOf(main: Option<seq<Stmt>>, defs: seq<(string, PathDef)>): map<string, PathDef> {
    if defs == [] then (if main.Some? then map[MAIN := PathDef([], main.value, false)] else map[])
    else
      var (name, d) := defs[|defs| - 1];
      SourceOf(main, defs[..|defs| - 1])[name := d]
  }

  // The names of the paths of a file.
  function FileSorts(defs: seq<(string, PathDef)>): map<string, Sort> {
    if defs == [] then map[]
    else
      var (name, d) := defs[|defs| - 1];
      FileSorts(defs[..|defs| - 1])[name := Routine(|d.params|)]
  }

  ghost predicate DistinctPaths(defs: seq<(string, PathDef)>) {
    forall i, j | 0 <= i < j < |defs| :: defs[i].0 != defs[j].0
  }

  function PathCost(d: PathDef): Used {
    Used(BlockConsts(d.body), BlockLen(d.body) + 1, |d.params| + BlockSlots(d.body))
  }

  // What a path needs to be accepted: distinct parameters, names that are known, and room.
  ghost predicate PathAccepted(d: PathDef, file: map<string, Sort>) {
    Distinct(d.params) && PathScoped(d, file) && PathCost(d).Fits()
  }

  ghost predicate PathAcceptedIn(defs: seq<(string, PathDef)>, i: nat, file: map<string, Sort>)
    requires i < |defs|
  {
    PathAccepted(defs[i].1, file)
  }

  ghost predicate FileAccepted(main: Option<seq<Stmt>>, defs: seq<(string, PathDef)>) {
    && DistinctPaths(defs)
    && (main.Some? ==> PathAccepted(PathDef([], main.value, false), FileSorts(defs)))
    && forall i | 0 <= i < |defs| :: PathAcceptedIn(defs, i, FileSorts(defs))
  }

  ghost predicate PathsScoped(src: map<string, PathDef>, file: map<string, Sort>) {
    forall f | f in src :: PathScoped(src[f], file)
  }

  // The names of a file are those of its paths.
  lemma {:induction false} FileNamesPaths(main: Option<seq<Stmt>>, defs: seq<(string, PathDef)>)
    ensures NamesPaths(FileSorts(defs), SourceOf(main, defs))
  {
    if defs != [] {
      FileNamesPaths(main, defs[..|defs| - 1]);
    }
  }

  lemma FileGrows(main: Option<seq<Stmt>>, defs: seq<(string, PathDef)>, i: nat, file: map<string, Sort>)
    requires i < |defs|
    ensures SourceOf(main, defs[..i + 1]) == SourceOf(main, defs[..i])[defs[i].0 := defs[i].1]
    ensures FileSorts(defs[..i + 1]) == FileSorts(defs[..i])[defs[i].0 := Routine(|defs[i].1.params|)]
    ensures PathsScoped(SourceOf(main, defs[..i]), file) && PathScoped(defs[i].1, file) ==>
      PathsScoped(SourceOf(main, defs[..i + 1]), file)
  {
    hide PathScoped;
    assert defs[..i + 1][..i] == defs[..i];
  }

  // What the generator knows at the start of a path.
  lemma StartScopes(file: map<string, Symbol>, d: PathDef)
    requires Distinct(d.params)
    ensures SortsOf([file, ParamSymbols(d.params)]) == ScopesOf(SortsIn(file), d)
  {
    var top := ParamSymbols(d.params);
    ParamSortsIn(d.params);
    assert SortsOf([]) == [];
    hide SortsIn, SortsOf, ParamSymbols, ParamSorts;
    SortsPushed([], file);
    SortsPushed([file], top);
    assert [] + [file] == [file] && [file] + [top] == [file, top];
  }

  lemma ParamSortsIn(params: seq<string>)
    requires Distinct(params)
    ensures SortsIn(ParamSymbols(params)) == ParamSorts(params)
  {
    hide ParamSlots;
    ParamsInScope(params);
  }

  lemma {:induction false} InFile(defs: seq<(string, PathDef)>, n: nat, x: string)
    requires n <= |defs|
    ensures x in FileSorts(defs[..n]) <==> exists j :: 0 <= j < n && defs[j].0 == x
    decreases n
  {
    if n > 0 {
      InFile(defs, n - 1, x);
      assert defs[..n][..n - 1] == defs[..n - 1];
      assert x == defs[n - 1].0 ==> exists j :: 0 <= j < n && defs[j].0 == x;
    }
  }

  // One more path of the file; names holds those in front of it.
  lemma OneMoreName(defs: seq<(string, PathDef)>, i: nat, names: map<string, Symbol>)
    requires i < |defs| && SortsIn(names) == FileSorts(defs[..i]) && DistinctPaths(defs[..i])
    ensures if defs[i].0 in names then !DistinctPaths(defs) else
            && SortsIn(names[defs[i].0 := PathName(|defs[i].1.params|)]) == FileSorts(defs[..i + 1])
            && DistinctPaths(defs[..i + 1])
  {
    InFile(defs, i, defs[i].0);
    FileGrows(None, defs, i, map[]);
    assert defs[i].0 in names <==> defs[i].0 in SortsIn(names);
    hide FileSorts;
    if defs[i].0 in names {
      var j :| 0 <= j < i && defs[j].0 == defs[i].0;
    } else {
      forall j | 0 <= j < i
        ensures defs[j].0 != defs[i].0
      {
      }
    }
  }

  lemma SameParam(params: seq<string>, i: nat)
    requires i < |params| && Distinct(params[..i]) && params[i] in ParamSymbols(params[..i])
    ensures !Distinct(params)
  {
    ParamsInScope(params[..i]);
    var k :| 0 <= k < i && params[..i][k] == params[i];
  }

  function ParamSymbols(params: seq<string>): map<string, Symbol> {
    var slots := ParamSlots(params);
    map x | x in slots :: Param(slots[x])
  }

  ghost predicate OnlyPaths(names: map<string, Symbol>) {
    forall x | x in names :: names[x].PathName?
  }

  lemma OneMoreParam(params: seq<string>, i: nat)
    requires i < |params| && Distinct(params[..i]) && params[i] !in ParamSymbols(params[..i])
    ensures Distinct(params[..i + 1])
      && ParamSymbols(params[..i + 1]) == ParamSymbols(params[..i])[params[i] := Param(i)]
  {
    hide ParamSlots;
    var ps, x := params[..i], params[i];
    assert params[..i + 1] == ps + [x];
    ParamsInScope(ps);
    assert x !in ps;
    ParamsInScope(ps + [x]);
    forall k | 0 <= k < i
      ensures ParamSlots(ps)[ps[k]] == ParamSlots(ps + [x])[ps[k]]
    {
      ParamSlot(ps, k);
      ParamSlot(ps + [x], k);
    }
    ParamSlot(ps + [x], i);
  }

  lemma ParamsInScope(ps: seq<string>)
    requires Distinct(ps)
    ensures forall x :: x in ParamSlots(ps) <==> x in ps
  {
    forall x | x in ps
      ensures x in ParamSlots(ps)
    {
      var k :| 0 <= k < |ps| && ps[k] == x;
      ParamSlot(ps, k);
    }
  }

  lemma ParamSlot(params: seq<string>, k: nat)
    requires Distinct(params) && k < |params|
    ensures params[k] in ParamSlots(params) && ParamSlots(params)[params[k]] == k
  {
  }

  // The scopes a path starts with.
  lemma StartPath(file: map<string, Symbol>, params: seq<string>)
    requires OnlyPaths(file) && Distinct(params)
    ensures var scopes := [file, ParamSymbols(params)];
      Resolved(scopes, [], |params|) && VisOf(scopes) == ParamSlots(params)
  {
    hide ParamSlots, VisOf;
    var top := ParamSymbols(params);
    VisOfPush([], file);
    VisOfPush([file], top);
    assert [] + [file] == [file] && [file] + [top] == [file, top];
    assert VisOf([]) == map[] by { VisOfNothing(); }
    assert ParamsOf(file) == map[];
    assert ParamsOf(top) == ParamSlots(params);
    forall x | x in top
      ensures top[x].Param? && top[x].slot < |params|
    {
      ParamsInScope(params);
      var k :| 0 <= k < |params| && params[k] == x;
      ParamSlot(params, k);
    }
  }

  function ParamsOf(top: map<string, Symbol>): Slots {
    map x | x in top && top[x].Param? :: top[x].slot
  }

  lemma VisOfNothing()
    ensures VisOf([]) == map[]
  {
  }

  lemma VisOfPush(scopes: Scopes, top: map<string, Symbol>)
    ensures VisOf(scopes + [top]) == (VisOf(scopes) - top.Keys) + ParamsOf(top)
  {
    assert (scopes + [top])[..|scopes|] == scopes;
  }

  lemma PathReady(v1: Emission, v2: Emission, v3: Emission, v4: Emission, n: nat)
    requires v1.labels == [UNSET] && v1.plan == Plan([], {}, [n], true) && v1.branches == []
    requires Extends(v1, v2) && v3 == v2.(labels := v2.labels[0 := |v2.code|]) && |v2.code| == n && Extends(v3, v4)
      && Sound(v4)
    requires v4.labels == v3.labels && v4.branches == v3.branches
    ensures v4.plan.imm == {}
    ensures forall i | 0 <= i < |v4.branches| ::
      v4.branches[i].lab < |v4.labels| && v4.labels[v4.branches[i].lab] == v4.plan.targets[v4.branches[i].lab]
  {
    SameTargets(v3, v4);
    forall i | 0 <= i < |v4.branches|
      ensures v4.branches[i].lab < |v4.labels| && v4.labels[v4.branches[i].lab] == v4.plan.targets[v4.branches[i].lab]
    {
      assert Planned(v4.plan, v4.branches[i]);
    }
  }

  lemma PathSettled(v1: Emission, v2: Emission, v3: Emission, v4: Emission, n: nat)
    requires v1.labels == [UNSET] && v1.plan.targets == [n]
    requires Extends(v1, v2) && v3 == v2.(labels := v2.labels[0 := |v2.code|]) && |v2.code| == n
    requires Sound(v2) && Extends(v3, v4) && v4.labels == v3.labels
    ensures AllSet(v4, 0)
  {
    assert AllSet(v3, 0) by {
      assert v2.plan.targets[0] == n;
    }
    Settled(v3, v4, 0);
  }

  lemma OneMorePath(main: Option<seq<Stmt>>, defs: seq<(string, PathDef)>, i: nat, prog: M.Program, path: M.Path)
    requires i < |defs| && Compiled(SourceOf(main, defs[..i]), prog) && PathAt(defs[i].1, path)
    ensures Compiled(SourceOf(main, defs[..i + 1]), prog[defs[i].0 := path])
  {
    hide PathAt;
    var src, src2 := SourceOf(main, defs[..i]), SourceOf(main, defs[..i + 1]);
    assert defs[..i + 1][..i] == defs[..i];
    assert src2 == src[defs[i].0 := defs[i].1];
    forall f | f in src2
      ensures CompiledPath(src2, prog[defs[i].0 := path], f)
    {
      assert f != defs[i].0 ==> CompiledPath(src, prog, f);
    }
  }

  class Generator {
    var code: seq<byte>
    var pool: seq<Value>
    var labels: seq<nat>
    var branches: seq<Jump>
    var arity: nat
    var locals: nat
    var scopes: Scopes
    ghost var plan: Plan

    constructor ()
      ensures code == [] && pool == [] && labels == [] && branches == [] && scopes == [] && arity == 0 && locals == 0
      ensures Good() && plan == Plan([], {}, [], true)
    {
      code, pool, labels, branches, arity, locals, scopes := [], [], [], [], 0, 0, [];
      plan := Plan([], {}, [], true);
    }

    ghost function View(): Emission
      reads this
    {
      Emission(code, pool, labels, branches, plan)
    }

    ghost predicate Good()
      reads this
    {
      Sound(View()) && |pool| <= 255 && Resolved(scopes, pool, arity) && arity <= 255
    }

    ghost function Vis(): Slots
      reads this
    {
      VisOf(scopes)
    }

    ghost function Known(): Names
      reads `scopes
    {
      SortsOf(scopes)
    }

    ghost function Use(): Used
      reads `code, `pool, `arity, `locals
    {
      Used(|pool|, |code|, arity + locals)
    }

    // ----- bytes -----

    method EmitByte(b: byte)
      requires Sound(View())
      modifies this`code, this`plan
      ensures Sound(View()) && View() == Append(old(View()), [b]) && Extends(old(View()), View())
      ensures OpAt(plan.fin, old(|code|), b)
    {
      Appended(View(), [b]);
      code := code + [b];
      plan := plan.(fin := plan.fin + [b]);
    }

    method EmitConst(op: byte, arg: nat) returns (st: Status)
      requires Sound(View())
      modifies this`code, this`plan
      ensures st.Fine? <==> arg < 255
      ensures st.Fine? ==> Sound(View()) && View() == Append(old(View()), [op, arg]) && Extends(old(View()), View())
      ensures st.Fine? ==> SlotAt(plan.fin, old(|code|), op, arg)
    {
      if arg < 255 {
        Appended(View(), [op, arg]);
        code := code + [op, arg];
        plan := plan.(fin := plan.fin + [op, arg]);
        return Fine;
      }
      return Failed(Panic);
    }

    method AddConst(v: Value) returns (index: nat)
      modifies this`pool
      ensures index == old(|pool|) && View() == AddTo(old(View()), v)
    {
      index := |pool|;
      pool := pool + [v];
    }

    // An instruction with a new constant.  The index is cast to one byte before it is checked: index
    // 255 is rejected, so no index that the cast would change is ever reached.
    method EmitNewConst(op: byte, v: Value) returns (st: Status)
      requires Good()
      modifies this`code, this`pool, this`plan
      ensures st.Fine? <==> old(|pool|) < 255
      ensures st.Fine? ==>
        Good() && Extends(old(View()), View()) && |code| == old(|code|) + 2 && plan.near == old(plan).near
      ensures st.Fine? ==> |pool| == old(|pool|) + 1
      ensures st.Fine? ==> ConstAt(plan.fin, old(|code|), op, pool, v)
    {
      hide Sound, Extends, Resolved, VisOf, SortsOf;
      PoolGrows(View(), v);
      ResolvedKeeps(scopes, pool, pool + [v], arity);
      var k := AddConst(v);
      st := EmitConst(op, k % 256);
      if st.Fine? {
        ExtendsTwice(old(View()), AddTo(old(View()), v), View());
      }
    }

    // ----- jumps -----

    // The operand is a sentinel until it is patched; t is where the jump is going to lead.
    method EmitJump(op: byte, ghost t: nat) returns (offset: nat)
      requires Sound(View()) && |code| + 3 <= t
      modifies this`code, this`plan
      ensures Sound(View()) && offset == old(|code|) + 1
      ensures View() == OpenJump(old(View()), op, t - offset - 2)
      ensures |code| == old(|code|) + 3 && plan.near == old(plan).near
    {
      hide Sound, HighByte, LowByte, Resolved, VisOf, SortsOf;
      ghost var d := t - |code| - 3;
      JumpOpened(View(), op, d);
      code := code + [op, 255, 255];
      plan := plan.(fin := plan.fin + [op, HighByte(d), LowByte(d)], imm := plan.imm + {|code| - 2, |code| - 1});
      offset := |code| - 2;
    }

    // Let the jump whose operand is at offset lead to the end of the code so far.
    method PatchJump(offset: nat) returns (st: Status)
      requires Sound(View()) && offset + 2 <= |code|
      requires var d := |code| - offset - 2;
        d < 0x1_0000 ==> plan.fin[offset] == HighByte(d) && plan.fin[offset + 1] == LowByte(d)
      modifies this`code, this`plan
      ensures st.Fine? <==> old(|code|) - offset - 2 < 0x1_0000
      ensures st.Fine? ==> Sound(View()) && View() == CloseJump(old(View()), offset, old(|code|) - offset - 2)
    {
      hide Sound, HighByte, LowByte;
      var jump := |code| - offset - 2;
      if jump > 0xffff {
        return Failed(TooMuchCode);
      }
      JumpClosed(View(), offset, jump);
      code := code[offset := HighByte(jump)][offset + 1 := LowByte(jump)];
      plan := plan.(imm := plan.imm - {offset, offset + 1});
      return Fine;
    }

    // The same, for a jump that was emitted in state v and was going to lead here.
    method PatchHere(offset: nat, ghost v: Emission, ghost op: byte, ghost d: nat) returns (st: Status)
      requires Sound(View()) && Sound(v) && Keeps(OpenJump(v, op, d), View())
      requires offset == |v.code| + 1 && |v.code| + 3 + d == |code|
      modifies this`code, this`plan
      ensures st.Fine? <==> d < 0x1_0000
      ensures st.Fine? ==> Sound(View()) && Keeps(v, View()) && JumpAt(plan.fin, |v.code|, op, |code|)
      ensures st.Fine? ==> |code| == old(|code|) && plan == old(plan).(imm := old(plan).imm - {offset, offset + 1})
      ensures st.Fine? ==> Keeps(old(View()), View())
      ensures st.Fine? && Extends(OpenJump(v, op, d), old(View())) ==> Extends(v, View())
    {
      hide Sound, Keeps, Extends, HighByte, LowByte, JumpAt, Resolved, VisOf, SortsOf;
      ghost var w := View();
      JumpStillOpen(v, OpenJump(v, op, d), w, op, d);
      :- PatchJump(offset);
      JumpDone(v, OpenJump(v, op, d), w, View(), op, d);
      if Extends(OpenJump(v, op, d), w) {
        ExtendsKeeps(OpenJump(v, op, d), w);
        KeepsExtends(v, View());
      }
      KeepsItself(w);
      CloseKeeps(w, w, View(), offset, d);
      return Fine;
    }

    // ----- labels -----

    method AddLabel(ghost t: nat) returns (index: nat)
      requires Sound(View())
      modifies this`labels, this`plan
      ensures Sound(View()) && index == old(|labels|) && View() == NewLabel(old(View()), t)
    {
      LabelAdded(View(), t);
      index := |labels|;
      labels := labels + [UNSET];
      plan := plan.(targets := plan.targets + [t]);
    }

    method SetLabel(index: nat)
      requires Sound(View()) && index < |labels|
      modifies this`labels
      ensures Sound(View()) && labels == old(labels)[index := |code|]
    {
      LabelSet(View(), index, |code|);
      labels := labels[index := |code|];
    }

    // Emit a jump to a label and remember it until the end of the path.
    method EmitDeferred(op: byte, index: nat)
      requires Sound(View()) && index < |plan.targets| && |code| + 3 <= plan.targets[index]
      modifies this`code, this`branches, this`plan
      ensures Sound(View()) && View() == DeferJump(old(View()), op, index)
      ensures plan.near ==> JumpAt(plan.fin, old(|code|), op, plan.targets[index])
    {
      hide Sound, Resolved, VisOf, SortsOf;
      JumpDeferred(View(), op, index);
      var offset := EmitJump(op, plan.targets[index]);
      branches := branches + [Jump(index, offset)];
      plan := plan.(imm := old(plan).imm, near := plan.near && plan.targets[index] - offset - 2 < 0x1_0000);
    }

    // At the end of a path every deferred jump is filled in and the tables are emptied.
    method Backpatch() returns (st: Status)
      requires Sound(View()) && plan.imm == {}
      requires forall i | 0 <= i < |branches| ::
        branches[i].lab < |labels| && labels[branches[i].lab] == plan.targets[branches[i].lab]
      modifies this`code, this`labels, this`branches, this`plan
      ensures st.Fine? ==> code == old(plan).fin && labels == [] && branches == [] && old(plan).near
      ensures st.Fine? ==> plan == Plan(code, {}, [], true) && Sound(View())
      ensures old(plan).near ==> st.Fine?
    {
      hide Sound, Planned, FilledExcept, Resolved, VisOf, SortsOf;
      ghost var p := plan;
      var i := 0;
      ReadyToFill(View());
      assert branches[0..] == branches;
      while i < |branches|
        invariant 0 <= i <= |branches| && branches == old(branches) && labels == old(labels) && plan == p
        invariant FilledExcept(code, p.fin, branches[i..])
        invariant forall m | 0 <= m < |branches| :: Planned(p, branches[m])
        invariant forall m | 0 <= m < i :: Short(p, branches[m])
      {
        var j := branches[i];
        PlannedBounds(p, j);
        FilledLength(code, p.fin, branches[i..]);
        var test := labels[j.lab] - j.offset - 2;
        assert branches[i..][1..] == branches[i + 1..];
        if test > 0xffff {
          if p.near {
            ShortWhenNear(old(View()), i);
          }
          return Failed(TooMuchCode);
        }
        FillOne(code, p, branches[i..], test);
        code := code[j.offset := HighByte(test)][j.offset + 1 := LowByte(test)];
        i := i + 1;
      }
      AllFilled(code, p.fin);
      NearWhenShort(old(View()));
      NothingPending(code, pool);
      labels, branches := [], [];
      plan := Plan(code, {}, [], true);
      return Fine;
    }

    // ----- expressions -----

    method Expr(e: Expr) returns (st: Status)
      requires Good()
      modifies this`code, this`pool, this`plan
      ensures st.Fine? ==> Good() && Extends(old(View()), View()) && plan.near == old(plan).near
      ensures st.Fine? ==> |code| == old(|code|) + ExprLen(e) && ExprAt(e, plan.fin, old(|code|), pool, Vis())
      ensures st.Fine? ==> |pool| == old(|pool|) + ExprConsts(e)
      ensures Accepts(st.Fine?, ExprScoped(e, Known()), old(Use()), ExprCost(e))
      decreases e, 1
    {
      hide Sound, Extends, ArgsAt, ArgsLen, ArgsConsts, ArgsScoped, Find, SortsOf, VisOf, Resolved;
      match e
      case Lit(v) =>
        if v.Bool? {
          EmitByte(if v.b then TRUE else FALSE);
          ExtendsKeepsPool(old(View()), View(), scopes, arity);
          return Fine;
        } else {
          st := EmitNewConst(CONST, v);
        }
      case Name(x) => st := Identifier(x);
      case Prefix(op, arg) => st := UnaryOp(op, arg);
      case Infix(op, l, r) =>
        if op.And? || op.Or? {
          st := LogicalOp(op, l, r);
        } else if op.Contains? || op.Assign? {
          return Failed(Unsupported);
        } else {
          st := BinaryOp(op, l, r);
        }
      case Call(callee, args) =>
        if !callee.Name? {
          return Failed(Unsupported);
        }
        st := CallExpr(callee.id, args, CALL);
      case Select(_, _) => return Failed(Unsupported);
      case Missing => return Failed(Unsupported);
    }

    method UnaryOp(op: PrefixOp, arg: Expr) returns (st: Status)
      requires Good()
      modifies this`code, this`pool, this`plan
      ensures st.Fine? ==> Good() && Extends(old(View()), View()) && plan.near == old(plan).near
      ensures st.Fine? ==>
        |code| == old(|code|) + ExprLen(Prefix(op, arg)) && |pool| == old(|pool|) + ExprConsts(Prefix(op, arg))
      ensures st.Fine? ==> ExprAt(Prefix(op, arg), plan.fin, old(|code|), pool, Vis())
      ensures Accepts(st.Fine?, ExprScoped(Prefix(op, arg), Known()), old(Use()), ExprCost(Prefix(op, arg)))
      decreases Prefix(op, arg), 0
    {
      hide Sound, Extends, ArgsAt, ArgsLen, ArgsConsts, ArgsScoped, Find, SortsOf, VisOf, Resolved;
      ghost var v0 := View();
      :- Expr(arg);
      ghost var v := View();
      EmitByte(if op.Not? then NOT else NEG);
      ExtendsTwice(v0, v, View());
      ExprKept(arg, v, View(), |v0.code|, Vis());
      ResolvedKeeps(scopes, v.pool, pool, arity);
      return Fine;
    }

    method Identifier(x: string) returns (st: Status)
      requires Good()
      modifies this`code, this`pool, this`plan
      ensures st.Fine? ==> Good() && Extends(old(View()), View()) && plan.near == old(plan).near
      ensures st.Fine? ==> |code| == old(|code|) + 2 && ExprAt(Name(x), plan.fin, old(|code|), pool, Vis())
      ensures st.Fine? ==> |pool| == old(|pool|) + ExprConsts(Name(x))
      ensures Accepts(st.Fine?, ExprScoped(Name(x), Known()), old(Use()), ExprCost(Name(x)))
    {
      hide Sound, Extends, Find, SortsOf, VisOf, Resolved;
      ghost var names, vis := Known(), Vis();
      VisIsLookup(scopes, x);
      FindIsLookup(scopes, x);
      match Lookup(scopes, x)
      case None => return Failed(UnknownName);
      case Some(sym) =>
        LookupResolves(scopes, x, pool, arity);
        SymbolResolves(x, sym, pool, arity);
        match sym
        case Global(k, _) =>
          st := EmitConst(LOAD_GLOBAL, k % 256);
          assert Known() == names && Vis() == vis;
        case Param(slot) =>
          st := EmitConst(LOAD, slot % 256);
          assert Known() == names && Vis() == vis;
        case PathName(_) => return Failed(InvalidExpr);
    }

    method BinaryOp(op: InfixOp, l: Expr, r: Expr) returns (st: Status)
      requires Good() && !op.And? && !op.Or? && !op.Contains? && !op.Assign?
      modifies this`code, this`pool, this`plan
      ensures st.Fine? ==> Good() && Extends(old(View()), View()) && plan.near == old(plan).near
      ensures st.Fine? ==> |code| == old(|code|) + ExprLen(Infix(op, l, r))
      ensures st.Fine? ==> ExprAt(Infix(op, l, r), plan.fin, old(|code|), pool, Vis())
      ensures st.Fine? ==> |pool| == old(|pool|) + ExprConsts(Infix(op, l, r))
      ensures Accepts(st.Fine?, ExprScoped(Infix(op, l, r), Known()), old(Use()), ExprCost(Infix(op, l, r)))
      decreases Infix(op, l, r), 0
    {
      InfixParts(op, l, r, Known());
      hide Sound, Extends, ExprAt, ExprLen, OpAt, BinaryByte, ExprScoped, ExprConsts, SortsOf, Resolved, VisOf;
      ghost var v0 := View();
      :- Expr(l);
      ghost var v1 := View();
      :- Expr(r);
      ghost var v2 := View();
      EmitOperator(op);
      ExtendsTwice(v0, v1, v2);
      ExtendsTwice(v0, v2, View());
      ExtendsTwice(v1, v2, View());
      ExprKept(l, v1, View(), |v0.code|, Vis());
      ExprKept(r, v2, View(), |v1.code|, Vis());
      BinaryLaidOut(op, l, r, plan.fin, |v0.code|, |v1.code|, |v2.code|, pool, Vis());
      return Fine;
    }

    // The instruction of an operator; inequality is equality, negated.
    method EmitOperator(op: InfixOp)
      requires Sound(View())
      modifies this`code, this`plan
      ensures Sound(View()) && Extends(old(View()), View()) && plan.near == old(plan).near
      ensures |code| == old(|code|) + if op.Neq? then 2 else 1
      ensures OpAt(plan.fin, old(|code|), BinaryByte(op)) && (op.Neq? ==> OpAt(plan.fin, old(|code|) + 1, NOT))
    {
      hide Sound, Extends, Resolved, VisOf, SortsOf;
      ghost var v2 := View();
      EmitByte(BinaryByte(op));
      ghost var v3 := View();
      if op.Neq? {
        EmitByte(NOT);
        ExtendsTwice(v2, v3, View());
        OpKept(v3, View(), |v2.code|, CMP_EQ);
      }
    }

    // && and ||: the right operand is skipped when the left one decides.
    method LogicalOp(op: InfixOp, l: Expr, r: Expr) returns (st: Status)
      requires Good() && (op.And? || op.Or?)
      modifies this`code, this`pool, this`plan
      ensures st.Fine? ==> Good() && Extends(old(View()), View()) && plan.near == old(plan).near
      ensures st.Fine? ==> |code| == old(|code|) + ExprLen(Infix(op, l, r))
      ensures st.Fine? ==> ExprAt(Infix(op, l, r), plan.fin, old(|code|), pool, Vis())
      ensures st.Fine? ==> |pool| == old(|pool|) + ExprConsts(Infix(op, l, r))
      ensures Accepts(st.Fine?, ExprScoped(Infix(op, l, r), Known()), old(Use()), ExprCost(Infix(op, l, r)))
      decreases Infix(op, l, r), 0
    {
      InfixParts(op, l, r, Known());
      hide Sound, Extends, ExprAt, ExprLen, JumpAt, OpAt, ExprScoped, ExprConsts, SortsOf, VisOf, Resolved;
      ghost var v0 := View();
      :- Expr(l);
      ghost var v1 := View();
      :- SkipOrElse(if op.Or? then JMP_T else JMP_F, r);
      ExtendsTwice(v0, v1, View());
      ExprKept(l, v1, View(), |v0.code|, Vis());
      LogicalLaidOut(op, l, r, plan.fin, |v0.code|, |v1.code|, |code|, pool, Vis());
      return Fine;
    }

    // Jump over the right operand, or drop the left one and go on with the right one.
    method SkipOrElse(op: byte, r: Expr) returns (st: Status)
      requires Good()
      modifies this`code, this`pool, this`plan
      ensures st.Fine? ==> Good() && Extends(old(View()), View()) && plan.near == old(plan).near
      ensures st.Fine? ==> |code| == old(|code|) + 4 + ExprLen(r) && |pool| == old(|pool|) + ExprConsts(r)
      ensures st.Fine? ==> JumpAt(plan.fin, old(|code|), op, |code|) && OpAt(plan.fin, old(|code|) + 3, POP)
      ensures st.Fine? ==> ExprAt(r, plan.fin, old(|code|) + 4, pool, Vis())
      ensures Accepts(st.Fine?, ExprScoped(r, Known()), old(Use()), ExprCost(r).Plus(Used(0, 4, 0)))
      decreases r, 2
    {
      hide Sound, Extends, ExprAt, ExprLen, JumpAt, OpAt, OpenJump, CloseJump, ExprScoped, ExprConsts, SortsOf, VisOf,
           Resolved;
      ghost var v1 := View();
      var elseBranch := EmitJump(op, |code| + 4 + ExprLen(r));
      ghost var v2 := View();
      EmitByte(POP);
      ghost var v3 := View();
      :- Expr(r);
      ghost var v4 := View();
      ExtendsTwice(v2, v3, v4);
      ExtendsKeeps(v2, v4);
      :- PatchHere(elseBranch, v1, op, ExprLen(r) + 1);
      OpKept(v3, v4, |v2.code|, POP);
      ResolvedKeeps(scopes, v4.pool, pool, arity);
      return Fine;
    }

    // The arguments, and then the name of the path.
    method CallExpr(f: string, args: seq<Expr>, op: byte) returns (st: Status)
      requires Good()
      modifies this`code, this`pool, this`plan
      ensures st.Fine? ==> Good() && Extends(old(View()), View()) && plan.near == old(plan).near
      ensures st.Fine? ==> |code| == old(|code|) + ArgsLen(args, |args|) + 2
      ensures st.Fine? ==> ArgsAt(args, |args|, plan.fin, old(|code|), pool, Vis())
      ensures st.Fine? ==> ConstAt(plan.fin, old(|code|) + ArgsLen(args, |args|), op, pool, Str(f))
      ensures st.Fine? ==> |pool| == old(|pool|) + ArgsConsts(args, |args|) + 1
      ensures Accepts(st.Fine?, IsRoutine(Known(), f, |args|) && ArgsScoped(args, |args|, Known()), old(Use()),
                ArgsCost(args, |args|).Plus(Used(1, 2, 0)))
      decreases args
    {
      hide Sound, Extends, ExprAt, ExprLen, ExprScoped, ExprConsts, SortsOf, Find, Resolved, VisOf;
      FindIsLookup(scopes, f);
      match Lookup(scopes, f) {
        case None => return Failed(UnknownName);
        case Some(PathName(n)) => if n != |args| { return Failed(ArgCount); }
        case Some(_) => return Failed(Unsupported);
      }
      ghost var v0 := View();
      ExtendsItself(v0);
      var i := 0;
      while i < |args|
        invariant 0 <= i <= |args|
        invariant Good() && Extends(v0, View()) && plan.near == old(plan).near
        invariant |code| == old(|code|) + ArgsLen(args, i)
        invariant |pool| == old(|pool|) + ArgsConsts(args, i) && ArgsScoped(args, i, Known())
        invariant ArgsAt(args, i, plan.fin, old(|code|), pool, Vis())
      {
        ghost var v := View();
        ArgsGrow(args, i, |args|);
        assert ArgsScoped(args, |args|, Known()) ==> ArgScoped(args, i, Known());
        :- Expr(args[i]);
        assert ArgScoped(args, i, Known());
        ExtendsTwice(v0, v, View());
        ArgsKept(args, i, v, View(), |v0.code|, Vis());
        assert ArgIn(args, i, plan.fin, |v0.code|, pool, Vis());
        i := i + 1;
      }
      ghost var v := View();
      :- EmitNewConst(op, Str(f));
      ExtendsTwice(v0, v, View());
      ArgsKept(args, i, v, View(), |v0.code|, Vis());
      return Fine;
    }

    // ----- blocks and statements -----

    // The next free stack slot.
    ghost function Base(): nat
      reads this
    {
      arity + locals
    }

    method PushScope()
      requires Good()
      modifies this`scopes
      ensures Good() && scopes == old(scopes) + [map[]] && Vis() == old(Vis()) && Known() == Push(old(Known()))
    {
      VisOfEmptyScope(scopes);
      SortsPushed(scopes, map[]);
      scopes := scopes + [map[]];
    }

    method PopScope()
      requires Good() && scopes != []
      modifies this`scopes
      ensures Good() && scopes == old(scopes)[..|old(scopes)| - 1]
    {
      scopes := scopes[..|scopes| - 1];
    }

    // A block has its own scope, which ends with it.
    method Block(ss: seq<Stmt>) returns (st: Status)
      requires Good() && Base() <= 255
      modifies this`code, this`pool, this`labels, this`branches, this`locals, this`scopes, this`plan
      ensures st.Fine? ==> Good() && Extends(old(View()), View()) && scopes == old(scopes)
      ensures st.Fine? ==>
        |code| == old(|code|) + BlockLen(ss) && locals == old(locals) + BlockSlots(ss) && Base() <= 255
      ensures st.Fine? && plan.near ==> BlockAt(ss, plan.fin, old(|code|), pool, old(Vis()), old(Base()))
      ensures st.Fine? ==> |pool| == old(|pool|) + BlockConsts(ss)
      ensures Accepts(st.Fine?, BlockScoped(ss, old(Known())), old(Use()), BlockCost(ss))
      decreases ss, |ss| + 2
    {
      hide Sound, Extends, StmtsAt, StmtsLen, StmtsSlots, StmtsConsts, StmtsScoped, Resolved, SortsOf, VisOf, Push;
      PushScope();
      :- Stmts(ss);
      PopScope();
      return Fine;
    }

    // The statements of a block, in the scope that was opened for them.
    method Stmts(ss: seq<Stmt>) returns (st: Status)
      requires Good() && scopes != [] && Base() <= 255
      modifies this`code, this`pool, this`labels, this`branches, this`locals, this`scopes, this`plan
      ensures st.Fine? ==> Good() && Extends(old(View()), View())
      ensures st.Fine? ==> |scopes| == |old(scopes)| && scopes[..|scopes| - 1] == old(scopes)[..|scopes| - 1]
      ensures st.Fine? ==> |code| == old(|code|) + StmtsLen(ss, |ss|) && |pool| == old(|pool|) + StmtsConsts(ss, |ss|)
      ensures st.Fine? ==> locals == old(locals) + StmtsSlots(ss, |ss|) && Base() <= 255
      ensures st.Fine? && plan.near ==> StmtsAt(ss, |ss|, plan.fin, old(|code|), pool, old(Vis()), old(Base()))
      ensures Accepts(st.Fine?, StmtsScoped(ss, |ss|, old(Known())), old(Use()),
                Used(StmtsConsts(ss, |ss|), StmtsLen(ss, |ss|), StmtsSlots(ss, |ss|)))
      decreases ss, |ss| + 1
    {
      hide Sound, Extends, StmtAt, StmtLen, StmtSlots, StmtConsts, StmtScoped, NamesBehind, Resolved, SortsOf, VisOf;
      ghost var v0, vis, base, names := View(), Vis(), Base(), Known();
      ExtendsItself(v0);
      var i := 0;
      while i < |ss|
        invariant 0 <= i <= |ss|
        invariant Good() && Extends(v0, View()) && Base() <= 255
        invariant |scopes| == |old(scopes)| && scopes[..|scopes| - 1] == old(scopes)[..|scopes| - 1]
        invariant |code| == |v0.code| + StmtsLen(ss, i) && Base() == base + StmtsSlots(ss, i)
        invariant |pool| == |v0.pool| + StmtsConsts(ss, i) && Vis() == VisAfter(ss, i, vis)
        invariant Known() == NamesAfter(ss, i, names) && StmtsScoped(ss, i, names)
        invariant plan.near ==> StmtsAt(ss, i, plan.fin, |v0.code|, pool, vis, base)
      {
        ghost var v := View();
        StmtsGrow(ss, i, |ss|);
        assert StmtsScoped(ss, |ss|, names) ==> StmtScopedIn(ss, i, names);
        :- Stmt(ss[i]);
        assert StmtScopedIn(ss, i, names);
        ExtendsTwice(v0, v, View());
        if plan.near {
          StmtsKept(ss, i, v, View(), |v0.code|, vis, base);
          assert StmtIn(ss, i, plan.fin, |v0.code|, pool, vis, base);
        }
        i := i + 1;
      }
      return Fine;
    }

    method Stmt(s: Stmt) returns (st: Status)
      requires Good() && scopes != [] && Base() <= 255
      modifies this`code, this`pool, this`labels, this`branches, this`locals, this`scopes, this`plan
      ensures st.Fine? ==> Good() && Extends(old(View()), View())
      ensures st.Fine? ==>
        && |scopes| == |old(scopes)| && scopes[..|scopes| - 1] == old(scopes)[..|scopes| - 1]
        && Vis() == Hide(s, old(Vis()))
      ensures st.Fine? ==> |code| == old(|code|) + StmtLen(s) && locals == old(locals) + StmtSlots(s) && Base() <= 255
      ensures st.Fine? && plan.near ==> StmtAt(s, plan.fin, old(|code|), pool, old(Vis()), old(Base()))
      ensures st.Fine? ==> |pool| == old(|pool|) + StmtConsts(s)
      ensures Accepts(st.Fine?, StmtScoped(s, old(Known())), old(Use()), StmtCost(s))
      ensures st.Fine? ==> Known() == NamesBehind(s, old(Known()))
      decreases s, 1
    {
      hide Sound, Extends, StmtAt, StmtLen, StmtConsts, StmtScoped, Declare, SortsOf, VisOf, Resolved;
      if s.Decl? {
        st := VarDecl(s);
      } else {
        st := Plain(s);
      }
    }

    // Every statement but a declaration leaves the names as they are.
    method Plain(s: Stmt) returns (st: Status)
      requires !s.Decl? && Good() && scopes != [] && Base() <= 255
      modifies this`code, this`pool, this`labels, this`branches, this`locals, this`scopes, this`plan
      ensures st.Fine? ==> Good() && Extends(old(View()), View()) && scopes == old(scopes)
      ensures st.Fine? ==> |code| == old(|code|) + StmtLen(s) && locals == old(locals) + StmtSlots(s) && Base() <= 255
      ensures st.Fine? && plan.near ==> StmtAt(s, plan.fin, old(|code|), pool, old(Vis()), old(Base()))
      ensures st.Fine? ==> |pool| == old(|pool|) + StmtConsts(s)
      ensures Accepts(st.Fine?, StmtScoped(s, old(Known())), old(Use()), StmtCost(s))
      decreases s, 0
    {
      hide Sound, Extends, StmtAt, StmtLen, StmtConsts, StmtSlots, StmtScoped, SortsOf, VisOf, Resolved;
      NoSlots(s);
      match s
      case Set(_, _) => st := AssignStmt(s);
      case Do(e) => st := ExprStmt(s, e, POP);
      case Return(e) => st := ExprStmt(s, e, RET);
      case Content(items) => st := ContentExpr(items);
      case Divert(_) => st := DivertStmt(s);
      case DivertWith(_, _) => st := DivertCall(s);
      case Choices(bs) => st := ChoiceStmt(bs);
      case Gather => GatherLaidOut(View(), Vis(), Base(), Known()); return Fine;
    }

    // A value that is dropped or returned.
    method ExprStmt(s: Stmt, e: Expr, op: byte) returns (st: Status)
      requires Good() && ((s == Do(e) && op == POP) || (s == Return(e) && op == RET))
      modifies this`code, this`pool, this`plan
      ensures st.Fine? ==> Good() && Extends(old(View()), View()) && plan.near == old(plan).near
      ensures st.Fine? ==> |code| == old(|code|) + StmtLen(s) && |pool| == old(|pool|) + StmtConsts(s)
      ensures st.Fine? ==> StmtAt(s, plan.fin, old(|code|), pool, old(Vis()), old(Base()))
      ensures Accepts(st.Fine?, StmtScoped(s, Known()), old(Use()), StmtCost(s))
      decreases e, 2
    {
      hide Sound, Extends, ExprAt, ExprLen, ExprConsts, ExprScoped, SortsOf, VisOf, Resolved;
      ghost var v0 := View();
      :- Expr(e);
      ghost var v := View();
      EmitByte(op);
      ExtendsTwice(v0, v, View());
      ExprKept(e, v, View(), |v0.code|, Vis());
      ResolvedKeeps(scopes, v.pool, pool, arity);
      return Fine;
    }

    // A divert to one of the ends is an instruction of its own.
    method DivertStmt(s: Stmt) returns (st: Status)
      requires s.Divert? && Good()
      modifies this`code, this`pool, this`plan
      ensures st.Fine? ==> Good() && Extends(old(View()), View()) && plan.near == old(plan).near
      ensures st.Fine? ==> |code| == old(|code|) + StmtLen(s) && |pool| == old(|pool|) + StmtConsts(s)
      ensures st.Fine? ==> StmtAt(s, plan.fin, old(|code|), pool, old(Vis()), old(Base()))
      ensures Accepts(st.Fine?, StmtScoped(s, Known()), old(Use()), StmtCost(s))
    {
      hide Sound, Extends, Find, SortsOf, VisOf, Resolved;
      ghost var v0 := View();
      var target := s.target;
      FindIsLookup(scopes, target);
      if IsEnd(target) {
        EmitByte(EXIT);
        ResolvedKeeps(scopes, v0.pool, pool, arity);
        return Fine;
      }
      match Lookup(scopes, target) {
        case None => return Failed(UnknownName);
        case Some(PathName(_)) => st := EmitNewConst(DIVERT, Str(target));
        case Some(_) => return Failed(Unsupported);
      }
    }

    // The arguments, and then the divert itself.
    method DivertCall(s: Stmt) returns (st: Status)
      requires s.DivertWith? && Good()
      modifies this`code, this`pool, this`plan
      ensures st.Fine? ==> Good() && Extends(old(View()), View()) && plan.near == old(plan).near
      ensures st.Fine? ==> |code| == old(|code|) + StmtLen(s) && |pool| == old(|pool|) + StmtConsts(s)
      ensures st.Fine? ==> StmtAt(s, plan.fin, old(|code|), pool, old(Vis()), old(Base()))
      ensures Accepts(st.Fine?, StmtScoped(s, Known()), old(Use()), StmtCost(s))
      decreases s, 0
    {
      hide Sound, Extends, ArgsAt, ArgsLen, ArgsConsts, ArgsScoped, Find, SortsOf, VisOf, Resolved;
      st := CallExpr(s.target, s.args, DIVERT);
    }

    method VarDecl(s: Stmt) returns (st: Status)
      requires s.Decl? && Good() && scopes != []
      modifies this`code, this`pool, this`scopes, this`plan
      ensures st.Fine? ==> Good() && Extends(old(View()), View()) && plan.near == old(plan).near
      ensures st.Fine? ==> |scopes| == |old(scopes)| && scopes[..|scopes| - 1] == old(scopes)[..|scopes| - 1]
      ensures st.Fine? ==> Vis() == old(Vis()) - {s.name} && Known() == Declare(old(Known()), s.name, s.isConst)
      ensures st.Fine? ==> |code| == old(|code|) + StmtLen(s) && |pool| == old(|pool|) + StmtConsts(s)
      ensures st.Fine? ==> StmtAt(s, plan.fin, old(|code|), pool, old(Vis()), old(Base()))
      ensures Accepts(st.Fine?, StmtScoped(s, old(Known())), old(Use()), StmtCost(s))
      decreases s, 0
    {
      hide Sound, Extends, ExprAt, ExprLen, ExprConsts, ExprScoped, SortsOf, VisOf, Resolved, Declare, StoreAt;
      var x, isConst := s.name, s.isConst;
      ghost var v0 := View();
      :- Expr(s.init);
      ghost var v1 := View();
      PoolGrows(v1, Str(x));
      ResolvedKeeps(scopes, pool, pool + [Str(x)], arity);
      var index := AddConst(Str(x));
      ghost var v2 := View();
      SortsDeclared(scopes, x, index, isConst);
      if x in scopes[|scopes| - 1] {
        return Failed(Redefined);
      }
      VisOfDecl(scopes, x, index, isConst);
      DeclaredResolves(scopes, x, index, isConst, pool, arity);
      scopes := Declared(scopes, x, index, isConst);
      :- EmitStore(x, index);
      ExtendsTwice(v1, v2, View());
      ExtendsTwice(v0, v1, View());
      ExprKept(s.init, v1, View(), |v0.code|, old(Vis()));
      return Fine;
    }

    // Store the value on top under the name in the pool, and drop it.
    method EmitStore(x: string, index: nat) returns (st: Status)
      requires Sound(View()) && index < |pool| <= 256 && pool[index] == Str(x)
      modifies this`code, this`plan
      ensures st.Fine? <==> index < 255
      ensures st.Fine? ==> Sound(View()) && Extends(old(View()), View()) && plan.near == old(plan).near
      ensures st.Fine? ==> |code| == old(|code|) + 3 && StoreAt(x, plan.fin, old(|code|), pool)
    {
      hide Sound, Extends, Resolved, VisOf, SortsOf;
      ghost var v0 := View();
      :- EmitConst(STORE_GLOBAL, index % 256);
      ghost var v1 := View();
      EmitByte(POP);
      ExtendsTwice(v0, v1, View());
      return Fine;
    }

    method AssignStmt(s: Stmt) returns (st: Status)
      requires s.Set? && Good()
      modifies this`code, this`pool, this`plan
      ensures st.Fine? ==> Good() && Extends(old(View()), View()) && plan.near == old(plan).near
      ensures st.Fine? ==> |code| == old(|code|) + StmtLen(s) && |pool| == old(|pool|) + StmtConsts(s)
      ensures st.Fine? ==> StmtAt(s, plan.fin, old(|code|), pool, old(Vis()), old(Base()))
      ensures Accepts(st.Fine?, StmtScoped(s, Known()), old(Use()), StmtCost(s))
      decreases s, 0
    {
      hide Sound, Extends, ExprAt, ExprLen, ExprConsts, ExprScoped, Find, SortsOf, VisOf, Resolved, StoreAt;
      ghost var v0 := View();
      var x := s.name;
      var sym := Lookup(scopes, x);
      VisIsLookup(scopes, x);
      FindIsLookup(scopes, x);
      if sym.None? {
        return Failed(UnknownName);
      }
      if sym.value.Global? && sym.value.isConst {
        return Failed(ConstAssign);
      }
      :- Expr(s.rhs);
      ghost var v1 := View();
      if !sym.value.Global? {
        return Failed(InvalidExpr);
      }
      LookupResolves(scopes, x, pool, arity);
      SymbolResolves(x, sym.value, pool, arity);
      st := EmitStore(x, sym.value.index);
      ExtendsTwice(v0, v1, View());
      ExprKept(s.rhs, v1, View(), |v0.code|, Vis());
      ResolvedKeeps(scopes, v1.pool, pool, arity);
    }

    // ----- content -----

    // Load a piece of text and write it.
    method TextPiece(t: string) returns (st: Status)
      requires Good()
      modifies this`code, this`pool, this`plan
      ensures st.Fine? ==> Good() && Extends(old(View()), View()) && plan.near == old(plan).near
      ensures st.Fine? ==> |code| == old(|code|) + 3 && TextAt(t, plan.fin, old(|code|), pool)
      ensures st.Fine? ==> |pool| == old(|pool|) + 1
      ensures Accepts(st.Fine?, true, old(Use()), Used(1, 3, 0))
    {
      hide Sound, Extends, Resolved, VisOf, SortsOf;
      ghost var v0 := View();
      :- EmitNewConst(CONST, Str(t));
      ghost var v1 := View();
      EmitByte(CONTENT);
      ExtendsTwice(v0, v1, View());
      return Fine;
    }

    method ContentExpr(items: seq<Item>) returns (st: Status)
      requires Good() && Base() <= 255
      modifies this`code, this`pool, this`labels, this`branches, this`locals, this`scopes, this`plan
      ensures st.Fine? ==> Good() && Extends(old(View()), View()) && scopes == old(scopes)
      ensures st.Fine? ==>
        |code| == old(|code|) + StmtLen(Content(items)) && |pool| == old(|pool|) + StmtConsts(Content(items))
      ensures st.Fine? ==> locals == old(locals) + StmtSlots(Content(items)) && Base() <= 255
      ensures st.Fine? && plan.near ==> StmtAt(Content(items), plan.fin, old(|code|), pool, old(Vis()), old(Base()))
      ensures Accepts(st.Fine?, StmtScoped(Content(items), old(Known())), old(Use()), StmtCost(Content(items)))
      decreases items, 1
    {
      hide Sound, Extends, ItemsAt, ItemsLen, ItemsSlots, ItemsConsts, ItemsScoped, Resolved, SortsOf, VisOf;
      ghost var v0, vis, base := View(), Vis(), Base();
      :- EmitItems(items);
      ghost var v := View();
      EndLine(items);
      ExtendsTwice(v0, v, View());
      if plan.near {
        ItemsKept(items, |items|, v, View(), |v0.code|, vis, base);
      }
      return Fine;
    }

    method EmitItems(items: seq<Item>) returns (st: Status)
      requires Good() && Base() <= 255
      modifies this`code, this`pool, this`labels, this`branches, this`locals, this`scopes, this`plan
      ensures st.Fine? ==> Good() && Extends(old(View()), View()) && scopes == old(scopes)
      ensures st.Fine? ==> |code| == old(|code|) + ItemsLen(items, |items|)
      ensures st.Fine? ==> |pool| == old(|pool|) + ItemsConsts(items, |items|)
      ensures st.Fine? ==> locals == old(locals) + ItemsSlots(items, |items|) && Base() <= 255
      ensures st.Fine? && plan.near ==>
        ItemsAt(items, |items|, plan.fin, old(|code|), pool, old(Vis()), old(Base()))
      ensures Accepts(st.Fine?, ItemsScoped(items, |items|, old(Known())), old(Use()),
                Used(ItemsConsts(items, |items|), ItemsLen(items, |items|), ItemsSlots(items, |items|)))
      decreases items, 0
    {
      hide Sound, Extends, ItemAt, ItemLen, ItemSlots, ItemConsts, ItemScoped, Resolved, SortsOf, VisOf;
      ghost var v0, vis, base, names := View(), Vis(), Base(), Known();
      ExtendsItself(v0);
      var i := 0;
      while i < |items|
        invariant 0 <= i <= |items|
        invariant Good() && Extends(v0, View()) && Base() <= 255 && scopes == old(scopes)
        invariant |code| == |v0.code| + ItemsLen(items, i) && Base() == base + ItemsSlots(items, i)
        invariant |pool| == |v0.pool| + ItemsConsts(items, i) && ItemsScoped(items, i, names)
        invariant plan.near ==> ItemsAt(items, i, plan.fin, |v0.code|, pool, vis, base)
      {
        ghost var v := View();
        ItemsGrow(items, i, |items|);
        assert ItemsScoped(items, |items|, names) ==> ItemScopedIn(items, i, names);
        :- ContentItem(items[i]);
        assert ItemScopedIn(items, i, names);
        ExtendsTwice(v0, v, View());
        if plan.near {
          ItemsKept(items, i, v, View(), |v0.code|, vis, base);
          assert ItemIn(items, i, plan.fin, |v0.code|, pool, vis, base);
        }
        i := i + 1;
      }
      return Fine;
    }

    // A line that ends with text is followed by a line break.
    method EndLine(items: seq<Item>)
      requires Good()
      modifies this`code, this`plan
      ensures Good() && Extends(old(View()), View()) && plan.near == old(plan).near
      ensures |code| == old(|code|) + if EndsLine(items) then 1 else 0
      ensures EndsLine(items) ==> OpAt(plan.fin, old(|code|), LINE)
    {
      hide Sound, Extends, Resolved, VisOf, SortsOf;
      ExtendsItself(View());
      if EndsLine(items) {
        EmitByte(LINE);
        ResolvedKeeps(scopes, pool, pool, arity);
      }
    }

    method ContentItem(it: Item) returns (st: Status)
      requires Good() && Base() <= 255
      modifies this`code, this`pool, this`labels, this`branches, this`locals, this`scopes, this`plan
      ensures st.Fine? ==> Good() && Extends(old(View()), View()) && scopes == old(scopes)
      ensures st.Fine? ==> |code| == old(|code|) + ItemLen(it) && locals == old(locals) + ItemSlots(it) && Base() <= 255
      ensures st.Fine? && plan.near ==> ItemAt(it, plan.fin, old(|code|), pool, old(Vis()), old(Base()))
      ensures st.Fine? ==> |pool| == old(|pool|) + ItemConsts(it)
      ensures Accepts(st.Fine?, ItemScoped(it, old(Known())), old(Use()), ItemCost(it))
      decreases it, 3
    {
      hide Sound, Extends, ExprAt, ExprLen, BlockAt, BlockLen, TestsAt, TestsLen, ArmsAt, ArmsLen, BodiesAt, BodiesLen,
           Resolved, VisOf, SortsOf;
      ghost var v0 := View();
      match it
      case Text(t) => st := TextPiece(t);
      case Logic(e) =>
        :- Expr(e);
        ghost var v := View();
        EmitByte(CONTENT);
        ExtendsTwice(v0, v, View());
        ExprKept(e, v, View(), |v0.code|, Vis());
        return Fine;
      case Glue =>
        EmitByte(GLUE);
        return Fine;
      case If(cond, body, els) => st := IfStmt(cond, body, els);
      case MultiIf(cases, final) => st := MultiIfBlock(it);
      case Switch(_, _, _) => st := SwitchStmt(it);
    }

    method PopBlock(ss: seq<Stmt>) returns (st: Status)
      requires Good() && Base() <= 255
      modifies this`code, this`pool, this`labels, this`branches, this`locals, this`scopes, this`plan
      ensures st.Fine? ==> Good() && Extends(old(View()), View()) && scopes == old(scopes)
      ensures st.Fine? ==>
        |code| == old(|code|) + 1 + BlockLen(ss) && locals == old(locals) + BlockSlots(ss) && Base() <= 255
      ensures st.Fine? && plan.near ==> PopBlockAt(ss, plan.fin, old(|code|), pool, old(Vis()), old(Base()))
      ensures st.Fine? ==> |pool| == old(|pool|) + BlockConsts(ss)
      ensures Accepts(st.Fine?, BlockScoped(ss, old(Known())), old(Use()), BlockCost(ss).Plus(Used(0, 1, 0)))
      decreases ss, |ss| + 3
    {
      hide Sound, Extends, BlockAt, BlockLen, BlockSlots, Resolved, VisOf, SortsOf;
      ghost var v0 := View();
      EmitByte(POP);
      ghost var v1 := View();
      ResolvedKeeps(scopes, v0.pool, pool, arity);
      :- Block(ss);
      ExtendsTwice(v0, v1, View());
      OpKept(v1, View(), |v0.code|, POP);
      return Fine;
    }

    method IfStmt(cond: Expr, body: seq<Stmt>, els: seq<Stmt>) returns (st: Status)
      requires Good() && Base() <= 255
      modifies this`code, this`pool, this`labels, this`branches, this`locals, this`scopes, this`plan
      ensures st.Fine? ==> Good() && Extends(old(View()), View()) && scopes == old(scopes)
      ensures st.Fine? ==> |code| == old(|code|) + ExprLen(cond) + 8 + BlockLen(body) + BlockLen(els)
      ensures st.Fine? ==> locals == old(locals) + BlockSlots(body) + BlockSlots(els) && Base() <= 255
      ensures st.Fine? && plan.near ==>
        ItemAt(If(cond, body, els), plan.fin, old(|code|), pool, old(Vis()), old(Base()))
      ensures st.Fine? ==> |pool| == old(|pool|) + ItemConsts(If(cond, body, els))
      ensures Accepts(st.Fine?, ItemScoped(If(cond, body, els), old(Known())), old(Use()),
                ItemCost(If(cond, body, els)))
      decreases If(cond, body, els), 1
    {
      IfNeeds(cond, body, els, Known());
      hide Sound, Extends, Keeps, AllSet, ExprLen, PopBlockAt, BlockLen, BlockSlots, JumpAt, Resolved, OpenJump, VisOf,
           ItemAt, ExprConsts, BlockConsts, ItemConsts, ExprScoped, BlockScoped, ItemScoped, ItemLen, ItemSlots,
           SortsOf, Push, ThenAt;
      ghost var v0, vis, base := View(), Vis(), Base();
      PushScope();
      var elseBr;
      ghost var v4;
      st, elseBr, v4 := IfThen(If(cond, body, els), cond, body, BlockLen(els) + 1);
      if st.Failed? { return; }
      ghost var v6 := View();
      :- PopBlock(els);
      ghost var v8 := View();
      ExtendsFollows(v6, v8);
      KeepsTwice(OpenJump(v4, JMP, BlockLen(els) + 1), v6, v8);
      :- PatchHere(elseBr, v4, JMP, BlockLen(els) + 1);
      IfExtends(v0, v6, v8, View(), |v4.code|);
      if plan.near {
        IfParts(v6, v8, View(), cond, body, els, |v0.code|, |v4.code|, vis, base);
      }
      PopScope();
      return Fine;
    }

    // The first half: the condition jumps over the first branch, and a jump of length d behind it is left open.
    method IfThen(ghost it: Item, cond: Expr, body: seq<Stmt>, ghost d: nat) returns (st: Status, elseBr: nat,
            ghost v4: Emission)
      requires it.If? && cond == it.cond && body == it.body && Good() && Base() <= 255
      modifies this`code, this`pool, this`labels, this`branches, this`locals, this`scopes, this`plan
      ensures st.Fine? ==>
        Good() && scopes == old(scopes) && Keeps(old(View()), View()) && AllSet(View(), |old(labels)|)
      ensures st.Fine? ==> Sound(v4) && Keeps(OpenJump(v4, JMP, d), View()) && elseBr == |v4.code| + 1
      ensures st.Fine? ==> plan.imm == old(plan).imm + {|v4.code| + 1, |v4.code| + 2}
      ensures st.Fine? ==> |v4.code| == old(|code|) + ExprLen(cond) + 4 + BlockLen(body) && |code| == |v4.code| + 3
      ensures st.Fine? ==> locals == old(locals) + BlockSlots(body) && Base() <= 255
      ensures st.Fine? && plan.near ==> ThenAt(cond, body, plan.fin, old(|code|), pool, old(Vis()), old(Base()))
      ensures st.Fine? ==> |pool| == old(|pool|) + ExprConsts(cond) + BlockConsts(body)
      ensures Accepts(st.Fine?, ExprScoped(cond, old(Known())) && BlockScoped(body, old(Known())), old(Use()),
                ExprCost(cond).Plus(BlockCost(body)).Plus(Used(0, 7, 0)))
      decreases it, 0
    {
      hide Sound, Extends, Keeps, AllSet, ExprAt, ExprLen, PopBlockAt, BlockLen, BlockSlots, JumpAt, Resolved,
           OpenJump, VisOf, ExprConsts, BlockConsts, ExprScoped, BlockScoped, SortsOf, ThenAt;
      ghost var v0, vis, base := View(), Vis(), Base();
      elseBr, v4 := 0, v0;
      st := Expr(cond);
      if st.Failed? { return; }
      ghost var v1 := View();
      var thenBr := EmitJump(JMP_F, |code| + 7 + BlockLen(body));
      ghost var v2 := View();
      st := PopBlock(body);
      if st.Failed? { return; }
      v4 := View();
      elseBr := EmitJump(JMP, |code| + 3 + d);
      ghost var v5 := View();
      ExtendsFollows(v2, v4);
      OpenKeeps(v4, JMP, d);
      KeepsTwice(v2, v4, v5);
      st := PatchHere(thenBr, v1, JMP_F, BlockLen(body) + 4);
      if st.Failed? { return; }
      KeepsTwice(v4, v5, View());
      ThenKeeps(v0, v1, v2, v4, v5, View(), JMP_F, BlockLen(body) + 4, JMP, d);
      if plan.near {
        ThenParts(v1, v4, View(), cond, body, |v0.code|, vis, base);
      }
    }

    // ----- multi-branch conditionals -----

    // The body of one branch: set its label, and leave by a jump to the exit.
    method EmitCase(ghost v0: Emission, index: nat, exit: nat, ghost b: nat, pop: bool,
            ss: seq<Stmt>) returns (st: Status)
      requires Good() && Base() <= 255 && Continues(v0, View()) && |v0.labels| == exit < index < b <= |labels|
      requires plan.targets[index] == |code| && |code| + CaseLen(ss, pop) <= plan.targets[exit]
      requires Pending(View(), exit, index, b)
      modifies this`code, this`pool, this`labels, this`branches, this`locals, this`scopes, this`plan
      ensures st.Fine? ==> Good() && Continues(v0, View()) && Follows(old(View()), View()) && scopes == old(scopes)
      ensures st.Fine? ==>
        old(plan.targets) <= plan.targets && |labels| >= old(|labels|) && Pending(View(), exit, index + 1, b)
      ensures st.Fine? ==>
        |code| == old(|code|) + CaseLen(ss, pop) && locals == old(locals) + BlockSlots(ss) && Base() <= 255
      ensures st.Fine? && plan.near ==>
        CaseAt(ss, pop, plan.fin, old(|code|), plan.targets[exit], pool, old(Vis()), old(Base()))
      ensures st.Fine? ==> |pool| == old(|pool|) + BlockConsts(ss)
      ensures Accepts(st.Fine?, BlockScoped(ss, old(Known())), old(Use()),
                Used(BlockConsts(ss), CaseLen(ss, pop), BlockSlots(ss)))
      decreases ss, |ss| + 4
    {
      hide Sound, Extends, Keeps, Follows, Pending, BlockAt, PopBlockAt, BlockLen, BlockSlots, Resolved, VisOf, CaseAt,
           SortsOf;
      ghost var u0 := View();
      SoundTargets(u0);
      LabelContinues(v0, u0, exit, index, b);
      SetLabel(index);
      ghost var u1 := View();
      if pop {
        :- PopBlock(ss);
      } else {
        :- Block(ss);
      }
      ghost var u2 := View();
      ExtendsFollows(u1, u2);
      FollowsTwice(u0, u1, u2);
      ContinuesTwice(v0, u1, u2);
      PendingLater(u1, u2, exit, index + 1, b);
      Prefixes(u1, u2);
      EmitDeferred(JMP, exit);
      DeferContinues(v0, u2, JMP, exit);
      FollowsTwice(u0, u2, View());
      PendingDefer(u2, exit, index + 1, b, JMP);
      if plan.near {
        CaseParts(ss, pop, u2, View(), |u0.code|, |u2.code|, plan.targets[exit], old(Vis()), old(Base()));
      }
      return Fine;
    }

    // The first pass of a multi-branch if: each test jumps to the label of its own body.
    method EmitTests(ghost v0: Emission, cases: seq<Case>, ghost bodies: nat) returns (st: Status)
      requires Good() && Continues(v0, View()) && |code| + TestsLen(cases, |cases|) <= bodies
      modifies this`code, this`pool, this`labels, this`branches, this`plan
      ensures st.Fine? ==>
        && Good() && Continues(v0, View()) && Follows(old(View()), View())
        && |code| == old(|code|) + TestsLen(cases, |cases|)
      ensures st.Fine? ==> |labels| == old(|labels|) + |cases| && old(plan).targets <= plan.targets
      ensures st.Fine? ==> |plan.targets| == |labels| && LabelsAt(cases, |cases|, plan.targets, old(|labels|), bodies)
      ensures st.Fine? && plan.near ==> TestsAt(cases, |cases|, plan.fin, old(|code|), bodies, pool, Vis())
      ensures st.Fine? ==> |pool| == old(|pool|) + TestsConsts(cases, |cases|)
      ensures Accepts(st.Fine?, TestsScoped(cases, |cases|, Known()), old(Use()),
                Used(TestsConsts(cases, |cases|), TestsLen(cases, |cases|), 0))
      decreases cases, 1
    {
      hide Sound, Extends, Continues, Follows, ExprAt, ExprLen, OpAt, BodiesLen, Resolved, VisOf, JumpAt, LabelsAt,
           TestsAt, SortsOf, ExprConsts, ExprScoped, TestsLen, TestsConsts, TestsScoped, TestsDone;
      ghost var u0 := View();
      TestsStart(v0, u0, cases, bodies, Vis());
      var i := 0;
      while i < |cases|
        invariant 0 <= i <= |cases| && Good() && TestsDone(v0, u0, View(), cases, i, bodies, Vis())
        invariant |code| == |u0.code| + TestsLen(cases, i) && |pool| == |u0.pool| + TestsConsts(cases, i)
        invariant TestsScoped(cases, i, Known())
      {
        ChecksGrow(cases, i, |cases|);
        CasesStep(cases, i, Known());
        :- EmitNextTest(v0, u0, cases, i, bodies);
        i := i + 1;
      }
      TestsParts(v0, u0, View(), cases, i, bodies, Vis());
      return Fine;
    }

    // The next test, behind i others.
    method EmitNextTest(ghost v0: Emission, ghost u0: Emission, cases: seq<Case>, i: nat, ghost bodies: nat)
      returns (st: Status)
      requires i < |cases| && Good() && TestsDone(v0, u0, View(), cases, i, bodies, Vis())
      requires |code| == |u0.code| + TestsLen(cases, i) && |code| + ExprLen(cases[i].test) + 4 <= bodies
      modifies this`code, this`pool, this`labels, this`branches, this`plan
      ensures st.Fine? ==> Good() && TestsDone(v0, u0, View(), cases, i + 1, bodies, Vis())
      ensures st.Fine? ==>
        |code| == old(|code|) + ExprLen(cases[i].test) + 4 && |pool| == old(|pool|) + ExprConsts(cases[i].test)
      ensures Accepts(st.Fine?, ExprScoped(cases[i].test, Known()), old(Use()),
                ExprCost(cases[i].test).Plus(Used(0, 4, 0)))
      decreases cases, 0
    {
      hide Sound, Extends, Continues, Follows, ExprAt, ExprLen, OpAt, BodiesLen, Resolved, VisOf, JumpAt, LabelsAt,
           TestsAt, SortsOf, ExprConsts, ExprScoped, TestsLen, TestsDone;
      ghost var u := View();
      TestsParts(v0, u0, u, cases, i, bodies, Vis());
      :- EmitTest(v0, cases[i].test, bodies + BodiesLen(cases, i));
      OneMoreTest(v0, u0, u, View(), cases, i, bodies, Vis());
      return Fine;
    }

    method EmitTest(ghost v0: Emission, test: Expr, ghost t: nat) returns (st: Status)
      requires Good() && Continues(v0, View()) && |code| + ExprLen(test) + 3 <= t
      modifies this`code, this`pool, this`labels, this`branches, this`plan
      ensures st.Fine? ==>
        Good() && Continues(v0, View()) && Follows(old(View()), View()) && |code| == old(|code|) + ExprLen(test) + 4
      ensures st.Fine? ==> |labels| == old(|labels|) + 1 && plan.targets == old(plan).targets + [t]
      ensures st.Fine? ==> ExprAt(test, plan.fin, old(|code|), pool, Vis()) && OpAt(plan.fin, |code| - 1, POP)
      ensures st.Fine? && plan.near ==> JumpAt(plan.fin, |code| - 4, JMP_T, t)
      ensures st.Fine? ==> |pool| == old(|pool|) + ExprConsts(test)
      ensures Accepts(st.Fine?, ExprScoped(test, Known()), old(Use()), ExprCost(test).Plus(Used(0, 4, 0)))
      decreases test, 2
    {
      hide Sound, Extends, Continues, Follows, ExprAt, ExprLen, Resolved, VisOf, JumpAt, SortsOf;
      ghost var u0 := View();
      NewLabelContinues(v0, u0, t);
      var index := AddLabel(t);
      ghost var u1 := View();
      :- Expr(test);
      ghost var u2 := View();
      ExtendsFollows(u1, u2);
      ContinuesTwice(v0, u1, u2);
      SameTargets(u1, u2);
      JumpAndPop(v0, index);
      FollowsTwice(u0, u1, u2);
      FollowsTwice(u0, u2, View());
      ExprFollows(test, u2, View(), |u0.code|, Vis());
      return Fine;
    }

    // Jump to a label if the value just tested holds, and drop it otherwise.
    method JumpAndPop(ghost v0: Emission, index: nat)
      requires Good() && Continues(v0, View()) && |v0.labels| <= index < |plan.targets|
        && |code| + 3 <= plan.targets[index]
      modifies this`code, this`branches, this`plan
      ensures Good() && Continues(v0, View()) && Follows(old(View()), View())
      ensures |code| == old(|code|) + 4 && plan.targets == old(plan).targets && OpAt(plan.fin, |code| - 1, POP)
      ensures plan.near ==> JumpAt(plan.fin, old(|code|), JMP_T, plan.targets[index])
    {
      hide Sound, Extends, Continues, Follows, JumpAt, Resolved, VisOf, SortsOf;
      ghost var u := View();
      DeferContinues(v0, u, JMP_T, index);
      EmitDeferred(JMP_T, index);
      ghost var w := View();
      EmitByte(POP);
      ExtendsFollows(w, View());
      ContinuesTwice(v0, w, View());
      FollowsTwice(u, w, View());
      if plan.near {
        JumpFollows(w, View(), |u.code|, JMP_T, plan.targets[index]);
      }
    }

    // The first pass of a switch: the saved subject is compared with each literal.
    method EmitArms(ghost v0: Emission, cases: seq<Case>, slot: nat, ghost bodies: nat) returns (st: Status)
      requires Good() && Continues(v0, View()) && |code| + ArmsLen(cases, |cases|) <= bodies
      modifies this`code, this`pool, this`labels, this`branches, this`plan
      ensures st.Fine? ==>
        && Good() && Continues(v0, View()) && Follows(old(View()), View())
        && |code| == old(|code|) + ArmsLen(cases, |cases|)
      ensures st.Fine? ==> |labels| == old(|labels|) + |cases| && old(plan).targets <= plan.targets
      ensures st.Fine? ==> |plan.targets| == |labels| && LabelsAt(cases, |cases|, plan.targets, old(|labels|), bodies)
      ensures st.Fine? && plan.near ==> ArmsAt(cases, |cases|, plan.fin, old(|code|), bodies, pool, slot)
      ensures st.Fine? ==> |pool| == old(|pool|) + TestsConsts(cases, |cases|)
      ensures Accepts(st.Fine?, LabelsFit(cases, |cases|) && (cases != [] ==> slot < 255), old(Use()),
                Used(TestsConsts(cases, |cases|), ArmsLen(cases, |cases|), 0))
    {
      hide Sound, Extends, Continues, Follows, ExprAt, ExprLen, OpAt, SlotAt, BodiesLen, Resolved, VisOf, JumpAt,
           LabelsAt, ArmsAt, SortsOf, ExprConsts, ArmsLen, TestsConsts, LabelsFit, IsCaseLabel, ArmsDone,
           TestsScoped, ExprScoped, TestsLen;
      ghost var u0 := View();
      assert Sound(u0);
      hide Good;
      ArmsStart(v0, u0, cases, bodies, slot);
      var i := 0;
      while i < |cases|
        invariant 0 <= i <= |cases| && Good() && ArmsDone(v0, u0, View(), cases, i, bodies, slot)
        invariant |code| == |u0.code| + ArmsLen(cases, i) && |pool| == |u0.pool| + TestsConsts(cases, i)
        invariant LabelsFit(cases, i) && (i > 0 ==> slot < 255)
      {
        ChecksGrow(cases, i, |cases|);
        CasesStep(cases, i, Known());
        :- EmitNextArm(v0, u0, cases, i, slot, bodies);
        i := i + 1;
      }
      ArmsParts(v0, u0, View(), cases, i, bodies, slot);
      return Fine;
    }

    // The next comparison, behind i others.
    method EmitNextArm(ghost v0: Emission, ghost u0: Emission, cases: seq<Case>, i: nat, slot: nat,
            ghost bodies: nat) returns (st: Status)
      requires i < |cases| && Good() && ArmsDone(v0, u0, View(), cases, i, bodies, slot)
      requires |code| == |u0.code| + ArmsLen(cases, i) && |code| + ExprLen(cases[i].test) + 7 <= bodies
      modifies this`code, this`pool, this`labels, this`branches, this`plan
      ensures st.Fine? ==> Good() && ArmsDone(v0, u0, View(), cases, i + 1, bodies, slot)
      ensures st.Fine? ==>
        |code| == old(|code|) + ExprLen(cases[i].test) + 7 && |pool| == old(|pool|) + ExprConsts(cases[i].test)
      ensures Accepts(st.Fine?, IsCaseLabel(cases[i].test) && slot < 255, old(Use()),
                ExprCost(cases[i].test).Plus(Used(0, 7, 0)))
    {
      hide Sound, Extends, Continues, Follows, ExprAt, ExprLen, OpAt, SlotAt, BodiesLen, Resolved, VisOf, JumpAt,
           LabelsAt, ArmsAt, SortsOf, ExprConsts, ArmsLen, IsCaseLabel, ArmsDone;
      ghost var u := View();
      ArmsParts(v0, u0, u, cases, i, bodies, slot);
      :- EmitArm(v0, cases[i].test, slot, bodies + BodiesLen(cases, i));
      OneMoreArm(v0, u0, u, View(), cases, i, bodies, slot, Vis());
      return Fine;
    }

    method EmitArm(ghost v0: Emission, test: Expr, slot: nat, ghost t: nat) returns (st: Status)
      requires Good() && Continues(v0, View()) && |code| + ExprLen(test) + 6 <= t
      modifies this`code, this`pool, this`labels, this`branches, this`plan
      ensures st.Fine? ==> IsCaseLabel(test)
      ensures st.Fine? ==>
        Good() && Continues(v0, View()) && Follows(old(View()), View()) && |code| == old(|code|) + ExprLen(test) + 7
      ensures st.Fine? ==> |labels| == old(|labels|) + 1 && plan.targets == old(plan).targets + [t]
      ensures st.Fine? ==>
        SlotAt(plan.fin, old(|code|), LOAD, slot) && ExprAt(test, plan.fin, old(|code|) + 2, pool, Vis())
      ensures st.Fine? ==> OpAt(plan.fin, |code| - 5, CMP_EQ) && OpAt(plan.fin, |code| - 1, POP)
      ensures st.Fine? && plan.near ==> JumpAt(plan.fin, |code| - 4, JMP_T, t)
      ensures st.Fine? ==> |pool| == old(|pool|) + ExprConsts(test)
      ensures Accepts(st.Fine?, IsCaseLabel(test) && slot < 255, old(Use()), ExprCost(test).Plus(Used(0, 7, 0)))
    {
      hide Sound, Extends, Continues, Follows, ExprAt, ExprLen, Resolved, VisOf, JumpAt, SlotAt, OpAt, SortsOf;
      ghost var u0 := View();
      NewLabelContinues(v0, u0, t);
      var index := AddLabel(t);
      ghost var u1 := View();
      if !IsCaseLabel(test) {
        return Failed(SwitchLabel);
      }
      :- EmitConst(LOAD, slot);
      ghost var u2 := View();
      ExtendsKeepsPool(u1, u2, scopes, arity);
      :- Expr(test);
      ghost var u3 := View();
      EmitByte(CMP_EQ);
      ghost var u4 := View();
      ExtendsKeepsPool(u3, u4, scopes, arity);
      ExtendsTwice(u1, u2, u3);
      ExtendsTwice(u1, u3, u4);
      ExtendsFollows(u1, u4);
      ContinuesTwice(v0, u1, u4);
      SameTargets(u1, u4);
      JumpAndPop(v0, index);
      FollowsTwice(u0, u1, u4);
      FollowsTwice(u0, u4, View());
      ArmParts(u2, u3, u4, View(), test, |u0.code|, slot, |u3.code|, Vis());
      return Fine;
    }
    // The else branch is reached by a plain jump.
    method EmitElse(ghost v0: Emission, cases: seq<Case>, final: Final, ghost top: nat, ghost bodies: nat)
      requires Good() && Continues(v0, View()) && |code| + ElseJump(final) == bodies
      requires |labels| == |plan.targets| == top + |cases| && LabelsAt(cases, |cases|, plan.targets, top, bodies)
      modifies this`code, this`labels, this`branches, this`plan
      ensures Good() && Continues(v0, View()) && Follows(old(View()), View()) && |code| == bodies
      ensures |labels| == |plan.targets| == top + Labels(cases, final) && old(plan).targets <= plan.targets
      ensures LabelsAt(cases, Labels(cases, final), plan.targets, top, bodies)
      ensures plan.near && final.Else? ==> JumpAt(plan.fin, bodies - 3, JMP, bodies + BodiesLen(cases, |cases|))
    {
      hide Sound, Continues, Follows, BodiesLen, Resolved, LabelIn, VisOf, SortsOf;
      ghost var u0 := View();
      FollowsItself(u0);
      if final.Else? {
        ghost var t := bodies + BodiesLen(cases, |cases|);
        NewLabelContinues(v0, u0, t);
        var index := AddLabel(t);
        ghost var u1 := View();
        LabelLaidOut(cases, |cases|, u0.plan.targets, plan.targets, top, bodies);
        DeferContinues(v0, u1, JMP, index);
        EmitDeferred(JMP, index);
        FollowsTwice(u0, u1, View());
      }
    }

    // The second pass over the cases, the same for both kinds of conditional: their bodies in order,
    // then the else branch, and then the exit.
    method EmitBodies(ghost v0: Emission, ghost it: Item, cases: seq<Case>, final: Final, top: nat,
            exit: nat) returns (st: Status)
      requires (it.MultiIf? || it.Switch?) && cases == it.cases && final == it.final
      requires Good() && Base() <= 255 && Continues(v0, View()) && |v0.labels| == exit && top == exit + 1
      requires |labels| == top + Labels(cases, final)
        && LabelsAt(cases, Labels(cases, final), plan.targets, top, |code|)
      requires plan.targets[exit] == |code| + BodiesLen(cases, |cases|) + FinalCaseLen(final)
      requires Pending(View(), exit, top, |labels|)
      modifies this`code, this`pool, this`labels, this`branches, this`locals, this`scopes, this`plan
      ensures st.Fine? ==> Good() && Extends(v0, View()) && Follows(old(View()), View()) && scopes == old(scopes)
      ensures st.Fine? ==> |code| == old(plan).targets[exit] && Base() <= 255
      ensures st.Fine? ==> locals == old(locals) + BodiesSlots(cases, |cases|) + FinalSlots(final)
      ensures st.Fine? && plan.near ==>
        BranchesLaidOut(cases, final, plan.fin, old(|code|), |code|, pool, old(Vis()), old(Base()))
      ensures st.Fine? ==> |pool| == old(|pool|) + BodiesConsts(cases, |cases|) + FinalConsts(final)
      ensures Accepts(st.Fine?, BodiesScoped(cases, |cases|, old(Known())) && FinalScoped(final, old(Known())),
                old(Use()), Used(BodiesConsts(cases, |cases|) + FinalConsts(final),
                                 BodiesLen(cases, |cases|) + FinalCaseLen(final),
                                 BodiesSlots(cases, |cases|) + FinalSlots(final)))
      decreases it, 0
    {
      hide Sound, Extends, Continues, Follows, Pending, BlockLen, BlockSlots, BlockConsts, BlockScoped, Resolved,
           SortsOf, VisOf, CaseAt, BodiesAt, BodiesLen, BodiesSlots, BodiesConsts, BodiesScoped;
      ghost var u0, vis, base, b := View(), Vis(), Base(), |labels|;
      ghost var targets := plan.targets;
      :- EmitCases(v0, cases, top, exit, b);
      ghost var u := View();
      if final.Else? {
        assert LabelIn(cases, |cases|, targets, top, |u0.code|);
        :- EmitCase(v0, top + |cases|, exit, b, false, final.body);
        FollowsTwice(u0, u, View());
        if plan.near {
          BodiesKept(cases, |cases|, u, View(), |u0.code|, targets[exit], vis, base);
        }
      }
      ghost var w := View();
      SoundTargets(w);
      ExitSet(v0, w, b);
      SetLabel(exit);
      FollowsTwice(u0, w, View());
      return Fine;
    }

    method EmitCases(ghost v0: Emission, cases: seq<Case>, top: nat, exit: nat, ghost b: nat) returns (st: Status)
      requires Good() && Base() <= 255 && Continues(v0, View()) && |v0.labels| == exit && top == exit + 1
      requires top + |cases| <= b <= |labels| && LabelsAt(cases, |cases|, plan.targets, top, |code|)
      requires |code| + BodiesLen(cases, |cases|) <= plan.targets[exit]
      requires Pending(View(), exit, top, b)
      modifies this`code, this`pool, this`labels, this`branches, this`locals, this`scopes, this`plan
      ensures st.Fine? ==> Good() && Continues(v0, View()) && Follows(old(View()), View()) && scopes == old(scopes)
      ensures st.Fine? ==> old(plan).targets <= plan.targets && b <= |labels| && Pending(View(), exit, top + |cases|, b)
      ensures st.Fine? ==> |code| == old(|code|) + BodiesLen(cases, |cases|) && Base() <= 255
      ensures st.Fine? ==>
        locals == old(locals) + BodiesSlots(cases, |cases|) && |pool| == old(|pool|) + BodiesConsts(cases, |cases|)
      ensures st.Fine? && plan.near ==>
        BodiesAt(cases, |cases|, plan.fin, old(|code|), plan.targets[exit], pool, old(Vis()), old(Base()))
      ensures Accepts(st.Fine?, BodiesScoped(cases, |cases|, old(Known())), old(Use()),
                Used(BodiesConsts(cases, |cases|), BodiesLen(cases, |cases|), BodiesSlots(cases, |cases|)))
      decreases cases, 1
    {
      hide Sound, Extends, Continues, Follows, Pending, BlockLen, BlockSlots, BlockConsts, BlockScoped, Resolved,
           SortsOf, VisOf, CaseAt, BodyIn;
      ghost var u0, vis, base, names := View(), Vis(), Base(), Known();
      ghost var targets := plan.targets;
      FollowsItself(u0);
      var i := 0;
      while i < |cases|
        invariant 0 <= i <= |cases|
        invariant Good() && Base() <= 255 && Continues(v0, View()) && Follows(u0, View()) && scopes == old(scopes)
        invariant targets <= plan.targets && b <= |labels| && Pending(View(), exit, top + i, b)
        invariant |code| == |u0.code| + BodiesLen(cases, i) && Base() == base + BodiesSlots(cases, i)
        invariant |pool| == |u0.pool| + BodiesConsts(cases, i) && BodiesScoped(cases, i, names)
        invariant plan.near ==> BodiesAt(cases, i, plan.fin, |u0.code|, targets[exit], pool, vis, base)
      {
        ghost var u := View();
        TestsGrow(cases, i + 1, |cases|);
        BodiesGrow(cases, i, |cases|);
        assert LabelIn(cases, i, targets, top, |u0.code|);
        assert BodiesScoped(cases, |cases|, names) ==> BodyScoped(cases, i, names);
        :- EmitCase(v0, top + i, exit, b, true, cases[i].body);
        assert BodyScoped(cases, i, names);
        FollowsTwice(u0, u, View());
        if plan.near {
          BodiesKept(cases, i, u, View(), |u0.code|, targets[exit], vis, base);
          BodyLaidOut(cases, i, plan.fin, |u0.code|, targets[exit], pool, vis, base);
        }
        i := i + 1;
      }
      return Fine;
    }

    method MultiIfBlock(it: Item) returns (st: Status)
      requires it.MultiIf? && Good() && Base() <= 255
      modifies this`code, this`pool, this`labels, this`branches, this`locals, this`scopes, this`plan
      ensures st.Fine? ==> Good() && Extends(old(View()), View()) && scopes == old(scopes)
      ensures st.Fine? ==> |code| == old(|code|) + ItemLen(it) && locals == old(locals) + ItemSlots(it) && Base() <= 255
      ensures st.Fine? && plan.near ==> ItemAt(it, plan.fin, old(|code|), pool, old(Vis()), old(Base()))
      ensures st.Fine? ==> |pool| == old(|pool|) + ItemConsts(it)
      ensures Accepts(st.Fine?, ItemScoped(it, old(Known())), old(Use()), ItemCost(it))
      decreases it, 1
    {
      hide Sound, Extends, Continues, Follows, Pending, TestsAt, TestsLen, BodiesLen, BodiesSlots, BlockLen,
           FinalSlots, BranchesLaidOut, LabelsAt, ChecksAt, ItemAt, ItemLen, ItemSlots, Resolved, VisOf, FinalCaseLen,
           SortsOf, Push, TestsConsts, BodiesConsts, FinalConsts, ItemConsts, TestsScoped, BodiesScoped, FinalScoped,
           ItemScoped;
      var cases, final := it.cases, it.final;
      MultiIfNeeds(cases, final, Known());
      if cases == [] && final.NoElse? {
        return Failed(EmptyConditional);
      }
      ghost var v0, vis, base := View(), Vis(), Base();
      ghost var bodies := |code| + TestsLen(cases, |cases|) + ElseJump(final);
      ghost var end := bodies + BodiesLen(cases, |cases|) + FinalCaseLen(final);
      CondSize(cases, final, |code|, bodies, end);
      PushScope();
      ContinuesItself(v0);
      NewLabelContinues(v0, v0, end);
      SoundTargets(v0);
      var exit := AddLabel(end);
      ghost var v1 := View();
      var top := |labels|;
      :- EmitChecks(v0, it, bodies);
      ghost var v3 := View();
      NonePending(v3, exit);
      :- EmitBodies(v0, it, cases, final, top, exit);
      if plan.near {
        ChecksKept(it, v3, View(), |v0.code|, bodies, vis);
        CondLaidOut(cases, final, plan.fin, |v0.code|, bodies, end, pool, vis, base);
      }
      PopScope();
      return Fine;
    }

    // The first pass of a multi-branch if: the tests, and the jump to the else branch.
    method EmitChecks(ghost v0: Emission, it: Item, ghost bodies: nat) returns (st: Status)
      requires it.MultiIf? && Good() && Continues(v0, View())
      requires |code| + TestsLen(it.cases, |it.cases|) + ElseJump(it.final) == bodies
      modifies this`code, this`pool, this`labels, this`branches, this`plan
      ensures st.Fine? ==> Good() && Continues(v0, View()) && Follows(old(View()), View()) && |code| == bodies
      ensures st.Fine? ==>
        |plan.targets| == |labels| == old(|labels|) + Labels(it.cases, it.final) && old(plan).targets <= plan.targets
      ensures st.Fine? ==> LabelsAt(it.cases, Labels(it.cases, it.final), plan.targets, old(|labels|), bodies)
      ensures st.Fine? && plan.near ==> ChecksAt(it.cases, it.final, plan.fin, old(|code|), bodies, pool, Vis())
      ensures st.Fine? ==> |pool| == old(|pool|) + TestsConsts(it.cases, |it.cases|)
      ensures Accepts(st.Fine?, TestsScoped(it.cases, |it.cases|, Known()), old(Use()),
                Used(TestsConsts(it.cases, |it.cases|), bodies - old(|code|), 0))
      decreases it, 0
    {
      hide Sound, Continues, Follows, TestsAt, TestsLen, BodiesLen, LabelsAt, JumpAt, Resolved, VisOf, SortsOf,
           TestsConsts, TestsScoped;
      var cases, final := it.cases, it.final;
      ghost var v1, top := View(), |labels|;
      SoundTargets(v1);
      :- EmitTests(v0, cases, bodies);
      ghost var v2 := View();
      EmitElse(v0, cases, final, top, bodies);
      FollowsTwice(v1, v2, View());
      if plan.near {
        TestsKept(cases, |cases|, v2, View(), |v1.code|, bodies, Vis());
      }
      return Fine;
    }

    method SwitchStmt(it: Item) returns (st: Status)
      requires it.Switch? && Good() && Base() <= 255
      modifies this`code, this`pool, this`labels, this`branches, this`locals, this`scopes, this`plan
      ensures st.Fine? ==> Good() && Extends(old(View()), View()) && scopes == old(scopes)
      ensures st.Fine? ==> |code| == old(|code|) + ItemLen(it) && locals == old(locals) + ItemSlots(it) && Base() <= 255
      ensures st.Fine? && plan.near ==> ItemAt(it, plan.fin, old(|code|), pool, old(Vis()), old(Base()))
      ensures st.Fine? ==> |pool| == old(|pool|) + ItemConsts(it)
      ensures Accepts(st.Fine?, ItemScoped(it, old(Known())), old(Use()), ItemCost(it))
      decreases it, 2
    {
      hide Sound, Extends, ItemAt, Resolved, VisOf, ItemLen, ItemSlots, SortsOf, Push, ItemConsts, ExprScoped,
           LabelsFit, BodiesScoped, FinalScoped, ItemScoped;
      SwitchNeeds(it.subject, it.cases, it.final, Known());
      if it.cases == [] && it.final.NoElse? {
        return Failed(EmptyConditional);
      }
      ghost var v0 := View();
      var slot := arity + locals;
      locals := locals + 1;
      PushScope();
      :- EmitSwitch(it, slot);
      PopScope();
      return Fine;
    }

    // The switch itself, in its own scope, with its subject in the given slot.
    method EmitSwitch(it: Item, slot: nat) returns (st: Status)
      requires it.Switch? && Good() && slot <= 255 && Base() == slot + 1
      modifies this`code, this`pool, this`labels, this`branches, this`locals, this`scopes, this`plan
      ensures st.Fine? ==> Good() && Extends(old(View()), View()) && scopes == old(scopes)
      ensures st.Fine? ==> |code| == old(|code|) + ItemLen(it) && |pool| == old(|pool|) + ItemConsts(it)
      ensures st.Fine? ==> locals + 1 == old(locals) + ItemSlots(it) && Base() <= 255
      ensures st.Fine? && plan.near ==> ItemAt(it, plan.fin, old(|code|), pool, old(Vis()), slot)
      ensures Accepts(st.Fine?, ExprScoped(it.subject, old(Known())) && LabelsFit(it.cases, |it.cases|)
                && BodiesScoped(it.cases, |it.cases|, old(Known())) && FinalScoped(it.final, old(Known())),
                Used(old(|pool|), old(|code|), slot), ItemCost(it))
      decreases it, 1
    {
      hide Sound, Extends, Continues, Follows, Pending, ArmsLen, BodiesLen, BodiesSlots, BlockLen, FinalSlots,
           SelectionAt, BranchesLaidOut, LabelsAt, ItemAt, Resolved, VisOf, ExprLen, FinalCaseLen, ItemLen, ItemSlots,
           SortsOf, ExprConsts, TestsConsts, BodiesConsts, FinalConsts, ItemConsts, ExprScoped, LabelsFit, BodiesScoped,
           FinalScoped;
      var cases, final := it.cases, it.final;
      SwitchNeeds(it.subject, cases, final, Known());
      ghost var v0, vis := View(), Vis();
      ghost var bodies := |code| + ExprLen(it.subject) + 3 + ArmsLen(cases, |cases|) + ElseJump(final);
      ghost var end := bodies + BodiesLen(cases, |cases|) + FinalCaseLen(final);
      SwitchSize(it.subject, cases, final, |code|, bodies, end);
      ContinuesItself(v0);
      NewLabelContinues(v0, v0, end);
      SoundTargets(v0);
      var exit := AddLabel(end);
      var top := |labels|;
      :- EmitSelection(v0, it, slot, bodies);
      ghost var v4 := View();
      NonePending(v4, exit);
      :- EmitBodies(v0, it, cases, final, top, exit);
      if plan.near {
        SelectionKept(it, v4, View(), |v0.code|, bodies, vis, slot);
        SwitchLaidOut(it.subject, cases, final, plan.fin, |v0.code|, bodies, end, pool, vis, slot);
      }
      return Fine;
    }

    // The first pass of a switch: save the subject, compare it with each literal, and go to the else branch.
    method EmitSelection(ghost v0: Emission, it: Item, slot: nat, ghost bodies: nat) returns (st: Status)
      requires it.Switch? && Good() && slot <= 255 && Continues(v0, View())
      requires |code| + ExprLen(it.subject) + 3 + ArmsLen(it.cases, |it.cases|) + ElseJump(it.final) == bodies
      modifies this`code, this`pool, this`labels, this`branches, this`plan
      ensures st.Fine? ==>
        slot < 255 && Good() && Continues(v0, View()) && Follows(old(View()), View()) && |code| == bodies
      ensures st.Fine? ==>
        |plan.targets| == |labels| == old(|labels|) + Labels(it.cases, it.final) && old(plan).targets <= plan.targets
      ensures st.Fine? ==> LabelsAt(it.cases, Labels(it.cases, it.final), plan.targets, old(|labels|), bodies)
      ensures st.Fine? && plan.near ==>
        SelectionAt(it.subject, it.cases, it.final, plan.fin, old(|code|), bodies, pool, Vis(), slot)
      ensures st.Fine? ==> |pool| == old(|pool|) + ExprConsts(it.subject) + TestsConsts(it.cases, |it.cases|)
      ensures Accepts(st.Fine?, ExprScoped(it.subject, Known()) && LabelsFit(it.cases, |it.cases|) && slot < 255,
                old(Use()), Used(ExprConsts(it.subject) + TestsConsts(it.cases, |it.cases|), bodies - old(|code|), 0))
      decreases it, 0
    {
      hide Sound, Extends, Continues, Follows, ArmsAt, ArmsLen, BodiesLen, LabelsAt, JumpAt, Resolved, VisOf,
           SubjectAt, ExprLen, SortsOf, ExprConsts, TestsConsts, ExprScoped, LabelsFit;
      var cases, final := it.cases, it.final;
      ghost var v1, top := View(), |labels|;
      SoundTargets(v1);
      :- SaveSubject(it.subject, slot);
      ghost var v2 := View();
      ExtendsFollows(v1, v2);
      ContinuesTwice(v0, v1, v2);
      SameTargets(v1, v2);
      :- EmitArms(v0, cases, slot, bodies);
      ghost var v3 := View();
      EmitElse(v0, cases, final, top, bodies);
      FollowsTwice(v2, v3, View());
      FollowsTwice(v1, v2, View());
      if plan.near {
        SubjectKept(v2, View(), it.subject, |v1.code|, |v1.code| + ExprLen(it.subject), slot, Vis());
        ArmsKept(cases, |cases|, v3, View(), |v2.code|, bodies, slot);
      }
      return Fine;
    }

    // Evaluate the subject once and keep it in its hidden slot.
    method SaveSubject(subject: Expr, slot: nat) returns (st: Status)
      requires Good() && slot <= 255
      modifies this`code, this`pool, this`plan
      ensures st.Fine? ==> slot < 255 && Good() && Extends(old(View()), View()) && plan.near == old(plan).near
      ensures st.Fine? ==> |code| == old(|code|) + ExprLen(subject) + 3
      ensures st.Fine? ==> SubjectAt(subject, plan.fin, old(|code|), old(|code|) + ExprLen(subject), pool, Vis(), slot)
      ensures st.Fine? ==> |pool| == old(|pool|) + ExprConsts(subject)
      ensures Accepts(st.Fine?, ExprScoped(subject, Known()) && slot < 255, old(Use()),
                ExprCost(subject).Plus(Used(0, 3, 0)))
      decreases subject, 2
    {
      hide Sound, Extends, ExprAt, ExprLen, Resolved, VisOf, SortsOf;
      ghost var v0 := View();
      :- Expr(subject);
      ghost var v1 := View();
      :- EmitConst(STORE, slot % 256);
      ghost var v2 := View();
      EmitByte(POP);
      ExtendsTwice(v1, v2, View());
      ExtendsTwice(v0, v1, View());
      ExtendsKeepsPool(v1, View(), scopes, arity);
      ExprKept(subject, v1, View(), |v0.code|, Vis());
      return Fine;
    }

    // ----- choices -----

    method Piece(t: Option<string>) returns (st: Status)
      requires Good()
      modifies this`code, this`pool, this`plan
      ensures st.Fine? ==> Good() && Extends(old(View()), View()) && plan.near == old(plan).near
      ensures st.Fine? ==> |code| == old(|code|) + PieceLen(t) && PieceAt(t, plan.fin, old(|code|), pool)
      ensures st.Fine? ==> |pool| == old(|pool|) + PieceConsts(t)
      ensures Accepts(st.Fine?, true, old(Use()), Used(PieceConsts(t), PieceLen(t), 0))
    {
      ExtendsItself(View());
      if t.Some? {
        st := TextPiece(t.value);
      } else {
        st := Fine;
      }
    }

    // The label of a branch and its number; the index of the number is cast to 16 bits.
    method EmitOffer(b: Branch, i: nat) returns (st: Status, id: nat)
      requires Good()
      modifies this`code, this`pool, this`plan
      ensures st.Fine? ==> Good() && Extends(old(View()), View()) && plan.near == old(plan).near
      ensures st.Fine? ==> |code| == old(|code|) + PieceLen(b.start) + PieceLen(b.option) + 3
      ensures st.Fine? ==> id < |pool| && pool[id] == Int(i) && OfferAt(b, i, plan.fin, old(|code|), pool)
      ensures st.Fine? ==> |pool| == old(|pool|) + PieceConsts(b.start) + PieceConsts(b.option) + 1
      ensures Accepts(st.Fine?, true, old(Use()),
                Used(PieceConsts(b.start) + PieceConsts(b.option) + 1, PieceLen(b.start) + PieceLen(b.option) + 3, 0))
    {
      hide Sound, Extends, PieceAt, PieceLen, PieceConsts, ConstAt, OpAt, Resolved, VisOf, SortsOf;
      ghost var v0 := View();
      id := 0;
      st := Piece(b.start);
      if st.Failed? { return; }
      ghost var v1 := View();
      st := Piece(b.option);
      if st.Failed? { return; }
      ghost var v2 := View();
      st, id := EmitNumber(i);
      if st.Failed? { return; }
      ExtendsTwice(v0, v1, v2);
      ExtendsTwice(v1, v2, View());
      ExtendsTwice(v0, v2, View());
      ExtendsFollows(v1, View());
      ExtendsFollows(v2, View());
      PieceKept(v1, View(), b.start, |v0.code|);
      PieceKept(v2, View(), b.option, |v1.code|);
    }

    method EmitNumber(i: nat) returns (st: Status, id: nat)
      requires Good()
      modifies this`code, this`pool, this`plan
      ensures st.Fine? ==> Good() && Extends(old(View()), View()) && plan.near == old(plan).near
      ensures st.Fine? ==> |code| == old(|code|) + 3 && |pool| == old(|pool|) + 1 && id < |pool| && pool[id] == Int(i)
      ensures st.Fine? ==>
        ConstAt(plan.fin, old(|code|), CONST, pool, Int(i)) && OpAt(plan.fin, old(|code|) + 2, CHOICE)
      ensures Accepts(st.Fine?, true, old(Use()), Used(1, 3, 0))
    {
      hide Sound, Extends, Resolved, VisOf, SortsOf;
      ghost var v2 := View();
      PoolGrows(v2, Int(i));
      ResolvedKeeps(scopes, pool, pool + [Int(i)], arity);
      var k := AddConst(Int(i));
      id := k % 0x1_0000;
      ghost var v3 := View();
      st := EmitConst(CONST, id);
      if st.Failed? { return; }
      ghost var v4 := View();
      EmitByte(CHOICE);
      ExtendsTwice(v2, v3, v4);
      ExtendsTwice(v2, v4, View());
      assert v4.plan.fin <= plan.fin;
    }

    method EmitOffers(bs: seq<Branch>) returns (st: Status, ids: seq<nat>)
      requires Good()
      modifies this`code, this`pool, this`plan
      ensures st.Fine? ==> Good() && Extends(old(View()), View()) && plan.near == old(plan).near
      ensures st.Fine? ==>
        |code| == old(|code|) + OffersLen(bs, |bs|) && OffersAt(bs, |bs|, plan.fin, old(|code|), pool)
      ensures st.Fine? ==> |ids| == |bs| && Numbered(ids, pool)
      ensures st.Fine? ==> |pool| == old(|pool|) + OffersConsts(bs, |bs|)
      ensures Accepts(st.Fine?, true, old(Use()), Used(OffersConsts(bs, |bs|), OffersLen(bs, |bs|), 0))
    {
      hide Sound, Extends, PieceLen, PieceConsts, OfferIn, OfferAt, Resolved, Follows, BranchConsts, BranchLen, VisOf,
           SortsOf;
      ghost var v0 := View();
      ExtendsItself(v0);
      ids := [];
      var i := 0;
      while i < |bs|
        invariant 0 <= i <= |bs| == |bs| && |ids| == i && Numbered(ids, pool)
        invariant Good() && Extends(v0, View()) && plan.near == old(plan).near
        invariant |code| == |v0.code| + OffersLen(bs, i) && OffersAt(bs, i, plan.fin, |v0.code|, pool)
        invariant |pool| == |v0.pool| + OffersConsts(bs, i)
      {
        ghost var v := View();
        OffersGrow(bs, i, |bs|);
        var id;
        st, id := EmitOffer(bs[i], i);
        if st.Failed? { return; }
        ExtendsTwice(v0, v, View());
        ExtendsFollows(v, View());
        OfferLaidOut(bs, i, v, View(), |v0.code|);
        NumberedKept(ids, v, View());
        ids := ids + [id];
        i := i + 1;
      }
      st := Fine;
    }

    // Compare the chosen number with that of a branch, and jump to its body.
    method EmitPick(ghost bs: seq<Branch>, ghost i: nat, ghost at: nat, id: nat, ghost t: nat) returns (st: Status,
            patch: nat)
      requires Good() && i < |bs| && |code| == at + 8 * i && |code| + 8 <= t && id < |pool| && pool[id] == Int(i)
      modifies this`code, this`plan
      ensures st.Fine? ==>
        Good() && Keeps(old(View()), View()) && plan.near == old(plan).near && plan.targets == old(plan).targets
      ensures st.Fine? ==> |code| == old(|code|) + 8 && patch == Cut16(old(|code|) + 5)
      ensures st.Fine? ==> plan.imm == old(plan).imm + {old(|code|) + 5, old(|code|) + 6}
      ensures st.Fine? ==> PickPlanned(bs, i, plan.fin, at, t, pool)
      ensures st.Fine?
    {
      hide Sound, Keeps, Extends, HighByte, LowByte, Resolved, PickPlanned, OpAt, SlotAt, VisOf, SortsOf;
      ghost var v0 := View();
      SoundTargets(v0);
      patch := 0;
      st := EmitCompare(id);
      if st.Failed? { return; }
      ghost var v3 := View();
      ExtendsFollows(v0, v3);
      OpenKeeps(v3, JMP_T, t - |code| - 3);
      var offset := EmitJump(JMP_T, t);
      ghost var v4 := View();
      KeepsTwice(v0, v3, v4);
      patch := Cut16(offset);
      EmitByte(POP);
      PickEmitted(bs, i, v0.plan.fin, plan.fin, id, at, t, pool);
      ExtendsFollows(v4, View());
      KeepsTwice(v0, v4, View());
    }

    method EmitCompare(id: nat) returns (st: Status)
      requires Good() && id < |pool|
      modifies this`code, this`plan
      ensures st.Fine?
      ensures st.Fine? ==> Good() && Extends(old(View()), View()) && |code| == old(|code|) + 4
      ensures st.Fine? ==> plan == old(plan).(fin := old(plan).fin + [LOAD_CHOICE_ID] + [CONST, id] + [CMP_EQ])
    {
      hide Sound, Extends, Resolved, OpAt, SlotAt, VisOf, SortsOf;
      ghost var v0 := View();
      EmitByte(LOAD_CHOICE_ID);
      ghost var v1 := View();
      st := EmitConst(CONST, id);
      ghost var v2 := View();
      EmitByte(CMP_EQ);
      ExtendsTwice(v0, v1, v2);
      ExtendsTwice(v0, v2, View());
    }

    method EmitPicks(bs: seq<Branch>, ids: seq<nat>, ghost bodies: nat) returns (st: Status, patches: seq<nat>)
      requires Good() && |ids| == |bs| && Numbered(ids, pool) && |code| + 8 * |bs| < bodies
      modifies this`code, this`plan
      ensures st.Fine? ==>
        Good() && Keeps(old(View()), View()) && plan.near == old(plan).near && plan.targets == old(plan).targets
      ensures st.Fine? ==> |code| == old(|code|) + 8 * |bs| && |patches| == |bs|
      ensures st.Fine? ==> Patches(patches, old(|code|))
      ensures st.Fine? ==> plan.imm == old(plan).imm + OpenPicks(old(|code|), 0, |bs|)
      ensures st.Fine? ==> PicksPlanned(bs, |bs|, plan.fin, old(|code|), bodies, pool)
      ensures st.Fine?
    {
      hide Sound, Keeps, Resolved, PickPlanned, OpenPicks, BranchesLen, Follows, VisOf, SortsOf;
      ghost var v0 := View();
      KeepsItself(v0);
      patches := [];
      NoPicks(v0.plan.imm, |v0.code|, 0);
      var i := 0;
      while i < |bs|
        invariant 0 <= i <= |bs| && |patches| == i
        invariant Good() && Keeps(v0, View()) && plan.near == v0.plan.near && plan.targets == v0.plan.targets
        invariant |code| == |v0.code| + 8 * i && plan.imm == v0.plan.imm + OpenPicks(|v0.code|, 0, i)
        invariant Patches(patches, |v0.code|)
        invariant PicksPlanned(bs, i, plan.fin, |v0.code|, bodies, pool)
      {
        ghost var v := View();
        var patch;
        st, patch := EmitPick(bs, i, |v0.code|, ids[i], PickTarget(bs, i, bodies));
        if st.Failed? { return; }
        KeepsTwice(v0, v, View());
        OpenOneMore(|v0.code|, 0, i);
        KeepsFollows(v, View());
        PicksPlannedKept(bs, i, v, View(), |v0.code|, bodies);
        patches := patches + [patch];
        i := i + 1;
      }
      st := Fine;
    }

    // Drop the comparison, write the text of the choice, wait, and go on with the body.
    method EmitBranch(b: Branch) returns (st: Status)
      requires Good() && Base() <= 255
      modifies this`code, this`pool, this`labels, this`branches, this`locals, this`scopes, this`plan
      ensures st.Fine? ==> Good() && Extends(old(View()), View()) && scopes == old(scopes)
      ensures st.Fine? ==> |code| == old(|code|) + PieceLen(b.start) + PieceLen(b.inner) + 2 + BlockLen(b.body)
      ensures st.Fine? ==> locals == old(locals) + BlockSlots(b.body) && Base() <= 255
      ensures st.Fine? && plan.near ==> BranchAt(b, plan.fin, old(|code|), pool, old(Vis()), old(Base()))
      ensures st.Fine? ==> |pool| == old(|pool|) + BranchConsts(b)
      ensures Accepts(st.Fine?, BlockScoped(b.body, old(Known())), old(Use()),
                Used(BranchConsts(b), BranchLen(b), BlockSlots(b.body)))
      decreases b
    {
      hide Sound, Extends, PieceAt, PieceLen, PieceConsts, BlockAt, BlockLen, BlockSlots, BlockConsts, BlockScoped,
           Resolved, VisOf, SortsOf, OpAt;
      ghost var v0 := View();
      :- EmitText(b);
      ghost var v4 := View();
      :- Block(b.body);
      ExtendsTwice(v0, v4, View());
      ExtendsFollows(v4, View());
      BranchTextKept(b, v4, View(), |v0.code|);
      return Fine;
    }

    // What a branch does before its body.
    method EmitText(b: Branch) returns (st: Status)
      requires Good()
      modifies this`code, this`pool, this`plan
      ensures st.Fine? ==> Good() && Extends(old(View()), View()) && plan.near == old(plan).near
      ensures st.Fine? ==> |code| == old(|code|) + PieceLen(b.start) + PieceLen(b.inner) + 2
      ensures st.Fine? ==> BranchTextAt(b, plan.fin, old(|code|), pool)
      ensures st.Fine? ==> |pool| == old(|pool|) + PieceConsts(b.start) + PieceConsts(b.inner)
      ensures Accepts(st.Fine?, true, old(Use()),
                Used(PieceConsts(b.start) + PieceConsts(b.inner), PieceLen(b.start) + PieceLen(b.inner) + 2, 0))
    {
      hide Sound, Extends, PieceAt, PieceLen, PieceConsts, Resolved, OpAt, VisOf, SortsOf;
      ghost var v0 := View();
      EmitByte(POP);
      ghost var v1 := View();
      ExtendsKeepsPool(v0, v1, scopes, arity);
      :- Piece(b.start);
      ghost var v2 := View();
      :- Piece(b.inner);
      ghost var v3 := View();
      EmitByte(FLUSH);
      ExtendsKeepsPool(v3, View(), scopes, arity);
      ExtendsTwice(v2, v3, View());
      ExtendsTwice(v1, v2, View());
      ExtendsTwice(v0, v1, View());
      OpKept(v1, View(), |v0.code|, POP);
      ExtendsFollows(v2, View());
      ExtendsFollows(v3, View());
      PieceKept(v2, View(), b.start, |v1.code|);
      PieceKept(v3, View(), b.inner, |v2.code|);
      return Fine;
    }

    // Patch a jump whose operand is at offset, through a label that was cut to 16 bits.
    method PatchPick(ghost v0: Emission, label16: nat, ghost offset: nat) returns (st: Status)
      requires Good() && Keeps(v0, View()) && AllSet(View(), |v0.labels|)
      requires label16 == Cut16(offset) && offset + 2 <= |code|
      requires plan.fin[offset] == HighByte(|code| - offset - 2) && plan.fin[offset + 1] == LowByte(|code| - offset - 2)
      modifies this`code, this`plan
      ensures st.Fine? ==>
        && Good() && Keeps(v0, View()) && AllSet(View(), |v0.labels|) && |code| == old(|code|)
        && |code| - offset - 2 < 0x1_0000
      ensures st.Fine? ==>
        plan == old(plan).(imm := old(plan).imm - {offset, offset + 1}) && Follows(old(View()), View())
      ensures old(|code|) < 0x1_0000 ==> st.Fine?
    {
      hide Sound, Keeps, AllSet, HighByte, LowByte, Resolved, Cut16, VisOf, SortsOf;
      ghost var v := View();
      :- PatchPick16(label16, offset);
      CloseKeeps(v0, v, View(), offset, |code| - offset - 2);
      SettledSame(v, View(), |v0.labels|);
      return Fine;
    }

    method PatchPick16(label16: nat, ghost offset: nat) returns (st: Status)
      requires Sound(View()) && label16 == Cut16(offset) && offset + 2 <= |code|
      requires plan.fin[offset] == HighByte(|code| - offset - 2) && plan.fin[offset + 1] == LowByte(|code| - offset - 2)
      modifies this`code, this`plan
      ensures st.Fine? ==> label16 == offset && old(|code|) - offset - 2 < 0x1_0000
      ensures st.Fine? ==> Sound(View()) && View() == CloseJump(old(View()), offset, old(|code|) - offset - 2)
      ensures old(|code|) < 0x1_0000 ==> st.Fine?
    {
      SoundTargets(View());
      if offset >= 0x1_0000 {
        assert |code| - label16 - 2 >= 0x1_0000;
      }
      st := PatchJump(label16);
    }

    // Patch the jump of each pick and emit the body it leads to.  A label that was cut to 16 bits is
    // too far away from here, so its jump is rejected.
    method EmitBranches(ghost v0: Emission, bs: seq<Branch>, patches: seq<nat>, ghost imm: set<nat>,
            ghost picks: nat) returns (st: Status)
      requires Good() && Base() <= 255 && Keeps(v0, View()) && AllSet(View(), |v0.labels|)
      requires |patches| == |bs| && Patches(patches, picks)
      requires (forall k | k in imm :: k < picks) && plan.imm == imm + OpenPicks(picks, 0, |bs|)
      requires |code| == picks + PicksLen(|bs|) + 1 && PicksPlanned(bs, |bs|, plan.fin, picks, |code|, pool)
      modifies this`code, this`pool, this`labels, this`branches, this`locals, this`scopes, this`plan
      ensures st.Fine? ==>
        Good() && Keeps(v0, View()) && AllSet(View(), |v0.labels|) && plan.imm == imm && scopes == old(scopes)
      ensures st.Fine? ==> Follows(old(View()), View())
      ensures st.Fine? ==>
        && |code| == old(|code|) + BranchesLen(bs, |bs|) && locals == old(locals) + BranchesSlots(bs, |bs|)
        && Base() <= 255
      ensures st.Fine? ==> PicksAt(bs, |bs|, plan.fin, picks, old(|code|), pool)
      ensures st.Fine? && plan.near ==> BranchesAt(bs, |bs|, plan.fin, old(|code|), pool, old(Vis()), old(Base()))
      ensures st.Fine? ==> |pool| == old(|pool|) + BranchesConsts(bs, |bs|)
      ensures Accepts(st.Fine?, BranchesScoped(bs, |bs|, old(Known())), old(Use()),
                Used(BranchesConsts(bs, |bs|), BranchesLen(bs, |bs|), BranchesSlots(bs, |bs|)))
      decreases bs, 1
    {
      BranchesStart(bs, View(), Known(), Vis(), Base());
      hide Sound, Keeps, Extends, AllSet, Follows, Resolved, VisOf, PickPlanned, PicksPlanned, OpenPicks, BlockLen,
           BlockSlots, PieceLen, BranchAt, SortsOf, BlockScoped, BranchConsts, PicksAt, HighByte, LowByte, BranchLen,
           BranchesAt, BranchesLen, BranchesSlots, BranchesConsts, BranchesScoped, Cut16;
      ghost var u0, vis, base, bodies, names := View(), Vis(), Base(), |code|, Known();
      FollowsItself(u0);
      var i := 0;
      while i < |bs|
        invariant 0 <= i <= |bs|
        invariant Good() && Base() <= 255 && Keeps(v0, View()) && AllSet(View(), |v0.labels|) && Follows(u0, View())
          && scopes == old(scopes)
        invariant |code| == bodies + BranchesLen(bs, i) && Base() == base + BranchesSlots(bs, i)
        invariant plan.imm == imm + OpenPicks(picks, i, |bs|)
        invariant PicksPlanned(bs, |bs|, plan.fin, picks, bodies, pool)
        invariant PicksShort(bs, i, picks, bodies)
        invariant |pool| == |u0.pool| + BranchesConsts(bs, i) && BranchesScoped(bs, i, names)
        invariant plan.near ==> BranchesAt(bs, i, plan.fin, bodies, pool, vis, base)
      {
        ghost var u := View();
        BranchesGrow(bs, i, |bs|);
        BranchesStep(bs, i, names);
        PickReady(bs, i, u, picks, bodies);
        OpenOneLess(imm, picks, i, |bs|);
        :- EmitPicked(v0, bs, bs[i], patches[i], picks + PicksLen(i) + 5);
        FollowsTwice(u0, u, View());
        PicksPlannedKept(bs, |bs|, u, View(), picks, bodies);
        if plan.near {
          BranchLaidOut(bs, i, u, View(), bodies, vis, base);
        }
        i := i + 1;
      }
      PicksLaidOut(bs, plan.fin, picks, bodies, pool);
      NoPicks(imm, picks, |bs|);
      return Fine;
    }

    // Patch the jump to a branch and emit the branch.
    method EmitPicked(ghost v0: Emission, ghost bs: seq<Branch>, b: Branch, patch: nat, ghost offset: nat)
      returns (st: Status)
      requires b in bs && Good() && Base() <= 255 && Keeps(v0, View()) && AllSet(View(), |v0.labels|)
      requires patch == Cut16(offset) && offset + 2 <= |code|
      requires plan.fin[offset] == HighByte(|code| - offset - 2) && plan.fin[offset + 1] == LowByte(|code| - offset - 2)
      modifies this`code, this`pool, this`labels, this`branches, this`locals, this`scopes, this`plan
      ensures st.Fine? ==> Good() && Keeps(v0, View()) && AllSet(View(), |v0.labels|) && scopes == old(scopes)
      ensures st.Fine? ==> Follows(old(View()), View()) && plan.imm == old(plan).imm - {offset, offset + 1}
      ensures st.Fine? ==> old(|code|) - offset - 2 < 0x1_0000 && |code| == old(|code|) + BranchLen(b)
      ensures st.Fine? ==> locals == old(locals) + BlockSlots(b.body) && Base() <= 255
      ensures st.Fine? && plan.near ==> BranchAt(b, plan.fin, old(|code|), pool, old(Vis()), old(Base()))
      ensures st.Fine? ==> |pool| == old(|pool|) + BranchConsts(b)
      ensures Accepts(st.Fine?, BlockScoped(b.body, old(Known())), old(Use()),
                Used(BranchConsts(b), BranchLen(b), BlockSlots(b.body)))
      decreases bs, 0
    {
      hide Sound, Keeps, Extends, AllSet, Follows, Resolved, VisOf, BlockLen, BlockSlots, PieceLen, BranchAt, SortsOf,
           BlockScoped, BranchConsts, HighByte, LowByte, Cut16;
      ghost var u := View();
      :- PatchPick(v0, patch, offset);
      ghost var u1 := View();
      :- EmitBranch(b);
      ExtendsFollows(u1, View());
      FollowsTwice(u, u1, View());
      KeepsTwice(v0, u1, View());
      Settled(u1, View(), |v0.labels|);
      return Fine;
    }

    // The labels of the branches, between two flushes.
    method EmitLabels(bs: seq<Branch>) returns (st: Status, ids: seq<nat>)
      requires Good()
      modifies this`code, this`pool, this`plan
      ensures st.Fine? ==> Good() && Extends(old(View()), View()) && plan.near == old(plan).near
      ensures st.Fine? ==> |code| == old(|code|) + OffersLen(bs, |bs|) + 2 && |ids| == |bs| && Numbered(ids, pool)
      ensures st.Fine? ==> LabelsLaidOut(bs, plan.fin, old(|code|), pool)
      ensures st.Fine? ==> |pool| == old(|pool|) + OffersConsts(bs, |bs|)
      ensures Accepts(st.Fine?, true, old(Use()), Used(OffersConsts(bs, |bs|), OffersLen(bs, |bs|) + 2, 0))
    {
      hide Sound, Extends, OfferIn, OffersLen, Resolved, Numbered, VisOf, SortsOf;
      ids := [];
      ghost var v0 := View();
      EmitByte(FLUSH);
      ghost var v1 := View();
      ExtendsKeepsPool(v0, v1, scopes, arity);
      st, ids := EmitOffers(bs);
      if st.Failed? { return; }
      ghost var v2 := View();
      EmitByte(FLUSH);
      ExtendsKeepsPool(v2, View(), scopes, arity);
      ExtendsTwice(v1, v2, View());
      ExtendsTwice(v0, v1, View());
      OpKept(v1, View(), |v0.code|, FLUSH);
      OffersKept(bs, v2, View(), |v1.code|);
    }

    method ChoiceStmt(bs: seq<Branch>) returns (st: Status)
      requires Good() && Base() <= 255
      modifies this`code, this`pool, this`labels, this`branches, this`locals, this`scopes, this`plan
      ensures st.Fine? ==> Good() && Extends(old(View()), View()) && scopes == old(scopes)
      ensures st.Fine? ==>
        |code| == old(|code|) + StmtLen(Choices(bs)) && |pool| == old(|pool|) + StmtConsts(Choices(bs))
      ensures st.Fine? ==> locals == old(locals) + StmtSlots(Choices(bs)) && Base() <= 255
      ensures st.Fine? && plan.near ==> StmtAt(Choices(bs), plan.fin, old(|code|), pool, old(Vis()), old(Base()))
      ensures Accepts(st.Fine?, StmtScoped(Choices(bs), old(Known())), old(Use()), StmtCost(Choices(bs)))
      decreases bs, 2
    {
      hide Sound, Extends, Keeps, AllSet, Follows, Numbered, PicksPlanned, LabelsLaidOut, OpenPicks, PicksAt,
           BranchesAt, StmtAt, BranchesLen, BranchesSlots, OffersLen, Resolved, VisOf, OpAt, SortsOf;
      ghost var v0 := View();
      var ids;
      st, ids := EmitLabels(bs);
      if st.Failed? { return; }
      ghost var v1 := View();
      ghost var picks := |code|;
      var patches;
      st, patches := EmitPicks(bs, ids, picks + PicksLen(|bs|) + 1);
      if st.Failed? { return; }
      ghost var v2 := View();
      EmitByte(EXIT);
      ghost var v3 := View();
      ResolvedKeeps(scopes, v2.pool, pool, arity);
      ChoicesOpened(v0, v1, v2, v3, bs, picks, picks + PicksLen(|bs|) + 1);
      :- EmitBranches(v0, bs, patches, v0.plan.imm, picks);
      KeepsExtends(v0, View());
      if plan.near {
        ChoicesLaidOut(bs, v1, v3, View(), |v0.code|, picks, old(Vis()), old(Base()));
      }
      return Fine;
    }

    // ----- paths -----

    // The scope of a path's parameters: each one names its stack slot.
    method ParamNames(params: seq<string>) returns (st: Status, names: map<string, Symbol>)
      ensures st.Fine? <==> Distinct(params)
      ensures st.Fine? ==> names == ParamSymbols(params)
    {
      names := map[];
      var i := 0;
      while i < |params|
        invariant 0 <= i <= |params| && Distinct(params[..i]) && names == ParamSymbols(params[..i])
      {
        if params[i] in names {
          SameParam(params, i);
          return Failed(Redefined), names;
        }
        OneMoreParam(params, i);
        names := names[params[i] := Param(i)];
        i := i + 1;
      }
      assert params[..i] == params;
      st := Fine;
    }

    // A knot or a function: its parameters, its body and its last instruction.
    method KnotDecl(file: map<string, Symbol>, d: PathDef) returns (st: Status, path: M.Path)
      requires labels == [] && branches == [] && |d.params| <= 255 && OnlyPaths(file)
      modifies this
      ensures st.Fine? ==> PathAt(d, path) && labels == [] && branches == []
      ensures st.Fine? ==> PathScoped(d, SortsIn(file))
      ensures PathAccepted(d, SortsIn(file)) ==> st.Fine?
    {
      hide Sound, Extends, AllSet, BlockLen, BlockAt, BlockSlots, BlockConsts, BlockScoped, Resolved, VisOf, SortsOf,
           SortsIn, ScopesOf, ParamSymbols, ParamSlots;
      path := M.Path([], [], 0, 0);
      var names;
      st, names := ParamNames(d.params);
      if st.Failed? { return; }
      StartPath(file, d.params);
      StartScopes(file, d);
      code, pool, arity, locals := [], [], |d.params|, 0;
      scopes := [file, names];
      plan := Plan([], {}, [], true);
      NothingPending([], []);
      var exit := AddLabel(BlockLen(d.body));
      ghost var v1 := View();
      st := Block(d.body);
      if st.Failed? { return; }
      ghost var v2 := View();
      st := EndPath(if d.isFunction then RET else EXIT, exit, v1);
      if st.Failed? { return; }
      BlockKeeps(d.body, v2.plan.fin, code, 0, pool, pool, ParamSlots(d.params), |d.params|);
      path := M.Path(code, pool, arity, locals);
    }

    // The end of a path: its exit label, its last instruction, and the jumps that waited for it.
    method EndPath(op: byte, exit: nat, ghost v1: Emission) returns (st: Status)
      requires Sound(View()) && exit == 0 && v1.labels == [UNSET] && v1.branches == []
      requires v1.plan == Plan([], {}, [|code|], true) && Extends(v1, View())
      modifies this`code, this`labels, this`branches, this`plan
      ensures st.Fine? ==>
        code == old(plan).fin + [op] && |code| == old(|code|) + 1 && labels == [] && branches == [] && old(plan).near
      ensures old(|code|) + 1 < 0x1_0000 ==> st.Fine?
    {
      hide Sound, Extends, AllSet;
      ghost var v2, n := View(), |code|;
      SoundTargets(v2);
      ExtendsFollows(v1, v2);
      Prefixes(v1, v2);
      SetLabel(exit);
      ghost var v3 := View();
      EmitByte(op);
      PathReady(v1, v2, v3, View(), n);
      PathSettled(v1, v2, v3, View(), n);
      if |code| < 0x1_0000 {
        NearInside(View());
      }
      ghost var fin := plan.fin;
      assert fin == v2.plan.fin + [op];
      st := Backpatch();
    }

    // A whole file: the names of all paths first, so that they can be used before they are declared,
    // and then the code of each of them.
    method File(main: Option<seq<Stmt>>, defs: seq<(string, PathDef)>) returns (st: Status, prog: M.Program)
      requires labels == [] && branches == []
      requires forall i | 0 <= i < |defs| :: |defs[i].1.params| <= 255 && defs[i].0 != MAIN
      modifies this
      ensures st.Fine? ==> Compiled(SourceOf(main, defs), prog) && DistinctPaths(defs)
      ensures st.Fine? ==> SourceScoped(SourceOf(main, defs), FileSorts(defs))
      ensures FileAccepted(main, defs) ==> st.Fine?
    {
      hide PathAt, PathScoped, PathCost, SortsIn;
      prog := map[];
      var names;
      st, names := PathNames(defs);
      if st.Failed? { return; }
      ghost var sorts := SortsIn(names);
      assert defs[..0] == [];
      if main.Some? {
        var path;
        st, path := KnotDecl(names, PathDef([], main.value, false));
        if st.Failed? { return; }
        prog := prog[MAIN := path];
        assert CompiledPath(SourceOf(main, []), prog, MAIN);
      }
      var i := 0;
      while i < |defs|
        invariant 0 <= i <= |defs| && labels == [] && branches == []
        invariant Compiled(SourceOf(main, defs[..i]), prog) && PathsScoped(SourceOf(main, defs[..i]), sorts)
      {
        var path;
        assert FileAccepted(main, defs) ==> PathAcceptedIn(defs, i, sorts);
        st, path := KnotDecl(names, defs[i].1);
        if st.Failed? { return; }
        FileGrows(main, defs, i, sorts);
        OneMorePath(main, defs, i, prog, path);
        prog := prog[defs[i].0 := path];
        i := i + 1;
      }
      assert defs[..i] == defs;
      FileNamesPaths(main, defs);
      st := Fine;
    }

    method PathNames(defs: seq<(string, PathDef)>) returns (st: Status, names: map<string, Symbol>)
      ensures st.Fine? <==> DistinctPaths(defs)
      ensures st.Fine? ==> OnlyPaths(names) && SortsIn(names) == FileSorts(defs)
    {
      names := map[];
      var i := 0;
      assert defs[..0] == [];
      while i < |defs|
        invariant 0 <= i <= |defs| && OnlyPaths(names) && SortsIn(names) == FileSorts(defs[..i])
          && DistinctPaths(defs[..i])
      {
        OneMoreName(defs, i, names);
        if defs[i].0 in names {
          return Failed(Redefined), names;
        }
        names := names[defs[i].0 := PathName(|defs[i].1.params|)];
        i := i + 1;
      }
      assert defs[..i] == defs;
      st := Fine;
    }
  }
}
