// What becomes of a choice: the code of a choice statement makes its offers and halts, and after the reader
// has chosen it goes on in the branch that was chosen.

module Choosing {
  import opened Wrappers
  import opened Values
  import opened Ast
  import opened Output
  import opened Shape
  import opened Opcodes
  import opened Machine
  import opened Layout

  // How far a run has come: where it is, what it pushed, what was written and what is on offer.
  datatype Spot = Spot(ip: nat, more: seq<Value>, out: Out, offers: seq<Offer>)

  // r is the state vm further on, at the spot s: the frames, the globals, the chosen id and the cells of vm
  // are as they were.
  ghost predicate Stands(r: VM, vm: VM, s: Spot) {
    && vm.Valid() && r.Valid() && vm.frames != [] && r.status.Running?
    && r.frames == vm.Goto(s.ip).frames && r.globals == vm.globals && r.choiceId == vm.choiceId
    && r.top == vm.top + |s.more| && r.cells[..vm.top] == vm.cells[..vm.top]
    && (forall i | 0 <= i < |s.more| :: r.cells[vm.top + i] == Some(s.more[i]))
    && r.out == s.out && r.offers == s.offers
  }

  ghost predicate Goes(prog: Program, n: nat, vm: VM, s: Spot, t: Spot) {
    forall r | Stands(r, vm, s) :: Stands(Run(prog, r, n), vm, t)
  }

  ghost predicate Leads(prog: Program, vm: VM, s: Spot, t: Spot) {
    exists n: nat :: Goes(prog, n, vm, s, t)
  }

  // The code and the constants of the path that runs.
  ghost predicate Inside(prog: Program, vm: VM) {
    vm.Valid() && vm.frames != [] && vm.Active().path in prog
  }

  function Code(prog: Program, vm: VM): seq<byte>
    requires vm.frames != [] && vm.Active().path in prog
  {
    prog[vm.Active().path].code
  }

  function Pool(prog: Program, vm: VM): seq<Value>
    requires vm.frames != [] && vm.Active().path in prog
  {
    prog[vm.Active().path].pool
  }

  lemma ByStep(prog: Program, vm: VM, s: Spot, t: Spot)
    requires forall r | Stands(r, vm, s) :: Stands(Step(prog, r), vm, t)
    ensures Leads(prog, vm, s, t)
  {
    hide Step;
    forall r | Stands(r, vm, s)
      ensures Stands(Run(prog, r, 1), vm, t)
    {
      OneRun(prog, r);
    }
    assert Goes(prog, 1, vm, s, t);
  }

  lemma OneRun(prog: Program, r: VM)
    requires r.Valid()
    ensures Run(prog, r, 1) == Step(prog, r)
  {
    hide Step;
    assert Run(prog, Step(prog, r), 0) == Step(prog, r);
  }

  lemma Stay(prog: Program, vm: VM, s: Spot)
    ensures Leads(prog, vm, s, s)
  {
    hide Step;
    assert Goes(prog, 0, vm, s, s);
  }

  lemma Then(prog: Program, vm: VM, s: Spot, t: Spot, u: Spot)
    requires Leads(prog, vm, s, t) && Leads(prog, vm, t, u)
    ensures Leads(prog, vm, s, u)
  {
    hide Run, Step;
    var m: nat :| Goes(prog, m, vm, s, t);
    var n: nat :| Goes(prog, n, vm, t, u);
    forall r | Stands(r, vm, s)
      ensures Stands(Run(prog, r, m + n), vm, u)
    {
      RunAdd(prog, r, m, n);
    }
    assert Goes(prog, m + n, vm, s, u);
  }

  // ----- single instructions -----

  lemma OnTop(r: VM, vm: VM, s: Spot)
    requires Stands(r, vm, s)
    ensures |s.more| >= 1 ==> r.Peek(0) == Some(s.more[|s.more| - 1])
    ensures |s.more| >= 2 ==> r.Peek(1) == Some(s.more[|s.more| - 2])
  {
    assert |s.more| >= 1 ==> r.cells[vm.top + (|s.more| - 1)] == Some(s.more[|s.more| - 1]);
    assert |s.more| >= 2 ==> r.cells[vm.top + (|s.more| - 2)] == Some(s.more[|s.more| - 2]);
  }

  lemma Loads(prog: Program, vm: VM, s: Spot, v: Value)
    requires Inside(prog, vm) && vm.top + |s.more| < STACK_MAX
    requires ConstAt(Code(prog, vm), s.ip, CONST, Pool(prog, vm), v)
    ensures Leads(prog, vm, s, s.(ip := s.ip + 2, more := s.more + [v]))
  {
    ByStep(prog, vm, s, s.(ip := s.ip + 2, more := s.more + [v]));
  }

  lemma LoadsChoice(prog: Program, vm: VM, s: Spot, id: Value)
    requires Inside(prog, vm) && vm.top + |s.more| < STACK_MAX && vm.choiceId == Some(id)
    requires OpAt(Code(prog, vm), s.ip, LOAD_CHOICE_ID)
    ensures Leads(prog, vm, s, s.(ip := s.ip + 1, more := s.more + [id]))
  {
    ByStep(prog, vm, s, s.(ip := s.ip + 1, more := s.more + [id]));
  }

  lemma Pops(prog: Program, vm: VM, s: Spot)
    requires Inside(prog, vm) && |s.more| == 1
    requires OpAt(Code(prog, vm), s.ip, POP)
    ensures Leads(prog, vm, s, s.(ip := s.ip + 1, more := []))
  {
    var t := s.(ip := s.ip + 1, more := []);
    forall r | Stands(r, vm, s)
      ensures Stands(Step(prog, r), vm, t)
    {
      OnTop(r, vm, s);
    }
    ByStep(prog, vm, s, t);
  }

  lemma Says(prog: Program, vm: VM, s: Spot, text: string)
    requires Inside(prog, vm) && s.more == [Str(text)]
    requires OpAt(Code(prog, vm), s.ip, CONTENT)
    ensures Leads(prog, vm, s, s.(ip := s.ip + 1, more := [], out := Write(s.out, text)))
  {
    hide Digits;
    var t := s.(ip := s.ip + 1, more := [], out := Write(s.out, text));
    forall r | Stands(r, vm, s)
      ensures Stands(Step(prog, r), vm, t)
    {
      OnTop(r, vm, s);
    }
    ByStep(prog, vm, s, t);
  }

  // The reader gets one more offer: the line that was just written, under the topmost value.
  lemma Offers(prog: Program, vm: VM, s: Spot, id: Value)
    requires Inside(prog, vm) && s.more == [id]
    requires OpAt(Code(prog, vm), s.ip, CHOICE)
    ensures var (out, line) := ReadLine(s.out);
      Leads(prog, vm, s, Spot(s.ip + 1, [], out, s.offers + [Offer(Some(id), line)]))
  {
    hide ReadLine;
    var (out, line) := ReadLine(s.out);
    var t := Spot(s.ip + 1, [], out, s.offers + [Offer(Some(id), line)]);
    forall r | Stands(r, vm, s)
      ensures Stands(Step(prog, r), vm, t)
    {
      OnTop(r, vm, s);
    }
    ByStep(prog, vm, s, t);
  }

  lemma Compares(prog: Program, vm: VM, s: Spot, a: Value, b: Value)
    requires Inside(prog, vm) && s.more == [a, b]
    requires OpAt(Code(prog, vm), s.ip, CMP_EQ)
    ensures Leads(prog, vm, s, s.(ip := s.ip + 1, more := [Bool(a == b)]))
  {
    var t := s.(ip := s.ip + 1, more := [Bool(a == b)]);
    forall r | Stands(r, vm, s)
      ensures Stands(Step(prog, r), vm, t)
    {
      OnTop(r, vm, s);
    }
    ByStep(prog, vm, s, t);
  }

  lemma Jumps(prog: Program, vm: VM, s: Spot, b: bool, t: nat)
    requires Inside(prog, vm) && s.more == [Bool(b)]
    requires JumpAt(Code(prog, vm), s.ip, JMP_T, t)
    ensures Leads(prog, vm, s, s.(ip := if b then t else s.ip + 3))
  {
    var u := s.(ip := if b then t else s.ip + 3);
    forall r | Stands(r, vm, s)
      ensures Stands(Step(prog, r), vm, u)
    {
      OnTop(r, vm, s);
    }
    ByStep(prog, vm, s, u);
  }

  // A piece of a label, if it is there.
  lemma PieceRuns(prog: Program, vm: VM, s: Spot, piece: Option<string>)
    requires Inside(prog, vm) && vm.top < STACK_MAX && s.more == []
    requires PieceAt(piece, Code(prog, vm), s.ip, Pool(prog, vm))
    ensures Leads(prog, vm, s, s.(ip := s.ip + PieceLen(piece), out := Write(s.out, Piece(piece))))
  {
    hide Leads;
    if piece.Some? {
      var t := s.(ip := s.ip + 2, more := s.more + [Str(piece.value)]);
      Loads(prog, vm, s, Str(piece.value));
      Says(prog, vm, t, piece.value);
      Then(prog, vm, s, t, t.(ip := t.ip + 1, more := [], out := Write(t.out, piece.value)));
    } else {
      assert s.out.bytes + "" == s.out.bytes;
      Stay(prog, vm, s);
    }
  }

  // ----- what the reader is offered -----

  function Piece(p: Option<string>): string { if p.Some? then p.value else "" }

  // What a branch is called when it is on offer, and what it says when it was chosen.
  function Label(b: Branch): string { Piece(b.start) + Piece(b.option) }

  function Reply(b: Branch): string { Piece(b.start) + Piece(b.inner) }

  // The stream before offer k: every label before it was written and one line was read for it.
  function OutBefore(bs: seq<Branch>, k: nat, out: Out): Out
    requires k <= |bs|
    decreases k
  {
    if k == 0 then out else ReadLine(Write(OutBefore(bs, k - 1, out), Label(bs[k - 1]))).0
  }

  // The line that offer k takes.
  function LineOf(bs: seq<Branch>, k: nat, out: Out): string
    requires k < |bs|
  {
    ReadLine(Write(OutBefore(bs, k, out), Label(bs[k]))).1
  }

  // The first n offers: each has the number of its branch, and its line.
  function OffersOf(bs: seq<Branch>, n: nat, out: Out): (offers: seq<Offer>)
    requires n <= |bs|
    ensures |offers| == n && forall k | 0 <= k < n :: offers[k] == Offer(Some(Int(k)), LineOf(bs, k, out))
  {
    seq(n, k requires 0 <= k < n => Offer(Some(Int(k)), LineOf(bs, k, out)))
  }

  lemma NextOffer(bs: seq<Branch>, k: nat, out: Out)
    requires k < |bs|
    ensures OffersOf(bs, k + 1, out) == OffersOf(bs, k, out) + [Offer(Some(Int(k)), LineOf(bs, k, out))]
    ensures OutBefore(bs, k + 1, out) == ReadLine(Write(OutBefore(bs, k, out), Label(bs[k]))).0
  {
    hide ReadLine, LineOf, Label;
  }

  lemma OfferRuns(prog: Program, vm: VM, s: Spot, bs: seq<Branch>, k: nat, at: nat)
    requires Inside(prog, vm) && vm.top < STACK_MAX && s.more == []
    requires k < |bs| && OfferIn(bs, k, Code(prog, vm), at, Pool(prog, vm)) && s.ip == at + OffersLen(bs, k)
    ensures var (out, line) := ReadLine(Write(s.out, Label(bs[k])));
      Leads(prog, vm, s, Spot(at + OffersLen(bs, k + 1), [], out, s.offers + [Offer(Some(Int(k)), line)]))
  {
    hide Leads, ReadLine, PieceAt, ConstAt, OpAt;
    var b := bs[k];
    var s1 := s.(ip := s.ip + PieceLen(b.start), out := Write(s.out, Piece(b.start)));
    var s2 := s1.(ip := s1.ip + PieceLen(b.option), out := Write(s1.out, Piece(b.option)));
    var s3 := s2.(ip := s2.ip + 2, more := s2.more + [Int(k)]);
    PieceRuns(prog, vm, s, b.start);
    PieceRuns(prog, vm, s1, b.option);
    Then(prog, vm, s, s1, s2);
    Loads(prog, vm, s2, Int(k));
    Then(prog, vm, s, s2, s3);
    Offers(prog, vm, s3, Int(k));
    assert s.out.bytes + Piece(b.start) + Piece(b.option) == s.out.bytes + Label(b);
    assert s3.out == Write(s.out, Label(b));
    var (out, line) := ReadLine(s3.out);
    Then(prog, vm, s, s3, Spot(s3.ip + 1, [], out, s.offers + [Offer(Some(Int(k)), line)]));
  }

  // The offers, one after the other.
  lemma {:induction false} OffersRun(prog: Program, vm: VM, s: Spot, bs: seq<Branch>, n: nat)
    requires Inside(prog, vm) && vm.top < STACK_MAX && s.more == []
    requires n <= |bs| && OffersAt(bs, |bs|, Code(prog, vm), s.ip, Pool(prog, vm))
    ensures Leads(prog, vm, s,
      Spot(s.ip + OffersLen(bs, n), [], OutBefore(bs, n, s.out), s.offers + OffersOf(bs, n, s.out)))
    decreases n
  {
    hide Leads, ReadLine, OfferIn, LineOf, OffersOf;
    if n == 0 {
      assert s.offers + OffersOf(bs, 0, s.out) == s.offers;
      Stay(prog, vm, s);
    } else {
      var k := n - 1;
      var t := Spot(s.ip + OffersLen(bs, k), [], OutBefore(bs, k, s.out), s.offers + OffersOf(bs, k, s.out));
      OffersRun(prog, vm, s, bs, k);
      assert OfferIn(bs, k, Code(prog, vm), s.ip, Pool(prog, vm));
      OfferRuns(prog, vm, t, bs, k, s.ip);
      NextOffer(bs, k, s.out);
      OneLineOf(bs, k, s.out);
      Then(prog, vm, s, t, Spot(s.ip + OffersLen(bs, n), [], OutBefore(bs, n, s.out),
        t.offers + [Offer(Some(Int(k)), LineOf(bs, k, s.out))]));
      assert s.offers + OffersOf(bs, n, s.out) == t.offers + [Offer(Some(Int(k)), LineOf(bs, k, s.out))];
    }
  }

  lemma OneLineOf(bs: seq<Branch>, k: nat, out: Out)
    requires k < |bs|
    ensures LineOf(bs, k, out) == ReadLine(Write(OutBefore(bs, k, out), Label(bs[k]))).1
  {
  }

  // One line of text: nothing in it ends the line before its end.
  predicate OneLine(s: string) {
    forall i | 0 <= i < |s| :: s[i] != '\0' && (s[i] == '\n' ==> i == |s| - 1)
  }

  lemma {:induction false} LineEndsLast(bytes: string, i: nat)
    requires i <= |bytes|
    ensures LineEnd(bytes, i) == |bytes| <==> OneLine(bytes[i..])
    decreases |bytes| - i
  {
    if i < |bytes| {
      var s := bytes[i..];
      assert s[0] == bytes[i];
      assert forall k | 0 < k < |s| :: s[k] == bytes[i + 1..][k - 1];
      LineEndsLast(bytes, i + 1);
    }
  }

  // A label that is written to a stream with nothing to read is read back exactly when it is one line.
  lemma ReadBack(out: Out, s: string)
    requires out.cursor == |out.bytes|
    ensures var (after, line) := ReadLine(Write(out, s));
      && (line == s <==> OneLine(s))
      && (line == s ==> after == Out(out.bytes + s, |out.bytes + s|))
  {
    var bytes := out.bytes + s;
    LineEndsLast(bytes, out.cursor);
    assert bytes[out.cursor..] == s;
    var j := LineEnd(bytes, out.cursor);
    assert |bytes[out.cursor..j]| == j - out.cursor;
  }

  // The first n offers take exactly the labels of their branches, and nothing is left to read, if and only
  // if each of these labels is one line.
  lemma {:induction false} LabelsOffered(bs: seq<Branch>, n: nat, out: Out)
    requires n <= |bs| && out.cursor == |out.bytes|
    ensures (forall k | 0 <= k < n :: LineOf(bs, k, out) == Label(bs[k]))
      <==> forall k | 0 <= k < n :: OneLine(Label(bs[k]))
    ensures (forall k | 0 <= k < n :: OneLine(Label(bs[k]))) ==>
      OutBefore(bs, n, out).cursor == |OutBefore(bs, n, out).bytes|
    decreases n
  {
    hide ReadLine, OneLine, Label;
    if n > 0 {
      LabelsOffered(bs, n - 1, out);
      OneLineOf(bs, n - 1, out);
      if forall k | 0 <= k < n - 1 :: OneLine(Label(bs[k])) {
        ReadBack(OutBefore(bs, n - 1, out), Label(bs[n - 1]));
      }
    }
  }

  // ----- which branch is entered -----

  lemma PickRuns(prog: Program, vm: VM, s: Spot, bs: seq<Branch>, i: nat, k: int, at: nat, bodies: nat)
    requires Inside(prog, vm) && vm.top + 1 < STACK_MAX && s.more == [] && vm.choiceId == Some(Int(k))
    requires i < |bs| && PickIn(bs, i, Code(prog, vm), at, bodies, Pool(prog, vm)) && s.ip == at + PicksLen(i)
    ensures Leads(prog, vm, s, if i == k then s.(ip := bodies + BranchesLen(bs, i), more := [Bool(true)])
      else s.(ip := at + PicksLen(i + 1)))
  {
    hide Leads, ConstAt, OpAt, JumpAt, BranchesLen;
    var s1 := s.(ip := s.ip + 1, more := s.more + [Int(k)]);
    var s2 := s1.(ip := s1.ip + 2, more := s1.more + [Int(i)]);
    var s3 := s2.(ip := s2.ip + 1, more := [Bool(Int(k) == Int(i))]);
    var s4 := s3.(ip := if Int(k) == Int(i) then bodies + BranchesLen(bs, i) else s3.ip + 3);
    LoadsChoice(prog, vm, s, Int(k));
    Loads(prog, vm, s1, Int(i));
    Then(prog, vm, s, s1, s2);
    Compares(prog, vm, s2, Int(k), Int(i));
    Then(prog, vm, s, s2, s3);
    Jumps(prog, vm, s3, Int(k) == Int(i), bodies + BranchesLen(bs, i));
    Then(prog, vm, s, s3, s4);
    if i != k {
      Pops(prog, vm, s4);
      Then(prog, vm, s, s4, s4.(ip := s4.ip + 1, more := []));
    }
  }

  // The tests in front of branch k fail one after the other.
  lemma {:induction false} PicksRun(prog: Program, vm: VM, s: Spot, bs: seq<Branch>, i: nat, k: int, bodies: nat)
    requires Inside(prog, vm) && vm.top + 1 < STACK_MAX && s.more == [] && vm.choiceId == Some(Int(k))
    requires i <= |bs| && PicksAt(bs, |bs|, Code(prog, vm), s.ip, bodies, Pool(prog, vm)) && !(0 <= k < i)
    ensures Leads(prog, vm, s, s.(ip := s.ip + PicksLen(i)))
    decreases i
  {
    hide Leads, PickIn, BranchesLen;
    if i == 0 {
      Stay(prog, vm, s);
    } else {
      var t := s.(ip := s.ip + PicksLen(i - 1));
      PicksRun(prog, vm, s, bs, i - 1, k, bodies);
      assert PickIn(bs, i - 1, Code(prog, vm), s.ip, bodies, Pool(prog, vm));
      PickRuns(prog, vm, t, bs, i - 1, k, s.ip, bodies);
      Then(prog, vm, s, t, s.(ip := s.ip + PicksLen(i)));
    }
  }

  // ----- the whole statement -----

  // After n instructions a FLUSH has halted the run, at the spot t.
  ghost predicate Pauses(prog: Program, n: nat, vm: VM, s: Spot, t: Spot) {
    forall r | Stands(r, vm, s) ::
      var end := Run(prog, r, n); end.status.Flushed? && Stands(end.(status := Running), vm, t)
  }

  lemma ThenFlush(prog: Program, vm: VM, s: Spot, t: Spot) returns (n: nat)
    requires Inside(prog, vm) && Leads(prog, vm, s, t) && OpAt(Code(prog, vm), t.ip, FLUSH)
    ensures Pauses(prog, n, vm, s, t.(ip := t.ip + 1))
  {
    hide Run, Step;
    var m: nat :| Goes(prog, m, vm, s, t);
    n := m + 1;
    forall r | Stands(r, vm, s)
      ensures var end := Run(prog, r, n); end.status.Flushed? && Stands(end.(status := Running), vm, t.(ip := t.ip + 1))
    {
      RunAdd(prog, r, m, 1);
      FlushHalts(prog, vm, t, Run(prog, r, m));
    }
  }

  lemma FlushHalts(prog: Program, vm: VM, t: Spot, r: VM)
    requires Inside(prog, vm) && Stands(r, vm, t) && OpAt(Code(prog, vm), t.ip, FLUSH)
    ensures var end := Run(prog, r, 1);
      end.status.Flushed? && Stands(end.(status := Running), vm, t.(ip := t.ip + 1))
      && end == r.Goto(t.ip + 1).(status := Flushed)
  {
    OneRun(prog, r);
  }

  // Where the tests of a choice statement at this place begin, and where its branches do.
  function PicksOf(bs: seq<Branch>, at: nat): nat { at + 2 + OffersLen(bs, |bs|) }

  function BodiesOf(bs: seq<Branch>, at: nat): nat { PicksOf(bs, at) + PicksLen(|bs|) + 1 }

  // Where the body of branch k begins, behind its reply.
  function BodyOf(bs: seq<Branch>, at: nat, k: nat): nat
    requires k < |bs|
  {
    BodiesOf(bs, at) + BranchesLen(bs, k) + PieceLen(bs[k].start) + PieceLen(bs[k].inner) + 2
  }

  // The machine stands in front of a choice statement.
  ghost predicate AtChoice(prog: Program, vm: VM, bs: seq<Branch>, vis: Slots, base: nat) {
    && Inside(prog, vm) && vm.status.Running?
    && StmtAt(Choices(bs), Code(prog, vm), vm.Active().ip, Pool(prog, vm), vis, base)
  }

  // What the statement does: it halts, makes its offers, and halts again.
  lemma MakesOffers(prog: Program, vm: VM, bs: seq<Branch>, vis: Slots, base: nat) returns (n: nat)
    requires AtChoice(prog, vm, bs, vis, base) && vm.top < STACK_MAX
    ensures var at := vm.Active().ip; Run(prog, vm, 1) == vm.Goto(at + 1).(status := Flushed)
    ensures var at := vm.Active().ip;
      Pauses(prog, n, vm, Spot(at + 1, [], vm.out, vm.offers),
        Spot(PicksOf(bs, at), [], OutBefore(bs, |bs|, vm.out), vm.offers + OffersOf(bs, |bs|, vm.out)))
  {
    hide Run, Step, Leads, Pauses, OffersLen, BranchesAt, PicksAt, ReadLine, OffersAt, LineOf, OffersOf, OutBefore;
    var at := vm.Active().ip;
    FlushHalts(prog, vm, Spot(at, [], vm.out, vm.offers), vm);
    var s := Spot(at + 1, [], vm.out, vm.offers);
    OffersRun(prog, vm, s, bs, |bs|);
    n := ThenFlush(prog, vm, s, Spot(PicksOf(bs, at) - 1, [], OutBefore(bs, |bs|, vm.out),
      vm.offers + OffersOf(bs, |bs|, vm.out)));
  }

  // From the tests on: the branch whose number was chosen gives its reply, and halts in front of its body.
  lemma EntersBranch(prog: Program, vm: VM, bs: seq<Branch>, k: nat, at: nat, vis: Slots, base: nat)
    returns (n: nat)
    requires Inside(prog, vm) && vm.top + 1 < STACK_MAX && k < |bs| && vm.choiceId == Some(Int(k))
    requires StmtAt(Choices(bs), Code(prog, vm), at, Pool(prog, vm), vis, base)
    ensures Pauses(prog, n, vm, Spot(PicksOf(bs, at), [], vm.out, vm.offers),
      Spot(BodyOf(bs, at, k), [], Write(vm.out, Reply(bs[k])), vm.offers))
    ensures BlockAt(bs[k].body, Code(prog, vm), BodyOf(bs, at, k), Pool(prog, vm), vis, base + BranchesSlots(bs, k))
  {
    hide Leads, Pauses, OffersLen, OffersAt, BranchIn, PickIn, BranchesLen, BlockAt, BranchesSlots, PieceAt, OpAt;
    var bodies := BodiesOf(bs, at);
    var s := Spot(PicksOf(bs, at), [], vm.out, vm.offers);
    var t := s.(ip := s.ip + PicksLen(k));
    var u := t.(ip := bodies + BranchesLen(bs, k), more := [Bool(true)]);
    PicksRun(prog, vm, s, bs, k, k, bodies);
    assert PickIn(bs, k, Code(prog, vm), s.ip, bodies, Pool(prog, vm));
    PickRuns(prog, vm, t, bs, k, k, s.ip, bodies);
    Then(prog, vm, s, t, u);
    assert BranchIn(bs, k, Code(prog, vm), bodies, Pool(prog, vm), vis, base);
    var v := ReplyRuns(prog, vm, u, bs, k, bodies, vis, base);
    Then(prog, vm, s, u, v);
    n := ThenFlush(prog, vm, s, v);
  }

  lemma ReplyRuns(prog: Program, vm: VM, s: Spot, bs: seq<Branch>, k: nat, bodies: nat, vis: Slots, base: nat)
    returns (t: Spot)
    requires Inside(prog, vm) && vm.top < STACK_MAX && k < |bs|
    requires s.ip == bodies + BranchesLen(bs, k) && |s.more| == 1
    requires BranchIn(bs, k, Code(prog, vm), bodies, Pool(prog, vm), vis, base)
    ensures Leads(prog, vm, s, t) && OpAt(Code(prog, vm), t.ip, FLUSH)
    ensures var ip := s.ip + 1 + PieceLen(bs[k].start) + PieceLen(bs[k].inner);
      t == Spot(ip, [], Write(s.out, Reply(bs[k])), s.offers)
    ensures BlockAt(bs[k].body, Code(prog, vm), t.ip + 1, Pool(prog, vm), vis, base + BranchesSlots(bs, k))
  {
    hide Leads, BranchesLen, BlockAt, BranchesSlots, PieceAt, OpAt;
    var b := bs[k];
    var s1 := s.(ip := s.ip + 1, more := []);
    var s2 := s1.(ip := s1.ip + PieceLen(b.start), out := Write(s1.out, Piece(b.start)));
    t := s2.(ip := s2.ip + PieceLen(b.inner), out := Write(s2.out, Piece(b.inner)));
    Pops(prog, vm, s);
    PieceRuns(prog, vm, s1, b.start);
    Then(prog, vm, s, s1, s2);
    PieceRuns(prog, vm, s2, b.inner);
    Then(prog, vm, s, s2, t);
    assert s.out.bytes + Piece(b.start) + Piece(b.inner) == s.out.bytes + Reply(b);
  }

  // A choice of something that is not on offer here ends the story.
  lemma EntersNone(prog: Program, vm: VM, bs: seq<Branch>, k: int, at: nat, vis: Slots, base: nat, r: VM)
    returns (n: nat)
    requires Inside(prog, vm) && vm.top + 1 < STACK_MAX && !(0 <= k < |bs|) && vm.choiceId == Some(Int(k))
    requires StmtAt(Choices(bs), Code(prog, vm), at, Pool(prog, vm), vis, base)
    requires Stands(r, vm, Spot(PicksOf(bs, at), [], vm.out, vm.offers))
    ensures Run(prog, r, n).status.Exited?
  {
    hide OffersLen, OffersAt, PickIn, BranchesAt, BlockAt;
    var s := Spot(PicksOf(bs, at), [], vm.out, vm.offers);
    PicksRun(prog, vm, s, bs, |bs|, k, BodiesOf(bs, at));
    var t := s.(ip := BodiesOf(bs, at) - 1);
    var m: nat :| Goes(prog, m, vm, s, t);
    hide Run, Step;
    n := m + 1;
    RunAdd(prog, r, m, 1);
    ExitEnds(prog, vm, t, Run(prog, r, m));
  }

  lemma ExitEnds(prog: Program, vm: VM, t: Spot, r: VM)
    requires Inside(prog, vm) && Stands(r, vm, t) && OpAt(Code(prog, vm), t.ip, EXIT)
    ensures Run(prog, r, 1).status.Exited?
  {
    OneRun(prog, r);
  }

  // ----- the reader -----

  // What Choose makes of the machine for the offer at this index.
  function Chosen(vm: VM, index: nat): VM
    requires index < |vm.offers|
  {
    vm.(choiceId := vm.offers[index].id, offers := [], status := Running)
  }

  // A branch of a choice statement is on offer under its own number and line, and whoever chooses it gets
  // its reply and then its body: with the stack as it was before the statement, for every branch and every
  // state.
  lemma ReaderChooses(prog: Program, vm: VM, bs: seq<Branch>, k: nat, vis: Slots, base: nat)
    returns (n: nat, m: nat)
    requires AtChoice(prog, vm, bs, vis, base) && vm.top + 1 < STACK_MAX && k < |bs|
    ensures var at := vm.Active().ip;
      var first := Run(prog, vm, 1);
      var second := Run(prog, first.(status := Running), n);
      && first == vm.Goto(at + 1).(status := Flushed)
      && second.status.Flushed? && |second.offers| == |vm.offers| + |bs|
      && (forall j | 0 <= j < |vm.offers| :: second.offers[j] == vm.offers[j])
      && (forall j | 0 <= j < |bs| :: second.offers[|vm.offers| + j] == Offer(Some(Int(j)), LineOf(bs, j, vm.out)))
      && second.out == OutBefore(bs, |bs|, vm.out) && second.frames == vm.Goto(PicksOf(bs, at)).frames
      && var third := Run(prog, Chosen(second, |vm.offers| + k), m);
      && third.status.Flushed? && third.frames == vm.Goto(BodyOf(bs, at, k)).frames
      && third.top == vm.top && third.cells[..vm.top] == vm.cells[..vm.top] && third.globals == vm.globals
      && third.out == Write(second.out, Reply(bs[k])) && third.offers == []
    ensures BlockAt(bs[k].body, Code(prog, vm), BodyOf(bs, vm.Active().ip, k), Pool(prog, vm), vis,
      base + BranchesSlots(bs, k))
  {
    hide Run, Step, StmtAt, OffersLen, BranchesLen, LineOf, OutBefore, BlockAt, BranchesSlots;
    var at := vm.Active().ip;
    n := MakesOffers(prog, vm, bs, vis, base);
    var first := Run(prog, vm, 1).(status := Running);
    assert Stands(first, vm, Spot(at + 1, [], vm.out, vm.offers));
    var second := Run(prog, first, n);
    var chosen := Chosen(second, |vm.offers| + k);
    SameCode(prog, vm, chosen);
    m := EntersBranch(prog, chosen, bs, k, at, vis, base);
    assert Stands(chosen, chosen, Spot(PicksOf(bs, at), [], chosen.out, []));
  }

  lemma SameCode(prog: Program, vm: VM, r: VM)
    requires Inside(prog, vm) && r.Valid() && exists ip :: r.frames == vm.Goto(ip).frames
    ensures Inside(prog, r) && Code(prog, r) == Code(prog, vm) && Pool(prog, r) == Pool(prog, vm)
  {
  }
}

// The same, as the host of a story sees it.
module Picking {
  import opened Wrappers
  import opened Values
  import opened Ast
  import opened Shape
  import opened Machine
  import opened Layout
  import opened Stories
  import opened Choosing
  import Output
  import Streams

  // What the reader is shown after the run has halted twice.
  lemma TwoRuns(prog: Program, vm: VM, n: nat, first: VM, second: VM)
    requires vm.Valid() && vm.frames != [] && vm.out.cursor == |vm.out.bytes|
    requires first == Run(prog, vm, 1) && first.status.Flushed? && first.offers == [] && first.out == vm.out
    requires first.frames != [] && second == Run(prog, first.(status := Running), n) && second.status.Flushed?
    requires second.offers != []
    ensures Answers(prog, vm, [1, n]) && After(prog, vm, [1, n]) == second
  {
    hide Run;
    assert [1, n][1..] == [n];
  }

  // A story with nothing to read stands in front of a choice.  The host continues, sees the branches by
  // their labels in their order, and picks one: the story goes on with the reply of that branch and stands
  // in front of its body, with nothing to read but the reply.
  method Pick(story: Story, bs: seq<Branch>, k: nat, ghost vis: Slots, ghost base: nat)
    returns (shown: seq<string>, ok: bool, st: Status)
    requires story.Valid() && story.canContinue && !story.Idle() && story.callTop > 0
    requires var vm := story.Now(Running);
      && AtChoice(story.program, vm, bs, vis, base) && vm.top + 1 < STACK_MAX
      && vm.out.cursor == |vm.out.bytes|
    requires k < |bs| && forall j | 0 <= j < |bs| :: OneLine(Label(bs[j]))
    modifies story, story.stack, story.callStack, story.stream
    ensures story.Valid() && ok && st == Flushed && story.choices == []
    ensures |shown| == |bs| && forall j | 0 <= j < |bs| :: shown[j] == Label(bs[j])
    ensures var (vm, now) := (old(story.Now(Running)), story.Now(Running));
      && now.frames == vm.Goto(BodyOf(bs, vm.Active().ip, k)).frames && now.globals == vm.globals
      && now.top == vm.top && now.cells[..vm.top] == vm.cells[..vm.top]
      && now.out.cursor <= |now.out.bytes| && now.out.bytes[now.out.cursor..] == Reply(bs[k])
      && BlockAt(bs[k].body, Choosing.Code(story.program, vm), BodyOf(bs, vm.Active().ip, k),
        Choosing.Pool(story.program, vm), vis, base + BranchesSlots(bs, k))
  {
    hide Run, Step, StmtAt, BlockAt, OutBefore, LineOf, Label, Reply, OneLine, Streams.PlayAll, BodyOf, BranchesSlots;
    ghost var vm := story.Now(Running);
    ghost var n, m := ReaderChooses(story.program, vm, bs, k, vis, base);
    LabelsOffered(bs, |bs|, vm.out);
    ghost var first := Run(story.program, vm, 1);
    ghost var second := Run(story.program, first.(status := Running), n);
    TwoRuns(story.program, vm, n, first, second);
    var rc, line := story.Continue([1, n]);
    assert story.Now(Flushed) == second;
    var choices := story.choices;
    shown := seq(|choices|, i requires 0 <= i < |choices| => choices[i].text);
    ok := story.Choose(k + 1);
    assert story.Now(Running) == Chosen(second, k);
    st := story.Exec(m);
    ghost var third := Run(story.program, Chosen(second, k), m);
    assert story.Now(st) == third && third.out.bytes == second.out.bytes + Reply(bs[k]);
  }
}
