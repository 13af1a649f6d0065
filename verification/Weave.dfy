// The weave builder of src/parser.c: flat lines with levels become a nested tree.  Three stacks do the
// work; what they are for is a single stack of levels.

module Woven {
  import opened Wrappers

  type pos = x: int | 1 <= x witness 1

  // Lines as the tokens give them.  A content line is made of words and conditionals, and inside a
  // conditional a line can be the test of a branch.
  datatype Line =
    | Content(id: nat, parts: seq<Part>)
    | Choice(id: nat, level: pos)
    | Gather(id: nat, level: pos)
    | Test(id: nat)

  datatype Part = Words | Nested(subject: bool, lines: seq<Line>)

  datatype Kind = IfKind | MultiIfKind | SwitchKind

  // The tree.
  datatype Node =
    | WordsNode
    | ContentNode(id: nat, parts: seq<Node>)
    | Branch(id: nat, body: Option<Node>)
    | GatherPoint(id: nat)
    | Case(id: nat, body: Option<Node>)
    | ChoiceList(branches: seq<Node>)
    | Gathered(choice: Node, gather: Node)
    | Block(stmts: seq<Node>)
    | Cond(kind: Kind, branches: seq<Node>)

  // ----- what the lines mean -----

  // A line, the choice branches around it, and what it is: told, with what its conditionals contain, or the
  // start of a branch, or a gather.
  datatype Place = Place(id: nat, path: seq<nat>, sort: Sort)
  datatype Sort = Told(inside: seq<Inside>) | Offered | Met
  datatype Inside = Plain | Divided(kind: Kind, groups: seq<Group>)
  datatype Group = Group(test: Option<nat>, places: seq<Place>)

  // An open choice branch.
  datatype Open = Open(level: pos, id: nat)

  function Ids(stack: seq<Open>): (r: seq<nat>)
    ensures |r| == |stack| && forall i | 0 <= i < |r| :: r[i] == stack[i].id
  {
    seq(|stack|, i requires 0 <= i < |stack| => stack[i].id)
  }

  // Close every open branch of this level or more.
  function Closed(stack: seq<Open>, level: pos): seq<Open> {
    if stack != [] && stack[|stack| - 1].level >= level then Closed(stack[..|stack| - 1], level) else stack
  }

  function Next(stack: seq<Open>, line: Line): seq<Open> {
    match line
    case Content(_, _) => stack
    case Choice(id, level) => Closed(stack, level) + [Open(level, id)]
    case Gather(_, level) => Closed(stack, level)
    case Test(_) => []
  }

  // The open branches after the lines from a up to b, none being open before.
  function StackAt(lines: seq<Line>, a: nat, b: nat): seq<Open>
    requires a <= b <= |lines|
    decreases b
  {
    if a == b then [] else Next(StackAt(lines, a, b - 1), lines[b - 1])
  }

  function PlaceOf(stack: seq<Open>, line: Line): Place
    decreases line
  {
    match line
    case Content(id, parts) => Place(id, Ids(stack), Told(InsidesOf(parts, |parts|)))
    case Choice(id, level) => Place(id, Ids(Closed(stack, level)), Offered)
    case Gather(id, level) => Place(id, Ids(Closed(stack, level)), Met)
    case Test(id) => Place(id, [], Told([]))
  }

  function PlacesOf(lines: seq<Line>, a: nat, b: nat): seq<Place>
    requires a <= b <= |lines|
    decreases lines, 0, b
  {
    if a == b then [] else PlacesOf(lines, a, b - 1) + [PlaceOf(StackAt(lines, a, b - 1), lines[b - 1])]
  }

  function InsidesOf(parts: seq<Part>, n: nat): seq<Inside>
    requires n <= |parts|
    decreases parts, n
  {
    if n == 0 then [] else InsidesOf(parts, n - 1) + [InsideOf(parts[n - 1])]
  }

  function InsideOf(part: Part): Inside
    decreases part
  {
    match part
    case Words => Plain
    case Nested(subject, lines) => Divided(KindOf(subject, lines),
      GroupsOf(lines, Split(lines, |lines|), |Split(lines, |lines|)|))
  }

  // A conditional that starts with lines before any test is a plain if.
  function KindOf(subject: bool, lines: seq<Line>): Kind {
    if lines != [] && !lines[0].Test? then IfKind else if subject then SwitchKind else MultiIfKind
  }

  // The stretches of lines between tests: the bounds of each, and the test it belongs to.
  datatype Chunk = Chunk(test: Option<nat>, from: nat, to: nat)

  function Split(lines: seq<Line>, n: nat): (r: seq<Chunk>)
    requires n <= |lines|
    ensures forall i | 0 <= i < |r| :: r[i].from <= r[i].to <= n
  {
    if n == 0 then []
    else
      var before := Split(lines, n - 1);
      if lines[n - 1].Test? then before + [Chunk(Some(lines[n - 1].id), n, n)]
      else if before == [] then [Chunk(None, 0, n)]
      else before[..|before| - 1] + [before[|before| - 1].(to := n)]
  }

  function GroupsOf(lines: seq<Line>, chunks: seq<Chunk>, n: nat): seq<Group>
    requires n <= |chunks| && forall i | 0 <= i < |chunks| :: chunks[i].from <= chunks[i].to <= |lines|
    decreases lines, 1, n
  {
    if n == 0 then []
    else
      var c := chunks[n - 1];
      GroupsOf(lines, chunks, n - 1) + [Group(c.test, PlacesOf(lines, c.from, c.to))]
  }

  // ----- what the tree says -----

  // The lines of a tree in order, below the branches p; a body lies below its branch.
  function Places(n: Node, p: seq<nat>): seq<Place>
    decreases n, 0
  {
    match n
    case ContentNode(id, parts) => [Place(id, p, Told(Insides(parts, |parts|)))]
    case Branch(id, body) =>
      [Place(id, p, Offered)] + (match body case None => [] case Some(b) => Places(b, p + [id]))
    case GatherPoint(id) => [Place(id, p, Met)]
    case ChoiceList(branches) => All(branches, |branches|, p)
    case Gathered(choice, gather) => Places(choice, p) + Places(gather, p)
    case Block(stmts) => All(stmts, |stmts|, p)
    case _ => []
  }

  function All(ns: seq<Node>, n: nat, p: seq<nat>): seq<Place>
    requires n <= |ns|
    decreases ns, n
  {
    if n == 0 then [] else All(ns, n - 1, p) + Places(ns[n - 1], p)
  }

  function Insides(parts: seq<Node>, n: nat): seq<Inside>
    requires n <= |parts|
    decreases parts, n
  {
    if n == 0 then [] else Insides(parts, n - 1) + [InsideNode(parts[n - 1])]
  }

  function InsideNode(part: Node): Inside
    decreases part
  {
    match part
    case Cond(kind, branches) => Divided(kind, Groups(branches, |branches|))
    case _ => Plain
  }

  function Groups(branches: seq<Node>, n: nat): seq<Group>
    requires n <= |branches|
    decreases branches, n
  {
    if n == 0 then [] else Groups(branches, n - 1) + [GroupNode(branches[n - 1])]
  }

  function GroupNode(b: Node): Group
    decreases b, 1
  {
    match b
    case Case(id, body) => Group(Some(id), match body case None => [] case Some(n) => Places(n, []))
    case _ => Group(None, Places(b, []))
  }

  lemma {:induction false} AllPrefix(ns: seq<Node>, ms: seq<Node>, n: nat, p: seq<nat>)
    requires n <= |ns| && n <= |ms| && ns[..n] == ms[..n]
    ensures All(ns, n, p) == All(ms, n, p)
    decreases n
  {
    if n > 0 {
      assert ns[..n - 1] == ns[..n][..n - 1] && ms[..n - 1] == ms[..n][..n - 1];
      assert ns[..n][n - 1] == ms[..n][n - 1];
      AllPrefix(ns, ms, n - 1, p);
    }
  }

  // Everything in a list.
  function Whole(ns: seq<Node>, p: seq<nat>): seq<Place> {
    All(ns, |ns|, p)
  }

  lemma WholeSnoc(ns: seq<Node>, n: Node, p: seq<nat>)
    ensures Whole(ns + [n], p) == Whole(ns, p) + Places(n, p)
  {
    AllPrefix(ns + [n], ns, |ns|, p);
  }

  lemma {:induction false} WholePlus(a: seq<Node>, b: seq<Node>, p: seq<nat>)
    ensures Whole(a + b, p) == Whole(a, p) + Whole(b, p)
    decreases |b|
  {
    if b == [] {
      assert a + b == a;
    } else {
      var init, last := b[..|b| - 1], b[|b| - 1];
      WholePlus(a, init, p);
      assert a + b == (a + init) + [last] && b == init + [last];
      WholeSnoc(a + init, last, p);
      WholeSnoc(init, last, p);
    }
  }

  // ----- the unfinished tree -----

  // What the scratch stack says while blocks are still open: the nodes from the last offset on lie below
  // all the branches ids, the ones before that below one branch less, and so on.
  function Walk(s: seq<Node>, o: nat, offs: seq<nat>, ids: seq<nat>): seq<Place>
    requires |offs| <= |ids|
    decreases |offs|
  {
    if offs == [] then (if o <= |s| then Whole(s[o..], []) else [])
    else
      var last := offs[|offs| - 1];
      if last > |s| then []
      else Walk(s[..last], o, offs[..|offs| - 1], ids) + Whole(s[last..], ids[..|offs|])
  }

  // The offset of the innermost open block.
  function Bottom(o: nat, offs: seq<nat>): nat {
    if offs == [] then o else offs[|offs| - 1]
  }

  // The nodes from the last offset on, behind everything else.
  lemma WalkLast(s: seq<Node>, o: nat, offs: seq<nat>, ids: seq<nat>)
    requires |offs| <= |ids| && Bottom(o, offs) <= |s|
    ensures var b := Bottom(o, offs);
      Walk(s, o, offs, ids) ==
        (if offs == [] then [] else Walk(s[..b], o, offs[..|offs| - 1], ids)) + Whole(s[b..], ids[..|offs|])
  {
    hide Whole;
    assert ids[..0] == [];
  }

  lemma WalkSplit(s: seq<Node>, o: nat, offs: seq<nat>, ids: seq<nat>, c: nat)
    requires |offs| <= |ids| && Bottom(o, offs) <= c <= |s|
    ensures Walk(s, o, offs, ids) == Walk(s[..c], o, offs, ids) + Whole(s[c..], ids[..|offs|])
  {
    hide *;
    var b, p := Bottom(o, offs), ids[..|offs|];
    Cut(s, b, c);
    WalkLast(s, o, offs, ids);
    WalkLast(s[..c], o, offs, ids);
    WholePlus(s[b..c], s[c..], p);
    Joined(if offs == [] then [] else Walk(s[..b], o, offs[..|offs| - 1], ids), Whole(s[b..c], p), Whole(s[c..], p));
  }

  lemma Cut<T>(s: seq<T>, b: nat, c: nat)
    requires b <= c <= |s|
    ensures s[b..] == s[b..c] + s[c..] && s[..c][b..] == s[b..c] && s[..c][..b] == s[..b]
  {
  }

  lemma Joined<T>(a: seq<T>, b: seq<T>, c: seq<T>)
    ensures (a + b) + c == a + (b + c)
  {
  }

  lemma WalkPush(s: seq<Node>, o: nat, offs: seq<nat>, ids: seq<nat>, n: Node)
    requires |offs| <= |ids| && Bottom(o, offs) <= |s|
    ensures Walk(s + [n], o, offs, ids) == Walk(s, o, offs, ids) + Places(n, ids[..|offs|])
  {
    WalkSplit(s + [n], o, offs, ids, |s|);
    assert (s + [n])[..|s|] == s && (s + [n])[|s|..] == [] + [n];
    WholeSnoc([], n, ids[..|offs|]);
  }

  // Making a choice of the last nodes leaves everything where it is.
  lemma WalkChoice(s: seq<Node>, o: nat, offs: seq<nat>, ids: seq<nat>, c: nat)
    requires |offs| <= |ids| && Bottom(o, offs) <= c <= |s|
    ensures Walk(s[..c] + [ChoiceList(s[c..])], o, offs, ids) == Walk(s, o, offs, ids)
  {
    WalkSplit(s, o, offs, ids, c);
    WalkPush(s[..c], o, offs, ids, ChoiceList(s[c..]));
  }

  // Closing the innermost block and attaching it to the branch before it leaves everything where it is.
  lemma WalkBlock(s: seq<Node>, o: nat, offs: seq<nat>, ids: seq<nat>)
    requires 0 < |offs| <= |ids|
    requires var b := offs[|offs| - 1];
      Bottom(o, offs[..|offs| - 1]) < b <= |s| && s[b - 1] == Branch(ids[|offs| - 1], None)
    ensures var b := offs[|offs| - 1];
      Walk(s[..b - 1] + [Branch(ids[|offs| - 1], Some(Block(s[b..])))], o, offs[..|offs| - 1], ids)
        == Walk(s, o, offs, ids)
  {
    hide *;
    var k := |offs| - 1;
    var b, id, outer := offs[k], ids[k], offs[..k];
    assert s[..b] == s[..b - 1] + [s[b - 1]];
    assert ids[..k] + [id] == ids[..k + 1];
    WalkInner(s, o, offs, ids);
    BranchPlaces(id, s[b..], ids[..k]);
    WalkPush(s[..b - 1], o, outer, ids, Branch(id, Some(Block(s[b..]))));
    WalkPush(s[..b - 1], o, outer, ids, s[b - 1]);
  }

  lemma WalkInner(s: seq<Node>, o: nat, offs: seq<nat>, ids: seq<nat>)
    requires 0 < |offs| <= |ids| && offs[|offs| - 1] <= |s|
    ensures var k := |offs| - 1;
      Walk(s, o, offs, ids) == Walk(s[..offs[k]], o, offs[..k], ids) + Whole(s[offs[k]..], ids[..k + 1])
  {
    hide Walk, Whole;
    WalkLast(s, o, offs, ids);
  }

  lemma BranchPlaces(id: nat, list: seq<Node>, outer: seq<nat>)
    ensures Places(Branch(id, Some(Block(list))), outer) == Places(Branch(id, None), outer) + Whole(list, outer + [id])
  {
  }

  // Only the ids below the innermost open block matter.
  lemma {:induction false} WalkIds(s: seq<Node>, o: nat, offs: seq<nat>, ids: seq<nat>, other: seq<nat>)
    requires |offs| <= |ids| && |offs| <= |other| && ids[..|offs|] == other[..|offs|]
    ensures Walk(s, o, offs, ids) == Walk(s, o, offs, other)
    decreases |offs|
  {
    if offs != [] {
      var k := |offs| - 1;
      assert ids[..k] == ids[..k + 1][..k] && other[..k] == other[..k + 1][..k];
      WalkIds(if offs[k] <= |s| then s[..offs[k]] else s, o, offs[..k], ids, other);
    }
  }
}

// Which trees the parser can build: the grammar of a finished tree.  A tree of this grammar is determined by
// what Woven reads off it.
module Trees {
  import opened Wrappers
  import opened Woven

  // A statement of a block, other than a bare choice.
  predicate Proper(n: Node)
    decreases n
  {
    match n
    case ContentNode(_, parts) => forall i | 0 <= i < |parts| :: ProperPart(parts[i])
    case GatherPoint(_) => true
    case Gathered(choice, gather) => ProperChoice(choice) && gather.GatherPoint?
    case _ => false
  }

  // A choice has at least one branch.
  predicate ProperChoice(n: Node)
    decreases n
  {
    n.ChoiceList? && n.branches != [] && forall i | 0 <= i < |n.branches| :: ProperBranch(n.branches[i])
  }

  predicate ProperBranch(n: Node)
    decreases n
  {
    n.Branch? && ProperBody(n.body)
  }

  predicate ProperBody(body: Option<Node>)
    decreases body
  {
    match body
    case None => true
    case Some(b) => ProperBlock(b)
  }

  // Whatever follows a choice is either inside its last branch or gathers it: a choice that nothing gathers
  // is the last statement of its block.  So no two choices are neighbours, and no gather point follows one.
  predicate ProperBlock(n: Node)
    decreases n, 0
  {
    && n.Block? && n.stmts != []
    && (forall i | 0 <= i < |n.stmts| - 1 :: Proper(n.stmts[i]))
    && (Proper(n.stmts[|n.stmts| - 1]) || ProperChoice(n.stmts[|n.stmts| - 1]))
  }

  // What a content line is made of.
  predicate ProperPart(n: Node)
    decreases n
  {
    n.WordsNode? || (n.Cond? && forall i | 0 <= i < |n.branches| :: ProperCase(n.branches[i]))
  }

  predicate ProperCase(n: Node)
    decreases n, 1
  {
    match n
    case Case(_, body) => ProperBody(body)
    case _ => ProperBlock(n)
  }

  // ----- a proper tree is determined by its places -----

  // The statements of a block: only the last one can be a bare choice.
  predicate ProperStmts(ns: seq<Node>) {
    && (forall i | 0 <= i < |ns| - 1 :: Proper(ns[i]))
    && (ns != [] ==> Proper(ns[|ns| - 1]) || ProperChoice(ns[|ns| - 1]))
  }

  // Below this many branches, or more.
  predicate Deep(ps: seq<Place>, d: nat) {
    forall i | 0 <= i < |ps| :: |ps[i].path| >= d
  }

  // Nothing, or a place at depth d to begin with.
  predicate Begins(ps: seq<Place>, d: nat) {
    ps != [] ==> |ps[0].path| == d
  }

  // What can follow the branches of a choice: nothing, or a gather.
  predicate AfterChoice(ps: seq<Place>, d: nat) {
    Begins(ps, d) && (ps != [] ==> ps[0].sort.Met?)
  }

  // How many places in front are deeper.
  function Deeper(ps: seq<Place>, d: nat): nat {
    if ps == [] || |ps[0].path| <= d then 0 else 1 + Deeper(ps[1..], d)
  }

  lemma {:induction false} DeepFront(a: seq<Place>, b: seq<Place>, d: nat)
    requires Deep(a, d + 1) && Begins(b, d)
    ensures Deeper(a + b, d) == |a|
    decreases |a|
  {
    if a == [] {
      assert a + b == b;
    } else {
      DeepFront(a[1..], b, d);
      assert (a + b)[1..] == a[1..] + b;
    }
  }

  // There is one way to cut off the deep part in front.
  lemma OneCut(a: seq<Place>, b: seq<Place>, c: seq<Place>, e: seq<Place>, d: nat)
    requires a + b == c + e && Deep(a, d + 1) && Deep(c, d + 1) && Begins(b, d) && Begins(e, d)
    ensures a == c && b == e
  {
    DeepFront(a, b, d);
    DeepFront(c, e, d);
    assert a == (a + b)[..|a|] && c == (c + e)[..|a|];
    assert b == (a + b)[|a|..] && e == (c + e)[|a|..];
  }

  lemma {:induction false} PlacesDeep(n: Node, p: seq<nat>)
    ensures Deep(Places(n, p), |p|)
    decreases n, 0
  {
    match n
    case Branch(id, Some(b)) => PlacesDeep(b, p + [id]);
    case ChoiceList(branches) => WholeDeep(branches, p);
    case Gathered(choice, gather) =>
      PlacesDeep(choice, p);
      PlacesDeep(gather, p);
    case Block(stmts) => WholeDeep(stmts, p);
    case _ =>
  }

  lemma {:induction false} WholeDeep(ns: seq<Node>, p: seq<nat>)
    ensures Deep(Whole(ns, p), |p|)
    decreases ns
  {
    if ns != [] {
      PlacesDeep(ns[0], p);
      WholeDeep(ns[1..], p);
      Front(ns, p);
    }
  }

  lemma Front(ns: seq<Node>, p: seq<nat>)
    requires ns != []
    ensures Whole(ns, p) == Places(ns[0], p) + Whole(ns[1..], p)
  {
    assert ns == [ns[0]] + ns[1..] && [ns[0]] == [] + [ns[0]];
    WholePlus([ns[0]], ns[1..], p);
    WholeSnoc([], ns[0], p);
  }

  // A statement begins at its own depth, with what it is.
  lemma {:induction false} Starts(n: Node, p: seq<nat>)
    requires Proper(n) || ProperChoice(n) || ProperBranch(n)
    ensures var ps := Places(n, p);
      && ps != [] && ps[0].path == p
      && (ps[0].sort.Told? <==> n.ContentNode?) && (ps[0].sort.Met? <==> n.GatherPoint?)
    decreases n
  {
    match n
    case ChoiceList(branches) =>
      Front(branches, p);
      Starts(branches[0], p);
    case Gathered(choice, gather) => Starts(choice, p);
    case _ =>
  }

  lemma BlockStarts(ns: seq<Node>, p: seq<nat>)
    requires ProperStmts(ns)
    ensures Begins(Whole(ns, p), |p|) && (Whole(ns, p) == [] <==> ns == [])
  {
    if ns != [] {
      Front(ns, p);
      Starts(ns[0], p);
    }
  }

  lemma BranchesStart(bs: seq<Node>, r: seq<Place>, p: seq<nat>)
    requires AfterChoice(r, |p|) && forall i | 0 <= i < |bs| :: ProperBranch(bs[i])
    ensures Begins(Whole(bs, p) + r, |p|) && (bs == [] <==> AfterChoice(Whole(bs, p) + r, |p|))
  {
    if bs == [] {
      assert Whole(bs, p) + r == r;
    } else {
      Front(bs, p);
      Starts(bs[0], p);
    }
  }

  // The statements of a block, read back.
  lemma {:induction false} SameStmts(ns: seq<Node>, ms: seq<Node>, p: seq<nat>)
    requires ProperStmts(ns) && ProperStmts(ms) && Whole(ns, p) == Whole(ms, p)
    ensures ns == ms
    decreases ns
  {
    BlockStarts(ns, p);
    BlockStarts(ms, p);
    if ns != [] {
      Front(ns, p);
      Front(ms, p);
      BlockStarts(ns[1..], p);
      BlockStarts(ms[1..], p);
      SameStmt(ns[0], Whole(ns[1..], p), ms[0], Whole(ms[1..], p), p);
      SameStmts(ns[1..], ms[1..], p);
      assert ns == [ns[0]] + ns[1..] && ms == [ms[0]] + ms[1..];
    }
  }

  // The first statement, in front of whatever follows it.
  lemma {:induction false} SameStmt(n: Node, r: seq<Place>, m: Node, q: seq<Place>, p: seq<nat>)
    requires (Proper(n) || (ProperChoice(n) && r == [])) && Begins(r, |p|)
    requires (Proper(m) || (ProperChoice(m) && q == [])) && Begins(q, |p|)
    requires Places(n, p) + r == Places(m, p) + q
    ensures n == m && r == q
    decreases n
  {
    hide Insides;
    Starts(n, p);
    Starts(m, p);
    assert (Places(n, p) + r)[0] == Places(n, p)[0] && (Places(m, p) + q)[0] == Places(m, p)[0];
    if n.ContentNode? {
      SameParts(n.parts, m.parts);
      assert r == (Places(n, p) + r)[1..] && q == (Places(m, p) + q)[1..];
    } else if n.GatherPoint? {
      assert r == (Places(n, p) + r)[1..] && q == (Places(m, p) + q)[1..];
    } else {
      var (c, x) := Chosen(n, r, p);
      var (e, y) := Chosen(m, q, p);
      SameBranches(c.branches, x, e.branches, y, p);
      assert n.Gathered? ==> x[0] == Place(n.gather.id, p, Met) && r == x[1..];
      assert m.Gathered? ==> y[0] == Place(m.gather.id, p, Met) && q == y[1..];
    }
  }

  // A choice, gathered or not, as its branches and what follows them.
  ghost function Chosen(n: Node, r: seq<Place>, p: seq<nat>): (split: (Node, seq<Place>))
    requires Proper(n) || (ProperChoice(n) && r == [])
    requires n.ChoiceList? || n.Gathered?
    ensures ProperChoice(split.0) && (split.0 == n || split.0 < n) && AfterChoice(split.1, |p|)
    ensures Places(n, p) + r == Whole(split.0.branches, p) + split.1
  {
    if n.ChoiceList? then (n, [])
    else
      assert Places(n, p) + r == Places(n.choice, p) + (Places(n.gather, p) + r);
      (n.choice, Places(n.gather, p) + r)
  }

  lemma {:induction false} SameBranches(bs: seq<Node>, r: seq<Place>, cs: seq<Node>, q: seq<Place>, p: seq<nat>)
    requires forall i | 0 <= i < |bs| :: ProperBranch(bs[i])
    requires forall i | 0 <= i < |cs| :: ProperBranch(cs[i])
    requires AfterChoice(r, |p|) && AfterChoice(q, |p|) && Whole(bs, p) + r == Whole(cs, p) + q
    ensures bs == cs && r == q
    decreases bs
  {
    BranchesStart(bs, r, p);
    BranchesStart(cs, q, p);
    if bs == [] {
      assert Whole(bs, p) + r == r && Whole(cs, p) + q == q;
    } else {
      var (b, c) := (bs[0], cs[0]);
      var (x, y) := (Whole(bs[1..], p) + r, Whole(cs[1..], p) + q);
      BranchesStart(bs[1..], r, p);
      BranchesStart(cs[1..], q, p);
      Opened(bs, r, p);
      Opened(cs, q, p);
      assert b.id == c.id;
      OneCut(Below(b, p), x, Below(c, p), y, |p|);
      SameBranch(b, c, p);
      SameBranches(bs[1..], r, cs[1..], q, p);
      assert bs == [b] + bs[1..] && cs == [c] + cs[1..];
    }
  }

  lemma {:induction false} SameBranch(b: Node, c: Node, p: seq<nat>)
    requires ProperBranch(b) && ProperBranch(c) && b.id == c.id && Below(b, p) == Below(c, p)
    ensures b == c
    decreases b
  {
    SameBody(b.body, c.body, p + [b.id]);
  }

  // What lies inside a branch.
  function Below(b: Node, p: seq<nat>): seq<Place>
    requires b.Branch?
  {
    BodyPlaces(b.body, p + [b.id])
  }

  function BodyPlaces(body: Option<Node>, p: seq<nat>): seq<Place> {
    match body
    case None => []
    case Some(n) => Places(n, p)
  }

  lemma Opened(bs: seq<Node>, r: seq<Place>, p: seq<nat>)
    requires bs != [] && bs[0].Branch?
    ensures var (all, rest) := (Whole(bs, p) + r, Below(bs[0], p) + (Whole(bs[1..], p) + r));
      all != [] && all[0] == Place(bs[0].id, p, Offered) && all[1..] == rest
    ensures Deep(Below(bs[0], p), |p| + 1)
  {
    Front(bs, p);
    var first := [Place(bs[0].id, p, Offered)];
    assert Whole(bs, p) + r == first + (Below(bs[0], p) + (Whole(bs[1..], p) + r));
    if bs[0].body.Some? { PlacesDeep(bs[0].body.value, p + [bs[0].id]); }
  }

  lemma {:induction false} SameBody(a: Option<Node>, b: Option<Node>, p: seq<nat>)
    requires ProperBody(a) && ProperBody(b) && BodyPlaces(a, p) == BodyPlaces(b, p)
    ensures a == b
    decreases a
  {
    if a.Some? { BlockStarts(a.value.stmts, p); }
    if b.Some? { BlockStarts(b.value.stmts, p); }
    if a.Some? {
      SameStmts(a.value.stmts, b.value.stmts, p);
    }
  }

  lemma {:induction false} InsidesAt(parts: seq<Node>, n: nat)
    requires n <= |parts|
    ensures |Insides(parts, n)| == n && forall i | 0 <= i < n :: Insides(parts, n)[i] == InsideNode(parts[i])
    decreases n
  {
    hide InsideNode;
    if n > 0 { InsidesAt(parts, n - 1); }
  }

  lemma {:induction false} GroupsAt(branches: seq<Node>, n: nat)
    requires n <= |branches|
    ensures |Groups(branches, n)| == n && forall i | 0 <= i < n :: Groups(branches, n)[i] == GroupNode(branches[i])
    decreases n
  {
    hide GroupNode;
    if n > 0 { GroupsAt(branches, n - 1); }
  }

  // The inside of a content line, read back.
  lemma {:induction false} SameParts(a: seq<Node>, b: seq<Node>)
    requires forall i | 0 <= i < |a| :: ProperPart(a[i])
    requires forall i | 0 <= i < |b| :: ProperPart(b[i])
    requires Insides(a, |a|) == Insides(b, |b|)
    ensures a == b
    decreases a
  {
    InsidesAt(a, |a|);
    InsidesAt(b, |b|);
    forall i | 0 <= i < |a|
      ensures a[i] == b[i]
    {
      assert InsideNode(a[i]) == InsideNode(b[i]);
      if a[i].Cond? { SameCases(a[i].branches, b[i].branches); }
    }
  }

  lemma {:induction false} SameCases(a: seq<Node>, b: seq<Node>)
    requires forall i | 0 <= i < |a| :: ProperCase(a[i])
    requires forall i | 0 <= i < |b| :: ProperCase(b[i])
    requires Groups(a, |a|) == Groups(b, |b|)
    ensures a == b
    decreases a
  {
    GroupsAt(a, |a|);
    GroupsAt(b, |b|);
    forall i | 0 <= i < |a|
      ensures a[i] == b[i]
    {
      assert GroupNode(a[i]) == GroupNode(b[i]);
      SameCase(a[i], b[i]);
    }
  }

  lemma {:induction false} SameCase(a: Node, b: Node)
    requires ProperCase(a) && ProperCase(b) && GroupNode(a) == GroupNode(b)
    ensures a == b
    decreases a
  {
    if a.Case? {
      SameBody(a.body, b.body, []);
    } else {
      SameStmts(a.stmts, b.stmts, []);
    }
  }

  // A file is its statements in one block, or nothing.
  predicate ProperFile(file: seq<Node>) {
    file == [] || (|file| == 1 && ProperBlock(file[0]))
  }

  // Two proper trees with the same lines, in the same order and below the same branches, are one tree: which
  // branches share a choice, and which choice a gather closes, is settled by that.
  lemma OneTree(a: seq<Node>, b: seq<Node>)
    requires ProperFile(a) && ProperFile(b) && Whole(a, []) == Whole(b, [])
    ensures a == b
  {
    SameBody(Fileless(a), Fileless(b), []);
  }

  ghost function Fileless(file: seq<Node>): (body: Option<Node>)
    requires ProperFile(file)
    ensures ProperBody(body) && BodyPlaces(body, []) == Whole(file, []) && file == Opt(body)
  {
    if file == [] then None
    else
      WholeSnoc([], file[0], []);
      assert file == [] + [file[0]];
      Some(file[0])
  }

  function Opt(n: Option<Node>): seq<Node> {
    if n.Some? then [n.value] else []
  }
}

// What the stack of levels comes to, said without a stack.
module Enclosing {
  import opened Wrappers
  import opened Woven

  predicate Closes(line: Line) { line.Choice? || line.Gather? }

  // The branch that starts at line j is still open before line b: every choice and every gather in
  // between has a greater level.
  predicate Stays(lines: seq<Line>, j: nat, b: nat)
    requires j < |lines| && b <= |lines| && lines[j].Choice?
  {
    forall k | j < k < b :: Closes(lines[k]) ==> lines[k].level > lines[j].level
  }

  predicate IsChoice(lines: seq<Line>, j: nat) {
    j < |lines| && lines[j].Choice?
  }

  // The lines from a up to j that start a branch which is still open before line b.
  function OpenLines(lines: seq<Line>, a: nat, j: nat, b: nat): (r: seq<nat>)
    requires a <= j <= |lines| && b <= |lines|
    ensures forall i | 0 <= i < |r| :: IsChoice(lines, r[i])
    decreases j
  {
    if a == j then []
    else OpenLines(lines, a, j - 1, b) + if lines[j - 1].Choice? && Stays(lines, j - 1, b) then [j - 1] else []
  }

  function Opens(lines: seq<Line>, js: seq<nat>): (r: seq<Open>)
    requires forall i | 0 <= i < |js| :: IsChoice(lines, js[i])
    ensures |r| == |js|
  {
    if js == [] then []
    else
      var last := js[|js| - 1];
      assert IsChoice(lines, last);
      Opens(lines, js[..|js| - 1]) + [Open(lines[last].level, lines[last].id)]
  }

  function OpenStack(lines: seq<Line>, a: nat, j: nat, b: nat): seq<Open>
    requires a <= j <= |lines| && b <= |lines|
  {
    Opens(lines, OpenLines(lines, a, j, b))
  }

  lemma OpensSnoc(lines: seq<Line>, js: seq<nat>, j: nat)
    requires forall i | 0 <= i < |js| :: IsChoice(lines, js[i])
    requires j < |lines| && lines[j].Choice?
    ensures Opens(lines, js + [j]) == Opens(lines, js) + [Open(lines[j].level, lines[j].id)]
  {
    assert (js + [j])[..|js|] == js;
  }

  // Branches of a smaller level survive the next line.
  lemma {:induction false} Survive(lines: seq<Line>, a: nat, j: nat, b: nat)
    requires a <= j <= b < |lines|
    requires Closes(lines[b]) ==>
      forall i | 0 <= i < |OpenLines(lines, a, j, b)| :: lines[OpenLines(lines, a, j, b)[i]].level < lines[b].level
    ensures OpenLines(lines, a, j, b + 1) == OpenLines(lines, a, j, b)
    decreases j
  {
    if a < j {
      var before := OpenLines(lines, a, j - 1, b);
      forall i | 0 <= i < |before| && Closes(lines[b])
        ensures lines[before[i]].level < lines[b].level
      {
        assert OpenLines(lines, a, j, b)[i] == before[i];
      }
      Survive(lines, a, j - 1, b);
      if lines[j - 1].Choice? && Stays(lines, j - 1, b) {
        assert OpenLines(lines, a, j, b)[|before|] == j - 1;
      }
    }
  }

  lemma {:induction false} OpenStays(lines: seq<Line>, a: nat, j: nat, b: nat, i: nat)
    requires a <= j <= |lines| && b <= |lines| && i < |OpenLines(lines, a, j, b)|
    ensures var k := OpenLines(lines, a, j, b)[i]; a <= k < j && lines[k].Choice? && Stays(lines, k, b)
    decreases j
  {
    hide Stays;
    if i < |OpenLines(lines, a, j - 1, b)| {
      OpenStays(lines, a, j - 1, b, i);
    }
  }

  // Dropping from the top of the stack is dropping everything of that level or more.
  lemma {:induction false} ClosedIsFilter(lines: seq<Line>, a: nat, j: nat, b: nat)
    requires a <= j <= b < |lines| && Closes(lines[b])
    ensures Closed(OpenStack(lines, a, j, b), lines[b].level) == OpenStack(lines, a, j, b + 1)
    decreases j
  {
    hide Closed, Stays, OpenStack, OpenLines, Opens;
    if a == j {
      NothingOpen(lines, a, b);
      ClosedNothing(lines[b].level);
    } else {
      ClosedIsFilter(lines, a, j - 1, b);
      OpenStep(lines, a, j, b);
      OpenStep(lines, a, j, b + 1);
      if lines[j - 1].Choice? && Stays(lines, j - 1, b) {
        KeptOrClosed(lines, a, j, b);
      } else {
        NotOpenLater(lines, j, b);
      }
    }
  }

  lemma NotOpenLater(lines: seq<Line>, j: nat, b: nat)
    requires 0 < j <= b < |lines| && !(lines[j - 1].Choice? && Stays(lines, j - 1, b))
    ensures !(lines[j - 1].Choice? && Stays(lines, j - 1, b + 1))
  {
    if lines[j - 1].Choice? { StaysNext(lines, j - 1, b); }
  }

  // A branch that is open before line b, when that line closes some.
  lemma KeptOrClosed(lines: seq<Line>, a: nat, j: nat, b: nat)
    requires a < j <= b < |lines| && Closes(lines[b]) && lines[j - 1].Choice? && Stays(lines, j - 1, b)
    requires Closed(OpenStack(lines, a, j - 1, b), lines[b].level) == OpenStack(lines, a, j - 1, b + 1)
    ensures Closed(OpenStack(lines, a, j, b), lines[b].level) == OpenStack(lines, a, j, b + 1)
  {
    hide Closed, Stays, OpenStack, OpenLines, Opens;
    OpenStep(lines, a, j, b);
    OpenStep(lines, a, j, b + 1);
    StaysNext(lines, j - 1, b);
    ClosedLast(OpenStack(lines, a, j - 1, b), Open(lines[j - 1].level, lines[j - 1].id), lines[b].level);
    if lines[j - 1].level < lines[b].level {
      SurviveStack(lines, a, j, b);
    }
  }

  lemma StaysNext(lines: seq<Line>, j: nat, b: nat)
    requires j < b < |lines| && lines[j].Choice?
    ensures Stays(lines, j, b + 1) <==> Stays(lines, j, b) && (Closes(lines[b]) ==> lines[b].level > lines[j].level)
  {
  }

  lemma OpenStep(lines: seq<Line>, a: nat, j: nat, b: nat)
    requires a < j <= |lines| && b <= |lines|
    ensures var (all, before) := (OpenStack(lines, a, j, b), OpenStack(lines, a, j - 1, b));
      all == if lines[j - 1].Choice? && Stays(lines, j - 1, b) then before + [Open(lines[j - 1].level, lines[j - 1].id)]
        else before
  {
    var before := OpenLines(lines, a, j - 1, b);
    assert before + [] == before;
    if lines[j - 1].Choice? && Stays(lines, j - 1, b) {
      OpensSnoc(lines, before, j - 1);
    }
  }

  lemma NothingOpen(lines: seq<Line>, a: nat, b: nat)
    requires a <= b < |lines|
    ensures OpenStack(lines, a, a, b) == [] && OpenStack(lines, a, a, b + 1) == []
  {
  }

  lemma SurviveStack(lines: seq<Line>, a: nat, j: nat, b: nat)
    requires a < j <= b < |lines| && lines[j - 1].Choice? && Stays(lines, j - 1, b)
    requires Closes(lines[b]) && lines[j - 1].level < lines[b].level
    ensures OpenStack(lines, a, j, b + 1) == OpenStack(lines, a, j, b)
  {
    AllLower(lines, a, j, b);
    Survive(lines, a, j, b);
  }

  lemma ClosedNothing(level: pos)
    ensures Closed([], level) == []
  {
  }

  lemma ClosedLast(stack: seq<Open>, open: Open, level: pos)
    ensures Closed(stack + [open], level) == if open.level >= level then Closed(stack, level) else stack + [open]
  {
    assert (stack + [open])[..|stack|] == stack;
  }

  lemma AllLower(lines: seq<Line>, a: nat, j: nat, b: nat)
    requires a < j <= b < |lines| && lines[j - 1].Choice? && Stays(lines, j - 1, b)
    requires Closes(lines[b]) && lines[j - 1].level < lines[b].level
    ensures forall i | 0 <= i < |OpenLines(lines, a, j, b)| ::
      lines[OpenLines(lines, a, j, b)[i]].level < lines[b].level
  {
    var before := OpenLines(lines, a, j - 1, b);
    assert OpenLines(lines, a, j, b) == before + [j - 1];
    forall i | 0 <= i < |before|
      ensures lines[before[i]].level < lines[b].level
    {
      OpenStays(lines, a, j - 1, b, i);
      assert Closes(lines[j - 1]);
    }
  }

  // The stack holds exactly the branches that are still open.
  lemma {:induction false} StackIsOpen(lines: seq<Line>, a: nat, b: nat)
    requires a <= b <= |lines| && forall i | a <= i < b :: !lines[i].Test?
    ensures StackAt(lines, a, b) == OpenStack(lines, a, b, b)
    decreases b
  {
    hide Closed, Opens, OpenLines, OpenStack;
    if a < b {
      StackIsOpen(lines, a, b - 1);
      AfterLine(lines, a, b - 1);
      OpenStep(lines, a, b, b);
    } else {
      NoLines(lines, a);
    }
  }

  lemma NoLines(lines: seq<Line>, a: nat)
    requires a <= |lines|
    ensures OpenStack(lines, a, a, a) == []
  {
  }

  // What a line leaves open of the branches before it.
  lemma AfterLine(lines: seq<Line>, a: nat, b: nat)
    requires a <= b < |lines| && !lines[b].Test?
    ensures var stack := OpenStack(lines, a, b, b);
      OpenStack(lines, a, b, b + 1) == if Closes(lines[b]) then Closed(stack, lines[b].level) else stack
  {
    if Closes(lines[b]) {
      ClosedIsFilter(lines, a, b, b);
    } else {
      Survive(lines, a, b, b);
    }
  }

  lemma {:induction false} EachLineOnce(lines: seq<Line>, a: nat, b: nat)
    requires a <= b <= |lines|
    ensures |PlacesOf(lines, a, b)| == b - a
    ensures forall i | a <= i < b :: PlacesOf(lines, a, b)[i - a] == PlaceOf(StackAt(lines, a, i), lines[i])
    decreases b
  {
    hide PlaceOf, StackAt;
    if a < b {
      EachLineOnce(lines, a, b - 1);
    }
  }

  // Line i comes exactly once, at its own position, and the branches around it are exactly those choice
  // lines before it that no choice or gather of their level or less has closed, itself included.
  lemma LineIsPlaced(lines: seq<Line>, a: nat, b: nat, i: nat)
    requires a <= i < b <= |lines| && forall k | a <= k < b :: !lines[k].Test?
    ensures |PlacesOf(lines, a, b)| == b - a
    ensures var p := PlacesOf(lines, a, b)[i - a];
      && p.id == lines[i].id && p.path == Ids(OpenStack(lines, a, i, i + 1))
      && (p.sort.Offered? <==> lines[i].Choice?) && (p.sort.Met? <==> lines[i].Gather?)
  {
    EachLineOnce(lines, a, b);
    StackIsOpen(lines, a, i);
    AfterLine(lines, a, i);
  }

  // The stretch c starts right behind its test or at the start, has no test in it, and goes up to the next
  // test or to the end.
  ghost predicate Stretch(lines: seq<Line>, c: Chunk, n: nat) {
    && c.from <= c.to <= n <= |lines|
    && (forall k | c.from <= k < c.to :: !lines[k].Test?)
    && (if c.test.Some? then c.from > 0 && lines[c.from - 1] == Test(c.test.value) else c.from == 0)
    && (c.to < n ==> lines[c.to].Test?)
  }

  // Each branch of a conditional gets the lines from its test up to the next one.
  lemma {:induction false} Stretches(lines: seq<Line>, n: nat)
    requires n <= |lines|
    ensures forall i | 0 <= i < |Split(lines, n)| :: Stretch(lines, Split(lines, n)[i], n)
    ensures Split(lines, n) != [] ==> Split(lines, n)[|Split(lines, n)| - 1].to == n
    decreases n
  {
    if n > 0 {
      var before, chunks := Split(lines, n - 1), Split(lines, n);
      Stretches(lines, n - 1);
      forall i | 0 <= i < |chunks|
        ensures Stretch(lines, chunks[i], n)
      {
        NextStretch(lines, n, i);
      }
    }
  }

  lemma NextStretch(lines: seq<Line>, n: nat, i: nat)
    requires 0 < n <= |lines| && i < |Split(lines, n)|
    requires i < |Split(lines, n - 1)| ==> Stretch(lines, Split(lines, n - 1)[i], n - 1)
    ensures Stretch(lines, Split(lines, n)[i], n)
  {
    hide Stretch, Split;
    SplitStep(lines, n, i);
    var before, all := Split(lines, n - 1), Split(lines, n);
    LastStretch(lines, n - 1);
    if i < |before| - 1 {
      OneStretch(lines, before, i, n - 1);
      LongAgo(lines, before[i], n);
    } else if i == |before| - 1 {
      OneMore(lines, before[i], n);
    } else {
      FirstOne(lines, all[i], n);
    }
  }

  lemma SplitStep(lines: seq<Line>, n: nat, i: nat)
    requires 0 < n <= |lines| && i < |Split(lines, n)|
    ensures var before := Split(lines, n - 1);
      i >= |before| && !lines[n - 1].Test? ==> before == []
    ensures var before := Split(lines, n - 1);
      Split(lines, n)[i] ==
        if i < |before| - 1 then before[i]
        else if i == |before| - 1 then (if lines[n - 1].Test? then before[i] else before[i].(to := n))
        else if lines[n - 1].Test? then Chunk(Some(lines[n - 1].id), n, n)
        else Chunk(None, 0, n)
  {
  }

  lemma LongAgo(lines: seq<Line>, c: Chunk, n: nat)
    requires 0 < n <= |lines| && Stretch(lines, c, n - 1) && c.to < n - 1
    ensures Stretch(lines, c, n)
  {
  }

  lemma OneMore(lines: seq<Line>, c: Chunk, n: nat)
    requires 0 < n <= |lines| && Stretch(lines, c, n - 1) && c.to == n - 1
    ensures Stretch(lines, if lines[n - 1].Test? then c else c.(to := n), n)
  {
  }

  lemma FirstOne(lines: seq<Line>, c: Chunk, n: nat)
    requires 0 < n <= |lines|
    requires if lines[n - 1].Test? then c == Chunk(Some(lines[n - 1].id), n, n) else n == 1 && c == Chunk(None, 0, n)
    ensures Stretch(lines, c, n)
  {
  }

  // Only the last stretch goes up to the end.
  lemma {:induction false} OneStretch(lines: seq<Line>, chunks: seq<Chunk>, i: nat, n: nat)
    requires n <= |lines| && chunks == Split(lines, n) && i < |chunks| - 1
    ensures chunks[i].to < n && lines[chunks[i].to].Test?
    decreases n
  {
    var before := Split(lines, n - 1);
    if i < |before| - 1 {
      OneStretch(lines, before, i, n - 1);
    } else {
      LastStretch(lines, n - 1);
    }
  }

  lemma LastStretch(lines: seq<Line>, n: nat)
    requires n <= |lines|
    ensures Split(lines, n) != [] ==> Split(lines, n)[|Split(lines, n)| - 1].to == n
    ensures Split(lines, n) == [] <==> n == 0
  {
  }
}

module Weaving {
  import opened Wrappers
  import opened Woven
  import opened Trees

  // An open block or an open choice: its level, and where its nodes start on the scratch stack.
  datatype Entry = Entry(level: nat, offset: nat)

  function Offs(bs: seq<Entry>): (r: seq<nat>)
    requires bs != []
    ensures |r| == |bs| - 1 && forall i | 0 <= i < |r| :: r[i] == bs[i + 1].offset
  {
    seq(|bs| - 1, i requires 0 <= i < |bs| - 1 => bs[i + 1].offset)
  }

  // The open blocks and choices of a context alternate with strictly increasing levels: a base block of
  // level 0, and then each block has the level of the choice beneath it and starts right behind the
  // branch it belongs to.  Only the innermost choice can be without a block.
  ghost predicate Frame(s: seq<Node>, o: nat, bs: seq<Entry>, cs: seq<Entry>, stack: seq<Open>) {
    && bs != [] && bs[0] == Entry(0, o) && o <= |s|
    && |cs| == |stack| && |cs| <= |bs| <= |cs| + 1
    && (forall i | 0 <= i < |cs| :: ChoiceOver(s, bs, cs, stack, i))
    && (forall i | 0 <= i < |bs| - 1 :: BlockOver(s, bs, cs, stack, i))
  }

  ghost predicate ChoiceOver(s: seq<Node>, bs: seq<Entry>, cs: seq<Entry>, stack: seq<Open>, i: nat) {
    && i < |bs| && i < |cs| && i < |stack|
    && cs[i].level == stack[i].level && bs[i].level < cs[i].level && bs[i].offset <= cs[i].offset <= |s|
  }

  ghost predicate BlockOver(s: seq<Node>, bs: seq<Entry>, cs: seq<Entry>, stack: seq<Open>, i: nat) {
    && i + 1 < |bs| && i < |cs| && i < |stack|
    && bs[i + 1].level == cs[i].level && cs[i].offset < bs[i + 1].offset <= |s|
    && s[bs[i + 1].offset - 1] == Branch(stack[i].id, None)
  }

  // Nothing that is open is empty, and a choice without a block ends with its branch.
  ghost predicate Full(s: seq<Node>, bs: seq<Entry>, cs: seq<Entry>, stack: seq<Open>)
    requires bs != [] && |cs| == |stack|
  {
    && bs[|bs| - 1].offset < |s|
    && (|bs| == |cs| ==> cs[|cs| - 1].offset < |s| && s[|s| - 1] == Branch(stack[|cs| - 1].id, None))
  }

  function View(s: seq<Node>, o: nat, bs: seq<Entry>, stack: seq<Open>): seq<Place>
    requires bs != [] && |bs| - 1 <= |stack|
  {
    Walk(s, o, Offs(bs), Ids(stack))
  }

  ghost predicate Inv(s: seq<Node>, o: nat, bs: seq<Entry>, cs: seq<Entry>, stack: seq<Open>, places: seq<Place>) {
    Frame(s, o, bs, cs, stack) && Full(s, bs, cs, stack) && View(s, o, bs, stack) == places
  }

  lemma BottomOffs(o: nat, bs: seq<Entry>)
    requires bs != [] && bs[0] == Entry(0, o)
    ensures Bottom(o, Offs(bs)) == bs[|bs| - 1].offset
  {
  }

  lemma IdsPrefix(stack: seq<Open>, n: nat)
    requires n <= |stack|
    ensures Ids(stack)[..n] == Ids(stack[..n])
  {
  }

  // ----- the steps -----

  // A block for the innermost choice.
  lemma OpenBlock(s: seq<Node>, o: nat, bs: seq<Entry>, cs: seq<Entry>, stack: seq<Open>, places: seq<Place>)
    requires Inv(s, o, bs, cs, stack, places) && |bs| == |cs|
    ensures var b := Entry(cs[|cs| - 1].level, |s|);
      Frame(s, o, bs + [b], cs, stack) && View(s, o, bs + [b], stack) == places
  {
    var b := Entry(cs[|cs| - 1].level, |s|);
    assert BlockOver(s, bs + [b], cs, stack, |cs| - 1);
    forall i | 0 <= i < |bs|
      ensures BlockOver(s, bs + [b], cs, stack, i)
    {
      if i < |bs| - 1 { assert BlockOver(s, bs, cs, stack, i); }
    }
    forall i | 0 <= i < |cs|
      ensures ChoiceOver(s, bs + [b], cs, stack, i)
    {
      assert ChoiceOver(s, bs, cs, stack, i);
    }
    assert Offs(bs + [b])[..|bs| - 1] == Offs(bs);
    assert s[..|s|] == s && s[|s|..] == [];
  }

  // Entries stay right while the nodes they speak of stay.
  lemma FrameKept(s: seq<Node>, t: seq<Node>, o: nat, bs: seq<Entry>, cs: seq<Entry>, stack: seq<Open>, n: nat)
    requires Frame(s, o, bs, cs, stack) && n <= |s| && n <= |t| && s[..n] == t[..n]
    requires bs[|bs| - 1].offset <= n && (cs != [] ==> cs[|cs| - 1].offset <= n)
    ensures Frame(t, o, bs, cs, stack)
  {
    forall i | 0 <= i < |bs| - 1
      ensures BlockOver(t, bs, cs, stack, i)
    {
      assert BlockOver(s, bs, cs, stack, i);
      OffsetsGrow(s, o, bs, cs, stack, i + 1, |bs| - 1);
      assert s[..n][bs[i + 1].offset - 1] == t[..n][bs[i + 1].offset - 1];
    }
    forall i | 0 <= i < |cs|
      ensures ChoiceOver(t, bs, cs, stack, i)
    {
      assert ChoiceOver(s, bs, cs, stack, i);
      if i + 1 < |bs| {
        assert BlockOver(s, bs, cs, stack, i);
        OffsetsGrow(s, o, bs, cs, stack, i + 1, |bs| - 1);
      }
    }
    OffsetsGrow(s, o, bs, cs, stack, 0, |bs| - 1);
  }

  lemma {:induction false} OffsetsGrow(s: seq<Node>, o: nat, bs: seq<Entry>, cs: seq<Entry>, stack: seq<Open>,
          i: nat, j: nat)
    requires Frame(s, o, bs, cs, stack) && i <= j < |bs|
    ensures bs[i].offset <= bs[j].offset && (i < j ==> bs[i].level < bs[j].level)
    decreases j
  {
    if i < j {
      OffsetsGrow(s, o, bs, cs, stack, i, j - 1);
      assert BlockOver(s, bs, cs, stack, j - 1);
      assert ChoiceOver(s, bs, cs, stack, j - 1);
    }
  }

  // A node in the innermost block.
  lemma PushNode(s: seq<Node>, o: nat, bs: seq<Entry>, cs: seq<Entry>, stack: seq<Open>, n: Node)
    requires Frame(s, o, bs, cs, stack) && |bs| == |cs| + 1
    ensures Inv(s + [n], o, bs, cs, stack, View(s, o, bs, stack) + Places(n, Ids(stack)))
  {
    Bounds(s, o, bs, cs, stack);
    FrameKept(s, s + [n], o, bs, cs, stack, |s|);
    BottomOffs(o, bs);
    WalkPush(s, o, Offs(bs), Ids(stack), n);
    assert Ids(stack)[..|bs| - 1] == Ids(stack);
  }

  lemma Bounds(s: seq<Node>, o: nat, bs: seq<Entry>, cs: seq<Entry>, stack: seq<Open>)
    requires Frame(s, o, bs, cs, stack)
    ensures o <= bs[|bs| - 1].offset <= |s| && (cs != [] ==> cs[|cs| - 1].offset <= |s|)
  {
    OffsetsGrow(s, o, bs, cs, stack, 0, |bs| - 1);
    if cs != [] { assert ChoiceOver(s, bs, cs, stack, |cs| - 1); }
    if |bs| > 1 { assert BlockOver(s, bs, cs, stack, |bs| - 2); }
  }

  // A branch of the innermost choice.
  lemma PushBranch(s: seq<Node>, o: nat, bs: seq<Entry>, cs: seq<Entry>, stack: seq<Open>, open: Open)
    requires Frame(s, o, bs, cs, stack + [open]) && |bs| == |cs|
    ensures Inv(s + [Branch(open.id, None)], o, bs, cs, stack + [open], View(s, o, bs, stack + [open])
      + [Place(open.id, Ids(stack), Offered)])
  {
    var all, n := stack + [open], Branch(open.id, None);
    Bounds(s, o, bs, cs, all);
    FrameKept(s, s + [n], o, bs, cs, all, |s|);
    BottomOffs(o, bs);
    WalkPush(s, o, Offs(bs), Ids(all), n);
    IdsPrefix(all, |stack|);
    assert all[..|stack|] == stack;
  }

  // A choice inside the innermost block.
  lemma OpenChoice(s: seq<Node>, o: nat, bs: seq<Entry>, cs: seq<Entry>, stack: seq<Open>, open: Open)
    requires Frame(s, o, bs, cs, stack) && |bs| == |cs| + 1 && bs[|bs| - 1].level < open.level
    ensures Frame(s, o, bs, cs + [Entry(open.level, |s|)], stack + [open])
    ensures View(s, o, bs, stack + [open]) == View(s, o, bs, stack)
  {
    var ds, all := cs + [Entry(open.level, |s|)], stack + [open];
    Bounds(s, o, bs, cs, stack);
    forall i | 0 <= i < |ds|
      ensures ChoiceOver(s, bs, ds, all, i)
    {
      if i < |cs| { assert ChoiceOver(s, bs, cs, stack, i); }
    }
    forall i | 0 <= i < |bs| - 1
      ensures BlockOver(s, bs, ds, all, i)
    {
      assert BlockOver(s, bs, cs, stack, i);
    }
    SameView(s, o, bs, stack, all);
  }

  lemma SameView(s: seq<Node>, o: nat, bs: seq<Entry>, stack: seq<Open>, other: seq<Open>)
    requires bs != [] && |bs| - 1 <= |stack| && |bs| - 1 <= |other| && stack[..|bs| - 1] == other[..|bs| - 1]
    ensures View(s, o, bs, stack) == View(s, o, bs, other)
  {
    IdsPrefix(stack, |bs| - 1);
    IdsPrefix(other, |bs| - 1);
    WalkIds(s, o, Offs(bs), Ids(stack), Ids(other));
  }

  // The block of the innermost choice, closed and attached to its branch.
  lemma CloseBlock(s: seq<Node>, o: nat, bs: seq<Entry>, cs: seq<Entry>, stack: seq<Open>, places: seq<Place>)
    requires Inv(s, o, bs, cs, stack, places) && |bs| == |cs| + 1 && cs != []
    ensures var b := bs[|bs| - 1].offset;
      && o < b <= |s| && s[b - 1] == Branch(stack[|cs| - 1].id, None)
      && var t := s[..b - 1] + [Branch(stack[|cs| - 1].id, Some(Block(s[b..])))];
      && Frame(t, o, bs[..|cs|], cs, stack) && View(t, o, bs[..|cs|], stack) == places && cs[|cs| - 1].offset < |t|
  {
    var k := |cs|;
    var b := bs[k].offset;
    assert BlockOver(s, bs, cs, stack, k - 1) && ChoiceOver(s, bs, cs, stack, k - 1);
    var t := s[..b - 1] + [Branch(stack[k - 1].id, Some(Block(s[b..])))];
    FewerBlocks(s, o, bs, cs, stack);
    Bounds(s, o, bs[..k], cs, stack);
    FrameKept(s, t, o, bs[..k], cs, stack, b - 1);
    assert Offs(bs)[..k - 1] == Offs(bs[..k]);
    BottomOffs(o, bs[..k]);
    WalkBlock(s, o, Offs(bs), Ids(stack));
  }

  lemma FewerBlocks(s: seq<Node>, o: nat, bs: seq<Entry>, cs: seq<Entry>, stack: seq<Open>)
    requires Frame(s, o, bs, cs, stack) && |bs| == |cs| + 1 && cs != []
    ensures Frame(s, o, bs[..|cs|], cs, stack)
  {
    forall i | 0 <= i < |cs| - 1
      ensures BlockOver(s, bs[..|cs|], cs, stack, i)
    {
      assert BlockOver(s, bs, cs, stack, i);
    }
    forall i | 0 <= i < |cs|
      ensures ChoiceOver(s, bs[..|cs|], cs, stack, i)
    {
      assert ChoiceOver(s, bs, cs, stack, i);
    }
  }

  // The innermost choice, without a block of its own, becomes one node of the block around it.
  lemma CloseChoice(s: seq<Node>, o: nat, bs: seq<Entry>, cs: seq<Entry>, stack: seq<Open>, places: seq<Place>)
    requires Frame(s, o, bs, cs, stack) && View(s, o, bs, stack) == places
    requires |bs| == |cs| && cs[|cs| - 1].offset < |s|
    ensures var (k, c) := (|cs| - 1, cs[|cs| - 1].offset);
      Inv(s[..c] + [ChoiceList(s[c..])], o, bs, cs[..k], stack[..k], places)
  {
    var k := |cs| - 1;
    var c := cs[k].offset;
    var t := s[..c] + [ChoiceList(s[c..])];
    assert ChoiceOver(s, bs, cs, stack, k);
    forall i | 0 <= i < |bs| - 1
      ensures BlockOver(s, bs, cs[..k], stack[..k], i)
    {
      assert BlockOver(s, bs, cs, stack, i);
    }
    forall i | 0 <= i < k
      ensures ChoiceOver(s, bs, cs[..k], stack[..k], i)
    {
      assert ChoiceOver(s, bs, cs, stack, i);
    }
    assert Frame(s, o, bs, cs[..k], stack[..k]);
    if k > 0 { assert ChoiceOver(s, bs, cs, stack, k - 1) && BlockOver(s, bs, cs, stack, k - 1); }
    FrameKept(s, t, o, bs, cs[..k], stack[..k], c);
    BottomOffs(o, bs);
    WalkChoice(s, o, Offs(bs), Ids(stack), c);
    SameView(t, o, bs, stack, stack[..k]);
  }

  // The innermost choice goes on, with a new branch at another level.
  lemma Relevel(s: seq<Node>, o: nat, bs: seq<Entry>, cs: seq<Entry>, stack: seq<Open>, open: Open)
    requires Frame(s, o, bs, cs, stack) && |bs| == |cs| && bs[|bs| - 1].level < open.level
    ensures var k := |cs| - 1;
      && Frame(s, o, bs, cs[..k] + [Entry(open.level, cs[k].offset)], stack[..k] + [open])
      && View(s, o, bs, stack[..k] + [open]) == View(s, o, bs, stack)
  {
    var k := |cs| - 1;
    var ds, all := cs[..k] + [Entry(open.level, cs[k].offset)], stack[..k] + [open];
    forall i | 0 <= i < |ds|
      ensures ChoiceOver(s, bs, ds, all, i)
    {
      assert ChoiceOver(s, bs, cs, stack, i);
    }
    forall i | 0 <= i < |bs| - 1
      ensures BlockOver(s, bs, ds, all, i)
    {
      assert BlockOver(s, bs, cs, stack, i);
    }
    SameView(s, o, bs, stack, all);
  }

  lemma Tops(s: seq<Node>, o: nat, bs: seq<Entry>, cs: seq<Entry>, stack: seq<Open>)
    requires Frame(s, o, bs, cs, stack)
    ensures bs != [] && |cs| == |stack| && |cs| <= |bs| <= |cs| + 1 && o <= bs[|bs| - 1].offset <= |s|
    ensures bs[0] == Entry(0, o) && bs[|bs| - 1].level >= 0
    ensures cs != [] ==> cs[|cs| - 1].level == stack[|cs| - 1].level && o <= cs[|cs| - 1].offset <= |s|
    ensures |bs| == |cs| + 1 && cs != [] ==>
      bs[|bs| - 1].level == cs[|cs| - 1].level && cs[|cs| - 1].offset < bs[|bs| - 1].offset
    ensures |bs| == |cs| ==> bs[|bs| - 1].level < cs[|cs| - 1].level && bs[|bs| - 1].offset <= cs[|cs| - 1].offset
    ensures |bs| == |cs| > 1 ==> bs[|bs| - 1].level == cs[|cs| - 2].level
    ensures |cs| > 1 ==> cs[|cs| - 2].level == stack[|cs| - 2].level && cs[|cs| - 2].level < cs[|cs| - 1].level
  {
    Bounds(s, o, bs, cs, stack);
    if cs != [] {
      assert ChoiceOver(s, bs, cs, stack, |cs| - 1);
      OffsetsGrow(s, o, bs, cs, stack, 0, |cs| - 1);
    }
    if |cs| > 1 {
      assert ChoiceOver(s, bs, cs, stack, |cs| - 2);
      assert BlockOver(s, bs, cs, stack, |cs| - 2);
    }
    if |bs| == |cs| + 1 && cs != [] {
      assert BlockOver(s, bs, cs, stack, |cs| - 1);
    }
  }

  // ----- the shape of the unfinished tree -----

  ghost predicate Stmts(s: seq<Node>) {
    forall i | 0 <= i < |s| :: Proper(s[i])
  }

  ghost predicate Branches(s: seq<Node>) {
    forall i | 0 <= i < |s| :: ProperBranch(s[i])
  }

  // The nodes of an open block are statements, and those of an open choice are branches.  A choice that was
  // just closed can lie on top, but nothing may be put on it.
  ghost predicate Shapes(s: seq<Node>, bs: seq<Entry>, cs: seq<Entry>, closing: bool)
    decreases |bs| + |cs|
  {
    if |bs| == |cs| + 1 then
      var b := bs[|cs|].offset;
      && b <= |s| && (if closing then ProperStmts(s[b..]) else Stmts(s[b..]))
      && (cs != [] ==> Shapes(s[..b], bs[..|cs|], cs, false))
    else
      && |bs| == |cs| && cs != []
      && var (k, c) := (|cs| - 1, cs[|cs| - 1].offset);
      && c <= |s| && Branches(s[c..]) && Shapes(s[..c], bs, cs[..k], false)
  }

  lemma BlockOnTop(s: seq<Node>, bs: seq<Entry>, cs: seq<Entry>, closing: bool)
    requires |bs| == |cs| + 1
    ensures var b := bs[|cs|].offset;
      Shapes(s, bs, cs, closing) <==>
        && b <= |s| && (if closing then ProperStmts(s[b..]) else Stmts(s[b..]))
        && (cs != [] ==> Shapes(s[..b], bs[..|cs|], cs, false))
  {
  }

  lemma ChoiceOnTop(s: seq<Node>, bs: seq<Entry>, cs: seq<Entry>)
    requires |bs| == |cs| && cs != []
    ensures var (k, c) := (|cs| - 1, cs[|cs| - 1].offset);
      Shapes(s, bs, cs, false) <==> c <= |s| && Branches(s[c..]) && Shapes(s[..c], bs, cs[..k], false)
  {
  }

  // There is a block, or there is one block for each choice.
  lemma NeverBare(s: seq<Node>, bs: seq<Entry>, cs: seq<Entry>)
    requires Shapes(s, bs, cs, false)
    ensures |bs| == |cs| + 1 || (|bs| == |cs| && cs != [])
  {
  }

  // Nothing needs to be closed on top.
  lemma NoneOnTop(s: seq<Node>, bs: seq<Entry>, cs: seq<Entry>)
    ensures Shapes(s, bs, cs, false) ==> Shapes(s, bs, cs, true)
    ensures |bs| == |cs| && Shapes(s, bs, cs, true) ==> Shapes(s, bs, cs, false)
  {
  }

  lemma BaseShapes(s: seq<Node>)
    ensures Shapes(s, [Entry(0, |s|)], [], false)
  {
    assert s[|s|..] == [];
  }

  lemma OpenBlockShapes(s: seq<Node>, bs: seq<Entry>, cs: seq<Entry>, b: Entry)
    requires Shapes(s, bs, cs, false) && |bs| == |cs| && b.offset == |s|
    ensures Shapes(s, bs + [b], cs, false)
  {
    assert (bs + [b])[..|cs|] == bs && s[..|s|] == s && s[|s|..] == [];
  }

  lemma StmtsSnoc(s: seq<Node>, n: Node)
    requires Stmts(s) && Proper(n)
    ensures Stmts(s + [n])
  {
    hide Proper;
  }

  lemma BranchesSnoc(s: seq<Node>, n: Node)
    requires Branches(s) && ProperBranch(n)
    ensures Branches(s + [n])
  {
    hide ProperBranch;
  }

  lemma PushShapes(s: seq<Node>, bs: seq<Entry>, cs: seq<Entry>, n: Node)
    requires Shapes(s, bs, cs, false) && if |bs| == |cs| then ProperBranch(n) else Proper(n)
    ensures Shapes(s + [n], bs, cs, false)
  {
    hide Shapes, Proper, ProperBranch, Stmts, Branches;
    if |bs| == |cs| + 1 {
      BlockOnTop(s, bs, cs, false);
      BlockOnTop(s + [n], bs, cs, false);
      var b := bs[|cs|].offset;
      StmtsSnoc(s[b..], n);
      assert (s + [n])[b..] == s[b..] + [n] && (s + [n])[..b] == s[..b];
    } else {
      NeverBare(s, bs, cs);
      ChoiceOnTop(s, bs, cs);
      ChoiceOnTop(s + [n], bs, cs);
      var c := cs[|cs| - 1].offset;
      BranchesSnoc(s[c..], n);
      assert (s + [n])[c..] == s[c..] + [n] && (s + [n])[..c] == s[..c];
    }
  }

  lemma OpenChoiceShapes(s: seq<Node>, bs: seq<Entry>, cs: seq<Entry>, c: Entry)
    requires Shapes(s, bs, cs, false) && |bs| == |cs| + 1 && c.offset == |s|
    ensures Shapes(s, bs, cs + [c], false)
  {
    assert (cs + [c])[..|cs|] == cs && s[..|s|] == s && s[|s|..] == [];
  }

  // The closed block goes into the branch before it.
  lemma CloseBlockShapes(s: seq<Node>, bs: seq<Entry>, cs: seq<Entry>, id: nat)
    requires Shapes(s, bs, cs, true) && |bs| == |cs| + 1 && cs != []
    requires var b := bs[|cs|].offset; cs[|cs| - 1].offset < b < |s| && s[b - 1] == Branch(id, None)
    ensures var b := bs[|cs|].offset;
      Shapes(s[..b - 1] + [Branch(id, Some(Block(s[b..])))], bs[..|cs|], cs, false)
  {
    hide Shapes, ProperStmts, Stmts, ProperBranch, Branches;
    var (b, c) := (bs[|cs|].offset, cs[|cs| - 1].offset);
    var n := Branch(id, Some(Block(s[b..])));
    BlockOnTop(s, bs, cs, true);
    ChoiceOnTop(s[..b], bs[..|cs|], cs);
    BodyProper(id, s[b..]);
    NewLast(s, b, c, n);
    ChoiceOnTop(s[..b - 1] + [n], bs[..|cs|], cs);
  }

  lemma NewLast(s: seq<Node>, b: nat, c: nat, n: Node)
    requires c < b <= |s| && Branches(s[..b][c..]) && ProperBranch(n)
    ensures var t := s[..b - 1] + [n]; Branches(t[c..]) && t[..c] == s[..b][..c]
  {
    hide ProperBranch;
    var t := s[..b - 1] + [n];
    forall i | 0 <= i < |t[c..]|
      ensures ProperBranch(t[c..][i])
    {
      assert i < b - 1 - c ==> t[c..][i] == s[..b][c..][i];
    }
  }

  lemma BodyProper(id: nat, list: seq<Node>)
    requires ProperStmts(list) && list != []
    ensures ProperBranch(Branch(id, Some(Block(list))))
  {
  }

  // The closed choice becomes one node on top.
  lemma CloseChoiceShapes(s: seq<Node>, bs: seq<Entry>, cs: seq<Entry>)
    requires Shapes(s, bs, cs, false) && |bs| == |cs| && cs[|cs| - 1].offset < |s|
    requires bs[|cs| - 1].offset <= cs[|cs| - 1].offset
    ensures var (k, c) := (|cs| - 1, cs[|cs| - 1].offset);
      Shapes(s[..c] + [ChoiceList(s[c..])], bs, cs[..k], true)
  {
    var (k, c) := (|cs| - 1, cs[|cs| - 1].offset);
    var b, n := bs[k].offset, ChoiceList(s[c..]);
    var t := s[..c] + [n];
    assert t[b..] == s[..c][b..] + [n] && t[..b] == s[..c][..b];
  }

  // It is taken back.
  lemma PopShapes(s: seq<Node>, bs: seq<Entry>, cs: seq<Entry>)
    requires Shapes(s, bs, cs, true) && |bs| == |cs| + 1 && bs[|cs|].offset < |s| && s[|s| - 1].ChoiceList?
    ensures Shapes(s[..|s| - 1], bs, cs, false) && ProperChoice(s[|s| - 1])
  {
    var b, t := bs[|cs|].offset, s[..|s| - 1];
    assert s[b..] == t[b..] + [s[|s| - 1]] && t[..b] == s[..b];
  }

  lemma RelevelShapes(s: seq<Node>, bs: seq<Entry>, cs: seq<Entry>, c: Entry)
    requires Shapes(s, bs, cs, false) && |bs| == |cs| && c.offset == cs[|cs| - 1].offset
    ensures Shapes(s, bs, cs[..|cs| - 1] + [c], false)
  {
    assert (cs[..|cs| - 1] + [c])[..|cs| - 1] == cs[..|cs| - 1];
  }

  // ----- the parser -----

  // What a nested statement context remembers of the stacks it started on.
  class Context {
    const scratchTop: nat
    const blocksTop: nat
    const choicesTop: nat
    var isBlockCreated: bool

    constructor (scratchTop: nat, blocksTop: nat, choicesTop: nat)
      ensures this.scratchTop == scratchTop && this.blocksTop == blocksTop && this.choicesTop == choicesTop
        && !isBlockCreated
    {
      this.scratchTop, this.blocksTop, this.choicesTop := scratchTop, blocksTop, choicesTop;
      isBlockCreated := false;
    }
  }

  predicate TakesBody(n: Node) { n.Branch? || n.Case? }

  function WithBody(n: Node, body: Node): Node
    requires TakesBody(n)
  {
    n.(body := Some(body))
  }

  // Whether a block that starts at b belongs to the node before it.
  predicate Attaches(s: seq<Node>, top: nat, b: nat) {
    top < b <= |s| && TakesBody(s[b - 1])
  }

  class Parser {
    var scratch: seq<Node>
    var openBlocks: seq<Entry>
    var openChoices: seq<Entry>

    constructor ()
      ensures scratch == [] && openBlocks == [] && openChoices == []
    {
      scratch, openBlocks, openChoices := [], [], [];
    }

    ghost predicate Above(ctx: Context)
      reads this
    {
      ctx.scratchTop <= |scratch| && ctx.blocksTop <= |openBlocks| && ctx.choicesTop <= |openChoices|
    }

    ghost function Bs(ctx: Context): seq<Entry>
      requires ctx.blocksTop <= |openBlocks|
      reads `openBlocks
    {
      openBlocks[ctx.blocksTop..]
    }

    ghost function Cs(ctx: Context): seq<Entry>
      requires ctx.choicesTop <= |openChoices|
      reads `openChoices
    {
      openChoices[ctx.choicesTop..]
    }

    // Attach a block to the branch on top of the scratch stack, if there is one in this context.
    method FixupBlock(ctx: Context, n: Node) returns (r: Node)
      requires ctx.scratchTop <= |scratch|
      modifies `scratch, ctx`isBlockCreated
      ensures if Attaches(old(scratch), ctx.scratchTop, |old(scratch)|) then
                && scratch == old(scratch)[..|old(scratch)| - 1] && r == WithBody(old(scratch)[|old(scratch)| - 1], n)
                && ctx.isBlockCreated == old(ctx.isBlockCreated)
              else scratch == old(scratch) && r == n && ctx.isBlockCreated
    {
      if ctx.scratchTop != |scratch| {
        var stmt := scratch[|scratch| - 1];
        if TakesBody(stmt) {
          scratch := scratch[..|scratch| - 1];
          return WithBody(stmt, n);
        }
      }
      ctx.isBlockCreated := true;
      return n;
    }

    // Close the innermost block if its level is at least the given one.
    method CollectBlock(ctx: Context, level: nat) returns (n: Option<Node>)
      requires Above(ctx) && (Bs(ctx) != [] ==> ctx.scratchTop <= openBlocks[|openBlocks| - 1].offset < |scratch|)
      modifies `scratch, `openBlocks, ctx`isBlockCreated
      ensures old(Bs(ctx)) == [] || old(openBlocks)[|old(openBlocks)| - 1].level < level ==>
        && n == None && scratch == old(scratch) && openBlocks == old(openBlocks)
        && ctx.isBlockCreated == old(ctx.isBlockCreated)
      ensures old(Bs(ctx)) != [] && old(openBlocks)[|old(openBlocks)| - 1].level >= level ==>
        var (k, b, s) := (|old(openBlocks)| - 1, old(openBlocks)[|old(openBlocks)| - 1].offset, old(scratch));
        && openBlocks == old(openBlocks)[..k]
        && if Attaches(s, ctx.scratchTop, b) then
             && n == Some(WithBody(s[b - 1], Block(s[b..]))) && scratch == s[..b - 1]
             && ctx.isBlockCreated == old(ctx.isBlockCreated)
           else n == Some(Block(s[b..])) && scratch == s[..b] && ctx.isBlockCreated
    {
      n := None;
      if ctx.blocksTop != |openBlocks| {
        var b := openBlocks[|openBlocks| - 1];
        if b.level >= level {
          var list := scratch[b.offset..];
          scratch := scratch[..b.offset];
          var r := FixupBlock(ctx, Block(list));
          n := Some(r);
          openBlocks := openBlocks[..|openBlocks| - 1];
        }
      }
    }

    method Push(n: Option<Node>)
      modifies `scratch
      ensures scratch == old(scratch) + Opt(n)
    {
      if n.Some? {
        scratch := scratch + [n.value];
      }
    }

    // The state of a context whose base block starts at o.
    ghost predicate State(ctx: Context, o: nat, stack: seq<Open>, places: seq<Place>)
      reads this
    {
      && Above(ctx) && ctx.scratchTop <= o && Inv(scratch, o, Bs(ctx), Cs(ctx), stack, places)
      && Shapes(scratch, Bs(ctx), Cs(ctx), true)
    }

    // No closed choice lies on top.
    ghost predicate Tidy(ctx: Context)
      requires Above(ctx)
      reads this
    {
      Shapes(scratch, Bs(ctx), Cs(ctx), false)
    }

    // Nothing below the context changed.
    twostate predicate Framed(ctx: Context, o: nat)
      reads this
    {
      && old(Above(ctx)) && Above(ctx) && o <= |scratch| && o <= |old(scratch)| && scratch[..o] == old(scratch)[..o]
      && openBlocks[..ctx.blocksTop] == old(openBlocks)[..ctx.blocksTop]
      && openChoices[..ctx.choicesTop] == old(openChoices)[..ctx.choicesTop]
    }

    // Close the block of the innermost choice, if it has one.
    method CollectBranch(ctx: Context, level: nat, ghost o: nat, ghost stack: seq<Open>, ghost places: seq<Place>)
      requires State(ctx, o, stack, places) && stack != [] && level == stack[|stack| - 1].level
      modifies `scratch, `openBlocks, ctx`isBlockCreated
      ensures Above(ctx) && Frame(scratch, o, Bs(ctx), Cs(ctx), stack) && View(scratch, o, Bs(ctx), stack) == places
      ensures |Bs(ctx)| == |Cs(ctx)| && Cs(ctx)[|Cs(ctx)| - 1].offset < |scratch| && Framed(ctx, o) && Tidy(ctx)
      ensures ctx.isBlockCreated == old(ctx.isBlockCreated)
    {
      hide Shapes, View, Frame;
      ghost var bs, cs := Bs(ctx), Cs(ctx);
      Tops(scratch, o, bs, cs, stack);
      NoneOnTop(scratch, bs, cs);
      if |bs| == |cs| + 1 {
        CloseBlock(scratch, o, bs, cs, stack, places);
        CloseBlockShapes(scratch, bs, cs, stack[|cs| - 1].id);
      }
      var n := CollectBlock(ctx, level);
      Push(n);
      if |bs| == |cs| + 1 {
        ghost var b := bs[|bs| - 1].offset;
        assert Bs(ctx) == bs[..|cs|];
        assert scratch == old(scratch)[..b - 1] + [Branch(stack[|cs| - 1].id, Some(Block(old(scratch)[b..])))];
      } else {
        assert scratch == old(scratch) && Bs(ctx) == bs;
      }
    }

    // Make one node of the innermost choice.
    method CollectChoice(ctx: Context, c: Entry, ghost o: nat, ghost stack: seq<Open>, ghost places: seq<Place>)
      requires Above(ctx) && ctx.scratchTop <= o && stack != [] && c.offset < |scratch|
      requires Frame(scratch, o, Bs(ctx), Cs(ctx) + [c], stack) && View(scratch, o, Bs(ctx), stack) == places
        && |Bs(ctx)| == |Cs(ctx)| + 1 && Shapes(scratch, Bs(ctx), Cs(ctx) + [c], false)
      modifies `scratch
      ensures State(ctx, o, stack[..|stack| - 1], places) && scratch[|scratch| - 1].ChoiceList? && Framed(ctx, o)
    {
      hide Shapes, View, Frame;
      ghost var cs := Cs(ctx) + [c];
      Tops(scratch, o, Bs(ctx), cs, stack);
      CloseChoice(scratch, o, Bs(ctx), cs, stack, places);
      CloseChoiceShapes(scratch, Bs(ctx), cs);
      assert cs[..|cs| - 1] == Cs(ctx);
      var list := scratch[c.offset..];
      scratch := scratch[..c.offset];
      Push(Some(ChoiceList(list)));
    }

    // Close choices while their level is above the given one.  Without gathering, the last one that is
    // closed may go on at the given level.
    method CollectContext(ctx: Context, level: nat, shouldGather: bool, ghost o: nat, ghost stack: seq<Open>,
            ghost places: seq<Place>, ghost open: Open)
      returns (n: Option<Node>, ghost list: seq<Node>)
      requires State(ctx, o, stack, places)
      requires shouldGather || level > 0 ==> stack != [] && stack[|stack| - 1].level > level
      requires !shouldGather && level > 0 ==> open.level == level
      modifies `scratch, `openBlocks, `openChoices, ctx`isBlockCreated
      ensures Above(ctx) && Framed(ctx, if shouldGather || level > 0 then o
        else if Attaches(old(scratch), ctx.scratchTop, o) then o - 1 else o)
      ensures shouldGather || level > 0 ==> ctx.isBlockCreated == old(ctx.isBlockCreated)
      ensures shouldGather ==>
        && n.Some? && ProperChoice(n.value) && |Bs(ctx)| == |Cs(ctx)| + 1 && Tidy(ctx)
        && Frame(scratch, o, Bs(ctx), Cs(ctx), Closed(stack, level + 1))
        && var left := Closed(stack, level + 1);
           View(scratch, o, Bs(ctx), left) + Places(n.value, Ids(left)) == places
      ensures !shouldGather && level > 0 ==>
        var (t, all) := (scratch + Opt(n), Closed(stack, level) + [open]);
        && Frame(t, o, Bs(ctx), Cs(ctx), all) && View(t, o, Bs(ctx), all) == places && |Bs(ctx)| == |Cs(ctx)|
        && Shapes(t, Bs(ctx), Cs(ctx), false)
      ensures !shouldGather && level == 0 ==>
        && Bs(ctx) == [] && Cs(ctx) == [] && Whole(list, []) == places && ProperBlock(Block(list))
        && if Attaches(old(scratch), ctx.scratchTop, o) then
             && n == Some(WithBody(old(scratch)[o - 1], Block(list))) && scratch == old(scratch)[..o - 1]
             && ctx.isBlockCreated == old(ctx.isBlockCreated)
           else n == Some(Block(list)) && scratch == old(scratch)[..o] && ctx.isBlockCreated
    {
      hide Shapes, View, Frame, Closed;
      list := [];
      var releveled;
      ghost var stk;
      releveled, stk := CollectInner(ctx, level, shouldGather, o, stack, places, open);
      if shouldGather {
        Tops(scratch, o, Bs(ctx), Cs(ctx), stk);
        n := PopChoice(ctx, o, stk, places);
        LastClosed(stack, stk, level);
      } else if level > 0 {
        if !releveled { Tops(scratch, o, Bs(ctx), Cs(ctx), stk); }
        ClosedOnce(stk, level);
        LastClosed(stack, stk[..|stk| - 1], level - 1);
        n := CollectOpen(ctx, level, o, stk, places, open, releveled);
      } else {
        Tops(scratch, o, Bs(ctx), Cs(ctx), stk);
        assert stk == [];
        n, list := CollectBase(ctx, o, places);
      }
    }

    // The choices above the level, innermost first, up to one that goes on at the new level.
    method CollectInner(ctx: Context, level: nat, shouldGather: bool, ghost o: nat, ghost stack: seq<Open>,
            ghost places: seq<Place>, ghost open: Open)
      returns (releveled: bool, ghost stk: seq<Open>)
      requires State(ctx, o, stack, places)
      requires shouldGather || level > 0 ==> stack != [] && stack[|stack| - 1].level > level
      requires !shouldGather && level > 0 ==> open.level == level
      modifies `scratch, `openBlocks, `openChoices, ctx`isBlockCreated
      ensures Above(ctx) && Framed(ctx, o) && ctx.isBlockCreated == old(ctx.isBlockCreated)
      ensures !shouldGather && level > 0 ==>
        stk != [] && stk[|stk| - 1].level >= level && Closed(stack, level) == Closed(stk, level)
      ensures releveled ==> !shouldGather && level > 0 && GoesOn(ctx, o, stk, places, open)
      ensures shouldGather ==> Closed(stack, level + 1) == Closed(stk, level + 1)
      ensures !releveled ==>
        && State(ctx, o, stk, places)
        && (ctx.choicesTop == |openChoices| || openChoices[|openChoices| - 1].level <= level)
        && (|stk| < |stack| ==> |Bs(ctx)| == |Cs(ctx)| + 1 && scratch[|scratch| - 1].ChoiceList?)
        && |stk| <= |stack| && (|stk| == |stack| ==> stk == stack)
    {
      hide Shapes, View, Frame, Closed, GoesOn;
      stk := stack;
      releveled := false;
      Tops(scratch, o, Bs(ctx), Cs(ctx), stack);
      while ctx.choicesTop != |openChoices|
        invariant State(ctx, o, stk, places) && Framed(ctx, o)
        invariant ctx.isBlockCreated == old(ctx.isBlockCreated) && !releveled
        invariant !shouldGather && level > 0 ==>
          stk != [] && stk[|stk| - 1].level >= level && Closed(stack, level) == Closed(stk, level)
        invariant shouldGather ==> Closed(stack, level + 1) == Closed(stk, level + 1)
        invariant |stk| < |stack| ==> |Bs(ctx)| == |Cs(ctx)| + 1 && scratch[|scratch| - 1].ChoiceList?
        invariant |stk| <= |stack| && (|stk| == |stack| ==> stk == stack)
        decreases |openChoices|
      {
        Tops(scratch, o, Bs(ctx), Cs(ctx), stk);
        var c := openChoices[|openChoices| - 1];
        if c.level <= level {
          break;
        }
        ClosedOnce(stk, if shouldGather then level + 1 else level);
        releveled := CollectOne(ctx, c, level, shouldGather, o, stk, places, open);
        if releveled {
          break;
        }
        stk := stk[..|stk| - 1];
      }
    }

    // Close the innermost choice, or let it go on at the given level.
    method CollectOne(ctx: Context, c: Entry, level: nat, shouldGather: bool, ghost o: nat, ghost stk: seq<Open>,
            ghost places: seq<Place>, ghost open: Open)
      returns (releveled: bool)
      requires State(ctx, o, stk, places) && stk != [] && Cs(ctx) != [] && c == openChoices[|openChoices| - 1]
        && c.level > level
      requires !shouldGather && level > 0 ==> open.level == level
      modifies `scratch, `openBlocks, `openChoices, ctx`isBlockCreated
      ensures Above(ctx) && Framed(ctx, o) && ctx.isBlockCreated == old(ctx.isBlockCreated)
      ensures releveled ==> !shouldGather && level > 0 && GoesOn(ctx, o, stk, places, open)
      ensures !releveled ==>
        && Gone(ctx, o, stk, places) && |openChoices| < |old(openChoices)|
        && (!shouldGather && level > 0 ==> |stk| > 1 && stk[|stk| - 2].level >= level)
    {
      Tops(scratch, o, Bs(ctx), Cs(ctx), stk);
      hide Shapes, View, Frame, Inv, Full, GoesOn, Gone;
      CollectBranch(ctx, c.level, o, stk, places);
      releveled := GoOnOrClose(ctx, c, level, shouldGather, o, stk, places, open);
    }

    // The innermost choice has a new branch, at another level.
    ghost predicate GoesOn(ctx: Context, o: nat, stk: seq<Open>, places: seq<Place>, open: Open)
      requires Above(ctx) && stk != []
      reads this
    {
      var all := stk[..|stk| - 1] + [open];
      && |Bs(ctx)| == |Cs(ctx)| && Frame(scratch, o, Bs(ctx), Cs(ctx), all) && View(scratch, o, Bs(ctx), all) == places
      && (|stk| > 1 ==> stk[|stk| - 2].level < open.level) && Bs(ctx)[|Bs(ctx)| - 1].offset < |scratch| && Tidy(ctx)
    }

    // The innermost choice is closed.
    ghost predicate Gone(ctx: Context, o: nat, stk: seq<Open>, places: seq<Place>)
      requires Above(ctx) && stk != []
      reads this
    {
      State(ctx, o, stk[..|stk| - 1], places) && |Bs(ctx)| == |Cs(ctx)| + 1 && scratch[|scratch| - 1].ChoiceList?
    }

    method GoOnOrClose(ctx: Context, c: Entry, level: nat, shouldGather: bool, ghost o: nat, ghost stk: seq<Open>,
            ghost places: seq<Place>, ghost open: Open)
      returns (releveled: bool)
      requires Above(ctx) && ctx.scratchTop <= o && stk != [] && Frame(scratch, o, Bs(ctx), Cs(ctx), stk)
        && View(scratch, o, Bs(ctx), stk) == places
      requires |Bs(ctx)| == |Cs(ctx)| && Cs(ctx)[|Cs(ctx)| - 1].offset < |scratch| && Tidy(ctx)
      requires c == openChoices[|openChoices| - 1] && c.level > level
      requires !shouldGather && level > 0 ==> open.level == level
      modifies `scratch, `openChoices
      ensures Above(ctx) && Framed(ctx, o)
      ensures releveled ==> !shouldGather && level > 0 && GoesOn(ctx, o, stk, places, open)
      ensures !releveled ==>
        && Gone(ctx, o, stk, places) && |openChoices| < |old(openChoices)|
        && (!shouldGather && level > 0 ==> |stk| > 1 && stk[|stk| - 2].level >= level)
    {
      Tops(scratch, o, Bs(ctx), Cs(ctx), stk);
      hide Shapes, View, Frame, Inv, Full, GoesOn, Gone, State, Framed;
      releveled := !shouldGather
        && if ctx.choicesTop != |openChoices| - 1 then level > openChoices[|openChoices| - 2].level else level > 0;
      if releveled {
        GoOn(ctx, c, level, o, stk, places, open);
      } else {
        Close(ctx, c, o, stk, places);
      }
    }

    method GoOn(ctx: Context, c: Entry, level: nat, ghost o: nat, ghost stk: seq<Open>, ghost places: seq<Place>,
            ghost open: Open)
      requires Above(ctx) && stk != [] && Frame(scratch, o, Bs(ctx), Cs(ctx), stk)
        && View(scratch, o, Bs(ctx), stk) == places
      requires |Bs(ctx)| == |Cs(ctx)| && Cs(ctx)[|Cs(ctx)| - 1].offset < |scratch| && Tidy(ctx)
      requires c == openChoices[|openChoices| - 1] && open.level == level && Bs(ctx)[|Bs(ctx)| - 1].level < level
      requires o <= |scratch| && (|stk| > 1 ==> stk[|stk| - 2].level < level)
      modifies `openChoices
      ensures Above(ctx) && Framed(ctx, o) && GoesOn(ctx, o, stk, places, open)
    {
      Tops(scratch, o, Bs(ctx), Cs(ctx), stk);
      hide Shapes, View, Frame, Inv, Full;
      LastOff(openChoices, ctx.choicesTop);
      openChoices := openChoices[..|openChoices| - 1];
      Continue(ctx, c, level, o, stk, open);
    }

    method Close(ctx: Context, c: Entry, ghost o: nat, ghost stk: seq<Open>, ghost places: seq<Place>)
      requires Above(ctx) && ctx.scratchTop <= o && stk != [] && Frame(scratch, o, Bs(ctx), Cs(ctx), stk)
        && View(scratch, o, Bs(ctx), stk) == places
      requires |Bs(ctx)| == |Cs(ctx)| && Cs(ctx)[|Cs(ctx)| - 1].offset < |scratch| && Tidy(ctx)
      requires c == openChoices[|openChoices| - 1]
      modifies `scratch, `openChoices
      ensures Above(ctx) && Framed(ctx, o) && Gone(ctx, o, stk, places) && |openChoices| < |old(openChoices)|
    {
      Tops(scratch, o, Bs(ctx), Cs(ctx), stk);
      hide Shapes, View, Frame, Inv, Full;
      LastOff(openChoices, ctx.choicesTop);
      openChoices := openChoices[..|openChoices| - 1];
      CollectChoice(ctx, c, o, stk, places);
    }

    method Continue(ctx: Context, c: Entry, level: nat, ghost o: nat, ghost stk: seq<Open>, ghost open: Open)
      requires Above(ctx) && stk != [] && open.level == level
      requires Frame(scratch, o, Bs(ctx), Cs(ctx) + [c], stk) && |Bs(ctx)| == |Cs(ctx)| + 1
        && Bs(ctx)[|Bs(ctx)| - 1].level < level && Shapes(scratch, Bs(ctx), Cs(ctx) + [c], false)
      modifies `openChoices
      ensures openChoices == old(openChoices) + [Entry(level, c.offset)] && |Bs(ctx)| == |Cs(ctx)|
      ensures Frame(scratch, o, Bs(ctx), Cs(ctx), stk[..|stk| - 1] + [open])
      ensures View(scratch, o, Bs(ctx), stk[..|stk| - 1] + [open]) == View(scratch, o, Bs(ctx), stk) && Tidy(ctx)
    {
      ghost var cs := Cs(ctx) + [c];
      Relevel(scratch, o, Bs(ctx), cs, stk, open);
      RelevelShapes(scratch, Bs(ctx), cs, Entry(level, c.offset));
      openChoices := openChoices + [Entry(level, c.offset)];
      assert cs[..|cs| - 1] + [Entry(level, c.offset)] == Cs(ctx);
    }

    // The innermost choice goes on at this level: its last branch gets its block.
    method CollectOpen(ctx: Context, level: nat, ghost o: nat, ghost stk: seq<Open>, ghost places: seq<Place>,
            ghost open: Open, ghost releveled: bool)
      returns (n: Option<Node>)
      requires stk != [] && open.level == level && Above(ctx) && ctx.scratchTop <= o
      requires !releveled ==> State(ctx, o, stk, places) && |Bs(ctx)| == |Cs(ctx)| + 1 && stk[|stk| - 1].level == level
      requires releveled ==>
        && |Bs(ctx)| == |Cs(ctx)| && Frame(scratch, o, Bs(ctx), Cs(ctx), stk[..|stk| - 1] + [open])
        && View(scratch, o, Bs(ctx), stk[..|stk| - 1] + [open]) == places
        && Bs(ctx)[|Bs(ctx)| - 1].offset < |scratch| && Tidy(ctx)
      modifies `scratch, `openBlocks, ctx`isBlockCreated
      ensures Above(ctx) && Framed(ctx, o) && ctx.isBlockCreated == old(ctx.isBlockCreated)
      ensures var (t, all) := (scratch + Opt(n), stk[..|stk| - 1] + [open]);
        && Frame(t, o, Bs(ctx), Cs(ctx), all) && View(t, o, Bs(ctx), all) == places && |Bs(ctx)| == |Cs(ctx)|
        && Shapes(t, Bs(ctx), Cs(ctx), false)
    {
      hide Shapes, View, Frame;
      ghost var bs, cs, s := Bs(ctx), Cs(ctx), scratch;
      if releveled {
        Tops(s, o, bs, cs, stk[..|stk| - 1] + [open]);
      } else {
        Tops(s, o, bs, cs, stk);
        CloseBlock(s, o, bs, cs, stk, places);
        CloseBlockShapes(s, bs, cs, stk[|cs| - 1].id);
      }
      n := CollectBlock(ctx, level);
      if releveled {
        assert scratch + Opt(n) == s;
      } else {
        ghost var b := bs[|bs| - 1].offset;
        assert Bs(ctx) == bs[..|cs|];
        assert scratch + Opt(n) == s[..b - 1] + [Branch(stk[|cs| - 1].id, Some(Block(s[b..])))];
        Tops(scratch + Opt(n), o, Bs(ctx), cs, stk);
        Relevel(scratch + Opt(n), o, Bs(ctx), cs, stk, open);
        assert cs[..|cs| - 1] + [Entry(open.level, cs[|cs| - 1].offset)] == cs;
      }
    }

    // The choice that was just closed, taken back from the scratch stack.
    method PopChoice(ctx: Context, ghost o: nat, ghost stack: seq<Open>,
            ghost places: seq<Place>) returns (n: Option<Node>)
      requires State(ctx, o, stack, places) && |Bs(ctx)| == |Cs(ctx)| + 1 && scratch[|scratch| - 1].ChoiceList?
      modifies `scratch
      ensures n.Some? && old(scratch) == scratch + [n.value] && Framed(ctx, o) && o <= |scratch|
      ensures Frame(scratch, o, Bs(ctx), Cs(ctx), stack)
        && View(scratch, o, Bs(ctx), stack) + Places(n.value, Ids(stack)) == places
      ensures Tidy(ctx) && ProperChoice(n.value)
    {
      hide Shapes;
      ghost var s := scratch;
      PopShapes(scratch, Bs(ctx), Cs(ctx));
      n := Some(scratch[|scratch| - 1]);
      scratch := scratch[..|scratch| - 1];
      assert s == scratch + [n.value];
      Tops(s, o, Bs(ctx), Cs(ctx), stack);
      hide Shapes, View, Frame;
      FrameKept(s, scratch, o, Bs(ctx), Cs(ctx), stack, |scratch|);
      PushNode(scratch, o, Bs(ctx), Cs(ctx), stack, n.value);
    }

    // The base block of the context, closed.
    method CollectBase(ctx: Context, ghost o: nat, ghost places: seq<Place>) returns (n: Option<Node>,
            ghost list: seq<Node>)
      requires State(ctx, o, [], places)
      modifies `scratch, `openBlocks, ctx`isBlockCreated
      ensures Above(ctx) && Bs(ctx) == [] && Cs(ctx) == old(Cs(ctx)) && Whole(list, []) == places
        && ProperBlock(Block(list))
      ensures openBlocks[..ctx.blocksTop] == old(openBlocks)[..ctx.blocksTop] && |old(scratch)| > o
      ensures if Attaches(old(scratch), ctx.scratchTop, o) then
                && n == Some(WithBody(old(scratch)[o - 1], Block(list))) && scratch == old(scratch)[..o - 1]
                && ctx.isBlockCreated == old(ctx.isBlockCreated)
              else n == Some(Block(list)) && scratch == old(scratch)[..o] && ctx.isBlockCreated
    {
      list := scratch[o..];
      assert Offs(Bs(ctx)) == [] && |Bs(ctx)| == 1;
      n := CollectBlock(ctx, 0);
    }

    // ----- one line -----

    // The state of a context whose next or current base block starts at o.
    ghost predicate Ready(ctx: Context, o: nat, stack: seq<Open>, places: seq<Place>)
      reads this
    {
      && Above(ctx)
      && if Bs(ctx) == [] then Cs(ctx) == [] && stack == [] && places == [] && ctx.scratchTop <= o == |scratch|
         else State(ctx, o, stack, places) && Tidy(ctx)
    }

    // Every line lies in a base block.
    method OpenBase(ctx: Context, ghost o: nat, ghost stack: seq<Open>, ghost places: seq<Place>)
      requires Ready(ctx, o, stack, places)
      modifies `openBlocks
      ensures Above(ctx) && ctx.scratchTop <= o && Frame(scratch, o, Bs(ctx), Cs(ctx), stack)
        && View(scratch, o, Bs(ctx), stack) == places
      ensures stack != [] ==> State(ctx, o, stack, places)
      ensures stack == [] ==> |Bs(ctx)| == 1
      ensures Framed(ctx, o) && Tidy(ctx)
    {
      hide Shapes;
      if ctx.blocksTop == |openBlocks| {
        openBlocks := openBlocks + [Entry(0, |scratch|)];
        assert Bs(ctx) == [Entry(0, o)];
        assert scratch[o..] == [];
        BaseShapes(scratch);
      } else {
        Tops(scratch, o, Bs(ctx), Cs(ctx), stack);
      }
    }

    // A block for the innermost choice, if it has none.
    method OpenInner(ctx: Context, ghost o: nat, ghost stack: seq<Open>, ghost places: seq<Place>)
      requires State(ctx, o, stack, places) && stack != [] && Tidy(ctx)
      modifies `openBlocks
      ensures Above(ctx) && Frame(scratch, o, Bs(ctx), Cs(ctx), stack) && View(scratch, o, Bs(ctx), stack) == places
      ensures |Bs(ctx)| == |Cs(ctx)| + 1 && Framed(ctx, o) && Tidy(ctx)
    {
      hide Shapes, View, Frame;
      ghost var bs := Bs(ctx);
      Tops(scratch, o, bs, Cs(ctx), stack);
      var b, c := openBlocks[|openBlocks| - 1], openChoices[|openChoices| - 1];
      if b.level != c.level {
        OpenBlock(scratch, o, bs, Cs(ctx), stack, places);
        OpenBlockShapes(scratch, bs, Cs(ctx), Entry(c.level, |scratch|));
        openBlocks := openBlocks + [Entry(c.level, |scratch|)];
        assert Bs(ctx) == bs + [Entry(c.level, |scratch|)];
      }
    }

    method HandleContent(ctx: Context, ghost o: nat, ghost stack: seq<Open>, ghost places: seq<Place>)
      requires Ready(ctx, o, stack, places)
      modifies `openBlocks
      ensures Above(ctx) && ctx.scratchTop <= o && Frame(scratch, o, Bs(ctx), Cs(ctx), stack)
        && View(scratch, o, Bs(ctx), stack) == places
      ensures |Bs(ctx)| == |Cs(ctx)| + 1 && Framed(ctx, o) && Tidy(ctx)
    {
      hide Shapes, View, Frame;
      OpenBase(ctx, o, stack, places);
      Tops(scratch, o, Bs(ctx), Cs(ctx), stack);
      if ctx.choicesTop != |openChoices| {
        OpenInner(ctx, o, stack, places);
      }
    }

    method HandleChoiceBranch(ctx: Context, level: pos, ghost o: nat, ghost stack: seq<Open>,
            ghost places: seq<Place>, ghost open: Open)
      requires Ready(ctx, o, stack, places) && open.level == level
      modifies `scratch, `openBlocks, `openChoices, ctx`isBlockCreated
      ensures Above(ctx) && ctx.scratchTop <= o && Framed(ctx, o) && ctx.isBlockCreated == old(ctx.isBlockCreated)
      ensures var all := Closed(stack, level) + [open];
        Frame(scratch, o, Bs(ctx), Cs(ctx), all) && View(scratch, o, Bs(ctx), all) == places && |Bs(ctx)| == |Cs(ctx)|
      ensures Tidy(ctx)
    {
      hide Shapes, View, Frame, Closed;
      OpenBase(ctx, o, stack, places);
      Tops(scratch, o, Bs(ctx), Cs(ctx), stack);
      if ctx.choicesTop == |openChoices| {
        NothingClosed(stack, level);
        BeginChoice(ctx, level, o, stack, open);
      } else {
        var c := openChoices[|openChoices| - 1];
        ClosedOnce(stack, level);
        if level > c.level {
          OpenInner(ctx, o, stack, places);
          Tops(scratch, o, Bs(ctx), Cs(ctx), stack);
          BeginChoice(ctx, level, o, stack, open);
        } else if level == c.level {
          LevelsFall(scratch, o, Bs(ctx), Cs(ctx), stack);
          NothingClosed(stack[..|stack| - 1], level);
          NextBranch(ctx, level, o, stack, places, open);
        } else {
          var n;
          ghost var list;
          n, list := CollectContext(ctx, level, false, o, stack, places, open);
          Push(n);
        }
      }
    }

    method BeginChoice(ctx: Context, level: pos, ghost o: nat, ghost stack: seq<Open>, ghost open: Open)
      requires Above(ctx) && Frame(scratch, o, Bs(ctx), Cs(ctx), stack) && |Bs(ctx)| == |Cs(ctx)| + 1
      requires Bs(ctx)[|Bs(ctx)| - 1].level < level == open.level && Tidy(ctx)
      modifies `openChoices
      ensures Above(ctx) && Frame(scratch, o, Bs(ctx), Cs(ctx), stack + [open]) && |Bs(ctx)| == |Cs(ctx)| && Tidy(ctx)
      ensures View(scratch, o, Bs(ctx), stack + [open]) == View(scratch, o, Bs(ctx), stack)
      ensures openChoices[..ctx.choicesTop] == old(openChoices)[..ctx.choicesTop]
    {
      hide Shapes, View, Frame;
      ghost var cs := Cs(ctx);
      OpenChoice(scratch, o, Bs(ctx), cs, stack, open);
      OpenChoiceShapes(scratch, Bs(ctx), cs, Entry(level, |scratch|));
      openChoices := openChoices + [Entry(level, |scratch|)];
      assert Cs(ctx) == cs + [Entry(level, |scratch|)];
    }

    // Another branch of the innermost choice.
    method NextBranch(ctx: Context, level: pos, ghost o: nat, ghost stack: seq<Open>, ghost places: seq<Place>,
            ghost open: Open)
      requires State(ctx, o, stack, places) && stack != [] && stack[|stack| - 1].level == level == open.level
      modifies `scratch, `openBlocks, ctx`isBlockCreated
      ensures Above(ctx) && Framed(ctx, o) && ctx.isBlockCreated == old(ctx.isBlockCreated) && |Bs(ctx)| == |Cs(ctx)|
      ensures var all := stack[..|stack| - 1] + [open];
        Frame(scratch, o, Bs(ctx), Cs(ctx), all) && View(scratch, o, Bs(ctx), all) == places && Tidy(ctx)
    {
      hide Shapes, View, Frame;
      CollectBranch(ctx, level, o, stack, places);
      ghost var cs := Cs(ctx);
      Tops(scratch, o, Bs(ctx), cs, stack);
      Relevel(scratch, o, Bs(ctx), cs, stack, open);
      assert cs[..|cs| - 1] + [Entry(open.level, cs[|cs| - 1].offset)] == cs;
    }

    // A gather closes the choices of its level and above, and goes behind them.
    method HandleGather(ctx: Context, level: pos, n: Node, ghost o: nat, ghost stack: seq<Open>,
            ghost places: seq<Place>) returns (r: Node)
      requires Ready(ctx, o, stack, places) && n.GatherPoint?
      modifies `scratch, `openBlocks, `openChoices, ctx`isBlockCreated
      ensures Above(ctx) && ctx.scratchTop <= o && Framed(ctx, o) && ctx.isBlockCreated == old(ctx.isBlockCreated)
      ensures Tidy(ctx) && Proper(r)
      ensures var left := Closed(stack, level);
        && Frame(scratch, o, Bs(ctx), Cs(ctx), left) && |Bs(ctx)| == |Cs(ctx)| + 1
        && View(scratch, o, Bs(ctx), left) + Places(r, Ids(left)) == places + Places(n, Ids(left))
    {
      hide Shapes, View, Frame, Closed, Places;
      r := n;
      OpenBase(ctx, o, stack, places);
      Tops(scratch, o, Bs(ctx), Cs(ctx), stack);
      NothingClosed(stack, level);
      if ctx.choicesTop != |openChoices| {
        var c := openChoices[|openChoices| - 1];
        if level > c.level {
          OpenInner(ctx, o, stack, places);
        } else {
          r := GatherChoices(ctx, level, n, o, stack, places);
        }
      }
    }

    method GatherChoices(ctx: Context, level: pos, n: Node, ghost o: nat, ghost stack: seq<Open>,
            ghost places: seq<Place>) returns (r: Node)
      requires State(ctx, o, stack, places) && stack != [] && stack[|stack| - 1].level >= level && n.GatherPoint?
      modifies `scratch, `openBlocks, `openChoices, ctx`isBlockCreated
      ensures Above(ctx) && Framed(ctx, o) && ctx.isBlockCreated == old(ctx.isBlockCreated) && Tidy(ctx) && Proper(r)
      ensures var left := Closed(stack, level);
        && Frame(scratch, o, Bs(ctx), Cs(ctx), left) && |Bs(ctx)| == |Cs(ctx)| + 1
        && View(scratch, o, Bs(ctx), left) + Places(r, Ids(left)) == places + Places(n, Ids(left))
    {
      hide Shapes, View, Frame, Closed, Places;
      ghost var left := Closed(stack, level);
      var tmp;
      ghost var list;
      tmp, list := CollectContext(ctx, level - 1, true, o, stack, places, stack[0]);
      r := Gathered(tmp.value, n);
      GatheredPlaces(tmp.value, n, Ids(left));
      Tops(scratch, o, Bs(ctx), Cs(ctx), left);
      LastClosedLow(stack, level);
      if ctx.blocksTop != |openBlocks| && openBlocks[|openBlocks| - 1].level == level {
        // a block of this level would be collected, but none is left
        assert false;
      }
      Regroup(View(scratch, o, Bs(ctx), left), Places(tmp.value, Ids(left)), Places(n, Ids(left)));
    }

    // One line of a context: its node ends up on the scratch stack, below the branches that are open.
    method Stmt(ctx: Context, line: Line, ghost o: nat, ghost stack: seq<Open>, ghost places: seq<Place>)
      requires !line.Test? && Ready(ctx, o, stack, places)
      modifies `scratch, `openBlocks, `openChoices, ctx`isBlockCreated
      ensures State(ctx, o, Next(stack, line), places + [PlaceOf(stack, line)]) && Tidy(ctx)
      ensures Framed(ctx, o) && ctx.isBlockCreated == old(ctx.isBlockCreated)
      decreases line, 0
    {
      hide Shapes, View, Frame, Closed;
      match line
      case Content(id, parts) =>
        var nodes := ParseContent(parts);
        HandleContent(ctx, o, stack, places);
        PushNode(scratch, o, Bs(ctx), Cs(ctx), stack, ContentNode(id, nodes));
        PushTidy(ctx, ContentNode(id, nodes));
        Push(Some(ContentNode(id, nodes)));
      case Choice(id, level) =>
        ghost var open := Open(level, id);
        HandleChoiceBranch(ctx, level, o, stack, places, open);
        PushBranch(scratch, o, Bs(ctx), Cs(ctx), Closed(stack, level), open);
        PushTidy(ctx, Branch(id, None));
        Push(Some(Branch(id, None)));
      case Gather(id, level) =>
        var n := HandleGather(ctx, level, GatherPoint(id), o, stack, places);
        PushNode(scratch, o, Bs(ctx), Cs(ctx), Closed(stack, level), n);
        PushTidy(ctx, n);
        Push(Some(n));
    }

    lemma PushTidy(ctx: Context, n: Node)
      requires Above(ctx) && Tidy(ctx) && if |Bs(ctx)| == |Cs(ctx)| then ProperBranch(n) else Proper(n)
      ensures Shapes(scratch + [n], Bs(ctx), Cs(ctx), false) && Shapes(scratch + [n], Bs(ctx), Cs(ctx), true)
    {
      hide Shapes;
      PushShapes(scratch, Bs(ctx), Cs(ctx), n);
      NoneOnTop(scratch + [n], Bs(ctx), Cs(ctx));
    }

    // The inside of a content line; conditionals in it use the stacks, and leave them as they were.
    method ParseContent(parts: seq<Part>) returns (nodes: seq<Node>)
      modifies `scratch, `openBlocks, `openChoices
      ensures scratch == old(scratch) && openBlocks == old(openBlocks) && openChoices == old(openChoices)
      ensures Insides(nodes, |nodes|) == InsidesOf(parts, |parts|)
      ensures forall i | 0 <= i < |nodes| :: ProperPart(nodes[i])
      decreases parts
    {
      hide Insides, InsidesOf;
      var top := |scratch|;
      ghost var s0, done := scratch, [];
      NoInsides(parts);
      var i := 0;
      while i < |parts|
        invariant 0 <= i <= |parts| && openBlocks == old(openBlocks) && openChoices == old(openChoices)
        invariant scratch == s0 + done && Insides(done, |done|) == InsidesOf(parts, i)
        invariant forall j | 0 <= j < |done| :: ProperPart(done[j])
      {
        var n := WordsNode;
        if parts[i].Nested? {
          n := ParseConditional(parts[i].subject, parts[i].lines);
        }
        InsidesSnoc(done, n);
        OneMoreInside(parts, i);
        assert (s0 + done) + [n] == s0 + (done + [n]);
        Push(Some(n));
        done := done + [n];
        i := i + 1;
      }
      nodes := scratch[top..];
      scratch := scratch[..top];
      assert nodes == done;
    }

    // Close everything in a context; its block goes to the branch beneath it, if there is one.
    method CollectAll(ctx: Context, ghost o: nat, ghost stack: seq<Open>,
            ghost places: seq<Place>) returns (ghost list: seq<Node>)
      requires Ready(ctx, o, stack, places)
      modifies `scratch, `openBlocks, `openChoices, ctx`isBlockCreated
      ensures Above(ctx) && Bs(ctx) == [] && Cs(ctx) == [] && Whole(list, []) == places
      ensures openBlocks[..ctx.blocksTop] == old(openBlocks)[..ctx.blocksTop]
        && openChoices[..ctx.choicesTop] == old(openChoices)[..ctx.choicesTop]
      ensures o <= |old(scratch)| && (old(Bs(ctx)) != [] ==> ProperBlock(Block(list)))
      ensures if old(Bs(ctx)) == [] then scratch == old(scratch) && ctx.isBlockCreated == old(ctx.isBlockCreated)
              else if Attaches(old(scratch), ctx.scratchTop, o) then
                && scratch == old(scratch)[..o - 1] + [WithBody(old(scratch)[o - 1], Block(list))]
                && ctx.isBlockCreated == old(ctx.isBlockCreated)
              else scratch == old(scratch)[..o] + [Block(list)] && ctx.isBlockCreated
    {
      hide Shapes, View, Frame, Walk;
      list := [];
      if ctx.blocksTop != |openBlocks| {
        Tops(scratch, o, Bs(ctx), Cs(ctx), stack);
        var n;
        n, list := CollectContext(ctx, 0, false, o, stack, places, Open(1, 0));
        Push(n);
      }
    }

    // After the first i lines of a conditional: the nodes of the branches that are done, then the branch
    // the current lines belong to, then those lines.
    ghost predicate Branching(ctx: Context, lines: seq<Line>, i: nat, o: nat)
      requires i <= |lines|
      reads this, ctx
    {
      var (top, chunks) := (ctx.scratchTop, Split(lines, i));
      && Begun(lines, chunks, i, scratch, top, o, ctx.isBlockCreated)
      && if chunks == [] then Ready(ctx, o, [], []) && Bs(ctx) == []
         else
           var from := chunks[|chunks| - 1].from;
           Ready(ctx, o, StackAt(lines, from, i), PlacesOf(lines, from, i))
    }

    // Between two branches: everything is closed, and the nodes are the branches so far.
    ghost predicate Ended(ctx: Context, lines: seq<Line>, i: nat)
      requires i <= |lines|
      reads this, ctx
    {
      var (top, chunks) := (ctx.scratchTop, Split(lines, i));
      && Above(ctx) && Bs(ctx) == [] && Cs(ctx) == []
      && Groups(scratch[top..], |scratch| - top) == GroupsOf(lines, chunks, |chunks|) && Cases(scratch[top..])
      && (ctx.isBlockCreated <==> chunks != [] && chunks[0].test.None?)
    }

    // The lines of the current branch are complete.
    method EndBranch(ctx: Context, ghost lines: seq<Line>, ghost i: nat, ghost o: nat, ghost s0: seq<Node>,
            ghost b0: seq<Entry>, ghost c0: seq<Entry>)
      requires i <= |lines| && Branching(ctx, lines, i, o) && Within(ctx, s0, b0, c0)
      modifies `scratch, `openBlocks, `openChoices, ctx`isBlockCreated
      ensures Ended(ctx, lines, i) && Within(ctx, s0, b0, c0)
    {
      hide Shapes, View, Frame, Inv, Full, Walk, PlacesOf, StackAt, Split, Groups, GroupsOf;
      ghost var top, chunks, s, empty := ctx.scratchTop, Split(lines, i), scratch, Bs(ctx) == [];
      ghost var from := if chunks == [] then i else chunks[|chunks| - 1].from;
      ghost var places := PlacesOf(lines, from, i);
      ghost var list;
      NothingYet(lines, i);
      list := CollectAll(ctx, o, StackAt(lines, from, i), places);
      NoGroups(lines, chunks);
      if chunks == [] {
        assert scratch[top..] == [];
      } else {
        if from < i { SomePlaces(lines, from, i); }
        LastChunk(lines, chunks);
        assert s[top..top] == [];
        LastGroup(s, scratch, top, o, chunks[|chunks| - 1].test, list, places, empty);
      }
    }

    // A conditional uses the stacks above what is there, and leaves them as they were.  Each branch gets
    // exactly the lines up to the next test.
    method ParseConditional(subject: bool, lines: seq<Line>) returns (n: Node)
      modifies `scratch, `openBlocks, `openChoices
      ensures scratch == old(scratch) && openBlocks == old(openBlocks) && openChoices == old(openChoices)
      ensures InsideNode(n) == InsideOf(Nested(subject, lines)) && ProperPart(n) && n.Cond?
      ensures n.kind == IfKind <==> lines != [] && !lines[0].Test?
      ensures n.kind == SwitchKind <==> subject && (lines == [] || lines[0].Test?)
      decreases lines
    {
      hide Shapes, View, Frame, Full, PlacesOf, StackAt, Inv;
      var ctx := new Context(|scratch|, |openBlocks|, |openChoices|);
      assert Branching(ctx, lines, 0, |scratch|);
      ParseBranches(ctx, lines, scratch, openBlocks, openChoices);
      var list := scratch[ctx.scratchTop..];
      scratch := scratch[..ctx.scratchTop];
      var kind :=
        if subject && !ctx.isBlockCreated then SwitchKind
        else if !subject && !ctx.isBlockCreated then MultiIfKind
        else IfKind;
      FirstChunk(lines, |lines|);
      return Cond(kind, list);
    }

    method ParseBranches(ctx: Context, lines: seq<Line>, ghost s0: seq<Node>, ghost b0: seq<Entry>,
            ghost c0: seq<Entry>)
      requires Branching(ctx, lines, 0, |scratch|) && Within(ctx, s0, b0, c0)
      modifies `scratch, `openBlocks, `openChoices, ctx`isBlockCreated
      ensures Ended(ctx, lines, |lines|) && Within(ctx, s0, b0, c0)
      decreases lines, 0
    {
      hide *;
      ghost var o: nat := |scratch|;
      var i := 0;
      while i < |lines|
        invariant 0 <= i <= |lines| && Branching(ctx, lines, i, o) && Within(ctx, s0, b0, c0)
      {
        if lines[i].Test? {
          EndBranch(ctx, lines, i, o, s0, b0, c0);
          BeginBranch(ctx, lines, i, s0, b0, c0);
          o := |scratch|;
        } else {
          BranchLine(ctx, lines, i, o, s0, b0, c0);
        }
        i := i + 1;
      }
      EndBranch(ctx, lines, i, o, s0, b0, c0);
    }

    // What lies below the context is what was there when it began.
    ghost predicate Within(ctx: Context, s: seq<Node>, bs: seq<Entry>, cs: seq<Entry>)
      reads this
    {
      && ctx.scratchTop == |s| <= |scratch| && scratch[..|s|] == s
      && ctx.blocksTop == |bs| <= |openBlocks| && openBlocks[..|bs|] == bs
      && ctx.choicesTop == |cs| <= |openChoices| && openChoices[..|cs|] == cs
    }

    // The test of the next branch.
    method BeginBranch(ctx: Context, lines: seq<Line>, i: nat, ghost s0: seq<Node>, ghost b0: seq<Entry>,
            ghost c0: seq<Entry>)
      requires i < |lines| && lines[i].Test? && Ended(ctx, lines, i) && Within(ctx, s0, b0, c0)
      modifies `scratch
      ensures Branching(ctx, lines, i + 1, |scratch|) && Within(ctx, s0, b0, c0)
    {
      hide View, Inv, GroupsOf, Groups, PlacesOf, StackAt, Split;
      ghost var top, chunks, s := ctx.scratchTop, Split(lines, i), scratch;
      NothingYet(lines, i + 1);
      TestSplit(lines, i);
      Push(Some(Case(lines[i].id, None)));
      assert scratch == s + [Case(lines[i].id, None)];
      assert scratch[top..|scratch| - 1] == s[top..];
      assert scratch[..top] == s[..top];
    }

    // A line of the current branch.
    method BranchLine(ctx: Context, lines: seq<Line>, i: nat, ghost o: nat, ghost s0: seq<Node>,
            ghost b0: seq<Entry>, ghost c0: seq<Entry>)
      requires i < |lines| && !lines[i].Test? && Branching(ctx, lines, i, o) && Within(ctx, s0, b0, c0)
      modifies `scratch, `openBlocks, `openChoices, ctx`isBlockCreated
      ensures Branching(ctx, lines, i + 1, o) && Within(ctx, s0, b0, c0)
      decreases lines[i], 1
    {
      hide Shapes, View, Frame, Full, Split, Begun, PlacesOf, StackAt, Next, PlaceOf;
      ghost var top, chunks, s := ctx.scratchTop, Split(lines, i), scratch;
      ghost var from := if chunks == [] then 0 else chunks[|chunks| - 1].from;
      ghost var stack, places := StackAt(lines, from, i), PlacesOf(lines, from, i);
      FirstChunk(lines, i);
      OneMoreLine(lines, from, i);
      NothingYet(lines, i);
      Stmt(ctx, lines[i], o, stack, places);
      Tops(scratch, o, Bs(ctx), Cs(ctx), Next(stack, lines[i]));
      BegunLine(lines, i, s, scratch, top, o, ctx.isBlockCreated);
      assert scratch[..top] == scratch[..o][..top] && s[..top] == s[..o][..top];
    }

    // A file without knots: its tree has every line once, in order, below the branches that the levels say.
    // No other tree of the grammar has them so.
    method ParseFile(lines: seq<Line>) returns (file: seq<Node>)
      requires scratch == [] && openBlocks == [] && openChoices == [] && forall i | 0 <= i < |lines| :: !lines[i].Test?
      modifies `scratch, `openBlocks, `openChoices
      ensures ProperFile(file) && Whole(file, []) == PlacesOf(lines, 0, |lines|)
      ensures forall other | ProperFile(other) && Whole(other, []) == PlacesOf(lines, 0, |lines|) :: other == file
      ensures scratch == [] && openBlocks == [] && openChoices == []
    {
      var ctx := new Context(0, 0, 0);
      var i := 0;
      while i < |lines|
        invariant 0 <= i <= |lines| && Ready(ctx, 0, StackAt(lines, 0, i), PlacesOf(lines, 0, i))
          && Within(ctx, [], [], [])
      {
        Stmt(ctx, lines[i], 0, StackAt(lines, 0, i), PlacesOf(lines, 0, i));
        i := i + 1;
      }
      ghost var list;
      list := CollectAll(ctx, 0, StackAt(lines, 0, i), PlacesOf(lines, 0, i));
      file := scratch;
      scratch := [];
      assert file == [] || file == [Block(list)];
      if file != [] {
        WholeSnoc([], Block(list), []);
        assert [] + [Block(list)] == [Block(list)];
      }
      forall other | ProperFile(other) && Whole(other, []) == Whole(file, [])
        ensures other == file
      {
        OneTree(other, file);
      }
    }
  }

  ghost predicate Cases(s: seq<Node>) {
    forall i | 0 <= i < |s| :: ProperCase(s[i])
  }

  // The nodes below o are the branches before the current one, and its test.
  ghost predicate Begun(lines: seq<Line>, chunks: seq<Chunk>, i: nat, s: seq<Node>, top: nat, o: nat, created: bool)
    requires forall c | c in chunks :: c.from <= c.to <= |lines|
  {
    if chunks == [] then o == top && !created
    else
      var c := chunks[|chunks| - 1];
      && c.to == i && top <= o <= |s|
      && (c.test.None? ==> |chunks| == 1 && o == top && c.from < i)
      && (c.test.Some? ==> o > top && s[o - 1] == Case(c.test.value, None))
      && (c.test.Some? ==> Groups(s[top..o - 1], o - 1 - top) == GroupsOf(lines, chunks, |chunks| - 1))
      && (c.test.Some? ==> Cases(s[top..o - 1]))
      && (created <==> |chunks| > 1 && chunks[0].test.None?)
  }

  // One more line in the current branch changes nothing below it.
  lemma BegunLine(lines: seq<Line>, i: nat, s: seq<Node>, t: seq<Node>, top: nat, o: nat, created: bool)
    requires i < |lines| && !lines[i].Test? && Begun(lines, Split(lines, i), i, s, top, o, created)
    requires o <= |s| && o <= |t| && s[..o] == t[..o]
    ensures Begun(lines, Split(lines, i + 1), i + 1, t, top, o, created)
    ensures var (chunks, next) := (Split(lines, i), Split(lines, i + 1));
      next != [] && next[|next| - 1].from == if chunks == [] then 0 else chunks[|chunks| - 1].from
  {
    hide GroupsOf, Groups, Split;
    var chunks, next := Split(lines, i), Split(lines, i + 1);
    FirstChunk(lines, i);
    LineSplit(lines, i);
    if chunks != [] {
      if chunks[|chunks| - 1].test.Some? {
        assert t[top..o - 1] == t[..o][top..o - 1] && s[top..o - 1] == s[..o][top..o - 1];
        assert t[o - 1] == t[..o][o - 1] && s[o - 1] == s[..o][o - 1];
      }
      GroupsOfPrefix(lines, Split(lines, i + 1), chunks, |chunks| - 1);
    }
  }

  lemma LastOff<T>(q: seq<T>, top: nat)
    requires top < |q|
    ensures q[top..] == q[..|q| - 1][top..] + [q[|q| - 1]] && q[..|q| - 1][..top] == q[..top]
  {
  }

  lemma LineSplit(lines: seq<Line>, i: nat)
    requires i < |lines| && !lines[i].Test?
    ensures var chunks := Split(lines, i);
      Split(lines, i + 1) == if chunks == [] then [Chunk(None, 0, i + 1)]
        else chunks[..|chunks| - 1] + [chunks[|chunks| - 1].(to := i + 1)]
  {
  }

  lemma TestSplit(lines: seq<Line>, i: nat)
    requires i < |lines| && lines[i].Test?
    ensures var (chunks, next) := (Split(lines, i), Split(lines, i + 1));
      && |next| == |chunks| + 1 && next[|chunks|] == Chunk(Some(lines[i].id), i + 1, i + 1)
      && (chunks != [] ==> next[0] == chunks[0])
      && GroupsOf(lines, next, |chunks|) == GroupsOf(lines, chunks, |chunks|)
  {
    GroupsOfPrefix(lines, Split(lines, i + 1), Split(lines, i), |Split(lines, i)|);
  }

  lemma OneMoreLine(lines: seq<Line>, from: nat, i: nat)
    requires from <= i < |lines|
    ensures StackAt(lines, from, i + 1) == Next(StackAt(lines, from, i), lines[i])
    ensures PlacesOf(lines, from, i + 1) == PlacesOf(lines, from, i) + [PlaceOf(StackAt(lines, from, i), lines[i])]
  {
  }

  lemma NothingYet(lines: seq<Line>, i: nat)
    requires i <= |lines|
    ensures StackAt(lines, i, i) == [] && PlacesOf(lines, i, i) == []
  {
  }

  lemma {:induction false} GroupsOfPrefix(lines: seq<Line>, a: seq<Chunk>, b: seq<Chunk>, n: nat)
    requires n <= |a| && n <= |b| && a[..n] == b[..n]
    requires forall i | 0 <= i < |a| :: a[i].from <= a[i].to <= |lines|
    requires forall i | 0 <= i < |b| :: b[i].from <= b[i].to <= |lines|
    ensures GroupsOf(lines, a, n) == GroupsOf(lines, b, n)
    decreases n
  {
    if n > 0 {
      assert a[..n - 1] == a[..n][..n - 1] && b[..n - 1] == b[..n][..n - 1];
      assert a[..n][n - 1] == b[..n][n - 1];
      GroupsOfPrefix(lines, a, b, n - 1);
    }
  }

  // A conditional begins with a branch without a test exactly when it does not begin with a test.
  lemma {:induction false} FirstChunk(lines: seq<Line>, n: nat)
    requires n <= |lines|
    ensures Split(lines, n) == [] <==> n == 0
    ensures n > 0 ==> (Split(lines, n)[0].test.None? <==> !lines[0].Test?)
    decreases n
  {
    if n > 1 {
      FirstChunk(lines, n - 1);
    }
  }

  lemma NoGroups(lines: seq<Line>, chunks: seq<Chunk>)
    requires forall i | 0 <= i < |chunks| :: chunks[i].from <= chunks[i].to <= |lines|
    ensures Groups([], 0) == GroupsOf(lines, chunks, 0) == []
  {
  }

  lemma LastChunk(lines: seq<Line>, chunks: seq<Chunk>)
    requires chunks != [] && forall i | 0 <= i < |chunks| :: chunks[i].from <= chunks[i].to <= |lines|
    ensures var (n, c) := (|chunks| - 1, chunks[|chunks| - 1]);
      GroupsOf(lines, chunks, n + 1) == GroupsOf(lines, chunks, n) + [Group(c.test, PlacesOf(lines, c.from, c.to))]
  {
    hide PlacesOf;
  }

  lemma SomePlaces(lines: seq<Line>, a: nat, b: nat)
    requires a < b <= |lines|
    ensures PlacesOf(lines, a, b) != []
  {
  }

  // The branch that was completed, as a group.
  lemma LastGroup(s: seq<Node>, t: seq<Node>, top: nat, o: nat, test: Option<nat>, list: seq<Node>,
          places: seq<Place>, empty: bool)
    requires top <= o <= |s| && Whole(list, []) == places && (empty ==> places == [] && o == |s|)
    requires if test.None? then o == top && !empty else o > top && s[o - 1] == Case(test.value, None)
    requires Cases(s[top..if test.None? then o else o - 1]) && (!empty ==> ProperBlock(Block(list)))
    requires t == if empty then s else if Attaches(s, top, o) then s[..o - 1] + [WithBody(s[o - 1], Block(list))]
      else s[..o] + [Block(list)]
    ensures top <= |t| && t[..top] == s[..top] && Cases(t[top..])
    ensures var k := if test.None? then o else o - 1;
      Groups(t[top..], |t| - top) == Groups(s[top..k], k - top) + [Group(test, places)]
  {
    var k := if test.None? then o else o - 1;
    var n := if empty then s[o - 1] else if test.None? then Block(list) else Case(test.value, Some(Block(list)));
    hide ProperBlock, ProperCase, Cases, Groups, Whole;
    LastNode(s, t, top, o, test, list, empty);
    GroupsSnoc(s[top..k], n);
    CasesSnoc(s[top..k], n, list);
    AsGroup(n, test, list);
  }

  lemma AsGroup(n: Node, test: Option<nat>, list: seq<Node>)
    requires match test
      case None => n == Block(list)
      case Some(id) => n == Case(id, Some(Block(list))) || n == Case(id, None)
    ensures GroupNode(n) == Group(test, if n.Case? && n.body.None? then [] else Whole(list, []))
  {
  }

  lemma CasesSnoc(s: seq<Node>, n: Node, list: seq<Node>)
    requires Cases(s) && if n.Case? then n.body == None || (n.body == Some(Block(list)) && ProperBlock(Block(list)))
      else n == Block(list) && ProperBlock(n)
    ensures Cases(s + [n])
  {
    assert ProperCase(n);
  }

  lemma LastNode(s: seq<Node>, t: seq<Node>, top: nat, o: nat, test: Option<nat>, list: seq<Node>, empty: bool)
    requires top <= o <= |s| && (empty ==> o == |s|)
    requires if test.None? then o == top && !empty else o > top && s[o - 1] == Case(test.value, None)
    requires t == if empty then s else if Attaches(s, top, o) then s[..o - 1] + [WithBody(s[o - 1], Block(list))]
      else s[..o] + [Block(list)]
    ensures top <= |t| && t[..top] == s[..top]
    ensures var k := if test.None? then o else o - 1;
      var n := if empty then s[o - 1] else if test.None? then Block(list) else Case(test.value, Some(Block(list)));
      t[top..] == s[top..k] + [n]
  {
  }

  lemma {:induction false} GroupsPrefix(a: seq<Node>, b: seq<Node>, n: nat)
    requires n <= |a| && n <= |b| && a[..n] == b[..n]
    ensures Groups(a, n) == Groups(b, n)
    decreases n
  {
    if n > 0 {
      assert a[..n - 1] == a[..n][..n - 1] && b[..n - 1] == b[..n][..n - 1];
      assert a[..n][n - 1] == b[..n][n - 1];
      GroupsPrefix(a, b, n - 1);
    }
  }

  lemma GroupsSnoc(a: seq<Node>, n: Node)
    ensures Groups(a + [n], |a| + 1) == Groups(a, |a|) + [GroupNode(n)]
  {
    GroupsPrefix(a + [n], a, |a|);
  }

  lemma {:induction false} InsidesPrefix(a: seq<Node>, b: seq<Node>, n: nat)
    requires n <= |a| && n <= |b| && a[..n] == b[..n]
    ensures Insides(a, n) == Insides(b, n)
    decreases n
  {
    if n > 0 {
      assert a[..n - 1] == a[..n][..n - 1] && b[..n - 1] == b[..n][..n - 1];
      assert a[..n][n - 1] == b[..n][n - 1];
      InsidesPrefix(a, b, n - 1);
    }
  }

  lemma NoInsides(parts: seq<Part>)
    ensures Insides([], 0) == [] == InsidesOf(parts, 0)
  {
  }

  lemma OneMoreInside(parts: seq<Part>, i: nat)
    requires i < |parts|
    ensures InsidesOf(parts, i + 1) == InsidesOf(parts, i) + [InsideOf(parts[i])]
    ensures parts[i].Words? ==> InsideOf(parts[i]) == InsideNode(WordsNode)
  {
  }

  lemma InsidesSnoc(a: seq<Node>, n: Node)
    ensures Insides(a + [n], |a| + 1) == Insides(a, |a|) + [InsideNode(n)]
  {
    InsidesPrefix(a + [n], a, |a|);
  }

  lemma GatheredPlaces(choice: Node, gather: Node, p: seq<nat>)
    ensures Places(Gathered(choice, gather), p) == Places(choice, p) + Places(gather, p)
  {
    hide All, Insides;
  }

  lemma Regroup<T>(a: seq<T>, b: seq<T>, c: seq<T>)
    ensures a + (b + c) == a + b + c
  {
  }

  lemma NothingClosed(stack: seq<Open>, level: pos)
    ensures stack == [] || stack[|stack| - 1].level < level ==> Closed(stack, level) == stack
  {
  }

  lemma {:induction false} LastClosedLow(stack: seq<Open>, level: pos)
    ensures var left := Closed(stack, level); left != [] ==> left[|left| - 1].level < level
    decreases |stack|
  {
    if stack != [] && stack[|stack| - 1].level >= level {
      LastClosedLow(stack[..|stack| - 1], level);
    }
  }

  lemma LevelsFall(s: seq<Node>, o: nat, bs: seq<Entry>, cs: seq<Entry>, stack: seq<Open>)
    requires Frame(s, o, bs, cs, stack)
    ensures |stack| > 1 ==> stack[|stack| - 2].level < stack[|stack| - 1].level
  {
    Tops(s, o, bs, cs, stack);
  }

  lemma LastClosed(stack: seq<Open>, stk: seq<Open>, level: nat)
    ensures stk == [] || stk[|stk| - 1].level <= level ==> Closed(stk, level + 1) == stk
  {
  }

  lemma ClosedOnce(stack: seq<Open>, level: nat)
    requires stack != []
    ensures 0 < level <= stack[|stack| - 1].level ==> Closed(stack, level) == Closed(stack[..|stack| - 1], level)
    ensures 0 < level && level > stack[|stack| - 1].level ==> Closed(stack, level) == stack
  {
  }
}
