// The mark-and-sweep collector of src/gc.c, with the object list of src/object.c and the allocation
// hook of src/story.c that starts it.

module Reachability {
  // Nodes that n steps or fewer lead to from the roots; g maps every node to its successors.
  ghost function Within<T>(g: map<T, set<T>>, roots: set<T>, n: nat): set<T> {
    if n == 0 then roots
    else
      var s := Within(g, roots, n - 1);
      s + set x, y | x in s && x in g && y in g[x] :: y
  }

  ghost predicate Reaches<T>(g: map<T, set<T>>, roots: set<T>, x: T) {
    exists n: nat :: x in Within(g, roots, n)
  }

  ghost predicate Closed<T>(g: map<T, set<T>>, s: set<T>) {
    forall x, y | x in s && x in g && y in g[x] :: y in s
  }

  lemma RootReached<T>(g: map<T, set<T>>, roots: set<T>, x: T)
    requires x in roots
    ensures Reaches(g, roots, x)
  {
    assert x in Within(g, roots, 0);
  }

  lemma NextReached<T>(g: map<T, set<T>>, roots: set<T>, x: T, y: T)
    requires Reaches(g, roots, x) && x in g && y in g[x]
    ensures Reaches(g, roots, y)
  {
    var n: nat :| x in Within(g, roots, n);
    assert y in Within(g, roots, n + 1);
  }

  // A closed set that has the roots has everything reachable.
  lemma {:induction false} NothingElse<T>(g: map<T, set<T>>, roots: set<T>, s: set<T>, n: nat)
    requires roots <= s && Closed(g, s)
    ensures Within(g, roots, n) <= s
    decreases n
  {
    if n > 0 {
      NothingElse(g, roots, s, n - 1);
    }
  }
}

module Marking {
  import opened Reachability

  // The marking phase on values: what is marked, the gray list, and what was blackened, in order.
  datatype Front<T> = Front(marked: set<T>, gray: seq<T>, black: seq<T>)

  ghost predicate NoRepeats<T>(list: seq<T>) {
    forall i, j | 0 <= i < j < |list| :: list[i] != list[j]
  }

  // Everything marked is reachable and either gray or black, once; what black nodes refer to is marked.
  // busy is being blackened and may still be incomplete.
  ghost predicate Tri<T>(f: Front<T>, g: map<T, set<T>>, roots: set<T>, busy: set<T>) {
    && f.marked <= g.Keys
    && (forall o | o in f.marked :: Reaches(g, roots, o))
    && (forall o | o in f.gray :: o in f.marked && o !in f.black)
    && (forall o | o in f.black :: o in f.marked)
    && (forall o | o in f.marked :: o in f.gray || o in f.black)
    && NoRepeats(f.gray) && NoRepeats(f.black)
    && (forall o | o in f.black && o !in busy && o in g :: g[o] <= f.marked)
  }

  function MarkOne<T(==)>(f: Front<T>, o: T): Front<T> {
    if o in f.marked then f else Front(f.marked + {o}, f.gray + [o], f.black)
  }

  lemma MarkStep<T>(f: Front<T>, g: map<T, set<T>>, roots: set<T>, busy: set<T>, o: T)
    requires Tri(f, g, roots, busy) && o in g && Reaches(g, roots, o)
    ensures Tri(MarkOne(f, o), g, roots, busy)
  {
    hide Reaches;
  }

  function PopOne<T>(f: Front<T>): Front<T>
    requires f.gray != []
  {
    var n := |f.gray| - 1;
    Front(f.marked, f.gray[..n], f.black + [f.gray[n]])
  }

  lemma PopStep<T>(f: Front<T>, g: map<T, set<T>>, roots: set<T>)
    requires Tri(f, g, roots, {}) && f.gray != []
    ensures Tri(PopOne(f), g, roots, {f.gray[|f.gray| - 1]})
  {
    hide Reaches;
    var n := |f.gray| - 1;
    assert f.gray == f.gray[..n] + [f.gray[n]];
    assert f.gray[n] in f.gray;
  }

  lemma BusyDone<T>(f: Front<T>, g: map<T, set<T>>, roots: set<T>, o: T)
    requires Tri(f, g, roots, {o}) && o in g && g[o] <= f.marked
    ensures Tri(f, g, roots, {})
  {
    hide Reaches;
  }

  lemma ChildReached<T>(f: Front<T>, g: map<T, set<T>>, roots: set<T>, busy: set<T>, o: T, child: T)
    requires Tri(f, g, roots, busy) && o in f.marked && child in g[o]
    ensures Reaches(g, roots, child)
  {
    NextReached(g, roots, o, child);
  }

  // With nothing gray left, exactly the reachable nodes are marked, each blackened exactly once.
  lemma AllReached<T>(f: Front<T>, g: map<T, set<T>>, roots: set<T>)
    requires Tri(f, g, roots, {}) && f.gray == [] && roots <= f.marked
    ensures forall o | o in g :: o in f.marked <==> Reaches(g, roots, o)
    ensures forall o | o in g :: o in f.black <==> Reaches(g, roots, o)
    ensures NoRepeats(f.black)
  {
    forall o | o in g && Reaches(g, roots, o)
      ensures o in f.marked
    {
      var n: nat :| o in Within(g, roots, n);
      NothingElse(g, roots, f.marked, n);
    }
  }

  // Dropping unreachable nodes changes nothing for the others.
  lemma {:induction false} SameWithin<T>(g: map<T, set<T>>, h: map<T, set<T>>, roots: set<T>, n: nat)
    requires forall x | Reaches(g, roots, x) && x in g :: x in h && h[x] == g[x]
    requires forall x | x in h :: x in g
    ensures Within(h, roots, n) == Within(g, roots, n)
    decreases n
  {
    if n > 0 {
      SameWithin(g, h, roots, n - 1);
      forall x | x in Within(g, roots, n - 1)
        ensures Reaches(g, roots, x)
      {
      }
    }
  }
}

module Collecting {
  import opened Reachability
  import opened Marking
  import opened Wrappers
  import opened Probing
  import opened HashMaps

  class Obj {
    var payload: Payload
    var marked: bool
    var next: Obj?

    constructor (payload: Payload)
      ensures this.payload == payload && !marked && next == null
    {
      this.payload, marked, next := payload, false, null;
    }
  }

  datatype KV = KV(key: Obj?, value: Obj?)

  datatype Payload =
    | BoolObj
    | NumberObj
    | StringObj(length: nat)
    | TableObj(entries: seq<KV>)
    | PathObj(name: Obj?, pool: seq<Obj?>)

  // The sizes of the structs on a target with 64-bit pointers.
  const SIZE_BOOL: nat := 24
  const SIZE_NUMBER: nat := 32
  const SIZE_STRING: nat := 32
  const SIZE_TABLE: nat := 32
  const SIZE_KV: nat := 16
  const SIZE_PATH: nat := 80

  const HEAP_SIZE_MIN: nat := 1024 * 1024
  const HEAP_GROWTH_PERCENT: nat := 50

  function Size(p: Payload): nat {
    match p
    case BoolObj => SIZE_BOOL
    case NumberObj => SIZE_NUMBER
    case StringObj(n) => SIZE_STRING + n + 1
    case TableObj(es) => SIZE_TABLE + |es| * SIZE_KV
    case PathObj(_, _) => SIZE_PATH
  }

  function Some_(o: Obj?): set<Obj> {
    if o == null then {} else {o}
  }

  // What an object refers to; the value of an entry counts only if the entry has a key.
  function Children(p: Payload): set<Obj> {
    match p
    case TableObj(es) => EntryChildren(es, |es|)
    case PathObj(name, pool) => Some_(name) + Objects(pool, |pool|)
    case _ => {}
  }

  function EntryChildren(es: seq<KV>, n: nat): set<Obj>
    requires n <= |es|
  {
    if n == 0 then {}
    else EntryChildren(es, n - 1) + EntryTargets(es[n - 1])
  }

  function EntryTargets(e: KV): set<Obj> {
    if e.key == null then {} else {e.key} + Some_(e.value)
  }

  function Objects(os: seq<Obj?>, n: nat): set<Obj>
    requires n <= |os|
  {
    if n == 0 then {} else Objects(os, n - 1) + Some_(os[n - 1])
  }

  // The members of a list that are in a set, in order.
  function Filter(list: seq<Obj>, s: set<Obj>): (r: seq<Obj>)
    ensures forall o | o in list && o in s :: o in r
    ensures forall o | o in r :: o in list && o in s
  {
    if list == [] then []
    else
      var last := list[|list| - 1];
      Filter(list[..|list| - 1], s) + if last in s then [last] else []
  }

  // Total size of the members of a list that are in a set.
  ghost function SumIn(list: seq<Obj>, s: set<Obj>): nat
    reads list`payload
  {
    if list == [] then 0
    else SumIn(list[..|list| - 1], s) + if list[|list| - 1] in s then Size(list[|list| - 1].payload) else 0
  }

  lemma {:induction false} SumAdd(list: seq<Obj>, s: set<Obj>, o: Obj)
    requires NoRepeats(list) && o !in s
    ensures SumIn(list, s + {o}) == SumIn(list, s) + if o in list then Size(o.payload) else 0
    decreases |list|
  {
    if list != [] {
      SumAdd(list[..|list| - 1], s, o);
    }
  }

  lemma {:induction false} SumFiltered(list: seq<Obj>, s: set<Obj>)
    ensures SumIn(list, s) == SumIn(Filter(list, s), s)
    decreases |list|
  {
    if list != [] {
      var init, last := list[..|list| - 1], list[|list| - 1];
      SumFiltered(init, s);
      SumSnoc(Filter(init, s), last, s);
      assert Filter(list, s) == if last in s then Filter(init, s) + [last] else Filter(init, s);
    }
  }

  lemma SumSnoc(list: seq<Obj>, o: Obj, s: set<Obj>)
    ensures SumIn(list + [o], s) == SumIn(list, s) + if o in s then Size(o.payload) else 0
  {
    assert (list + [o])[..|list|] == list;
  }

  // A request to the allocation hook.
  datatype Request = Request(sizeOld: nat, sizeNew: nat)

  // What a row of requests adds up to.
  function Asked(rs: seq<Request>): int {
    if rs == [] then 0
    else
      var r := rs[|rs| - 1];
      Asked(rs[..|rs| - 1]) + r.sizeNew - r.sizeOld
  }

  lemma AskedMore(rs: seq<Request>, r: Request)
    ensures Asked(rs + [r]) == Asked(rs) + r.sizeNew - r.sizeOld
  {
    assert (rs + [r])[..|rs|] == rs;
  }

  // The list that starts at head.
  ghost predicate Linked(head: Obj?, list: seq<Obj>)
    reads list`next
  {
    && head == (if list == [] then null else list[0])
    && (forall i | 0 <= i < |list| - 1 :: list[i].next == list[i + 1])
    && (list != [] ==> list[|list| - 1].next == null)
  }

  class Collector {
    var stack: array<Obj?>
    var stackTop: nat
    const owned: HashMap<Obj, ()>
    var globals: Obj?
    var paths: Obj?
    var currentPath: Obj?
    var currentChoiceId: Obj?
    var choices: seq<Obj?>
    var objects: Obj?
    var gray: seq<Obj>
    var bytes: int
    var threshold: nat
    var enabled: bool
    var stress: bool
    // The object list, and the objects that this collection has blackened, in order.
    ghost var heap: seq<Obj>
    ghost var nodes: set<Obj>
    ghost var blackened: seq<Obj>
    // What the last collection counted, and the requests since then.
    ghost var base: int
    ghost var asked: seq<Request>

    constructor (hash: Obj -> nat)
      ensures Valid() && AllWhite() && heap == [] && owned.Valid() && owned.contents == map[] && fresh(stack)
        && fresh(owned) && fresh(owned.entries)
      ensures Counted() && base == 0 && asked == [] && threshold == 1024 * 1024
    {
      stack, stackTop := new Obj?[128](_ => null), 0;
      owned := new HashMap<Obj, ()>(80, hash);
      globals, paths, currentPath, currentChoiceId, choices := null, null, null, null, [];
      objects, gray, bytes, threshold, enabled, stress := null, [], 0, HEAP_SIZE_MIN, false, false;
      heap, blackened, nodes, base, asked := [], [], {}, 0, [];
    }

    // ----- what the collector relies on -----

    ghost function Edges(): map<Obj, set<Obj>>
      reads `nodes, nodes`payload
    {
      map o | o in nodes :: Children(o.payload)
    }

    // The keys of the slots of gc_owned, also of those that were removed.
    ghost function Keys(): set<Obj>
      reads owned, owned.entries
    {
      SlotKeys(owned.entries[..])
    }

    ghost function Roots(): set<Obj>
      reads `stack, `stackTop, `globals, `paths, `currentPath, `currentChoiceId, `choices, stack, owned, owned.entries
      requires stackTop <= stack.Length
    {
      Objects(stack[..], stackTop) + Keys() + Some_(globals) + Some_(paths) + Some_(currentPath)
        + Some_(currentChoiceId)
      + Objects(choices, |choices|)
    }

    // The object list is intact, and every root and every edge stays inside it.
    ghost predicate Valid()
      reads `stack, `stackTop, `globals, `paths, `currentPath, `currentChoiceId, `choices, stack, owned, owned.entries,
        `heap, `nodes, `objects, nodes`payload, heap`next
    {
      && stackTop <= stack.Length
      && nodes == ToSet(heap) && NoRepeats(heap) && Linked(objects, heap)
      && Roots() <= nodes
      && Enclosed()
    }

    ghost predicate Enclosed()
      reads `nodes, nodes`payload
    {
      forall o | o in nodes :: Children(o.payload) <= nodes
    }

    ghost predicate AllWhite()
      reads `gray, `nodes, nodes`marked
    {
      gray == [] && forall o | o in nodes :: !o.marked
    }

    ghost function View(): Front<Obj>
      reads `nodes, `gray, `blackened, nodes`marked
    {
      Front((set o | o in nodes && o.marked), gray, blackened)
    }

    ghost predicate InMark(g: map<Obj, set<Obj>>, roots: set<Obj>, busy: set<Obj>)
      reads `nodes, `gray, `blackened, nodes`marked, nodes`payload
    {
      g == Edges() && Enclosed() && Tri(View(), g, roots, busy)
    }

    // ----- marking -----

    method MarkObject(obj: Obj?, ghost g: map<Obj, set<Obj>>, ghost roots: set<Obj>, ghost busy: set<Obj>)
      requires InMark(g, roots, busy) && (obj != null ==> obj in nodes && Reaches<Obj>(g, roots, obj))
      modifies `gray, nodes`marked
      ensures InMark(g, roots, busy) && View() == if obj == null then old(View()) else MarkOne(old(View()), obj)
    {
      hide Reaches, Tri;
      if obj == null || obj.marked {
        return;
      }
      MarkStep(View(), g, roots, busy, obj);
      obj.marked := true;
      gray := gray + [obj];
      assert View().marked == old(View()).marked + {obj};
    }

    // What is left to do: this only falls when an object is taken from the gray list.
    ghost function Pending(): int
      reads `nodes, `gray, `blackened, nodes`marked
    {
      |gray| - |View().marked|
    }

    // Mark a child of the object that is being blackened.
    method MarkChild(child: Obj?, ghost obj: Obj, ghost g: map<Obj, set<Obj>>, ghost roots: set<Obj>)
      requires InMark(g, roots, {obj}) && obj in View().marked && Some_(child) <= Children(obj.payload)
      modifies `gray, nodes`marked
      ensures InMark(g, roots, {obj}) && View().marked == old(View()).marked + Some_(child)
        && View().black == old(View()).black
      ensures Pending() == old(Pending())
    {
      hide Reaches;
      if child != null {
        ChildReached(View(), g, roots, {obj}, obj, child);
      }
      hide Tri;
      MarkObject(child, g, roots, {obj});
    }

    // Mark what an object refers to, and count its size.
    method BlackenObject(obj: Obj, ghost g: map<Obj, set<Obj>>, ghost roots: set<Obj>)
      requires InMark(g, roots, {obj}) && obj in View().marked
      modifies `gray, `bytes, nodes`marked
      ensures InMark(g, roots, {}) && old(View()).marked <= View().marked && View().black == old(View()).black
      ensures Pending() == old(Pending()) && bytes == old(bytes) + Size(obj.payload)
    {
      hide Reaches, Tri, NoRepeats, EntryChildren, Objects, EntryTargets;
      match obj.payload {
        case BoolObj =>
        case NumberObj =>
        case StringObj(_) =>
        case TableObj(es) => MarkEntries(es, obj, g, roots);
        case PathObj(name, pool) => MarkPath(name, pool, obj, g, roots);
      }
      BusyDone(View(), g, roots, obj);
      bytes := bytes + Size(obj.payload);
    }

    method MarkPath(name: Obj?, pool: seq<Obj?>, ghost obj: Obj, ghost g: map<Obj, set<Obj>>, ghost roots: set<Obj>)
      requires InMark(g, roots, {obj}) && obj in View().marked
        && Some_(name) + Objects(pool, |pool|) <= Children(obj.payload)
      modifies `gray, nodes`marked
      ensures InMark(g, roots, {obj}) && old(View()).marked + Some_(name) + Objects(pool, |pool|) <= View().marked
      ensures View().black == old(View()).black && Pending() == old(Pending())
    {
      hide Reaches, Tri, Children, NoRepeats, Objects, Some_;
      MarkChild(name, obj, g, roots);
      MarkPool(pool, obj, g, roots);
    }

    method MarkEntries(es: seq<KV>, ghost obj: Obj, ghost g: map<Obj, set<Obj>>, ghost roots: set<Obj>)
      requires InMark(g, roots, {obj}) && obj in View().marked && EntryChildren(es, |es|) <= Children(obj.payload)
      modifies `gray, nodes`marked
      ensures InMark(g, roots, {obj}) && old(View()).marked + EntryChildren(es, |es|) <= View().marked
        && View().black == old(View()).black
      ensures Pending() == old(Pending())
    {
      hide Reaches, Tri, Children, EntryTargets;
      var i := 0;
      while i < |es|
        invariant 0 <= i <= |es| && InMark(g, roots, {obj}) && View().black == old(View()).black
        invariant old(View()).marked + EntryChildren(es, i) <= View().marked && Pending() == old(Pending())
      {
        EntriesGrow(es, i + 1, |es|);
        MarkEntry(es[i], obj, g, roots);
        i := i + 1;
      }
    }

    method MarkEntry(e: KV, ghost obj: Obj, ghost g: map<Obj, set<Obj>>, ghost roots: set<Obj>)
      requires InMark(g, roots, {obj}) && obj in View().marked && EntryTargets(e) <= Children(obj.payload)
      modifies `gray, nodes`marked
      ensures InMark(g, roots, {obj}) && View().marked == old(View()).marked + EntryTargets(e)
      ensures View().black == old(View()).black && Pending() == old(Pending())
    {
      hide Reaches, Tri, Children;
      if e.key != null {
        MarkChild(e.key, obj, g, roots);
        MarkChild(e.value, obj, g, roots);
      }
    }

    method MarkPool(pool: seq<Obj?>, ghost obj: Obj, ghost g: map<Obj, set<Obj>>, ghost roots: set<Obj>)
      requires InMark(g, roots, {obj}) && obj in View().marked && Objects(pool, |pool|) <= Children(obj.payload)
      modifies `gray, nodes`marked
      ensures InMark(g, roots, {obj}) && old(View()).marked + Objects(pool, |pool|) <= View().marked
        && View().black == old(View()).black
      ensures Pending() == old(Pending())
    {
      hide Reaches, Tri, Children, NoRepeats;
      var i := 0;
      while i < |pool|
        invariant 0 <= i <= |pool| && InMark(g, roots, {obj}) && View().black == old(View()).black
        invariant old(View()).marked + Objects(pool, i) <= View().marked && Pending() == old(Pending())
      {
        ObjectsGrow(pool, i + 1, |pool|);
        MarkChild(pool[i], obj, g, roots);
        i := i + 1;
      }
    }

    method MarkRoot(obj: Obj?, ghost g: map<Obj, set<Obj>>, ghost roots: set<Obj>)
      requires InMark(g, roots, {}) && Some_(obj) <= roots <= nodes
      modifies `gray, nodes`marked
      ensures InMark(g, roots, {}) && View().marked == old(View()).marked + Some_(obj)
        && View().black == old(View()).black
    {
      if obj != null {
        RootReached<Obj>(g, roots, obj);
      }
      hide Reaches, Tri;
      MarkObject(obj, g, roots, {});
    }

    // Mark every root the collector scans: the stack, the keys of gc_owned, the globals, the paths, the
    // current path, the chosen id and the ids of the choices on offer.
    method MarkRoots(ghost g: map<Obj, set<Obj>>, ghost roots: set<Obj>)
      requires InMark(g, roots, {}) && stackTop <= stack.Length && roots == Roots() <= nodes
      modifies `gray, nodes`marked
      ensures InMark(g, roots, {}) && roots <= View().marked && View().black == old(View()).black
    {
      hide Reaches, Tri;
      MarkStack(g, roots);
      MarkOwned(g, roots);
      MarkNamed(g, roots);
      MarkChoices(g, roots);
    }

    method MarkNamed(ghost g: map<Obj, set<Obj>>, ghost roots: set<Obj>)
      requires InMark(g, roots, {})
        && Some_(globals) + Some_(paths) + Some_(currentPath) + Some_(currentChoiceId) <= roots <= nodes
      modifies `gray, nodes`marked
      ensures InMark(g, roots, {}) && View().black == old(View()).black
      ensures View().marked == old(View()).marked + (Some_(globals) + Some_(paths) + Some_(currentPath)
        + Some_(currentChoiceId))
    {
      hide Reaches, Tri;
      MarkRoot(globals, g, roots);
      MarkRoot(paths, g, roots);
      MarkRoot(currentPath, g, roots);
      MarkRoot(currentChoiceId, g, roots);
    }

    method MarkChoices(ghost g: map<Obj, set<Obj>>, ghost roots: set<Obj>)
      requires InMark(g, roots, {}) && Objects(choices, |choices|) <= roots <= nodes
      modifies `gray, nodes`marked
      ensures InMark(g, roots, {}) && old(View()).marked + Objects(choices, |choices|) <= View().marked
        && View().black == old(View()).black
    {
      hide Reaches, Tri;
      var i := 0;
      while i < |choices|
        invariant 0 <= i <= |choices| && InMark(g, roots, {}) && View().black == old(View()).black
        invariant old(View()).marked + Objects(choices, i) <= View().marked
      {
        ObjectsGrow(choices, i + 1, |choices|);
        MarkRoot(choices[i], g, roots);
        i := i + 1;
      }
    }

    method MarkStack(ghost g: map<Obj, set<Obj>>, ghost roots: set<Obj>)
      requires InMark(g, roots, {}) && stackTop <= stack.Length && Objects(stack[..], stackTop) <= roots <= nodes
      modifies `gray, nodes`marked
      ensures InMark(g, roots, {}) && Objects(stack[..], stackTop) <= View().marked && View().black == old(View()).black
    {
      hide Reaches, Tri;
      var i := 0;
      while i < stackTop
        invariant 0 <= i <= stackTop && InMark(g, roots, {}) && View().black == old(View()).black
        invariant Objects(stack[..], i) <= View().marked
      {
        ObjectsGrow(stack[..], i + 1, stackTop);
        if stack[i] != null {
          MarkRoot(stack[i], g, roots);
        }
        i := i + 1;
      }
    }

    method MarkOwned(ghost g: map<Obj, set<Obj>>, ghost roots: set<Obj>)
      requires InMark(g, roots, {}) && Keys() <= roots <= nodes
      modifies `gray, nodes`marked
      ensures InMark(g, roots, {}) && old(View()).marked + Keys() <= View().marked && View().black == old(View()).black
    {
      hide Reaches, Tri;
      var i := 0;
      while i < owned.entries.Length
        invariant 0 <= i <= owned.entries.Length && InMark(g, roots, {}) && View().black == old(View()).black
        invariant old(View()).marked <= View().marked
        invariant forall j | 0 <= j < i && !owned.entries[j].Empty? :: owned.entries[j].key in View().marked
      {
        if !owned.entries[i].Empty? {
          assert owned.entries[..][i].key in Keys();
          MarkRoot(owned.entries[i].key, g, roots);
        }
        i := i + 1;
      }
      forall o | o in Keys()
        ensures o in View().marked
      {
        var j :| 0 <= j < |owned.entries[..]| && !owned.entries[..][j].Empty? && owned.entries[..][j].key == o;
        assert owned.entries[j].key == o;
      }
    }

    // What a collection keeps: the reachable objects, in the order of the list.
    ghost function Survivors(): seq<Obj>
      reads `stack, `stackTop, `globals, `paths, `currentPath, `currentChoiceId, `choices, stack, owned, owned.entries,
        `heap, `nodes, nodes`payload
      requires stackTop <= stack.Length
    {
      Filter(heap, Live())
    }

    ghost function Live(): set<Obj>
      reads `stack, `stackTop, `globals, `paths, `currentPath, `currentChoiceId, `choices, stack, owned, owned.entries,
        `nodes, nodes`payload
      requires stackTop <= stack.Length
    {
      set o | o in nodes && Reaches(Edges(), Roots(), o)
    }

    // The counter: what the last collection left, and every request since then.
    ghost predicate Counted()
      reads `bytes, `base, `asked
    {
      bytes == base + Asked(asked)
    }

    // Whether a request starts a collection.
    predicate Starts(sizeOld: nat, sizeNew: nat)
      reads `bytes, `threshold, `enabled, `stress
    {
      sizeNew > 0 && enabled && (stress || bytes + sizeNew - sizeOld > threshold)
    }

    // A collection starts exactly when the requests since the last one, with this one, pass the threshold.
    lemma StartsExactly(sizeOld: nat, sizeNew: nat)
      requires Counted()
      ensures Starts(sizeOld, sizeNew) <==>
        sizeNew > 0 && enabled && (stress || base + Asked(asked + [Request(sizeOld, sizeNew)]) > threshold)
    {
      AskedMore(asked, Request(sizeOld, sizeNew));
    }

    // Everything an object on the list refers to is on the list: the name and the pool of a path, and the
    // key and the value of an entry.
    lemma NothingDangles(obj: Obj)
      requires Valid() && obj in nodes
      ensures match obj.payload
        case TableObj(es) =>
          forall i | 0 <= i < |es| && es[i].key != null ::
            es[i].key in nodes && (es[i].value != null ==> es[i].value in nodes)
        case PathObj(name, pool) =>
          (name != null ==> name in nodes) && forall i | 0 <= i < |pool| && pool[i] != null :: pool[i] in nodes
        case _ => true
    {
      hide NoRepeats, Linked;
      match obj.payload
      case TableObj(es) =>
        forall i | 0 <= i < |es| && es[i].key != null
          ensures es[i].key in nodes && (es[i].value != null ==> es[i].value in nodes)
        {
          EntriesGrow(es, i + 1, |es|);
        }
      case PathObj(name, pool) =>
        forall i | 0 <= i < |pool| && pool[i] != null
          ensures pool[i] in nodes
        {
          ObjectsGrow(pool, i + 1, |pool|);
        }
      case _ =>
    }

    // And so is everything that the story itself refers to.
    lemma RootsStay()
      requires Valid()
      ensures forall i | 0 <= i < stackTop && stack[i] != null :: stack[i] in nodes
      ensures forall i | 0 <= i < owned.entries.Length && !owned.entries[i].Empty? :: owned.entries[i].key in nodes
      ensures globals != null ==> globals in nodes
      ensures paths != null ==> paths in nodes
      ensures currentPath != null ==> currentPath in nodes
      ensures currentChoiceId != null ==> currentChoiceId in nodes
      ensures forall i | 0 <= i < |choices| && choices[i] != null :: choices[i] in nodes
    {
      hide NoRepeats, Linked;
      forall i | 0 <= i < stackTop && stack[i] != null
        ensures stack[i] in nodes
      {
        ObjectsGrow(stack[..], i + 1, stackTop);
      }
      forall i | 0 <= i < owned.entries.Length && !owned.entries[i].Empty?
        ensures owned.entries[i].key in nodes
      {
        assert owned.entries[..][i].key in Keys();
      }
      forall i | 0 <= i < |choices| && choices[i] != null
        ensures choices[i] in nodes
      {
        ObjectsGrow(choices, i + 1, |choices|);
      }
    }

    // ----- collecting -----

    // Afterwards exactly the reachable objects are left, in their order, each of them blackened once.
    method Collect()
      requires Valid() && AllWhite()
      modifies `gray, `bytes, `blackened, `objects, `heap, `nodes, `threshold, `base, `asked, nodes`marked, nodes`next
      ensures Valid() && AllWhite() && heap == old(Survivors()) && nodes == old(Live()) == Live()
      ensures base == bytes && asked == []
      ensures NoRepeats(blackened) && ToSet(blackened) == nodes
      ensures bytes == SumIn(heap, nodes)
      ensures threshold == Larger(bytes + bytes * 50 / 100, 1024 * 1024)
      decreases 5, 2
    {
      hide Reaches, Tri, Children, Filter, Size, SumIn, NoRepeats, Linked, ToSet, Survivors, Live, AllWhite, Valid;
      Reclaim();
      threshold := Larger(bytes + bytes * HEAP_GROWTH_PERCENT / 100, HEAP_SIZE_MIN);
      base, asked := bytes, [];
    }

    method Reclaim()
      requires Valid() && AllWhite()
      modifies `gray, `bytes, `blackened, `objects, `heap, `nodes, `asked, nodes`marked, nodes`next
      ensures Valid() && AllWhite() && heap == old(Survivors()) && nodes == old(Live()) == Live()
      ensures NoRepeats(blackened) && ToSet(blackened) == nodes
      ensures bytes == SumIn(heap, nodes)
      decreases 5, 1
    {
      hide Reaches, Tri, Children, Filter, Size, SumIn, NoRepeats, Linked, Objects, Some_, SlotKeys, ToSet;
      ghost var g, roots, live := Edges(), Roots(), Live();
      assert Survivors() == Filter(heap, live);
      hide Survivors;
      MarkAndSweep(g, roots, live);
      LiveStays(g, roots);
    }

    lemma LiveStays(g: map<Obj, set<Obj>>, roots: set<Obj>)
      requires stackTop <= stack.Length && roots == Roots() <= g.Keys && nodes <= g.Keys
        && forall o | o in g :: g[o] <= g.Keys
      requires forall o | o in nodes :: g[o] == Children(o.payload)
      requires nodes == (set o | o in g && Reaches(g, roots, o)) == ToSet(heap) && NoRepeats(heap)
        && Linked(objects, heap)
      ensures Valid() && Live() == nodes
    {
      ghost var h := map o | o in nodes :: g[o];
      Restricted(g, h, roots, nodes);
      hide Reaches, Children, Linked, NoRepeats;
      assert Edges() == h;
      forall o | o in nodes
        ensures o in Live()
      {
        assert Reaches(h, roots, o);
      }
    }

    method MarkAndSweep(ghost g: map<Obj, set<Obj>>, ghost roots: set<Obj>, ghost live: set<Obj>)
      requires Valid() && AllWhite() && g == Edges() && roots == Roots() && live == Live()
      modifies `gray, `bytes, `blackened, `objects, `heap, `nodes, `asked, nodes`marked, nodes`next
      ensures heap == Filter(old(heap), live) && nodes == live == ToSet(heap) && NoRepeats(heap)
        && Linked(objects, heap)
      ensures AllWhite() && ToSet(blackened) == live && NoRepeats(blackened) && bytes == SumIn(heap, live)
      decreases 5, 0
    {
      hide Reaches, Tri, Children, Filter, Size, SumIn, NoRepeats, Linked, Objects, Some_, SlotKeys;
      bytes := 0;
      blackened := [];
      Mark(g, roots, live);
      SumFiltered(heap, live);
      ghost var kept := Filter(heap, live);
      assert bytes == SumIn(kept, live);
      Sweep(live);
      assert bytes == SumIn(kept, live);
    }

    // The marking phase marks exactly what is reachable, and counts its size.
    method Mark(ghost g: map<Obj, set<Obj>>, ghost roots: set<Obj>, ghost live: set<Obj>)
      requires g == Edges() && Enclosed() && AllWhite() && blackened == [] && bytes == 0
      requires nodes == ToSet(heap) && NoRepeats(heap) && stackTop <= stack.Length && roots == Roots() <= nodes
      requires live == set o | o in nodes && Reaches(g, roots, o)
      modifies `gray, `bytes, `blackened, nodes`marked
      ensures gray == [] && forall o | o in nodes :: o.marked <==> o in live
      ensures ToSet(blackened) == live && NoRepeats(blackened) && bytes == SumIn(heap, live)
    {
      hide Reaches, Tri, Children, Size, SumIn;
      NothingMarked(g, roots);
      MarkRoots(g, roots);
      BlackenAll(g, roots);
      MarkedIsLive(g, roots, live);
    }

    lemma NothingMarked(g: map<Obj, set<Obj>>, roots: set<Obj>)
      requires g == Edges() && Enclosed() && AllWhite() && blackened == []
      ensures InMark(g, roots, {})
    {
      assert View().marked == {};
    }

    lemma MarkedIsLive(g: map<Obj, set<Obj>>, roots: set<Obj>, live: set<Obj>)
      requires InMark(g, roots, {}) && gray == [] && roots <= View().marked
      requires live == set o | o in nodes && Reaches(g, roots, o)
      ensures forall o | o in nodes :: o.marked <==> o in live
      ensures ToSet(blackened) == live && NoRepeats(blackened)
    {
      AllReached(View(), g, roots);
      assert ToSet(blackened) == live by {
        forall o | o in blackened
          ensures o in live
        {
        }
      }
    }

    // Unlink everything unmarked, through the place that points to it, and clear the marks.
    method Sweep(ghost live: set<Obj>)
      requires nodes == ToSet(heap) && NoRepeats(heap) && Linked(objects, heap) && live <= nodes && gray == []
      requires forall o | o in nodes :: o.marked <==> o in live
      modifies `bytes, `objects, `heap, `nodes, `asked, nodes`marked, nodes`next
      ensures heap == Filter(old(heap), live) && nodes == live == ToSet(heap)
      ensures NoRepeats(heap) && Linked(objects, heap) && AllWhite() && bytes == old(bytes)
      decreases 4
    {
      hide Filter, Linked, NoRepeats;
      ghost var kept, rest := [], heap;
      var prev: Obj? := null;
      var cur := objects;
      ListHead(objects, heap);
      assert [] + heap == heap && [] + Filter(heap, live) == Filter(heap, live);
      while cur != null
        invariant Sweeping(kept, rest, live, prev, cur)
        invariant kept + Filter(rest, live) == Filter(old(heap), live)
        invariant nodes == old(nodes) && bytes == old(bytes) && gray == []
        decreases |rest|
      {
        FilterHead(rest, live);
        Regroup(kept, if rest[0] in live then [rest[0]] else [], Filter(rest[1..], live));
        if !cur.marked {
          cur := DropOne(kept, rest, live, prev, cur);
        } else {
          var next := SpareOne(kept, rest, live, prev, cur);
          prev := cur;
          cur := next;
          kept := kept + [rest[0]];
        }
        rest := rest[1..];
      }
      assert kept + rest == kept;
      FilterNothing(live);
      nodes := live;
    }

    // In the middle of a sweep: kept was seen and stays, rest is still to be seen.
    ghost predicate Sweeping(kept: seq<Obj>, rest: seq<Obj>, live: set<Obj>, prev: Obj?, cur: Obj?)
      reads `heap, `objects, `nodes, heap`next, nodes`marked, heap`marked
    {
      && heap == kept + rest && NoRepeats(heap) && Linked(objects, heap) && ToSet(heap) <= nodes
      && prev == (if kept == [] then null else kept[|kept| - 1])
      && cur == (if rest == [] then null else rest[0])
      && (forall o | o in kept :: !o.marked)
      && (forall o | o in rest :: o.marked <==> o in live)
    }

    // Unlink and free an object that was not reached.
    method DropOne(ghost kept: seq<Obj>, ghost rest: seq<Obj>, ghost live: set<Obj>, prev: Obj?,
            cur: Obj) returns (next: Obj?)
      requires Sweeping(kept, rest, live, prev, cur) && rest != []
      modifies `bytes, `objects, `heap, `asked, nodes`next
      ensures Sweeping(kept, rest[1..], live, prev, next) && bytes == old(bytes)
      decreases 3
    {
      hide Linked, NoRepeats;
      Middle(kept, rest);
      next := Unlink(prev, cur, |kept|);
      assert heap == kept + rest[1..];
      assert forall o | o in rest[1..] :: o in rest;
      ObjectFree(cur);
    }

    // Clear the mark of an object that stays.
    method SpareOne(ghost kept: seq<Obj>, ghost rest: seq<Obj>, ghost live: set<Obj>, prev: Obj?,
            cur: Obj) returns (next: Obj?)
      requires Sweeping(kept, rest, live, prev, cur) && rest != []
      modifies nodes`marked
      ensures Sweeping(kept + [cur], rest[1..], live, cur, next)
    {
      Middle(kept, rest);
      assert heap[|kept|] == cur && heap == kept + [cur] + rest[1..];
      assert |rest| > 1 ==> heap[|kept| + 1] == rest[1];
      forall o | o in rest[1..]
        ensures o != cur && o in rest
      {
        var i :| 0 <= i < |rest[1..]| && rest[1..][i] == o;
        assert heap[|kept| + 1 + i] == o;
      }
      cur.marked := false;
      next := cur.next;
    }

    // Remove the i-th object of the list; prev is the one before it, if there is one.
    method Unlink(prev: Obj?, cur: Obj, ghost i: nat) returns (next: Obj?)
      requires i < |heap| && heap[i] == cur && NoRepeats(heap) && Linked(objects, heap)
      requires prev == if i == 0 then null else heap[i - 1]
      requires forall o | o in heap :: o in nodes
      modifies `objects, `heap, nodes`next
      ensures heap == old(heap)[..i] + old(heap)[i + 1..] && NoRepeats(heap) && Linked(objects, heap)
      ensures next == if i + 1 < |old(heap)| then old(heap)[i + 1] else null
    {
      next := cur.next;
      if prev == null {
        objects := cur.next;
      } else {
        prev.next := cur.next;
      }
      heap := heap[..i] + heap[i + 1..];
    }

    method ObjectFree(obj: Obj)
      modifies `bytes, `asked
      ensures bytes == old(bytes) && (old(Counted()) ==> Counted())
      decreases 2
    {
      if obj.payload.TableObj? {
        MemFree();
      }
      MemFree();
    }

    // Freeing asks the allocation hook for no bytes, which never starts a collection.
    method MemFree()
      modifies `bytes, `asked
      ensures bytes == old(bytes) && (old(Counted()) ==> Counted())
      decreases 1
    {
      MemAlloc(0, 0);
    }

    // Nothing more dies right after a collection.
    lemma AllSurvive()
      requires Valid() && nodes == Live()
      ensures Survivors() == heap
    {
      hide Reaches, Filter;
      FilterAll(heap, nodes);
    }

    // The allocation hook: it may collect, but only for a request of some size.
    method MemAlloc(sizeOld: nat, sizeNew: nat)
      requires sizeNew > 0 ==> Valid() && AllWhite()
      modifies `bytes, `asked,
               (if sizeNew > 0 then {this} else {})`gray, (if sizeNew > 0 then {this} else {})`blackened,
               (if sizeNew > 0 then {this} else {})`objects, (if sizeNew > 0 then {this} else {})`heap,
               (if sizeNew > 0 then {this} else {})`nodes, (if sizeNew > 0 then {this} else {})`threshold,
               (if sizeNew > 0 then {this} else {})`base,
               (if sizeNew > 0 then nodes else {})`marked, (if sizeNew > 0 then nodes else {})`next
      ensures sizeNew > 0 ==> Valid() && AllWhite()
      ensures !old(Starts(sizeOld, sizeNew)) ==>
        && bytes == old(bytes) + sizeNew - sizeOld && threshold == old(threshold) && heap == old(heap)
        && base == old(base) && asked == old(asked) + [Request(sizeOld, sizeNew)]
      ensures old(Starts(sizeOld, sizeNew)) ==>
        && heap == old(Survivors()) && nodes == old(Live()) && base == bytes == SumIn(heap, nodes) && asked == []
        && threshold == Larger(bytes + bytes * 50 / 100, 1024 * 1024)
      ensures old(Counted()) ==> Counted()
      decreases if sizeNew > 0 then 6 else 0
    {
      hide Reaches, Filter, Children, Size, SumIn, NoRepeats, Linked, Survivors, Live, AllWhite, Valid;
      AskedMore(asked, Request(sizeOld, sizeNew));
      bytes := bytes + sizeNew - sizeOld;
      asked := asked + [Request(sizeOld, sizeNew)];
      if enabled {
        if stress {
          if sizeNew > 0 {
            Collect();
            AllSurvive();
          }
        }
        if sizeNew > 0 && bytes > threshold {
          Collect();
        }
      }
    }

    // ----- objects and owned roots -----

    // A new object, at the head of the list.  A collection that the request starts does not see it yet.
    method ObjectNew(payload: Payload) returns (obj: Obj)
      requires Valid() && AllWhite() && Children(payload) == {} && Size(payload) > 0
      modifies `bytes, `gray, `blackened, `objects, `heap, `nodes, `threshold, `base, `asked, nodes`marked, nodes`next
      ensures Valid() && AllWhite() && fresh(obj) && obj.payload == payload && objects == obj
      ensures !old(Starts(0, Size(payload))) ==>
        && heap == [obj] + old(heap) && bytes == old(bytes) + Size(payload) && threshold == old(threshold)
        && base == old(base) && asked == old(asked) + [Request(0, Size(payload))]
      ensures old(Starts(0, Size(payload))) ==>
        && heap == [obj] + old(Survivors()) && base == bytes == SumIn(old(Survivors()), old(Live())) && asked == []
        && threshold == Larger(bytes + bytes * 50 / 100, 1024 * 1024)
      ensures old(Counted()) ==> Counted()
    {
      hide Reaches, Filter, Size, Children, Linked, NoRepeats, SumIn, Survivors, Live, Asked, Valid, AllWhite;
      MemAlloc(0, Size(payload));
      obj := MakeObject(payload);
    }

    method MakeObject(payload: Payload) returns (obj: Obj)
      requires Valid() && AllWhite() && Children(payload) == {}
      modifies `objects, `heap, `nodes
      ensures Valid() && AllWhite() && fresh(obj) && obj.payload == payload && objects == obj
      ensures heap == [obj] + old(heap)
    {
      hide Reaches, Filter, Size, Children, Linked, NoRepeats;
      obj := new Obj(payload);
      Link(obj);
    }

    method Link(obj: Obj)
      requires Valid() && AllWhite() && obj !in nodes && !obj.marked && Children(obj.payload) == {}
      modifies `objects, `heap, `nodes, obj`next
      ensures Valid() && AllWhite() && objects == obj && heap == [obj] + old(heap)
    {
      hide Children, NoRepeats, Linked, Objects, Some_, SlotKeys;
      PointTo(obj);
      nodes := nodes + {obj};
    }

    method PointTo(obj: Obj)
      requires NoRepeats(heap) && Linked(objects, heap) && obj !in ToSet(heap)
      modifies `objects, `heap, obj`next
      ensures NoRepeats(heap) && Linked(objects, heap) && objects == obj && heap == [obj] + old(heap)
      ensures ToSet(heap) == old(ToSet(heap)) + {obj}
    {
      obj.next := objects;
      Consed(objects, obj, heap);
      objects := obj;
      heap := [obj] + heap;
    }

    // Record an object as a root.
    method Own(obj: Obj)
      requires Valid() && owned.Valid() && obj in nodes
      modifies owned, owned.entries
      ensures Valid() && owned.Valid() && obj in Roots()
      ensures obj in Keys() && Keys() <= old(Keys()) + {obj}
    {
      ghost var t := owned.View();
      var _ := owned.Insert(obj, ());
      InsertKeys(t, obj, owned.maxLoad, owned.hash);
    }

    // Release the record of an object.  The slot keeps its key, so the object stays a root if it was one.
    method Disown(obj: Obj)
      requires Valid() && owned.Valid()
      modifies owned, owned.entries
      ensures Valid() && owned.Valid() && obj !in owned.contents
      ensures Roots() == old(Roots())
    {
      ghost var t := owned.View();
      var _ := owned.Remove(obj);
      RemoveKeys(t, obj, owned.maxLoad, owned.hash);
    }

    // Take objects from the gray list until it is empty.
    method BlackenAll(ghost g: map<Obj, set<Obj>>, ghost roots: set<Obj>)
      requires InMark(g, roots, {}) && blackened == [] && bytes == 0 && nodes == ToSet(heap) && NoRepeats(heap)
      modifies `gray, `bytes, `blackened, nodes`marked
      ensures InMark(g, roots, {}) && gray == [] && old(View()).marked <= View().marked
      ensures bytes == SumIn(heap, ToSet(blackened))
    {
      hide Reaches, Tri, SumIn, Children, Size, NoRepeats;
      SumNone(heap);
      assert ToSet(blackened) == {};
      while |gray| > 0
        invariant InMark(g, roots, {}) && old(View()).marked <= View().marked && bytes == SumIn(heap, ToSet(blackened))
        decreases Pending() + |heap|
      {
        SetBound(heap, View().marked);
        ghost var before := blackened;
        var obj := PopGray(g, roots);
        SumAdd(heap, ToSet(before), obj);
        assert ToSet(blackened) == ToSet(before) + {obj};
        BlackenObject(obj, g, roots);
      }
    }

    method PopGray(ghost g: map<Obj, set<Obj>>, ghost roots: set<Obj>) returns (obj: Obj)
      requires InMark(g, roots, {}) && gray != []
      modifies `gray, `blackened
      ensures View() == PopOne(old(View())) && obj == old(gray)[|old(gray)| - 1] && InMark(g, roots, {obj})
      ensures obj in View().marked && obj !in old(blackened) && Pending() == old(Pending()) - 1
    {
      hide Reaches;
      PopStep(View(), g, roots);
      var n := |gray| - 1;
      obj := gray[n];
      assert obj in gray;
      blackened := blackened + [obj];
      gray := gray[..n];
    }
  }

  function Larger(a: int, b: nat): (r: nat)
    ensures r >= a && r >= b && (r == a || r == b)
  {
    if a < b then b else a
  }

  lemma Restricted(g: map<Obj, set<Obj>>, h: map<Obj, set<Obj>>, roots: set<Obj>, live: set<Obj>)
    requires roots <= g.Keys && (forall o | o in g :: g[o] <= g.Keys)
    requires live == (set o | o in g && Reaches(g, roots, o)) && h == map o | o in live :: g[o]
    ensures roots <= live && forall o | o in live :: g[o] <= live
    ensures forall o | o in live :: Reaches(h, roots, o)
  {
    forall o | o in roots
      ensures o in live
    {
      RootReached(g, roots, o);
    }
    forall o, c | o in live && c in g[o]
      ensures c in live
    {
      NextReached(g, roots, o, c);
    }
    forall o | o in live
      ensures Reaches(h, roots, o)
    {
      var n: nat :| o in Within(g, roots, n);
      SameWithin(g, h, roots, n);
      assert o in Within(h, roots, n);
    }
  }

  lemma {:induction false} FilterAll(list: seq<Obj>, s: set<Obj>)
    ensures (forall o | o in list :: o in s) ==> Filter(list, s) == list
    decreases |list|
  {
    if list != [] {
      FilterAll(list[..|list| - 1], s);
    }
  }

  lemma {:induction false} FilterPlus(a: seq<Obj>, b: seq<Obj>, s: set<Obj>)
    ensures Filter(a + b, s) == Filter(a, s) + Filter(b, s)
    decreases |b|
  {
    if b == [] {
      assert a + b == a;
    } else {
      var init, last := b[..|b| - 1], b[|b| - 1];
      FilterPlus(a, init, s);
      assert (a + b)[..|a + b| - 1] == a + init;
    }
  }

  lemma FilterHead(list: seq<Obj>, s: set<Obj>)
    ensures list != [] ==> Filter(list, s) == (if list[0] in s then [list[0]] else []) + Filter(list[1..], s)
  {
    if list != [] {
      var first := [list[0]];
      assert Filter(first, s) == if list[0] in s then first else [] by {
        assert first[..0] == [];
      }
      assert list == first + list[1..];
      hide Filter;
      FilterPlus(first, list[1..], s);
    }
  }

  lemma FilterNothing(s: set<Obj>)
    ensures Filter([], s) == []
  {
  }

  lemma Consed(head: Obj?, obj: Obj, list: seq<Obj>)
    requires Linked(head, list) && NoRepeats(list) && obj.next == head && obj !in ToSet(list)
    ensures Linked(obj, [obj] + list) && NoRepeats([obj] + list) && ToSet([obj] + list) == ToSet(list) + {obj}
  {
    forall i | 0 < i < |[obj] + list|
      ensures ([obj] + list)[i] == list[i - 1] && list[i - 1] != obj
    {
    }
  }

  lemma ListHead(head: Obj?, list: seq<Obj>)
    requires Linked(head, list)
    ensures head == if list == [] then null else list[0]
  {
  }

  lemma Middle<T>(a: seq<T>, b: seq<T>)
    requires b != []
    ensures (a + b)[..|a|] == a && (a + b)[|a| + 1..] == b[1..] && (a + b)[|a|] == b[0]
    ensures a + b == a + [b[0]] + b[1..] && b == [b[0]] + b[1..]
    ensures a != [] ==> (a + b)[|a| - 1] == a[|a| - 1]
    ensures |b| > 1 ==> (a + b)[|a| + 1] == b[1]
  {
  }

  lemma Regroup<T>(a: seq<T>, b: seq<T>, c: seq<T>)
    ensures a + (b + c) == a + b + c && a + [] == a
  {
  }

  lemma {:induction false} SumNone(list: seq<Obj>)
    ensures SumIn(list, {}) == 0
    decreases |list|
  {
    if list != [] {
      SumNone(list[..|list| - 1]);
    }
  }

  lemma {:induction false} SetBound(list: seq<Obj>, s: set<Obj>)
    requires forall o | o in s :: o in list
    ensures |s| <= |list|
    decreases |list|
  {
    if list == [] {
      assert s == {};
    } else {
      var last, init := list[|list| - 1], list[..|list| - 1];
      forall o | o in s - {last}
        ensures o in init
      {
        var i :| 0 <= i < |list| && list[i] == o;
        assert init[i] == o;
      }
      SetBound(init, s - {last});
      assert s <= (s - {last}) + {last};
      Smaller(s, (s - {last}) + {last});
    }
  }

  lemma Smaller<T>(a: set<T>, b: set<T>)
    requires a <= b
    ensures |a| <= |b|
  {
    assert b == a + (b - a);
  }

  lemma {:induction false} EntriesGrow(es: seq<KV>, i: nat, j: nat)
    requires i <= j <= |es|
    ensures EntryChildren(es, i) <= EntryChildren(es, j)
    decreases j
  {
    if i < j {
      EntriesGrow(es, i, j - 1);
    }
  }

  lemma {:induction false} ObjectsGrow(os: seq<Obj?>, i: nat, j: nat)
    requires i <= j <= |os|
    ensures Objects(os, i) <= Objects(os, j)
    decreases j
  {
    if i < j {
      ObjectsGrow(os, i, j - 1);
    }
  }

  lemma EnterKeys(t: Table<Obj, ()>, key: Obj, value: (), hash: Obj -> nat)
    requires t.es != [] && Enter(t, key, value, hash).Some?
    ensures var es := Enter(t, key, value, hash).value.0.es;
      key in SlotKeys(es) && SlotKeys(es) <= SlotKeys(t.es) + {key}
  {
    hide Probing.FindSlot;
    var i := FindSlot(t.es, key, hash).value;
    var es := t.es[i := Occupied(key, value)];
    assert es[i].key == key;
    forall o | o in SlotKeys(es)
      ensures o in SlotKeys(t.es) + {key}
    {
      var j :| 0 <= j < |es| && !es[j].Empty? && es[j].key == o;
      if j != i { assert t.es[j].key == o; }
    }
  }

  lemma {:induction false} RehashKeys(es: seq<Entry<Obj, ()>>, i: nat, cap: nat, hash: Obj -> nat)
    requires i <= |es| && cap > 0 && Rehash(es, i, cap, hash).Some?
    ensures SlotKeys(Rehash(es, i, cap, hash).value.es) <= SlotKeys(es)
    decreases i
  {
    hide Probing.FindSlot;
    if i > 0 {
      RehashKeys(es, i - 1, cap, hash);
      if es[i - 1].Occupied? {
        EnterKeys(Rehash(es, i - 1, cap, hash).value, es[i - 1].key, es[i - 1].value, hash);
        assert es[i - 1].key in SlotKeys(es);
      }
    } else {
      assert SlotKeys(Empties(cap)) == {};
    }
  }

  lemma InsertKeys(t: Table<Obj, ()>, key: Obj, maxLoad: nat, hash: Obj -> nat)
    requires Apply(t, Op.Insert(key, ()), maxLoad, hash).Some?
    ensures var es := Apply(t, Op.Insert(key, ()), maxLoad, hash).value.0.es;
      key in SlotKeys(es) && SlotKeys(es) <= SlotKeys(t.es) + {key}
  {
    hide Enter, SlotKeys, Rehash;
    if NeedsResize(|t.es|, t.count, maxLoad) {
      RehashKeys(t.es, |t.es|, NextSize(|t.es|), hash);
      EnterKeys(Resized(t, hash).value, key, (), hash);
    } else {
      EnterKeys(t, key, (), hash);
    }
  }

  lemma RemoveKeys(t: Table<Obj, ()>, key: Obj, maxLoad: nat, hash: Obj -> nat)
    requires Apply(t, Op.Remove(key), maxLoad, hash).Some?
    ensures SlotKeys(Apply(t, Op.Remove(key), maxLoad, hash).value.0.es) == SlotKeys(t.es)
  {
    hide Probing.FindSlot;
    var es := Apply(t, Op.Remove(key), maxLoad, hash).value.0.es;
    assert |es| == |t.es|
      && forall i | 0 <= i < |es| :: es[i].Empty? == t.es[i].Empty? && (!es[i].Empty? ==> es[i].key == t.es[i].key);
    forall o
      ensures o in SlotKeys(es) <==> o in SlotKeys(t.es)
    {
      if o in SlotKeys(es) {
        var j :| 0 <= j < |es| && !es[j].Empty? && es[j].key == o;
        assert t.es[j].key == o;
      }
      if o in SlotKeys(t.es) {
        var j :| 0 <= j < |t.es| && !t.es[j].Empty? && t.es[j].key == o;
        assert es[j].key == o;
      }
    }
  }

  function ToSet(list: seq<Obj>): set<Obj> {
    set o | o in list
  }

  ghost function SlotKeys(es: seq<Entry<Obj, ()>>): set<Obj> {
    set i | 0 <= i < |es| && !es[i].Empty? :: es[i].key
  }
}
