// The open-addressing hash map of src/hashmap.h: linear probing with tombstones, and a count that is
// never decreased.

module Probing {
  import opened Wrappers
  import opened Bits

  datatype Entry<K, V> = Empty | Occupied(key: K, value: V) | Deleted(key: K, value: V)

  // ----- positions -----

  // The slot that is looked at after d steps from h, going around.
  function At(h: nat, d: nat, cap: nat): (i: nat)
    requires h < cap && d < cap
    ensures i < cap
  {
    if h + d < cap then h + d else h + d - cap
  }

  // How many steps lead from h to i.
  function Dist(h: nat, i: nat, cap: nat): (d: nat)
    requires h < cap && i < cap
    ensures d < cap && At(h, d, cap) == i
  {
    if h <= i then i - h else i + cap - h
  }

  lemma AndBound(x: nat, y: nat)
    ensures And(x, y) <= y
  {
    if x > 0 && y > 0 {
      AndBound(x / 2, y / 2);
    }
  }

  function Masked(x: nat, cap: nat): (i: nat)
    requires cap > 0
    ensures i < cap
  {
    AndBound(x, cap - 1);
    And(x, cap - 1)
  }

  function Capacity(k: nat): (n: nat)
    ensures n >= 16
  {
    if k == 0 then 16 else 2 * Capacity(k - 1)
  }

  ghost predicate IsCapacity(cap: nat) {
    exists k: nat :: cap == Capacity(k)
  }

  lemma {:induction false} CapacityIsPower(k: nat)
    ensures Capacity(k) == Pow2(k + 4)
  {
    if k == 0 {
      assert Pow2(1) == 2 && Pow2(2) == 4 && Pow2(3) == 8;
    } else {
      CapacityIsPower(k - 1);
    }
  }

  lemma RemAround(x: nat, m: nat)
    requires m > 0 && x <= m
    ensures Rem(x, m) == if x == m then 0 else x
  {
    if x == m {
      ModUnique(x, m, 1, 0);
    } else {
      ModUnique(x, m, 0, x);
    }
  }

  // With a power of two, masking the next index goes around exactly at the end.
  lemma NextSlot(h: nat, d: nat, cap: nat)
    requires IsCapacity(cap) && h < cap && d + 1 < cap
    ensures Masked(At(h, d, cap) + 1, cap) == At(h, d + 1, cap)
  {
    hide And, Pow2, Rem, Capacity;
    var k: nat :| cap == Capacity(k);
    CapacityIsPower(k);
    AndMask(At(h, d, cap) + 1, k + 4);
    RemAround(At(h, d, cap) + 1, cap);
  }

  lemma CapacityGrows(cap: nat)
    ensures IsCapacity(16)
    ensures IsCapacity(cap) ==> IsCapacity(2 * cap) && cap >= 16
  {
    assert Capacity(0) == 16;
    if IsCapacity(cap) {
      var k: nat :| cap == Capacity(k);
      assert Capacity(k + 1) == 2 * cap;
    }
  }

  // ----- probing -----

  // The slot found by probing, or None when the probing never ends: once every slot was looked at
  // without a result, it only goes around.
  function Probe<K(==), V>(es: seq<Entry<K, V>>, key: K, index: nat, tombstone: Option<nat>,
          left: nat): (r: Option<nat>)
    requires index < |es| && (tombstone.Some? ==> tombstone.value < |es|)
    ensures r.Some? ==> r.value < |es|
    decreases left
  {
    if left == 0 then None
    else
      var next := Masked(index + 1, |es|);
      match es[index]
      case Empty => Some(if tombstone.Some? then tombstone.value else index)
      case Deleted(_, _) => Probe(es, key, next, if tombstone.Some? then tombstone else Some(index), left - 1)
      case Occupied(k, _) => if k == key then Some(index) else Probe(es, key, next, tombstone, left - 1)
  }

  function FindSlot<K(==), V>(es: seq<Entry<K, V>>, key: K, hash: K -> nat): (r: Option<nat>)
    requires es != []
    ensures r.Some? ==> r.value < |es|
  {
    Probe(es, key, Masked(hash(key), |es|), None, |es|)
  }

  ghost predicate HasEmpty<K, V>(es: seq<Entry<K, V>>) {
    exists i :: 0 <= i < |es| && es[i].Empty?
  }

  ghost predicate Has<K, V>(es: seq<Entry<K, V>>, i: nat, key: K) {
    i < |es| && es[i].Occupied? && es[i].key == key
  }

  // No slot before the d-th from h is empty.
  ghost predicate Crowded<K, V>(es: seq<Entry<K, V>>, h: nat, d: nat) {
    h < |es| && forall e | 0 <= e < d :: e < |es| && !es[At(h, e, |es|)].Empty?
  }

  // Every key is stored once, where probing for it passes no empty slot; the map is what is stored.
  ghost predicate Stores<K, V>(es: seq<Entry<K, V>>, hash: K -> nat, m: map<K, V>) {
    && (forall i | 0 <= i < |es| && es[i].Occupied? ::
          es[i].key in m && m[es[i].key] == es[i].value && Reachable(es, hash, i))
    && (forall k | k in m :: exists i: nat :: Has(es, i, k))
    && (forall i, j | 0 <= i < j < |es| && es[i].Occupied? && es[j].Occupied? :: es[i].key != es[j].key)
  }

  ghost predicate Reachable<K, V>(es: seq<Entry<K, V>>, hash: K -> nat, i: nat)
    requires i < |es| && es[i].Occupied?
  {
    var h := Masked(hash(es[i].key), |es|);
    Crowded(es, h, Dist(h, i, |es|))
  }

  // What probing finds: the slot of the key if it is stored, and otherwise a free slot that probing for
  // the key reaches without passing an empty one.
  ghost predicate Found<K, V>(es: seq<Entry<K, V>>, key: K, hash: K -> nat, m: map<K, V>, i: nat) {
    && i < |es|
    && if key in m then Has(es, i, key)
       else !es[i].Occupied? && var h := Masked(hash(key), |es|); Crowded(es, h, Dist(h, i, |es|))
  }

  // The state of the probing loop after d steps.
  ghost predicate Passed<K, V>(es: seq<Entry<K, V>>, key: K, h: nat, d: nat, tombstone: Option<nat>) {
    && Crowded(es, h, d) && d <= |es|
    && (forall e | 0 <= e < d :: !Has(es, At(h, e, |es|), key))
    && (tombstone.Some? ==>
          tombstone.value < |es| && es[tombstone.value].Deleted? && Dist(h, tombstone.value, |es|) < d)
  }

  // A stored key is never behind an empty slot.
  lemma NotBehindEmpty<K, V>(es: seq<Entry<K, V>>, key: K, hash: K -> nat, m: map<K, V>, d: nat, tombstone: Option<nat>)
    requires es != [] && Stores(es, hash, m) && key in m
    requires var h := Masked(hash(key), |es|); d < |es| && Passed(es, key, h, d, tombstone)
    ensures !es[At(Masked(hash(key), |es|), d, |es|)].Empty?
  {
    var h := Masked(hash(key), |es|);
    var i: nat :| Has(es, i, key);
    var e := Dist(h, i, |es|);
    assert Reachable(es, hash, i);
    assert At(h, e, |es|) == i;
  }

  lemma {:induction false} ProbeFinds<K, V>(es: seq<Entry<K, V>>, key: K, hash: K -> nat, m: map<K,
          V>, d: nat, tombstone: Option<nat>)
    requires es != [] && IsCapacity(|es|) && Stores(es, hash, m) && (HasEmpty(es) || key in m)
    requires var h := Masked(hash(key), |es|); d < |es| && Passed(es, key, h, d, tombstone)
    ensures var h := Masked(hash(key), |es|);
      var r := Probe(es, key, At(h, d, |es|), tombstone, |es| - d);
      r.Some? && Found(es, key, hash, m, r.value)
    decreases |es| - d
  {
    hide Passed, Stores, Found, HasEmpty, IsCapacity, At;
    var h, cap := Masked(hash(key), |es|), |es|;
    var i := At(h, d, cap);
    var next := if es[i].Deleted? && tombstone.None? then Some(i) else tombstone;
    if es[i].Empty? || Has(es, i, key) {
      StopHere(es, key, hash, m, d, tombstone);
    } else {
      StepOn(es, key, h, d, tombstone, next);
      if d + 1 == cap {
        NowhereElse(es, key, hash, m, h, next);
      } else {
        NextSlot(h, d, cap);
        ProbeFinds(es, key, hash, m, d + 1, next);
      }
    }
  }

  // At an empty slot, or at the key, probing ends: with the first tombstone it passed, if that is not the key.
  lemma StopHere<K, V>(es: seq<Entry<K, V>>, key: K, hash: K -> nat, m: map<K, V>, d: nat, tombstone: Option<nat>)
    requires es != [] && Stores(es, hash, m)
    requires var h := Masked(hash(key), |es|); d < |es| && Passed(es, key, h, d, tombstone)
    requires var i := At(Masked(hash(key), |es|), d, |es|); es[i].Empty? || Has(es, i, key)
    ensures var i := At(Masked(hash(key), |es|), d, |es|);
      && (tombstone.Some? ==> tombstone.value < |es|)
      && Found(es, key, hash, m, if es[i].Empty? && tombstone.Some? then tombstone.value else i)
  {
    var i := At(Masked(hash(key), |es|), d, |es|);
    if es[i].Empty? {
      if key in m { NotBehindEmpty(es, key, hash, m, d, tombstone); }
    } else {
      assert es[i].key in m;
    }
  }

  lemma StepOn<K, V>(es: seq<Entry<K, V>>, key: K, h: nat, d: nat, tombstone: Option<nat>, next: Option<nat>)
    requires h < |es| && d < |es| && Passed(es, key, h, d, tombstone)
    requires var i := At(h, d, |es|);
      && !es[i].Empty? && !Has(es, i, key)
      && next == if es[i].Deleted? && tombstone.None? then Some(i) else tombstone
    ensures Passed(es, key, h, d + 1, next)
  {
  }

  // Once everything was passed, there is neither an empty slot nor the key.
  lemma NowhereElse<K, V>(es: seq<Entry<K, V>>, key: K, hash: K -> nat, m: map<K, V>, h: nat, tombstone: Option<nat>)
    requires h < |es| && Passed(es, key, h, |es|, tombstone) && Stores(es, hash, m)
    ensures !HasEmpty(es) && key !in m
  {
    forall i | 0 <= i < |es|
      ensures !es[i].Empty? && !Has(es, i, key)
    {
      var e := Dist(h, i, |es|);
      assert !es[At(h, e, |es|)].Empty? && !Has(es, At(h, e, |es|), key);
    }
    assert forall i: nat :: !Has(es, i, key);
  }

  // Probing ends whenever there is an empty slot, and finds what it should.
  lemma FindSlotFinds<K, V>(es: seq<Entry<K, V>>, key: K, hash: K -> nat, m: map<K, V>)
    requires es != [] && IsCapacity(|es|) && Stores(es, hash, m) && (HasEmpty(es) || key in m)
    ensures var r := FindSlot(es, key, hash); r.Some? && Found(es, key, hash, m, r.value)
  {
    ProbeFinds(es, key, hash, m, 0, None);
  }

  // ----- changing one slot -----

  lemma CrowdedKept<K, V>(es: seq<Entry<K, V>>, i: nat, e: Entry<K, V>, h: nat, d: nat)
    requires i < |es| && !e.Empty? && Crowded(es, h, d)
    ensures Crowded(es[i := e], h, d)
  {
  }

  // Writing an entry into the slot that was found for its key stores it, and hides no other key.
  lemma Stored<K, V>(es: seq<Entry<K, V>>, hash: K -> nat, m: map<K, V>, i: nat, key: K, value: V)
    requires es != [] && Stores(es, hash, m) && Found(es, key, hash, m, i)
    ensures Stores(es[i := Occupied(key, value)], hash, m[key := value])
  {
    var fs, n := es[i := Occupied(key, value)], m[key := value];
    forall j | 0 <= j < |fs| && fs[j].Occupied?
      ensures fs[j].key in n && n[fs[j].key] == fs[j].value && Reachable(fs, hash, j)
    {
      var h := Masked(hash(fs[j].key), |fs|);
      if j == i && key in m { assert Reachable(es, hash, i); }
      if j != i {
        assert Reachable(es, hash, j);
        if fs[j].key == key { assert false; }
      }
      CrowdedKept(es, i, Occupied(key, value), h, Dist(h, j, |es|));
    }
    forall k | k in n
      ensures exists j: nat :: Has(fs, j, k)
    {
      if k == key {
        assert Has(fs, i, k);
      } else {
        var j: nat :| Has(es, j, k);
        assert Has(fs, j, k);
      }
    }
  }

  // A tombstone keeps its key, and keeps the probe paths through it.
  lemma Dropped<K, V>(es: seq<Entry<K, V>>, hash: K -> nat, m: map<K, V>, i: nat)
    requires i < |es| && es[i].Occupied? && Stores(es, hash, m)
    ensures Stores(es[i := Deleted(es[i].key, es[i].value)], hash, m - {es[i].key})
  {
    var key, fs := es[i].key, es[i := Deleted(es[i].key, es[i].value)];
    forall j | 0 <= j < |fs| && fs[j].Occupied?
      ensures fs[j].key in m - {key} && (m - {key})[fs[j].key] == fs[j].value && Reachable(fs, hash, j)
    {
      assert Reachable(es, hash, j);
      var h := Masked(hash(fs[j].key), |fs|);
      CrowdedKept(es, i, fs[i], h, Dist(h, j, |es|));
    }
    forall k | k in m - {key}
      ensures exists j: nat :: Has(fs, j, k)
    {
      var j: nat :| Has(es, j, k);
      assert Has(fs, j, k);
    }
  }

  // ----- counting -----

  // Slots that are occupied or hold a tombstone.
  function Used<K, V>(es: seq<Entry<K, V>>): (n: nat)
    ensures n <= |es|
  {
    if es == [] then 0 else Used(es[..|es| - 1]) + if es[|es| - 1].Empty? then 0 else 1
  }

  lemma {:induction false} UsedAfter<K, V>(es: seq<Entry<K, V>>, i: nat, e: Entry<K, V>)
    requires i < |es| && !e.Empty?
    ensures Used(es[i := e]) == Used(es) + if es[i].Empty? then 1 else 0
    decreases |es|
  {
    var n := |es| - 1;
    if i == n {
      assert es[i := e][..n] == es[..n];
    } else {
      UsedAfter(es[..n], i, e);
      assert es[i := e][..n] == es[..n][i := e];
    }
  }

  lemma {:induction false} SomeEmpty<K, V>(es: seq<Entry<K, V>>)
    requires Used(es) < |es|
    ensures HasEmpty(es)
    decreases |es|
  {
    var n := |es| - 1;
    if !es[n].Empty? {
      SomeEmpty(es[..n]);
      var i :| 0 <= i < n && es[..n][i].Empty?;
      assert es[i].Empty?;
    }
  }
}

module HashMaps {
  import opened Wrappers
  import opened Bits
  import opened Probing

  // The buckets and the count, which is an upper bound of the slots in use.
  datatype Table<K, V> = Table(es: seq<Entry<K, V>>, count: nat)

  function NextSize(cap: nat): nat {
    if cap < 16 then 16 else cap * 2
  }

  predicate NeedsResize(cap: nat, count: nat, maxLoad: nat) {
    cap == 0 || count * 100 / cap > maxLoad
  }

  function Empties<K, V>(n: nat): (es: seq<Entry<K, V>>)
    ensures |es| == n && forall i | 0 <= i < n :: es[i].Empty?
  {
    seq(n, _ => Empty)
  }

  // The first i entries of es, entered into fresh buckets; None when probing never ends.
  function Rehash<K(==), V>(es: seq<Entry<K, V>>, i: nat, cap: nat, hash: K -> nat): (r: Option<Table<K, V>>)
    requires i <= |es| && cap > 0
    ensures r.Some? ==> |r.value.es| == cap
  {
    if i == 0 then Some(Table(Empties(cap), 0))
    else
      match Rehash(es, i - 1, cap, hash)
      case None => None
      case Some(t) =>
        if es[i - 1].Occupied? then
          (match FindSlot(t.es, es[i - 1].key, hash)
           case None => None
           case Some(slot) => Some(Table(t.es[slot := es[i - 1]], t.count + 1)))
        else Some(t)
  }

  lemma RehashStep<K, V>(src: seq<Entry<K, V>>, i: nat, cap: nat, hash: K -> nat, t: Table<K, V>)
    requires i < |src| && cap > 0 && Rehash(src, i, cap, hash) == Some(t)
    ensures if src[i].Occupied? then
        match FindSlot(t.es, src[i].key, hash)
        case None => true
        case Some(slot) => Rehash(src, i + 1, cap, hash) == Some(Table(t.es[slot := src[i]], t.count + 1))
      else Rehash(src, i + 1, cap, hash) == Some(t)
  {
    hide FindSlot;
  }

  function Resized<K(==), V>(t: Table<K, V>, hash: K -> nat): Option<Table<K, V>> {
    Rehash(t.es, |t.es|, NextSize(|t.es|), hash)
  }

  datatype Op<K, V> = Insert(key: K, value: V) | Remove(key: K) | Lookup(key: K)
  datatype Reply<V> = Fine | Overwrote | Missing | Value(value: V)

  function Enter<K(==), V>(t: Table<K, V>, key: K, value: V, hash: K -> nat): Option<(Table<K, V>, Reply<V>)>
    requires t.es != []
  {
    match FindSlot(t.es, key, hash)
    case None => None
    case Some(i) =>
      var es := t.es[i := Occupied(key, value)];
      Some(if t.es[i].Occupied? then (Table(es, t.count), Overwrote) else (Table(es, t.count + 1), Fine))
  }

  // One operation of the map; None when it never returns.
  function Apply<K(==), V>(t: Table<K, V>, op: Op<K, V>, maxLoad: nat, hash: K -> nat)
    : Option<(Table<K, V>, Reply<V>)>
  {
    match op
    case Insert(key, value) =>
      if NeedsResize(|t.es|, t.count, maxLoad) then
        (match Resized(t, hash)
         case None => None
         case Some(u) => Enter(u, key, value, hash))
      else Enter(t, key, value, hash)
    case Remove(key) =>
      if t.count == 0 || t.es == [] then Some((t, Missing)) else
      (match FindSlot(t.es, key, hash)
       case None => None
       case Some(i) =>
         Some(if t.es[i].Occupied? then (t.(es := t.es[i := Deleted(t.es[i].key, t.es[i].value)]), Fine)
           else (t, Missing)))
    case Lookup(key) =>
      if t.count == 0 || t.es == [] then Some((t, Missing)) else
      match FindSlot(t.es, key, hash)
      case None => None
      case Some(i) => Some((t, if t.es[i].Occupied? then Value(t.es[i].value) else Missing))
  }

  // What the operation means.
  function Means<K(==), V>(m: map<K, V>, op: Op<K, V>): (map<K, V>, Reply<V>) {
    match op
    case Insert(key, value) => (m[key := value], if key in m then Overwrote else Fine)
    case Remove(key) => (m - {key}, if key in m then Fine else Missing)
    case Lookup(key) => (m, if key in m then Value(m[key]) else Missing)
  }

  ghost predicate Holds<K, V>(t: Table<K, V>, hash: K -> nat, m: map<K, V>) {
    && Stores(t.es, hash, m)
    && Used(t.es) <= t.count
    && (t.es == [] ==> t.count == 0)
    && (t.es != [] ==> IsCapacity(|t.es|) && t.count < |t.es|)
  }

  // By how much the count exceeds the number of slots in use.
  function Slack<K, V>(t: Table<K, V>): int {
    t.count - Used(t.es)
  }

  // The largest load limit that always leaves an empty slot.
  const SAFE_LOAD: nat := 92

  lemma RoomLeft(cap: nat, count: nat, maxLoad: nat)
    requires IsCapacity(cap) && maxLoad <= SAFE_LOAD && !NeedsResize(cap, count, maxLoad)
    ensures count + 2 <= cap
  {
    var k: nat :| cap == Capacity(k);
    assert k > 0 ==> cap >= 32;
    var q := count * 100 / cap;
    assert count * 100 < cap * q + cap;
    assert cap * q <= cap * 92;
  }

  lemma NonEmpty<K, V>(t: Table<K, V>, hash: K -> nat, m: map<K, V>)
    requires Holds(t, hash, m) && t.es != []
    ensures HasEmpty(t.es)
  {
    SomeEmpty(t.es);
  }

  // The slot that probing finds for the key holds a tombstone.
  predicate EntersTombstone<K(==), V>(t: Table<K, V>, key: K, hash: K -> nat)
    requires t.es != []
  {
    match FindSlot(t.es, key, hash)
    case None => false
    case Some(i) => t.es[i].Deleted?
  }

  lemma EnterHolds<K, V>(t: Table<K, V>, key: K, value: V, hash: K -> nat, m: map<K, V>)
    requires Holds(t, hash, m) && t.es != [] && t.count + 1 < |t.es|
    ensures var r := Enter(t, key, value, hash);
      && r.Some? && Holds(r.value.0, hash, m[key := value]) && r.value.1 == Means(m, Insert(key, value)).1
      && Slack(r.value.0) == Slack(t) + if EntersTombstone(t, key, hash) then 1 else 0
  {
    hide Stores, IsCapacity;
    NonEmpty(t, hash, m);
    FindSlotFinds(t.es, key, hash, m);
    var i := FindSlot(t.es, key, hash).value;
    Stored(t.es, hash, m, i, key, value);
    UsedAfter(t.es, i, Occupied(key, value));
  }

  // What the first i entries hold.
  function Upto<K, V>(es: seq<Entry<K, V>>, i: nat): map<K, V>
    requires i <= |es|
  {
    if i == 0 then map[]
    else
      var m := Upto(es, i - 1);
      if es[i - 1].Occupied? then m[es[i - 1].key := es[i - 1].value] else m
  }

  lemma {:induction false} UptoHas<K, V>(es: seq<Entry<K, V>>, i: nat, k: K)
    requires i <= |es|
    ensures k in Upto(es, i) <==> exists j: nat :: j < i && Has(es, j, k)
    ensures k in Upto(es, i) ==> exists j: nat :: j < i && Has(es, j, k) && Upto(es, i)[k] == es[j].value
  {
    if i > 0 {
      UptoHas(es, i - 1, k);
      if Has(es, i - 1, k) {
      } else if k in Upto(es, i) {
        var j: nat :| j < i - 1 && Has(es, j, k) && Upto(es, i - 1)[k] == es[j].value;
        assert j < i && Has(es, j, k);
      }
    }
  }

  lemma UptoAll<K, V>(es: seq<Entry<K, V>>, hash: K -> nat, m: map<K, V>)
    requires Stores(es, hash, m)
    ensures Upto(es, |es|) == m
  {
    var u := Upto(es, |es|);
    forall k
      ensures k in u.Keys <==> k in m.Keys
    {
      UptoHas(es, |es|, k);
    }
    forall k | k in u
      ensures k in m && u[k] == m[k]
    {
      UptoHas(es, |es|, k);
      var j: nat :| j < |es| && Has(es, j, k) && u[k] == es[j].value;
      assert es[j].key in m;
    }
    assert u.Keys == m.Keys;
  }

  lemma NothingStored<K, V>(n: nat, hash: K -> nat)
    ensures Stores(Empties<K, V>(n), hash, map[]) && Used(Empties<K, V>(n)) == 0
  {
    NothingUsed(Empties<K, V>(n));
  }

  lemma {:induction false} NothingUsed<K, V>(es: seq<Entry<K, V>>)
    requires forall i | 0 <= i < |es| :: es[i].Empty?
    ensures Used(es) == 0
    decreases |es|
  {
    if es != [] {
      NothingUsed(es[..|es| - 1]);
    }
  }

  ghost predicate NoTombstones<K, V>(es: seq<Entry<K, V>>) {
    forall i | 0 <= i < |es| :: !es[i].Deleted?
  }

  // An entry is not among those in front of it.
  lemma NotYet<K, V>(es: seq<Entry<K, V>>, i: nat, hash: K -> nat, m: map<K, V>)
    requires i < |es| && es[i].Occupied? && Stores(es, hash, m)
    ensures es[i].key !in Upto(es, i)
  {
    UptoHas(es, i, es[i].key);
  }

  // What rehashing keeps: the entries so far, and a count that is exact.
  ghost predicate Fresh<K, V>(t: Table<K, V>, hash: K -> nat, m: map<K, V>, i: nat) {
    Stores(t.es, hash, m) && Used(t.es) == t.count <= i && NoTombstones(t.es)
  }

  lemma EnterFresh<K, V>(t: Table<K, V>, e: Entry<K, V>, hash: K -> nat, m: map<K, V>, i: nat)
    requires Fresh(t, hash, m, i) && IsCapacity(|t.es|) && i < |t.es| && e.Occupied? && e.key !in m
    ensures var slot := FindSlot(t.es, e.key, hash);
      slot.Some? && Fresh(Table(t.es[slot.value := e], t.count + 1), hash, m[e.key := e.value], i + 1)
  {
    hide IsCapacity, Stores;
    SomeEmpty(t.es);
    FindSlotFinds(t.es, e.key, hash, m);
    var slot := FindSlot(t.es, e.key, hash).value;
    assert t.es[slot].Empty?;
    Stored(t.es, hash, m, slot, e.key, e.value);
    UsedAfter(t.es, slot, e);
  }

  // Entering into fresh buckets counts exactly the slots in use.
  lemma {:induction false} RehashHolds<K, V>(es: seq<Entry<K, V>>, i: nat, cap: nat, hash: K -> nat, m: map<K, V>)
    requires i <= |es| < cap && IsCapacity(cap) && Stores(es, hash, m)
    ensures var r := Rehash(es, i, cap, hash); r.Some? && Fresh(r.value, hash, Upto(es, i), i)
    decreases i
  {
    hide IsCapacity, FindSlot, Stores, Fresh;
    if i == 0 {
      NothingFresh<K, V>(cap, hash);
    } else {
      RehashHolds(es, i - 1, cap, hash, m);
      var t := Rehash(es, i - 1, cap, hash).value;
      if es[i - 1].Occupied? {
        NotYet(es, i - 1, hash, m);
        EnterFresh(t, es[i - 1], hash, Upto(es, i - 1), i - 1);
      } else {
        StaysFresh(t, hash, Upto(es, i - 1), i - 1);
      }
    }
  }

  lemma NothingFresh<K, V>(n: nat, hash: K -> nat)
    ensures Fresh(Table(Empties<K, V>(n), 0), hash, map[], 0)
  {
    NothingStored<K, V>(n, hash);
  }

  lemma StaysFresh<K, V>(t: Table<K, V>, hash: K -> nat, m: map<K, V>, i: nat)
    requires Fresh(t, hash, m, i)
    ensures Fresh(t, hash, m, i + 1)
  {
  }

  lemma ResizeHolds<K, V>(t: Table<K, V>, hash: K -> nat, m: map<K, V>)
    requires Holds(t, hash, m)
    ensures var r := Resized(t, hash);
      && r.Some? && Holds(r.value, hash, m) && r.value.es != [] && r.value.count + 1 < |r.value.es|
      && Slack(r.value) == 0 && NoTombstones(r.value.es)
  {
    CapacityGrows(|t.es|);
    RehashHolds(t.es, |t.es|, NextSize(|t.es|), hash, m);
    UptoAll(t.es, hash, m);
  }

  // Every operation returns, replies what the plain map would, and keeps the invariant.
  lemma ApplyRefines<K, V>(t: Table<K, V>, op: Op<K, V>, maxLoad: nat, hash: K -> nat, m: map<K, V>)
    requires Holds(t, hash, m) && maxLoad <= SAFE_LOAD
    ensures var r := Apply(t, op, maxLoad, hash);
      r.Some? && Holds(r.value.0, hash, Means(m, op).0) && r.value.1 == Means(m, op).1
  {
    hide IsCapacity;
    match op
    case Insert(key, value) =>
      if NeedsResize(|t.es|, t.count, maxLoad) {
        ResizeHolds(t, hash, m);
        EnterHolds(Resized(t, hash).value, key, value, hash, m);
      } else {
        RoomLeft(|t.es|, t.count, maxLoad);
        EnterHolds(t, key, value, hash, m);
      }
    case Remove(key) => RemoveRefines(t, key, hash, m);
    case Lookup(key) => LookupRefines(t, key, maxLoad, hash, m);
  }

  lemma NothingCounted<K, V>(t: Table<K, V>, hash: K -> nat, m: map<K, V>, key: K)
    requires Holds(t, hash, m) && t.count == 0
    ensures key !in m && m - {key} == m
  {
    forall k | k in m
      ensures false
    {
      var i: nat :| Has(t.es, i, k);
      UsedAfter(t.es, i, t.es[i]);
      UsedOne(t.es, i);
    }
  }

  lemma {:induction false} UsedOne<K, V>(es: seq<Entry<K, V>>, i: nat)
    requires i < |es| && !es[i].Empty?
    ensures Used(es) > 0
    decreases |es|
  {
    if i < |es| - 1 {
      UsedOne(es[..|es| - 1], i);
    }
  }

  lemma RemoveRefines<K, V>(t: Table<K, V>, key: K, hash: K -> nat, m: map<K, V>)
    requires Holds(t, hash, m)
    ensures forall maxLoad :: var r := Apply(t, Remove(key), maxLoad, hash);
      r.Some? && Holds(r.value.0, hash, m - {key}) && r.value.1 == if key in m then Fine else Missing
  {
    if t.count == 0 || t.es == [] {
      NothingCounted(t, hash, m, key);
    } else {
      NonEmpty(t, hash, m);
      FindSlotFinds(t.es, key, hash, m);
      var i := FindSlot(t.es, key, hash).value;
      if t.es[i].Occupied? {
        Dropped(t.es, hash, m, i);
        UsedAfter(t.es, i, Deleted(t.es[i].key, t.es[i].value));
      } else {
        assert m - {key} == m;
      }
    }
  }

  lemma LookupRefines<K, V>(t: Table<K, V>, key: K, maxLoad: nat, hash: K -> nat, m: map<K, V>)
    requires Holds(t, hash, m)
    ensures Apply(t, Lookup(key), maxLoad, hash) == Some((t, if key in m then Value(m[key]) else Missing))
  {
    if t.count == 0 || t.es == [] {
      NothingCounted(t, hash, m, key);
    } else {
      NonEmpty(t, hash, m);
      FindSlotFinds(t.es, key, hash, m);
    }
  }

  // The count moves away from the number of slots in use exactly when an insertion lands on a tombstone,
  // by one each time; only a resize makes it exact again.
  lemma SlackGrows<K, V>(t: Table<K, V>, op: Op<K, V>, maxLoad: nat, hash: K -> nat, m: map<K, V>)
    requires Holds(t, hash, m) && maxLoad <= SAFE_LOAD
    ensures var r := Apply(t, op, maxLoad, hash);
      r.Some? && Slack(r.value.0) ==
        if !op.Insert? then Slack(t)
        else if NeedsResize(|t.es|, t.count, maxLoad) then 0
        else Slack(t) + if EntersTombstone(t, op.key, hash) then 1 else 0
  {
    hide IsCapacity, FindSlot, Stores;
    match op
    case Insert(key, value) =>
      if NeedsResize(|t.es|, t.count, maxLoad) {
        ResizeHolds(t, hash, m);
        EnterHolds(Resized(t, hash).value, key, value, hash, m);
      } else {
        RoomLeft(|t.es|, t.count, maxLoad);
        EnterHolds(t, key, value, hash, m);
      }
    case Remove(key) => RemoveKeepsSlack(t, key, maxLoad, hash, m);
    case Lookup(key) => LookupRefines(t, key, maxLoad, hash, m);
  }

  lemma RemoveKeepsSlack<K, V>(t: Table<K, V>, key: K, maxLoad: nat, hash: K -> nat, m: map<K, V>)
    requires Holds(t, hash, m)
    ensures var r := Apply(t, Remove(key), maxLoad, hash); r.Some? && Slack(r.value.0) == Slack(t)
  {
    if t.count != 0 && t.es != [] {
      NonEmpty(t, hash, m);
      FindSlotFinds(t.es, key, hash, m);
      var i := FindSlot(t.es, key, hash).value;
      if t.es[i].Occupied? {
        UsedAfter(t.es, i, Deleted(t.es[i].key, t.es[i].value));
      }
    }
  }

  // ----- whole histories -----

  function Play<K(==), V>(ops: seq<Op<K, V>>, maxLoad: nat, hash: K -> nat): Option<(Table<K, V>, seq<Reply<V>>)>
    decreases |ops|
  {
    if ops == [] then Some((Table([], 0), []))
    else
      match Play(ops[..|ops| - 1], maxLoad, hash)
      case None => None
      case Some((t, replies)) =>
        match Apply(t, ops[|ops| - 1], maxLoad, hash)
        case None => None
        case Some((u, reply)) => Some((u, replies + [reply]))
  }

  function Meaning<K(==), V>(ops: seq<Op<K, V>>): (map<K, V>, seq<Reply<V>>)
    decreases |ops|
  {
    if ops == [] then (map[], [])
    else
      var (m, replies) := Meaning(ops[..|ops| - 1]);
      var (n, reply) := Means(m, ops[|ops| - 1]);
      (n, replies + [reply])
  }

  // Over every history, with a load limit of at most 92, all operations return and reply what a plain
  // map would; no key is ever in two slots.
  lemma {:induction false} HistoryRefines<K, V>(ops: seq<Op<K, V>>, maxLoad: nat, hash: K -> nat)
    requires maxLoad <= SAFE_LOAD
    ensures var r := Play(ops, maxLoad, hash);
      r.Some? && Holds(r.value.0, hash, Meaning(ops).0) && r.value.1 == Meaning(ops).1
    decreases |ops|
  {
    if ops != [] {
      var before := ops[..|ops| - 1];
      HistoryRefines(before, maxLoad, hash);
      ApplyRefines(Play(before, maxLoad, hash).value.0, ops[|ops| - 1], maxLoad, hash, Meaning(before).0);
    }
  }

  lemma PlayOne<K, V>(ops: seq<Op<K, V>>, op: Op<K, V>, maxLoad: nat, hash: K -> nat)
    requires Play(ops, maxLoad, hash).Some?
    ensures var (t, replies) := Play(ops, maxLoad, hash).value;
      Play(ops + [op], maxLoad, hash) ==
        match Apply(t, op, maxLoad, hash)
        case None => None
        case Some((u, reply)) => Some((u, replies + [reply]))
  {
    assert (ops + [op])[..|ops|] == ops;
  }

  // A slot that is used again after its key was removed is counted again.
  lemma CountsTwice<K, V>(key: K, value: V, maxLoad: nat, hash: K -> nat)
    requires 7 <= maxLoad
    ensures var r := Play([Insert(key, value), Remove(key), Insert(key, value)], maxLoad, hash);
      r.Some? && r.value.0.count == 2 && Used(r.value.0.es) == 1
  {
    var put, drop := Insert(key, value), Op<K, V>.Remove(key);
    var home := Masked(hash(key), 16);
    var none := Empties<K, V>(16);
    var one := none[home := Occupied(key, value)];
    var gone := one[home := Deleted(key, value)];
    CapacityGrows(0);
    NextSlot(home, 0, 16);
    var t0, t1: Table<K, V> := Table([], 0), Table(one, 1);
    assert Apply(t0, put, maxLoad, hash) == Some((t1, Fine));
    PlayOne([], put, maxLoad, hash);
    assert Apply(t1, drop, maxLoad, hash) == Some((Table(gone, 1), Fine));
    PlayOne([] + [put], drop, maxLoad, hash);
    assert gone[At(home, 1, 16)].Empty?;
    assert Probe(gone, key, At(home, 1, 16), Some(home), 15) == Some(home);
    assert gone[home := Occupied(key, value)] == one;
    PlayOne([] + [put] + [drop], put, maxLoad, hash);
    assert [] + [put] + [drop] + [put] == [put, drop, put];
    NothingUsed(none);
    UsedAfter(none, home, Occupied(key, value));
  }

  // ----- load limits above 92 -----

  // Sixteen different keys, each at its own home, and a lookup of one more.
  function Crowd(n: nat): (ops: seq<Op<nat, nat>>)
    ensures |ops| == n
  {
    seq(n, i requires 0 <= i < n => Insert(i, i))
  }

  function Id(n: nat): nat { n }

  function FilledUpto(n: nat): (es: seq<Entry<nat, nat>>)
    requires n <= 16
  {
    seq(16, i requires 0 <= i < 16 => if i < n then Occupied(i, i) else Empty)
  }

  lemma {:induction false} CrowdFills(n: nat, maxLoad: nat)
    requires 0 < n <= 16 && maxLoad > SAFE_LOAD
    ensures var r := Play(Crowd(n), maxLoad, Id); r.Some? && r.value.0 == Table(FilledUpto(n), n)
    decreases n
  {
    var before := Crowd(n)[..n - 1];
    assert before == Crowd(n - 1);
    IdHome(n - 1);
    if n == 1 {
      assert Crowd(0) == [];
      assert Rehash<nat, nat>([], 0, 16, Id) == Some(Table(Empties<nat, nat>(16), 0));
      assert Empties<nat, nat>(16)[0 := Occupied(0, 0)] == FilledUpto(1);
    } else {
      CrowdFills(n - 1, maxLoad);
      FullEnough(n - 1);
      assert !NeedsResize(16, n - 1, maxLoad);
      assert FilledUpto(n - 1)[n - 1].Empty?;
      assert FilledUpto(n - 1)[n - 1 := Occupied(n - 1, n - 1)] == FilledUpto(n);
    }
  }

  lemma FullEnough(n: nat)
    requires n < 16
    ensures n * 100 / 16 <= 93
  {
  }

  lemma IdHome(n: nat)
    requires n < 16
    ensures Masked(n, 16) == n
  {
    hide And, Rem, Pow2;
    CapacityIsPower(0);
    AndMask(n, 4);
    RemAround(n, 16);
  }

  // Every slot is taken by another key: probing goes around for ever.
  lemma {:induction false} ProbeNever(es: seq<Entry<nat, nat>>, key: nat, index: nat, left: nat)
    requires index < |es| && forall i | 0 <= i < |es| :: es[i].Occupied? && es[i].key != key
    ensures Probe(es, key, index, None, left) == None
    decreases left
  {
    if left > 0 {
      ProbeNever(es, key, Masked(index + 1, |es|), left - 1);
    }
  }

  lemma LookupNever(maxLoad: nat)
    requires maxLoad > SAFE_LOAD
    ensures Play(Crowd(16) + [Lookup(16)], maxLoad, Id) == None
  {
    var ops := Crowd(16) + [Lookup(16)];
    assert ops[..16] == Crowd(16);
    CrowdFills(16, maxLoad);
    ProbeNever(FilledUpto(16), 16, Masked(Id(16), 16), 16);
  }

  // The load limits with which every operation of every history returns are exactly those up to 92.
  lemma SafeLoads(maxLoad: nat)
    ensures maxLoad <= SAFE_LOAD <==> forall ops: seq<Op<nat, nat>> :: Play(ops, maxLoad, Id).Some?
  {
    if maxLoad <= SAFE_LOAD {
      forall ops: seq<Op<nat, nat>>
        ensures Play(ops, maxLoad, Id).Some?
      {
        HistoryRefines(ops, maxLoad, Id);
      }
    } else {
      LookupNever(maxLoad);
    }
  }

  class HashMap<K(==), V> {
    const maxLoad: nat
    const hash: K -> nat
    var count: nat
    var entries: array<Entry<K, V>>
    ghost var contents: map<K, V>

    ghost function View(): Table<K, V>
      reads this, entries
    {
      Table(entries[..], count)
    }

    ghost predicate Valid()
      reads this, entries
    {
      0 < maxLoad <= SAFE_LOAD && Holds(View(), hash, contents)
    }

    // The limit has to be one that keeps an empty slot.
    constructor (maxLoad: nat, hash: K -> nat)
      requires 0 < maxLoad <= SAFE_LOAD
      ensures Valid() && contents == map[] && View() == Table([], 0)
      ensures this.maxLoad == maxLoad && this.hash == hash && fresh(entries)
    {
      this.maxLoad, this.hash, count, contents := maxLoad, hash, 0, map[];
      entries := new Entry<K, V>[0](_ => Empty);
      new;
      assert entries[..] == [];
    }

    method FindSlot(es: array<Entry<K, V>>, key: K, ghost m: map<K, V>) returns (slot: nat)
      requires es.Length > 0 && IsCapacity(es.Length) && Stores(es[..], hash, m) && HasEmpty(es[..])
      ensures Some(slot) == Probing.FindSlot(es[..], key, hash) && Found(es[..], key, hash, m, slot)
    {
      ghost var s := es[..];
      FindSlotFinds(s, key, hash, m);
      hide Stores, IsCapacity;
      var tombstone: Option<nat> := None;
      var index: nat := Masked(hash(key), es.Length);
      ghost var left: int := es.Length;
      while true
        invariant index < es.Length && (tombstone.Some? ==> tombstone.value < es.Length)
        invariant 0 <= left && Probe(s, key, index, tombstone, left) == Probing.FindSlot(s, key, hash)
        decreases left
      {
        assert es[index] == s[index];
        match es[index] {
          case Empty => return if tombstone.Some? then tombstone.value else index;
          case Deleted(_, _) => if tombstone.None? { tombstone := Some(index); }
          case Occupied(k, _) => if k == key { return index; }
        }
        index := Masked(index + 1, es.Length);
        left := left - 1;
      }
    }

    method Resize()
      requires Valid()
      modifies this
      ensures Valid() && contents == old(contents) && fresh(entries)
      ensures Some(View()) == Resized(old(View()), hash)
      ensures entries.Length > 0 && count + 1 < entries.Length
    {
      ghost var t := View();
      ResizeHolds(t, hash, contents);
      var capacity := NextSize(entries.Length);
      CapacityGrows(entries.Length);
      hide Rehash, Stores, IsCapacity, Used;
      entries, count := Rehashed(capacity);
      assert Some(View()) == Resized(t, hash);
    }

    // Enter everything that is stored into a new array; tombstones stay behind.
    method Rehashed(capacity: nat) returns (es: array<Entry<K, V>>, n: nat)
      requires Valid() && entries.Length < capacity && IsCapacity(capacity)
      ensures fresh(es) && Rehash(entries[..], entries.Length, capacity, hash) == Some(Table(es[..], n))
    {
      ghost var src := entries[..];
      es := new Entry<K, V>[capacity](_ => Empty);
      assert es[..] == Empties<K, V>(capacity);
      n := 0;
      var i := 0;
      assert Rehash(src, 0, capacity, hash) == Some(Table(Empties(capacity), 0));
      hide Stores, IsCapacity, Used, Rehash, Probing.FindSlot, HasEmpty;
      while i < entries.Length
        invariant 0 <= i <= entries.Length && es.Length == capacity && fresh(es) && entries[..] == src
        invariant Rehash(src, i, capacity, hash) == Some(Table(es[..], n))
      {
        RehashStep(src, i, capacity, hash, Table(es[..], n));
        if entries[i].Occupied? {
          RehashHolds(src, i, capacity, hash, contents);
          SomeEmpty(es[..]);
          var slot := FindSlot(es, entries[i].key, Upto(src, i));
          ghost var before := es[..];
          es[slot] := entries[i];
          assert es[..] == before[slot := src[i]];
          n := n + 1;
        }
        i := i + 1;
      }
    }

    method Insert(key: K, value: V) returns (reply: Reply<V>)
      requires Valid()
      modifies this, entries
      ensures Valid() && contents == old(contents)[key := value]
      ensures reply == if key in old(contents) then Overwrote else Fine
      ensures Some((View(), reply)) == Apply(old(View()), Op.Insert(key, value), maxLoad, hash)
      ensures entries == old(entries) || fresh(entries)
    {
      hide IsCapacity, Stores, Probing.FindSlot;
      ApplyRefines(View(), Op.Insert(key, value), maxLoad, hash, contents);
      if NeedsResize(entries.Length, count, maxLoad) {
        Resize();
      } else {
        RoomLeft(entries.Length, count, maxLoad);
      }
      NonEmpty(View(), hash, contents);
      var slot := FindSlot(entries, key, contents);
      ghost var before := entries[..];
      if entries[slot].Occupied? {
        reply := Overwrote;
      } else {
        count := count + 1;
        reply := Fine;
      }
      entries[slot] := Occupied(key, value);
      assert entries[..] == before[slot := Occupied(key, value)];
      contents := contents[key := value];
    }

    // A tombstone is left behind; the count stays.
    method Remove(key: K) returns (reply: Reply<V>)
      requires Valid()
      modifies this, entries
      ensures Valid() && contents == old(contents) - {key} && entries == old(entries) && count == old(count)
      ensures reply == if key in old(contents) then Fine else Missing
      ensures Some((View(), reply)) == Apply(old(View()), Op.Remove(key), maxLoad, hash)
    {
      hide IsCapacity, Stores, Probing.FindSlot;
      ApplyRefines(View(), Op.Remove(key), maxLoad, hash, contents);
      if count == 0 {
        contents := contents - {key};
        return Missing;
      }
      NonEmpty(View(), hash, contents);
      var slot := FindSlot(entries, key, contents);
      contents := contents - {key};
      if !entries[slot].Occupied? {
        return Missing;
      }
      ghost var before := entries[..];
      entries[slot] := Deleted(entries[slot].key, entries[slot].value);
      assert entries[..] == before[slot := Deleted(before[slot].key, before[slot].value)];
      reply := Fine;
    }

    method Lookup(key: K) returns (reply: Reply<V>)
      requires Valid()
      ensures reply == if key in contents then Value(contents[key]) else Missing
    {
      LookupRefines(View(), key, maxLoad, hash, contents);
      if count == 0 {
        return Missing;
      }
      NonEmpty(View(), hash, contents);
      var slot := FindSlot(entries, key, contents);
      if !entries[slot].Occupied? {
        return Missing;
      }
      return Value(entries[slot].value);
    }
  }
}
