/**
 JSON values handed to Python: containers are created empty and filled in place. Converting the result back gives the
 value that was handed out.
 */
module PyRender {
  import opened Common
  import opened JsonTree
  import opened MapSums
  import opened PyJson

  /** Integers in a JSON value are 64-bit words. */
  ghost predicate Representable(v: Value) {
    match v
    case Plain(scalar) => scalar.Int? ==> FitsWord(scalar.i)
    case Array(values) => forall i :: 0 <= i < |values| ==> Representable(values[i])
    case Object(members) => forall k :: k in members ==> Representable(members[k])
  }

  /** The object at `r` stands for `v`, through objects at or above `low` only. */
  ghost predicate Renders(h: Heap, r: Ref, v: Value, low: Ref)
    decreases v
  {
    && low <= r && r in h
    && match v
       case Plain(scalar) => AsScalar(h[r]) == Some(scalar)
       case Array(values) =>
         && h[r].PyList? && |h[r].items| == |values|
         && forall i :: 0 <= i < |values| ==> Renders(h, h[r].items[i], values[i], low)
       case Object(members) =>
         && h[r].PyDict? && |h[r].keys| == |h[r].items|
         && (forall i :: 0 <= i < |h[r].keys| ==> KeyOf(h, h[r].keys[i], low).Some?)
         && (forall i :: 0 <= i < |h[r].keys| ==> KeyOf(h, h[r].keys[i], low).value in members)
         && (forall k :: k in members ==> HasKey(h, h[r].keys, k, low))
         && DistinctKeys(h, h[r].keys, low)
         && (forall i, k :: 0 <= i < |h[r].keys| && k in members && KeyOf(h, h[r].keys[i], low) == Some(k) ==>
               Renders(h, h[r].items[i], members[k], low))
  }

  ghost function KeyOf(h: Heap, r: Ref, low: Ref): Option<Bytes> {
    if low <= r && r in h && h[r].PyStr? then h[r].utf8 else None
  }

  ghost predicate HasKey(h: Heap, keys: seq<Ref>, k: Bytes, low: Ref) {
    exists i :: 0 <= i < |keys| && KeyOf(h, keys[i], low) == Some(k)
  }

  /** One entry per key. */
  ghost predicate DistinctKeys(h: Heap, keys: seq<Ref>, low: Ref) {
    forall i, j :: 0 <= i < j < |keys| ==> KeyOf(h, keys[i], low) != KeyOf(h, keys[j], low)
  }

  /** The heaps agree at and above `low`. */
  ghost predicate SameAbove(h: Heap, h': Heap, low: Ref) {
    forall r :: low <= r && r in h ==> r in h' && h'[r] == h[r]
  }

  lemma {:induction false} RenderingKept(h: Heap, h': Heap, r: Ref, v: Value, low: Ref, low': Ref)
    requires Renders(h, r, v, low) && SameAbove(h, h', low) && low' <= low
    ensures Renders(h', r, v, low')
    decreases v
  {
    match v
    case Plain(_) =>
    case Array(values) =>
      forall i | 0 <= i < |values|
        ensures Renders(h', h'[r].items[i], values[i], low')
      {
        RenderingKept(h, h', h[r].items[i], values[i], low, low');
      }
    case Object(members) =>
      forall i | 0 <= i < |h[r].keys|
        ensures KeyOf(h', h[r].keys[i], low') == KeyOf(h, h[r].keys[i], low)
      {
        assert KeyOf(h, h[r].keys[i], low).Some?;
      }
      forall k | k in members
        ensures HasKey(h', h'[r].keys, k, low')
      {
        assert HasKey(h, h[r].keys, k, low);
      }
      forall i, k | 0 <= i < |h'[r].keys| && k in members && KeyOf(h', h'[r].keys[i], low') == Some(k)
        ensures Renders(h', h'[r].items[i], members[k], low')
      {
        assert KeyOf(h, h[r].keys[i], low) == Some(k);
        RenderingKept(h, h', h[r].items[i], members[k], low, low');
      }
  }

  // ---------------------------------------------------------------- and back

  /** What stands for a value unfolds to a tree that denotes the value. */
  lemma {:induction false} RenderingUnfolds(h: Heap, r: Ref, v: Value, low: Ref) returns (t: Node)
    requires Closed(h) && Renders(h, r, v, low)
    ensures Unfolds(h, r, t) && Denotes(t, v)
    decreases v, 1
  {
    match v
    case Plain(scalar) => t := Leaf(scalar);
    case Array(_) => t := ArrayUnfolds(h, r, v, low);
    case Object(_) => t := ObjectUnfolds(h, r, v, low);
  }

  lemma {:induction false} ArrayUnfolds(h: Heap, r: Ref, v: Value, low: Ref) returns (t: Node)
    requires Closed(h) && v.Array? && Renders(h, r, v, low)
    ensures Unfolds(h, r, t) && Denotes(t, v)
    decreases v, 0
  {
    var values := v.values;
    var trees: seq<Node> := [];
    for i := 0 to |values|
      invariant |trees| == i
      invariant forall j :: 0 <= j < i ==> Unfolds(h, h[r].items[j], trees[j]) && Denotes(trees[j], values[j])
    {
      var tree := RenderingUnfolds(h, h[r].items[i], values[i], low);
      trees := trees + [tree];
    }
    t := Arr(trees);
  }

  /** The first entries of the dictionary at `r`, read back. */
  ghost predicate EntriesUnfold(h: Heap, r: Ref, keys: seq<Bytes>, trees: seq<Node>, members: map<Bytes, Value>, low: Ref)
    requires Closed(h) && r in h && h[r].PyDict?
  {
    && |keys| == |trees| <= |h[r].items|
    && (forall j :: 0 <= j < |keys| ==> KeyOf(h, h[r].keys[j], low) == Some(keys[j]) && keys[j] in members)
    && (forall j :: 0 <= j < |trees| ==> Unfolds(h, h[r].items[j], trees[j]))
    && (forall j :: 0 <= j < |trees| ==> Denotes(trees[j], members[keys[j]]))
  }

  lemma {:induction false} ObjectUnfolds(h: Heap, r: Ref, v: Value, low: Ref) returns (t: Node)
    requires Closed(h) && v.Object? && Renders(h, r, v, low)
    ensures Unfolds(h, r, t) && Denotes(t, v)
    decreases v, 0
  {
    var members := v.members;
    var trees: seq<Node>, keys: seq<Bytes> := [], [];
    for i := 0 to |h[r].items|
      invariant |trees| == i && EntriesUnfold(h, r, keys, trees, members, low)
    {
      var k := KeyOf(h, h[r].keys[i], low).value;
      var tree := RenderingUnfolds(h, h[r].items[i], members[k], low);
      EntriesUnfoldNext(h, r, keys, trees, members, low, k, tree);
      trees, keys := trees + [tree], keys + [k];
    }
    t := Obj(keys, trees);
    EntriesComplete(h, r, keys, trees, v, low);
  }

  lemma EntriesUnfoldNext(h: Heap, r: Ref, keys: seq<Bytes>, trees: seq<Node>, members: map<Bytes, Value>, low: Ref,
                          k: Bytes, tree: Node)
    requires Closed(h) && r in h && h[r].PyDict? && EntriesUnfold(h, r, keys, trees, members, low)
    requires |trees| < |h[r].items| && KeyOf(h, h[r].keys[|keys|], low) == Some(k) && k in members
    requires Unfolds(h, h[r].items[|trees|], tree) && Denotes(tree, members[k])
    ensures EntriesUnfold(h, r, keys + [k], trees + [tree], members, low)
  {
  }

  lemma EntriesComplete(h: Heap, r: Ref, keys: seq<Bytes>, trees: seq<Node>, v: Value, low: Ref)
    requires Closed(h) && v.Object? && Renders(h, r, v, low)
    requires EntriesUnfold(h, r, keys, trees, v.members, low) && |trees| == |h[r].items|
    ensures Unfolds(h, r, Obj(keys, trees)) && Denotes(Obj(keys, trees), v)
  {
    forall k | k in v.members
      ensures k in keys
    {
      assert HasKey(h, h[r].keys, k, low);
      var i :| 0 <= i < |h[r].keys| && KeyOf(h, h[r].keys[i], low) == Some(k);
      assert keys[i] == k;
    }
  }

  /** Whatever value all unfoldings of a rendering denote is the rendered one. */
  lemma RenderingRoundTrip(h: Heap, r: Ref, v: Value, low: Ref, back: Value)
    requires Closed(h) && Renders(h, r, v, low) && forall t :: Unfolds(h, r, t) ==> Denotes(t, back)
    ensures back == v
  {
    var t := RenderingUnfolds(h, r, v, low);
    DenotesUnique(t, v, back);
  }

  // ---------------------------------------------------------------- building the objects

  class PyHeap {
    var objects: Heap
    var next: Ref

    ghost predicate Valid() reads this { Closed(objects) && forall r :: r in objects ==> r < next }

    constructor ()
      ensures Valid() && objects == map[] && next == 0
    {
      objects, next := map[], 0;
    }

    /** A new object that refers to nothing yet. */
    method New(o: PyObject) returns (r: Ref)
      requires Valid() && (IsContainer(o) ==> o.items == []) && (o.PyDict? ==> o.keys == [])
      modifies this
      ensures Valid() && r == old(next) && next == r + 1 && objects == old(objects)[r := o]
    {
      r := next;
      objects := objects[r := o];
      next := next + 1;
    }

    method Append(list: Ref, item: Ref)
      requires Valid() && list in objects && objects[list].PyList? && item in objects
      modifies this`objects
      ensures Valid() && objects == old(objects)[list := PyList(old(objects)[list].items + [item])]
    {
      objects := objects[list := PyList(objects[list].items + [item])];
    }

    /** Adds an entry under a key the dictionary does not have. */
    method SetItem(dict: Ref, key: Ref, item: Ref)
      requires Valid() && dict in objects && objects[dict].PyDict? && key in objects && item in objects
      modifies this`objects
      ensures Valid()
      ensures objects == old(objects)[dict := PyDict(old(objects)[dict].keys + [key], old(objects)[dict].items + [item])]
    {
      objects := objects[dict := PyDict(objects[dict].keys + [key], objects[dict].items + [item])];
    }
  }

  function ScalarObject(s: Scalar): PyObject {
    match s
    case Null => PyNone
    case Bool(b) => PyBool(b)
    case Int(i) => PyInt(i)
    case Float(r) => PyFloat(Some(r))
    case Text(utf8) => PyStr(Some(utf8))
  }

  /** `json_value_to_py`: builds a rendering out of new objects and leaves every other object alone. */
  method JsonValueToPy(v: Value, heap: PyHeap) returns (r: Ref)
    requires heap.Valid() && Representable(v)
    modifies heap
    ensures heap.Valid() && old(heap.next) <= heap.next
    ensures Renders(heap.objects, r, v, old(heap.next))
    ensures Preserved(old(heap.objects), heap.objects, old(heap.next))
    decreases v, 1
  {
    match v
    case Plain(scalar) => r := heap.New(ScalarObject(scalar));
    case Array(_) => r := ArrayToPy(v, heap);
    case Object(_) => r := ObjectToPy(v, heap);
  }

  /** Nothing below `low` is changed. */
  ghost predicate Preserved(h: Heap, h': Heap, low: Ref) {
    forall r :: r in h && r < low ==> r in h' && h'[r] == h[r]
  }

  /** The list at `r` stands for the first i values, through objects above it. */
  ghost predicate ListFilled(h: Heap, r: Ref, values: seq<Value>, i: nat)
    requires i <= |values|
  {
    && r in h && h[r].PyList? && |h[r].items| == i
    && forall j :: 0 <= j < i ==> Renders(h, h[r].items[j], values[j], r + 1)
  }

  lemma ListFilledNext(h: Heap, h1: Heap, h2: Heap, r: Ref, values: seq<Value>, i: nat, item: Ref, next: Ref)
    requires i < |values| && ListFilled(h, r, values, i) && r < next && (forall x :: x in h ==> x < next)
    requires Preserved(h, h1, next) && Renders(h1, item, values[i], next)
    requires h2 == h1[r := PyList(h[r].items + [item])]
    ensures ListFilled(h2, r, values, i + 1)
  {
    forall j | 0 <= j < i + 1
      ensures Renders(h2, h2[r].items[j], values[j], r + 1)
    {
      if j < i {
        RenderingKept(h, h2, h[r].items[j], values[j], r + 1, r + 1);
      } else {
        RenderingKept(h1, h2, item, values[i], next, r + 1);
      }
    }
  }

  method ArrayToPy(v: Value, heap: PyHeap) returns (r: Ref)
    requires v.Array? && heap.Valid() && Representable(v)
    modifies heap
    ensures heap.Valid() && old(heap.next) <= heap.next
    ensures Renders(heap.objects, r, v, old(heap.next))
    ensures Preserved(old(heap.objects), heap.objects, old(heap.next))
    decreases v, 0
  {
    r := heap.New(PyList([]));
    for i := 0 to |v.values|
      invariant heap.Valid() && r < heap.next
      invariant ListFilled(heap.objects, r, v.values, i)
      invariant Preserved(old(heap.objects), heap.objects, old(heap.next))
    {
      ghost var h, next := heap.objects, heap.next;
      var item := JsonValueToPy(v.values[i], heap);
      ghost var h1 := heap.objects;
      heap.Append(r, item);
      ListFilledNext(h, h1, heap.objects, r, v.values, i, item, next);
    }
    forall j | 0 <= j < |v.values|
      ensures Renders(heap.objects, heap.objects[r].items[j], v.values[j], r)
    {
      RenderingKept(heap.objects, heap.objects, heap.objects[r].items[j], v.values[j], r + 1, r);
    }
  }

  /** The dictionary at `r` stands for `done`, through objects above it. */
  ghost predicate DictFilled(h: Heap, r: Ref, done: map<Bytes, Value>) {
    && r in h && h[r].PyDict? && |h[r].keys| == |h[r].items|
    && (forall i :: 0 <= i < |h[r].keys| ==> EntryRenders(h, h[r].keys[i], h[r].items[i], done, r + 1))
    && (forall k :: k in done ==> HasKey(h, h[r].keys, k, r + 1))
    && DistinctKeys(h, h[r].keys, r + 1)
  }

  ghost predicate EntryRenders(h: Heap, key: Ref, item: Ref, members: map<Bytes, Value>, low: Ref) {
    var k := KeyOf(h, key, low);
    k.Some? && k.value in members && Renders(h, item, members[k.value], low)
  }

  lemma EntryKept(h: Heap, h': Heap, key: Ref, item: Ref, done: map<Bytes, Value>, done': map<Bytes, Value>, low: Ref, low': Ref)
    requires EntryRenders(h, key, item, done, low) && SameAbove(h, h', low) && low' <= low
    requires forall k :: k in done ==> k in done' && done'[k] == done[k]
    ensures KeyOf(h', key, low') == KeyOf(h, key, low) && EntryRenders(h', key, item, done', low')
  {
    RenderingKept(h, h', item, done[KeyOf(h, key, low).value], low, low');
  }

  /** Two heaps around one insertion into the dictionary at `r`. */
  ghost predicate Inserts(h: Heap, h2: Heap, r: Ref, key: Ref, item: Ref) {
    && r in h && h[r].PyDict? && |h[r].keys| == |h[r].items|
    && r in h2 && h2[r] == PyDict(h[r].keys + [key], h[r].items + [item])
    && SameAbove(h, h2, r + 1)
  }

  lemma OldEntryKept(h: Heap, h2: Heap, r: Ref, key: Ref, item: Ref, done: map<Bytes, Value>, k: Bytes, v: Value, i: nat)
    requires Inserts(h, h2, r, key, item) && k !in done && i < |h[r].keys|
    requires EntryRenders(h, h[r].keys[i], h[r].items[i], done, r + 1)
    ensures KeyOf(h2, h2[r].keys[i], r + 1) == KeyOf(h, h[r].keys[i], r + 1)
    ensures EntryRenders(h2, h2[r].keys[i], h2[r].items[i], done[k := v], r + 1)
  {
    assert h2[r].keys[i] == h[r].keys[i] && h2[r].items[i] == h[r].items[i];
    EntryKept(h, h2, h[r].keys[i], h[r].items[i], done, done[k := v], r + 1, r + 1);
  }

  lemma OldKeyKept(h: Heap, h2: Heap, r: Ref, key: Ref, item: Ref, x: Bytes)
    requires Inserts(h, h2, r, key, item) && HasKey(h, h[r].keys, x, r + 1)
    ensures HasKey(h2, h2[r].keys, x, r + 1)
  {
    var i :| 0 <= i < |h[r].keys| && KeyOf(h, h[r].keys[i], r + 1) == Some(x);
    assert h2[r].keys[i] == h[r].keys[i];
    assert KeyOf(h2, h2[r].keys[i], r + 1) == Some(x);
  }

  lemma NewEntryRenders(h: Heap, h1: Heap, h2: Heap, r: Ref, key: Ref, item: Ref, done: map<Bytes, Value>, k: Bytes, v: Value,
                        next: Ref)
    requires Inserts(h, h2, r, key, item) && r < next && SameAbove(h1, h2, next)
    requires KeyOf(h1, key, next) == Some(k) && Renders(h1, item, v, next)
    ensures EntryRenders(h2, key, item, done[k := v], r + 1) && HasKey(h2, h2[r].keys, k, r + 1)
    ensures KeyOf(h2, key, r + 1) == Some(k)
  {
    EntryKept(h1, h2, key, item, map[k := v], map[k := v], next, r + 1);
    assert h2[r].keys[|h[r].keys|] == key;
  }

  lemma DictFilledNext(h: Heap, h1: Heap, h2: Heap, r: Ref, done: map<Bytes, Value>, k: Bytes, v: Value, key: Ref, item: Ref,
                       next: Ref)
    requires DictFilled(h, r, done) && k !in done && r < next
    requires Inserts(h, h2, r, key, item) && SameAbove(h1, h2, next)
    requires KeyOf(h1, key, next) == Some(k) && Renders(h1, item, v, next)
    ensures DictFilled(h2, r, done[k := v])
  {
    NewEntryRenders(h, h1, h2, r, key, item, done, k, v, next);
    forall i | 0 <= i < |h2[r].keys|
      ensures EntryRenders(h2, h2[r].keys[i], h2[r].items[i], done[k := v], r + 1)
    {
      if i < |h[r].keys| {
        OldEntryKept(h, h2, r, key, item, done, k, v, i);
      }
    }
    forall i, j | 0 <= i < j < |h2[r].keys|
      ensures KeyOf(h2, h2[r].keys[i], r + 1) != KeyOf(h2, h2[r].keys[j], r + 1)
    {
      OldEntryKept(h, h2, r, key, item, done, k, v, i);
      if j < |h[r].keys| {
        OldEntryKept(h, h2, r, key, item, done, k, v, j);
      }
    }
    var done' := done[k := v];
    forall x | x in done'
      ensures HasKey(h2, h2[r].keys, x, r + 1)
    {
      if x != k {
        OldKeyKept(h, h2, r, key, item, x);
      }
    }
  }

  lemma DictFilledRenders(h: Heap, r: Ref, members: map<Bytes, Value>)
    requires DictFilled(h, r, members)
    ensures Renders(h, r, Object(members), r)
  {
    forall i | 0 <= i < |h[r].keys|
      ensures KeyOf(h, h[r].keys[i], r) == KeyOf(h, h[r].keys[i], r + 1)
      ensures EntryRenders(h, h[r].keys[i], h[r].items[i], members, r)
    {
      EntryKept(h, h, h[r].keys[i], h[r].items[i], members, members, r + 1, r);
    }
    forall k | k in members
      ensures HasKey(h, h[r].keys, k, r)
    {
      assert HasKey(h, h[r].keys, k, r + 1);
      var i :| 0 <= i < |h[r].keys| && KeyOf(h, h[r].keys[i], r + 1) == Some(k);
      assert KeyOf(h, h[r].keys[i], r) == Some(k);
    }
    assert forall i, k :: 0 <= i < |h[r].keys| && k in members && KeyOf(h, h[r].keys[i], r) == Some(k) ==>
                            EntryRenders(h, h[r].keys[i], h[r].items[i], members, r);
  }

  /** One entry of a new dictionary: the value, then the key, then the insertion. */
  method EntryToPy(k: Bytes, v: Value, r: Ref, heap: PyHeap, ghost done: map<Bytes, Value>)
    requires heap.Valid() && Representable(v) && r < heap.next
    requires DictFilled(heap.objects, r, done) && k !in done
    modifies heap
    ensures heap.Valid() && r < heap.next && DictFilled(heap.objects, r, done[k := v])
    ensures Preserved(old(heap.objects), heap.objects, r)
    decreases v, 2
  {
    ghost var h, next := heap.objects, heap.next;
    var item := JsonValueToPy(v, heap);
    ghost var built := heap.objects;
    var key := heap.New(PyStr(Some(k)));
    ghost var h1 := heap.objects;
    RenderingKept(built, h1, item, v, next, next);
    heap.SetItem(r, key, item);
    assert Inserts(h, heap.objects, r, key, item);
    DictFilledNext(h, h1, heap.objects, r, done, k, v, key, item, next);
  }

  ghost predicate Partition(members: map<Bytes, Value>, done: map<Bytes, Value>, rest: map<Bytes, Value>) {
    && (forall k :: k in members <==> k in done || k in rest)
    && (forall k :: k in done ==> k !in rest && done[k] == members[k])
    && (forall k :: k in rest ==> rest[k] == members[k])
  }

  lemma PartitionNext(members: map<Bytes, Value>, done: map<Bytes, Value>, rest: map<Bytes, Value>, k: Bytes)
    requires Partition(members, done, rest) && k in rest
    ensures k in members && k !in done && Partition(members, done[k := members[k]], rest - {k})
    ensures |rest - {k}| < |rest|
  {
    assert rest.Keys == (rest - {k}).Keys + {k};
  }

  method ObjectToPy(v: Value, heap: PyHeap) returns (r: Ref)
    requires v.Object? && heap.Valid() && Representable(v)
    modifies heap
    ensures heap.Valid() && old(heap.next) <= heap.next
    ensures Renders(heap.objects, r, v, old(heap.next))
    ensures Preserved(old(heap.objects), heap.objects, old(heap.next))
    decreases v, 0
  {
    r := heap.New(PyDict([], []));
    var rest := v.members;
    ghost var done: map<Bytes, Value> := map[];
    while rest != map[]
      invariant heap.Valid() && r < heap.next
      invariant DictFilled(heap.objects, r, done)
      invariant Partition(v.members, done, rest)
      invariant Preserved(old(heap.objects), heap.objects, old(heap.next))
      decreases |rest|
    {
      var k :| k in rest;
      PartitionNext(v.members, done, rest, k);
      EntryToPy(k, v.members[k], r, heap, done);
      done, rest := done[k := v.members[k]], rest - {k};
    }
    assert done == v.members;
    DictFilledRenders(heap.objects, r, done);
  }

  // ---------------------------------------------------------------- the size of a value

  /** What a value, an object entry and the bytes of texts and keys cost. */
  datatype Prices = Prices(value: nat, entry: nat, text: bool)

  function TextPrice(p: Prices, text: Bytes): nat { if p.text then |text| else 0 }

  ghost function ValuePrice(p: Prices, v: Value): nat
    decreases v
  {
    p.value + match v
              case Plain(scalar) => if scalar.Text? then TextPrice(p, scalar.utf8) else 0
              case Array(values) => ValuesPrice(p, values)
              case Object(members) =>
                Total(map k | k in members :: p.entry + TextPrice(p, k) + ValuePrice(p, members[k]))
  }

  ghost function ValuesPrice(p: Prices, values: seq<Value>): nat
    decreases values
  {
    if values == [] then 0 else ValuesPrice(p, values[..|values| - 1]) + ValuePrice(p, values[|values| - 1])
  }

  /** The number of values in a value. */
  ghost function ValueNodes(v: Value): nat { ValuePrice(Prices(1, 0, false), v) }

  /** The bytes of a value: each value, each key's header, and all text. */
  ghost function ValueBytes(sizes: Sizes, v: Value): nat { ValuePrice(Prices(sizes.value, sizes.header, true), v) }

  /** Container nesting of a value. */
  ghost function ValueDepth(v: Value): nat
    decreases v
  {
    match v
    case Plain(_) => 0
    case Array(values) => 1 + Largest(map i | 0 <= i < |values| :: ValueDepth(values[i]))
    case Object(members) => 1 + Largest(map k | k in members :: ValueDepth(members[k]))
  }

  // ---------------------------------------------------------------- a rendering's unfolding has the value's size

  function KeyPrice(p: Prices, keys: seq<Bytes>): nat {
    if keys == [] then 0 else KeyPrice(p, keys[..|keys| - 1]) + p.entry + TextPrice(p, keys[|keys| - 1])
  }

  function NodePrice(p: Prices, n: Node): nat {
    p.value + if n.Obj? then KeyPrice(p, n.keys)
              else if n.Leaf? && n.scalar.Text? then TextPrice(p, n.scalar.utf8)
              else 0
  }

  ghost predicate Priced(own: Node -> nat, p: Prices) {
    forall n :: own(n) == NodePrice(p, n)
  }

  lemma {:induction false} KeysAreFree(keys: seq<Bytes>)
    ensures KeyPrice(Prices(1, 0, false), keys) == 0
  {
    if keys == [] {
    } else {
      KeysAreFree(keys[..|keys| - 1]);
    }
  }

  lemma {:induction false} KeysCostBytes(sizes: Sizes, keys: seq<Bytes>)
    ensures KeyPrice(Prices(sizes.value, sizes.header, true), keys) == KeyBytes(keys, sizes.header)
  {
    if keys == [] {
    } else {
      KeysCostBytes(sizes, keys[..|keys| - 1]);
    }
  }

  lemma BudgetsArePriced(sizes: Sizes)
    ensures Priced(OwnNode, Prices(1, 0, false))
    ensures Priced(OwnBytes(sizes), Prices(sizes.value, sizes.header, true))
  {
    forall n: Node
      ensures OwnNode(n) == NodePrice(Prices(1, 0, false), n)
    {
      if n.Obj? {
        KeysAreFree(n.keys);
      }
    }
    forall n: Node
      ensures OwnBytes(sizes)(n) == NodePrice(Prices(sizes.value, sizes.header, true), n)
    {
      if n.Obj? {
        KeysCostBytes(sizes, n.keys);
      }
    }
  }

  /** The keys of a dictionary's unfolding are the members' keys, each once. */
  lemma UnfoldedKeys(h: Heap, r: Ref, v: Value, low: Ref, t: Node)
    requires Closed(h) && v.Object? && Renders(h, r, v, low) && Unfolds(h, r, t)
    ensures t.Obj? && |t.keys| == |t.items| == |h[r].items|
    ensures forall i :: 0 <= i < |t.keys| ==> t.keys[i] in v.members && Renders(h, h[r].items[i], v.members[t.keys[i]], low)
    ensures forall i, j :: 0 <= i < j < |t.keys| ==> t.keys[i] != t.keys[j]
    ensures forall k :: k in v.members ==> k in t.keys
  {
    forall i | 0 <= i < |t.keys|
      ensures KeyOf(h, h[r].keys[i], low) == Some(t.keys[i])
    {
      assert IsKey(h[h[r].keys[i]], t.keys[i]);
      assert KeyOf(h, h[r].keys[i], low).Some?;
    }
    forall i, j | 0 <= i < j < |t.keys|
      ensures t.keys[i] != t.keys[j]
    {
      assert KeyOf(h, h[r].keys[i], low) != KeyOf(h, h[r].keys[j], low);
    }
    forall k | k in v.members
      ensures k in t.keys
    {
      assert HasKey(h, h[r].keys, k, low);
      var i :| 0 <= i < |h[r].keys| && KeyOf(h, h[r].keys[i], low) == Some(k);
      assert t.keys[i] == k;
    }
  }

  /** A tree that spells out a value with one entry per key. */
  ghost predicate Matches(t: Node, v: Value)
    decreases v
  {
    match v
    case Plain(scalar) => t == Leaf(scalar)
    case Array(values) => t.Arr? && |t.items| == |values| && forall i :: 0 <= i < |values| ==> Matches(t.items[i], values[i])
    case Object(members) =>
      && t.Obj? && |t.keys| == |t.items|
      && (forall i, j :: 0 <= i < j < |t.keys| ==> t.keys[i] != t.keys[j])
      && (forall k :: k in members ==> k in t.keys)
      && (forall i :: 0 <= i < |t.keys| ==> t.keys[i] in members)
      && (forall i :: 0 <= i < |t.items| ==> Matches(t.items[i], members[t.keys[i]]))
  }

  lemma {:induction false} RenderingMatches(h: Heap, r: Ref, v: Value, low: Ref, t: Node)
    requires Closed(h) && Renders(h, r, v, low) && Unfolds(h, r, t)
    ensures Matches(t, v)
    decreases v
  {
    match v
    case Plain(_) =>
    case Array(values) =>
      forall i | 0 <= i < |values|
        ensures Matches(t.items[i], values[i])
      {
        RenderingMatches(h, h[r].items[i], values[i], low, t.items[i]);
      }
    case Object(members) =>
      UnfoldedKeys(h, r, v, low, t);
      forall i | 0 <= i < |t.items|
        ensures Matches(t.items[i], members[t.keys[i]])
      {
        RenderingMatches(h, h[r].items[i], members[t.keys[i]], low, t.items[i]);
      }
  }

  ghost function Restrict(m: map<Bytes, nat>, keys: seq<Bytes>): map<Bytes, nat> {
    map k | k in m && k in keys :: m[k]
  }

  lemma RestrictNext(m: map<Bytes, nat>, keys: seq<Bytes>, i: nat)
    requires i < |keys| && keys[i] in m && forall j :: 0 <= j < i ==> keys[j] != keys[i]
    ensures Total(Restrict(m, keys[..i + 1])) == Total(Restrict(m, keys[..i])) + m[keys[i]]
  {
    assert keys[..i + 1] == keys[..i] + [keys[i]];
    assert Restrict(m, keys[..i + 1]) == Restrict(m, keys[..i])[keys[i] := m[keys[i]]];
    TotalInsert(Restrict(m, keys[..i]), keys[i], m[keys[i]]);
  }

  lemma KeyPriceNext(p: Prices, keys: seq<Bytes>, i: nat)
    requires i < |keys|
    ensures KeyPrice(p, keys[..i + 1]) == KeyPrice(p, keys[..i]) + p.entry + TextPrice(p, keys[i])
  {
    assert keys[..i + 1][..i] == keys[..i];
  }

  /** Distinct keys that cover a map: the entries' costs add up to the map's total. */
  lemma EntriesTotal(own: Node -> nat, p: Prices, keys: seq<Bytes>, items: seq<Node>, m: map<Bytes, nat>)
    requires |keys| == |items| && (forall i, j :: 0 <= i < j < |keys| ==> keys[i] != keys[j])
    requires forall i :: 0 <= i < |keys| ==> keys[i] in m && m[keys[i]] == p.entry + TextPrice(p, keys[i]) + Cost(own, items[i])
    requires forall k :: k in m ==> k in keys
    ensures KeyPrice(p, keys) + CostAll(own, items) == Total(m)
  {
    assert Restrict(m, keys[..0]) == map[];
    for i := 0 to |keys|
      invariant EntriesAddUp(own, p, keys, items, m, i)
    {
      EntriesAddUpNext(own, p, keys, items, m, i);
    }
    RestrictAll(m, keys);
    assert keys[..|keys|] == keys && items[..|items|] == items;
  }

  ghost predicate EntriesAddUp(own: Node -> nat, p: Prices, keys: seq<Bytes>, items: seq<Node>, m: map<Bytes, nat>, i: nat)
    requires i <= |keys| == |items|
  {
    KeyPrice(p, keys[..i]) + CostAll(own, items[..i]) == Total(Restrict(m, keys[..i]))
  }

  lemma EntriesAddUpNext(own: Node -> nat, p: Prices, keys: seq<Bytes>, items: seq<Node>, m: map<Bytes, nat>, i: nat)
    requires i < |keys| == |items| && EntriesAddUp(own, p, keys, items, m, i)
    requires forall j :: 0 <= j < i ==> keys[j] != keys[i]
    requires keys[i] in m && m[keys[i]] == p.entry + TextPrice(p, keys[i]) + Cost(own, items[i])
    ensures EntriesAddUp(own, p, keys, items, m, i + 1)
  {
    RestrictNext(m, keys, i);
    KeyPriceNext(p, keys, i);
    CostNext(own, items, i);
  }

  lemma RestrictAll(m: map<Bytes, nat>, keys: seq<Bytes>)
    requires forall k :: k in m ==> k in keys
    ensures Restrict(m, keys) == m
  {
  }

  lemma ArrayPrice(own: Node -> nat, p: Prices, items: seq<Node>, values: seq<Value>)
    requires |items| == |values| && forall i :: 0 <= i < |items| ==> Cost(own, items[i]) == ValuePrice(p, values[i])
    ensures CostAll(own, items) == ValuesPrice(p, values)
  {
    for i := 0 to |values|
      invariant CostAll(own, items[..i]) == ValuesPrice(p, values[..i])
    {
      CostNext(own, items, i);
      assert values[..i + 1][..i] == values[..i];
    }
    assert values[..|values|] == values && items[..|items|] == items;
  }

  ghost function MemberPrices(p: Prices, members: map<Bytes, Value>): map<Bytes, nat> {
    map k | k in members :: p.entry + TextPrice(p, k) + ValuePrice(p, members[k])
  }

  lemma {:induction false} MatchPrice(t: Node, v: Value, own: Node -> nat, p: Prices)
    requires Matches(t, v) && Priced(own, p)
    ensures Cost(own, t) == ValuePrice(p, v)
    decreases v
  {
    assert own(t) == NodePrice(p, t);
    match v
    case Plain(_) =>
    case Array(values) =>
      forall i | 0 <= i < |values|
        ensures Cost(own, t.items[i]) == ValuePrice(p, values[i])
      {
        MatchPrice(t.items[i], values[i], own, p);
      }
      ArrayPrice(own, p, t.items, values);
    case Object(members) =>
      forall i | 0 <= i < |t.keys|
        ensures Cost(own, t.items[i]) == ValuePrice(p, members[t.keys[i]])
      {
        MatchPrice(t.items[i], members[t.keys[i]], own, p);
      }
      EntriesTotal(own, p, t.keys, t.items, MemberPrices(p, members));
  }

  /** Items whose depths are the values of a map are as deep as its largest value. */
  lemma DepthIsLargest<K>(items: seq<Node>, keys: seq<K>, m: map<K, nat>)
    requires |keys| == |items| && forall i :: 0 <= i < |keys| ==> keys[i] in m && m[keys[i]] == Depth(items[i])
    requires forall k :: k in m ==> k in keys
    ensures DepthAll(items) == Largest(m)
  {
    LargestIsLeastBound(m, DepthAll(items));
    forall i | 0 <= i < |items|
      ensures Depth(items[i]) <= Largest(m) && Depth(items[i]) <= DepthAll(items)
    {
      assert m[keys[i]] <= Largest(m);
      DepthOfItem(items, i);
    }
    DepthAllBound(items, Largest(m));
    forall k | k in m
      ensures m[k] <= DepthAll(items)
    {
      var i :| 0 <= i < |keys| && keys[i] == k;
    }
  }

  ghost function ItemDepths(values: seq<Value>): map<int, nat> {
    map i | 0 <= i < |values| :: ValueDepth(values[i])
  }

  ghost function MemberDepths(members: map<Bytes, Value>): map<Bytes, nat> {
    map k | k in members :: ValueDepth(members[k])
  }

  lemma {:induction false} MatchDepth(t: Node, v: Value)
    requires Matches(t, v)
    ensures Depth(t) == ValueDepth(v)
    decreases v
  {
    match v
    case Plain(_) =>
    case Array(values) =>
      forall i | 0 <= i < |values|
        ensures Depth(t.items[i]) == ValueDepth(values[i])
      {
        MatchDepth(t.items[i], values[i]);
      }
      var positions := seq(|values|, i => i);
      forall k | k in ItemDepths(values)
        ensures k in positions
      {
        assert positions[k] == k;
      }
      DepthIsLargest(t.items, positions, ItemDepths(values));
    case Object(members) =>
      forall i | 0 <= i < |t.keys|
        ensures Depth(t.items[i]) == ValueDepth(members[t.keys[i]])
      {
        MatchDepth(t.items[i], members[t.keys[i]]);
      }
      DepthIsLargest(t.items, t.keys, MemberDepths(members));
  }

  /** The limits of the conversion, on the value itself. */
  ghost predicate WithinLimits(v: Value, sizes: Sizes) {
    && ValueDepth(v) <= 64
    && ValueNodes(v) <= 16_384
    && ValueBytes(sizes, v) <= 1024 * 1024
  }

  /** Every rendering of a value is convertible exactly when the value is within the limits. */
  lemma RenderingAdmissible(h: Heap, r: Ref, v: Value, low: Ref, sizes: Sizes)
    requires Closed(h) && Renders(h, r, v, low)
    ensures HasAdmissible(h, r, sizes) <==> WithinLimits(v, sizes)
  {
    var t := RenderingUnfolds(h, r, v, low);
    RenderingMatches(h, r, v, low, t);
    MatchMeasures(t, v, sizes);
    if HasAdmissible(h, r, sizes) {
      var u :| Admissible(h, r, sizes, u);
      UnfoldsUnique(h, r, t, u);
    } else {
      assert !Admissible(h, r, sizes, t);
    }
  }

  lemma MatchMeasures(t: Node, v: Value, sizes: Sizes)
    requires Matches(t, v)
    ensures Depth(t) == ValueDepth(v) && ValueCount(t) == ValueNodes(v)
    ensures ValueCount(t) * sizes.value + KeyCount(t) * sizes.header + TextCount(t) == ValueBytes(sizes, v)
  {
    BudgetsArePriced(sizes);
    BudgetByCount(t, sizes);
    MatchDepth(t, v);
    MatchPrice(t, v, OwnNode, Prices(1, 0, false));
    MatchPrice(t, v, OwnBytes(sizes), Prices(sizes.value, sizes.header, true));
  }

  /** Handing a value to Python and converting it back gives the same value exactly when the value is within the limits. */
  method ThereAndBack(v: Value, sizes: Sizes) returns (back: Result<Value>)
    requires Representable(v) && sizes.value > 0
    ensures back.Ok? <==> WithinLimits(v, sizes)
    ensures back.Ok? ==> back.value == v
  {
    var objects := new PyHeap();
    var r := JsonValueToPy(v, objects);
    var heap := objects.objects;
    back := PyAnyToJsonValue(heap, r, sizes);
    RenderingAdmissible(heap, r, v, 0, sizes);
    if back.Ok? {
      RenderingRoundTrip(heap, r, v, 0, back.value);
    }
  }
}
