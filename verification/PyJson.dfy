/**
 Conversion of a Python object graph to JSON. The graph is a fixed heap with sharing and possibly cycles; the result is
 the tree it unfolds to, within node, byte and nesting budgets.
 */
module PyJson {
  import opened Common
  import opened JsonTree

  const MAX_JSON_DEPTH: nat := 64
  const MAX_JSON_NODES: nat := 16_384
  const MAX_JSON_BYTES: nat := 1024 * 1024

  type Ref = nat

  /** `PyFloat(None)` is a non-finite float, `PyStr(None)` a string without a UTF-8 form. */
  datatype PyObject =
    | PyNone
    | PyBool(b: bool)
    | PyInt(i: int)
    | PyFloat(f: Option<real>)
    | PyStr(utf8: Option<Bytes>)
    | PyList(items: seq<Ref>)
    | PyDict(keys: seq<Ref>, items: seq<Ref>)
    | Unsupported

  type Heap = map<Ref, PyObject>

  predicate IsContainer(o: PyObject) { o.PyList? || o.PyDict? }

  ghost predicate Closed(h: Heap) {
    forall r :: r in h && IsContainer(h[r]) ==>
      && (forall i :: 0 <= i < |h[r].items| ==> h[r].items[i] in h)
      && (h[r].PyDict? ==> |h[r].keys| == |h[r].items| && forall i :: 0 <= i < |h[r].keys| ==> h[r].keys[i] in h)
  }

  predicate FitsWord(i: int) { -0x8000_0000_0000_0000 <= i < 0x1_0000_0000_0000_0000 }

  /** The JSON scalar an object stands for, if any. */
  function AsScalar(o: PyObject): Option<Scalar> {
    match o
    case PyNone => Some(Null)
    case PyBool(b) => Some(Bool(b))
    case PyInt(i) => if FitsWord(i) then Some(Int(i)) else None
    case PyFloat(Some(r)) => Some(Float(r))
    case PyStr(Some(utf8)) => Some(Text(utf8))
    case _ => None
  }

  predicate IsKey(o: PyObject, k: Bytes) { o == PyStr(Some(k)) }

  /** `t` is the tree that the object at `r` unfolds to. A graph through a cycle unfolds to no finite tree. */
  ghost predicate Unfolds(h: Heap, r: Ref, t: Node)
    requires Closed(h) && r in h
    decreases t
  {
    match t
    case Leaf(scalar) => AsScalar(h[r]) == Some(scalar)
    case Arr(items) =>
      && h[r].PyList? && |items| == |h[r].items|
      && forall i :: 0 <= i < |items| ==> Unfolds(h, h[r].items[i], items[i])
    case Obj(keys, items) =>
      && h[r].PyDict? && |items| == |h[r].items| && |keys| == |items|
      && (forall i :: 0 <= i < |keys| ==> IsKey(h[h[r].keys[i]], keys[i]))
      && (forall i :: 0 <= i < |items| ==> Unfolds(h, h[r].items[i], items[i]))
  }

  lemma {:induction false} UnfoldsUnique(h: Heap, r: Ref, t: Node, u: Node)
    requires Closed(h) && r in h && Unfolds(h, r, t) && Unfolds(h, r, u)
    ensures t == u
    decreases t
  {
    if t.Leaf? {
    } else {
      forall i | 0 <= i < |t.items|
        ensures t.items[i] == u.items[i]
      {
        UnfoldsUnique(h, h[r].items[i], t.items[i], u.items[i]);
      }
    }
  }

  // ---------------------------------------------------------------- budgets

  /** The in-memory sizes of a JSON value and of a string header. */
  datatype Sizes = Sizes(value: nat, header: nat)

  function KeyBytes(keys: seq<Bytes>, header: nat): nat {
    if keys == [] then 0 else KeyBytes(keys[..|keys| - 1], header) + header + |keys[|keys| - 1]|
  }

  function OwnNode(n: Node): nat { 1 }

  function OwnByteCount(sizes: Sizes, n: Node): nat {
    sizes.value + if n.Obj? then KeyBytes(n.keys, sizes.header)
                  else if n.Leaf? && n.scalar.Text? then |n.scalar.utf8|
                  else 0
  }

  function OwnBytes(sizes: Sizes): Node -> nat { (n: Node) => OwnByteCount(sizes, n) }

  function NodeCount(t: Node): nat { Cost(OwnNode, t) }
  function ByteCount(sizes: Sizes, t: Node): nat { Cost(OwnBytes(sizes), t) }

  lemma {:induction false} KeyBytesPrefix(keys: seq<Bytes>, header: nat, i: nat)
    requires i <= |keys|
    ensures KeyBytes(keys[..i], header) <= KeyBytes(keys, header)
  {
    if i == |keys| {
      assert keys[..i] == keys;
    } else {
      assert keys[..|keys| - 1][..i] == keys[..i];
      KeyBytesPrefix(keys[..|keys| - 1], header, i);
    }
  }

  lemma KeyBytesNext(keys: seq<Bytes>, header: nat, i: nat)
    requires i < |keys|
    ensures KeyBytes(keys[..i + 1], header) == KeyBytes(keys[..i], header) + header + |keys[i]|
    ensures KeyBytes(keys[..i + 1], header) <= KeyBytes(keys, header)
  {
    assert keys[..i + 1][..i] == keys[..i];
    KeyBytesPrefix(keys, header, i + 1);
  }

  class JsonBudget {
    var nodes: nat
    var bytes: nat
    const sizes: Sizes

    constructor (sizes: Sizes)
      ensures nodes == MAX_JSON_NODES && bytes == MAX_JSON_BYTES && this.sizes == sizes
    {
      nodes, bytes, this.sizes := MAX_JSON_NODES, MAX_JSON_BYTES, sizes;
    }

    method ChargeBytes(count: nat) returns (ok: bool)
      modifies this`bytes
      ensures ok == (count <= old(bytes))
      ensures bytes == if ok then old(bytes) - count else old(bytes)
    {
      if count > bytes {
        return false;
      }
      bytes := bytes - count;
      return true;
    }

    method ChargeNode() returns (ok: bool)
      modifies this
      ensures ok == (old(nodes) >= 1 && old(bytes) >= sizes.value)
      ensures ok ==> nodes == old(nodes) - 1 && bytes == old(bytes) - sizes.value
    {
      if nodes == 0 {
        return false;
      }
      nodes := nodes - 1;
      ok := ChargeBytes(sizes.value);
    }

    /** The early refusal of a container whose children cannot all be charged. */
    method CheckChildren(count: nat) returns (ok: bool)
      requires sizes.value > 0
      ensures ok == (count <= nodes && count * sizes.value <= bytes)
    {
      if count > nodes {
        return false;
      }
      DivBound(count, bytes, sizes.value);
      return count <= bytes / sizes.value;
    }
  }

  lemma DivBound(count: nat, bytes: nat, size: nat)
    requires size > 0
    ensures count <= bytes / size <==> count * size <= bytes
  {
    if count <= bytes / size {
      assert count * size <= bytes / size * size;
    } else {
      assert count * size >= (bytes / size + 1) * size;
    }
  }

  // ---------------------------------------------------------------- cycles

  /** The unfolding at `r` goes through the container `x`. */
  ghost predicate Passes(h: Heap, r: Ref, t: Node, x: Ref)
    requires Closed(h) && r in h && Unfolds(h, r, t)
    decreases t
  {
    !t.Leaf? && (r == x || exists i :: 0 <= i < |t.items| && Passes(h, h[r].items[i], t.items[i], x))
  }

  lemma {:induction false} PassedUnfolds(h: Heap, r: Ref, t: Node, x: Ref) returns (u: Node)
    requires Closed(h) && r in h && Unfolds(h, r, t) && Passes(h, r, t, x)
    ensures x in h && Unfolds(h, x, u) && NodeCount(u) <= NodeCount(t)
    decreases t
  {
    if r == x {
      u := t;
    } else {
      var i :| 0 <= i < |t.items| && Passes(h, h[r].items[i], t.items[i], x);
      u := PassedUnfolds(h, h[r].items[i], t.items[i], x);
      CostNext(OwnNode, t.items, i);
    }
  }

  /** A container with a finite unfolding does not occur below itself. */
  lemma NotBelowItself(h: Heap, r: Ref, t: Node, i: nat)
    requires Closed(h) && r in h && Unfolds(h, r, t) && !t.Leaf? && i < |t.items|
    ensures !Passes(h, h[r].items[i], t.items[i], r)
  {
    if Passes(h, h[r].items[i], t.items[i], r) {
      var u := PassedUnfolds(h, h[r].items[i], t.items[i], r);
      UnfoldsUnique(h, r, t, u);
      CostNext(OwnNode, t.items, i);
    }
  }

  // ---------------------------------------------------------------- what a conversion accepts

  /** `t` is the unfolding at `r`, avoids the containers on the current path, and is within what is left. */
  ghost predicate Fits(h: Heap, r: Ref, t: Node, depth: nat, active: set<Ref>, nodes: int, bytes: int, sizes: Sizes)
    requires Closed(h) && r in h
  {
    && Unfolds(h, r, t)
    && depth + Depth(t) <= MAX_JSON_DEPTH
    && (forall x :: x in active ==> !Passes(h, r, t, x))
    && NodeCount(t) <= nodes && ByteCount(sizes, t) <= bytes
  }

  ghost predicate NothingFits(h: Heap, r: Ref, depth: nat, active: set<Ref>, nodes: int, bytes: int, sizes: Sizes)
    requires Closed(h) && r in h
  {
    forall t :: Unfolds(h, r, t) ==> !Fits(h, r, t, depth, active, nodes, bytes, sizes)
  }

  /** A tree that fits has items that fit, on the longer path and with what the items before them left. */
  lemma FitsItem(h: Heap, r: Ref, t: Node, depth: nat, active: set<Ref>, nodes: int, bytes: int, sizes: Sizes, i: nat)
    requires Closed(h) && r in h && Fits(h, r, t, depth, active, nodes, bytes, sizes) && !t.Leaf? && i < |t.items|
    ensures Fits(h, h[r].items[i], t.items[i], depth + 1, active + {r},
                 nodes - 1 - CostAll(OwnNode, t.items[..i]),
                 bytes - OwnByteCount(sizes, t) - CostAll(OwnBytes(sizes), t.items[..i]), sizes)
  {
    CostNext(OwnNode, t.items, i);
    CostNext(OwnBytes(sizes), t.items, i);
    DepthOfItem(t.items, i);
    NotBelowItself(h, r, t, i);
  }

  lemma {:induction false} CostAtLeast(own: Node -> nat, items: seq<Node>, least: nat)
    requires forall n :: own(n) >= least
    ensures CostAll(own, items) >= |items| * least
  {
    if items == [] {
    } else {
      CostAtLeast(own, items[1..], least);
      assert |items| * least == least + |items[1..]| * least;
    }
  }

  /** The early check on the number of children refuses nothing that would fit. */
  lemma ChildrenFit(h: Heap, r: Ref, t: Node, depth: nat, active: set<Ref>, nodes: int, bytes: int, sizes: Sizes)
    requires Closed(h) && r in h && Fits(h, r, t, depth, active, nodes, bytes, sizes) && !t.Leaf?
    ensures |h[r].items| <= nodes - 1 && |h[r].items| * sizes.value <= bytes - sizes.value
  {
    CostAtLeast(OwnNode, t.items, 1);
    CostAtLeast(OwnBytes(sizes), t.items, sizes.value);
  }

  /** Unfoldings of the first children of `r`. */
  ghost predicate UnfoldsFirst(h: Heap, r: Ref, trees: seq<Node>)
    requires Closed(h) && r in h && IsContainer(h[r])
  {
    |trees| <= |h[r].items| && forall j :: 0 <= j < |trees| ==> Unfolds(h, h[r].items[j], trees[j])
  }

  lemma FirstUnique(h: Heap, r: Ref, t: Node, trees: seq<Node>)
    requires Closed(h) && r in h && IsContainer(h[r]) && Unfolds(h, r, t) && UnfoldsFirst(h, r, trees)
    ensures !t.Leaf? && |t.items| == |h[r].items| && t.items[..|trees|] == trees
  {
    forall j | 0 <= j < |trees|
      ensures t.items[j] == trees[j]
    {
      UnfoldsUnique(h, h[r].items[j], t.items[j], trees[j]);
    }
  }

  /** Whatever `r` unfolds to, its own charge is at least this. */
  ghost predicate OwnAtLeast(h: Heap, r: Ref, charge: nat, sizes: Sizes)
    requires Closed(h) && r in h
  {
    forall t :: Unfolds(h, r, t) ==> OwnByteCount(sizes, t) >= charge
  }

  /** A child that does not fit into what is left rules out the whole. */
  lemma ItemMisfits(h: Heap, r: Ref, trees: seq<Node>, depth: nat, active: set<Ref>, nodes: int, bytes: int, sizes: Sizes,
                    charge: nat)
    requires Closed(h) && r in h && IsContainer(h[r]) && UnfoldsFirst(h, r, trees) && |trees| < |h[r].items|
    requires OwnAtLeast(h, r, charge, sizes)
    requires NothingFits(h, h[r].items[|trees|], depth + 1, active + {r}, nodes - 1 - CostAll(OwnNode, trees),
                         bytes - charge - CostAll(OwnBytes(sizes), trees), sizes)
    ensures NothingFits(h, r, depth, active, nodes, bytes, sizes)
  {
    forall t | Unfolds(h, r, t)
      ensures !Fits(h, r, t, depth, active, nodes, bytes, sizes)
    {
      if Fits(h, r, t, depth, active, nodes, bytes, sizes) {
        FirstUnique(h, r, t, trees);
        FitsItem(h, r, t, depth, active, nodes, bytes, sizes, |trees|);
      }
    }
  }

  /** A key that cannot be copied into what is left rules out the whole. */
  lemma KeyMisfits(h: Heap, r: Ref, keys: seq<Bytes>, trees: seq<Node>, depth: nat, active: set<Ref>, nodes: int,
                   bytes: int, sizes: Sizes)
    requires Closed(h) && r in h && h[r].PyDict? && KeysFirst(h, r, keys) && UnfoldsFirst(h, r, trees)
    requires |keys| == |trees| < |h[r].items|
    requires forall k :: IsKey(h[h[r].keys[|keys|]], k) ==>
      bytes - sizes.value - KeyBytes(keys, sizes.header) - CostAll(OwnBytes(sizes), trees) < sizes.header + |k|
    ensures NothingFits(h, r, depth, active, nodes, bytes, sizes)
  {
    forall t | Unfolds(h, r, t)
      ensures ByteCount(sizes, t) > bytes
    {
      FirstUnique(h, r, t, trees);
      assert t.keys[..|keys|] == keys;
      KeyBytesNext(t.keys, sizes.header, |keys|);
      CostNext(OwnBytes(sizes), t.items, |trees|);
    }
  }

  /** The UTF-8 forms of the first keys of the dictionary at `r`. */
  ghost predicate KeysFirst(h: Heap, r: Ref, keys: seq<Bytes>)
    requires Closed(h) && r in h && h[r].PyDict?
  {
    |keys| <= |h[r].keys| && forall j :: 0 <= j < |keys| ==> IsKey(h[h[r].keys[j]], keys[j])
  }

  lemma KeysCharge(h: Heap, r: Ref, keys: seq<Bytes>, sizes: Sizes)
    requires Closed(h) && r in h && h[r].PyDict? && KeysFirst(h, r, keys)
    ensures OwnAtLeast(h, r, sizes.value + KeyBytes(keys, sizes.header), sizes)
  {
    forall t | Unfolds(h, r, t)
      ensures OwnByteCount(sizes, t) >= sizes.value + KeyBytes(keys, sizes.header)
    {
      assert t.keys[..|keys|] == keys;
      KeyBytesPrefix(t.keys, sizes.header, |keys|);
    }
  }

  /** What the loops keep of the children converted so far. */
  ghost predicate ItemsFit(h: Heap, r: Ref, trees: seq<Node>, depth: nat, active: set<Ref>)
    requires Closed(h) && r in h && IsContainer(h[r])
  {
    && UnfoldsFirst(h, r, trees)
    && (forall j :: 0 <= j < |trees| ==> depth + 1 + Depth(trees[j]) <= MAX_JSON_DEPTH)
    && (forall j, x :: 0 <= j < |trees| && x in active ==> !Passes(h, h[r].items[j], trees[j], x))
  }

  lemma ItemsFitWhole(h: Heap, r: Ref, t: Node, depth: nat, active: set<Ref>)
    requires Closed(h) && r in h && IsContainer(h[r]) && Unfolds(h, r, t) && !t.Leaf? && r !in active
    requires ItemsFit(h, r, t.items, depth, active) && depth < MAX_JSON_DEPTH
    ensures depth + Depth(t) <= MAX_JSON_DEPTH && forall x :: x in active ==> !Passes(h, r, t, x)
  {
    DepthAllBound(t.items, MAX_JSON_DEPTH - depth - 1);
  }

  /** The containers on the current path. */
  class Path {
    var active: set<Ref>

    constructor ()
      ensures active == {}
    {
      active := {};
    }
  }

  /** What a conversion of `r` promises, before and after. */
  ghost predicate Converted(h: Heap, r: Ref, depth: nat, active: set<Ref>, nodes: int, bytes: int, sizes: Sizes,
                            t: Node, v: Value, nodesLeft: int, bytesLeft: int)
    requires Closed(h) && r in h
  {
    && Fits(h, r, t, depth, active, nodes, bytes, sizes) && Denotes(t, v)
    && nodesLeft == nodes - NodeCount(t) && bytesLeft == bytes - ByteCount(sizes, t)
  }

  /**
   Converts the object at `r`. Succeeds exactly when its unfolding fits, then spends exactly its counts and restores the
   path. Terminates on every graph: each nested call is one level deeper and the level is bounded.
   */
  method Convert(h: Heap, r: Ref, depth: nat, path: Path, budget: JsonBudget) returns (v: Result<Value>, ghost t: Node)
    requires Closed(h) && r in h && depth <= MAX_JSON_DEPTH && budget.sizes.value > 0
    modifies path, budget
    ensures v.Ok? ==> path.active == old(path.active)
    ensures v.Ok? ==> Converted(h, r, depth, old(path.active), old(budget.nodes), old(budget.bytes), budget.sizes,
                                t, v.value, budget.nodes, budget.bytes)
    ensures v.Err? ==> NothingFits(h, r, depth, old(path.active), old(budget.nodes), old(budget.bytes), budget.sizes)
    decreases MAX_JSON_DEPTH - depth, 2
  {
    t := Leaf(Null);
    var ok := budget.ChargeNode();
    if !ok {
      return Err("JSON node or byte budget exceeded"), t;
    }
    var scalar := AsScalar(h[r]);
    if scalar.Some? {
      v, t := ConvertScalar(h, r, scalar.value, depth, budget, path.active);
      return;
    }
    if !IsContainer(h[r]) {
      return Err("Unsupported value for JSON conversion"), t;
    }
    if depth >= MAX_JSON_DEPTH {
      return Err("JSON container depth exceeds 64"), t;
    }
    if r in path.active {
      return Err("Cyclic JSON container"), t;
    }
    path.active := path.active + {r};
    ok := budget.CheckChildren(|h[r].items|);
    if !ok {
      forall u | Unfolds(h, r, u)
        ensures !Fits(h, r, u, depth, old(path.active), old(budget.nodes), old(budget.bytes), budget.sizes)
      {
        if Fits(h, r, u, depth, old(path.active), old(budget.nodes), old(budget.bytes), budget.sizes) {
          ChildrenFit(h, r, u, depth, old(path.active), old(budget.nodes), old(budget.bytes), budget.sizes);
        }
      }
      return Err("JSON node or byte budget exceeded"), t;
    }
    assert path.active - {r} == old(path.active);
    if h[r].PyList? {
      v, t := ConvertList(h, r, depth, path, budget);
    } else {
      v, t := ConvertDict(h, r, depth, path, budget);
    }
    path.active := path.active - {r};
  }

  /** A scalar whose node is already charged; a string is copied and its bytes charged. */
  method ConvertScalar(h: Heap, r: Ref, scalar: Scalar, depth: nat, budget: JsonBudget, ghost active: set<Ref>)
    returns (v: Result<Value>, ghost t: Node)
    requires Closed(h) && r in h && AsScalar(h[r]) == Some(scalar) && depth <= MAX_JSON_DEPTH
    modifies budget`bytes
    ensures v.Ok? ==> Converted(h, r, depth, active, budget.nodes + 1, old(budget.bytes) + budget.sizes.value, budget.sizes,
                                t, v.value, budget.nodes, budget.bytes)
    ensures v.Err? ==>
      NothingFits(h, r, depth, active, budget.nodes + 1, old(budget.bytes) + budget.sizes.value, budget.sizes)
  {
    t := Leaf(scalar);
    if scalar.Text? {
      var ok := budget.ChargeBytes(|scalar.utf8|);
      if !ok {
        forall u | Unfolds(h, r, u)
          ensures u == t
        {
          UnfoldsUnique(h, r, t, u);
        }
        return Err("JSON byte budget exceeded"), t;
      }
    }
    v := Ok(Plain(scalar));
  }

  method ConvertList(h: Heap, r: Ref, depth: nat, path: Path, budget: JsonBudget) returns (v: Result<Value>, ghost t: Node)
    requires Closed(h) && r in h && h[r].PyList? && depth < MAX_JSON_DEPTH && budget.sizes.value > 0 && r in path.active
    modifies path, budget
    ensures v.Ok? ==> path.active == old(path.active)
    ensures v.Ok? ==> Converted(h, r, depth, old(path.active) - {r}, old(budget.nodes) + 1,
                                old(budget.bytes) + budget.sizes.value, budget.sizes,
                                t, v.value, budget.nodes, budget.bytes)
    ensures v.Err? ==> NothingFits(h, r, depth, old(path.active) - {r}, old(budget.nodes) + 1,
                                   old(budget.bytes) + budget.sizes.value, budget.sizes)
    decreases MAX_JSON_DEPTH - depth, 0
  {
    var refs := h[r].items;
    ghost var sizes, active := budget.sizes, path.active - {r};
    ghost var nodes, bytes := budget.nodes + 1, budget.bytes + budget.sizes.value;
    assert active + {r} == path.active;
    var values: seq<Value> := [];
    ghost var trees: seq<Node> := [];
    for i := 0 to |refs|
      invariant |trees| == i && |values| == i && path.active == active + {r}
      invariant ItemsFit(h, r, trees, depth, active)
      invariant DenoteAll(trees, values)
      invariant budget.nodes == nodes - 1 - CostAll(OwnNode, trees)
      invariant budget.bytes == bytes - sizes.value - CostAll(OwnBytes(sizes), trees)
    {
      var item, tree := Convert(h, refs[i], depth + 1, path, budget);
      if item.Err? {
        ItemMisfits(h, r, trees, depth, active, nodes, bytes, sizes, sizes.value);
        return Err(item.error), Leaf(Null);
      }
      CostPush(OwnNode, trees, tree);
      CostPush(OwnBytes(sizes), trees, tree);
      ItemsFitNext(h, r, trees, tree, depth, active);
      values, trees := values + [item.value], trees + [tree];
    }
    t := Arr(trees);
    ItemsFitWhole(h, r, t, depth, active);
    v := Ok(Array(values));
  }

  /** A key is charged a string header and its bytes, and has to be a string with a UTF-8 form. */
  method CopyKey(o: PyObject, budget: JsonBudget) returns (k: Option<Bytes>)
    modifies budget`bytes
    ensures k.Some? ==> IsKey(o, k.value) && budget.bytes == old(budget.bytes) - budget.sizes.header - |k.value|
    ensures k.None? ==> forall b :: IsKey(o, b) ==> old(budget.bytes) < budget.sizes.header + |b|
  {
    var ok := budget.ChargeBytes(budget.sizes.header);
    if !ok {
      return None;
    }
    if !o.PyStr? || o.utf8.None? {
      return None;
    }
    ok := budget.ChargeBytes(|o.utf8.value|);
    return if ok then o.utf8 else None;
  }

  /** What is left after the first keys and children of `r` have been charged. */
  ghost predicate Spent(keys: seq<Bytes>, trees: seq<Node>, nodes: int, bytes: int, sizes: Sizes, nodesLeft: int, bytesLeft: int) {
    && nodesLeft == nodes - 1 - CostAll(OwnNode, trees)
    && bytesLeft == bytes - sizes.value - KeyBytes(keys, sizes.header) - CostAll(OwnBytes(sizes), trees)
  }

  /** One entry of the dictionary at `r`, after the entries `keys` and `trees`. */
  method ConvertEntry(h: Heap, r: Ref, i: nat, depth: nat, path: Path, budget: JsonBudget,
                      ghost keys: seq<Bytes>, ghost trees: seq<Node>, ghost active: set<Ref>, ghost nodes: int, ghost bytes: int)
    returns (k: Bytes, v: Result<Value>, ghost tree: Node)
    requires Closed(h) && r in h && h[r].PyDict? && i < |h[r].items|
    requires depth < MAX_JSON_DEPTH && budget.sizes.value > 0 && path.active == active + {r}
    requires |keys| == |trees| == i && ItemsFit(h, r, trees, depth, active) && KeysFirst(h, r, keys)
    requires Spent(keys, trees, nodes, bytes, budget.sizes, budget.nodes, budget.bytes)
    modifies path, budget
    ensures v.Ok? ==> path.active == old(path.active) && Denotes(tree, v.value)
    ensures v.Ok? ==> ItemsFit(h, r, trees + [tree], depth, active)
    ensures v.Ok? ==> KeysFirst(h, r, keys + [k])
    ensures v.Ok? ==> Spent(keys + [k], trees + [tree], nodes, bytes, budget.sizes, budget.nodes, budget.bytes)
    ensures v.Err? ==> NothingFits(h, r, depth, active, nodes, bytes, budget.sizes)
    decreases MAX_JSON_DEPTH - depth, 0
  {
    ghost var sizes := budget.sizes;
    k, tree := [], Leaf(Null);
    var key := CopyKey(h[h[r].keys[i]], budget);
    if key.None? {
      KeyMisfits(h, r, keys, trees, depth, active, nodes, bytes, sizes);
      return k, Err("JSON key unsupported or byte budget exceeded"), tree;
    }
    k := key.value;
    KeyBytesPush(keys, sizes.header, k);
    v, tree := Convert(h, h[r].items[i], depth + 1, path, budget);
    if v.Err? {
      KeysCharge(h, r, keys + [k], sizes);
      ItemMisfits(h, r, trees, depth, active, nodes, bytes, sizes, sizes.value + KeyBytes(keys + [k], sizes.header));
    } else {
      CostPush(OwnNode, trees, tree);
      CostPush(OwnBytes(sizes), trees, tree);
      ItemsFitNext(h, r, trees, tree, depth, active);
    }
  }

  method ConvertDict(h: Heap, r: Ref, depth: nat, path: Path, budget: JsonBudget) returns (v: Result<Value>, ghost t: Node)
    requires Closed(h) && r in h && h[r].PyDict? && depth < MAX_JSON_DEPTH && budget.sizes.value > 0 && r in path.active
    modifies path, budget
    ensures v.Ok? ==> path.active == old(path.active)
    ensures v.Ok? ==> Converted(h, r, depth, old(path.active) - {r}, old(budget.nodes) + 1,
                                old(budget.bytes) + budget.sizes.value, budget.sizes,
                                t, v.value, budget.nodes, budget.bytes)
    ensures v.Err? ==> NothingFits(h, r, depth, old(path.active) - {r}, old(budget.nodes) + 1,
                                   old(budget.bytes) + budget.sizes.value, budget.sizes)
    decreases MAX_JSON_DEPTH - depth, 1
  {
    ghost var active := path.active - {r};
    ghost var nodes, bytes := budget.nodes + 1, budget.bytes + budget.sizes.value;
    assert active + {r} == path.active;
    var members: map<Bytes, Value> := map[];
    ghost var trees: seq<Node>, keys: seq<Bytes>, values: seq<Value> := [], [], [];
    for i := 0 to |h[r].items|
      invariant |trees| == i && path.active == active + {r}
      invariant DictSoFar(h, r, depth, active, keys, trees, values, members)
      invariant Spent(keys, trees, nodes, bytes, budget.sizes, budget.nodes, budget.bytes)
    {
      var k, item, tree := ConvertEntry(h, r, i, depth, path, budget, keys, trees, active, nodes, bytes);
      if item.Err? {
        return Err(item.error), Leaf(Null);
      }
      DictSoFarNext(h, r, depth, active, keys, trees, values, members, k, tree, item.value);
      members, trees, keys, values := members[k := item.value], trees + [tree], keys + [k], values + [item.value];
    }
    t, v := Obj(keys, trees), Ok(Object(members));
    DictConverted(h, r, depth, active, keys, trees, values, members, nodes, bytes, budget.sizes, budget.nodes, budget.bytes);
  }

  /** What the dictionary loop keeps of the entries converted so far. */
  ghost predicate DictSoFar(h: Heap, r: Ref, depth: nat, active: set<Ref>, keys: seq<Bytes>, trees: seq<Node>,
                            values: seq<Value>, members: map<Bytes, Value>)
    requires Closed(h) && r in h && h[r].PyDict?
  {
    && |keys| == |trees| == |values|
    && ItemsFit(h, r, trees, depth, active) && KeysFirst(h, r, keys)
    && DenoteAll(trees, values) && members == Inserted(keys, values)
  }

  lemma DictSoFarNext(h: Heap, r: Ref, depth: nat, active: set<Ref>, keys: seq<Bytes>, trees: seq<Node>, values: seq<Value>,
                      members: map<Bytes, Value>, k: Bytes, tree: Node, v: Value)
    requires Closed(h) && r in h && h[r].PyDict? && DictSoFar(h, r, depth, active, keys, trees, values, members)
    requires ItemsFit(h, r, trees + [tree], depth, active) && KeysFirst(h, r, keys + [k]) && Denotes(tree, v)
    ensures DictSoFar(h, r, depth, active, keys + [k], trees + [tree], values + [v], members[k := v])
  {
    InsertedPush(keys, values, k, v);
  }

  lemma DictConverted(h: Heap, r: Ref, depth: nat, active: set<Ref>, keys: seq<Bytes>, trees: seq<Node>, values: seq<Value>,
                      members: map<Bytes, Value>, nodes: int, bytes: int, sizes: Sizes, nodesLeft: nat, bytesLeft: nat)
    requires Closed(h) && r in h && h[r].PyDict? && r !in active && depth < MAX_JSON_DEPTH
    requires DictSoFar(h, r, depth, active, keys, trees, values, members) && |trees| == |h[r].items|
    requires Spent(keys, trees, nodes, bytes, sizes, nodesLeft, bytesLeft)
    ensures Converted(h, r, depth, active, nodes, bytes, sizes, Obj(keys, trees), Object(members), nodesLeft, bytesLeft)
  {
    ItemsFitWhole(h, r, Obj(keys, trees), depth, active);
    ObjectDenoted(Obj(keys, trees), values);
  }

  lemma KeyBytesPush(keys: seq<Bytes>, header: nat, k: Bytes)
    ensures KeyBytes(keys + [k], header) == KeyBytes(keys, header) + header + |k|
  {
    assert (keys + [k])[..|keys|] == keys;
  }

  lemma ItemsFitNext(h: Heap, r: Ref, trees: seq<Node>, tree: Node, depth: nat, active: set<Ref>)
    requires Closed(h) && r in h && IsContainer(h[r]) && ItemsFit(h, r, trees, depth, active) && |trees| < |h[r].items|
    requires Unfolds(h, h[r].items[|trees|], tree) && depth + 1 + Depth(tree) <= MAX_JSON_DEPTH
    requires forall x :: x in active + {r} ==> !Passes(h, h[r].items[|trees|], tree, x)
    ensures ItemsFit(h, r, trees + [tree], depth, active)
  {
  }

  lemma CostPush(own: Node -> nat, trees: seq<Node>, tree: Node)
    ensures CostAll(own, trees + [tree]) == CostAll(own, trees) + Cost(own, tree)
  {
    CostNext(own, trees + [tree], |trees|);
    assert (trees + [tree])[..|trees|] == trees && (trees + [tree])[..|trees| + 1] == trees + [tree];
  }

  // ---------------------------------------------------------------- main result

  /** The unfolding exists, and is within the nesting, node and byte limits. Neither paths nor children counts appear. */
  ghost predicate Admissible(h: Heap, r: Ref, sizes: Sizes, t: Node)
    requires Closed(h) && r in h
  {
    && Unfolds(h, r, t) && Depth(t) <= 64 && ValueCount(t) <= 16_384
    && ValueCount(t) * sizes.value + KeyCount(t) * sizes.header + TextCount(t) <= 1024 * 1024
  }

  lemma {:induction false} KeyBytesByCount(keys: seq<Bytes>, header: nat)
    ensures KeyBytes(keys, header) == |keys| * header + TotalLength(keys)
  {
    if keys == [] {
    } else {
      KeyBytesByCount(keys[..|keys| - 1], header);
      assert |keys| * header == (|keys| - 1) * header + header;
    }
  }

  /** The budgets charge one node and one value's size for each value, and a header and the bytes for each key and text. */
  lemma {:induction false} BudgetByCount(t: Node, sizes: Sizes)
    ensures NodeCount(t) == ValueCount(t)
    ensures ByteCount(sizes, t) == ValueCount(t) * sizes.value + KeyCount(t) * sizes.header + TextCount(t)
    decreases t, 1
  {
    if t.Leaf? {
    } else {
      BudgetOfAll(t.items, sizes);
      BudgetAdds(1, ValueCountAll(t.items), sizes.value);
      if t.Obj? {
        KeyBytesByCount(t.keys, sizes.header);
        BudgetAdds(|t.keys|, KeyCountAll(t.items), sizes.header);
      }
    }
  }

  lemma {:induction false} BudgetOfAll(items: seq<Node>, sizes: Sizes)
    ensures CostAll(OwnNode, items) == ValueCountAll(items)
    ensures CostAll(OwnBytes(sizes), items)
         == ValueCountAll(items) * sizes.value + KeyCountAll(items) * sizes.header + TextCountAll(items)
    decreases items, 0
  {
    if items == [] {
    } else {
      BudgetByCount(items[0], sizes);
      BudgetOfAll(items[1..], sizes);
      BudgetAdds(ValueCount(items[0]), ValueCountAll(items[1..]), sizes.value);
      BudgetAdds(KeyCount(items[0]), KeyCountAll(items[1..]), sizes.header);
    }
  }

  lemma BudgetAdds(a: nat, b: nat, size: nat)
    ensures (a + b) * size == a * size + b * size
  {
  }

  ghost predicate HasAdmissible(h: Heap, r: Ref, sizes: Sizes)
    requires Closed(h) && r in h
  {
    exists t :: Admissible(h, r, sizes, t)
  }

  /** Conversion yields the unfolding's value exactly when the graph has an admissible unfolding. */
  method PyAnyToJsonValue(h: Heap, r: Ref, sizes: Sizes) returns (v: Result<Value>)
    requires Closed(h) && r in h && sizes.value > 0
    ensures v.Ok? <==> HasAdmissible(h, r, sizes)
    ensures v.Ok? ==> forall t :: Unfolds(h, r, t) ==> Denotes(t, v.value)
  {
    var budget := new JsonBudget(sizes);
    var path := new Path();
    ghost var t;
    v, t := Convert(h, r, 0, path, budget);
    if v.Ok? {
      BudgetByCount(t, sizes);
      assert Admissible(h, r, sizes, t);
      forall u | Unfolds(h, r, u)
        ensures Denotes(u, v.value)
      {
        UnfoldsUnique(h, r, t, u);
      }
    } else {
      forall u | Unfolds(h, r, u)
        ensures !Admissible(h, r, sizes, u)
      {
        BudgetByCount(u, sizes);
        assert !Fits(h, r, u, 0, {}, MAX_JSON_NODES, MAX_JSON_BYTES, sizes);
      }
    }
  }

  /** Each object on the trail is an item of the one before. */
  ghost predicate Trail(h: Heap, trail: seq<Ref>)
    requires Closed(h)
  {
    && trail != [] && trail[0] in h
    && forall k, m :: 0 <= k < m < |trail| && m == k + 1 ==> Holds(h, trail[k], trail[m])
  }

  predicate Holds(h: Heap, a: Ref, b: Ref) { a in h && IsContainer(h[a]) && b in h[a].items }

  lemma TrailTail(h: Heap, trail: seq<Ref>) returns (i: nat)
    requires Closed(h) && Trail(h, trail) && |trail| > 1
    ensures Trail(h, trail[1..]) && IsContainer(h[trail[0]]) && i < |h[trail[0]].items| && h[trail[0]].items[i] == trail[1]
  {
    assert Holds(h, trail[0], trail[1]);
    i :| 0 <= i < |h[trail[0]].items| && h[trail[0]].items[i] == trail[1];
    forall k, m | 0 <= k < m < |trail[1..]| && m == k + 1
      ensures Holds(h, trail[1..][k], trail[1..][m])
    {
      assert trail[1..][k] == trail[k + 1] && trail[1..][m] == trail[m + 1];
    }
  }

  lemma {:induction false} TrailPasses(h: Heap, trail: seq<Ref>, t: Node)
    requires Closed(h) && Trail(h, trail) && Unfolds(h, trail[0], t)
    requires trail[|trail| - 1] in h && IsContainer(h[trail[|trail| - 1]])
    ensures Passes(h, trail[0], t, trail[|trail| - 1])
    decreases |trail|
  {
    if |trail| == 1 {
    } else {
      var i := TrailTail(h, trail);
      TrailPasses(h, trail[1..], t.items[i]);
    }
  }

  /** A container that reaches itself has no unfolding, so its conversion ends in an error. */
  lemma CyclicHasNoUnfolding(h: Heap, trail: seq<Ref>, t: Node)
    requires Closed(h) && Trail(h, trail) && |trail| > 1 && trail[|trail| - 1] == trail[0]
    ensures !Unfolds(h, trail[0], t)
  {
    if Unfolds(h, trail[0], t) {
      var i := TrailTail(h, trail);
      TrailPasses(h, trail[1..], t.items[i]);
      NotBelowItself(h, trail[0], t, i);
    }
  }

  // ---------------------------------------------------------------- which scalars convert

  /** Every object that is no container unfolds to its own JSON scalar or to nothing. */
  lemma ScalarUnfoldings(h: Heap, r: Ref, t: Node)
    requires Closed(h) && r in h && !IsContainer(h[r])
    ensures Unfolds(h, r, t) <==>
      match h[r]
      case PyNone => t == Leaf(Null)
      case PyBool(b) => t == Leaf(Bool(b))
      case PyInt(i) => -9223372036854775808 <= i <= 18446744073709551615 && t == Leaf(Int(i))
      case PyFloat(f) => f.Some? && t == Leaf(Float(f.value))
      case PyStr(utf8) => utf8.Some? && t == Leaf(Text(utf8.value))
      case _ => false
  {
  }

  /** A dictionary with a key that is no UTF-8 string has no unfolding. */
  lemma NonTextKeyHasNoUnfolding(h: Heap, r: Ref, i: nat, t: Node)
    requires Closed(h) && r in h && h[r].PyDict? && i < |h[r].keys|
    requires !(h[h[r].keys[i]].PyStr? && h[h[r].keys[i]].utf8.Some?)
    ensures !Unfolds(h, r, t)
  {
    if t.Obj? && i < |t.keys| {
      assert !IsKey(h[h[r].keys[i]], t.keys[i]);
    }
  }

  /** A list or a dictionary unfolds item by item and key by key. */
  lemma ContainerUnfoldings(h: Heap, r: Ref, t: Node)
    requires Closed(h) && r in h && IsContainer(h[r]) && Unfolds(h, r, t)
    ensures t.Arr? <==> h[r].PyList?
    ensures t.Obj? <==> h[r].PyDict?
    ensures |t.items| == |h[r].items| && forall i :: 0 <= i < |t.items| ==> Unfolds(h, h[r].items[i], t.items[i])
    ensures t.Obj? ==> |t.keys| == |h[r].keys| && forall i :: 0 <= i < |t.keys| ==> h[h[r].keys[i]] == PyStr(Some(t.keys[i]))
  {
    if t.Obj? {
      assert forall i :: 0 <= i < |t.keys| ==> IsKey(h[h[r].keys[i]], t.keys[i]);
    }
  }
}
