/**
 JSON as it is written (objects list their entries in order and may repeat a key) and as it is kept (one value per key),
 with the measures that the two admission policies budget.
 */
module JsonTree {
  import opened Common

  datatype Scalar = Null | Bool(b: bool) | Int(i: int) | Float(r: real) | Text(utf8: Bytes)

  datatype Node =
    | Leaf(scalar: Scalar)
    | Arr(items: seq<Node>)
    | Obj(keys: seq<Bytes>, items: seq<Node>)

  datatype Value =
    | Plain(scalar: Scalar)
    | Array(values: seq<Value>)
    | Object(members: map<Bytes, Value>)

  /** Every entry of every object has its key and its value. */
  ghost predicate WellFormed(n: Node) {
    match n
    case Leaf(_) => true
    case Arr(items) => forall i :: 0 <= i < |items| ==> WellFormed(items[i])
    case Obj(keys, items) => |keys| == |items| && forall i :: 0 <= i < |items| ==> WellFormed(items[i])
  }

  /** Section 4 of RFC 8259 leaves repeated names open; here the last entry of a name is the one that stands. */
  ghost predicate Denotes(n: Node, v: Value) {
    match n
    case Leaf(scalar) => v == Plain(scalar)
    case Arr(items) =>
      v.Array? && |v.values| == |items| && forall i :: 0 <= i < |items| ==> Denotes(items[i], v.values[i])
    case Obj(keys, items) =>
      && v.Object? && |keys| == |items|
      && (forall k :: k in v.members <==> k in keys)
      && (forall i :: 0 <= i < |items| && IsLast(keys, i) ==> Denotes(items[i], v.members[keys[i]]))
  }

  predicate IsLast(keys: seq<Bytes>, i: nat)
    requires i < |keys|
  {
    forall j :: i < j < |keys| ==> keys[j] != keys[i]
  }

  lemma {:induction false} LastEntry(keys: seq<Bytes>, k: Bytes) returns (i: nat)
    requires k in keys
    ensures i < |keys| && keys[i] == k && IsLast(keys, i)
  {
    i := |keys| - 1;
    while keys[i] != k
      invariant i < |keys| && forall j :: i < j < |keys| ==> keys[j] != k
      decreases i
    {
      i := i - 1;
    }
  }

  /** A tree denotes at most one value. */
  lemma {:induction false} DenotesUnique(n: Node, v: Value, w: Value)
    requires Denotes(n, v) && Denotes(n, w)
    ensures v == w
    decreases n
  {
    match n
    case Leaf(_) =>
    case Arr(items) =>
      forall i | 0 <= i < |items|
        ensures v.values[i] == w.values[i]
      {
        DenotesUnique(items[i], v.values[i], w.values[i]);
      }
    case Obj(keys, items) =>
      assert v.members.Keys == w.members.Keys;
      forall k | k in v.members
        ensures v.members[k] == w.members[k]
      {
        var i := LastEntry(keys, k);
        DenotesUnique(items[i], v.members[k], w.members[k]);
      }
  }

  // ---------------------------------------------------------------- what is budgeted

  /** Container nesting: scalars do not count, an empty container does. */
  function Depth(n: Node): nat {
    if n.Leaf? then 0 else 1 + DepthAll(n.items)
  }

  function DepthAll(items: seq<Node>): nat {
    if items == [] then 0 else
      var d, rest := Depth(items[0]), DepthAll(items[1..]);
      if d < rest then rest else d
  }

  /** The values of a tree, containers included and discarded ones too. */
  function ValueCount(n: Node): nat {
    if n.Leaf? then 1 else 1 + ValueCountAll(n.items)
  }

  function ValueCountAll(items: seq<Node>): nat {
    if items == [] then 0 else ValueCount(items[0]) + ValueCountAll(items[1..])
  }

  /** The object keys of a tree, repeated ones too. */
  function KeyCount(n: Node): nat {
    match n
    case Leaf(_) => 0
    case Arr(items) => KeyCountAll(items)
    case Obj(keys, items) => |keys| + KeyCountAll(items)
  }

  function KeyCountAll(items: seq<Node>): nat {
    if items == [] then 0 else KeyCount(items[0]) + KeyCountAll(items[1..])
  }

  /** The bytes of all texts and all keys of a tree. */
  function TextCount(n: Node): nat {
    match n
    case Leaf(scalar) => if scalar.Text? then |scalar.utf8| else 0
    case Arr(items) => TextCountAll(items)
    case Obj(keys, items) => TotalLength(keys) + TextCountAll(items)
  }

  function TextCountAll(items: seq<Node>): nat {
    if items == [] then 0 else TextCount(items[0]) + TextCountAll(items[1..])
  }

  function TotalLength(keys: seq<Bytes>): nat {
    if keys == [] then 0 else TotalLength(keys[..|keys| - 1]) + |keys[|keys| - 1]|
  }

  /** The total over a tree of what each of its nodes costs by itself. */
  function Cost(own: Node -> nat, n: Node): nat {
    own(n) + if n.Leaf? then 0 else CostAll(own, n.items)
  }

  function CostAll(own: Node -> nat, items: seq<Node>): nat {
    if items == [] then 0 else Cost(own, items[0]) + CostAll(own, items[1..])
  }

  lemma {:induction false} CostSplit(own: Node -> nat, items: seq<Node>, i: nat)
    requires i <= |items|
    ensures CostAll(own, items) == CostAll(own, items[..i]) + CostAll(own, items[i..])
  {
    if i == 0 {
      assert items[..i] == [] && items[i..] == items;
    } else {
      assert items[..i][1..] == items[1..][..i - 1] && items[i..] == items[1..][i - 1..];
      CostSplit(own, items[1..], i - 1);
    }
  }

  /** One item further along the prefix, and what the whole costs at least. */
  lemma CostNext(own: Node -> nat, items: seq<Node>, i: nat)
    requires i < |items|
    ensures CostAll(own, items[..i + 1]) == CostAll(own, items[..i]) + Cost(own, items[i])
    ensures CostAll(own, items) >= CostAll(own, items[..i + 1])
  {
    CostSplit(own, items, i + 1);
    CostSplit(own, items[..i + 1], i);
    assert items[..i + 1][..i] == items[..i] && items[..i + 1][i..] == [items[i]];
    assert CostAll(own, [items[i]]) == Cost(own, items[i]) + CostAll(own, []);
  }

  lemma {:induction false} DepthOfItem(items: seq<Node>, i: nat)
    requires i < |items|
    ensures Depth(items[i]) <= DepthAll(items)
  {
    if i == 0 {
    } else {
      assert items[i] == items[1..][i - 1];
      DepthOfItem(items[1..], i - 1);
    }
  }

  lemma {:induction false} DepthAllBound(items: seq<Node>, bound: nat)
    requires forall i :: 0 <= i < |items| ==> Depth(items[i]) <= bound
    ensures DepthAll(items) <= bound
  {
    if items == [] {
    } else {
      DepthAllBound(items[1..], bound);
    }
  }

  // ---------------------------------------------------------------- building a value entry by entry

  /** The map that results from inserting the entries in order. */
  function Inserted(keys: seq<Bytes>, values: seq<Value>): map<Bytes, Value>
    requires |keys| == |values|
  {
    if keys == [] then map[] else
      var last := |keys| - 1;
      Inserted(keys[..last], values[..last])[keys[last] := values[last]]
  }

  lemma InsertedPush(keys: seq<Bytes>, values: seq<Value>, k: Bytes, v: Value)
    requires |keys| == |values|
    ensures Inserted(keys + [k], values + [v]) == Inserted(keys, values)[k := v]
  {
    assert (keys + [k])[..|keys|] == keys && (values + [v])[..|keys|] == values;
  }

  lemma {:induction false} InsertedKeys(keys: seq<Bytes>, values: seq<Value>, k: Bytes)
    requires |keys| == |values|
    ensures k in Inserted(keys, values) <==> k in keys
  {
    if keys == [] {
    } else {
      var last := |keys| - 1;
      InsertedKeys(keys[..last], values[..last], k);
      assert keys == keys[..last] + [keys[last]];
    }
  }

  /** The last entry of a key is the one that stands. */
  lemma {:induction false} InsertedKeepsLast(keys: seq<Bytes>, values: seq<Value>, i: nat)
    requires i < |keys| == |values| && IsLast(keys, i)
    ensures keys[i] in Inserted(keys, values) && Inserted(keys, values)[keys[i]] == values[i]
  {
    var last := |keys| - 1;
    if i == last {
    } else {
      InsertedKeepsLast(keys[..last], values[..last], i);
    }
  }

  ghost predicate DenoteAll(items: seq<Node>, values: seq<Value>) {
    |values| <= |items| && forall i :: 0 <= i < |values| ==> Denotes(items[i], values[i])
  }

  /** Inserting the values of the entries in order gives the object's value. */
  lemma ObjectDenoted(n: Node, values: seq<Value>)
    requires n.Obj? && |n.keys| == |n.items| == |values| && DenoteAll(n.items, values)
    ensures Denotes(n, Object(Inserted(n.keys, values)))
  {
    forall k ensures k in Inserted(n.keys, values) <==> k in n.keys {
      InsertedKeys(n.keys, values, k);
    }
    forall i | 0 <= i < |n.keys| && IsLast(n.keys, i)
      ensures Inserted(n.keys, values)[n.keys[i]] == values[i]
    {
      InsertedKeepsLast(n.keys, values, i);
    }
  }
}
